/** The I2C bus and the device behind it, seen as a file of 256 eight-bit
    registers. Both driver revisions reach the device only through single-byte
    reads and writes (pigpio's i2c_read_byte_data / i2c_write_byte_data in
    iic.py, smbus' read_byte_data / write_byte_data in accel.py), and every
    flag operation they perform is a read-modify-write of one register. */
module Bus {
  import opened Registers

  /** Register contents, indexed by register address. */
  type Regs = s: seq<Byte> | |s| == 256 witness seq(256, _ => 0)

  function Get(regs: Regs, addr: Addr): Byte { regs[addr] }

  /** A read-modify-write of one register: OR the mask in (`set_flag`), or
      AND with its complement (`unset_flag`). */
  datatype FlagOp = SetBits(addr: Addr, mask: Byte) | ClearBits(addr: Addr, mask: Byte)

  /** One byte written to the bus. */
  datatype Write = Write(addr: Addr, value: Byte)

  /** The byte a flag operation writes back, given the byte it read. */
  function Updated(before: Byte, op: FlagOp): Byte {
    match op
    case SetBits(_, mask) => before | mask
    case ClearBits(_, mask) => before & !mask
  }

  /** The register file after one flag operation: only the addressed
      register changes. */
  function Apply(regs: Regs, op: FlagOp): (regs': Regs)
    ensures Get(regs', op.addr) == Updated(Get(regs, op.addr), op)
    ensures forall a: Addr :: a != op.addr ==> Get(regs', a) == Get(regs, a)
  {
    regs[op.addr := Updated(Get(regs, op.addr), op)]
  }

  /** The register file after a sequence of flag operations, in order. */
  function ApplyAll(regs: Regs, ops: seq<FlagOp>): Regs
    decreases |ops|
  {
    if ops == [] then regs else ApplyAll(Apply(regs, ops[0]), ops[1..])
  }

  /** The bytes a sequence of flag operations writes to the bus, in order. */
  function WritesOf(regs: Regs, ops: seq<FlagOp>): seq<Write>
    decreases |ops|
  {
    if ops == [] then []
    else [Write(ops[0].addr, Updated(Get(regs, ops[0].addr), ops[0]))]
         + WritesOf(Apply(regs, ops[0]), ops[1..])
  }

  predicate Touches(ops: seq<FlagOp>, addr: Addr) {
    exists i :: 0 <= i < |ops| && ops[i].addr == addr
  }

  // ------------------------------------------------------------ the algebra

  lemma SetIdempotent(v: Byte, a: Addr, m: Byte)
    ensures Updated(Updated(v, SetBits(a, m)), SetBits(a, m)) == Updated(v, SetBits(a, m))
  {
  }

  lemma ClearIdempotent(v: Byte, a: Addr, m: Byte)
    ensures Updated(Updated(v, ClearBits(a, m)), ClearBits(a, m)) == Updated(v, ClearBits(a, m))
  {
  }

  /** Clearing a mask right after setting it leaves exactly the other bits of
      the original byte. */
  lemma ClearAfterSet(v: Byte, a: Addr, m: Byte)
    ensures Updated(Updated(v, SetBits(a, m)), ClearBits(a, m)) == v & !m
  {
  }

  /** One operation alone: a single read-modify-write of its register. */
  lemma SingleOp(regs: Regs, op: FlagOp)
    ensures ApplyAll(regs, [op]) == Apply(regs, op)
            == regs[op.addr := Updated(Get(regs, op.addr), op)]
    ensures WritesOf(regs, [op]) == [Write(op.addr, Updated(Get(regs, op.addr), op))]
  {
    assert [op][1..] == [];
  }

  /** Splitting a sequence of operations: run the first part, then the rest. */
  lemma {:induction false} ApplyAllAppend(regs: Regs, xs: seq<FlagOp>, ys: seq<FlagOp>)
    ensures ApplyAll(regs, xs + ys) == ApplyAll(ApplyAll(regs, xs), ys)
    ensures WritesOf(regs, xs + ys) == WritesOf(regs, xs) + WritesOf(ApplyAll(regs, xs), ys)
    decreases |xs|
  {
    if xs == [] {
      assert xs + ys == ys;
    } else {
      assert (xs + ys)[1..] == xs[1..] + ys;
      ApplyAllAppend(Apply(regs, xs[0]), xs[1..], ys);
    }
  }

  /** Appending one operation: one more read-modify-write on the state the
      earlier ones left. */
  lemma ApplyAllSnoc(regs: Regs, ops: seq<FlagOp>, op: FlagOp)
    ensures ApplyAll(regs, ops + [op]) == Apply(ApplyAll(regs, ops), op)
    ensures WritesOf(regs, ops + [op])
            == WritesOf(regs, ops) + [Write(op.addr, Updated(Get(ApplyAll(regs, ops), op.addr), op))]
  {
    ApplyAllAppend(regs, ops, [op]);
    SingleOp(ApplyAll(regs, ops), op);
  }

  /** A register that no operation addresses keeps its value. */
  lemma {:induction false} ApplyAllFrame(regs: Regs, ops: seq<FlagOp>, addr: Addr)
    requires !Touches(ops, addr)
    ensures Get(ApplyAll(regs, ops), addr) == Get(regs, addr)
    decreases |ops|
  {
    if ops != [] {
      assert ops[0].addr != addr;
      assert !Touches(ops[1..], addr) by {
        forall i | 0 <= i < |ops[1..]| ensures ops[1..][i].addr != addr {
          assert ops[1..][i] == ops[i + 1];
        }
      }
      ApplyAllFrame(Apply(regs, ops[0]), ops[1..], addr);
    }
  }

  /** One write per operation, to the operation's register, carrying the
      updated value of what that register held just before. */
  lemma {:induction false} WritesOfShape(regs: Regs, ops: seq<FlagOp>, i: nat)
    requires i < |ops|
    ensures |WritesOf(regs, ops)| == |ops|
    ensures WritesOf(regs, ops)[i]
            == Write(ops[i].addr, Updated(Get(ApplyAll(regs, ops[..i]), ops[i].addr), ops[i]))
    decreases |ops|
  {
    if i == 0 {
      WritesOfLength(regs, ops);
      assert ops[..0] == [];
    } else {
      WritesOfShape(Apply(regs, ops[0]), ops[1..], i - 1);
      assert ops[1..][..i - 1] == ops[..i][1..];
      assert ops[..i] != [] && ops[..i][0] == ops[0];
    }
  }

  lemma {:induction false} WritesOfLength(regs: Regs, ops: seq<FlagOp>)
    ensures |WritesOf(regs, ops)| == |ops|
    decreases |ops|
  {
    if ops != [] {
      WritesOfLength(Apply(regs, ops[0]), ops[1..]);
    }
  }

  /** Operations that only OR bits into a register never clear a bit of it. */
  lemma {:induction false} SetOnlyKeepsBits(regs: Regs, ops: seq<FlagOp>, addr: Addr)
    requires forall i :: 0 <= i < |ops| && ops[i].addr == addr ==> ops[i].SetBits?
    ensures Within(Get(regs, addr), Get(ApplyAll(regs, ops), addr))
    decreases |ops|
  {
    if ops != [] {
      var next := Apply(regs, ops[0]);
      assert Within(Get(regs, addr), Get(next, addr));
      forall i | 0 <= i < |ops[1..]| && ops[1..][i].addr == addr ensures ops[1..][i].SetBits? {
        assert ops[1..][i] == ops[i + 1];
      }
      SetOnlyKeepsBits(next, ops[1..], addr);
    }
  }

  /** The abstract device: its registers, and (for specification only) the
      sequence of bytes written to it so far. */
  class RegisterFile {
    var regs: Regs
    ghost var writes: seq<Write>

    constructor (initial: Regs)
      ensures regs == initial && writes == []
    {
      regs := initial;
      writes := [];
    }

    /** A single-byte register read. */
    method ReadByte(addr: Addr) returns (v: Byte)
      ensures v == Get(regs, addr)
    {
      v := regs[addr];
    }

    /** A single-byte register write; no other register changes. */
    method WriteByte(addr: Addr, v: Byte)
      modifies this
      ensures Get(regs, addr) == v
      ensures forall a: Addr :: a != addr ==> Get(regs, a) == Get(old(regs), a)
      ensures regs == old(regs)[addr := v]
      ensures writes == old(writes) + [Write(addr, v)]
    {
      regs := regs[addr := v];
      writes := writes + [Write(addr, v)];
    }
  }
}
