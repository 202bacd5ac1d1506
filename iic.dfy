/** The transport layer of iic.py: register read-modify-write and block read
    over the pigpio I2C handle, here over an abstract register file. */
module Iic {
  import opened Wrappers
  import opened Registers
  import opened Bus

  /** The first argument of `set_flag` / `unset_flag`: a register (which only
      carries its address) or a flag member (its address and its value). */
  datatype RegOrFlag = RegisterRef(addr: Addr) | FlagRef(addr: Addr, value: Byte)

  /** The mask `set_flag` / `unset_flag` apply: the explicit `flag` argument
      when given, otherwise the flag member itself. A register given without
      a flag leaves Python OR-ing an int with a class, a TypeError. */
  function MaskOf(target: RegOrFlag, flag: Option<Byte>): (m: Option<Byte>)
    ensures flag.Some? ==> m == flag
    ensures flag.None? && target.FlagRef? ==> m == Some(target.value)
    ensures flag.None? && target.RegisterRef? ==> m.None?
  {
    if flag.Some? then flag
    else if target.FlagRef? then Some(target.value)
    else None
  }

  /** Bit `i` of `b`, counting from the least significant. */
  predicate Bit(b: Byte, i: nat)
    requires i < 8
  {
    (b >> i) & 1 == 1
  }

  /** Two bytes share a set bit exactly when their AND is non-zero. */
  lemma SharedBit(a: Byte, b: Byte)
    ensures (a & b != 0) <==> exists i :: 0 <= i < 8 && Bit(a, i) && Bit(b, i)
  {
    if a & b != 0 {
      if Bit(a, 0) && Bit(b, 0) { assert Bit(a, 0) && Bit(b, 0); }
      else if Bit(a, 1) && Bit(b, 1) { assert Bit(a, 1) && Bit(b, 1); }
      else if Bit(a, 2) && Bit(b, 2) { assert Bit(a, 2) && Bit(b, 2); }
      else if Bit(a, 3) && Bit(b, 3) { assert Bit(a, 3) && Bit(b, 3); }
      else if Bit(a, 4) && Bit(b, 4) { assert Bit(a, 4) && Bit(b, 4); }
      else if Bit(a, 5) && Bit(b, 5) { assert Bit(a, 5) && Bit(b, 5); }
      else if Bit(a, 6) && Bit(b, 6) { assert Bit(a, 6) && Bit(b, 6); }
      else if Bit(a, 7) && Bit(b, 7) { assert Bit(a, 7) && Bit(b, 7); }
      else { assert false; }
    }
  }

  /** `IIC.check_flag`: an empty mask is a ValueError; otherwise the answer
      is whether the bit field and the mask have a set bit in common. */
  function CheckFlag(bitfield: Byte, flag: Byte): (r: Result<bool>)
    ensures r.Err? <==> flag == 0
    ensures r.Err? ==> r.error == ValueError
    ensures r.Ok? ==> (r.value <==> exists i :: 0 <= i < 8 && Bit(bitfield, i) && Bit(flag, i))
  {
    SharedBit(bitfield, flag);
    if flag == 0 then Err(ValueError) else Ok(bitfield & flag != 0)
  }

  /** `IIC._block_read`: the bus reports a size and the bytes read; a
      negative size is an OSError, otherwise the bytes are passed on as they
      are. The register and length only go to the bus. */
  function BlockRead(dataSize: int, data: seq<Byte>): (r: Result<seq<Byte>>)
    ensures r.Err? <==> dataSize < 0
    ensures r.Err? ==> r.error == OSError
    ensures r.Ok? ==> r.value == data
  {
    if dataSize < 0 then Err(OSError) else Ok(data)
  }

  /** A flag member of a register whose address is known, as `set_flag`
      receives it. */
  function RefTo(f: Flag): RegOrFlag
    requires KnownAddress(f.reg).Some?
  {
    FlagRef(KnownAddress(f.reg).value, f.mask)
  }

  /** The pigpio-based transport, bound to one device. */
  class Iic {
    const dev: RegisterFile

    constructor (dev: RegisterFile)
      ensures this.dev == dev
    {
      this.dev := dev;
    }

    /** `_read_register`. */
    method ReadRegister(register: Addr) returns (v: Byte)
      ensures v == Get(dev.regs, register)
    {
      v := dev.ReadByte(register);
    }

    /** `_set_flag`: register `register` becomes old | flag; nothing else
        changes, and exactly that one byte is written. */
    method SetFlagAt(register: Addr, flag: Byte)
      modifies dev
      ensures Get(dev.regs, register) == Get(old(dev.regs), register) | flag
      ensures forall a: Addr :: a != register ==> Get(dev.regs, a) == Get(old(dev.regs), a)
      ensures dev.regs == Apply(old(dev.regs), SetBits(register, flag))
      ensures dev.writes == old(dev.writes) + WritesOf(old(dev.regs), [SetBits(register, flag)])
    {
      SingleOp(dev.regs, SetBits(register, flag));
      var v := dev.ReadByte(register);
      var after := Updated(v, SetBits(register, flag));
      dev.WriteByte(register, after);
      assert dev.regs == Apply(old(dev.regs), SetBits(register, flag));
    }

    /** `_unset_flag`: register `register` becomes old & ~flag; nothing else
        changes, and exactly that one byte is written. */
    method UnsetFlagAt(register: Addr, flag: Byte)
      modifies dev
      ensures Get(dev.regs, register) == Get(old(dev.regs), register) & !flag
      ensures forall a: Addr :: a != register ==> Get(dev.regs, a) == Get(old(dev.regs), a)
      ensures dev.regs == Apply(old(dev.regs), ClearBits(register, flag))
      ensures dev.writes == old(dev.writes) + WritesOf(old(dev.regs), [ClearBits(register, flag)])
    {
      SingleOp(dev.regs, ClearBits(register, flag));
      var v := dev.ReadByte(register);
      var after := Updated(v, ClearBits(register, flag));
      dev.WriteByte(register, after);
      assert dev.regs == Apply(old(dev.regs), ClearBits(register, flag));
    }

    /** Runs one flag operation with `_set_flag` or `_unset_flag`. */
    method Perform(op: FlagOp)
      modifies dev
      ensures dev.regs == Apply(old(dev.regs), op)
      ensures dev.writes == old(dev.writes) + WritesOf(old(dev.regs), [op])
    {
      match op
      case SetBits(a, m) => SetFlagAt(a, m);
      case ClearBits(a, m) => UnsetFlagAt(a, m);
    }

    /** `set_flag(regorflag, flag=None)`: sets the mask chosen by `MaskOf`
        at the register's address; with neither a flag member nor a flag it
        fails after reading the register, leaving the device unchanged. */
    method SetFlag(target: RegOrFlag, flag: Option<Byte>) returns (r: Result<Byte>)
      modifies dev
      ensures MaskOf(target, flag).None? ==> r == Err(TypeError) && dev.regs == old(dev.regs)
                                              && dev.writes == old(dev.writes)
      ensures MaskOf(target, flag).Some? ==>
                var op := SetBits(target.addr, MaskOf(target, flag).value);
                && r == Ok(Get(dev.regs, target.addr))
                && dev.regs == Apply(old(dev.regs), op)
                && dev.writes == old(dev.writes) + WritesOf(old(dev.regs), [op])
    {
      var mask := MaskOf(target, flag);
      if mask.None? {
        var _ := dev.ReadByte(target.addr);
        return Err(TypeError);
      }
      SetFlagAt(target.addr, mask.value);
      r := Ok(dev.regs[target.addr]);
    }

    /** `unset_flag(regorflag, flag=None)`, the clearing counterpart. */
    method UnsetFlag(target: RegOrFlag, flag: Option<Byte>) returns (r: Result<Byte>)
      modifies dev
      ensures MaskOf(target, flag).None? ==> r == Err(TypeError) && dev.regs == old(dev.regs)
                                              && dev.writes == old(dev.writes)
      ensures MaskOf(target, flag).Some? ==>
                var op := ClearBits(target.addr, MaskOf(target, flag).value);
                && r == Ok(Get(dev.regs, target.addr))
                && dev.regs == Apply(old(dev.regs), op)
                && dev.writes == old(dev.writes) + WritesOf(old(dev.regs), [op])
    {
      var mask := MaskOf(target, flag);
      if mask.None? {
        var _ := dev.ReadByte(target.addr);
        return Err(TypeError);
      }
      UnsetFlagAt(target.addr, mask.value);
      r := Ok(dev.regs[target.addr]);
    }

    /** Runs a sequence of flag operations in order, one read-modify-write
        each; the device ends as `ApplyAll` says, having seen `WritesOf`. */
    method PerformAll(ops: seq<FlagOp>)
      modifies dev
      ensures dev.regs == ApplyAll(old(dev.regs), ops)
      ensures dev.writes == old(dev.writes) + WritesOf(old(dev.regs), ops)
    {
      for k := 0 to |ops|
        invariant dev.regs == ApplyAll(old(dev.regs), ops[..k])
        invariant dev.writes == old(dev.writes) + WritesOf(old(dev.regs), ops[..k])
      {
        ApplyAllSnoc(old(dev.regs), ops[..k], ops[k]);
        SingleOp(dev.regs, ops[k]);
        Perform(ops[k]);
        assert ops[..k + 1] == ops[..k] + [ops[k]];
      }
      assert ops[..|ops|] == ops;
    }
  }
}
