/** The `Accel` class of accel.py: byte-wise register access, the two
    start-up sequences, and the single-sample and FIFO reads. Python's
    `x & ~flag` on a register byte is the byte AND-ed with the complement
    of the flag's eight bits, which is how it is written here. */
module AccelDriver {
  import opened Wrappers
  import opened Registers
  import opened Bus
  import opened Samples
  import opened AccelFlags
  import opened ByteMath

  /** The first four writes of both start-up sequences, computed from the
      register file `regs` found at the start: reset, standby, no fast read,
      800 Hz data rate. They come before the range lookup. */
  function PrologueWrites(regs: Regs): (w: seq<Write>)
    ensures |w| == 4
  {
    var c2a := Updated(Get(regs, REG_CTRL_REG2), SetBits(REG_CTRL_REG2, FLAG_RESET));
    var c1a := Updated(Get(regs, REG_CTRL_REG1), ClearBits(REG_CTRL_REG1, FLAG_ACTIVE));
    var c1b := Updated(c1a, ClearBits(REG_CTRL_REG1, FLAG_F_READ));
    var c1c := Updated(c1b, SetBits(REG_CTRL_REG1, FLAG_ODR_800_HZ));
    [Write(REG_CTRL_REG2, c2a), Write(REG_CTRL_REG1, c1a), Write(REG_CTRL_REG1, c1b),
     Write(REG_CTRL_REG1, c1c)]
  }

  /** The next five shared writes, after the range lookup: full scale `fs`,
      low noise, no auto-sleep, high resolution, portrait/landscape off. */
  function MiddleWrites(regs: Regs, fs: Byte): (w: seq<Write>)
    ensures |w| == 5
  {
    var p := PrologueWrites(regs);
    var xyz := Updated(Get(regs, REG_XYZ_DATA_CFG), SetBits(REG_XYZ_DATA_CFG, fs));
    var c1d := Updated(p[3].value, SetBits(REG_CTRL_REG1, FLAG_LNOISE));
    var c2b := Updated(p[0].value, ClearBits(REG_CTRL_REG2, FLAG_SLPE));
    var c2c := Updated(c2b, SetBits(REG_CTRL_REG2, FLAG_SMODS_HR));
    var pl := Updated(Get(regs, REG_PL_CFG), ClearBits(REG_PL_CFG, FLAG_PL_CFG_PL_EN));
    [Write(REG_XYZ_DATA_CFG, xyz), Write(REG_CTRL_REG1, c1d), Write(REG_CTRL_REG2, c2b),
     Write(REG_CTRL_REG2, c2c), Write(REG_PL_CFG, pl)]
  }

  /** The nine writes both start-up sequences share. */
  function SetupWrites(regs: Regs, fs: Byte): (w: seq<Write>)
    ensures |w| == 9
  {
    PrologueWrites(regs) + MiddleWrites(regs, fs)
  }

  /** The last five writes of `init_callback`: FIFO stop mode, watermark
      bit 0x10, FIFO interrupt enabled and routed to pin 1, then ACTIVE set
      on the last CTRL_REG1 value. */
  function CallbackTailWrites(regs: Regs, fs: Byte): (w: seq<Write>)
    ensures |w| == 5
  {
    var f1 := Updated(Get(regs, REG_F_SETUP), SetBits(REG_F_SETUP, FLAG_F_MODE_FIFO_STOP));
    [Write(REG_F_SETUP, f1), Write(REG_F_SETUP, Updated(f1, SetBits(REG_F_SETUP, 0x10))),
     Write(REG_CTRL_REG4, Updated(Get(regs, REG_CTRL_REG4), SetBits(REG_CTRL_REG4, FLAG_INT_EN_FIFO))),
     Write(REG_CTRL_REG5, Updated(Get(regs, REG_CTRL_REG5), SetBits(REG_CTRL_REG5, FLAG_INT_CFG_FIFO))),
     Write(REG_CTRL_REG1, Updated(MiddleWrites(regs, fs)[1].value, SetBits(REG_CTRL_REG1, FLAG_ACTIVE)))]
  }

  /** The last two writes of `init`: the FIFO mode bit 0x40, then ACTIVE. */
  function InitTailWrites(regs: Regs, fs: Byte): (w: seq<Write>)
    ensures |w| == 2
  {
    [Write(REG_F_SETUP, Updated(Get(regs, REG_F_SETUP), SetBits(REG_F_SETUP, FLAG_F_MODE_FIFO_RECNT))),
     Write(REG_CTRL_REG1, Updated(MiddleWrites(regs, fs)[1].value, SetBits(REG_CTRL_REG1, FLAG_ACTIVE)))]
  }

  /** The fourteen writes of `init_callback`. */
  function InitCallbackWrites(regs: Regs, fs: Byte): (w: seq<Write>)
    ensures |w| == 14
  {
    SetupWrites(regs, fs) + CallbackTailWrites(regs, fs)
  }

  /** The eleven writes of `init`. */
  function InitWrites(regs: Regs, fs: Byte): (w: seq<Write>)
    ensures |w| == 11
  {
    SetupWrites(regs, fs) + InitTailWrites(regs, fs)
  }

  /** Where each phase's writes sit in the whole `init_callback` trace. */
  lemma InitCallbackPhases(regs: Regs, fs: Byte)
    ensures var w, m, t := InitCallbackWrites(regs, fs), MiddleWrites(regs, fs), CallbackTailWrites(regs, fs);
            && w == PrologueWrites(regs) + m + t
            && w[4] == m[0] && w[7] == m[3] && w[8] == m[4]
            && w[10] == t[1] && w[11] == t[2] && w[12] == t[3] && w[13] == t[4]
  {
  }

  /** Where each phase's writes sit in the whole `init` trace. */
  lemma InitPhases(regs: Regs, fs: Byte)
    ensures var w, m, t := InitWrites(regs, fs), MiddleWrites(regs, fs), InitTailWrites(regs, fs);
            && w == PrologueWrites(regs) + m + t
            && w[4] == m[0] && w[7] == m[3] && w[8] == m[4] && w[9] == t[0] && w[10] == t[1]
  {
  }

  /** Writes logged one phase after another form one trace. */
  lemma Logged(before: seq<Write>, p: seq<Write>, m: seq<Write>, t: seq<Write>)
    ensures before + p + m + t == before + (p + m + t)
  {
  }

  /** The device is put in standby by the second write, stays in standby for
      every CTRL_REG1 write up to the last one, and only the last write
      activates it. */
  lemma InitCallbackStandby(regs: Regs, fs: Byte)
    ensures var w := InitCallbackWrites(regs, fs);
            && w[0].addr == REG_CTRL_REG2
            && w[1] == Write(REG_CTRL_REG1, Get(regs, REG_CTRL_REG1) & 0xFE)
            && (forall i :: 1 <= i < 13 && w[i].addr == REG_CTRL_REG1 ==> w[i].value & 0x01 == 0)
            && w[13].addr == REG_CTRL_REG1 && w[13].value & 0x01 == 0x01
  {
    var w, p, m := InitCallbackWrites(regs, fs), PrologueWrites(regs), MiddleWrites(regs, fs);
    InitCallbackPhases(regs, fs);
    assert w[1] == p[1] && w[2] == p[2] && w[3] == p[3] && w[5] == m[1];
    forall i | 1 <= i < 13 && w[i].addr == REG_CTRL_REG1
      ensures w[i].value & 0x01 == 0
    {
      assert i in {1, 2, 3, 5};
    }
  }

  /** The same for `init`, whose last write (the eleventh) activates it. */
  lemma InitStandby(regs: Regs, fs: Byte)
    ensures var w := InitWrites(regs, fs);
            && w[1] == Write(REG_CTRL_REG1, Get(regs, REG_CTRL_REG1) & 0xFE)
            && (forall i :: 1 <= i < 10 && w[i].addr == REG_CTRL_REG1 ==> w[i].value & 0x01 == 0)
            && w[10].addr == REG_CTRL_REG1 && w[10].value & 0x01 == 0x01
  {
    var w, p, m := InitWrites(regs, fs), PrologueWrites(regs), MiddleWrites(regs, fs);
    InitPhases(regs, fs);
    assert w[1] == p[1] && w[2] == p[2] && w[3] == p[3] && w[5] == m[1];
    forall i | 1 <= i < 10 && w[i].addr == REG_CTRL_REG1
      ensures w[i].value & 0x01 == 0
    {
      assert i in {1, 2, 3, 5};
    }
  }

  /** What each register ends with after `init_callback`: CTRL_REG1 keeps its
      data-rate and sleep-rate bits (the 800 Hz flag is 0, so OR-ing it
      changes nothing), loses F_READ and gains LNOISE and ACTIVE; CTRL_REG2
      gains RST and the high-resolution schemes and loses SLPE; the full
      scale bits are OR-ed with `fs`, so a range already set is never
      lowered; F_SETUP gains stop mode and watermark bit 0x10 on top of what
      it held; the FIFO interrupt is enabled and routed to pin 1. */
  lemma InitCallbackEffect(regs: Regs, fs: Byte)
    ensures var w := InitCallbackWrites(regs, fs);
            && w[13].value == (Get(regs, REG_CTRL_REG1) & 0xFC) | 0x05
            && w[13].value & 0xF8 == Get(regs, REG_CTRL_REG1) & 0xF8
            && w[7].value == (Get(regs, REG_CTRL_REG2) & 0xFB) | 0x52
            && w[4].value == Get(regs, REG_XYZ_DATA_CFG) | fs
            && w[8].value == Get(regs, REG_PL_CFG) & 0xBF
            && w[10].value == Get(regs, REG_F_SETUP) | 0x90
            && w[11].value == Get(regs, REG_CTRL_REG4) | 0x40
            && w[12].value == Get(regs, REG_CTRL_REG5) | 0x40
  {
    InitCallbackPhases(regs, fs);
    var w := InitCallbackWrites(regs, fs);
    var c1 := Get(regs, REG_CTRL_REG1);
    assert w[13].value == (((c1 & !0x01) & !0x02) | 0x00 | 0x04) | 0x01;
    assert (((c1 & !0x01) & !0x02) | 0x00 | 0x04) | 0x01 == (c1 & 0xFC) | 0x05;
    var c2 := Get(regs, REG_CTRL_REG2);
    assert ((c2 | 0x40) & !0x04) | 0x12 == (c2 & 0xFB) | 0x52;
  }

  /** `init` differs in the FIFO mode: it ORs in 0x40, which this file calls
      the most-recent mode but register.py calls Fill; its FIFO watermark and
      interrupt settings are left as they were. */
  lemma InitEffect(regs: Regs, fs: Byte)
    ensures var w := InitWrites(regs, fs);
            && w[9] == Write(REG_F_SETUP, Get(regs, REG_F_SETUP) | F_SETUP_F_MODE_Fill.mask)
            && w[10].value == InitCallbackWrites(regs, fs)[13].value
            && forall i :: 0 <= i < 11 ==> w[i].addr !in {REG_CTRL_REG4, REG_CTRL_REG5}
  {
    var w := InitWrites(regs, fs);
    var s := SetupWrites(regs, fs);
    forall i | 0 <= i < 11
      ensures w[i].addr !in {REG_CTRL_REG4, REG_CTRL_REG5}
    {
      if i < 9 { assert w[i] == s[i]; }
    }
  }

  /** The unreachable eight-bit branch of `getAxisValue`, as written: the
      byte is shifted up by eight and then compared against 127, so any
      non-zero byte comes out as byte * 256 - 256. */
  function Axis8(b: Byte): (v: int)
    ensures b == 0 ==> v == 0
    ensures b != 0 ==> v == b as int * 256 - 256
  {
    var x := b as int * Pow2(8);
    Pow2Values();
    if x > Pow2(PRECISION_08_BIT - 1) - 1 then x - Pow2(PRECISION_08_BIT) else x
  }

  /** `getFifoValues` as written: the three x readings of a 14-byte block
      (bytes 0-1, 6-7, 12-13), each read as a 14-bit word. The first is
      sign-corrected; the second and third are tested against the first
      after it has already been corrected, so they never are. */
  function FifoValuesAsWritten(block: seq<Byte>): (xs: seq<int>)
    requires |block| >= 14
    ensures |xs| == 3 && xs[0] == Reg2Num(block[0], block[1], 14)
    ensures xs[1] == RawWord(block[6], block[7]) && xs[2] == RawWord(block[12], block[13])
    ensures 0 <= xs[1] < 16384 && 0 <= xs[2] < 16384
  {
    var x1 := RawWord(block[0], block[1]);
    var x2 := RawWord(block[6], block[7]);
    var x3 := RawWord(block[12], block[13]);
    Pow2Values();
    var maxVal := Pow2(PRECISION_14_BIT - 1) - 1;
    var x1' := if x1 > maxVal then x1 - Pow2(PRECISION_14_BIT) else x1;
    Reg2Num14(block[0], block[1]);
    [x1',
     if x1' > maxVal then x2 - Pow2(PRECISION_14_BIT) else x2,
     if x1' > maxVal then x3 - Pow2(PRECISION_14_BIT) else x3]
  }

  /** `getFifoValues` as intended: each reading signed by its own word. */
  function FifoValues(block: seq<Byte>): (xs: seq<int>)
    requires |block| >= 14
    ensures |xs| == 3
    ensures -8192 <= xs[0] <= 8191 && -8192 <= xs[1] <= 8191 && -8192 <= xs[2] <= 8191
  {
    [Reg2Num(block[0], block[1], 14), Reg2Num(block[6], block[7], 14), Reg2Num(block[12], block[13], 14)]
  }

  /** A block holding x readings -1, -1 and 0: the written code corrects
      the first and reports the second as 16383, even though the first is
      negative. */
  lemma FifoSecondNeverSigned()
    ensures var block: seq<Byte> := [0xFF, 0xFC, 0, 0, 0, 0, 0xFF, 0xFC, 0, 0, 0, 0, 0, 0];
            && FifoValues(block) == [-1, -1, 0]
            && FifoValuesAsWritten(block) == [-1, 16383, 0]
  {
    assert RawWord(0, 0) == 0;
    assert RawWord(0xFF, 0xFC) == 16383;
    Reg2Num14(0, 0);
    Reg2Num14(0xFF, 0xFC);
  }

  /** The written code agrees with the intended one on the first reading
      always, and on the second and third exactly when that reading's own
      word is non-negative (at most 8191), whatever the first reading is. */
  lemma FifoAgreesWhenNonNegative(block: seq<Byte>)
    requires |block| >= 14
    ensures FifoValuesAsWritten(block)[0] == FifoValues(block)[0]
    ensures FifoValuesAsWritten(block)[1] == FifoValues(block)[1] <==> RawWord(block[6], block[7]) <= 8191
    ensures FifoValuesAsWritten(block)[2] == FifoValues(block)[2] <==> RawWord(block[12], block[13]) <= 8191
  {
    Reg2Num14(block[6], block[7]);
    Reg2Num14(block[12], block[13]);
  }

  /** Three 14-bit readings laid out as the FIFO burst carries them decode,
      by the intended reading, to themselves. */
  lemma FifoValuesRoundTrip(a: int, b: int, c: int, block: seq<Byte>)
    requires -8192 <= a <= 8191 && -8192 <= b <= 8191 && -8192 <= c <= 8191
    requires |block| >= 14
    requires (block[0], block[1]) == Encode14(a)
    requires (block[6], block[7]) == Encode14(b)
    requires (block[12], block[13]) == Encode14(c)
    ensures FifoValues(block) == [a, b, c]
  {
    Reg2Num14Decodes(a);
    Reg2Num14Decodes(b);
    Reg2Num14Decodes(c);
  }

  /** The driver object: a register file reached byte by byte, the
      high-resolution scheme it was created with and its range code. */
  class Accel {
    const dev: RegisterFile
    const highResMode: Option<int>
    var sensorRange: int

    constructor (dev: RegisterFile)
      ensures this.dev == dev
      ensures highResMode == Some(OVERSAMPLING_MODE) && sensorRange == RANGE_2_G
    {
      this.dev := dev;
      highResMode := Some(OVERSAMPLING_MODE);
      sensorRange := RANGE_2_G;
    }

    /** `whoAmI`: the identity register. */
    method WhoAmI() returns (v: Byte)
      ensures v == Get(dev.regs, REG_WHOAMI)
    {
      v := dev.ReadByte(REG_WHOAMI);
    }

    /** `get_orientation`: the low three bits of PL_STATUS (BAFRO and the
      two LAPO bits). */
    method GetOrientation() returns (o: int)
      ensures 0 <= o < 8
      ensures o == (Get(dev.regs, REG_PL_STATUS) as int) % 8
    {
      var v := dev.ReadByte(REG_PL_STATUS);
      Low3(v);
      o := (v & 0x07) as int;
    }

    /** `set_flag`: one read and one write; register `reg` gains `flag`. */
    method SetFlag(reg: Addr, flag: Byte)
      modifies dev
      ensures Get(dev.regs, reg) == Get(old(dev.regs), reg) | flag
      ensures dev.regs == Apply(old(dev.regs), SetBits(reg, flag))
      ensures dev.writes == old(dev.writes) + [Write(reg, Updated(Get(old(dev.regs), reg), SetBits(reg, flag)))]
    {
      var v := dev.ReadByte(reg);
      var after := Updated(v, SetBits(reg, flag));
      dev.WriteByte(reg, after);
      assert dev.regs == Apply(old(dev.regs), SetBits(reg, flag));
    }

    /** `unset_flag`: register `reg` loses the bits of `flag`. */
    method UnsetFlag(reg: Addr, flag: Byte)
      modifies dev
      ensures Get(dev.regs, reg) == Get(old(dev.regs), reg) & !flag
      ensures dev.regs == Apply(old(dev.regs), ClearBits(reg, flag))
      ensures dev.writes == old(dev.writes) + [Write(reg, Updated(Get(old(dev.regs), reg), ClearBits(reg, flag)))]
    {
      var v := dev.ReadByte(reg);
      var after := Updated(v, ClearBits(reg, flag));
      dev.WriteByte(reg, after);
      assert dev.regs == Apply(old(dev.regs), ClearBits(reg, flag));
    }

    /** `read_flag`: whether register `reg` has any bit of `flag` set. */
    method ReadFlag(reg: Addr, flag: Byte) returns (b: bool)
      ensures b <==> Get(dev.regs, reg) & flag != 0
      ensures flag == 0 ==> !b
    {
      var v := dev.ReadByte(reg);
      b := v & flag != 0;
    }

    /** The first four writes both start-up sequences share, up to the
        range lookup. */
    method Prologue()
      modifies dev
      ensures dev.writes == old(dev.writes) + PrologueWrites(old(dev.regs))
      ensures Get(dev.regs, REG_CTRL_REG2) == PrologueWrites(old(dev.regs))[0].value
      ensures Get(dev.regs, REG_CTRL_REG1) == PrologueWrites(old(dev.regs))[3].value
      ensures forall a: Addr :: a != REG_CTRL_REG1 && a != REG_CTRL_REG2 ==> Get(dev.regs, a) == Get(old(dev.regs), a)
    {
      SetFlag(REG_CTRL_REG2, FLAG_RESET);
      UnsetFlag(REG_CTRL_REG1, FLAG_ACTIVE);
      UnsetFlag(REG_CTRL_REG1, FLAG_F_READ);
      SetFlag(REG_CTRL_REG1, FLAG_ODR_800_HZ);
    }

    /** The five writes after the range lookup that both start-up sequences
        share, given the full-scale flag `fs` and the register file `start`
        found before the prologue. */
    method Middle(ghost start: Regs, fs: Byte)
      requires Get(dev.regs, REG_CTRL_REG2) == PrologueWrites(start)[0].value
      requires Get(dev.regs, REG_CTRL_REG1) == PrologueWrites(start)[3].value
      requires forall a: Addr :: a != REG_CTRL_REG1 && a != REG_CTRL_REG2 ==> Get(dev.regs, a) == Get(start, a)
      modifies dev
      ensures dev.writes == old(dev.writes) + MiddleWrites(start, fs)
      ensures Get(dev.regs, REG_XYZ_DATA_CFG) == MiddleWrites(start, fs)[0].value
      ensures Get(dev.regs, REG_CTRL_REG1) == MiddleWrites(start, fs)[1].value
      ensures Get(dev.regs, REG_CTRL_REG2) == MiddleWrites(start, fs)[3].value
      ensures Get(dev.regs, REG_PL_CFG) == MiddleWrites(start, fs)[4].value
      ensures forall a: Addr :: a !in {REG_CTRL_REG1, REG_CTRL_REG2, REG_XYZ_DATA_CFG, REG_PL_CFG} ==>
                Get(dev.regs, a) == Get(start, a)
    {
      SetFlag(REG_XYZ_DATA_CFG, fs);
      SetFlag(REG_CTRL_REG1, FLAG_LNOISE);
      UnsetFlag(REG_CTRL_REG2, FLAG_SLPE);
      SetFlag(REG_CTRL_REG2, FLAG_SMODS_HR);
      UnsetFlag(REG_PL_CFG, FLAG_PL_CFG_PL_EN);
    }

    /** The last five writes of `init_callback`. */
    method CallbackTail(ghost start: Regs, fs: Byte)
      requires Get(dev.regs, REG_CTRL_REG1) == MiddleWrites(start, fs)[1].value
      requires forall a: Addr :: a !in {REG_CTRL_REG1, REG_CTRL_REG2, REG_XYZ_DATA_CFG, REG_PL_CFG} ==>
                 Get(dev.regs, a) == Get(start, a)
      modifies dev
      ensures dev.writes == old(dev.writes) + CallbackTailWrites(start, fs)
      ensures Get(dev.regs, REG_F_SETUP) == CallbackTailWrites(start, fs)[1].value
      ensures Get(dev.regs, REG_CTRL_REG4) == CallbackTailWrites(start, fs)[2].value
      ensures Get(dev.regs, REG_CTRL_REG5) == CallbackTailWrites(start, fs)[3].value
      ensures Get(dev.regs, REG_CTRL_REG1) == CallbackTailWrites(start, fs)[4].value
      ensures forall a: Addr :: a !in {REG_CTRL_REG1, REG_F_SETUP, REG_CTRL_REG4, REG_CTRL_REG5} ==>
                Get(dev.regs, a) == Get(old(dev.regs), a)
    {
      SetFlag(REG_F_SETUP, FLAG_F_MODE_FIFO_STOP);
      SetFlag(REG_F_SETUP, 0x10);
      SetFlag(REG_CTRL_REG4, FLAG_INT_EN_FIFO);
      SetFlag(REG_CTRL_REG5, FLAG_INT_CFG_FIFO);
      SetFlag(REG_CTRL_REG1, FLAG_ACTIVE);
    }

    /** The last two writes of `init`. */
    method InitTail(ghost start: Regs, fs: Byte)
      requires Get(dev.regs, REG_CTRL_REG1) == MiddleWrites(start, fs)[1].value
      requires forall a: Addr :: a !in {REG_CTRL_REG1, REG_CTRL_REG2, REG_XYZ_DATA_CFG, REG_PL_CFG} ==>
                 Get(dev.regs, a) == Get(start, a)
      modifies dev
      ensures dev.writes == old(dev.writes) + InitTailWrites(start, fs)
      ensures Get(dev.regs, REG_F_SETUP) == InitTailWrites(start, fs)[0].value
      ensures Get(dev.regs, REG_CTRL_REG1) == InitTailWrites(start, fs)[1].value
      ensures forall a: Addr :: a != REG_CTRL_REG1 && a != REG_F_SETUP ==> Get(dev.regs, a) == Get(old(dev.regs), a)
    {
      SetFlag(REG_F_SETUP, FLAG_F_MODE_FIFO_RECNT);
      SetFlag(REG_CTRL_REG1, FLAG_ACTIVE);
    }

    /** `init_callback`: with a known range code the device sees exactly the
        fourteen writes of `InitCallbackWrites` and each register touched ends
        with the value last written to it; an unknown range code fails with
        KeyError after the first four writes. The GPIO callback set-up is not
        modelled. */
    method InitCallback() returns (err: Option<PyError>)
      modifies dev
      ensures err.Some? <==> sensorRange !in FLAG_XYZ_DATA_BIT_FS
      ensures err.Some? ==> err.value == KeyError && dev.writes == old(dev.writes) + PrologueWrites(old(dev.regs))
      ensures err.None? ==>
                var w := InitCallbackWrites(old(dev.regs), FLAG_XYZ_DATA_BIT_FS[sensorRange]);
                && dev.writes == old(dev.writes) + w
                && Get(dev.regs, REG_CTRL_REG1) == w[13].value
                && Get(dev.regs, REG_CTRL_REG2) == w[7].value
                && Get(dev.regs, REG_XYZ_DATA_CFG) == w[4].value
                && Get(dev.regs, REG_PL_CFG) == w[8].value
                && Get(dev.regs, REG_F_SETUP) == w[10].value
                && Get(dev.regs, REG_CTRL_REG4) == w[11].value
                && Get(dev.regs, REG_CTRL_REG5) == w[12].value
                && forall a: Addr :: a !in {REG_CTRL_REG1, REG_CTRL_REG2, REG_XYZ_DATA_CFG, REG_PL_CFG,
                                            REG_F_SETUP, REG_CTRL_REG4, REG_CTRL_REG5} ==>
                                       Get(dev.regs, a) == Get(old(dev.regs), a)
    {
      ghost var start, w0 := dev.regs, dev.writes;
      Prologue();
      if sensorRange !in FLAG_XYZ_DATA_BIT_FS {
        return Some(KeyError);
      }
      var fs := FLAG_XYZ_DATA_BIT_FS[sensorRange];
      Middle(start, fs);
      CallbackTail(start, fs);
      InitCallbackPhases(start, fs);
      Logged(w0, PrologueWrites(start), MiddleWrites(start, fs), CallbackTailWrites(start, fs));
      err := None;
    }

    /** `init`: the same start-up with the FIFO mode bit 0x40 in place of the
        stop mode, watermark and interrupt settings. */
    method Init() returns (err: Option<PyError>)
      modifies dev
      ensures err.Some? <==> sensorRange !in FLAG_XYZ_DATA_BIT_FS
      ensures err.Some? ==> err.value == KeyError && dev.writes == old(dev.writes) + PrologueWrites(old(dev.regs))
      ensures err.None? ==>
                var w := InitWrites(old(dev.regs), FLAG_XYZ_DATA_BIT_FS[sensorRange]);
                && dev.writes == old(dev.writes) + w
                && Get(dev.regs, REG_CTRL_REG1) == w[10].value
                && Get(dev.regs, REG_CTRL_REG2) == w[7].value
                && Get(dev.regs, REG_XYZ_DATA_CFG) == w[4].value
                && Get(dev.regs, REG_PL_CFG) == w[8].value
                && Get(dev.regs, REG_F_SETUP) == w[9].value
                && forall a: Addr :: a !in {REG_CTRL_REG1, REG_CTRL_REG2, REG_XYZ_DATA_CFG, REG_PL_CFG,
                                            REG_F_SETUP} ==>
                                       Get(dev.regs, a) == Get(old(dev.regs), a)
    {
      ghost var start, w0 := dev.regs, dev.writes;
      Prologue();
      if sensorRange !in FLAG_XYZ_DATA_BIT_FS {
        return Some(KeyError);
      }
      var fs := FLAG_XYZ_DATA_BIT_FS[sensorRange];
      Middle(start, fs);
      InitTail(start, fs);
      InitPhases(start, fs);
      Logged(w0, PrologueWrites(start), MiddleWrites(start, fs), InitTailWrites(start, fs));
      err := None;
    }

    /** `cleanup`: the device goes back to standby (the GPIO release is not
        modelled). */
    method Cleanup()
      modifies dev
      ensures Get(dev.regs, REG_CTRL_REG1) & FLAG_ACTIVE == 0
      ensures dev.regs == old(dev.regs)[REG_CTRL_REG1 := Get(old(dev.regs), REG_CTRL_REG1) & 0xFE]
      ensures dev.writes == old(dev.writes) + [Write(REG_CTRL_REG1, Get(old(dev.regs), REG_CTRL_REG1) & 0xFE)]
    {
      UnsetFlag(REG_CTRL_REG1, FLAG_ACTIVE);
    }

    /** `getAxisValue`, in counts before the division by the range's
        counts per m/s^2: F_READ set or a FIFO mode other than disabled is an
        AssertionError; a burst shorter than the six bytes used is an
        IndexError; an unknown range code is a KeyError at the division;
        otherwise each axis is the 14-bit reading of its byte pair. The
        burst `block` is what the bus returns for the six-byte read. */
    method GetAxisValue(block: seq<Byte>) returns (r: Result<Sample>)
      ensures (Get(dev.regs, REG_CTRL_REG1) & FLAG_F_READ != 0 || Get(dev.regs, REG_F_SETUP) & 0xC0 != 0)
                ==> r == Err(AssertionError)
      ensures r.Ok? <==> Get(dev.regs, REG_CTRL_REG1) & FLAG_F_READ == 0 && Get(dev.regs, REG_F_SETUP) & 0xC0 == 0
                         && |block| >= 6 && sensorRange in FLAG_XYZ_DATA_BIT_FS
      ensures (Get(dev.regs, REG_CTRL_REG1) & FLAG_F_READ == 0 && Get(dev.regs, REG_F_SETUP) & 0xC0 == 0
               && |block| < 6) ==> r == Err(IndexError)
      ensures (Get(dev.regs, REG_CTRL_REG1) & FLAG_F_READ == 0 && Get(dev.regs, REG_F_SETUP) & 0xC0 == 0
               && |block| >= 6 && sensorRange !in FLAG_XYZ_DATA_BIT_FS) ==> r == Err(KeyError)
      ensures r.Ok? && highResMode.Some? ==>
                r.value == Sample(Reg2Num(block[0], block[1], 14), Reg2Num(block[2], block[3], 14),
                                  Reg2Num(block[4], block[5], 14))
      ensures r.Ok? && highResMode.Some? ==>
                -8192 <= r.value.x <= 8191 && -8192 <= r.value.y <= 8191 && -8192 <= r.value.z <= 8191
      ensures r.Ok? && highResMode.None? ==> r.value == Sample(Axis8(block[0]), Axis8(block[1]), Axis8(block[2]))
    {
      var c1 := dev.ReadByte(REG_CTRL_REG1);
      if c1 & FLAG_F_READ != 0 {
        return Err(AssertionError);
      }
      var fSetup := dev.ReadByte(REG_F_SETUP);
      if fSetup & FLAG_F_MODE_FIFO_TRIGGER != 0 {
        return Err(AssertionError);
      }
      if |block| < 6 {
        return Err(IndexError);
      }
      var s: Sample;
      if highResMode.Some? {
        s := Sample(Reg2Num(block[0], block[1], PRECISION_14_BIT), Reg2Num(block[2], block[3], PRECISION_14_BIT),
                    Reg2Num(block[4], block[5], PRECISION_14_BIT));
      } else {
        s := Sample(Axis8(block[0]), Axis8(block[1]), Axis8(block[2]));
      }
      if sensorRange !in FLAG_XYZ_DATA_BIT_FS {
        return Err(KeyError);
      }
      r := Ok(s);
    }

    /** `getFifoValues`, in counts, as written: a burst shorter than 14 bytes
        is an IndexError and an unknown range code a KeyError; otherwise the
        result is `FifoValuesAsWritten`. */
    method GetFifoValues(block: seq<Byte>) returns (r: Result<seq<int>>)
      ensures r.Err? <==> |block| < 14 || sensorRange !in FLAG_XYZ_DATA_BIT_FS
      ensures |block| < 14 ==> r == Err(IndexError)
      ensures r.Err? && |block| >= 14 ==> r == Err(KeyError)
      ensures r.Ok? ==> r.value == FifoValuesAsWritten(block)
      ensures r.Ok? ==> r.value[0] == Reg2Num(block[0], block[1], 14)
                        && r.value[1] == RawWord(block[6], block[7]) && r.value[2] == RawWord(block[12], block[13])
    {
      if |block| < 14 {
        return Err(IndexError);
      }
      var xs := FifoValuesAsWritten(block);
      if sensorRange !in FLAG_XYZ_DATA_BIT_FS {
        return Err(KeyError);
      }
      r := Ok(xs);
    }
  }
}
