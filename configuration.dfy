/** The option table `_conf` of register/configuration.py: for each option,
    its default value, the register it lives in, and the flag that encodes
    each legal value. The `Configuration` class that reads this table is not
    part of this model (see the device controller for how it is treated). */
module Configuration {
  import opened Wrappers
  import opened Registers

  /** An option value: the table uses both strings and integers. */
  datatype Value = Str(s: string) | Num(n: int)

  /** The "flags" entry of an option: a dictionary from each legal value to
      its mask, or `range(lo, hi)`, whose members are both the legal values and
      (indexing a range by a member yields that member) their masks. */
  datatype Flags = Table(masks: map<Value, Byte>) | IntRange(lo: int, hi: int)

  datatype OptionSpec = OptionSpec(default: Value, register: Reg, flags: Flags)

  /** `_NONE`: the mask that sets no bit. */
  const NO_BITS: Byte := 0x00

  const CONF: map<string, OptionSpec> := map[
    "fifo_mode" := OptionSpec(Str("disabled"), F_SETUP, Table(map[
      Str("disabled") := F_SETUP_F_MODE_Disabled.mask,
      Str("circular") := F_SETUP_F_MODE_Circular.mask,
      Str("fill")     := F_SETUP_F_MODE_Fill.mask,
      Str("trigger")  := F_SETUP_F_MODE_Trigger.mask])),
    "bit_depth" := OptionSpec(Num(8), CTRL_REG1, Table(map[
      Num(8)  := CTRL_REG1_F_READ.mask,
      Num(14) := NO_BITS])),
    "fifo_watermark" := OptionSpec(Num(0), F_SETUP, IntRange(0, 33))
  ]

  predicate IsLegal(spec: OptionSpec, v: Value) {
    match spec.flags
    case Table(masks) => v in masks
    case IntRange(lo, hi) => v.Num? && lo <= v.n < hi
  }

  /** The mask that encodes `v`, when `v` is a legal value of the option and
      that mask is a byte. */
  function FlagFor(spec: OptionSpec, v: Value): (m: Option<Byte>)
    ensures m.Some? ==> IsLegal(spec, v)
    ensures IsLegal(spec, v) && spec.flags.IntRange? && 0 <= spec.flags.lo && spec.flags.hi <= 256
            ==> m.Some?
    ensures spec.flags.Table? ==> (m.Some? <==> IsLegal(spec, v))
  {
    match spec.flags
    case Table(masks) => if v in masks then Some(masks[v]) else None
    case IntRange(lo, hi) =>
      if v.Num? && lo <= v.n < hi && 0 <= v.n < 256 then Some(v.n as Byte) else None
  }

  /** Every option's default is one of its legal values. */
  lemma DefaultsAreLegal()
    ensures forall name :: name in CONF ==> IsLegal(CONF[name], CONF[name].default)
  {
  }

  /** The four FIFO modes have distinct masks inside the F_MODE field. */
  lemma FifoModeFlags()
    ensures var spec := CONF["fifo_mode"];
            var modes := [Str("disabled"), Str("circular"), Str("fill"), Str("trigger")];
            && (forall i :: 0 <= i < |modes| ==> FlagFor(spec, modes[i]).Some?)
            && PairwiseDistinct(seq(|modes|, i requires 0 <= i < |modes| => FlagFor(spec, modes[i]).value))
            && AllWithin(seq(|modes|, i requires 0 <= i < |modes| => FlagFor(spec, modes[i]).value),
                         F_SETUP_F_MODE1.mask | F_SETUP_F_MODE0.mask)
  {
  }

  /** The watermark accepts exactly 0..32, and each accepted value is its own
      mask and fits in the F_WMRK field. */
  lemma WatermarkRange(v: int)
    ensures IsLegal(CONF["fifo_watermark"], Num(v)) <==> 0 <= v <= 32
    ensures 0 <= v <= 32 ==>
              && FlagFor(CONF["fifo_watermark"], Num(v)) == Some(v as Byte)
              && Within(v as Byte, F_SETUP_F_WMRK.mask)
  {
  }

  /** fifo_mode and fifo_watermark share F_SETUP but never touch the same
      bit: whatever legal values they get, their masks are disjoint. */
  lemma FifoModeAndWatermarkDisjoint(mode: Value, mark: Value)
    requires IsLegal(CONF["fifo_mode"], mode) && IsLegal(CONF["fifo_watermark"], mark)
    ensures CONF["fifo_mode"].register == CONF["fifo_watermark"].register == F_SETUP
    ensures FlagFor(CONF["fifo_mode"], mode).Some? && FlagFor(CONF["fifo_watermark"], mark).Some?
    ensures Disjoint(FlagFor(CONF["fifo_mode"], mode).value,
                     FlagFor(CONF["fifo_watermark"], mark).value)
  {
    WatermarkRange(mark.n);
  }

  /** Bit depth 8 is encoded by the F_READ bit of CTRL_REG1, 14 by no bit. */
  lemma BitDepthFlags()
    ensures CONF["bit_depth"].register == CTRL_REG1
    ensures FlagFor(CONF["bit_depth"], Num(8)) == Some(CTRL_REG1_F_READ.mask) == Some(0x02)
    ensures FlagFor(CONF["bit_depth"], Num(14)) == Some(0x00)
    ensures forall v :: IsLegal(CONF["bit_depth"], v) <==> v in {Num(8), Num(14)}
  {
  }
}
