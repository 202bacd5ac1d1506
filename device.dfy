/** The `Device` controller of mma8451.py: the register sequences it sends to
    open, restart, configure and arm the sensor for FIFO interrupts. Every
    sequence is a list of flag operations (`FlagOp`), so what it does to the
    registers is `ApplyAll` of that list, and the facts below are about the
    lists. */
module Device {
  import opened Wrappers
  import opened Registers
  import opened Configuration
  import opened Bus
  import opened Iic

  /** One keyword argument of `configure`. */
  datatype Setting = Setting(option: string, value: Value)

  /** A (register address, mask) pair, as `Configuration.get_set_params` and
      `Configuration.get_unset_params` return. Those two methods are not part
      of this model, so the controller receives them as functions. */
  datatype Params = Params(addr: Addr, mask: Byte)

  const CTRL_REG1_ADDR: Addr := 0x2A
  const CTRL_REG2_ADDR: Addr := 0x2B
  const CTRL_REG4_ADDR: Addr := 0x2D
  const CTRL_REG5_ADDR: Addr := 0x2E
  const WHO_AM_I_ADDR: Addr := 0x0D

  /** The addresses above are the ones accel.py gives those registers. */
  lemma AddressesAgree()
    ensures KnownAddress(CTRL_REG1) == Some(CTRL_REG1_ADDR)
    ensures KnownAddress(CTRL_REG2) == Some(CTRL_REG2_ADDR)
    ensures KnownAddress(CTRL_REG4) == Some(CTRL_REG4_ADDR)
    ensures KnownAddress(CTRL_REG5) == Some(CTRL_REG5_ADDR)
    ensures KnownAddress(WHO_AM_I) == Some(WHO_AM_I_ADDR)
  {
  }

  const STANDBY := ClearBits(CTRL_REG1_ADDR, CTRL_REG1_ACTIVE.mask)
  const ACTIVATE := SetBits(CTRL_REG1_ADDR, CTRL_REG1_ACTIVE.mask)

  /** The operation one setting causes: "bit_depth" is unset with
      `get_unset_params`, every other option is set with `get_set_params`. */
  function OptionOp(s: Setting, setParams: Setting -> Params, unsetParams: string -> Params): FlagOp
  {
    if s.option == "bit_depth" then
      ClearBits(unsetParams(s.option).addr, unsetParams(s.option).mask)
    else
      SetBits(setParams(s).addr, setParams(s).mask)
  }

  /** Everything `configure` writes, in order. */
  function ConfigureOps(settings: seq<Setting>, setParams: Setting -> Params,
                        unsetParams: string -> Params): seq<FlagOp>
  {
    [STANDBY]
    + seq(|settings|, i requires 0 <= i < |settings| => OptionOp(settings[i], setParams, unsetParams))
    + [ACTIVATE]
  }

  /** Everything `setup_threaded_fifo_callback` writes, in order. */
  function SetupOps(interruptPin: int): seq<FlagOp> {
    [STANDBY, SetBits(CTRL_REG4_ADDR, CTRL_REG4_INT_EN_FIFO.mask)]
    + (if interruptPin == 1 then [SetBits(CTRL_REG5_ADDR, CTRL_REG5_INT_CFG_FIFO.mask)] else [])
    + [ACTIVATE]
  }

  /** What `restart` writes: the RST bit of CTRL_REG2. */
  const RESTART := SetBits(CTRL_REG2_ADDR, CTRL_REG2_RST.mask)

  // ---------------------------------------------------------------- configure

  /** `configure` brackets the option writes between clearing and setting
      ACTIVE, and the i-th option write belongs to the i-th setting: an unset
      exactly for "bit_depth", a set for every other option. */
  lemma ConfigureShape(settings: seq<Setting>, setParams: Setting -> Params, unsetParams: string -> Params)
    ensures var ops := ConfigureOps(settings, setParams, unsetParams);
            && |ops| == |settings| + 2
            && ops[0] == ClearBits(0x2A, 0x01)
            && ops[|ops| - 1] == SetBits(0x2A, 0x01)
            && forall i :: 0 <= i < |settings| ==>
                 && (ops[i + 1].ClearBits? <==> settings[i].option == "bit_depth")
                 && (settings[i].option == "bit_depth" ==>
                       ops[i + 1].addr == unsetParams("bit_depth").addr
                       && ops[i + 1].mask == unsetParams("bit_depth").mask)
                 && (settings[i].option != "bit_depth" ==>
                       ops[i + 1].addr == setParams(settings[i]).addr
                       && ops[i + 1].mask == setParams(settings[i]).mask)
  {
  }

  /** How `configure`'s operations split: the standby, one per setting, and
      the activation last. */
  lemma ConfigureOpsSplit(settings: seq<Setting>, setParams: Setting -> Params, unsetParams: string -> Params)
    ensures var ops := ConfigureOps(settings, setParams, unsetParams);
            && ops[..1] == [STANDBY]
            && (forall i :: 0 <= i < |settings| ==> ops[i + 1] == OptionOp(settings[i], setParams, unsetParams))
            && ops == ops[..|settings| + 1] + [ACTIVATE]
  {
    var ops := ConfigureOps(settings, setParams, unsetParams);
    assert ops == ops[..|settings| + 1] + [ACTIVATE];
  }

  /** No option write may switch the sensor on by itself: no setting's
      parameters set ACTIVE. */
  predicate KeepsStandby(settings: seq<Setting>, setParams: Setting -> Params) {
    forall i :: 0 <= i < |settings| && settings[i].option != "bit_depth" ==>
      setParams(settings[i]).addr != CTRL_REG1_ADDR || setParams(settings[i]).mask & 0x01 == 0
  }

  lemma {:induction false} StandbyBefore(regs: Regs, settings: seq<Setting>, setParams: Setting -> Params,
                                         unsetParams: string -> Params, k: nat)
    requires KeepsStandby(settings, setParams)
    requires 1 <= k <= |settings| + 1
    ensures Get(ApplyAll(regs, ConfigureOps(settings, setParams, unsetParams)[..k]), CTRL_REG1_ADDR) & 0x01 == 0
    decreases k
  {
    var ops := ConfigureOps(settings, setParams, unsetParams);
    if k == 1 {
      SingleOp(regs, ops[0]);
      assert ops[..1] == [ops[0]];
    } else {
      StandbyBefore(regs, settings, setParams, unsetParams, k - 1);
      ApplyAllSnoc(regs, ops[..k - 1], ops[k - 1]);
      assert ops[..k] == ops[..k - 1] + [ops[k - 1]];
      assert ops[k - 1] == OptionOp(settings[k - 2], setParams, unsetParams);
    }
  }

  /** Every option is written while the sensor is in standby: just before
      each option write, and after the last one, ACTIVE is clear; after the
      whole sequence it is set. */
  lemma ConfigureInStandby(regs: Regs, settings: seq<Setting>, setParams: Setting -> Params,
                           unsetParams: string -> Params)
    requires KeepsStandby(settings, setParams)
    ensures var ops := ConfigureOps(settings, setParams, unsetParams);
            && (forall k :: 1 <= k <= |settings| + 1 ==>
                  Get(ApplyAll(regs, ops[..k]), CTRL_REG1_ADDR) & 0x01 == 0)
            && Get(ApplyAll(regs, ops), CTRL_REG1_ADDR) & 0x01 == 0x01
  {
    var ops := ConfigureOps(settings, setParams, unsetParams);
    forall k | 1 <= k <= |settings| + 1
      ensures Get(ApplyAll(regs, ops[..k]), CTRL_REG1_ADDR) & 0x01 == 0
    {
      StandbyBefore(regs, settings, setParams, unsetParams, k);
    }
    ApplyAllSnoc(regs, ops[..|ops| - 1], ops[|ops| - 1]);
    assert ops == ops[..|ops| - 1] + [ops[|ops| - 1]];
  }

  /** The bytes on the bus: one write per operation, the first one CTRL_REG1
      with ACTIVE cleared and every other bit as it was, the last one
      CTRL_REG1 with ACTIVE set. */
  lemma ConfigureWrites(regs: Regs, settings: seq<Setting>, setParams: Setting -> Params,
                        unsetParams: string -> Params)
    ensures var ops := ConfigureOps(settings, setParams, unsetParams);
            var w := WritesOf(regs, ops);
            && |w| == |settings| + 2
            && w[0] == Write(CTRL_REG1_ADDR, Get(regs, CTRL_REG1_ADDR) & !0x01)
            && w[|w| - 1].addr == CTRL_REG1_ADDR && w[|w| - 1].value & 0x01 == 0x01
  {
    var ops := ConfigureOps(settings, setParams, unsetParams);
    WritesOfShape(regs, ops, 0);
    WritesOfShape(regs, ops, |ops| - 1);
    assert ops[..0] == [];
  }

  /** Without a "bit_depth" setting, `configure` only ORs bits into every
      register but CTRL_REG1: no bit already set there is ever cleared. */
  lemma ConfigureOnlyAddsBits(regs: Regs, settings: seq<Setting>, setParams: Setting -> Params,
                              unsetParams: string -> Params, addr: Addr)
    requires forall i :: 0 <= i < |settings| ==> settings[i].option != "bit_depth"
    requires addr != CTRL_REG1_ADDR
    ensures Within(Get(regs, addr), Get(ApplyAll(regs, ConfigureOps(settings, setParams, unsetParams)), addr))
  {
    var ops := ConfigureOps(settings, setParams, unsetParams);
    forall i | 0 <= i < |ops| && ops[i].addr == addr ensures ops[i].SetBits? {
      if 0 < i < |ops| - 1 {
        assert ops[i] == OptionOp(settings[i - 1], setParams, unsetParams);
      }
    }
    SetOnlyKeepsBits(regs, ops, addr);
  }

  // --------------------------------------------------- the FIFO interrupt setup

  /** `setup_threaded_fifo_callback` enables the FIFO interrupt and leaves
      the sensor active; the FIFO interrupt is routed to INT1 afterwards
      exactly when `interrupt_pin` is 1 or it was routed there before; no
      register other than CTRL_REG1, CTRL_REG4 and CTRL_REG5 changes. */
  lemma SetupEffect(regs: Regs, interruptPin: int)
    ensures var after := ApplyAll(regs, SetupOps(interruptPin));
            && Get(after, CTRL_REG1_ADDR) & 0x01 == 0x01
            && Get(after, CTRL_REG4_ADDR) & 0x40 == 0x40
            && (Get(after, CTRL_REG5_ADDR) & 0x40 == 0x40
                <==> interruptPin == 1 || Get(regs, CTRL_REG5_ADDR) & 0x40 == 0x40)
            && forall a: Addr :: a !in {CTRL_REG1_ADDR, CTRL_REG4_ADDR, CTRL_REG5_ADDR} ==>
                 Get(after, a) == Get(regs, a)
  {
    var ops := SetupOps(interruptPin);
    var r1 := Apply(regs, ops[0]);
    var r2 := Apply(r1, ops[1]);
    assert ApplyAll(regs, ops) == ApplyAll(r2, ops[2..]) by {
      assert ops[1..][0] == ops[1] && ops[1..][1..] == ops[2..];
    }
    if interruptPin == 1 {
      var r3 := Apply(r2, ops[2]);
      assert ops[2..][1..] == [ACTIVATE];
      SingleOp(r3, ACTIVATE);
    } else {
      assert ops[2..] == [ACTIVATE];
      SingleOp(r2, ACTIVATE);
    }
  }

  /** The sensor is in standby (ACTIVE clear) when the interrupt bits are
      written. */
  lemma SetupInStandby(regs: Regs, interruptPin: int)
    ensures var ops := SetupOps(interruptPin);
            forall k :: 1 <= k < |ops| ==> Get(ApplyAll(regs, ops[..k]), CTRL_REG1_ADDR) & 0x01 == 0
  {
    var ops := SetupOps(interruptPin);
    var r1 := Apply(regs, ops[0]);
    assert ApplyAll(regs, ops[..1]) == r1 by { SingleOp(regs, ops[0]); }
    ApplyAllSnoc(regs, ops[..1], ops[1]);
    assert ops[..2] == ops[..1] + [ops[1]];
    if interruptPin == 1 {
      ApplyAllSnoc(regs, ops[..2], ops[2]);
      assert ops[..3] == ops[..2] + [ops[2]];
    }
  }

  // ------------------------------------------------------------ the controller

  class Device {
    const iic: Iic
    /** `device_name`: the WHO_AM_I value expected (0x1A by default). */
    const deviceName: Byte
    const setParams: Setting -> Params
    const unsetParams: string -> Params
    /** The `Configuration` object, which is not part of this model, seen
        only through what is done to it: the settings passed to each of its
        `update` calls since it was last created. */
    var confUpdates: seq<seq<Setting>>

    constructor (iic: Iic, deviceName: Byte, setParams: Setting -> Params, unsetParams: string -> Params)
      ensures this.iic == iic && this.deviceName == deviceName
      ensures this.setParams == setParams && this.unsetParams == unsetParams
      ensures confUpdates == []
    {
      this.iic := iic;
      this.deviceName := deviceName;
      this.setParams := setParams;
      this.unsetParams := unsetParams;
      confUpdates := [];
    }

    /** `open`: the device must answer WHO_AM_I with the expected name,
        otherwise a NameError; nothing is written. */
    method Open() returns (r: Result<Byte>)
      ensures r.Ok? <==> Get(iic.dev.regs, WHO_AM_I_ADDR) == deviceName
      ensures r.Err? ==> r.error == NameError
      ensures r.Ok? ==> r.value == deviceName
    {
      var whoami := iic.ReadRegister(WHO_AM_I_ADDR);
      if whoami != deviceName {
        return Err(NameError);
      }
      r := Ok(whoami);
    }

    /** `restart`: sets CTRL_REG2.RST and starts a fresh configuration. */
    method Restart()
      modifies iic.dev, this
      ensures iic.dev.regs == Apply(old(iic.dev.regs), RESTART)
      ensures iic.dev.writes == old(iic.dev.writes) + WritesOf(old(iic.dev.regs), [RESTART])
      ensures confUpdates == []
    {
      var _ := iic.SetFlag(FlagRef(CTRL_REG2_ADDR, CTRL_REG2_RST.mask), None);
      confUpdates := [];
    }

    /** `configure(**settings)`: standby, one write per setting in order,
        record the settings, active again. */
    method Configure(settings: seq<Setting>)
      modifies iic.dev, this
      ensures iic.dev.regs == ApplyAll(old(iic.dev.regs), ConfigureOps(settings, setParams, unsetParams))
      ensures iic.dev.writes
              == old(iic.dev.writes) + WritesOf(old(iic.dev.regs), ConfigureOps(settings, setParams, unsetParams))
      ensures confUpdates == old(confUpdates) + [settings]
    {
      ghost var ops := ConfigureOps(settings, setParams, unsetParams);
      ghost var start := iic.dev.regs;
      ghost var log := iic.dev.writes;
      ConfigureOpsSplit(settings, setParams, unsetParams);
      SingleOp(start, STANDBY);
      var _ := iic.UnsetFlag(FlagRef(CTRL_REG1_ADDR, CTRL_REG1_ACTIVE.mask), None);
      for i := 0 to |settings|
        invariant iic.dev.regs == ApplyAll(start, ops[..i + 1])
        invariant iic.dev.writes == log + WritesOf(start, ops[..i + 1])
        invariant confUpdates == old(confUpdates)
      {
        ApplyAllSnoc(start, ops[..i + 1], ops[i + 1]);
        assert ops[..i + 2] == ops[..i + 1] + [ops[i + 1]];
        ConfigureOne(settings[i]);
      }
      confUpdates := confUpdates + [settings];
      ApplyAllSnoc(start, ops[..|settings| + 1], ACTIVATE);
      SingleOp(iic.dev.regs, ACTIVATE);
      var _ := iic.SetFlag(FlagRef(CTRL_REG1_ADDR, CTRL_REG1_ACTIVE.mask), None);
    }

    /** One iteration of `configure`'s loop: `bit_depth` clears its bits,
        every other option sets its own. */
    method ConfigureOne(setting: Setting)
      modifies iic.dev
      ensures var op := OptionOp(setting, setParams, unsetParams);
              && iic.dev.regs == Apply(old(iic.dev.regs), op)
              && iic.dev.writes == old(iic.dev.writes) + [Write(op.addr, Updated(Get(old(iic.dev.regs), op.addr), op))]
    {
      SingleOp(iic.dev.regs, OptionOp(setting, setParams, unsetParams));
      if setting.option == "bit_depth" {
        var p := unsetParams(setting.option);
        var _ := iic.UnsetFlag(RegisterRef(p.addr), Some(p.mask));
      } else {
        var p := setParams(setting);
        var _ := iic.SetFlag(RegisterRef(p.addr), Some(p.mask));
      }
    }

    /** The register part of `setup_threaded_fifo_callback`: standby, enable
        the FIFO interrupt, route it to INT1 when asked, active again. */
    method SetupThreadedFifoCallback(interruptPin: int)
      modifies iic.dev
      ensures iic.dev.regs == ApplyAll(old(iic.dev.regs), SetupOps(interruptPin))
      ensures iic.dev.writes == old(iic.dev.writes) + WritesOf(old(iic.dev.regs), SetupOps(interruptPin))
    {
      ghost var ops := SetupOps(interruptPin);
      ghost var start := iic.dev.regs;
      ghost var log := iic.dev.writes;
      SingleOp(start, ops[0]);
      assert ops[..1] == [ops[0]];
      var _ := iic.UnsetFlag(FlagRef(CTRL_REG1_ADDR, CTRL_REG1_ACTIVE.mask), None);
      ApplyAllSnoc(start, ops[..1], ops[1]);
      assert ops[..2] == ops[..1] + [ops[1]];
      SingleOp(iic.dev.regs, ops[1]);
      var _ := iic.SetFlag(FlagRef(CTRL_REG4_ADDR, CTRL_REG4_INT_EN_FIFO.mask), None);
      var done := 2;
      if interruptPin == 1 {
        ApplyAllSnoc(start, ops[..2], ops[2]);
        assert ops[..3] == ops[..2] + [ops[2]];
        SingleOp(iic.dev.regs, ops[2]);
        var _ := iic.SetFlag(FlagRef(CTRL_REG5_ADDR, CTRL_REG5_INT_CFG_FIFO.mask), None);
        done := 3;
      }
      ApplyAllSnoc(start, ops[..done], ACTIVATE);
      SingleOp(iic.dev.regs, ACTIVATE);
      assert ops == ops[..done] + [ACTIVATE];
      var _ := iic.SetFlag(FlagRef(CTRL_REG1_ADDR, CTRL_REG1_ACTIVE.mask), None);
    }
  }
}
