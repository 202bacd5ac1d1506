/** The MMA8451 register map of register/register.py: every register class
    becomes a constructor of `Reg`, and every named member of a class becomes a
    `Flag`, the pair of its register and its 8-bit value. Members that name a
    multi-bit field (F_CNT, DR, SMODS, ...) and members that name one setting
    of such a field (DR_400Hz, ...) are both flags, exactly as in the source. */
module Registers {
  import opened Wrappers

  type Byte = bv8

  /** A register address. */
  type Addr = x: int | 0 <= x < 256

  /** The register classes of register/register.py, in declaration order.
      FF_MT_CFG .. PULSE_WIND are declared there with no members at all. */
  datatype Reg =
    | STATUS | F_STATUS
    | OUT_X_MSB | OUT_X_LSB | OUT_Y_MSB | OUT_Y_LSB | OUT_Z_MSB | OUT_Z_LSB
    | F_SETUP | TRIG_CFG | SYSMOD | INT_SOURCE | WHO_AM_I | XYZ_DATA_CFG
    | HP_FILTER_CUTOFF | PL_STATUS | PL_CFG | PL_COUNT | PL_BF_ZCOMP | P_L_THIS_REG
    | FF_MT_CFG | FF_MT_SRC | FF_MT_THS | FF_MT_COUNT
    | TRANSIENT_CFG | TRANSIENT_SCR | TRANSIENT_THS | TRANSIENT_COUNT
    | PULSE_CFG | PULSE_SRC | PULSE_THSX | PULSE_THSY | PULSE_THSZ
    | PULSE_TMLT | PULSE_LTCY | PULSE_WIND
    | ASLP_COUNT | CTRL_REG1 | CTRL_REG2 | CTRL_REG3 | CTRL_REG4 | CTRL_REG5
    | OFF_X | OFF_Y | OFF_Z

  /** A named bit pattern scoped to one register. */
  datatype Flag = Flag(reg: Reg, mask: Byte)

  /** The register addresses come from a module (register.addr) that is not
      part of this model; the ones accel.py spells out are known here, the
      others are None. F_STATUS shares address 0x00 with STATUS. */
  function KnownAddress(r: Reg): (a: Option<Addr>)
    ensures a.Some? <==> r in {STATUS, F_STATUS, OUT_X_MSB, OUT_X_LSB, OUT_Y_MSB, OUT_Y_LSB,
                                OUT_Z_MSB, OUT_Z_LSB, F_SETUP, WHO_AM_I, XYZ_DATA_CFG,
                                PL_STATUS, PL_CFG, CTRL_REG1, CTRL_REG2, CTRL_REG3,
                                CTRL_REG4, CTRL_REG5}
  {
    match r
    case STATUS => Some(0x00)
    case F_STATUS => Some(0x00)
    case OUT_X_MSB => Some(0x01)
    case OUT_X_LSB => Some(0x02)
    case OUT_Y_MSB => Some(0x03)
    case OUT_Y_LSB => Some(0x04)
    case OUT_Z_MSB => Some(0x05)
    case OUT_Z_LSB => Some(0x06)
    case F_SETUP => Some(0x09)
    case WHO_AM_I => Some(0x0D)
    case XYZ_DATA_CFG => Some(0x0E)
    case PL_STATUS => Some(0x10)
    case PL_CFG => Some(0x11)
    case CTRL_REG1 => Some(0x2A)
    case CTRL_REG2 => Some(0x2B)
    case CTRL_REG3 => Some(0x2C)
    case CTRL_REG4 => Some(0x2D)
    case CTRL_REG5 => Some(0x2E)
    case _ => None
  }

  // ---------------------------------------------------------------- STATUS
  const STATUS_ZYXOW := Flag(STATUS, 0x80)
  const STATUS_ZOW   := Flag(STATUS, 0x40)
  const STATUS_YOW   := Flag(STATUS, 0x20)
  const STATUS_XOW   := Flag(STATUS, 0x10)
  const STATUS_ZYXDR := Flag(STATUS, 0x08)
  const STATUS_ZDR   := Flag(STATUS, 0x04)
  const STATUS_YDR   := Flag(STATUS, 0x02)
  const STATUS_XDR   := Flag(STATUS, 0x01)

  // -------------------------------------------------------------- F_STATUS
  const F_STATUS_F_OVF       := Flag(F_STATUS, 0x80)
  const F_STATUS_F_WMRK_FLAG := Flag(F_STATUS, 0x40)
  const F_STATUS_F_CNT       := Flag(F_STATUS, 0x3F)

  // --------------------------------------------------------------- F_SETUP
  const F_SETUP_F_MODE1         := Flag(F_SETUP, 0x80)
  const F_SETUP_F_MODE0         := Flag(F_SETUP, 0x40)
  const F_SETUP_F_WMRK          := Flag(F_SETUP, 0x3F)
  const F_SETUP_F_MODE_Disabled := Flag(F_SETUP, 0x00)
  const F_SETUP_F_MODE_Fill     := Flag(F_SETUP, 0x40)
  const F_SETUP_F_MODE_Circular := Flag(F_SETUP, 0x80)
  const F_SETUP_F_MODE_Trigger  := Flag(F_SETUP, 0xC0)

  // -------------------------------------------------------------- TRIG_CFG
  const TRIG_CFG_Trig_TRANS  := Flag(TRIG_CFG, 0x20)
  const TRIG_CFG_Trig_LNDPRT := Flag(TRIG_CFG, 0x10)
  const TRIG_CFG_Trig_PULSE  := Flag(TRIG_CFG, 0x08)
  const TRIG_CFG_Trig_FF_MT  := Flag(TRIG_CFG, 0x04)

  // ---------------------------------------------------------------- SYSMOD
  const SYSMOD_FGERR          := Flag(SYSMOD, 0x80)
  const SYSMOD_FGT            := Flag(SYSMOD, 0x3C)
  const SYSMOD_SYSMOD         := Flag(SYSMOD, 0x03)
  const SYSMOD_SYSMOD_STANDBY := Flag(SYSMOD, 0x00)
  const SYSMOD_SYSMOD_WAKE    := Flag(SYSMOD, 0x01)
  const SYSMOD_SYSMOD_SLEEP   := Flag(SYSMOD, 0x02)

  // ------------------------------------------------------------ INT_SOURCE
  const INT_SOURCE_SRC_ASLP   := Flag(INT_SOURCE, 0x80)
  const INT_SOURCE_SRC_FIFO   := Flag(INT_SOURCE, 0x40)
  const INT_SOURCE_SRC_TRANS  := Flag(INT_SOURCE, 0x20)
  const INT_SOURCE_SRC_LNDPRT := Flag(INT_SOURCE, 0x10)
  const INT_SOURCE_SRC_PULSE  := Flag(INT_SOURCE, 0x08)
  const INT_SOURCE_SRC_FF_MT  := Flag(INT_SOURCE, 0x04)
  const INT_SOURCE_SRC_DRDY   := Flag(INT_SOURCE, 0x01)

  // ---------------------------------------------------------- XYZ_DATA_CFG
  const XYZ_DATA_CFG_HPF_OUT := Flag(XYZ_DATA_CFG, 0x10)
  const XYZ_DATA_CFG_FS      := Flag(XYZ_DATA_CFG, 0x03)
  const XYZ_DATA_CFG_FS_2g   := Flag(XYZ_DATA_CFG, 0x00)
  const XYZ_DATA_CFG_FS_4g   := Flag(XYZ_DATA_CFG, 0x01)
  const XYZ_DATA_CFG_FS_8g   := Flag(XYZ_DATA_CFG, 0x02)

  // ------------------------------------------------------ HP_FILTER_CUTOFF
  const HP_FILTER_CUTOFF_Pulse_HPF_BYP := Flag(HP_FILTER_CUTOFF, 0x20)
  const HP_FILTER_CUTOFF_Pulse_LPF_EN  := Flag(HP_FILTER_CUTOFF, 0x10)
  const HP_FILTER_CUTOFF_SEL_Highest   := Flag(HP_FILTER_CUTOFF, 0x00)
  const HP_FILTER_CUTOFF_SEL_Higher    := Flag(HP_FILTER_CUTOFF, 0x01)
  const HP_FILTER_CUTOFF_SEL_Lower     := Flag(HP_FILTER_CUTOFF, 0x02)
  const HP_FILTER_CUTOFF_SEL_Lowest    := Flag(HP_FILTER_CUTOFF, 0x03)

  // ------------------------------------------------------------- PL_STATUS
  const PL_STATUS_NEWLP         := Flag(PL_STATUS, 0x80)
  const PL_STATUS_LO            := Flag(PL_STATUS, 0x40)
  const PL_STATUS_LAPO          := Flag(PL_STATUS, 0x06)
  const PL_STATUS_LAPO_PO_UP    := Flag(PL_STATUS, 0x00)
  const PL_STATUS_LAPO_PO_DOWN  := Flag(PL_STATUS, 0x02)
  const PL_STATUS_LAPO_LA_RIGHT := Flag(PL_STATUS, 0x04)
  const PL_STATUS_LAPO_LA_LEFT  := PL_STATUS_LAPO   // declared as an alias of LAPO

  // ---------------------------------------------------------------- PL_CFG
  const PL_CFG_DBCNTM := Flag(PL_CFG, 0x80)
  const PL_CFG_PL_EN  := Flag(PL_CFG, 0x40)

  // ------------------------------------------------ PL_BF_ZCOMP, P_L_THIS_REG
  const PL_BF_ZCOMP_BKFR    := Flag(PL_BF_ZCOMP, 0xC0)
  const PL_BF_ZCOMP_ZLOCK   := Flag(PL_BF_ZCOMP, 0x07)
  const P_L_THIS_REG_P_L_THIS := Flag(P_L_THIS_REG, 0xF8)
  const P_L_THIS_REG_HYS      := Flag(P_L_THIS_REG, 0x07)

  // ------------------------------------------------------------- CTRL_REG1
  const CTRL_REG1_ASLP_RATE        := Flag(CTRL_REG1, 0xC0)
  const CTRL_REG1_ASLP_RATE_50Hz   := Flag(CTRL_REG1, 0x00)
  const CTRL_REG1_ASLP_RATE_12_5Hz := Flag(CTRL_REG1, 0x40)
  const CTRL_REG1_ASLP_RATE_6_25Hz := Flag(CTRL_REG1, 0x80)
  const CTRL_REG1_ASLP_RATE_1_56Hz := CTRL_REG1_ASLP_RATE   // declared as an alias of ASLP_RATE
  const CTRL_REG1_DR               := Flag(CTRL_REG1, 0x38)
  const CTRL_REG1_DR_800Hz         := Flag(CTRL_REG1, 0x00)
  const CTRL_REG1_DR_400Hz         := Flag(CTRL_REG1, 0x08)
  const CTRL_REG1_DR_200Hz         := Flag(CTRL_REG1, 0x10)
  const CTRL_REG1_DR_100Hz         := Flag(CTRL_REG1, 0x18)
  const CTRL_REG1_DR_50Hz          := Flag(CTRL_REG1, 0x20)
  const CTRL_REG1_DR_12_5Hz        := Flag(CTRL_REG1, 0x28)
  const CTRL_REG1_DR_6_25Hz        := Flag(CTRL_REG1, 0x30)
  const CTRL_REG1_DR_1_56Hz        := Flag(CTRL_REG1, 0x38)
  const CTRL_REG1_LNOISE           := Flag(CTRL_REG1, 0x04)
  const CTRL_REG1_F_READ           := Flag(CTRL_REG1, 0x02)
  const CTRL_REG1_ACTIVE           := Flag(CTRL_REG1, 0x01)

  // ------------------------------------------------------------- CTRL_REG2
  const CTRL_REG2_ST           := Flag(CTRL_REG2, 0x80)
  const CTRL_REG2_RST          := Flag(CTRL_REG2, 0x40)
  const CTRL_REG2_SMODS        := Flag(CTRL_REG2, 0x18)
  const CTRL_REG2_SMODS_Normal := Flag(CTRL_REG2, 0x00)
  const CTRL_REG2_SMODS_LN_LP  := Flag(CTRL_REG2, 0x08)
  const CTRL_REG2_SMODS_HR     := Flag(CTRL_REG2, 0x10)
  const CTRL_REG2_SMODS_LP     := Flag(CTRL_REG2, 0x18)
  const CTRL_REG2_SLPE         := Flag(CTRL_REG2, 0x04)
  const CTRL_REG2_MODS         := Flag(CTRL_REG2, 0x03)
  const CTRL_REG2_MODS_Normal  := Flag(CTRL_REG2, 0x00)
  const CTRL_REG2_MODS_LN_LP   := Flag(CTRL_REG2, 0x01)
  const CTRL_REG2_MODS_HR      := Flag(CTRL_REG2, 0x02)
  const CTRL_REG2_MODS_LP      := Flag(CTRL_REG2, 0x03)

  // ------------------------------------------------------------- CTRL_REG3
  const CTRL_REG3_FIFO_GATE   := Flag(CTRL_REG3, 0x80)
  const CTRL_REG3_WAKE_TRANS  := Flag(CTRL_REG3, 0x40)
  const CTRL_REG3_WAKE_LNDPRT := Flag(CTRL_REG3, 0x20)
  const CTRL_REG3_WAKE_PULSE  := Flag(CTRL_REG3, 0x10)
  const CTRL_REG3_WAKE_FF_MT  := Flag(CTRL_REG3, 0x08)
  const CTRL_REG3_IPOL        := Flag(CTRL_REG3, 0x02)
  const CTRL_REG3_PP_OD       := Flag(CTRL_REG3, 0x01)

  // ------------------------------------------------- CTRL_REG4 and CTRL_REG5
  const CTRL_REG4_INT_EN_ASLP   := Flag(CTRL_REG4, 0x80)
  const CTRL_REG4_INT_EN_FIFO   := Flag(CTRL_REG4, 0x40)
  const CTRL_REG4_INT_EN_TRANS  := Flag(CTRL_REG4, 0x20)
  const CTRL_REG4_INT_EN_LNDPRT := Flag(CTRL_REG4, 0x10)
  const CTRL_REG4_INT_EN_PULSE  := Flag(CTRL_REG4, 0x08)
  const CTRL_REG4_INT_EN_FF_MT  := Flag(CTRL_REG4, 0x04)
  const CTRL_REG4_INT_EN_DRDY   := Flag(CTRL_REG4, 0x01)

  const CTRL_REG5_INT_CFG_ASLP   := Flag(CTRL_REG5, 0x80)
  const CTRL_REG5_INT_CFG_FIFO   := Flag(CTRL_REG5, 0x40)
  const CTRL_REG5_INT_CFG_TRANS  := Flag(CTRL_REG5, 0x20)
  const CTRL_REG5_INT_CFG_LNDPRT := Flag(CTRL_REG5, 0x10)
  const CTRL_REG5_INT_CFG_PULSE  := Flag(CTRL_REG5, 0x08)
  const CTRL_REG5_INT_CFG_FF_MT  := Flag(CTRL_REG5, 0x04)
  const CTRL_REG5_INT_CFG_DRDY   := Flag(CTRL_REG5, 0x01)

  // ------------------------------------------------------ bit-set vocabulary

  /** Every bit of `v` lies inside `field`. */
  predicate Within(v: Byte, field: Byte) { v & !field == 0 }

  predicate Disjoint(a: Byte, b: Byte) { a & b == 0 }

  /** Exactly one bit is set. */
  predicate SingleBit(b: Byte) { b != 0 && b & (b - 1) == 0 }

  predicate PairwiseDisjoint(fields: seq<Byte>) {
    forall i, j :: 0 <= i < j < |fields| ==> Disjoint(fields[i], fields[j])
  }

  predicate PairwiseDistinct(values: seq<Byte>) {
    forall i, j :: 0 <= i < j < |values| ==> values[i] != values[j]
  }

  predicate AllWithin(values: seq<Byte>, field: Byte) {
    forall i :: 0 <= i < |values| ==> Within(values[i], field)
  }

  // ------------------------------------------------- facts about the tables

  /** F_OVF, F_WMRK_FLAG and F_CNT split the F_STATUS byte between them. */
  lemma FStatusPartition()
    ensures PairwiseDisjoint([F_STATUS_F_OVF.mask, F_STATUS_F_WMRK_FLAG.mask, F_STATUS_F_CNT.mask])
    ensures F_STATUS_F_OVF.mask | F_STATUS_F_WMRK_FLAG.mask | F_STATUS_F_CNT.mask == 0xFF
  {
  }

  /** The four FIFO modes are settings of the F_MODE1|F_MODE0 field, which is
      disjoint from the watermark field. */
  lemma FSetupLayout()
    ensures F_SETUP_F_MODE1.mask | F_SETUP_F_MODE0.mask == 0xC0
    ensures AllWithin([F_SETUP_F_MODE_Disabled.mask, F_SETUP_F_MODE_Fill.mask, F_SETUP_F_MODE_Circular.mask, F_SETUP_F_MODE_Trigger.mask], 0xC0)
    ensures PairwiseDistinct([F_SETUP_F_MODE_Disabled.mask, F_SETUP_F_MODE_Fill.mask, F_SETUP_F_MODE_Circular.mask, F_SETUP_F_MODE_Trigger.mask])
    ensures Disjoint(0xC0, F_SETUP_F_WMRK.mask)
    ensures 0xC0 | F_SETUP_F_WMRK.mask == 0xFF
  {
  }

  /** The data-rate and auto-sleep-rate settings sit inside their fields, and
      the five CTRL_REG1 fields do not overlap. */
  lemma CtrlReg1Layout()
    ensures var rates := [CTRL_REG1_DR_800Hz.mask, CTRL_REG1_DR_400Hz.mask, CTRL_REG1_DR_200Hz.mask, CTRL_REG1_DR_100Hz.mask, CTRL_REG1_DR_50Hz.mask, CTRL_REG1_DR_12_5Hz.mask, CTRL_REG1_DR_6_25Hz.mask, CTRL_REG1_DR_1_56Hz.mask];
            AllWithin(rates, CTRL_REG1_DR.mask) && PairwiseDistinct(rates)
    ensures AllWithin([CTRL_REG1_ASLP_RATE_50Hz.mask, CTRL_REG1_ASLP_RATE_12_5Hz.mask, CTRL_REG1_ASLP_RATE_6_25Hz.mask, CTRL_REG1_ASLP_RATE_1_56Hz.mask],
                      CTRL_REG1_ASLP_RATE.mask)
    ensures PairwiseDisjoint([CTRL_REG1_ASLP_RATE.mask, CTRL_REG1_DR.mask, CTRL_REG1_LNOISE.mask, CTRL_REG1_F_READ.mask, CTRL_REG1_ACTIVE.mask])
    ensures CTRL_REG1_ASLP_RATE.mask | CTRL_REG1_DR.mask | CTRL_REG1_LNOISE.mask | CTRL_REG1_F_READ.mask | CTRL_REG1_ACTIVE.mask == 0xFF
  {
  }

  /** The sleep and active power schemes sit inside SMODS and MODS, and the
      CTRL_REG2 fields do not overlap. */
  lemma CtrlReg2Layout()
    ensures AllWithin([CTRL_REG2_SMODS_Normal.mask, CTRL_REG2_SMODS_LN_LP.mask, CTRL_REG2_SMODS_HR.mask, CTRL_REG2_SMODS_LP.mask], CTRL_REG2_SMODS.mask)
    ensures AllWithin([CTRL_REG2_MODS_Normal.mask, CTRL_REG2_MODS_LN_LP.mask, CTRL_REG2_MODS_HR.mask, CTRL_REG2_MODS_LP.mask], CTRL_REG2_MODS.mask)
    ensures PairwiseDisjoint([CTRL_REG2_ST.mask, CTRL_REG2_RST.mask, CTRL_REG2_SMODS.mask, CTRL_REG2_SLPE.mask, CTRL_REG2_MODS.mask])
  {
  }

  lemma XyzDataCfgLayout()
    ensures AllWithin([XYZ_DATA_CFG_FS_2g.mask, XYZ_DATA_CFG_FS_4g.mask, XYZ_DATA_CFG_FS_8g.mask],
                      XYZ_DATA_CFG_FS.mask)
    ensures Disjoint(XYZ_DATA_CFG_FS.mask, XYZ_DATA_CFG_HPF_OUT.mask)
  {
  }

  lemma PlStatusLayout()
    ensures AllWithin([PL_STATUS_LAPO_PO_UP.mask, PL_STATUS_LAPO_PO_DOWN.mask, PL_STATUS_LAPO_LA_RIGHT.mask, PL_STATUS_LAPO_LA_LEFT.mask],
                      PL_STATUS_LAPO.mask)
    ensures PairwiseDisjoint([PL_STATUS_NEWLP.mask, PL_STATUS_LO.mask, PL_STATUS_LAPO.mask])
  {
  }

  /** Each interrupt source of CTRL_REG4 is one bit, and CTRL_REG5 routes
      the same source with the same bit. */
  lemma InterruptEnableMatchesRouting()
    ensures var enables := [CTRL_REG4_INT_EN_ASLP.mask, CTRL_REG4_INT_EN_FIFO.mask, CTRL_REG4_INT_EN_TRANS.mask, CTRL_REG4_INT_EN_LNDPRT.mask, CTRL_REG4_INT_EN_PULSE.mask, CTRL_REG4_INT_EN_FF_MT.mask, CTRL_REG4_INT_EN_DRDY.mask];
            var routes := [CTRL_REG5_INT_CFG_ASLP.mask, CTRL_REG5_INT_CFG_FIFO.mask, CTRL_REG5_INT_CFG_TRANS.mask, CTRL_REG5_INT_CFG_LNDPRT.mask, CTRL_REG5_INT_CFG_PULSE.mask, CTRL_REG5_INT_CFG_FF_MT.mask, CTRL_REG5_INT_CFG_DRDY.mask];
            && enables == routes
            && (forall i :: 0 <= i < |enables| ==> SingleBit(enables[i]))
            && PairwiseDisjoint(enables)
  {
  }
}
