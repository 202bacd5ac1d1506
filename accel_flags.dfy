/** The constant block of accel.py, the older single-file driver: register
    addresses, range codes and flag values, and what they have in common with
    (and where they part from) the register map of register/register.py. */
module AccelFlags {
  import opened Registers

  // Range codes (accel.py:17-19) and the full-scale flag for each.
  const RANGE_8_G: int := 0x02
  const RANGE_4_G: int := 0x01
  const RANGE_2_G: int := 0x00
  const FLAG_XYZ_DATA_BIT_FS: map<int, Byte> := map[RANGE_2_G := 0x00, RANGE_4_G := 0x01, RANGE_8_G := 0x02]

  const DEVICE_NAME: Byte := 0x1A
  const I2C_ADDR: Byte := 0x1D

  // Register addresses (accel.py:34-51).
  const REG_STATUS: Addr := 0x00
  const REG_WHOAMI: Addr := 0x0D
  const REG_OUT_X_MSB: Addr := 0x01
  const REG_F_SETUP: Addr := 0x09
  const REG_XYZ_DATA_CFG: Addr := 0x0E
  const REG_PL_STATUS: Addr := 0x10
  const REG_PL_CFG: Addr := 0x11
  const REG_CTRL_REG1: Addr := 0x2A
  const REG_CTRL_REG2: Addr := 0x2B
  const REG_CTRL_REG3: Addr := 0x2C
  const REG_CTRL_REG4: Addr := 0x2D
  const REG_CTRL_REG5: Addr := 0x2E

  /** `HIGH_RES_MODE`: which register and bit each high-resolution scheme
      uses; the driver picks OVERSAMPLING_MODE. */
  const REDUCED_NOISE_MODE: int := 0
  const OVERSAMPLING_MODE: int := 1
  const HIGH_RES_MODE: map<int, (Addr, Byte)> := map[REDUCED_NOISE_MODE := (REG_CTRL_REG1, 0x04),
                                                    OVERSAMPLING_MODE := (REG_CTRL_REG2, 0x02)]

  const PRECISION_14_BIT: nat := 14
  const PRECISION_08_BIT: nat := 8

  // CTRL_REG1 settings.
  const ASLP_RATE_FREQ: seq<Byte> := [0x00, 0x40, 0x80, 0xC0]
  const FLAG_ASLPRATE: seq<Byte> := [0x00, 0x40, 0x80, 0xC0]
  const DATARATE: seq<Byte> := [0x00, 0x08, 0x10, 0x18, 0x20, 0x28, 0x30, 0x38]
  const FLAG_ODR: seq<Byte> := [0x00, 0x08, 0x10, 0x18, 0x20, 0x28, 0x30, 0x38]
  const FLAG_ODR_800_HZ: Byte := 0x00
  const FLAG_LNOISE: Byte := 0x04
  const FLAG_F_READ: Byte := 0x02
  const FLAG_ACTIVE: Byte := 0x01

  // CTRL_REG2 settings.
  const FLAG_STEST: Byte := 0x80
  const FLAG_RESET: Byte := 0x40
  const FLAG_SMODS_NORM: Byte := 0x00
  const FLAG_SMODS_LNLP: Byte := 0x0A
  const FLAG_SMODS_HR: Byte := 0x12
  const FLAG_SMODS_LP: Byte := 0x1B
  const FLAG_SLPE: Byte := 0x04
  const FLAG_MODS_NORM: Byte := 0x00
  const FLAG_MODS_LNLP: Byte := 0x09
  const FLAG_MODS_HR: Byte := 0x12
  const FLAG_MODS_LP: Byte := 0x1B

  // CTRL_REG4 / CTRL_REG5: enable and routing bits, in bit order 7..0.
  const FLAG_INT_EN: seq<Byte> := [0x80, 0x40, 0x20, 0x10, 0x08, 0x04, 0x00, 0x01]
  const FLAG_INT_CFG: seq<Byte> := [0x80, 0x40, 0x20, 0x10, 0x08, 0x04, 0x00, 0x01]
  const FLAG_INT_EN_FIFO: Byte := 0x40
  const FLAG_INT_CFG_FIFO: Byte := 0x40

  // F_SETUP modes and F_STATUS flags.
  const FLAG_F_MODE_FIFO_NO: Byte := 0x00
  const FLAG_F_MODE_FIFO_RECNT: Byte := 0x40
  const FLAG_F_MODE_FIFO_STOP: Byte := 0x80
  const FLAG_F_MODE_FIFO_TRIGGER: Byte := 0xC0
  const FLAG_F_OVF: Byte := 0x80
  const FLAG_F_WMRK_FLAG: Byte := 0x40

  // PL_STATUS and PL_CFG.
  const FLAG_PL_NEWLP: Byte := 0x80
  const FLAG_PL_LO: Byte := 0x40
  const FLAG_PL_LAPO: seq<Byte> := [0x00, 0x02, 0x04, 0x06]
  const FLAG_PL_BAFRO: Byte := 0x01
  const FLAG_PL_CFG_DBCNTM: Byte := 0x80
  const FLAG_PL_CFG_PL_EN: Byte := 0x40

  /** Each range code is its own full-scale flag, for exactly the three
      ranges, and it is the matching XYZ_DATA_CFG.FS setting. */
  lemma RangeFlags()
    ensures FLAG_XYZ_DATA_BIT_FS.Keys == {RANGE_2_G, RANGE_4_G, RANGE_8_G}
    ensures forall r :: r in FLAG_XYZ_DATA_BIT_FS ==> FLAG_XYZ_DATA_BIT_FS[r] as int == r
    ensures FLAG_XYZ_DATA_BIT_FS[RANGE_2_G] == XYZ_DATA_CFG_FS_2g.mask
    ensures FLAG_XYZ_DATA_BIT_FS[RANGE_4_G] == XYZ_DATA_CFG_FS_4g.mask
    ensures FLAG_XYZ_DATA_BIT_FS[RANGE_8_G] == XYZ_DATA_CFG_FS_8g.mask
  {
  }

  /** The data-rate values, the output-data-rate flags and the DR settings of
      register.py are the same eight masks in the same order; likewise the
      auto-sleep rates. */
  lemma RatesAgree()
    ensures DATARATE == FLAG_ODR
    ensures DATARATE == [CTRL_REG1_DR_800Hz.mask, CTRL_REG1_DR_400Hz.mask, CTRL_REG1_DR_200Hz.mask,
                         CTRL_REG1_DR_100Hz.mask, CTRL_REG1_DR_50Hz.mask, CTRL_REG1_DR_12_5Hz.mask,
                         CTRL_REG1_DR_6_25Hz.mask, CTRL_REG1_DR_1_56Hz.mask]
    ensures ASLP_RATE_FREQ == FLAG_ASLPRATE
    ensures ASLP_RATE_FREQ == [CTRL_REG1_ASLP_RATE_50Hz.mask, CTRL_REG1_ASLP_RATE_12_5Hz.mask,
                               CTRL_REG1_ASLP_RATE_6_25Hz.mask, CTRL_REG1_ASLP_RATE_1_56Hz.mask]
    ensures FLAG_LNOISE == CTRL_REG1_LNOISE.mask && FLAG_F_READ == CTRL_REG1_F_READ.mask
    ensures FLAG_ACTIVE == CTRL_REG1_ACTIVE.mask
  {
  }

  /** The CTRL_REG2 power-scheme flags of accel.py each set a sleep scheme
      and an active scheme at once: HR and LP pair a sleep scheme with the
      same active scheme, but FLAG_SMODS_LNLP pairs low-noise sleep with
      high-resolution active, unlike FLAG_MODS_LNLP. */
  lemma PowerSchemes()
    ensures FLAG_SMODS_HR == CTRL_REG2_SMODS_HR.mask | CTRL_REG2_MODS_HR.mask == FLAG_MODS_HR
    ensures FLAG_SMODS_LP == CTRL_REG2_SMODS_LP.mask | CTRL_REG2_MODS_LP.mask == FLAG_MODS_LP
    ensures FLAG_MODS_LNLP == CTRL_REG2_SMODS_LN_LP.mask | CTRL_REG2_MODS_LN_LP.mask
    ensures FLAG_SMODS_LNLP == CTRL_REG2_SMODS_LN_LP.mask | CTRL_REG2_MODS_HR.mask
    ensures FLAG_SMODS_LNLP != FLAG_MODS_LNLP
    ensures FLAG_RESET == CTRL_REG2_RST.mask && FLAG_SLPE == CTRL_REG2_SLPE.mask
  {
  }

  /** The two files disagree on which F_MODE encoding is which: accel.py's
      most-recent (circular) mode 0x40 is register.py's Fill, and its stop
      mode 0x80 is register.py's Circular. */
  lemma FifoModesDisagree()
    ensures FLAG_F_MODE_FIFO_RECNT == F_SETUP_F_MODE_Fill.mask
    ensures FLAG_F_MODE_FIFO_STOP == F_SETUP_F_MODE_Circular.mask
    ensures FLAG_F_MODE_FIFO_RECNT != F_SETUP_F_MODE_Circular.mask
    ensures FLAG_F_MODE_FIFO_NO == F_SETUP_F_MODE_Disabled.mask
    ensures FLAG_F_MODE_FIFO_TRIGGER == F_SETUP_F_MODE_Trigger.mask
  {
  }

  /** The interrupt enable and routing flags of accel.py are register.py's,
      bit for bit, with the unused bit 1 written as 0x00. */
  lemma InterruptFlagsAgree()
    ensures FLAG_INT_EN == FLAG_INT_CFG
    ensures FLAG_INT_EN == [CTRL_REG4_INT_EN_ASLP.mask, CTRL_REG4_INT_EN_FIFO.mask, CTRL_REG4_INT_EN_TRANS.mask,
                            CTRL_REG4_INT_EN_LNDPRT.mask, CTRL_REG4_INT_EN_PULSE.mask, CTRL_REG4_INT_EN_FF_MT.mask,
                            0x00, CTRL_REG4_INT_EN_DRDY.mask]
    ensures FLAG_F_OVF == F_STATUS_F_OVF.mask && FLAG_F_WMRK_FLAG == F_STATUS_F_WMRK_FLAG.mask
  {
  }

  /** The FIFO count `int1_callback` prints: Python's `status & ~0xc0`, where
      `~0xc0` is the negative integer -193. On a status byte it keeps exactly
      the six F_CNT bits. Sixteen bits are enough to hold both operands in
      two's complement. */
  function PrintedCount(status: Byte): (c: int)
    ensures c == (status & F_STATUS_F_CNT.mask) as int
    ensures 0 <= c <= 63
  {
    ((status as bv16) & !(0xC0 as bv16)) as int
  }

  /** `int1_callback`'s three reports: F_OVF set, F_WMRK_FLAG set, count. */
  function Int1Report(status: Byte): (report: (bool, bool, int))
    ensures report.0 <==> status >= 0x80
    ensures report.1 <==> status & 0x40 == 0x40
    ensures report.2 == (status as int) % 64
  {
    (status & FLAG_F_OVF != 0, status & FLAG_F_WMRK_FLAG != 0, PrintedCount(status))
  }
}
