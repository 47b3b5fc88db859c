/** The fixed register map of the ADXL313 accelerometer and the named
    constants the driver uses with it: register addresses, bit positions
    inside the registers, field codes and the expected identification bytes. */
module Registers {

  /** The device answers at one of two 7-bit bus addresses; the first is the default. */
  const AddressDefault: nat := 0x1D
  const AddressAlt: nat := 0x53

  /** Registers 0x00 through 0x39 exist, so a register file holds 0x3A bytes. */
  const RegisterCount: nat := 0x3A

  // Register addresses.
  const DEVID_0: nat := 0x00
  const DEVID_1: nat := 0x01
  const PARTID: nat := 0x02
  const REVID: nat := 0x03
  const XID: nat := 0x04
  const SOFT_RESET: nat := 0x18
  const OFSX: nat := 0x1E
  const OFSY: nat := 0x1F
  const OFSZ: nat := 0x20
  const THRESH_ACT: nat := 0x24
  const THRESH_INACT: nat := 0x25
  const TIME_INACT: nat := 0x26
  const ACT_INACT_CTL: nat := 0x27
  const BW_RATE: nat := 0x2C
  const POWER_CTL: nat := 0x2D
  const INT_ENABLE: nat := 0x2E
  const INT_MAP: nat := 0x2F
  const INT_SOURCE: nat := 0x30
  const DATA_FORMAT: nat := 0x31
  const DATA_X0: nat := 0x32
  const DATA_X1: nat := 0x33
  const DATA_Y0: nat := 0x34
  const DATA_Y1: nat := 0x35
  const DATA_Z0: nat := 0x36
  const DATA_Z1: nat := 0x37
  const FIFO_CTL: nat := 0x38
  const FIFO_STATUS: nat := 0x39

  /** Number of bytes in one axis sample: two per axis. */
  const SampleBytes: nat := 6

  // Expected identification bytes.
  const DEVID_0_EXPECTED: bv8 := 0xAD
  const DEVID_1_EXPECTED: bv8 := 0x1D
  const PARTID_EXPECTED: bv8 := 0xCB

  /** Identification bytes accepted as this part. */
  const ValidChipIds: seq<bv8> := [PARTID_EXPECTED]

  // Interrupt pins, as passed to the interrupt mapping.
  const INT1_PIN: int := 0
  const INT2_PIN: int := 1

  // Bit positions shared by INT_ENABLE, INT_MAP and INT_SOURCE.
  const INT_DATA_READY_BIT: nat := 7
  const INT_ACTIVITY_BIT: nat := 4
  const INT_INACTIVITY_BIT: nat := 3
  const INT_WATERMARK_BIT: nat := 1
  const INT_OVERRUN_BIT: nat := 0

  // Range codes held in bits 0-1 of DATA_FORMAT.
  const RANGE_05_G: nat := 0
  const RANGE_1_G: nat := 1
  const RANGE_2_G: nat := 2
  const RANGE_4_G: nat := 3

  // Bit positions in POWER_CTL.
  const I2C_DISABLE_BIT: nat := 6
  const LINK_BIT: nat := 5
  const AUTOSLEEP_BIT: nat := 4
  const MEASURE_BIT: nat := 3
  const SLEEP_BIT: nat := 2

  /** Bit position of the low-power flag in BW_RATE. */
  const LOW_POWER_BIT: nat := 4

  // Bit positions in ACT_INACT_CTL of the per-axis participation flags.
  const ACT_X_BIT: nat := 6
  const ACT_Y_BIT: nat := 5
  const ACT_Z_BIT: nat := 4
  const INACT_X_BIT: nat := 2
  const INACT_Y_BIT: nat := 1
  const INACT_Z_BIT: nat := 0

  // Output data rate codes for the low nibble of BW_RATE.
  const BW_1600: bv8 := 0xF
  const BW_800: bv8 := 0xE
  const BW_400: bv8 := 0xD
  const BW_200: bv8 := 0xC
  const BW_100: bv8 := 0xB
  const BW_50: bv8 := 0xA
  const BW_25: bv8 := 0x9
  const BW_12_5: bv8 := 0x8
  const BW_6_25: bv8 := 0x7
  const BW_3_125: bv8 := 0x6

  // FIFO modes held in bits 6-7 of FIFO_CTL.
  const FIFO_MODE_BYPASS: nat := 0
  const FIFO_MODE_FIFO: nat := 1
  const FIFO_MODE_STREAM: nat := 2
  const FIFO_MODE_TRIGGER: nat := 3
}
