/**
 * The constant data of the OV5640 driver: frame sizes, the resolution and
 * aspect-ratio geometry tables, the tuning tables and the register lists.
 *
 * The source declares the tuning tables as uint16_t; every entry is below
 * 0x100, so the tables written with writeRegister16 (which takes a uint8_t)
 * are held here as bytes.  The contrast table goes through a register list,
 * whose values stay uint16_t.
 */
module Tables {
  import opened Registers

  // ---------------------------------------------------------------------------
  // Register addresses
  // ---------------------------------------------------------------------------

  const SystemCtrl0: Addr := 0x3008
  const ChipIdHigh: Addr := 0x300A
  const AecPowerDomain: Addr := 0x3A00
  const AecPowerDomainNightMask: bv16 := 0x04
  const XAddrStartHigh: Addr := 0x3800
  const XAddrEndHigh: Addr := 0x3804
  const XOutputSizeHigh: Addr := 0x3808
  const XTotalSizeHigh: Addr := 0x380C
  const XOffsetHigh: Addr := 0x3810
  const XIncrement: Addr := 0x3814
  const YIncrement: Addr := 0x3815
  const TimingTcReg20: Addr := 0x3820
  const TimingTcReg21: Addr := 0x3821
  /** Bits 2:1 of 0x3820: vertical flip. */
  const TimingTcReg20Vflip: Byte := 0x06
  /** Bits 2:1 of 0x3821: horizontal mirror. */
  const TimingTcReg21Hmirror: Byte := 0x06
  const IspControl01: Addr := 0x5001
  /** Bit 5 of 0x5001: scaling enable. */
  const IspScaleMask: bv16 := 0x20
  const PreIspTestSetting1: Addr := 0x503D
  /** The group-hold register that brackets a group-3 update. */
  const GroupAccess: Addr := 0x3212
  /** First register of the colour matrix (saturation) and of the EV rows. */
  const ColorMatrixBase: Addr := 0x5381

  // ---------------------------------------------------------------------------
  // Frame sizes (OV5640_size)
  // ---------------------------------------------------------------------------

  /** The supported frame sizes, in the order (and with the values 0..17) of
      the OV5640_size enumeration. */
  datatype FrameSize =
    | Size96x96 | QQVGA | QCIF | HQVGA | Size240x240 | QVGA | CIF | HVGA | VGA
    | SVGA | XGA | HD | SXGA | UXGA | QHDA | WQXGA | PFHD | QSXGA
  {
    /** The enumerator's integer value, which is also its resolution-table row. */
    function Index(): (i: nat)
      ensures i < 18
    {
      match this
      case Size96x96 => 0   case QQVGA => 1   case QCIF => 2   case HQVGA => 3
      case Size240x240 => 4 case QVGA => 5    case CIF => 6    case HVGA => 7
      case VGA => 8         case SVGA => 9    case XGA => 10   case HD => 11
      case SXGA => 12       case UXGA => 13   case QHDA => 14  case WQXGA => 15
      case PFHD => 16       case QSXGA => 17
    }
  }

  /** The enumerator with a given value. */
  function SizeOfIndex(i: nat): (s: FrameSize)
    requires i < 18
  {
    [Size96x96, QQVGA, QCIF, HQVGA, Size240x240, QVGA, CIF, HVGA, VGA,
     SVGA, XGA, HD, SXGA, UXGA, QHDA, WQXGA, PFHD, QSXGA][i]
  }

  /** The dimensions each enumerator is documented with, independently of
      the resolution table. */
  function DocumentedSize(s: FrameSize): (bv16, bv16)
  {
    match s
    case Size96x96 => (96, 96)      case QQVGA => (160, 120)    case QCIF => (176, 144)
    case HQVGA => (240, 176)        case Size240x240 => (240, 240)
    case QVGA => (320, 240)         case CIF => (400, 296)      case HVGA => (480, 320)
    case VGA => (640, 480)          case SVGA => (800, 600)     case XGA => (1024, 768)
    case HD => (1280, 720)          case SXGA => (1280, 1024)   case UXGA => (1600, 1200)
    case QHDA => (2560, 1440)       case WQXGA => (2560, 1600)  case PFHD => (1088, 1920)
    case QSXGA => (2560, 1920)
  }

  // ---------------------------------------------------------------------------
  // Geometry tables
  // ---------------------------------------------------------------------------

  const AspectRatio4x3: nat := 0
  const AspectRatio3x2: nat := 1
  const AspectRatio16x10: nat := 2
  const AspectRatio5x3: nat := 3
  const AspectRatio16x9: nat := 4
  const AspectRatio21x9: nat := 5
  const AspectRatio5x4: nat := 6
  const AspectRatio1x1: nat := 7
  const AspectRatio9x16: nat := 8

  /** A row of the resolution table: output size and aspect-ratio row. */
  datatype Resolution = Resolution(width: bv16, height: bv16, ratio: nat)

  const ResolutionInfo: seq<Resolution> := [
    Resolution(96, 96, AspectRatio1x1),
    Resolution(160, 120, AspectRatio4x3),
    Resolution(176, 144, AspectRatio5x4),
    Resolution(240, 176, AspectRatio4x3),
    Resolution(240, 240, AspectRatio1x1),
    Resolution(320, 240, AspectRatio4x3),
    Resolution(400, 296, AspectRatio4x3),
    Resolution(480, 320, AspectRatio3x2),
    Resolution(640, 480, AspectRatio4x3),
    Resolution(800, 600, AspectRatio4x3),
    Resolution(1024, 768, AspectRatio4x3),
    Resolution(1280, 720, AspectRatio16x9),
    Resolution(1280, 1024, AspectRatio5x4),
    Resolution(1600, 1200, AspectRatio4x3),
    Resolution(2560, 1440, AspectRatio16x9),
    Resolution(2560, 1600, AspectRatio16x10),
    Resolution(1088, 1920, AspectRatio9x16),
    Resolution(2560, 1920, AspectRatio4x3)
  ]

  /** A row of the aspect-ratio table: sensor window size, crop start and end,
      output offset and total timing size, all held in uint16_t locals. */
  datatype RatioGeometry = RatioGeometry(
    maxWidth: bv16, maxHeight: bv16,
    startX: bv16, startY: bv16, endX: bv16, endY: bv16,
    offsetX: bv16, offsetY: bv16, totalX: bv16, totalY: bv16)

  const RatioTable: seq<RatioGeometry> := [
    RatioGeometry(2560, 1920, 0, 0, 2623, 1951, 32, 16, 2844, 1968),    // 4x3
    RatioGeometry(2560, 1704, 0, 110, 2623, 1843, 32, 16, 2844, 1752),  // 3x2
    RatioGeometry(2560, 1600, 0, 160, 2623, 1791, 32, 16, 2844, 1648),  // 16x10
    RatioGeometry(2560, 1536, 0, 192, 2623, 1759, 32, 16, 2844, 1584),  // 5x3
    RatioGeometry(2560, 1440, 0, 240, 2623, 1711, 32, 16, 2844, 1488),  // 16x9
    RatioGeometry(2560, 1080, 0, 420, 2623, 1531, 32, 16, 2844, 1128),  // 21x9
    RatioGeometry(2400, 1920, 80, 0, 2543, 1951, 32, 16, 2684, 1968),   // 5x4
    RatioGeometry(1920, 1920, 320, 0, 2543, 1951, 32, 16, 2684, 1968),  // 1x1
    RatioGeometry(1088, 1920, 736, 0, 1887, 1951, 32, 16, 1884, 1968)   // 9x16
  ]

  /** The resolution row of a frame size. */
  function ResolutionOf(s: FrameSize): Resolution
  {
    ResolutionInfo[s.Index()]
  }

  /** The aspect-ratio row of a frame size. */
  function GeometryOf(s: FrameSize): RatioGeometry
  {
    RatioTable[ResolutionOf(s).ratio]
  }

  // ---------------------------------------------------------------------------
  // Tuning tables
  // ---------------------------------------------------------------------------

  const NumContrastLevels: nat := 7
  const NumSaturationLevels: nat := 9
  const NumSatValuesPerLevel: nat := 11
  const NumEvLevels: nat := 7
  const NumEvValuesPerLevel: nat := 6
  const NumWhiteBalanceLevels: nat := 5
  const NumWhiteBalancePerLevel: nat := 7

  /** Contrast rows {0x5586, 0x5585}: levels 0, +1, +2, +3, -3, -2, -1. */
  const ContrastSettings: seq<seq<bv16>> := [
    [0x20, 0x00], [0x24, 0x10], [0x28, 0x18], [0x2C, 0x1C],
    [0x14, 0x14], [0x18, 0x18], [0x1C, 0x1C]
  ]

  /** Colour-matrix rows from 0x5381: levels 0 .. +4, then -4 .. -1. */
  const SaturationLevels: seq<seq<Byte>> := [
    [0x1D, 0x60, 0x03, 0x0C, 0x78, 0x84, 0x7D, 0x6B, 0x12, 0x01, 0x98],
    [0x1D, 0x60, 0x03, 0x0D, 0x84, 0x91, 0x8A, 0x76, 0x14, 0x01, 0x98],
    [0x1D, 0x60, 0x03, 0x0E, 0x90, 0x9E, 0x96, 0x80, 0x16, 0x01, 0x98],
    [0x1D, 0x60, 0x03, 0x10, 0x9C, 0xAC, 0xA2, 0x8B, 0x17, 0x01, 0x98],
    [0x1D, 0x60, 0x03, 0x11, 0xA8, 0xB9, 0xAF, 0x96, 0x19, 0x01, 0x98],
    [0x1D, 0x60, 0x03, 0x07, 0x48, 0x4F, 0x4B, 0x40, 0x0B, 0x01, 0x98],
    [0x1D, 0x60, 0x03, 0x08, 0x54, 0x5C, 0x58, 0x4B, 0x0D, 0x01, 0x98],
    [0x1D, 0x60, 0x03, 0x0A, 0x60, 0x6A, 0x64, 0x56, 0x0E, 0x01, 0x98],
    [0x1D, 0x60, 0x03, 0x0B, 0x6C, 0x77, 0x70, 0x60, 0x10, 0x01, 0x98]
  ]

  /** Exposure (EV) rows, also written from 0x5381: levels 0 .. +3, then -3 .. -1. */
  const EvLevels: seq<seq<Byte>> := [
    [0x38, 0x30, 0x61, 0x38, 0x30, 0x10],
    [0x40, 0x38, 0x71, 0x40, 0x38, 0x10],
    [0x50, 0x48, 0x90, 0x50, 0x48, 0x20],
    [0x60, 0x58, 0xA0, 0x60, 0x58, 0x20],
    [0x10, 0x08, 0x10, 0x08, 0x20, 0x10],
    [0x20, 0x18, 0x41, 0x20, 0x18, 0x10],
    [0x30, 0x28, 0x61, 0x30, 0x28, 0x10]
  ]

  /** The registers a white-balance row is written to, in order. */
  const LightRegisters: seq<Addr> := [0x3406, 0x3400, 0x3401, 0x3402, 0x3403, 0x3404, 0x3405]

  /** White-balance rows: auto, sunny, office, cloudy, home. */
  const LightModes: seq<seq<Byte>> := [
    [0x00, 0x04, 0x00, 0x04, 0x00, 0x04, 0x00],
    [0x01, 0x06, 0x1C, 0x04, 0x00, 0x04, 0xF3],
    [0x01, 0x05, 0x48, 0x04, 0x00, 0x07, 0xCF],
    [0x01, 0x06, 0x48, 0x04, 0x00, 0x04, 0xD3],
    [0x01, 0x04, 0x10, 0x04, 0x00, 0x08, 0x40]
  ]

  /** The registers a special-effect row is written to, in order. */
  const SpecialEffectRegisters: seq<Addr> := [0x5580, 0x5583, 0x5584, 0x5003]

  /** Special-effect rows: normal, negative, grayscale, red, green, blue tint, sepia. */
  const SpecialEffects: seq<seq<Byte>> := [
    [0x06, 0x40, 0x10, 0x08],
    [0x46, 0x40, 0x28, 0x08],
    [0x1E, 0x80, 0x80, 0x08],
    [0x1E, 0x80, 0xC0, 0x08],
    [0x1E, 0x60, 0x60, 0x08],
    [0x1E, 0xA0, 0x40, 0x08],
    [0x1E, 0x40, 0xA0, 0x08]
  ]

  // ---------------------------------------------------------------------------
  // Register lists
  // ---------------------------------------------------------------------------

  /** The start-up list: software reset, a 10 ms pause, power down, clocks,
      ISP, AEC/AGC, 50/60 Hz, BLC, AWB, colour matrix, sharpness, gamma,
      special digital effects, then power on and 50 Hz. */
  const SensorDefaultRegs: seq<Entry> := SoftwareResetRows + SensorSetupRows

  /** Software reset, then a 10 ms pause. */
  const SoftwareResetRows: seq<Entry> := [Entry(0x3008, 0x82), Entry(0xFFFF, 10)]

  /** The rest of the start-up list. */
  const SensorSetupRows: seq<Entry> := [
    Entry(0x3008, 0x42), Entry(0x3103, 0x13),
    Entry(0x3017, 0xFF), Entry(0x3018, 0xFF), Entry(0x302C, 0xC3), Entry(0x4740, 0x21),
    Entry(0x4713, 0x02), Entry(0x5001, 0x83), Entry(0x3000, 0x00), Entry(0x3002, 0x1C),
    Entry(0x3004, 0xFF), Entry(0x3006, 0xC3), Entry(0x5000, 0xA7), Entry(0x5001, 0xA3),
    Entry(0x5003, 0x08), Entry(0x370C, 0x02), Entry(0x3634, 0x40), Entry(0x3A02, 0x03),
    Entry(0x3A03, 0xD8), Entry(0x3A08, 0x01), Entry(0x3A09, 0x27), Entry(0x3A0A, 0x00),
    Entry(0x3A0B, 0xF6), Entry(0x3A0D, 0x04), Entry(0x3A0E, 0x03), Entry(0x3A0F, 0x30),
    Entry(0x3A10, 0x28), Entry(0x3A11, 0x60), Entry(0x3A13, 0x43), Entry(0x3A14, 0x03),
    Entry(0x3A15, 0xD8), Entry(0x3A18, 0x00), Entry(0x3A19, 0xF8), Entry(0x3A1B, 0x30),
    Entry(0x3A1E, 0x26), Entry(0x3A1F, 0x14), Entry(0x3600, 0x08), Entry(0x3601, 0x33),
    Entry(0x3C01, 0xA4), Entry(0x3C04, 0x28), Entry(0x3C05, 0x98), Entry(0x3C06, 0x00),
    Entry(0x3C07, 0x08), Entry(0x3C08, 0x00), Entry(0x3C09, 0x1C), Entry(0x3C0A, 0x9C),
    Entry(0x3C0B, 0x40), Entry(0x460C, 0x22), Entry(0x4001, 0x02), Entry(0x4004, 0x02),
    Entry(0x5180, 0xFF), Entry(0x5181, 0xF2), Entry(0x5182, 0x00), Entry(0x5183, 0x14),
    Entry(0x5184, 0x25), Entry(0x5185, 0x24), Entry(0x5186, 0x09), Entry(0x5187, 0x09),
    Entry(0x5188, 0x09), Entry(0x5189, 0x75), Entry(0x518A, 0x54), Entry(0x518B, 0xE0),
    Entry(0x518C, 0xB2), Entry(0x518D, 0x42), Entry(0x518E, 0x3D), Entry(0x518F, 0x56),
    Entry(0x5190, 0x46), Entry(0x5191, 0xF8), Entry(0x5192, 0x04), Entry(0x5193, 0x70),
    Entry(0x5194, 0xF0), Entry(0x5195, 0xF0), Entry(0x5196, 0x03), Entry(0x5197, 0x01),
    Entry(0x5198, 0x04), Entry(0x5199, 0x12), Entry(0x519A, 0x04), Entry(0x519B, 0x00),
    Entry(0x519C, 0x06), Entry(0x519D, 0x82), Entry(0x519E, 0x38), Entry(0x5381, 0x1E),
    Entry(0x5382, 0x5B), Entry(0x5383, 0x08), Entry(0x5384, 0x0A), Entry(0x5385, 0x7E),
    Entry(0x5386, 0x88), Entry(0x5387, 0x7C), Entry(0x5388, 0x6C), Entry(0x5389, 0x10),
    Entry(0x538A, 0x01), Entry(0x538B, 0x98), Entry(0x5300, 0x10), Entry(0x5301, 0x10),
    Entry(0x5302, 0x18), Entry(0x5303, 0x19), Entry(0x5304, 0x10), Entry(0x5305, 0x10),
    Entry(0x5306, 0x08), Entry(0x5307, 0x16), Entry(0x5308, 0x40), Entry(0x5309, 0x10),
    Entry(0x530A, 0x10), Entry(0x530B, 0x04), Entry(0x530C, 0x06), Entry(0x5480, 0x01),
    Entry(0x5481, 0x00), Entry(0x5482, 0x1E), Entry(0x5483, 0x3B), Entry(0x5484, 0x58),
    Entry(0x5485, 0x66), Entry(0x5486, 0x71), Entry(0x5487, 0x7D), Entry(0x5488, 0x83),
    Entry(0x5489, 0x8F), Entry(0x548A, 0x98), Entry(0x548B, 0xA6), Entry(0x548C, 0xB8),
    Entry(0x548D, 0xCA), Entry(0x548E, 0xD7), Entry(0x548F, 0xE3), Entry(0x5490, 0x1D),
    Entry(0x5580, 0x06), Entry(0x5583, 0x40), Entry(0x5584, 0x10), Entry(0x5586, 0x20),
    Entry(0x5587, 0x00), Entry(0x5588, 0x00), Entry(0x5589, 0x10), Entry(0x558A, 0x00),
    Entry(0x558B, 0xF8), Entry(0x501D, 0x40), Entry(0x3008, 0x02), Entry(0x3C00, 0x04)
  ]

  /** The start-up list opens with the software reset and a 10 ms pause and
      closes with power-on and 50 Hz banding. */
  lemma DefaultRegsEnds()
    ensures |SensorDefaultRegs| == 136
    ensures SensorDefaultRegs[0] == Entry(0x3008, 0x82) && SensorDefaultRegs[1] == Entry(0xFFFF, 10)
    ensures SensorDefaultRegs[134] == Entry(0x3008, 0x02) && SensorDefaultRegs[135] == Entry(0x3C00, 0x04)
  {
  }

  /** Output format RGB565. */
  const FormatRgb565: seq<Entry> := [
    Entry(0x501F, 0x01), Entry(0x4300, 0x61), Entry(0x3002, 0x1C), Entry(0x3006, 0xC3)
  ]

  /** Output format YUV422 (YUYV). */
  const FormatYuv422: seq<Entry> := [
    Entry(0x501F, 0x00), Entry(0x4300, 0x30)
  ]
}
