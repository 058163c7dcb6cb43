/**
 * What _set_size_and_colorspace writes: the frame geometry of a frame size,
 * the scaling bit, the image options (binning, flip and mirror), the PLL and
 * the output format.  Each step is specified by the events it emits; the
 * lemmas say what the registers hold afterwards.
 */
module SizeAndColorspace {
  import opened Capture
  import opened Registers
  import opened Tables

  // ---------------------------------------------------------------------------
  // Image options (_set_image_options)
  // ---------------------------------------------------------------------------

  /** Timing control 0x3820: bit 0 vertical binning, 0x40 when not binning,
      bits 2:1 vertical flip, and nothing else. */
  function Reg20Value(binning: bool, flipY: bool): (r: Byte)
    ensures (r & 0x01 == 0x01) == binning
    ensures (r & 0x40 == 0x40) == !binning
    ensures r & TimingTcReg20Vflip == (if flipY then TimingTcReg20Vflip else 0)
    ensures r & 0xB8 == 0
  {
    (if binning then 0x01 else 0x40) | (if flipY then TimingTcReg20Vflip else 0)
  }

  /** Timing control 0x3821: bit 0 horizontal binning, bits 2:1 horizontal
      mirror, and nothing else. */
  function Reg21Value(binning: bool, flipX: bool): (r: Byte)
    ensures (r & 0x01 == 0x01) == binning
    ensures r & TimingTcReg21Hmirror == (if flipX then TimingTcReg21Hmirror else 0)
    ensures r & 0xF8 == 0
  {
    (if binning then 0x01 else 0) | (if flipX then TimingTcReg21Hmirror else 0)
  }

  /** The row of the 0x4514 table: flip-y is bit 0, flip-x bit 1, binning bit 2. */
  function Reg4514Index(binning: bool, flipX: bool, flipY: bool): (i: nat)
    ensures i < 8
    ensures (i % 2 == 1) == flipY
    ensures (i / 2 % 2 == 1) == flipX
    ensures (i >= 4) == binning
  {
    (if flipY then 1 else 0) + (if flipX then 2 else 0) + (if binning then 4 else 0)
  }

  const Reg4514Table: seq<Byte> := [0x88, 0x00, 0xBB, 0x00, 0xAA, 0xBB, 0xBB, 0xAA]

  /** The three computed image-option values, built the way the driver
      builds them: flag by flag, then a chain of tests on the 0x4514 index. */
  method ImageOptionValues(binning: bool, flipX: bool, flipY: bool)
    returns (reg20: Byte, reg21: Byte, reg4514: Byte)
    ensures reg20 == Reg20Value(binning, flipY)
    ensures reg21 == Reg21Value(binning, flipX)
    ensures reg4514 == Reg4514Table[Reg4514Index(binning, flipX, flipY)]
  {
    reg20, reg21, reg4514 := 0, 0, 0;
    var test: bv8 := 0;
    if binning {
      reg20 := reg20 | 1;
      reg21 := reg21 | 1;
      test := test | 4;
    } else {
      reg20 := reg20 | 0x40;
    }
    if flipY {
      reg20 := reg20 | TimingTcReg20Vflip;
      test := test | 1;
    }
    if flipX {
      reg21 := reg21 | TimingTcReg21Hmirror;
      test := test | 2;
    }
    if test == 0 {
      reg4514 := 0x88;
    } else if test == 1 {
      reg4514 := 0x00;
    } else if test == 2 {
      reg4514 := 0xBB;
    } else if test == 3 {
      reg4514 := 0x00;
    } else if test == 4 {
      reg4514 := 0xAA;
    } else if test == 5 {
      reg4514 := 0xBB;
    } else if test == 6 {
      reg4514 := 0xBB;
    } else if test == 7 {
      reg4514 := 0xAA;
    }
  }

  /** The registers _set_image_options writes, in order. */
  const ImageOptionRegisters: seq<Addr> :=
    [TimingTcReg20, TimingTcReg21, 0x4514, 0x4520, XIncrement, YIncrement]

  function ImageOptionBytes(binning: bool, flipX: bool, flipY: bool): (b: seq<Byte>)
    ensures |b| == |ImageOptionRegisters|
  {
    [Reg20Value(binning, flipY), Reg21Value(binning, flipX),
     Reg4514Table[Reg4514Index(binning, flipX, flipY)],
     if binning then 0x0B else 0x10,
     if binning then 0x31 else 0x11,
     if binning then 0x31 else 0x11]
  }

  /** _set_image_options: six writes. */
  function ImageOptionsEvents(binning: bool, flipX: bool, flipY: bool): (t: seq<Event>)
    ensures |t| == 6
  {
    ZipWrites(ImageOptionRegisters, ImageOptionBytes(binning, flipX, flipY))
  }

  /** After _set_image_options the timing registers encode binning, flip and
      mirror, 0x4514 holds its table row, the increments are 0x31 when
      binning and 0x11 otherwise, and no other register has changed. */
  lemma ImageOptionsEffect(m: RegisterFile, binning: bool, flipX: bool, flipY: bool)
    ensures var r := Replay(m, ImageOptionsEvents(binning, flipX, flipY));
      && TimingTcReg20 in r && TimingTcReg21 in r && 0x4514 in r && 0x4520 in r
      && XIncrement in r && YIncrement in r
      && (r[TimingTcReg20] & 0x01 == 0x01) == binning
      && (r[TimingTcReg21] & 0x01 == 0x01) == binning
      && (r[TimingTcReg20] & 0x40 == 0x40) == !binning
      && (r[TimingTcReg20] & TimingTcReg20Vflip == TimingTcReg20Vflip) == flipY
      && (r[TimingTcReg21] & TimingTcReg21Hmirror == TimingTcReg21Hmirror) == flipX
      && r[0x4514] == Reg4514Table[Reg4514Index(binning, flipX, flipY)]
      && r[0x4520] == (if binning then 0x0B else 0x10)
      && r[XIncrement] == r[YIncrement] == (if binning then 0x31 else 0x11)
  {
    var vals := ImageOptionBytes(binning, flipX, flipY);
    assert Distinct(ImageOptionRegisters);
    ZipEffect(m, ImageOptionRegisters, vals);
    var r := Replay(m, ImageOptionsEvents(binning, flipX, flipY));
    assert r[ImageOptionRegisters[0]] == vals[0] && r[ImageOptionRegisters[1]] == vals[1];
    assert r[ImageOptionRegisters[2]] == vals[2] && r[ImageOptionRegisters[3]] == vals[3];
    assert r[ImageOptionRegisters[4]] == vals[4] && r[ImageOptionRegisters[5]] == vals[5];
  }

  /** _set_image_options is six register updates, one after the other. */
  lemma ImageOptionsApplied(m: RegisterFile, binning: bool, flipX: bool, flipY: bool)
    ensures Replay(m, ImageOptionsEvents(binning, flipX, flipY)) ==
      m[TimingTcReg20 := Reg20Value(binning, flipY)]
       [TimingTcReg21 := Reg21Value(binning, flipX)]
       [0x4514 := Reg4514Table[Reg4514Index(binning, flipX, flipY)]]
       [0x4520 := if binning then 0x0B else 0x10]
       [XIncrement := if binning then 0x31 else 0x11]
       [YIncrement := if binning then 0x31 else 0x11]
  {
    var e := ImageOptionsEvents(binning, flipX, flipY);
    assert e[..0] == [] && e[..6] == e;
    ReplayPrefixStep(m, e, 0);
    ReplayPrefixStep(m, e, 1);
    ReplayPrefixStep(m, e, 2);
    ReplayPrefixStep(m, e, 3);
    ReplayPrefixStep(m, e, 4);
    ReplayPrefixStep(m, e, 5);
  }

  /** _set_image_options is six writes appended one after the other. */
  lemma ImageOptionsTrace(t0: seq<Event>, binning: bool, flipX: bool, flipY: bool)
    ensures t0 + ImageOptionsEvents(binning, flipX, flipY) ==
      t0 + [Write(TimingTcReg20, Reg20Value(binning, flipY))]
         + [Write(TimingTcReg21, Reg21Value(binning, flipX))]
         + [Write(0x4514, Reg4514Table[Reg4514Index(binning, flipX, flipY)])]
         + [Write(0x4520, if binning then 0x0B else 0x10)]
         + [Write(XIncrement, if binning then 0x31 else 0x11)]
         + [Write(YIncrement, if binning then 0x31 else 0x11)]
  {
  }

  /** _set_image_options changes no register but its six. */
  lemma ImageOptionsKeeps(m: RegisterFile, binning: bool, flipX: bool, flipY: bool, a: Addr)
    requires a !in ImageOptionRegisters
    ensures SameAt(Replay(m, ImageOptionsEvents(binning, flipX, flipY)), m, a)
  {
    ZipEffect(m, ImageOptionRegisters, ImageOptionBytes(binning, flipX, flipY));
  }

  // ---------------------------------------------------------------------------
  // Frame geometry
  // ---------------------------------------------------------------------------

  /** Binning is used when the output fits in half the sensor window. */
  predicate Binning(s: FrameSize)
  {
    var r, g := ResolutionOf(s), GeometryOf(s);
    r.width <= g.maxWidth / 2 && r.height <= g.maxHeight / 2
  }

  /** Scaling is needed unless the output is the full or the half window. */
  predicate Scale(s: FrameSize)
  {
    var r, g := ResolutionOf(s), GeometryOf(s);
    !((r.width == g.maxWidth && r.height == g.maxHeight) ||
      (r.width == g.maxWidth / 2 && r.height == g.maxHeight / 2))
  }

  /** The total timing size written for a window of the given output width:
      halved vertically under binning, and narrowed horizontally (to 2060 for
      narrow outputs). */
  function WindowTotal(width: bv16, g: RatioGeometry, binning: bool): (bv16, bv16)
  {
    if !binning then (g.totalX, g.totalY)
    else if width > 920 then (g.totalX - 200, g.totalY / 2)
    else (2060, g.totalY / 2)
  }

  /** The output offset written for a window: halved under binning. */
  function WindowOffset(g: RatioGeometry, binning: bool): (bv16, bv16)
  {
    if !binning then (g.offsetX, g.offsetY) else (g.offsetX / 2, g.offsetY / 2)
  }

  /** The register block 0x3800 .. 0x3813 the geometry writes go to. */
  predicate InGeometryBlock(a: Addr)
  {
    XAddrStartHigh <= a < XAddrStartHigh + 20
  }

  /** The bytes of crop start, crop end, output size, total size and offset,
      each 16-bit value high byte first. */
  function WindowBytes(sx: bv16, sy: bv16, ex: bv16, ey: bv16, w: bv16, h: bv16,
                       tx: bv16, ty: bv16, ox: bv16, oy: bv16): (b: seq<Byte>)
    ensures |b| == 20
  {
    SplitPair(sx, sy) + SplitPair(ex, ey) + SplitPair(w, h) + SplitPair(tx, ty) + SplitPair(ox, oy)
  }

  /** The twenty register writes to 0x3800 .. 0x3813 that set the window. */
  function WindowWrites(sx: bv16, sy: bv16, ex: bv16, ey: bv16, w: bv16, h: bv16,
                        tx: bv16, ty: bv16, ox: bv16, oy: bv16): (t: seq<Event>)
    ensures |t| == 20
  {
    ZipWrites(Span(XAddrStartHigh, 20), WindowBytes(sx, sy, ex, ey, w, h, tx, ty, ox, oy))
  }

  /** The twenty writes are the five _write_addr_reg calls, one after the other. */
  lemma WindowWritesAreAddrRegs(sx: bv16, sy: bv16, ex: bv16, ey: bv16, w: bv16, h: bv16,
                                tx: bv16, ty: bv16, ox: bv16, oy: bv16)
    ensures WindowWrites(sx, sy, ex, ey, w, h, tx, ty, ox, oy) ==
      AddrRegWrites(XAddrStartHigh, sx, sy) +
      AddrRegWrites(XAddrEndHigh, ex, ey) +
      AddrRegWrites(XOutputSizeHigh, w, h) +
      AddrRegWrites(XTotalSizeHigh, tx, ty) +
      AddrRegWrites(XOffsetHigh, ox, oy)
  {
    var t := WindowWrites(sx, sy, ex, ey, w, h, tx, ty, ox, oy);
    var u := AddrRegWrites(XAddrStartHigh, sx, sy) +
      AddrRegWrites(XAddrEndHigh, ex, ey) +
      AddrRegWrites(XOutputSizeHigh, w, h) +
      AddrRegWrites(XTotalSizeHigh, tx, ty) +
      AddrRegWrites(XOffsetHigh, ox, oy);
    forall k | 0 <= k < 20
      ensures t[k] == u[k]
    {
    }
  }

  /** The window bytes are the ten values, high byte first. */
  lemma WindowBytesAt(sx: bv16, sy: bv16, ex: bv16, ey: bv16, w: bv16, h: bv16,
                      tx: bv16, ty: bv16, ox: bv16, oy: bv16)
    ensures var b := WindowBytes(sx, sy, ex, ey, w, h, tx, ty, ox, oy);
      && b[0] == HighByte(sx) && b[1] == LowByte(sx) && b[2] == HighByte(sy) && b[3] == LowByte(sy)
      && b[4] == HighByte(ex) && b[5] == LowByte(ex) && b[6] == HighByte(ey) && b[7] == LowByte(ey)
      && b[8] == HighByte(w) && b[9] == LowByte(w) && b[10] == HighByte(h) && b[11] == LowByte(h)
      && b[12] == HighByte(tx) && b[13] == LowByte(tx) && b[14] == HighByte(ty) && b[15] == LowByte(ty)
      && b[16] == HighByte(ox) && b[17] == LowByte(ox) && b[18] == HighByte(oy) && b[19] == LowByte(oy)
  {
  }

  /** The window block is the twenty registers 0x3800 .. 0x3813. */
  lemma WindowSpanAt()
    ensures var s := Span(XAddrStartHigh, 20);
      && s[0] == 0x3800 && s[1] == 0x3801 && s[2] == 0x3802 && s[3] == 0x3803
      && s[4] == 0x3804 && s[5] == 0x3805 && s[6] == 0x3806 && s[7] == 0x3807
      && s[8] == 0x3808 && s[9] == 0x3809 && s[10] == 0x380A && s[11] == 0x380B
      && s[12] == 0x380C && s[13] == 0x380D && s[14] == 0x380E && s[15] == 0x380F
      && s[16] == 0x3810 && s[17] == 0x3811 && s[18] == 0x3812 && s[19] == 0x3813
  {
  }

  /** After the window writes each register pair of 0x3800 .. 0x3813 reads
      back its value, and nothing outside that block has changed. */
  lemma WindowWritesEffect(m: RegisterFile, sx: bv16, sy: bv16, ex: bv16, ey: bv16,
                           w: bv16, h: bv16, tx: bv16, ty: bv16, ox: bv16, oy: bv16)
    ensures var r := Replay(m, WindowWrites(sx, sy, ex, ey, w, h, tx, ty, ox, oy));
      && Read16(r, 0x3800) == sx && Read16(r, 0x3802) == sy
      && Read16(r, 0x3804) == ex && Read16(r, 0x3806) == ey
      && Read16(r, 0x3808) == w && Read16(r, 0x380A) == h
      && Read16(r, 0x380C) == tx && Read16(r, 0x380E) == ty
      && Read16(r, 0x3810) == ox && Read16(r, 0x3812) == oy
  {
    var addrs, vals := Span(XAddrStartHigh, 20), WindowBytes(sx, sy, ex, ey, w, h, tx, ty, ox, oy);
    ZipEffect(m, addrs, vals);
    var r := Replay(m, WindowWrites(sx, sy, ex, ey, w, h, tx, ty, ox, oy));
    WindowBytesAt(sx, sy, ex, ey, w, h, tx, ty, ox, oy);
    WindowSpanAt();
    PairReads(r, 0x3800, sx); PairReads(r, 0x3802, sy);
    PairReads(r, 0x3804, ex); PairReads(r, 0x3806, ey);
    PairReads(r, 0x3808, w); PairReads(r, 0x380A, h);
    PairReads(r, 0x380C, tx); PairReads(r, 0x380E, ty);
    PairReads(r, 0x3810, ox); PairReads(r, 0x3812, oy);
  }

  /** The window writes change nothing outside 0x3800 .. 0x3813. */
  lemma WindowWritesKeep(m: RegisterFile, sx: bv16, sy: bv16, ex: bv16, ey: bv16,
                         w: bv16, h: bv16, tx: bv16, ty: bv16, ox: bv16, oy: bv16, a: Addr)
    requires !InGeometryBlock(a)
    ensures SameAt(Replay(m, WindowWrites(sx, sy, ex, ey, w, h, tx, ty, ox, oy)), m, a)
  {
    var addrs := Span(XAddrStartHigh, 20);
    ZipEffect(m, addrs, WindowBytes(sx, sy, ex, ey, w, h, tx, ty, ox, oy));
    assert a !in addrs;
  }

  /** A register pair holding the high and low bytes of x reads back x. */
  lemma PairReads(r: RegisterFile, reg: Addr, x: bv16)
    requires reg < 0xFFFF && reg in r && reg + 1 in r
    requires r[reg] == HighByte(x) && r[reg + 1] == LowByte(x)
    ensures Read16(r, reg) == x
  {
    SplitJoin(x);
  }

  /** The geometry writes of a frame size. */
  function GeometryEvents(s: FrameSize): (t: seq<Event>)
    ensures |t| == 20
  {
    var r, g := ResolutionOf(s), GeometryOf(s);
    var total, offset := WindowTotal(r.width, g, Binning(s)), WindowOffset(g, Binning(s));
    WindowWrites(g.startX, g.startY, g.endX, g.endY, r.width, r.height,
                 total.0, total.1, offset.0, offset.1)
  }

  /** The window registers of a frame size read back its crop window, its
      output size, and the total size and offset its binning mode calls for
      (GeometryKeeps says what stays unchanged). */
  lemma GeometryRegisters(m: RegisterFile, s: FrameSize)
    ensures var r, g, res := Replay(m, GeometryEvents(s)), GeometryOf(s), ResolutionOf(s);
      && Read16(r, 0x3800) == g.startX && Read16(r, 0x3802) == g.startY
      && Read16(r, 0x3804) == g.endX && Read16(r, 0x3806) == g.endY
      && Read16(r, 0x3808) == res.width && Read16(r, 0x380A) == res.height
      && Read16(r, 0x380C) == (if !Binning(s) then g.totalX
                               else if res.width > 920 then g.totalX - 200 else 2060)
      && Read16(r, 0x380E) == (if Binning(s) then g.totalY / 2 else g.totalY)
      && Read16(r, 0x3810) == (if Binning(s) then g.offsetX / 2 else g.offsetX)
      && Read16(r, 0x3812) == (if Binning(s) then g.offsetY / 2 else g.offsetY)
  {
    var r, g, b := ResolutionOf(s), GeometryOf(s), Binning(s);
    var total, offset := WindowTotal(r.width, g, b), WindowOffset(g, b);
    WindowWritesEffect(m, g.startX, g.startY, g.endX, g.endY, r.width, r.height,
                       total.0, total.1, offset.0, offset.1);
  }

  /** The output size registers hold the size's dimensions. */
  lemma GeometryOutputSize(m: RegisterFile, s: FrameSize)
    ensures Read16(Replay(m, GeometryEvents(s)), 0x3808) == ResolutionOf(s).width
    ensures Read16(Replay(m, GeometryEvents(s)), 0x380A) == ResolutionOf(s).height
  {
    GeometryRegisters(m, s);
  }

  /** The geometry writes of a frame size change nothing outside 0x3800 .. 0x3813. */
  lemma GeometryKeeps(m: RegisterFile, s: FrameSize, a: Addr)
    requires !InGeometryBlock(a)
    ensures SameAt(Replay(m, GeometryEvents(s)), m, a)
  {
    var r, g := ResolutionOf(s), GeometryOf(s);
    var total, offset := WindowTotal(r.width, g, Binning(s)), WindowOffset(g, Binning(s));
    WindowWritesKeep(m, g.startX, g.startY, g.endX, g.endY, r.width, r.height,
                     total.0, total.1, offset.0, offset.1, a);
  }

  /** Binning is chosen for exactly the sizes up to HD (1280x720). */
  lemma BinningFrameSizes(s: FrameSize)
    ensures Binning(s) <==> s.Index() <= HD.Index()
  {
    match s
    case Size96x96 => case QQVGA => case QCIF => case HQVGA => case Size240x240 =>
    case QVGA => case CIF => case HVGA => case VGA => case SVGA => case XGA =>
    case HD => case SXGA => case UXGA => case QHDA => case WQXGA => case PFHD =>
    case QSXGA =>
  }

  /** Scaling is off for exactly the sizes that are the full sensor window of
      their aspect ratio (QHDA, WQXGA, PFHD, QSXGA) or half of it (HD). */
  lemma ScaleFrameSizes(s: FrameSize)
    ensures !Scale(s) <==> s in {HD, QHDA, WQXGA, PFHD, QSXGA}
  {
    match s
    case Size96x96 => case QQVGA => case QCIF => case HQVGA => case Size240x240 =>
    case QVGA => case CIF => case HVGA => case VGA => case SVGA => case XGA =>
    case HD => case SXGA => case UXGA => case QHDA => case WQXGA => case PFHD =>
    case QSXGA =>
  }

  /** Every output size fits the sensor window of its aspect ratio. */
  lemma OutputFitsWindow(s: FrameSize)
    ensures ResolutionOf(s).width <= GeometryOf(s).maxWidth
    ensures ResolutionOf(s).height <= GeometryOf(s).maxHeight
  {
    RowFits(s.Index());
  }

  /** Every row of the resolution table fits the sensor window of its ratio. */
  lemma RowFits(k: nat)
    requires k < |ResolutionInfo|
    ensures ResolutionInfo[k].width <= RatioTable[ResolutionInfo[k].ratio].maxWidth
    ensures ResolutionInfo[k].height <= RatioTable[ResolutionInfo[k].ratio].maxHeight
  {
    if k < 9 {
      SmallRowsFit(k);
    } else {
      LargeRowsFit(k);
    }
  }

  /** The first nine rows of the resolution table fit their sensor windows. */
  lemma SmallRowsFit(k: nat)
    requires k < 9
    ensures ResolutionInfo[k].width <= RatioTable[ResolutionInfo[k].ratio].maxWidth
    ensures ResolutionInfo[k].height <= RatioTable[ResolutionInfo[k].ratio].maxHeight
  {
    assert k == 0 || k == 1 || k == 2 || k == 3 || k == 4 || k == 5 || k == 6 || k == 7 || k == 8;
  }

  /** The last nine rows of the resolution table fit their sensor windows. */
  lemma LargeRowsFit(k: nat)
    requires 9 <= k < 18
    ensures ResolutionInfo[k].width <= RatioTable[ResolutionInfo[k].ratio].maxWidth
    ensures ResolutionInfo[k].height <= RatioTable[ResolutionInfo[k].ratio].maxHeight
  {
    assert k == 9 || k == 10 || k == 11 || k == 12 || k == 13 || k == 14 || k == 15 ||
      k == 16 || k == 17;
  }

  /** In every aspect-ratio row the crop window (start to end, inclusive)
      covers the sensor window, and the total width is at least 200, so the
      binned total width (total - 200 as uint16_t) does not wrap around. */
  lemma RatioRowsConsistent(k: nat)
    requires k < |RatioTable|
    ensures var g := RatioTable[k];
      && g.startX < g.endX && g.startY < g.endY
      && g.endX - g.startX >= g.maxWidth - 1
      && g.endY - g.startY >= g.maxHeight - 1
      && g.totalX >= 200
  {
  }

  /** The enumerator values and the resolution table agree: each size's row
      holds the dimensions the enumeration documents, and value and size
      determine each other. */
  lemma FrameSizeTable(s: FrameSize)
    ensures (ResolutionOf(s).width, ResolutionOf(s).height) == DocumentedSize(s)
    ensures SizeOfIndex(s.Index()) == s
  {
    match s
    case Size96x96 => case QQVGA => case QCIF => case HQVGA => case Size240x240 =>
    case QVGA => case CIF => case HVGA => case VGA => case SVGA => case XGA =>
    case HD => case SXGA => case UXGA => case QHDA => case WQXGA => case PFHD =>
    case QSXGA =>
  }

  /** The size config() always selects: QVGA is value 5, 320x240, binned and
      scaled. */
  lemma QvgaFlags()
    ensures QVGA.Index() == 5 && DocumentedSize(QVGA) == (320, 240)
    ensures Binning(QVGA) && Scale(QVGA)
  {
  }

  /** The QVGA window writes leave a 320x240 output, total size 2060x984 and
      offset 16x8 (half the 32x16 of its 4:3 ratio row) in the timing
      registers. */
  lemma QvgaGeometry(m: RegisterFile)
    ensures var r := Replay(m, GeometryEvents(QVGA));
      && Read16(r, 0x3808) == 320 && Read16(r, 0x380A) == 240
      && Read16(r, 0x380C) == 2060 && Read16(r, 0x380E) == 984
      && Read16(r, 0x3810) == 16 && Read16(r, 0x3812) == 8
  {
    GeometryRegisters(m, QVGA);
  }

  // ---------------------------------------------------------------------------
  // Scaling bit (_write_reg_bits(_ISP_CONTROL_01, 0x20, _scale))
  // ---------------------------------------------------------------------------

  /** The read-modify-write of bit 5 of 0x5001, given the value read. */
  function ScaleBitEvents(isp01: Byte, scale: bool): (t: seq<Event>)
    ensures |t| == 1 && t[0].Write? && t[0].reg == IspControl01
    ensures (t[0].value & 0x20 == 0x20) == scale
    ensures t[0].value & 0xDF == isp01 & 0xDF
  {
    [Write(IspControl01, MaskBits(isp01, IspScaleMask, scale))]
  }

  // ---------------------------------------------------------------------------
  // PLL (_set_pll)
  // ---------------------------------------------------------------------------

  datatype PllSettings = PllSettings(
    bypass: bool, multiplier: int, sysDiv: int, preDiv: int, root2x: bool,
    pclkRootDiv: int, pclkManual: bool, pclkDiv: int)

  /** The range check of _set_pll: settings outside it are ignored. */
  predicate PllAccepts(p: PllSettings)
  {
    !(p.multiplier > 252 || p.multiplier < 4 || p.sysDiv > 15 || p.preDiv > 8 ||
      p.pclkDiv > 31 || p.pclkRootDiv > 3)
  }

  /** The registers _set_pll writes, in order. */
  const PllRegisters: seq<Addr> := [0x3039, 0x3034, 0x3035, 0x3036, 0x3037, 0x3108, 0x3824, 0x460C, 0x3103]

  /** The packed PLL bytes.  C's `x & 0xF` on an int is x modulo 16 even for
      a negative x, which is what Dafny's `%` computes. */
  function PllBytes(p: PllSettings): (b: seq<Byte>)
    ensures |b| == |PllRegisters|
  {
    [if p.bypass then 0x80 else 0,
     0x1A,
     1 | ((p.sysDiv % 16) as Byte << 4),
     (p.multiplier % 256) as Byte,
     (p.preDiv % 16) as Byte | (if p.root2x then 0x10 else 0),
     ((p.pclkRootDiv % 4) as Byte << 4) | 0x06,
     (p.pclkDiv % 32) as Byte,
     if p.pclkManual then 0x22 else 0x22,
     0x13]
  }

  /** _set_pll: nine writes when the settings pass the range check, none otherwise. */
  function PllEvents(p: PllSettings): (t: seq<Event>)
    ensures PllAccepts(p) ==> |t| == 9
    ensures !PllAccepts(p) ==> t == []
  {
    if PllAccepts(p) then ZipWrites(PllRegisters, PllBytes(p)) else []
  }

  /** The settings config() uses: no bypass, multiplier 40, dividers 1, 1, 1,
      PCLK divider 4. */
  const ConfigPll := PllSettings(false, 40, 1, 1, false, 1, true, 4)

  /** The packed bytes decode back to the settings' fields: each field, cut
      to the width of its bit-field, sits in its byte as a byte. */
  lemma PllBytesDecode(p: PllSettings)
    requires PllAccepts(p)
    ensures var b := PllBytes(p);
      && (b[0] == 0x80) == p.bypass && b[0] & 0x7F == 0
      && b[1] == 0x1A
      && b[2] & 0x0F == 1 && b[2] >> 4 == (p.sysDiv % 16) as Byte
      && b[3] == p.multiplier as Byte
      && b[4] & 0x0F == (p.preDiv % 16) as Byte
      && (b[4] & 0x10 == 0x10) == p.root2x && b[4] & 0xE0 == 0
      && b[5] & 0x0F == 0x06 && b[5] >> 4 == (p.pclkRootDiv % 4) as Byte
      && b[6] == (p.pclkDiv % 32) as Byte
      && b[7] == 0x22 && b[8] == 0x13
  {
    SysDivDecode((p.sysDiv % 16) as Byte);
    PreDivDecode((p.preDiv % 16) as Byte, p.root2x);
    RootDivDecode((p.pclkRootDiv % 4) as Byte);
  }

  lemma SysDivDecode(d: Byte)
    requires d < 16
    ensures var b := 1 | (d << 4); b & 0x0F == 1 && b >> 4 == d
  {
  }

  lemma PreDivDecode(d: Byte, root2x: bool)
    requires d < 16
    ensures var b: Byte := d | (if root2x then 0x10 else 0);
      b & 0x0F == d && (b & 0x10 == 0x10) == root2x && b & 0xE0 == 0
  {
  }

  lemma RootDivDecode(d: Byte)
    requires d < 4
    ensures var b := (d << 4) | 0x06; b & 0x0F == 0x06 && b >> 4 == d
  {
  }

  /** The PLL registers hold the accepted settings, field by field, and can be
      decoded back to them; no other register changes. */
  lemma PllFields(m: RegisterFile, p: PllSettings)
    requires PllAccepts(p)
    ensures var r := Replay(m, PllEvents(p));
      && 0x3039 in r && 0x3034 in r && 0x3035 in r && 0x3036 in r && 0x3037 in r
      && 0x3108 in r && 0x3824 in r && 0x460C in r && 0x3103 in r
      && (r[0x3039] == 0x80) == p.bypass && r[0x3039] & 0x7F == 0
      && r[0x3034] == 0x1A
      && r[0x3035] & 0x0F == 1 && r[0x3035] >> 4 == (p.sysDiv % 16) as Byte
      && r[0x3036] == p.multiplier as Byte
      && r[0x3037] & 0x0F == (p.preDiv % 16) as Byte
      && (r[0x3037] & 0x10 == 0x10) == p.root2x && r[0x3037] & 0xE0 == 0
      && r[0x3108] & 0x0F == 0x06 && r[0x3108] >> 4 == (p.pclkRootDiv % 4) as Byte
      && r[0x3824] == (p.pclkDiv % 32) as Byte
      && r[0x460C] == 0x22 && r[0x3103] == 0x13
  {
    var vals := PllBytes(p);
    assert Distinct(PllRegisters);
    ZipEffect(m, PllRegisters, vals);
    PllBytesDecode(p);
    var r := Replay(m, PllEvents(p));
    assert r[PllRegisters[0]] == vals[0] && r[PllRegisters[1]] == vals[1];
    assert r[PllRegisters[2]] == vals[2] && r[PllRegisters[3]] == vals[3];
    assert r[PllRegisters[4]] == vals[4] && r[PllRegisters[5]] == vals[5];
    assert r[PllRegisters[6]] == vals[6] && r[PllRegisters[7]] == vals[7];
    assert r[PllRegisters[8]] == vals[8];
  }

  /** Accepted settings are nine register updates, one after the other. */
  lemma PllApplied(m: RegisterFile, p: PllSettings)
    requires PllAccepts(p)
    ensures var b := PllBytes(p);
      Replay(m, PllEvents(p)) ==
        m[0x3039 := b[0]][0x3034 := b[1]][0x3035 := b[2]][0x3036 := b[3]][0x3037 := b[4]]
         [0x3108 := b[5]][0x3824 := b[6]][0x460C := b[7]][0x3103 := b[8]]
  {
    var e := PllEvents(p);
    assert e[..0] == [] && e[..9] == e;
    ReplayPrefixStep(m, e, 0);
    ReplayPrefixStep(m, e, 1);
    ReplayPrefixStep(m, e, 2);
    ReplayPrefixStep(m, e, 3);
    ReplayPrefixStep(m, e, 4);
    ReplayPrefixStep(m, e, 5);
    ReplayPrefixStep(m, e, 6);
    ReplayPrefixStep(m, e, 7);
    ReplayPrefixStep(m, e, 8);
  }

  /** Accepted settings are nine writes appended one after the other. */
  lemma PllTrace(t0: seq<Event>, p: PllSettings)
    requires PllAccepts(p)
    ensures var b := PllBytes(p);
      t0 + PllEvents(p) ==
        t0 + [Write(0x3039, b[0])] + [Write(0x3034, b[1])] + [Write(0x3035, b[2])]
           + [Write(0x3036, b[3])] + [Write(0x3037, b[4])] + [Write(0x3108, b[5])]
           + [Write(0x3824, b[6])] + [Write(0x460C, b[7])] + [Write(0x3103, b[8])]
  {
    var b := PllBytes(p);
    assert PllEvents(p) ==
      [Write(0x3039, b[0]), Write(0x3034, b[1]), Write(0x3035, b[2]), Write(0x3036, b[3]),
       Write(0x3037, b[4]), Write(0x3108, b[5]), Write(0x3824, b[6]), Write(0x460C, b[7]),
       Write(0x3103, b[8])];
  }

  /** _set_pll changes no register but its nine (and none when it rejects). */
  lemma PllKeeps(m: RegisterFile, p: PllSettings, a: Addr)
    requires a !in PllRegisters
    ensures SameAt(Replay(m, PllEvents(p)), m, a)
  {
    if PllAccepts(p) {
      ZipEffect(m, PllRegisters, PllBytes(p));
    }
  }

  /** For non-negative fields the registers hold the settings themselves. */
  lemma PllRoundTrip(m: RegisterFile, p: PllSettings)
    requires PllAccepts(p)
    requires p.sysDiv >= 0 && p.preDiv >= 0 && p.pclkRootDiv >= 0 && p.pclkDiv >= 0
    ensures var r := Replay(m, PllEvents(p));
      && 0x3035 in r && 0x3036 in r && 0x3037 in r && 0x3108 in r && 0x3824 in r
      && r[0x3035] >> 4 == p.sysDiv as Byte
      && r[0x3036] == p.multiplier as Byte
      && r[0x3037] & 0x0F == p.preDiv as Byte
      && r[0x3108] >> 4 == p.pclkRootDiv as Byte
      && r[0x3824] == p.pclkDiv as Byte
  {
    PllFields(m, p);
  }

  // ---------------------------------------------------------------------------
  // Output format (_set_colorspace)
  // ---------------------------------------------------------------------------

  function FormatList(space: Colorspace): seq<Entry>
  {
    match space
    case RGB565 => FormatRgb565
    case YUV => FormatYuv422
  }

  /** _set_colorspace: play the format list of the colour space. */
  function ColorspaceEvents(space: Colorspace): (t: seq<Event>)
    ensures |t| == |FormatList(space)|
  {
    ListEvents(FormatList(space))
  }

  /** The registers the format lists write. */
  predicate FormatRegister(a: Addr)
  {
    a == 0x501F || a == 0x4300 || a == 0x3002 || a == 0x3006
  }

  /** After _set_colorspace the format registers say which colour space was
      chosen, and only format registers have changed (YUV touches two). */
  lemma ColorspaceFormat(m: RegisterFile, space: Colorspace)
    ensures var r := Replay(m, ColorspaceEvents(space));
      && 0x501F in r && 0x4300 in r
      && (r[0x4300] == 0x61 <==> space == RGB565) && (r[0x4300] == 0x30 <==> space == YUV)
      && r[0x501F] == (if space == RGB565 then 0x01 else 0x00)
      && (space == RGB565 ==> 0x3002 in r && 0x3006 in r && r[0x3002] == 0x1C && r[0x3006] == 0xC3)
      && (space == YUV ==> SameAt(r, m, 0x3002) && SameAt(r, m, 0x3006))
  {
    var l := FormatList(space);
    ListLastWins(m, l, 0);
    ListLastWins(m, l, 1);
    if space == RGB565 {
      ListLastWins(m, l, 2);
      ListLastWins(m, l, 3);
    } else {
      ListUntouched(m, l, 0x3002);
      ListUntouched(m, l, 0x3006);
    }
  }

  /** _set_colorspace changes only format registers. */
  lemma ColorspaceKeeps(m: RegisterFile, space: Colorspace, a: Addr)
    requires !FormatRegister(a)
    ensures SameAt(Replay(m, ColorspaceEvents(space)), m, a)
  {
    ListUntouched(m, FormatList(space), a);
  }

  // ---------------------------------------------------------------------------
  // The whole of _set_size_and_colorspace
  // ---------------------------------------------------------------------------

  /** What _set_size_and_colorspace does after the window writes, given the
      value read back from 0x5001: the scale bit, the image options, the
      fixed PLL and the format list. */
  function TailEvents(isp01: Byte, scale: bool, binning: bool, flipX: bool, flipY: bool,
                      space: Colorspace): seq<Event>
  {
    ScaleBitEvents(isp01, scale)
      + ImageOptionsEvents(binning, flipX, flipY)
      + PllEvents(ConfigPll)
      + ColorspaceEvents(space)
  }

  /** The window writes for an output size and ratio row under a binning flag. */
  function WindowEvents(width: bv16, height: bv16, g: RatioGeometry, binning: bool): (t: seq<Event>)
    ensures |t| == 20
  {
    var total, offset := WindowTotal(width, g, binning), WindowOffset(g, binning);
    WindowWrites(g.startX, g.startY, g.endX, g.endY, width, height,
                 total.0, total.1, offset.0, offset.1)
  }

  /** The window writes, then the steps after them, on register file `m`. */
  function ReshapeEvents(m: RegisterFile, width: bv16, height: bv16, g: RatioGeometry,
                         binning: bool, scale: bool, space: Colorspace,
                         flipX: bool, flipY: bool): seq<Event>
  {
    var w := WindowEvents(width, height, g, binning);
    w + TailEvents(Peek(Replay(m, w), IspControl01), scale, binning, flipX, flipY, space)
  }

  /** The reshaping steps assembled from the effect of each: the window
      writes (t1, m1), the scale bit (t2, m2), the image options (t3, m3),
      the PLL (t4, m4) and the colour format (t5, m5). */
  lemma ReshapeJoin(t0: seq<Event>, m0: RegisterFile, width: bv16, height: bv16, g: RatioGeometry,
                    binning: bool, scale: bool, space: Colorspace, flipX: bool, flipY: bool,
                    t1: seq<Event>, m1: RegisterFile, t2: seq<Event>, m2: RegisterFile,
                    t3: seq<Event>, m3: RegisterFile, t4: seq<Event>, m4: RegisterFile,
                    t5: seq<Event>, m5: RegisterFile)
    requires t1 == t0 + WindowEvents(width, height, g, binning)
    requires m1 == Replay(m0, WindowEvents(width, height, g, binning))
    requires t2 == t1 + [Write(IspControl01, MaskBits(Peek(m1, IspControl01), IspScaleMask, scale))]
    requires m2 == m1[IspControl01 := MaskBits(Peek(m1, IspControl01), IspScaleMask, scale)]
    requires t3 == t2 + ImageOptionsEvents(binning, flipX, flipY)
    requires m3 == Replay(m2, ImageOptionsEvents(binning, flipX, flipY))
    requires t4 == t3 + PllEvents(ConfigPll) && m4 == Replay(m3, PllEvents(ConfigPll))
    requires t5 == t4 + ColorspaceEvents(space) && m5 == Replay(m4, ColorspaceEvents(space))
    ensures t5 == t0 + ReshapeEvents(m0, width, height, g, binning, scale, space, flipX, flipY)
    ensures m5 == Replay(m0, ReshapeEvents(m0, width, height, g, binning, scale, space, flipX, flipY))
  {
    var w := WindowEvents(width, height, g, binning);
    var isp := Peek(m1, IspControl01);
    var sb, io := ScaleBitEvents(isp, scale), ImageOptionsEvents(binning, flipX, flipY);
    var pl, cs := PllEvents(ConfigPll), ColorspaceEvents(space);
    AppendAssoc(t1, sb, io);
    AppendAssoc(t1, sb + io, pl);
    AppendAssoc(t1, sb + io + pl, cs);
    AppendAssoc(t0, w, sb + io + pl + cs);
    TailStages(m1, isp, scale, binning, flipX, flipY, space);
    ReplayConcat(m0, w, sb + io + pl + cs);
  }

  /** _set_size_and_colorspace on register file `m`. */
  function ResizeEvents(m: RegisterFile, s: FrameSize, space: Colorspace,
                        flipX: bool, flipY: bool): (t: seq<Event>)
  {
    var g := GeometryEvents(s);
    g + TailEvents(Peek(Replay(m, g), IspControl01), Scale(s), Binning(s), flipX, flipY, space)
  }

  /** The resize of a frame size is the reshape for its resolution, ratio row
      and flags. */
  lemma ResizeIsReshape(m: RegisterFile, s: FrameSize, space: Colorspace, flipX: bool, flipY: bool)
    ensures ResizeEvents(m, s, space, flipX, flipY) ==
      ReshapeEvents(m, ResolutionOf(s).width, ResolutionOf(s).height, GeometryOf(s),
                    Binning(s), Scale(s), space, flipX, flipY)
  {
  }

  /** The steps after the window writes, one register file after the other. */
  lemma TailStages(m: RegisterFile, isp01: Byte, scale: bool, binning: bool,
                   flipX: bool, flipY: bool, space: Colorspace)
    ensures Replay(m, TailEvents(isp01, scale, binning, flipX, flipY, space)) ==
      Replay(Replay(Replay(m[IspControl01 := MaskBits(isp01, IspScaleMask, scale)],
                           ImageOptionsEvents(binning, flipX, flipY)),
                    PllEvents(ConfigPll)),
             ColorspaceEvents(space))
  {
    var sb := ScaleBitEvents(isp01, scale);
    var io := ImageOptionsEvents(binning, flipX, flipY);
    var pl := PllEvents(ConfigPll);
    var cs := ColorspaceEvents(space);
    ReplayConcat(m, sb, io);
    ReplayConcat(m, sb + io, pl);
    ReplayConcat(m, sb + io + pl, cs);
    ReplaySingle(m, sb[0]);
  }

  /** After the steps that follow the window writes, bit 5 of 0x5001 is the
      scale flag and its other bits are as read. */
  lemma TailScaleBit(m: RegisterFile, scale: bool, binning: bool, flipX: bool, flipY: bool,
                     space: Colorspace)
    ensures var r := Replay(m, TailEvents(Peek(m, IspControl01), scale, binning, flipX, flipY, space));
      && IspControl01 in r
      && (r[IspControl01] & 0x20 == 0x20) == scale
      && r[IspControl01] & 0xDF == Peek(m, IspControl01) & 0xDF
  {
    var r2 := m[IspControl01 := MaskBits(Peek(m, IspControl01), IspScaleMask, scale)];
    var r3 := Replay(r2, ImageOptionsEvents(binning, flipX, flipY));
    var r4 := Replay(r3, PllEvents(ConfigPll));
    TailStages(m, Peek(m, IspControl01), scale, binning, flipX, flipY, space);
    ImageOptionsKeeps(r2, binning, flipX, flipY, IspControl01);
    PllKeeps(r3, ConfigPll, IspControl01);
    ColorspaceKeeps(r4, space, IspControl01);
  }

  /** After the steps that follow the window writes, the timing registers
      encode binning, flip and mirror. */
  lemma TailImageOptions(m: RegisterFile, isp01: Byte, scale: bool, binning: bool,
                         flipX: bool, flipY: bool, space: Colorspace)
    ensures var r := Replay(m, TailEvents(isp01, scale, binning, flipX, flipY, space));
      && TimingTcReg20 in r && TimingTcReg21 in r
      && (r[TimingTcReg20] & 0x01 == 0x01) == binning
      && (r[TimingTcReg21] & 0x01 == 0x01) == binning
      && (r[TimingTcReg20] & TimingTcReg20Vflip == TimingTcReg20Vflip) == flipY
      && (r[TimingTcReg21] & TimingTcReg21Hmirror == TimingTcReg21Hmirror) == flipX
  {
    var r2 := m[IspControl01 := MaskBits(isp01, IspScaleMask, scale)];
    var r3 := Replay(r2, ImageOptionsEvents(binning, flipX, flipY));
    var r4 := Replay(r3, PllEvents(ConfigPll));
    TailStages(m, isp01, scale, binning, flipX, flipY, space);
    ImageOptionsEffect(r2, binning, flipX, flipY);
    PllKeeps(r3, ConfigPll, TimingTcReg20);
    PllKeeps(r3, ConfigPll, TimingTcReg21);
    ColorspaceKeeps(r4, space, TimingTcReg20);
    ColorspaceKeeps(r4, space, TimingTcReg21);
  }

  /** After the steps that follow the window writes, the PLL multiplier is 40
      and the format register names the colour space. */
  lemma TailPllAndFormat(m: RegisterFile, isp01: Byte, scale: bool, binning: bool,
                         flipX: bool, flipY: bool, space: Colorspace)
    ensures var r := Replay(m, TailEvents(isp01, scale, binning, flipX, flipY, space));
      && 0x3036 in r && r[0x3036] == 40
      && 0x4300 in r && (r[0x4300] == 0x61 <==> space == RGB565)
  {
    var r2 := m[IspControl01 := MaskBits(isp01, IspScaleMask, scale)];
    var r3 := Replay(r2, ImageOptionsEvents(binning, flipX, flipY));
    var r4 := Replay(r3, PllEvents(ConfigPll));
    TailStages(m, isp01, scale, binning, flipX, flipY, space);
    PllFields(r3, ConfigPll);
    ColorspaceFormat(r4, space);
    ColorspaceKeeps(r4, space, 0x3036);
  }

  /** The PLL registers lie outside the window block. */
  lemma GeometryNotPll(a: Addr)
    requires InGeometryBlock(a)
    ensures a !in PllRegisters
  {
  }

  /** The steps after the window writes leave the window alone. */
  lemma TailKeeps(m: RegisterFile, isp01: Byte, scale: bool, binning: bool, flipX: bool, flipY: bool,
                  space: Colorspace, a: Addr)
    requires InGeometryBlock(a)
    ensures SameAt(Replay(m, TailEvents(isp01, scale, binning, flipX, flipY, space)), m, a)
  {
    var r2 := m[IspControl01 := MaskBits(isp01, IspScaleMask, scale)];
    var r3 := Replay(r2, ImageOptionsEvents(binning, flipX, flipY));
    var r4 := Replay(r3, PllEvents(ConfigPll));
    TailStages(m, isp01, scale, binning, flipX, flipY, space);
    ImageOptionsKeeps(r2, binning, flipX, flipY, a);
    GeometryNotPll(a);
    PllKeeps(r3, ConfigPll, a);
    ColorspaceKeeps(r4, space, a);
  }

  /** The steps after the window writes leave the output size registers alone. */
  lemma TailKeepsOutputSize(m: RegisterFile, isp01: Byte, scale: bool, binning: bool,
                            flipX: bool, flipY: bool, space: Colorspace)
    ensures var r := Replay(m, TailEvents(isp01, scale, binning, flipX, flipY, space));
      Read16(r, 0x3808) == Read16(m, 0x3808) && Read16(r, 0x380A) == Read16(m, 0x380A)
  {
    var r := Replay(m, TailEvents(isp01, scale, binning, flipX, flipY, space));
    TailKeeps(m, isp01, scale, binning, flipX, flipY, space, 0x3808);
    TailKeeps(m, isp01, scale, binning, flipX, flipY, space, 0x3809);
    TailKeeps(m, isp01, scale, binning, flipX, flipY, space, 0x380A);
    TailKeeps(m, isp01, scale, binning, flipX, flipY, space, 0x380B);
    Read16Kept(r, m, 0x3808);
    Read16Kept(r, m, 0x380A);
  }

  /** _set_size_and_colorspace is the window writes followed by the rest. */
  lemma ResizeStages(m: RegisterFile, s: FrameSize, space: Colorspace, flipX: bool, flipY: bool)
    ensures Replay(m, ResizeEvents(m, s, space, flipX, flipY)) ==
      Replay(Replay(m, GeometryEvents(s)),
             TailEvents(Peek(Replay(m, GeometryEvents(s)), IspControl01),
                        Scale(s), Binning(s), flipX, flipY, space))
  {
    var g := GeometryEvents(s);
    ReplayConcat(m, g, TailEvents(Peek(Replay(m, g), IspControl01), Scale(s), Binning(s), flipX, flipY, space));
  }

  /** After _set_size_and_colorspace the output size registers hold the
      size's dimensions. */
  lemma ResizeOutputSize(m: RegisterFile, s: FrameSize, space: Colorspace, flipX: bool, flipY: bool)
    ensures var r := Replay(m, ResizeEvents(m, s, space, flipX, flipY));
      && Read16(r, 0x3808) == ResolutionOf(s).width
      && Read16(r, 0x380A) == ResolutionOf(s).height
  {
    var r1 := Replay(m, GeometryEvents(s));
    var isp := Peek(r1, IspControl01);
    ResizeStages(m, s, space, flipX, flipY);
    GeometryOutputSize(m, s);
    TailKeepsOutputSize(r1, isp, Scale(s), Binning(s), flipX, flipY, space);
  }

  /** After _set_size_and_colorspace bit 5 of 0x5001 is the scale flag and
      its other bits are as before, the timing registers encode the size's
      binning and the flips, the PLL multiplier is 40 and the format register
      names the colour space. */
  lemma ResizeSettings(m: RegisterFile, s: FrameSize, space: Colorspace, flipX: bool, flipY: bool)
    ensures var r := Replay(m, ResizeEvents(m, s, space, flipX, flipY));
      && IspControl01 in r
      && (r[IspControl01] & 0x20 == 0x20) == Scale(s)
      && r[IspControl01] & 0xDF == Peek(m, IspControl01) & 0xDF
      && TimingTcReg20 in r && TimingTcReg21 in r
      && (r[TimingTcReg20] & 0x01 == 0x01) == Binning(s)
      && (r[TimingTcReg21] & 0x01 == 0x01) == Binning(s)
      && (r[TimingTcReg20] & TimingTcReg20Vflip == TimingTcReg20Vflip) == flipY
      && (r[TimingTcReg21] & TimingTcReg21Hmirror == TimingTcReg21Hmirror) == flipX
      && 0x3036 in r && r[0x3036] == 40
      && 0x4300 in r && (r[0x4300] == 0x61 <==> space == RGB565)
  {
    var r1 := Replay(m, GeometryEvents(s));
    var isp := Peek(r1, IspControl01);
    ResizeStages(m, s, space, flipX, flipY);
    TailScaleBit(r1, Scale(s), Binning(s), flipX, flipY, space);
    TailImageOptions(r1, isp, Scale(s), Binning(s), flipX, flipY, space);
    TailPllAndFormat(r1, isp, Scale(s), Binning(s), flipX, flipY, space);
    GeometryKeeps(m, s, IspControl01);
  }
}
