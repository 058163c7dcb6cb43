/**
 * The OV5640 driver object.  A Sensor holds the driver's own settings and,
 * standing for the device at the other end of the I2C bus, the register
 * file together with the trace of everything the driver has done to it.
 * Every method is specified by the events it appends to the trace; the
 * lemmas of the other modules say what those events leave in the registers.
 */
module Camera {
  import opened Capture
  import opened Registers
  import opened Tables
  import opened SizeAndColorspace
  import opened Tuning

  /** The chip ID an OV5640 reports in 0x300A / 0x300B. */
  const Ov5640ChipId: bv16 := 0x5640

  /** The chip ID read from the ID register pair, high byte first. */
  function ChipId(m: RegisterFile): bv16
  {
    Join(Peek(m, ChipIdHigh), Peek(m, ChipIdHigh + 1))
  }

  // ---------------------------------------------------------------------------
  // begin() and config()
  // ---------------------------------------------------------------------------

  /** The status begin() returns, given the base library's status. */
  function BeginStatus(m: RegisterFile, base: Status): Status
  {
    if base != StatusOk then base
    else if ChipId(m) != Ov5640ChipId then ErrCameraId
    else StatusOk
  }

  /** begin(): the base library's start-up, then the default register list
      when the base library succeeded and the chip ID is right. */
  function BeginEvents(m: RegisterFile, base: Status): (t: seq<Event>)
    ensures |t| >= 1 && t[0] == PeripheralInit
  {
    [PeripheralInit] +
    (if BeginStatus(m, base) == StatusOk then ListEvents(SensorDefaultRegs) else [])
  }

  /** The width and height config() always hands to the base library. */
  const ConfigWidth: nat := 320
  const ConfigHeight: nat := 240
  /** The frame size config() always resizes to (QVGA, whatever was asked). */
  const ConfigSize: FrameSize := QVGA

  /** The size config() resizes to is 320x240, binned and scaled. */
  lemma ConfigSizeFlags()
    ensures ResolutionOf(ConfigSize).width as int == ConfigWidth
    ensures ResolutionOf(ConfigSize).height as int == ConfigHeight
    ensures Binning(ConfigSize) && Scale(ConfigSize)
  {
    QvgaFlags();
  }

  /** The end of config(): the test pattern off, the settling pause for a
      positive frame rate, the DMA change and the resume. */
  function CaptureEvents(fps: real): seq<Event>
  {
    TestPatternEvents(false) + (if fps > 0.0 then [SettleDelay] else []) + [DmaChange, Resume]
  }

  /** What config() does once the buffers are granted: the QVGA resize, then
      the end of config().  The requested size plays no part. */
  function GrantedEvents(m: RegisterFile, space: Colorspace, fps: real,
                         flipX: bool, flipY: bool): seq<Event>
  {
    ResizeEvents(m, ConfigSize, space, flipX, flipY) + CaptureEvents(fps)
  }

  /** config(): the buffer set-up, then, when that succeeds, the granted
      stages. */
  function ConfigEvents(m: RegisterFile, alloc: Status, space: Colorspace, fps: real,
                        nbuf: nat, allo: Realloc, flipX: bool, flipY: bool): (t: seq<Event>)
    ensures |t| >= 1 && t[0] == BufferConfig(ConfigWidth, ConfigHeight, space, nbuf, allo)
  {
    [BufferConfig(ConfigWidth, ConfigHeight, space, nbuf, allo)] +
    if alloc != StatusOk then [] else GrantedEvents(m, space, fps, flipX, flipY)
  }

  /** begin(size, space, fps, nbuf): begin(), then config() with the default
      reallocation policy, then resume() when both succeeded. */
  function StartEvents(m: RegisterFile, base: Status, alloc: Status, space: Colorspace,
                       fps: real, nbuf: nat, flipX: bool, flipY: bool): (t: seq<Event>)
  {
    var b := BeginEvents(m, base);
    b +
    if BeginStatus(m, base) != StatusOk then []
    else ConfigResumeEvents(Replay(m, b), alloc, space, fps, nbuf, flipX, flipY)
  }

  /** The part of begin(size, ...) after a successful begin(): config() with
      the default reallocation policy, then resume() when it succeeded. */
  function ConfigResumeEvents(m: RegisterFile, alloc: Status, space: Colorspace,
                              fps: real, nbuf: nat, flipX: bool, flipY: bool): seq<Event>
  {
    ConfigEvents(m, alloc, space, fps, nbuf, ReallocChange, flipX, flipY)
      + (if alloc == StatusOk then [Resume] else [])
  }

  /** begin() fails fast: a failing base library or a wrong chip ID ends it
      before any register is written, with the base status or ErrCameraId;
      it succeeds exactly when the base library did and the ID is 0x5640. */
  lemma BeginFailsFast(m: RegisterFile, base: Status)
    ensures base != StatusOk ==> BeginStatus(m, base) == base
    ensures base == StatusOk && ChipId(m) != Ov5640ChipId ==> BeginStatus(m, base) == ErrCameraId
    ensures BeginStatus(m, base) == StatusOk <==> base == StatusOk && ChipId(m) == Ov5640ChipId
    ensures BeginStatus(m, base) != StatusOk ==>
      BeginEvents(m, base) == [PeripheralInit] && Replay(m, BeginEvents(m, base)) == m
  {
    if BeginStatus(m, base) != StatusOk {
      ReplaySingle(m, PeripheralInit);
    }
  }

  /** A successful begin() assembled from the base library's start-up and
      the default list played after it (t1, m1). */
  lemma BeginJoin(t0: seq<Event>, m: RegisterFile, base: Status, t1: seq<Event>, m1: RegisterFile)
    requires BeginStatus(m, base) == StatusOk
    requires t1 == t0 + [PeripheralInit] + ListEvents(SensorDefaultRegs)
    requires m1 == Replay(m, ListEvents(SensorDefaultRegs))
    ensures t1 == t0 + BeginEvents(m, base) && m1 == Replay(m, BeginEvents(m, base))
  {
    AppendAssoc(t0, [PeripheralInit], ListEvents(SensorDefaultRegs));
    ReplayConcat(m, [PeripheralInit], ListEvents(SensorDefaultRegs));
    ReplaySingle(m, PeripheralInit);
  }

  /** A successful begin() writes exactly the non-delay rows of the default
      list, in order, starting with the software reset 0x3008 = 0x82, and
      leaves the sensor powered up (0x3008 = 0x02) with 50 Hz banding
      (0x3C00 = 0x04). */
  lemma BeginWritesDefaults(m: RegisterFile)
    requires ChipId(m) == Ov5640ChipId
    ensures WritesOf(BeginEvents(m, StatusOk)) == WriteRows(SensorDefaultRegs)
    ensures WritesOf(BeginEvents(m, StatusOk))[0] == (SystemCtrl0, 0x82)
    ensures var r := Replay(m, BeginEvents(m, StatusOk));
      && SystemCtrl0 in r && r[SystemCtrl0] == 0x02
      && 0x3C00 in r && r[0x3C00] == 0x04
  {
    var l := SensorDefaultRegs;
    DefaultRegsEnds();
    assert BeginEvents(m, StatusOk) == [PeripheralInit] + ListEvents(l);
    ListAfter(m, PeripheralInit, l);
    WriteRowsFirst(l);
    ListLastWins(m, l, 134);
    ListLastWins(m, l, 135);
  }

  /** begin() alone does not start capturing: it neither changes the DMA
      target nor resumes it. */
  lemma BeginStartsNoCapture(m: RegisterFile, base: Status)
    ensures forall k :: 0 <= k < |BeginEvents(m, base)| ==>
      BeginEvents(m, base)[k] != DmaChange && BeginEvents(m, base)[k] != Resume
  {
    ListEventsKinds(SensorDefaultRegs);
  }

  /** begin(size, ...) once begin() has succeeded: begin's events, then
      config's, then the resume when the buffers were granted; the resume
      changes no register. */
  lemma StartStages(m: RegisterFile, base: Status, alloc: Status,
                    space: Colorspace, fps: real, nbuf: nat, flipX: bool, flipY: bool)
    requires BeginStatus(m, base) == StatusOk
    ensures var b := BeginEvents(m, base);
      var c := ConfigEvents(Replay(m, b), alloc, space, fps, nbuf, ReallocChange, flipX, flipY);
      && StartEvents(m, base, alloc, space, fps, nbuf, flipX, flipY) ==
           b + c + (if alloc == StatusOk then [Resume] else [])
      && Replay(m, StartEvents(m, base, alloc, space, fps, nbuf, flipX, flipY)) == Replay(Replay(m, b), c)
  {
    var b := BeginEvents(m, base);
    var m1 := Replay(m, b);
    var c := ConfigEvents(m1, alloc, space, fps, nbuf, ReallocChange, flipX, flipY);
    var tail: seq<Event> := if alloc == StatusOk then [Resume] else [];
    AppendAssoc(b, c, tail);
    ReplayConcat(m, b, c + tail);
    ConfigResumeKeeps(m1, alloc, space, fps, nbuf, flipX, flipY);
  }

  /** config() and the resume assembled from config()'s effect (t1, m1) and
      the resume appended after it (t2). */
  lemma ConfigResumeJoin(t0: seq<Event>, m: RegisterFile, alloc: Status, space: Colorspace,
                         fps: real, nbuf: nat, flipX: bool, flipY: bool,
                         t1: seq<Event>, m1: RegisterFile, t2: seq<Event>)
    requires t1 == t0 + ConfigEvents(m, alloc, space, fps, nbuf, ReallocChange, flipX, flipY)
    requires m1 == Replay(m, ConfigEvents(m, alloc, space, fps, nbuf, ReallocChange, flipX, flipY))
    requires t2 == t1 + (if alloc == StatusOk then [Resume] else [])
    ensures t2 == t0 + ConfigResumeEvents(m, alloc, space, fps, nbuf, flipX, flipY)
    ensures m1 == Replay(m, ConfigResumeEvents(m, alloc, space, fps, nbuf, flipX, flipY))
  {
    var c := ConfigEvents(m, alloc, space, fps, nbuf, ReallocChange, flipX, flipY);
    AppendAssoc(t0, c, if alloc == StatusOk then [Resume] else []);
    ConfigResumeKeeps(m, alloc, space, fps, nbuf, flipX, flipY);
  }

  /** The resume after config() changes no register. */
  lemma ConfigResumeKeeps(m: RegisterFile, alloc: Status, space: Colorspace,
                          fps: real, nbuf: nat, flipX: bool, flipY: bool)
    ensures Replay(m, ConfigResumeEvents(m, alloc, space, fps, nbuf, flipX, flipY)) ==
      Replay(m, ConfigEvents(m, alloc, space, fps, nbuf, ReallocChange, flipX, flipY))
  {
    var c := ConfigEvents(m, alloc, space, fps, nbuf, ReallocChange, flipX, flipY);
    var tail: seq<Event> := if alloc == StatusOk then [Resume] else [];
    ReplayConcat(m, c, tail);
    ReplayNoWrites(Replay(m, c), tail);
  }

  /** begin(size, ...) assembled from begin()'s effect (t1, m1) and the
      effect of config() and the resume on top of it (t2, m2). */
  lemma StartJoin(t0: seq<Event>, m: RegisterFile, base: Status, alloc: Status,
                  space: Colorspace, fps: real, nbuf: nat, flipX: bool, flipY: bool,
                  t1: seq<Event>, m1: RegisterFile, t2: seq<Event>, m2: RegisterFile)
    requires BeginStatus(m, base) == StatusOk
    requires t1 == t0 + BeginEvents(m, base) && m1 == Replay(m, BeginEvents(m, base))
    requires t2 == t1 + ConfigResumeEvents(m1, alloc, space, fps, nbuf, flipX, flipY)
    requires m2 == Replay(m1, ConfigResumeEvents(m1, alloc, space, fps, nbuf, flipX, flipY))
    ensures t2 == t0 + StartEvents(m, base, alloc, space, fps, nbuf, flipX, flipY)
    ensures m2 == Replay(m, StartEvents(m, base, alloc, space, fps, nbuf, flipX, flipY))
  {
    var b := BeginEvents(m, base);
    var cr := ConfigResumeEvents(m1, alloc, space, fps, nbuf, flipX, flipY);
    AppendAssoc(t0, b, cr);
    ReplayConcat(m, b, cr);
  }

  /** begin(size, ...) when begin() fails: begin's events alone. */
  lemma StartFails(m: RegisterFile, base: Status, alloc: Status, space: Colorspace,
                   fps: real, nbuf: nat, flipX: bool, flipY: bool)
    requires BeginStatus(m, base) != StatusOk
    ensures StartEvents(m, base, alloc, space, fps, nbuf, flipX, flipY) == [PeripheralInit]
    ensures BeginEvents(m, base) == [PeripheralInit]
  {
  }

  /** config() when the buffer set-up fails: only the buffer request, no
      register changes, and the failure is returned. */
  lemma ConfigFails(m: RegisterFile, alloc: Status, space: Colorspace, fps: real,
                    nbuf: nat, allo: Realloc, flipX: bool, flipY: bool)
    requires alloc != StatusOk
    ensures ConfigEvents(m, alloc, space, fps, nbuf, allo, flipX, flipY) ==
      [BufferConfig(ConfigWidth, ConfigHeight, space, nbuf, allo)]
    ensures Replay(m, ConfigEvents(m, alloc, space, fps, nbuf, allo, flipX, flipY)) == m
  {
    ReplaySingle(m, BufferConfig(ConfigWidth, ConfigHeight, space, nbuf, allo));
  }

  /** The end of config() appended to a trace, one event after the other. */
  lemma CaptureTrace(t0: seq<Event>, fps: real)
    ensures t0 + CaptureEvents(fps) ==
      t0 + TestPatternEvents(false) + (if fps > 0.0 then [SettleDelay] else []) + [DmaChange] + [Resume]
  {
    var settle: seq<Event> := if fps > 0.0 then [SettleDelay] else [];
    var test := TestPatternEvents(false);
    assert [DmaChange, Resume] == [DmaChange] + [Resume];
    AppendAssoc(t0 + test + settle, [DmaChange], [Resume]);
    AppendAssoc(t0 + test, settle, [DmaChange, Resume]);
    AppendAssoc(t0, test, settle + [DmaChange, Resume]);
    AppendAssoc(test, settle, [DmaChange, Resume]);
  }

  /** The end of config() writes only the test-pattern register, with 0. */
  lemma CaptureKeeps(m: RegisterFile, fps: real)
    ensures Replay(m, CaptureEvents(fps)) == m[PreIspTestSetting1 := 0]
  {
    var test := TestPatternEvents(false);
    var settle: seq<Event> := if fps > 0.0 then [SettleDelay] else [];
    var rest := settle + [DmaChange, Resume];
    AppendAssoc(test, settle, [DmaChange, Resume]);
    if fps > 0.0 {
      assert rest == [SettleDelay, DmaChange, Resume];
    } else {
      assert rest == [DmaChange, Resume];
    }
    ReplayConcat(m, test, rest);
    ReplaySingle(m, test[0]);
    ReplayNoWrites(Replay(m, test), rest);
  }

  /** The register file after a successful config(): the resize followed by
      the test-pattern write. */
  lemma ConfigStages(m: RegisterFile, space: Colorspace, fps: real, nbuf: nat,
                     allo: Realloc, flipX: bool, flipY: bool)
    ensures Replay(m, ConfigEvents(m, StatusOk, space, fps, nbuf, allo, flipX, flipY)) ==
      Replay(m, ResizeEvents(m, ConfigSize, space, flipX, flipY))[PreIspTestSetting1 := 0]
  {
    var head := [BufferConfig(ConfigWidth, ConfigHeight, space, nbuf, allo)];
    var resize := ResizeEvents(m, ConfigSize, space, flipX, flipY);
    ReplayConcat(m, head, GrantedEvents(m, space, fps, flipX, flipY));
    ReplaySingle(m, head[0]);
    ReplayConcat(m, resize, CaptureEvents(fps));
    CaptureKeeps(Replay(m, resize), fps);
  }

  /** A successful config() leaves a 320x240 output in 0x3808 .. 0x380B,
      whatever size was asked for. */
  lemma ConfigOutputSize(m: RegisterFile, space: Colorspace, fps: real, nbuf: nat,
                         allo: Realloc, flipX: bool, flipY: bool)
    ensures var r := Replay(m, ConfigEvents(m, StatusOk, space, fps, nbuf, allo, flipX, flipY));
      && Read16(r, XOutputSizeHigh) as int == ConfigWidth
      && Read16(r, XOutputSizeHigh + 2) as int == ConfigHeight
  {
    var r1 := Replay(m, ResizeEvents(m, ConfigSize, space, flipX, flipY));
    ConfigStages(m, space, fps, nbuf, allo, flipX, flipY);
    ResizeOutputSize(m, ConfigSize, space, flipX, flipY);
    ConfigSizeFlags();
    TestPatternKeepsPair(r1, XOutputSizeHigh);
    TestPatternKeepsPair(r1, XOutputSizeHigh + 2);
  }

  /** The test-pattern write leaves every register pair below 0x503D as it was. */
  lemma TestPatternKeepsPair(r: RegisterFile, reg: Addr)
    requires reg + 1 < PreIspTestSetting1
    ensures Read16(r[PreIspTestSetting1 := 0], reg) == Read16(r, reg)
  {
    Read16Kept(r[PreIspTestSetting1 := 0], r, reg);
  }

  /** A successful config() leaves binning and scaling on (whatever size was
      asked for), the flips in the timing registers, the test pattern off and
      the chosen colour format selected. */
  lemma ConfigSettings(m: RegisterFile, space: Colorspace, fps: real, nbuf: nat,
                       allo: Realloc, flipX: bool, flipY: bool)
    ensures var r := Replay(m, ConfigEvents(m, StatusOk, space, fps, nbuf, allo, flipX, flipY));
      && IspControl01 in r && r[IspControl01] & 0x20 == 0x20
      && TimingTcReg20 in r && TimingTcReg21 in r
      && r[TimingTcReg20] & 0x01 == 0x01 && r[TimingTcReg21] & 0x01 == 0x01
      && (r[TimingTcReg20] & TimingTcReg20Vflip == TimingTcReg20Vflip) == flipY
      && (r[TimingTcReg21] & TimingTcReg21Hmirror == TimingTcReg21Hmirror) == flipX
      && PreIspTestSetting1 in r && r[PreIspTestSetting1] == 0
      && 0x4300 in r && (r[0x4300] == 0x61 <==> space == RGB565)
  {
    ConfigStages(m, space, fps, nbuf, allo, flipX, flipY);
    ResizeSettings(m, ConfigSize, space, flipX, flipY);
    ConfigSizeFlags();
  }

  // ---------------------------------------------------------------------------
  // The driver object
  // ---------------------------------------------------------------------------

  /** Replaying the twenty window writes is replaying the five
      _write_addr_reg blocks one after the other. */
  lemma WindowAsAddrRegs(m: RegisterFile, sx: bv16, sy: bv16, ex: bv16, ey: bv16,
                         w: bv16, h: bv16, tx: bv16, ty: bv16, ox: bv16, oy: bv16)
    ensures var a1, a2, a3 := AddrRegWrites(XAddrStartHigh, sx, sy),
                              AddrRegWrites(XAddrEndHigh, ex, ey),
                              AddrRegWrites(XOutputSizeHigh, w, h);
      var a4, a5 := AddrRegWrites(XTotalSizeHigh, tx, ty), AddrRegWrites(XOffsetHigh, ox, oy);
      && WindowWrites(sx, sy, ex, ey, w, h, tx, ty, ox, oy) == a1 + a2 + a3 + a4 + a5
      && Replay(m, WindowWrites(sx, sy, ex, ey, w, h, tx, ty, ox, oy)) ==
           Replay(Replay(Replay(Replay(Replay(m, a1), a2), a3), a4), a5)
  {
    var a1, a2, a3 := AddrRegWrites(XAddrStartHigh, sx, sy),
                      AddrRegWrites(XAddrEndHigh, ex, ey),
                      AddrRegWrites(XOutputSizeHigh, w, h);
    var a4, a5 := AddrRegWrites(XTotalSizeHigh, tx, ty), AddrRegWrites(XOffsetHigh, ox, oy);
    WindowWritesAreAddrRegs(sx, sy, ex, ey, w, h, tx, ty, ox, oy);
    ReplayConcat(m, a1 + a2 + a3 + a4, a5);
    ReplayConcat(m, a1 + a2 + a3, a4);
    ReplayConcat(m, a1 + a2, a3);
    ReplayConcat(m, a1, a2);
  }

  class Sensor {
    /** The device's registers, as the driver's writes leave them. */
    var regs: RegisterFile
    /** Everything the driver has done to the device, in order. */
    var trace: seq<Event>

    var binning: bool
    var scale: bool
    var flipX: bool
    var flipY: bool
    var colorspace: Colorspace
    var testPattern: bool
    var saturation: int
    var contrast: int
    var exposure: int
    var brightness: int
    var effect: nat

    /** A driver for a device whose registers are `device`: no binning, no
        scaling, no mirror, vertical flip on, RGB565, no test pattern and
        every stored tuning level at 0. */
    constructor(device: RegisterFile)
      ensures regs == device && trace == []
      ensures !binning && !scale && !flipX && flipY
      ensures colorspace == RGB565 && !testPattern
      ensures saturation == 0 && contrast == 0 && exposure == 0 && brightness == 0 && effect == 0
    {
      regs := device;
      trace := [];
      binning := false;
      scale := false;
      flipX := false;
      flipY := true;
      colorspace := RGB565;
      testPattern := false;
      saturation := 0;
      contrast := 0;
      exposure := 0;
      brightness := 0;
      effect := 0;
    }

    /** A base-library call: recorded, registers unchanged. */
    method Record(e: Event)
      requires !e.Write?
      modifies this`trace
      ensures trace == old(trace) + [e]
    {
      trace := trace + [e];
    }

    // -------------------------------------------------------------------------
    // Register access
    // -------------------------------------------------------------------------

    /** readRegister16: the value register `reg` holds. */
    method ReadRegister16(reg: Addr) returns (v: Byte)
      ensures reg in regs ==> v == regs[reg]
      ensures reg !in regs ==> v == 0
    {
      if reg in regs {
        v := regs[reg];
      } else {
        v := 0;
      }
    }

    /** writeRegister16: register `reg` now holds `value`. */
    method WriteRegister16(reg: Addr, value: Byte)
      modifies this`regs, this`trace
      ensures trace == old(trace) + [Write(reg, value)]
      ensures regs == old(regs)[reg := value]
    {
      regs := regs[reg := value];
      trace := trace + [Write(reg, value)];
    }

    /** writeList16: the rows of `l` in order, a delay for each 0xFFFF row. */
    method WriteList16(l: seq<Entry>)
      modifies this`regs, this`trace
      ensures trace == old(trace) + ListEvents(l)
      ensures regs == Replay(old(regs), ListEvents(l))
    {
      var i := 0;
      while i < |l|
        invariant 0 <= i <= |l|
        invariant trace == old(trace) + ListEvents(l[..i])
        invariant regs == Replay(old(regs), ListEvents(l[..i]))
      {
        assert ListEvents(l[..i + 1]) == ListEvents(l[..i]) + [EntryEvent(l[i])];
        ReplayAppend(old(regs), ListEvents(l[..i]), EntryEvent(l[i]));
        if l[i].addr == DelayMarker {
          Record(Delay(l[i].value));
        } else {
          WriteRegister16(l[i].addr, Truncate8(l[i].value));
        }
        i := i + 1;
      }
      assert l[..i] == l;
    }

    /** _write_addr_reg: x then y, high byte first, into reg .. reg+3. */
    method WriteAddrReg(reg: Addr, x: bv16, y: bv16)
      modifies this`regs, this`trace
      ensures trace == old(trace) + AddrRegWrites(reg, x, y)
      ensures regs == Replay(old(regs), AddrRegWrites(reg, x, y))
    {
      WriteRegister16(reg, HighByte(x));
      WriteRegister16(Offset(reg, 1), LowByte(x));
      WriteRegister16(Offset(reg, 2), HighByte(y));
      WriteRegister16(Offset(reg, 3), LowByte(y));
      assert AddrRegWrites(reg, x, y) ==
        [Write(reg, HighByte(x)), Write(Offset(reg, 1), LowByte(x)),
         Write(Offset(reg, 2), HighByte(y)), Write(Offset(reg, 3), LowByte(y))];
      AddrRegApplied(old(regs), reg, x, y);
    }

    /** _write_reg_bits: read `reg`, set or clear the mask's bits, write back. */
    method WriteRegBits(reg: Addr, mask: bv16, enable: bool)
      modifies this`regs, this`trace
      ensures trace == old(trace) + [Write(reg, MaskBits(Peek(old(regs), reg), mask, enable))]
      ensures regs == old(regs)[reg := MaskBits(Peek(old(regs), reg), mask, enable)]
    {
      var current := ReadRegister16(reg);
      var val: bv16 := current as bv16;
      if enable {
        val := val | mask;
      } else {
        val := val & !mask;
      }
      WriteRegister16(reg, (val & 0xFF) as Byte);
    }

    /** _write_group_3_settings: the list inside a group-3 update. */
    method WriteGroup3Settings(l: seq<Entry>)
      modifies this`regs, this`trace
      ensures trace == old(trace) + GroupEvents(ListEvents(l))
      ensures regs == Replay(old(regs), GroupEvents(ListEvents(l)))
    {
      WriteRegister16(GroupAccess, 0x03);
      WriteList16(l);
      WriteRegister16(GroupAccess, 0x13);
      WriteRegister16(GroupAccess, 0xA3);
      GroupEffect(old(regs), ListEvents(l));
      GroupClose(Replay(old(regs)[GroupAccess := 0x03], ListEvents(l)));
    }

    // -------------------------------------------------------------------------
    // Image options, flip, night mode, colour format, test pattern
    // -------------------------------------------------------------------------

    /** _set_image_options: timing, 0x4514, 0x4520 and the increments from
        the binning and flip settings. */
    method SetImageOptions()
      modifies this`regs, this`trace
      ensures trace == old(trace) + ImageOptionsEvents(binning, flipX, flipY)
      ensures regs == Replay(old(regs), ImageOptionsEvents(binning, flipX, flipY))
    {
      var reg20, reg21, reg4514 := ImageOptionValues(binning, flipX, flipY);
      WriteRegister16(TimingTcReg20, reg20);
      WriteRegister16(TimingTcReg21, reg21);
      WriteRegister16(0x4514, reg4514);
      if binning {
        WriteRegister16(0x4520, 0x0B);
        WriteRegister16(XIncrement, 0x31);
        WriteRegister16(YIncrement, 0x31);
      } else {
        WriteRegister16(0x4520, 0x10);
        WriteRegister16(XIncrement, 0x11);
        WriteRegister16(YIncrement, 0x11);
      }
      ImageOptionsTrace(old(trace), binning, flipX, flipY);
      ImageOptionsApplied(old(regs), binning, flipX, flipY);
    }

    /** flip: record the flips and rewrite the image options. */
    method Flip(newFlipX: bool, newFlipY: bool)
      modifies this`flipX, this`flipY, this`regs, this`trace
      ensures flipX == newFlipX && flipY == newFlipY
      ensures trace == old(trace) + ImageOptionsEvents(binning, newFlipX, newFlipY)
      ensures regs == Replay(old(regs), ImageOptionsEvents(binning, newFlipX, newFlipY))
    {
      flipX := newFlipX;
      flipY := newFlipY;
      SetImageOptions();
    }

    /** setNight: bit 2 of 0x3A00. */
    method SetNight(enable: bool)
      modifies this`regs, this`trace
      ensures trace == old(trace) + NightEvents(Peek(old(regs), AecPowerDomain), enable)
      ensures regs == Replay(old(regs), NightEvents(Peek(old(regs), AecPowerDomain), enable))
    {
      WriteRegBits(AecPowerDomain, AecPowerDomainNightMask, enable);
      ReplaySingle(old(regs), NightEvents(Peek(old(regs), AecPowerDomain), enable)[0]);
    }

    /** _set_colorspace: record the colour space and play its format list. */
    method SetColorspaceFormat(space: Colorspace)
      modifies this`colorspace, this`regs, this`trace
      ensures colorspace == space
      ensures trace == old(trace) + ColorspaceEvents(space)
      ensures regs == Replay(old(regs), ColorspaceEvents(space))
    {
      colorspace := space;
      match space {
        case RGB565 => WriteList16(FormatRgb565);
        case YUV => WriteList16(FormatYuv422);
      }
    }

    /** testPattern: record the flag and set or clear bit 7 of 0x503D. */
    method TestPattern(enable: bool)
      modifies this`testPattern, this`regs, this`trace
      ensures testPattern == enable
      ensures trace == old(trace) + TestPatternEvents(enable)
      ensures regs == Replay(old(regs), TestPatternEvents(enable))
    {
      testPattern := enable;
      WriteRegister16(PreIspTestSetting1, if enable then 0x80 else 0);
      ReplaySingle(old(regs), TestPatternEvents(enable)[0]);
    }

    // -------------------------------------------------------------------------
    // Tuning setters
    // -------------------------------------------------------------------------

    /** Write `values` to 0x5381 upward, one register after the other (the
        loop shared by setSaturation and setExposure). */
    method WriteColorMatrix(values: seq<Byte>)
      requires |values| <= NumSatValuesPerLevel
      modifies this`regs, this`trace
      ensures trace == old(trace) + ZipWrites(Span(ColorMatrixBase, |values|), values)
      ensures regs == Replay(old(regs), ZipWrites(Span(ColorMatrixBase, |values|), values))
    {
      ghost var addrs := Span(ColorMatrixBase, |values|);
      var offset := 0;
      while offset < |values|
        invariant 0 <= offset <= |values|
        invariant trace == old(trace) + ZipWrites(addrs[..offset], values[..offset])
        invariant regs == Replay(old(regs), ZipWrites(addrs[..offset], values[..offset]))
      {
        ZipWritesSnoc(addrs, values, offset);
        ReplayAppend(old(regs), ZipWrites(addrs[..offset], values[..offset]), Write(addrs[offset], values[offset]));
        WriteRegister16(ColorMatrixBase + offset, values[offset]);
        offset := offset + 1;
      }
      assert addrs[..offset] == addrs && values[..offset] == values;
    }

    /** setSaturation: levels outside -4 .. 4 are ignored; otherwise the
        level is recorded and its row written from 0x5381 upward. */
    method SetSaturation(level: int)
      modifies this`saturation, this`regs, this`trace
      ensures saturation == if SaturationInRange(level) then level else old(saturation)
      ensures trace == old(trace) + SaturationEvents(level)
      ensures regs == Replay(old(regs), SaturationEvents(level))
    {
      if level > 4 || level < -4 {
        return;
      }
      saturation := level;
      var row := level;
      if row < 0 {
        row := row + NumSaturationLevels;
      }
      WriteColorMatrix(SaturationLevels[row]);
    }

    /** setExposure: levels outside -3 .. 3 are ignored; otherwise the level
        is recorded and its row written from 0x5381 upward. */
    method SetExposure(level: int)
      modifies this`exposure, this`regs, this`trace
      ensures exposure == if ExposureInRange(level) then level else old(exposure)
      ensures trace == old(trace) + ExposureEvents(level)
      ensures regs == Replay(old(regs), ExposureEvents(level))
    {
      if level > 3 || level < -3 {
        return;
      }
      exposure := level;
      var row := level;
      if row < 0 {
        row := row + NumEvLevels;
      }
      WriteColorMatrix(EvLevels[row]);
    }

    /** setContrast: levels outside -3 .. 3 are ignored; otherwise the level
        is recorded and its two values written as a group-3 update. */
    method SetContrast(level: int)
      modifies this`contrast, this`regs, this`trace
      ensures contrast == if ContrastInRange(level) then level else old(contrast)
      ensures trace == old(trace) + ContrastEvents(level)
      ensures regs == Replay(old(regs), ContrastEvents(level))
    {
      if level > 3 || level < -3 {
        return;
      }
      contrast := level;
      var row := level;
      if row < 0 {
        row := row + NumContrastLevels;
      }
      WriteGroup3Settings([Entry(0x5586, ContrastSettings[row][0]), Entry(0x5585, ContrastSettings[row][1])]);
    }

    /** setBrightness: levels outside -4 .. 4 are ignored; otherwise the
        level is recorded and |level| << 4 and the sign code written as a
        group-3 update. */
    method SetBrightness(level: int)
      modifies this`brightness, this`regs, this`trace
      ensures brightness == if BrightnessInRange(level) then level else old(brightness)
      ensures trace == old(trace) + BrightnessEvents(level)
      ensures regs == Replay(old(regs), BrightnessEvents(level))
    {
      if level > 4 || level < -4 {
        return;
      }
      brightness := level;
      var magnitude := level;
      if magnitude < 0 {
        magnitude := magnitude * -1;
      }
      var toWrite: bv16 := (magnitude as bv16) << 4;
      var sign: bv16 := if brightness < 0 then 0x09 else 0x01;
      WriteGroup3Settings([Entry(0x5587, toWrite), Entry(0x5588, sign)]);
    }

    /** setSpecialEffect: record the effect and write its row to the four
        effect registers.  The effect must name a table row. */
    method SetSpecialEffect(value: nat)
      requires value < |SpecialEffects|
      modifies this`effect, this`regs, this`trace
      ensures effect == value
      ensures trace == old(trace) + SpecialEffectEvents(value)
      ensures regs == Replay(old(regs), SpecialEffectEvents(value))
    {
      effect := value;
      var row := SpecialEffects[value];
      var i := 0;
      while i < 4
        invariant 0 <= i <= 4
        invariant effect == value
        invariant trace == old(trace) + ZipWrites(SpecialEffectRegisters[..i], row[..i])
        invariant regs == Replay(old(regs), ZipWrites(SpecialEffectRegisters[..i], row[..i]))
      {
        ZipWritesSnoc(SpecialEffectRegisters, row, i);
        ReplayAppend(old(regs), ZipWrites(SpecialEffectRegisters[..i], row[..i]),
                     Write(SpecialEffectRegisters[i], row[i]));
        WriteRegister16(SpecialEffectRegisters[i], row[i]);
        i := i + 1;
      }
      assert SpecialEffectRegisters[..i] == SpecialEffectRegisters && row[..i] == row;
    }

    /** setWhiteBalance: the mode's row to the light registers inside a
        group-3 update.  The mode must name a table row. */
    method SetWhiteBalance(mode: nat)
      requires mode < NumWhiteBalanceLevels
      modifies this`regs, this`trace
      ensures trace == old(trace) + WhiteBalanceEvents(mode)
      ensures regs == Replay(old(regs), WhiteBalanceEvents(mode))
    {
      var row := LightModes[mode];
      WriteRegister16(GroupAccess, 0x03);
      ghost var grouped := regs;
      var i := 0;
      while i < NumWhiteBalancePerLevel
        invariant 0 <= i <= NumWhiteBalancePerLevel
        invariant trace == old(trace) + [Write(GroupAccess, 0x03)] + ZipWrites(LightRegisters[..i], row[..i])
        invariant regs == Replay(grouped, ZipWrites(LightRegisters[..i], row[..i]))
      {
        ZipWritesSnoc(LightRegisters, row, i);
        ReplayAppend(grouped, ZipWrites(LightRegisters[..i], row[..i]), Write(LightRegisters[i], row[i]));
        WriteRegister16(LightRegisters[i], row[i]);
        i := i + 1;
      }
      assert LightRegisters[..i] == LightRegisters && row[..i] == row;
      WriteRegister16(GroupAccess, 0x13);
      WriteRegister16(GroupAccess, 0xA3);
      GroupEffect(old(regs), ZipWrites(LightRegisters, row));
      GroupClose(Replay(grouped, ZipWrites(LightRegisters, row)));
    }

    // -------------------------------------------------------------------------
    // PLL, resize, start-up
    // -------------------------------------------------------------------------

    /** _set_pll: nothing when a setting is out of range, else the nine PLL
        registers, packed as PllBytes packs them. */
    method SetPll(bypass: bool, multiplier: int, sysDiv: int, preDiv: int, root2x: bool,
                  pclkRootDiv: int, pclkManual: bool, pclkDiv: int)
      modifies this`regs, this`trace
      ensures trace == old(trace) +
        PllEvents(PllSettings(bypass, multiplier, sysDiv, preDiv, root2x, pclkRootDiv, pclkManual, pclkDiv))
      ensures regs == Replay(old(regs),
        PllEvents(PllSettings(bypass, multiplier, sysDiv, preDiv, root2x, pclkRootDiv, pclkManual, pclkDiv)))
    {
      var p := PllSettings(bypass, multiplier, sysDiv, preDiv, root2x, pclkRootDiv, pclkManual, pclkDiv);
      if multiplier > 252 || multiplier < 4 || sysDiv > 15 || preDiv > 8 ||
         pclkDiv > 31 || pclkRootDiv > 3 {
        return;
      }
      var b := PllBytes(p);
      WriteRegister16(0x3039, b[0]);
      WriteRegister16(0x3034, b[1]);
      WriteRegister16(0x3035, b[2]);
      WriteRegister16(0x3036, b[3]);
      WriteRegister16(0x3037, b[4]);
      WriteRegister16(0x3108, b[5]);
      WriteRegister16(0x3824, b[6]);
      WriteRegister16(0x460C, b[7]);
      WriteRegister16(0x3103, b[8]);
      PllTrace(old(trace), p);
      PllApplied(old(regs), p);
    }

        /** The window part of _set_size_and_colorspace: crop window, output
        size, then the total size and offset the binning flag calls for. */
    method WriteWindow(width: bv16, height: bv16, geo: RatioGeometry)
      modifies this`regs, this`trace
      ensures trace == old(trace) + WindowEvents(width, height, geo, binning)
      ensures regs == Replay(old(regs), WindowEvents(width, height, geo, binning))
    {
      var total, offset := WindowTotal(width, geo, binning), WindowOffset(geo, binning);
      WriteAddrReg(XAddrStartHigh, geo.startX, geo.startY);
      WriteAddrReg(XAddrEndHigh, geo.endX, geo.endY);
      WriteAddrReg(XOutputSizeHigh, width, height);
      WriteAddrReg(XTotalSizeHigh, total.0, total.1);
      WriteAddrReg(XOffsetHigh, offset.0, offset.1);
      ghost var t0 := old(trace);
      ghost var a1 := AddrRegWrites(XAddrStartHigh, geo.startX, geo.startY);
      ghost var a2 := AddrRegWrites(XAddrEndHigh, geo.endX, geo.endY);
      ghost var a3 := AddrRegWrites(XOutputSizeHigh, width, height);
      ghost var a4 := AddrRegWrites(XTotalSizeHigh, total.0, total.1);
      ghost var a5 := AddrRegWrites(XOffsetHigh, offset.0, offset.1);
      AppendAssoc(t0, a1, a2);
      AppendAssoc(t0, a1 + a2, a3);
      AppendAssoc(t0, a1 + a2 + a3, a4);
      AppendAssoc(t0, a1 + a2 + a3 + a4, a5);
      WindowAsAddrRegs(old(regs), geo.startX, geo.startY, geo.endX, geo.endY, width, height,
                       total.0, total.1, offset.0, offset.1);
    }

    /** _set_size_and_colorspace: the binning and scale flags the frame size
        implies, its window, the scale bit, the image options, the fixed PLL
        and the colour format. */
    method SetSizeAndColorspace(size: FrameSize, space: Colorspace)
      modifies this`binning, this`scale, this`colorspace, this`regs, this`trace
      ensures binning == Binning(size) && scale == Scale(size) && colorspace == space
      ensures trace == old(trace) + ResizeEvents(old(regs), size, space, flipX, flipY)
      ensures regs == Replay(old(regs), ResizeEvents(old(regs), size, space, flipX, flipY))
    {
      var res, geo := ResolutionOf(size), GeometryOf(size);
      var width, height := res.width, res.height;
      binning, scale := Binning(size), Scale(size);
      Reshape(width, height, geo, space);
      ResizeIsReshape(old(regs), size, space, flipX, flipY);
    }

    /** The writes of _set_size_and_colorspace once the flags are set. */
    method Reshape(width: bv16, height: bv16, geo: RatioGeometry, space: Colorspace)
      modifies this`colorspace, this`regs, this`trace
      ensures colorspace == space
      ensures trace == old(trace) + ReshapeEvents(old(regs), width, height, geo, binning, scale,
                                                  space, flipX, flipY)
      ensures regs == Replay(old(regs), ReshapeEvents(old(regs), width, height, geo, binning, scale,
                                                      space, flipX, flipY))
    {
      WriteWindow(width, height, geo);
      ghost var t1, m1 := trace, regs;
      WriteRegBits(IspControl01, IspScaleMask, scale);
      ghost var t2, m2 := trace, regs;
      SetImageOptions();
      ghost var t3, m3 := trace, regs;
      SetPll(false, 40, 1, 1, false, 1, true, 4);
      ghost var t4, m4 := trace, regs;
      SetColorspaceFormat(space);
      ReshapeJoin(old(trace), old(regs), width, height, geo, binning, scale, space, flipX, flipY,
                  t1, m1, t2, m2, t3, m3, t4, m4, trace, regs);
    }

    /** The chip ID begin() reads from 0x300A / 0x300B, high byte first. */
    method ReadChipId() returns (id: bv16)
      ensures HighByte(id) == Peek(regs, ChipIdHigh) && LowByte(id) == Peek(regs, ChipIdHigh + 1)
      ensures id == ChipId(regs)
    {
      var high := ReadRegister16(ChipIdHigh);
      var low := ReadRegister16(ChipIdHigh + 1);
      id := Join(high, low);
    }

    /** begin(): the base library's start-up; on success the chip ID check
        and, for an OV5640, the default register list. */
    method Begin(baseStatus: Status) returns (status: Status)
      modifies this`regs, this`trace
      ensures status == BeginStatus(old(regs), baseStatus)
      ensures trace == old(trace) + BeginEvents(old(regs), baseStatus)
      ensures regs == Replay(old(regs), BeginEvents(old(regs), baseStatus))
    {
      Record(PeripheralInit);
      BeginFailsFast(old(regs), baseStatus);
      if baseStatus != StatusOk {
        return baseStatus;
      }
      var chipId := ReadChipId();
      if chipId != Ov5640ChipId {
        return ErrCameraId;
      }
      WriteList16(SensorDefaultRegs);
      BeginJoin(old(trace), old(regs), baseStatus, trace, regs);
      return StatusOk;
    }

    /** The end of config(): the test pattern off, the settling pause for a
        positive frame rate, the DMA change and the resume. */
    method StartCapture(fps: real)
      modifies this`regs, this`trace
      ensures trace == old(trace) + CaptureEvents(fps)
      ensures regs == old(regs)[PreIspTestSetting1 := 0]
    {
      WriteRegister16(PreIspTestSetting1, 0);
      if fps > 0.0 {
        Record(SettleDelay);
      } else {
        assert trace == trace + [];
      }
      Record(DmaChange);
      Record(Resume);
      CaptureTrace(old(trace), fps);
    }

    /** The granted part of config(): the QVGA resize, so binning and
        scaling end up on, then the end of config(). */
    method ConfigGranted(space: Colorspace, fps: real)
      modifies this`binning, this`scale, this`colorspace, this`regs, this`trace
      ensures binning && scale && colorspace == space
      ensures trace == old(trace) + GrantedEvents(old(regs), space, fps, flipX, flipY)
      ensures regs == Replay(old(regs), ResizeEvents(old(regs), ConfigSize, space, flipX, flipY))
                        [PreIspTestSetting1 := 0]
    {
      SetSizeAndColorspace(ConfigSize, space);
      ConfigSizeFlags();
      StartCapture(fps);
      AppendAssoc(old(trace), ResizeEvents(old(regs), ConfigSize, space, flipX, flipY),
                  CaptureEvents(fps));
    }

    /** config() with the default reallocation policy, then resume() when it
        succeeded. */
    method ConfigAndResume(allocStatus: Status, size: FrameSize, space: Colorspace,
                           fps: real, nbuf: nat)
      returns (status: Status)
      modifies this`binning, this`scale, this`colorspace, this`regs, this`trace
      ensures status == allocStatus
      ensures allocStatus == StatusOk ==> binning && scale && colorspace == space
      ensures allocStatus != StatusOk ==>
        binning == old(binning) && scale == old(scale) && colorspace == old(colorspace)
      ensures trace == old(trace) + ConfigResumeEvents(old(regs), allocStatus, space, fps, nbuf, flipX, flipY)
      ensures regs == Replay(old(regs), ConfigResumeEvents(old(regs), allocStatus, space, fps, nbuf, flipX, flipY))
    {
      ghost var t0, m0 := trace, regs;
      status := Config(allocStatus, size, space, fps, nbuf);
      ghost var t1, m1 := trace, regs;
      ResumeIfGranted(status);
      ConfigResumeJoin(t0, m0, allocStatus, space, fps, nbuf, flipX, flipY, t1, m1, trace);
    }

    /** The resume begin(size, ...) issues once config() has succeeded. */
    method ResumeIfGranted(status: Status)
      modifies this`trace
      ensures trace == old(trace) + (if status == StatusOk then [Resume] else [])
    {
      if status == StatusOk {
        Record(Resume);
      } else {
        assert trace == trace + [];
      }
    }

    /** config(): the buffer request; when the base library grants it, the
        QVGA resize (the requested size is not used), the test pattern off,
        the settling pause and the DMA restart.  Returns the buffer status. */
    method Config(allocStatus: Status, size: FrameSize, space: Colorspace := RGB565,
                  fps: real := 30.0, nbuf: nat := 1, allo: Realloc := ReallocChange)
      returns (status: Status)
      modifies this`binning, this`scale, this`colorspace, this`regs, this`trace
      ensures status == allocStatus
      ensures allocStatus == StatusOk ==> binning && scale && colorspace == space
      ensures allocStatus != StatusOk ==>
        binning == old(binning) && scale == old(scale) && colorspace == old(colorspace)
      ensures trace == old(trace) + ConfigEvents(old(regs), allocStatus, space, fps, nbuf, allo, flipX, flipY)
      ensures regs == Replay(old(regs), ConfigEvents(old(regs), allocStatus, space, fps, nbuf, allo, flipX, flipY))
    {
      var width, height := 320, 240;
      Record(BufferConfig(width, height, space, nbuf, allo));
      status := allocStatus;
      if status != StatusOk {
        ConfigFails(old(regs), allocStatus, space, fps, nbuf, allo, flipX, flipY);
        return;
      }
      ConfigGranted(space, fps);
      AppendAssoc(old(trace), [BufferConfig(width, height, space, nbuf, allo)],
                  GrantedEvents(old(regs), space, fps, flipX, flipY));
      ConfigStages(old(regs), space, fps, nbuf, allo, flipX, flipY);
    }

    /** begin(size, space, fps, nbuf): begin(), then config() with the
        default reallocation policy, then resume() once both succeeded.
        The first failing status is returned. */
    method BeginAndConfig(baseStatus: Status, allocStatus: Status, size: FrameSize,
                          space: Colorspace := RGB565, fps: real := 30.0, nbuf: nat := 1)
      returns (status: Status)
      modifies this`binning, this`scale, this`colorspace, this`regs, this`trace
      ensures status == if BeginStatus(old(regs), baseStatus) != StatusOk
                        then BeginStatus(old(regs), baseStatus) else allocStatus
      ensures status == StatusOk ==> binning && scale && colorspace == space
      ensures status != StatusOk ==>
        binning == old(binning) && scale == old(scale) && colorspace == old(colorspace)
      ensures trace == old(trace) +
        StartEvents(old(regs), baseStatus, allocStatus, space, fps, nbuf, flipX, flipY)
      ensures regs == Replay(old(regs),
        StartEvents(old(regs), baseStatus, allocStatus, space, fps, nbuf, flipX, flipY))
    {
      status := Begin(baseStatus);
      if status == StatusOk {
        ghost var t1, m1 := trace, regs;
        status := ConfigAndResume(allocStatus, size, space, fps, nbuf);
        StartJoin(old(trace), old(regs), baseStatus, allocStatus, space, fps, nbuf, flipX, flipY,
                  t1, m1, trace, regs);
      } else {
        StartFails(old(regs), baseStatus, allocStatus, space, fps, nbuf, flipX, flipY);
      }
    }
  }
}
