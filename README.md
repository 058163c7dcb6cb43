# OV5640 sensor controller

A Dafny model of the OV5640 camera driver `SparkFun_iCap_OV5640`. The driver
turns high-level requests into ordered writes to the sensor's register file.
The file has 16-bit addresses and 8-bit values and is reached over I2C.
The requests are: start-up, configuration, frame size and colour space,
PLL, flip and mirror, night mode, test pattern, saturation, contrast,
exposure, brightness, white balance and special effects.

The device is a register map (`Registers.RegisterFile`, an absent register
reads 0) together with a trace of everything the driver did: register
writes, list delays, and the base capture library's calls, which appear as
opaque events. `Registers.Replay` folds a trace over a register map.

Every driver method is a method of the class `Camera.Sensor`, which keeps
the driver's own fields (`binning`, `scale`, `flipX`, `flipY`, `colorspace`,
`testPattern` and the stored tuning levels). Each method is proved to append
exactly the events of a specification function (`BeginEvents`,
`ConfigEvents`, `ResizeEvents`, `SaturationEvents`, ...). Its new register
file is then `Replay(old(regs), thoseEvents)`. Lemmas over these functions
state what the source promises about the registers: which registers hold
what, which are left alone, in what order the writes happen, and when
nothing is written at all.

Modules:

- `Capture`: status codes, colour spaces and reallocation policies borrowed
  from the base capture library.
- `Registers`: the register file, traces and replay. Also register lists
  (`writeList16`), the high/low byte split (`_write_addr_reg`) and masked
  read-modify-write (`_write_reg_bits`).
- `Tables`: register addresses, the `OV5640_size` enumeration, the
  resolution and aspect-ratio tables, the tuning tables and the register
  lists.
- `SizeAndColorspace`: `_set_image_options`, the geometry, scaling, PLL and
  format steps of `_set_size_and_colorspace`.
- `Tuning`: the group-3 bracket and the tuning setters.
- `Camera`: `begin`, `begin(size, ...)`, `config` and the `Sensor` class.

## Model

| member | source | states |
|---|---|---|
| Camera.Sensor.constructor | src/SparkFun_iCap_OV5640.h:150-153 | a new driver has no binning, no scaling, no horizontal mirror and vertical flip on, RGB565, no test pattern and every stored tuning level at 0, and has done nothing to the device |
| Camera.Sensor.ReadRegister16 | src/SparkFun_iCap_OV5640.cpp:1153-1161 | the value read is what the register holds (0 for a register never written) |
| Camera.Sensor.WriteRegister16 | src/SparkFun_iCap_OV5640.cpp:1163-1170 | the register now holds the value, nothing else changes, and the write is appended to the trace |
| Camera.Sensor.WriteList16 | src/SparkFun_iCap_OV5640.cpp:1172-1184 | the loop appends one event per row in list order, a delay for a 0xFFFF row and a write of the value's low byte otherwise; the registers are the replay of those events |
| Registers.Truncate8 | src/SparkFun_iCap_OV5640.cpp:1180 | a uint16_t list value passed to writeRegister16 keeps exactly its low eight bits |
| Registers.ListWritesInOrder | src/SparkFun_iCap_OV5640.cpp:1172-1184 | the register writes of a played list are exactly its non-0xFFFF rows, in list order, with their values |
| Registers.ListLastWins | src/SparkFun_iCap_OV5640.cpp:1172-1184 | a register listed more than once ends with the value of its last row |
| Registers.ListUntouched | src/SparkFun_iCap_OV5640.cpp:1176-1178 | a register no row names, and 0xFFFF itself, is left unchanged: delay rows write nothing |
| Registers.ListAfter | src/SparkFun_iCap_OV5640.cpp:1172-1184 | a list played after a non-write event writes its rows and leaves the registers as the list alone does |
| Registers.ListEventsKinds | src/SparkFun_iCap_OV5640.cpp:1172-1184 | a played list consists only of register writes and delays |
| Registers.WriteRowsFirst | src/SparkFun_iCap_OV5640.cpp:1172-1184 | a list whose first row is not a delay writes that row first |
| Registers.ReplayLastWrite | src/SparkFun_iCap_OV5640.cpp:1163-1170 | the last write to a register in a trace decides what it holds |
| Registers.ReplayUntouched | src/SparkFun_iCap_OV5640.cpp:1163-1170 | a register no event of a trace writes keeps its contents |
| Registers.ReplayConcat | src/SparkFun_iCap_OV5640.cpp:1163-1170 | replaying two traces in turn is replaying their concatenation |
| Registers.ReplayNoWrites | src/SparkFun_iCap_OV5640.cpp:1143-1147 | events that are not register writes (delays, DMA change, resume) leave the registers unchanged |
| Camera.Sensor.WriteAddrReg | src/SparkFun_iCap_OV5640.cpp:1186-1191 | appends the four byte writes of x and y, high byte first, to reg .. reg+3 |
| Registers.Join | src/SparkFun_iCap_OV5640.cpp:1186-1191 | joining a high and a low byte gives the 16-bit value whose bytes they are |
| Registers.SplitJoin | src/SparkFun_iCap_OV5640.cpp:1187-1190 | splitting a 16-bit value into (x >> 8) & 0xFF and x & 0xFF loses nothing: high * 256 + low is x |
| Registers.AddrRegEffect | src/SparkFun_iCap_OV5640.cpp:1186-1191 | after `_write_addr_reg` the pairs at reg and reg+2 read back x and y (high * 256 + low), and no register outside reg .. reg+3 (uint16_t wrap-around included) changes |
| Registers.AddrRegApplied | src/SparkFun_iCap_OV5640.cpp:1186-1191 | `_write_addr_reg` is the four register updates in order |
| Registers.AddrRegReads | src/SparkFun_iCap_OV5640.cpp:1186-1191 | the pairs at reg and reg+2 read back x and y |
| Registers.AddrRegKeeps | src/SparkFun_iCap_OV5640.cpp:1186-1191 | a register outside reg .. reg+3 is left alone |
| Registers.MaskBits | src/SparkFun_iCap_OV5640.cpp:1193-1201 | the value written back has the mask's bits set when enabling and clear otherwise, and every bit outside the mask as read |
| Camera.Sensor.WriteRegBits | src/SparkFun_iCap_OV5640.cpp:1193-1201 | one write of the read value with the mask's bits set or cleared; only that register changes |
| Tuning.GroupEvents | src/SparkFun_iCap_OV5640.cpp:1203-1208 | a group-3 update is 0x3212 = 0x03, the payload, then 0x3212 = 0x13 and 0x3212 = 0xA3 |
| Tuning.GroupEffect | src/SparkFun_iCap_OV5640.cpp:1203-1208 | the payload runs with 0x3212 at 0x03 and 0x3212 ends at 0xA3 (launched) |
| Tuning.GroupPayload | src/SparkFun_iCap_OV5640.cpp:1203-1208 | every register but 0x3212 ends as the payload leaves it, and 0x3212 ends at 0xA3 |
| Camera.Sensor.WriteGroup3Settings | src/SparkFun_iCap_OV5640.cpp:1203-1208 | appends the group-3 bracket around the played list |
| SizeAndColorspace.Reg20Value | src/SparkFun_iCap_OV5640.cpp:840-851 | 0x3820 has bit 0 exactly when binning, 0x40 exactly when not, bits 2:1 exactly when flipping vertically, and no other bit |
| SizeAndColorspace.Reg21Value | src/SparkFun_iCap_OV5640.cpp:840-856 | 0x3821 has bit 0 exactly when binning, bits 2:1 exactly when mirroring, and no other bit |
| SizeAndColorspace.Reg4514Index | src/SparkFun_iCap_OV5640.cpp:840-856 | the 0x4514 row index has flip-y as bit 0, flip-x as bit 1 and binning as bit 2 |
| SizeAndColorspace.ImageOptionValues | src/SparkFun_iCap_OV5640.cpp:831-874 | the flag-by-flag composition and the if-chain compute Reg20Value, Reg21Value and the row of [0x88, 0x00, 0xBB, 0x00, 0xAA, 0xBB, 0xBB, 0xAA] at Reg4514Index |
| SizeAndColorspace.ImageOptionsEffect | src/SparkFun_iCap_OV5640.cpp:876-888 | afterwards 0x3820/0x3821 encode binning, flip and mirror, 0x4514 holds its row, and 0x4520/0x3814/0x3815 hold 0x0B/0x31/0x31 when binning and 0x10/0x11/0x11 otherwise |
| SizeAndColorspace.ImageOptionsApplied | src/SparkFun_iCap_OV5640.cpp:876-888 | `_set_image_options` is its six register updates in order |
| SizeAndColorspace.ImageOptionsTrace | src/SparkFun_iCap_OV5640.cpp:876-888 | proof helper for SetImageOptions: `_set_image_options` appends its six writes one after the other |
| SizeAndColorspace.ImageOptionsKeeps | src/SparkFun_iCap_OV5640.cpp:876-888 | no register outside its six changes |
| Camera.Sensor.SetImageOptions | src/SparkFun_iCap_OV5640.cpp:830-889 | appends the six image-option writes for the current binning and flip fields |
| Camera.Sensor.Flip | src/SparkFun_iCap_OV5640.cpp:891-897 | stores both flips, then rewrites the image options with them |
| Tuning.NightEvents | src/SparkFun_iCap_OV5640.cpp:899-901 | setNight is one write, to 0x3A00 |
| Tuning.NightOnlyBit2 | src/SparkFun_iCap_OV5640.cpp:899-901 | setNight sets bit 2 of 0x3A00 exactly when enabling, keeps its other bits and changes no other register |
| Camera.Sensor.SetNight | src/SparkFun_iCap_OV5640.cpp:899-901 | appends the read-modify-write of bit 2 of 0x3A00 |
| SizeAndColorspace.ColorspaceFormat | src/SparkFun_iCap_OV5640.cpp:903-914 | afterwards 0x4300 is 0x61 exactly for RGB565 and 0x30 exactly for YUV, 0x501F is 0x01 or 0x00, and RGB565 also sets 0x3002 = 0x1C and 0x3006 = 0xC3 while YUV leaves them |
| SizeAndColorspace.ColorspaceKeeps | src/SparkFun_iCap_OV5640.cpp:903-914 | only the format registers change |
| Camera.Sensor.SetColorspaceFormat | src/SparkFun_iCap_OV5640.cpp:903-914 | stores the colour space and plays its format list |
| Tuning.TestPatternEvents | src/SparkFun_iCap_OV5640.cpp:916-919 | testPattern writes 0x503D with bit 7 exactly when enabling and every other bit clear |
| Camera.Sensor.TestPattern | src/SparkFun_iCap_OV5640.cpp:916-919 | stores the flag and writes 0x503D |
| Tuning.LevelIndex | src/SparkFun_iCap_OV5640.cpp:930-931 | a level in range maps to a valid row: itself when non-negative, level + N otherwise, that is level mod N |
| Tuning.LevelRows | src/SparkFun_iCap_OV5640.cpp:930-931 | levels -max .. max and rows 0 .. 2*max correspond one to one |
| Tuning.SaturationEvents | src/SparkFun_iCap_OV5640.cpp:921-936 | nothing for a level outside -4 .. 4, otherwise 11 writes |
| Tuning.ColorMatrixRowEffect | src/SparkFun_iCap_OV5640.cpp:933-935 | writing a row from 0x5381 upward leaves 0x5381 + k holding entry k and changes nothing else |
| Tuning.SaturationEffect | src/SparkFun_iCap_OV5640.cpp:921-936 | for an in-range level 0x5381 .. 0x538B hold the level's row and nothing else changes |
| Camera.Sensor.WriteColorMatrix | src/SparkFun_iCap_OV5640.cpp:933-935 | the loop appends one write per value to 0x5381 + offset, in order |
| Camera.Sensor.SetSaturation | src/SparkFun_iCap_OV5640.cpp:921-936 | an out-of-range level writes nothing and keeps the stored level; otherwise the level is stored and its row written |
| Tuning.ExposureEvents | src/SparkFun_iCap_OV5640.cpp:968-983 | nothing for a level outside -3 .. 3, otherwise 6 writes |
| Tuning.ExposureEffect | src/SparkFun_iCap_OV5640.cpp:968-983 | for an in-range level 0x5381 .. 0x5386 hold the level's row and nothing else changes |
| Tuning.ExposureOverwritesSaturation | src/SparkFun_iCap_OV5640.cpp:933-981 | exposure after saturation overwrites the first six colour-matrix registers and keeps the saturation row's last five |
| Camera.Sensor.SetExposure | src/SparkFun_iCap_OV5640.cpp:968-983 | an out-of-range level writes nothing and keeps the stored level; otherwise the level is stored and its row written |
| Tuning.ContrastSettingsOf | src/SparkFun_iCap_OV5640.cpp:950-953 | the contrast payload is exactly two rows: 0x5586 gets the first entry of the level's table row, then 0x5585 the second |
| Tuning.ContrastEvents | src/SparkFun_iCap_OV5640.cpp:938-956 | nothing for a level outside -3 .. 3 |
| Tuning.ContrastEffect | src/SparkFun_iCap_OV5640.cpp:938-956 | for an in-range level 0x5586 and 0x5585 hold the level's row, group 3 is launched, and every other register keeps its presence and value |
| Camera.Sensor.SetContrast | src/SparkFun_iCap_OV5640.cpp:938-956 | an out-of-range level writes nothing and keeps the stored level; otherwise the level is stored and its row written as a group-3 update |
| Tuning.BrightnessSettings | src/SparkFun_iCap_OV5640.cpp:993-1003 | the brightness payload is exactly two rows: 0x5587 gets abs(level) * 16, then 0x5588 gets 0x09 for a negative level and 0x01 otherwise |
| Tuning.BrightnessEvents | src/SparkFun_iCap_OV5640.cpp:985-1006 | nothing for a level outside -4 .. 4 |
| Tuning.BrightnessEffect | src/SparkFun_iCap_OV5640.cpp:985-1006 | for an in-range level 0x5587 = abs(level) * 16, 0x5588 = 0x09 exactly for a negative level and 0x01 otherwise, the pair decodes back to the level, group 3 is launched, and every other register keeps its presence and value |
| Tuning.MagnitudeByte | src/SparkFun_iCap_OV5640.cpp:997 | abs(level) << 4 fits a byte for abs(level) <= 4 and shifts back to abs(level) |
| Camera.Sensor.SetBrightness | src/SparkFun_iCap_OV5640.cpp:985-1006 | an out-of-range level writes nothing and keeps the stored level; otherwise the level is stored and magnitude and sign written as a group-3 update |
| Tuning.WhiteBalanceEvents | src/SparkFun_iCap_OV5640.cpp:1008-1016 | a white-balance update is 7 writes plus the three group-3 bracket writes |
| Tuning.WhiteBalanceWrites | src/SparkFun_iCap_OV5640.cpp:1008-1016 | the update opens group 3 (0x3212 = 0x03), writes the mode's k-th entry to the k-th light register (0x3406, 0x3400 .. 0x3405) in table order, then closes (0x13) and launches (0xA3) group 3 |
| Tuning.WhiteBalanceEffect | src/SparkFun_iCap_OV5640.cpp:1008-1016 | each light register holds the mode's entry, group 3 is launched, and every register outside the light registers and 0x3212 keeps its presence and value |
| Camera.Sensor.SetWhiteBalance | src/SparkFun_iCap_OV5640.cpp:1008-1016 | the loop appends the mode's row, in register order, between 0x3212 = 0x03 and 0x3212 = 0x13, 0xA3 |
| Tuning.SpecialEffectEvents | src/SparkFun_iCap_OV5640.cpp:958-966 | a special effect is four writes in order: the k-th of 0x5580, 0x5583, 0x5584, 0x5003 gets the effect's k-th table entry |
| Tuning.SpecialEffectEffect | src/SparkFun_iCap_OV5640.cpp:958-966 | each effect register holds the effect's entry and nothing else changes |
| Camera.Sensor.SetSpecialEffect | src/SparkFun_iCap_OV5640.cpp:958-966 | stores the effect and the loop appends its row to the four registers in order |
| SizeAndColorspace.PllEvents | src/SparkFun_iCap_OV5640.cpp:1018-1039 | nine writes when every range check passes, none when any fails |
| SizeAndColorspace.PllBytesDecode | src/SparkFun_iCap_OV5640.cpp:1031-1039 | each packed byte holds its field cut to the field's width in the field's bits, and the fixed bits 0x1A, 0x06, 0x22, 0x13 |
| SizeAndColorspace.PllFields | src/SparkFun_iCap_OV5640.cpp:1018-1040 | after accepted settings the nine PLL registers hold the packed fields |
| SizeAndColorspace.PllRoundTrip | src/SparkFun_iCap_OV5640.cpp:1031-1037 | for non-negative accepted fields the registers decode back to sysDiv, multiplier, preDiv, pclkRootDiv and pclkDiv themselves |
| SizeAndColorspace.PllApplied | src/SparkFun_iCap_OV5640.cpp:1031-1039 | accepted settings are nine register updates in order |
| SizeAndColorspace.PllTrace | src/SparkFun_iCap_OV5640.cpp:1031-1039 | proof helper for SetPll: accepted settings append the nine writes one after the other |
| SizeAndColorspace.PllKeeps | src/SparkFun_iCap_OV5640.cpp:1018-1040 | no register outside the nine changes, and none at all when rejected |
| Camera.Sensor.SetPll | src/SparkFun_iCap_OV5640.cpp:1018-1040 | rejected settings append nothing; accepted ones append the nine packed writes |
| SizeAndColorspace.ScaleBitEvents | src/SparkFun_iCap_OV5640.cpp:1085 | one write to 0x5001 whose bit 5 is the scale flag and whose other bits are as read |
| SizeAndColorspace.BinningFrameSizes | src/SparkFun_iCap_OV5640.cpp:1064 | binning (output within half the sensor window) holds for exactly the sizes up to HD |
| SizeAndColorspace.ScaleFrameSizes | src/SparkFun_iCap_OV5640.cpp:1065 | scaling is off for exactly HD, QHDA, WQXGA, PFHD and QSXGA, the full or half sensor windows |
| SizeAndColorspace.OutputFitsWindow | src/SparkFun_iCap_OV5640.cpp:293-325 | every output size fits the sensor window of its aspect ratio |
| SizeAndColorspace.RowFits | src/SparkFun_iCap_OV5640.cpp:293-325 | every resolution row fits its ratio row's sensor window |
| SizeAndColorspace.RatioRowsConsistent | src/SparkFun_iCap_OV5640.cpp:314-325 | every ratio row's crop window covers its sensor window and its total width is at least 200, so the binned total does not wrap |
| SizeAndColorspace.FrameSizeTable | src/SparkFun_iCap_OV5640.h:12-31 | each enumerator's resolution row holds the size it documents, and enumerator and value determine each other |
| SizeAndColorspace.QvgaFlags | src/SparkFun_iCap_OV5640.h:18 | QVGA is value 5, 320x240, binned and scaled |
| SizeAndColorspace.WindowWritesAreAddrRegs | src/SparkFun_iCap_OV5640.cpp:1067-1082 | the twenty window writes are the five `_write_addr_reg` calls in order |
| SizeAndColorspace.WindowWritesEffect | src/SparkFun_iCap_OV5640.cpp:1067-1082 | each register pair of 0x3800 .. 0x3813 reads back its value |
| SizeAndColorspace.WindowWritesKeep | src/SparkFun_iCap_OV5640.cpp:1067-1082 | nothing outside 0x3800 .. 0x3813 changes |
| SizeAndColorspace.GeometryRegisters | src/SparkFun_iCap_OV5640.cpp:1067-1082 | the window registers read back crop start and end and output size; total and offset are the table's when not binning, and (width > 920 ? tx - 200 : 2060, ty / 2) and (ox / 2, oy / 2) when binning |
| SizeAndColorspace.GeometryOutputSize | src/SparkFun_iCap_OV5640.cpp:1069 | 0x3808 .. 0x380B read back the size's width and height |
| SizeAndColorspace.GeometryKeeps | src/SparkFun_iCap_OV5640.cpp:1067-1082 | the geometry writes change nothing outside 0x3800 .. 0x3813 |
| SizeAndColorspace.QvgaGeometry | src/SparkFun_iCap_OV5640.cpp:1067-1082 | QVGA leaves output 320x240, total 2060x984 and offset 16x8 |
| SizeAndColorspace.TailScaleBit | src/SparkFun_iCap_OV5640.cpp:1085-1103 | after the steps following the window, bit 5 of 0x5001 is the scale flag and its other bits are as read |
| SizeAndColorspace.TailImageOptions | src/SparkFun_iCap_OV5640.cpp:1085-1103 | after those steps the timing registers encode binning, flip and mirror |
| SizeAndColorspace.TailPllAndFormat | src/SparkFun_iCap_OV5640.cpp:1085-1103 | after those steps the PLL multiplier is 40 and 0x4300 names the colour space |
| SizeAndColorspace.TailKeeps | src/SparkFun_iCap_OV5640.cpp:1085-1103 | those steps leave the window block alone |
| SizeAndColorspace.TailKeepsOutputSize | src/SparkFun_iCap_OV5640.cpp:1085-1103 | those steps leave the output size registers alone |
| SizeAndColorspace.ResizeIsReshape | src/SparkFun_iCap_OV5640.cpp:1042-1065 | proof helper for SetSizeAndColorspace: resizing to a frame size is reshaping with its table rows and its binning and scale flags |
| SizeAndColorspace.ResizeStages | src/SparkFun_iCap_OV5640.cpp:1042-1104 | `_set_size_and_colorspace` is the window writes followed by the rest |
| SizeAndColorspace.ResizeOutputSize | src/SparkFun_iCap_OV5640.cpp:1042-1104 | afterwards the output size registers hold the size's dimensions |
| SizeAndColorspace.ResizeSettings | src/SparkFun_iCap_OV5640.cpp:1042-1104 | afterwards 0x5001 bit 5 is the scale flag, the timing registers encode the size's binning and the flips, the multiplier is 40 and 0x4300 names the colour space |
| Camera.WindowAsAddrRegs | src/SparkFun_iCap_OV5640.cpp:1067-1082 | replaying the window writes is replaying the five `_write_addr_reg` blocks in turn |
| Camera.Sensor.WriteWindow | src/SparkFun_iCap_OV5640.cpp:1067-1082 | appends the crop, output, total and offset writes for the binning flag |
| Camera.Sensor.Reshape | src/SparkFun_iCap_OV5640.cpp:1067-1103 | appends the window writes, the scale bit, the image options, the fixed PLL and the format list |
| Camera.Sensor.SetSizeAndColorspace | src/SparkFun_iCap_OV5640.cpp:1042-1104 | stores the size's binning and scale flags and the colour space, and appends the resize events |
| Camera.Sensor.ReadChipId | src/SparkFun_iCap_OV5640.cpp:791-792 | the ID is 0x300A as high byte and 0x300B as low byte |
| Camera.BeginEvents | src/SparkFun_iCap_OV5640.cpp:770-815 | begin() starts with the base library's start-up |
| Camera.BeginFailsFast | src/SparkFun_iCap_OV5640.cpp:774-795 | a failing base library returns its status and a wrong chip ID returns ErrCameraId, both before any register write; begin succeeds exactly when the base library does and the ID is 0x5640 |
| Camera.BeginWritesDefaults | src/SparkFun_iCap_OV5640.cpp:809 | a successful begin() writes exactly the default list's non-delay rows in order, starting with the reset 0x3008 = 0x82 and ending powered up (0x3008 = 0x02) with 0x3C00 = 0x04 |
| Camera.BeginStartsNoCapture | src/SparkFun_iCap_OV5640.h:71-77 | begin() neither changes the DMA target nor resumes capture |
| Camera.Sensor.Begin | src/SparkFun_iCap_OV5640.cpp:770-815 | returns BeginStatus and appends BeginEvents |
| Camera.ConfigSizeFlags | src/SparkFun_iCap_OV5640.cpp:1120-1138 | the size config() resizes to is the 320x240 it allocates for, binned and scaled |
| Camera.ConfigEvents | src/SparkFun_iCap_OV5640.cpp:1116-1151 | config() begins with the buffer request for 320x240 |
| Camera.ConfigFails | src/SparkFun_iCap_OV5640.cpp:1122-1123 | when the buffer request fails, config() does nothing more and changes no register |
| Camera.CaptureTrace | src/SparkFun_iCap_OV5640.cpp:1141-1147 | proof helper for Config: the end of config() is the test-pattern write, the settling pause for a positive fps, the DMA change and the resume, in that order |
| Camera.CaptureKeeps | src/SparkFun_iCap_OV5640.cpp:1141-1147 | the end of config() changes only 0x503D, to 0 |
| Camera.ConfigStages | src/SparkFun_iCap_OV5640.cpp:1116-1151 | the registers after a successful config() are the QVGA resize's, with 0x503D = 0 |
| Camera.ConfigOutputSize | src/SparkFun_iCap_OV5640.cpp:1116-1151 | a successful config() leaves a 320x240 output whatever size was asked for |
| Camera.ConfigSettings | src/SparkFun_iCap_OV5640.cpp:1116-1151 | a successful config() leaves binning and scaling on, the flips in place, the test pattern off and the colour format selected |
| Camera.TestPatternKeepsPair | src/SparkFun_iCap_OV5640.cpp:1141 | the test-pattern write leaves every register pair below 0x503D alone |
| Camera.Sensor.StartCapture | src/SparkFun_iCap_OV5640.cpp:1141-1147 | appends the end of config() and clears 0x503D |
| Camera.Sensor.ConfigGranted | src/SparkFun_iCap_OV5640.cpp:1138-1147 | resizes to QVGA, so binning and scaling end up on, then appends the end of config() |
| Camera.Sensor.Config | src/SparkFun_iCap_OV5640.cpp:1116-1151 | returns the buffer status; on success binning and scaling are on and the colour space stored, on failure the three are unchanged; appends ConfigEvents (defaults RGB565, 30 fps, 1 buffer, ReallocChange as declared at src/SparkFun_iCap_OV5640.h:125-128) |
| Camera.StartStages | src/SparkFun_iCap_OV5640.cpp:817-828 | after a successful begin(), begin(size, ...) is begin's events, config's events and the resume when config succeeded, and the resume changes no register |
| Camera.StartFails | src/SparkFun_iCap_OV5640.cpp:819-820 | when begin() fails, begin(size, ...) does nothing more |
| Camera.ConfigResumeKeeps | src/SparkFun_iCap_OV5640.cpp:821-823 | the resume after config() changes no register |
| Camera.Sensor.ResumeIfGranted | src/SparkFun_iCap_OV5640.cpp:822-824 | appends the resume exactly when config() succeeded |
| Camera.Sensor.ConfigAndResume | src/SparkFun_iCap_OV5640.cpp:821-824 | config() with ReallocChange, then the resume on success; returns config's status; on success binning and scaling are on and the colour space stored, on failure the three are unchanged |
| Camera.Sensor.BeginAndConfig | src/SparkFun_iCap_OV5640.cpp:817-828 | returns begin's failure, else config's status; when that status is success binning and scaling are on and the colour space stored, otherwise the three are unchanged; appends StartEvents (defaults RGB565, 30 fps, 1 buffer as declared at src/SparkFun_iCap_OV5640.h:93-94) |

## Left out

- I2C framing of readRegister16 and writeRegister16 is left out: a read is a map lookup and a write a map update. A register never written reads 0, and the `-1` that `wire->read()` returns when no byte arrives is not modelled.
- Pin handling (`pinMode`/`digitalWrite` on the enable pin) is left out because it is GPIO.
- The per-write `delayMicroseconds(i2c_delay_us)` in writeList16 is left out. The 10-frame settling pause of config() is one `SettleDelay` event; its floating-point length is not computed.
- The base capture library is left out. Its `begin`, `bufferConfig`, `dma_change` and `resume` are opaque events, and their statuses are inputs. The `pixbuf`, `_width` and `_height` fields are not modelled.
- Only the two colour spaces the format switch handles are modelled (RGB565, YUV). The base library's colour-space enumeration is not part of this model.
- setColorspace is left out: its body is empty. The commented-out JPEG PLL, hard-reset and setSize paths are left out too.
- The autofocus constants, the float pre-divider table and the lists the driver never plays (`_reset_awb`, the gamma and AWB lists, the JPEG, raw and grayscale formats) are left out.
- src/SparkFun_iCap_OV5640.h does not declare `_saturation`, `_contrast`, `_exposure`, `_brightness`, `_effect`, `_colorspace` or `_test_pattern`. The model starts them at 0, RGB565 and false.
- The `uint16_t` locals of `_set_size_and_colorspace` are `bv16` and keep their wrap-around. The int-to-`uint16_t` conversions of the table lookups are exact, because every table entry fits.
- Camera.Sensor.SetSizeAndColorspace: computes the binning and scale flags with the `Binning`/`Scale` predicates over the table rows, not as separate local comparisons. WriteWindow likewise computes the total size and offset before its writes, not in branches between them. The writes and their order are the same.
- Camera.Sensor.SetSpecialEffect: requires the effect to name a table row. The source indexes the table without a check, so other values are undefined behaviour there.
- Camera.Sensor.SetWhiteBalance: requires the mode to name a table row, for the same reason.
- SizeAndColorspace.PllRoundTrip: requires non-negative dividers. The source's range check admits negative dividers, which `& 0xF` / `& 3` / `& 0x1F` wrap. PllBytesDecode states the wrapped value for every accepted input.
