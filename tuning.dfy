/**
 * The image-tuning setters: saturation, contrast, exposure, brightness,
 * white balance, special effect, night mode and the test pattern.  Each is
 * specified by the events it emits; the lemmas say what the registers hold
 * afterwards.
 */
module Tuning {
  import opened Registers
  import opened Tables

  // ---------------------------------------------------------------------------
  // Signed levels and table rows
  // ---------------------------------------------------------------------------

  /** The table row of a signed level, counted from the end of the table when
      the level is negative (Python-style indexing). */
  function LevelIndex(level: int, n: nat): (i: int)
    requires 0 <= level + n && level < n
    ensures 0 <= i < n
    ensures i == level % n
  {
    if level < 0 then level + n else level
  }

  /** The level a table row stands for, in a table of levels -max .. max
      laid out as 0, 1, .., max, -max, .., -1. */
  function LevelOfRow(i: nat, max: nat): int
  {
    if i <= max then i else i - (2 * max + 1)
  }

  /** Levels -max .. max and rows 0 .. 2*max are in one-to-one correspondence. */
  lemma LevelRows(max: nat, n: nat)
    requires n == 2 * max + 1
    ensures forall level :: 0 <= level + max && level <= max ==>
      LevelOfRow(LevelIndex(level, n), max) == level
    ensures forall i: nat :: i < n ==>
      0 <= LevelOfRow(i, max) + max && LevelOfRow(i, max) <= max &&
      LevelIndex(LevelOfRow(i, max), n) == i
  {
  }

  predicate SaturationInRange(level: int) { -4 <= level <= 4 }
  predicate ContrastInRange(level: int) { -3 <= level <= 3 }
  predicate ExposureInRange(level: int) { -3 <= level <= 3 }
  predicate BrightnessInRange(level: int) { -4 <= level <= 4 }

  // ---------------------------------------------------------------------------
  // Group 3 (_write_group_3_settings)
  // ---------------------------------------------------------------------------

  /** Open group 3, the payload, then close and launch group 3. */
  function GroupEvents(payload: seq<Event>): (t: seq<Event>)
    ensures |t| == |payload| + 3
    ensures t[0] == Write(GroupAccess, 0x03)
    ensures t[1..|t| - 2] == payload
    ensures t[|t| - 2..] == [Write(GroupAccess, 0x13), Write(GroupAccess, 0xA3)]
  {
    [Write(GroupAccess, 0x03)] + payload + [Write(GroupAccess, 0x13), Write(GroupAccess, 0xA3)]
  }

  /** A group-3 update plays its payload with 0x3212 at 0x03 and leaves
      0x3212 at 0xA3 (launched). */
  lemma GroupEffect(m: RegisterFile, payload: seq<Event>)
    ensures Replay(m, GroupEvents(payload)) ==
      Replay(m[GroupAccess := 0x03], payload)[GroupAccess := 0xA3]
  {
    var open, close := [Write(GroupAccess, 0x03)], [Write(GroupAccess, 0x13), Write(GroupAccess, 0xA3)];
    ReplayConcat(m, open + payload, close);
    ReplayConcat(m, open, payload);
    ReplaySingle(m, open[0]);
    var r: RegisterFile := Replay(Replay(m, open), payload);
    assert close[..1] == [close[0]];
    ReplaySingle(r, close[0]);
    assert Replay(r, close) == r[GroupAccess := 0x13][GroupAccess := 0xA3];
  }

  /** Closing and launching group 3 leaves 0x3212 at 0xA3 (launched). */
  lemma GroupClose(m: RegisterFile)
    ensures m[GroupAccess := 0x13][GroupAccess := 0xA3] == m[GroupAccess := 0xA3]
  {
  }

  /** The register file seen by the payload of a group-3 update. */
  lemma GroupPayload(m: RegisterFile, payload: seq<Event>, a: Addr)
    requires a != GroupAccess
    ensures SameAt(Replay(m, GroupEvents(payload)), Replay(m[GroupAccess := 0x03], payload), a)
    ensures GroupAccess in Replay(m, GroupEvents(payload))
    ensures Replay(m, GroupEvents(payload))[GroupAccess] == 0xA3
  {
    GroupEffect(m, payload);
  }

  // ---------------------------------------------------------------------------
  // Saturation and exposure
  // ---------------------------------------------------------------------------

  /** setSaturation: nothing when out of range, else the level's row of 11
      values from 0x5381 upward. */
  function SaturationEvents(level: int): (t: seq<Event>)
    ensures !SaturationInRange(level) ==> t == []
    ensures SaturationInRange(level) ==> |t| == NumSatValuesPerLevel
  {
    if !SaturationInRange(level) then []
    else ZipWrites(Span(ColorMatrixBase, NumSatValuesPerLevel),
                   SaturationLevels[LevelIndex(level, NumSaturationLevels)])
  }

  /** setExposure: nothing when out of range, else the level's row of 6
      values, also from 0x5381 upward. */
  function ExposureEvents(level: int): (t: seq<Event>)
    ensures !ExposureInRange(level) ==> t == []
    ensures ExposureInRange(level) ==> |t| == NumEvValuesPerLevel
  {
    if !ExposureInRange(level) then []
    else ZipWrites(Span(ColorMatrixBase, NumEvValuesPerLevel),
                   EvLevels[LevelIndex(level, NumEvLevels)])
  }

  /** The colour-matrix registers 0x5381 .. 0x5381 + n - 1. */
  predicate InColorMatrix(a: Addr, n: nat)
  {
    ColorMatrixBase <= a < ColorMatrixBase + n
  }

  /** Writing a row from 0x5381 upward: register 0x5381 + k holds entry k,
      and no other register changes. */
  lemma ColorMatrixRowEffect(m: RegisterFile, row: seq<Byte>)
    requires |row| <= 0x100
    ensures var r := Replay(m, ZipWrites(Span(ColorMatrixBase, |row|), row));
      && (forall a: Addr :: InColorMatrix(a, |row|) ==> a in r && r[a] == row[a - ColorMatrixBase])
      && (forall a: Addr :: !InColorMatrix(a, |row|) ==> SameAt(r, m, a))
  {
    var addrs := Span(ColorMatrixBase, |row|);
    ZipEffect(m, addrs, row);
    var r := Replay(m, ZipWrites(addrs, row));
    forall a: Addr | InColorMatrix(a, |row|)
      ensures a in r && r[a] == row[a - ColorMatrixBase]
    {
      SpanAt(ColorMatrixBase, |row|, a);
    }
    forall a: Addr | !InColorMatrix(a, |row|)
      ensures SameAt(r, m, a)
    {
      SpanAt(ColorMatrixBase, |row|, a);
    }
  }

  /** After setSaturation with an in-range level, 0x5381 + k holds entry k of
      the level's row for k < 11, and nothing else has changed. */
  lemma SaturationEffect(m: RegisterFile, level: int)
    requires SaturationInRange(level)
    ensures var r, row := Replay(m, SaturationEvents(level)), SaturationLevels[LevelIndex(level, 9)];
      && (forall a: Addr :: InColorMatrix(a, NumSatValuesPerLevel) ==>
            a in r && r[a] == row[a - ColorMatrixBase])
      && (forall a: Addr :: !InColorMatrix(a, NumSatValuesPerLevel) ==> SameAt(r, m, a))
  {
    ColorMatrixRowEffect(m, SaturationLevels[LevelIndex(level, 9)]);
  }

  /** After setExposure with an in-range level, 0x5381 + k holds entry k of
      the level's row for k < 6, and nothing else has changed. */
  lemma ExposureEffect(m: RegisterFile, level: int)
    requires ExposureInRange(level)
    ensures var r, row := Replay(m, ExposureEvents(level)), EvLevels[LevelIndex(level, 7)];
      && (forall a: Addr :: InColorMatrix(a, NumEvValuesPerLevel) ==>
            a in r && r[a] == row[a - ColorMatrixBase])
      && (forall a: Addr :: !InColorMatrix(a, NumEvValuesPerLevel) ==> SameAt(r, m, a))
  {
    ColorMatrixRowEffect(m, EvLevels[LevelIndex(level, 7)]);
  }

  /** Saturation and exposure share registers: an exposure change overwrites
      the first six colour-matrix entries of the saturation row and keeps the
      last five. */
  lemma ExposureOverwritesSaturation(m: RegisterFile, sat: int, ev: int)
    requires SaturationInRange(sat) && ExposureInRange(ev)
    ensures var r := Replay(Replay(m, SaturationEvents(sat)), ExposureEvents(ev));
      && (forall a: Addr :: InColorMatrix(a, NumEvValuesPerLevel) ==>
            a in r && r[a] == EvLevels[LevelIndex(ev, 7)][a - ColorMatrixBase])
      && (forall a: Addr :: InColorMatrix(a, NumSatValuesPerLevel) && !InColorMatrix(a, NumEvValuesPerLevel) ==>
            a in r && r[a] == SaturationLevels[LevelIndex(sat, 9)][a - ColorMatrixBase])
  {
    SaturationEffect(m, sat);
    ExposureEffect(Replay(m, SaturationEvents(sat)), ev);
  }

  // ---------------------------------------------------------------------------
  // Contrast and brightness (group-3 updates)
  // ---------------------------------------------------------------------------

  /** The two contrast rows written for an in-range level. */
  function ContrastSettingsOf(level: int): (l: seq<Entry>)
    requires ContrastInRange(level)
    ensures |l| == 2
    ensures l[0] == Entry(0x5586, ContrastSettings[LevelIndex(level, NumContrastLevels)][0])
    ensures l[1] == Entry(0x5585, ContrastSettings[LevelIndex(level, NumContrastLevels)][1])
  {
    var row := ContrastSettings[LevelIndex(level, NumContrastLevels)];
    [Entry(0x5586, row[0]), Entry(0x5585, row[1])]
  }

  /** setContrast: nothing when out of range, else a group-3 update of 0x5586
      and 0x5585. */
  function ContrastEvents(level: int): (t: seq<Event>)
    ensures !ContrastInRange(level) ==> t == []
  {
    if !ContrastInRange(level) then [] else GroupEvents(ListEvents(ContrastSettingsOf(level)))
  }

  /** After setContrast with an in-range level, 0x5586 and 0x5585 hold the
      level's row, group 3 is launched, and no other register has changed. */
  lemma ContrastEffect(m: RegisterFile, level: int)
    requires ContrastInRange(level)
    ensures var r, row := Replay(m, ContrastEvents(level)), ContrastSettings[LevelIndex(level, 7)];
      && 0x5586 in r && 0x5585 in r && GroupAccess in r
      && r[0x5586] as bv16 == row[0] && r[0x5585] as bv16 == row[1]
      && r[GroupAccess] == 0xA3
    ensures forall a: Addr :: a != GroupAccess && a != 0x5586 && a != 0x5585 ==>
      SameAt(Replay(m, ContrastEvents(level)), m, a)
  {
    var l := ContrastSettingsOf(level);
    var m0 := m[GroupAccess := 0x03];
    forall a: Addr | a != GroupAccess && a != 0x5586 && a != 0x5585
      ensures SameAt(Replay(m, ContrastEvents(level)), m, a)
    {
      GroupPayload(m, ListEvents(l), a);
      ListUntouched(m0, l, a);
    }
    GroupPayload(m, ListEvents(l), 0x5586);
    GroupPayload(m, ListEvents(l), 0x5585);
    ListLastWins(m0, l, 0);
    ListLastWins(m0, l, 1);
    var row := ContrastSettings[LevelIndex(level, 7)];
    assert row[0] & 0xFF == row[0] && row[1] & 0xFF == row[1];
  }

  /** |level| << 4 as uint16_t, and the sign code 0x09 (negative) or 0x01. */
  function BrightnessSettings(level: int): (l: seq<Entry>)
    requires BrightnessInRange(level)
    ensures |l| == 2 && l[0].addr == 0x5587 && l[1].addr == 0x5588
    ensures l[0].value as int == (if level < 0 then -level else level) * 16
    ensures l[1].value == if level < 0 then 0x09 else 0x01
  {
    var magnitude := if level < 0 then -level else level;
    [Entry(0x5587, (magnitude as bv16) << 4), Entry(0x5588, if level < 0 then 0x09 else 0x01)]
  }

  /** setBrightness: nothing when out of range, else a group-3 update of
      0x5587 (magnitude) and 0x5588 (sign). */
  function BrightnessEvents(level: int): (t: seq<Event>)
    ensures !BrightnessInRange(level) ==> t == []
  {
    if !BrightnessInRange(level) then [] else GroupEvents(ListEvents(BrightnessSettings(level)))
  }

  /** The level a brightness register pair encodes. */
  function BrightnessOf(magnitude: Byte, sign: Byte): int
  {
    var v := (magnitude >> 4) as int;
    if sign == 0x09 then -v else v
  }

  /** After setBrightness with an in-range level, 0x5587 holds |level| * 16,
      0x5588 holds 0x09 exactly when the level is negative and 0x01
      otherwise, the pair decodes back to the level, group 3 is launched, and
      no other register has changed. */
  lemma BrightnessEffect(m: RegisterFile, level: int)
    requires BrightnessInRange(level)
    ensures var r := Replay(m, BrightnessEvents(level));
      && 0x5587 in r && 0x5588 in r && GroupAccess in r
      && r[0x5587] as int == (if level < 0 then -level else level) * 16
      && r[0x5588] == (if level < 0 then 0x09 else 0x01)
      && BrightnessOf(r[0x5587], r[0x5588]) == level
      && r[GroupAccess] == 0xA3
    ensures forall a: Addr :: a != GroupAccess && a != 0x5587 && a != 0x5588 ==>
      SameAt(Replay(m, BrightnessEvents(level)), m, a)
  {
    var l := BrightnessSettings(level);
    var m0 := m[GroupAccess := 0x03];
    forall a: Addr | a != GroupAccess && a != 0x5587 && a != 0x5588
      ensures SameAt(Replay(m, BrightnessEvents(level)), m, a)
    {
      GroupPayload(m, ListEvents(l), a);
      ListUntouched(m0, l, a);
    }
    GroupPayload(m, ListEvents(l), 0x5587);
    GroupPayload(m, ListEvents(l), 0x5588);
    ListLastWins(m0, l, 0);
    ListLastWins(m0, l, 1);
    MagnitudeByte(if level < 0 then -level else level);
  }

  lemma MagnitudeByte(v: int)
    requires 0 <= v <= 4
    ensures var b := Truncate8((v as bv16) << 4); b as int == v * 16 && (b >> 4) as int == v
  {
  }

  // ---------------------------------------------------------------------------
  // White balance and special effects (table rows, no range check)
  // ---------------------------------------------------------------------------

  /** setWhiteBalance: a group-3 update writing the mode's row to the light
      registers. */
  function WhiteBalanceEvents(mode: nat): (t: seq<Event>)
    requires mode < NumWhiteBalanceLevels
    ensures |t| == NumWhiteBalancePerLevel + 3
  {
    GroupEvents(ZipWrites(LightRegisters, LightModes[mode]))
  }

  /** The setWhiteBalance trace opens group 3, writes the mode's entries to
      the light registers in table order, then closes and launches group 3. */
  lemma WhiteBalanceWrites(mode: nat)
    requires mode < NumWhiteBalanceLevels
    ensures var t := WhiteBalanceEvents(mode);
      && t[0] == Write(GroupAccess, 0x03)
      && (forall k :: 0 <= k < NumWhiteBalancePerLevel ==>
            t[k + 1] == Write(LightRegisters[k], LightModes[mode][k]))
      && t[|t| - 2] == Write(GroupAccess, 0x13) && t[|t| - 1] == Write(GroupAccess, 0xA3)
  {
    var payload := ZipWrites(LightRegisters, LightModes[mode]);
    var t := WhiteBalanceEvents(mode);
    forall k | 0 <= k < NumWhiteBalancePerLevel
      ensures t[k + 1] == Write(LightRegisters[k], LightModes[mode][k])
    {
      assert t[k + 1] == t[1..|t| - 2][k] == payload[k];
    }
  }

  /** After setWhiteBalance each light register holds the mode's entry,
      group 3 is launched, and no other register has changed. */
  lemma WhiteBalanceEffect(m: RegisterFile, mode: nat)
    requires mode < NumWhiteBalanceLevels
    ensures var r := Replay(m, WhiteBalanceEvents(mode));
      && (forall k :: 0 <= k < NumWhiteBalancePerLevel ==>
            LightRegisters[k] in r && r[LightRegisters[k]] == LightModes[mode][k])
      && GroupAccess in r && r[GroupAccess] == 0xA3
    ensures forall a: Addr :: a != GroupAccess && a !in LightRegisters ==>
      SameAt(Replay(m, WhiteBalanceEvents(mode)), m, a)
  {
    var payload := ZipWrites(LightRegisters, LightModes[mode]);
    var m0 := m[GroupAccess := 0x03];
    assert Distinct(LightRegisters);
    ZipEffect(m0, LightRegisters, LightModes[mode]);
    forall a: Addr | a != GroupAccess && a !in LightRegisters
      ensures SameAt(Replay(m, WhiteBalanceEvents(mode)), m, a)
    {
      GroupPayload(m, payload, a);
    }
    forall k | 0 <= k < NumWhiteBalancePerLevel
      ensures SameAt(Replay(m, WhiteBalanceEvents(mode)), Replay(m0, payload), LightRegisters[k])
    {
      GroupPayload(m, payload, LightRegisters[k]);
    }
    GroupEffect(m, payload);
  }

  /** setSpecialEffect: the effect's row to 0x5580, 0x5583, 0x5584, 0x5003. */
  function SpecialEffectEvents(effect: nat): (t: seq<Event>)
    requires effect < |SpecialEffects|
    ensures |t| == |SpecialEffectRegisters|
    ensures forall k :: 0 <= k < |SpecialEffectRegisters| ==>
      t[k] == Write(SpecialEffectRegisters[k], SpecialEffects[effect][k])
  {
    ZipWrites(SpecialEffectRegisters, SpecialEffects[effect])
  }

  /** After setSpecialEffect each effect register holds the effect's entry
      and nothing else has changed. */
  lemma SpecialEffectEffect(m: RegisterFile, effect: nat)
    requires effect < |SpecialEffects|
    ensures var r := Replay(m, SpecialEffectEvents(effect));
      forall k :: 0 <= k < |SpecialEffectRegisters| ==>
        SpecialEffectRegisters[k] in r && r[SpecialEffectRegisters[k]] == SpecialEffects[effect][k]
    ensures forall a :: a !in SpecialEffectRegisters ==>
      SameAt(Replay(m, SpecialEffectEvents(effect)), m, a)
  {
    assert Distinct(SpecialEffectRegisters);
    ZipEffect(m, SpecialEffectRegisters, SpecialEffects[effect]);
  }

  // ---------------------------------------------------------------------------
  // Night mode and test pattern
  // ---------------------------------------------------------------------------

  /** setNight: read-modify-write of bit 2 of 0x3A00, given the value read. */
  function NightEvents(current: Byte, enable: bool): (t: seq<Event>)
    ensures |t| == 1 && t[0].Write? && t[0].reg == AecPowerDomain
  {
    [Write(AecPowerDomain, MaskBits(current, AecPowerDomainNightMask, enable))]
  }

  /** setNight changes bit 2 of 0x3A00 and nothing else. */
  lemma NightOnlyBit2(m: RegisterFile, enable: bool)
    ensures var r := Replay(m, NightEvents(Peek(m, AecPowerDomain), enable));
      && AecPowerDomain in r
      && (r[AecPowerDomain] & 0x04 == 0x04) == enable
      && r[AecPowerDomain] & 0xFB == Peek(m, AecPowerDomain) & 0xFB
      && forall a :: a != AecPowerDomain ==> SameAt(r, m, a)
  {
    ReplaySingle(m, NightEvents(Peek(m, AecPowerDomain), enable)[0]);
  }

  /** testPattern: bit 7 of 0x503D, all other bits cleared. */
  function TestPatternEvents(enable: bool): (t: seq<Event>)
    ensures |t| == 1 && t[0].Write? && t[0].reg == PreIspTestSetting1
    ensures (t[0].value & 0x80 == 0x80) == enable && t[0].value & 0x7F == 0
  {
    [Write(PreIspTestSetting1, if enable then 0x80 else 0)]
  }
}
