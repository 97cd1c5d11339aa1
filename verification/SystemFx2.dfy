/**
 The command-34 effects of `systemfx2.py` and the rewrites `device.py` makes of them: one table
 of bit slots per effect, page and colour mode.
 */
module SystemFx2 {
  import opened Prelude
  import opened Bits
  import opened Slots

  const CMD_SYSTEM_EFFECT_2 := 34

  const PAPARAZZI_II := 0
  const LIGHTNING_II := 1
  const TV_II := 2
  const FIRE_II := 3
  const STROBE_II := 4
  const EXPLOSION_II := 5
  const FAULTY_BULB_II := 6
  const PULSING_II := 7
  const WELDING_II := 8
  const COP_CAR_II := 9
  const PARTY_LIGHTS_II := 10
  const FIREWORKS_II := 11
  const LIGHTNING_III := 12
  const TV_III := 13
  const FIRE_III := 14
  const FAULTY_BULB_III := 15
  const PULSING_III := 16
  const COP_CAR_III := 17

  function Cct(name: Name, start: nat): Slot
  {
    Slot(name, start, 9, 0x1FF, 50)
  }

  // ----- Tables -----

  predicate IsDual(effect: nat)
  {
    (effect == PAPARAZZI_II || effect == WELDING_II || effect == LIGHTNING_III || effect == TV_III || effect == FIRE_III || effect == FAULTY_BULB_III)
  }

  /** Where the colour part ends, downwards: its mode bits start at `at`; `gels` if modes past 1 carry gels. */
  function ColorSlots(mode: nat, at: nat, gels: bool): seq<Slot>
    requires at >= 25
  {
    if mode == 0 then [Plain(Mode, at, 3, 7), Cct(Kelvin, at - 9), Plain(Gm, at - 17, 8, 0xFF)]
    else if mode == 1 || !gels then
      [Plain(Mode, at, 3, 7), Plain(Hue, at - 9, 9, 0x1FF), Plain(Saturation, at - 16, 7, 0x7F), Cct(CenterKelvin, at - 25)]
    else
      [Plain(Mode, at, 3, 7), Cct(GelKelvin, at - 9), Plain(GelOrigin, at - 10, 1, 1), Plain(GelType, at - 14, 4, 15),
       Plain(Color, at - 24, 10, 0x3FF)]
  }

  function RangeSlots(mode: nat, at: nat): seq<Slot>
    requires at >= 34
  {
    if mode == 0 then
      [Plain(Mode, at, 3, 7), Cct(MaxKelvin, at - 9), Cct(MinKelvin, at - 18), Plain(Gm, at - 26, 8, 0xFF)]
    else
      [Plain(Mode, at, 3, 7), Plain(MaxHue, at - 9, 9, 0x1FF), Plain(MinHue, at - 18, 9, 0x1FF),
       Plain(Saturation, at - 25, 7, 0x7F), Cct(CenterKelvin, at - 34)]
  }

  /** Where a page keeps its colour mode, if it has one. */
  function ModeAt(effect: nat, page: nat): Option<nat>
  {
    if IsDual(effect) then (if page == 0 then None else Some(58))
    else if (effect == LIGHTNING_II || effect == FAULTY_BULB_II || effect == PULSING_II || effect == PULSING_III) then Some(41)
    else if (effect == TV_II || effect == FIRE_II || effect == STROBE_II || effect == EXPLOSION_II) then Some(45)
    else None
  }

  predicate HasRange(effect: nat)
  {
    (effect == TV_II || effect == FIRE_II || effect == TV_III || effect == FIRE_III)
  }

  function ColorPart(effect: nat, mode: nat, at: nat): seq<Slot>
    requires at >= 34
  {
    if HasRange(effect) then RangeSlots(mode, at) else ColorSlots(mode, at, effect != LIGHTNING_II)
  }

  /** The slots before the colour part. */
  function LeadPart(effect: nat, page: nat): seq<Slot>
  {
    if IsDual(effect) then
      if page != 0 then []
      else if (effect == PAPARAZZI_II || effect == LIGHTNING_III || effect == TV_III || effect == FAULTY_BULB_III) then
        [Plain(Intensity, 51, 10, 1000), Plain(GapTime, 42, 9, 0x1FF), Plain(MinGapTime, 33, 9, 0x1FF)]
      else if effect == WELDING_II then
        [Plain(Intensity, 51, 10, 1000), Plain(MinIntensity, 41, 10, 1000), Plain(Frequency, 37, 4, 15)]
      else [Plain(Intensity, 51, 10, 1000), Plain(Frequency, 43, 8, 0xFF)]
    else if effect == PULSING_III then [Plain(Intensity, 52, 10, 1000), Plain(Frequency, 44, 8, 0xFF)]
    else if effect == LIGHTNING_II then
      [Plain(Intensity, 52, 10, 1000), Plain(Frequency, 48, 4, 15), Plain(Speed, 44, 4, 15)]
    else if (effect == FAULTY_BULB_II || effect == PULSING_II) then
      [Plain(Intensity, 52, 10, 1000), Plain(Speed, 48, 4, 15), Plain(Frequency, 44, 4, 15)]
    else if (effect == TV_II || effect == FIRE_II || effect == STROBE_II) then [Plain(Intensity, 52, 10, 1000), Plain(Speed, 48, 4, 15)]
    else if effect == EXPLOSION_II then [Plain(Intensity, 52, 10, 1000), Plain(Decay, 48, 4, 15)]
    else if (effect == COP_CAR_II || effect == COP_CAR_III) then
      [Plain(Intensity, 52, 10, 1000), Plain(Frequency, 48, 4, 15), Plain(Color, 45, 3, 7)]
    else if effect == PARTY_LIGHTS_II then
      [Plain(Intensity, 52, 10, 1000), Plain(Saturation, 42, 10, 0x3FF), Plain(Speed, 36, 6, 0x3F)]
    else
      [Plain(Intensity, 52, 10, 1000), Plain(GapTime, 43, 9, 0x1FF), Plain(MinGapTime, 34, 9, 0x1FF),
       Plain(Variant, 32, 2, 3)]
  }

  function Layout(effect: nat, page: nat, mode: nat): seq<Slot>
  {
    var at := ModeAt(effect, page);
    LeadPart(effect, page) + (if at.Some? then ColorPart(effect, mode, at.value) else [])
  }

  lemma DualLeadStacked(effect: nat, page: nat)
    requires IsDual(effect)
    ensures Stacked(LeadPart(effect, page), 61)
  {
  }

  lemma ColoredLeadStacked(effect: nat, page: nat)
    requires !IsDual(effect) && ModeAt(effect, page).Some?
    ensures Stacked(LeadPart(effect, page), 62)
  {
  }

  lemma PlainLeadStacked(effect: nat, page: nat)
    requires !IsDual(effect) && ModeAt(effect, page).None?
    ensures Stacked(LeadPart(effect, page), 62)
  {
  }

  lemma LeadStacked(effect: nat, page: nat)
    ensures Stacked(LeadPart(effect, page), if IsDual(effect) then 61 else 62)
  {
    hide LeadPart, Stacked;
    if IsDual(effect) {
      DualLeadStacked(effect, page);
    } else if ModeAt(effect, page).Some? {
      ColoredLeadStacked(effect, page);
    } else {
      PlainLeadStacked(effect, page);
    }
  }

  lemma LeadNames(effect: nat, page: nat)
    ensures var lead := LeadPart(effect, page);
            DistinctNames(lead) && (forall i :: 0 <= i < |lead| ==> lead[i].name != Mode)
            && (ModeAt(effect, page).Some? && |lead| > 0 ==> ModeAt(effect, page).value + 3 <= lead[|lead| - 1].start)
  {
  }

  lemma ColorSlotsStacked(mode: nat, at: nat, gels: bool)
    requires at >= 33
    ensures Stacked(ColorSlots(mode, at, gels), at + 3)
  {
  }

  lemma RangeSlotsStacked(mode: nat, at: nat)
    requires at >= 42
    ensures Stacked(RangeSlots(mode, at), at + 3)
  {
  }

  lemma ColorStacked(effect: nat, mode: nat, at: nat)
    requires at >= 42 || (at == 41 && !HasRange(effect))
    ensures Stacked(ColorPart(effect, mode, at), at + 3)
  {
    hide ColorSlots, RangeSlots, Stacked;
    if HasRange(effect) {
      RangeSlotsStacked(mode, at);
    } else {
      ColorSlotsStacked(mode, at, effect != LIGHTNING_II);
    }
  }

  lemma ColorNames(effect: nat, mode: nat, at: nat)
    requires at >= 42 || (at == 41 && !HasRange(effect))
    ensures var part := ColorPart(effect, mode, at);
            DistinctNames(part) && |part| > 0 && part[0] == Plain(Mode, at, 3, 7)
  {
  }

  lemma LayoutStacked(effect: nat, page: nat, mode: nat)
    ensures Stacked(Layout(effect, page, mode), if IsDual(effect) then 61 else 62)
  {
    LeadStacked(effect, page);
    LeadNames(effect, page);
    var at := ModeAt(effect, page);
    if at.Some? {
      ModeBelow(effect, page);
      ColorStacked(effect, mode, at.value);
      hide LeadPart, ColorPart, Room, IsDual, ModeAt, DistinctNames;
      StackedOn(LeadPart(effect, page), ColorPart(effect, mode, at.value), if IsDual(effect) then 61 else 62,
                at.value + 3);
    } else {
      hide LeadPart, Room, IsDual;
      assert Layout(effect, page, mode) == LeadPart(effect, page);
    }
  }

  lemma ModeBelow(effect: nat, page: nat)
    requires ModeAt(effect, page).Some?
    ensures ModeAt(effect, page).value + 3 <= if IsDual(effect) then 61 else 62
    ensures ModeAt(effect, page).value >= 42 || (ModeAt(effect, page).value == 41 && !HasRange(effect))
  {
  }

  /** Names only the lead part uses beside a colour part. */
  predicate IsLead(name: Name)
  {
    name in {Intensity, Frequency, Speed, GapTime, MinGapTime, Decay, MinIntensity}
  }

  lemma LeadApart(effect: nat, page: nat, mode: nat)
    requires ModeAt(effect, page).Some?
    ensures forall i :: 0 <= i < |LeadPart(effect, page)| ==> IsLead(LeadPart(effect, page)[i].name)
    ensures forall i :: 0 <= i < |ColorPart(effect, mode, ModeAt(effect, page).value)| ==>
      !IsLead(ColorPart(effect, mode, ModeAt(effect, page).value)[i].name)
  {
  }

  lemma LayoutNames(effect: nat, page: nat, mode: nat)
    ensures DistinctNames(Layout(effect, page, mode))
  {
    LeadNames(effect, page);
    var at := ModeAt(effect, page);
    if at.Some? {
      ColorNames(effect, mode, at.value);
      LeadApart(effect, page, mode);
    }
    hide LeadPart, ColorPart, IsLead;
  }

  // ----- Packets -----

  datatype Error = ValueError

  /** `_clamp(mode, 0, 7)`, which also picks the colour layout; pages without a mode have one layout. */
  function ModeOf(effect: nat, page: nat, values: Values): nat
  {
    if ModeAt(effect, page).None? || Mode !in values then 0 else Max(0, Min(values[Mode], 7))
  }

  function HeaderFields(effect: nat, state: nat, page: nat): seq<Placed>
  {
    [Placed(1, 79, 1), Placed(CMD_SYSTEM_EFFECT_2, 72, 7), Placed(effect, 64, 8), Placed(state, 62, 2)]
    + (if IsDual(effect) then [Placed(page, 61, 1)] else [])
  }

  function PacketFields(effect: nat, state: nat, page: nat, values: Values): seq<Placed>
    requires Provided(Layout(effect, page, ModeOf(effect, page, values)), values)
  {
    LayoutStacked(effect, page, ModeOf(effect, page, values));
    HeaderFields(effect, state, page) + PlacedSlots(Layout(effect, page, ModeOf(effect, page, values)), values)
  }

  /** `effect2_packet`; a single-page effect ignores `page`. */
  function EncodePage(effect: nat, state: nat, page: nat, values: Values): Result<Bytes, Error>
  {
    if !Provided(Layout(effect, page, ModeOf(effect, page, values)), values) then Err(ValueError)
    else Ok(Finalize(Pack(PacketFields(effect, Min(state, 3), page, values))))
  }

  /**
   The builder itself, accumulating one field at a time. It raises for exactly the missing
   parameters, and an effect's own page decodes to what was stored of them.
   */
  method BuildPage(effect: nat, state: nat, page: nat, values: Values) returns (r: Result<Bytes, Error>)
    ensures r == EncodePage(effect, state, page, values)
    ensures r.Ok? <==> Provided(Layout(effect, page, ModeOf(effect, page, values)), values)
    ensures r.Ok? && effect <= COP_CAR_III && state <= 3 && (if IsDual(effect) then page <= 1 else page == 0) ==>
              Decode(r.value) == Some(Page(effect, state, page, values))
  {
    if Provided(Layout(effect, page, ModeOf(effect, page, values)), values)
       && effect <= COP_CAR_III && state <= 3 && (if IsDual(effect) then page <= 1 else page == 0) {
      PageRoundTrip(effect, state, page, values);
    }
    hide Layout, Decode, Page, IsDual, ModeOf, Finalize, Pack;
    if !Provided(Layout(effect, page, ModeOf(effect, page, values)), values) {
      return Err(ValueError);
    }
    var payload := BuildPayload(PacketFields(effect, Min(state, 3), page, values));
    return Ok(payload);
  }

  /** One decoded page, or a merged two-page state; `on` is `state != 0`. */
  datatype State = State(effect: nat, state: nat, package: Option<nat>, values: Values)

  /** `decode_effect2` */
  function Decode(payload: Bytes): Option<State>
  {
    if |payload| != 10 || payload[0] != Checksum(payload) || payload[9] % 128 != CMD_SYSTEM_EFFECT_2 then None
    else
      var n := FromLittleEndian(payload);
      var effect := Field(n, 64, 8);
      if effect > COP_CAR_III then None
      else
        var page := if IsDual(effect) then Field(n, 61, 1) else 0;
        var at := ModeAt(effect, page);
        var mode := if at.Some? then Field(n, at.value, 3) else 0;
        Some(State(effect, Field(n, 62, 2), if IsDual(effect) then Some(page) else None,
                   ReadSlots(n, Layout(effect, page, mode))))
  }

  // ----- One page there and back -----

  lemma HeaderDisjoint(effect: nat, state: nat, page: nat)
    requires effect <= COP_CAR_III && state <= 3 && (IsDual(effect) ==> page <= 1)
    ensures var header := HeaderFields(effect, state, page);
            PairwiseDisjoint(header) && AllFit(header)
            && forall i :: 0 <= i < |header| ==>
                 (if IsDual(effect) then 61 else 62) <= header[i].start && header[i].End() <= 80
  {
    RoomIsPow2(1);
    RoomIsPow2(2);
    RoomIsPow2(7);
    RoomIsPow2(8);
    hide Pow2;
  }

  /** Every field of an encoded page reads back what was put there. */
  lemma PageReads(effect: nat, state: nat, page: nat, values: Values)
    requires effect <= COP_CAR_III && state <= 3 && (IsDual(effect) ==> page <= 1)
    requires Provided(Layout(effect, page, ModeOf(effect, page, values)), values)
    ensures var fields := PacketFields(effect, state, page, values);
            forall i :: 0 <= i < |fields| ==>
              Field(FromLittleEndian(Finalize(Pack(fields))), fields[i].start, fields[i].width) == fields[i].value
  {
    hide Layout, HeaderFields, PlacedSlots, Stacked, ModeOf, IsDual, AllFit, PairwiseDisjoint, Pack, Finalize, Field;
    var slots := Layout(effect, page, ModeOf(effect, page, values));
    var top := if IsDual(effect) then 61 else 62;
    LayoutStacked(effect, page, ModeOf(effect, page, values));
    SlotsDisjoint(slots, values, top);
    HeaderDisjoint(effect, state, page);
    FitTogether(PlacedSlots(slots, values), HeaderFields(effect, state, page));
    JoinDisjoint(PlacedSlots(slots, values), HeaderFields(effect, state, page), top);
    BuiltReads(PacketFields(effect, state, page, values));
  }

  /** What decoding an encoded page yields. */
  function Page(effect: nat, state: nat, page: nat, values: Values): State
    requires Provided(Layout(effect, page, ModeOf(effect, page, values)), values)
  {
    LayoutStacked(effect, page, ModeOf(effect, page, values));
    State(effect, state, if IsDual(effect) then Some(page) else None,
          StoredSlots(Layout(effect, page, ModeOf(effect, page, values)), values))
  }

  lemma HeaderReads(effect: nat, state: nat, page: nat, values: Values)
    requires effect <= COP_CAR_III && state <= 3 && (IsDual(effect) ==> page <= 1)
    requires Provided(Layout(effect, page, ModeOf(effect, page, values)), values)
    ensures var n := FromLittleEndian(Finalize(Pack(PacketFields(effect, state, page, values))));
            Field(n, 72, 7) == CMD_SYSTEM_EFFECT_2 && Field(n, 64, 8) == effect && Field(n, 62, 2) == state
            && (IsDual(effect) ==> Field(n, 61, 1) == page)
  {
    PageReads(effect, state, page, values);
    hide Layout, Field, Finalize, Pack, PlacedSlots;
    var fields := PacketFields(effect, state, page, values);
    assert fields[1] == Placed(CMD_SYSTEM_EFFECT_2, 72, 7) && fields[2] == Placed(effect, 64, 8);
    assert fields[3] == Placed(state, 62, 2);
    if IsDual(effect) {
      assert fields[4] == Placed(page, 61, 1);
    }
  }

  lemma LayoutReads(effect: nat, state: nat, page: nat, values: Values)
    requires effect <= COP_CAR_III && state <= 3 && (IsDual(effect) ==> page <= 1)
    requires Provided(Layout(effect, page, ModeOf(effect, page, values)), values)
    ensures var n := FromLittleEndian(Finalize(Pack(PacketFields(effect, state, page, values))));
            var slots := Layout(effect, page, ModeOf(effect, page, values));
            (forall i :: 0 <= i < |slots| ==> slots[i].unit > 0)
            && ReadSlots(n, slots) == StoredSlots(slots, values)
            && (ModeAt(effect, page).Some? ==>
                  Field(n, ModeAt(effect, page).value, 3) == ModeOf(effect, page, values))
  {
    hide Field, Finalize, Pack, Layout, HeaderFields, IsDual, ModeAt, ModeOf, ReadSlots, StoredSlots;
    var mode := ModeOf(effect, page, values);
    var slots := Layout(effect, page, mode);
    var fields := PacketFields(effect, state, page, values);
    var n := FromLittleEndian(Finalize(Pack(fields)));
    PageReads(effect, state, page, values);
    LayoutStacked(effect, page, mode);
    var h := |HeaderFields(effect, state, page)|;
    forall i | 0 <= i < |slots|
      ensures Field(n, slots[i].start, slots[i].width) == slots[i].Wire(values[slots[i].name])
    {
      assert fields[h + i] == PlacedSlots(slots, values)[i];
    }
    SlotsRead(n, slots, values);
    ModeReads(n, effect, page, values);
  }

  /** The colour mode's own field holds the mode the layout was picked by. */
  lemma ModeReads(n: nat, effect: nat, page: nat, values: Values)
    requires var slots := Layout(effect, page, ModeOf(effect, page, values));
             Provided(slots, values)
             && forall i :: 0 <= i < |slots| ==>
                  slots[i].unit > 0 && Field(n, slots[i].start, slots[i].width) == slots[i].Wire(values[slots[i].name])
    ensures ModeAt(effect, page).Some? ==> Field(n, ModeAt(effect, page).value, 3) == ModeOf(effect, page, values)
  {
    ModeSlot(effect, page, ModeOf(effect, page, values));
    hide Field, Layout, ModeAt;
  }

  lemma ModeSlot(effect: nat, page: nat, mode: nat)
    ensures ModeAt(effect, page).Some? ==>
              exists i :: 0 <= i < |Layout(effect, page, mode)|
                          && Layout(effect, page, mode)[i] == Plain(Mode, ModeAt(effect, page).value, 3, 7)
  {
    var at := ModeAt(effect, page);
    if at.Some? {
      ColorNames(effect, mode, at.value);
      assert Layout(effect, page, mode)[|LeadPart(effect, page)|] == ColorPart(effect, mode, at.value)[0];
    }
  }

  /** Decoding an encoded page returns its effect, state bits, page and every slot's stored value, for every layout. */
  lemma PageRoundTrip(effect: nat, state: nat, page: nat, values: Values)
    requires effect <= COP_CAR_III && state <= 3 && (if IsDual(effect) then page <= 1 else page == 0)
    requires Provided(Layout(effect, page, ModeOf(effect, page, values)), values)
    ensures EncodePage(effect, state, page, values).Ok?
    ensures Decode(EncodePage(effect, state, page, values).value) == Some(Page(effect, state, page, values))
  {
    HeaderReads(effect, state, page, values);
    LayoutReads(effect, state, page, values);
    CommandBits(Finalize(Pack(PacketFields(effect, state, page, values))));
    hide Field, Pack, PacketFields, Layout, ReadSlots, StoredSlots, FromLittleEndian;
  }

  // ----- Whole effects -----

  /** The app default `effect2` uses for a parameter it is not given. */
  function Default(effect: nat, name: Name): int
  {
    match name
    case Intensity => if effect == WELDING_II then 500 else 180
    case Frequency => 5
    case Speed => 5
    case Mode => 1
    case Kelvin => 5600
    case Gm => 100
    case Hue => 1
    case Saturation => 100
    case CenterKelvin => if effect == WELDING_II then 12 else 5600
    case MinKelvin => 3200
    case MaxKelvin => 6500
    case MinHue => 1
    case MaxHue => 180
    case MinIntensity => 180
    case GapTime => 60
    case MinGapTime => 20
    case Decay => 5
    case Color => if effect == COP_CAR_II then 4 else 0
    case GelKelvin => 5600
    case GelOrigin => 0
    case GelType => 0
    case _ => 0
  }

  const NAMES := {Intensity, Frequency, Speed, Mode, Kelvin, Gm, Hue, Saturation, CenterKelvin, MinKelvin, MaxKelvin,
                  MinHue, MaxHue, MinIntensity, GapTime, MinGapTime, Decay, Color, GelKelvin, GelOrigin, GelType, Variant, Trigger, CctHigh,
                  CctLow, GmFlag, GmHigh, GmLow}

  function Completed(effect: nat, values: Values): (r: Values)
    ensures forall name :: name in r <==> name in NAMES
  {
    map name | name in NAMES :: if name in values then values[name] else Default(effect, name)
  }

  lemma EveryName(name: Name)
    ensures name in NAMES
  {
  }

  /** `effect2`: generation III has no proven defaults, and two effects need a second page. */
  function Effect2(effect: nat, on: bool, values: Values): Option<seq<Bytes>>
  {
    if effect > FIREWORKS_II then None
    else
      var v := Completed(effect, values);
      var state := if on then 1 else 0;
      var pages := if IsDual(effect) then [EncodePage(effect, 3, 0, v), EncodePage(effect, state, 1, v)]
                   else [EncodePage(effect, state, 0, v)];
      if exists i :: 0 <= i < |pages| && pages[i].Err? then None
      else Some(seq(|pages|, i requires 0 <= i < |pages| => pages[i].value))
  }

  /** `merge_effect2_states` */
  function MergeStates(previous: Option<State>, current: State): State
  {
    if previous.None? || previous.value.effect != current.effect || !IsDual(current.effect) then current
    else if previous.value.package.Some? && previous.value.package == current.package then current
    else
      var source := if current.package == Some(1) then current else previous.value;
      State(current.effect, source.state, None, previous.value.values + current.values)
  }

  /** `_decode_effect2_sequence`, if every payload decodes */
  function DecodeSequence(payloads: seq<Bytes>): Option<State>
  {
    if |payloads| == 0 then None
    else
      var last := Decode(payloads[|payloads| - 1]);
      if last.None? then None else Some(MergeStates(DecodeSequence(payloads[..|payloads| - 1]), last.value))
  }

  /** Every slot of an effect in one colour mode, over both pages. */
  function AllSlots(effect: nat, mode: nat): seq<Slot>
  {
    if IsDual(effect) then Layout(effect, 0, mode) + Layout(effect, 1, mode) else Layout(effect, 0, mode)
  }

  function EffectMode(effect: nat, values: Values): nat
  {
    ModeOf(effect, if IsDual(effect) then 1 else 0, values)
  }

  lemma AllSlotsFit(effect: nat, mode: nat)
    ensures forall i :: 0 <= i < |AllSlots(effect, mode)| ==> AllSlots(effect, mode)[i].unit in {1, 50}
    ensures DistinctNames(AllSlots(effect, mode))
  {
    LayoutStacked(effect, 0, mode);
    LayoutNames(effect, 0, mode);
    if IsDual(effect) {
      LayoutStacked(effect, 1, mode);
      LayoutNames(effect, 1, mode);
      PagesApart(effect, mode);
    }
    hide Layout, LeadPart, Room;
  }

  /** The two pages of an effect share no parameter. */
  lemma PagesApart(effect: nat, mode: nat)
    requires IsDual(effect)
    ensures forall i, j :: 0 <= i < |Layout(effect, 0, mode)| && 0 <= j < |Layout(effect, 1, mode)| ==>
      Layout(effect, 0, mode)[i].name != Layout(effect, 1, mode)[j].name
    ensures forall i :: 0 <= i < |Layout(effect, 0, mode)| ==> IsLead(Layout(effect, 0, mode)[i].name)
    ensures forall i :: 0 <= i < |Layout(effect, 1, mode)| ==> !IsLead(Layout(effect, 1, mode)[i].name)
  {
    LeadApart(effect, 1, mode);
  }

  /** The state an effect's own sequence decodes to. */
  function Whole(effect: nat, on: bool, values: Values): State
    requires Provided(AllSlots(effect, EffectMode(effect, values)), values)
  {
    AllSlotsFit(effect, EffectMode(effect, values));
    State(effect, if on then 1 else 0, None, StoredSlots(AllSlots(effect, EffectMode(effect, values)), values))
  }

  lemma CompletedProvides(effect: nat, values: Values, slots: seq<Slot>)
    ensures Provided(slots, Completed(effect, values))
  {
    forall i | 0 <= i < |slots| ensures slots[i].name in Completed(effect, values) {
      EveryName(slots[i].name);
    }
  }

  /** The state decoded from an encoder's own sequence. */
  function Produced(effect: nat, on: bool, values: Values): State
  {
    CompletedProvides(effect, values, AllSlots(effect, EffectMode(effect, Completed(effect, values))));
    Whole(effect, on, Completed(effect, values))
  }

  /** Decoding the whole sequence of an effect returns every parameter of its colour mode, both pages merged. */
  lemma SequenceRoundTrip(effect: nat, on: bool, values: Values)
    requires effect <= FIREWORKS_II
    ensures Effect2(effect, on, values).Some?
    ensures DecodeSequence(Effect2(effect, on, values).value) == Some(Produced(effect, on, values))
  {
    hide Layout, Decode, Page, Whole, DecodeSequence, EncodePage, Default, IsDual, ModeOf, Completed, AllSlots;
    var v := Completed(effect, values);
    var mode := EffectMode(effect, v);
    var state := if on then 1 else 0;
    CompletedProvides(effect, values, AllSlots(effect, mode));
    CompletedProvides(effect, values, Layout(effect, 0, ModeOf(effect, 0, v)));
    PageRoundTrip(effect, if IsDual(effect) then 3 else state, 0, v);
    if IsDual(effect) {
      CompletedProvides(effect, values, Layout(effect, 1, mode));
      PageRoundTrip(effect, state, 1, v);
      PagesMerge(effect, on, v);
      TwoPages(EncodePage(effect, 3, 0, v).value, EncodePage(effect, state, 1, v).value);
      assert Effect2(effect, on, values).value == [EncodePage(effect, 3, 0, v).value, EncodePage(effect, state, 1, v).value];
    } else {
      SingleDecodes(effect, on, v);
      assert Effect2(effect, on, values).value == [EncodePage(effect, state, 0, v).value];
    }
  }

  lemma SingleDecodes(effect: nat, on: bool, v: Values)
    requires !IsDual(effect)
    requires Provided(Layout(effect, 0, ModeOf(effect, 0, v)), v)
    ensures forall p :: Decode(p) == Some(Page(effect, if on then 1 else 0, 0, v)) ==>
      DecodeSequence([p]) == Some(Whole(effect, on, v))
  {
    hide Decode, Layout;
    forall p | Decode(p) == Some(Page(effect, if on then 1 else 0, 0, v))
      ensures DecodeSequence([p]) == Some(Whole(effect, on, v))
    {
      assert DecodeSequence([p][..0]).None?;
    }
  }

  lemma StackedUnits(slots: seq<Slot>, top: nat)
    requires Stacked(slots, top)
    ensures forall i :: 0 <= i < |slots| ==> slots[i].unit > 0
  {
  }

  lemma PartsFit(effect: nat, mode: nat)
    ensures forall i :: 0 <= i < |Layout(effect, 0, mode)| ==> Layout(effect, 0, mode)[i].unit > 0
    ensures forall i :: 0 <= i < |Layout(effect, 1, mode)| ==> Layout(effect, 1, mode)[i].unit > 0
  {
    hide Layout, Stacked, IsDual;
    LayoutStacked(effect, 0, mode);
    LayoutStacked(effect, 1, mode);
    StackedUnits(Layout(effect, 0, mode), if IsDual(effect) then 61 else 62);
    StackedUnits(Layout(effect, 1, mode), if IsDual(effect) then 61 else 62);
  }

  lemma PagesMerge(effect: nat, on: bool, v: Values)
    requires IsDual(effect)
    requires Provided(Layout(effect, 0, ModeOf(effect, 0, v)), v) && Provided(Layout(effect, 1, ModeOf(effect, 1, v)), v)
    requires Provided(AllSlots(effect, EffectMode(effect, v)), v)
    ensures MergeStates(Some(Page(effect, 3, 0, v)), Page(effect, if on then 1 else 0, 1, v)) == Whole(effect, on, v)
  {
    assert ModeOf(effect, 0, v) == 0 && ModeOf(effect, 1, v) == EffectMode(effect, v) by {
      hide Layout;
    }
    assert AllSlots(effect, EffectMode(effect, v))
           == Layout(effect, 0, EffectMode(effect, v)) + Layout(effect, 1, EffectMode(effect, v)) by {
      hide Layout;
    }
    hide Layout, StoredSlots, ModeOf, ModeAt, Stacked, AllSlots, EffectMode;
    var mode := EffectMode(effect, v);
    PageZeroModeless(effect, mode);
    AllSlotsFit(effect, mode);
    PartsFit(effect, mode);
    StoredAppend(Layout(effect, 0, mode), Layout(effect, 1, mode), v);
  }

  lemma TwoPages(p: Bytes, q: Bytes)
    requires Decode(p).Some? && Decode(q).Some?
    ensures DecodeSequence([p, q]) == Some(MergeStates(Decode(p), Decode(q).value))
  {
    hide Decode;
    var none: seq<Bytes> := [];
    assert [p, q][..1] == [p] && [p][..0] == none;
    assert DecodeSequence(none).None?;
    assert DecodeSequence([p]) == Decode(p);
  }

  lemma PageZeroModeless(effect: nat, mode: nat)
    requires IsDual(effect)
    ensures Layout(effect, 0, mode) == Layout(effect, 0, 0)
  {
  }

  // ----- Two pages in either order -----

  lemma DecodedKeys(p: Bytes)
    requires Decode(p).Some? && IsDual(Decode(p).value.effect)
    ensures var s := Decode(p).value;
            s.package in {Some(0), Some(1)} && forall name :: name in s.values ==> (IsLead(name) <==> s.package == Some(0))
  {
    var n := FromLittleEndian(p);
    var s := Decode(p).value;
    var page := Field(n, 61, 1);
    LowBound(Shr(n, 61), 1);
    assert Pow2(1) == 2;
    var at := ModeAt(s.effect, page);
    var mode := if at.Some? then Field(n, at.value, 3) else 0;
    hide Layout, IsLead, ReadSlots, NamesOf, Field, ModeAt, FromLittleEndian, Checksum;
    ReadKeys(n, Layout(s.effect, page, mode));
    PagesApart(s.effect, mode);
    forall name | name in s.values ensures IsLead(name) <==> s.package == Some(0) {
      NamesAre(Layout(s.effect, page, mode), name);
    }
  }

  lemma UnionCommutes(a: Values, b: Values)
    requires forall name :: !(name in a && name in b)
    ensures a + b == b + a
  {
  }

  /** Two complementary pages merge to the same state whichever is reported first. */
  lemma MergeCommutes(p: Bytes, q: Bytes)
    requires Decode(p).Some? && Decode(q).Some?
    requires Decode(p).value.effect == Decode(q).value.effect && IsDual(Decode(p).value.effect)
    requires Decode(p).value.package != Decode(q).value.package
    ensures MergeStates(Decode(p), Decode(q).value) == MergeStates(Decode(q), Decode(p).value)
    ensures MergeStates(Decode(p), Decode(q).value).package == None
  {
    hide Decode, IsLead, IsDual;
    DecodedKeys(p);
    DecodedKeys(q);
    var a, b := Decode(p).value, Decode(q).value;
    UnionCommutes(a.values, b.values);
  }

  // ----- Rewrites -----

  /** What `device.py` asks to change: the on bit, any parameters, or both. */
  datatype Change = Change(on: Option<bool>, values: Values)

  /** `_effect2_payloads` */
  function Rewritten(s: State, change: Change): Option<seq<Bytes>>
  {
    Effect2(s.effect, if change.on.Some? then change.on.value else s.state != 0, s.values + change.values)
  }

  /** The state with the changes made to what the effect has, and nothing else. */
  function Changed(s: State, change: Change): State
  {
    s.(state := if change.on.None? then s.state else if change.on.value then 1 else 0,
       values := Overlay(s.values, change.values))
  }

  /** The slot of every changed parameter, where the effect has one, reaches the new value in whole steps. */
  ghost predicate Exact(s: State, mode: nat, change: Change)
  {
    forall i :: 0 <= i < |AllSlots(s.effect, mode)| && AllSlots(s.effect, mode)[i].name in change.values ==>
      AllSlots(s.effect, mode)[i].unit > 0
      && Representable(AllSlots(s.effect, mode)[i], change.values[AllSlots(s.effect, mode)[i].name])
  }

  /** The colour mode an effect was stored with is the one it is rewritten with. */
  lemma ModeKept(effect: nat, v: Values, rewritten: Values)
    requires effect <= FIREWORKS_II && Provided(AllSlots(effect, EffectMode(effect, v)), v) && Mode in v
    requires (forall i :: 0 <= i < |AllSlots(effect, EffectMode(effect, v))| ==>
                AllSlots(effect, EffectMode(effect, v))[i].unit > 0)
    requires Mode in StoredSlots(AllSlots(effect, EffectMode(effect, v)), v) ==>
               Mode in rewritten && rewritten[Mode] == StoredSlots(AllSlots(effect, EffectMode(effect, v)), v)[Mode]
    ensures EffectMode(effect, rewritten) == EffectMode(effect, v)
  {
    var page := if IsDual(effect) then 1 else 0;
    var mode := EffectMode(effect, v);
    var slots := AllSlots(effect, mode);
    if ModeAt(effect, page).Some? {
      AllSlotsFit(effect, mode);
      var k := ModeIndex(effect, mode);
      var slot := Plain(Mode, ModeAt(effect, page).value, 3, 7);
      assert slots[k] == slot;
      StoredAt(slots, v, k);
      ModeStored(effect, page, v, slot);
      hide AllSlots, StoredSlots, ModeAt, Slot.Stored, Slot.Wire, DistinctNames;
    }
  }

  /** Where the colour mode is among all slots of an effect that has one. */
  lemma ModeIndex(effect: nat, mode: nat) returns (k: nat)
    requires ModeAt(effect, if IsDual(effect) then 1 else 0).Some?
    ensures k < |AllSlots(effect, mode)|
    ensures AllSlots(effect, mode)[k] == Plain(Mode, ModeAt(effect, if IsDual(effect) then 1 else 0).value, 3, 7)
  {
    var page := if IsDual(effect) then 1 else 0;
    ModeSlot(effect, page, mode);
    hide Layout, ModeAt;
    var i :| 0 <= i < |Layout(effect, page, mode)|
             && Layout(effect, page, mode)[i] == Plain(Mode, ModeAt(effect, page).value, 3, 7);
    k := if IsDual(effect) then |Layout(effect, 0, mode)| + i else i;
  }

  /** The colour mode is stored as it is encoded, and encodes to the same again. */
  lemma ModeStored(effect: nat, page: nat, v: Values, slot: Slot)
    requires slot.name == Mode && slot.top == 7 && slot.unit == 1 && Mode in v && ModeAt(effect, page).Some?
    ensures forall w: Values :: Mode in w && w[Mode] == slot.Stored(v[Mode]) ==>
      ModeOf(effect, page, w) == ModeOf(effect, page, v)
  {
  }

  lemma OverlaidAt(effect: nat, slots: seq<Slot>, v: Values, changes: Values, i: nat)
    requires Provided(slots, v) && (forall k :: 0 <= k < |slots| ==> slots[k].unit > 0) && DistinctNames(slots)
    requires i < |slots|
    ensures var again := Completed(effect, StoredSlots(slots, v) + changes);
            slots[i].name in again
            && again[slots[i].name]
               == if slots[i].name in changes then changes[slots[i].name] else slots[i].Stored(v[slots[i].name])
  {
    StoredAt(slots, v, i);
    CompletedAt(effect, StoredSlots(slots, v) + changes, slots[i].name);
    hide Completed, StoredSlots, DistinctNames;
  }

  lemma OverlaidAll(effect: nat, slots: seq<Slot>, v: Values, changes: Values)
    requires Provided(slots, v) && (forall k :: 0 <= k < |slots| ==> slots[k].unit in {1, 50}) && DistinctNames(slots)
    ensures (forall k :: 0 <= k < |slots| ==> slots[k].unit > 0)
            && PutAgain(slots, v, Completed(effect, StoredSlots(slots, v) + changes), changes)
  {
    hide Completed, StoredSlots, DistinctNames;
    var again := Completed(effect, StoredSlots(slots, v) + changes);
    forall i | 0 <= i < |slots|
      ensures slots[i].name in again
      ensures again[slots[i].name]
              == if slots[i].name in changes then changes[slots[i].name] else slots[i].Stored(v[slots[i].name])
    {
      OverlaidAt(effect, slots, v, changes, i);
    }
  }

  lemma CompletedAt(effect: nat, values: Values, name: Name)
    requires name in values
    ensures name in Completed(effect, values) && Completed(effect, values)[name] == values[name]
  {
    EveryName(name);
    hide NAMES, Default;
  }

  lemma RewriteKeepsMode(effect: nat, on: bool, v: Values, changes: Values)
    requires effect <= FIREWORKS_II && Provided(AllSlots(effect, EffectMode(effect, v)), v) && Mode in v
    requires Mode !in changes
    ensures EffectMode(effect, Completed(effect, Whole(effect, on, v).values + changes)) == EffectMode(effect, v)
  {
    AllSlotsFit(effect, EffectMode(effect, v));
    EveryName(Mode);
    ModeKept(effect, v, Completed(effect, Whole(effect, on, v).values + changes));
  }

  /**
   Rewriting an effect: for every defaulted generation-II effect, colour mode and state its
   encoder can produce, the rebuilt packet or two-page sequence with any parameters and the on
   bit changed decodes to the old state with just those changed, exactly when the slot of
   every changed parameter reaches its new value in whole steps; a parameter the effect does
   not have changes nothing.
   */
  lemma RewriteChangesOnly(effect: nat, on: bool, values: Values, change: Change)
    requires effect <= FIREWORKS_II && Mode !in change.values
    ensures var s := Produced(effect, on, values);
            && Effect2(effect, on, values).Some? && DecodeSequence(Effect2(effect, on, values).value) == Some(s)
            && Rewritten(s, change).Some?
            && (DecodeSequence(Rewritten(s, change).value) == Some(Changed(s, change))
                <==> Exact(s, EffectMode(effect, Completed(effect, values)), change))
  {
    hide Effect2, DecodeSequence, Exact, Completed, EffectMode, AllSlots;
    var s := Produced(effect, on, values);
    SequenceRoundTrip(effect, on, values);
    SequenceRoundTrip(effect, if change.on.Some? then change.on.value else on, s.values + change.values);
    RewrittenState(effect, on, values, change);
  }

  /** The state a rewrite's own sequence stands for is the old one with the changes made, if the slots carry them. */
  lemma RewrittenState(effect: nat, on: bool, values: Values, change: Change)
    requires effect <= FIREWORKS_II && Mode !in change.values
    ensures var s := Produced(effect, on, values);
            Produced(effect, if change.on.Some? then change.on.value else on, s.values + change.values) == Changed(s, change)
            <==> Exact(s, EffectMode(effect, Completed(effect, values)), change)
  {
    hide AllSlots, StoredSlots, NamesOf, DistinctNames, IsDual, Representable, EffectMode, Completed, Overlay, PutAgain;
    var v := Completed(effect, values);
    var mode := EffectMode(effect, v);
    var slots := AllSlots(effect, mode);
    CompletedProvides(effect, values, slots);
    var s := Whole(effect, on, v);
    EveryName(Mode);
    RewriteKeepsMode(effect, on, v, change.values);
    AllSlotsFit(effect, mode);
    OverlaidAll(effect, slots, v, change.values);
    StoredChangeExact(slots, v, Completed(effect, s.values + change.values), change.values);
  }
}
