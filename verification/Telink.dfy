/**
 The first-generation system effects of `telink.py` and the rewrites `device.py` makes of them.
 Inputs are integers, so `_clamp_round` is a clamp.
 */
module Telink {
  import opened Prelude
  import opened Bits
  import opened Slots

  const CMD_SYSTEM_EFFECT := 7
  const MAX_INTENSITY := 1000
  const MIN_KELVIN := 800
  const MAX_KELVIN := 20000

  const CLUB_LIGHTS := 0
  const PAPARAZZI := 1
  const LIGHTNING := 2
  const TV := 3
  const CANDLE := 4
  const FIRE := 5
  const STROBE := 6
  const EXPLOSION := 7
  const FAULTY_BULB := 8
  const PULSING := 9
  const WELDING := 10
  const COP_CAR := 11
  const COLOR_CHASE := 12
  const PARTY_LIGHTS := 13
  const FIREWORKS := 14
  const OFF := 15

  /** The arguments of `effect`; `None` takes the effect's default. */
  datatype Params = Params(intensity: int, frequency: int, speed: Option<int>, trigger: Option<int>, kelvin: int, gm: int,
                           gmFlag: bool, variant: Option<int>, mode: Option<int>, hue: int, saturation: Option<int>)

  datatype EffectState = EffectState(on: bool, effect: nat, intensity: int, frequency: int, speed: int, trigger: int,
                                     kelvin: Option<int>, gm: Option<int>, gmFlag: bool, variant: int, mode: int,
                                     hue: Option<int>, saturation: Option<int>)

  function Clamp(v: int, low: int, high: int): int
  {
    Max(low, Min(high, v))
  }

  function Given<T>(o: Option<T>, d: T): T
  {
    if o.Some? then o.value else d
  }

  // ----- Wire values -----

  function MaxFrequency(effect: nat): nat
  {
    if effect == CLUB_LIGHTS || effect == CANDLE || effect == FIRE || effect == EXPLOSION || effect == COLOR_CHASE
       || effect == PARTY_LIGHTS
    then 10 else 11
  }

  function MaxVariant(effect: nat): nat
  {
    if effect == TV || effect == CANDLE || effect == FIRE || effect == FIREWORKS then 2
    else if effect == CLUB_LIGHTS then 7
    else if effect == COP_CAR then 4
    else 0
  }

  function DefaultTrigger(effect: nat): nat
  {
    if effect == EXPLOSION then 1
    else if effect == LIGHTNING || effect == STROBE || effect == FAULTY_BULB || effect == PULSING || effect == WELDING then 2
    else 0
  }

  /** `_coarse_gm_value`: truncating above neutral, rounding half up at and below it. */
  function CoarseGm(gm: int): int
  {
    var v := Clamp(gm, 0, 200);
    if v > 100 then v / 10 else (v + 5) / 10
  }

  function SpeedOf(effect: nat, speed: Option<int>): int
  {
    if effect == WELDING then Clamp(Given(speed, 18), 0, 127) else Clamp(Given(speed, 5), 1, 10)
  }

  function ModeOf(p: Params): int
  {
    Clamp(Given(p.mode, 1), 0, 1)
  }

  function TenKelvin(kelvin: int): int
  {
    Clamp(kelvin, MIN_KELVIN, MAX_KELVIN) / 10
  }

  /** Every value `effect` computes before it picks a layout. */
  function Wire(effect: nat, p: Params, name: Name): int
  {
    match name
    case Intensity => Clamp(p.intensity, 0, MAX_INTENSITY)
    case Frequency => Clamp(p.frequency, 1, MaxFrequency(effect))
    case Speed => SpeedOf(effect, p.speed)
    case Trigger => Clamp(Given(p.trigger, DefaultTrigger(effect)), 0, 3)
    case CctHigh => if TenKelvin(p.kelvin) > 1000 then 1 else 0
    case CctLow => if TenKelvin(p.kelvin) > 1000 then TenKelvin(p.kelvin) - 1000 else TenKelvin(p.kelvin)
    case GmFlag => if p.gmFlag then 1 else 0
    case GmHigh => if p.gmFlag && Clamp(p.gm, 0, 200) > 100 then 1 else 0
    case GmLow =>
      if !p.gmFlag then CoarseGm(p.gm)
      else if Clamp(p.gm, 0, 200) > 100 then Clamp(p.gm, 0, 200) - 100 else Clamp(p.gm, 0, 200)
    case Variant => Clamp(Given(p.variant, if effect == COP_CAR then 2 else 0), 0, MaxVariant(effect))
    case Mode => ModeOf(p)
    case Hue => Clamp(p.hue, 0, 360)
    case Saturation => Clamp(Given(p.saturation, 100), 0, 100)
    case _ => 0
  }

  // ----- Layouts -----

  predicate HasMode(effect: nat)
  {
    STROBE <= effect <= WELDING
  }

  /** The parameter slots of an effect in one colour mode. */
  function Layout(effect: nat, mode: int): seq<Slot>
  {
    if effect == CLUB_LIGHTS || effect == COP_CAR then
      [Plain(Intensity, 54, 10, 1023), Plain(Frequency, 50, 4, 15), Plain(Variant, 46, 4, 15)]
    else if effect == COLOR_CHASE || effect == PARTY_LIGHTS then
      [Plain(Intensity, 54, 10, 1023), Plain(Frequency, 50, 4, 15), Plain(Saturation, 43, 7, 127)]
    else if effect == CANDLE || effect == TV || effect == FIRE then
      [Plain(Intensity, 54, 10, 1023), Plain(Frequency, 50, 4, 15), Plain(Variant, 40, 10, 1023)]
    else if effect == PAPARAZZI then
      [Plain(Intensity, 54, 10, 1023), Plain(Frequency, 50, 4, 15), Plain(CctLow, 40, 10, 1023), Plain(GmLow, 33, 7, 127), Plain(GmHigh, 32, 1, 1),
       Plain(GmFlag, 31, 1, 1), Plain(CctHigh, 30, 1, 1)]
    else if effect == FIREWORKS then
      [Plain(Intensity, 54, 10, 1023), Plain(Frequency, 50, 4, 15), Plain(Variant, 42, 8, 255)]
    else if effect == LIGHTNING then
      [Plain(Intensity, 54, 10, 1023), Plain(Frequency, 50, 4, 15), Plain(CctLow, 40, 10, 1023), Plain(GmLow, 33, 7, 127), Plain(Trigger, 31, 2, 3),
       Plain(Speed, 27, 4, 15), Plain(GmHigh, 26, 1, 1), Plain(GmFlag, 25, 1, 1), Plain(CctHigh, 24, 1, 1)]
    else ModalLead() + (if mode == 1 then HsiPart(effect) else CctPart(effect))
  }

  function ModalLead(): seq<Slot>
  {
    [Plain(Mode, 60, 4, 15), Plain(Frequency, 56, 4, 15), Plain(Intensity, 46, 10, 1023)]
  }

  function HsiPart(effect: nat): seq<Slot>
  {
    if effect == WELDING then
      [Plain(Hue, 37, 9, 511), Plain(Saturation, 30, 7, 127), Plain(Trigger, 28, 2, 3), Plain(Speed, 21, 7, 127)]
    else if effect == FAULTY_BULB || effect == PULSING then
      [Plain(Hue, 37, 9, 511), Plain(Saturation, 30, 7, 127), Plain(Trigger, 28, 2, 3), Plain(Speed, 24, 4, 15)]
    else [Plain(Hue, 37, 9, 511), Plain(Saturation, 30, 7, 127), Plain(Trigger, 28, 2, 3)]
  }

  function CctPart(effect: nat): seq<Slot>
  {
    if effect == WELDING then
      [Plain(CctLow, 36, 10, 1023), Plain(GmLow, 29, 7, 127), Plain(Trigger, 27, 2, 3), Plain(Speed, 20, 7, 127), Plain(GmHigh, 19, 1, 1),
       Plain(GmFlag, 18, 1, 1), Plain(CctHigh, 17, 1, 1)]
    else if effect == FAULTY_BULB || effect == PULSING then
      [Plain(CctLow, 36, 10, 1023), Plain(GmLow, 29, 7, 127), Plain(Trigger, 27, 2, 3), Plain(Speed, 23, 4, 15), Plain(GmHigh, 22, 1, 1),
       Plain(GmFlag, 21, 1, 1), Plain(CctHigh, 20, 1, 1)]
    else
      [Plain(CctLow, 36, 10, 1023), Plain(GmLow, 29, 7, 127), Plain(Trigger, 27, 2, 3), Plain(GmHigh, 26, 1, 1), Plain(GmFlag, 25, 1, 1),
       Plain(CctHigh, 24, 1, 1)]
  }

  predicate InLead(name: Name)
  {
    name == Mode || name == Frequency || name == Intensity
  }

  lemma CopStacked(effect: nat, mode: int)
    requires effect == CLUB_LIGHTS || effect == COP_CAR
    ensures Stacked(Layout(effect, mode), 64) && DistinctNames(Layout(effect, mode))
  {
  }

  lemma ChaseStacked(effect: nat, mode: int)
    requires effect == COLOR_CHASE || effect == PARTY_LIGHTS
    ensures Stacked(Layout(effect, mode), 64) && DistinctNames(Layout(effect, mode))
  {
  }

  lemma CandleStacked(effect: nat, mode: int)
    requires effect == CANDLE || effect == TV || effect == FIRE || effect == FIREWORKS
    ensures Stacked(Layout(effect, mode), 64) && DistinctNames(Layout(effect, mode))
  {
  }

  lemma PlainStacked(effect: nat, mode: int)
    requires !HasMode(effect) && effect != LIGHTNING && effect != PAPARAZZI && effect < OFF
    ensures Stacked(Layout(effect, mode), 64) && DistinctNames(Layout(effect, mode))
  {
    hide Layout, Stacked, DistinctNames;
    if effect == CLUB_LIGHTS || effect == COP_CAR {
      CopStacked(effect, mode);
    } else if effect == COLOR_CHASE || effect == PARTY_LIGHTS {
      ChaseStacked(effect, mode);
    } else {
      CandleStacked(effect, mode);
    }
  }

  lemma PaparazziStacked(mode: int)
    ensures Stacked(Layout(PAPARAZZI, mode), 64)
  {
  }

  lemma PaparazziNames(mode: int)
    ensures DistinctNames(Layout(PAPARAZZI, mode))
  {
  }

  lemma LightningStacked(mode: int)
    ensures Stacked(Layout(LIGHTNING, mode), 64)
  {
  }

  lemma LightningNames(mode: int)
    ensures DistinctNames(Layout(LIGHTNING, mode))
  {
  }

  lemma HsiStacked(effect: nat)
    ensures Stacked(HsiPart(effect), 46)
  {
  }

  lemma HsiNames(effect: nat)
    ensures DistinctNames(HsiPart(effect))
    ensures forall i :: 0 <= i < |HsiPart(effect)| ==> !InLead(HsiPart(effect)[i].name)
  {
  }

  lemma CctStacked(effect: nat)
    ensures Stacked(CctPart(effect), 46)
  {
  }

  lemma CctApart(effect: nat)
    ensures forall i :: 0 <= i < |CctPart(effect)| ==> !InLead(CctPart(effect)[i].name)
  {
  }

  lemma WeldingNames()
    ensures DistinctNames(CctPart(WELDING))
  {
  }

  lemma BulbNames(effect: nat)
    requires effect == FAULTY_BULB || effect == PULSING
    ensures DistinctNames(CctPart(effect))
  {
  }

  lemma StrobeNames(effect: nat)
    requires effect != WELDING && effect != FAULTY_BULB && effect != PULSING
    ensures DistinctNames(CctPart(effect))
  {
  }

  lemma CctNames(effect: nat)
    ensures DistinctNames(CctPart(effect))
  {
    hide CctPart, DistinctNames;
    if effect == WELDING {
      WeldingNames();
    } else if effect == FAULTY_BULB || effect == PULSING {
      BulbNames(effect);
    } else {
      StrobeNames(effect);
    }
  }

  lemma LeadApart()
    ensures DistinctNames(ModalLead())
  {
  }

  lemma LeadStacked()
    ensures Stacked(ModalLead(), 64) && DistinctNames(ModalLead())
  {
    LeadApart();
    hide DistinctNames;
  }

  lemma ModalLayout(effect: nat, mode: int)
    requires HasMode(effect)
    ensures Layout(effect, mode) == ModalLead() + (if mode == 1 then HsiPart(effect) else CctPart(effect))
  {
    hide ModalLead, HsiPart, CctPart;
  }

  lemma ModalStacked(effect: nat, mode: int)
    requires HasMode(effect)
    ensures Stacked(Layout(effect, mode), 64) && DistinctNames(Layout(effect, mode))
  {
    hide Layout, ModalLead, HsiPart, CctPart, InLead, Stacked, DistinctNames;
    LeadStacked();
    HsiStacked(effect);
    HsiNames(effect);
    CctStacked(effect);
    CctNames(effect);
    CctApart(effect);
    ModalLayout(effect, mode);
    LeadNames();
    var lead := ModalLead();
    var rest := if mode == 1 then HsiPart(effect) else CctPart(effect);
    StackedOn(lead, rest, 64, 46);
    forall i, j | 0 <= i < |lead| && 0 <= j < |rest| ensures lead[i].name != rest[j].name {
      assert InLead(lead[i].name) && !InLead(rest[j].name);
    }
    DistinctAppend(lead, rest);
  }

  lemma LeadNames()
    ensures |ModalLead()| == 3 && ModalLead()[2].start == 46
    ensures forall i :: 0 <= i < 3 ==> InLead(ModalLead()[i].name)
  {
  }

  lemma LayoutStacked(effect: nat, mode: int)
    requires effect < OFF
    ensures Stacked(Layout(effect, mode), 64) && DistinctNames(Layout(effect, mode))
  {
    hide Layout, Stacked, DistinctNames;
    if HasMode(effect) {
      ModalStacked(effect, mode);
    } else if effect == LIGHTNING {
      LightningStacked(mode);
      LightningNames(mode);
    } else if effect == PAPARAZZI {
      PaparazziStacked(mode);
      PaparazziNames(mode);
    } else {
      PlainStacked(effect, mode);
    }
  }

  // ----- Packets -----

  /** The wire values as a table of the effect's own slots reads them. */
  function WireValues(effect: nat, p: Params): Values
  {
    map name | name in WIRE_NAMES :: Wire(effect, p, name)
  }

  const WIRE_NAMES := {Intensity, Frequency, Speed, Trigger, CctHigh, CctLow, GmFlag, GmHigh, GmLow, Variant, Mode, Hue,
                       Saturation}

  function Header(effect: nat): seq<Placed>
  {
    [Placed(1, 79, 1), Placed(CMD_SYSTEM_EFFECT, 72, 7), Placed(effect, 64, 8)]
  }

  ghost predicate Named(slots: seq<Slot>)
  {
    forall i :: 0 <= i < |slots| ==> slots[i].name in WIRE_NAMES
  }

  lemma LayoutNamed(effect: nat, mode: int)
    ensures Named(Layout(effect, mode))
  {
  }

  function EffectFields(effect: nat, p: Params): seq<Placed>
    requires effect < OFF
  {
    LayoutStacked(effect, ModeOf(p));
    LayoutNamed(effect, ModeOf(p));
    Header(effect) + PlacedSlots(Layout(effect, ModeOf(p)), WireValues(effect, p)) + [Placed(1, 8, 1)]
  }

  /** `effect`; stopping one carries its identifier and nothing else. */
  function Effect(effect: nat, p: Params): Bytes
    requires effect <= OFF
  {
    Finalize(Pack(if effect == OFF then Header(OFF) else EffectFields(effect, p)))
  }

  /** The builder itself, accumulating one field at a time. */
  method BuildEffect(effect: nat, p: Params) returns (payload: Bytes)
    requires effect <= OFF
    ensures payload == Effect(effect, p)
    ensures Decode(payload) == Some(StateOf(effect, p))
  {
    RoundTrip(effect, p);
    payload := BuildPayload(if effect == OFF then Header(OFF) else EffectFields(effect, p));
  }

  function Read(v: Values, name: Name): int
  {
    if name in v then v[name] else 0
  }

  function Optional(v: Values, name: Name): Option<int>
  {
    if name in v then Some(v[name]) else None
  }

  /** A state from the slots an effect carries. */
  function FromValues(on: bool, effect: nat, v: Values): EffectState
  {
    var gmFlag := Read(v, GmFlag) != 0;
    EffectState(on, effect, Read(v, Intensity), Read(v, Frequency), Read(v, Speed), Read(v, Trigger),
                if CctLow in v then Some((Read(v, CctLow) + 1000 * Read(v, CctHigh)) * 10) else None,
                if GmLow in v then Some(if gmFlag then Read(v, GmLow) + 100 * Read(v, GmHigh) else Read(v, GmLow) * 10)
                else None,
                gmFlag, Read(v, Variant), Read(v, Mode), Optional(v, Hue), Optional(v, Saturation))
  }

  const STOPPED := EffectState(false, OFF, 0, 0, 0, 0, None, None, false, 0, 0, None, None)

  /** `decode_effect` */
  function Decode(payload: Bytes): Option<EffectState>
  {
    if |payload| != 10 || payload[0] != Checksum(payload) || payload[9] % 128 != CMD_SYSTEM_EFFECT then None
    else
      var n := FromLittleEndian(payload);
      var effect := Field(n, 64, 8);
      if effect > OFF then None
      else if effect == OFF then Some(STOPPED)
      else
        var mode := if HasMode(effect) then Field(n, 60, 4) else 0;
        if mode > 1 then None
        else Some(FromValues(Field(n, 8, 1) != 0, effect, ReadSlots(n, Layout(effect, mode))))
  }

  // ----- There and back -----

  /** The largest wire value of each parameter. */
  function Bound(effect: nat, name: Name): nat
  {
    match name
    case Intensity => MAX_INTENSITY
    case Frequency => 11
    case Speed => if effect == WELDING then 127 else 10
    case Trigger => 3
    case CctLow => 1000
    case GmLow => 100
    case Variant => 7
    case Hue => 360
    case Saturation => 100
    case _ => 1
  }

  lemma WireBound(effect: nat, p: Params, name: Name)
    ensures 0 <= Wire(effect, p, name) <= Bound(effect, name)
  {
  }

  ghost predicate Roomy(effect: nat, slots: seq<Slot>)
  {
    forall i :: 0 <= i < |slots| ==> slots[i].unit == 1 && Bound(effect, slots[i].name) <= slots[i].top
  }

  lemma PartsRoomy(effect: nat)
    ensures Roomy(effect, ModalLead()) && Roomy(effect, HsiPart(effect)) && Roomy(effect, CctPart(effect))
  {
  }

  lemma PlainRoomy(effect: nat, mode: int)
    requires !HasMode(effect) && effect < OFF
    ensures Roomy(effect, Layout(effect, mode))
  {
  }

  lemma LayoutRoomy(effect: nat, mode: int)
    requires effect < OFF
    ensures Roomy(effect, Layout(effect, mode))
  {
    if HasMode(effect) {
      PartsRoomy(effect);
      hide ModalLead, HsiPart, CctPart, Bound;
    } else {
      PlainRoomy(effect, mode);
    }
  }

  lemma WireFits(effect: nat, p: Params, i: nat)
    requires effect < OFF && i < |Layout(effect, ModeOf(p))|
    ensures var slot := Layout(effect, ModeOf(p))[i];
            slot.unit == 1 && slot.Wire(Wire(effect, p, slot.name)) == Wire(effect, p, slot.name)
  {
    LayoutRoomy(effect, ModeOf(p));
    WireBound(effect, p, Layout(effect, ModeOf(p))[i].name);
    hide Layout, Wire, Bound;
  }

  /** Every field of an encoded effect reads back what was put there. */
  lemma EffectReads(effect: nat, p: Params)
    requires effect < OFF
    ensures var fields := EffectFields(effect, p);
            forall i :: 0 <= i < |fields| ==>
              Field(FromLittleEndian(Finalize(Pack(fields))), fields[i].start, fields[i].width) == fields[i].value
  {
    hide Layout, PlacedSlots, Stacked, ModeOf, AllFit, PairwiseDisjoint, Pack, Finalize, Field, WireValues, DistinctNames;
    var slots, values := Layout(effect, ModeOf(p)), WireValues(effect, p);
    LayoutStacked(effect, ModeOf(p));
    ProvidedWire(effect, p);
    SlotsDisjoint(slots, values, 64);
    HeaderApart(effect);
    SlotsAboveNine(effect, ModeOf(p));
    var middle := PlacedSlots(slots, values);
    JoinDisjoint(middle, Header(effect), 64);
    FitTogether(middle, Header(effect));
    OnBit();
    MiddleStarts(slots, values);
    JoinDisjoint([Placed(1, 8, 1)], Header(effect) + middle, 9);
    FitTogether([Placed(1, 8, 1)], Header(effect) + middle);
    BuiltReads(EffectFields(effect, p));
  }

  lemma ProvidedWire(effect: nat, p: Params)
    requires effect < OFF
    ensures Provided(Layout(effect, ModeOf(p)), WireValues(effect, p))
  {
    LayoutNamed(effect, ModeOf(p));
  }

  lemma OnBit()
    ensures AllFit([Placed(1, 8, 1)]) && PairwiseDisjoint([Placed(1, 8, 1)])
  {
    RoomIsPow2(1);
    assert Placed(1, 8, 1).Fits();
  }

  lemma HeaderApart(effect: nat)
    requires effect <= OFF
    ensures AllFit(Header(effect)) && PairwiseDisjoint(Header(effect))
    ensures forall i :: 0 <= i < |Header(effect)| ==> 64 <= Header(effect)[i].start && Header(effect)[i].End() <= 80
  {
    RoomIsPow2(1);
    RoomIsPow2(7);
    RoomIsPow2(8);
    hide Pow2;
  }

  lemma SlotsAboveNine(effect: nat, mode: int)
    ensures forall i :: 0 <= i < |Layout(effect, mode)| ==> Layout(effect, mode)[i].start >= 9
  {
  }

  lemma MiddleStarts(slots: seq<Slot>, values: Values)
    requires Provided(slots, values) && forall i :: 0 <= i < |slots| ==> slots[i].unit > 0
    requires forall i :: 0 <= i < |slots| ==> slots[i].start >= 9
    ensures forall i :: 0 <= i < |slots| ==> PlacedSlots(slots, values)[i].start >= 9
  {
  }

  // ----- What an effect carries -----

  predicate HasCct(effect: nat, mode: int)
  {
    effect == PAPARAZZI || effect == LIGHTNING || (HasMode(effect) && mode != 1)
  }

  predicate HasSpeed(effect: nat)
  {
    effect == LIGHTNING || FAULTY_BULB <= effect <= WELDING
  }

  predicate HasHue(effect: nat, mode: int)
  {
    HasMode(effect) && mode == 1
  }

  predicate HasSaturation(effect: nat, mode: int)
  {
    HasHue(effect, mode) || effect == COLOR_CHASE || effect == PARTY_LIGHTS
  }

  /** Whether the effect's packet in that mode has a slot for the value. */
  predicate Carries(effect: nat, mode: int, name: Name)
  {
    match name
    case Intensity => true
    case Frequency => true
    case Speed => HasSpeed(effect)
    case Trigger => effect == LIGHTNING || HasMode(effect)
    case CctHigh => HasCct(effect, mode)
    case CctLow => HasCct(effect, mode)
    case GmFlag => HasCct(effect, mode)
    case GmHigh => HasCct(effect, mode)
    case GmLow => HasCct(effect, mode)
    case Variant => MaxVariant(effect) > 0
    case Mode => HasMode(effect)
    case Hue => HasHue(effect, mode)
    case Saturation => HasSaturation(effect, mode)
    case _ => false
  }

  /** Where the slot of a name is, in the layouts without modes. */
  function PlainIndex(effect: nat, name: Name): nat
  {
    if name == Intensity then 0
    else if name == Frequency then 1
    else if name == CctLow || name == Variant || name == Saturation then 2
    else if name == GmLow then 3
    else if name == Trigger then 4
    else if name == Speed then 5
    else if name == GmHigh then (if effect == PAPARAZZI then 4 else 6)
    else if name == GmFlag then (if effect == PAPARAZZI then 5 else 7)
    else if effect == PAPARAZZI then 6 else 8
  }

  lemma CopHas(effect: nat, mode: int, name: Name)
    requires (effect == CLUB_LIGHTS || effect == COP_CAR || effect == COLOR_CHASE || effect == PARTY_LIGHTS) && Carries(effect, mode, name)
    ensures PlainIndex(effect, name) < |Layout(effect, mode)| && Layout(effect, mode)[PlainIndex(effect, name)].name == name
  {
  }

  lemma CopLacks(effect: nat, mode: int, name: Name)
    requires (effect == CLUB_LIGHTS || effect == COP_CAR || effect == COLOR_CHASE || effect == PARTY_LIGHTS) && !Carries(effect, mode, name)
    ensures forall i :: 0 <= i < |Layout(effect, mode)| ==> Layout(effect, mode)[i].name != name
  {
  }

  lemma CandleHas(effect: nat, mode: int, name: Name)
    requires (effect == CANDLE || effect == TV || effect == FIRE || effect == FIREWORKS) && Carries(effect, mode, name)
    ensures PlainIndex(effect, name) < |Layout(effect, mode)| && Layout(effect, mode)[PlainIndex(effect, name)].name == name
  {
  }

  lemma CandleLacks(effect: nat, mode: int, name: Name)
    requires (effect == CANDLE || effect == TV || effect == FIRE || effect == FIREWORKS) && !Carries(effect, mode, name)
    ensures forall i :: 0 <= i < |Layout(effect, mode)| ==> Layout(effect, mode)[i].name != name
  {
  }

  lemma WhiteHas(effect: nat, mode: int, name: Name)
    requires (effect == PAPARAZZI || effect == LIGHTNING) && Carries(effect, mode, name)
    ensures PlainIndex(effect, name) < |Layout(effect, mode)| && Layout(effect, mode)[PlainIndex(effect, name)].name == name
  {
  }

  lemma WhiteLacks(effect: nat, mode: int, name: Name)
    requires (effect == PAPARAZZI || effect == LIGHTNING) && !Carries(effect, mode, name)
    ensures forall i :: 0 <= i < |Layout(effect, mode)| ==> Layout(effect, mode)[i].name != name
  {
  }

  lemma PlainHas(effect: nat, mode: int, name: Name)
    requires effect < OFF && !HasMode(effect) && Carries(effect, mode, name)
    ensures PlainIndex(effect, name) < |Layout(effect, mode)| && Layout(effect, mode)[PlainIndex(effect, name)].name == name
  {
    hide Layout, Carries, PlainIndex;
    if effect == PAPARAZZI || effect == LIGHTNING {
      WhiteHas(effect, mode, name);
    } else if effect == CANDLE || effect == TV || effect == FIRE || effect == FIREWORKS {
      CandleHas(effect, mode, name);
    } else {
      CopHas(effect, mode, name);
    }
  }

  lemma PlainLacks(effect: nat, mode: int, name: Name)
    requires effect < OFF && !HasMode(effect) && !Carries(effect, mode, name)
    ensures forall i :: 0 <= i < |Layout(effect, mode)| ==> Layout(effect, mode)[i].name != name
  {
    hide Layout, Carries, PlainIndex;
    if effect == PAPARAZZI || effect == LIGHTNING {
      WhiteLacks(effect, mode, name);
    } else if effect == CANDLE || effect == TV || effect == FIRE || effect == FIREWORKS {
      CandleLacks(effect, mode, name);
    } else {
      CopLacks(effect, mode, name);
    }
  }

  /** Where it is in the colour part of the layouts with modes. */
  function PartIndex(effect: nat, name: Name): nat
  {
    if name == Hue || name == CctLow then 0
    else if name == Saturation || name == GmLow then 1
    else if name == Trigger then 2
    else if name == Speed then 3
    else (if HasSpeed(effect) then 4 else 3) + (if name == GmHigh then 0 else if name == GmFlag then 1 else 2)
  }

  lemma LeadCarries(name: Name)
    ensures InLead(name) ==> exists i :: 0 <= i < |ModalLead()| && ModalLead()[i].name == name
    ensures !InLead(name) ==> forall i :: 0 <= i < |ModalLead()| ==> ModalLead()[i].name != name
  {
    assert ModalLead()[0].name == Mode && ModalLead()[1].name == Frequency && ModalLead()[2].name == Intensity;
  }

  lemma HsiCarries(effect: nat, name: Name)
    requires HasMode(effect) && !InLead(name)
    ensures Carries(effect, 1, name) ==>
      PartIndex(effect, name) < |HsiPart(effect)| && HsiPart(effect)[PartIndex(effect, name)].name == name
    ensures !Carries(effect, 1, name) ==> forall i :: 0 <= i < |HsiPart(effect)| ==> HsiPart(effect)[i].name != name
  {
  }

  lemma CctHas(effect: nat, mode: int, name: Name)
    requires HasMode(effect) && mode != 1 && !InLead(name) && Carries(effect, mode, name)
    ensures PartIndex(effect, name) < |CctPart(effect)| && CctPart(effect)[PartIndex(effect, name)].name == name
  {
  }

  lemma CctLacks(effect: nat, mode: int, name: Name)
    requires HasMode(effect) && mode != 1 && !InLead(name) && !Carries(effect, mode, name)
    ensures forall i :: 0 <= i < |CctPart(effect)| ==> CctPart(effect)[i].name != name
  {
  }

  lemma ModalCarries(effect: nat, mode: int, name: Name)
    requires HasMode(effect)
    ensures Carries(effect, mode, name) <==> exists i :: 0 <= i < |Layout(effect, mode)| && Layout(effect, mode)[i].name == name
  {
    var lead, rest := ModalLead(), if mode == 1 then HsiPart(effect) else CctPart(effect);
    assert Layout(effect, mode) == lead + rest;
    LeadCarries(name);
    HsiNames(effect);
    CctApart(effect);
    if InLead(name) {
      assert Carries(effect, mode, name);
      hide Layout, ModalLead, HsiPart, CctPart, Carries;
      var i :| 0 <= i < |lead| && lead[i].name == name;
      assert (lead + rest)[i].name == name;
    } else {
      if mode == 1 {
        HsiCarries(effect, name);
      } else if Carries(effect, mode, name) {
        CctHas(effect, mode, name);
      } else {
        CctLacks(effect, mode, name);
      }
      hide Layout, ModalLead, HsiPart, CctPart, Carries;
      if Carries(effect, mode, name) {
        assert (lead + rest)[|lead| + PartIndex(effect, name)].name == name;
      }
    }
  }

  lemma LayoutCarries(effect: nat, mode: int, name: Name)
    requires effect < OFF
    ensures name in NamesOf(Layout(effect, mode)) <==> Carries(effect, mode, name)
  {
    NamesAre(Layout(effect, mode), name);
    if HasMode(effect) {
      ModalCarries(effect, mode, name);
    } else if Carries(effect, mode, name) {
      PlainHas(effect, mode, name);
    } else {
      PlainLacks(effect, mode, name);
    }
    hide Layout, Carries, NamesOf, HasMode;
  }

  /** What reading the packet's slots gives: each carried value, as it was computed. */
  lemma CarriedValues(effect: nat, p: Params)
    requires effect < OFF
    ensures var n := FromLittleEndian(Effect(effect, p));
            var v := ReadSlots(n, Layout(effect, ModeOf(p)));
            && (forall name :: name in v <==> Carries(effect, ModeOf(p), name))
            && (forall name :: name in v ==> v[name] == Wire(effect, p, name))
            && Field(n, 8, 1) == 1 && Field(n, 64, 8) == effect && Field(n, 72, 7) == CMD_SYSTEM_EFFECT
            && (HasMode(effect) ==> Field(n, 60, 4) == ModeOf(p))
  {
    var slots, values := Layout(effect, ModeOf(p)), WireValues(effect, p);
    var fields := EffectFields(effect, p);
    var n := FromLittleEndian(Effect(effect, p));
    LayoutStacked(effect, ModeOf(p));
    ProvidedWire(effect, p);
    EffectReads(effect, p);
    FieldsAre(effect, p);
    ModeSlotFirst(effect, p);
    hide Layout, Wire, Field, Finalize, Pack, Carries, EffectFields, WireValues, Stacked, HasMode;
    forall i | 0 <= i < |slots|
      ensures Field(n, slots[i].start, slots[i].width) == slots[i].Wire(values[slots[i].name])
    {
      assert fields[3 + i] == PlacedSlots(slots, values)[i];
    }
    SlotsRead(n, slots, values);
    StoredKeys(slots, values);
    forall name ensures name in NamesOf(slots) <==> Carries(effect, ModeOf(p), name) {
      LayoutCarries(effect, ModeOf(p), name);
    }
    forall name | name in NamesOf(slots) ensures StoredSlots(slots, values)[name] == Wire(effect, p, name) {
      CarriedValue(effect, p, name);
    }
  }

  lemma FieldsAre(effect: nat, p: Params)
    requires effect < OFF
    ensures var slots := Layout(effect, ModeOf(p));
            var fields := EffectFields(effect, p);
            Effect(effect, p) == Finalize(Pack(fields))
            && Provided(slots, WireValues(effect, p)) && (forall i :: 0 <= i < |slots| ==> slots[i].unit > 0)
            && |fields| == |slots| + 4
            && (forall i :: 0 <= i < |slots| ==> fields[3 + i] == PlacedSlots(slots, WireValues(effect, p))[i])
            && fields[1] == Placed(CMD_SYSTEM_EFFECT, 72, 7) && fields[2] == Placed(effect, 64, 8)
            && fields[|fields| - 1] == Placed(1, 8, 1)
  {
    LayoutStacked(effect, ModeOf(p));
    ProvidedWire(effect, p);
    hide Layout, WireValues, PlacedSlots, DistinctNames, Finalize, Pack;
  }

  lemma ModeSlotFirst(effect: nat, p: Params)
    requires effect < OFF
    ensures HasMode(effect) ==>
              |Layout(effect, ModeOf(p))| > 0 && Layout(effect, ModeOf(p))[0].start == 60
              && Layout(effect, ModeOf(p))[0].width == 4 && Layout(effect, ModeOf(p))[0].unit > 0
              && Mode in WireValues(effect, p)
              && Layout(effect, ModeOf(p))[0].Wire(WireValues(effect, p)[Mode]) == ModeOf(p)
              && Layout(effect, ModeOf(p))[0].name == Mode
  {
    hide HsiPart, CctPart;
  }

  lemma CarriedValue(effect: nat, p: Params, name: Name)
    requires effect < OFF && name in NamesOf(Layout(effect, ModeOf(p)))
    ensures var slots := Layout(effect, ModeOf(p));
            Provided(slots, WireValues(effect, p)) && (forall i :: 0 <= i < |slots| ==> slots[i].unit > 0)
            && name in StoredSlots(slots, WireValues(effect, p))
            && StoredSlots(slots, WireValues(effect, p))[name] == Wire(effect, p, name)
  {
    var slots := Layout(effect, ModeOf(p));
    LayoutStacked(effect, ModeOf(p));
    LayoutNamed(effect, ModeOf(p));
    ProvidedWire(effect, p);
    NamesAre(slots, name);
    hide Layout, Wire, NamesOf;
    var i :| 0 <= i < |slots| && slots[i].name == name;
    StoredAt(slots, WireValues(effect, p), i);
    WireFits(effect, p, i);
    hide StoredSlots;
  }

  /** The state an encoded effect stands for, in the units of its arguments. */
  function StateOf(effect: nat, p: Params): EffectState
  {
    var mode := ModeOf(p);
    if effect == OFF then STOPPED
    else
      EffectState(true, effect, Clamp(p.intensity, 0, MAX_INTENSITY), Clamp(p.frequency, 1, MaxFrequency(effect)),
                  if HasSpeed(effect) then SpeedOf(effect, p.speed) else 0,
                  if Carries(effect, mode, Trigger) then Clamp(Given(p.trigger, DefaultTrigger(effect)), 0, 3) else 0,
                  if HasCct(effect, mode) then Some(TenKelvin(p.kelvin) * 10) else None,
                  if HasCct(effect, mode) then Some(if p.gmFlag then Clamp(p.gm, 0, 200) else CoarseGm(p.gm) * 10) else None,
                  HasCct(effect, mode) && p.gmFlag,
                  if MaxVariant(effect) > 0
                  then Clamp(Given(p.variant, if effect == COP_CAR then 2 else 0), 0, MaxVariant(effect)) else 0,
                  if HasMode(effect) then mode else 0,
                  if HasHue(effect, mode) then Some(Clamp(p.hue, 0, 360)) else None,
                  if HasSaturation(effect, mode) then Some(Clamp(Given(p.saturation, 100), 0, 100)) else None)
  }

  lemma WiresAre(effect: nat, p: Params)
    ensures Wire(effect, p, Intensity) == Clamp(p.intensity, 0, MAX_INTENSITY)
    ensures Wire(effect, p, Frequency) == Clamp(p.frequency, 1, MaxFrequency(effect))
    ensures Wire(effect, p, Speed) == SpeedOf(effect, p.speed)
    ensures Wire(effect, p, Trigger) == Clamp(Given(p.trigger, DefaultTrigger(effect)), 0, 3)
    ensures Wire(effect, p, Variant) == Clamp(Given(p.variant, if effect == COP_CAR then 2 else 0), 0, MaxVariant(effect))
    ensures Wire(effect, p, Mode) == ModeOf(p)
    ensures Wire(effect, p, Hue) == Clamp(p.hue, 0, 360)
    ensures Wire(effect, p, Saturation) == Clamp(Given(p.saturation, 100), 0, 100)
  {
    hide Clamp, MaxFrequency, MaxVariant, DefaultTrigger, SpeedOf, ModeOf, TenKelvin, CoarseGm;
  }

  lemma ColourWires(effect: nat, p: Params)
    ensures (Wire(effect, p, CctLow) + 1000 * Wire(effect, p, CctHigh)) * 10 == TenKelvin(p.kelvin) * 10
    ensures Wire(effect, p, GmFlag) != 0 <==> p.gmFlag
    ensures p.gmFlag ==> Wire(effect, p, GmLow) + 100 * Wire(effect, p, GmHigh) == Clamp(p.gm, 0, 200)
    ensures !p.gmFlag ==> Wire(effect, p, GmLow) == CoarseGm(p.gm)
  {
    hide Clamp, MaxFrequency, MaxVariant, DefaultTrigger, SpeedOf, ModeOf, TenKelvin, CoarseGm;
  }

  lemma FromCarried(effect: nat, p: Params, v: Values)
    requires effect < OFF
    requires forall name :: name in v <==> Carries(effect, ModeOf(p), name)
    requires forall name :: name in v ==> v[name] == Wire(effect, p, name)
    ensures FromValues(true, effect, v) == StateOf(effect, p)
  {
    hide HasCct, HasSpeed, HasHue, HasSaturation, HasMode, MaxVariant, MaxFrequency, DefaultTrigger, Carries, Wire, Clamp,
      TenKelvin, CoarseGm, SpeedOf, ModeOf;
    WiresAre(effect, p);
    ColourWires(effect, p);
    CarriesAre(effect, ModeOf(p));
    assert Read(v, Intensity) == Wire(effect, p, Intensity) && Read(v, Frequency) == Wire(effect, p, Frequency);
    assert Read(v, Speed) == (if HasSpeed(effect) then Wire(effect, p, Speed) else 0);
    assert Read(v, Trigger) == (if Carries(effect, ModeOf(p), Trigger) then Wire(effect, p, Trigger) else 0);
    assert Read(v, Variant) == (if MaxVariant(effect) > 0 then Wire(effect, p, Variant) else 0);
    assert Read(v, Mode) == (if HasMode(effect) then Wire(effect, p, Mode) else 0);
    assert Optional(v, Hue) == (if HasHue(effect, ModeOf(p)) then Some(Wire(effect, p, Hue)) else None);
    assert Optional(v, Saturation)
           == (if HasSaturation(effect, ModeOf(p)) then Some(Wire(effect, p, Saturation)) else None);
    assert CctLow in v <==> HasCct(effect, ModeOf(p));
    assert GmLow in v <==> HasCct(effect, ModeOf(p));
    assert GmFlag in v <==> HasCct(effect, ModeOf(p));
    assert CctHigh in v <==> HasCct(effect, ModeOf(p));
    assert GmHigh in v <==> HasCct(effect, ModeOf(p));
  }

  lemma CarriesAre(effect: nat, mode: int)
    ensures Carries(effect, mode, Intensity) && Carries(effect, mode, Frequency)
    ensures Carries(effect, mode, Speed) <==> HasSpeed(effect)
    ensures Carries(effect, mode, CctLow) <==> HasCct(effect, mode)
    ensures Carries(effect, mode, CctHigh) <==> HasCct(effect, mode)
    ensures Carries(effect, mode, GmLow) <==> HasCct(effect, mode)
    ensures Carries(effect, mode, GmHigh) <==> HasCct(effect, mode)
    ensures Carries(effect, mode, GmFlag) <==> HasCct(effect, mode)
    ensures Carries(effect, mode, Variant) <==> MaxVariant(effect) > 0
    ensures Carries(effect, mode, Mode) <==> HasMode(effect)
    ensures Carries(effect, mode, Hue) <==> HasHue(effect, mode)
    ensures Carries(effect, mode, Saturation) <==> HasSaturation(effect, mode)
  {
    hide HasCct, HasSpeed, HasHue, HasSaturation, HasMode, MaxVariant;
  }

  /** Decoding what was built returns every value the effect carries, exactly, for all sixteen effects and both modes. */
  lemma RoundTrip(effect: nat, p: Params)
    requires effect <= OFF
    ensures Decode(Effect(effect, p)) == Some(StateOf(effect, p))
  {
    CommandBits(Effect(effect, p));
    if effect == OFF {
      StoppedReads();
    } else {
      CarriedValues(effect, p);
      if !HasMode(effect) {
        LayoutModeless(effect, ModeOf(p));
      }
      var v := ReadSlots(FromLittleEndian(Effect(effect, p)), Layout(effect, ModeOf(p)));
      FromCarried(effect, p, v);
      ModeRange(p);
      FinalizeShape(effect, p);
      hide Layout, ReadSlots, FromValues, StateOf, Field, Effect, HasMode, Carries, ModeOf, Wire;
    }
  }

  lemma ModeRange(p: Params)
    ensures 0 <= ModeOf(p) <= 1
  {
  }

  lemma FinalizeShape(effect: nat, p: Params)
    requires effect <= OFF
    ensures |Effect(effect, p)| == 10 && Effect(effect, p)[0] == Checksum(Effect(effect, p))
  {
  }

  lemma LayoutModeless(effect: nat, mode: int)
    requires !HasMode(effect) && effect < OFF
    ensures Layout(effect, mode) == Layout(effect, 0)
  {
  }

  lemma StoppedReads()
    ensures forall p :: Decode(Effect(OFF, p)) == Some(STOPPED)
  {
    HeaderApart(OFF);
    BuiltReads(Header(OFF));
    var payload := Finalize(Pack(Header(OFF)));
    CommandBits(payload);
    var fields := Header(OFF);
    assert fields[1] == Placed(CMD_SYSTEM_EFFECT, 72, 7) && fields[2] == Placed(OFF, 64, 8);
    hide Field, Pack, Finalize;
  }

  // ----- Rewrites -----

  /** What a rewrite asks to change; `None` keeps the state's own value. */
  datatype Change = Change(intensity: Option<int>, frequency: Option<int>, kelvin: Option<int>, variant: Option<int>,
                           mode: Option<int>, hue: Option<int>, saturation: Option<int>, gm: Option<int>,
                           gmFlag: Option<bool>)

  /** `_effect_payload`; `defaultKelvin` stands in for a state without a white point. */
  function RewriteParams(s: EffectState, c: Change, defaultKelvin: int): Params
  {
    Params(Given(c.intensity, s.intensity), Given(c.frequency, s.frequency),
           if s.effect == WELDING || s.speed != 0 then Some(s.speed) else None, Some(s.trigger),
           if c.kelvin.Some? then c.kelvin.value
           else if s.kelvin.Some? && s.kelvin.value != 0 then s.kelvin.value else defaultKelvin,
           if c.gm.Some? then c.gm.value else Given(s.gm, 100), Given(c.gmFlag, s.gmFlag),
           Some(Given(c.variant, s.variant)), Some(Given(c.mode, s.mode)),
           if c.hue.Some? then c.hue.value else Given(s.hue, 0),
           if c.saturation.Some? then c.saturation else s.saturation)
  }

  /**
   The state with the changes made to what the effect carries, and nothing else. A colour mode
   switched to starts from the values asked for with it, or else from neutral ones.
   */
  function Changed(s: EffectState, c: Change, defaultKelvin: int): EffectState
  {
    if s.effect == OFF then s
    else
      var mode := if HasMode(s.effect) then Given(c.mode, s.mode) else s.mode;
      var cct := HasCct(s.effect, mode);
      s.(intensity := Given(c.intensity, s.intensity), frequency := Given(c.frequency, s.frequency),
         variant := if MaxVariant(s.effect) > 0 then Given(c.variant, s.variant) else s.variant,
         mode := mode,
         kelvin := if cct then Some(Given(c.kelvin, Given(s.kelvin, defaultKelvin))) else None,
         gm := if cct then Some(Given(c.gm, Given(s.gm, 100))) else None,
         gmFlag := cct && Given(c.gmFlag, s.gmFlag),
         hue := if HasHue(s.effect, mode) then Some(Given(c.hue, Given(s.hue, 0))) else None,
         saturation := if HasSaturation(s.effect, mode) then Some(Given(c.saturation, Given(s.saturation, 100))) else None)
  }

  /** Every value fits its wire field, a white point and a coarse tint in whole tens. */
  predicate Representable(s: EffectState)
  {
    s.effect < OFF ==>
      && 0 <= s.intensity <= MAX_INTENSITY
      && 1 <= s.frequency <= MaxFrequency(s.effect)
      && (MaxVariant(s.effect) > 0 ==> 0 <= s.variant <= MaxVariant(s.effect))
      && (HasMode(s.effect) ==> 0 <= s.mode <= 1)
      && (s.kelvin.Some? ==> MIN_KELVIN <= s.kelvin.value <= MAX_KELVIN && s.kelvin.value % 10 == 0)
      && (s.gm.Some? ==> 0 <= s.gm.value <= 200 && (s.gmFlag || s.gm.value % 10 == 0))
      && (s.hue.Some? ==> 0 <= s.hue.value <= 360)
      && (s.saturation.Some? ==> 0 <= s.saturation.value <= 100)
  }

  lemma ClampAgain(v: int, low: int, high: int)
    requires low <= high
    ensures Clamp(Clamp(v, low, high), low, high) == Clamp(v, low, high) && low <= Clamp(v, low, high) <= high
    ensures low <= v <= high <==> Clamp(v, low, high) == v
  {
  }

  lemma TenKelvinAgain(kelvin: int)
    ensures TenKelvin(TenKelvin(kelvin) * 10) == TenKelvin(kelvin) && TenKelvin(kelvin) * 10 != 0
    ensures MIN_KELVIN <= kelvin <= MAX_KELVIN && kelvin % 10 == 0 <==> TenKelvin(kelvin) * 10 == kelvin
  {
  }

  lemma CoarseAgain(gm: int)
    ensures 0 <= gm <= 200 && gm % 10 == 0 <==> CoarseGm(gm) * 10 == gm
  {
  }

  /** The colour mode asked for is the one encoded, exactly when there is such a mode. */
  lemma ModeAgain(effect: nat, p: Params, c: Change, defaultKelvin: int)
    requires effect < OFF
    ensures var s := StateOf(effect, p);
            HasMode(effect) ==>
              (ModeOf(RewriteParams(s, c, defaultKelvin)) == Given(c.mode, s.mode) <==> 0 <= Given(c.mode, s.mode) <= 1)
  {
  }

  /** What an effect carries does not depend on a mode it does not have. */
  lemma CarriesAgain(effect: nat, mode: int, again: int)
    requires HasMode(effect) ==> again == mode
    ensures HasCct(effect, again) == HasCct(effect, mode) && HasHue(effect, again) == HasHue(effect, mode)
    ensures HasSaturation(effect, again) == HasSaturation(effect, mode)
  {
  }

  /** A tint survives encoding exactly when its precision lets it. */
  lemma TintAgain(gm: int, gmFlag: bool)
    ensures (if gmFlag then Clamp(gm, 0, 200) else CoarseGm(gm) * 10) == gm
            <==> 0 <= gm <= 200 && (gmFlag || gm % 10 == 0)
  {
    CoarseAgain(gm);
    ClampAgain(gm, 0, 200);
    hide Clamp, CoarseGm;
  }

  /** A white point kept is the state's own, which is never zero. */
  lemma WhiteAgain(effect: nat, p: Params, c: Change, defaultKelvin: int)
    requires effect < OFF
    ensures var s := StateOf(effect, p);
            RewriteParams(s, c, defaultKelvin).kelvin == Given(c.kelvin, Given(s.kelvin, defaultKelvin))
  {
    TenKelvinAgain(p.kelvin);
    hide TenKelvin;
  }

  /** The state a rewrite stands for is the old one with the change made, exactly when the packet can carry it. */
  lemma RewrittenState(effect: nat, p: Params, c: Change, defaultKelvin: int)
    requires effect < OFF
    ensures var s := StateOf(effect, p);
            StateOf(effect, RewriteParams(s, c, defaultKelvin)) == Changed(s, c, defaultKelvin)
            <==> Representable(Changed(s, c, defaultKelvin))
  {
    var s := StateOf(effect, p);
    var again := RewriteParams(s, c, defaultKelvin);
    ModeAgain(effect, p, c, defaultKelvin);
    if !HasMode(effect) || ModeOf(again) == Given(c.mode, s.mode) {
      CarriesAgain(effect, Changed(s, c, defaultKelvin).mode, ModeOf(again));
    }
    WhiteAgain(effect, p, c, defaultKelvin);
    ClampAgain(again.intensity, 0, MAX_INTENSITY);
    ClampAgain(again.frequency, 1, MaxFrequency(effect));
    SpeedAgain(effect, p.speed);
    ClampAgain(Given(p.trigger, DefaultTrigger(effect)), 0, 3);
    TenKelvinAgain(again.kelvin);
    ClampAgain(Given(again.variant, 0), 0, MaxVariant(effect));
    ClampAgain(again.hue, 0, 360);
    ClampAgain(Given(again.saturation, 100), 0, 100);
    TintAgain(again.gm, again.gmFlag);
    hide Clamp, TenKelvin, CoarseGm, SpeedOf, ModeOf, HasCct, HasHue, HasSaturation, HasSpeed, HasMode, MaxVariant,
      MaxFrequency, DefaultTrigger;
  }

  lemma SpeedAgain(effect: nat, speed: Option<int>)
    ensures SpeedOf(effect, Some(SpeedOf(effect, speed))) == SpeedOf(effect, speed)
    ensures effect != WELDING ==> SpeedOf(effect, speed) != 0
  {
  }

  /** Every state the encoder can produce is one it can produce again. */
  lemma ProducedRepresentable(effect: nat, p: Params)
    requires effect <= OFF
    ensures Representable(StateOf(effect, p))
  {
  }

  /**
   Rewriting an effect: for every effect, colour mode and state its encoder can produce, the
   rebuilt packet decodes to the old state with just the asked changes made exactly when every
   value of the changed state fits its field and a coarse packet has a tint of whole tens. A
   parameter the effect does not carry changes nothing.
   */
  lemma RewriteChangesOnly(effect: nat, p: Params, c: Change, defaultKelvin: int)
    requires effect <= OFF
    ensures var s := StateOf(effect, p);
            && Decode(Effect(effect, p)) == Some(s)
            && (Decode(Effect(s.effect, RewriteParams(s, c, defaultKelvin))) == Some(Changed(s, c, defaultKelvin))
                <==> Representable(Changed(s, c, defaultKelvin)))
  {
    var s := StateOf(effect, p);
    RoundTrip(effect, p);
    RoundTrip(effect, RewriteParams(s, c, defaultKelvin));
    if effect < OFF {
      RewrittenState(effect, p, c, defaultKelvin);
    }
  }
}
