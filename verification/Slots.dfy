/**
 Tables of bit slots, one named effect parameter each, and what writing a packet by such a
 table and reading it back comes to. Both effect codecs are instances.

 A table lists its slots from the highest bit down; the builders OR the same slots in.
 */
module Slots {
  import opened Prelude
  import opened Bits

  /** Effect parameters, of both generations; the last six are how the first one splits two of them. */
  datatype Name =
    | Intensity | Frequency | Speed | Mode | Kelvin | Gm | Hue | Saturation | CenterKelvin | MinKelvin | MaxKelvin
    | MinHue | MaxHue | MinIntensity | GapTime | MinGapTime | Decay | Color | GelKelvin | GelOrigin | GelType | Variant
    | Trigger | CctHigh | CctLow | GmFlag | GmHigh | GmLow

  type Values = map<Name, int>

  /** Where one parameter sits, its largest wire value, and how many units one wire step is. */
  datatype Slot = Slot(name: Name, start: nat, width: nat, top: nat, unit: nat) {
    function End(): nat { start + width }
    /** `_clamp(v, 0, top)`, or `_kelvin_to_wire(v)` */
    function Wire(v: int): nat
      requires unit > 0
    {
      Max(0, Min(v / unit, top))
    }
    /** What a stored value decodes to. */
    function Stored(v: int): nat
      requires unit > 0
    {
      Wire(v) * unit
    }
  }

  function Plain(name: Name, start: nat, width: nat, top: nat): Slot
  {
    Slot(name, start, width, top, 1)
  }

  /** Each slot ends at or below the start of the one before it, the first at or below `top`. */
  ghost predicate Stacked(slots: seq<Slot>, top: nat)
  {
    && (|slots| > 0 ==> slots[0].End() <= top)
    && (forall i :: 0 <= i < |slots| - 1 ==> slots[i + 1].End() <= slots[i].start)
    && forall i :: 0 <= i < |slots| ==> slots[i].start >= 8 && slots[i].unit in {1, 50} && slots[i].top < Room(slots[i].width)
  }

  /** `1 << width`, for the widths the tables use. */
  function Room(width: nat): nat
  {
    match width
    case 1 => 2
    case 2 => 4
    case 3 => 8
    case 4 => 16
    case 6 => 64
    case 7 => 128
    case 8 => 256
    case 9 => 512
    case 10 => 1024
    case _ => 0
  }

  ghost predicate DistinctNames(slots: seq<Slot>)
  {
    forall i, j :: 0 <= i < j < |slots| ==> slots[i].name != slots[j].name
  }

  lemma RoomIsPow2(width: nat)
    ensures Room(width) <= Pow2(width)
  {
    if 1 <= width <= 10 {
      assert Pow2(5) == 2 * Pow2(4) == 4 * Pow2(3) == 8 * Pow2(2) == 16 * Pow2(1) == 32;
      assert Pow2(10) == 2 * Pow2(9) == 4 * Pow2(8) == 8 * Pow2(7) == 16 * Pow2(6) == 32 * Pow2(5);
    }
  }

  lemma StackedOn(lead: seq<Slot>, rest: seq<Slot>, top: nat, middle: nat)
    requires Stacked(lead, top) && Stacked(rest, middle) && middle <= top
    requires |lead| > 0 ==> middle <= lead[|lead| - 1].start
    ensures Stacked(lead + rest, top)
  {
    var all := lead + rest;
    forall i | 0 <= i < |all| - 1 ensures all[i + 1].End() <= all[i].start {
      if i + 1 < |lead| {
        assert lead[i + 1].End() <= lead[i].start;
      } else if i >= |lead| {
        assert rest[i - |lead| + 1].End() <= rest[i - |lead|].start;
      }
    }
  }

  lemma DistinctAppend(a: seq<Slot>, b: seq<Slot>)
    requires DistinctNames(a) && DistinctNames(b)
    requires forall i, j :: 0 <= i < |a| && 0 <= j < |b| ==> a[i].name != b[j].name
    ensures DistinctNames(a + b)
  {
  }

  function NamesOf(slots: seq<Slot>): set<Name>
  {
    if |slots| == 0 then {} else NamesOf(slots[..|slots| - 1]) + {slots[|slots| - 1].name}
  }

  predicate Provided(slots: seq<Slot>, values: Values)
  {
    forall i :: 0 <= i < |slots| ==> slots[i].name in values
  }

  function PlacedSlots(slots: seq<Slot>, values: Values): (r: seq<Placed>)
    requires Provided(slots, values) && forall i :: 0 <= i < |slots| ==> slots[i].unit > 0
    ensures |r| == |slots|
  {
    seq(|slots|, i requires 0 <= i < |slots| =>
        Placed(slots[i].Wire(values[slots[i].name]), slots[i].start, slots[i].width))
  }

  function ReadSlots(n: nat, slots: seq<Slot>): Values
  {
    if |slots| == 0 then map[]
    else
      var last := slots[|slots| - 1];
      ReadSlots(n, slots[..|slots| - 1])[last.name := Field(n, last.start, last.width) * last.unit]
  }

  /** What each slot holds of the values given. */
  function StoredSlots(slots: seq<Slot>, values: Values): Values
    requires Provided(slots, values) && forall i :: 0 <= i < |slots| ==> slots[i].unit > 0
  {
    if |slots| == 0 then map[]
    else
      var last := slots[|slots| - 1];
      StoredSlots(slots[..|slots| - 1], values)[last.name := last.Stored(values[last.name])]
  }

  lemma {:induction false} StackedApart(slots: seq<Slot>, top: nat, i: nat, j: nat)
    requires Stacked(slots, top) && i < j < |slots|
    ensures slots[j].End() <= slots[i].start && slots[i].End() <= top
    decreases j
  {
    if i + 1 < j {
      StackedApart(slots, top, i, j - 1);
      assert slots[j - 1 + 1].End() <= slots[j - 1].start;
    } else {
      assert slots[i + 1].End() <= slots[i].start;
    }
    StackedTop(slots, top, i);
  }

  lemma {:induction false} StackedTop(slots: seq<Slot>, top: nat, i: nat)
    requires Stacked(slots, top) && i < |slots|
    ensures slots[i].End() <= top
  {
    if i > 0 {
      StackedTop(slots, top, i - 1);
      assert slots[i - 1 + 1].End() <= slots[i - 1].start;
    }
  }

  lemma SlotsDisjoint(slots: seq<Slot>, values: Values, top: nat)
    requires Stacked(slots, top) && Provided(slots, values)
    ensures forall i :: 0 <= i < |slots| ==> slots[i].unit > 0
    ensures var placed := PlacedSlots(slots, values);
            PairwiseDisjoint(placed) && AllFit(placed)
            && forall i :: 0 <= i < |placed| ==> 8 <= placed[i].start && placed[i].End() <= top
  {
    var placed := PlacedSlots(slots, values);
    forall i, j | 0 <= i < j < |placed| ensures placed[i].Misses(placed[j]) {
      StackedApart(slots, top, i, j);
    }
    forall i | 0 <= i < |placed| ensures placed[i].Fits() && 8 <= placed[i].start && placed[i].End() <= top {
      StackedTop(slots, top, i);
      RoomIsPow2(slots[i].width);
    }
  }

  lemma FitTogether(low: seq<Placed>, high: seq<Placed>)
    requires AllFit(low) && AllFit(high)
    ensures AllFit(high + low)
  {
  }

  lemma {:induction false} SlotsRead(n: nat, slots: seq<Slot>, values: Values)
    requires Provided(slots, values) && forall i :: 0 <= i < |slots| ==> slots[i].unit > 0
    requires forall i :: 0 <= i < |slots| ==>
      Field(n, slots[i].start, slots[i].width) == slots[i].Wire(values[slots[i].name])
    ensures ReadSlots(n, slots) == StoredSlots(slots, values)
  {
    if |slots| > 0 {
      SlotsRead(n, slots[..|slots| - 1], values);
    }
  }

  lemma {:induction false} StoredKeys(slots: seq<Slot>, values: Values)
    requires Provided(slots, values) && forall i :: 0 <= i < |slots| ==> slots[i].unit > 0
    ensures StoredSlots(slots, values).Keys == NamesOf(slots)
  {
    if |slots| > 0 {
      StoredKeys(slots[..|slots| - 1], values);
    }
  }

  lemma {:induction false} NamesAre(slots: seq<Slot>, name: Name)
    ensures name in NamesOf(slots) <==> exists i :: 0 <= i < |slots| && slots[i].name == name
  {
    if |slots| > 0 {
      NamesAre(slots[..|slots| - 1], name);
      if name in NamesOf(slots[..|slots| - 1]) {
        var i :| 0 <= i < |slots| - 1 && slots[..|slots| - 1][i].name == name;
        assert slots[i].name == name;
      }
      if exists i :: 0 <= i < |slots| && slots[i].name == name {
        var i :| 0 <= i < |slots| && slots[i].name == name;
        if i < |slots| - 1 {
          assert slots[..|slots| - 1][i].name == name;
        }
      }
    }
  }

  lemma {:induction false} StoredAt(slots: seq<Slot>, values: Values, i: nat)
    requires Provided(slots, values) && (forall k :: 0 <= k < |slots| ==> slots[k].unit > 0) && DistinctNames(slots)
    requires i < |slots|
    ensures slots[i].name in StoredSlots(slots, values)
    ensures StoredSlots(slots, values)[slots[i].name] == slots[i].Stored(values[slots[i].name])
  {
    if i < |slots| - 1 {
      StoredAt(slots[..|slots| - 1], values, i);
      assert slots[..|slots| - 1][i] == slots[i];
    }
  }

  lemma {:induction false} StoredAppend(a: seq<Slot>, b: seq<Slot>, values: Values)
    requires Provided(a, values) && Provided(b, values) && Provided(a + b, values)
    requires forall i :: 0 <= i < |a| ==> a[i].unit > 0
    requires forall i :: 0 <= i < |b| ==> b[i].unit > 0
    ensures (forall i :: 0 <= i < |a + b| ==> (a + b)[i].unit > 0)
            && StoredSlots(a + b, values) == StoredSlots(a, values) + StoredSlots(b, values)
  {
    if |b| == 0 {
      assert a + b == a;
    } else {
      var before, last := b[..|b| - 1], b[|b| - 1];
      assert (a + b)[..|a + b| - 1] == a + before && (a + b)[|a + b| - 1] == last;
      StoredAppend(a, before, values);
      assert forall i :: 0 <= i < |a + b| ==> (a + b)[i].unit > 0;
      PutAppend(StoredSlots(a, values), StoredSlots(before, values), last.name, last.Stored(values[last.name]));
      hide Slot.Stored, Slot.Wire, Provided;
    }
  }

  lemma PutAppend(a: Values, b: Values, name: Name, value: int)
    ensures (a + b)[name := value] == a + b[name := value]
  {
  }

  lemma {:induction false} ReadKeys(n: nat, slots: seq<Slot>)
    ensures ReadSlots(n, slots).Keys == NamesOf(slots)
  {
    if |slots| > 0 {
      ReadKeys(n, slots[..|slots| - 1]);
    }
  }

  /** A value within the slot's reach, in whole steps of its unit. */
  predicate Representable(slot: Slot, value: int)
    requires slot.unit > 0
  {
    0 <= value <= slot.top * slot.unit && value % slot.unit == 0
  }

  /** Those are exactly the values the slot stores as they are. */
  lemma StoredExactly(slot: Slot, value: int)
    requires slot.unit in {1, 50}
    ensures Representable(slot, value) <==> slot.Stored(value) == value
  {
  }

  lemma StoredAgain(slot: Slot, v: int)
    requires slot.unit in {1, 50}
    ensures slot.Stored(slot.Stored(v)) == slot.Stored(v)
  {
    if slot.unit == 50 {
      var w := slot.Wire(v);
      assert (w * 50) / 50 == w;
    }
  }

  // ----- Storing again with changes -----

  /** `base` with the changes made to what it has, and nothing else. */
  function Overlay(base: Values, changes: Values): Values
  {
    map name | name in base :: if name in changes then changes[name] else base[name]
  }

  /** The values put in again: what was stored, with the changes laid over it. */
  ghost predicate PutAgain(slots: seq<Slot>, v: Values, again: Values, changes: Values)
  {
    && Provided(slots, v) && Provided(slots, again) && DistinctNames(slots)
    && (forall i :: 0 <= i < |slots| ==> slots[i].unit in {1, 50})
    && forall i :: 0 <= i < |slots| ==>
         again[slots[i].name]
         == if slots[i].name in changes then changes[slots[i].name] else slots[i].Stored(v[slots[i].name])
  }

  /** One slot of them. */
  lemma StoredChangeAt(slots: seq<Slot>, v: Values, again: Values, changes: Values, i: nat)
    requires PutAgain(slots, v, again, changes) && i < |slots|
    ensures slots[i].name in StoredSlots(slots, again) && slots[i].name in StoredSlots(slots, v)
    ensures slots[i].name !in changes ==>
              StoredSlots(slots, again)[slots[i].name] == StoredSlots(slots, v)[slots[i].name]
    ensures slots[i].name in changes ==>
              (StoredSlots(slots, again)[slots[i].name] == changes[slots[i].name]
               <==> Representable(slots[i], changes[slots[i].name]))
  {
    StoredAt(slots, v, i);
    StoredAt(slots, again, i);
    StoredAgain(slots[i], v[slots[i].name]);
    StoredExactly(slots[i], again[slots[i].name]);
    hide StoredSlots, Representable, Slot.Stored;
  }

  /**
   Storing what was stored, with some parameters changed, changes those and no others, exactly
   when every changed parameter's slot carries its new value.
   */
  lemma StoredChangeExact(slots: seq<Slot>, v: Values, again: Values, changes: Values)
    requires PutAgain(slots, v, again, changes)
    ensures var fits := forall i :: 0 <= i < |slots| && slots[i].name in changes ==>
                          Representable(slots[i], changes[slots[i].name]);
            StoredSlots(slots, again) == Overlay(StoredSlots(slots, v), changes) <==> fits
  {
    StoredKeys(slots, v);
    StoredKeys(slots, again);
    hide StoredSlots, NamesOf, DistinctNames, Representable, Slot.Stored;
    var before, after := StoredSlots(slots, v), StoredSlots(slots, again);
    forall i | 0 <= i < |slots|
      ensures slots[i].name in after && slots[i].name in before
      ensures slots[i].name !in changes ==> after[slots[i].name] == before[slots[i].name]
      ensures slots[i].name in changes ==>
                (after[slots[i].name] == changes[slots[i].name] <==> Representable(slots[i], changes[slots[i].name]))
    {
      StoredChangeAt(slots, v, again, changes, i);
    }
    if forall i :: 0 <= i < |slots| && slots[i].name in changes ==> Representable(slots[i], changes[slots[i].name]) {
      forall n | n in before ensures after[n] == Overlay(before, changes)[n] {
        NamesAre(slots, n);
        var i :| 0 <= i < |slots| && slots[i].name == n;
      }
      assert after == Overlay(before, changes);
    } else {
      var i :| 0 <= i < |slots| && slots[i].name in changes && !Representable(slots[i], changes[slots[i].name]);
      assert after[slots[i].name] != Overlay(before, changes)[slots[i].name];
    }
  }
}
