/**
 Two provisioning flows on one record at once, such as a reconfiguration and a repair of the same
 config entry. `pending.py` locks a single save, not the stretch from a save to the end of the
 exchange it was made for, so their steps may be interleaved at every `await`.
 */
module ConcurrentFlows {
  import opened Prelude
  import opened Provisioning
  import opened ProvisioningRuns

  /** The machine with two flows: the first is in the state. */
  datatype Both = Both(s: State, other: Option<Flow>)

  /** A step of either flow; what the world and Home Assistant do may be ascribed to either. */
  datatype Move = First(e: Event) | Second(e: Event)

  function Swapped(b: Both): Both
  {
    Both(b.s.(flow := b.other), b.s.flow)
  }

  function FirstMoved(b: Both, e: Event): Both
  {
    Both(Step(b.s, e), if e.Crash? then None else b.other)
  }

  function Moved(b: Both, m: Move): Both
  {
    match m
    case First(e) => FirstMoved(b, e)
    case Second(e) => Swapped(FirstMoved(Swapped(b), e))
  }

  function AfterMoves(b: Both, moves: seq<Move>): Both
  {
    if |moves| == 0 then b else Moved(AfterMoves(b, moves[..|moves| - 1]), moves[|moves| - 1])
  }

  // ----- One at a time -----

  /** Neither flow is entered while the other is under way. */
  ghost predicate Exclusive(b: Both, moves: seq<Move>)
  {
    |moves| == 0
    || (var before := moves[..|moves| - 1];
        Exclusive(b, before) && Alone(AfterMoves(b, before), moves[|moves| - 1]))
  }

  ghost predicate Alone(b: Both, m: Move)
  {
    match m
    case First(e) => e.Start? ==> b.other.None?
    case Second(e) => e.Start? ==> b.s.flow.None?
  }

  ghost predicate AtMostOne(b: Both)
  {
    b.s.flow.None? || b.other.None?
  }

  /** The single machine it then is. */
  function Merged(b: Both): State
  {
    b.s.(flow := if b.s.flow.Some? then b.s.flow else b.other)
  }

  predicate OfFlow(e: Event)
  {
    e.Load? || e.Probe? || e.Verify? || e.Save? || e.Connect? || e.Exchange? || e.SendData? || e.Complete? || e.Raise?
    || e.Finish?
  }

  /** What a move is to that machine: nothing, if it is a step of a flow that is not under way. */
  function AsOne(b: Both, m: Move): seq<Event>
  {
    match m
    case First(e) => if OfFlow(e) && b.s.flow.None? then [] else [e]
    case Second(e) => if OfFlow(e) && b.other.None? then [] else [e]
  }

  function AsOneRun(b: Both, moves: seq<Move>): seq<Event>
  {
    if |moves| == 0 then []
    else
      var before := moves[..|moves| - 1];
      AsOneRun(b, before) + AsOne(AfterMoves(b, before), moves[|moves| - 1])
  }

  /** A step that is not the flow's own does not look at it. */
  lemma StepElsewhere(s: State, e: Event, flow: Option<Flow>)
    requires !OfFlow(e) && !e.Start?
    ensures Step(s.(flow := flow), e) == Step(s, e).(flow := if e.Crash? then None else flow)
    ensures Step(s, e).flow == if e.Crash? then None else s.flow
  {
    hide Reconcile;
  }

  lemma FirstMerges(b: Both, e: Event)
    requires AtMostOne(b) && Alone(b, First(e))
    ensures var b' := FirstMoved(b, e);
            && AtMostOne(b')
            && Merged(b') == if OfFlow(e) && b.s.flow.None? then Merged(b) else Step(Merged(b), e)
  {
    hide FlowStep, WorldStep, EntryStep, Entered;
    if !OfFlow(e) && !e.Start? {
      StepElsewhere(b.s, e, b.other);
      hide Step;
      assert b.s.(flow := b.s.flow) == b.s;
    }
  }

  lemma MergedSwapped(b: Both)
    requires AtMostOne(b)
    ensures Merged(Swapped(b)) == Merged(b) && AtMostOne(Swapped(b))
  {
  }

  lemma MoveMerges(b: Both, m: Move)
    requires AtMostOne(b) && Alone(b, m)
    ensures AtMostOne(Moved(b, m)) && Merged(Moved(b, m)) == After(Merged(b), AsOne(b, m))
  {
    hide Step;
    match m
    case First(e) =>
      FirstMerges(b, e);
      OneStep(Merged(b), e);
    case Second(e) =>
      FirstMerges(Swapped(b), e);
      MergedSwapped(b);
      MergedSwapped(FirstMoved(Swapped(b), e));
      OneStep(Merged(b), e);
  }

  lemma OneStep(s: State, e: Event)
    ensures After(s, []) == s && After(s, [e]) == Step(s, e)
  {
    hide Step;
    assert [e][..0] == [];
  }

  /**
   Entered one at a time, two flows are one machine, so whatever holds of every run of one flow
   holds of them: among the rest, checked runs strand nothing.
   */
  lemma {:induction false} ExclusiveIsOne(b: Both, moves: seq<Move>)
    requires AtMostOne(b) && Exclusive(b, moves)
    ensures AtMostOne(AfterMoves(b, moves)) && Merged(AfterMoves(b, moves)) == After(Merged(b), AsOneRun(b, moves))
  {
    if |moves| > 0 {
      hide Moved, AsOne, Alone, Step, Merged, AtMostOne;
      var before, last := moves[..|moves| - 1], moves[|moves| - 1];
      ExclusiveIsOne(b, before);
      MoveMerges(AfterMoves(b, before), last);
      AfterAppend(Merged(b), AsOneRun(b, before), AsOne(AfterMoves(b, before), last));
    }
  }

  lemma ExclusiveSafe(b: Both, moves: seq<Move>)
    requires AtMostOne(b) && Exclusive(b, moves) && Inv(Merged(b)) && Guarded(Merged(b))
    requires CheckedRun(Merged(b), AsOneRun(b, moves))
    ensures NoneStranded(AfterMoves(b, moves).s)
  {
    hide Inv, Guarded, AtMostOne, Exclusive, AsOneRun;
    ExclusiveIsOne(b, moves);
    CheckedIsAimed(Merged(b), AsOneRun(b, moves));
    var end := AfterMoves(b, moves);
    SameWorld(Merged(end), end.s);
  }

  // ----- Interleaved -----

  /**
   The moment that matters: one flow's pre-DATA save, its DeviceKey being new, leaves nothing
   stranded if and only if no fixture has, or may still accept, what any earlier save was for.
   */
  lemma SecondSaveExactly(b: Both, args: Args, data: Data)
    requires NoneStranded(b.s) && UnusedKey(b.s, data.deviceKey)
    requires b.other == Some(Saving(args, Record(data, false), Send(data)))
    ensures NoneStranded(Moved(b, Second(Save(Saved))).s)
            <==> forall f :: !FixtureOf(b.s, f).Ours? && f !in b.s.inFlight
  {
    SendSaved(b.s.(flow := b.other), args, data);
    hide Step;
    var after := Moved(b, Second(Save(Saved))).s;
    assert after == b.s.(record := Some(Record(data, false)));
    if f :| FixtureOf(b.s, f).Ours? || f in b.s.inFlight {
      if FixtureOf(b.s, f).Ours? {
        assert !Recoverable(after.record, after.fixtures[f]);
      } else {
        assert !Recoverable(after.record, after.inFlight[f]);
      }
    } else {
      forall f | f in after.fixtures ensures Recoverable(after.record, after.fixtures[f]) {
        assert !FixtureOf(b.s, f).Ours?;
      }
    }
  }

  /** The same events as moves of the first flow. */
  function AllFirst(events: seq<Event>): (moves: seq<Move>)
    ensures |moves| == |events|
  {
    seq(|events|, i requires 0 <= i < |events| => First(events[i]))
  }

  function AllSecond(events: seq<Event>): (moves: seq<Move>)
    ensures |moves| == |events|
  {
    seq(|events|, i requires 0 <= i < |events| => Second(events[i]))
  }

  lemma {:induction false} FirstRuns(b: Both, events: seq<Event>)
    requires forall i :: 0 <= i < |events| ==> !events[i].Crash?
    ensures AfterMoves(b, AllFirst(events)) == Both(After(b.s, events), b.other)
  {
    if |events| > 0 {
      hide Step;
      FirstRuns(b, events[..|events| - 1]);
      assert AllFirst(events)[..|events| - 1] == AllFirst(events[..|events| - 1]);
    }
  }

  lemma {:induction false} SecondRuns(b: Both, events: seq<Event>)
    requires forall i :: 0 <= i < |events| ==> !events[i].Crash?
    ensures AfterMoves(b, AllSecond(events)) == Swapped(Both(After(b.s.(flow := b.other), events), b.s.flow))
  {
    if |events| > 0 {
      hide Step;
      SecondRuns(b, events[..|events| - 1]);
      assert AllSecond(events)[..|events| - 1] == AllSecond(events[..|events| - 1]);
    } else {
      assert b.s.(flow := b.other).(flow := b.s.flow) == b.s;
    }
  }

  lemma {:induction false} MovesAppend(b: Both, x: seq<Move>, y: seq<Move>)
    ensures AfterMoves(b, x + y) == AfterMoves(AfterMoves(b, x), y)
  {
    if |y| == 0 {
      assert x + y == x;
    } else {
      hide Moved;
      MovesAppend(b, x, y[..|y| - 1]);
      assert (x + y)[..|x + y| - 1] == x + y[..|y| - 1];
    }
  }

  /** A flow's entry was checked when it was made, and the keys it saves are new. */
  ghost predicate MoveChecked(at: Both, m: Move)
  {
    match m
    case First(e) => Checked(at.s, e) && DistinctKeys(at.s, e)
    case Second(e) => Checked(Swapped(at).s, e) && DistinctKeys(Swapped(at).s, e)
  }

  ghost predicate AllChecked(b: Both, moves: seq<Move>)
  {
    |moves| == 0
    || (var before := moves[..|moves| - 1];
        AllChecked(b, before) && MoveChecked(AfterMoves(b, before), moves[|moves| - 1]))
  }

  lemma {:induction false} CheckedAppend(b: Both, x: seq<Move>, y: seq<Move>)
    requires AllChecked(b, x) && AllChecked(AfterMoves(b, x), y)
    ensures AllChecked(b, x + y)
  {
    if |y| == 0 {
      assert x + y == x;
    } else {
      hide Moved, MoveChecked, AfterMoves;
      CheckedAppend(b, x, y[..|y| - 1]);
      MovesAppend(b, x, y[..|y| - 1]);
      assert (x + y)[..|x + y| - 1] == x + y[..|y| - 1];
    }
  }

  /** One stretch of a flow: entered, if it is, only at its first step. */
  ghost predicate Stretch(s: State, events: seq<Event>)
  {
    && DistinctRun(s, events) && (|events| > 0 ==> Checked(s, events[0]))
    && (forall i :: 0 <= i < |events| ==> !events[i].Crash? && (i > 0 ==> !events[i].Start?))
  }

  lemma StretchPrefix(s: State, events: seq<Event>)
    requires Stretch(s, events) && |events| > 0
    ensures Stretch(s, events[..|events| - 1])
    ensures var at := After(s, events[..|events| - 1]);
            DistinctKeys(at, events[|events| - 1]) && Checked(at, events[|events| - 1])
  {
    hide DistinctKeys, Step, SoleOwner;
    if |events| == 1 {
      assert events[..0] == [];
    }
  }

  lemma {:induction false} FirstChecked(b: Both, events: seq<Event>)
    requires Stretch(b.s, events)
    ensures AllChecked(b, AllFirst(events))
  {
    if |events| > 0 {
      hide Step, Checked, DistinctKeys, Stretch;
      StretchPrefix(b.s, events);
      FirstChecked(b, events[..|events| - 1]);
      NoCrash(b.s, events[..|events| - 1]);
      FirstRuns(b, events[..|events| - 1]);
      assert AllFirst(events)[..|events| - 1] == AllFirst(events[..|events| - 1]);
    }
  }

  lemma {:induction false} SecondChecked(b: Both, events: seq<Event>)
    requires Stretch(b.s.(flow := b.other), events)
    ensures AllChecked(b, AllSecond(events))
  {
    if |events| > 0 {
      hide Step, Checked, DistinctKeys, Stretch;
      StretchPrefix(b.s.(flow := b.other), events);
      SecondChecked(b, events[..|events| - 1]);
      NoCrash(b.s.(flow := b.other), events[..|events| - 1]);
      SecondRuns(b, events[..|events| - 1]);
      assert AllSecond(events)[..|events| - 1] == AllSecond(events[..|events| - 1]);
      SwappedTwice(Both(After(b.s.(flow := b.other), events[..|events| - 1]), b.s.flow));
    }
  }

  lemma SwappedTwice(b: Both)
    ensures Swapped(Swapped(b)) == b
  {
    assert b.s.(flow := b.other).(flow := b.s.flow) == b.s;
  }

  lemma NoCrash(s: State, events: seq<Event>)
    requires Stretch(s, events)
    ensures forall i :: 0 <= i < |events| ==> !events[i].Crash?
  {
    hide DistinctRun, Checked;
  }

  /** A repair poised to save a new DeviceKey for `target`, which its user has reset. */
  lemma Poised(s: State, target: nat, address: nat, data: Data, deviceKey: nat, storeId: nat) returns (t: State, sent: Data)
    requires s.flow.None? && s.record.Some? && s.entry == Some(data) && data.address == s.key && SoleOwner(s, target)
    ensures var events := Preparing(target, address, Repair(data), deviceKey, storeId);
            Stretch(s, events) && After(s, events) == t
    ensures sent.deviceKey == deviceKey && t.record.Some?
    ensures t == s.(flow := Some(Saving(Args(target, address, Repair(data)), Record(sent, false), Send(sent))),
                    record := t.record, fixtures := s.fixtures[target := Unprovisioned],
                    inFlight := s.inFlight - {target}, minted := t.minted)
  {
    var args := Args(target, address, Repair(data));
    var events := Preparing(target, address, Repair(data), deviceKey, storeId);
    Starts(s);
    t := Prepares(s, [], s, args, address, Repair(data), deviceKey, storeId);
    assert [] + events == events;
    sent := t.flow.value.next.data;
    hide Step, AimedRun, SoleOwner, After;
    assert events == [Start(target, address, Repair(data)), Reset(target), Load(storeId), Probe(storeId), Save(Saved),
                      Connect(0, 0, storeId), Exchange(deviceKey)];
  }

  /** From its pre-DATA save to the fixture's acceptance. */
  function Accepting(g: nat): seq<Event>
  {
    [Save(Saved), SendData, Accept(g)]
  }

  lemma Sends(s: State, args: Args, data: Data)
    requires s.flow == Some(Saving(args, Record(data, false), Send(data))) && FixtureOf(s, args.target).Unprovisioned?
    requires DistinctKeys(s, Save(Saved))
    ensures Stretch(s, Accepting(args.target))
    ensures After(s, Accepting(args.target))
            == s.(flow := Some(Awaiting(args, data)), record := Some(Record(data, false)),
                  fixtures := s.fixtures[args.target := Credentials(data)], inFlight := s.inFlight - {args.target},
                  held := s.held + {(data.netKey, data.deviceKey)})
  {
    var g := args.target;
    var t1 := s.(flow := Some(Sending(args, data)), record := Some(Record(data, false)));
    var t2 := t1.(flow := Some(Awaiting(args, data)), inFlight := s.inFlight[g := Credentials(data)]);
    SendSaved(s, args, data);
    DataSent(t1, args, data);
    DataAccepted(t2, g);
    assert s.inFlight[g := Credentials(data)] - {g} == s.inFlight - {g};
    hide Step, DistinctKeys;
    ThreeSteps(s, Save(Saved), SendData, Accept(g));
    Starts(s);
    ThreeDistinct(s, t1, t2, g);
  }

  lemma ThreeDistinct(s: State, t1: State, t2: State, g: nat)
    requires DistinctKeys(s, Save(Saved)) && Step(s, Save(Saved)) == t1 && Step(t1, SendData) == t2
    ensures DistinctRun(s, Accepting(g))
  {
    hide Step;
    var e := Accepting(g);
    assert e[..2] == [Save(Saved), SendData] && e[..2][..1] == [Save(Saved)] && e[..2][..1][..0] == [];
    assert DistinctRun(s, e[..2][..1][..0]);
    assert After(s, e[..2][..1][..0]) == s;
    assert DistinctRun(s, e[..2][..1]);
  }

  lemma SetupStretch(key: nat, g: nat, netKey: nat, appKey: nat, storeId: nat, deviceKey: nat)
    ensures var setup := FirstSetup(key, g, netKey, appKey, storeId, deviceKey);
            && Stretch(New(key), setup)
            && After(New(key), setup) == SetUp(key, g, Data(key, None, netKey, appKey, deviceKey, Some(storeId), true))
  {
    var setup := FirstSetup(key, g, netKey, appKey, storeId, deviceKey);
    SetsUp(key, g, netKey, appKey, storeId, deviceKey);
    assert Checked(New(key), Start(g, key, Fresh));
    hide Step, After, DistinctRun, AimedRun, Checked;
    assert setup == [Start(g, key, Fresh), Load(storeId), Connect(netKey, appKey, storeId), Exchange(deviceKey), Save(Saved),
                     SendData, Accept(g), Complete, Save(Saved), Finish];
  }

  /** No fixture of ours, and nothing in flight. */
  ghost predicate Untouched(s: State)
  {
    s.inFlight == map[] && forall f :: !FixtureOf(s, f).Ours?
  }

  lemma UntouchedFits(s: State, g: nat)
    requires Untouched(s)
    ensures SoleOwner(s, g) && DistinctKeys(s, Save(Saved)) && NoneStranded(s)
  {
    forall f | f in s.fixtures ensures !s.fixtures[f].Ours? {
      assert !FixtureOf(s, f).Ours?;
    }
  }

  /** The first repair poised, then the second, each alone with its fixture when it was entered. */
  lemma BothPoised(s: State, g: nat, other: nat, address: nat, otherAddress: nat, storeId: nat, firstKey: nat, secondKey: nat)
    returns (moves: seq<Move>, sent: Data, otherSent: Data, b: Both)
    requires s.flow.None? && s.record.Some? && s.entry.Some? && s.entry.value.address == s.key && g != other
    requires s.inFlight == map[] && s.fixtures.Keys <= {g}
    ensures AllChecked(Both(s, None), moves) && AfterMoves(Both(s, None), moves) == b && Untouched(b.s)
    ensures sent.deviceKey == firstKey && otherSent.deviceKey == secondKey
    ensures b.s.flow == Some(Saving(Args(g, address, Repair(s.entry.value)), Record(sent, false), Send(sent)))
    ensures b.other
            == Some(Saving(Args(other, otherAddress, Repair(s.entry.value)), Record(otherSent, false), Send(otherSent)))
    ensures FixtureOf(b.s, g).Unprovisioned?
  {
    var data := s.entry.value;
    var first := Preparing(g, address, Repair(data), firstKey, storeId);
    var second := Preparing(other, otherAddress, Repair(data), secondKey, storeId);
    var t, u;
    t, sent := Poised(s, g, address, data, firstKey, storeId);
    var idle := t.(flow := None);
    assert Untouched(idle);
    UntouchedFits(idle, other);
    u, otherSent := Poised(idle, other, otherAddress, data, secondKey, storeId);
    hide Stretch, AllChecked, Preparing, After, AfterMoves, SoleOwner, DistinctKeys, NoneStranded;
    var start := Both(s, None);
    NoCrash(s, first);
    FirstChecked(start, first);
    FirstRuns(start, first);
    NoCrash(idle, second);
    SecondChecked(Both(t, None), second);
    SecondRuns(Both(t, None), second);
    CheckedAppend(start, AllFirst(first), AllSecond(second));
    MovesAppend(start, AllFirst(first), AllSecond(second));
    moves := AllFirst(first) + AllSecond(second);
    b := Swapped(Both(u, t.flow));
  }

  /** Then the first provisions its fixture. */
  lemma FirstProvisions(b: Both, args: Args, sent: Data, deviceKey: nat) returns (c: Both)
    requires Untouched(b.s) && FixtureOf(b.s, args.target).Unprovisioned? && sent.deviceKey != deviceKey
    requires b.s.flow == Some(Saving(args, Record(sent, false), Send(sent)))
    ensures var moves := AllFirst(Accepting(args.target)); AllChecked(b, moves) && AfterMoves(b, moves) == c
    ensures c.other == b.other && FixtureOf(c.s, args.target) == Credentials(sent)
    ensures NoneStranded(c.s) && UnusedKey(c.s, deviceKey)
  {
    var g := args.target;
    UntouchedFits(b.s, g);
    Sends(b.s, args, sent);
    c := Both(After(b.s, Accepting(g)), b.other);
    assert FixtureOf(c.s, g) == Credentials(sent) && UnusedKey(c.s, deviceKey) && NoneStranded(c.s) by {
      assert forall f :: f in b.s.fixtures ==> !FixtureOf(b.s, f).Ours?;
    }
    hide Stretch, AllChecked, AfterMoves, SoleOwner, DistinctKeys, NoneStranded, Untouched, UnusedKey, Accepting, Step;
    FirstChecked(b, Accepting(g));
    NoCrash(b.s, Accepting(g));
    FirstRuns(b, Accepting(g));
  }

  /** And the second saves. */
  lemma SecondSaves(c: Both, args: Args, sent: Data, g: nat)
    requires NoneStranded(c.s) && UnusedKey(c.s, sent.deviceKey) && FixtureOf(c.s, g).Ours?
    requires c.other == Some(Saving(args, Record(sent, false), Send(sent)))
    ensures AllChecked(c, [Second(Save(Saved))])
    ensures var end := AfterMoves(c, [Second(Save(Saved))]).s;
            && !NoneStranded(end) && FixtureOf(end, g) == FixtureOf(c.s, g) && end.record == Some(Record(sent, false))
  {
    var moves := [Second(Save(Saved))];
    assert moves[..0] == [];
    assert AfterMoves(c, moves[..0]) == c && AllChecked(c, moves[..0]);
    SendSaved(c.s.(flow := c.other), args, sent);
    SecondSaveExactly(c, args, sent);
    hide Step, NoneStranded;
  }

  lemma RepairsInterleave(s: State, g: nat, other: nat, address: nat, otherAddress: nat, storeId: nat, firstKey: nat,
                          secondKey: nat) returns (moves: seq<Move>)
    requires s.flow.None? && s.record.Some? && s.entry.Some? && s.entry.value.address == s.key && g != other
    requires s.inFlight == map[] && s.fixtures.Keys <= {g} && firstKey != secondKey
    ensures AllChecked(Both(s, None), moves)
    ensures var end := AfterMoves(Both(s, None), moves).s;
            && !NoneStranded(end) && FixtureOf(end, g).Ours? && FixtureOf(end, g).deviceKey == firstKey
            && end.record.Some? && end.record.value.data.deviceKey == secondKey
  {
    hide AllChecked, AfterMoves, NoneStranded, Untouched, UnusedKey, Accepting, FixtureOf, AllFirst;
    var poised, sent, otherSent, b := BothPoised(s, g, other, address, otherAddress, storeId, firstKey, secondKey);
    var args := Args(g, address, Repair(s.entry.value));
    var c := FirstProvisions(b, args, sent, secondKey);
    SecondSaves(c, Args(other, otherAddress, Repair(s.entry.value)), otherSent, g);
    var sending, last := AllFirst(Accepting(g)), [Second(Save(Saved))];
    CheckedAppend(b, sending, last);
    MovesAppend(b, sending, last);
    CheckedAppend(Both(s, None), poised, sending + last);
    MovesAppend(Both(s, None), poised, sending + last);
    moves := poised + (sending + last);
  }

  /**
   From a new installation, both checks in order and every key new: two repairs of one entry,
   pointed at two fixtures the user has reset, are entered before either has sent anything. The
   first provisions its fixture; the second's save then takes that fixture's DeviceKey.
   */
  lemma TwoRepairsStrand(key: nat, g: nat, other: nat, address: nat, otherAddress: nat, netKey: nat, appKey: nat,
                         storeId: nat, deviceKey: nat, firstKey: nat, secondKey: nat) returns (moves: seq<Move>)
    requires g != other && firstKey != secondKey
    ensures AllChecked(Both(New(key), None), moves)
    ensures var end := AfterMoves(Both(New(key), None), moves).s;
            && !NoneStranded(end) && FixtureOf(end, g).Ours? && FixtureOf(end, g).deviceKey == firstKey
            && end.record.Some? && end.record.value.data.deviceKey == secondKey
  {
    var s := SetUp(key, g, Data(key, None, netKey, appKey, deviceKey, Some(storeId), true));
    var setup := FirstSetup(key, g, netKey, appKey, storeId, deviceKey);
    SetupStretch(key, g, netKey, appKey, storeId, deviceKey);
    var more := RepairsInterleave(s, g, other, address, otherAddress, storeId, firstKey, secondKey);
    hide Stretch, AllChecked, FirstSetup, SetUp, After, AfterMoves, NoneStranded;
    var b := Both(New(key), None);
    FirstChecked(b, setup);
    NoCrash(New(key), setup);
    FirstRuns(b, setup);
    CheckedAppend(b, AllFirst(setup), more);
    MovesAppend(b, AllFirst(setup), more);
    moves := AllFirst(setup) + more;
  }
}
