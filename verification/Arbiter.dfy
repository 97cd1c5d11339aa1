/**
 The latest-wins arbiter of `device.py`: slider requests merging into one pending slot, one
 operation lock, and the discrete commands that make every earlier request obsolete. Each
 step below is the code between two awaits of one service call.
 */
module Arbiter {
  import opened Prelude

  type Kelvin = int
  type Hue = (real, real)

  /** What one service call asks for; brightness only when the call changes it. */
  datatype Patch = Patch(intensity: Option<nat>, kelvin: Option<Kelvin>, hs: Option<Hue>) {
    predicate Parameterized() { intensity.Some? || kelvin.Some? || hs.Some? }
  }

  /** The look a request stands for. */
  datatype Target = Target(intensity: Option<nat>, kelvin: Option<Kelvin>, hs: Option<Hue>)

  const NOTHING := Target(None, None, None)

  /** The merge in `_register_steady_request` */
  function Merge(t: Target, p: Patch): Target
  {
    var intensity := if p.intensity.Some? then p.intensity else t.intensity;
    if p.hs.Some? then Target(intensity, None, p.hs)
    else if p.kelvin.Some? then Target(intensity, p.kelvin, None)
    else Target(intensity, t.kelvin, t.hs)
  }

  function Fold(patches: seq<Patch>): Target
  {
    if |patches| == 0 then NOTHING else Merge(Fold(patches[..|patches| - 1]), patches[|patches| - 1])
  }

  // ----- The fold is the latest word on each aspect -----

  /** `i` is the last patch that says anything about brightness. */
  ghost predicate LatestBrightness(patches: seq<Patch>, i: nat)
  {
    i < |patches| && patches[i].intensity.Some? && forall j :: i < j < |patches| ==> patches[j].intensity.None?
  }

  /** `i` is the last patch that says anything about colour. */
  ghost predicate LatestColour(patches: seq<Patch>, i: nat)
  {
    && i < |patches| && (patches[i].kelvin.Some? || patches[i].hs.Some?)
    && forall j :: i < j < |patches| ==> patches[j].kelvin.None? && patches[j].hs.None?
  }

  ghost predicate NeverBoth(t: Target)
  {
    t.kelvin.None? || t.hs.None?
  }

  lemma {:induction false} FoldIsLatest(patches: seq<Patch>)
    ensures NeverBoth(Fold(patches))
    ensures forall i: nat :: LatestBrightness(patches, i) ==> Fold(patches).intensity == patches[i].intensity
    ensures (forall i :: 0 <= i < |patches| ==> patches[i].intensity.None?) ==> Fold(patches).intensity.None?
    ensures forall i: nat :: LatestColour(patches, i) ==>
      Fold(patches).hs == patches[i].hs && Fold(patches).kelvin == if patches[i].hs.Some? then None else patches[i].kelvin
    ensures (forall i :: 0 <= i < |patches| ==> patches[i].kelvin.None? && patches[i].hs.None?) ==>
      Fold(patches).kelvin.None? && Fold(patches).hs.None?
  {
    if |patches| > 0 {
      var before := patches[..|patches| - 1];
      FoldIsLatest(before);
      forall i: nat | LatestBrightness(patches, i) ensures Fold(patches).intensity == patches[i].intensity {
        if i < |before| {
          assert LatestBrightness(before, i);
        }
      }
      forall i: nat | LatestColour(patches, i)
        ensures Fold(patches).hs == patches[i].hs
                && Fold(patches).kelvin == if patches[i].hs.Some? then None else patches[i].kelvin
      {
        if i < |before| {
          assert LatestColour(before, i);
        }
      }
    }
  }

  // ----- The machine -----

  datatype Phase = Waiting | Running | Finished

  /** One slider call; `epoch` counts the discrete commands that came before it. */
  datatype Request = Request(target: Target, superseded: bool, phase: Phase, epoch: nat)

  /** Who holds the operation lock. */
  datatype Holder = Nobody | Slider(i: nat) | Discrete

  /** One transaction a slider request started: which, at which epoch, with what look. */
  datatype Begun = Begun(request: nat, epoch: nat, target: Target)

  /** `since` lists the patches registered since the slot was last empty. */
  datatype State = State(requests: seq<Request>, pending: Option<nat>, lock: Holder, epoch: nat, since: seq<Patch>,
                         begun: seq<Begun>)

  datatype Event =
    | Register(patch: Patch)
    | Acquire(i: nat)
    | NoticeSuperseded(i: nat)
    | Finish(i: nat)
    | Cancel(i: nat)
    | Invalidate
    | DiscreteAcquire
    | DiscreteRelease

  function Superseding(s: State, p: Option<nat>): seq<Request>
  {
    if p.Some? && p.value < |s.requests| then s.requests[p.value := s.requests[p.value].(superseded := true)]
    else s.requests
  }

  function PendingTarget(s: State): Target
  {
    if s.pending.Some? && s.pending.value < |s.requests| then s.requests[s.pending.value].target else NOTHING
  }

  /** The call ends: its request is finished, its lock free, and the slot empty if it was the pending one. */
  function End(s: State, i: nat): State
    requires i < |s.requests|
  {
    s.(requests := s.requests[i := s.requests[i].(phase := Finished)],
       lock := if s.lock == Slider(i) then Nobody else s.lock,
       pending := if s.pending == Some(i) then None else s.pending,
       since := if s.pending == Some(i) then [] else s.since)
  }

  function Step(s: State, e: Event): State
  {
    match e
    case Register(patch) =>
      if !patch.Parameterized() then s
      else
        var request := Request(Merge(PendingTarget(s), patch), false, Waiting, s.epoch);
        s.(requests := Superseding(s, s.pending) + [request], pending := Some(|s.requests|), since := s.since + [patch])
    case Acquire(i) =>
      if i >= |s.requests| || !s.requests[i].phase.Waiting? || !s.lock.Nobody? then s
      else if s.requests[i].superseded then End(s, i)
      else
        s.(requests := s.requests[i := s.requests[i].(phase := Running)], lock := Slider(i),
           begun := s.begun + [Begun(i, s.epoch, s.requests[i].target)])
    case NoticeSuperseded(i) =>
      if i >= |s.requests| || !s.requests[i].phase.Running? || !s.requests[i].superseded then s else End(s, i)
    case Finish(i) =>
      if i >= |s.requests| || !s.requests[i].phase.Running? then s else End(s, i)
    case Cancel(i) =>
      if i >= |s.requests| || s.requests[i].phase.Finished? then s
      else End(s.(requests := s.requests[i := s.requests[i].(superseded := true)]), i)
    case Invalidate =>
      s.(requests := Superseding(s, s.pending), pending := None, since := [], epoch := s.epoch + 1)
    case DiscreteAcquire => if s.lock.Nobody? then s.(lock := Discrete) else s
    case DiscreteRelease => if s.lock.Discrete? then s.(lock := Nobody) else s
  }

  function After(s: State, events: seq<Event>): State
  {
    if |events| == 0 then s else Step(After(s, events[..|events| - 1]), events[|events| - 1])
  }

  const START := State([], None, Nobody, 0, [], [])

  // ----- Invariants -----

  ghost predicate Live(s: State, i: nat)
  {
    i < |s.requests| && !s.requests[i].phase.Finished? && !s.requests[i].superseded
  }

  /** Exactly the pending request is live, and it stands for everything asked since the slot was empty. */
  ghost predicate Inv(s: State)
  {
    && (forall i: nat :: Live(s, i) <==> s.pending == Some(i))
    && (s.pending.Some? ==> s.pending.value < |s.requests| && s.requests[s.pending.value].epoch == s.epoch)
    && PendingTarget(s) == Fold(s.since) && (s.pending.None? ==> s.since == [])
    && (forall i :: 0 <= i < |s.requests| ==> (s.requests[i].phase.Running? <==> s.lock == Slider(i)))
    && (s.lock.Slider? ==> s.lock.i < |s.requests|)
  }

  /** Every transaction was begun by a request of its own epoch. */
  ghost predicate BegunFresh(s: State)
  {
    forall k :: 0 <= k < |s.begun| ==>
      s.begun[k].request < |s.requests| && s.requests[s.begun[k].request].epoch == s.begun[k].epoch
      && s.begun[k].target == s.requests[s.begun[k].request].target
  }

  lemma RegisterKeeps(s: State, patch: Patch)
    requires Inv(s) && patch.Parameterized()
    ensures Inv(Step(s, Register(patch)))
  {
    hide Merge;
    var s' := Step(s, Register(patch));
    assert s'.since[..|s'.since| - 1] == s.since;
    forall i: nat ensures Live(s', i) <==> s'.pending == Some(i) {
      if i < |s.requests| {
        assert Live(s, i) <==> s.pending == Some(i);
      }
    }
  }

  lemma EndKeeps(s: State, i: nat)
    requires Inv(s) && i < |s.requests|
    ensures Inv(End(s, i))
  {
    var s' := End(s, i);
    forall j: nat ensures Live(s', j) <==> s'.pending == Some(j) {
      assert Live(s, j) <==> s.pending == Some(j);
    }
  }

  lemma AcquireKeeps(s: State, i: nat)
    requires Inv(s)
    ensures Inv(Step(s, Acquire(i)))
    ensures |Step(s, Acquire(i)).begun| > |s.begun| ==>
              s.pending == Some(i) && Step(s, Acquire(i)).begun == s.begun + [Begun(i, s.epoch, Fold(s.since))]
              && s.requests[i].epoch == s.epoch && s.requests[i].target == Fold(s.since)
  {
    if i < |s.requests| {
      EndKeeps(s, i);
      assert Live(s, i) <==> s.pending == Some(i);
      var s' := Step(s, Acquire(i));
      forall j: nat ensures Live(s', j) <==> s'.pending == Some(j) {
        assert Live(s, j) <==> s.pending == Some(j);
      }
    }
  }

  lemma CancelKeeps(s: State, i: nat)
    requires Inv(s)
    ensures Inv(Step(s, Cancel(i)))
  {
    if i < |s.requests| && !s.requests[i].phase.Finished? {
      var s' := Step(s, Cancel(i));
      forall j: nat ensures Live(s', j) <==> s'.pending == Some(j) {
        assert Live(s, j) <==> s.pending == Some(j);
      }
    }
  }

  lemma InvalidateKeeps(s: State)
    requires Inv(s)
    ensures Inv(Step(s, Invalidate))
    ensures forall i: nat :: !Live(Step(s, Invalidate), i)
  {
    var s' := Step(s, Invalidate);
    forall i: nat ensures !Live(s', i) {
      assert Live(s, i) <==> s.pending == Some(i);
    }
  }

  lemma StepKeeps(s: State, e: Event)
    requires Inv(s)
    ensures Inv(Step(s, e))
  {
    match e
    case Register(patch) =>
      if patch.Parameterized() {
        RegisterKeeps(s, patch);
      }
    case Acquire(i) => AcquireKeeps(s, i);
    case NoticeSuperseded(i) =>
      if i < |s.requests| {
        EndKeeps(s, i);
      }
    case Finish(i) =>
      if i < |s.requests| {
        EndKeeps(s, i);
      }
    case Cancel(i) => CancelKeeps(s, i);
    case Invalidate => InvalidateKeeps(s);
    case DiscreteAcquire =>
    case DiscreteRelease =>
  }

  lemma BegunKeeps(s: State, e: Event)
    requires Inv(s) && BegunFresh(s)
    ensures BegunFresh(Step(s, e))
  {
    if e.Acquire? {
      AcquireKeeps(s, e.i);
    }
  }

  /** At every transaction begun in the run, the fold of the patches since the slot was last empty. */
  function Due(s: State, events: seq<Event>): seq<Target>
  {
    if |events| == 0 then []
    else
      var before := After(s, events[..|events| - 1]);
      Due(s, events[..|events| - 1])
      + (if |Step(before, events[|events| - 1]).begun| > |before.begun| then [Fold(before.since)] else [])
  }

  function Looks(begun: seq<Begun>): (r: seq<Target>)
    ensures |r| == |begun|
  {
    seq(|begun|, i requires 0 <= i < |begun| => begun[i].target)
  }

  lemma BegunDue(s: State, e: Event)
    requires Inv(s)
    ensures Looks(Step(s, e).begun)
            == Looks(s.begun) + (if |Step(s, e).begun| > |s.begun| then [Fold(s.since)] else [])
  {
    if e.Acquire? {
      AcquireKeeps(s, e.i);
    }
  }

  /**
   In every interleaving of registering, locking, finishing, cancelling and invalidating, the
   only unfinished request not superseded is the pending one, its look is the fold of every
   patch since the slot was last empty and never holds both a colour temperature and a colour,
   at most the lock's holder runs, and every transaction begun had the look then due.
   */
  lemma {:induction false} LatestWins(events: seq<Event>)
    ensures Inv(After(START, events)) && BegunFresh(After(START, events))
    ensures NeverBoth(PendingTarget(After(START, events)))
    ensures Looks(After(START, events).begun) == Due(START, events)
  {
    if |events| == 0 {
      assert NeverBoth(NOTHING);
    } else {
      hide Step, Inv, BegunFresh, NeverBoth, PendingTarget, Looks;
      var s, last := After(START, events[..|events| - 1]), events[|events| - 1];
      LatestWins(events[..|events| - 1]);
      StepKeeps(s, last);
      BegunKeeps(s, last);
      BegunDue(s, last);
      InvFolds(Step(s, last));
      FoldIsLatest(Step(s, last).since);
    }
  }

  lemma InvFolds(s: State)
    ensures Inv(s) ==> PendingTarget(s) == Fold(s.since)
  {
  }

  lemma StepGrows(s: State, e: Event)
    ensures |s.begun| <= |Step(s, e).begun| && s.epoch <= Step(s, e).epoch && |s.requests| <= |Step(s, e).requests|
    ensures forall k :: 0 <= k < |s.begun| ==> Step(s, e).begun[k] == s.begun[k]
    ensures forall i :: 0 <= i < |s.requests| ==>
      Step(s, e).requests[i].epoch == s.requests[i].epoch && Step(s, e).requests[i].target == s.requests[i].target
  {
  }

  lemma {:induction false} RunGrows(s: State, events: seq<Event>)
    requires Inv(s)
    ensures var end := After(s, events);
            Inv(end) && s.epoch <= end.epoch && |s.begun| <= |end.begun| && |s.requests| <= |end.requests|
            && forall i :: 0 <= i < |s.requests| ==> end.requests[i].epoch == s.requests[i].epoch
    ensures forall k :: |s.begun| <= k < |After(s, events).begun| ==> After(s, events).begun[k].epoch >= s.epoch
  {
    if |events| > 0 {
      hide Step, Inv;
      var before := events[..|events| - 1];
      RunGrows(s, before);
      StepKeeps(After(s, before), events[|events| - 1]);
      StepGrows(After(s, before), events[|events| - 1]);
      BeginsNow(After(s, before), events[|events| - 1]);
    }
  }

  lemma BeginsNow(s: State, e: Event)
    ensures forall k :: |s.begun| <= k < |Step(s, e).begun| ==> Step(s, e).begun[k].epoch == s.epoch
  {
  }

  /**
   No request registered before an OFF or an effect selection starts a transaction after it,
   whatever happens in between: every transaction begun later belongs to a later request.
   */
  lemma NothingStale(before: seq<Event>, after: seq<Event>)
    ensures var s := After(START, before);
            var s' := Step(s, Invalidate);
            var end := After(s', after);
            forall k :: |s'.begun| <= k < |end.begun| ==>
              |s'.requests| <= end.begun[k].request < |end.requests|
  {
    LatestWins(before);
    var s := After(START, before);
    var s' := Step(s, Invalidate);
    StepKeeps(s, Invalidate);
    BegunKeeps(s, Invalidate);
    OldEpochs(before);
    RunGrows(s', after);
    RunBegunFresh(s', after);
    var end := After(s', after);
    forall k | |s'.begun| <= k < |end.begun| ensures |s'.requests| <= end.begun[k].request < |end.requests| {
      assert end.requests[end.begun[k].request].epoch >= s'.epoch > s.epoch;
    }
  }

  lemma {:induction false} RunBegunFresh(s: State, events: seq<Event>)
    requires Inv(s) && BegunFresh(s)
    ensures BegunFresh(After(s, events))
  {
    if |events| > 0 {
      hide Step, Inv, BegunFresh;
      RunBegunFresh(s, events[..|events| - 1]);
      RunGrows(s, events[..|events| - 1]);
      BegunKeeps(After(s, events[..|events| - 1]), events[|events| - 1]);
    }
  }

  lemma {:induction false} OldEpochs(events: seq<Event>)
    ensures forall i :: 0 <= i < |After(START, events).requests| ==>
      After(START, events).requests[i].epoch <= After(START, events).epoch
  {
    if |events| > 0 {
      OldEpochs(events[..|events| - 1]);
    }
  }
}
