/**
 Where the provisioning promises stop, as runs of the machine from a new installation; and
 the check a caller can make before entering the flow that keeps every run inside them.
 */
module ProvisioningRuns {
  import opened Prelude
  import opened Provisioning

  // ----- What to check before entering the flow -----

  /** A flow entered in this mode may come to replace the record's DeviceKey. */
  predicate MaySend(s: State, how: Mode)
  {
    how.Repair? || (how.Fresh? && !(s.record.Some? && s.record.value.committed))
  }

  /** Before a flow that may send is entered: no other fixture than its target depends on the record. */
  ghost predicate Checked(s: State, e: Event)
  {
    e.Start? && s.flow.None? && Entered(s, e.target, e.address, e.how).Some? && MaySend(s, e.how) ==> SoleOwner(s, e.target)
  }

  ghost predicate CheckedRun(s: State, events: seq<Event>)
  {
    |events| == 0
    || (var before := events[..|events| - 1];
        CheckedRun(s, before) && Checked(After(s, before), events[|events| - 1]))
  }

  /** The flow has passed the last branch that could lead it to a send. */
  ghost predicate Silent(s: State, f: Flow)
  {
    match f
    case Started(args) => args.mode.Recovery? || (args.mode.Fresh? && s.record.Some? && s.record.value.committed)
    case Probing(args, _) => args.mode.Recovery?
    case Saving(_, _, next) => next.Return? || next.Recovered?
    case Verifying(_, _, _) => true
    case Done(_, _) => true
    case _ => false
  }

  ghost predicate Guarded(s: State)
  {
    s.flow.Some? ==> Silent(s, s.flow.value) || SoleOwner(s, s.flow.value.args.target)
  }

  lemma AfterSaveSilent(s: State, key: nat, args: Args, next: Next)
    ensures AfterSave(key, args, next).args == args
    ensures next.Return? || next.Recovered? ==> Silent(s, AfterSave(key, args, next))
  {
  }

  lemma LoadGuarded(s: State, args: Args, storeId: nat)
    requires Silent(s, Started(args)) || SoleOwner(s, args.target)
    ensures var f := AfterLoad(s.key, args, s.record, storeId);
            f.Some? ==> f.value.args == args && (Silent(s, f.value) || SoleOwner(s, args.target))
  {
    hide SoleOwner;
  }

  lemma ProbeGuarded(s: State, args: Args, snapshot: Option<Record>, bearer: bool, storeId: nat)
    requires Silent(s, Probing(args, snapshot)) || SoleOwner(s, args.target)
    ensures var f := AfterProbe(s.key, args, snapshot, bearer, storeId);
            f.Some? ==> f.value.args == args && (Silent(s, f.value) || SoleOwner(s, args.target))
  {
    hide SoleOwner;
  }

  lemma VerifyGuarded(s: State, args: Args, snapshot: Record, promoted: Record)
    ensures var f := AfterVerify(s.key, args, snapshot, promoted);
            f.args == args && Silent(s, f)
  {
    AfterSaveSilent(s, s.key, args, if args.mode.Repair? then Return(promoted.data) else Recovered(promoted.data));
    hide AfterSave;
  }

  /** Nothing the world does, nor the flow, makes another fixture depend on the record. */
  lemma OwnerKept(s: State, e: Event, g: nat)
    requires SoleOwner(s, g) && (s.flow.Some? ==> s.flow.value.args.target == g)
    ensures SoleOwner(Step(s, e), g)
  {
    hide AfterLoad, AfterProbe, AfterVerify, AfterSave, Reconcile;
    var s' := Step(s, e);
    forall f | f != g ensures !FixtureOf(s', f).Ours? && f !in s'.inFlight {
      assert !FixtureOf(s, f).Ours? && f !in s.inFlight;
    }
  }

  lemma FlowGuarded(s: State, f: Flow, e: Event)
    requires s.flow == Some(f) && Guarded(s)
    ensures var f' := FlowStep(s, f, e).flow;
            f'.Some? ==> f'.value.args == f.args && (Silent(FlowStep(s, f, e), f'.value) || SoleOwner(s, f.args.target))
  {
    hide SoleOwner, AfterLoad, AfterProbe, AfterVerify, AfterSave;
    match (f, e)
    case (Started(args), Load(storeId)) => LoadGuarded(s, args, storeId);
    case (Probing(args, snapshot), Probe(storeId)) =>
      ProbeGuarded(s, args, snapshot, FixtureOf(s, args.target).Unprovisioned?, storeId);
    case (Verifying(args, snapshot, promoted), Verify) => VerifyGuarded(s, args, snapshot, promoted);
    case (Saving(args, record, next), Save(fate)) => AfterSaveSilent(FlowStep(s, f, e), s.key, args, next);
    case _ =>
  }

  lemma StepGuarded(s: State, e: Event)
    requires Guarded(s) && Checked(s, e)
    ensures Guarded(Step(s, e)) && Aimed(s, e)
  {
    hide SoleOwner, FlowStep;
    if s.flow.Some? {
      var f := s.flow.value;
      FlowGuarded(s, f, e);
      if SoleOwner(s, f.args.target) {
        OwnerKept(s, e, f.args.target);
      }
      SilentElsewhere(s, f, e);
    } else if e.Start? && SoleOwner(s, e.target) {
      OwnerKept(s, e, e.target);
    }
  }

  /** Only the flow's own steps and a crash move it. */
  lemma SilentElsewhere(s: State, f: Flow, e: Event)
    requires s.flow == Some(f)
    ensures var s' := Step(s, e);
            s'.flow.None? || s' == FlowStep(s, f, e) || (s'.flow == Some(f) && s'.record == s.record)
    ensures Silent(s, f) ==> !(f.Saving? && f.next.Send?)
  {
    hide FlowStep, Reconcile;
  }

  /**
   The check suffices: if, whenever a flow that may send is entered, no other fixture depends
   on the record, then every replacing save of the run is aimed right, and no fixture is
   stranded at any point of it.
   */
  lemma {:induction false} CheckedIsAimed(s: State, events: seq<Event>)
    requires Inv(s) && Guarded(s) && CheckedRun(s, events)
    ensures AimedRun(s, events) && Guarded(After(s, events)) && NoneStranded(After(s, events))
  {
    hide Step, Inv, Guarded, Checked, Aimed, NoneStranded;
    if |events| > 0 {
      CheckedIsAimed(s, events[..|events| - 1]);
      StepGuarded(After(s, events[..|events| - 1]), events[|events| - 1]);
    }
    NoStrandedFixture(s, events);
  }

  // ----- What entering it unchecked can come to -----

  /** No fixture has this DeviceKey, or may still accept it. */
  ghost predicate UnusedKey(s: State, deviceKey: nat)
  {
    && (forall g :: g in s.fixtures && s.fixtures[g].Ours? ==> s.fixtures[g].deviceKey != deviceKey)
    && forall g :: g in s.inFlight && s.inFlight[g].Ours? ==> s.inFlight[g].deviceKey != deviceKey
  }

  /** A run, and where it has got to, on which every replacing save was aimed and every agreed key new. */
  ghost predicate Reached(s: State, events: seq<Event>, t: State)
  {
    After(s, events) == t && DistinctRun(s, events) && AimedRun(s, events)
  }

  /** The step about to be taken is no replacing save. */
  predicate Plain(t: State, e: Event)
  {
    e.Save? && t.flow.Some? && t.flow.value.Saving? ==> !t.flow.value.next.Send?
  }

  lemma Extends(s: State, events: seq<Event>, t: State, e: Event)
    requires Reached(s, events, t) && DistinctKeys(t, e)
    ensures After(s, events + [e]) == Step(t, e) && DistinctRun(s, events + [e])
    ensures Aimed(t, e) ==> Reached(s, events + [e], Step(t, e))
  {
    hide Step, DistinctKeys, Aimed;
    assert (events + [e])[..|events|] == events;
  }

  lemma ExtendsPlain(s: State, events: seq<Event>, t: State, e: Event)
    requires Reached(s, events, t) && Plain(t, e)
    ensures Reached(s, events + [e], Step(t, e))
  {
    hide Reached, Step;
    Extends(s, events, t, e);
  }

  lemma Starts(s: State)
    ensures Reached(s, [], s)
  {
  }

  // ----- Single steps -----

  lemma SendSaved(s: State, args: Args, data: Data)
    requires s.flow == Some(Saving(args, Record(data, false), Send(data)))
    ensures Step(s, Save(Saved)) == s.(flow := Some(Sending(args, data)), record := Some(Record(data, false)))
  {
  }

  lemma DataSent(s: State, args: Args, data: Data)
    requires s.flow == Some(Sending(args, data))
    ensures Step(s, SendData)
            == s.(flow := Some(Awaiting(args, data)), inFlight := s.inFlight[args.target := Credentials(data)])
  {
  }

  lemma DataAccepted(s: State, g: nat)
    requires g in s.inFlight && s.inFlight[g].Ours? && FixtureOf(s, g).Unprovisioned?
    ensures Step(s, Accept(g))
            == s.(fixtures := s.fixtures[g := s.inFlight[g]], inFlight := s.inFlight - {g},
                  held := s.held + {(s.inFlight[g].netKey, s.inFlight[g].deviceKey)})
  {
  }

  lemma CompleteSeen(s: State, args: Args, data: Data)
    requires s.flow == Some(Awaiting(args, data)) && FixtureOf(s, args.target) == Credentials(data)
    ensures Step(s, Complete) == s.(flow := Some(Saving(args, Record(data, true), Return(data))))
  {
  }

  lemma CommitSaved(s: State, args: Args, data: Data)
    requires s.flow == Some(Saving(args, Record(data, true), Return(data)))
    ensures Step(s, Save(Saved)) == s.(flow := Some(Done(args, data)), record := Some(Record(data, true)))
  {
  }

  lemma ResetIs(s: State, g: nat)
    ensures Step(s, Reset(g)) == s.(fixtures := s.fixtures[g := Unprovisioned], inFlight := s.inFlight - {g})
  {
  }

  lemma FirstLoad(s: State, args: Args, storeId: nat)
    requires s.flow == Some(Started(args)) && args.mode.Fresh? && s.record.None?
    ensures Step(s, Load(storeId)) == s.(flow := Some(Connecting(args, None)))
  {
  }

  // ----- The stretches of a flow -----

  /** The three steps to a handshake with the record's own network, on a reset target. */
  lemma Poises(s: State, args: Args, storeId: nat)
    requires s.flow == Some(Started(args)) && s.record.Some? && FixtureOf(s, args.target).Unprovisioned?
    requires args.mode.Repair? || (args.mode.Fresh? && !s.record.value.committed)
    ensures var t1 := Step(s, Load(storeId));
            var t2 := Step(t1, Probe(storeId));
            var t := Step(t2, Save(Saved));
            var prepared := WithStore(s.record.value.data, storeId);
            && Plain(t2, Save(Saved))
            && t == s.(flow := Some(Connecting(args, Some(prepared))), record := t.record, inFlight := s.inFlight - {args.target})
            && t.record.Some?
  {
    var r := s.record.value;
    var prepared := WithStore(r.data, storeId);
    var s1 := s.(flow := Some(Probing(args, s.record)));
    assert Step(s, Load(storeId)) == s1;
    var updated := if args.mode.Repair? then Record(prepared, false) else r.(data := prepared);
    var s2 := s1.(flow := Some(SaveIfChanged(s.key, args, r, updated, Handshake(prepared))),
                  inFlight := s.inFlight - {args.target});
    assert Step(s1, Probe(storeId)) == s2;
  }

  /** The keys a connection starts its exchange with. */
  function Agreed(args: Args, prepared: Option<Data>, netKey: nat, appKey: nat, storeId: nat, deviceKey: nat): Data
  {
    if prepared.Some? then
      Data(args.address, None, prepared.value.netKey, prepared.value.appKey, deviceKey,
           if prepared.value.storeId.Some? then prepared.value.storeId else Some(storeId), true)
    else Data(args.address, None, netKey, appKey, deviceKey, Some(storeId), true)
  }

  /** The two steps from there to the pre-DATA save. */
  lemma Handshakes(s: State, args: Args, prepared: Option<Data>, netKey: nat, appKey: nat, storeId: nat, deviceKey: nat)
    requires s.flow == Some(Connecting(args, prepared)) && (prepared.Some? ==> prepared.value.storeId.Some?)
    requires FixtureOf(s, args.target).Unprovisioned?
    ensures var t := Step(Step(s, Connect(netKey, appKey, storeId)), Exchange(deviceKey));
            var data := Agreed(args, prepared, netKey, appKey, storeId, deviceKey);
            t == s.(flow := Some(Saving(args, Record(data, false), Send(data))), inFlight := s.inFlight - {args.target},
                    minted := t.minted)
  {
    hide AfterLoad, AfterProbe, AfterVerify, AfterSave;
  }

  // ----- An unchecked flow -----

  /** A user resets the target while the flow is under way, and the flow goes on to its pre-DATA save. */
  function Preparing(g: nat, address: nat, how: Mode, deviceKey: nat, storeId: nat): seq<Event>
  {
    [] + [Start(g, address, how)] + [Reset(g)] + [Load(storeId)] + [Probe(storeId)] + [Save(Saved)]
    + [Connect(0, 0, storeId)] + [Exchange(deviceKey)]
  }

  lemma Prepares(s0: State, before: seq<Event>, s: State, args: Args, address: nat, how: Mode, deviceKey: nat, storeId: nat)
    returns (t: State)
    requires Reached(s0, before, s) && s.flow.None? && s.record.Some?
    requires Entered(s, args.target, address, how) == Some(args) && MaySend(s, how)
    ensures var sent := Agreed(args, Some(WithStore(s.record.value.data, storeId)), 0, 0, storeId, deviceKey);
            && Reached(s0, before + Preparing(args.target, address, how, deviceKey, storeId), t)
            && t == s.(flow := Some(Saving(args, Record(sent, false), Send(sent))), record := t.record,
                       fixtures := s.fixtures[args.target := Unprovisioned], inFlight := s.inFlight - {args.target},
                       minted := t.minted)
            && t.record.Some?
  {
    hide Step, Reached;
    var g := args.target;
    var prepared := WithStore(s.record.value.data, storeId);
    var s1 := s.(flow := Some(Started(args)));
    var s2 := s1.(fixtures := s.fixtures[g := Unprovisioned], inFlight := s.inFlight - {g});
    Begins(s, args, address, how);
    ResetIs(s1, g);
    ExtendsPlain(s0, before, s, Start(g, address, how));
    ExtendsPlain(s0, before + [Start(g, address, how)], s1, Reset(g));
    var e2 := before + [Start(g, address, how)] + [Reset(g)];
    PoisesReached(s0, e2, s2, args, storeId);
    var e5 := e2 + [Load(storeId)] + [Probe(storeId)] + [Save(Saved)];
    var s5 := Step(Step(Step(s2, Load(storeId)), Probe(storeId)), Save(Saved));
    Poises(s2, args, storeId);
    Handshakes(s5, args, Some(prepared), 0, 0, storeId, deviceKey);
    ExtendsPlain(s0, e5, s5, Connect(0, 0, storeId));
    ExtendsPlain(s0, e5 + [Connect(0, 0, storeId)], Step(s5, Connect(0, 0, storeId)), Exchange(deviceKey));
    t := Step(Step(s5, Connect(0, 0, storeId)), Exchange(deviceKey));
    assert e5 + [Connect(0, 0, storeId)] + [Exchange(deviceKey)] == before + Preparing(g, address, how, deviceKey, storeId);
    assert s.inFlight - {g} - {g} == s.inFlight - {g};
  }

  lemma PoisesReached(s0: State, events: seq<Event>, s: State, args: Args, storeId: nat)
    requires Reached(s0, events, s) && s.flow == Some(Started(args)) && s.record.Some?
    requires FixtureOf(s, args.target).Unprovisioned?
    requires args.mode.Repair? || (args.mode.Fresh? && !s.record.value.committed)
    ensures Reached(s0, events + [Load(storeId)] + [Probe(storeId)] + [Save(Saved)],
                    Step(Step(Step(s, Load(storeId)), Probe(storeId)), Save(Saved)))
  {
    hide Step, Reached;
    Poises(s, args, storeId);
    ExtendsPlain(s0, events, s, Load(storeId));
    ExtendsPlain(s0, events + [Load(storeId)], Step(s, Load(storeId)), Probe(storeId));
    ExtendsPlain(s0, events + [Load(storeId)] + [Probe(storeId)], Step(Step(s, Load(storeId)), Probe(storeId)), Save(Saved));
  }

  lemma StillOthers(s: State, t: State, g: nat, e: Event)
    requires !SoleOwner(s, g) && e == Save(Saved)
    requires t.fixtures == s.fixtures[g := Unprovisioned] && t.inFlight == s.inFlight - {g}
    requires t.flow.Some? && t.flow.value.Saving? && t.flow.value.next.Send? && t.flow.value.args.target == g
    requires UnusedKey(s, t.flow.value.next.data.deviceKey)
    ensures !Aimed(t, e) && DistinctKeys(t, e)
  {
    var f :| f != g && (FixtureOf(s, f).Ours? || f in s.inFlight);
    assert FixtureOf(t, f) == FixtureOf(s, f) && (f in t.inFlight <==> f in s.inFlight);
  }

  lemma RecordNeeded(s: State, g: nat)
    requires NoneStranded(s) && !SoleOwner(s, g)
    ensures s.record.Some?
  {
    var f :| f != g && (FixtureOf(s, f).Ours? || f in s.inFlight);
    if FixtureOf(s, f).Ours? {
      assert Recoverable(s.record, s.fixtures[f]);
    } else {
      assert Recoverable(s.record, s.inFlight[f]);
    }
  }

  /**
   And it is needed: wherever it fails, a flow entered all the same may strand a fixture,
   within its own steps and one reset of its target.
   */
  lemma UncheckedStrands(s: State, g: nat, address: nat, how: Mode, deviceKey: nat, storeId: nat)
    requires Inv(s) && s.flow.None? && Entered(s, g, address, how).Some? && MaySend(s, how)
    requires !SoleOwner(s, g) && UnusedKey(s, deviceKey)
    ensures var events := Preparing(g, address, how, deviceKey, storeId) + [Save(Saved)];
            && DistinctRun(s, events) && !NoneStranded(After(s, events))
            && After(s, events).record.Some? && After(s, events).record.value.data.deviceKey == deviceKey
            && After(s, events).entryDisk == s.entryDisk
            && forall f :: f != g ==> FixtureOf(After(s, events), f) == FixtureOf(s, f)
  {
    hide Step, Inv, NoneStranded, Reached, SoleOwner, UnusedKey, Aimed, DistinctKeys, AimedRun, DistinctRun, After, Preparing;
    InvNoneStranded(s);
    RecordNeeded(s, g);
    var args := Entered(s, g, address, how).value;
    Starts(s);
    var events := Preparing(g, address, how, deviceKey, storeId);
    assert [] + events == events;
    var t := Prepares(s, [], s, args, address, how, deviceKey, storeId);
    StillOthers(s, t, g, Save(Saved));
    ReachedInv(s, events, t);
    MisaimedStrands(t, Save(Saved));
    Extends(s, events, t, Save(Saved));
    SendSaved(t, args, t.flow.value.next.data);
  }

  lemma ReachedInv(s: State, events: seq<Event>, t: State)
    requires Inv(s) && Reached(s, events, t)
    ensures Inv(t)
  {
    NoStrandedFixture(s, events);
    hide Inv, NoneStranded, AimedRun, DistinctRun;
  }

  // ----- Runs from a new installation -----

  /** Nothing stored, nothing configured, every fixture fresh from its box. */
  function New(key: nat): State
  {
    State(key, map[], map[], None, None, None, None, map[], {})
  }

  /** From the pre-DATA save to the committed record. */
  function Committing(g: nat): seq<Event>
  {
    [] + [Save(Saved)] + [SendData] + [Accept(g)] + [Complete] + [Save(Saved)]
  }

  lemma Commits(s: State, args: Args, data: Data)
    requires s.flow == Some(Saving(args, Record(data, false), Send(data)))
    requires FixtureOf(s, args.target).Unprovisioned?
    ensures var g := args.target;
            var t1 := Step(s, Save(Saved));
            var t2 := Step(t1, SendData);
            var t3 := Step(t2, Accept(g));
            var t4 := Step(t3, Complete);
            var t := Step(t4, Save(Saved));
            && Plain(t4, Save(Saved))
            && t == s.(flow := Some(Done(args, data)), record := Some(Record(data, true)),
                       fixtures := s.fixtures[g := Credentials(data)], inFlight := s.inFlight - {g},
                       held := s.held + {(data.netKey, data.deviceKey)})
  {
    hide Step;
    var g := args.target;
    var t1 := s.(flow := Some(Sending(args, data)), record := Some(Record(data, false)));
    SendSaved(s, args, data);
    var t2 := t1.(flow := Some(Awaiting(args, data)), inFlight := s.inFlight[g := Credentials(data)]);
    DataSent(t1, args, data);
    assert s.inFlight[g := Credentials(data)] - {g} == s.inFlight - {g};
    var t3 := t2.(fixtures := s.fixtures[g := Credentials(data)], inFlight := s.inFlight - {g},
                  held := s.held + {(data.netKey, data.deviceKey)});
    DataAccepted(t2, g);
    var t4 := t3.(flow := Some(Saving(args, Record(data, true), Return(data))));
    CompleteSeen(t3, args, data);
    CommitSaved(t4, args, data);
  }

  lemma CommitsReached(s: State, events: seq<Event>, t: State, args: Args, data: Data)
    requires Reached(s, events, t) && t.flow == Some(Saving(args, Record(data, false), Send(data)))
    requires FixtureOf(t, args.target).Unprovisioned? && SoleOwner(t, args.target) && DistinctKeys(t, Save(Saved))
    ensures var g := args.target;
            Reached(s, events + Committing(g),
                    t.(flow := Some(Done(args, data)), record := Some(Record(data, true)),
                       fixtures := t.fixtures[g := Credentials(data)], inFlight := t.inFlight - {g},
                       held := t.held + {(data.netKey, data.deviceKey)}))
  {
    var g := args.target;
    Commits(t, args, data);
    assert Aimed(t, Save(Saved));
    hide Step, Reached, SoleOwner, DistinctKeys, Aimed;
    Extends(s, events, t, Save(Saved));
    var t1 := Step(t, Save(Saved));
    var e1 := events + [Save(Saved)];
    ExtendsPlain(s, e1, t1, SendData);
    var t2 := Step(t1, SendData);
    ExtendsPlain(s, e1 + [SendData], t2, Accept(g));
    var t3 := Step(t2, Accept(g));
    ExtendsPlain(s, e1 + [SendData] + [Accept(g)], t3, Complete);
    var t4 := Step(t3, Complete);
    ExtendsPlain(s, e1 + [SendData] + [Accept(g)] + [Complete], t4, Save(Saved));
    assert e1 + [SendData] + [Accept(g)] + [Complete] + [Save(Saved)] == events + Committing(g);
  }

  /** A first setup of fixture `g`, up to the config entry in memory. */
  function FirstSetup(key: nat, g: nat, netKey: nat, appKey: nat, storeId: nat, deviceKey: nat): seq<Event>
  {
    [] + [Start(g, key, Fresh)] + [Load(storeId)] + [Connect(netKey, appKey, storeId)] + [Exchange(deviceKey)]
    + Committing(g) + [Finish]
  }

  /** After it: the record committed, the fixture provisioned, the entry not yet flushed. */
  function SetUp(key: nat, g: nat, data: Data): State
  {
    State(key, map[g := Credentials(data)], map[], Some(Record(data, true)), None, Some(data), None,
          map[data.netKey := data.appKey], {(data.netKey, data.deviceKey)})
  }

  lemma SetsUp(key: nat, g: nat, netKey: nat, appKey: nat, storeId: nat, deviceKey: nat)
    ensures Reached(New(key), FirstSetup(key, g, netKey, appKey, storeId, deviceKey),
                    SetUp(key, g, Data(key, None, netKey, appKey, deviceKey, Some(storeId), true)))
  {
    hide Step, Reached, SoleOwner, DistinctKeys;
    var s := New(key);
    var args := Args(g, key, Fresh);
    var data := Data(key, None, netKey, appKey, deviceKey, Some(storeId), true);
    Starts(s);
    Begins(s, args, key, Fresh);
    var s1 := s.(flow := Some(Started(args)));
    FirstLoad(s1, args, storeId);
    var s2 := s.(flow := Some(Connecting(args, None)));
    ExtendsPlain(s, [], s, Start(g, key, Fresh));
    var e1 := [] + [Start(g, key, Fresh)];
    ExtendsPlain(s, e1, s1, Load(storeId));
    var e2 := e1 + [Load(storeId)];
    var e4 := e2 + [Connect(netKey, appKey, storeId)] + [Exchange(deviceKey)];
    var s4 := s2.(flow := Some(Saving(args, Record(data, false), Send(data))), minted := map[netKey := appKey]);
    FirstExchange(s, e2, s2, args, netKey, appKey, storeId, deviceKey);
    FirstOwner(s4, g);
    CommitsReached(s, e4, s4, args, data);
    var s5 := SetUp(key, g, data).(flow := Some(Done(args, data)), entry := None);
    assert s4.(flow := Some(Done(args, data)), record := Some(Record(data, true)),
               fixtures := s4.fixtures[g := Credentials(data)], inFlight := s4.inFlight - {g},
               held := s4.held + {(data.netKey, data.deviceKey)}) == s5;
    FirstFinish(s5, args, data);
    ExtendsPlain(s, e4 + Committing(g), s5, Finish);
  }

  lemma FirstOwner(s: State, g: nat)
    requires s.fixtures == map[] && s.inFlight == map[]
    ensures SoleOwner(s, g) && DistinctKeys(s, Save(Saved)) && FixtureOf(s, g).Unprovisioned?
  {
  }

  lemma FirstExchange(s: State, events: seq<Event>, t: State, args: Args, netKey: nat, appKey: nat, storeId: nat,
                      deviceKey: nat)
    requires Reached(s, events, t) && t.flow == Some(Connecting(args, None))
    requires t.fixtures == map[] && t.inFlight == map[] && t.minted == map[]
    ensures var data := Data(args.address, None, netKey, appKey, deviceKey, Some(storeId), true);
            Reached(s, events + [Connect(netKey, appKey, storeId)] + [Exchange(deviceKey)],
                    t.(flow := Some(Saving(args, Record(data, false), Send(data))), minted := map[netKey := appKey]))
  {
    var t1 := t.(flow := Some(Exchanging(args, netKey, appKey, storeId)), minted := map[netKey := appKey]);
    assert Step(t, Connect(netKey, appKey, storeId)) == t1 by {
      hide AfterLoad, AfterProbe, AfterVerify, AfterSave, WorldStep, EntryStep, Reached;
      assert t.inFlight - {args.target} == map[];
    }
    Handshakes(t, args, None, netKey, appKey, storeId, deviceKey);
    hide Step, Reached;
    ExtendsPlain(s, events, t, Connect(netKey, appKey, storeId));
    ExtendsPlain(s, events + [Connect(netKey, appKey, storeId)], t1, Exchange(deviceKey));
  }

  lemma {:induction false} AfterAppend(s: State, a: seq<Event>, b: seq<Event>)
    ensures After(s, a + b) == After(After(s, a), b)
    ensures DistinctRun(s, a) && DistinctRun(After(s, a), b) ==> DistinctRun(s, a + b)
  {
    hide Step, DistinctKeys;
    if |b| == 0 {
      assert a + b == a;
    } else {
      AfterAppend(s, a, b[..|b| - 1]);
      assert (a + b)[..|a + b| - 1] == a + b[..|b| - 1];
    }
  }

  /**
   From a new installation: one fixture is set up, and the repair of its entry is then pointed
   at another one. Its pre-DATA save takes the only durable copy of the first fixture's
   DeviceKey, its config entry not having been flushed.
   */
  lemma RepairElsewhereStrands(key: nat, g: nat, other: nat, address: nat, netKey: nat, appKey: nat, storeId: nat,
                               deviceKey: nat, otherKey: nat) returns (events: seq<Event>)
    requires g != other && deviceKey != otherKey
    ensures Inv(New(key)) && DistinctRun(New(key), events) && !NoneStranded(After(New(key), events))
    ensures var end := After(New(key), events);
            && FixtureOf(end, g) == Ours(netKey, deviceKey) && end.entryDisk.None?
            && end.record.Some? && end.record.value.data.deviceKey == otherKey
  {
    var data := Data(key, None, netKey, appKey, deviceKey, Some(storeId), true);
    var s := SetUp(key, g, data);
    var setup := FirstSetup(key, g, netKey, appKey, storeId, deviceKey);
    SetsUp(key, g, netKey, appKey, storeId, deviceKey);
    Installed(New(key));
    var repair := Preparing(other, address, Repair(data), otherKey, storeId) + [Save(Saved)];
    ReachedInv(New(key), setup, s);
    assert FixtureOf(s, g) == Ours(netKey, deviceKey);
    assert !SoleOwner(s, other);
    UncheckedStrands(s, other, address, Repair(data), otherKey, storeId);
    hide After, DistinctRun, NoneStranded, FirstSetup, Preparing, AimedRun, Inv;
    AfterAppend(New(key), setup, repair);
    events := setup + repair;
  }

  /** A repair of the set-up fixture over another route, to the end, and a crash before the entry is flushed. */
  function RepairAndCrash(g: nat, route: nat, how: Mode, deviceKey: nat, storeId: nat): seq<Event>
  {
    Preparing(g, route, how, deviceKey, storeId) + Committing(g) + [Crash]
  }

  lemma CrashIs(s: State)
    ensures Step(s, Crash) == s.(flow := None, entry := s.entryDisk)
  {
  }

  /** What it leaves: a committed record whose address field is the route, and no entry. */
  lemma RepairsAndCrashes(s0: State, before: seq<Event>, s: State, g: nat, route: nat, data: Data, deviceKey: nat, storeId: nat)
    requires Reached(s0, before, s) && s.flow.None? && s.entry == Some(data) && data.address == s.key && s.entryDisk.None?
    requires s.record.Some? && SoleOwner(s, g) && s.record.value.data.storeId.Some?
    ensures var events := before + RepairAndCrash(g, route, Repair(data), deviceKey, storeId);
            var end := After(s0, events);
            && Reached(s0, events, end) && end.flow.None? && end.entry.None? && end.key == s.key
            && end.record.Some? && end.record.value.committed && end.record.value.data.address == route
            && end.record.value.data.storeId.Some?
  {
    hide Step, Reached, SoleOwner, DistinctKeys, Aimed, Preparing;
    var args := Args(g, route, Repair(data));
    var t := Prepares(s0, before, s, args, route, Repair(data), deviceKey, storeId);
    var ready := before + Preparing(g, route, Repair(data), deviceKey, storeId);
    var sent := t.flow.value.next.data;
    ResetOwner(s, t, g);
    CommitsReached(s0, ready, t, args, sent);
    var done := t.(flow := Some(Done(args, sent)), record := Some(Record(sent, true)),
                   fixtures := t.fixtures[g := Credentials(sent)], inFlight := t.inFlight - {g},
                   held := t.held + {(sent.netKey, sent.deviceKey)});
    CrashIs(done);
    ExtendsPlain(s0, ready + Committing(g), done, Crash);
    ReachedAimed(s0, ready + Committing(g) + [Crash], Step(done, Crash));
    assert ready + Committing(g) + [Crash] == before + RepairAndCrash(g, route, Repair(data), deviceKey, storeId);
  }

  /** Once the only owner is reset, no fixture has any key of ours. */
  lemma ResetOwner(s: State, t: State, g: nat)
    requires SoleOwner(s, g) && t.fixtures == s.fixtures[g := Unprovisioned] && t.inFlight == s.inFlight - {g}
    ensures SoleOwner(t, g) && DistinctKeys(t, Save(Saved)) && FixtureOf(t, g).Unprovisioned?
  {
    forall f ensures !FixtureOf(t, f).Ours? && f !in t.inFlight {
      assert f != g ==> !FixtureOf(s, f).Ours? && f !in s.inFlight;
    }
    assert forall f :: f in t.fixtures ==> !FixtureOf(t, f).Ours?;
  }

  /**
   From a new installation: a fixture is set up, repaired over another route, and Home
   Assistant stops before the entry is flushed. The next first setup adopts the record, and the
   new entry's address is the route, not the address its record is kept under.
   */
  lemma AdoptedElsewhere(key: nat, g: nat, route: nat, netKey: nat, appKey: nat, storeId: nat, deviceKey: nat,
                         repairKey: nat) returns (events: seq<Event>)
    requires route != key
    ensures Inv(New(key)) && AimedRun(New(key), events)
    ensures var end := After(New(key), events);
            end.entry.Some? && end.key == key && end.entry.value.address == route
  {
    var data := Data(key, None, netKey, appKey, deviceKey, Some(storeId), true);
    var s := SetUp(key, g, data);
    var setup := FirstSetup(key, g, netKey, appKey, storeId, deviceKey);
    SetsUp(key, g, netKey, appKey, storeId, deviceKey);
    Installed(New(key));
    assert SoleOwner(s, g);
    RepairsAndCrashes(New(key), setup, s, g, route, data, repairKey, storeId);
    var before := setup + RepairAndCrash(g, route, Repair(data), repairKey, storeId);
    var t := After(New(key), before);
    hide Step, Reached, SoleOwner, FirstSetup, RepairAndCrash, Inv, After, AimedRun, DistinctRun;
    var args := Args(g, key, Fresh);
    var last := t.record.value.data;
    Begins(t, args, key, Fresh);
    var t1 := t.(flow := Some(Started(args)));
    AdoptingLoad(t1, args, storeId);
    var t2 := t.(flow := Some(Done(args, last)));
    FirstFinish(t2, args, last);
    ExtendsPlain(New(key), before, t, Start(g, key, Fresh));
    ExtendsPlain(New(key), before + [Start(g, key, Fresh)], t1, Load(storeId));
    var e2 := before + [Start(g, key, Fresh)] + [Load(storeId)];
    ExtendsPlain(New(key), e2, t2, Finish);
    events := e2 + [Finish];
    ReachedAimed(New(key), events, t2.(flow := None, entry := Some(last)));
  }

  lemma ReachedAimed(s: State, events: seq<Event>, t: State)
    requires Reached(s, events, t)
    ensures After(s, events) == t && AimedRun(s, events)
  {
  }
}
