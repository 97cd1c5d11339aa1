/**
 `async_provision_fixture` and `_async_recover_pending` as the sequential code they are, with
 everything that can happen at each of their awaits. Whatever the code does is a run of the
 machine in module `Provisioning`, so every theorem there is about this code.
 */
module ProvisioningFlow {
  import opened Prelude
  import opened Provisioning

  /** What happens during one await: world events, then the awaited result. */
  datatype Wait = Wait(world: seq<Event>, works: bool, fate: Fate, number: nat, netKey: nat, appKey: nat)

  /** Returned, raised, or never resumed because Home Assistant stopped. */
  datatype Outcome = Returned(data: Data) | Raised | Stopped

  predicate IsWorld(e: Event)
  {
    e.Reset? || e.Adopted? || e.Accept? || e.LinkLost?
  }

  ghost predicate ValidWait(w: Wait)
  {
    forall i :: 0 <= i < |w.world| ==> IsWorld(w.world[i])
  }

  lemma WorldKeepsFlow(s: State, e: Event)
    requires IsWorld(e)
    ensures var s' := Step(s, e);
            s' == s.(fixtures := s'.fixtures, inFlight := s'.inFlight, held := s'.held)
  {
  }

  // ----- What the machine does at each of the flow's steps -----

  lemma Loads(s: State, args: Args, storeId: nat)
    requires s.flow == Some(Started(args))
    ensures Step(s, Load(storeId)) == s.(flow := AfterLoad(s.key, args, s.record, storeId))
  {
    hide AfterLoad, AfterProbe, AfterVerify, AfterSave;
  }

  lemma Probes(s: State, args: Args, snapshot: Option<Record>, storeId: nat)
    requires s.flow == Some(Probing(args, snapshot))
    ensures Step(s, Probe(storeId))
            == s.(flow := AfterProbe(s.key, args, snapshot, FixtureOf(s, args.target).Unprovisioned?, storeId),
                  inFlight := s.inFlight - {args.target})
  {
    hide AfterLoad, AfterProbe, AfterVerify, AfterSave;
  }

  lemma Connects(s: State, args: Args, prepared: Option<Data>, netKey: nat, appKey: nat, storeId: nat)
    requires s.flow == Some(Connecting(args, prepared)) && (prepared.Some? ==> prepared.value.storeId.Some?)
    ensures Step(s, Connect(netKey, appKey, storeId))
            == s.(inFlight := s.inFlight - {args.target},
                  flow := Some(if prepared.None? then Exchanging(args, netKey, appKey, storeId)
                               else Exchanging(args, prepared.value.netKey, prepared.value.appKey, prepared.value.storeId.value)),
                  minted := if prepared.None? then s.minted[netKey := appKey] else s.minted)
  {
    hide AfterLoad, AfterProbe, AfterVerify, AfterSave;
  }

  lemma Completes(s: State, args: Args, data: Data)
    requires s.flow == Some(Awaiting(args, data))
    ensures Step(s, Complete)
            == s.(flow := if FixtureOf(s, args.target) == Credentials(data)
                          then Some(Saving(args, Record(data, true), Return(data))) else None)
  {
    hide AfterLoad, AfterProbe, AfterVerify, AfterSave;
  }

  lemma DoneAfter(key: nat, args: Args, data: Data)
    ensures AfterSave(key, args, Return(data)) == Done(args, data)
  {
  }

  class Home {
    const key: nat
    /** The durable record and the two copies of the config entry. */
    var record: Option<Record>
    var entry: Option<Data>
    var entryDisk: Option<Data>
    /** The fixtures, and Provisioning Data on live links. */
    var fixtures: map<nat, Fixture>
    var inFlight: map<nat, Fixture>
    /** What the coming awaits hold; Home Assistant stops when none is left. */
    var waits: seq<Wait>
    /** The machine state this began in, its steps so far, and the rest of where they have led. */
    ghost var origin: State
    ghost var trace: seq<Event>
    ghost var flow: Option<Flow>
    ghost var minted: map<nat, nat>
    ghost var held: set<(nat, nat)>

    ghost function View(): State
      reads this
    {
      State(key, fixtures, inFlight, record, flow, entry, entryDisk, minted, held)
    }

    ghost predicate Valid()
      reads this
    {
      View() == After(origin, trace) && forall i :: 0 <= i < |waits| ==> ValidWait(waits[i])
    }

    /** Home Assistant as some run of the machine has left it, with what its coming awaits hold. */
    constructor (ghost start: State, record: Option<Record>, entry: Option<Data>, entryDisk: Option<Data>,
                 fixtures: map<nat, Fixture>, inFlight: map<nat, Fixture>, key: nat, waits: seq<Wait>)
      requires forall i :: 0 <= i < |waits| ==> ValidWait(waits[i])
      requires start == State(key, fixtures, inFlight, record, start.flow, entry, entryDisk, start.minted, start.held)
      ensures Valid() && origin == start && trace == [] && this.waits == waits && View() == start
    {
      this.key, this.record, this.entry, this.entryDisk := key, record, entry, entryDisk;
      this.fixtures, this.inFlight, this.waits := fixtures, inFlight, waits;
      origin, trace, flow, minted, held := start, [], start.flow, start.minted, start.held;
    }

    /** Later in the same run. */
    twostate predicate Later()
      reads this
    {
      Valid() && origin == old(origin) && old(trace) <= trace
    }

    /** One world event, applied to the fields it touches. */
    method Happens(e: Event)
      requires Valid() && IsWorld(e)
      modifies this
      ensures Later() && flow == old(flow) && record == old(record) && waits == old(waits) && entry == old(entry)
    {
      ghost var before := View();
      WorldKeepsFlow(before, e);
      AfterSnoc(origin, trace, e);
      match e {
        case Reset(g) =>
          fixtures, inFlight := fixtures[g := Unprovisioned], inFlight - {g};
        case Adopted(g) =>
          if g !in fixtures || fixtures[g].Unprovisioned? {
            fixtures, inFlight := fixtures[g := Foreign], inFlight - {g};
          }
        case Accept(g) =>
          if g in inFlight && (g !in fixtures || fixtures[g].Unprovisioned?) && inFlight[g].Ours? {
            held := held + {(inFlight[g].netKey, inFlight[g].deviceKey)};
            fixtures, inFlight := fixtures[g := inFlight[g]], inFlight - {g};
          }
        case LinkLost(g) =>
          inFlight := inFlight - {g};
      }
      assert View() == Step(before, e);
      trace := trace + [e];
    }

    /** Suspend: the world moves on, and the code resumes unless Home Assistant stops first. */
    method Await() returns (w: Option<Wait>)
      requires Valid()
      modifies this
      ensures Later()
      ensures w.Some? ==> flow == old(flow) && record == old(record) && entry == old(entry)
      ensures w.None? ==> flow == None
    {
      if |waits| == 0 {
        ghost var before := View();
        AfterSnoc(origin, trace, Crash);
        entry := entryDisk;
        flow := None;
        assert View() == Step(before, Crash);
        trace := trace + [Crash];
        return None;
      }
      var next := waits[0];
      waits := waits[1..];
      for i := 0 to |next.world|
        invariant Later() && flow == old(flow) && record == old(record) && entry == old(entry)
      {
        Happens(next.world[i]);
      }
      return Some(next);
    }

    /** The flow raises where it stands. */
    ghost method Abandon()
      requires Valid() && flow.Some?
      modifies this
      ensures Later() && flow == None && record == old(record)
    {
      ghost var before := View();
      AfterSnoc(origin, trace, Raise);
      flow := None;
      assert View() == Step(before, Raise);
      trace := trace + [Raise];
    }

    /** `async_save_pending`, verified by reading back. */
    method SavePending(ghost args: Args, r: Record, ghost next: Next) returns (ok: Outcome)
      requires Valid() && flow == Some(Saving(args, r, next))
      modifies this
      ensures Later()
      ensures ok.Returned? ==> record == Some(r) && flow == Some(AfterSave(key, args, next)) && ok.data == r.data
      ensures !ok.Returned? ==> flow == None
    {
      var w := Await();
      if w.None? {
        return Stopped;
      }
      ghost var before := View();
      var fate := w.value.fate;
      AfterSnoc(origin, trace, Save(fate));
      if !fate.RaisedBefore? {
        record := Some(r);
      }
      flow := if fate.Saved? then Some(AfterSave(key, args, next)) else None;
      assert View() == Step(before, Save(fate));
      trace := trace + [Save(fate)];
      return if fate.Saved? then Returned(r.data) else Raised;
    }

    /** `_async_probe_mesh_bearer`: a new connection, and what the fixture offers on it. */
    method ProbeBearer(ghost args: Args, ghost snapshot: Option<Record>, target: nat)
      returns (ok: Outcome, provisioning: bool, number: nat)
      requires Valid() && flow == Some(Probing(args, snapshot)) && target == args.target
      modifies this
      ensures Later()
      ensures ok.Stopped? || ok.Raised? ==> flow == None
      ensures ok.Returned? ==> record == old(record) && entry == old(entry)
                               && flow == AfterProbe(key, args, snapshot, provisioning, number)
    {
      hide AfterLoad, AfterProbe, AfterVerify, AfterSave, Step;
      provisioning, number := false, 0;
      var w := Await();
      if w.None? {
        return Stopped, provisioning, number;
      }
      if !w.value.works {
        Abandon();
        return Raised, provisioning, number;
      }
      ghost var before := View();
      number := w.value.number;
      AfterSnoc(origin, trace, Probe(number));
      Probes(before, args, snapshot, number);
      provisioning := target !in fixtures || fixtures[target].Unprovisioned?;
      inFlight := inFlight - {target};
      flow := AfterProbe(key, args, snapshot, provisioning, number);
      assert View() == Step(before, Probe(number));
      trace := trace + [Probe(number)];
      return Returned(Data(0, None, 0, 0, 0, None, false)), provisioning, number;
    }

    /** `_async_verify_proxy_identity`: an advertisement authenticated by the pending NetKey, or an error. */
    method VerifyProxyIdentity(ghost args: Args, ghost current: Record, ghost promoted: Record, target: nat, netKey: nat)
      returns (ok: Outcome)
      requires Valid() && flow == Some(Verifying(args, current, promoted)) && target == args.target
      requires netKey == promoted.data.netKey
      modifies this
      ensures Later()
      ensures ok.Returned? ==> record == old(record) && entry == old(entry)
                               && flow == Some(AfterVerify(key, args, current, promoted))
      ensures !ok.Returned? ==> flow == None
    {
      hide AfterLoad, AfterProbe, AfterVerify, AfterSave, WorldStep, EntryStep;
      var w := Await();
      if w.None? {
        return Stopped;
      }
      if !w.value.works {
        Abandon();
        return Raised;
      }
      ghost var before := View();
      AfterSnoc(origin, trace, Verify);
      var matched := target in fixtures && fixtures[target].Ours? && fixtures[target].netKey == netKey;
      flow := if matched then Some(AfterVerify(key, args, current, promoted)) else None;
      assert View() == Step(before, Verify);
      trace := trace + [Verify];
      return if matched then Returned(Data(0, None, 0, 0, 0, None, false)) else Raised;
    }

    /** `_async_recover_pending`, ending with the data and whether a new handshake is needed. */
    method RecoverPending(args: Args, pendingRecord: Record, storeId: nat)
      returns (ok: Outcome, reprovision: bool)
      requires Valid() && !args.mode.Repair? && flow == AfterLoad(key, args, Some(pendingRecord), storeId)
      modifies this
      ensures Later()
      ensures !ok.Returned? ==> flow == None
      ensures ok.Returned? ==>
        flow == Some(AfterSave(key, args, if reprovision then Handshake(ok.data) else Recovered(ok.data)))
    {
      var number, provisioning, probed := storeId, false, false;
      if !(pendingRecord.committed && !args.mode.Recovery?) {
        ok, provisioning, number := ProbeBearer(args, Some(pendingRecord), args.target);
        if !ok.Returned? {
          return ok, false;
        }
        probed := true;
      }
      var pending := WithStore(pendingRecord.data, number);
      var updated := pendingRecord.(data := pending);
      if args.mode.Recovery? && provisioning {
        return Raised, false;
      }
      if probed && !provisioning {
        ok := VerifyProxyIdentity(args, pendingRecord, Record(pending, true), args.target, pending.netKey);
        if !ok.Returned? {
          return ok, false;
        }
        updated := updated.(committed := true);
      }
      if updated != pendingRecord {
        ghost var next := if probed && provisioning then Handshake(pending) else Recovered(pending);
        ok := SavePending(args, updated, next);
        if !ok.Returned? {
          return ok, false;
        }
      }
      return Returned(pending), probed && provisioning;
    }

    /** A new provisioning connection, with the keys the exchange will hand over. */
    method Dial(args: Args, prepared: Option<Data>) returns (ok: Outcome, netKey: nat, appKey: nat, storeId: nat)
      requires Valid() && flow == Some(Connecting(args, prepared)) && (prepared.Some? ==> prepared.value.storeId.Some?)
      modifies this
      ensures Later()
      ensures ok.Returned? ==> flow == Some(Exchanging(args, netKey, appKey, storeId))
      ensures !ok.Returned? ==> flow == None
    {
      hide AfterLoad, AfterProbe, AfterVerify, AfterSave, Step;
      netKey, appKey, storeId := 0, 0, 0;
      var w := Await();
      if w.None? {
        return Stopped, netKey, appKey, storeId;
      }
      if !w.value.works {
        Abandon();
        return Raised, netKey, appKey, storeId;
      }
      ghost var before := View();
      netKey, appKey, storeId := w.value.netKey, w.value.appKey, w.value.number;
      ghost var connected := Connect(netKey, appKey, storeId);
      AfterSnoc(origin, trace, connected);
      Connects(before, args, prepared, netKey, appKey, storeId);
      if prepared.Some? {
        netKey, appKey, storeId := prepared.value.netKey, prepared.value.appKey, prepared.value.storeId.value;
      } else {
        minted := minted[netKey := appKey];
      }
      inFlight := inFlight - {args.target};
      flow := Some(Exchanging(args, netKey, appKey, storeId));
      assert View() == Step(before, connected);
      trace := trace + [connected];
      return Returned(Data(args.address, None, netKey, appKey, 0, Some(storeId), true)), netKey, appKey, storeId;
    }

    /** The rest of the flow: fresh or prepared keys, the exchange with its durable hook, and the final record. */
    method Provision(args: Args, prepared: Option<Data>) returns (r: Outcome)
      requires Valid() && flow == Some(Connecting(args, prepared))
      modifies this
      ensures Later()
      ensures r.Returned? ==> flow == Some(Done(args, r.data))
      ensures !r.Returned? ==> flow == None
    {
      hide Step;
      if prepared.Some? && prepared.value.storeId.None? {
        Abandon();
        return Raised;
      }
      var ok, netKey, appKey, storeId := Dial(args, prepared);
      if !ok.Returned? {
        return ok;
      }
      r := Exchanged(args, netKey, appKey, storeId);
    }

    /** The exchange up to its hook: the DeviceKey it derived, in the data to be saved. */
    method NegotiateKey(args: Args, netKey: nat, appKey: nat, storeId: nat) returns (ok: Outcome)
      requires Valid() && flow == Some(Exchanging(args, netKey, appKey, storeId))
      modifies this
      ensures Later()
      ensures ok.Returned? ==> flow == Some(Saving(args, Record(ok.data, false), Send(ok.data)))
      ensures !ok.Returned? ==> flow == None
    {
      hide AfterLoad, AfterProbe, AfterVerify, AfterSave, WorldStep, EntryStep;
      var w := Await();
      if w.None? {
        return Stopped;
      }
      if !w.value.works {
        Abandon();
        return Raised;
      }
      ghost var before := View();
      var deviceKey := w.value.number;
      AfterSnoc(origin, trace, Exchange(deviceKey));
      var data := Data(args.address, None, netKey, appKey, deviceKey, Some(storeId), true);
      var reached := args.target !in fixtures || fixtures[args.target].Unprovisioned?;
      flow := if reached then Some(Saving(args, Record(data, false), Send(data))) else None;
      assert View() == Step(before, Exchange(deviceKey));
      trace := trace + [Exchange(deviceKey)];
      return if reached then Returned(data) else Raised;
    }

    /** `Provisioner.provision` with `save_before_commit`, and the record of its success. */
    method Exchanged(args: Args, netKey: nat, appKey: nat, storeId: nat) returns (r: Outcome)
      requires Valid() && flow == Some(Exchanging(args, netKey, appKey, storeId))
      modifies this
      ensures Later()
      ensures r.Returned? ==> flow == Some(Done(args, r.data))
      ensures !r.Returned? ==> flow == None
    {
      hide Step;
      r := NegotiateKey(args, netKey, appKey, storeId);
      if !r.Returned? {
        return;
      }
      var data := r.data;
      r := SavePending(args, Record(data, false), Send(data));
      if !r.Returned? {
        return;
      }
      r := SendProvisioningData(args, data);
      if r.Returned? {
        r := Commit(args, data);
      }
    }

    /** Data goes out: from here on the fixture may accept it at any moment. */
    method SendProvisioningData(args: Args, data: Data) returns (ok: Outcome)
      requires Valid() && flow == Some(Sending(args, data))
      modifies this
      ensures Later()
      ensures ok.Returned? ==> flow == Some(Awaiting(args, data))
      ensures !ok.Returned? ==> flow == None
    {
      hide AfterLoad, AfterProbe, AfterVerify, AfterSave;
      var w := Await();
      if w.None? {
        return Stopped;
      }
      if !w.value.works {
        Abandon();
        return Raised;
      }
      ghost var before := View();
      AfterSnoc(origin, trace, SendData);
      inFlight := inFlight[args.target := Credentials(data)];
      flow := Some(Awaiting(args, data));
      assert View() == Step(before, SendData);
      trace := trace + [SendData];
      return Returned(data);
    }

    /** Complete, and the committed record. */
    method Commit(args: Args, data: Data) returns (r: Outcome)
      requires Valid() && flow == Some(Awaiting(args, data))
      modifies this
      ensures Later()
      ensures r.Returned? ==> flow == Some(Done(args, r.data))
      ensures !r.Returned? ==> flow == None
    {
      hide AfterLoad, AfterProbe, AfterVerify, AfterSave, Step;
      DoneAfter(key, args, data);
      var w := Await();
      if w.None? {
        return Stopped;
      }
      if !w.value.works {
        Abandon();
        return Raised;
      }
      ghost var before := View();
      AfterSnoc(origin, trace, Complete);
      Completes(before, args, data);
      var accepted := args.target in fixtures && fixtures[args.target] == Credentials(data);
      flow := if accepted then Some(Saving(args, Record(data, true), Return(data))) else None;
      assert View() == Step(before, Complete);
      trace := trace + [Complete];
      if !accepted {
        return Raised;
      }
      r := SavePending(args, Record(data, true), Return(data));
    }

    /** The repair branch once a record exists; `None` means the handshake goes on with `prepared`. */
    method ResumeRepair(args: Args, original: Data, pendingRecord: Record) returns (r: Option<Outcome>, prepared: Data)
      requires Valid() && args.mode == Repair(original) && flow == Some(Probing(args, Some(pendingRecord)))
      modifies this
      ensures Later()
      ensures r.None? ==> flow == Some(Connecting(args, Some(prepared)))
      ensures r.Some? && r.value.Returned? ==> flow == Some(Done(args, r.value.data))
      ensures r.Some? && !r.value.Returned? ==> flow == None
    {
      var ok, provisioning, number := ProbeBearer(args, Some(pendingRecord), args.target);
      prepared := WithStore(pendingRecord.data, number);
      if !ok.Returned? {
        return Some(ok), prepared;
      }
      if !provisioning {
        if prepared.deviceKey == original.deviceKey {
          return Some(Raised), prepared;
        }
        var routed := prepared.(address := args.address);
        ok := VerifyProxyIdentity(args, pendingRecord, Record(routed, true), args.target, prepared.netKey);
        if !ok.Returned? {
          return Some(ok), prepared;
        }
        var updated := Record(routed, true);
        if updated != pendingRecord {
          ok := SavePending(args, updated, Return(routed));
          if !ok.Returned? {
            return Some(ok), prepared;
          }
        }
        return Some(Returned(routed)), prepared;
      }
      var updated := Record(prepared, false);
      if updated != pendingRecord {
        ok := SavePending(args, updated, Handshake(prepared));
        if !ok.Returned? {
          return Some(ok), prepared;
        }
      }
      return None, prepared;
    }

    /** A repair of an entry that has no record yet: its own credentials become one first. */
    method BeginRepair(args: Args, original: Data) returns (r: Option<Outcome>, prepared: Data)
      requires Valid() && args.mode == Repair(original) && flow == Some(Probing(args, None))
      modifies this
      ensures Later()
      ensures r.None? ==> flow == Some(Connecting(args, Some(prepared)))
      ensures r.Some? ==> !r.value.Returned? && flow == None
    {
      var ok, provisioning, number := ProbeBearer(args, None, args.target);
      prepared := WithStore(original, number);
      if !ok.Returned? {
        return Some(ok), prepared;
      }
      if !provisioning {
        return Some(Raised), prepared;
      }
      ok := SavePending(args, Record(prepared, false), Handshake(prepared));
      return if ok.Returned? then None else Some(ok), prepared;
    }

    /**
     `async_provision_fixture`: however it ends, returning, raising or never resuming, what it
     did is a run of the machine, and what it returns is where that run has arrived.
     */
    method ProvisionFixture(args: Args) returns (r: Outcome)
      requires Valid() && flow == Some(Started(args))
      modifies this
      ensures Later()
      ensures r.Returned? ==> flow == Some(Done(args, r.data))
      ensures !r.Returned? ==> flow == None
    {
      hide Step, After, ValidWait, AfterProbe, AfterVerify, SaveIfChanged;
      var w := Await();
      if w.None? {
        return Stopped;
      }
      ghost var before := View();
      var storeId := w.value.number;
      var pendingRecord := record;
      AfterSnoc(origin, trace, Load(storeId));
      Loads(before, args, storeId);
      flow := AfterLoad(key, args, record, storeId);
      assert View() == Step(before, Load(storeId));
      trace := trace + [Load(storeId)];
      if args.mode.Recovery? && pendingRecord.None? {
        return Raised;
      }
      var prepared: Option<Data> := None;
      if pendingRecord.Some? {
        if args.mode.Repair? {
          var done, resumed := ResumeRepair(args, args.mode.original, pendingRecord.value);
          if done.Some? {
            return done.value;
          }
          prepared := Some(resumed);
        } else {
          var ok, reprovision := RecoverPending(args, pendingRecord.value, storeId);
          if !ok.Returned? {
            return ok;
          }
          var pending := ok.data;
          if !reprovision {
            if args.mode.Recovery? {
              pending := pending.(address := key,
                                  transport := if args.address == key then None else Some(args.address));
              r := SavePending(args, Record(pending, true), Return(pending));
              return;
            }
            return Returned(pending);
          }
          prepared := Some(pending);
        }
      } else if args.mode.Repair? {
        var done, begun := BeginRepair(args, args.mode.original);
        if done.Some? {
          return done.value;
        }
        prepared := Some(begun);
      }
      r := Provision(args, prepared);
    }

    /** `_async_reconcile_completed_repair` at the start of setup: go on with the entry, or not ready. */
    method ReconcileCompletedRepair() returns (ready: bool)
      requires Valid() && entry.Some? && entry.value.address == key
      modifies this
      ensures Later() && record == old(record)
      ensures var r := Reconcile(old(entry).value, old(record));
              ready == r.Ready? && entry == if ready then Some(r.entry) else old(entry)
    {
      hide FlowStep, WorldStep;
      ghost var before := View();
      AfterSnoc(origin, trace, Setup);
      ready := true;
      var current := entry.value;
      if record.Some? {
        var pending := record.value.data;
        var sameSubnet := current.netKey == pending.netKey && current.appKey == pending.appKey;
        if sameSubnet && current.deviceKey != pending.deviceKey {
          if !record.value.committed {
            ready := false;
          } else {
            entry := Some(Reprovisioned(current, pending.(needsConfiguration := true)));
          }
        }
      }
      assert View() == Step(before, Setup);
      trace := trace + [Setup];
    }
  }

  /** The theorem about the machine, said of the code: at every await, whatever it was doing, nothing is stranded. */
  lemma CodeStrandsNothing(h: Home)
    requires h.Valid() && Inv(h.origin) && AimedRun(h.origin, h.trace)
    ensures NoneStranded(h.View())
  {
    NoStrandedFixture(h.origin, h.trace);
  }
}
