/**
 Crash-safe provisioning (`config_flow.py`, `provisioning.py`, `pending.py`, `__init__.py`,
 `reconfiguration.py`): one durable recovery record, the config entry it backs, every fixture
 it may be aimed at, and the provisioning flow between them as a machine whose steps end at
 each `await`.
 */
module Provisioning {
  import opened Prelude

  /** A network other than this record's, another record's included, is `Foreign`. */
  datatype Fixture = Unprovisioned | Foreign | Ours(netKey: nat, deviceKey: nat)

  /** The credentials part of a record or config entry. */
  datatype Data = Data(address: nat, transport: Option<nat>, netKey: nat, appKey: nat, deviceKey: nat,
                       storeId: Option<nat>, needsConfiguration: bool)

  datatype Record = Record(data: Data, committed: bool)

  /** How the flow was entered: first setup, orphaned-record recovery, or repair of an entry. */
  datatype Mode = Fresh | Recovery | Repair(original: Data)

  /** `target` is the physical fixture behind the Bluetooth `address`. */
  datatype Args = Args(target: nat, address: nat, mode: Mode)

  /** What follows a verified save. */
  datatype Next = Return(data: Data) | Recovered(data: Data) | Handshake(prepared: Data) | Send(data: Data)

  datatype Flow =
    | Started(args: Args)
    | Probing(args: Args, snapshot: Option<Record>)
    | Verifying(args: Args, current: Record, promoted: Record)
    | Saving(args: Args, record: Record, next: Next)
    | Connecting(args: Args, prepared: Option<Data>)
    | Exchanging(args: Args, netKey: nat, appKey: nat, storeId: nat)
    | Sending(args: Args, data: Data)
    | Awaiting(args: Args, data: Data)
    | Done(args: Args, data: Data)

  /**
   `key` is the record's address, `record` its durable content, `entry` the config entry in
   memory and `entryDisk` the version already flushed. `inFlight` holds Provisioning Data sent
   on a link that is still up. `minted` maps every NetKey ever generated to its AppKey, and
   `held` lists the NetKey and DeviceKey pairs some fixture has accepted.
   */
  datatype State = State(key: nat, fixtures: map<nat, Fixture>, inFlight: map<nat, Fixture>, record: Option<Record>,
                         flow: Option<Flow>, entry: Option<Data>, entryDisk: Option<Data>,
                         minted: map<nat, nat>, held: set<(nat, nat)>)

  /** A verified save: read back equal, raised with the old file in place, or raised after the new one was. */
  datatype Fate = Saved | RaisedBefore | RaisedAfter

  datatype Event =
    // the world
    | Reset(g: nat)
    | Adopted(g: nat)
    | Accept(g: nat)
    | LinkLost(g: nat)
    // Home Assistant
    | Crash
    | Flush
    | Setup
    | Configured
    // the flow
    | Start(target: nat, address: nat, how: Mode)
    | Load(storeId: nat)
    | Probe(storeId: nat)
    | Verify
    | Save(fate: Fate)
    | Connect(netKey: nat, appKey: nat, storeId: nat)
    | Exchange(deviceKey: nat)
    | SendData
    | Complete
    | Raise
    | Finish

  function FixtureOf(s: State, g: nat): Fixture
  {
    if g in s.fixtures then s.fixtures[g] else Unprovisioned
  }

  function Credentials(d: Data): Fixture
  {
    Ours(d.netKey, d.deviceKey)
  }

  function WithStore(d: Data, storeId: nat): Data
  {
    if d.storeId.Some? then d else d.(storeId := Some(storeId))
  }

  // ----- `async_provision_fixture`, one stretch between awaits at a time -----

  /** Where the flow goes once a save has been verified, or was not needed. */
  function AfterSave(key: nat, args: Args, next: Next): Flow
  {
    match next
    case Return(data) => Done(args, data)
    case Recovered(data) =>
      if args.mode.Recovery? then
        var routed := data.(address := key, transport := if args.address == key then None else Some(args.address));
        Saving(args, Record(routed, true), Return(routed))
      else Done(args, data)
    case Handshake(prepared) => Connecting(args, Some(prepared))
    case Send(data) => Sending(args, data)
  }

  function SaveIfChanged(key: nat, args: Args, snapshot: Record, updated: Record, next: Next): Flow
  {
    if updated == snapshot then AfterSave(key, args, next) else Saving(args, updated, next)
  }

  /** `None` is an exception: the flow ends where it stands. */
  function AfterLoad(key: nat, args: Args, record: Option<Record>, storeId: nat): Option<Flow>
  {
    if record.None? then
      match args.mode
      case Fresh => Some(Connecting(args, None))
      case Recovery => None
      case Repair(_) => Some(Probing(args, None))
    else if args.mode.Fresh? && record.value.committed then
      var pending := WithStore(record.value.data, storeId);
      Some(SaveIfChanged(key, args, record.value, record.value.(data := pending), Recovered(pending)))
    else Some(Probing(args, record))
  }

  function AfterProbe(key: nat, args: Args, snapshot: Option<Record>, provisioningBearer: bool, storeId: nat)
    : Option<Flow>
  {
    if snapshot.None? then
      if args.mode.Repair? && provisioningBearer then
        var prepared := WithStore(args.mode.original, storeId);
        Some(Saving(args, Record(prepared, false), Handshake(prepared)))
      else None
    else
      var r := snapshot.value;
      var prepared := WithStore(r.data, storeId);
      match args.mode
      case Repair(original) =>
        if provisioningBearer then
          Some(SaveIfChanged(key, args, r, Record(prepared, false), Handshake(prepared)))
        else if prepared.deviceKey == original.deviceKey then None
        else Some(Verifying(args, r, Record(prepared.(address := args.address), true)))
      case _ =>
        if !provisioningBearer then Some(Verifying(args, r, Record(prepared, true)))
        else if args.mode.Recovery? then None
        else Some(SaveIfChanged(key, args, r, r.(data := prepared), Handshake(prepared)))
  }

  function AfterVerify(key: nat, args: Args, snapshot: Record, promoted: Record): Flow
  {
    SaveIfChanged(key, args, snapshot, promoted,
                  if args.mode.Repair? then Return(promoted.data) else Recovered(promoted.data))
  }

  // ----- Setup -----

  /** `reprovisioned_entry_data` */
  function Reprovisioned(entry: Data, provisioned: Data): Data
  {
    provisioned.(address := entry.address,
                 transport := if provisioned.address == entry.address then None else Some(provisioned.address),
                 storeId := if provisioned.storeId.Some? then provisioned.storeId else entry.storeId,
                 needsConfiguration := provisioned.needsConfiguration || entry.needsConfiguration)
  }

  datatype SetupResult = Ready(entry: Data) | Blocked

  /** `_async_reconcile_completed_repair` */
  function Reconcile(entry: Data, record: Option<Record>): SetupResult
  {
    if record.None? then Ready(entry)
    else
      var pending := record.value.data;
      if entry.netKey != pending.netKey || entry.appKey != pending.appKey || entry.deviceKey == pending.deviceKey then
        Ready(entry)
      else if !record.value.committed then Blocked
      else Ready(Reprovisioned(entry, pending.(needsConfiguration := true)))
  }

  /** The record an entry finds under its own address. */
  function RecordAt(s: State, address: nat): Option<Record>
  {
    if address == s.key then s.record else None
  }

  // ----- The machine -----

  /** What entering the flow takes: no entry for a first setup or recovery, the entry for a repair. */
  function Entered(s: State, target: nat, address: nat, how: Mode): Option<Args>
  {
    match how
    case Fresh => if s.entry.None? && address == s.key then Some(Args(target, address, Fresh)) else None
    case Recovery => if s.entry.None? then Some(Args(target, address, Recovery)) else None
    case Repair(_) =>
      if s.entry.Some? && s.entry.value.address == s.key then Some(Args(target, address, Repair(s.entry.value)))
      else None
  }

  function WorldStep(s: State, e: Event): State
  {
    match e
    case Reset(g) => s.(fixtures := s.fixtures[g := Unprovisioned], inFlight := s.inFlight - {g})
    case Adopted(g) =>
      if FixtureOf(s, g).Unprovisioned? then s.(fixtures := s.fixtures[g := Foreign], inFlight := s.inFlight - {g})
      else s
    case Accept(g) =>
      if g in s.inFlight && FixtureOf(s, g).Unprovisioned? && s.inFlight[g].Ours? then
        s.(fixtures := s.fixtures[g := s.inFlight[g]], inFlight := s.inFlight - {g},
           held := s.held + {(s.inFlight[g].netKey, s.inFlight[g].deviceKey)})
      else s
    case LinkLost(g) => s.(inFlight := s.inFlight - {g})
    case _ => s
  }

  function EntryStep(s: State, e: Event): State
  {
    match e
    case Crash => s.(flow := None, entry := s.entryDisk)
    case Flush => s.(entryDisk := s.entry)
    case Setup =>
      if s.entry.None? then s
      else
        var r := Reconcile(s.entry.value, RecordAt(s, s.entry.value.address));
        if r.Ready? then s.(entry := Some(r.entry)) else s
    case Configured => if s.entry.Some? then s.(entry := Some(s.entry.value.(needsConfiguration := false))) else s
    case _ => s
  }

  /** A flow step that does not fit where the flow is changes nothing. */
  function FlowStep(s: State, f: Flow, e: Event): State
  {
    match (f, e)
    case (_, Raise) => s.(flow := None)
    case (Started(args), Load(storeId)) => s.(flow := AfterLoad(s.key, args, s.record, storeId))
    case (Probing(args, snapshot), Probe(storeId)) =>
      s.(flow := AfterProbe(s.key, args, snapshot, FixtureOf(s, args.target).Unprovisioned?, storeId),
         inFlight := s.inFlight - {args.target})
    case (Verifying(args, snapshot, promoted), Verify) =>
      var fixture := FixtureOf(s, args.target);
      s.(flow := if fixture.Ours? && fixture.netKey == promoted.data.netKey
                 then Some(AfterVerify(s.key, args, snapshot, promoted)) else None)
    case (Saving(args, record, next), Save(fate)) =>
      s.(record := if fate.RaisedBefore? then s.record else Some(record),
         flow := if fate.Saved? then Some(AfterSave(s.key, args, next)) else None)
    case (Connecting(args, prepared), Connect(netKey, appKey, storeId)) =>
      var s' := s.(inFlight := s.inFlight - {args.target});
      if prepared.None? then
        s'.(flow := Some(Exchanging(args, netKey, appKey, storeId)), minted := s.minted[netKey := appKey])
      else if prepared.value.storeId.None? then s'.(flow := None)
      else
        s'.(flow := Some(Exchanging(args, prepared.value.netKey, prepared.value.appKey, prepared.value.storeId.value)))
    case (Exchanging(args, netKey, appKey, storeId), Exchange(deviceKey)) =>
      if !FixtureOf(s, args.target).Unprovisioned? then s.(flow := None)
      else
        var data := Data(args.address, None, netKey, appKey, deviceKey, Some(storeId), true);
        s.(flow := Some(Saving(args, Record(data, false), Send(data))))
    case (Sending(args, data), SendData) =>
      s.(flow := Some(Awaiting(args, data)), inFlight := s.inFlight[args.target := Credentials(data)])
    case (Awaiting(args, data), Complete) =>
      s.(flow := if FixtureOf(s, args.target) == Credentials(data)
                 then Some(Saving(args, Record(data, true), Return(data))) else None)
    case (Done(args, data), Finish) =>
      (match args.mode
       case Repair(_) =>
         s.(flow := None, entry := if s.entry.Some? then Some(Reprovisioned(s.entry.value, data)) else None)
       case _ => s.(flow := None, entry := if s.entry.None? then Some(data) else s.entry))
    case _ => s
  }

  function Step(s: State, e: Event): State
  {
    if e.Start? then
      if s.flow.Some? then s
      else
        var args := Entered(s, e.target, e.address, e.how);
        s.(flow := if args.Some? then Some(Started(args.value)) else None)
    else if e.Reset? || e.Adopted? || e.Accept? || e.LinkLost? then WorldStep(s, e)
    else if e.Crash? || e.Flush? || e.Setup? || e.Configured? then EntryStep(s, e)
    else if s.flow.Some? then FlowStep(s, s.flow.value, e)
    else s
  }

  // ----- Invariants -----

  /** Credentials the durable record can reproduce. */
  ghost predicate Recoverable(record: Option<Record>, fixture: Fixture)
  {
    fixture.Ours? ==> record.Some? && Credentials(record.value.data) == fixture
  }

  /** No fixture is stranded: what any of them holds, or may still accept, is in the durable record. */
  ghost predicate NoneStranded(s: State)
  {
    && (forall g :: g in s.fixtures ==> Recoverable(s.record, s.fixtures[g]))
    && forall g :: g in s.inFlight ==> s.inFlight[g].Ours? && Recoverable(s.record, s.inFlight[g])
  }

  /** No other fixture than `g` holds, or may still accept, credentials of ours. */
  ghost predicate SoleOwner(s: State, g: nat)
  {
    forall f :: f != g ==> !FixtureOf(s, f).Ours? && f !in s.inFlight
  }

  ghost predicate Free(s: State, g: nat)
  {
    !FixtureOf(s, g).Ours? && g !in s.inFlight
  }

  ghost predicate SameKeys(d: Data, e: Data)
  {
    d.netKey == e.netKey && d.appKey == e.appKey && d.deviceKey == e.deviceKey
  }

  /** A record to be written that names the same credentials as the durable one, or replaces none. */
  ghost predicate Restates(s: State, r: Record)
  {
    if s.record.Some? then SameKeys(r.data, s.record.value.data) && (r.committed ==> Vouched(s, r)) else !r.committed
  }

  /** A committed record's credentials were accepted by a fixture. */
  ghost predicate Vouched(s: State, r: Record)
  {
    (r.data.netKey, r.data.deviceKey) in s.held
  }

  ghost predicate NextFits(r: Record, next: Next)
  {
    match next
    case Return(data) => data == r.data
    case Recovered(data) => data == r.data && r.committed
    case Handshake(prepared) => prepared == r.data
    case Send(data) => r == Record(data, false)
  }

  /** What the flow may rely on at each of its stops. */
  ghost predicate FlowInv(s: State, f: Flow)
  {
    match f
    case Started(args) => true
    case Probing(args, snapshot) => snapshot == s.record && !(args.mode.Fresh? && snapshot.Some? && snapshot.value.committed)
    case Verifying(args, snapshot, promoted) =>
      s.record == Some(snapshot) && SameKeys(promoted.data, snapshot.data) && promoted.committed
    case Saving(args, r, next) =>
      NextFits(r, next) && (if next.Send? then Free(s, args.target) else Restates(s, r))
    case Connecting(args, prepared) => true
    case Exchanging(args, _, _, _) => args.target !in s.inFlight
    case Sending(args, data) => Free(s, args.target) && s.record == Some(Record(data, false))
    case Awaiting(args, data) => s.record == Some(Record(data, false))
    case Done(args, data) => s.record.Some? && s.record.value.data == data
  }

  ghost predicate Inv(s: State)
  {
    && NoneStranded(s)
    && (forall g :: g in s.fixtures && s.fixtures[g].Ours? ==>
          (s.fixtures[g].netKey, s.fixtures[g].deviceKey) in s.held)
    && (s.record.Some? && s.record.value.committed ==> Vouched(s, s.record.value))
    && (s.flow.Some? ==> FlowInv(s, s.flow.value))
  }

  /** The one step that has to be aimed right: replacing the record's DeviceKey before Data is sent. */
  ghost predicate Aimed(s: State, e: Event)
  {
    e.Save? && !e.fate.RaisedBefore? && s.flow.Some? && s.flow.value.Saving? && s.flow.value.next.Send? ==>
      SoleOwner(s, s.flow.value.args.target)
  }

  lemma WorldKeeps(s: State, e: Event)
    requires Inv(s)
    ensures Inv(WorldStep(s, e))
  {
  }

  lemma EntryKeeps(s: State, e: Event)
    requires Inv(s)
    ensures Inv(EntryStep(s, e))
  {
    hide Reconcile;
  }

  /** Once the record a save was for is the durable one, the flow may go where it was going. */
  lemma AfterSaveFits(s: State, args: Args, r: Record, next: Next)
    requires s.record == Some(r) && NextFits(r, next) && (r.committed ==> Vouched(s, r))
    requires next.Send? ==> Free(s, args.target)
    ensures FlowInv(s, AfterSave(s.key, args, next))
  {
  }

  lemma SaveIfChangedFits(s: State, args: Args, snapshot: Record, updated: Record, next: Next)
    requires s.record == Some(snapshot) && Restates(s, updated) && NextFits(updated, next) && !next.Send?
    ensures FlowInv(s, SaveIfChanged(s.key, args, snapshot, updated, next))
  {
    if updated == snapshot {
      AfterSaveFits(s, args, updated, next);
    }
  }

  lemma LoadFits(s: State, args: Args, storeId: nat)
    requires Inv(s)
    ensures var f := AfterLoad(s.key, args, s.record, storeId);
            f.Some? ==> FlowInv(s, f.value)
  {
    hide SaveIfChanged, NoneStranded, AfterSave;
    if s.record.Some? && args.mode.Fresh? && s.record.value.committed {
      var r := s.record.value;
      var pending := WithStore(r.data, storeId);
      SaveIfChangedFits(s, args, r, r.(data := pending), Recovered(pending));
    }
  }

  lemma ProbeFits(s: State, args: Args, provisioningBearer: bool, storeId: nat)
    requires Inv(s) && FlowInv(s, Probing(args, s.record))
    ensures var f := AfterProbe(s.key, args, s.record, provisioningBearer, storeId);
            f.Some? ==> FlowInv(s, f.value)
  {
    hide SaveIfChanged, NoneStranded, AfterSave;
    if s.record.Some? {
      var r := s.record.value;
      var prepared := WithStore(r.data, storeId);
      if provisioningBearer && args.mode.Repair? {
        SaveIfChangedFits(s, args, r, Record(prepared, false), Handshake(prepared));
      } else if provisioningBearer && args.mode.Fresh? {
        SaveIfChangedFits(s, args, r, r.(data := prepared), Handshake(prepared));
      }
    }
  }

  /** An authenticated Proxy holds exactly the record's DeviceKey, not just its NetKey. */
  lemma VerifiedIsVouched(s: State, g: nat, r: Record)
    requires Inv(s) && s.record == Some(r) && FixtureOf(s, g).Ours?
    ensures FixtureOf(s, g) == Credentials(r.data) && Vouched(s, r)
  {
    assert g in s.fixtures;
    assert Recoverable(s.record, s.fixtures[g]);
  }

  lemma VerifyFits(s: State, args: Args, current: Record, promoted: Record)
    requires Inv(s) && FlowInv(s, Verifying(args, current, promoted)) && FixtureOf(s, args.target).Ours?
    ensures FlowInv(s, AfterVerify(s.key, args, current, promoted))
  {
    hide SaveIfChanged, NoneStranded, AfterSave;
    VerifiedIsVouched(s, args.target, current);
    SaveIfChangedFits(s, args, current, promoted,
                      if args.mode.Repair? then Return(promoted.data) else Recovered(promoted.data));
  }

  /** Replacing the record keeps every fixture recoverable when it restates its credentials. */
  lemma RestatedSave(s: State, r: Record)
    requires Inv(s) && Restates(s, r)
    ensures NoneStranded(s.(record := Some(r), flow := None)) && (r.committed ==> Vouched(s, r))
  {
    var s' := s.(record := Some(r), flow := None);
    forall g | g in s.fixtures ensures Recoverable(s'.record, s'.fixtures[g]) {
      assert Recoverable(s.record, s.fixtures[g]);
    }
    forall g | g in s.inFlight ensures s'.inFlight[g].Ours? && Recoverable(s'.record, s'.inFlight[g]) {
      assert Recoverable(s.record, s.inFlight[g]);
    }
  }

  /** Replacing its DeviceKey does so when no other fixture depends on the old one. */
  lemma ReplacedSave(s: State, g: nat, r: Record)
    requires NoneStranded(s) && Free(s, g) && SoleOwner(s, g)
    ensures NoneStranded(s.(record := Some(r), flow := None))
  {
    var s' := s.(record := Some(r), flow := None);
    forall f | f in s.fixtures ensures Recoverable(s'.record, s'.fixtures[f]) {
      assert !FixtureOf(s, f).Ours?;
    }
    assert forall f :: f !in s.inFlight;
  }

  lemma SaveKeeps(s: State, args: Args, r: Record, next: Next, fate: Fate)
    requires Inv(s) && s.flow == Some(Saving(args, r, next)) && Aimed(s, Save(fate))
    ensures Inv(FlowStep(s, s.flow.value, Save(fate)))
  {
    hide NoneStranded, AfterSave, SoleOwner;
    if !fate.RaisedBefore? {
      if next.Send? {
        ReplacedSave(s, args.target, r);
      } else {
        RestatedSave(s, r);
      }
      var s' := s.(record := Some(r), flow := None);
      SameWorld(s', s'.(flow := FlowStep(s, s.flow.value, Save(fate)).flow));
      AfterSaveFits(s', args, r, next);
      AfterSaveElsewhere(s', args, next);
    } else {
      SameWorld(s, s.(flow := None));
    }
  }

  lemma AfterSaveElsewhere(s: State, args: Args, next: Next)
    requires FlowInv(s, AfterSave(s.key, args, next))
    ensures FlowInv(s.(flow := Some(AfterSave(s.key, args, next))), AfterSave(s.key, args, next))
  {
  }

  /** The flow's own position has no bearing on what fixtures hold. */
  lemma SameWorld(s: State, t: State)
    requires t == s.(flow := t.flow)
    ensures NoneStranded(t) == NoneStranded(s)
  {
  }

  lemma FewerInFlight(s: State, g: nat)
    requires Inv(s)
    ensures Inv(s.(inFlight := s.inFlight - {g}))
  {
  }

  lemma LoadKeeps(s: State, f: Flow, storeId: nat)
    requires Inv(s) && s.flow == Some(f)
    ensures Inv(FlowStep(s, f, Load(storeId)))
  {
    hide AfterLoad;
    if f.Started? {
      LoadFits(s, f.args, storeId);
    }
  }

  lemma ProbeKeeps(s: State, f: Flow, storeId: nat)
    requires Inv(s) && s.flow == Some(f)
    ensures Inv(FlowStep(s, f, Probe(storeId)))
  {
    hide AfterProbe;
    if f.Probing? {
      FewerInFlight(s, f.args.target);
      ProbeFits(s.(inFlight := s.inFlight - {f.args.target}), f.args, FixtureOf(s, f.args.target).Unprovisioned?,
                storeId);
    }
  }

  lemma VerifyKeeps(s: State, f: Flow)
    requires Inv(s) && s.flow == Some(f)
    ensures Inv(FlowStep(s, f, Verify))
  {
    hide AfterVerify;
    if f.Verifying? && FixtureOf(s, f.args.target).Ours? {
      VerifyFits(s, f.args, f.current, f.promoted);
    }
  }

  lemma ConnectKeeps(s: State, f: Flow, netKey: nat, appKey: nat, storeId: nat)
    requires Inv(s) && s.flow == Some(f)
    ensures Inv(FlowStep(s, f, Connect(netKey, appKey, storeId)))
  {
    FewerInFlight(s, f.args.target);
    hide AfterLoad, AfterProbe, AfterVerify, AfterSave;
  }

  lemma ExchangeKeeps(s: State, f: Flow, deviceKey: nat)
    requires Inv(s) && s.flow == Some(f)
    ensures Inv(FlowStep(s, f, Exchange(deviceKey)))
  {
    hide AfterLoad, AfterProbe, AfterVerify, AfterSave;
  }

  lemma SendKeeps(s: State, f: Flow)
    requires Inv(s) && s.flow == Some(f)
    ensures Inv(FlowStep(s, f, SendData))
  {
    hide AfterLoad, AfterProbe, AfterVerify, AfterSave;
  }

  lemma LinkKeeps(s: State, f: Flow, e: Event)
    requires Inv(s) && s.flow == Some(f) && (e.Connect? || e.Exchange? || e.SendData?)
    ensures Inv(FlowStep(s, f, e))
  {
    hide Inv, FlowStep;
    match e
    case Connect(netKey, appKey, storeId) => ConnectKeeps(s, f, netKey, appKey, storeId);
    case Exchange(deviceKey) => ExchangeKeeps(s, f, deviceKey);
    case _ => SendKeeps(s, f);
  }

  lemma EndKeeps(s: State, f: Flow, e: Event)
    requires Inv(s) && s.flow == Some(f) && (e.Raise? || e.Finish?)
    ensures Inv(FlowStep(s, f, e))
  {
    hide NoneStranded;
    SameWorld(s, s.(flow := None));
    SameEntry(s.(flow := None), FlowStep(s, f, e));
  }

  lemma SameEntry(s: State, t: State)
    requires t == s.(entry := t.entry, flow := t.flow)
    ensures NoneStranded(t) == NoneStranded(s)
  {
  }

  lemma FlowKeeps(s: State, f: Flow, e: Event)
    requires Inv(s) && s.flow == Some(f) && Aimed(s, e)
    ensures Inv(FlowStep(s, f, e))
  {
    hide FlowStep, Inv, Aimed;
    match e
    case Load(storeId) => LoadKeeps(s, f, storeId);
    case Probe(storeId) => ProbeKeeps(s, f, storeId);
    case Verify => VerifyKeeps(s, f);
    case Save(fate) =>
      if f.Saving? {
        SaveKeeps(s, f.args, f.record, f.next, fate);
      } else {
        Unfitting(s, f, e);
      }
    case Complete =>
      if f.Awaiting? {
        CompleteKeeps(s, f.args, f.data);
      } else {
        Unfitting(s, f, e);
      }
    case Raise => EndKeeps(s, f, e);
    case Finish => EndKeeps(s, f, e);
    case Connect(_, _, _) => LinkKeeps(s, f, e);
    case Exchange(_) => LinkKeeps(s, f, e);
    case SendData => LinkKeeps(s, f, e);
    case _ => Unfitting(s, f, e);
  }

  lemma Unfitting(s: State, f: Flow, e: Event)
    requires (e.Save? && !f.Saving?) || (e.Complete? && !f.Awaiting?)
             || !(e.Load? || e.Probe? || e.Verify? || e.Save? || e.Connect? || e.Exchange? || e.SendData?
                  || e.Complete? || e.Raise? || e.Finish?)
    ensures FlowStep(s, f, e) == s
  {
  }

  lemma CompleteKeeps(s: State, args: Args, data: Data)
    requires Inv(s) && s.flow == Some(Awaiting(args, data))
    ensures Inv(FlowStep(s, Awaiting(args, data), Complete))
  {
    if FixtureOf(s, args.target) == Credentials(data) {
      VerifiedIsVouched(s, args.target, Record(data, false));
    }
  }

  lemma StepKeeps(s: State, e: Event)
    requires Inv(s) && Aimed(s, e)
    ensures Inv(Step(s, e))
  {
    hide WorldStep, EntryStep, FlowStep, FlowInv;
    WorldKeeps(s, e);
    EntryKeeps(s, e);
    if s.flow.Some? {
      FlowKeeps(s, s.flow.value, e);
    } else if e.Start? {
      StartKeeps(s, e);
    }
  }

  lemma StartKeeps(s: State, e: Event)
    requires Inv(s) && s.flow.None? && e.Start?
    ensures Inv(Step(s, e))
  {
    hide NoneStranded;
    SameWorld(s, Step(s, e));
  }

  /** A new installation: fixtures are unprovisioned or someone else's, and nothing is stored. */
  lemma Installed(s: State)
    requires s.record.None? && s.flow.None? && s.inFlight == map[]
    requires forall g :: g in s.fixtures ==> !s.fixtures[g].Ours?
    ensures Inv(s)
    ensures s.entry.None? && s.entryDisk.None? ==> AllMinted(s) && Homed(s)
  {
  }

  // ----- Whole runs -----

  function After(s: State, events: seq<Event>): State
  {
    if |events| == 0 then s else Step(After(s, events[..|events| - 1]), events[|events| - 1])
  }

  ghost predicate AimedRun(s: State, events: seq<Event>)
  {
    |events| == 0
    || (var before := events[..|events| - 1];
        AimedRun(s, before) && Aimed(After(s, before), events[|events| - 1]))
  }

  /**
   No stranded fixture. In every run of provisioning and repair attempts, crashes between any
   two steps, failed saves, lost Provisioning Data, user resets and adoptions elsewhere,
   whatever credentials of this record a fixture holds or may still accept are the ones the
   durable record holds, and a committed record's were accepted by a fixture.
   */
  lemma {:induction false} NoStrandedFixture(s: State, events: seq<Event>)
    requires Inv(s) && AimedRun(s, events)
    ensures Inv(After(s, events)) && NoneStranded(After(s, events))
  {
    if |events| > 0 {
      hide Step, Inv, NoneStranded, Aimed;
      NoStrandedFixture(s, events[..|events| - 1]);
      StepKeeps(After(s, events[..|events| - 1]), events[|events| - 1]);
    }
    InvNoneStranded(After(s, events));
  }

  lemma InvNoneStranded(s: State)
    ensures Inv(s) ==> NoneStranded(s)
  {
  }

  /** The DeviceKey about to be saved was agreed with this fixture alone: no other one has it. */
  ghost predicate DistinctKeys(s: State, e: Event)
  {
    e.Save? && s.flow.Some? && s.flow.value.Saving? && s.flow.value.next.Send? ==>
      var deviceKey := s.flow.value.next.data.deviceKey;
      && (forall g :: g in s.fixtures && s.fixtures[g].Ours? ==> s.fixtures[g].deviceKey != deviceKey)
      && forall g :: g in s.inFlight && s.inFlight[g].Ours? ==> s.inFlight[g].deviceKey != deviceKey
  }

  ghost predicate DistinctRun(s: State, events: seq<Event>)
  {
    |events| == 0
    || (var before := events[..|events| - 1];
        DistinctRun(s, before) && DistinctKeys(After(s, before), events[|events| - 1]))
  }

  /** At no point of the run is a fixture stranded. */
  ghost predicate NeverStranded(s: State, events: seq<Event>)
  {
    NoneStranded(After(s, events)) && (|events| == 0 || NeverStranded(s, events[..|events| - 1]))
  }

  /** Replacing a DeviceKey that some other fixture still holds, or may still accept, strands that fixture. */
  lemma MisaimedStrands(s: State, e: Event)
    requires Inv(s) && DistinctKeys(s, e) && !Aimed(s, e)
    ensures !NoneStranded(Step(s, e))
  {
    var args := s.flow.value.args;
    var s' := Step(s, e);
    assert s'.record == Some(Record(s.flow.value.next.data, false)) && s'.fixtures == s.fixtures && s'.inFlight == s.inFlight;
    var f :| f != args.target && (FixtureOf(s, f).Ours? || f in s.inFlight);
    if FixtureOf(s, f).Ours? {
      assert !Recoverable(s'.record, s'.fixtures[f]);
    } else {
      assert !Recoverable(s'.record, s'.inFlight[f]);
    }
  }

  /**
   The aim is exactly what is needed: a run strands no fixture at any point if and only if a
   DeviceKey is only ever replaced while no other fixture depends on it.
   */
  lemma {:induction false} NeverStrandedExactly(s: State, events: seq<Event>)
    requires Inv(s) && DistinctRun(s, events)
    ensures NeverStranded(s, events) <==> AimedRun(s, events)
  {
    hide Step, Inv, NoneStranded, Aimed, DistinctKeys;
    InvNoneStranded(s);
    if |events| > 0 {
      var before, last := events[..|events| - 1], events[|events| - 1];
      NeverStrandedExactly(s, before);
      if AimedRun(s, before) {
        NoStrandedFixture(s, before);
        if Aimed(After(s, before), last) {
          NoStrandedFixture(s, events);
        } else {
          MisaimedStrands(After(s, before), last);
        }
      }
    }
  }

  // ----- The record really recovers the fixture -----

  lemma AfterSnoc(s: State, events: seq<Event>, e: Event)
    ensures After(s, events + [e]) == Step(After(s, events), e)
  {
    assert (events + [e])[..|events|] == events;
  }

  /** The saves left to a recovery that has proved its Proxy: one if the record is already as it should be. */
  lemma RecoverySaves(s: State, args: Args, current: Record, promoted: Record)
    requires args.mode.Recovery? && s.flow == Some(AfterVerify(s.key, args, current, promoted))
    ensures var s' := Step(Step(s, Save(Saved)), Save(Saved));
            s'.flow.Some? && s'.flow.value.Done? && Credentials(s'.flow.value.data) == Credentials(promoted.data)
            && s'.flow.value.data.address == s.key
  {
    hide WorldStep, EntryStep, AfterLoad, AfterProbe, WithStore;
    var pending := promoted.data;
    var routed := pending.(address := s.key,
                           transport := if args.address == s.key then None else Some(args.address));
    var last := Saving(args, Record(routed, true), Return(routed));
    assert AfterSave(s.key, args, Recovered(pending)) == last;
    if promoted == current {
      assert Step(s, Save(Saved)).flow == Some(Done(args, routed));
    } else {
      assert Step(s, Save(Saved)).flow == Some(last);
    }
  }

  /**
   A fixture that is not stranded is not lost: with no entry left, a recovery flow aimed at it
   ends with exactly its credentials, under the record's own address.
   */
  lemma RecoveryReaches(s: State, g: nat, address: nat, storeId: nat)
    requires Inv(s) && s.flow.None? && s.entry.None? && FixtureOf(s, g).Ours?
    ensures var events := [Start(g, address, Recovery), Load(storeId), Probe(storeId), Verify, Save(Saved), Save(Saved)];
            var s' := After(s, events);
            s'.flow.Some? && s'.flow.value.Done? && Credentials(s'.flow.value.data) == FixtureOf(s, g)
            && s'.flow.value.data.address == s.key
  {
    assert g in s.fixtures && Recoverable(s.record, s.fixtures[g]);
    var r := s.record.value;
    var args := Args(g, address, Recovery);
    var promoted := Record(WithStore(r.data, storeId), true);
    RecoveryVerifies(s, args, r, storeId);
    RecoverySaves(After(s, [Start(g, address, Recovery), Load(storeId), Probe(storeId), Verify]), args, r, promoted);
    hide Step, AfterVerify;
    var e4 := Save(Saved);
    var events := [Start(g, address, Recovery), Load(storeId), Probe(storeId), Verify];
    AfterSnoc(s, events, e4);
    AfterSnoc(s, events + [e4], e4);
    assert events + [e4] + [e4] == [Start(g, address, Recovery), Load(storeId), Probe(storeId), Verify, e4, e4];
  }

  /** The first four steps of such a recovery. */
  lemma RecoveryVerifies(s: State, args: Args, r: Record, storeId: nat)
    requires args.mode.Recovery? && s.flow.None? && s.entry.None? && s.record == Some(r)
    requires FixtureOf(s, args.target) == Credentials(r.data)
    ensures var s' := After(s, [Start(args.target, args.address, Recovery), Load(storeId), Probe(storeId), Verify]);
            s'.key == s.key
            && s'.flow == Some(AfterVerify(s.key, args, r, Record(WithStore(r.data, storeId), true)))
  {
    hide AfterVerify;
    var e0, e1, e2, e3 := Start(args.target, args.address, Recovery), Load(storeId), Probe(storeId), Verify;
    var promoted := Record(WithStore(r.data, storeId), true);
    var s1 := Step(s, e0);
    assert s1 == s.(flow := Some(Started(args)));
    var s2 := Step(s1, e1);
    assert s2 == s.(flow := Some(Probing(args, s.record)));
    var s3 := Step(s2, e2);
    assert s3 == s.(flow := Some(Verifying(args, r, promoted)), inFlight := s.inFlight - {args.target});
    var s4 := Step(s3, e3);
    assert s4 == s3.(flow := Some(AfterVerify(s.key, args, r, promoted)));
    FourSteps(s, e0, e1, e2, e3);
  }

  lemma ThreeSteps(s: State, e0: Event, e1: Event, e2: Event)
    ensures After(s, [e0, e1, e2]) == Step(Step(Step(s, e0), e1), e2)
  {
    hide Step;
    AfterSnoc(s, [], e0);
    AfterSnoc(s, [e0], e1);
    AfterSnoc(s, [e0, e1], e2);
    assert [] + [e0] == [e0] && [e0] + [e1] == [e0, e1] && [e0, e1] + [e2] == [e0, e1, e2];
  }

  lemma FourSteps(s: State, e0: Event, e1: Event, e2: Event, e3: Event)
    ensures After(s, [e0, e1, e2, e3]) == Step(Step(Step(Step(s, e0), e1), e2), e3)
  {
    hide Step;
    ThreeSteps(s, e0, e1, e2);
    AfterSnoc(s, [e0, e1, e2], e3);
    assert [e0, e1, e2] + [e3] == [e0, e1, e2, e3];
  }

  // ----- Setup after a repair -----

  /** Every AppKey was generated with its NetKey. */
  ghost predicate Minted(minted: map<nat, nat>, d: Data)
  {
    d.netKey in minted && minted[d.netKey] == d.appKey
  }

  ghost predicate FlowMinted(s: State, f: Flow)
  {
    && (f.args.mode.Repair? ==> Minted(s.minted, f.args.mode.original))
    && match f
       case Started(_) => true
       case Probing(_, snapshot) => snapshot.Some? ==> Minted(s.minted, snapshot.value.data)
       case Verifying(_, current, promoted) => Minted(s.minted, current.data) && Minted(s.minted, promoted.data)
       case Saving(_, r, next) => Minted(s.minted, r.data) && NextFits(r, next)
       case Connecting(_, prepared) => prepared.Some? ==> Minted(s.minted, prepared.value)
       case Exchanging(_, netKey, appKey, _) => netKey in s.minted && s.minted[netKey] == appKey
       case Sending(_, data) => Minted(s.minted, data)
       case Awaiting(_, data) => Minted(s.minted, data)
       case Done(_, data) => Minted(s.minted, data)
  }

  ghost predicate AllMinted(s: State)
  {
    && (s.record.Some? ==> Minted(s.minted, s.record.value.data))
    && (s.entry.Some? ==> Minted(s.minted, s.entry.value))
    && (s.entryDisk.Some? ==> Minted(s.minted, s.entryDisk.value))
    && (s.flow.Some? ==> FlowMinted(s, s.flow.value))
  }

  /** 128-bit network keys never repeat. */
  ghost predicate FreshKeys(s: State, e: Event)
  {
    e.Connect? ==> e.netKey !in s.minted
  }

  lemma MintMore(s: State, netKey: nat, appKey: nat)
    requires AllMinted(s) && netKey !in s.minted
    ensures AllMinted(s.(minted := s.minted[netKey := appKey]))
  {
  }

  lemma ReconcileMinted(minted: map<nat, nat>, entry: Data, record: Option<Record>)
    requires Minted(minted, entry) && (record.Some? ==> Minted(minted, record.value.data))
    ensures Reconcile(entry, record).Ready? ==> Minted(minted, Reconcile(entry, record).entry)
  {
  }

  lemma AfterSaveMinted(s: State, args: Args, r: Record, next: Next)
    requires FlowMinted(s, Saving(args, r, next))
    ensures FlowMinted(s, AfterSave(s.key, args, next))
  {
  }

  lemma LoadMinted(s: State, args: Args, storeId: nat)
    requires AllMinted(s) && FlowMinted(s, Started(args))
    ensures var f := AfterLoad(s.key, args, s.record, storeId);
            f.Some? ==> FlowMinted(s, f.value)
  {
    hide AfterSave;
    if s.record.Some? && args.mode.Fresh? && s.record.value.committed {
      var pending := WithStore(s.record.value.data, storeId);
      AfterSaveMinted(s, args, s.record.value.(data := pending), Recovered(pending));
    }
  }

  lemma ProbeMinted(s: State, args: Args, snapshot: Option<Record>, bearer: bool, storeId: nat)
    requires FlowMinted(s, Probing(args, snapshot))
    ensures var f := AfterProbe(s.key, args, snapshot, bearer, storeId);
            f.Some? ==> FlowMinted(s, f.value)
  {
    hide AfterSave;
    if snapshot.Some? {
      var prepared := WithStore(snapshot.value.data, storeId);
      AfterSaveMinted(s, args, Record(prepared, false), Handshake(prepared));
      AfterSaveMinted(s, args, snapshot.value.(data := prepared), Handshake(prepared));
    }
  }

  lemma VerifyMinted(s: State, args: Args, current: Record, promoted: Record)
    requires FlowMinted(s, Verifying(args, current, promoted)) && promoted.committed
    ensures FlowMinted(s, AfterVerify(s.key, args, current, promoted))
  {
    hide AfterSave;
    AfterSaveMinted(s, args, promoted, if args.mode.Repair? then Return(promoted.data) else Recovered(promoted.data));
  }

  lemma DecisionsKeepMinted(s: State, f: Flow, e: Event)
    requires AllMinted(s) && s.flow == Some(f) && FlowInv(s, f)
    requires e.Load? || e.Probe? || e.Verify? || e.Save?
    ensures AllMinted(FlowStep(s, f, e))
  {
    hide AfterLoad, AfterProbe, AfterVerify, AfterSave, Free, Restates, Vouched, SameKeys, Credentials;
    if e.Load? && f.Started? {
      LoadMinted(s, f.args, e.storeId);
    } else if e.Probe? && f.Probing? {
      ProbeMinted(s, f.args, f.snapshot, FixtureOf(s, f.args.target).Unprovisioned?, e.storeId);
    } else if e.Verify? && f.Verifying? {
      VerifyMinted(s, f.args, f.current, f.promoted);
    } else if e.Save? && f.Saving? {
      AfterSaveMinted(s, f.args, f.record, f.next);
    }
  }

  lemma ConnectMints(s: State, f: Flow, netKey: nat, appKey: nat, storeId: nat)
    requires AllMinted(s) && s.flow == Some(f) && netKey !in s.minted
    ensures AllMinted(FlowStep(s, f, Connect(netKey, appKey, storeId)))
  {
    if f.Connecting? {
      MintMore(s, netKey, appKey);
    }
  }

  lemma HandshakeKeepsMinted(s: State, f: Flow, e: Event)
    requires AllMinted(s) && s.flow == Some(f) && (e.Exchange? || e.SendData? || e.Complete?)
    ensures AllMinted(FlowStep(s, f, e))
  {
  }

  lemma EndKeepsMinted(s: State, f: Flow, e: Event)
    requires AllMinted(s) && s.flow == Some(f) && (e.Raise? || e.Finish?)
    ensures AllMinted(FlowStep(s, f, e))
  {
  }

  lemma FlowKeepsMinted(s: State, f: Flow, e: Event)
    requires AllMinted(s) && s.flow == Some(f) && FreshKeys(s, e) && FlowInv(s, f)
    ensures AllMinted(FlowStep(s, f, e))
  {
    hide FlowStep, AllMinted, FlowInv;
    if e.Load? || e.Probe? || e.Verify? || e.Save? {
      DecisionsKeepMinted(s, f, e);
    } else if e.Connect? {
      ConnectMints(s, f, e.netKey, e.appKey, e.storeId);
    } else if e.Exchange? || e.SendData? || e.Complete? {
      HandshakeKeepsMinted(s, f, e);
    } else if e.Raise? || e.Finish? {
      EndKeepsMinted(s, f, e);
    } else {
      Unfitting(s, f, e);
    }
  }

  lemma StepKeepsMinted(s: State, e: Event)
    requires AllMinted(s) && Inv(s) && FreshKeys(s, e)
    ensures AllMinted(Step(s, e))
  {
    hide FlowStep, Reconcile, FlowInv;
    if s.flow.Some? {
      FlowKeepsMinted(s, s.flow.value, e);
    }
    if s.entry.Some? {
      ReconcileMinted(s.minted, s.entry.value, RecordAt(s, s.entry.value.address));
    }
  }

  /** An entry kept under another address than its record's has the record's keys. */
  ghost predicate Abroad(s: State, entry: Data)
  {
    entry.address != s.key ==> s.record.Some? && SameKeys(entry, s.record.value.data)
  }

  /**
   A flow is a repair of the entry at the record's address, or there is no entry; a flushed entry
   is the one in memory, at its address; and wherever it is, it is no staler than the record.
   */
  ghost predicate Homed(s: State)
  {
    && (s.flow.Some? ==>
          if s.flow.value.args.mode.Repair? then s.entry.Some? && s.entry.value.address == s.key else s.entry.None?)
    && (s.entryDisk.Some? ==> s.entry.Some? && s.entry.value.address == s.entryDisk.value.address)
    && (s.entry.Some? ==> Abroad(s, s.entry.value))
    && (s.entryDisk.Some? ==> Abroad(s, s.entryDisk.value))
  }

  lemma ArgsKept(s: State, f: Flow, e: Event)
    requires s.flow == Some(f)
    ensures var s' := FlowStep(s, f, e);
            && (s'.flow.Some? ==> s'.flow.value.args == f.args) && s'.key == s.key && s'.entryDisk == s.entryDisk
            && (!(f.Done? && e.Finish?) ==> s'.entry == s.entry)
  {
  }

  lemma FinishHomed(s: State, args: Args, data: Data)
    requires Homed(s) && s.flow == Some(Done(args, data)) && FlowInv(s, Done(args, data))
    ensures Homed(FlowStep(s, Done(args, data), Finish))
  {
  }

  lemma StepHomed(s: State, e: Event)
    requires Inv(s) && Homed(s)
    ensures Homed(Step(s, e))
  {
    hide Inv, FlowStep, FlowInv;
    if s.flow.Some? && !e.Start? {
      ArgsKept(s, s.flow.value, e);
      if s.flow.value.Done? && e.Finish? {
        FlowInvNow(s);
        FinishHomed(s, s.flow.value.args, s.flow.value.data);
      }
    }
  }

  lemma FlowInvNow(s: State)
    requires Inv(s) && s.flow.Some?
    ensures FlowInv(s, s.flow.value)
  {
  }

  lemma {:induction false} RunHomed(s: State, events: seq<Event>)
    requires Inv(s) && AimedRun(s, events) && Homed(s)
    ensures Homed(After(s, events))
  {
    if |events| > 0 {
      hide Step, Inv, Homed, Aimed, NoneStranded;
      var before := events[..|events| - 1];
      RunHomed(s, before);
      NoStrandedFixture(s, before);
      StepHomed(After(s, before), events[|events| - 1]);
    }
  }

  /**
   What setup goes on with is never a stale DeviceKey: past reconciliation, the entry names
   the DeviceKey of every fixture still provisioned in its subnet.
   */
  lemma SetupSafe(s: State, g: nat)
    requires Inv(s) && AllMinted(s) && s.entry.Some? && Abroad(s, s.entry.value)
    ensures var r := Reconcile(s.entry.value, RecordAt(s, s.entry.value.address));
            r.Ready? && FixtureOf(s, g).Ours? && FixtureOf(s, g).netKey == r.entry.netKey ==>
              FixtureOf(s, g).deviceKey == r.entry.deviceKey
  {
    if FixtureOf(s, g).Ours? {
      assert g in s.fixtures && Recoverable(s.record, s.fixtures[g]);
    }
  }

  /** Both copies of a flushed entry stay, at the address it was created with. */
  ghost predicate EntryAt(s: State, address: nat)
  {
    s.entry.Some? && s.entryDisk.Some? && s.entry.value.address == address && s.entryDisk.value.address == address
  }

  lemma StepKeepsAddress(s: State, e: Event, address: nat)
    requires EntryAt(s, address)
    ensures EntryAt(Step(s, e), address)
  {
    hide AfterLoad, AfterProbe, AfterVerify, AfterSave;
  }

  /** No sequence of repairs, setups and crashes changes a flushed entry's stable address. */
  lemma {:induction false} AddressStable(s: State, events: seq<Event>, address: nat)
    requires EntryAt(s, address)
    ensures EntryAt(After(s, events), address)
  {
    if |events| > 0 {
      hide Step, EntryAt;
      AddressStable(s, events[..|events| - 1], address);
      StepKeepsAddress(After(s, events[..|events| - 1]), events[|events| - 1], address);
    }
  }

  ghost predicate FreshRun(s: State, events: seq<Event>)
  {
    |events| == 0
    || (var before := events[..|events| - 1];
        FreshRun(s, before) && FreshKeys(After(s, before), events[|events| - 1]))
  }

  lemma {:induction false} RunKeepsMinted(s: State, events: seq<Event>)
    requires Inv(s) && AimedRun(s, events) && AllMinted(s) && FreshRun(s, events)
    ensures AllMinted(After(s, events))
  {
    if |events| > 0 {
      hide Step, Inv, AllMinted, FreshKeys, Aimed, NoneStranded;
      var before := events[..|events| - 1];
      RunKeepsMinted(s, before);
      NoStrandedFixture(s, before);
      StepKeepsMinted(After(s, before), events[|events| - 1]);
    }
  }

  /**
   Setup after any history: with config-entry writes lost or delayed by crashes, repairs
   interrupted anywhere and saves failing, setup never gets past reconciliation with a
   DeviceKey other than the one a still-provisioned fixture holds in that subnet, wherever
   the entry is kept, and leaves it there.
   */
  lemma SetupNeverStale(s: State, events: seq<Event>, g: nat)
    requires Inv(s) && AllMinted(s) && (Homed(s) || EntryAt(s, s.key)) && AimedRun(s, events) && FreshRun(s, events)
    ensures var end := After(s, events);
            && (EntryAt(s, s.key) ==> EntryAt(end, s.key))
            && (end.entry.Some? ==>
                  var r := Reconcile(end.entry.value, RecordAt(end, end.entry.value.address));
                  (r.Ready? ==> r.entry.address == end.entry.value.address)
                  && (r.Ready? && FixtureOf(end, g).Ours? && FixtureOf(end, g).netKey == r.entry.netKey ==>
                        FixtureOf(end, g).deviceKey == r.entry.deviceKey))
  {
    hide Step, Inv, AllMinted, AimedRun, FreshRun, FixtureOf, NoneStranded, SameKeys;
    NoStrandedFixture(s, events);
    RunKeepsMinted(s, events);
    KeyFixed(s, events);
    if EntryAt(s, s.key) {
      AddressStable(s, events, s.key);
    } else {
      RunHomed(s, events);
    }
    var end := After(s, events);
    if end.entry.Some? {
      SetupSafe(end, g);
    }
  }

  lemma {:induction false} KeyFixed(s: State, events: seq<Event>)
    ensures After(s, events).key == s.key
  {
    if |events| > 0 {
      KeyFixed(s, events[..|events| - 1]);
      StepKeepsKey(After(s, events[..|events| - 1]), events[|events| - 1]);
      hide Step;
    }
  }

  lemma StepKeepsKey(s: State, e: Event)
    ensures Step(s, e).key == s.key
  {
    hide AfterLoad, AfterProbe, AfterVerify, AfterSave, Reconcile;
  }

  lemma Begins(s: State, args: Args, address: nat, how: Mode)
    requires s.flow.None? && Entered(s, args.target, address, how) == Some(args)
    ensures Step(s, Start(args.target, address, how)) == s.(flow := Some(Started(args)))
  {
  }

  lemma AdoptingLoad(s: State, args: Args, storeId: nat)
    requires s.flow == Some(Started(args)) && args.mode.Fresh?
    requires s.record.Some? && s.record.value.committed && s.record.value.data.storeId.Some?
    ensures Step(s, Load(storeId)) == s.(flow := Some(Done(args, s.record.value.data)))
  {
  }

  lemma FirstFinish(s: State, args: Args, data: Data)
    requires s.flow == Some(Done(args, data)) && args.mode.Fresh? && s.entry.None?
    ensures Step(s, Finish) == s.(flow := None, entry := Some(data))
  {
  }

  /**
   The one way an entry can start out under another address than its record's: a first setup
   that adopts a committed record takes the address field as it stands, which a repair over
   another route has left at that route.
   */
  lemma AdoptedAddress(s: State, g: nat, storeId: nat)
    requires s.flow.None? && s.entry.None? && s.record.Some? && s.record.value.committed
    requires s.record.value.data.storeId.Some?
    ensures var s' := After(s, [Start(g, s.key, Fresh), Load(storeId), Finish]);
            s'.entry.Some? && (s'.entry.value.address == s.key <==> s.record.value.data.address == s.key)
  {
    hide Step;
    var args := Args(g, s.key, Fresh);
    var data := s.record.value.data;
    Begins(s, args, s.key, Fresh);
    AdoptingLoad(s.(flow := Some(Started(args))), args, storeId);
    FirstFinish(s.(flow := Some(Done(args, data))), args, data);
    ThreeSteps(s, Start(g, s.key, Fresh), Load(storeId), Finish);
  }
}
