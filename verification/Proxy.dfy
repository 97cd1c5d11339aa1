/**
 Inbound half of `proxy.py`: what one decoded Proxy PDU does to the replay list, the
 reassembler and the outstanding acknowledgments, and replay safety over whole runs.
 */
module Proxy {
  import opened Prelude
  import opened Bits
  import opened LowerTransport
  import Network
  import R = Reassembly

  const CONTROL_OPCODE_SEGMENT_ACK := 0
  const PROXY_CONFIG_FILTER_STATUS := 3
  const PROXY_FILTER_ACCEPT_LIST := 0

  /** What a `ProxyClient` is constructed with. */
  datatype Context = Context(cipher: Network.Cipher, keys: Network.NetworkKeys, ivIndex: nat, localAddress: nat,
                             appKey: Bytes, aid: nat, deviceKeys: map<nat, Bytes>, limits: R.Limits)

  ghost predicate ValidContext(ctx: Context)
  {
    Network.Correct(ctx.cipher) && ctx.keys.nid < 128 && ctx.aid < 64 && R.ValidLimits(ctx.limits)
    && ctx.ivIndex < 0x1_0000_0000
  }

  /** Correlation state of one outbound segmented transaction. */
  datatype PendingAck = PendingAck(dst: nat, segmentCount: nat, acknowledged: nat, future: Option<SegmentAck>)

  /** `filter` is the filter-status future: absent, waiting, or done. */
  datatype State = State(replay: map<nat, nat>, table: R.Table, pending: map<nat, PendingAck>, filter: Option<bool>)

  datatype AccessMessage = AccessMessage(src: nat, dst: nat, opcode: nat, parameters: Bytes, deviceKey: bool)

  /** A segment acknowledgment handed to a background task. */
  datatype AckJob = AckJob(dst: nat, seqZero: nat, blockAck: nat)

  datatype Kind = FilterStatus | SegmentAcked | Unsegmented | Segmented

  /** One call of `_remember_sequence`. */
  datatype Acceptance = Acceptance(kind: Kind, src: nat, seq_: nat)

  datatype Outcome = Outcome(state: State, ack: Option<AckJob>, message: Option<AccessMessage>,
                             accepted: Option<Acceptance>)

  predicate IsReplay(replay: map<nat, nat>, src: nat, seq_: nat)
  {
    src in replay && seq_ <= replay[src]
  }

  function Remember(replay: map<nat, nat>, src: nat, seq_: nat): map<nat, nat>
  {
    replay[src := if src in replay then Max(seq_, replay[src]) else seq_]
  }

  function Drop(s: State): Outcome
  {
    Outcome(s, None, None, None)
  }

  function Accept(s: State, src: nat, seq_: nat): State
  {
    s.(replay := Remember(s.replay, src, seq_))
  }

  // ----- Bit sets of block acknowledgments -----

  /** `a & ~b` */
  function AndNot(a: nat, b: nat): nat
  {
    if a == 0 then 0 else (if a % 2 == 1 && b % 2 == 0 then 1 else 0) + 2 * AndNot(a / 2, b / 2)
  }

  predicate Bit(n: nat, i: nat)
  {
    Shr(n, i) % 2 == 1
  }

  // ----- Access messages -----

  /** The one key `_decrypt_and_dispatch` would try. */
  function Candidate(ctx: Context, src: nat, akf: nat, aid: nat): Option<(Bytes, bool)>
  {
    if akf == 0 then
      if src in ctx.deviceKeys && |ctx.deviceKeys[src]| > 0 then Some((ctx.deviceKeys[src], true)) else None
    else if aid == ctx.aid then Some((ctx.appKey, false))
    else None
  }

  /** `_decrypt_and_dispatch`: the message handed to listeners, if any. */
  function DecryptAndDispatch(ctx: Context, src: nat, dst: nat, upper: Bytes, akf: nat, aid: nat, szmic: nat,
                              seqAuth: nat): (r: Option<AccessMessage>)
    ensures r.Some? ==> r.value.src == src && r.value.dst == dst
  {
    match Candidate(ctx, src, akf, aid)
    case None => None
    case Some((key, isDeviceKey)) =>
      match Network.DecryptAccess(ctx.cipher, key, isDeviceKey, ctx.ivIndex, seqAuth, src, dst, upper, szmic)
      case None => None
      case Some(accessPdu) =>
        match Network.DecodeOpcode(accessPdu)
        case Err(_) => None
        case Ok((opcode, parameters)) => Some(AccessMessage(src, dst, opcode, parameters, isDeviceKey))
  }

  /**
   Nothing is dispatched that was not authenticated: the opcode and parameters are exactly the
   access PDU that the one candidate key decrypts, a DeviceKey for AKF 0 and the AppKey otherwise.
   */
  lemma DispatchedWasDecrypted(ctx: Context, src: nat, dst: nat, upper: Bytes, akf: nat, aid: nat, szmic: nat, seqAuth: nat)
    requires DecryptAndDispatch(ctx, src, dst, upper, akf, aid, szmic, seqAuth).Some?
    ensures var m := DecryptAndDispatch(ctx, src, dst, upper, akf, aid, szmic, seqAuth).value;
            && (m.deviceKey <==> akf == 0) && (m.deviceKey ==> src in ctx.deviceKeys)
            && var key := if m.deviceKey then ctx.deviceKeys[src] else ctx.appKey;
               Network.ValidOpcode(m.opcode)
               && Network.DecryptAccess(ctx.cipher, key, m.deviceKey, ctx.ivIndex, seqAuth, m.src, m.dst, upper, szmic)
                  == Some(Network.EncodeOpcode(m.opcode).value + m.parameters)
  {
    var (key, isDeviceKey) := Candidate(ctx, src, akf, aid).value;
    var access := Network.DecryptAccess(ctx.cipher, key, isDeviceKey, ctx.ivIndex, seqAuth, src, dst, upper, szmic).value;
    Network.OpcodeExact(access);
    hide Network.DecryptAccess;
  }

  // ----- The four inbound paths -----

  /** `_handle_proxy_config` once decoded */
  function HandleProxyConfig(s: State, m: Network.NetworkMessage): Outcome
  {
    if IsReplay(s.replay, m.src, m.seq_) then Drop(s)
    else if |m.transport| != 4 || m.transport[0] != PROXY_CONFIG_FILTER_STATUS
            || m.transport[1] != PROXY_FILTER_ACCEPT_LIST then Drop(s)
    else
      var s' := Accept(s, m.src, m.seq_);
      Outcome(s'.(filter := if s.filter.Some? then Some(true) else None), None, None,
              Some(Acceptance(FilterStatus, m.src, m.seq_)))
  }

  /** A segment acknowledgment that `_handle_network` lets through to its future. */
  predicate AckMatches(ctx: Context, s: State, m: Network.NetworkMessage, ack: SegmentAck)
  {
    && ack.seqZero in s.pending
    && var p := s.pending[ack.seqZero];
       p.future.None? && m.dst == ctx.localAddress && m.src == p.dst && ack.blockAck < Pow2(p.segmentCount)
       && (ack.blockAck == 0 || AndNot(ack.blockAck, p.acknowledged) != 0)
  }

  function HandleControl(ctx: Context, s: State, m: Network.NetworkMessage): Outcome
    requires |m.transport| >= 1
  {
    if IsReplay(s.replay, m.src, m.seq_) || m.transport[0] % 128 != CONTROL_OPCODE_SEGMENT_ACK then Drop(s)
    else
      match ParseSegmentAck(m.transport[1..])
      case Err(_) => Drop(s)
      case Ok(ack) =>
        if !AckMatches(ctx, s, m, ack) then Drop(s)
        else
          var p := s.pending[ack.seqZero];
          var p' := p.(acknowledged := Or(p.acknowledged, ack.blockAck), future := Some(ack));
          Outcome(Accept(s, m.src, m.seq_).(pending := s.pending[ack.seqZero := p']), None, None,
                  Some(Acceptance(SegmentAcked, m.src, m.seq_)))
  }

  function AckFor(ctx: Context, m: Network.NetworkMessage, seqZero: nat, blockAck: nat): Option<AckJob>
  {
    if m.dst == ctx.localAddress then Some(AckJob(m.src, seqZero, blockAck)) else None
  }

  /** The rest of `_handle_network` once the reassembler has answered a segment. */
  function HandleAdded(ctx: Context, s: State, m: Network.NetworkMessage, segment: AccessSegment, r: R.AddResult)
    : Outcome
  {
    if r.alreadyComplete then Outcome(s, AckFor(ctx, m, segment.seqZero, r.blockAck), None, None)
    else if r.upper.None? || r.lastSegmentSeq.None? then
      Outcome(s, if segment.segO == segment.segN then AckFor(ctx, m, segment.seqZero, r.blockAck) else None, None, None)
    else
      var ack := AckFor(ctx, m, segment.seqZero, r.blockAck);
      var last := r.lastSegmentSeq.value;
      if IsReplay(s.replay, m.src, last) then Outcome(s, ack, None, None)
      else
        var message := DecryptAndDispatch(ctx, m.src, m.dst, r.upper.value, segment.akf, segment.aid, segment.szmic,
                                          segment.seqAuth);
        if message.None? then Outcome(s, ack, None, None)
        else Outcome(Accept(s, m.src, last), ack, message, Some(Acceptance(Segmented, m.src, last)))
  }

  ghost function HandleSegment(ctx: Context, s: State, m: Network.NetworkMessage, nowAck: real, nowAdd: real): Outcome
  {
    match ParseAccessSegment(m.seq_, m.transport)
    case Err(_) => Drop(s)
    case Ok(segment) =>
      var s1 := s.(table := R.PruneTable(s.table, nowAck, ctx.limits));
      var completedAck := R.AckFromSlot(R.SlotOf(s1.table, (m.src, m.dst)), segment.seqAuth);
      if IsReplay(s.replay, m.src, m.seq_) then
        Outcome(s1, if completedAck.Some? then AckFor(ctx, m, segment.seqZero, completedAck.value) else None, None, None)
      else
        var (table, r) := R.Add(s1.table, (m.src, m.dst), m.seq_, segment, nowAdd, ctx.limits);
        var s2 := s1.(table := table);
        if r.Err? then Drop(s2) else HandleAdded(ctx, s2, m, segment, r.value)
  }

  function HandleUnsegmented(ctx: Context, s: State, m: Network.NetworkMessage): Outcome
    requires |m.transport| >= 1
  {
    if IsReplay(s.replay, m.src, m.seq_) then Drop(s)
    else
      var akf, aid := m.transport[0] / 64 % 2, m.transport[0] % 64;
      var message := DecryptAndDispatch(ctx, m.src, m.dst, m.transport[1..], akf, aid, 0, m.seq_);
      if message.None? then Drop(s)
      else Outcome(Accept(s, m.src, m.seq_), None, message, Some(Acceptance(Unsegmented, m.src, m.seq_)))
  }

  /** `_handle_network` once decoded */
  ghost function HandleNetwork(ctx: Context, s: State, m: Network.NetworkMessage, nowAck: real, nowAdd: real): Outcome
  {
    if m.src == ctx.localAddress || |m.transport| == 0 then Drop(s)
    else if m.ctl != 0 then HandleControl(ctx, s, m)
    else if m.transport[0] >= 128 then HandleSegment(ctx, s, m, nowAck, nowAdd)
    else HandleUnsegmented(ctx, s, m)
  }

  // ----- Runs -----

  /**
   One Proxy PDU arriving, with the two clock readings its handling may take; or the sending
   half, or a new BLE session, replacing the outstanding acknowledgments and filter future.
   */
  datatype Event =
    | NetworkPdu(payload: Bytes, nowAck: real, nowAdd: real)
    | ProxyConfigPdu(payload: Bytes)
    | Sending(pending: map<nat, PendingAck>, filter: Option<bool>)

  ghost function Handle(ctx: Context, s: State, e: Event): Outcome
    requires ValidContext(ctx)
  {
    match e
    case NetworkPdu(payload, nowAck, nowAdd) =>
      (match Network.DecodeNetworkPdu(ctx.cipher, ctx.keys, ctx.ivIndex, payload, false)
       case Err(_) => Drop(s)
       case Ok(m) => HandleNetwork(ctx, s, m, nowAck, nowAdd))
    case ProxyConfigPdu(payload) =>
      (match Network.DecodeNetworkPdu(ctx.cipher, ctx.keys, ctx.ivIndex, payload, true)
       case Err(_) => Drop(s)
       case Ok(m) => HandleProxyConfig(s, m))
    case Sending(pending, filter) => Drop(s.(pending := pending, filter := filter))
  }

  ghost function After(ctx: Context, s: State, events: seq<Event>): State
    requires ValidContext(ctx)
  {
    if |events| == 0 then s
    else Handle(ctx, After(ctx, s, events[..|events| - 1]), events[|events| - 1]).state
  }

  function Listed<T>(o: Option<T>): seq<T>
  {
    if o.Some? then [o.value] else []
  }

  /** The `_remember_sequence` calls of a run, in order. */
  ghost function Acceptances(ctx: Context, s: State, events: seq<Event>): seq<Acceptance>
    requires ValidContext(ctx)
  {
    if |events| == 0 then []
    else
      var before := events[..|events| - 1];
      var last := Handle(ctx, After(ctx, s, before), events[|events| - 1]).accepted;
      Acceptances(ctx, s, before) + Listed(last)
  }

  /** The messages a run hands to its listeners, in order. */
  ghost function Messages(ctx: Context, s: State, events: seq<Event>): seq<AccessMessage>
    requires ValidContext(ctx)
  {
    if |events| == 0 then []
    else
      var before := events[..|events| - 1];
      var last := Handle(ctx, After(ctx, s, before), events[|events| - 1]).message;
      Messages(ctx, s, before) + Listed(last)
  }

  ghost predicate StateInv(ctx: Context, s: State)
  {
    R.TableInv(s.table, ctx.limits)
  }

  /** Every record is a step past what was recorded before; a message is dispatched only with one. */
  ghost predicate Advances(s: State, o: Outcome)
  {
    && (o.accepted.None? ==> o.state.replay == s.replay && o.message.None?)
    && (o.accepted.Some? ==>
          var a := o.accepted.value;
          !IsReplay(s.replay, a.src, a.seq_) && o.state.replay == s.replay[a.src := a.seq_]
          && (o.message.Some? <==> a.kind == Unsegmented || a.kind == Segmented)
          && (o.message.Some? ==> o.message.value.src == a.src))
  }

  lemma AddedAdvances(ctx: Context, s: State, m: Network.NetworkMessage, segment: AccessSegment, r: R.AddResult)
    ensures Advances(s, HandleAdded(ctx, s, m, segment, r))
    ensures HandleAdded(ctx, s, m, segment, r).state.table == s.table
  {
  }

  lemma SegmentAdvances(ctx: Context, s: State, m: Network.NetworkMessage, nowAck: real, nowAdd: real)
    requires StateInv(ctx, s)
    ensures Advances(s, HandleSegment(ctx, s, m, nowAck, nowAdd))
    ensures StateInv(ctx, HandleSegment(ctx, s, m, nowAck, nowAdd).state)
  {
    hide R.Add, R.TableInv, R.PruneTable, R.AckFromSlot, HandleAdded;
    var parsed := ParseAccessSegment(m.seq_, m.transport);
    if parsed.Ok? {
      var segment := parsed.value;
      R.PruneTableInv(s.table, nowAck, ctx.limits);
      var s1 := s.(table := R.PruneTable(s.table, nowAck, ctx.limits));
      R.AddTableInv(s1.table, (m.src, m.dst), m.seq_, segment, nowAdd, ctx.limits);
      var (table, r) := R.Add(s1.table, (m.src, m.dst), m.seq_, segment, nowAdd, ctx.limits);
      if r.Ok? {
        AddedAdvances(ctx, s1.(table := table), m, segment, r.value);
      }
    }
  }

  lemma ConfigAdvances(ctx: Context, s: State, m: Network.NetworkMessage)
    requires StateInv(ctx, s)
    ensures Advances(s, HandleProxyConfig(s, m)) && StateInv(ctx, HandleProxyConfig(s, m).state)
  {
    hide R.TableInv;
  }

  lemma ControlAdvances(ctx: Context, s: State, m: Network.NetworkMessage)
    requires StateInv(ctx, s) && |m.transport| >= 1
    ensures Advances(s, HandleControl(ctx, s, m)) && StateInv(ctx, HandleControl(ctx, s, m).state)
  {
    hide R.TableInv, ParseSegmentAck, AckMatches, Or;
  }

  lemma UnsegmentedAdvances(ctx: Context, s: State, m: Network.NetworkMessage)
    requires StateInv(ctx, s) && |m.transport| >= 1
    ensures Advances(s, HandleUnsegmented(ctx, s, m)) && StateInv(ctx, HandleUnsegmented(ctx, s, m).state)
  {
    hide R.TableInv, DecryptAndDispatch;
  }

  lemma NetworkAdvances(ctx: Context, s: State, m: Network.NetworkMessage, nowAck: real, nowAdd: real)
    requires StateInv(ctx, s)
    ensures Advances(s, HandleNetwork(ctx, s, m, nowAck, nowAdd))
    ensures StateInv(ctx, HandleNetwork(ctx, s, m, nowAck, nowAdd).state)
  {
    hide HandleSegment, HandleControl, HandleUnsegmented, StateInv;
    if |m.transport| >= 1 {
      ControlAdvances(ctx, s, m);
      UnsegmentedAdvances(ctx, s, m);
      SegmentAdvances(ctx, s, m, nowAck, nowAdd);
    }
  }

  lemma DropAdvances(s: State)
    ensures Advances(s, Drop(s))
  {
  }

  lemma SendingAdvances(s: State, pending: map<nat, PendingAck>, filter: Option<bool>)
    ensures Advances(s, Drop(s.(pending := pending, filter := filter)))
  {
  }

  lemma HandleAdvances(ctx: Context, s: State, e: Event)
    requires ValidContext(ctx) && StateInv(ctx, s)
    ensures Advances(s, Handle(ctx, s, e)) && StateInv(ctx, Handle(ctx, s, e).state)
  {
    hide HandleNetwork, HandleProxyConfig, Network.DecodeNetworkPdu, R.TableInv, Advances;
    if e.NetworkPdu? {
      var r := Network.DecodeNetworkPdu(ctx.cipher, ctx.keys, ctx.ivIndex, e.payload, false);
      if r.Ok? {
        NetworkAdvances(ctx, s, r.value, e.nowAck, e.nowAdd);
      } else {
        DropAdvances(s);
      }
    } else if e.ProxyConfigPdu? {
      var r := Network.DecodeNetworkPdu(ctx.cipher, ctx.keys, ctx.ivIndex, e.payload, true);
      if r.Ok? {
        ConfigAdvances(ctx, s, r.value);
      } else {
        DropAdvances(s);
      }
    } else {
      SendingAdvances(s, e.pending, e.filter);
    }
  }

  lemma {:induction false} RunInv(ctx: Context, s: State, events: seq<Event>)
    requires ValidContext(ctx) && StateInv(ctx, s)
    ensures StateInv(ctx, After(ctx, s, events))
  {
    if |events| > 0 {
      RunInv(ctx, s, events[..|events| - 1]);
      HandleAdvances(ctx, After(ctx, s, events[..|events| - 1]), events[|events| - 1]);
    }
  }

  ghost predicate Seen(replay: map<nat, nat>, a: Acceptance)
  {
    a.src in replay && a.seq_ <= replay[a.src]
  }

  /** What was seen stays seen, and what is accepted is then seen. */
  lemma SeenStep(s: State, o: Outcome, accepted: seq<Acceptance>)
    requires Advances(s, o) && forall a :: a in accepted ==> Seen(s.replay, a)
    ensures forall a :: a in accepted + Listed(o.accepted) ==> Seen(o.state.replay, a)
    ensures forall src :: src in s.replay ==> src in o.state.replay && s.replay[src] <= o.state.replay[src]
  {
  }

  lemma {:induction false} AcceptedSeen(ctx: Context, s: State, events: seq<Event>)
    requires ValidContext(ctx) && StateInv(ctx, s)
    ensures forall a :: a in Acceptances(ctx, s, events) ==> Seen(After(ctx, s, events).replay, a)
    ensures forall src :: src in s.replay ==>
      src in After(ctx, s, events).replay && s.replay[src] <= After(ctx, s, events).replay[src]
  {
    hide Handle, StateInv, Seen, Advances, ValidContext;
    if |events| > 0 {
      var before, last := events[..|events| - 1], events[|events| - 1];
      AcceptedSeen(ctx, s, before);
      RunInv(ctx, s, before);
      HandleAdvances(ctx, After(ctx, s, before), last);
      SeenStep(After(ctx, s, before), Handle(ctx, After(ctx, s, before), last), Acceptances(ctx, s, before));
    }
  }

  ghost predicate StrictlyIncreasing(accepted: seq<Acceptance>)
  {
    forall i, j :: 0 <= i < j < |accepted| && accepted[i].src == accepted[j].src ==>
      accepted[i].seq_ < accepted[j].seq_
  }

  lemma NothingYet()
    ensures StrictlyIncreasing([])
  {
  }

  /** One more acceptance is above every one seen from its source, and above the list the run began with. */
  lemma OneMoreIncreases(s0: State, s: State, o: Outcome, accepted: seq<Acceptance>)
    requires Advances(s, o) && StrictlyIncreasing(accepted)
    requires forall a :: a in accepted ==> Seen(s.replay, a) && !IsReplay(s0.replay, a.src, a.seq_)
    requires forall src :: src in s0.replay ==> src in s.replay && s0.replay[src] <= s.replay[src]
    ensures StrictlyIncreasing(accepted + Listed(o.accepted))
    ensures forall a :: a in accepted + Listed(o.accepted) ==> !IsReplay(s0.replay, a.src, a.seq_)
  {
    if o.accepted.Some? {
      forall i | 0 <= i < |accepted| && accepted[i].src == o.accepted.value.src
        ensures accepted[i].seq_ < o.accepted.value.seq_
      {
        assert accepted[i] in accepted;
      }
    }
  }

  /**
   Replay safety: over any PDUs, clock readings, sending activity and BLE reconnects, the
   sequence numbers accepted from one source strictly increase across all four inbound
   paths, and none was at or below what the replay list already held.
   */
  lemma {:induction false} ReplaySafe(ctx: Context, s: State, events: seq<Event>)
    requires ValidContext(ctx) && StateInv(ctx, s)
    ensures StrictlyIncreasing(Acceptances(ctx, s, events))
    ensures forall a :: a in Acceptances(ctx, s, events) ==> !IsReplay(s.replay, a.src, a.seq_)
  {
    hide Handle, StateInv, After, Advances, Seen, IsReplay, StrictlyIncreasing, ValidContext;
    if |events| == 0 {
      NothingYet();
    } else {
      var before, last := events[..|events| - 1], events[|events| - 1];
      ReplaySafe(ctx, s, before);
      AcceptedSeen(ctx, s, before);
      RunInv(ctx, s, before);
      var s' := After(ctx, s, before);
      HandleAdvances(ctx, s', last);
      OneMoreIncreases(s, s', Handle(ctx, s', last), Acceptances(ctx, s, before));
    }
  }

  function Sources(messages: seq<AccessMessage>): seq<nat>
  {
    if |messages| == 0 then [] else Sources(messages[..|messages| - 1]) + [messages[|messages| - 1].src]
  }

  /** The sources of the acceptances on the two access paths. */
  function AccessSources(accepted: seq<Acceptance>): seq<nat>
  {
    if |accepted| == 0 then []
    else
      var last := accepted[|accepted| - 1];
      AccessSources(accepted[..|accepted| - 1])
      + (if last.kind == Unsegmented || last.kind == Segmented then [last.src] else [])
  }

  /** One step extends both lists by the same source, or neither. */
  lemma ListedTogether(s: State, o: Outcome, messages: seq<AccessMessage>, accepted: seq<Acceptance>)
    requires Advances(s, o) && Sources(messages) == AccessSources(accepted)
    ensures Sources(messages + Listed(o.message)) == AccessSources(accepted + Listed(o.accepted))
  {
    if o.message.Some? {
      assert (messages + Listed(o.message))[..|messages|] == messages;
    } else {
      assert messages + Listed(o.message) == messages;
    }
    if o.accepted.Some? {
      assert (accepted + Listed(o.accepted))[..|accepted|] == accepted;
    } else {
      assert accepted + Listed(o.accepted) == accepted;
    }
  }

  /**
   Messages reach listeners one for one with the acceptances of the two access paths, in
   order: nothing is dispatched without its own fresh sequence number, and no access
   acceptance is silent.
   */
  lemma {:induction false} DispatchedWhenAccepted(ctx: Context, s: State, events: seq<Event>)
    requires ValidContext(ctx) && StateInv(ctx, s)
    ensures Sources(Messages(ctx, s, events)) == AccessSources(Acceptances(ctx, s, events))
  {
    if |events| > 0 {
      hide Handle, StateInv, After, Sources, AccessSources, Advances, Listed;
      var before := events[..|events| - 1];
      DispatchedWhenAccepted(ctx, s, before);
      RunInv(ctx, s, before);
      var s' := After(ctx, s, before);
      HandleAdvances(ctx, s', events[|events| - 1]);
      ListedTogether(s', Handle(ctx, s', events[|events| - 1]), Messages(ctx, s, before), Acceptances(ctx, s, before));
    }
  }
}
