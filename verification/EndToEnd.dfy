/**
 All layers together: an access message encoded, encrypted, segmented, obfuscated and framed
 by one node is dispatched by the other with the same opcode and parameters.
 */
module EndToEnd {
  import opened Prelude
  import opened Bits
  import opened LowerTransport
  import opened Proxy
  import Network
  import R = Reassembly
  import X = ExactReassembly
  import Sar

  /** One direction of a conversation, and the key its messages are encrypted under. */
  datatype Hop = Hop(sender: Context, receiver: Context, dst: nat, ttl: nat, deviceKey: bool, key: Bytes) {
    function Src(): nat { sender.localAddress }
    function Pair(): R.Pair { (sender.localAddress, dst) }
    function Akf(): nat { if deviceKey then 0 else 1 }
    function Aid(): nat { if deviceKey then 0 else sender.aid }
  }

  /** Both nodes share the NetKey, IV Index and the key of these messages. */
  ghost predicate Joined(h: Hop)
  {
    && ValidContext(h.sender) && ValidContext(h.receiver)
    && h.sender.cipher == h.receiver.cipher && h.sender.keys == h.receiver.keys && h.sender.ivIndex == h.receiver.ivIndex
    && 1 <= h.Src() <= 0x7FFF && h.Src() != h.receiver.localAddress && 1 <= h.dst < 0x10000 && h.ttl < 128
    && (if h.deviceKey then h.Src() in h.receiver.deviceKeys && h.receiver.deviceKeys[h.Src()] == h.key && |h.key| > 0
        else h.receiver.appKey == h.key && h.receiver.aid == h.sender.aid)
  }

  function AccessPdu(opcode: nat, parameters: Bytes): Bytes
    requires opcode < 0x1000000
  {
    Network.EncodeOpcode(opcode).value + parameters
  }

  function Upper(h: Hop, seqAuth: nat, access: Bytes): Bytes
  {
    Network.EncryptAccess(h.sender.cipher, h.key, h.deviceKey, h.sender.ivIndex, seqAuth, h.Src(), h.dst, access, 0)
  }

  /** What the receiver's listeners are to be told. */
  function Expected(h: Hop, opcode: nat, parameters: Bytes): AccessMessage
  {
    AccessMessage(h.Src(), h.dst, opcode, parameters, h.deviceKey)
  }

  lemma Decrypts(h: Hop, seqAuth: nat, opcode: nat, parameters: Bytes)
    requires Joined(h) && Network.ValidOpcode(opcode)
    ensures DecryptAndDispatch(h.receiver, h.Src(), h.dst, Upper(h, seqAuth, AccessPdu(opcode, parameters)), h.Akf(), h.Aid(), 0,
                               seqAuth) == Some(Expected(h, opcode, parameters))
    ensures |Upper(h, seqAuth, AccessPdu(opcode, parameters))| == |AccessPdu(opcode, parameters)| + 4
    ensures |AccessPdu(opcode, parameters)| >= 1
  {
    Network.OpcodeRoundTrip(opcode, parameters);
    hide Network.DecodeOpcode;
  }

  // ----- One network PDU -----

  function NetworkMessageOf(h: Hop, n: nat, lower: Bytes): Network.NetworkMessage
  {
    Network.NetworkMessage(0, h.ttl, n, h.Src(), h.dst, lower)
  }

  ghost function Encoded(h: Hop, n: nat, lower: Bytes): Result<Bytes, Network.CodecError>
    requires Joined(h)
  {
    Network.EncodeNetworkPdu(h.sender.cipher, h.sender.keys, h.sender.ivIndex, NetworkMessageOf(h, n, lower), false)
  }

  /** A lower transport PDU crosses the network layer unchanged. */
  lemma Crosses(h: Hop, s: State, n: nat, lower: Bytes, a: real, b: real)
    requires Joined(h) && n <= MAX_SEQUENCE && 1 <= |lower| <= 16
    ensures Encoded(h, n, lower).Ok? && |Encoded(h, n, lower).value| <= 29
    ensures Handle(h.receiver, s, NetworkPdu(Encoded(h, n, lower).value, a, b))
            == HandleNetwork(h.receiver, s, NetworkMessageOf(h, n, lower), a, b)
  {
    Network.NetworkRoundTrip(h.sender.cipher, h.sender.keys, h.sender.ivIndex, NetworkMessageOf(h, n, lower), false);
    hide Network.DecodeNetworkPdu, HandleNetwork;
  }

  // ----- Unsegmented messages -----

  function UnsegmentedLower(h: Hop, n: nat, access: Bytes): Bytes
    requires h.Aid() < 64
  {
    [64 * h.Akf() + h.Aid()] + Upper(h, n, access)
  }

  lemma UnsegmentedParts(h: Hop, n: nat, access: Bytes)
    requires Joined(h)
    ensures var lower := UnsegmentedLower(h, n, access);
            lower[0] < 128 && lower[0] / 64 % 2 == h.Akf() && lower[0] % 64 == h.Aid() && lower[1..] == Upper(h, n, access)
  {
    hide Upper;
    DivRem(64 * h.Akf() + h.Aid(), 64, h.Akf(), h.Aid());
  }

  lemma UnsegmentedHandled(h: Hop, s: State, n: nat, opcode: nat, parameters: Bytes, a: real, b: real)
    requires Joined(h) && Network.ValidOpcode(opcode)
    ensures var o := HandleNetwork(h.receiver, s,
                                   NetworkMessageOf(h, n, UnsegmentedLower(h, n, AccessPdu(opcode, parameters))), a, b);
            IsReplay(o.state.replay, h.Src(), n)
            && o.message == if IsReplay(s.replay, h.Src(), n) then None else Some(Expected(h, opcode, parameters))
  {
    Decrypts(h, n, opcode, parameters);
    UnsegmentedParts(h, n, AccessPdu(opcode, parameters));
    hide AccessPdu, Upper, DecryptAndDispatch, ValidContext, UnsegmentedLower;
  }

  lemma UnsegmentedBuilds(h: Hop, n: nat, opcode: nat, parameters: Bytes)
    requires Joined(h) && Network.ValidOpcode(opcode)
    requires |AccessPdu(opcode, parameters)| <= Network.UNSEGMENTED_ACCESS_MAX
    ensures var access := AccessPdu(opcode, parameters);
            Network.BuildUnsegmentedAccess(h.Akf(), h.Aid(), Upper(h, n, access)) == Ok(UnsegmentedLower(h, n, access))
            && 1 <= |UnsegmentedLower(h, n, access)| <= 16
  {
    Decrypts(h, n, opcode, parameters);
    hide AccessPdu, Upper, DecryptAndDispatch;
  }

  // ----- Segmented messages -----

  function Tx(h: Hop, seqAuth: nat, access: Bytes): X.Sent
  {
    X.Sent(h.Pair(), seqAuth, h.Akf(), h.Aid(), 0, Upper(h, seqAuth, access))
  }

  /** A new transaction of the pair would be let in. */
  ghost predicate RoomFor(t: R.Table, p: R.Pair, l: R.Limits)
  {
    |R.PendingPairs(t)| < l.maxPending && (p in t || |t| < l.maxCompleted)
  }

  lemma PruneKeepsRoom(t: R.Table, p: R.Pair, now: real, l: R.Limits)
    requires RoomFor(t, p, l)
    ensures RoomFor(R.PruneTable(t, now, l), p, l) && R.Room(R.PruneTable(t, now, l), p, l).None?
  {
    var pruned := R.PruneTable(t, now, l);
    R.SubsetSize(R.PendingPairs(pruned), R.PendingPairs(t));
    assert pruned.Keys == t.Keys;
    assert |pruned| == |pruned.Keys| && |t| == |t.Keys|;
  }

  /** Every segment held of the transaction came under one of its own numbers. */
  ghost predicate Numbered(tx: X.Sent, slot: R.Slot)
  {
    slot.pending.Some? && slot.pending.value.seqAuth == tx.seqAuth ==>
      forall j :: j in slot.pending.value.sequences ==> slot.pending.value.sequences[j] >= tx.seqAuth
  }

  /** The segments in `held` have arrived, in some order and since `since`. */
  ghost predicate Partway(h: Hop, tx: X.Sent, s: State, held: set<nat>, since: real)
  {
    && R.TableInv(s.table, h.receiver.limits)
    && X.Progress(tx, R.SlotOf(s.table, tx.pair), held)
    && (forall j :: j in held ==> j < tx.Count())
    && (X.AllHeld(tx, held) || Underway(h, tx, s, held, since))
  }

  /** What keeps an unfinished transfer going: nothing newer heard from the sender, and time. */
  ghost predicate Underway(h: Hop, tx: X.Sent, s: State, held: set<nat>, since: real)
  {
    && (h.Src() in s.replay ==> s.replay[h.Src()] < tx.seqAuth)
    && Numbered(tx, R.SlotOf(s.table, tx.pair))
    && (held != {} && R.SlotOf(s.table, tx.pair).pending.Some? ==>
          R.SlotOf(s.table, tx.pair).pending.value.updatedAt >= since)
  }

  ghost predicate Within(h: Hop, since: real, now: real)
  {
    since <= now < since + h.receiver.limits.timeout
  }

  lemma NoneHeld(tx: X.Sent)
    requires X.ValidSent(tx)
    ensures !X.AllHeld(tx, {})
  {
    var none: set<nat> := {};
    assert 0 !in none;
  }

  /** Pruning within the timeout leaves the transfer where it was. */
  lemma PrunePartway(h: Hop, tx: X.Sent, s: State, held: set<nat>, since: real, now: real)
    requires Joined(h) && X.ValidSent(tx) && Partway(h, tx, s, held, since) && Within(h, since, now)
    ensures Partway(h, tx, s.(table := R.PruneTable(s.table, now, h.receiver.limits)), held, since)
  {
    var l := h.receiver.limits;
    var slot := R.SlotOf(s.table, tx.pair);
    R.PruneTableInv(s.table, now, l);
    R.EmptyInv();
    X.PrunedSlot(s.table, tx.pair, now, l);
    NoneHeld(tx);
    FinishedIdle(tx, slot, held);
    hide X.Progress, R.TableInv, R.PruneTable, X.AllHeld, ValidContext;
    X.PruneProgress(tx, slot, held, now, l);
  }

  lemma FinishedIdle(tx: X.Sent, slot: R.Slot, held: set<nat>)
    requires X.ValidSent(tx) && X.Progress(tx, slot, held)
    ensures X.AllHeld(tx, held) ==> slot.pending.None?
  {
    NoneHeld(tx);
  }

  /** A transfer's call is let in. */
  lemma Admits(h: Hop, tx: X.Sent, s: State, held: set<nat>, call: R.Call, since: real)
    requires Joined(h) && X.ValidSent(tx) && Partway(h, tx, s, held, since) && Within(h, since, call.now) && X.Mine(tx, call)
    requires held == {} ==> RoomFor(s.table, tx.pair, h.receiver.limits)
    ensures X.Admitted(tx, s.table, held, call, h.receiver.limits)
  {
    FinishedIdle(tx, R.SlotOf(s.table, tx.pair), held);
    if held == {} {
      NoneHeld(tx);
      PruneKeepsRoom(s.table, tx.pair, call.now, h.receiver.limits);
    }
    hide X.Progress, R.TableInv, R.PruneTable, X.AllHeld, RoomFor, Numbered, ValidContext, X.Mine;
  }

  /** What the reassembler answers to one of the segments, new or repeated, and what it then holds. */
  lemma AddKept(h: Hop, tx: X.Sent, s: State, held: set<nat>, i: nat, n: nat, since: real, now: real)
    requires Joined(h) && X.ValidSent(tx) && i < tx.Count() && Partway(h, tx, s, held, since) && Within(h, since, now)
    requires held == {} ==> RoomFor(s.table, tx.pair, h.receiver.limits)
    ensures var (table, r) := R.Add(s.table, tx.pair, n, tx.Segment(i), now, h.receiver.limits);
            && R.TableInv(table, h.receiver.limits) && X.Progress(tx, R.SlotOf(table, tx.pair), held + {i})
            && X.Expected(tx, held, i, r)
  {
    var l := h.receiver.limits;
    var call := R.AddCall(tx.pair, n, tx.Segment(i), now);
    X.SegmentValidated(tx, i);
    R.AddTableInv(s.table, tx.pair, n, tx.Segment(i), now, l);
    Admits(h, tx, s, held, call, since);
    HeldInRange(h, tx, s, held, since);
    X.StepProgress(tx, s.table, held, call, l);
    hide X.Progress, R.TableInv, R.PruneTable, X.Expected, R.AddToSlot, X.AllHeld, RoomFor, Numbered, ValidContext;
  }

  /** While segments are missing, the sequence numbers and the clock move on. */
  lemma AddUnderway(h: Hop, tx: X.Sent, s: State, held: set<nat>, i: nat, n: nat, since: real, now: real)
    requires Joined(h) && X.ValidSent(tx) && i < tx.Count() && Partway(h, tx, s, held, since) && Within(h, since, now)
    requires held == {} ==> RoomFor(s.table, tx.pair, h.receiver.limits)
    requires n >= tx.seqAuth && !X.AllHeld(tx, held)
    ensures var (table, r) := R.Add(s.table, tx.pair, n, tx.Segment(i), now, h.receiver.limits);
            && Underway(h, tx, s.(table := table), held + {i}, since)
            && (X.AllHeld(tx, held + {i}) ==>
                  r.Ok? && r.value.lastSegmentSeq.Some? && r.value.lastSegmentSeq.value >= tx.seqAuth)
  {
    var l := h.receiver.limits;
    var pruned := R.PruneTable(s.table, now, l);
    AddKept(h, tx, s, held, i, n, since, now);
    PrunePartway(h, tx, s, held, since, now);
    AddUpdates(s.table, tx.pair, n, tx.Segment(i), now, l);
    if held == {} {
      PruneKeepsRoom(s.table, tx.pair, now, l);
    }
    hide X.Progress, R.TableInv, R.PruneTable, X.Expected, R.AddToSlot, X.AllHeld, RoomFor, Numbered, ValidContext;
    AddNumbered(tx, R.SlotOf(pruned, tx.pair), held, i, n, now, R.Room(pruned, tx.pair, l));
    AnsweredNew(tx, held, i, R.Add(s.table, tx.pair, n, tx.Segment(i), now, l).1);
    assert i in held + {i};
  }

  /** One of the segments, new or repeated, takes the transfer one index on. */
  lemma AddPartway(h: Hop, tx: X.Sent, s: State, held: set<nat>, i: nat, n: nat, since: real, now: real)
    requires Joined(h) && X.ValidSent(tx) && i < tx.Count() && Partway(h, tx, s, held, since) && Within(h, since, now)
    requires held == {} ==> RoomFor(s.table, tx.pair, h.receiver.limits)
    requires n >= tx.seqAuth
    ensures var (table, r) := R.Add(s.table, tx.pair, n, tx.Segment(i), now, h.receiver.limits);
            && Partway(h, tx, s.(table := table), held + {i}, since)
            && X.Expected(tx, held, i, r)
            && (!X.AllHeld(tx, held) && X.AllHeld(tx, held + {i}) ==>
                  r.Ok? && r.value.lastSegmentSeq.Some? && r.value.lastSegmentSeq.value >= tx.seqAuth)
  {
    hide X.Progress, R.TableInv, X.Expected, R.Add, X.AllHeld, Underway, ValidContext, Joined, Within, X.ValidSent;
    AddKept(h, tx, s, held, i, n, since, now);
    HeldInRange(h, tx, s, held, since);
    MoreHeld(tx, held, i);
    if !X.AllHeld(tx, held) {
      AddUnderway(h, tx, s, held, i, n, since, now);
    }
  }

  lemma MoreHeld(tx: X.Sent, held: set<nat>, i: nat)
    ensures X.AllHeld(tx, held) ==> X.AllHeld(tx, held + {i})
  {
  }

  lemma AnsweredNew(tx: X.Sent, held: set<nat>, i: nat, r: Result<R.AddResult, R.Refusal>)
    requires X.Expected(tx, held, i, r) && !X.AllHeld(tx, held)
    ensures r.Ok? && !r.value.alreadyComplete && (r.value.upper.Some? <==> X.AllHeld(tx, held + {i}))
  {
    hide X.AllHeld, R.Bitmap;
  }

  lemma AddUpdates(t: R.Table, p: R.Pair, n: nat, segment: AccessSegment, now: real, l: R.Limits)
    ensures var (table, r) := R.Add(t, p, n, segment, now, l);
            r.Ok? && !r.value.alreadyComplete && R.SlotOf(table, p).pending.Some? ==>
              R.SlotOf(table, p).pending.value.updatedAt == now
  {
    hide R.Whole, R.Join, R.Bitmap;
  }

  lemma RecordNumbered(tx: X.Sent, slot: R.Slot, txn: R.Txn, held: set<nat>, i: nat, n: nat, now: real)
    requires i < tx.Count() && X.Holds(tx, txn, held) && n >= tx.seqAuth && Numbered(tx, slot)
    requires forall j :: j in txn.sequences ==> txn.sequences[j] >= tx.seqAuth
    ensures var (after, r) := R.RecordInSlot(slot, txn, n, tx.Segment(i), now);
            Numbered(tx, after)
            && (r.Ok? && r.value.upper.Some? ==>
                  r.value.lastSegmentSeq.Some? && r.value.lastSegmentSeq.value >= tx.seqAuth)
  {
    hide R.Whole, R.Join, R.Bitmap, Pow2, Chunk;
  }

  lemma OpenNumbered(tx: X.Sent, slot: R.Slot, i: nat, now: real)
    requires i < tx.Count() && Numbered(tx, slot)
    ensures var txn := R.OpenTxn(slot, tx.Segment(i), now);
            forall j :: j in txn.sequences ==> txn.sequences[j] >= tx.seqAuth
  {
    hide Chunk;
  }

  /** A completing call reports the SEQ its last segment came under, one of the transaction's own. */
  lemma AddNumbered(tx: X.Sent, slot: R.Slot, held: set<nat>, i: nat, n: nat, now: real, room: Option<R.Refusal>)
    requires X.ValidSent(tx) && X.Progress(tx, slot, held) && i < tx.Count() && !X.AllHeld(tx, held)
    requires n >= tx.seqAuth && Numbered(tx, slot) && (held == {} && slot.pending.None? ==> room.None?)
    ensures var (after, r) := R.AddToSlot(slot, n, tx.Segment(i), now, room);
            Numbered(tx, after)
            && (r.Ok? && r.value.upper.Some? ==>
                  r.value.lastSegmentSeq.Some? && r.value.lastSegmentSeq.value >= tx.seqAuth)
  {
    hide X.AllHeld, X.Progress, X.Holds, R.AddToSlot, R.RecordInSlot, R.OpenTxn, Numbered, X.ValidSent;
    X.Reaches(tx, slot, held, i, n, now, room);
    X.OpenHolds(tx, slot, held, i, now);
    OpenNumbered(tx, slot, i, now);
    RecordNumbered(tx, slot, R.OpenTxn(slot, tx.Segment(i), now), held, i, n, now);
  }

  /** The lower transport PDU of segment `i`, and what the receiver parses it to. */
  ghost function LowerOf(tx: X.Sent, i: nat): Bytes
    requires i < tx.Count() && tx.akf < 2
  {
    SegmentPdu(tx.akf, tx.aid, tx.szmic, tx.seqAuth % 0x2000, i, tx.Count() - 1, Chunk(tx.upper, i))
  }

  lemma SegmentLower(tx: X.Sent, i: nat, n: nat)
    requires X.ValidSent(tx) && tx.akf < 2 && tx.aid < 64 && tx.szmic < 2 && i < tx.Count()
    requires tx.seqAuth <= n <= tx.seqAuth + 8191 && n <= MAX_SEQUENCE
    ensures var segments := BuildAccessSegments(tx.akf, tx.aid, tx.seqAuth % 0x2000, tx.upper, tx.szmic);
            segments.Ok? && |segments.value| == tx.Count() && segments.value[i] == LowerOf(tx, i)
    ensures var lower := LowerOf(tx, i);
            1 <= |lower| <= 16 && lower[0] >= 128 && ParseAccessSegment(n, lower) == Ok(tx.Segment(i))
  {
    SegmentRoundTrip(tx.akf, tx.aid, tx.szmic, tx.seqAuth, tx.upper, i, n);
    SegmentShape(tx.akf, tx.aid, tx.szmic, tx.seqAuth % 0x2000, i, tx.Count() - 1, Chunk(tx.upper, i));
    hide ParseAccessSegment, BigEndian, SegmentField;
  }

  /** What one more segment comes to: dispatched when it is the last one missing, silent otherwise. */
  ghost predicate Came(h: Hop, tx: X.Sent, held: set<nat>, i: nat, since: real, message: AccessMessage, o: Outcome)
  {
    && Partway(h, tx, o.state, held + {i}, since)
    && o.message == (if !X.AllHeld(tx, held) && X.AllHeld(tx, held + {i}) then Some(message) else None)
    && (!X.AllHeld(tx, held) && X.AllHeld(tx, held + {i}) && h.dst == h.receiver.localAddress ==>
          o.ack == Some(AckJob(h.Src(), tx.seqAuth % 0x2000, Pow2(tx.Count()) - 1)))
  }

  /** One of the segments through the receiver, whichever it is and however often it came. */
  lemma SegmentArrives(h: Hop, tx: X.Sent, s: State, message: AccessMessage, held: set<nat>, i: nat, n: nat,
                       since: real, a: real, b: real)
    requires Joined(h) && X.ValidSent(tx) && tx.pair == h.Pair() && tx.akf < 2 && tx.aid < 64 && tx.szmic < 2
    requires i < tx.Count() && Partway(h, tx, s, held, since)
    requires Within(h, since, a) && Within(h, since, b) && (held == {} ==> RoomFor(s.table, tx.pair, h.receiver.limits))
    requires tx.seqAuth <= n <= tx.seqAuth + 8191 && n <= MAX_SEQUENCE
    requires DecryptAndDispatch(h.receiver, h.Src(), h.dst, tx.upper, tx.akf, tx.aid, tx.szmic, tx.seqAuth) == Some(message)
    ensures Came(h, tx, held, i, since, message, HandleNetwork(h.receiver, s, NetworkMessageOf(h, n, LowerOf(tx, i)), a, b))
  {
    hide ParseAccessSegment, R.Add, R.PruneTable, Partway, X.Expected, HandleAdded, DecryptAndDispatch, X.ValidSent,
      R.AckFromSlot, LowerOf, Within, ValidContext, X.AllHeld, Came, HandleNetwork, RoomFor;
    SegmentLower(tx, i, n);
    var m := NetworkMessageOf(h, n, LowerOf(tx, i));
    var s1 := s.(table := R.PruneTable(s.table, a, h.receiver.limits));
    PrunePartway(h, tx, s, held, since, a);
    if held == {} {
      PruneKeepsRoom(s.table, tx.pair, a, h.receiver.limits);
    }
    if IsReplay(s.replay, h.Src(), n) {
      ReplayCame(h, tx, s, message, held, i, n, since, a, b);
    } else {
      AddPartway(h, tx, s1, held, i, n, since, b);
      var (table, r) := R.Add(s1.table, tx.pair, n, tx.Segment(i), b, h.receiver.limits);
      var s2 := s1.(table := table);
      AnsweredOk(tx, held, i, r);
      AddedCame(h, tx, s1, s2, message, held, i, since, m, r);
      HandledAdded(h, tx, s, i, n, a, b);
    }
  }

  /** A segment that is no replay and is taken reaches the dispatching half. */
  lemma HandledAdded(h: Hop, tx: X.Sent, s: State, i: nat, n: nat, a: real, b: real)
    requires X.ValidSent(tx) && tx.pair == h.Pair() && tx.akf < 2 && tx.aid < 64 && tx.szmic < 2 && i < tx.Count()
    requires tx.seqAuth <= n <= tx.seqAuth + 8191 && n <= MAX_SEQUENCE && h.Src() != h.receiver.localAddress
    requires !IsReplay(s.replay, h.Src(), n)
    ensures var s1 := s.(table := R.PruneTable(s.table, a, h.receiver.limits));
            var (table, r) := R.Add(s1.table, tx.pair, n, tx.Segment(i), b, h.receiver.limits);
            var m := NetworkMessageOf(h, n, LowerOf(tx, i));
            r.Ok? ==> HandleNetwork(h.receiver, s, m, a, b)
                      == HandleAdded(h.receiver, s1.(table := table), m, tx.Segment(i), r.value)
  {
    SegmentLower(tx, i, n);
    hide ParseAccessSegment, R.Add, R.PruneTable, HandleAdded, R.AckFromSlot, LowerOf, X.ValidSent;
  }

  lemma AnsweredOk(tx: X.Sent, held: set<nat>, i: nat, r: Result<R.AddResult, R.Refusal>)
    requires X.Expected(tx, held, i, r)
    ensures r.Ok?
  {
  }

  lemma SegmentShape(akf: nat, aid: nat, szmic: nat, seqZero: nat, segO: nat, segN: nat, payload: Bytes)
    requires akf < 2 && |payload| <= SEGMENT_PAYLOAD_SIZE
    ensures var pdu := SegmentPdu(akf, aid, szmic, seqZero, segO, segN, payload);
            pdu[0] >= 128 && 1 <= |pdu| <= 16
  {
    hide BigEndian;
  }

  lemma SamePartway(h: Hop, tx: X.Sent, s: State, t: State, held: set<nat>, since: real)
    requires Partway(h, tx, s, held, since) && t.table == s.table && (t.replay == s.replay || X.AllHeld(tx, held))
    ensures Partway(h, tx, t, held, since)
  {
    hide X.AllHeld, X.Progress, R.TableInv, RoomFor, Numbered;
  }

  /** While segments are missing, nothing the sender uses for the transaction is a replay. */
  lemma NoReplay(h: Hop, tx: X.Sent, s: State, held: set<nat>, since: real, n: nat)
    requires Partway(h, tx, s, held, since) && tx.seqAuth <= n && !X.AllHeld(tx, held)
    ensures !IsReplay(s.replay, h.Src(), n)
  {
    hide X.Progress, R.TableInv, RoomFor, Numbered;
  }

  /** A segment whose number has been passed: only acknowledged, and only once everything is held. */
  lemma ReplayCame(h: Hop, tx: X.Sent, s: State, message: AccessMessage, held: set<nat>, i: nat, n: nat, since: real,
                   a: real, b: real)
    requires Joined(h) && X.ValidSent(tx) && tx.pair == h.Pair() && tx.akf < 2 && tx.aid < 64 && tx.szmic < 2
    requires i < tx.Count() && Partway(h, tx, s, held, since) && Within(h, since, a)
    requires tx.seqAuth <= n <= tx.seqAuth + 8191 && n <= MAX_SEQUENCE && IsReplay(s.replay, h.Src(), n)
    ensures Came(h, tx, held, i, since, message, HandleNetwork(h.receiver, s, NetworkMessageOf(h, n, LowerOf(tx, i)), a, b))
  {
    hide Partway, X.AllHeld, LowerOf, HandleNetwork, X.ValidSent, ValidContext, Within, R.PruneTable;
    PrunePartway(h, tx, s, held, since, a);
    ReplayHandled(h, tx, s, i, n, a, b);
    if !X.AllHeld(tx, held) {
      NoReplay(h, tx, s, held, since, n);
    }
    StillAll(tx, held, i);
  }

  lemma StillAll(tx: X.Sent, held: set<nat>, i: nat)
    requires X.AllHeld(tx, held) && i < tx.Count()
    ensures held + {i} == held
  {
    assert i in held;
  }

  lemma ReplayHandled(h: Hop, tx: X.Sent, s: State, i: nat, n: nat, a: real, b: real)
    requires X.ValidSent(tx) && tx.pair == h.Pair() && tx.akf < 2 && tx.aid < 64 && tx.szmic < 2 && i < tx.Count()
    requires tx.seqAuth <= n <= tx.seqAuth + 8191 && n <= MAX_SEQUENCE && h.Src() != h.receiver.localAddress
    requires IsReplay(s.replay, h.Src(), n)
    ensures var o := HandleNetwork(h.receiver, s, NetworkMessageOf(h, n, LowerOf(tx, i)), a, b);
            o.state == s.(table := R.PruneTable(s.table, a, h.receiver.limits)) && o.message.None?
  {
    SegmentLower(tx, i, n);
    hide ParseAccessSegment, R.Add, R.PruneTable, HandleAdded, R.AckFromSlot, LowerOf, X.ValidSent;
  }

  /** From the reassembler's answer to the listeners. */
  lemma AddedCame(h: Hop, tx: X.Sent, before: State, s: State, message: AccessMessage, held: set<nat>, i: nat, since: real,
                  m: Network.NetworkMessage, r: Result<R.AddResult, R.Refusal>)
    requires X.ValidSent(tx) && i < tx.Count() && X.Expected(tx, held, i, r) && r.Ok?
    requires m.src == h.Src() && m.dst == h.dst && tx.pair == h.Pair()
    requires Partway(h, tx, before, held, since) && s == before.(table := s.table) && Partway(h, tx, s, held + {i}, since)
    requires !X.AllHeld(tx, held) && X.AllHeld(tx, held + {i}) ==>
               r.value.lastSegmentSeq.Some? && r.value.lastSegmentSeq.value >= tx.seqAuth
    requires DecryptAndDispatch(h.receiver, h.Src(), h.dst, tx.upper, tx.akf, tx.aid, tx.szmic, tx.seqAuth) == Some(message)
    ensures Came(h, tx, held, i, since, message, HandleAdded(h.receiver, s, m, tx.Segment(i), r.value))
  {
    hide DecryptAndDispatch, X.AllHeld, R.Bitmap, X.ValidSent, Partway;
    var o := HandleAdded(h.receiver, s, m, tx.Segment(i), r.value);
    if !X.AllHeld(tx, held) && X.AllHeld(tx, held + {i}) {
      NoReplay(h, tx, before, held, since, r.value.lastSegmentSeq.value);
      assert r.value.blockAck == Pow2(tx.Count()) - 1 by {
        HeldInRange(h, tx, s, held + {i}, since);
        X.FullBitmap(tx, held + {i});
      }
    }
    SamePartway(h, tx, s, o.state, held + {i}, since);
  }

  lemma HeldInRange(h: Hop, tx: X.Sent, s: State, held: set<nat>, since: real)
    requires Partway(h, tx, s, held, since)
    ensures forall j :: j in held ==> j < tx.Count()
  {
  }

  // ----- The whole path -----

  /**
   One Proxy PDU arriving, with the two clock readings: one of the message's own, which of its
   lower PDUs and under what number, or any other, of either type the client handles.
   */
  datatype Arrived =
    | Own(index: nat, number: nat, nowAck: real, nowAdd: real)
    | Other(config: bool, payload: Bytes, nowAck: real, nowAdd: real)

  function EventOf(message: Sar.Message, a: Arrived): Event
  {
    if message.0 == 0 then NetworkPdu(message.1, a.nowAck, a.nowAdd) else ProxyConfigPdu(message.1)
  }

  /** Delivered Proxy payloads as the receiver's events. */
  function EventsOf(delivered: seq<Sar.Message>, arrivals: seq<Arrived>): (events: seq<Event>)
    requires |arrivals| >= |delivered|
    ensures |events| == |delivered|
  {
    seq(|delivered|, i requires 0 <= i < |delivered| => EventOf(delivered[i], arrivals[i]))
  }

  /** The lower transport PDUs of one message: the whole of it, or its segments. */
  ghost function Lowers(h: Hop, seqAuth: nat, access: Bytes): Result<seq<Bytes>, LowerTransport.Error>
    requires h.Aid() < 64
  {
    if |access| <= Network.UNSEGMENTED_ACCESS_MAX then
      match Network.BuildUnsegmentedAccess(h.Akf(), h.Aid(), Upper(h, seqAuth, access))
      case Err(_) => Err(ValueError)
      case Ok(lower) => Ok([lower])
    else BuildAccessSegments(h.Akf(), h.Aid(), seqAuth % 0x2000, Upper(h, seqAuth, access), 0)
  }

  /** Every layer accepts the message, whichever of its PDUs is sent under whichever number. */
  ghost predicate Sendable(h: Hop, seqAuth: nat, arrivals: seq<Arrived>, access: Bytes)
    requires Joined(h)
  {
    && Lowers(h, seqAuth, access).Ok?
    && forall k :: 0 <= k < |arrivals| ==> if arrivals[k].Other? then |arrivals[k].payload| <= 29 else
         && arrivals[k].index < |Lowers(h, seqAuth, access).value|
         && Encoded(h, arrivals[k].number, Lowers(h, seqAuth, access).value[arrivals[k].index]).Ok?
         && |Encoded(h, arrivals[k].number, Lowers(h, seqAuth, access).value[arrivals[k].index]).value| <= 29
  }

  /** The Proxy messages that carry the arriving PDUs. */
  ghost function Written(h: Hop, seqAuth: nat, arrivals: seq<Arrived>, access: Bytes): (r: seq<Sar.Message>)
    requires Joined(h) && Sendable(h, seqAuth, arrivals, access)
    ensures |r| == |arrivals|
  {
    seq(|arrivals|, k requires 0 <= k < |arrivals| =>
        if arrivals[k].Other? then (if arrivals[k].config then 2 else 0, arrivals[k].payload)
        else (0, Encoded(h, arrivals[k].number, Lowers(h, seqAuth, access).value[arrivals[k].index]).value))
  }

  /** The indexes that have arrived. */
  function Indexes(arrivals: seq<Arrived>): set<nat>
  {
    set k | 0 <= k < |arrivals| && arrivals[k].Own? :: arrivals[k].index
  }

  /** Traffic of other nodes: no PDU the receiver can read is under the sender's name. */
  ghost predicate Elsewhere(h: Hop, arrivals: seq<Arrived>)
    requires Joined(h)
  {
    forall k :: 0 <= k < |arrivals| && arrivals[k].Other? ==>
      |arrivals[k].payload| <= 29 && ReadAs(h, arrivals[k]) != Some(h.Src())
  }

  /** The source under which the receiver reads a PDU. */
  ghost function ReadAs(h: Hop, a: Arrived): Option<nat>
    requires Joined(h) && a.Other?
  {
    var r := Network.DecodeNetworkPdu(h.receiver.cipher, h.receiver.keys, h.receiver.ivIndex, a.payload, a.config);
    if r.Ok? then Some(r.value.src) else None
  }

  /** What the receiver's listeners are told of one source. */
  function From(messages: seq<AccessMessage>, src: nat): seq<AccessMessage>
  {
    if |messages| == 0 then []
    else
      var last := messages[|messages| - 1];
      From(messages[..|messages| - 1], src) + (if last.src == src then [last] else [])
  }

  /** Numbers and clocks as one `send_access` and a receiver within its timeout make them. */
  ghost predicate Timed(h: Hop, seqAuth: nat, arrivals: seq<Arrived>, since: real)
  {
    forall k :: 0 <= k < |arrivals| ==>
      && (arrivals[k].Own? ==> seqAuth <= arrivals[k].number <= seqAuth + 8191 && arrivals[k].number <= MAX_SEQUENCE)
      && Within(h, since, arrivals[k].nowAck) && Within(h, since, arrivals[k].nowAdd)
  }

  /** The receiver has seen nothing as new. */
  ghost predicate Receptive(h: Hop, s: State, seqAuth: nat)
  {
    && R.TableInv(s.table, h.receiver.limits) && !IsReplay(s.replay, h.Src(), seqAuth)
    && X.Fresh(R.SlotOf(s.table, h.Pair()), seqAuth)
  }

  /** The first of the segments to arrive finds room for its transaction. */
  ghost predicate Roomy(h: Hop, s: State, arrivals: seq<Arrived>, events: seq<Event>)
    requires Joined(h) && |events| == |arrivals|
  {
    forall k :: 0 <= k < |arrivals| && arrivals[k].Own? && Indexes(arrivals[..k]) == {} ==>
      RoomFor(After(h.receiver, s, events[..k]).table, h.Pair(), h.receiver.limits)
  }

  /** A message too long for one PDU, in the segments a receiver within its timeout gets of it among other traffic. */
  ghost predicate Long(h: Hop, seqAuth: nat, arrivals: seq<Arrived>, since: real, opcode: nat, parameters: Bytes)
  {
    && Joined(h) && Network.ValidOpcode(opcode) && 11 < |AccessPdu(opcode, parameters)| <= 380
    && seqAuth <= MAX_SEQUENCE && Timed(h, seqAuth, arrivals, since) && Elsewhere(h, arrivals)
    && forall k :: 0 <= k < |arrivals| && arrivals[k].Own? ==> arrivals[k].index < (|AccessPdu(opcode, parameters)| + 15) / 12
  }

  lemma LongTx(h: Hop, seqAuth: nat, opcode: nat, parameters: Bytes)
    requires Joined(h) && Network.ValidOpcode(opcode) && |AccessPdu(opcode, parameters)| <= 380
    requires seqAuth <= MAX_SEQUENCE
    ensures var tx := Tx(h, seqAuth, AccessPdu(opcode, parameters));
            X.ValidSent(tx) && tx.Count() > 0 && tx.Count() == (|AccessPdu(opcode, parameters)| + 15) / 12
  {
    Decrypts(h, seqAuth, opcode, parameters);
    hide Upper, AccessPdu;
  }

  lemma LongLowers(h: Hop, seqAuth: nat, opcode: nat, parameters: Bytes)
    requires Joined(h) && Network.ValidOpcode(opcode) && 11 < |AccessPdu(opcode, parameters)| <= 380
    requires seqAuth <= MAX_SEQUENCE
    ensures var tx := Tx(h, seqAuth, AccessPdu(opcode, parameters));
            h.Aid() < 64 && Lowers(h, seqAuth, AccessPdu(opcode, parameters)).Ok?
            && |Lowers(h, seqAuth, AccessPdu(opcode, parameters)).value| == tx.Count()
            && forall i :: 0 <= i < tx.Count() ==>
                 Lowers(h, seqAuth, AccessPdu(opcode, parameters)).value[i] == LowerOf(tx, i)
  {
    var access := AccessPdu(opcode, parameters);
    var tx := Tx(h, seqAuth, access);
    LongTx(h, seqAuth, opcode, parameters);
    JoinedAid(h);
    hide LowerOf, Joined, X.ValidSent, AccessPdu;
    SegmentLower(tx, 0, seqAuth);
    forall i | 0 <= i < tx.Count() ensures Lowers(h, seqAuth, access).value[i] == LowerOf(tx, i) {
      SegmentLower(tx, i, seqAuth);
    }
  }

  lemma LongSendable(h: Hop, seqAuth: nat, arrivals: seq<Arrived>, since: real, opcode: nat, parameters: Bytes)
    requires Long(h, seqAuth, arrivals, since, opcode, parameters)
    ensures Sendable(h, seqAuth, arrivals, AccessPdu(opcode, parameters))
  {
    var access := AccessPdu(opcode, parameters);
    var tx := Tx(h, seqAuth, access);
    LongTx(h, seqAuth, opcode, parameters);
    LongLowers(h, seqAuth, opcode, parameters);
    hide LowerOf, Encoded, Joined, X.ValidSent, AccessPdu, Lowers, Tx;
    forall k | 0 <= k < |arrivals| && arrivals[k].Own?
      ensures Encoded(h, arrivals[k].number, LowerOf(tx, arrivals[k].index)).Ok?
              && |Encoded(h, arrivals[k].number, LowerOf(tx, arrivals[k].index)).value| <= 29
    {
      TxIs(h, seqAuth, access);
      SegmentLower(tx, arrivals[k].index, arrivals[k].number);
      Crosses(h, State(map[], map[], map[], None), arrivals[k].number, LowerOf(tx, arrivals[k].index), 0.0, 0.0);
    }
  }

  lemma JoinedAid(h: Hop)
    requires Joined(h)
    ensures h.Aid() < 64
  {
  }

  lemma TxIs(h: Hop, seqAuth: nat, access: Bytes)
    ensures var tx := Tx(h, seqAuth, access);
            tx.pair == h.Pair() && tx.seqAuth == seqAuth && tx.akf == h.Akf() && tx.aid == h.Aid() && tx.szmic == 0
            && tx.upper == Upper(h, seqAuth, access)
    ensures Joined(h) ==> Tx(h, seqAuth, access).akf < 2 && Tx(h, seqAuth, access).aid < 64
  {
  }

  lemma NothingArrived(h: Hop, s: State, tx: X.Sent, since: real)
    requires X.ValidSent(tx) && Receptive(h, s, tx.seqAuth) && tx.pair == h.Pair()
    ensures Partway(h, tx, s, {}, since)
  {
    NoneHeld(tx);
  }

  lemma OneMore(ctx: Context, s: State, events: seq<Event>, k: nat)
    requires ValidContext(ctx) && 0 < k <= |events|
    ensures var s' := After(ctx, s, events[..k - 1]);
            var o := Handle(ctx, s', events[k - 1]);
            After(ctx, s, events[..k]) == o.state
            && Messages(ctx, s, events[..k]) == Messages(ctx, s, events[..k - 1]) + Listed(o.message)
  {
    hide Handle, ValidContext;
    assert events[..k][..k - 1] == events[..k - 1] && events[..k][k - 1] == events[k - 1];
  }

  lemma LongIs(h: Hop, seqAuth: nat, arrivals: seq<Arrived>, since: real, opcode: nat, parameters: Bytes)
    requires Long(h, seqAuth, arrivals, since, opcode, parameters)
    ensures opcode < 0x1000000 && Joined(h) && ValidContext(h.receiver)
            && X.ValidSent(Tx(h, seqAuth, AccessPdu(opcode, parameters)))
  {
    LongTx(h, seqAuth, opcode, parameters);
    hide AccessPdu, Tx, ValidContext;
  }

  // ----- Other nodes' traffic -----

  lemma FromBoth(a: seq<AccessMessage>, b: Option<AccessMessage>, src: nat)
    ensures From(a + Listed(b), src) == From(a, src) + (if b.Some? && b.value.src == src then [b.value] else [])
  {
    if b.Some? {
      assert (a + [b.value])[..|a|] == a;
    } else {
      assert a + Listed(b) == a;
    }
  }

  /** What is remembered and told of a source changes only by its own PDUs. */
  ghost predicate Unheard(s: State, o: Outcome, src: nat)
  {
    && (src in o.state.replay <==> src in s.replay) && (src in s.replay ==> o.state.replay[src] == s.replay[src])
    && (o.message.Some? ==> o.message.value.src != src)
  }

  lemma AddedUnheard(ctx: Context, s: State, m: Network.NetworkMessage, segment: AccessSegment, r: R.AddResult, src: nat)
    requires m.src != src
    ensures Unheard(s, HandleAdded(ctx, s, m, segment, r), src) && HandleAdded(ctx, s, m, segment, r).state.table == s.table
  {
  }

  lemma ControlUnheard(ctx: Context, s: State, m: Network.NetworkMessage, src: nat)
    requires m.src != src && |m.transport| >= 1
    ensures Unheard(s, HandleControl(ctx, s, m), src) && HandleControl(ctx, s, m).state.table == s.table
  {
    hide ParseSegmentAck, AckMatches, Or;
  }

  lemma UnsegmentedUnheard(ctx: Context, s: State, m: Network.NetworkMessage, src: nat)
    requires m.src != src && |m.transport| >= 1
    ensures Unheard(s, HandleUnsegmented(ctx, s, m), src) && HandleUnsegmented(ctx, s, m).state.table == s.table
  {
    hide DecryptAndDispatch;
  }

  lemma ConfigUnheard(s: State, m: Network.NetworkMessage, src: nat)
    requires m.src != src
    ensures Unheard(s, HandleProxyConfig(s, m), src) && HandleProxyConfig(s, m).state.table == s.table
  {
  }

  /** Another pair's segment leaves the transfer where it was. */
  lemma AddElsewhere(h: Hop, tx: X.Sent, s: State, held: set<nat>, since: real, p: R.Pair, n: nat, segment: AccessSegment,
                     now: real)
    requires Joined(h) && X.ValidSent(tx) && Partway(h, tx, s, held, since) && Within(h, since, now)
    requires p != tx.pair && Validated(segment)
    ensures Partway(h, tx, s.(table := R.Add(s.table, p, n, segment, now, h.receiver.limits).0), held, since)
  {
    var l := h.receiver.limits;
    PrunePartway(h, tx, s, held, since, now);
    R.AddTableInv(s.table, p, n, segment, now, l);
    var pruned := R.PruneTable(s.table, now, l);
    var t := R.Add(s.table, p, n, segment, now, l).0;
    assert R.SlotOf(t, tx.pair) == R.SlotOf(pruned, tx.pair);
    hide R.Add, R.PruneTable, R.TableInv, X.Progress, X.AllHeld, R.SlotOf;
  }

  lemma SegmentElsewhere(h: Hop, tx: X.Sent, s: State, held: set<nat>, since: real, m: Network.NetworkMessage, a: real, b: real)
    requires Joined(h) && X.ValidSent(tx) && tx.pair == h.Pair() && Partway(h, tx, s, held, since)
    requires Within(h, since, a) && Within(h, since, b) && m.src != h.Src()
    ensures var o := HandleSegment(h.receiver, s, m, a, b);
            Unheard(s, o, h.Src()) && Partway(h, tx, o.state, held, since)
  {
    hide R.Add, R.PruneTable, Partway, HandleAdded, Within, X.ValidSent, Joined, R.AckFromSlot, R.SlotOf, ParseAccessSegment,
      Validated;
    var l := h.receiver.limits;
    var r := ParseAccessSegment(m.seq_, m.transport);
    if r.Ok? {
      PrunePartway(h, tx, s, held, since, a);
      var s1 := s.(table := R.PruneTable(s.table, a, l));
      AddElsewhere(h, tx, s1, held, since, (m.src, m.dst), m.seq_, r.value, b);
      var (table, added) := R.Add(s1.table, (m.src, m.dst), m.seq_, r.value, b, l);
      if added.Ok? {
        AddedUnheard(h.receiver, s1.(table := table), m, r.value, added.value, h.Src());
        UnheardPartway(h, tx, s1.(table := table), HandleAdded(h.receiver, s1.(table := table), m, r.value, added.value).state,
                       held, since);
      }
    }
  }

  lemma UnheardPartway(h: Hop, tx: X.Sent, s: State, t: State, held: set<nat>, since: real)
    requires Partway(h, tx, s, held, since) && t.table == s.table
    requires h.Src() in t.replay <==> h.Src() in s.replay
    requires h.Src() in s.replay ==> t.replay[h.Src()] == s.replay[h.Src()]
    ensures Partway(h, tx, t, held, since)
  {
    hide X.Progress, R.TableInv, X.AllHeld, Numbered;
  }

  /** One PDU of another node's, of any kind. */
  lemma OtherArrives(h: Hop, tx: X.Sent, s: State, held: set<nat>, since: real, a: Arrived)
    requires Joined(h) && X.ValidSent(tx) && tx.pair == h.Pair() && Partway(h, tx, s, held, since)
    requires a.Other? && ReadAs(h, a) != Some(h.Src()) && Within(h, since, a.nowAck) && Within(h, since, a.nowAdd)
    ensures var o := Handle(h.receiver, s, EventOf((if a.config then 2 else 0, a.payload), a));
            Unheard(s, o, h.Src()) && Partway(h, tx, o.state, held, since)
  {
    hide Partway, HandleSegment, HandleControl, HandleUnsegmented, HandleProxyConfig, Network.DecodeNetworkPdu, Within,
      X.ValidSent;
    var r := Network.DecodeNetworkPdu(h.receiver.cipher, h.receiver.keys, h.receiver.ivIndex, a.payload, a.config);
    if r.Ok? {
      var m := r.value;
      if a.config {
        ConfigUnheard(s, m, h.Src());
        UnheardPartway(h, tx, s, HandleProxyConfig(s, m).state, held, since);
      } else if m.src != h.receiver.localAddress && |m.transport| > 0 {
        if m.ctl != 0 {
          ControlUnheard(h.receiver, s, m, h.Src());
          UnheardPartway(h, tx, s, HandleControl(h.receiver, s, m).state, held, since);
        } else if m.transport[0] >= 128 {
          SegmentElsewhere(h, tx, s, held, since, m, a.nowAck, a.nowAdd);
        } else {
          UnsegmentedUnheard(h.receiver, s, m, h.Src());
          UnheardPartway(h, tx, s, HandleUnsegmented(h.receiver, s, m).state, held, since);
        }
      }
    }
  }

  // ----- The whole message -----

  /** What a receiver that has been fed some of the arrivals has told of the sender: the one message, once it is whole. */
  lemma {:induction false} SegmentsArrive(h: Hop, s: State, seqAuth: nat, arrivals: seq<Arrived>, since: real,
                                          opcode: nat, parameters: Bytes, k: nat)
    requires Long(h, seqAuth, arrivals, since, opcode, parameters) && Receptive(h, s, seqAuth) && k <= |arrivals|
    requires Sendable(h, seqAuth, arrivals, AccessPdu(opcode, parameters))
    requires Roomy(h, s, arrivals, EventsOf(Written(h, seqAuth, arrivals, AccessPdu(opcode, parameters)), arrivals))
    ensures var access := AccessPdu(opcode, parameters);
            var tx := Tx(h, seqAuth, access);
            var events := EventsOf(Written(h, seqAuth, arrivals, access), arrivals);
            Partway(h, tx, After(h.receiver, s, events[..k]), Indexes(arrivals[..k]), since)
            && From(Messages(h.receiver, s, events[..k]), h.Src())
               == if X.AllHeld(tx, Indexes(arrivals[..k])) then [Expected(h, opcode, parameters)] else []
  {
    hide AccessPdu, Partway, Receptive, Sendable, EventsOf, Written, Tx, Handle, ValidContext, Indexes, X.AllHeld, Long,
      X.ValidSent, Joined, Roomy, From;
    LongIs(h, seqAuth, arrivals, since, opcode, parameters);
    var access := AccessPdu(opcode, parameters);
    var tx := Tx(h, seqAuth, access);
    var events := EventsOf(Written(h, seqAuth, arrivals, access), arrivals);
    TxIs(h, seqAuth, access);
    if k == 0 {
      assert events[..0] == [];
      NoIndexes(arrivals);
      NoneHeld(tx);
      NothingArrived(h, s, tx, since);
      NothingSaid(h.Src());
    } else {
      SegmentsArrive(h, s, seqAuth, arrivals, since, opcode, parameters, k - 1);
      hide After, Messages;
      var s' := After(h.receiver, s, events[..k - 1]);
      var o := Handle(h.receiver, s', events[k - 1]);
      OneMore(h.receiver, s, events, k);
      IndexesGrow(arrivals, k);
      FromBoth(Messages(h.receiver, s, events[..k - 1]), o.message, h.Src());
      if arrivals[k - 1].Own? {
        RoomyAt(h, s, arrivals, events, k - 1);
        NextSegment(h, s', Indexes(arrivals[..k - 1]), seqAuth, arrivals, since, opcode, parameters, k - 1);
        CameSays(h, tx, Indexes(arrivals[..k - 1]), arrivals[k - 1].index, since, Expected(h, opcode, parameters), o);
      } else {
        OtherWritten(h, seqAuth, arrivals, since, opcode, parameters, k - 1);
        OtherArrives(h, tx, s', Indexes(arrivals[..k - 1]), since, arrivals[k - 1]);
        assert Indexes(arrivals[..k - 1]) + {} == Indexes(arrivals[..k - 1]);
        SaidElsewhere(s', o, h.Src());
      }
    }
  }

  lemma SaidElsewhere(s: State, o: Outcome, src: nat)
    requires Unheard(s, o, src)
    ensures o.message.Some? ==> o.message.value.src != src
  {
  }

  lemma NothingSaid(src: nat)
    ensures From([], src) == []
  {
  }

  lemma RoomyAt(h: Hop, s: State, arrivals: seq<Arrived>, events: seq<Event>, k: nat)
    requires Joined(h) && |events| == |arrivals| && Roomy(h, s, arrivals, events) && k < |arrivals| && arrivals[k].Own?
    ensures Indexes(arrivals[..k]) == {} ==>
              RoomFor(After(h.receiver, s, events[..k]).table, h.Pair(), h.receiver.limits)
  {
    hide After, RoomFor, Joined, Indexes;
  }

  lemma OtherWritten(h: Hop, seqAuth: nat, arrivals: seq<Arrived>, since: real, opcode: nat, parameters: Bytes, k: nat)
    requires Long(h, seqAuth, arrivals, since, opcode, parameters) && k < |arrivals| && arrivals[k].Other?
    requires Sendable(h, seqAuth, arrivals, AccessPdu(opcode, parameters))
    ensures var a := arrivals[k];
            && EventsOf(Written(h, seqAuth, arrivals, AccessPdu(opcode, parameters)), arrivals)[k]
               == EventOf((if a.config then 2 else 0, a.payload), a)
            && ReadAs(h, a) != Some(h.Src()) && Within(h, since, a.nowAck) && Within(h, since, a.nowAdd)
  {
    hide AccessPdu, Encoded, Lowers, Network.DecodeNetworkPdu, ValidContext;
  }

  lemma NoIndexes(arrivals: seq<Arrived>)
    ensures Indexes(arrivals[..0]) == {}
  {
  }

  lemma IndexesGrow(arrivals: seq<Arrived>, k: nat)
    requires 0 < k <= |arrivals|
    ensures Indexes(arrivals[..k])
            == Indexes(arrivals[..k - 1]) + (if arrivals[k - 1].Own? then {arrivals[k - 1].index} else {})
  {
    var last := if arrivals[k - 1].Own? then {arrivals[k - 1].index} else {};
    forall i | i in Indexes(arrivals[..k]) ensures i in Indexes(arrivals[..k - 1]) + last {
      var j :| 0 <= j < k && arrivals[..k][j].Own? && arrivals[..k][j].index == i;
      if j < k - 1 {
        assert arrivals[..k - 1][j].Own? && arrivals[..k - 1][j].index == i;
      }
    }
    forall i | i in Indexes(arrivals[..k - 1]) + last ensures i in Indexes(arrivals[..k]) {
      if i in Indexes(arrivals[..k - 1]) {
        var j :| 0 <= j < k - 1 && arrivals[..k - 1][j].Own? && arrivals[..k - 1][j].index == i;
        assert arrivals[..k][j].Own? && arrivals[..k][j].index == i;
      } else {
        assert arrivals[..k][k - 1].Own? && arrivals[..k][k - 1].index == i;
      }
    }
  }

  lemma CameSays(h: Hop, tx: X.Sent, held: set<nat>, i: nat, since: real, message: AccessMessage, o: Outcome)
    requires Came(h, tx, held, i, since, message, o)
    ensures Partway(h, tx, o.state, held + {i}, since)
    ensures o.message == if !X.AllHeld(tx, held) && X.AllHeld(tx, held + {i}) then Some(message) else None
    ensures X.AllHeld(tx, held) ==> X.AllHeld(tx, held + {i})
  {
    hide Partway;
  }

  /** One event of it. */
  lemma NextSegment(h: Hop, s: State, held: set<nat>, seqAuth: nat, arrivals: seq<Arrived>, since: real, opcode: nat,
                    parameters: Bytes, k: nat)
    requires Long(h, seqAuth, arrivals, since, opcode, parameters) && k < |arrivals| && arrivals[k].Own?
    requires Sendable(h, seqAuth, arrivals, AccessPdu(opcode, parameters))
    requires Partway(h, Tx(h, seqAuth, AccessPdu(opcode, parameters)), s, held, since)
    requires held == {} ==> RoomFor(s.table, h.Pair(), h.receiver.limits)
    ensures var access := AccessPdu(opcode, parameters);
            Came(h, Tx(h, seqAuth, access), held, arrivals[k].index, since, Expected(h, opcode, parameters),
                 Handle(h.receiver, s, EventsOf(Written(h, seqAuth, arrivals, access), arrivals)[k]))
  {
    var access := AccessPdu(opcode, parameters);
    var tx := Tx(h, seqAuth, access);
    var arrived := arrivals[k];
    LongTx(h, seqAuth, opcode, parameters);
    LongLowers(h, seqAuth, opcode, parameters);
    Decrypts(h, seqAuth, opcode, parameters);
    TxIs(h, seqAuth, access);
    hide AccessPdu, Partway, Joined, Sendable, Encoded, LowerOf, X.ValidSent, DecryptAndDispatch, Handle, HandleNetwork,
      Upper, Tx, Lowers, Came;
    SegmentLower(tx, arrived.index, arrived.number);
    Crosses(h, s, arrived.number, LowerOf(tx, arrived.index), arrived.nowAck, arrived.nowAdd);
    SegmentArrives(h, tx, s, Expected(h, opcode, parameters), held, arrived.index, arrived.number, since, arrived.nowAck,
                   arrived.nowAdd);
    assert Written(h, seqAuth, arrivals, access)[k].1 == Encoded(h, arrived.number, LowerOf(tx, arrived.index)).value;
  }

  /** What GATT carries is what was written: framing neither loses, joins nor reorders these payloads. */
  lemma Framed(h: Hop, seqAuth: nat, arrivals: seq<Arrived>, access: Bytes)
    requires Joined(h) && Sendable(h, seqAuth, arrivals, access)
    ensures var written := Written(h, seqAuth, arrivals, access);
            (forall i :: 0 <= i < |written| ==> Sar.Limit(written[i].0).Some?)
            && Sar.Run(Sar.IDLE, Sar.Frames(Sar.Flatten(Sar.AllSent(written)))).1 == written
  {
    hide Encoded, Joined;
    Sar.SendsReceived(Written(h, seqAuth, arrivals, access));
  }

  /** The messages dispatched when the receiver's SAR machine has been fed every frame that was written. */
  ghost function Received(h: Hop, s: State, seqAuth: nat, arrivals: seq<Arrived>, access: Bytes): seq<AccessMessage>
    requires Joined(h) && Sendable(h, seqAuth, arrivals, access)
  {
    Framed(h, seqAuth, arrivals, access);
    var delivered := Sar.Run(Sar.IDLE, Sar.Frames(Sar.Flatten(Sar.AllSent(Written(h, seqAuth, arrivals, access))))).1;
    Messages(h.receiver, s, EventsOf(delivered, arrivals))
  }

  /**
   End to end, segmented: any valid opcode with parameters up to a 380-byte access PDU goes
   through access, upper and lower transport, network and GATT. However its segments are
   ordered, repeated and mixed with other nodes' traffic, and under whichever numbers within
   8191 of the first, the sender's message is dispatched exactly once, as sent, if every
   segment arrives, and not at all otherwise.
   */
  lemma LongMessageDelivered(h: Hop, s: State, seqAuth: nat, arrivals: seq<Arrived>, since: real, opcode: nat,
                             parameters: Bytes)
    requires Long(h, seqAuth, arrivals, since, opcode, parameters) && Receptive(h, s, seqAuth)
    requires Sendable(h, seqAuth, arrivals, AccessPdu(opcode, parameters)) ==>
               Roomy(h, s, arrivals, EventsOf(Written(h, seqAuth, arrivals, AccessPdu(opcode, parameters)), arrivals))
    ensures Sendable(h, seqAuth, arrivals, AccessPdu(opcode, parameters))
    ensures var count := (|AccessPdu(opcode, parameters)| + 15) / 12;
            From(Received(h, s, seqAuth, arrivals, AccessPdu(opcode, parameters)), h.Src())
            == if forall i :: 0 <= i < count ==> i in Indexes(arrivals) then [Expected(h, opcode, parameters)] else []
  {
    LongSendable(h, seqAuth, arrivals, since, opcode, parameters);
    var access := AccessPdu(opcode, parameters);
    LongTx(h, seqAuth, opcode, parameters);
    Framed(h, seqAuth, arrivals, access);
    var events := EventsOf(Written(h, seqAuth, arrivals, access), arrivals);
    SegmentsArrive(h, s, seqAuth, arrivals, since, opcode, parameters, |arrivals|);
    hide AccessPdu, Partway, Receptive, Joined, Timed, Sendable, EventsOf, Written, Tx, Handle, After, Indexes, From, Roomy;
    assert events[..|events|] == events && arrivals[..|arrivals|] == arrivals;
  }

  /** The one PDU of a short message, once or more often, among other nodes' traffic. */
  ghost predicate Short(h: Hop, n: nat, arrivals: seq<Arrived>, opcode: nat, parameters: Bytes)
  {
    && Joined(h) && Network.ValidOpcode(opcode) && |AccessPdu(opcode, parameters)| <= 11 && n <= MAX_SEQUENCE
    && Elsewhere(h, arrivals)
    && forall k :: 0 <= k < |arrivals| && arrivals[k].Own? ==> arrivals[k].index == 0 && arrivals[k].number == n
  }

  lemma ShortSendable(h: Hop, n: nat, arrivals: seq<Arrived>, opcode: nat, parameters: Bytes)
    requires Short(h, n, arrivals, opcode, parameters)
    ensures Sendable(h, n, arrivals, AccessPdu(opcode, parameters))
    ensures h.Aid() < 64
            && Lowers(h, n, AccessPdu(opcode, parameters)) == Ok([UnsegmentedLower(h, n, AccessPdu(opcode, parameters))])
  {
    UnsegmentedBuilds(h, n, opcode, parameters);
    JoinedAid(h);
    hide AccessPdu, Joined, Encoded, Upper, UnsegmentedLower, Network.BuildUnsegmentedAccess, ReadAs;
    Crosses(h, State(map[], map[], map[], None), n, UnsegmentedLower(h, n, AccessPdu(opcode, parameters)), 0.0, 0.0);
  }

  lemma SegmentUnheard(ctx: Context, s: State, m: Network.NetworkMessage, a: real, b: real, src: nat)
    requires m.src != src
    ensures Unheard(s, HandleSegment(ctx, s, m, a, b), src)
  {
    hide R.Add, R.PruneTable, HandleAdded, R.AckFromSlot, R.SlotOf, ParseAccessSegment;
    var r := ParseAccessSegment(m.seq_, m.transport);
    if r.Ok? {
      var s1 := s.(table := R.PruneTable(s.table, a, ctx.limits));
      var (table, added) := R.Add(s1.table, (m.src, m.dst), m.seq_, r.value, b, ctx.limits);
      if added.Ok? {
        AddedUnheard(ctx, s1.(table := table), m, r.value, added.value, src);
      }
    }
  }

  lemma OtherUnheard(h: Hop, s: State, a: Arrived)
    requires Joined(h) && a.Other? && ReadAs(h, a) != Some(h.Src())
    ensures Unheard(s, Handle(h.receiver, s, EventOf((if a.config then 2 else 0, a.payload), a)), h.Src())
  {
    hide HandleSegment, HandleControl, HandleUnsegmented, HandleProxyConfig, Network.DecodeNetworkPdu;
    var r := Network.DecodeNetworkPdu(h.receiver.cipher, h.receiver.keys, h.receiver.ivIndex, a.payload, a.config);
    if r.Ok? {
      var m := r.value;
      ConfigUnheard(s, m, h.Src());
      SegmentUnheard(h.receiver, s, m, a.nowAck, a.nowAdd, h.Src());
      if |m.transport| > 0 {
        ControlUnheard(h.receiver, s, m, h.Src());
        UnsegmentedUnheard(h.receiver, s, m, h.Src());
      }
    }
  }

  /** The first PDU is dispatched, and its number remembered: every repeat of it is a replay. */
  lemma {:induction false} RepeatsArrive(h: Hop, s: State, n: nat, arrivals: seq<Arrived>, opcode: nat, parameters: Bytes,
                                         k: nat)
    requires Short(h, n, arrivals, opcode, parameters) && !IsReplay(s.replay, h.Src(), n) && k <= |arrivals|
    requires Sendable(h, n, arrivals, AccessPdu(opcode, parameters))
    ensures var events := EventsOf(Written(h, n, arrivals, AccessPdu(opcode, parameters)), arrivals);
            && IsReplay(After(h.receiver, s, events[..k]).replay, h.Src(), n) == (0 in Indexes(arrivals[..k]))
            && From(Messages(h.receiver, s, events[..k]), h.Src())
               == if 0 in Indexes(arrivals[..k]) then [Expected(h, opcode, parameters)] else []
  {
    hide AccessPdu, Sendable, EventsOf, Written, Handle, ValidContext, Indexes, From, Joined, ReadAs;
    var events := EventsOf(Written(h, n, arrivals, AccessPdu(opcode, parameters)), arrivals);
    if k == 0 {
      assert events[..0] == [];
      NoIndexes(arrivals);
      NothingSaid(h.Src());
    } else {
      RepeatsArrive(h, s, n, arrivals, opcode, parameters, k - 1);
      hide After, Messages;
      ShortValid(h, n, arrivals, opcode, parameters);
      var s' := After(h.receiver, s, events[..k - 1]);
      var o := Handle(h.receiver, s', events[k - 1]);
      OneMore(h.receiver, s, events, k);
      IndexesGrow(arrivals, k);
      FromBoth(Messages(h.receiver, s, events[..k - 1]), o.message, h.Src());
      if arrivals[k - 1].Own? {
        UnsegmentedDispatched(h, s', n, arrivals, opcode, parameters, k - 1);
      } else {
        ShortOther(h, n, arrivals, opcode, parameters, k - 1);
        OtherUnheard(h, s', arrivals[k - 1]);
      }
    }
  }

  lemma ShortValid(h: Hop, n: nat, arrivals: seq<Arrived>, opcode: nat, parameters: Bytes)
    requires Short(h, n, arrivals, opcode, parameters)
    ensures ValidContext(h.receiver) && opcode < 0x1000000
  {
    hide AccessPdu, ValidContext, ReadAs;
  }

  lemma ShortOther(h: Hop, n: nat, arrivals: seq<Arrived>, opcode: nat, parameters: Bytes, k: nat)
    requires Short(h, n, arrivals, opcode, parameters) && k < |arrivals| && arrivals[k].Other?
    requires Sendable(h, n, arrivals, AccessPdu(opcode, parameters))
    ensures EventsOf(Written(h, n, arrivals, AccessPdu(opcode, parameters)), arrivals)[k]
            == EventOf((if arrivals[k].config then 2 else 0, arrivals[k].payload), arrivals[k])
    ensures ReadAs(h, arrivals[k]) != Some(h.Src())
  {
    hide AccessPdu, Encoded, Lowers, Network.DecodeNetworkPdu, ValidContext;
  }

  /** A short message's PDU is dispatched as it was sent, unless it is a repeat. */
  lemma UnsegmentedDispatched(h: Hop, s: State, n: nat, arrivals: seq<Arrived>, opcode: nat, parameters: Bytes, k: nat)
    requires Short(h, n, arrivals, opcode, parameters) && k < |arrivals| && arrivals[k].Own?
    requires Sendable(h, n, arrivals, AccessPdu(opcode, parameters))
    ensures var events := EventsOf(Written(h, n, arrivals, AccessPdu(opcode, parameters)), arrivals);
            var o := Handle(h.receiver, s, events[k]);
            IsReplay(o.state.replay, h.Src(), n)
            && o.message == if IsReplay(s.replay, h.Src(), n) then None else Some(Expected(h, opcode, parameters))
  {
    var lower := UnsegmentedLower(h, n, AccessPdu(opcode, parameters));
    ShortSendable(h, n, arrivals, opcode, parameters);
    UnsegmentedBuilds(h, n, opcode, parameters);
    UnsegmentedHandled(h, s, n, opcode, parameters, arrivals[k].nowAck, arrivals[k].nowAdd);
    hide AccessPdu, Joined, Encoded, Upper, UnsegmentedLower, Handle, HandleNetwork, Lowers, Sendable, ReadAs;
    Crosses(h, s, n, lower, arrivals[k].nowAck, arrivals[k].nowAdd);
    assert Written(h, n, arrivals, AccessPdu(opcode, parameters))[k].1 == Encoded(h, n, lower).value;
  }

  /**
   End to end, unsegmented: a message that fits one PDU is dispatched exactly once however often
   the PDU arrives, and whatever other nodes send in between.
   */
  lemma ShortMessageDelivered(h: Hop, s: State, n: nat, arrivals: seq<Arrived>, opcode: nat, parameters: Bytes)
    requires Short(h, n, arrivals, opcode, parameters) && !IsReplay(s.replay, h.Src(), n)
    ensures Sendable(h, n, arrivals, AccessPdu(opcode, parameters))
    ensures From(Received(h, s, n, arrivals, AccessPdu(opcode, parameters)), h.Src())
            == if 0 in Indexes(arrivals) then [Expected(h, opcode, parameters)] else []
  {
    ShortSendable(h, n, arrivals, opcode, parameters);
    var access := AccessPdu(opcode, parameters);
    Framed(h, n, arrivals, access);
    var events := EventsOf(Written(h, n, arrivals, access), arrivals);
    RepeatsArrive(h, s, n, arrivals, opcode, parameters, |arrivals|);
    hide AccessPdu, Joined, Sendable, EventsOf, Written, Handle, After, Indexes, From, ReadAs;
    assert events[..|events|] == events && arrivals[..|arrivals|] == arrivals;
  }
}
