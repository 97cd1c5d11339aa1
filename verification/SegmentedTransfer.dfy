/**
 `_send_segmented` of `proxy.py` and its correspondent: the selective-retransmit loop, the
 peer's reassembler, and a network between them that loses, repeats, delays and reorders.
 */
module SegmentedTransfer {
  import opened Prelude
  import opened Bits
  import opened LowerTransport
  import opened Proxy
  import Network
  import R = Reassembly
  import X = ExactReassembly

  const ATTEMPTS := 4

  /** How `_send_segmented` ends: it returns, or raises one of two `ProxyError`s. */
  datatype SendResult = Returned | Cancelled | NotAcknowledged

  // ----- The sending loop -----

  function Missing(acknowledged: nat, n: nat): set<nat>
  {
    set i | 0 <= i < n && !Bit(acknowledged, i)
  }

  /** `sorted(s)`, for indexes below `n` */
  function Ascending(s: set<nat>, n: nat): seq<nat>
  {
    if n == 0 then [] else Ascending(s, n - 1) + (if n - 1 in s then [n - 1] else [])
  }

  /** Each attempt transmits exactly the outstanding indexes, once each and in order. */
  lemma {:induction false} AscendingExact(s: set<nat>, n: nat)
    ensures forall i :: i in Ascending(s, n) <==> i in s && i < n
    ensures forall j, k :: 0 <= j < k < |Ascending(s, n)| ==> Ascending(s, n)[j] < Ascending(s, n)[k]
  {
    if n > 0 {
      AscendingExact(s, n - 1);
      var before := Ascending(s, n - 1);
      forall j | 0 <= j < |before| ensures before[j] < n - 1 {
        assert before[j] in before;
      }
    }
  }

  predicate Inbound(events: seq<Event>)
  {
    forall i :: 0 <= i < |events| ==> !events[i].Sending?
  }

  /** What the sender does when its wait ends, and its result if that ends the loop. */
  function Wake(s: State, seqZero: nat): (State, Option<SendResult>)
    requires seqZero in s.pending
  {
    var p := s.pending[seqZero];
    if p.future.None? then (s, None)
    else if p.future.value.blockAck == 0 then (s, Some(Cancelled))
    else if Missing(p.acknowledged, p.segmentCount) == {} then (s, Some(Returned))
    else (s.(pending := s.pending[seqZero := p.(future := None)]), None)
  }

  lemma ControlKeepsPending(ctx: Context, s: State, m: Network.NetworkMessage, seqZero: nat)
    requires seqZero in s.pending && |m.transport| >= 1
    ensures var s' := HandleControl(ctx, s, m).state;
            seqZero in s'.pending && s'.pending[seqZero].dst == s.pending[seqZero].dst
            && s'.pending[seqZero].segmentCount == s.pending[seqZero].segmentCount
            && s'.table == s.table
  {
    hide ParseSegmentAck;
  }

  lemma SegmentKeepsPending(ctx: Context, s: State, m: Network.NetworkMessage, nowAck: real, nowAdd: real)
    ensures HandleSegment(ctx, s, m, nowAck, nowAdd).state.pending == s.pending
  {
    hide R.Add, R.AckFromSlot, DecryptAndDispatch;
  }

  lemma HandleKeepsPending(ctx: Context, s: State, e: Event, seqZero: nat)
    requires ValidContext(ctx) && seqZero in s.pending && !e.Sending?
    ensures var s' := Handle(ctx, s, e).state;
            seqZero in s'.pending && s'.pending[seqZero].dst == s.pending[seqZero].dst
            && s'.pending[seqZero].segmentCount == s.pending[seqZero].segmentCount
  {
    hide HandleSegment, HandleControl, DecryptAndDispatch, Network.DecodeNetworkPdu;
    if e.NetworkPdu? {
      var r := Network.DecodeNetworkPdu(ctx.cipher, ctx.keys, ctx.ivIndex, e.payload, false);
      if r.Ok? && |r.value.transport| >= 1 {
        SegmentKeepsPending(ctx, s, r.value, e.nowAck, e.nowAdd);
        ControlKeepsPending(ctx, s, r.value, seqZero);
      }
    }
  }

  lemma {:induction false} PendingKept(ctx: Context, s: State, events: seq<Event>, seqZero: nat)
    requires ValidContext(ctx) && seqZero in s.pending && Inbound(events)
    ensures var s' := After(ctx, s, events);
            seqZero in s'.pending && s'.pending[seqZero].dst == s.pending[seqZero].dst
            && s'.pending[seqZero].segmentCount == s.pending[seqZero].segmentCount
  {
    if |events| > 0 {
      hide Handle;
      PendingKept(ctx, s, events[..|events| - 1], seqZero);
      HandleKeepsPending(ctx, After(ctx, s, events[..|events| - 1]), events[|events| - 1], seqZero);
    }
  }

  /**
   The attempts still to make, one list of inbound events each: the state left, the result,
   and the segment indexes transmitted.
   */
  ghost function SendLoop(ctx: Context, s: State, seqZero: nat, outstanding: set<nat>, rounds: seq<seq<Event>>)
    : (State, SendResult, seq<nat>)
    requires ValidContext(ctx) && seqZero in s.pending && forall round :: round in rounds ==> Inbound(round)
    decreases |rounds|
  {
    if |rounds| == 0 then (s, NotAcknowledged, [])
    else
      PendingKept(ctx, s, rounds[0], seqZero);
      var p := s.pending[seqZero];
      var sent := Ascending(outstanding, p.segmentCount);
      var s1 := After(ctx, s, rounds[0]);
      if p.dst >= 0x8000 then (s1, Returned, sent)
      else
        var (s2, r) := Wake(s1, seqZero);
        if r.Some? then (s2, r.value, sent)
        else
          var p1 := s1.pending[seqZero];
          var left := if p1.future.None? then outstanding else Missing(p1.acknowledged, p1.segmentCount);
          var (end, result, more) := SendLoop(ctx, s2, seqZero, left, rounds[1..]);
          (end, result, sent + more)
  }

  // ----- Bits of a block acknowledgment -----

  lemma {:induction false} AndNotBit(a: nat, b: nat, i: nat)
    ensures Bit(AndNot(a, b), i) <==> Bit(a, i) && !Bit(b, i)
  {
    if a == 0 {
      ShrZero(i);
    } else if i > 0 {
      AndNotBit(a / 2, b / 2, i - 1);
      assert AndNot(a, b) / 2 == AndNot(a / 2, b / 2);
    }
  }

  lemma {:induction false} ShrZero(i: nat)
    ensures Shr(0, i) == 0
  {
    if i > 0 {
      ShrZero(i - 1);
    }
  }

  lemma OrBit(a: nat, b: nat, i: nat)
    ensures Bit(Or(a, b), i) <==> Bit(a, i) || Bit(b, i)
  {
    ShrOr(a, b, i);
    OrStep(Shr(a, i), Shr(b, i));
  }

  lemma {:induction false} BitmapBit(held: set<nat>, k: nat, n: nat, i: nat)
    ensures Bit(R.BitsFrom(held, k, n), i) <==> k + i < n && k + i in held
    decreases n - k
  {
    if k >= n {
      ShrZero(i);
    } else if i > 0 {
      BitmapBit(held, k + 1, n, i - 1);
      assert R.BitsFrom(held, k, n) / 2 == R.BitsFrom(held, k + 1, n);
    }
  }

  /** Every set bit is an index the receiver held. */
  ghost predicate BitsWithin(ack: nat, held: set<nat>)
  {
    forall i :: Bit(ack, i) ==> i in held
  }

  lemma BitsOf(held: set<nat>, n: nat, i: nat)
    ensures Bit(R.BitsFrom(held, 0, n), i) <==> i < n && i in held
  {
    BitmapBit(held, 0, n, i);
  }

  lemma BitmapWithin(held: set<nat>, more: set<nat>)
    requires held <= more
    ensures BitsWithin(R.Bitmap(held, 32), more)
  {
    hide R.BitsFrom, Bit;
    forall i | Bit(R.Bitmap(held, 32), i) ensures i in more {
      BitsOf(held, 32, i);
    }
  }

  lemma OrWithin(a: nat, b: nat, held: set<nat>)
    requires BitsWithin(a, held) && BitsWithin(b, held)
    ensures BitsWithin(Or(a, b), held)
  {
    forall i | Bit(Or(a, b), i) ensures i in held {
      OrBit(a, b, i);
    }
  }

  // ----- One transaction at the receiving slot -----

  /** The slot can never again take or answer a segment of the transaction. */
  ghost predicate Dead(slot: R.Slot, seqAuth: nat)
  {
    || R.DiscardedOr(slot) >= seqAuth
    || (slot.completed.Some? && slot.completed.value.seqAuth > seqAuth)
    || (slot.pending.Some? && slot.pending.value.seqAuth > seqAuth
        && !(slot.completed.Some? && slot.completed.value.seqAuth == seqAuth))
  }

  ghost predicate Gathering(tx: X.Sent, slot: R.Slot, held: set<nat>)
  {
    held != {} && slot.pending.Some? && slot.pending.value.seqAuth == tx.seqAuth && R.Mark(slot) < tx.seqAuth
    && X.Holds(tx, slot.pending.value, held)
  }

  ghost predicate Finished(tx: X.Sent, slot: R.Slot)
  {
    R.DiscardedOr(slot) < tx.seqAuth
    && slot.completed
       == Some(R.Completed(tx.seqAuth, Pow2(tx.Count()) - 1, tx.akf, tx.aid, tx.szmic, tx.SegN()))
  }

  /** `held` is every index the slot has ever taken; `done`, whether the PDU was reassembled. */
  ghost predicate Receiving(tx: X.Sent, slot: R.Slot, held: set<nat>, done: bool)
  {
    && (forall i :: i in held ==> i < tx.Count())
    && (done <==> X.AllHeld(tx, held))
    && (|| (X.Fresh(slot, tx.seqAuth) && held == {})
        || (Gathering(tx, slot, held) && !done)
        || (Finished(tx, slot) && done)
        || Dead(slot, tx.seqAuth))
  }

  lemma PruneReceiving(tx: X.Sent, slot: R.Slot, held: set<nat>, done: bool, now: real, l: R.Limits)
    requires Receiving(tx, slot, held, done) && R.SlotInv(slot)
    ensures Receiving(tx, R.Prune(slot, now, l), held, done)
  {
    hide X.AllHeld, X.Holds, R.TxnInv;
    var after := R.Prune(slot, now, l);
    if after != slot {
      assert R.DiscardedOr(after) >= slot.pending.value.seqAuth;
      if !Dead(after, tx.seqAuth) {
        assert X.Fresh(after, tx.seqAuth);
      }
    }
  }

  /** A segment of another transaction on the pair never disturbs what is claimed of this one. */
  lemma OtherReceiving(tx: X.Sent, slot: R.Slot, held: set<nat>, done: bool, seq_: nat, segment: AccessSegment,
                       now: real, room: Option<R.Refusal>)
    requires Receiving(tx, slot, held, done) && R.SlotInv(slot) && segment.seqAuth != tx.seqAuth
    ensures Receiving(tx, R.AddToSlot(slot, seq_, segment, now, room).0, held, done)
  {
    AddShape(slot, seq_, segment, now, room);
    hide R.AddToSlot, X.AllHeld, X.Holds;
  }

  /** Whatever a segment changes is its own transaction, and that one was newer than every mark. */
  lemma AddShape(slot: R.Slot, seq_: nat, segment: AccessSegment, now: real, room: Option<R.Refusal>)
    ensures var after := R.AddToSlot(slot, seq_, segment, now, room).0;
            after != slot ==>
              && R.DiscardedOr(slot) < segment.seqAuth
              && (slot.completed.Some? ==> slot.completed.value.seqAuth < segment.seqAuth)
              && (slot.pending.Some? ==> slot.pending.value.seqAuth <= segment.seqAuth)
              && (if after.pending.Some? then
                    after.pending.value.seqAuth == segment.seqAuth && after.completed == slot.completed
                    && after.discarded == slot.discarded
                  else
                    after.completed.Some? && after.completed.value.seqAuth == segment.seqAuth && after.discarded.None?)
  {
    hide R.Whole, R.Join, R.Bitmap;
  }

  /** A dead transaction's segment is refused. */
  lemma DeadRefuses(slot: R.Slot, seq_: nat, segment: AccessSegment, now: real, room: Option<R.Refusal>)
    requires Dead(slot, segment.seqAuth)
    ensures R.AddToSlot(slot, seq_, segment, now, room).1.Err?
    ensures R.AddToSlot(slot, seq_, segment, now, room).0 == slot
  {
    hide R.RecordInSlot;
  }

  /** What feeding segment `i` must come to. */
  ghost predicate Fed(tx: X.Sent, held: set<nat>, done: bool, i: nat,
                      after: R.Slot, r: Result<R.AddResult, R.Refusal>)
  {
    if r.Err? then Receiving(tx, after, held, done)
    else
      && Receiving(tx, after, held + {i}, done || r.value.upper.Some?)
      && r.value.blockAck == R.Bitmap(held + {i}, 32)
      && (r.value.upper.Some? ==> r.value.upper == Some(tx.upper) && !done)
  }

  lemma MineReceiving(tx: X.Sent, slot: R.Slot, held: set<nat>, done: bool, i: nat, seq_: nat, now: real,
                      room: Option<R.Refusal>)
    requires X.ValidSent(tx) && Receiving(tx, slot, held, done) && R.SlotInv(slot) && i < tx.Count()
    ensures var (after, r) := R.AddToSlot(slot, seq_, tx.Segment(i), now, room);
            Fed(tx, held, done, i, after, r)
  {
    hide Receiving, Dead, R.AddToSlot, Fed, X.Holds, X.AllHeld, Gathering, Finished, X.Fresh;
    if Dead(slot, tx.seqAuth) {
      DeadRefuses(slot, seq_, tx.Segment(i), now, room);
      RefusedFed(tx, slot, held, done, i, R.AddToSlot(slot, seq_, tx.Segment(i), now, room).1);
    } else if done {
      FinishedFed(tx, slot, held, i, seq_, now, room);
    } else {
      OpenFed(tx, slot, held, i, seq_, now, room);
    }
  }

  lemma RefusedFed(tx: X.Sent, slot: R.Slot, held: set<nat>, done: bool, i: nat, r: Result<R.AddResult, R.Refusal>)
    requires Receiving(tx, slot, held, done) && r.Err?
    ensures Fed(tx, held, done, i, slot, r)
  {
    hide Receiving;
  }

  lemma FinishedFed(tx: X.Sent, slot: R.Slot, held: set<nat>, i: nat, seq_: nat, now: real, room: Option<R.Refusal>)
    requires X.ValidSent(tx) && Receiving(tx, slot, held, true) && !Dead(slot, tx.seqAuth) && i < tx.Count()
    ensures var (after, r) := R.AddToSlot(slot, seq_, tx.Segment(i), now, room);
            Fed(tx, held, true, i, after, r)
  {
    hide X.Holds, R.RecordInSlot, R.Bitmap, Dead;
    assert 0 in held && i in held;
    assert held + {i} == held;
    X.FullBitmap(tx, held);
  }

  lemma OpenFed(tx: X.Sent, slot: R.Slot, held: set<nat>, i: nat, seq_: nat, now: real, room: Option<R.Refusal>)
    requires X.ValidSent(tx) && Receiving(tx, slot, held, false) && !Dead(slot, tx.seqAuth) && i < tx.Count()
    ensures var (after, r) := R.AddToSlot(slot, seq_, tx.Segment(i), now, room);
            Fed(tx, held, false, i, after, r)
  {
    hide R.AddToSlot, X.Holds, X.AllHeld, X.Expected, X.Progress, X.Fresh, Fed;
    OpenProgress(tx, slot, held);
    if held == {} && slot.pending.None? && room.Some? {
      NoRoom(tx, slot, held, i, seq_, now, room);
    } else {
      X.AddProgress(tx, slot, held, i, seq_, now, room);
      var (after, r) := R.AddToSlot(slot, seq_, tx.Segment(i), now, room);
      ProgressFed(tx, held, i, after, r);
    }
  }

  lemma OpenProgress(tx: X.Sent, slot: R.Slot, held: set<nat>)
    requires X.ValidSent(tx) && Receiving(tx, slot, held, false) && !Dead(slot, tx.seqAuth)
    ensures X.Progress(tx, slot, held) && !X.AllHeld(tx, held)
    ensures forall j :: j in held ==> j < tx.Count()
  {
  }

  lemma NoRoom(tx: X.Sent, slot: R.Slot, held: set<nat>, i: nat, seq_: nat, now: real, room: Option<R.Refusal>)
    requires X.Progress(tx, slot, {}) && held == {} && slot.pending.None? && room.Some? && i < tx.Count()
    requires Receiving(tx, slot, held, false)
    ensures var (after, r) := R.AddToSlot(slot, seq_, tx.Segment(i), now, room);
            Fed(tx, held, false, i, after, r)
  {
    hide R.RecordInSlot, Receiving;
  }

  lemma ProgressFed(tx: X.Sent, held: set<nat>, i: nat, after: R.Slot,
                    r: Result<R.AddResult, R.Refusal>)
    requires !X.AllHeld(tx, held) && X.Expected(tx, held, i, r) && X.Progress(tx, after, held + {i})
    requires i < tx.Count() && forall j :: j in held ==> j < tx.Count()
    ensures Fed(tx, held, false, i, after, r)
  {
    assert i in held + {i};
    hide X.Holds, R.Bitmap;
  }

  // ----- Sender, peer and the network between them -----

  /**
   The two nodes of one transfer: `here` sends `tx`, `peer` runs the same inbound code. `earlier`
   is what else `here` has segmented to that destination.
   */
  datatype Link = Link(here: Context, peer: Context, tx: X.Sent, earlier: set<X.Sent>) {
    function Dst(): nat { tx.pair.1 }
    function SeqZero(): nat { SeqZeroOf(tx) }
  }

  function SeqZeroOf(tx: X.Sent): nat
  {
    tx.seqAuth % 0x2000
  }

  ghost predicate ValidLink(k: Link)
  {
    && ValidContext(k.here) && ValidContext(k.peer) && X.ValidSent(k.tx)
    && k.tx.pair == (k.here.localAddress, k.peer.localAddress)
    && forall t :: t in k.earlier ==> X.ValidSent(t) && t.pair == k.tx.pair
  }

  /**
   What a sender can check before it starts: whatever it has sent to that destination under this
   SeqZero before had more segments than the message it is about to send.
   */
  ghost predicate LongerBefore(k: Link)
  {
    forall t :: t in k.earlier && SeqZeroOf(t) == k.SeqZero() ==> t.Count() > k.tx.Count()
  }

  /** Sequence numbers only grow: every earlier transaction is older. */
  ghost predicate Older(k: Link)
  {
    forall t :: t in k.earlier ==> t.seqAuth < k.tx.seqAuth
  }

  /**
   Both nodes' states; every acknowledgment the peer has ever scheduled; the indexes of the
   transaction that the peer's reassembler has taken; and whether it has returned exactly the
   sent upper transport PDU.
   */
  datatype World = World(here: State, peer: State, jobs: set<AckJob>, held: set<nat>, reassembled: bool)

  /** One Proxy PDU arriving at either node. */
  datatype Arrival = Here(e: Event) | Peer(e: Event)

  /** The access segment an arriving PDU carries, if it carries one. */
  function SegmentIn(ctx: Context, e: Event): (r: Option<(Network.NetworkMessage, AccessSegment)>)
    requires ValidContext(ctx)
    ensures r.Some? ==> e.NetworkPdu?
  {
    if !e.NetworkPdu? then None
    else
      match Network.DecodeNetworkPdu(ctx.cipher, ctx.keys, ctx.ivIndex, e.payload, false)
      case Err(_) => None
      case Ok(m) =>
        if m.src == ctx.localAddress || |m.transport| == 0 || m.ctl != 0 || m.transport[0] < 128 then None
        else
          match ParseAccessSegment(m.seq_, m.transport)
          case Err(_) => None
          case Ok(segment) => Some((m, segment))
  }

  /** The segment acknowledgment an arriving PDU carries for this node, and who sent it. */
  function AckIn(ctx: Context, e: Event): Option<(nat, SegmentAck)>
    requires ValidContext(ctx)
  {
    if !e.NetworkPdu? then None
    else
      match Network.DecodeNetworkPdu(ctx.cipher, ctx.keys, ctx.ivIndex, e.payload, false)
      case Err(_) => None
      case Ok(m) =>
        if |m.transport| == 0 || m.ctl == 0 || m.transport[0] % 128 != CONTROL_OPCODE_SEGMENT_ACK
           || m.dst != ctx.localAddress then None
        else
          match ParseSegmentAck(m.transport[1..])
          case Err(_) => None
          case Ok(ack) => Some((m.src, ack))
  }

  /** The PDU carries a segment of the transaction itself. */
  ghost predicate OfTransfer(k: Link, e: Event)
    requires ValidLink(k)
  {
    var inc := SegmentIn(k.peer, e);
    inc.Some? && (inc.value.0.src, inc.value.0.dst) == k.tx.pair && inc.value.1.seqAuth == k.tx.seqAuth
  }

  /** The reassembler's answer to such a segment, unless the replay list stops it. */
  ghost function AddedAt(k: Link, peer: State, e: Event): Option<Result<R.AddResult, R.Refusal>>
    requires ValidLink(k) && OfTransfer(k, e)
  {
    var (m, segment) := SegmentIn(k.peer, e).value;
    if IsReplay(peer.replay, m.src, m.seq_) then None
    else
      var pruned := R.PruneTable(peer.table, e.nowAck, k.peer.limits);
      Some(R.Add(pruned, k.tx.pair, m.seq_, segment, e.nowAdd, k.peer.limits).1)
  }

  ghost function Arrive(k: Link, w: World, a: Arrival): World
    requires ValidLink(k)
  {
    match a
    case Here(e) => w.(here := Handle(k.here, w.here, e).state)
    case Peer(e) =>
      var o := Handle(k.peer, w.peer, e);
      var jobs := w.jobs + (if o.ack.Some? then {o.ack.value} else {});
      if !OfTransfer(k, e) then w.(peer := o.state, jobs := jobs)
      else
        var added := AddedAt(k, w.peer, e);
        var taken := added.Some? && added.value.Ok?;
        w.(peer := o.state, jobs := jobs,
           held := w.held + (if taken then {SegmentIn(k.peer, e).value.1.segO} else {}),
           reassembled := w.reassembled || (taken && added.value.value.upper == Some(k.tx.upper)))
  }

  /** The segment is one its sender cut from that transaction. */
  ghost predicate CutFrom(t: X.Sent, segment: AccessSegment)
  {
    segment.segO < t.Count() && segment == t.Segment(segment.segO)
  }

  /** A PDU under the sender's name to the peer carries a segment of one of `sent`, if it carries one. */
  ghost predicate Authentic(k: Link, sent: set<X.Sent>, e: Event)
    requires ValidLink(k)
  {
    var inc := SegmentIn(k.peer, e);
    inc.Some? && (inc.value.0.src, inc.value.0.dst) == k.tx.pair ==>
      exists t :: t in sent && CutFrom(t, inc.value.1)
  }

  /**
   What the network may deliver: anything either node has sent, at any time and any number of
   times, and anything from anyone else. The keys are not shared with anyone who forges PDUs
   in these nodes' names.
   */
  ghost predicate Allowed(k: Link, w: World, a: Arrival)
    requires ValidLink(k)
  {
    match a
    case Here(e) =>
      !e.Sending?
      && (AckIn(k.here, e).Some? && AckIn(k.here, e).value.0 == k.Dst() ==>
            var ack := AckIn(k.here, e).value.1;
            AckJob(k.here.localAddress, ack.seqZero, ack.blockAck) in w.jobs)
    case Peer(e) => Authentic(k, k.earlier + {k.tx}, e)
  }

  // ----- What every arrival keeps -----

  /** The acknowledgment answers that transaction: it has its SeqZero, and its last segment's bit. */
  ghost predicate Answers(t: X.Sent, job: AckJob)
  {
    job.seqZero == SeqZeroOf(t) && Bit(job.blockAck, t.SegN())
  }

  /**
   An acknowledgment scheduled for the transaction's SeqZero names only indexes that have been
   taken, or answers an earlier transaction.
   */
  ghost predicate JobFits(k: Link, job: AckJob, held: set<nat>)
  {
    job.dst == k.here.localAddress && job.seqZero == k.SeqZero() ==>
      BitsWithin(job.blockAck, held) || exists t :: t in k.earlier && Answers(t, job)
  }

  ghost predicate JobsWithin(k: Link, jobs: set<AckJob>, held: set<nat>)
  {
    forall j :: j in jobs ==> JobFits(k, j, held)
  }

  /** What the slot remembers to have completed is one of `sent`, with as many segments. */
  ghost predicate Known(sent: set<X.Sent>, slot: R.Slot)
  {
    slot.completed.Some? ==>
      exists t :: t in sent && t.seqAuth == slot.completed.value.seqAuth && t.SegN() == slot.completed.value.segN
  }

  ghost predicate PeerInv(k: Link, w: World)
    requires ValidLink(k)
  {
    && R.TableInv(w.peer.table, k.peer.limits)
    && Receiving(k.tx, R.SlotOf(w.peer.table, k.tx.pair), w.held, w.reassembled)
    && Known(k.earlier + {k.tx}, R.SlotOf(w.peer.table, k.tx.pair))
    && JobsWithin(k, w.jobs, w.held)
  }

  /** The sender's entry: every acknowledged index is one the peer has held. */
  ghost predicate HereInv(k: Link, here: State, held: set<nat>)
  {
    && k.SeqZero() in here.pending
    && var p := here.pending[k.SeqZero()];
       p.dst == k.Dst() && p.segmentCount == k.tx.Count() && BitsWithin(p.acknowledged, held)
  }

  lemma SlotKnown(t: R.Table, p: R.Pair, l: R.Limits)
    requires R.TableInv(t, l)
    ensures R.SlotInv(R.SlotOf(t, p))
  {
    R.EmptyInv();
  }

  lemma PrunedReceiving(k: Link, t: R.Table, held: set<nat>, done: bool, now: real)
    requires ValidLink(k) && R.TableInv(t, k.peer.limits)
    requires Receiving(k.tx, R.SlotOf(t, k.tx.pair), held, done)
    ensures var pruned := R.PruneTable(t, now, k.peer.limits);
            R.TableInv(pruned, k.peer.limits) && Receiving(k.tx, R.SlotOf(pruned, k.tx.pair), held, done)
  {
    hide Receiving, R.TableInv, R.Prune;
    R.PruneTableInv(t, now, k.peer.limits);
    SlotKnown(t, k.tx.pair, k.peer.limits);
    X.PrunedSlot(t, k.tx.pair, now, k.peer.limits);
    PruneReceiving(k.tx, R.SlotOf(t, k.tx.pair), held, done, now, k.peer.limits);
  }

  lemma AddElsewhere(k: Link, t: R.Table, held: set<nat>, done: bool, p: R.Pair, seq_: nat, segment: AccessSegment,
                     now: real)
    requires ValidLink(k) && R.TableInv(t, k.peer.limits) && Validated(segment)
    requires Receiving(k.tx, R.SlotOf(t, k.tx.pair), held, done)
    requires p != k.tx.pair || segment.seqAuth != k.tx.seqAuth
    ensures var t' := R.Add(t, p, seq_, segment, now, k.peer.limits).0;
            R.TableInv(t', k.peer.limits) && Receiving(k.tx, R.SlotOf(t', k.tx.pair), held, done)
  {
    hide Receiving, R.TableInv, R.AddToSlot, R.PruneTable, R.Room;
    R.AddTableInv(t, p, seq_, segment, now, k.peer.limits);
    PrunedReceiving(k, t, held, done, now);
    var pruned := R.PruneTable(t, now, k.peer.limits);
    SlotKnown(pruned, k.tx.pair, k.peer.limits);
    if p == k.tx.pair {
      OtherReceiving(k.tx, R.SlotOf(pruned, p), held, done, seq_, segment, now, R.Room(pruned, p, k.peer.limits));
    }
  }

  lemma AddMine(k: Link, t: R.Table, held: set<nat>, done: bool, i: nat, seq_: nat, now: real)
    requires ValidLink(k) && R.TableInv(t, k.peer.limits) && i < k.tx.Count()
    requires Receiving(k.tx, R.SlotOf(t, k.tx.pair), held, done)
    ensures var (t', r) := R.Add(t, k.tx.pair, seq_, k.tx.Segment(i), now, k.peer.limits);
            R.TableInv(t', k.peer.limits)
            && Fed(k.tx, held, done, i, R.SlotOf(t', k.tx.pair), r)
  {
    hide Receiving, R.TableInv, R.AddToSlot, R.PruneTable, R.Room;
    X.SegmentValidated(k.tx, i);
    R.AddTableInv(t, k.tx.pair, seq_, k.tx.Segment(i), now, k.peer.limits);
    PrunedReceiving(k, t, held, done, now);
    var pruned := R.PruneTable(t, now, k.peer.limits);
    var slot := R.SlotOf(pruned, k.tx.pair);
    SlotKnown(pruned, k.tx.pair, k.peer.limits);
    MineReceiving(k.tx, slot, held, done, i, seq_, now, R.Room(pruned, k.tx.pair, k.peer.limits));
    var (after, r) := R.AddToSlot(slot, seq_, k.tx.Segment(i), now, R.Room(pruned, k.tx.pair, k.peer.limits));
  }

  /** The table and acknowledgment one segment leaves. */
  lemma SegmentOutcome(ctx: Context, s: State, m: Network.NetworkMessage, segment: AccessSegment, nowAck: real,
                       nowAdd: real)
    requires ParseAccessSegment(m.seq_, m.transport) == Ok(segment)
    ensures var o := HandleSegment(ctx, s, m, nowAck, nowAdd);
            var pruned := R.PruneTable(s.table, nowAck, ctx.limits);
            var (table, r) := R.Add(pruned, (m.src, m.dst), m.seq_, segment, nowAdd, ctx.limits);
            if IsReplay(s.replay, m.src, m.seq_) then
              o.state.table == pruned
              && (o.ack.Some? ==>
                    R.AckFromSlot(R.SlotOf(pruned, (m.src, m.dst)), segment.seqAuth) == Some(o.ack.value.blockAck))
            else
              o.state.table == table
              && (o.ack.Some? ==> r.Ok? && o.ack.value.blockAck == r.value.blockAck && Acknowledges(segment, r.value))
  {
    hide R.Add, R.PruneTable, R.AckFromSlot, R.SlotOf, HandleAdded, ParseAccessSegment;
    var pruned := R.PruneTable(s.table, nowAck, ctx.limits);
    var (table, r) := R.Add(pruned, (m.src, m.dst), m.seq_, segment, nowAdd, ctx.limits);
    if r.Ok? {
      AddedOutcome(ctx, s.(table := table), m, segment, r.value);
    }
  }

  /** The results a receiver acknowledges: a repeat, a completion, and any other last segment. */
  ghost predicate Acknowledges(segment: AccessSegment, r: R.AddResult)
  {
    r.alreadyComplete || r.upper.Some? || segment.segO == segment.segN
  }

  lemma AddedOutcome(ctx: Context, s: State, m: Network.NetworkMessage, segment: AccessSegment, r: R.AddResult)
    ensures var o := HandleAdded(ctx, s, m, segment, r);
            o.state.table == s.table
            && (o.ack.Some? ==> o.ack.value.blockAck == r.blockAck && Acknowledges(segment, r))
  {
    hide DecryptAndDispatch;
  }

  lemma HandledSegment(ctx: Context, s: State, e: Event)
    requires ValidContext(ctx)
    ensures var inc := SegmentIn(ctx, e);
            if inc.Some? then
              ParseAccessSegment(inc.value.0.seq_, inc.value.0.transport) == Ok(inc.value.1)
              && Handle(ctx, s, e) == HandleSegment(ctx, s, inc.value.0, e.nowAck, e.nowAdd)
            else Handle(ctx, s, e).state.table == s.table
  {
    hide R.Add, R.PruneTable, R.AckFromSlot, R.SlotOf, DecryptAndDispatch, Network.DecodeNetworkPdu, ParseSegmentAck,
      AckMatches;
    if e.NetworkPdu? {
      var r := Network.DecodeNetworkPdu(ctx.cipher, ctx.keys, ctx.ivIndex, e.payload, false);
      if r.Ok? && ParseAccessSegment(r.value.seq_, r.value.transport).Err? {
        assert HandleSegment(ctx, s, r.value, e.nowAck, e.nowAdd) == Drop(s);
      }
    }
  }

  /** Only a finished slot answers a repeated segment of the transaction, and with every index. */
  lemma RepeatAnswer(tx: X.Sent, slot: R.Slot, held: set<nat>, done: bool)
    requires X.ValidSent(tx) && Receiving(tx, slot, held, done)
    ensures R.AckFromSlot(slot, tx.seqAuth).Some? ==> R.AckFromSlot(slot, tx.seqAuth).value == R.Bitmap(held, 32)
  {
    hide X.Holds, R.Bitmap;
    if R.AckFromSlot(slot, tx.seqAuth).Some? {
      X.FullBitmap(tx, held);
    }
  }

  /** An acknowledgment is scheduled only in answer to a segment, and under that segment's own SeqZero. */
  lemma AckAnswers(ctx: Context, s: State, e: Event)
    requires ValidContext(ctx) && Handle(ctx, s, e).ack.Some?
    ensures var inc := SegmentIn(ctx, e);
            var job := Handle(ctx, s, e).ack.value;
            inc.Some? && job.dst == inc.value.0.src && job.seqZero == inc.value.1.seqZero
            && inc.value.0.dst == ctx.localAddress
  {
    hide R.Add, R.PruneTable, R.AckFromSlot, R.SlotOf, DecryptAndDispatch, Network.DecodeNetworkPdu, ParseSegmentAck,
      ParseAccessSegment, AckMatches;
    if e.NetworkPdu? {
      var r := Network.DecodeNetworkPdu(ctx.cipher, ctx.keys, ctx.ivIndex, e.payload, false);
    }
  }

  // ----- Every acknowledgment has its last segment's bit -----

  lemma {:induction false} FullBits(n: nat, i: nat)
    requires i < n
    ensures Bit(Pow2(n) - 1, i)
  {
    assert Pow2(n) - 1 == 2 * (Pow2(n - 1) - 1) + 1;
    if i > 0 {
      FullBits(n - 1, i - 1);
      assert (Pow2(n) - 1) / 2 == Pow2(n - 1) - 1;
    }
  }

  lemma {:induction false} BitBelow(a: nat, n: nat, i: nat)
    requires Bit(a, i) && n <= i
    ensures a >= Pow2(n)
  {
    if n > 0 {
      BitBelow(a / 2, n - 1, i - 1);
    } else {
      ShrZero(i);
    }
  }

  /** Recording the last segment, or completing, sets its bit. */
  lemma RecordBit(slot: R.Slot, txn: R.Txn, seq_: nat, segment: AccessSegment, now: real)
    requires segment.segN < 32
    ensures var r := R.RecordInSlot(slot, txn, seq_, segment, now).1;
            r.Ok? && Acknowledges(segment, r.value) ==> Bit(r.value.blockAck, segment.segN)
  {
    hide R.Whole, R.Join, R.Bitmap, Bit, Pow2;
    var txn' := R.Record(txn, seq_, segment, now);
    assert segment.segO in txn'.segments.Keys;
    BitsOf(txn'.segments.Keys, 32, segment.segN);
    FullBits(segment.segN + 1, segment.segN);
    assert R.Bitmap(txn'.segments.Keys, 32) == R.BitsFrom(txn'.segments.Keys, 0, 32) by {
      BitmapIs(txn'.segments.Keys);
    }
  }

  lemma BitmapIs(held: set<nat>)
    ensures R.Bitmap(held, 32) == R.BitsFrom(held, 0, 32)
  {
  }

  lemma AddBit(slot: R.Slot, seq_: nat, segment: AccessSegment, now: real, room: Option<R.Refusal>)
    requires R.SlotInv(slot) && segment.segN < 32
    ensures var r := R.AddToSlot(slot, seq_, segment, now, room).1;
            r.Ok? && Acknowledges(segment, r.value) ==> Bit(r.value.blockAck, segment.segN)
  {
    hide R.RecordInSlot, R.OpenTxn, Bit, Pow2, R.TxnInv;
    RecordBit(slot, R.OpenTxn(slot, segment, now), seq_, segment, now);
    FullBits(segment.segN + 1, segment.segN);
  }

  lemma KnownAdd(sent: set<X.Sent>, slot: R.Slot, seq_: nat, segment: AccessSegment, now: real, room: Option<R.Refusal>)
    requires Known(sent, slot)
    requires exists t :: t in sent && t.seqAuth == segment.seqAuth && t.SegN() == segment.segN
    ensures Known(sent, R.AddToSlot(slot, seq_, segment, now, room).0)
  {
    hide R.Whole, R.Join, R.Bitmap, R.Record, Pow2;
  }

  lemma KnownPruned(sent: set<X.Sent>, slot: R.Slot, now: real, l: R.Limits)
    requires Known(sent, slot)
    ensures Known(sent, R.Prune(slot, now, l))
  {
  }

  lemma KnownTable(sent: set<X.Sent>, t: R.Table, pair: R.Pair, p: R.Pair, seq_: nat, segment: AccessSegment, nowAck: real,
                   now: real, l: R.Limits)
    requires Known(sent, R.SlotOf(t, pair))
    requires p == pair ==> exists u :: u in sent && u.seqAuth == segment.seqAuth && u.SegN() == segment.segN
    ensures var pruned := R.PruneTable(t, nowAck, l);
            Known(sent, R.SlotOf(pruned, pair)) && Known(sent, R.SlotOf(R.Add(pruned, p, seq_, segment, now, l).0, pair))
  {
    var pruned := R.PruneTable(t, nowAck, l);
    var twice := R.PruneTable(pruned, now, l);
    X.PrunedSlot(t, pair, nowAck, l);
    X.PrunedSlot(pruned, pair, now, l);
    hide R.PruneTable, R.Prune, R.AddToSlot, R.Room, Known;
    KnownPruned(sent, R.SlotOf(t, pair), nowAck, l);
    KnownPruned(sent, R.SlotOf(pruned, pair), now, l);
    if p == pair {
      KnownAdd(sent, R.SlotOf(twice, p), seq_, segment, now, R.Room(twice, p, l));
    }
  }

  /** Nothing the sender has sent makes the slot remember anything else. */
  lemma KnownHandled(k: Link, sent: set<X.Sent>, peer: State, e: Event)
    requires ValidLink(k) && Known(sent, R.SlotOf(peer.table, k.tx.pair)) && Authentic(k, sent, e)
    ensures Known(sent, R.SlotOf(Handle(k.peer, peer, e).state.table, k.tx.pair))
  {
    hide Known, R.Add, R.PruneTable, R.SlotOf, HandleSegment, Handle, SegmentIn, ValidContext, X.ValidSent;
    HandledSegment(k.peer, peer, e);
    var inc := SegmentIn(k.peer, e);
    if inc.Some? {
      var (m, segment) := inc.value;
      SegmentOutcome(k.peer, peer, m, segment, e.nowAck, e.nowAdd);
      if (m.src, m.dst) == k.tx.pair {
        var t :| t in sent && CutFrom(t, segment);
        CutIs(t, segment);
      }
      KnownTable(sent, peer.table, k.tx.pair, (m.src, m.dst), m.seq_, segment, e.nowAck, e.nowAdd, k.peer.limits);
    }
  }

  lemma CutIs(t: X.Sent, segment: AccessSegment)
    requires CutFrom(t, segment)
    ensures segment.seqAuth == t.seqAuth && segment.seqZero == SeqZeroOf(t) && segment.segN == t.SegN()
  {
    hide Chunk;
  }

  lemma ParsedValid(ctx: Context, e: Event)
    requires ValidContext(ctx)
    ensures SegmentIn(ctx, e).Some? ==> Validated(SegmentIn(ctx, e).value.1)
  {
    hide Network.DecodeNetworkPdu, ParseAccessSegment, Validated, ValidContext;
  }

  /** What the receiver repeats for a completed transaction has its last segment's bit. */
  lemma RepeatBit(sent: set<X.Sent>, slot: R.Slot, seqAuth: nat, job: AckJob)
    requires R.SlotInv(slot) && Known(sent, slot) && R.AckFromSlot(slot, seqAuth) == Some(job.blockAck)
    requires job.seqZero == seqAuth % 0x2000
    ensures exists t :: t in sent && t.seqAuth == seqAuth && Answers(t, job)
  {
    var t :| t in sent && t.seqAuth == slot.completed.value.seqAuth && t.SegN() == slot.completed.value.segN;
    hide Bit, Pow2, R.TxnInv;
    FullBits(t.SegN() + 1, t.SegN());
    assert Answers(t, job);
  }

  /** The receiver acknowledges a segment of the sender's only with its transaction's last bit set. */
  lemma AckHasLast(k: Link, sent: set<X.Sent>, peer: State, e: Event)
    requires ValidLink(k) && R.TableInv(peer.table, k.peer.limits) && Known(sent, R.SlotOf(peer.table, k.tx.pair))
    requires Authentic(k, sent, e) && Handle(k.peer, peer, e).ack.Some?
    requires Handle(k.peer, peer, e).ack.value.dst == k.here.localAddress
    ensures SegmentIn(k.peer, e).Some?
    ensures var (m, segment) := SegmentIn(k.peer, e).value;
            (m.src, m.dst) == k.tx.pair
            && exists t :: t in sent && t.seqAuth == segment.seqAuth && Answers(t, Handle(k.peer, peer, e).ack.value)
  {
    hide Known, R.Add, R.TableInv, R.PruneTable, HandleSegment, Handle, SegmentIn, ValidContext, X.ValidSent, Bit, CutFrom,
      R.AckFromSlot, Acknowledges, R.SlotOf, R.SlotInv, R.AddToSlot, Answers;
    AckAnswers(k.peer, peer, e);
    HandledSegment(k.peer, peer, e);
    var (m, segment) := SegmentIn(k.peer, e).value;
    var job := Handle(k.peer, peer, e).ack.value;
    var t :| t in sent && CutFrom(t, segment);
    CutIs(t, segment);
    SegmentOutcome(k.peer, peer, m, segment, e.nowAck, e.nowAdd);
    ParsedValid(k.peer, e);
    var l := k.peer.limits;
    var pruned := R.PruneTable(peer.table, e.nowAck, l);
    R.PruneTableInv(peer.table, e.nowAck, l);
    SlotKnown(pruned, k.tx.pair, l);
    KnownTable(sent, peer.table, k.tx.pair, k.tx.pair, m.seq_, segment, e.nowAck, e.nowAdd, l);
    if IsReplay(peer.replay, m.src, m.seq_) {
      RepeatBit(sent, R.SlotOf(pruned, k.tx.pair), segment.seqAuth, job);
    } else {
      TakenBit(pruned, k.tx.pair, m.seq_, segment, e.nowAdd, l);
      AnsweredBy(t, segment, job);
    }
  }

  lemma AnsweredBy(t: X.Sent, segment: AccessSegment, job: AckJob)
    requires segment.seqZero == SeqZeroOf(t) == job.seqZero && segment.segN == t.SegN() && Bit(job.blockAck, segment.segN)
    ensures Answers(t, job)
  {
  }

  lemma TakenBit(t: R.Table, p: R.Pair, seq_: nat, segment: AccessSegment, now: real, l: R.Limits)
    requires R.TableInv(t, l) && Validated(segment)
    ensures var r := R.Add(t, p, seq_, segment, now, l).1;
            r.Ok? && Acknowledges(segment, r.value) ==> Bit(r.value.blockAck, segment.segN)
  {
    hide R.AddToSlot, R.PruneTable, R.Room, R.TableInv, Bit, Acknowledges, R.SlotInv;
    var pruned := R.PruneTable(t, now, l);
    R.PruneTableInv(t, now, l);
    SlotKnown(pruned, p, l);
    AddBit(R.SlotOf(pruned, p), seq_, segment, now, R.Room(pruned, p, l));
  }

  lemma JobsGrow(k: Link, jobs: set<AckJob>, job: AckJob, held: set<nat>)
    requires JobsWithin(k, jobs, held) && JobFits(k, job, held)
    ensures JobsWithin(k, jobs + {job}, held)
  {
  }

  lemma JobsKeep(k: Link, jobs: set<AckJob>, held: set<nat>, more: set<nat>)
    requires held <= more && JobsWithin(k, jobs, held)
    ensures JobsWithin(k, jobs, more)
  {
  }

  /** A segment under the transaction's number is one of its own. */
  lemma OwnSegment(k: Link, e: Event)
    requires ValidLink(k) && Older(k) && Authentic(k, k.earlier + {k.tx}, e) && OfTransfer(k, e)
    ensures CutFrom(k.tx, SegmentIn(k.peer, e).value.1)
  {
    hide SegmentIn, ValidContext, CutFrom;
    var segment := SegmentIn(k.peer, e).value.1;
    var t :| t in k.earlier + {k.tx} && CutFrom(t, segment);
    CutIs(t, segment);
  }

  /** An arrival that is not a segment of the transaction changes nothing claimed of it. */
  lemma PeerArrivesOther(k: Link, w: World, e: Event)
    requires ValidLink(k) && Older(k) && PeerInv(k, w) && !OfTransfer(k, e) && Allowed(k, w, Peer(e))
    ensures PeerInv(k, Arrive(k, w, Peer(e)))
  {
    OtherTable(k, w.peer, e, w.held, w.reassembled);
    hide Receiving, R.TableInv, Handle, SegmentIn, JobsWithin, ValidContext, CutFrom, Authentic, Known, Answers, R.SlotOf;
    KnownHandled(k, k.earlier + {k.tx}, w.peer, e);
    var o := Handle(k.peer, w.peer, e);
    if o.ack.Some? {
      var job := o.ack.value;
      if job.dst == k.here.localAddress {
        AckHasLast(k, k.earlier + {k.tx}, w.peer, e);
      }
      JobsGrow(k, w.jobs, job, w.held);
    } else {
      assert w.jobs + {} == w.jobs;
    }
  }

  lemma OtherTable(k: Link, peer: State, e: Event, held: set<nat>, done: bool)
    requires ValidLink(k) && R.TableInv(peer.table, k.peer.limits) && !OfTransfer(k, e)
    requires Receiving(k.tx, R.SlotOf(peer.table, k.tx.pair), held, done)
    ensures var table := Handle(k.peer, peer, e).state.table;
            R.TableInv(table, k.peer.limits) && Receiving(k.tx, R.SlotOf(table, k.tx.pair), held, done)
  {
    hide Receiving, R.TableInv, R.Add, R.PruneTable, HandleSegment, Handle, SegmentIn, Validated, ValidContext;
    HandledSegment(k.peer, peer, e);
    var inc := SegmentIn(k.peer, e);
    if inc.Some? {
      var (m, segment) := inc.value;
      SegmentOutcome(k.peer, peer, m, segment, e.nowAck, e.nowAdd);
      PrunedReceiving(k, peer.table, held, done, e.nowAck);
      AddElsewhere(k, R.PruneTable(peer.table, e.nowAck, k.peer.limits), held, done, (m.src, m.dst), m.seq_, segment,
                   e.nowAdd);
    }
  }

  /** A segment of the transaction: what was held stays held, and the answer is exactly that. */
  lemma PeerArrivesMine(k: Link, w: World, e: Event)
    requires ValidLink(k) && Older(k) && PeerInv(k, w) && OfTransfer(k, e) && Allowed(k, w, Peer(e))
    ensures w.held <= Arrive(k, w, Peer(e)).held && PeerInv(k, Arrive(k, w, Peer(e)))
  {
    hide Receiving, R.TableInv, R.Add, R.PruneTable, HandleSegment, Handle, SegmentIn, Validated, BitsWithin, R.Bitmap,
      X.ValidSent, R.AckFromSlot, JobsWithin, ValidContext, Authentic, Known, Older, Acknowledges;
    KnownHandled(k, k.earlier + {k.tx}, w.peer, e);
    HandledSegment(k.peer, w.peer, e);
    OwnSegment(k, e);
    var (m, segment) := SegmentIn(k.peer, e).value;
    var i := segment.segO;
    SegmentOutcome(k.peer, w.peer, m, segment, e.nowAck, e.nowAdd);
    PrunedReceiving(k, w.peer.table, w.held, w.reassembled, e.nowAck);
    var pruned := R.PruneTable(w.peer.table, e.nowAck, k.peer.limits);
    AddMine(k, pruned, w.held, w.reassembled, i, m.seq_, e.nowAdd);
    var r := R.Add(pruned, k.tx.pair, m.seq_, segment, e.nowAdd, k.peer.limits).1;
    RepeatAnswer(k.tx, R.SlotOf(pruned, k.tx.pair), w.held, w.reassembled);
    var w' := Arrive(k, w, Peer(e));
    assert w'.held == if !IsReplay(w.peer.replay, m.src, m.seq_) && r.Ok? then w.held + {i} else w.held;
    BitmapWithin(w'.held, w'.held);
    JobsKeep(k, w.jobs, w.held, w'.held);
    var o := Handle(k.peer, w.peer, e);
    if o.ack.Some? {
      assert o.ack.value.blockAck == R.Bitmap(w'.held, 32);
      JobsGrow(k, w.jobs, o.ack.value, w'.held);
    } else {
      assert w.jobs + {} == w.jobs;
    }
  }

  // ----- At the sender -----

  /** The sender refuses an answer to a longer transaction: it has a bit the sender's own cannot have. */
  lemma TooManyBits(k: Link, t: X.Sent, job: AckJob)
    requires LongerBefore(k) && t in k.earlier && Answers(t, job) && job.seqZero == k.SeqZero()
    ensures job.blockAck >= Pow2(k.tx.Count())
  {
    BitBelow(job.blockAck, k.tx.Count(), t.SegN());
  }

  lemma HereControl(k: Link, here: State, jobs: set<AckJob>, m: Network.NetworkMessage, held: set<nat>)
    requires LongerBefore(k) && |m.transport| >= 1 && HereInv(k, here, held) && JobsWithin(k, jobs, held)
    requires m.transport[0] % 128 == CONTROL_OPCODE_SEGMENT_ACK && ParseSegmentAck(m.transport[1..]).Ok?
             && m.src == k.Dst() && m.dst == k.here.localAddress ==>
               var ack := ParseSegmentAck(m.transport[1..]).value;
               AckJob(k.here.localAddress, ack.seqZero, ack.blockAck) in jobs
    ensures HereInv(k, HandleControl(k.here, here, m).state, held)
  {
    hide ParseSegmentAck, BitsWithin, Or, Answers, AndNot, LongerBefore;
    var parsed := ParseSegmentAck(m.transport[1..]);
    if parsed.Ok? && AckJob(k.here.localAddress, k.SeqZero(), parsed.value.blockAck) in jobs {
      var job := AckJob(k.here.localAddress, k.SeqZero(), parsed.value.blockAck);
      assert JobFits(k, job, held);
      if BitsWithin(job.blockAck, held) {
        OrWithin(here.pending[k.SeqZero()].acknowledged, job.blockAck, held);
      } else {
        var t :| t in k.earlier && Answers(t, job);
        TooManyBits(k, t, job);
      }
    }
  }

  lemma HereArrives(k: Link, w: World, e: Event)
    requires ValidLink(k) && LongerBefore(k) && PeerInv(k, w) && HereInv(k, w.here, w.held) && Allowed(k, w, Here(e))
    ensures HereInv(k, Arrive(k, w, Here(e)).here, w.held)
  {
    hide HandleSegment, HandleControl, DecryptAndDispatch, Network.DecodeNetworkPdu, BitsWithin, Receiving, R.TableInv,
      ParseSegmentAck, JobsWithin;
    if e.NetworkPdu? {
      var r := Network.DecodeNetworkPdu(k.here.cipher, k.here.keys, k.here.ivIndex, e.payload, false);
      if r.Ok? && |r.value.transport| >= 1 {
        SegmentKeepsPending(k.here, w.here, r.value, e.nowAck, e.nowAdd);
        if r.value.ctl != 0 {
          HereControl(k, w.here, w.jobs, r.value, w.held);
        }
      }
    }
  }

  // ----- Attempts -----

  ghost function WorldAfter(k: Link, w: World, arrivals: seq<Arrival>): World
    requires ValidLink(k)
  {
    if |arrivals| == 0 then w
    else Arrive(k, WorldAfter(k, w, arrivals[..|arrivals| - 1]), arrivals[|arrivals| - 1])
  }

  ghost predicate AllowedRun(k: Link, w: World, arrivals: seq<Arrival>)
    requires ValidLink(k)
  {
    |arrivals| == 0
    || (var before := arrivals[..|arrivals| - 1];
        AllowedRun(k, w, before) && Allowed(k, WorldAfter(k, w, before), arrivals[|arrivals| - 1]))
  }

  function HereOf(arrivals: seq<Arrival>): seq<Event>
  {
    if |arrivals| == 0 then []
    else
      var last := arrivals[|arrivals| - 1];
      HereOf(arrivals[..|arrivals| - 1]) + (if last.Here? then [last.e] else [])
  }

  /** The rounds as the sender sees them. */
  function HereRounds(rounds: seq<seq<Arrival>>): (r: seq<seq<Event>>)
    ensures |r| == |rounds|
  {
    seq(|rounds|, i requires 0 <= i < |rounds| => HereOf(rounds[i]))
  }

  lemma {:induction false} WorldHere(k: Link, w: World, arrivals: seq<Arrival>)
    requires ValidLink(k)
    ensures WorldAfter(k, w, arrivals).here == After(k.here, w.here, HereOf(arrivals))
  {
    if |arrivals| > 0 {
      hide Handle, OfTransfer;
      var before, last := arrivals[..|arrivals| - 1], arrivals[|arrivals| - 1];
      WorldHere(k, w, before);
      if last.Here? {
        assert HereOf(arrivals)[..|HereOf(before)|] == HereOf(before);
      } else {
        assert HereOf(arrivals) == HereOf(before);
      }
    }
  }

  lemma WithinMore(k: Link, here: State, held: set<nat>, more: set<nat>)
    requires HereInv(k, here, held) && held <= more
    ensures HereInv(k, here, more)
  {
  }

  lemma ArriveKeeps(k: Link, w: World, a: Arrival)
    requires ValidLink(k) && LongerBefore(k) && Older(k) && PeerInv(k, w) && HereInv(k, w.here, w.held) && Allowed(k, w, a)
    ensures PeerInv(k, Arrive(k, w, a)) && HereInv(k, Arrive(k, w, a).here, Arrive(k, w, a).held)
  {
    hide Handle, OfTransfer, Receiving, R.TableInv, BitsWithin, HereInv, Allowed, JobsWithin, LongerBefore, Older, ValidLink;
    match a
    case Here(e) => HereArrives(k, w, e);
    case Peer(e) =>
      if OfTransfer(k, e) {
        PeerArrivesMine(k, w, e);
        WithinMore(k, w.here, w.held, Arrive(k, w, a).held);
      } else {
        PeerArrivesOther(k, w, e);
      }
  }

  lemma {:induction false} WorldKeeps(k: Link, w: World, arrivals: seq<Arrival>)
    requires ValidLink(k) && LongerBefore(k) && Older(k) && PeerInv(k, w) && HereInv(k, w.here, w.held)
    requires AllowedRun(k, w, arrivals)
    ensures PeerInv(k, WorldAfter(k, w, arrivals))
            && HereInv(k, WorldAfter(k, w, arrivals).here, WorldAfter(k, w, arrivals).held)
  {
    if |arrivals| > 0 {
      hide PeerInv, HereInv, Allowed, Arrive, LongerBefore, Older, ValidLink;
      WorldKeeps(k, w, arrivals[..|arrivals| - 1]);
      ArriveKeeps(k, WorldAfter(k, w, arrivals[..|arrivals| - 1]), arrivals[|arrivals| - 1]);
    }
  }

  /** The world after one attempt and the sender's reaction to it. */
  ghost function NextWorld(k: Link, w: World, round: seq<Arrival>): (World, Option<SendResult>)
    requires ValidLink(k)
  {
    var w1 := WorldAfter(k, w, round);
    if k.SeqZero() in w1.here.pending then
      var (here, r) := Wake(w1.here, k.SeqZero());
      (w1.(here := here), r)
    else (w1, None)
  }

  /** The world once the sending loop has ended. */
  ghost function EndWorld(k: Link, w: World, rounds: seq<seq<Arrival>>): World
    requires ValidLink(k)
    decreases |rounds|
  {
    if |rounds| == 0 then w
    else
      var (w1, r) := NextWorld(k, w, rounds[0]);
      if r.Some? then w1 else EndWorld(k, w1, rounds[1..])
  }

  ghost predicate AllowedRounds(k: Link, w: World, rounds: seq<seq<Arrival>>)
    requires ValidLink(k)
    decreases |rounds|
  {
    |rounds| == 0
    || (AllowedRun(k, w, rounds[0])
        && var (w1, r) := NextWorld(k, w, rounds[0]);
           r.None? ==> AllowedRounds(k, w1, rounds[1..]))
  }

  lemma WakeKeeps(k: Link, w: World)
    requires ValidLink(k) && PeerInv(k, w) && HereInv(k, w.here, w.held)
    ensures var (here, r) := Wake(w.here, k.SeqZero());
            HereInv(k, here, w.held) && PeerInv(k, w.(here := here))
            && (r == Some(Returned) ==> w.reassembled)
  {
    hide R.TableInv, BitsWithin, JobsWithin;
    var p := w.here.pending[k.SeqZero()];
    if Wake(w.here, k.SeqZero()).1 == Some(Returned) {
      AllAcknowledged(k.tx, p.acknowledged, w.held);
    }
  }

  lemma AllAcknowledged(tx: X.Sent, acknowledged: nat, held: set<nat>)
    requires Missing(acknowledged, tx.Count()) == {} && BitsWithin(acknowledged, held)
    ensures X.AllHeld(tx, held)
  {
    forall i | 0 <= i < tx.Count() ensures i in held {
      assert i !in Missing(acknowledged, tx.Count());
    }
  }

  lemma RoundsSplit(rounds: seq<seq<Arrival>>)
    requires |rounds| > 0
    ensures HereRounds(rounds)[0] == HereOf(rounds[0]) && HereRounds(rounds)[1..] == HereRounds(rounds[1..])
    ensures HereOf(rounds[0]) in HereRounds(rounds)
    ensures forall round :: round in HereRounds(rounds[1..]) ==> round in HereRounds(rounds)
  {
    hide HereOf;
    assert HereRounds(rounds)[1..] == HereRounds(rounds[1..]);
    assert HereRounds(rounds)[0] in HereRounds(rounds);
  }

  lemma HerePending(k: Link, here: State, held: set<nat>)
    requires HereInv(k, here, held)
    ensures k.SeqZero() in here.pending && here.pending[k.SeqZero()].dst == k.Dst()
  {
  }

  lemma {:induction false} LoopKeeps(k: Link, w: World, outstanding: set<nat>, rounds: seq<seq<Arrival>>)
    requires ValidLink(k) && LongerBefore(k) && Older(k) && k.Dst() < 0x8000 && PeerInv(k, w) && HereInv(k, w.here, w.held)
    requires AllowedRounds(k, w, rounds) && forall round :: round in HereRounds(rounds) ==> Inbound(round)
    ensures PeerInv(k, EndWorld(k, w, rounds)) && HereInv(k, EndWorld(k, w, rounds).here, EndWorld(k, w, rounds).held)
    ensures k.SeqZero() in w.here.pending
    ensures SendLoop(k.here, w.here, k.SeqZero(), outstanding, HereRounds(rounds)).1 == Returned ==>
      EndWorld(k, w, rounds).reassembled
    decreases |rounds|
  {
    hide Receiving, R.TableInv, BitsWithin, AllowedRun, WorldAfter, After, PeerInv, HereInv, Missing, Ascending, Wake,
      LongerBefore, Older, ValidLink, HereRounds, HereOf, Inbound;
    HerePending(k, w.here, w.held);
    if |rounds| > 0 {
      RoundsSplit(rounds);
      WorldHere(k, w, rounds[0]);
      WorldKeeps(k, w, rounds[0]);
      var w1 := WorldAfter(k, w, rounds[0]);
      HerePending(k, w1.here, w1.held);
      WakeKeeps(k, w1);
      if Wake(w1.here, k.SeqZero()).1.None? {
        var p := w1.here.pending[k.SeqZero()];
        var left := if p.future.None? then outstanding else Missing(p.acknowledged, p.segmentCount);
        LoopKeeps(k, NextWorld(k, w, rounds[0]).0, left, rounds[1..]);
      }
    }
  }

  /** The world in which `_send_segmented` has just registered the transaction. */
  ghost function StartWorld(k: Link, here: State, peer: State, jobs: set<AckJob>): World
  {
    World(here.(pending := here.pending[k.SeqZero() := PendingAck(k.Dst(), k.tx.Count(), 0, None)]), peer, jobs, {}, false)
  }

  // ----- The history before it -----

  /** Acknowledgments scheduled for the sender answered one of its earlier transactions. */
  ghost predicate JobsOfEarlier(k: Link, jobs: set<AckJob>)
  {
    forall j :: j in jobs && j.dst == k.here.localAddress ==> exists t :: t in k.earlier && Answers(t, j)
  }

  /** What the earlier transactions can have left at the peer, and on its way from there. */
  ghost predicate Past(k: Link, peer: State, jobs: set<AckJob>)
  {
    && R.TableInv(peer.table, k.peer.limits) && X.Fresh(R.SlotOf(peer.table, k.tx.pair), k.tx.seqAuth)
    && Known(k.earlier, R.SlotOf(peer.table, k.tx.pair)) && JobsOfEarlier(k, jobs)
  }

  /** The peer's side of a run before the transaction: its state, and all it has scheduled. */
  ghost function PeerAfter(k: Link, peer: State, events: seq<Event>): (State, set<AckJob>)
    requires ValidLink(k)
  {
    if |events| == 0 then (peer, {})
    else
      var (s, jobs) := PeerAfter(k, peer, events[..|events| - 1]);
      var o := Handle(k.peer, s, events[|events| - 1]);
      (o.state, jobs + (if o.ack.Some? then {o.ack.value} else {}))
  }

  /** Nothing older makes a slot as new as the transaction. */
  lemma FreshKept(slot: R.Slot, seqAuth: nat, seq_: nat, segment: AccessSegment, now: real, room: Option<R.Refusal>)
    requires X.Fresh(slot, seqAuth) && segment.seqAuth < seqAuth
    ensures X.Fresh(R.AddToSlot(slot, seq_, segment, now, room).0, seqAuth)
  {
    AddShape(slot, seq_, segment, now, room);
    hide R.AddToSlot;
  }

  lemma FreshPruned(slot: R.Slot, seqAuth: nat, now: real, l: R.Limits)
    requires X.Fresh(slot, seqAuth)
    ensures X.Fresh(R.Prune(slot, now, l), seqAuth)
  {
  }

  lemma PastTable(k: Link, t: R.Table, p: R.Pair, seq_: nat, segment: AccessSegment, nowAck: real, now: real)
    requires ValidLink(k) && R.TableInv(t, k.peer.limits) && Validated(segment)
    requires X.Fresh(R.SlotOf(t, k.tx.pair), k.tx.seqAuth) && (p == k.tx.pair ==> segment.seqAuth < k.tx.seqAuth)
    ensures var l := k.peer.limits;
            var pruned := R.PruneTable(t, nowAck, l);
            var t' := R.Add(pruned, p, seq_, segment, now, l).0;
            && R.TableInv(pruned, l) && X.Fresh(R.SlotOf(pruned, k.tx.pair), k.tx.seqAuth)
            && R.TableInv(t', l) && X.Fresh(R.SlotOf(t', k.tx.pair), k.tx.seqAuth)
  {
    var l := k.peer.limits;
    var pruned := R.PruneTable(t, nowAck, l);
    var twice := R.PruneTable(pruned, now, l);
    R.PruneTableInv(t, nowAck, l);
    R.AddTableInv(pruned, p, seq_, segment, now, l);
    X.PrunedSlot(t, k.tx.pair, nowAck, l);
    X.PrunedSlot(pruned, k.tx.pair, now, l);
    hide R.TableInv, R.AddToSlot, R.PruneTable, R.Room, X.Fresh, R.Prune, Validated;
    FreshPruned(R.SlotOf(t, k.tx.pair), k.tx.seqAuth, nowAck, l);
    FreshPruned(R.SlotOf(pruned, k.tx.pair), k.tx.seqAuth, now, l);
    if p == k.tx.pair {
      FreshKept(R.SlotOf(twice, p), k.tx.seqAuth, seq_, segment, now, R.Room(twice, p, l));
    }
  }

  lemma PastStep(k: Link, peer: State, jobs: set<AckJob>, e: Event)
    requires ValidLink(k) && Older(k) && Past(k, peer, jobs) && Authentic(k, k.earlier, e)
    ensures var o := Handle(k.peer, peer, e);
            Past(k, o.state, jobs + (if o.ack.Some? then {o.ack.value} else {}))
  {
    hide R.TableInv, R.Add, R.PruneTable, HandleSegment, Handle, SegmentIn, Validated, ValidContext, X.Fresh, CutFrom,
      X.ValidSent, Known, Answers, Acknowledges;
    HandledSegment(k.peer, peer, e);
    var inc := SegmentIn(k.peer, e);
    var o := Handle(k.peer, peer, e);
    if inc.Some? {
      var (m, segment) := inc.value;
      SegmentOutcome(k.peer, peer, m, segment, e.nowAck, e.nowAdd);
      if (m.src, m.dst) == k.tx.pair {
        var t :| t in k.earlier && CutFrom(t, segment);
        CutIs(t, segment);
      }
      ParsedValid(k.peer, e);
      PastTable(k, peer.table, (m.src, m.dst), m.seq_, segment, e.nowAck, e.nowAdd);
    }
    KnownHandled(k, k.earlier, peer, e);
    if o.ack.Some? && o.ack.value.dst == k.here.localAddress {
      AckHasLast(k, k.earlier, peer, e);
    }
  }

  /**
   Whatever earlier transactions to that destination, delayed, repeated and reordered, have
   done to a peer since its first day, and whatever else has reached it, its slot is older than
   the transaction, and each acknowledgment it has scheduled for the sender is for one of them.
   */
  lemma {:induction false} HistoryIsPast(k: Link, peer: State, events: seq<Event>)
    requires ValidLink(k) && Older(k) && peer.table == map[]
    requires forall i :: 0 <= i < |events| ==> Authentic(k, k.earlier, events[i])
    ensures Past(k, PeerAfter(k, peer, events).0, PeerAfter(k, peer, events).1)
  {
    if |events| == 0 {
      assert R.PendingPairs(peer.table) == {};
      assert Known(k.earlier, R.EMPTY);
    } else {
      hide Past, Authentic, Handle, ValidLink, Older;
      HistoryIsPast(k, peer, events[..|events| - 1]);
      var (s, jobs) := PeerAfter(k, peer, events[..|events| - 1]);
      PastStep(k, s, jobs, events[|events| - 1]);
    }
  }

  lemma StartKeeps(k: Link, here: State, peer: State, jobs: set<AckJob>)
    requires ValidLink(k) && Past(k, peer, jobs)
    ensures var w := StartWorld(k, here, peer, jobs);
            PeerInv(k, w) && HereInv(k, w.here, w.held)
  {
    hide R.TableInv, X.Fresh, ValidContext, Bit, BitsWithin, Answers;
    var w := StartWorld(k, here, peer, jobs);
    assert Receiving(k.tx, R.SlotOf(w.peer.table, k.tx.pair), w.held, w.reassembled) by {
      var none: set<nat> := {};
      assert 0 !in none;
    }
    assert BitsWithin(0, {}) by {
      NoBits();
    }
  }

  lemma NoBits()
    ensures BitsWithin(0, {})
  {
    forall i ensures !Bit(0, i) {
      ShrZero(i);
    }
  }

  // ----- The transfer -----

  /**
   The transfer theorem. Over a network that loses, repeats, delays and reorders segments and
   acknowledgments, with the receiver's transaction expiring or being superseded at any moment,
   `_send_segmented` returns to a unicast node running this receiver only if that receiver
   reassembled exactly the upper transport PDU that was sent, provided whatever the
   sender has sent to that node under the same SeqZero before had more segments.
   */
  lemma ReturnedMeansReassembled(k: Link, here: State, peer: State, jobs: set<AckJob>, rounds: seq<seq<Arrival>>)
    requires ValidLink(k) && LongerBefore(k) && Older(k) && k.Dst() < 0x8000 && Past(k, peer, jobs)
    requires AllowedRounds(k, StartWorld(k, here, peer, jobs), rounds)
    requires forall round :: round in HereRounds(rounds) ==> Inbound(round)
    requires SendLoop(k.here, StartWorld(k, here, peer, jobs).here, k.SeqZero(), Missing(0, k.tx.Count()),
                      HereRounds(rounds)).1 == Returned
    ensures EndWorld(k, StartWorld(k, here, peer, jobs), rounds).reassembled
  {
    hide PeerInv, HereInv, AllowedRounds, EndWorld, SendLoop, StartWorld, Past, LongerBefore, Older, ValidLink;
    StartKeeps(k, here, peer, jobs);
    LoopKeeps(k, StartWorld(k, here, peer, jobs), Missing(0, k.tx.Count()), rounds);
  }

  /** The same from the peer's first day, after any history of earlier transactions. */
  lemma ReturnedAfterHistory(k: Link, here: State, first: State, events: seq<Event>, rounds: seq<seq<Arrival>>)
    requires ValidLink(k) && LongerBefore(k) && Older(k) && k.Dst() < 0x8000 && first.table == map[]
    requires forall i :: 0 <= i < |events| ==> Authentic(k, k.earlier, events[i])
    requires var (peer, jobs) := PeerAfter(k, first, events);
             var w := StartWorld(k, here, peer, jobs);
             && AllowedRounds(k, w, rounds) && (forall round :: round in HereRounds(rounds) ==> Inbound(round))
             && SendLoop(k.here, w.here, k.SeqZero(), Missing(0, k.tx.Count()), HereRounds(rounds)).1 == Returned
    ensures var (peer, jobs) := PeerAfter(k, first, events);
            EndWorld(k, StartWorld(k, here, peer, jobs), rounds).reassembled
  {
    hide AllowedRounds, EndWorld, SendLoop, StartWorld, Past, LongerBefore, Older, ValidLink, Older, Authentic, PeerAfter;
    HistoryIsPast(k, first, events);
    var (peer, jobs) := PeerAfter(k, first, events);
    ReturnedMeansReassembled(k, here, peer, jobs, rounds);
  }

  /**
   A run of the code from the peer's first day: a history of the sender's earlier transactions,
   then the attempts of this one, each with what arrives during it.
   */
  ghost predicate Attempted(k: Link, here: State, first: State, events: seq<Event>, rounds: seq<seq<Arrival>>)
  {
    && ValidLink(k) && first.table == map[] && |rounds| <= ATTEMPTS
    && (forall i :: 0 <= i < |events| ==> Authentic(k, k.earlier, events[i]))
    && (forall round :: round in HereRounds(rounds) ==> Inbound(round))
    && AllowedRounds(k, StartAfter(k, here, first, events), rounds)
  }

  /** The world in which `_send_segmented` registers the transaction after that history. */
  ghost function StartAfter(k: Link, here: State, first: State, events: seq<Event>): (w: World)
    requires ValidLink(k)
    ensures k.SeqZero() in w.here.pending
  {
    var (peer, jobs) := PeerAfter(k, first, events);
    StartWorld(k, here, peer, jobs)
  }

  /** Such a run returns, and the peer has not reassembled the message. */
  ghost predicate Deceived(k: Link, here: State, first: State, events: seq<Event>, rounds: seq<seq<Arrival>>)
  {
    && Attempted(k, here, first, events, rounds)
    && var w := StartAfter(k, here, first, events);
       && SendLoop(k.here, w.here, k.SeqZero(), Missing(0, k.tx.Count()), HereRounds(rounds)).1 == Returned
       && !EndWorld(k, w, rounds).reassembled
  }

  /**
   Whatever the run and its result, the indexes acknowledged at the end are ones the receiver's
   reassembler has taken since the transaction started, even if it has since expired or been
   superseded, and what the receiver then still has of it is exactly those.
   */
  lemma AcknowledgedWereHeld(k: Link, here: State, peer: State, jobs: set<AckJob>, rounds: seq<seq<Arrival>>)
    requires ValidLink(k) && LongerBefore(k) && Older(k) && k.Dst() < 0x8000 && Past(k, peer, jobs)
    requires AllowedRounds(k, StartWorld(k, here, peer, jobs), rounds)
    requires forall round :: round in HereRounds(rounds) ==> Inbound(round)
    ensures var w := EndWorld(k, StartWorld(k, here, peer, jobs), rounds);
            && k.SeqZero() in w.here.pending && BitsWithin(w.here.pending[k.SeqZero()].acknowledged, w.held)
            && Receiving(k.tx, R.SlotOf(w.peer.table, k.tx.pair), w.held, w.reassembled)
  {
    hide AllowedRounds, EndWorld, SendLoop, StartWorld, Past, Receiving, BitsWithin, LongerBefore, Older, ValidLink;
    StartKeeps(k, here, peer, jobs);
    LoopKeeps(k, StartWorld(k, here, peer, jobs), Missing(0, k.tx.Count()), rounds);
  }
}
