/**
 The segment reassembler of `network.py` (section 3.5.3.4 of Mesh Profile 1.0.1), seen one
 (source, destination) pair at a time: what each pair's slot holds and how one segment, one
 clock reading or one acknowledgment query changes it.
 */
module Reassembly {
  import opened Prelude
  import opened Bits
  import opened LowerTransport

  /** A `NetworkDecodeError` raised by `add`. */
  datatype Refusal =
    | DiscardedTransaction | StaleTransaction | CompletedMetadataChanged | MetadataChanged
    | PayloadChanged | PendingCapacity | TrackingCapacity

  /** One transaction being reassembled. */
  datatype Txn = Txn(seqAuth: nat, akf: nat, aid: nat, szmic: nat, segN: nat,
                     segments: map<nat, Bytes>, sequences: map<nat, nat>, updatedAt: real)

  /** The latest completed transaction, kept to answer repeated segments. */
  datatype Completed = Completed(seqAuth: nat, ackedSegments: nat, akf: nat, aid: nat, szmic: nat, segN: nat)

  /** Everything the reassembler remembers about one pair. */
  datatype Slot = Slot(pending: Option<Txn>, completed: Option<Completed>, discarded: Option<nat>)

  const EMPTY := Slot(None, None, None)

  type Pair = (nat, nat)

  datatype Limits = Limits(timeout: real, maxPending: nat, maxCompleted: nat)

  ghost predicate ValidLimits(l: Limits)
  {
    l.timeout > 0.0 && l.maxPending >= 1 && l.maxCompleted >= 1
  }

  datatype AddResult = AddResult(segment: AccessSegment, blockAck: nat, upper: Option<Bytes>,
                                 lastSegmentSeq: Option<nat>, alreadyComplete: bool)

  // ----- Block acknowledgments as sets of indexes -----

  /** Bits `k` to `n - 1` of a bitmap, shifted down to bit zero. */
  function BitsFrom(held: set<nat>, k: nat, n: nat): nat
    decreases n - k
  {
    if k >= n then 0 else (if k in held then 1 else 0) + 2 * BitsFrom(held, k + 1, n)
  }

  /** The bitmap with exactly the bits of `held` below `n` set. */
  function Bitmap(held: set<nat>, n: nat): nat
  {
    BitsFrom(held, 0, n)
  }

  lemma {:induction false} BitsFull(held: set<nat>, k: nat, n: nat)
    requires k <= n
    ensures BitsFrom(held, k, n) < Pow2(n - k)
    ensures BitsFrom(held, k, n) == Pow2(n - k) - 1 <==> forall i :: k <= i < n ==> i in held
    decreases n - k
  {
    if k < n {
      BitsFull(held, k + 1, n);
    }
  }

  /** The bitmap is full exactly when every index is held. */
  lemma BitmapFull(held: set<nat>, n: nat)
    ensures Bitmap(held, n) < Pow2(n)
    ensures Bitmap(held, n) == Pow2(n) - 1 <==> forall i :: 0 <= i < n ==> i in held
  {
    BitsFull(held, 0, n);
  }

  lemma {:induction false} BitsExtend(held: set<nat>, k: nat, m: nat, n: nat)
    requires m <= n && forall i :: i in held ==> i < m
    ensures BitsFrom(held, k, n) == BitsFrom(held, k, m)
    decreases n - k
  {
    if k < n {
      BitsExtend(held, k + 1, m, n);
    }
  }

  lemma BitmapExtend(held: set<nat>, n: nat, m: nat)
    requires m <= n && forall i :: i in held ==> i < m
    ensures Bitmap(held, n) == Bitmap(held, m)
  {
    BitsExtend(held, 0, m, n);
  }

  /** `bitmap |= 1 << i` adds index `i`. */
  lemma {:induction false} BitsSet(held: set<nat>, i: nat, k: nat, n: nat)
    requires k <= i < n
    ensures Or(BitsFrom(held, k, n), Shl(1, i - k)) == BitsFrom(held + {i}, k, n)
    decreases n - k
  {
    OrStep(BitsFrom(held, k, n), Shl(1, i - k));
    if k == i {
      BitsSame(held, i, k + 1, n);
      assert Or(BitsFrom(held, k + 1, n), 0) == BitsFrom(held, k + 1, n);
    } else {
      BitsSet(held, i, k + 1, n);
    }
  }

  lemma {:induction false} BitsSame(held: set<nat>, i: nat, k: nat, n: nat)
    requires i < k
    ensures BitsFrom(held + {i}, k, n) == BitsFrom(held, k, n)
    decreases n - k
  {
    if k < n {
      BitsSame(held, i, k + 1, n);
    }
  }

  // ----- One slot -----

  function DiscardedOr(slot: Slot): int
  {
    if slot.discarded.Some? then slot.discarded.value else -1
  }

  function Expired(txn: Txn, now: real, l: Limits): bool
  {
    txn.updatedAt <= now - l.timeout
  }

  /** What pruning at `now` leaves of a slot: an expired transaction becomes a discard mark. */
  function Prune(slot: Slot, now: real, l: Limits): Slot
  {
    if slot.pending.Some? && Expired(slot.pending.value, now, l) then
      var a := slot.pending.value.seqAuth;
      Slot(None,
           if slot.completed.Some? && slot.completed.value.seqAuth <= a then None else slot.completed,
           Some(Max(a, DiscardedOr(slot))))
    else slot
  }

  predicate SameMetadata(segment: AccessSegment, akf: nat, aid: nat, szmic: nat, segN: nat)
  {
    segment.akf == akf && segment.aid == aid && segment.szmic == szmic && segment.segN == segN
  }

  function NewTxn(segment: AccessSegment, now: real): Txn
  {
    Txn(segment.seqAuth, segment.akf, segment.aid, segment.szmic, segment.segN, map[], map[], now)
  }

  function Join(segments: map<nat, Bytes>, n: nat): Bytes
    requires forall i :: 0 <= i < n ==> i in segments
  {
    if n == 0 then [] else Join(segments, n - 1) + segments[n - 1]
  }

  /** Record one segment in its transaction. */
  function Record(txn: Txn, seq_: nat, segment: AccessSegment, now: real): Txn
  {
    var i := segment.segO;
    txn.(segments := txn.segments[i := segment.payload],
         sequences := txn.sequences[i := Max(seq_, if i in txn.sequences then txn.sequences[i] else seq_)],
         updatedAt := now)
  }

  ghost predicate Whole(txn: Txn)
  {
    forall i :: 0 <= i <= txn.segN ==> i in txn.segments
  }

  /** The transaction a segment joins: its own if pending, otherwise a new one. */
  function OpenTxn(slot: Slot, segment: AccessSegment, now: real): Txn
  {
    if slot.pending.Some? && slot.pending.value.seqAuth == segment.seqAuth then slot.pending.value
    else NewTxn(segment, now)
  }

  ghost function RecordInSlot(slot: Slot, txn: Txn, seq_: nat, segment: AccessSegment, now: real)
    : (Slot, Result<AddResult, Refusal>)
  {
    if !SameMetadata(segment, txn.akf, txn.aid, txn.szmic, txn.segN) then (slot, Err(MetadataChanged))
    else if segment.segO in txn.segments && txn.segments[segment.segO] != segment.payload then
      (slot, Err(PayloadChanged))
    else
      var txn' := Record(txn, seq_, segment, now);
      if !Whole(txn') then
        (slot.(pending := Some(txn')),
         Ok(AddResult(segment, Bitmap(txn'.segments.Keys, 32), None, None, false)))
      else if txn'.segN in txn'.sequences then
        var full := Pow2(segment.segN + 1) - 1;
        (Slot(None, Some(Completed(segment.seqAuth, full, segment.akf, segment.aid, segment.szmic, segment.segN)),
              None),
         Ok(AddResult(segment, full, Some(Join(txn'.segments, segment.segN + 1)),
                      Some(txn'.sequences[segment.segN]), false)))
      else (slot, Err(MetadataChanged))
  }

  /**
   One validated segment against its pruned slot. `room` is why a new transaction for an
   idle pair would be refused, if it would.
   */
  ghost function AddToSlot(slot: Slot, seq_: nat, segment: AccessSegment, now: real, room: Option<Refusal>)
    : (Slot, Result<AddResult, Refusal>)
  {
    if segment.seqAuth <= DiscardedOr(slot) then (slot, Err(DiscardedTransaction))
    else if slot.completed.Some? && segment.seqAuth < slot.completed.value.seqAuth then
      (slot, Err(StaleTransaction))
    else if slot.completed.Some? && segment.seqAuth == slot.completed.value.seqAuth then
      var c := slot.completed.value;
      if !SameMetadata(segment, c.akf, c.aid, c.szmic, c.segN) then (slot, Err(CompletedMetadataChanged))
      else (slot, Ok(AddResult(segment, c.ackedSegments, None, None, true)))
    else if slot.pending.Some? && slot.pending.value.seqAuth > segment.seqAuth then (slot, Err(StaleTransaction))
    else if slot.pending.None? && room.Some? then (slot, Err(room.value))
    else RecordInSlot(slot, OpenTxn(slot, segment, now), seq_, segment, now)
  }

  /** `completed_ack`: the bitmap to repeat for a segment of the latest completed transaction. */
  function AckFromSlot(slot: Slot, seqAuth: nat): Option<nat>
  {
    if DiscardedOr(slot) >= seqAuth || slot.completed.None? || slot.completed.value.seqAuth != seqAuth then None
    else Some(slot.completed.value.ackedSegments)
  }

  /** What every slot satisfies: the pending transaction is newer than every mark, and incomplete. */
  ghost predicate TxnInv(txn: Txn)
  {
    && txn.segN < 32 && txn.segments.Keys == txn.sequences.Keys && !Whole(txn)
    && (forall i :: i in txn.segments ==> i <= txn.segN && 1 <= |txn.segments[i]| <= SEGMENT_PAYLOAD_SIZE)
    && forall i :: i in txn.segments && i < txn.segN ==> |txn.segments[i]| == SEGMENT_PAYLOAD_SIZE
  }

  ghost predicate SlotInv(slot: Slot)
  {
    && (slot.pending.Some? ==>
          TxnInv(slot.pending.value)
          && slot.pending.value.segments != map[]
          && slot.pending.value.seqAuth > DiscardedOr(slot)
          && (slot.completed.Some? ==> slot.pending.value.seqAuth > slot.completed.value.seqAuth))
    && (slot.completed.Some? ==>
          slot.completed.value.segN < 32
          && slot.completed.value.ackedSegments == Pow2(slot.completed.value.segN + 1) - 1
          && slot.completed.value.seqAuth > DiscardedOr(slot))
  }

  lemma PruneKeepsInv(slot: Slot, now: real, l: Limits)
    requires SlotInv(slot)
    ensures SlotInv(Prune(slot, now, l)) && (Prune(slot, now, l) == EMPTY <==> slot == EMPTY)
  {
  }

  lemma RecordKeepsInv(txn: Txn, seq_: nat, segment: AccessSegment, now: real)
    requires TxnInv(txn) && Validated(segment) && segment.segN == txn.segN
    ensures var t := Record(txn, seq_, segment, now);
            (!Whole(t) ==> TxnInv(t)) && t.segments != map[] && t.segments.Keys == t.sequences.Keys
            && t.segN == txn.segN && (Whole(t) ==> t.segN in t.sequences)
  {
    var t := Record(txn, seq_, segment, now);
    assert segment.segO in t.segments;
    if Whole(t) {
      assert t.segN in t.segments;
    }
  }

  lemma NewTxnInv(segment: AccessSegment, now: real)
    requires Validated(segment)
    ensures TxnInv(NewTxn(segment, now))
  {
    assert 0 !in NewTxn(segment, now).segments;
  }

  /** A call that does not refuse leaves something; a refusal, or a full table, leaves the slot alone. */
  lemma AddKeepsInv(slot: Slot, seq_: nat, segment: AccessSegment, now: real, room: Option<Refusal>)
    requires SlotInv(slot) && Validated(segment)
    ensures var (after, r) := AddToSlot(slot, seq_, segment, now, room);
            SlotInv(after) && (r.Ok? ==> after != EMPTY) && (r.Err? ==> after == slot)
            && (slot.pending.None? && room.Some? ==> after == slot)
  {
    hide Record, TxnInv, Whole, Join, Bitmap;
    NewTxnInv(segment, now);
    var txn := OpenTxn(slot, segment, now);
    if segment.segN == txn.segN {
      RecordKeepsInv(txn, seq_, segment, now);
      RecordSame(txn, seq_, segment, now);
    }
  }

  lemma RecordSame(txn: Txn, seq_: nat, segment: AccessSegment, now: real)
    ensures Record(txn, seq_, segment, now).seqAuth == txn.seqAuth
  {
  }

  /** A segment of a transaction newer than the pending one always starts its own. */
  lemma SupersedeSlot(slot: Slot, seq_: nat, segment: AccessSegment, now: real, room: Option<Refusal>)
    requires SlotInv(slot) && Validated(segment)
    requires slot.pending.Some? && segment.seqAuth > slot.pending.value.seqAuth
    ensures AddToSlot(slot, seq_, segment, now, room).1.Ok?
    ensures !AddToSlot(slot, seq_, segment, now, room).1.value.alreadyComplete
  {
    NewTxnInv(segment, now);
    RecordKeepsInv(NewTxn(segment, now), seq_, segment, now);
    hide Record, TxnInv, Whole, Join, Bitmap;
  }

  /** The newest SeqAuth a slot has finished with, one way or the other. */
  function Mark(slot: Slot): int
  {
    Max(DiscardedOr(slot), if slot.completed.Some? then slot.completed.value.seqAuth else -1)
  }

  /** A returned upper PDU is newer than the mark, and becomes it; the mark never recedes. */
  lemma AddRaisesMark(slot: Slot, seq_: nat, segment: AccessSegment, now: real, room: Option<Refusal>)
    requires SlotInv(slot)
    ensures var (after, r) := AddToSlot(slot, seq_, segment, now, room);
            Mark(after) >= Mark(slot)
            && (r.Ok? && r.value.upper.Some? ==> Mark(slot) < segment.seqAuth && Mark(after) == segment.seqAuth)
  {
  }

  lemma PruneRaisesMark(slot: Slot, now: real, l: Limits)
    requires SlotInv(slot)
    ensures Mark(Prune(slot, now, l)) >= Mark(slot)
  {
  }

  // ----- The whole table -----

  /** Every tracked pair's slot; a pair with nothing to remember is absent. */
  type Table = map<Pair, Slot>

  function SlotOf(t: Table, p: Pair): Slot
  {
    if p in t then t[p] else EMPTY
  }

  function PruneTable(t: Table, now: real, l: Limits): (r: Table)
  {
    map p | p in t :: Prune(t[p], now, l)
  }

  function PendingPairs(t: Table): set<Pair>
  {
    set p | p in t && t[p].pending.Some?
  }

  /** Why the pruned table refuses a transaction for a pair that has none pending. */
  function Room(t: Table, p: Pair, l: Limits): Option<Refusal>
  {
    if |PendingPairs(t)| >= l.maxPending then Some(PendingCapacity)
    else if p !in t && |t| >= l.maxCompleted then Some(TrackingCapacity)
    else None
  }

  ghost function Add(t: Table, p: Pair, seq_: nat, segment: AccessSegment, now: real, l: Limits)
    : (Table, Result<AddResult, Refusal>)
  {
    var pruned := PruneTable(t, now, l);
    var (slot, r) := AddToSlot(SlotOf(pruned, p), seq_, segment, now, Room(pruned, p, l));
    (if r.Ok? then pruned[p := slot] else pruned, r)
  }

  ghost predicate TableInv(t: Table, l: Limits)
  {
    && (forall p :: p in t ==> SlotInv(t[p]) && t[p] != EMPTY)
    && |PendingPairs(t)| <= l.maxPending && |t| <= l.maxCompleted
  }

  lemma SubsetSize<T>(a: set<T>, b: set<T>)
    requires a <= b
    ensures |a| <= |b|
  {
    assert b == a + (b - a);
  }

  lemma PruneTableInv(t: Table, now: real, l: Limits)
    requires TableInv(t, l)
    ensures TableInv(PruneTable(t, now, l), l) && PruneTable(t, now, l).Keys == t.Keys
  {
    var r := PruneTable(t, now, l);
    forall p | p in r ensures SlotInv(r[p]) && r[p] != EMPTY {
      PruneKeepsInv(t[p], now, l);
    }
    SubsetSize(PendingPairs(r), PendingPairs(t));
    assert r.Keys == t.Keys;
    assert |r| == |r.Keys| && |t| == |t.Keys|;
  }

  /**
   Every call keeps the table within its limits, at most one pending transaction per pair,
   newer than all the pair's marks and never whole; a refusal changes nothing but what
   pruning did.
   */
  lemma AddTableInv(t: Table, p: Pair, seq_: nat, segment: AccessSegment, now: real, l: Limits)
    requires TableInv(t, l) && Validated(segment)
    ensures TableInv(Add(t, p, seq_, segment, now, l).0, l)
    ensures Add(t, p, seq_, segment, now, l).1.Err? ==> Add(t, p, seq_, segment, now, l).0 == PruneTable(t, now, l)
  {
    hide AddToSlot, SlotInv, Prune;
    PruneTableInv(t, now, l);
    var pruned := PruneTable(t, now, l);
    var before := SlotOf(pruned, p);
    EmptyInv();
    var (after, r) := AddToSlot(before, seq_, segment, now, Room(pruned, p, l));
    AddKeepsInv(before, seq_, segment, now, Room(pruned, p, l));
    if r.Ok? {
      PutSize(pruned, p, after);
    }
  }

  lemma EmptyInv()
    ensures SlotInv(EMPTY)
  {
  }

  /** Storing one slot adds at most its own pair to either count. */
  lemma PutSize(t: Table, p: Pair, slot: Slot)
    ensures |t[p := slot]| == if p in t then |t| else |t| + 1
    ensures SlotOf(t, p).pending.Some? || slot.pending.None? ==>
      |PendingPairs(t[p := slot])| <= |PendingPairs(t)|
    ensures |PendingPairs(t[p := slot])| <= |PendingPairs(t)| + 1
  {
    var t' := t[p := slot];
    assert t'.Keys == t.Keys + {p};
    assert |t'| == |t'.Keys| && |t| == |t.Keys|;
    var pending := PendingPairs(t);
    assert PendingPairs(t') <= pending + {p};
    SubsetSize(PendingPairs(t'), pending + {p});
    if SlotOf(t, p).pending.Some? {
      assert p in pending && pending + {p} == pending;
    } else if slot.pending.None? {
      assert PendingPairs(t') <= pending;
      SubsetSize(PendingPairs(t'), pending);
    }
  }

  /** A newer transaction on a pair that already has one is never refused for capacity. */
  lemma SupersedeNeverRefused(t: Table, p: Pair, seq_: nat, segment: AccessSegment, now: real, l: Limits)
    requires TableInv(t, l) && Validated(segment)
    requires p in PruneTable(t, now, l) && PruneTable(t, now, l)[p].pending.Some?
    requires segment.seqAuth > PruneTable(t, now, l)[p].pending.value.seqAuth
    ensures Add(t, p, seq_, segment, now, l).1.Ok?
    ensures !Add(t, p, seq_, segment, now, l).1.value.alreadyComplete
  {
    PruneTableInv(t, now, l);
    var pruned := PruneTable(t, now, l);
    SupersedeSlot(pruned[p], seq_, segment, now, Room(pruned, p, l));
  }

  // ----- Runs -----

  datatype Call =
    | AddCall(pair: Pair, seq_: nat, segment: AccessSegment, now: real)
    | AckCall(pair: Pair, seqAuth: nat, now: real)

  ghost predicate ValidCall(c: Call)
  {
    c.AddCall? ==> Validated(c.segment)
  }

  ghost function Do(t: Table, c: Call, l: Limits): Table
  {
    match c
    case AddCall(p, seq_, segment, now) => Add(t, p, seq_, segment, now, l).0
    case AckCall(_, _, now) => PruneTable(t, now, l)
  }

  ghost function After(t: Table, calls: seq<Call>, l: Limits): Table
  {
    if |calls| == 0 then t else Do(After(t, calls[..|calls| - 1], l), calls[|calls| - 1], l)
  }

  datatype Delivery = Delivery(pair: Pair, seqAuth: nat, upper: Bytes)

  /** The upper PDU one call returns, if it returns one. */
  ghost function Delivered(t: Table, c: Call, l: Limits): Option<Delivery>
  {
    if c.AddCall? then
      var r := Add(t, c.pair, c.seq_, c.segment, c.now, l).1;
      if r.Ok? && r.value.upper.Some? then Some(Delivery(c.pair, c.segment.seqAuth, r.value.upper.value)) else None
    else None
  }

  ghost function Deliveries(t: Table, calls: seq<Call>, l: Limits): seq<Delivery>
  {
    if |calls| == 0 then []
    else
      var before := calls[..|calls| - 1];
      var last := Delivered(After(t, before, l), calls[|calls| - 1], l);
      Deliveries(t, before, l) + (if last.Some? then [last.value] else [])
  }

  lemma {:induction false} RunInv(t: Table, calls: seq<Call>, l: Limits)
    requires TableInv(t, l) && forall i :: 0 <= i < |calls| ==> ValidCall(calls[i])
    ensures TableInv(After(t, calls, l), l)
  {
    if |calls| > 0 {
      var before, last := calls[..|calls| - 1], calls[|calls| - 1];
      RunInv(t, before, l);
      var t' := After(t, before, l);
      if last.AddCall? {
        AddTableInv(t', last.pair, last.seq_, last.segment, last.now, l);
      } else {
        PruneTableInv(t', last.now, l);
      }
    }
  }

  lemma DoRaisesMark(t: Table, c: Call, l: Limits, p: Pair)
    requires TableInv(t, l) && ValidCall(c)
    ensures Mark(SlotOf(Do(t, c, l), p)) >= Mark(SlotOf(t, p))
    ensures Delivered(t, c, l).Some? && c.pair == p ==>
      Mark(SlotOf(t, p)) < c.segment.seqAuth == Mark(SlotOf(Do(t, c, l), p))
  {
    var pruned := PruneTable(t, c.now, l);
    if p in t {
      PruneRaisesMark(t[p], c.now, l);
      PruneKeepsInv(t[p], c.now, l);
    }
    assert Mark(SlotOf(pruned, p)) >= Mark(SlotOf(t, p));
    if c.AddCall? && c.pair == p {
      AddRaisesMark(SlotOf(pruned, p), c.seq_, c.segment, c.now, Room(pruned, p, l));
    }
  }

  /** Whatever a run delivered for a pair is at or below the pair's mark. */
  lemma {:induction false} DeliveriesMarked(t: Table, calls: seq<Call>, l: Limits, p: Pair)
    requires TableInv(t, l) && forall i :: 0 <= i < |calls| ==> ValidCall(calls[i])
    ensures forall d :: d in Deliveries(t, calls, l) && d.pair == p ==>
      Mark(SlotOf(t, p)) < d.seqAuth <= Mark(SlotOf(After(t, calls, l), p))
    ensures Mark(SlotOf(t, p)) <= Mark(SlotOf(After(t, calls, l), p))
  {
    if |calls| > 0 {
      var before := calls[..|calls| - 1];
      DeliveriesMarked(t, before, l, p);
      RunInv(t, before, l);
      DoRaisesMark(After(t, before, l), calls[|calls| - 1], l, p);
    }
  }

  ghost predicate IncreasingPerPair(ds: seq<Delivery>)
  {
    forall i, j :: 0 <= i < j < |ds| && ds[i].pair == ds[j].pair ==> ds[i].seqAuth < ds[j].seqAuth
  }

  /**
   At-most-once reassembly: over any calls with any clock readings, the SeqAuth values
   delivered for each pair strictly increase, so a completed, expired or superseded
   transaction never delivers again.
   */
  lemma {:induction false} AtMostOnce(t: Table, calls: seq<Call>, l: Limits)
    requires TableInv(t, l) && forall i :: 0 <= i < |calls| ==> ValidCall(calls[i])
    ensures IncreasingPerPair(Deliveries(t, calls, l))
  {
    if |calls| > 0 {
      var before, last := calls[..|calls| - 1], calls[|calls| - 1];
      AtMostOnce(t, before, l);
      RunInv(t, before, l);
      var ds := Deliveries(t, before, l);
      if Delivered(After(t, before, l), last, l).Some? {
        DeliveriesMarked(t, before, l, last.pair);
        DoRaisesMark(After(t, before, l), last, l, last.pair);
        forall i | 0 <= i < |ds| && ds[i].pair == last.pair ensures ds[i].seqAuth < last.segment.seqAuth {
          assert ds[i] in ds;
        }
      }
    }
  }
}
