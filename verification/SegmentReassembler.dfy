/**
 `SegmentReassembler` itself: three dictionaries, pruned and searched by loops, refining the
 per-pair table of module `Reassembly`.
 */
module SegmentReassembler {
  import opened Prelude
  import opened Bits
  import opened LowerTransport
  import opened Reassembly

  /** The key of a pending record: source, destination, SeqAuth. */
  datatype Key = Key(src: nat, dst: nat, seqAuth: nat) {
    function Pair(): Reassembly.Pair { (src, dst) }
  }

  datatype PendingSegments = PendingSegments(akf: nat, aid: nat, szmic: nat, segN: nat, segments: map<nat, Bytes>,
                                             sequences: map<nat, nat>, updatedAt: real)

  type PendingMap = map<Key, PendingSegments>

  datatype Store = Store(pending: PendingMap, completed: map<Reassembly.Pair, Completed>,
                         discarded: map<Reassembly.Pair, nat>)

  // ----- The dictionaries as a table of slots -----

  ghost predicate OnePerPair(pending: PendingMap)
  {
    forall j, k :: j in pending && k in pending && j.Pair() == k.Pair() ==> j == k
  }

  function TxnOf(k: Key, r: PendingSegments): Txn
  {
    Txn(k.seqAuth, r.akf, r.aid, r.szmic, r.segN, r.segments, r.sequences, r.updatedAt)
  }

  ghost function Of(pending: PendingMap, p: Reassembly.Pair): PendingMap
  {
    map k | k in pending && k.Pair() == p :: pending[k]
  }

  ghost function Only(records: PendingMap): Option<Txn>
  {
    if records == map[] then None
    else
      var k :| k in records;
      Some(TxnOf(k, records[k]))
  }

  ghost function SlotAt(s: Store, p: Reassembly.Pair): Slot
  {
    Slot(Only(Of(s.pending, p)),
         if p in s.completed then Some(s.completed[p]) else None,
         if p in s.discarded then Some(s.discarded[p]) else None)
  }

  function PairsOf(pending: PendingMap): set<Reassembly.Pair>
  {
    set k | k in pending :: k.Pair()
  }

  function Tracked(s: Store): set<Reassembly.Pair>
  {
    s.completed.Keys + s.discarded.Keys + PairsOf(s.pending)
  }

  ghost function TableOf(s: Store): Table
  {
    map p | p in Tracked(s) :: SlotAt(s, p)
  }

  lemma PendingOf(pending: PendingMap, k: Key)
    requires OnePerPair(pending) && k in pending
    ensures Only(Of(pending, k.Pair())) == Some(TxnOf(k, pending[k]))
  {
    var records := Of(pending, k.Pair());
    assert k in records;
    assert forall j :: j in records ==> j == k;
  }

  lemma NoPendingOf(pending: PendingMap, p: Reassembly.Pair)
    requires forall k :: k in pending ==> k.Pair() != p
    ensures Only(Of(pending, p)) == None
  {
    assert forall k :: k !in Of(pending, p);
  }

  lemma TrackedSlot(s: Store, p: Reassembly.Pair)
    ensures p in Tracked(s) <==> SlotAt(s, p) != EMPTY
    ensures SlotOf(TableOf(s), p) == SlotAt(s, p)
  {
    if p in PairsOf(s.pending) {
      var k :| k in s.pending && k.Pair() == p;
      assert k in Of(s.pending, p);
    } else {
      NoPendingOf(s.pending, p);
    }
  }

  lemma PendingSlot(s: Store, p: Reassembly.Pair)
    requires OnePerPair(s.pending)
    ensures SlotAt(s, p).pending.Some? <==> p in PairsOf(s.pending)
  {
    if p in PairsOf(s.pending) {
      var k :| k in s.pending && k.Pair() == p;
      PendingOf(s.pending, k);
    } else {
      NoPendingOf(s.pending, p);
    }
  }

  lemma PendingPairsAre(s: Store)
    requires OnePerPair(s.pending)
    ensures PendingPairs(TableOf(s)) == PairsOf(s.pending)
  {
    hide SlotAt;
    forall p ensures p in PendingPairs(TableOf(s)) <==> p in PairsOf(s.pending) {
      PendingSlot(s, p);
    }
  }

  /** As many pending records as pairs with one. */
  lemma PendingCount(s: Store)
    requires OnePerPair(s.pending)
    ensures PendingPairs(TableOf(s)) == PairsOf(s.pending) && |PendingPairs(TableOf(s))| == |s.pending|
  {
    PendingPairsAre(s);
    SameCount(s.pending, s.pending.Keys);
    assert PairsOf(s.pending) == set k | k in s.pending.Keys :: k.Pair();
    assert |s.pending| == |s.pending.Keys|;
  }

  lemma {:induction false} SameCount(pending: PendingMap, keys: set<Key>)
    requires OnePerPair(pending) && keys <= pending.Keys
    ensures |set k | k in keys :: k.Pair()| == |keys|
  {
    if keys != {} {
      var k :| k in keys;
      SameCount(pending, keys - {k});
      var rest := set j | j in keys - {k} :: j.Pair();
      assert (set j | j in keys :: j.Pair()) == rest + {k.Pair()};
      assert k.Pair() !in rest;
    }
  }

  /** Tables agree when every pair's slot does. */
  lemma TableDetermined(s: Store, t: Table)
    requires forall p :: SlotAt(s, p) == SlotOf(t, p)
    requires forall p :: p in t ==> t[p] != EMPTY
    ensures TableOf(s) == t
  {
    forall p ensures p in Tracked(s) <==> p in t {
      TrackedSlot(s, p);
    }
  }

  // ----- Pruning one record -----

  function Discard(s: Store, k: Key): Store
    requires k in s.pending
  {
    var p := k.Pair();
    var mark := if p in s.discarded then Max(k.seqAuth, s.discarded[p]) else k.seqAuth;
    Store(s.pending - {k},
          if p in s.completed && s.completed[p].seqAuth <= k.seqAuth then s.completed - {p} else s.completed,
          s.discarded[p := mark])
  }

  lemma DiscardSlot(s: Store, k: Key, p: Reassembly.Pair, now: real, l: Limits)
    requires OnePerPair(s.pending) && k in s.pending && s.pending[k].updatedAt <= now - l.timeout
    ensures SlotAt(Discard(s, k), p) == if p == k.Pair() then Prune(SlotAt(s, p), now, l) else SlotAt(s, p)
    ensures OnePerPair(Discard(s, k).pending)
  {
    var s' := Discard(s, k);
    if p == k.Pair() {
      PendingOf(s.pending, k);
      NoPendingOf(s'.pending, p);
    } else {
      assert Of(s'.pending, p) == Of(s.pending, p);
    }
  }

  lemma KeepSlot(s: Store, k: Key, now: real, l: Limits)
    requires OnePerPair(s.pending) && k in s.pending && !(s.pending[k].updatedAt <= now - l.timeout)
    ensures Prune(SlotAt(s, k.Pair()), now, l) == SlotAt(s, k.Pair())
  {
    PendingOf(s.pending, k);
  }

  /** Every pair with a visited key has been pruned, and only those. */
  ghost predicate PrunedSoFar(before: Store, s: Store, visited: set<Key>, now: real, l: Limits)
  {
    forall p :: SlotAt(s, p) == if p in (set k | k in visited :: k.Pair()) then Prune(SlotAt(before, p), now, l)
                                else SlotAt(before, p)
  }

  lemma VisitKey(before: Store, s: Store, s': Store, visited: set<Key>, k: Key, now: real, l: Limits)
    requires OnePerPair(before.pending) && OnePerPair(s.pending) && visited <= before.pending.Keys
    requires k in before.pending && k !in visited && k in s.pending && s.pending[k] == before.pending[k]
    requires PrunedSoFar(before, s, visited, now, l)
    requires s' == if s.pending[k].updatedAt <= now - l.timeout then Discard(s, k) else s
    ensures PrunedSoFar(before, s', visited + {k}, now, l) && OnePerPair(s'.pending)
  {
    var pairs := set j | j in visited :: j.Pair();
    assert (set j | j in visited + {k} :: j.Pair()) == pairs + {k.Pair()};
    assert k.Pair() !in pairs;
    if s.pending[k].updatedAt <= now - l.timeout {
      forall p ensures SlotAt(s', p) == if p == k.Pair() then Prune(SlotAt(s, p), now, l) else SlotAt(s, p) {
        DiscardSlot(s, k, p, now, l);
      }
      DiscardSlot(s, k, k.Pair(), now, l);
    } else {
      KeepSlot(s, k, now, l);
    }
  }

  lemma AllVisited(before: Store, s: Store, now: real, l: Limits)
    requires OnePerPair(before.pending) && PrunedSoFar(before, s, before.pending.Keys, now, l)
    ensures TableOf(s) == PruneTable(TableOf(before), now, l)
  {
    var t := PruneTable(TableOf(before), now, l);
    forall p ensures SlotAt(s, p) == SlotOf(t, p) {
      TrackedSlot(before, p);
      if p !in PairsOf(before.pending) {
        NoPendingOf(before.pending, p);
        assert p !in (set k | k in before.pending.Keys :: k.Pair());
      }
    }
    forall p | p in t ensures t[p] != EMPTY {
      TrackedSlot(before, p);
    }
    TableDetermined(s, t);
  }

  // ----- Superseding and storing -----

  /** The records left once the pair's own are dropped. */
  ghost function Without(pending: PendingMap, p: Reassembly.Pair): PendingMap
  {
    map k | k in pending && k.Pair() != p :: pending[k]
  }

  lemma WithoutSlot(s: Store, p: Reassembly.Pair, q: Reassembly.Pair)
    ensures SlotAt(s.(pending := Without(s.pending, p)), q) ==
            if q == p then SlotAt(s, q).(pending := None) else SlotAt(s, q)
  {
    var s' := s.(pending := Without(s.pending, p));
    if q == p {
      NoPendingOf(s'.pending, q);
    } else {
      assert Of(s'.pending, q) == Of(s.pending, q);
    }
  }

  /** Storing a record under a pair that has no other. */
  lemma StoreSlot(s: Store, k: Key, r: PendingSegments, q: Reassembly.Pair)
    requires forall j :: j in s.pending && j.Pair() == k.Pair() ==> j == k
    ensures var s' := s.(pending := s.pending[k := r]);
            SlotAt(s', q) == (if q == k.Pair() then SlotAt(s, q).(pending := Some(TxnOf(k, r))) else SlotAt(s, q))
    ensures OnePerPair(s.pending) ==> OnePerPair(s.pending[k := r])
  {
    var s' := s.(pending := s.pending[k := r]);
    if q == k.Pair() {
      var records := Of(s'.pending, q);
      assert k in records;
      assert forall j :: j in records ==> j == k;
    } else {
      assert Of(s'.pending, q) == Of(s.pending, q);
    }
  }

  /** Completing a pair's transaction: its record and discard mark go, its completion stays. */
  lemma CompleteSlot(s: Store, k: Key, c: Completed, q: Reassembly.Pair)
    requires forall j :: j in s.pending && j.Pair() == k.Pair() ==> j == k
    ensures var s' := Store(s.pending - {k}, s.completed[k.Pair() := c], s.discarded - {k.Pair()});
            SlotAt(s', q) == (if q == k.Pair() then Slot(None, Some(c), None) else SlotAt(s, q))
    ensures OnePerPair(s.pending) ==> OnePerPair(s.pending - {k})
  {
    var s' := Store(s.pending - {k}, s.completed[k.Pair() := c], s.discarded - {k.Pair()});
    if q == k.Pair() {
      NoPendingOf(s'.pending, q);
    } else {
      assert Of(s'.pending, q) == Of(s.pending, q);
    }
  }

  /** The `PendingSegments` fields of a transaction. */
  function RecordOf(t: Txn): PendingSegments
  {
    PendingSegments(t.akf, t.aid, t.szmic, t.segN, t.segments, t.sequences, t.updatedAt)
  }

  lemma PutTable(s: Store, t: Table, p: Reassembly.Pair, slot: Slot)
    requires slot != EMPTY && SlotAt(s, p) == slot
    requires forall q :: q != p ==> SlotAt(s, q) == SlotOf(t, q)
    requires forall q :: q in t ==> t[q] != EMPTY
    ensures TableOf(s) == t[p := slot]
  {
    TableDetermined(s, t[p := slot]);
  }

  /** What the slot decides before a segment is recorded: the refusals of the opening half of `add`. */
  function OpenRefusal(slot: Slot, segment: AccessSegment, now: real, room: Option<Refusal>): Option<Refusal>
  {
    if slot.pending.Some? && slot.pending.value.seqAuth > segment.seqAuth then Some(StaleTransaction)
    else if slot.pending.None? && room.Some? then room
    else
      var txn := OpenTxn(slot, segment, now);
      if !SameMetadata(segment, txn.akf, txn.aid, txn.szmic, txn.segN) then Some(MetadataChanged) else None
  }

  /** The dictionary once a segment's record is found or opened: its pair has that record alone. */
  ghost predicate Opened(before: Store, pending: PendingMap, k: Key, segment: AccessSegment, now: real)
  {
    && k in pending && (forall j :: j in pending && j.Pair() == k.Pair() ==> j == k)
    && TxnOf(k, pending[k]) == OpenTxn(SlotAt(before, k.Pair()), segment, now)
    && pending - {k} == (if k in before.pending then before.pending else Without(before.pending, k.Pair())) - {k}
  }

  /** The record a pair has, and the one a segment of another transaction finds. */
  lemma PairRecord(s: Store, k: Key)
    requires OnePerPair(s.pending)
    ensures k in s.pending <==> SlotAt(s, k.Pair()).pending.Some?
                                && SlotAt(s, k.Pair()).pending.value.seqAuth == k.seqAuth
    ensures k in s.pending ==> SlotAt(s, k.Pair()).pending == Some(TxnOf(k, s.pending[k]))
    ensures (exists j :: j in s.pending && j.Pair() == k.Pair() && j.seqAuth > k.seqAuth)
            <==> SlotAt(s, k.Pair()).pending.Some? && SlotAt(s, k.Pair()).pending.value.seqAuth > k.seqAuth
  {
    var p := k.Pair();
    if p in PairsOf(s.pending) {
      var j :| j in s.pending && j.Pair() == p;
      PendingOf(s.pending, j);
      if j.seqAuth == k.seqAuth {
        assert j == k;
      }
    } else {
      NoPendingOf(s.pending, p);
    }
  }

  lemma OpenedFound(before: Store, k: Key, segment: AccessSegment, now: real)
    requires OnePerPair(before.pending) && k in before.pending && k.seqAuth == segment.seqAuth
    ensures Opened(before, before.pending, k, segment, now)
  {
    PairRecord(before, k);
    hide SlotAt;
  }

  lemma OpenedNew(before: Store, k: Key, segment: AccessSegment, now: real)
    requires OnePerPair(before.pending) && k !in before.pending && k.seqAuth == segment.seqAuth
    ensures Opened(before, Without(before.pending, k.Pair())[k := RecordOf(NewTxn(segment, now))], k, segment, now)
  {
    PairRecord(before, k);
    hide SlotAt;
    var kept := Without(before.pending, k.Pair());
    assert k !in kept;
    assert kept[k := RecordOf(NewTxn(segment, now))] - {k} == kept - {k};
  }

  lemma NotDropped(before: Store, p: Reassembly.Pair)
    requires OnePerPair(before.pending) && SlotAt(before, p).pending.None?
    ensures Without(before.pending, p) == before.pending
  {
    PendingSlot(before, p);
    NothingDropped(before, p);
  }

  ghost predicate PastReplay(slot: Slot, seqAuth: nat)
  {
    DiscardedOr(slot) < seqAuth && (slot.completed.Some? ==> slot.completed.value.seqAuth < seqAuth)
  }

  /** What `add` answers when its replay checks stop it. */
  lemma AddAfterReplay(slot: Slot, seq_: nat, segment: AccessSegment, now: real, room: Option<Refusal>)
    ensures var (after, r) := AddToSlot(slot, seq_, segment, now, room);
            if segment.seqAuth <= DiscardedOr(slot) then (after, r) == (slot, Err(DiscardedTransaction))
            else if slot.completed.None? || segment.seqAuth > slot.completed.value.seqAuth then
              PastReplay(slot, segment.seqAuth)
            else if segment.seqAuth < slot.completed.value.seqAuth then (after, r) == (slot, Err(StaleTransaction))
            else
              var c := slot.completed.value;
              after == slot
              && r == if SameMetadata(segment, c.akf, c.aid, c.szmic, c.segN)
                      then Ok(AddResult(segment, c.ackedSegments, None, None, true))
                      else Err(CompletedMetadataChanged)
  {
    hide RecordInSlot;
  }

  lemma SlotMarks(s: Store, p: Reassembly.Pair)
    ensures SlotAt(s, p).completed == if p in s.completed then Some(s.completed[p]) else None
    ensures SlotAt(s, p).discarded == if p in s.discarded then Some(s.discarded[p]) else None
    ensures p in s.completed ==> TableOf(s) == TableOf(s)[p := SlotAt(s, p)]
  {
    if p in s.completed {
      TrackedSlot(s, p);
      assert p in Tracked(s);
    }
  }

  lemma OpenedKnown(s: Store, p: Reassembly.Pair, segment: AccessSegment, now: real, room: Option<Refusal>)
    requires forall q :: q in TableOf(s) ==> SlotInv(TableOf(s)[q])
    ensures SlotInv(SlotAt(s, p))
    ensures OpenRefusal(SlotAt(s, p), segment, now, room).None? ==>
              var txn := OpenTxn(SlotAt(s, p), segment, now);
              SameMetadata(segment, txn.akf, txn.aid, txn.szmic, txn.segN)
  {
    TrackedSlot(s, p);
    EmptyInv();
  }

  /** Past its replay checks, `add` opens a record and then records the segment in it. */
  lemma AddInHalves(slot: Slot, seq_: nat, segment: AccessSegment, now: real, room: Option<Refusal>)
    requires PastReplay(slot, segment.seqAuth)
    ensures var why := OpenRefusal(slot, segment, now, room);
            AddToSlot(slot, seq_, segment, now, room)
            == if why.Some? then (slot, Err(why.value))
               else RecordInSlot(slot, OpenTxn(slot, segment, now), seq_, segment, now)
  {
    hide Record, Whole, Join, Bitmap;
  }

  lemma OpenedBase(before: Store, pending: PendingMap, k: Key, segment: AccessSegment, now: real,
                   r: PendingSegments) returns (s: Store)
    requires OnePerPair(before.pending) && Opened(before, pending, k, segment, now)
    ensures s.completed == before.completed && s.discarded == before.discarded && OnePerPair(s.pending)
    ensures s.pending == before.pending || s.pending == Without(before.pending, k.Pair())
    ensures forall j :: j in s.pending && j.Pair() == k.Pair() ==> j == k
    ensures s.pending - {k} == pending - {k} && s.pending[k := r] == pending[k := r]
  {
    hide SlotAt;
    s := before.(pending := if k in before.pending then before.pending else Without(before.pending, k.Pair()));
    assert s.pending[k := r] == (s.pending - {k})[k := r];
    assert pending[k := r] == (pending - {k})[k := r];
  }

  lemma OpenedRecord(before: Store, pending: PendingMap, k: Key, segment: AccessSegment, now: real)
    requires Opened(before, pending, k, segment, now)
    ensures k in pending && TxnOf(k, pending[k]) == OpenTxn(SlotAt(before, k.Pair()), segment, now)
  {
  }

  /** Storing the opened record, and completing it. */
  lemma OpenedThenStored(before: Store, pending: PendingMap, k: Key, segment: AccessSegment, now: real,
                         r: PendingSegments)
    requires OnePerPair(before.pending) && Opened(before, pending, k, segment, now)
    ensures TableOf(before.(pending := pending[k := r]))
            == TableOf(before)[k.Pair() := SlotAt(before, k.Pair()).(pending := Some(TxnOf(k, r)))]
    ensures OnePerPair(pending[k := r])
  {
    var s := OpenedBase(before, pending, k, segment, now, r);
    hide SlotAt, TableOf, OnePerPair, Opened, Without;
    StoredTable(before, s, k, r);
  }

  lemma OpenedThenCompleted(before: Store, pending: PendingMap, k: Key, segment: AccessSegment, now: real,
                            c: Completed)
    requires OnePerPair(before.pending) && Opened(before, pending, k, segment, now)
    ensures TableOf(Store(pending - {k}, before.completed[k.Pair() := c], before.discarded - {k.Pair()}))
            == TableOf(before)[k.Pair() := Slot(None, Some(c), None)]
    ensures OnePerPair(pending - {k})
  {
    assert k in pending;
    var s := OpenedBase(before, pending, k, segment, now, pending[k]);
    hide SlotAt, TableOf, OnePerPair, Opened, Without;
    CompletedTable(before, s, k, c);
  }

  /** A changed payload is only ever noticed in a record that was already there. */
  lemma PayloadRefused(before: Store, pending: PendingMap, k: Key, seq_: nat, segment: AccessSegment, now: real)
    requires OnePerPair(before.pending) && Opened(before, pending, k, segment, now) && k.seqAuth == segment.seqAuth
    requires segment.segO in pending[k].segments && pending[k].segments[segment.segO] != segment.payload
    requires var txn := OpenTxn(SlotAt(before, k.Pair()), segment, now);
             SameMetadata(segment, txn.akf, txn.aid, txn.szmic, txn.segN)
    ensures pending == before.pending
    ensures var slot := SlotAt(before, k.Pair());
            RecordInSlot(slot, OpenTxn(slot, segment, now), seq_, segment, now) == (slot, Err(PayloadChanged))
  {
    PairRecord(before, k);
    hide SlotAt, Whole, Join, Record;
    assert k in before.pending;
    assert before.pending - {k} == pending - {k};
    assert before.pending == (before.pending - {k})[k := before.pending[k]];
    assert pending == (pending - {k})[k := pending[k]];
  }

  /** The bitmap comparison `add` makes decides whether the transaction is whole. */
  lemma RecordedBits(txn: Txn, seq_: nat, segment: AccessSegment, now: real)
    requires TxnInv(txn) && Validated(segment) && segment.segN == txn.segN
    ensures var t := Record(txn, seq_, segment, now);
            && (forall i :: i in t.segments ==> i <= t.segN < 32) && t.sequences.Keys == t.segments.Keys
            && t.segN == txn.segN
            && (Whole(t) ==> t.segN in t.sequences)
            && (Whole(t) <==> Bitmap(t.segments.Keys, 32) == Shl(1, t.segN + 1) - 1)
            && Shl(1, t.segN + 1) == Pow2(t.segN + 1)
  {
    var t := Record(txn, seq_, segment, now);
    RecordKeepsInv(txn, seq_, segment, now);
    ShlOne(t.segN + 1);
    BitmapFull(t.segments.Keys, t.segN + 1);
    BitmapExtend(t.segments.Keys, 32, t.segN + 1);
  }

  lemma {:induction false} ShlOne(n: nat)
    ensures Shl(1, n) == Pow2(n)
  {
    if n > 0 {
      ShlOne(n - 1);
    }
  }

  lemma OpenTxnInv(slot: Slot, segment: AccessSegment, now: real)
    requires SlotInv(slot) && Validated(segment)
    ensures TxnInv(OpenTxn(slot, segment, now))
  {
    NewTxnInv(segment, now);
  }

  /** A segment whose record is not yet whole. */
  lemma RecordOpen(slot: Slot, txn: Txn, seq_: nat, segment: AccessSegment, now: real)
    requires SameMetadata(segment, txn.akf, txn.aid, txn.szmic, txn.segN)
    requires segment.segO in txn.segments ==> txn.segments[segment.segO] == segment.payload
    ensures var t := Record(txn, seq_, segment, now);
            !Whole(t) ==>
              RecordInSlot(slot, txn, seq_, segment, now)
              == (slot.(pending := Some(t)), Ok(AddResult(segment, Bitmap(t.segments.Keys, 32), None, None, false)))
  {
    hide Record, Join, Bitmap, Whole;
  }

  /** A segment that makes it whole. */
  lemma RecordWhole(slot: Slot, txn: Txn, seq_: nat, segment: AccessSegment, now: real)
    requires SameMetadata(segment, txn.akf, txn.aid, txn.szmic, txn.segN) && TxnInv(txn) && Validated(segment)
    requires segment.segO in txn.segments ==> txn.segments[segment.segO] == segment.payload
    ensures var t := Record(txn, seq_, segment, now);
            var full := Pow2(segment.segN + 1) - 1;
            Whole(t) ==>
              && t.segN in t.sequences && (forall i :: 0 <= i < segment.segN + 1 ==> i in t.segments)
              && RecordInSlot(slot, txn, seq_, segment, now)
                 == (Slot(None, Some(Completed(segment.seqAuth, full, segment.akf, segment.aid, segment.szmic,
                                               segment.segN)), None),
                     Ok(AddResult(segment, full, Some(Join(t.segments, segment.segN + 1)),
                                  Some(t.sequences[segment.segN]), false)))
  {
    hide Record, Join, Bitmap, TxnInv, Shl, Pow2, Whole, Validated;
    RecordedBits(txn, seq_, segment, now);
    WholeHolds(Record(txn, seq_, segment, now));
  }

  lemma WholeHolds(t: Txn)
    ensures Whole(t) ==> forall i :: 0 <= i < t.segN + 1 ==> i in t.segments
  {
  }

  /** Why the dictionaries have no room for a new record of the pair. */
  function Full(s: Store, p: Reassembly.Pair, l: Limits): Option<Refusal>
  {
    if |s.pending| >= l.maxPending then Some(PendingCapacity)
    else if p !in Tracked(s) && |Tracked(s)| >= l.maxCompleted then Some(TrackingCapacity)
    else None
  }

  /** Storing the pair's only record changes the table at that pair alone. */
  lemma StoredTable(before: Store, s: Store, k: Key, r: PendingSegments)
    requires s.completed == before.completed && s.discarded == before.discarded && OnePerPair(s.pending)
    requires s.pending == before.pending || s.pending == Without(before.pending, k.Pair())
    requires forall j :: j in s.pending && j.Pair() == k.Pair() ==> j == k
    ensures TableOf(s.(pending := s.pending[k := r]))
            == TableOf(before)[k.Pair() := SlotAt(before, k.Pair()).(pending := Some(TxnOf(k, r)))]
    ensures OnePerPair(s.pending[k := r])
  {
    var s' := s.(pending := s.pending[k := r]);
    var slot := SlotAt(before, k.Pair()).(pending := Some(TxnOf(k, r)));
    forall q ensures SlotAt(s', q) == if q == k.Pair() then slot else SlotOf(TableOf(before), q) {
      StoreSlot(s, k, r, q);
      WithoutSlot(before, k.Pair(), q);
      TrackedSlot(before, q);
    }
    NoEmpties(before);
    PutTable(s', TableOf(before), k.Pair(), slot);
  }

  lemma {:induction false} NoBits(k: nat, n: nat)
    ensures BitsFrom({}, k, n) == 0
    decreases n - k
  {
    if k < n {
      NoBits(k + 1, n);
    }
  }

  lemma NoEmpties(s: Store)
    ensures forall q :: q in TableOf(s) ==> TableOf(s)[q] != EMPTY
  {
    forall q | q in TableOf(s) ensures TableOf(s)[q] != EMPTY {
      TrackedSlot(s, q);
    }
  }

  /** Completing it leaves that pair its completion record and nothing else. */
  lemma CompletedTable(before: Store, s: Store, k: Key, c: Completed)
    requires s.completed == before.completed && s.discarded == before.discarded && OnePerPair(s.pending)
    requires s.pending == before.pending || s.pending == Without(before.pending, k.Pair())
    requires forall j :: j in s.pending && j.Pair() == k.Pair() ==> j == k
    ensures TableOf(Store(s.pending - {k}, s.completed[k.Pair() := c], s.discarded - {k.Pair()}))
            == TableOf(before)[k.Pair() := Slot(None, Some(c), None)]
    ensures OnePerPair(s.pending - {k})
  {
    var s' := Store(s.pending - {k}, s.completed[k.Pair() := c], s.discarded - {k.Pair()});
    var slot := Slot(None, Some(c), None);
    CompleteSlot(s, k, c, k.Pair());
    forall q | q != k.Pair() ensures SlotAt(s', q) == SlotOf(TableOf(before), q) {
      CompleteSlot(s, k, c, q);
      WithoutSlot(before, k.Pair(), q);
      TrackedSlot(before, q);
    }
    NoEmpties(before);
    hide SlotAt, TableOf;
    PutTable(s', TableOf(before), k.Pair(), slot);
  }

  lemma TableSize(s: Store)
    ensures |TableOf(s)| == |Tracked(s)| && forall p :: p in TableOf(s) <==> p in Tracked(s)
  {
    assert TableOf(s).Keys == Tracked(s);
    assert |TableOf(s)| == |TableOf(s).Keys|;
  }

  /** What `Refused` decides once the pair's own record is dropped: capacity only stops an idle pair. */
  lemma RoomAfter(before: Store, s: Store, p: Reassembly.Pair, l: Limits)
    requires ValidLimits(l) && OnePerPair(before.pending) && TableInv(TableOf(before), l)
    requires s == before.(pending := Without(before.pending, p))
    ensures Full(s, p, l) == if SlotAt(before, p).pending.Some? then None else Room(TableOf(before), p, l)
  {
    hide TableOf, SlotAt, Without, OnePerPair, PairsOf, Tracked, SlotInv;
    PendingSlot(before, p);
    PendingCount(before);
    TableSize(before);
    if p in PairsOf(before.pending) {
      DroppedPending(before, s, p);
      DroppedTracked(before, s, p);
    } else {
      NothingDropped(before, p);
    }
  }

  lemma NothingDropped(before: Store, p: Reassembly.Pair)
    requires p !in PairsOf(before.pending)
    ensures Without(before.pending, p) == before.pending
  {
  }

  lemma DroppedPending(before: Store, s: Store, p: Reassembly.Pair)
    requires p in PairsOf(before.pending) && s.pending == Without(before.pending, p)
    ensures |s.pending| < |before.pending|
  {
    var k :| k in before.pending && k.Pair() == p;
    assert |s.pending| == |s.pending.Keys| && |before.pending| == |before.pending.Keys|;
    assert s.pending.Keys <= before.pending.Keys - {k};
    SubsetSize(s.pending.Keys, before.pending.Keys - {k});
  }

  lemma PairsLeft(pending: PendingMap, p: Reassembly.Pair)
    ensures PairsOf(Without(pending, p)) == PairsOf(pending) - {p}
  {
    forall q | q in PairsOf(pending) - {p} ensures q in PairsOf(Without(pending, p)) {
      var k :| k in pending && k.Pair() == q;
      assert k in Without(pending, p);
    }
  }

  lemma DroppedTracked(before: Store, s: Store, p: Reassembly.Pair)
    requires p in PairsOf(before.pending) && s == before.(pending := Without(before.pending, p))
    ensures p in Tracked(before) && (p !in Tracked(s) ==> |Tracked(s)| < |Tracked(before)|)
  {
    PairsLeft(before.pending, p);
    hide PairsOf, Without;
    if p !in Tracked(s) {
      SubsetSize(Tracked(s), Tracked(before) - {p});
    }
  }

  // ----- The class -----

  class SegmentReassembler {
    const limits: Limits
    var pending: PendingMap
    var completed: map<Reassembly.Pair, Completed>
    var discarded: map<Reassembly.Pair, nat>

    ghost function Contents(): Store
      reads this
    {
      Store(pending, completed, discarded)
    }

    ghost function Table(): Reassembly.Table
      reads this
    {
      TableOf(Contents())
    }

    ghost predicate Valid()
      reads this
    {
      ValidLimits(limits) && OnePerPair(pending) && TableInv(Table(), limits)
    }

    constructor (limits: Limits)
      requires ValidLimits(limits)
      ensures Valid() && Table() == map[] && this.limits == limits
    {
      this.limits := limits;
      pending, completed, discarded := map[], map[], map[];
      new;
      assert Tracked(Contents()) == {};
      assert Table() == map[];
      assert PendingPairs(Table()) == {};
    }

    /** `_prune` */
    method Prune(now: real)
      requires Valid()
      modifies this
      ensures Valid() && Table() == PruneTable(old(Table()), now, limits)
    {
      ghost var before := Contents();
      ghost var visited: set<Key> := {};
      var keys := pending.Keys;
      while keys != {}
        invariant keys == before.pending.Keys - visited && visited <= before.pending.Keys
        invariant forall k :: k in keys ==> k in pending && pending[k] == before.pending[k]
        invariant OnePerPair(pending) && PrunedSoFar(before, Contents(), visited, now, limits)
        decreases keys
      {
        var k :| k in keys;
        ghost var s := Contents();
        if pending[k].updatedAt <= now - limits.timeout {
          pending := pending - {k};
          var pair := k.Pair();
          discarded := discarded[pair := if pair in discarded then Max(k.seqAuth, discarded[pair]) else k.seqAuth];
          if pair in completed && completed[pair].seqAuth <= k.seqAuth {
            completed := completed - {pair};
          }
        }
        VisitKey(before, s, Contents(), visited, k, now, limits);
        visited := visited + {k};
        keys := keys - {k};
      }
      assert visited == before.pending.Keys;
      AllVisited(before, Contents(), now, limits);
      PruneTableInv(TableOf(before), now, limits);
    }

    /** `completed_ack` */
    method CompletedAck(src: nat, dst: nat, seqAuth: nat, now: real) returns (ack: Option<nat>)
      requires Valid()
      modifies this
      ensures Valid() && Table() == PruneTable(old(Table()), now, limits)
      ensures ack == AckFromSlot(SlotOf(Table(), (src, dst)), seqAuth)
    {
      Prune(now);
      TrackedSlot(Contents(), (src, dst));
      var pair := (src, dst);
      if pair in discarded && discarded[pair] >= seqAuth {
        return None;
      }
      if pair !in completed || completed[pair].seqAuth != seqAuth {
        return None;
      }
      return Some(completed[pair].ackedSegments);
    }

    /** `_bitmap` */
    static method BitmapOf(segments: map<nat, Bytes>) returns (bitmap: nat)
      requires forall i :: i in segments ==> i < 32
      ensures bitmap == Bitmap(segments.Keys, 32)
    {
      bitmap := 0;
      var left := segments.Keys;
      NoBits(0, 32);
      assert segments.Keys - left == {};
      while left != {}
        invariant left <= segments.Keys && bitmap == Bitmap(segments.Keys - left, 32)
        decreases left
      {
        var segO :| segO in left;
        BitsSet(segments.Keys - left, segO, 0, 32);
        assert segments.Keys - left + {segO} == segments.Keys - (left - {segO});
        bitmap := Or(bitmap, Shl(1, segO));
        left := left - {segO};
      }
      assert segments.Keys - left == segments.Keys;
    }

    /** The payloads of segments 0 to `n - 1`, in order. */
    static method JoinPayloads(segments: map<nat, Bytes>, n: nat) returns (upper: Bytes)
      requires forall i :: 0 <= i < n ==> i in segments
      ensures upper == Join(segments, n)
    {
      upper := [];
      for i := 0 to n
        invariant upper == Join(segments, i)
      {
        upper := upper + segments[i];
      }
    }

    /** Drop the pair's older transaction, or report that it is the newer one. */
    method Supersede(pair: Reassembly.Pair, seqAuth: nat) returns (stale: bool)
      requires OnePerPair(pending)
      modifies `pending
      ensures stale <==> exists k :: k in old(pending) && k.Pair() == pair && k.seqAuth > seqAuth
      ensures pending == if stale then old(pending) else Without(old(pending), pair)
    {
      ghost var before := pending;
      ghost var visited: set<Key> := {};
      var keys := pending.Keys;
      while keys != {}
        invariant keys == before.Keys - visited && visited <= before.Keys
        invariant pending == map k | k in before && !(k in visited && k.Pair() == pair) :: before[k]
        invariant forall k :: k in visited && k.Pair() == pair ==> k.seqAuth <= seqAuth
        decreases keys
      {
        var oldKey :| oldKey in keys;
        if oldKey.Pair() == pair {
          if oldKey.seqAuth > seqAuth {
            assert forall k :: k in visited ==> k.Pair() != pair;
            return true;
          }
          pending := pending - {oldKey};
        }
        visited := visited + {oldKey};
        keys := keys - {oldKey};
      }
      return false;
    }

    /** Why a new record may not be opened for the pair, if it may not. */
    method Refused(pair: Reassembly.Pair) returns (why: Option<Refusal>)
      ensures why == Full(Contents(), pair, limits)
    {
      if |pending| >= limits.maxPending {
        return Some(PendingCapacity);
      }
      var trackedPairs := completed.Keys + discarded.Keys + (set k | k in pending :: k.Pair());
      if pair !in trackedPairs && |trackedPairs| >= limits.maxCompleted {
        return Some(TrackingCapacity);
      }
      return None;
    }

    /** The first half of `add` after its replay checks: find the segment's record or open one. */
    method OpenRecord(key: Key, segment: AccessSegment, now: real) returns (why: Option<Refusal>)
      requires Valid() && segment.seqAuth == key.seqAuth
      modifies `pending
      ensures why == OpenRefusal(SlotAt(old(Contents()), key.Pair()), segment, now,
                                 Room(old(Table()), key.Pair(), limits))
      ensures why.Some? ==> pending == old(pending)
      ensures why.None? ==> Opened(old(Contents()), pending, key, segment, now)
    {
      hide SlotAt, TableOf, OnePerPair, TableInv, Without, Full, Room, Opened;
      ghost var before := Contents();
      PairRecord(before, key);
      if key in pending {
        OpenedFound(before, key, segment, now);
        var r := pending[key];
        if !SameMetadata(segment, r.akf, r.aid, r.szmic, r.segN) {
          return Some(MetadataChanged);
        }
      } else {
        OpenedNew(before, key, segment, now);
        var stale := Supersede(key.Pair(), segment.seqAuth);
        if stale {
          return Some(StaleTransaction);
        }
        why := Refused(key.Pair());
        RoomAfter(before, Contents(), key.Pair(), limits);
        if why.Some? {
          NotDropped(before, key.Pair());
          return;
        }
        pending := pending[key := PendingSegments(segment.akf, segment.aid, segment.szmic, segment.segN, map[], map[],
                                                  now)];
      }
      return None;
    }

    /** The second half of `add`: record the segment in its open record and complete it when whole. */
    method RecordSegment(key: Key, seq_: nat, segment: AccessSegment, now: real, ghost before: Store)
      returns (r: Result<AddResult, Refusal>)
      requires Validated(segment) && OnePerPair(before.pending) && SlotInv(SlotAt(before, key.Pair()))
      requires Opened(before, pending, key, segment, now) && key.seqAuth == segment.seqAuth
      requires completed == before.completed && discarded == before.discarded
      requires var txn := OpenTxn(SlotAt(before, key.Pair()), segment, now);
               SameMetadata(segment, txn.akf, txn.aid, txn.szmic, txn.segN)
      modifies this
      ensures OnePerPair(pending)
      ensures var slot := SlotAt(before, key.Pair());
              var (after, result) := RecordInSlot(slot, OpenTxn(slot, segment, now), seq_, segment, now);
              r == result && Table() == if r.Ok? then TableOf(before)[key.Pair() := after] else TableOf(before)
    {
      hide SlotAt, TableOf, OnePerPair, Join, Bitmap, RecordInSlot, Shl, Pow2, SlotInv, TxnInv, Whole, Opened,
        OpenTxn;
      OpenedRecord(before, pending, key, segment, now);
      ghost var slot := SlotAt(before, key.Pair());
      ghost var txn := OpenTxn(slot, segment, now);
      OpenTxnInv(slot, segment, now);
      RecordedBits(txn, seq_, segment, now);
      var record := pending[key];
      if segment.segO in record.segments && record.segments[segment.segO] != segment.payload {
        PayloadRefused(before, pending, key, seq_, segment, now);
        return Err(PayloadChanged);
      }
      RecordOpen(slot, txn, seq_, segment, now);
      RecordWhole(slot, txn, seq_, segment, now);
      var sequence := Max(seq_, if segment.segO in record.sequences then record.sequences[segment.segO] else seq_);
      record := record.(segments := record.segments[segment.segO := segment.payload],
                        sequences := record.sequences[segment.segO := sequence], updatedAt := now);
      assert TxnOf(key, record) == Record(txn, seq_, segment, now);
      OpenedThenStored(before, pending, key, segment, now, record);
      ghost var found := pending;
      pending := pending[key := record];
      var blockAck := BitmapOf(record.segments);
      var fullAck := Shl(1, segment.segN + 1) - 1;
      if blockAck != fullAck {
        return Ok(AddResult(segment, blockAck, None, None, false));
      }
      var upper := JoinPayloads(record.segments, segment.segN + 1);
      var lastSegmentSeq := record.sequences[segment.segN];
      ghost var c := Completed(segment.seqAuth, fullAck, segment.akf, segment.aid, segment.szmic, segment.segN);
      OpenedThenCompleted(before, found, key, segment, now, c);
      assert found - {key} == pending - {key};
      pending := pending - {key};
      discarded := discarded - {key.Pair()};
      completed := completed[key.Pair() := Completed(segment.seqAuth, fullAck, segment.akf, segment.aid, segment.szmic,
                                                     segment.segN)];
      return Ok(AddResult(segment, fullAck, Some(upper), Some(lastSegmentSeq), false));
    }

    /** `add`, given the parsed segment */
    method Add(src: nat, dst: nat, seq_: nat, segment: AccessSegment, now: real)
      returns (r: Result<AddResult, Refusal>)
      requires Valid() && Validated(segment)
      modifies this
      ensures Valid()
      ensures (Table(), r) == Reassembly.Add(old(Table()), (src, dst), seq_, segment, now, limits)
    {
      hide SlotAt, TableOf, TableInv, OnePerPair, Opened, RecordInSlot, AddToSlot, Room, SlotInv, OpenRefusal;
      AddTableInv(Table(), (src, dst), seq_, segment, now, limits);
      PruneTableInv(Table(), now, limits);
      Prune(now);
      ghost var before := Contents();
      ghost var slot := SlotAt(before, (src, dst));
      ghost var room := Room(TableOf(before), (src, dst), limits);
      var pair := (src, dst);
      TrackedSlot(before, pair);
      SlotMarks(before, pair);
      AddAfterReplay(slot, seq_, segment, now, room);
      if pair in discarded && segment.seqAuth <= discarded[pair] {
        return Err(DiscardedTransaction);
      }
      if pair in completed {
        var c := completed[pair];
        if segment.seqAuth < c.seqAuth {
          return Err(StaleTransaction);
        }
        if segment.seqAuth == c.seqAuth {
          if !SameMetadata(segment, c.akf, c.aid, c.szmic, c.segN) {
            return Err(CompletedMetadataChanged);
          }
          return Ok(AddResult(segment, c.ackedSegments, None, None, true));
        }
      }
      AddInHalves(slot, seq_, segment, now, room);
      OpenedKnown(before, pair, segment, now, room);
      var key := Key(src, dst, segment.seqAuth);
      var why := OpenRecord(key, segment, now);
      if why.Some? {
        return Err(why.value);
      }
      r := RecordSegment(key, seq_, segment, now, before);
    }
  }
}
