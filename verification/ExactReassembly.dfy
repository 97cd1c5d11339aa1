/**
 Order-independent reassembly: one sender's transaction fed to the reassembler in any order,
 with any repetition, among any other pairs' traffic.
 */
module ExactReassembly {
  import opened Prelude
  import opened Bits
  import opened LowerTransport
  import opened Reassembly

  /** One transaction as its sender built it. */
  datatype Sent = Sent(pair: Pair, seqAuth: nat, akf: nat, aid: nat, szmic: nat, upper: Bytes) {
    function Count(): nat { SegmentCount(upper) }
    function SegN(): nat { if Count() == 0 then 0 else Count() - 1 }
    function Segment(i: nat): AccessSegment
      requires i < Count()
    {
      SegmentOf(akf, aid, szmic, seqAuth, upper, i)
    }
  }

  ghost predicate ValidSent(tx: Sent)
  {
    1 <= |tx.upper| <= 384 && tx.seqAuth <= MAX_SEQUENCE
  }

  /** A call feeding one of the transaction's own segments. */
  ghost predicate Mine(tx: Sent, c: Call)
  {
    c.AddCall? && c.pair == tx.pair && c.segment.segO < tx.Count() && c.segment == tx.Segment(c.segment.segO)
  }

  /** Any call that is not a segment on the transaction's pair. */
  ghost predicate Elsewhere(tx: Sent, c: Call)
  {
    c.AddCall? ==> c.pair != tx.pair && Validated(c.segment)
  }

  /** The segment indexes fed so far. */
  ghost function Held(tx: Sent, calls: seq<Call>): set<nat>
  {
    if |calls| == 0 then {}
    else
      var last := calls[|calls| - 1];
      Held(tx, calls[..|calls| - 1]) + (if Mine(tx, last) then {last.segment.segO} else {})
  }

  ghost predicate AllHeld(tx: Sent, held: set<nat>)
  {
    forall i :: 0 <= i < tx.Count() ==> i in held
  }

  /** The slot has seen nothing as new as this transaction. */
  ghost predicate Fresh(slot: Slot, seqAuth: nat)
  {
    Mark(slot) < seqAuth && (slot.pending.Some? ==> slot.pending.value.seqAuth < seqAuth)
  }

  /** What the pair's slot holds once `held` has been fed. */
  ghost predicate Progress(tx: Sent, slot: Slot, held: set<nat>)
  {
    if held == {} then Fresh(slot, tx.seqAuth)
    else if AllHeld(tx, held) then
      slot.pending.None? && DiscardedOr(slot) < tx.seqAuth
      && slot.completed == Some(Completed(tx.seqAuth, Pow2(tx.Count()) - 1, tx.akf, tx.aid, tx.szmic, tx.SegN()))
    else
      slot.pending.Some? && Mark(slot) < tx.seqAuth && Holds(tx, slot.pending.value, held)
  }

  ghost predicate Holds(tx: Sent, txn: Txn, held: set<nat>)
  {
    && txn.seqAuth == tx.seqAuth && txn.akf == tx.akf && txn.aid == tx.aid && txn.szmic == tx.szmic
    && txn.segN == tx.SegN()
    && txn.segments.Keys == held && txn.sequences.Keys == held
    && forall i :: i in held ==> i < tx.Count() && txn.segments[i] == Chunk(tx.upper, i)
  }

  /** The table lets a call of the transaction in: no expiry while it is open, room when it opens. */
  ghost predicate Admitted(tx: Sent, t: Table, held: set<nat>, c: Call, l: Limits)
  {
    var slot := SlotOf(t, tx.pair);
    var pruned := PruneTable(t, c.now, l);
    if held == {} then
      Mine(tx, c) && SlotOf(pruned, tx.pair).pending.None? ==> Room(pruned, tx.pair, l).None?
    else slot.pending.Some? ==> !Expired(slot.pending.value, c.now, l)
  }

  ghost predicate Timely(tx: Sent, t: Table, calls: seq<Call>, l: Limits)
  {
    |calls| == 0
    || (var before := calls[..|calls| - 1];
        Timely(tx, t, before, l)
        && Admitted(tx, After(t, before, l), Held(tx, before), calls[|calls| - 1], l))
  }

  // ----- One call -----

  lemma PruneProgress(tx: Sent, slot: Slot, held: set<nat>, now: real, l: Limits)
    requires SlotInv(slot) && Progress(tx, slot, held)
    requires held == {} || slot.pending.None? || !Expired(slot.pending.value, now, l)
    ensures Progress(tx, Prune(slot, now, l), held)
  {
  }

  lemma {:induction false} JoinHeld(tx: Sent, segments: map<nat, Bytes>, n: nat)
    requires n <= tx.Count() && forall i :: 0 <= i < n ==> i in segments && segments[i] == Chunk(tx.upper, i)
    ensures Reassembly.Join(segments, n) == JoinChunks(tx.upper, n)
  {
    if n > 0 {
      JoinHeld(tx, segments, n - 1);
    }
  }

  /** The result of feeding segment `i` when `held` has already been fed. */
  ghost predicate Expected(tx: Sent, held: set<nat>, i: nat, r: Result<AddResult, Refusal>)
  {
    r.Ok?
    && r.value.alreadyComplete == AllHeld(tx, held)
    && r.value.upper == (if !AllHeld(tx, held) && AllHeld(tx, held + {i}) then Some(tx.upper) else None)
    && r.value.blockAck == Bitmap(if AllHeld(tx, held) then held else held + {i}, 32)
  }

  lemma FullBitmap(tx: Sent, held: set<nat>)
    requires ValidSent(tx) && AllHeld(tx, held) && forall i :: i in held ==> i < tx.Count()
    ensures Bitmap(held, 32) == Pow2(tx.Count()) - 1
  {
    BitmapFull(held, tx.Count());
    BitmapExtend(held, 32, tx.Count());
  }

  lemma RecordHolds(tx: Sent, txn: Txn, held: set<nat>, i: nat, seq_: nat, now: real)
    requires Holds(tx, txn, held) && i < tx.Count()
    ensures Holds(tx, Record(txn, seq_, tx.Segment(i), now), held + {i})
    ensures Whole(Record(txn, seq_, tx.Segment(i), now)) <==> AllHeld(tx, held + {i})
  {
    var t := Record(txn, seq_, tx.Segment(i), now);
    assert t.segments.Keys == held + {i};
    if Whole(t) {
      forall j | 0 <= j < tx.Count() ensures j in held + {i} {
        assert j in t.segments;
      }
    }
    if AllHeld(tx, held + {i}) {
      forall j | 0 <= j <= t.segN ensures j in t.segments {
        assert j in held + {i};
      }
    }
  }

  lemma FreshHolds(tx: Sent, i: nat, now: real)
    requires ValidSent(tx) && i < tx.Count()
    ensures Holds(tx, NewTxn(tx.Segment(i), now), {})
  {
  }

  /** A repeat after completion is answered with the full bitmap and nothing else. */
  lemma AddRepeated(tx: Sent, slot: Slot, held: set<nat>, i: nat, seq_: nat, now: real, room: Option<Refusal>)
    requires ValidSent(tx) && Progress(tx, slot, held) && i < tx.Count() && AllHeld(tx, held)
    requires forall j :: j in held ==> j < tx.Count()
    ensures var (after, r) := AddToSlot(slot, seq_, tx.Segment(i), now, room);
            Expected(tx, held, i, r) && Progress(tx, after, held + {i})
  {
    FullBitmap(tx, held);
    assert 0 in held && i in held;
    assert held + {i} == held;
    hide Holds, Record, Whole, Bitmap, Reassembly.Join, Fresh;
  }

  lemma NotFinished(tx: Sent, slot: Slot, held: set<nat>)
    requires Progress(tx, slot, held) && !AllHeld(tx, held)
    ensures Mark(slot) < tx.seqAuth
    ensures held == {} && slot.pending.Some? ==> slot.pending.value.seqAuth < tx.seqAuth
    ensures held != {} ==> slot.pending.Some? && slot.pending.value.seqAuth == tx.seqAuth
  {
  }

  lemma OpenHolds(tx: Sent, slot: Slot, held: set<nat>, i: nat, now: real)
    requires ValidSent(tx) && Progress(tx, slot, held) && i < tx.Count() && !AllHeld(tx, held)
    ensures Holds(tx, OpenTxn(slot, tx.Segment(i), now), held)
  {
    FreshHolds(tx, i, now);
  }

  /** Until it is complete, nothing about the slot stands between a segment and its transaction. */
  lemma Reaches(tx: Sent, slot: Slot, held: set<nat>, i: nat, seq_: nat, now: real, room: Option<Refusal>)
    requires Progress(tx, slot, held) && i < tx.Count() && !AllHeld(tx, held)
    requires held == {} && slot.pending.None? ==> room.None?
    ensures AddToSlot(slot, seq_, tx.Segment(i), now, room)
            == RecordInSlot(slot, OpenTxn(slot, tx.Segment(i), now), seq_, tx.Segment(i), now)
  {
    NotFinished(tx, slot, held);
    hide RecordInSlot, Progress, AllHeld, OpenTxn;
  }

  /** There the segment is recorded, whichever it is and however often it came. */
  lemma RecordProgress(tx: Sent, slot: Slot, txn: Txn, held: set<nat>, i: nat, seq_: nat, now: real)
    requires ValidSent(tx) && Holds(tx, txn, held) && i < tx.Count() && !AllHeld(tx, held)
    requires Mark(slot) < tx.seqAuth && forall j :: j in held ==> j < tx.Count()
    ensures var (after, r) := RecordInSlot(slot, txn, seq_, tx.Segment(i), now);
            Expected(tx, held, i, r) && Progress(tx, after, held + {i})
  {
    hide Holds, Bitmap, AllHeld, Whole, Record, Progress, Reassembly.Join;
    RecordHolds(tx, txn, held, i, seq_, now);
    SameAgain(tx, txn, held, i);
    var txn' := Record(txn, seq_, tx.Segment(i), now);
    assert i in held + {i};
    if AllHeld(tx, held + {i}) {
      FinalProgress(tx, held + {i}, txn');
    } else {
      PartialProgress(tx, slot, held + {i}, txn');
    }
  }

  lemma SameAgain(tx: Sent, txn: Txn, held: set<nat>, i: nat)
    requires Holds(tx, txn, held) && i < tx.Count()
    ensures SameMetadata(tx.Segment(i), txn.akf, txn.aid, txn.szmic, txn.segN)
    ensures i in txn.segments ==> txn.segments[i] == tx.Segment(i).payload
  {
  }

  lemma AddProgress(tx: Sent, slot: Slot, held: set<nat>, i: nat, seq_: nat, now: real, room: Option<Refusal>)
    requires ValidSent(tx) && Progress(tx, slot, held) && i < tx.Count()
    requires forall j :: j in held ==> j < tx.Count()
    requires held == {} && slot.pending.None? ==> room.None?
    ensures var (after, r) := AddToSlot(slot, seq_, tx.Segment(i), now, room);
            Expected(tx, held, i, r) && Progress(tx, after, held + {i})
  {
    hide AddToSlot, RecordInSlot, Holds, Expected, Progress;
    if AllHeld(tx, held) {
      AddRepeated(tx, slot, held, i, seq_, now, room);
    } else {
      Reaches(tx, slot, held, i, seq_, now, room);
      OpenHolds(tx, slot, held, i, now);
      NotFinished(tx, slot, held);
      RecordProgress(tx, slot, OpenTxn(slot, tx.Segment(i), now), held, i, seq_, now);
    }
  }

  lemma FinalProgress(tx: Sent, held: set<nat>, txn: Txn)
    requires ValidSent(tx) && AllHeld(tx, held) && Holds(tx, txn, held)
    ensures txn.segN in txn.sequences && tx.SegN() in txn.sequences
    ensures forall i :: 0 <= i < tx.Count() ==> i in txn.segments
    ensures Reassembly.Join(txn.segments, tx.Count()) == tx.upper
    ensures Bitmap(held, 32) == Pow2(tx.Count()) - 1
    ensures Progress(tx, Slot(None, Some(Completed(tx.seqAuth, Pow2(tx.Count()) - 1, tx.akf, tx.aid, tx.szmic, tx.SegN())),
                              None), held)
  {
    assert tx.SegN() in held && 0 in held;
    JoinHeld(tx, txn.segments, tx.Count());
    ChunksJoin(tx.upper, tx.Count());
    FullBitmap(tx, held);
  }

  lemma PartialProgress(tx: Sent, slot: Slot, held: set<nat>, txn: Txn)
    requires Holds(tx, txn, held) && !AllHeld(tx, held) && held != {}
    requires Mark(slot) < tx.seqAuth
    ensures Progress(tx, slot.(pending := Some(txn)), held)
    ensures txn.segments.Keys == held
  {
  }

  // ----- Runs -----

  lemma {:induction false} HeldRange(tx: Sent, calls: seq<Call>)
    ensures forall i :: i in Held(tx, calls) ==> i < tx.Count()
  {
    if |calls| > 0 {
      HeldRange(tx, calls[..|calls| - 1]);
    }
  }

  lemma SegmentValidated(tx: Sent, i: nat)
    requires ValidSent(tx) && i < tx.Count()
    ensures Validated(tx.Segment(i))
  {
  }

  ghost predicate Traffic(tx: Sent, calls: seq<Call>)
  {
    forall k :: 0 <= k < |calls| ==> Mine(tx, calls[k]) || Elsewhere(tx, calls[k])
  }

  lemma TrafficValid(tx: Sent, calls: seq<Call>)
    requires ValidSent(tx) && Traffic(tx, calls)
    ensures forall k :: 0 <= k < |calls| ==> ValidCall(calls[k])
  {
    forall k | 0 <= k < |calls| ensures ValidCall(calls[k]) {
      if Mine(tx, calls[k]) {
        SegmentValidated(tx, calls[k].segment.segO);
      }
    }
  }

  lemma PrunedSlot(t: Table, p: Pair, now: real, l: Limits)
    ensures SlotOf(PruneTable(t, now, l), p) == Prune(SlotOf(t, p), now, l)
  {
  }

  /** One admitted call of the run, fed or passed over. */
  lemma StepProgress(tx: Sent, t: Table, held: set<nat>, c: Call, l: Limits)
    requires ValidSent(tx) && TableInv(t, l) && (Mine(tx, c) || Elsewhere(tx, c))
    requires Progress(tx, SlotOf(t, tx.pair), held) && Admitted(tx, t, held, c, l)
    requires forall j :: j in held ==> j < tx.Count()
    ensures Progress(tx, SlotOf(Do(t, c, l), tx.pair), if Mine(tx, c) then held + {c.segment.segO} else held)
    ensures Mine(tx, c) ==> Expected(tx, held, c.segment.segO, Add(t, tx.pair, c.seq_, c.segment, c.now, l).1)
  {
    var pruned := PruneTable(t, c.now, l);
    var slot := SlotOf(t, tx.pair);
    EmptyInv();
    PrunedSlot(t, tx.pair, c.now, l);
    hide AddToSlot, Prune, SlotInv, Holds, Fresh, AllHeld;
    PruneProgress(tx, slot, held, c.now, l);
    if Mine(tx, c) {
      AddProgress(tx, Prune(slot, c.now, l), held, c.segment.segO, c.seq_, c.now, Room(pruned, tx.pair, l));
    }
  }

  lemma StartProgress(tx: Sent, slot: Slot)
    requires Fresh(slot, tx.seqAuth)
    ensures Progress(tx, slot, {})
  {
  }

  lemma {:induction false} RunProgress(tx: Sent, t: Table, calls: seq<Call>, l: Limits)
    requires ValidSent(tx) && TableInv(t, l) && Fresh(SlotOf(t, tx.pair), tx.seqAuth)
    requires Traffic(tx, calls) && Timely(tx, t, calls, l)
    ensures Progress(tx, SlotOf(After(t, calls, l), tx.pair), Held(tx, calls))
  {
    hide Progress, Mine, Do, Admitted, TableInv;
    if |calls| == 0 {
      StartProgress(tx, SlotOf(t, tx.pair));
    } else {
      var before, last := calls[..|calls| - 1], calls[|calls| - 1];
      RunProgress(tx, t, before, l);
      HeldRange(tx, before);
      TrafficValid(tx, before);
      RunInv(t, before, l);
      StepProgress(tx, After(t, before, l), Held(tx, before), last, l);
      assert Held(tx, before) + {} == Held(tx, before);
    }
  }

  /**
   However a 1-384 byte upper PDU's segments are ordered, repeated and interleaved with other
   pairs' traffic, the call that brings the last missing index returns exactly that PDU, every
   earlier one returns the bitmap of the indexes fed so far, and every later repeat returns
   the full bitmap and delivers nothing.
   */
  lemma OrderIndependent(tx: Sent, t: Table, calls: seq<Call>, c: Call, l: Limits)
    requires ValidSent(tx) && TableInv(t, l) && Fresh(SlotOf(t, tx.pair), tx.seqAuth)
    requires Traffic(tx, calls + [c]) && Timely(tx, t, calls + [c], l) && Mine(tx, c)
    ensures Expected(tx, Held(tx, calls), c.segment.segO,
                     Add(After(t, calls, l), tx.pair, c.seq_, c.segment, c.now, l).1)
  {
    assert (calls + [c])[..|calls|] == calls;
    assert forall k :: 0 <= k < |calls| ==> calls[k] == (calls + [c])[k];
    RunProgress(tx, t, calls, l);
    HeldRange(tx, calls);
    TrafficValid(tx, calls);
    RunInv(t, calls, l);
    StepProgress(tx, After(t, calls, l), Held(tx, calls), c, l);
  }
}
