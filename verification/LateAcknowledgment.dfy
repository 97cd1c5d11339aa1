/**
 When a segmented send means what it says. A sender that comes round to the 13-bit SeqZero of a
 message it has sent to the same node, of no more segments, may take a late copy of that
 message's acknowledgment for one of the new message; if every such message had more segments, it
 never does.
 */
module LateAcknowledgment {
  import opened Prelude
  import opened Bits
  import opened LowerTransport
  import opened Proxy
  import opened SegmentedTransfer
  import E = EndToEnd
  import Network
  import R = Reassembly
  import X = ExactReassembly

  // ----- Bits -----

  lemma {:induction false} PowBound(n: nat, m: nat)
    requires n <= m
    ensures Pow2(n) <= Pow2(m)
    decreases m - n
  {
    if n < m {
      PowBound(n + 1, m);
    }
  }

  lemma PowEight()
    ensures Pow2(8) == 256
  {
    assert Pow2(4) == 2 * Pow2(3) == 4 * Pow2(2) == 8 * Pow2(1) == 16;
    assert Pow2(8) == 2 * Pow2(7) == 4 * Pow2(6) == 8 * Pow2(5) == 16 * Pow2(4);
  }

  lemma ThirtyTwo(n: nat)
    requires n <= 32
    ensures Pow2(n) <= 0x1_0000_0000
  {
    hide Pow2;
    PowBound(n, 32);
    PowEight();
    PowTimes(8, 8);
    PowTimes(16, 16);
  }

  lemma {:induction false} PowTimes(a: nat, b: nat)
    ensures Pow2(a + b) == Pow2(a) * Pow2(b)
  {
    if b > 0 {
      PowTimes(a, b - 1);
      assert Pow2(a + b) == 2 * Pow2(a + b - 1);
    }
  }

  lemma {:induction false} AndNotZero(a: nat)
    ensures AndNot(a, 0) == a
  {
    if a > 0 {
      AndNotZero(a / 2);
    }
  }

  /** The indexes from `from` up to, and without, `to`. */
  function Span(from: nat, to: nat): (r: set<nat>)
    ensures forall i :: i in r <==> from <= i < to
  {
    if to <= from then {} else Span(from, to - 1) + {to - 1}
  }

  /** What the whole of a message of `m` segments leaves of one of `n`. */
  lemma WholeLeaves(m: nat, n: nat)
    requires 1 <= m <= n <= 32
    ensures var full := Pow2(m) - 1;
            && 0 < full < Pow2(n) <= 0x1_0000_0000 && Or(0, full) == full && AndNot(full, 0) == full
            && Missing(full, n) == Span(m, n)
  {
    var full := Pow2(m) - 1;
    AndNotZero(full);
    PowBound(1, m);
    PowBound(m, n);
    ThirtyTwo(n);
    hide Pow2, Bit, AndNot;
    forall i | 0 <= i < n ensures Bit(full, i) <==> i < m {
      if i < m {
        FullBits(m, i);
      } else if Bit(full, i) {
        BitBelow(full, m, i);
      }
    }
    assert Missing(full, n) == Span(m, n);
  }

  /** The bitmap of the rest of such a message. */
  function Rest(m: nat, n: nat): nat
  {
    R.Bitmap(Span(m, n), 32)
  }

  lemma RestBit(m: nat, n: nat, i: nat)
    requires n <= 32
    ensures Bit(Rest(m, n), i) <==> m <= i < n
  {
    hide Bit, R.BitsFrom;
    BitsOf(Span(m, n), 32, i);
  }

  lemma RestBound(m: nat, n: nat)
    requires n <= 32
    ensures Rest(m, n) < Pow2(n)
  {
    hide R.BitsFrom, Pow2;
    R.BitmapExtend(Span(m, n), 32, n);
    R.BitmapFull(Span(m, n), n);
  }

  /** What is left of it, acknowledged in its turn, leaves nothing. */
  lemma RestCompletes(m: nat, n: nat)
    requires 1 <= m < n <= 32
    ensures var full := Pow2(m) - 1;
            0 < Rest(m, n) < Pow2(n) && AndNot(Rest(m, n), full) != 0 && Missing(Or(full, Rest(m, n)), n) == {}
  {
    hide Pow2, Bit, AndNot, Or, Rest, Missing;
    var full, rest := Pow2(m) - 1, Rest(m, n);
    RestBound(m, n);
    RestBit(m, n, m);
    SomeBit(rest, m);
    AndNotBit(rest, full, m);
    if Bit(full, m) {
      BitBelow(full, m, m);
    }
    SomeBit(AndNot(rest, full), m);
    forall i | 0 <= i < n ensures Bit(Or(full, rest), i) {
      EitherBit(m, n, i);
    }
    NoneMissing(Or(full, rest), n);
  }

  lemma EitherBit(m: nat, n: nat, i: nat)
    requires m < n <= 32 && i < n
    ensures Bit(Or(Pow2(m) - 1, Rest(m, n)), i)
  {
    hide Pow2, Bit, Or, Rest;
    OrBit(Pow2(m) - 1, Rest(m, n), i);
    RestBit(m, n, i);
    if i < m {
      FullBits(m, i);
    }
  }

  lemma NoneMissing(a: nat, n: nat)
    requires forall i :: 0 <= i < n ==> Bit(a, i)
    ensures Missing(a, n) == {}
  {
    hide Bit;
  }

  lemma SomeBit(a: nat, i: nat)
    requires Bit(a, i)
    ensures a != 0
  {
    if a == 0 {
      ShrZero(i);
    }
  }

  // ----- Segments in order at the peer -----

  /** A transaction as this sender writes it, with numbers for one attempt. */
  ghost predicate Writes(h: E.Hop, tx: X.Sent)
  {
    && E.Joined(h) && h.dst == h.receiver.localAddress && X.ValidSent(tx) && tx.pair == h.Pair()
    && tx.akf < 2 && tx.aid < 64 && tx.szmic < 2 && tx.seqAuth + tx.Count() <= MAX_SEQUENCE + 1
  }

  lemma Counted(tx: X.Sent)
    requires X.ValidSent(tx)
    ensures 1 <= tx.Count() <= 32 && tx.SegN() == tx.Count() - 1
  {
  }

  lemma SegmentWritten(h: E.Hop, tx: X.Sent, i: nat)
    requires Writes(h, tx) && i < tx.Count()
    ensures tx.seqAuth + i <= MAX_SEQUENCE && i < 32
    ensures E.Encoded(h, tx.seqAuth + i, E.LowerOf(tx, i)).Ok?
  {
    Counted(tx);
    E.SegmentLower(tx, i, tx.seqAuth + i);
    hide E.LowerOf, E.Joined, ParseAccessSegment, X.ValidSent;
    E.Crosses(h, State(map[], map[], map[], None), tx.seqAuth + i, E.LowerOf(tx, i), 0.0, 0.0);
  }

  /** Segment `i` of the first attempt, arriving. */
  ghost function SegmentEvent(h: E.Hop, tx: X.Sent, i: nat): (e: Event)
    requires Writes(h, tx) && i < tx.Count()
    ensures e.NetworkPdu? && e.nowAck == 0.0 && e.nowAdd == 0.0
  {
    SegmentWritten(h, tx, i);
    NetworkPdu(E.Encoded(h, tx.seqAuth + i, E.LowerOf(tx, i)).value, 0.0, 0.0)
  }

  lemma SegmentRead(h: E.Hop, tx: X.Sent, i: nat)
    requires Writes(h, tx) && i < tx.Count()
    ensures var n := tx.seqAuth + i;
            SegmentIn(h.receiver, SegmentEvent(h, tx, i))
            == Some((E.NetworkMessageOf(h, n, E.LowerOf(tx, i)), tx.Segment(i)))
    ensures tx.Segment(i).segO == i && CutFrom(tx, tx.Segment(i))
  {
    hide E.Encoded, E.LowerOf, SegmentIn, ValidContext, E.Joined, Chunk, X.ValidSent;
    SegmentWritten(h, tx, i);
    Counted(tx);
    Decoded(h, tx, i, tx.seqAuth + i);
  }

  lemma Decoded(h: E.Hop, tx: X.Sent, i: nat, n: nat)
    requires E.Joined(h) && X.ValidSent(tx) && i < tx.Count()
    requires tx.akf < 2 && tx.aid < 64 && tx.szmic < 2 && tx.seqAuth <= n <= tx.seqAuth + 8191 && n <= MAX_SEQUENCE
    ensures var encoded := E.Encoded(h, n, E.LowerOf(tx, i));
            encoded.Ok?
            && SegmentIn(h.receiver, NetworkPdu(encoded.value, 0.0, 0.0))
               == Some((E.NetworkMessageOf(h, n, E.LowerOf(tx, i)), tx.Segment(i)))
  {
    var m := E.NetworkMessageOf(h, n, E.LowerOf(tx, i));
    hide E.LowerOf, X.ValidSent, ParseAccessSegment, Network.DecodeNetworkPdu, Chunk, SegmentOf;
    E.SegmentLower(tx, i, n);
    Network.NetworkRoundTrip(h.sender.cipher, h.sender.keys, h.sender.ivIndex, m, false);
  }

  lemma SegmentHandled(h: E.Hop, tx: X.Sent, s: State, i: nat)
    requires Writes(h, tx) && i < tx.Count()
    ensures Handle(h.receiver, s, SegmentEvent(h, tx, i))
            == HandleNetwork(h.receiver, s, E.NetworkMessageOf(h, tx.seqAuth + i, E.LowerOf(tx, i)), 0.0, 0.0)
  {
    hide E.Encoded, E.LowerOf, Handle, HandleNetwork, ValidContext, E.Joined, Chunk, ParseAccessSegment, X.ValidSent;
    SegmentWritten(h, tx, i);
    Counted(tx);
    E.SegmentLower(tx, i, tx.seqAuth + i);
    E.Crosses(h, s, tx.seqAuth + i, E.LowerOf(tx, i), 0.0, 0.0);
  }

  /** The peer once it has been given segments `from` to `to - 1` in order, and nothing of any other pair. */
  ghost predicate Held(h: E.Hop, tx: X.Sent, s: State, from: nat, to: nat)
  {
    && E.Partway(h, tx, s, Span(from, to), 0.0) && s.table.Keys <= {tx.pair}
    && (from == to ==> E.RoomFor(s.table, tx.pair, h.receiver.limits))
    && (h.Src() in s.replay ==> s.replay[h.Src()] < tx.seqAuth + Max(to, 1))
  }

  lemma OneMoreHeld(tx: X.Sent, from: nat, to: nat)
    requires from <= to < tx.Count()
    ensures Span(from, to) + {to} == Span(from, to + 1)
    ensures !X.AllHeld(tx, Span(from, to))
    ensures X.AllHeld(tx, Span(from, to + 1)) <==> from == 0 && to + 1 == tx.Count()
  {
    assert to !in Span(from, to);
    assert from > 0 ==> 0 !in Span(from, to + 1);
    assert to + 1 < tx.Count() ==> to + 1 !in Span(from, to + 1);
  }

  /** A transaction completed by its last segment reports that segment's number. */
  lemma RecordLast(tx: X.Sent, slot: R.Slot, txn: R.Txn, held: set<nat>, n: nat, now: real)
    requires X.ValidSent(tx) && X.Holds(tx, txn, held) && tx.SegN() !in held
    ensures var r := R.RecordInSlot(slot, txn, n, tx.Segment(tx.SegN()), now).1;
            r.Ok? && r.value.upper.Some? ==> r.value.lastSegmentSeq == Some(n)
  {
    hide R.Whole, R.Join, R.Bitmap, Pow2, Chunk;
  }

  lemma AddLast(h: E.Hop, tx: X.Sent, s: State, held: set<nat>, n: nat)
    requires Writes(h, tx) && E.Partway(h, tx, s, held, 0.0) && tx.SegN() !in held
    requires held == {} ==> E.RoomFor(s.table, tx.pair, h.receiver.limits)
    ensures var r := R.Add(s.table, tx.pair, n, tx.Segment(tx.SegN()), 0.0, h.receiver.limits).1;
            r.Ok? && r.value.upper.Some? ==> r.value.lastSegmentSeq == Some(n)
  {
    var l := h.receiver.limits;
    var i := tx.SegN();
    var pruned := R.PruneTable(s.table, 0.0, l);
    var slot, room := R.SlotOf(pruned, tx.pair), R.Room(pruned, tx.pair, l);
    hide X.AllHeld, X.Progress, X.Holds, R.AddToSlot, R.RecordInSlot, R.OpenTxn, R.PruneTable, R.Room, X.ValidSent, E.RoomFor,
      E.Joined, Chunk, R.SlotOf;
    Sized(h, tx);
    NotAll(tx, held);
    Now(h);
    PrunedProgress(h, tx, s, held);
    if held == {} {
      E.PruneKeepsRoom(s.table, tx.pair, 0.0, l);
    }
    X.Reaches(tx, slot, held, i, n, 0.0, room);
    X.OpenHolds(tx, slot, held, i, 0.0);
    RecordLast(tx, slot, R.OpenTxn(slot, tx.Segment(i), 0.0), held, n, 0.0);
  }

  lemma NotAll(tx: X.Sent, held: set<nat>)
    requires tx.SegN() < tx.Count() && tx.SegN() !in held
    ensures !X.AllHeld(tx, held)
  {
  }

  lemma PrunedProgress(h: E.Hop, tx: X.Sent, s: State, held: set<nat>)
    requires Writes(h, tx) && E.Partway(h, tx, s, held, 0.0)
    ensures X.Progress(tx, R.SlotOf(R.PruneTable(s.table, 0.0, h.receiver.limits), tx.pair), held)
  {
    hide X.Progress, R.PruneTable, R.SlotOf, X.AllHeld, E.Joined;
    Now(h);
    E.PrunePartway(h, tx, s, held, 0.0, 0.0);
  }

  lemma AddKeys(t: R.Table, p: R.Pair, seq_: nat, segment: AccessSegment, a: real, b: real, l: R.Limits)
    requires t.Keys <= {p}
    ensures R.Add(R.PruneTable(t, a, l), p, seq_, segment, b, l).0.Keys <= {p}
  {
    hide R.AddToSlot, R.Prune;
  }

  /** What the peer does with the next segment in order: it holds one more, and answers the last. */
  ghost predicate Took(h: E.Hop, tx: X.Sent, from: nat, i: nat, o: Outcome, r: Result<R.AddResult, R.Refusal>)
  {
    && Held(h, tx, o.state, from, i + 1)
    && (i == tx.SegN() ==> o.ack == Some(AckJob(h.Src(), SeqZeroOf(tx), Rest(from, i + 1))))
    && r.Ok? && (r.value.upper.Some? ==> from == 0)
  }

  lemma SegmentTaken(h: E.Hop, tx: X.Sent, s: State, from: nat, i: nat)
    requires Writes(h, tx) && from <= i < tx.Count() && Held(h, tx, s, from, i)
    ensures !IsReplay(s.replay, h.Src(), tx.seqAuth + i)
    ensures var table := R.PruneTable(s.table, 0.0, h.receiver.limits);
            Took(h, tx, from, i, Handle(h.receiver, s, SegmentEvent(h, tx, i)),
                 R.Add(table, tx.pair, tx.seqAuth + i, tx.Segment(i), 0.0, h.receiver.limits).1)
  {
    hide E.LowerOf, Handle, HandleNetwork, ValidContext, E.Joined, Chunk, R.Add, R.PruneTable, E.Partway, X.Expected, X.AllHeld,
      HandleAdded, Took, X.ValidSent;
    var n := tx.seqAuth + i;
    var held := Span(from, i);
    var l := h.receiver.limits;
    Counted(tx);
    SegmentWritten(h, tx, i);
    SegmentHandled(h, tx, s, i);
    OneMoreHeld(tx, from, i);
    E.NoReplay(h, tx, s, held, 0.0, n);
    Now(h);
    E.PrunePartway(h, tx, s, held, 0.0, 0.0);
    var s1 := s.(table := R.PruneTable(s.table, 0.0, l));
    if from == i {
      E.PruneKeepsRoom(s.table, tx.pair, 0.0, l);
    }
    assert held == {} ==> from == i;
    E.AddPartway(h, tx, s1, held, i, n, 0.0, 0.0);
    var (table, r) := R.Add(s1.table, tx.pair, n, tx.Segment(i), 0.0, l);
    E.AnsweredOk(tx, held, i, r);
    E.HandledAdded(h, tx, s, i, n, 0.0, 0.0);
    AddKeys(s.table, tx.pair, n, tx.Segment(i), 0.0, 0.0, l);
    if i == tx.SegN() {
      AddLast(h, tx, s1, held, n);
    }
    AddedTook(h, tx, s, s1.(table := table), from, i, E.NetworkMessageOf(h, n, E.LowerOf(tx, i)), r);
  }

  lemma Now(h: E.Hop)
    requires E.Joined(h)
    ensures E.Within(h, 0.0, 0.0) && h.Src() != h.receiver.localAddress
  {
  }

  lemma AddedTook(h: E.Hop, tx: X.Sent, before: State, s: State, from: nat, i: nat, m: Network.NetworkMessage,
                  r: Result<R.AddResult, R.Refusal>)
    requires Writes(h, tx) && from <= i < tx.Count() && Held(h, tx, before, from, i)
    requires X.Expected(tx, Span(from, i), i, r) && r.Ok? && m.src == h.Src() && m.dst == h.dst && m.seq_ == tx.seqAuth + i
    requires s == before.(table := s.table) && E.Partway(h, tx, s, Span(from, i) + {i}, 0.0) && s.table.Keys <= {tx.pair}
    requires i == tx.SegN() && r.value.upper.Some? ==> r.value.lastSegmentSeq == Some(tx.seqAuth + i)
    ensures Took(h, tx, from, i, HandleAdded(h.receiver, s, m, tx.Segment(i), r.value), r)
  {
    hide DecryptAndDispatch, X.AllHeld, R.Bitmap, X.ValidSent, E.Partway, E.Joined, Chunk;
    Counted(tx);
    OneMoreHeld(tx, from, i);
    NumbersBelow(h, tx, before, from, i);
    var o := HandleAdded(h.receiver, s, m, tx.Segment(i), r.value);
    E.SamePartway(h, tx, s, o.state, Span(from, i + 1), 0.0);
  }

  lemma NumbersBelow(h: E.Hop, tx: X.Sent, s: State, from: nat, i: nat)
    requires E.Partway(h, tx, s, Span(from, i), 0.0) && !X.AllHeld(tx, Span(from, i))
    ensures h.Src() in s.replay ==> s.replay[h.Src()] < tx.seqAuth
  {
    hide X.Progress, R.TableInv, E.RoomFor, E.Numbered, X.AllHeld;
  }

  // ----- The earlier message -----

  /** A link whose ends understand each other, and whose sender has numbers for one attempt of each message. */
  ghost predicate Carries(h: E.Hop, k: Link)
  {
    && ValidLink(k) && Older(k) && h.sender == k.here && h.receiver == k.peer && h.dst == k.Dst() < 0x8000
    && forall t :: t in k.earlier + {k.tx} ==> Writes(h, t)
  }

  /** The segments of the first attempt from `from` to `to - 1`. */
  ghost function InOrder(h: E.Hop, tx: X.Sent, from: nat, to: nat): (events: seq<Event>)
    requires Writes(h, tx) && from <= to <= tx.Count()
    ensures |events| == to - from
  {
    if to == from then [] else InOrder(h, tx, from, to - 1) + [SegmentEvent(h, tx, to - 1)]
  }

  lemma {:induction false} InOrderAuthentic(h: E.Hop, k: Link, sent: set<X.Sent>, t: X.Sent, to: nat, i: nat)
    requires Carries(h, k) && t in sent && Writes(h, t) && i < to <= t.Count()
    ensures Authentic(k, sent, InOrder(h, t, 0, to)[i])
  {
    hide Writes, Older, SegmentIn, SegmentEvent, CutFrom, ValidContext;
    if i < to - 1 {
      InOrderAuthentic(h, k, sent, t, to - 1, i);
    } else {
      SegmentRead(h, t, i);
    }
  }

  lemma WholeBitmap(n: nat)
    requires n <= 32
    ensures Rest(0, n) == Pow2(n) - 1
  {
    hide R.BitsFrom, Pow2;
    R.BitmapExtend(Span(0, n), 32, n);
    R.BitmapFull(Span(0, n), n);
  }

  lemma NothingHeld(h: E.Hop, t: X.Sent, first: State)
    requires Writes(h, t) && first.table == map[] && first.replay == map[]
    ensures Held(h, t, first, 0, 0)
  {
    assert R.PendingPairs(first.table) == {};
    assert Span(0, 0) == {};
  }

  /** Given whole to the peer on its first day, the message is taken and acknowledged in full. */
  lemma {:induction false} Delivered(h: E.Hop, k: Link, t: X.Sent, first: State, n: nat)
    requires Carries(h, k) && t in k.earlier && Writes(h, t) && n <= t.Count() && first.table == map[] && first.replay == map[]
    ensures var (s, jobs) := PeerAfter(k, first, InOrder(h, t, 0, n));
            && Held(h, t, s, 0, n)
            && (n == t.Count() ==> AckJob(h.Src(), SeqZeroOf(t), Pow2(n) - 1) in jobs)
  {
    hide Writes, Handle, SegmentEvent, Held, ValidContext, Pow2, Rest;
    Sized(h, t);
    if n == 0 {
      NothingHeld(h, t, first);
    } else {
      Delivered(h, k, t, first, n - 1);
      var events := InOrder(h, t, 0, n);
      assert events[..n - 1] == InOrder(h, t, 0, n - 1);
      SegmentTaken(h, t, PeerAfter(k, first, events[..n - 1]).0, 0, n - 1);
      WholeBitmap(n);
    }
  }

  lemma Sized(h: E.Hop, t: X.Sent)
    requires Writes(h, t)
    ensures 1 <= t.Count() <= 32 && t.SegN() == t.Count() - 1
  {
    Counted(t);
  }

  /** After it, the peer is ready for the later message. */
  lemma ReadyAgain(h: E.Hop, t: X.Sent, tx: X.Sent, s: State, m: nat)
    requires Writes(h, t) && Writes(h, tx) && Held(h, t, s, 0, t.Count()) && t.seqAuth + 32 <= tx.seqAuth
    ensures Held(h, tx, s, m, m)
  {
    Counted(t);
    var slot := R.SlotOf(s.table, t.pair);
    assert X.AllHeld(t, Span(0, t.Count()));
    assert 0 in Span(0, t.Count());
    assert slot.pending.None? && X.Fresh(slot, tx.seqAuth);
    assert R.PendingPairs(s.table) == {};
    assert Span(m, m) == {};
    assert E.RoomFor(s.table, tx.pair, h.receiver.limits) by {
      assert t.pair in s.table;
    }
    hide R.TableInv, X.AllHeld, R.SlotInv, Chunk;
  }

  lemma NumbersLeft(a: nat, b: nat)
    requires a < b && a % 0x2000 == b % 0x2000
    ensures a + 0x2000 <= b
  {
  }

  // ----- The rest of the later message -----

  ghost function Resent(h: E.Hop, tx: X.Sent, from: nat, to: nat): seq<Arrival>
    requires Writes(h, tx) && from <= to <= tx.Count()
  {
    if to == from then [] else Resent(h, tx, from, to - 1) + [Peer(SegmentEvent(h, tx, to - 1))]
  }

  lemma {:induction false} ResentHere(h: E.Hop, tx: X.Sent, from: nat, to: nat)
    requires Writes(h, tx) && from <= to <= tx.Count()
    ensures HereOf(Resent(h, tx, from, to)) == []
  {
    hide Writes, SegmentEvent;
    if from < to {
      ResentHere(h, tx, from, to - 1);
      assert Resent(h, tx, from, to)[..|Resent(h, tx, from, to)| - 1] == Resent(h, tx, from, to - 1);
    }
  }

  lemma ResendStep(h: E.Hop, k: Link, w: World, m: nat, i: nat)
    requires Carries(h, k) && Writes(h, k.tx) && 1 <= m <= i < k.tx.Count() && Held(h, k.tx, w.peer, m, i) && !w.reassembled
    ensures Allowed(k, w, Peer(SegmentEvent(h, k.tx, i)))
    ensures var w' := Arrive(k, w, Peer(SegmentEvent(h, k.tx, i)));
            && w'.here == w.here && w.jobs <= w'.jobs && !w'.reassembled && Held(h, k.tx, w'.peer, m, i + 1)
            && (i == k.tx.SegN() ==> AckJob(h.Src(), k.SeqZero(), Rest(m, i + 1)) in w'.jobs)
  {
    hide Writes, Handle, SegmentEvent, Held, ValidContext, Rest, SegmentIn, R.Add, R.PruneTable, CutFrom, Older, E.LowerOf, Chunk;
    Sized(h, k.tx);
    SegmentRead(h, k.tx, i);
    SegmentTaken(h, k.tx, w.peer, m, i);
    SourceIs(h, k);
  }

  lemma SourceIs(h: E.Hop, k: Link)
    requires Carries(h, k)
    ensures ValidLink(k) && Writes(h, k.tx) && h.Src() == k.here.localAddress
    ensures h.dst == k.Dst() == k.peer.localAddress && h.Pair() == k.tx.pair
    ensures 1 <= h.Src() < 0x8000 && h.Src() != k.Dst() && 1 <= k.Dst() < 0x8000 && 1 <= k.tx.Count() <= 32
    ensures k.here.cipher == k.peer.cipher && k.here.keys == k.peer.keys && k.here.ivIndex == k.peer.ivIndex
  {
    hide ValidContext;
    assert k.tx in k.earlier + {k.tx};
    Counted(k.tx);
  }

  lemma {:induction false} Resends(h: E.Hop, k: Link, w: World, m: nat, to: nat)
    requires Carries(h, k) && Writes(h, k.tx) && 1 <= m <= to <= k.tx.Count() && Held(h, k.tx, w.peer, m, m) && !w.reassembled
    ensures AllowedRun(k, w, Resent(h, k.tx, m, to))
    ensures var w' := WorldAfter(k, w, Resent(h, k.tx, m, to));
            && w'.here == w.here && w.jobs <= w'.jobs && !w'.reassembled && Held(h, k.tx, w'.peer, m, to)
            && (m < to == k.tx.Count() ==> AckJob(h.Src(), k.SeqZero(), Rest(m, to)) in w'.jobs)
  {
    hide Writes, SegmentEvent, Held, ValidContext, Rest, Arrive, Allowed, Older;
    if m < to {
      Resends(h, k, w, m, to - 1);
      var arrivals := Resent(h, k.tx, m, to);
      assert arrivals[..|arrivals| - 1] == Resent(h, k.tx, m, to - 1);
      ResendStep(h, k, WorldAfter(k, w, Resent(h, k.tx, m, to - 1)), m, to - 1);
      Sized(h, k.tx);
    }
  }

  // ----- At the sender -----

  /** What the peer's background task sends of an acknowledgment under the transaction's SeqZero. */
  function AckMessage(k: Link, number: nat, blockAck: nat): Network.NetworkMessage
  {
    Network.NetworkMessage(1, 0, number, k.Dst(), k.here.localAddress, [0] + AckParams(k.SeqZero(), blockAck))
  }

  ghost function AckEvent(k: Link, number: nat, blockAck: nat): (e: Event)
    requires ValidLink(k)
    ensures e.NetworkPdu?
  {
    var r := Network.EncodeNetworkPdu(k.peer.cipher, k.peer.keys, k.peer.ivIndex, AckMessage(k, number, blockAck), false);
    NetworkPdu(if r.Ok? then r.value else [], 0.0, 0.0)
  }

  lemma AckRead(h: E.Hop, k: Link, number: nat, blockAck: nat, s: State)
    requires Carries(h, k) && number <= MAX_SEQUENCE && blockAck < 0x1_0000_0000
    ensures var e := AckEvent(k, number, blockAck);
            && AckIn(k.here, e) == Some((k.Dst(), SegmentAck(k.SeqZero(), blockAck, false)))
            && Handle(k.here, s, e) == HandleNetwork(k.here, s, AckMessage(k, number, blockAck), 0.0, 0.0)
  {
    SourceIs(h, k);
    var m := AckMessage(k, number, blockAck);
    hide Network.DecodeNetworkPdu, HandleNetwork, ParseSegmentAck, AckParams, Writes, Older;
    AckParses(k, number, blockAck);
    Network.NetworkRoundTrip(k.peer.cipher, k.peer.keys, k.peer.ivIndex, m, false);
  }

  lemma AckParses(k: Link, number: nat, blockAck: nat)
    requires blockAck < 0x1_0000_0000
    ensures var m := AckMessage(k, number, blockAck);
            |m.transport| == 7 && ParseSegmentAck(m.transport[1..]) == Ok(SegmentAck(k.SeqZero(), blockAck, false))
  {
    AckRoundTrip(k.SeqZero(), blockAck);
    hide ParseSegmentAck;
    assert AckMessage(k, number, blockAck).transport[1..] == AckParams(k.SeqZero(), blockAck);
  }

  /** The sender's entry while it waits for more than `acknowledged`. */
  function Waiting(k: Link, acknowledged: nat): map<nat, PendingAck>
  {
    map[k.SeqZero() := PendingAck(k.Dst(), k.tx.Count(), acknowledged, None)]
  }

  /** An acknowledgment with something new is taken for the transaction's own. */
  lemma AckTaken(k: Link, s: State, number: nat, blockAck: nat, acknowledged: nat)
    requires s.pending == Waiting(k, acknowledged) && !IsReplay(s.replay, k.Dst(), number)
    requires k.here.localAddress != k.Dst() && blockAck < 0x1_0000_0000
    requires 0 < blockAck < Pow2(k.tx.Count()) && AndNot(blockAck, acknowledged) != 0
    ensures var s' := HandleNetwork(k.here, s, AckMessage(k, number, blockAck), 0.0, 0.0).state;
            && s'.replay == Remember(s.replay, k.Dst(), number) && k.SeqZero() in s'.pending
            && s'.pending[k.SeqZero()] == PendingAck(k.Dst(), k.tx.Count(), Or(acknowledged, blockAck),
                                                      Some(SegmentAck(k.SeqZero(), blockAck, false)))
            && s'.pending.Keys == {k.SeqZero()}
  {
    AckParses(k, number, blockAck);
    hide ParseSegmentAck, AckParams, AndNot, Or, Pow2;
  }

  /** It arrives, if the peer has scheduled it. */
  lemma AckArrives(h: E.Hop, k: Link, w: World, number: nat, blockAck: nat, acknowledged: nat)
    requires Carries(h, k) && w.here.pending == Waiting(k, acknowledged) && AckJob(h.Src(), k.SeqZero(), blockAck) in w.jobs
    requires !IsReplay(w.here.replay, k.Dst(), number) && number <= MAX_SEQUENCE && blockAck < 0x1_0000_0000
    requires 0 < blockAck < Pow2(k.tx.Count()) && AndNot(blockAck, acknowledged) != 0
    ensures var e := Here(AckEvent(k, number, blockAck));
            var w' := Arrive(k, w, e);
            && Allowed(k, w, e) && w' == w.(here := w'.here) && w'.here.replay == Remember(w.here.replay, k.Dst(), number)
            && w'.here.pending.Keys == {k.SeqZero()}
            && w'.here.pending[k.SeqZero()] == PendingAck(k.Dst(), k.tx.Count(), Or(acknowledged, blockAck),
                                                          Some(SegmentAck(k.SeqZero(), blockAck, false)))
  {
    hide Handle, HandleNetwork, Writes, ValidContext, AckIn, Or, AndNot, Pow2, Older, Remember, AckMessage, AckEvent, X.ValidSent;
    SourceIs(h, k);
    AckRead(h, k, number, blockAck, w.here);
    AckTaken(k, w.here, number, blockAck, acknowledged);
  }

  // ----- The run that deceives -----

  lemma OneHere(e: Event)
    ensures HereOf([Here(e)]) == [e]
  {
    var round := [Here(e)];
    assert round[..0] == [];
    assert HereOf(round[..0]) == [];
  }

  lemma OneArrival(k: Link, w: World, e: Event)
    requires ValidLink(k)
    ensures After(k.here, w.here, [e]) == Handle(k.here, w.here, e).state
    ensures WorldAfter(k, w, [Here(e)]) == Arrive(k, w, Here(e))
    ensures AllowedRun(k, w, [Here(e)]) == Allowed(k, w, Here(e))
  {
    hide Handle, Allowed, Arrive, ValidContext;
    var round := [Here(e)];
    assert round[..0] == [] && [e][..0] == [];
    assert After(k.here, w.here, [e][..0]) == w.here;
    assert WorldAfter(k, w, round[..0]) == w && AllowedRun(k, w, round[..0]);
  }

  /** An attempt after which the sender takes itself to be done. */
  lemma LastRound(k: Link, w: World, outstanding: set<nat>, round: seq<Arrival>)
    requires ValidLink(k) && k.Dst() < 0x8000 && k.SeqZero() in w.here.pending
    requires w.here.pending[k.SeqZero()].dst == k.Dst() && AllowedRun(k, w, round) && Inbound(HereOf(round))
    requires var s := WorldAfter(k, w, round).here;
             k.SeqZero() in s.pending && Wake(s, k.SeqZero()).1 == Some(Returned)
    ensures (forall events :: events in HereRounds([round]) ==> Inbound(events)) && AllowedRounds(k, w, [round])
    ensures SendLoop(k.here, w.here, k.SeqZero(), outstanding, HereRounds([round])).1 == Returned
    ensures EndWorld(k, w, [round]).reassembled == WorldAfter(k, w, round).reassembled
  {
    WorldHere(k, w, round);
    hide Wake, AllowedRun, WorldAfter, After, ValidContext, X.ValidSent, HereOf, Inbound, Missing, Ascending;
    assert HereRounds([round]) == [HereOf(round)];
  }

  /** An attempt after which it goes on. */
  lemma EarlierRound(k: Link, w: World, outstanding: set<nat>, round: seq<Arrival>, next: seq<Arrival>)
    requires ValidLink(k) && k.Dst() < 0x8000 && k.SeqZero() in w.here.pending
    requires w.here.pending[k.SeqZero()].dst == k.Dst() && AllowedRun(k, w, round) && Inbound(HereOf(round))
    requires var s := WorldAfter(k, w, round).here;
             k.SeqZero() in s.pending && Wake(s, k.SeqZero()).1.None?
    requires var (w1, r) := NextWorld(k, w, round);
             && k.SeqZero() in w1.here.pending && w1.here.pending[k.SeqZero()].dst == k.Dst()
             && AllowedRun(k, w1, next) && Inbound(HereOf(next))
             && var s := WorldAfter(k, w1, next).here;
                k.SeqZero() in s.pending && Wake(s, k.SeqZero()).1 == Some(Returned)
    ensures (forall events :: events in HereRounds([round, next]) ==> Inbound(events)) && AllowedRounds(k, w, [round, next])
    ensures SendLoop(k.here, w.here, k.SeqZero(), outstanding, HereRounds([round, next])).1 == Returned
    ensures EndWorld(k, w, [round, next]).reassembled == WorldAfter(k, NextWorld(k, w, round).0, next).reassembled
  {
    WorldHere(k, w, round);
    var w1 := NextWorld(k, w, round).0;
    var p := WorldAfter(k, w, round).here.pending[k.SeqZero()];
    var left := if p.future.None? then outstanding else Missing(p.acknowledged, p.segmentCount);
    LastRound(k, w1, left, next);
    hide Wake, AllowedRun, WorldAfter, After, ValidContext, X.ValidSent, HereOf, Inbound, Missing, Ascending;
    assert HereRounds([round, next]) == [HereOf(round), HereOf(next)];
    assert [round, next][1..] == [next] && [HereOf(round), HereOf(next)][1..] == [HereOf(next)];
    assert HereRounds([next]) == [HereOf(next)];
  }

  /** The late copy of the earlier message's acknowledgment arrives first. */
  lemma LateArrives(h: E.Hop, k: Link, w: World, t: X.Sent, number: nat)
    requires Carries(h, k) && t in k.earlier && SeqZeroOf(t) == k.SeqZero() && t.Count() <= k.tx.Count()
    requires w.here.pending == Waiting(k, 0) && !IsReplay(w.here.replay, k.Dst(), number) && number <= MAX_SEQUENCE
    requires AckJob(h.Src(), k.SeqZero(), Pow2(t.Count()) - 1) in w.jobs
    ensures var m := t.Count();
            var n := k.tx.Count();
            var round := [Here(AckEvent(k, number, Pow2(m) - 1))];
            var w1 := WorldAfter(k, w, round);
            && 1 <= m <= n <= 32 && AllowedRun(k, w, round) && Inbound(HereOf(round)) && w1 == w.(here := w1.here)
            && w1.here.replay == Remember(w.here.replay, k.Dst(), number) && k.SeqZero() in w1.here.pending
            && Wake(w1.here, k.SeqZero()).1 == (if m == n then Some(Returned) else None)
            && (m < n ==> Wake(w1.here, k.SeqZero()).0 == w1.here.(pending := Waiting(k, Pow2(m) - 1)))
  {
    hide Handle, Writes, ValidLink, Carries, Missing, Or, AndNot, Pow2, Remember, AckEvent, Arrive, Allowed, IsReplay, WorldAfter,
      AllowedRun, HereOf, Wake, Span;
    var m, n := t.Count(), k.tx.Count();
    SourceIs(h, k);
    EarlierIs(h, k, t);
    WholeLeaves(m, n);
    var e := AckEvent(k, number, Pow2(m) - 1);
    AckArrives(h, k, w, number, Pow2(m) - 1, 0);
    OneArrival(k, w, e);
    OneHere(e);
    Reacts(WorldAfter(k, w, [Here(e)]).here, k, m, Pow2(m) - 1);
  }

  lemma EarlierIs(h: E.Hop, k: Link, t: X.Sent)
    requires Carries(h, k) && t in k.earlier
    ensures Writes(h, t) && 1 <= t.Count() <= 32
  {
    hide ValidContext;
    assert t in k.earlier + {k.tx};
    Counted(t);
  }

  /** The sender's reaction: done, or only the rest outstanding. */
  lemma Reacts(s: State, k: Link, m: nat, full: nat)
    requires 1 <= m <= k.tx.Count() && full != 0 && Missing(full, k.tx.Count()) == Span(m, k.tx.Count())
    requires s.pending.Keys == {k.SeqZero()}
    requires s.pending[k.SeqZero()]
             == PendingAck(k.Dst(), k.tx.Count(), full, Some(SegmentAck(k.SeqZero(), full, false)))
    ensures var (after, r) := Wake(s, k.SeqZero());
            if m == k.tx.Count() then r == Some(Returned) else r == None && after == s.(pending := Waiting(k, full))
  {
    hide Missing, Span;
    var n := k.tx.Count();
    assert m < n ==> m in Span(m, n);
    assert m == n ==> Span(m, n) == {};
    assert s.pending[k.SeqZero() := s.pending[k.SeqZero()].(future := None)] == Waiting(k, full);
  }

  /** The second attempt: only the rest is sent, and the peer answers the last segment with those bits alone. */
  ghost function SecondRound(h: E.Hop, k: Link, m: nat, number: nat): seq<Arrival>
    requires ValidLink(k) && Writes(h, k.tx) && m <= k.tx.Count()
  {
    Resent(h, k.tx, m, k.tx.Count()) + [Here(AckEvent(k, number, Rest(m, k.tx.Count())))]
  }

  lemma RestArrives(h: E.Hop, k: Link, w: World, m: nat, number: nat)
    requires Carries(h, k) && Writes(h, k.tx) && 1 <= m < k.tx.Count() && Held(h, k.tx, w.peer, m, m) && !w.reassembled
    requires w.here.pending == Waiting(k, Pow2(m) - 1) && !IsReplay(w.here.replay, k.Dst(), number) && number <= MAX_SEQUENCE
    ensures var round := SecondRound(h, k, m, number);
            var w2 := WorldAfter(k, w, round);
            && AllowedRun(k, w, round) && Inbound(HereOf(round)) && !w2.reassembled && k.SeqZero() in w2.here.pending
            && Wake(w2.here, k.SeqZero()).1 == Some(Returned)
  {
    hide Handle, Writes, ValidLink, Carries, Missing, Or, AndNot, Pow2, Rest, Resent, Held, Arrive, Allowed, AckEvent, WorldAfter,
      AllowedRun, HereOf, Wake, SecondRound, Remember, Inbound;
    var n := k.tx.Count();
    var rest := Resent(h, k.tx, m, n);
    SourceIs(h, k);
    var e := AckEvent(k, number, Rest(m, n));
    RestCompletes(m, n);
    ThirtyTwo(n);
    Resends(h, k, w, m, n);
    ResentHere(h, k.tx, m, n);
    AckArrives(h, k, WorldAfter(k, w, rest), number, Rest(m, n), Pow2(m) - 1);
    AfterMore(k, w, rest, e);
    Satisfied(WorldAfter(k, w, rest + [Here(e)]).here, k, Or(Pow2(m) - 1, Rest(m, n)), Rest(m, n));
    SecondIs(h, k, m, number);
  }

  lemma SecondIs(h: E.Hop, k: Link, m: nat, number: nat)
    requires ValidLink(k) && Writes(h, k.tx) && m <= k.tx.Count()
    ensures SecondRound(h, k, m, number)
            == Resent(h, k.tx, m, k.tx.Count()) + [Here(AckEvent(k, number, Rest(m, k.tx.Count())))]
  {
  }

  lemma AfterMore(k: Link, w: World, arrivals: seq<Arrival>, e: Event)
    requires ValidLink(k) && HereOf(arrivals) == [] && !e.Sending?
    ensures WorldAfter(k, w, arrivals + [Here(e)]) == Arrive(k, WorldAfter(k, w, arrivals), Here(e))
    ensures AllowedRun(k, w, arrivals + [Here(e)])
            == (AllowedRun(k, w, arrivals) && Allowed(k, WorldAfter(k, w, arrivals), Here(e)))
    ensures Inbound(HereOf(arrivals + [Here(e)]))
  {
    hide Allowed, Arrive, ValidLink;
    var more := arrivals + [Here(e)];
    assert more[..|arrivals|] == arrivals;
    assert HereOf(more) == [e];
  }

  /** A sender whose entry misses nothing is done. */
  lemma Satisfied(s: State, k: Link, acknowledged: nat, blockAck: nat)
    requires k.SeqZero() in s.pending && blockAck != 0 && Missing(acknowledged, k.tx.Count()) == {}
    requires s.pending[k.SeqZero()]
             == PendingAck(k.Dst(), k.tx.Count(), acknowledged, Some(SegmentAck(k.SeqZero(), blockAck, false)))
    ensures Wake(s, k.SeqZero()).1 == Some(Returned)
  {
    hide Missing;
  }

  lemma NextIs(k: Link, w: World, round: seq<Arrival>)
    requires ValidLink(k)
    ensures var w1 := WorldAfter(k, w, round);
            k.SeqZero() in w1.here.pending ==>
              NextWorld(k, w, round) == (w1.(here := Wake(w1.here, k.SeqZero()).0), Wake(w1.here, k.SeqZero()).1)
  {
  }

  lemma LaterNumber(replay: map<nat, nat>, src: nat, number: nat)
    requires !IsReplay(replay, src, number)
    ensures !IsReplay(Remember(replay, src, number), src, number + 1)
  {
  }

  lemma DeceivedBy(k: Link, here: State, first: State, events: seq<Event>, rounds: seq<seq<Arrival>>)
    requires ValidLink(k) && first.table == map[] && |rounds| <= 2
    requires forall i :: 0 <= i < |events| ==> Authentic(k, k.earlier, events[i])
    requires forall round :: round in HereRounds(rounds) ==> Inbound(round)
    requires var w := StartAfter(k, here, first, events);
             && AllowedRounds(k, w, rounds)
             && SendLoop(k.here, w.here, k.SeqZero(), Missing(0, k.tx.Count()), HereRounds(rounds)).1 == Returned
             && !EndWorld(k, w, rounds).reassembled
    ensures Deceived(k, here, first, events, rounds)
  {
    hide StartAfter, AllowedRounds, SendLoop, EndWorld, HereRounds, Authentic, ValidLink, Inbound, Missing;
  }

  /** The history: the peer takes the whole earlier message, and schedules the acknowledgment that will be late. */
  lemma LateHistory(h: E.Hop, k: Link, t: X.Sent, here: State, first: State) returns (events: seq<Event>, w: World)
    requires Carries(h, k) && t in k.earlier && SeqZeroOf(t) == k.SeqZero()
    requires here.pending == map[] && first.table == map[] && first.replay == map[]
    ensures forall i :: 0 <= i < |events| ==> Authentic(k, k.earlier, events[i])
    ensures w == StartAfter(k, here, first, events) && !w.reassembled
    ensures w.here == here.(pending := Waiting(k, 0)) && Writes(h, t) && Held(h, t, w.peer, 0, t.Count())
    ensures AckJob(h.Src(), k.SeqZero(), Pow2(t.Count()) - 1) in w.jobs && t.seqAuth + 32 <= k.tx.seqAuth
  {
    hide Writes, Handle, PeerAfter, InOrder, Authentic, Pow2, Held, ValidContext, X.ValidSent;
    assert Writes(h, t);
    Sized(h, t);
    NumbersLeft(t.seqAuth, k.tx.seqAuth);
    events := InOrder(h, t, 0, t.Count());
    forall i | 0 <= i < |events| ensures Authentic(k, k.earlier, events[i]) {
      InOrderAuthentic(h, k, k.earlier, t, t.Count(), i);
    }
    Delivered(h, k, t, first, t.Count());
    w := StartAfter(k, here, first, events);
  }

  /**
   Coming round to a SeqZero deceives. An earlier message of no more segments is received and
   acknowledged in full, every PDU the network carries is one its sender sent, and the later
   `_send_segmented` takes a late copy of that acknowledgment for one of its own. If its message
   has as many segments it returns at once; otherwise it sends again only the segments past the
   earlier message's, and returns when the peer acknowledges those. The peer has not
   reassembled the message in either case.
   */
  lemma LeftoverDeceives(h: E.Hop, k: Link, t: X.Sent, here: State, first: State, number: nat)
    returns (events: seq<Event>, rounds: seq<seq<Arrival>>)
    requires Carries(h, k) && t in k.earlier && SeqZeroOf(t) == k.SeqZero() && t.Count() <= k.tx.Count()
    requires here.pending == map[] && first.table == map[] && first.replay == map[]
    requires !IsReplay(here.replay, k.Dst(), number) && number < MAX_SEQUENCE
    ensures Deceived(k, here, first, events, rounds)
  {
    hide Handle, Writes, ValidLink, Carries, Missing, Or, AndNot, Pow2, Rest, Held, AckEvent, WorldAfter, AllowedRun, HereOf,
      Wake, SecondRound, Remember, Inbound, NextWorld, StartAfter, Authentic, AllowedRounds, SendLoop, EndWorld, HereRounds, Deceived,
      IsReplay;
    var m := t.Count();
    var w;
    SourceIs(h, k);
    events, w := LateHistory(h, k, t, here, first);
    var late := [Here(AckEvent(k, number, Pow2(m) - 1))];
    LateArrives(h, k, w, t, number);
    if m == k.tx.Count() {
      rounds := [late];
      LastRound(k, w, Missing(0, k.tx.Count()), late);
    } else {
      var w1 := NextWorld(k, w, late).0;
      NextIs(k, w, late);
      ReadyAgain(h, t, k.tx, w.peer, m);
      LaterNumber(here.replay, k.Dst(), number);
      RestArrives(h, k, w1, m, number + 1);
      var next := SecondRound(h, k, m, number + 1);
      rounds := [late, next];
      EarlierRound(k, w, Missing(0, k.tx.Count()), late, next);
    }
    DeceivedBy(k, here, first, events, rounds);
  }

  /**
   The exact condition. Whatever a sender has done before and whatever the network and the
   peer then do, a segmented send returns only when the peer has reassembled its message, if
   and only if every earlier message to that peer under the same SeqZero had more segments.
   */
  lemma TruthfulExactly(h: E.Hop, k: Link)
    requires Carries(h, k)
    ensures LongerBefore(k) <==>
            forall here, first, events, rounds :: !Deceived(k, here, first, events, rounds)
  {
    SourceIs(h, k);
    hide Writes, Attempted, StartAfter, SendLoop, EndWorld, HereRounds, Missing, ValidContext, X.ValidSent;
    if LongerBefore(k) {
      forall here, first, events, rounds ensures !Deceived(k, here, first, events, rounds) {
        if Deceived(k, here, first, events, rounds) {
          NotDeceived(k, here, first, events, rounds);
        }
      }
    } else {
      var t :| t in k.earlier && SeqZeroOf(t) == k.SeqZero() && t.Count() <= k.tx.Count();
      var idle := State(map[], map[], map[], None);
      var events, rounds := LeftoverDeceives(h, k, t, idle, idle, 0);
    }
  }

  lemma NotDeceived(k: Link, here: State, first: State, events: seq<Event>, rounds: seq<seq<Arrival>>)
    requires ValidLink(k) && LongerBefore(k) && Older(k) && k.Dst() < 0x8000
    ensures !Deceived(k, here, first, events, rounds)
  {
    hide PeerAfter, SendLoop, EndWorld, AllowedRounds, HereRounds, Authentic, Missing, ValidLink, LongerBefore, Older, Inbound,
      StartWorld;
    if Deceived(k, here, first, events, rounds) {
      ReturnedAfterHistory(k, here, first, events, rounds);
    }
  }
}
