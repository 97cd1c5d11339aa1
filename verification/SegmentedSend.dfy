/**
 `_send_segmented` of `proxy.py` down to the PDUs it hands to the transport, with every await at
 which it can fail: a sequence number refused, a write that raises, a task cancelled.
 */
module SegmentedSend {
  import opened Prelude
  import opened LowerTransport
  import opened Proxy
  import opened SegmentedTransfer
  import Network

  /** What the loop works with: the transaction's first number and its lower transport PDUs. */
  datatype Outgoing = Outgoing(seqAuth: nat, dst: nat, ttl: nat, segments: seq<Bytes>) {
    function SeqZero(): nat { seqAuth % 0x2000 }
  }

  /**
   One segment's turn: the number `_next_seq` hands out, if it does; the PDUs that arrive while
   it is allocated, written and waited for; and whether the write comes back.
   */
  datatype Turn = Turn(number: Option<nat>, arrivals: seq<Event>, written: bool)

  /** One attempt: a turn for each segment, and what arrives until the wait ends, or the task is cancelled. */
  datatype Attempt = Attempt(turns: seq<Turn>, wait: seq<Event>, cancelled: bool)

  /** How the method ends: as its loop says, or with an exception from one of its awaits. */
  datatype Ending = Ended(result: SendResult) | Failed

  ghost predicate Arriving(a: Attempt, count: nat)
  {
    count <= |a.turns| && Inbound(a.wait) && forall i :: 0 <= i < |a.turns| ==> Inbound(a.turns[i].arrivals)
  }

  function MessageOf(ctx: Context, o: Outgoing, number: nat, index: nat): Network.NetworkMessage
    requires index < |o.segments|
  {
    Network.NetworkMessage(0, o.ttl, number, ctx.localAddress, o.dst, o.segments[index])
  }

  /** The number of a turn: the first segment of the first attempt goes out under the transaction's own. */
  function NumberOf(o: Outgoing, first: bool, index: nat, turn: Turn): Option<nat>
  {
    if first && index == 0 then Some(o.seqAuth) else turn.number
  }

  /** One segment's turn: what arrives is let in, and the PDU is written, or something raises. */
  ghost function Taken(ctx: Context, o: Outgoing, s: State, turn: Turn, first: bool, index: nat): (State, Option<Bytes>)
    requires ValidContext(ctx) && index < |o.segments|
  {
    var number := NumberOf(o, first, index, turn);
    var after := After(ctx, s, turn.arrivals);
    if number.None? then (after, None)
    else
      var pdu := Network.EncodeNetworkPdu(ctx.cipher, ctx.keys, ctx.ivIndex, MessageOf(ctx, o, number.value, index), false);
      (after, if pdu.Ok? && turn.written then Some(pdu.value) else None)
  }

  /** One attempt's sends, up to segment `n - 1`: the state left, whether all went out, and the PDUs written. */
  ghost function Transmitted(ctx: Context, o: Outgoing, s: State, outstanding: set<nat>, a: Attempt, first: bool, n: nat)
    : (State, bool, seq<Bytes>)
    requires ValidContext(ctx) && n <= |o.segments| <= |a.turns|
  {
    if n == 0 then (s, true, [])
    else
      var (before, ok, pdus) := Transmitted(ctx, o, s, outstanding, a, first, n - 1);
      if !ok || n - 1 !in outstanding then (before, ok, pdus)
      else
        var (after, pdu) := Taken(ctx, o, before, a.turns[n - 1], first, n - 1);
        (after, pdu.Some?, pdus + Listed(pdu))
  }

  /** The attempts still to make: the state left, how the method ends, and the PDUs written. */
  ghost function Attempts(ctx: Context, o: Outgoing, s: State, outstanding: set<nat>, attempts: seq<Attempt>, first: bool)
    : (State, Ending, seq<Bytes>)
    requires ValidContext(ctx) && forall a :: a in attempts ==> Arriving(a, |o.segments|)
    decreases |attempts|
  {
    if |attempts| == 0 then (s, Ended(NotAcknowledged), [])
    else
      assert Arriving(attempts[0], |o.segments|);
      var a := attempts[0];
      var (s1, ok, pdus) := Transmitted(ctx, o, s, outstanding, a, first, |o.segments|);
      if !ok then (s1, Failed, pdus)
      else if o.dst >= 0x8000 then (s1, Ended(Returned), pdus)
      else
        var s2 := After(ctx, s1, a.wait);
        if a.cancelled || o.SeqZero() !in s2.pending then (s2, Failed, pdus)
        else
          var (s3, r) := Wake(s2, o.SeqZero());
          if r.Some? then (s3, Ended(r.value), pdus)
          else
            var p := s2.pending[o.SeqZero()];
            var left := if p.future.None? then outstanding else Missing(p.acknowledged, p.segmentCount);
            var (end, ending, more) := Attempts(ctx, o, s3, left, attempts[1..], false);
            (end, ending, pdus + more)
  }

  lemma TransmittedNone(ctx: Context, o: Outgoing, s: State, outstanding: set<nat>, a: Attempt, first: bool)
    requires ValidContext(ctx) && |o.segments| <= |a.turns|
    ensures Transmitted(ctx, o, s, outstanding, a, first, 0) == (s, true, [])
  {
  }

  lemma TransmittedNext(ctx: Context, o: Outgoing, s: State, outstanding: set<nat>, a: Attempt, first: bool, n: nat)
    requires ValidContext(ctx) && n < |o.segments| <= |a.turns|
    ensures var (before, ok, pdus) := Transmitted(ctx, o, s, outstanding, a, first, n);
            Transmitted(ctx, o, s, outstanding, a, first, n + 1)
            == if !ok || n !in outstanding then (before, ok, pdus)
               else
                 var (after, pdu) := Taken(ctx, o, before, a.turns[n], first, n);
                 (after, pdu.Some?, pdus + Listed(pdu))
  {
    hide Taken;
  }

  // ----- What arrives, as the transfer's rounds -----

  /** Everything that arrives during an attempt's sends, up to segment `n - 1`. */
  function Heard(outstanding: set<nat>, a: Attempt, n: nat): seq<Event>
    requires n <= |a.turns|
  {
    if n == 0 then []
    else Heard(outstanding, a, n - 1) + (if n - 1 in outstanding then a.turns[n - 1].arrivals else [])
  }

  ghost function RoundOf(o: Outgoing, outstanding: set<nat>, a: Attempt): seq<Event>
    requires |o.segments| <= |a.turns|
  {
    Heard(outstanding, a, |o.segments|) + (if o.dst >= 0x8000 then [] else a.wait)
  }

  lemma {:induction false} AfterBoth(ctx: Context, s: State, a: seq<Event>, b: seq<Event>)
    requires ValidContext(ctx)
    ensures After(ctx, s, a + b) == After(ctx, After(ctx, s, a), b)
  {
    if |b| == 0 {
      assert a + b == a;
    } else {
      hide Handle;
      AfterBoth(ctx, s, a, b[..|b| - 1]);
      assert (a + b)[..|a + b| - 1] == a + b[..|b| - 1];
    }
  }

  lemma {:induction false} HeardInbound(outstanding: set<nat>, a: Attempt, count: nat, n: nat)
    requires Arriving(a, count) && n <= count
    ensures Inbound(Heard(outstanding, a, n))
  {
    if n > 0 {
      HeardInbound(outstanding, a, count, n - 1);
    }
  }

  lemma RoundInbound(o: Outgoing, outstanding: set<nat>, a: Attempt)
    requires Arriving(a, |o.segments|)
    ensures Inbound(RoundOf(o, outstanding, a))
  {
    HeardInbound(outstanding, a, |o.segments|, |o.segments|);
  }

  /** The PDUs are those of the indexes, in order: each an encoding of its segment under some number. */
  ghost predicate PdusOf(ctx: Context, o: Outgoing, indexes: seq<nat>, pdus: seq<Bytes>)
    requires ValidContext(ctx)
  {
    && |pdus| == |indexes|
    && forall j :: 0 <= j < |pdus| ==> indexes[j] < |o.segments| && Encodes(ctx, o, indexes[j], pdus[j])
  }

  ghost predicate Encodes(ctx: Context, o: Outgoing, index: nat, pdu: Bytes)
    requires ValidContext(ctx) && index < |o.segments|
  {
    exists number ::
      Network.EncodeNetworkPdu(ctx.cipher, ctx.keys, ctx.ivIndex, MessageOf(ctx, o, number, index), false) == Ok(pdu)
  }

  lemma TakenIs(ctx: Context, o: Outgoing, s: State, turn: Turn, first: bool, index: nat)
    requires ValidContext(ctx) && index < |o.segments|
    ensures var (after, pdu) := Taken(ctx, o, s, turn, first, index);
            after == After(ctx, s, turn.arrivals) && (pdu.Some? ==> Encodes(ctx, o, index, pdu.value))
  {
    hide After, Network.EncodeNetworkPdu, ValidContext, MessageOf;
  }

  lemma PdusGrow(ctx: Context, o: Outgoing, indexes: seq<nat>, pdus: seq<Bytes>, index: nat, pdu: Bytes)
    requires ValidContext(ctx) && PdusOf(ctx, o, indexes, pdus) && index < |o.segments| && Encodes(ctx, o, index, pdu)
    ensures PdusOf(ctx, o, indexes + [index], pdus + [pdu])
  {
    hide Encodes, ValidContext;
  }

  /** What a failing attempt writes is as far as it got. */
  ghost predicate WroteUpTo(ctx: Context, o: Outgoing, indexes: seq<nat>, pdus: seq<Bytes>)
    requires ValidContext(ctx)
  {
    |pdus| <= |indexes| && PdusOf(ctx, o, indexes[..|pdus|], pdus)
  }

  /** An attempt's sends let in what arrives, and write the outstanding segments in order, or as far as they get. */
  lemma {:induction false} TransmittedIs(ctx: Context, o: Outgoing, s: State, outstanding: set<nat>, a: Attempt, first: bool,
                                         n: nat)
    requires ValidContext(ctx) && n <= |o.segments| <= |a.turns|
    ensures var (after, ok, pdus) := Transmitted(ctx, o, s, outstanding, a, first, n);
            && (ok ==> after == After(ctx, s, Heard(outstanding, a, n)) && PdusOf(ctx, o, Ascending(outstanding, n), pdus))
            && WroteUpTo(ctx, o, Ascending(outstanding, n), pdus)
  {
    hide After, ValidContext, Taken, PdusOf, Transmitted, Encodes;
    if n == 0 {
      TransmittedNone(ctx, o, s, outstanding, a, first);
      NothingHappens(ctx, s);
      NoPdus(ctx, o);
    } else {
      TransmittedIs(ctx, o, s, outstanding, a, first, n - 1);
      TransmittedNext(ctx, o, s, outstanding, a, first, n - 1);
      var (before, ok, pdus) := Transmitted(ctx, o, s, outstanding, a, first, n - 1);
      var earlier := Ascending(outstanding, n - 1);
      assert earlier[..|earlier|] == earlier;
      if ok && n - 1 in outstanding {
        TakenIs(ctx, o, before, a.turns[n - 1], first, n - 1);
        AfterBoth(ctx, s, Heard(outstanding, a, n - 1), a.turns[n - 1].arrivals);
        var pdu := Taken(ctx, o, before, a.turns[n - 1], first, n - 1).1;
        PdusSize(ctx, o, earlier, pdus);
        assert (earlier + [n - 1])[..|earlier|] == earlier;
        assert (earlier + [n - 1])[..|earlier| + 1] == earlier + [n - 1];
        if pdu.Some? {
          PdusGrow(ctx, o, earlier, pdus, n - 1, pdu.value);
        } else {
          assert pdus + Listed(pdu) == pdus;
        }
      } else {
        assert Heard(outstanding, a, n - 1) + [] == Heard(outstanding, a, n - 1);
        assert earlier + [] == earlier;
        assert Ascending(outstanding, n)[..|pdus|] == earlier[..|pdus|];
      }
    }
  }

  lemma NoPdus(ctx: Context, o: Outgoing)
    requires ValidContext(ctx)
    ensures PdusOf(ctx, o, [], [])
  {
  }

  lemma PdusSize(ctx: Context, o: Outgoing, indexes: seq<nat>, pdus: seq<Bytes>)
    requires ValidContext(ctx) && PdusOf(ctx, o, indexes, pdus)
    ensures |pdus| == |indexes|
  {
  }

  lemma NothingHappens(ctx: Context, s: State)
    requires ValidContext(ctx)
    ensures After(ctx, s, []) == s
  {
  }

  // ----- The whole method -----

  /** The attempts as the transfer's rounds, until the loop ends. */
  ghost function RoundsOf(ctx: Context, o: Outgoing, s: State, outstanding: set<nat>, attempts: seq<Attempt>)
    : (rounds: seq<seq<Event>>)
    requires ValidContext(ctx) && forall a :: a in attempts ==> Arriving(a, |o.segments|)
    ensures |rounds| <= |attempts| && forall round :: round in rounds ==> Inbound(round)
    decreases |attempts|
  {
    if |attempts| == 0 then []
    else
      assert Arriving(attempts[0], |o.segments|);
      var round := RoundOf(o, outstanding, attempts[0]);
      RoundInbound(o, outstanding, attempts[0]);
      var s2 := After(ctx, s, round);
      if o.dst >= 0x8000 || o.SeqZero() !in s2.pending || Wake(s2, o.SeqZero()).1.Some? then [round]
      else
        var p := s2.pending[o.SeqZero()];
        var left := if p.future.None? then outstanding else Missing(p.acknowledged, p.segmentCount);
        [round] + RoundsOf(ctx, o, Wake(s2, o.SeqZero()).0, left, attempts[1..])
  }

  /**
   Unless one of its awaits raises, the method is the sending loop over what arrived: the same
   state, the same ending, and one PDU for each segment index the loop transmits, in order.
   */
  lemma {:induction false} AttemptsAreLoop(ctx: Context, o: Outgoing, s: State, outstanding: set<nat>, attempts: seq<Attempt>,
                                           first: bool)
    requires ValidContext(ctx) && forall a :: a in attempts ==> Arriving(a, |o.segments|)
    requires o.SeqZero() in s.pending && s.pending[o.SeqZero()].dst == o.dst
    requires s.pending[o.SeqZero()].segmentCount == |o.segments|
    ensures var (end, ending, pdus) := Attempts(ctx, o, s, outstanding, attempts, first);
            var (end', result, indexes) := SendLoop(ctx, s, o.SeqZero(), outstanding, RoundsOf(ctx, o, s, outstanding, attempts));
            ending.Ended? ==> end == end' && ending.result == result && PdusOf(ctx, o, indexes, pdus)
    decreases |attempts|
  {
    hide After, ValidContext, Transmitted, Ascending, Missing, PdusOf, Wake, Heard, Arriving, Inbound;
    if |attempts| == 0 {
      NoPdus(ctx, o);
    } else {
      assert Arriving(attempts[0], |o.segments|);
      var a := attempts[0];
      var n := |o.segments|;
      Turns(a, n);
      TransmittedIs(ctx, o, s, outstanding, a, first, n);
      AfterBoth(ctx, s, Heard(outstanding, a, n), a.wait);
      var round := RoundOf(o, outstanding, a);
      RoundInbound(o, outstanding, a);
      PendingKept(ctx, s, round, o.SeqZero());
      var rounds := RoundsOf(ctx, o, s, outstanding, attempts);
      assert rounds[0] == round;
      assert Heard(outstanding, a, n) + [] == Heard(outstanding, a, n);
      var ok := Transmitted(ctx, o, s, outstanding, a, first, n).1;
      var s2 := After(ctx, s, round);
      if ok && o.dst < 0x8000 && !a.cancelled && Wake(s2, o.SeqZero()).1.None? {
        var p := s2.pending[o.SeqZero()];
        var left := if p.future.None? then outstanding else Missing(p.acknowledged, p.segmentCount);
        WakeEntry(s2, o.SeqZero());
        AttemptsAreLoop(ctx, o, Wake(s2, o.SeqZero()).0, left, attempts[1..], false);
        assert rounds[1..] == RoundsOf(ctx, o, Wake(s2, o.SeqZero()).0, left, attempts[1..]);
        var pdus := Transmitted(ctx, o, s, outstanding, a, first, n).2;
        var (_, ending, more) := Attempts(ctx, o, Wake(s2, o.SeqZero()).0, left, attempts[1..], false);
        var indexes := SendLoop(ctx, Wake(s2, o.SeqZero()).0, o.SeqZero(), left, rounds[1..]).2;
        if ending.Ended? {
          PdusJoin(ctx, o, Ascending(outstanding, n), pdus, indexes, more);
        }
      }
    }
  }

  lemma WakeEntry(s: State, seqZero: nat)
    requires seqZero in s.pending
    ensures var after := Wake(s, seqZero).0;
            seqZero in after.pending && after.pending[seqZero].dst == s.pending[seqZero].dst
            && after.pending[seqZero].segmentCount == s.pending[seqZero].segmentCount
  {
  }

  lemma PdusJoin(ctx: Context, o: Outgoing, a: seq<nat>, pdus: seq<Bytes>, b: seq<nat>, more: seq<Bytes>)
    requires ValidContext(ctx) && PdusOf(ctx, o, a, pdus) && PdusOf(ctx, o, b, more)
    ensures PdusOf(ctx, o, a + b, pdus + more)
  {
    hide Encodes, ValidContext;
  }

  lemma Turns(a: Attempt, n: nat)
    requires Arriving(a, n)
    ensures |a.turns| >= n && Inbound(a.wait)
  {
  }

  /** So what its returning means of the loop, it means of the method. */
  lemma SentMeansReassembled(k: Link, o: Outgoing, here: State, peer: State, jobs: set<AckJob>, attempts: seq<Attempt>,
                             rounds: seq<seq<Arrival>>)
    requires ValidLink(k) && LongerBefore(k) && Older(k) && k.Dst() < 0x8000 && Past(k, peer, jobs)
    requires o.dst == k.Dst() && o.SeqZero() == k.SeqZero() && |o.segments| == k.tx.Count()
    requires forall a :: a in attempts ==> Arriving(a, |o.segments|)
    requires var w := StartWorld(k, here, peer, jobs);
             && RoundsOf(k.here, o, w.here, Missing(0, k.tx.Count()), attempts) == HereRounds(rounds)
             && AllowedRounds(k, w, rounds)
             && Attempts(k.here, o, w.here, Missing(0, k.tx.Count()), attempts, true).1 == Ended(Returned)
    ensures EndWorld(k, StartWorld(k, here, peer, jobs), rounds).reassembled
  {
    hide RoundsOf, HereRounds, AllowedRounds, EndWorld, SendLoop, Attempts, Arriving, Inbound, LongerBefore, Older, Past, Missing;
    var w := StartWorld(k, here, peer, jobs);
    AttemptsAreLoop(k.here, o, w.here, Missing(0, k.tx.Count()), attempts, true);
    ReturnedMeansReassembled(k, here, peer, jobs, rounds);
  }
}
