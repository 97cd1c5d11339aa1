/**
 `ProxyClient`: the inbound handlers of `proxy.py` over the replay list it owns and the
 reassembler it shares, each proved to do what module `Proxy` says of it.
 */
module ProxyClient {
  import opened Prelude
  import opened Bits
  import opened LowerTransport
  import Network
  import R = Reassembly
  import opened Proxy
  import opened SegmentedTransfer
  import opened SegmentedSend
  import SegmentReassembler

  /** A loop's remaining outcome, with what was written before it. */
  ghost function Before(pdus: seq<Bytes>, rest: (State, Ending, seq<Bytes>)): (State, Ending, seq<Bytes>)
  {
    (rest.0, rest.1, pdus + rest.2)
  }

  lemma BeforeNothing(rest: (State, Ending, seq<Bytes>))
    ensures Before([], rest) == rest
  {
    assert [] + rest.2 == rest.2;
  }

  lemma BeforeTwice(a: seq<Bytes>, b: seq<Bytes>, rest: (State, Ending, seq<Bytes>))
    ensures Before(a, Before(b, rest)) == Before(a + b, rest)
  {
    assert a + (b + rest.2) == (a + b) + rest.2;
  }

  lemma NoAttemptsLeft(ctx: Context, o: Outgoing, s: State, outstanding: set<nat>, attempts: seq<Attempt>, first: bool)
    requires ValidContext(ctx) && attempts == []
    ensures Attempts(ctx, o, s, outstanding, attempts, first) == (s, Ended(NotAcknowledged), [])
  {
  }

  /** `set(range(n))` */
  function Range(n: nat): set<nat>
  {
    if n == 0 then {} else Range(n - 1) + {n - 1}
  }

  lemma {:induction false} NothingMissing(n: nat)
    ensures Missing(0, n) == Range(n)
  {
    if n > 0 {
      NothingMissing(n - 1);
      ShrZero(n - 1);
      assert Missing(0, n) == Missing(0, n - 1) + {n - 1};
    }
  }

  /** One attempt of the sending loop. */
  lemma Unrolled(ctx: Context, o: Outgoing, s: State, outstanding: set<nat>, attempts: seq<Attempt>, first: bool)
    requires ValidContext(ctx) && |attempts| > 0 && forall a :: a in attempts ==> Arriving(a, |o.segments|)
    ensures var a := attempts[0];
            && |o.segments| <= |a.turns| && (forall b :: b in attempts[1..] ==> Arriving(b, |o.segments|))
            && Attempts(ctx, o, s, outstanding, attempts, first)
               == var (s1, ok, pdus) := Transmitted(ctx, o, s, outstanding, a, first, |o.segments|);
                  if !ok then (s1, Failed, pdus)
                  else if o.dst >= 0x8000 then (s1, Ended(Returned), pdus)
                  else
                    var s2 := After(ctx, s1, a.wait);
                    if a.cancelled || o.SeqZero() !in s2.pending then (s2, Failed, pdus)
                    else
                      var (s3, r) := Wake(s2, o.SeqZero());
                      if r.Some? then (s3, Ended(r.value), pdus)
                      else
                        var p := s2.pending[o.SeqZero()];
                        var left := if p.future.None? then outstanding else Missing(p.acknowledged, p.segmentCount);
                        Before(pdus, Attempts(ctx, o, s3, left, attempts[1..], false))
  {
    hide Wake, Missing, After, Transmitted;
    assert Arriving(attempts[0], |o.segments|);
  }

  /** The entry of the transaction survives an attempt's sends. */
  lemma {:induction false} EntryKept(ctx: Context, o: Outgoing, s: State, outstanding: set<nat>, a: Attempt, first: bool, n: nat)
    requires ValidContext(ctx) && Arriving(a, |o.segments|) && n <= |o.segments| && o.SeqZero() in s.pending
    ensures var after := Transmitted(ctx, o, s, outstanding, a, first, n).0;
            o.SeqZero() in after.pending && after.pending[o.SeqZero()].dst == s.pending[o.SeqZero()].dst
            && after.pending[o.SeqZero()].segmentCount == s.pending[o.SeqZero()].segmentCount
  {
    if n > 0 {
      hide After, ValidContext, Transmitted;
      EntryKept(ctx, o, s, outstanding, a, first, n - 1);
      TransmittedNext(ctx, o, s, outstanding, a, first, n - 1);
      TakenIs(ctx, o, Transmitted(ctx, o, s, outstanding, a, first, n - 1).0, a.turns[n - 1], first, n - 1);
      hide Taken, Encodes;
      PendingKept(ctx, Transmitted(ctx, o, s, outstanding, a, first, n - 1).0, a.turns[n - 1].arrivals, o.SeqZero());
    }
  }

  class ProxyClient {
    const ctx: Context
    const reassembler: SegmentReassembler.SegmentReassembler
    var replayList: map<nat, nat>
    var pendingAck: map<nat, PendingAck>
    var filterStatus: Option<bool>
    /** Acknowledgments handed to background tasks, and messages handed to listeners, so far. */
    var scheduled: seq<AckJob>
    var dispatched: seq<AccessMessage>

    ghost predicate Valid()
      reads this, reassembler
    {
      ValidContext(ctx) && reassembler.Valid() && reassembler.limits == ctx.limits
    }

    ghost function View(): State
      reads this, reassembler
    {
      State(replayList, reassembler.Table(), pendingAck, filterStatus)
    }

    /** A new BLE session keeps the replay list and reassembler its owner retained. */
    constructor (ctx: Context, reassembler: SegmentReassembler.SegmentReassembler, replayList: map<nat, nat>)
      requires ValidContext(ctx) && reassembler.Valid() && reassembler.limits == ctx.limits
      ensures Valid() && this.ctx == ctx && this.reassembler == reassembler
      ensures View() == State(replayList, reassembler.Table(), map[], None) && scheduled == [] && dispatched == []
    {
      this.ctx, this.reassembler, this.replayList := ctx, reassembler, replayList;
      pendingAck, filterStatus, scheduled, dispatched := map[], None, [], [];
    }

    /** The object has moved from `before` to where `o` says. */
    ghost predicate Did(before: State, jobs: seq<AckJob>, messages: seq<AccessMessage>, o: Outcome)
      reads this, reassembler
    {
      View() == o.state && scheduled == jobs + Listed(o.ack) && dispatched == messages + Listed(o.message)
    }

    method IsReplay(src: nat, seq_: nat) returns (replayed: bool)
      ensures replayed == Proxy.IsReplay(replayList, src, seq_)
    {
      return src in replayList && seq_ <= replayList[src];
    }

    method RememberSequence(src: nat, seq_: nat)
      modifies `replayList
      ensures replayList == Remember(old(replayList), src, seq_)
    {
      replayList := replayList[src := if src in replayList then Max(seq_, replayList[src]) else seq_];
    }

    method ScheduleSegmentAck(m: Network.NetworkMessage, seqZero: nat, blockAck: nat)
      modifies `scheduled
      ensures scheduled == old(scheduled) + Listed(AckFor(ctx, m, seqZero, blockAck))
    {
      if m.dst == ctx.localAddress {
        scheduled := scheduled + [AckJob(m.src, seqZero, blockAck)];
      }
    }

    method DecryptAndDispatch(src: nat, dst: nat, upper: Bytes, akf: nat, aid: nat, szmic: nat, seqAuth: nat)
      returns (accepted: bool)
      modifies `dispatched
      ensures var message := Proxy.DecryptAndDispatch(ctx, src, dst, upper, akf, aid, szmic, seqAuth);
              accepted == message.Some? && dispatched == old(dispatched) + Listed(message)
    {
      var candidates: seq<(Bytes, bool)> := [];
      if akf == 0 {
        if src in ctx.deviceKeys && |ctx.deviceKeys[src]| > 0 {
          candidates := [(ctx.deviceKeys[src], true)];
        }
      } else if aid == ctx.aid {
        candidates := [(ctx.appKey, false)];
      }
      for i := 0 to |candidates|
        invariant dispatched == old(dispatched)
        invariant i > 0 ==> Proxy.DecryptAndDispatch(ctx, src, dst, upper, akf, aid, szmic, seqAuth).None?
      {
        var (key, isDeviceKey) := candidates[i];
        var accessPdu :=
          Network.DecryptAccess(ctx.cipher, key, isDeviceKey, ctx.ivIndex, seqAuth, src, dst, upper, szmic);
        if accessPdu.Some? {
          var decoded := Network.DecodeOpcode(accessPdu.value);
          if decoded.Ok? {
            var (opcode, parameters) := decoded.value;
            dispatched := dispatched + [AccessMessage(src, dst, opcode, parameters, isDeviceKey)];
            return true;
          }
        }
      }
      return false;
    }

    method HandleProxyConfig(m: Network.NetworkMessage)
      requires Valid()
      modifies this
      ensures Valid() && Did(old(View()), old(scheduled), old(dispatched), Proxy.HandleProxyConfig(old(View()), m))
    {
      var replayed := IsReplay(m.src, m.seq_);
      if replayed {
        return;
      }
      if |m.transport| != 4 || m.transport[0] != PROXY_CONFIG_FILTER_STATUS
         || m.transport[1] != PROXY_FILTER_ACCEPT_LIST {
        return;
      }
      RememberSequence(m.src, m.seq_);
      if filterStatus.Some? {
        filterStatus := Some(true);
      }
    }

    method HandleControl(m: Network.NetworkMessage)
      requires Valid() && |m.transport| >= 1
      modifies this
      ensures Valid() && Did(old(View()), old(scheduled), old(dispatched), Proxy.HandleControl(ctx, old(View()), m))
    {
      var replayed := IsReplay(m.src, m.seq_);
      if replayed || m.transport[0] % 128 != CONTROL_OPCODE_SEGMENT_ACK {
        return;
      }
      var parsed := ParseSegmentAck(m.transport[1..]);
      if parsed.Err? {
        return;
      }
      var ack := parsed.value;
      if ack.seqZero !in pendingAck || pendingAck[ack.seqZero].future.Some? {
        return;
      }
      var pending := pendingAck[ack.seqZero];
      if m.dst != ctx.localAddress || m.src != pending.dst || ack.blockAck >= Pow2(pending.segmentCount) {
        return;
      }
      var newlyAcknowledged := AndNot(ack.blockAck, pending.acknowledged);
      if ack.blockAck != 0 && newlyAcknowledged == 0 {
        return;
      }
      pending := pending.(acknowledged := Or(pending.acknowledged, ack.blockAck));
      RememberSequence(m.src, m.seq_);
      pending := pending.(future := Some(ack));
      pendingAck := pendingAck[ack.seqZero := pending];
    }

    method HandleSegment(m: Network.NetworkMessage, nowAck: real, nowAdd: real)
      requires Valid()
      modifies this, reassembler
      ensures Valid()
      ensures Did(old(View()), old(scheduled), old(dispatched),
                  Proxy.HandleSegment(ctx, old(View()), m, nowAck, nowAdd))
    {
      hide R.Add, R.PruneTable, R.AckFromSlot, R.SlotOf, Proxy.HandleAdded, ParseAccessSegment, ValidContext;
      var parsed := ParseAccessSegment(m.seq_, m.transport);
      if parsed.Err? {
        return;
      }
      var segment := parsed.value;
      var completedAck := reassembler.CompletedAck(m.src, m.dst, segment.seqAuth, nowAck);
      var replayed := IsReplay(m.src, m.seq_);
      if replayed {
        if completedAck.Some? {
          ScheduleSegmentAck(m, segment.seqZero, completedAck.value);
        }
        return;
      }
      var added := reassembler.Add(m.src, m.dst, m.seq_, segment, nowAdd);
      if added.Ok? {
        HandleAdded(m, segment, added.value);
      }
    }

    method HandleAdded(m: Network.NetworkMessage, segment: AccessSegment, r: R.AddResult)
      requires Valid()
      modifies this
      ensures Valid()
      ensures Did(old(View()), old(scheduled), old(dispatched), Proxy.HandleAdded(ctx, old(View()), m, segment, r))
    {
      if r.alreadyComplete {
        ScheduleSegmentAck(m, segment.seqZero, r.blockAck);
        return;
      }
      if r.upper.None? || r.lastSegmentSeq.None? {
        if segment.segO == segment.segN {
          ScheduleSegmentAck(m, segment.seqZero, r.blockAck);
        }
        return;
      }
      ScheduleSegmentAck(m, segment.seqZero, r.blockAck);
      var replayed := IsReplay(m.src, r.lastSegmentSeq.value);
      if replayed {
        return;
      }
      var accepted := DecryptAndDispatch(m.src, m.dst, r.upper.value, segment.akf, segment.aid, segment.szmic,
                                         segment.seqAuth);
      if accepted {
        RememberSequence(m.src, r.lastSegmentSeq.value);
      }
    }

    method HandleUnsegmented(m: Network.NetworkMessage)
      requires Valid() && |m.transport| >= 1
      modifies this
      ensures Valid()
      ensures Did(old(View()), old(scheduled), old(dispatched), Proxy.HandleUnsegmented(ctx, old(View()), m))
    {
      var replayed := IsReplay(m.src, m.seq_);
      if replayed {
        return;
      }
      var akf, aid := m.transport[0] / 64 % 2, m.transport[0] % 64;
      var accepted := DecryptAndDispatch(m.src, m.dst, m.transport[1..], akf, aid, 0, m.seq_);
      if accepted {
        RememberSequence(m.src, m.seq_);
      }
    }

    /** `_on_proxy_pdu`: a PDU that does not decode is dropped. */
    method OnProxyPdu(e: Event)
      requires Valid() && !e.Sending?
      modifies this, reassembler
      ensures Valid() && Did(old(View()), old(scheduled), old(dispatched), Handle(ctx, old(View()), e))
    {
      hide Network.DecodeNetworkPdu, Proxy.HandleProxyConfig, Proxy.HandleControl, Proxy.HandleSegment,
        Proxy.HandleUnsegmented, R.TableInv;
      var decoded := Network.DecodeNetworkPdu(ctx.cipher, ctx.keys, ctx.ivIndex, e.payload, e.ProxyConfigPdu?);
      if decoded.Err? {
        return;
      }
      var m := decoded.value;
      if e.ProxyConfigPdu? {
        HandleProxyConfig(m);
        return;
      }
      if m.src == ctx.localAddress || |m.transport| == 0 {
        return;
      }
      if m.ctl != 0 {
        HandleControl(m);
      } else if m.transport[0] >= 128 {
        HandleSegment(m, e.nowAck, e.nowAdd);
      } else {
        HandleUnsegmented(m);
      }
    }

    /** The registration `_send_segmented` makes before its first attempt. */
    ghost function Registered(seqZero: nat, dst: nat, segmentCount: nat): State
      reads this, reassembler
    {
      View().(pending := pendingAck[seqZero := PendingAck(dst, segmentCount, 0, None)])
    }

    /** The upper transport PDU cut into segments, or the builder's refusal. */
    function Segments(seqAuth: nat, dst: nat, accessPdu: Bytes, key: Bytes, akf: nat, aid: nat, useDeviceKey: bool)
      : Result<seq<Bytes>, LowerTransport.Error>
      requires akf < 2
    {
      BuildAccessSegments(akf, aid, seqAuth % 0x2000,
                          Network.EncryptAccess(ctx.cipher, key, useDeviceKey, ctx.ivIndex, seqAuth, ctx.localAddress, dst,
                                                accessPdu, 0), 0)
    }

    /**
     `_send_segmented`, from its first number to its `finally`; `attempts` holds what its awaits
     come to. `pdus` lists the network PDUs written.
     */
    method SendSegmented(dst: nat, accessPdu: Bytes, key: Bytes, akf: nat, aid: nat, useDeviceKey: bool, ttl: nat,
                         number: Option<nat>, attempts: seq<Attempt>)
      returns (r: Ending, pdus: seq<Bytes>)
      requires Valid() && akf < 2 && |attempts| == ATTEMPTS && forall a :: a in attempts ==> Arriving(a, 32)
      modifies this, reassembler
      ensures Valid()
      ensures number.None? || Segments(number.value, dst, accessPdu, key, akf, aid, useDeviceKey).Err? ==>
                View() == old(View()) && r == Failed && pdus == []
      ensures number.Some? && Segments(number.value, dst, accessPdu, key, akf, aid, useDeviceKey).Ok? ==>
                var segments := Segments(number.value, dst, accessPdu, key, akf, aid, useDeviceKey).value;
                var o := Outgoing(number.value, dst, ttl, segments);
                (forall a :: a in attempts ==> Arriving(a, |segments|))
                && var (end, ending, written) :=
                     Attempts(ctx, o, old(Registered(o.SeqZero(), dst, |segments|)), Missing(0, |segments|), attempts, true);
                   View() == end.(pending := end.pending - {o.SeqZero()}) && r == ending && pdus == written
    {
      hide Attempts, Handle, R.TableInv, Network.EncryptAccess, Chunk, SegmentPdu, Missing, Inbound;
      r, pdus := Failed, [];
      if number.None? {
        return;
      }
      var seqZero := number.value % 0x2000;
      var built := Segments(number.value, dst, accessPdu, key, akf, aid, useDeviceKey);
      if built.Err? {
        return;
      }
      var o := Outgoing(number.value, dst, ttl, built.value);
      pendingAck := pendingAck[seqZero := PendingAck(dst, |o.segments|, 0, None)];
      r, pdus := SendAttempts(o, attempts);
      pendingAck := pendingAck - {seqZero};
    }

    /** The attempts, the transaction being registered. */
    method SendAttempts(o: Outgoing, attempts: seq<Attempt>) returns (r: Ending, pdus: seq<Bytes>)
      requires Valid() && |attempts| == ATTEMPTS && forall a :: a in attempts ==> Arriving(a, |o.segments|)
      requires o.SeqZero() in pendingAck && pendingAck[o.SeqZero()].dst == o.dst
      requires pendingAck[o.SeqZero()].segmentCount == |o.segments|
      modifies this, reassembler
      ensures Valid()
      ensures var (end, ending, written) := Attempts(ctx, o, old(View()), Missing(0, |o.segments|), attempts, true);
              View() == end && r == ending && pdus == written
    {
      hide Attempts, Transmitted, Handle, R.TableInv, Wake, After, Missing, Inbound, Arriving;
      var seqZero := o.SeqZero();
      var segments := o.segments;
      pdus := [];
      ghost var start := View();
      var outstanding: set<nat> := Range(|segments|);
      NothingMissing(|segments|);
      r := Ended(NotAcknowledged);
      assert attempts[0..] == attempts;
      BeforeNothing(Attempts(ctx, o, start, outstanding, attempts, true));
      for attempt := 0 to ATTEMPTS
        invariant Valid() && r == Ended(NotAcknowledged) && seqZero in pendingAck
        invariant pendingAck[seqZero].dst == o.dst && pendingAck[seqZero].segmentCount == |segments|
        invariant Attempts(ctx, o, start, Missing(0, |segments|), attempts, true)
                  == Before(pdus, Attempts(ctx, o, View(), outstanding, attempts[attempt..], attempt == 0))
      {
        ghost var rest := attempts[attempt..];
        var a := attempts[attempt];
        assert rest[0] == a && rest[1..] == attempts[attempt + 1..];
        ghost var s, already, former := View(), pdus, outstanding;
        assert Arriving(a, |segments|);
        Unrolled(ctx, o, s, outstanding, rest, attempt == 0);
        Turns(a, |segments|);
        EntryKept(ctx, o, s, outstanding, a, attempt == 0, |segments|);
        var ok, written := Transmit(o, outstanding, a, attempt == 0);
        pdus := pdus + written;
        if !ok {
          r := Failed;
          break;
        }
        if o.dst >= 0x8000 {
          r := Ended(Returned);
          break;
        }
        PendingKept(ctx, View(), a.wait, seqZero);
        Await(a.wait);
        if a.cancelled {
          r := Failed;
          break;
        }
        var result;
        result, outstanding := React(seqZero, outstanding);
        if result.Some? {
          r := Ended(result.value);
          break;
        }
        assert Attempts(ctx, o, s, former, rest, attempt == 0)
               == Before(written, Attempts(ctx, o, View(), outstanding, rest[1..], false));
        BeforeTwice(already, written, Attempts(ctx, o, View(), outstanding, attempts[attempt + 1..], false));
      }
      if r == Ended(NotAcknowledged) {
        NoAttemptsLeft(ctx, o, View(), outstanding, attempts[ATTEMPTS..], false);
      }
    }

    /** The end of a wait: nothing heard, or an acknowledgment that ends the loop or leaves less to send. */
    method React(seqZero: nat, outstanding: set<nat>) returns (r: Option<SendResult>, left: set<nat>)
      requires Valid() && seqZero in pendingAck
      modifies `pendingAck
      ensures Valid() && (View(), r) == Wake(old(View()), seqZero)
      ensures seqZero in pendingAck && pendingAck[seqZero].dst == old(pendingAck[seqZero].dst)
              && pendingAck[seqZero].segmentCount == old(pendingAck[seqZero].segmentCount)
      ensures var p := old(pendingAck[seqZero]);
              left == if p.future.None? then outstanding else Missing(p.acknowledged, p.segmentCount)
    {
      var p := pendingAck[seqZero];
      left := outstanding;
      if p.future.None? {
        return None, outstanding;
      }
      left := set i: nat | i < p.segmentCount && !Bit(p.acknowledged, i);
      assert left == Missing(p.acknowledged, p.segmentCount);
      if p.future.value.blockAck == 0 {
        return Some(Cancelled), left;
      }
      if left == {} {
        return Some(Returned), left;
      }
      pendingAck := pendingAck[seqZero := p.(future := None)];
      return None, left;
    }

    /** One attempt's sends: every outstanding segment in order, until one of the awaits raises. */
    method Transmit(o: Outgoing, outstanding: set<nat>, a: Attempt, first: bool) returns (ok: bool, pdus: seq<Bytes>)
      requires Valid() && Arriving(a, |o.segments|)
      modifies this, reassembler
      ensures Valid() && (View(), ok, pdus) == Transmitted(ctx, o, old(View()), outstanding, a, first, |o.segments|)
    {
      hide Handle, R.TableInv, After, Network.EncodeNetworkPdu, Transmitted;
      ok, pdus := true, [];
      TransmittedNone(ctx, o, View(), outstanding, a, first);
      for index := 0 to |o.segments|
        invariant Valid() && (View(), ok, pdus) == Transmitted(ctx, o, old(View()), outstanding, a, first, index)
      {
        ghost var s, already := View(), pdus;
        TransmittedNext(ctx, o, old(View()), outstanding, a, first, index);
        assert already + [] == already;
        if ok && index in outstanding {
          var turn := a.turns[index];
          var next := if first && index == 0 then Some(o.seqAuth) else turn.number;
          Await(turn.arrivals);
          if next.None? {
            ok := false;
          } else {
            var pdu := Network.EncodeNetworkPdu(ctx.cipher, ctx.keys, ctx.ivIndex, MessageOf(ctx, o, next.value, index), false);
            if pdu.Err? || !turn.written {
              ok := false;
            } else {
              pdus := pdus + [pdu.value];
            }
          }
        }
      }
    }

    /** Handle everything that arrives until the wait ends. */
    method Await(round: seq<Event>)
      requires Valid() && Inbound(round)
      modifies this, reassembler
      ensures Valid() && View() == After(ctx, old(View()), round)
    {
      hide Handle, R.TableInv;
      for i := 0 to |round|
        invariant Valid() && View() == After(ctx, old(View()), round[..i])
      {
        assert round[..i + 1][..i] == round[..i];
        OnProxyPdu(round[i]);
      }
      assert round[..|round|] == round;
    }
  }
}
