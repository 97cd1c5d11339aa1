/**
 Proxy PDU framing over GATT (`gatt.py`): the sender's segmentation and the receiver's
 segmentation-and-reassembly machine.
 */
module Sar {
  import opened Prelude

  const SAR_COMPLETE := 0
  const SAR_FIRST := 1
  const SAR_CONTINUATION := 2
  const SAR_LAST := 3
  const SEGMENT_SIZE := 19

  /** `MAX_PROXY_MESSAGE_LENGTH` */
  function Limit(msgType: nat): Option<nat>
  {
    if msgType == 0 then Some(29)
    else if msgType == 1 then Some(27)
    else if msgType == 2 then Some(29)
    else if msgType == 3 then Some(65)
    else None
  }

  function Header(sar: nat, msgType: nat): byte
    requires sar < 4 && msgType < 64
  {
    64 * sar + msgType
  }

  function SarOf(frame: Bytes): nat
    requires |frame| > 0
  {
    frame[0] / 64
  }

  function TypeOf(frame: Bytes): nat
    requires |frame| > 0
  {
    frame[0] % 64
  }

  /** Frames the receiver takes notice of; empty and unsupported ones are ignored. */
  predicate Supported(frame: Bytes)
  {
    |frame| > 0 && Limit(TypeOf(frame)).Some?
  }

  // ----- What a frame sequence means -----

  type Message = (nat, Bytes)

  function Body(frame: Bytes): Bytes
  {
    if |frame| == 0 then [] else frame[1..]
  }

  function Join(frames: seq<Bytes>): Bytes
  {
    if |frames| == 0 then [] else Join(frames[..|frames| - 1]) + Body(frames[|frames| - 1])
  }

  predicate Is(frame: Bytes, sar: nat, msgType: nat)
  {
    |frame| > 0 && SarOf(frame) == sar && TypeOf(frame) == msgType
  }

  /** FIRST, then CONTINUATION frames, all of one type. */
  ghost predicate OpenRun(frames: seq<Bytes>, msgType: nat)
  {
    |frames| > 0 && Is(frames[0], SAR_FIRST, msgType)
    && forall i :: 1 <= i < |frames| ==> Is(frames[i], SAR_CONTINUATION, msgType)
  }

  /** One whole transfer: a COMPLETE frame alone, or an open run closed by LAST. */
  ghost predicate Transfer(frames: seq<Bytes>, m: Message)
  {
    Limit(m.0).Some? && |m.1| <= Limit(m.0).value && Join(frames) == m.1
    && ((|frames| == 1 && Is(frames[0], SAR_COMPLETE, m.0))
        || (|frames| >= 2 && Is(frames[|frames| - 1], SAR_LAST, m.0) && OpenRun(frames[..|frames| - 1], m.0)))
  }

  function Flatten(parts: seq<seq<Bytes>>): seq<Bytes>
  {
    if |parts| == 0 then [] else Flatten(parts[..|parts| - 1]) + parts[|parts| - 1]
  }

  // ----- The receiver -----

  datatype Rx = Rx(rxType: Option<nat>, buffer: Bytes, failed: bool)

  const IDLE := Rx(None, [], false)
  const FAILED := Rx(None, [], true)

  datatype Event = Frame(data: Bytes) | TimedOut

  /** One notification, or the timer armed by FIRST running out; yields the messages dispatched. */
  function Step(rx: Rx, event: Event): (Rx, seq<Message>)
  {
    match event
    case TimedOut => if rx.rxType.Some? then (FAILED, []) else (rx, [])
    case Frame(data) =>
      if rx.failed || !Supported(data) then (rx, [])
      else
        var sar, msgType, body := SarOf(data), TypeOf(data), data[1..];
        var limit := Limit(msgType).value;
        if sar == SAR_COMPLETE then
          if rx.rxType.Some? || |body| > limit then (FAILED, []) else (rx, [(msgType, body)])
        else if sar == SAR_FIRST then
          if rx.rxType.Some? || |body| > limit then (FAILED, []) else (Rx(Some(msgType), body, false), [])
        else if rx.rxType != Some(msgType) || |rx.buffer| + |body| > limit then (FAILED, [])
        else if sar == SAR_LAST then (IDLE, [(msgType, rx.buffer + body)])
        else (rx.(buffer := rx.buffer + body), [])
  }

  function Run(rx: Rx, events: seq<Event>): (Rx, seq<Message>)
  {
    if |events| == 0 then (rx, [])
    else
      var (before, sent) := Run(rx, events[..|events| - 1]);
      var (after, last) := Step(before, events[|events| - 1]);
      (after, sent + last)
  }

  /** The supported frames among a session's events, in order. */
  function SupportedFrames(events: seq<Event>): seq<Bytes>
  {
    if |events| == 0 then []
    else
      var last := events[|events| - 1];
      SupportedFrames(events[..|events| - 1])
      + (if last.Frame? && Supported(last.data) then [last.data] else [])
  }

  /** The transport's receive fields, its write side, and the messages it has dispatched. */
  class MeshGattTransport {
    var rxType: Option<nat>
    var rxBuf: Bytes
    var protocolFailed: bool
    var dispatched: seq<Message>
    var written: seq<Bytes>
    /** How many more characteristic writes the link will take before one times out. */
    var linkBudget: nat

    ghost function State(): Rx
      reads this
    {
      Rx(rxType, rxBuf, protocolFailed)
    }

    constructor (linkBudget: nat)
      ensures State() == IDLE && dispatched == [] && written == [] && this.linkBudget == linkBudget
    {
      rxType, rxBuf, protocolFailed, dispatched, written := None, [], false, [], [];
      this.linkBudget := linkBudget;
    }

    /** `start`: only this clears an earlier protocol failure. */
    method Start()
      modifies this
      ensures State() == IDLE
      ensures unchanged(`dispatched) && unchanged(`written) && unchanged(`linkBudget)
    {
      ResetRx();
      protocolFailed := false;
    }

    /** `stop`: drops a partial transfer but keeps the failure latched. */
    method Stop()
      modifies this
      ensures State() == Rx(None, [], old(protocolFailed))
      ensures unchanged(`dispatched) && unchanged(`written) && unchanged(`linkBudget)
    {
      ResetRx();
    }

    method ResetRx()
      modifies `rxType, `rxBuf
      ensures rxType == None && rxBuf == []
    {
      rxType, rxBuf := None, [];
    }

    method FailProtocol()
      modifies `rxType, `rxBuf, `protocolFailed
      ensures State() == FAILED
    {
      ResetRx();
      protocolFailed := true;
    }

    method NotificationHandler(data: Bytes)
      modifies this
      ensures State() == Step(old(State()), Frame(data)).0
      ensures dispatched == old(dispatched) + Step(old(State()), Frame(data)).1
      ensures unchanged(`written) && unchanged(`linkBudget)
    {
      if |data| == 0 || protocolFailed {
        return;
      }
      var sar := SarOf(data);
      var msgType := TypeOf(data);
      var body := data[1..];
      var limit := Limit(msgType);
      if limit.None? {
        return;
      }
      if sar == SAR_COMPLETE {
        if rxType.Some? || |body| > limit.value {
          FailProtocol();
          return;
        }
        dispatched := dispatched + [(msgType, body)];
        return;
      }
      if sar == SAR_FIRST {
        if rxType.Some? || |body| > limit.value {
          FailProtocol();
          return;
        }
        rxType, rxBuf := Some(msgType), body;
        return;
      }
      if rxType != Some(msgType) {
        FailProtocol();
        return;
      }
      if |rxBuf| + |body| > limit.value {
        FailProtocol();
        return;
      }
      rxBuf := rxBuf + body;
      if sar == SAR_LAST {
        var payload := rxBuf;
        ResetRx();
        dispatched := dispatched + [(msgType, payload)];
      }
    }

    /** The timer callback; it exists only while a transfer is open. */
    method SarTimedOut()
      modifies this
      ensures State() == Step(old(State()), TimedOut).0
      ensures unchanged(`dispatched) && unchanged(`written) && unchanged(`linkBudget)
    {
      if rxType.Some? {
        FailProtocol();
      }
    }

    /** `send`: all the frames of one payload, or as many as the link took before it failed. */
    method Send(msgType: nat, payload: Bytes) returns (r: Result<(), SendError>)
      modifies `written, `linkBudget
      ensures r == Err(ValueError) <==> Limit(msgType).None? || |payload| > Limit(msgType).value
      ensures r == Err(ValueError) ==> written == old(written) && linkBudget == old(linkBudget)
      ensures r.Ok? ==> written == old(written) + SentFrames(msgType, payload)
      ensures r == Err(LinkTimeout) ==>
        old(linkBudget) < |SentFrames(msgType, payload)|
        && written == old(written) + SentFrames(msgType, payload)[..old(linkBudget)]
    {
      var limit := Limit(msgType);
      if limit.None? || |payload| > limit.value {
        return Err(ValueError);
      }
      ghost var frames := SentFrames(msgType, payload);
      if |payload| <= SEGMENT_SIZE {
        var ok := Write([Header(SAR_COMPLETE, msgType)] + payload);
        return if ok then Ok(()) else Err(LinkTimeout);
      }
      var chunks := Chunks(payload);
      for index := 0 to |chunks|
        invariant linkBudget == old(linkBudget) - index
        invariant written == old(written) + frames[..index]
      {
        var sar := if index == 0 then SAR_FIRST
                   else if index == |chunks| - 1 then SAR_LAST else SAR_CONTINUATION;
        var ok := Write([Header(sar, msgType)] + chunks[index]);
        if !ok {
          return Err(LinkTimeout);
        }
        assert frames[..index + 1] == frames[..index] + [frames[index]];
      }
      return Ok(());
    }

    method Write(data: Bytes) returns (ok: bool)
      modifies `written, `linkBudget
      ensures ok == (old(linkBudget) > 0)
      ensures ok ==> written == old(written) + [data] && linkBudget == old(linkBudget) - 1
      ensures !ok ==> written == old(written) && linkBudget == old(linkBudget)
    {
      ok := linkBudget > 0;
      if ok {
        written := written + [data];
        linkBudget := linkBudget - 1;
      }
    }
  }

  datatype SendError = ValueError | LinkTimeout

  /** `[payload[i:i+19] for i in range(0, len(payload), 19)]` */
  function Chunks(payload: Bytes): (chunks: seq<Bytes>)
  {
    if |payload| == 0 then []
    else if |payload| <= SEGMENT_SIZE then [payload]
    else [payload[..SEGMENT_SIZE]] + Chunks(payload[SEGMENT_SIZE..])
  }

  /** The frames `send` writes for one payload. */
  function SentFrames(msgType: nat, payload: Bytes): (frames: seq<Bytes>)
    requires Limit(msgType).Some?
    ensures |frames| == if |payload| <= SEGMENT_SIZE then 1 else |Chunks(payload)|
  {
    if |payload| <= SEGMENT_SIZE then [[Header(SAR_COMPLETE, msgType)] + payload]
    else
      var chunks := Chunks(payload);
      seq(|chunks|, i requires 0 <= i < |chunks| =>
          [Header(if i == 0 then SAR_FIRST else if i == |chunks| - 1 then SAR_LAST else SAR_CONTINUATION, msgType)]
          + chunks[i])
  }

  // ----- Everything delivered was framed -----

  /** The session's frames so far, explained: whole transfers, then what is still open. */
  ghost predicate Explains(events: seq<Event>, parts: seq<seq<Bytes>>, rest: seq<Bytes>)
  {
    var (rx, sent) := Run(IDLE, events);
    && |parts| == |sent|
    && (forall i :: 0 <= i < |parts| ==> Transfer(parts[i], sent[i]))
    && Flatten(parts) + rest <= SupportedFrames(events)
    && (!rx.failed ==> Flatten(parts) + rest == SupportedFrames(events))
    && (rx.rxType.None? ==> rest == [] && rx.buffer == [])
    && (rx.rxType.Some? ==>
          OpenRun(rest, rx.rxType.value) && Join(rest) == rx.buffer && !rx.failed
          && Limit(rx.rxType.value).Some? && |rx.buffer| <= Limit(rx.rxType.value).value)
  }

  lemma JoinSnoc(frames: seq<Bytes>, frame: Bytes)
    ensures Join(frames + [frame]) == Join(frames) + Body(frame)
  {
    assert (frames + [frame])[..|frames|] == frames;
  }

  lemma FlattenSnoc(parts: seq<seq<Bytes>>, part: seq<Bytes>)
    ensures Flatten(parts + [part]) == Flatten(parts) + part
  {
    assert (parts + [part])[..|parts|] == parts;
  }

  lemma SupportedSnoc(events: seq<Event>)
    requires |events| > 0
    ensures var last := events[|events| - 1];
            SupportedFrames(events) == SupportedFrames(events[..|events| - 1])
              + (if last.Frame? && Supported(last.data) then [last.data] else [])
  {
  }

  /** What an opening or extending frame leaves is an open run, within the limit. */
  lemma OpeningIsOpen(rx: Rx, rest: seq<Bytes>, frame: Bytes)
    requires Supported(frame) && !rx.failed
    requires SarOf(frame) == SAR_FIRST || SarOf(frame) == SAR_CONTINUATION
    requires Step(rx, Frame(frame)).0 != FAILED
    requires rx.rxType.None? ==> rest == [] && rx.buffer == []
    requires rx.rxType.Some? ==> OpenRun(rest, rx.rxType.value) && Join(rest) == rx.buffer
    ensures var (after, sent) := Step(rx, Frame(frame));
            && sent == [] && after.rxType.Some? && !after.failed
            && OpenRun(rest + [frame], after.rxType.value) && Join(rest + [frame]) == after.buffer
            && Limit(after.rxType.value).Some? && |after.buffer| <= Limit(after.rxType.value).value
  {
    JoinSnoc(rest, frame);
  }

  /** A frame that opens or extends a transfer. */
  lemma ExplainOpening(events: seq<Event>, frame: Bytes, parts: seq<seq<Bytes>>, rest: seq<Bytes>)
    requires Explains(events, parts, rest) && Supported(frame) && !Run(IDLE, events).0.failed
    requires SarOf(frame) == SAR_FIRST || SarOf(frame) == SAR_CONTINUATION
    requires Step(Run(IDLE, events).0, Frame(frame)).0 != FAILED
    ensures Explains(events + [Frame(frame)], parts, rest + [frame])
  {
    hide Transfer, Join, Flatten, SupportedFrames, Run, Step, OpenRun, Supported, Limit;
    var next := events + [Frame(frame)];
    assert next[..|events|] == events;
    OpeningIsOpen(Run(IDLE, events).0, rest, frame);
    RunSnoc(IDLE, events, Frame(frame));
    SupportedSnoc(next);
    assert Flatten(parts) + (rest + [frame]) == Flatten(parts) + rest + [frame];
  }

  lemma ClosingIdles(rx: Rx, frame: Bytes)
    requires Supported(frame) && !rx.failed && (SarOf(frame) == SAR_COMPLETE || SarOf(frame) == SAR_LAST)
    requires Step(rx, Frame(frame)).0 != FAILED && (rx.rxType.None? ==> rx.buffer == [])
    ensures Step(rx, Frame(frame)).0 == IDLE
  {
  }

  /** A frame that completes a transfer. */
  lemma ExplainClosing(events: seq<Event>, frame: Bytes, parts: seq<seq<Bytes>>, rest: seq<Bytes>)
    requires Explains(events, parts, rest) && Supported(frame) && !Run(IDLE, events).0.failed
    requires SarOf(frame) == SAR_COMPLETE || SarOf(frame) == SAR_LAST
    requires Step(Run(IDLE, events).0, Frame(frame)).0 != FAILED
    ensures Explains(events + [Frame(frame)], parts + [rest + [frame]], [])
  {
    hide Transfer, Join, Flatten, SupportedFrames, Run, Step, OpenRun, Supported, Limit;
    var rx, sent := Run(IDLE, events).0, Run(IDLE, events).1;
    ClosingIsTransfer(rx, rest, frame);
    ClosingIdles(rx, frame);
    RunSnoc(IDLE, events, Frame(frame));
    var next := events + [Frame(frame)];
    assert next[..|events|] == events;
    SupportedSnoc(next);
    FlattenSnoc(parts, rest + [frame]);
    assert Flatten(parts) + (rest + [frame]) == Flatten(parts) + rest + [frame];
    assert Flatten(parts + [rest + [frame]]) + [] == SupportedFrames(next);
  }

  lemma ClosingIsTransfer(rx: Rx, rest: seq<Bytes>, frame: Bytes)
    requires Supported(frame) && !rx.failed
    requires SarOf(frame) == SAR_COMPLETE || SarOf(frame) == SAR_LAST
    requires Step(rx, Frame(frame)).0 != FAILED
    requires rx.rxType.None? ==> rest == [] && rx.buffer == []
    requires rx.rxType.Some? ==> OpenRun(rest, rx.rxType.value) && Join(rest) == rx.buffer
    ensures |Step(rx, Frame(frame)).1| == 1 && Transfer(rest + [frame], Step(rx, Frame(frame)).1[0])
  {
    JoinSnoc(rest, frame);
    assert (rest + [frame])[..|rest|] == rest;
  }

  /** Any event that delivers nothing and leaves the receiver idle or failed. */
  lemma ExplainSilence(events: seq<Event>, event: Event, parts: seq<seq<Bytes>>, rest: seq<Bytes>)
    requires Explains(events, parts, rest)
    requires var rx := Run(IDLE, events).0;
             Step(rx, event) == (FAILED, [])
             || (Step(rx, event) == (rx, []) && (rx.failed || event.TimedOut? || !Supported(event.data)))
    ensures Explains(events + [event], parts, if Run(IDLE, events + [event]).0.failed then [] else rest)
  {
    var next := events + [event];
    assert next[..|events|] == events;
    SupportedSnoc(next);
    assert Flatten(parts) + [] == Flatten(parts);
    assert Flatten(parts) <= Flatten(parts) + rest;
  }

  /**
   In every session the messages delivered are, in order, exactly the whole transfers at the
   front of the supported frames received; an unfailed receiver has accounted for all of
   them but one open run, which is what its buffer holds, within the type's limit.
   */
  lemma {:induction false} DeliveredWasFramed(events: seq<Event>) returns (parts: seq<seq<Bytes>>, rest: seq<Bytes>)
    ensures Explains(events, parts, rest)
  {
    if |events| == 0 {
      parts, rest := [], [];
    } else {
      var before := events[..|events| - 1];
      var last := events[|events| - 1];
      assert events == before + [last];
      parts, rest := DeliveredWasFramed(before);
      var rx := Run(IDLE, before).0;
      if last.TimedOut? || rx.failed || !Supported(last.data) || Step(rx, last).0 == FAILED {
        ExplainSilence(before, last, parts, rest);
        rest := if Run(IDLE, events).0.failed then [] else rest;
      } else if SarOf(last.data) == SAR_FIRST || SarOf(last.data) == SAR_CONTINUATION {
        ExplainOpening(before, last.data, parts, rest);
        rest := rest + [last.data];
      } else {
        ExplainClosing(before, last.data, parts, rest);
        parts, rest := parts + [rest + [last.data]], [];
      }
    }
  }

  /** After a protocol failure nothing is delivered until the transport is started again. */
  lemma {:induction false} SilentAfterFailure(rx: Rx, events: seq<Event>)
    requires rx.failed && rx.rxType.None?
    ensures Run(rx, events) == (rx, [])
  {
    if |events| > 0 {
      SilentAfterFailure(rx, events[..|events| - 1]);
      assert events == events[..|events| - 1] + [events[|events| - 1]];
      RunSnoc(rx, events[..|events| - 1], events[|events| - 1]);
    }
  }

  // ----- Everything framed is delivered -----

  function Frames(frames: seq<Bytes>): (events: seq<Event>)
    ensures |events| == |frames|
  {
    seq(|frames|, i requires 0 <= i < |frames| => Frame(frames[i]))
  }

  lemma {:induction false} RunSplit(rx: Rx, a: seq<Event>, b: seq<Event>)
    ensures Run(rx, a + b).0 == Run(Run(rx, a).0, b).0
    ensures Run(rx, a + b).1 == Run(rx, a).1 + Run(Run(rx, a).0, b).1
  {
    hide Step;
    if |b| == 0 {
      assert a + b == a;
    } else {
      RunSplit(rx, a, b[..|b| - 1]);
      RunSnoc(rx, a + b[..|b| - 1], b[|b| - 1]);
      RunSnoc(Run(rx, a).0, b[..|b| - 1], b[|b| - 1]);
      assert a + b == (a + b[..|b| - 1]) + [b[|b| - 1]];
      assert b == b[..|b| - 1] + [b[|b| - 1]];
    }
  }

  lemma FramesSnoc(frames: seq<Bytes>)
    requires |frames| > 0
    ensures Frames(frames) == Frames(frames[..|frames| - 1]) + [Frame(frames[|frames| - 1])]
  {
  }

  lemma RunSnoc(rx: Rx, events: seq<Event>, event: Event)
    ensures Run(rx, events + [event]).0 == Step(Run(rx, events).0, event).0
    ensures Run(rx, events + [event]).1 == Run(rx, events).1 + Step(Run(rx, events).0, event).1
  {
    assert (events + [event])[..|events|] == events;
  }

  lemma {:induction false} OpenRunReceived(frames: seq<Bytes>, msgType: nat)
    requires OpenRun(frames, msgType)
    requires Limit(msgType).Some? && |Join(frames)| <= Limit(msgType).value
    ensures Run(IDLE, Frames(frames)) == (Rx(Some(msgType), Join(frames), false), [])
  {
    var n := |frames| - 1;
    FramesSnoc(frames);
    RunSnoc(IDLE, Frames(frames[..n]), Frame(frames[n]));
    if n == 0 {
      assert Frames(frames[..0]) == [];
      assert Run(IDLE, []) == (IDLE, []);
      assert Join(frames) == frames[0][1..] by {
        assert Join(frames[..0]) == [];
      }
    } else {
      OpenRunReceived(frames[..n], msgType);
    }
  }

  lemma TransferReceived(frames: seq<Bytes>, m: Message)
    requires Transfer(frames, m)
    ensures Run(IDLE, Frames(frames)) == (IDLE, [m])
  {
    var n := |frames| - 1;
    FramesSnoc(frames);
    RunSnoc(IDLE, Frames(frames[..n]), Frame(frames[n]));
    if n == 0 {
      assert Frames(frames[..0]) == [];
      assert Run(IDLE, []) == (IDLE, []);
      assert Join(frames) == frames[0][1..] by {
        assert Join(frames[..0]) == [];
      }
    } else {
      OpenRunReceived(frames[..n], m.0);
    }
    assert Run(IDLE, Frames(frames)).1 == [m];
  }

  lemma FramesConcat(a: seq<Bytes>, b: seq<Bytes>)
    ensures Frames(a + b) == Frames(a) + Frames(b)
  {
  }

  /** Any list of transfers, however each is cut into frames, is delivered exactly. */
  lemma {:induction false} TransfersReceived(parts: seq<seq<Bytes>>, messages: seq<Message>)
    requires |parts| == |messages|
    requires forall i :: 0 <= i < |parts| ==> Transfer(parts[i], messages[i])
    ensures Run(IDLE, Frames(Flatten(parts))) == (IDLE, messages)
  {
    hide Transfer, Join, Step;
    if |parts| > 0 {
      var n := |parts| - 1;
      TransfersReceived(parts[..n], messages[..n]);
      TransferReceived(parts[n], messages[n]);
      FramesConcat(Flatten(parts[..n]), parts[n]);
      RunSplit(IDLE, Frames(Flatten(parts[..n])), Frames(parts[n]));
      assert messages == messages[..n] + [messages[n]];
    }
  }

  // ----- The sender's frames are transfers -----

  lemma TakeMore(payload: Bytes, from: nat, to: nat)
    requires from <= to <= |payload|
    ensures payload[..to] == payload[..from] + payload[from..to]
  {
  }

  lemma {:induction false} ChunksJoin(payload: Bytes, frames: seq<Bytes>, k: nat)
    requires k <= |frames| == |Chunks(payload)|
    requires forall i :: 0 <= i < |frames| ==> Body(frames[i]) == Chunks(payload)[i]
    ensures Join(frames[..k]) == payload[..Min(SEGMENT_SIZE * k, |payload|)]
  {
    hide Chunks, Body;
    if k == 0 {
      assert frames[..0] == [] && payload[..0] == [];
    } else {
      ChunksJoin(payload, frames, k - 1);
      ChunkAt(payload, k - 1);
      JoinSnoc(frames[..k - 1], frames[k - 1]);
      assert frames[..k] == frames[..k - 1] + [frames[k - 1]];
      TakeMore(payload, SEGMENT_SIZE * (k - 1), Min(SEGMENT_SIZE * k, |payload|));
    }
  }

  lemma {:induction false} ChunkAt(payload: Bytes, i: nat)
    requires i < |Chunks(payload)|
    ensures SEGMENT_SIZE * i < |payload|
    ensures Chunks(payload)[i] == payload[SEGMENT_SIZE * i..Min(SEGMENT_SIZE * (i + 1), |payload|)]
    ensures i == |Chunks(payload)| - 1 <==> |payload| <= SEGMENT_SIZE * (i + 1)
  {
    if i > 0 {
      ChunkAt(payload[SEGMENT_SIZE..], i - 1);
    }
  }

  lemma HeaderIs(sar: nat, msgType: nat, body: Bytes)
    requires sar < 4 && msgType < 64
    ensures Is([Header(sar, msgType)] + body, sar, msgType) && Body([Header(sar, msgType)] + body) == body
  {
  }

  /** One of them. */
  lemma FrameAt(msgType: nat, payload: Bytes, i: nat)
    requires Limit(msgType).Some? && |payload| > SEGMENT_SIZE && i < |Chunks(payload)|
    ensures var frames := SentFrames(msgType, payload);
            var n := |frames| - 1;
            Body(frames[i]) == Chunks(payload)[i]
            && Is(frames[i], if i == 0 then SAR_FIRST else if i == n then SAR_LAST else SAR_CONTINUATION, msgType)
  {
    hide Chunks, Is, Body, Header;
    HeaderIs(if i == 0 then SAR_FIRST else if i == |Chunks(payload)| - 1 then SAR_LAST else SAR_CONTINUATION, msgType,
             Chunks(payload)[i]);
  }

  lemma SeveralChunks(payload: Bytes)
    requires |payload| > SEGMENT_SIZE
    ensures |Chunks(payload)| >= 2
  {
    assert |payload[SEGMENT_SIZE..]| > 0;
    assert |Chunks(payload[SEGMENT_SIZE..])| >= 1;
  }

  lemma OpenFrames(frames: seq<Bytes>, msgType: nat)
    requires |frames| >= 2
    requires forall i :: 0 <= i < |frames| - 1 ==> Is(frames[i], if i == 0 then SAR_FIRST else SAR_CONTINUATION, msgType)
    ensures OpenRun(frames[..|frames| - 1], msgType)
  {
    hide Is;
  }

  /** The frames of a long payload: its chunks, under FIRST, CONTINUATION and LAST headers. */
  lemma LongFrames(msgType: nat, payload: Bytes)
    requires Limit(msgType).Some? && |payload| > SEGMENT_SIZE
    ensures var frames := SentFrames(msgType, payload);
            var n := |frames| - 1;
            && |frames| == |Chunks(payload)| >= 2
            && (forall i :: 0 <= i < |frames| ==> Body(frames[i]) == Chunks(payload)[i])
            && Is(frames[n], SAR_LAST, msgType) && OpenRun(frames[..n], msgType)
  {
    hide Chunks, Is, Body, SentFrames, Limit, OpenRun;
    SeveralChunks(payload);
    var frames := SentFrames(msgType, payload);
    forall i | 0 <= i < |frames|
      ensures Body(frames[i]) == Chunks(payload)[i]
      ensures Is(frames[i], if i == 0 then SAR_FIRST else if i == |frames| - 1 then SAR_LAST else SAR_CONTINUATION, msgType)
    {
      FrameAt(msgType, payload, i);
    }
    OpenFrames(frames, msgType);
  }

  lemma SentIsTransfer(msgType: nat, payload: Bytes)
    requires Limit(msgType).Some? && |payload| <= Limit(msgType).value
    ensures Transfer(SentFrames(msgType, payload), (msgType, payload))
  {
    var frames := SentFrames(msgType, payload);
    if |payload| > SEGMENT_SIZE {
      LongFrames(msgType, payload);
      LastChunk(payload);
      ChunksJoin(payload, frames, |frames|);
      hide SentFrames, Chunks, Is, Body, Join, OpenRun;
      assert frames[..|frames|] == frames && payload[..|payload|] == payload;
    } else {
      HeaderIs(SAR_COMPLETE, msgType, payload);
      JoinSnoc([], frames[0]);
      assert [] + [frames[0]] == frames;
    }
  }

  lemma LastChunk(payload: Bytes)
    requires |payload| > 0
    ensures |Chunks(payload)| > 0 && |payload| <= SEGMENT_SIZE * |Chunks(payload)|
  {
    ChunkAt(payload, |Chunks(payload)| - 1);
  }

  function AllSent(messages: seq<Message>): seq<seq<Bytes>>
    requires forall i :: 0 <= i < |messages| ==> Limit(messages[i].0).Some?
  {
    seq(|messages|, i requires 0 <= i < |messages| => SentFrames(messages[i].0, messages[i].1))
  }

  /** Feeding a receiver the writes of any list of `send` calls delivers exactly that list. */
  lemma SendsReceived(messages: seq<Message>)
    requires forall i :: 0 <= i < |messages| ==>
      Limit(messages[i].0).Some? && |messages[i].1| <= Limit(messages[i].0).value
    ensures Run(IDLE, Frames(Flatten(AllSent(messages)))) == (IDLE, messages)
  {
    forall i | 0 <= i < |messages| ensures Transfer(AllSent(messages)[i], messages[i]) {
      SentIsTransfer(messages[i].0, messages[i].1);
    }
    TransfersReceived(AllSent(messages), messages);
  }
}
