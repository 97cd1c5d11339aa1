/**
 Lower transport framing (`network.py`, sections 3.5.2 and 3.5.3 of Mesh Profile 1.0.1):
 cutting an upper transport PDU into segments, and validating one received segment.
 */
module LowerTransport {
  import opened Prelude

  const SEGMENT_PAYLOAD_SIZE := 12
  const MAX_SEQUENCE := 0xFFFFFF

  datatype Error =
    | ValueError | BadSequence | ShortSegment | NotSegmented | OffsetBeyondLast | PayloadTooLong
    | PayloadTooShort | ImpossibleSeqZero | BadAckLength | ReservedAckBits

  // ----- Segmenting -----

  function SegmentCount(upper: Bytes): nat
  {
    (|upper| + SEGMENT_PAYLOAD_SIZE - 1) / SEGMENT_PAYLOAD_SIZE
  }

  function Chunk(upper: Bytes, i: nat): (c: Bytes)
    requires i < SegmentCount(upper)
  {
    upper[SEGMENT_PAYLOAD_SIZE * i..Min(SEGMENT_PAYLOAD_SIZE * (i + 1), |upper|)]
  }

  /** SZMIC(1) | SeqZero(13) | SegO(5) | SegN(5) */
  function SegmentField(szmic: nat, seqZero: nat, segO: nat, segN: nat): nat
  {
    (szmic % 2) * 0x800000 + (seqZero % 0x2000) * 0x400 + (segO % 32) * 32 + segN % 32
  }

  function SegmentPdu(akf: nat, aid: nat, szmic: nat, seqZero: nat, segO: nat, segN: nat, payload: Bytes): Bytes
    requires akf < 2
  {
    [128 + 64 * akf + aid % 64] + BigEndian(SegmentField(szmic, seqZero, segO, segN), 3) + payload
  }

  /** `build_access_segments` */
  function BuildAccessSegments(akf: nat, aid: nat, seqZero: nat, upper: Bytes, szmic: nat): Result<seq<Bytes>, Error>
    requires akf < 2
  {
    var count := SegmentCount(upper);
    if |upper| == 0 || count > 32 then Err(ValueError)
    else
      Ok(seq(count, i requires 0 <= i < count =>
             SegmentPdu(akf, aid, szmic, seqZero, i, count - 1, Chunk(upper, i))))
  }

  // ----- One received segment -----

  datatype AccessSegment = AccessSegment(
    akf: nat, aid: nat, szmic: nat, seqZero: nat, segO: nat, segN: nat, seqAuth: nat, payload: Bytes)

  /** What `parse_access_segment` guarantees of its result. */
  ghost predicate Validated(s: AccessSegment)
  {
    && s.segO <= s.segN < 32 && |s.payload| <= SEGMENT_PAYLOAD_SIZE
    && (s.segO < s.segN ==> |s.payload| == SEGMENT_PAYLOAD_SIZE)
    && 1 <= |s.payload| && s.seqAuth <= MAX_SEQUENCE && s.seqZero == s.seqAuth % 0x2000
  }

  /** The greatest sequence number no larger than `seq` whose low 13 bits are `seqZero`. */
  function SeqAuthOf(seq_: nat, seqZero: nat): int
  {
    seq_ - (seq_ - seqZero) % 0x2000
  }

  function ParseAccessSegment(seq_: nat, lower: Bytes): (r: Result<AccessSegment, Error>)
    ensures r.Ok? ==> Validated(r.value) && r.value.seqAuth <= seq_ <= r.value.seqAuth + 8191
  {
    if seq_ > MAX_SEQUENCE then Err(BadSequence)
    else if |lower| < 5 then Err(ShortSegment)
    else if lower[0] < 128 then Err(NotSegmented)
    else
      var field := FromBigEndian(lower[1..4]);
      var segO, segN := field / 32 % 32, field % 32;
      var seqZero := field / 0x400 % 0x2000;
      var payload := lower[4..];
      if segO > segN then Err(OffsetBeyondLast)
      else if |payload| > SEGMENT_PAYLOAD_SIZE then Err(PayloadTooLong)
      else if segO < segN && |payload| != SEGMENT_PAYLOAD_SIZE then Err(PayloadTooShort)
      else
        var seqAuth := SeqAuthOf(seq_, seqZero);
        if seqAuth < 0 then Err(ImpossibleSeqZero)
        else
          Ok(AccessSegment(lower[0] / 64 % 2, lower[0] % 64, field / 0x800000 % 2, seqZero, segO, segN, seqAuth,
                           payload))
  }

  /** Within the 13-bit window the receiver recovers the transaction's first sequence number. */
  lemma SeqAuthRecovered(seqAuth: nat, seq_: nat)
    ensures SeqAuthOf(seq_, seqAuth % 0x2000) == seqAuth <==> seqAuth <= seq_ <= seqAuth + 8191
  {
  }

  /** Division by the field widths, one constant at a time to stay linear. */
  lemma DivRem(x: nat, m: nat, q: nat, r: nat)
    requires m == 32 || m == 64 || m == 0x400 || m == 0x2000 || m == 0x800000
    requires x == q * m + r && r < m
    ensures x / m == q && x % m == r
  {
    if m == 32 {
      assert x == 32 * q + r;
    } else if m == 64 {
      assert x == 64 * q + r;
    } else if m == 0x400 {
      assert x == 0x400 * q + r;
    } else if m == 0x2000 {
      assert x == 0x2000 * q + r;
    } else {
      assert x == 0x800000 * q + r;
    }
  }

  lemma FieldParts(szmic: nat, seqZero: nat, segO: nat, segN: nat)
    requires szmic < 2 && seqZero < 0x2000 && segO < 32 && segN < 32
    ensures var f := SegmentField(szmic, seqZero, segO, segN);
            f < Space(3) && f / 0x800000 % 2 == szmic && f / 0x400 % 0x2000 == seqZero
            && f / 32 % 32 == segO && f % 32 == segN
  {
    assert Space(3) == 256 * Space(2) == 65536 * Space(1) == 0x1000000;
    var f := SegmentField(szmic, seqZero, segO, segN);
    DivRem(f, 0x800000, szmic, seqZero * 0x400 + segO * 32 + segN);
    DivRem(f, 0x400, szmic * 0x2000 + seqZero, segO * 32 + segN);
    DivRem(szmic * 0x2000 + seqZero, 0x2000, szmic, seqZero);
    DivRem(f, 32, (szmic * 0x2000 + seqZero) * 32 + segO, segN);
    DivRem((szmic * 0x2000 + seqZero) * 32 + segO, 32, szmic * 0x2000 + seqZero, segO);
  }

  /** The segment a receiver sees for chunk `i` of a transaction that began at `seqAuth`. */
  function SegmentOf(akf: nat, aid: nat, szmic: nat, seqAuth: nat, upper: Bytes, i: nat): AccessSegment
    requires i < SegmentCount(upper)
  {
    AccessSegment(akf, aid, szmic, seqAuth % 0x2000, i, SegmentCount(upper) - 1, seqAuth, Chunk(upper, i))
  }

  /**
   Segment `i` of any 1-384 byte upper PDU, sent under any sequence number up to 8191 past
   the transaction's first, parses to its own index, payload and SeqAuth.
   */
  lemma SegmentRoundTrip(akf: nat, aid: nat, szmic: nat, seqAuth: nat, upper: Bytes, i: nat, seq_: nat)
    requires akf < 2 && aid < 64 && szmic < 2 && 1 <= |upper| <= 384
    requires i < SegmentCount(upper)
    requires seqAuth <= seq_ <= seqAuth + 8191 && seq_ <= MAX_SEQUENCE
    ensures BuildAccessSegments(akf, aid, seqAuth % 0x2000, upper, szmic).Ok?
    ensures var segments := BuildAccessSegments(akf, aid, seqAuth % 0x2000, upper, szmic).value;
            |segments| == SegmentCount(upper)
            && ParseAccessSegment(seq_, segments[i]) == Ok(SegmentOf(akf, aid, szmic, seqAuth, upper, i))
  {
    var n := SegmentCount(upper) - 1;
    var seqZero := seqAuth % 0x2000;
    SeqAuthRecovered(seqAuth, seq_);
    PduRoundTrip(akf, aid, szmic, seqZero, i, n, Chunk(upper, i), seq_);
  }

  lemma PduRoundTrip(akf: nat, aid: nat, szmic: nat, seqZero: nat, segO: nat, segN: nat, payload: Bytes, seq_: nat)
    requires akf < 2 && aid < 64 && szmic < 2 && seqZero < 0x2000 && segO <= segN < 32
    requires 1 <= |payload| <= SEGMENT_PAYLOAD_SIZE && (segO < segN ==> |payload| == SEGMENT_PAYLOAD_SIZE)
    requires seq_ <= MAX_SEQUENCE && SeqAuthOf(seq_, seqZero) >= 0
    ensures ParseAccessSegment(seq_, SegmentPdu(akf, aid, szmic, seqZero, segO, segN, payload))
            == Ok(AccessSegment(akf, aid, szmic, seqZero, segO, segN, SeqAuthOf(seq_, seqZero), payload))
  {
    hide SegmentField, BigEndian, FromBigEndian, SeqAuthOf;
    var field := SegmentField(szmic, seqZero, segO, segN);
    FieldParts(szmic, seqZero, segO, segN);
    BigEndianRoundTrip(field, 3);
    var pdu := SegmentPdu(akf, aid, szmic, seqZero, segO, segN, payload);
    assert pdu[1..4] == BigEndian(field, 3);
    assert pdu[4..] == payload;
    FirstByte(akf, aid);
    assert pdu[0] == 128 + 64 * akf + aid;
  }

  lemma FirstByte(akf: nat, aid: nat)
    requires akf < 2 && aid < 64
    ensures (128 + 64 * akf + aid) / 64 % 2 == akf && (128 + 64 * akf + aid) % 64 == aid
  {
    DivRem(128 + 64 * akf + aid, 64, 2 + akf, aid);
  }

  function JoinChunks(upper: Bytes, k: nat): Bytes
    requires k <= SegmentCount(upper)
  {
    if k == 0 then [] else JoinChunks(upper, k - 1) + Chunk(upper, k - 1)
  }

  lemma {:induction false} ChunksJoin(upper: Bytes, k: nat)
    requires k <= SegmentCount(upper)
    ensures JoinChunks(upper, k) == upper[..Min(SEGMENT_PAYLOAD_SIZE * k, |upper|)]
  {
    if k > 0 {
      ChunksJoin(upper, k - 1);
      var from, to := SEGMENT_PAYLOAD_SIZE * (k - 1), Min(SEGMENT_PAYLOAD_SIZE * k, |upper|);
      assert upper[..to] == upper[..from] + upper[from..to];
    }
  }

  // ----- Segment acknowledgments -----

  datatype SegmentAck = SegmentAck(seqZero: nat, blockAck: nat, obo: bool)

  /** The parameters `_send_segment_ack` writes. */
  function AckParams(seqZero: nat, blockAck: nat): Bytes
  {
    BigEndian((seqZero % 0x2000) * 4, 2) + BigEndian(blockAck, 4)
  }

  function ParseSegmentAck(params: Bytes): Result<SegmentAck, Error>
  {
    if |params| != 6 then Err(BadAckLength)
    else
      var field := FromBigEndian(params[..2]);
      if field % 4 != 0 then Err(ReservedAckBits)
      else Ok(SegmentAck(field / 4 % 0x2000, FromBigEndian(params[2..]), field / 0x8000 == 1))
  }

  lemma AckField(seqZero: nat)
    requires seqZero < 0x2000
    ensures var f := seqZero * 4;
            seqZero % 0x2000 == seqZero && f % 4 == 0 && f / 4 % 0x2000 == seqZero && f / 0x8000 == 0
  {
  }

  lemma AckRoundTrip(seqZero: nat, blockAck: nat)
    requires seqZero < 0x2000 && blockAck < 0x1_0000_0000
    ensures ParseSegmentAck(AckParams(seqZero, blockAck)) == Ok(SegmentAck(seqZero, blockAck, false))
  {
    hide BigEndian, FromBigEndian, Space;
    SpaceTwoFour();
    AckField(seqZero);
    BigEndianRoundTrip(seqZero * 4, 2);
    BigEndianRoundTrip(blockAck, 4);
    var params := AckParams(seqZero, blockAck);
    assert params[..2] == BigEndian(seqZero * 4, 2) && params[2..] == BigEndian(blockAck, 4);
  }

  lemma SpaceTwoFour()
    ensures Space(2) == 0x10000 && Space(4) == 0x1_0000_0000
  {
    assert Space(2) == 256 * Space(1) == 65536;
    assert Space(4) == 256 * Space(3) == 65536 * Space(2);
  }
}
