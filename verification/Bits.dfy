/**
 Integers seen as bit strings: the `<<`, `>>`, `|` and mask arithmetic that every
 ten-byte fixture packet is built and read with.

 The operators recurse on one bit at a time, so no proof needs non-linear arithmetic.
 */
module Bits {
  import opened Prelude

  /** `1 << n` */
  function Pow2(n: nat): (p: nat)
    ensures p >= 1
  {
    if n == 0 then 1 else 2 * Pow2(n - 1)
  }

  /** `n >> k` */
  function Shr(n: nat, k: nat): nat
  {
    if k == 0 then n else Shr(n / 2, k - 1)
  }

  /** `n << k` */
  function Shl(n: nat, k: nat): nat
  {
    if k == 0 then n else 2 * Shl(n, k - 1)
  }

  /** `n & ((1 << w) - 1)` */
  function Low(n: nat, w: nat): nat
  {
    if w == 0 then 0 else n % 2 + 2 * Low(n / 2, w - 1)
  }

  /** `a | b` */
  function Or(a: nat, b: nat): nat
  {
    if a == 0 then b
    else if b == 0 then a
    else (if a % 2 == 1 || b % 2 == 1 then 1 else 0) + 2 * Or(a / 2, b / 2)
  }

  /** `(n >> start) & ((1 << width) - 1)`: one field of a packed integer. */
  function Field(n: nat, start: nat, width: nat): nat
  {
    Low(Shr(n, start), width)
  }

  lemma OrStep(a: nat, b: nat)
    ensures Or(a, b) / 2 == Or(a / 2, b / 2)
    ensures Or(a, b) % 2 == if a % 2 == 1 || b % 2 == 1 then 1 else 0
  {
  }

  lemma {:induction false} ShrOr(a: nat, b: nat, k: nat)
    ensures Shr(Or(a, b), k) == Or(Shr(a, k), Shr(b, k))
  {
    if k > 0 {
      OrStep(a, b);
      ShrOr(a / 2, b / 2, k - 1);
    }
  }

  lemma {:induction false} LowOr(a: nat, b: nat, w: nat)
    ensures Low(Or(a, b), w) == Or(Low(a, w), Low(b, w))
  {
    if w > 0 {
      OrStep(a, b);
      LowOr(a / 2, b / 2, w - 1);
      OrStep(Low(a, w), Low(b, w));
    }
  }

  lemma FieldOr(a: nat, b: nat, start: nat, width: nat)
    ensures Field(Or(a, b), start, width) == Or(Field(a, start, width), Field(b, start, width))
  {
    ShrOr(a, b, start);
    LowOr(Shr(a, start), Shr(b, start), width);
  }

  lemma {:induction false} ShrShl(v: nat, j: nat, k: nat)
    ensures k <= j ==> Shr(Shl(v, j), k) == Shl(v, j - k)
    ensures j <= k ==> Shr(Shl(v, j), k) == Shr(v, k - j)
  {
    if j > 0 && k > 0 {
      ShrShl(v, j - 1, k - 1);
    }
  }

  lemma {:induction false} LowShl(v: nat, j: nat, w: nat)
    requires w <= j
    ensures Low(Shl(v, j), w) == 0
  {
    if w > 0 {
      LowShl(v, j - 1, w - 1);
    }
  }

  lemma {:induction false} LowFits(v: nat, w: nat)
    requires v < Pow2(w)
    ensures Low(v, w) == v
  {
    if w > 0 {
      LowFits(v / 2, w - 1);
    }
  }

  lemma {:induction false} LowBound(v: nat, w: nat)
    ensures Low(v, w) < Pow2(w)
  {
    if w > 0 {
      LowBound(v / 2, w - 1);
    }
  }

  lemma {:induction false} ShrFits(v: nat, w: nat, k: nat)
    requires v < Pow2(w) && w <= k
    ensures Shr(v, k) == 0
  {
    if k > 0 {
      ShrFits(v / 2, if w == 0 then 0 else w - 1, k - 1);
    }
  }

  lemma {:induction false} LowZero(w: nat)
    ensures Low(0, w) == 0
  {
    if w > 0 {
      LowZero(w - 1);
    }
  }

  lemma {:induction false} ShrShr(n: nat, j: nat, k: nat)
    ensures Shr(Shr(n, j), k) == Shr(n, j + k)
  {
    if j > 0 {
      ShrShr(n / 2, j - 1, k);
    }
  }

  /** A field reads back the value shifted to its own place... */
  lemma FieldHit(v: nat, start: nat, width: nat)
    requires v < Pow2(width)
    ensures Field(Shl(v, start), start, width) == v
  {
    ShrShl(v, start, start);
    LowFits(v, width);
  }

  /** ...and sees nothing of a value shifted elsewhere. */
  lemma FieldMiss(v: nat, at: nat, vWidth: nat, start: nat, width: nat)
    requires v < Pow2(vWidth)
    requires at + vWidth <= start || start + width <= at
    ensures Field(Shl(v, at), start, width) == 0
  {
    ShrShl(v, at, start);
    if at + vWidth <= start {
      ShrFits(v, vWidth, start - at);
      LowZero(width);
    } else {
      LowShl(v, at - start, width);
    }
  }

  /** One `(value, start, width)` triple of a packet builder. */
  datatype Placed = Placed(value: nat, start: nat, width: nat) {
    predicate Fits() { value < Pow2(width) }
    function End(): nat { start + width }
    predicate Misses(other: Placed) { End() <= other.start || other.End() <= start }
  }

  ghost predicate AllFit(fields: seq<Placed>)
  {
    forall i :: 0 <= i < |fields| ==> fields[i].Fits()
  }

  ghost predicate PairwiseDisjoint(fields: seq<Placed>)
  {
    forall i, j :: 0 <= i < j < |fields| ==> fields[i].Misses(fields[j])
  }

  /** The integer a builder's `packet |= value << start` loop accumulates. */
  function Pack(fields: seq<Placed>): nat
  {
    if |fields| == 0 then 0
    else
      var last := fields[|fields| - 1];
      Or(Pack(fields[..|fields| - 1]), Shl(last.value, last.start))
  }

  /** The builder's loop itself. */
  method BuildPacket(fields: seq<Placed>) returns (packet: nat)
    ensures packet == Pack(fields)
  {
    packet := 0;
    for i := 0 to |fields|
      invariant packet == Pack(fields[..i])
    {
      assert fields[..i + 1][..i] == fields[..i];
      packet := Or(packet, Shl(fields[i].value, fields[i].start));
    }
    assert fields[..|fields|] == fields;
  }

  /** A window no field touches reads zero. */
  lemma {:induction false} PackMiss(fields: seq<Placed>, start: nat, width: nat)
    requires AllFit(fields)
    requires forall i :: 0 <= i < |fields| ==> fields[i].Misses(Placed(0, start, width))
    ensures Field(Pack(fields), start, width) == 0
  {
    if |fields| == 0 {
      ShrFits(0, 0, start);
      LowZero(width);
    } else {
      var last := fields[|fields| - 1];
      PackMiss(fields[..|fields| - 1], start, width);
      FieldMiss(last.value, last.start, last.width, start, width);
      FieldOr(Pack(fields[..|fields| - 1]), Shl(last.value, last.start), start, width);
    }
  }

  /** Packing pairwise disjoint fields and reading any one of them back returns its value. */
  lemma {:induction false} ReadBack(fields: seq<Placed>, i: nat)
    requires AllFit(fields) && PairwiseDisjoint(fields) && i < |fields|
    ensures Field(Pack(fields), fields[i].start, fields[i].width) == fields[i].value
  {
    var last := |fields| - 1;
    var f, l := fields[i], fields[last];
    FieldOr(Pack(fields[..last]), Shl(l.value, l.start), f.start, f.width);
    if i == last {
      PackMiss(fields[..last], f.start, f.width);
      FieldHit(l.value, l.start, l.width);
    } else {
      ReadBack(fields[..last], i);
      FieldMiss(l.value, l.start, l.width, f.start, f.width);
    }
  }

  /** Fields below bit `split` never meet fields above it. */
  lemma JoinDisjoint(low: seq<Placed>, high: seq<Placed>, split: nat)
    requires PairwiseDisjoint(low) && PairwiseDisjoint(high)
    requires forall i :: 0 <= i < |low| ==> low[i].End() <= split
    requires forall i :: 0 <= i < |high| ==> split <= high[i].start
    ensures PairwiseDisjoint(low + high) && PairwiseDisjoint(high + low)
  {
    forall i, j | 0 <= i < j < |low + high| ensures (low + high)[i].Misses((low + high)[j]) {
      if j < |low| {
        assert low[i].Misses(low[j]);
      } else if i >= |low| {
        assert high[i - |low|].Misses(high[j - |low|]);
      }
    }
    forall i, j | 0 <= i < j < |high + low| ensures (high + low)[i].Misses((high + low)[j]) {
      if j < |high| {
        assert high[i].Misses(high[j]);
      } else if i >= |high| {
        assert low[i - |high|].Misses(low[j - |high|]);
      }
    }
  }

  /** Agreement on two adjacent windows is agreement on their union. */
  lemma {:induction false} LowJoin(x: nat, y: nat, v: nat, w: nat)
    requires Low(x, v) == Low(y, v) && Low(Shr(x, v), w) == Low(Shr(y, v), w)
    ensures Low(x, v + w) == Low(y, v + w)
  {
    if v > 0 {
      LowJoin(x / 2, y / 2, v - 1, w);
    }
  }

  /** Fields laid end to end: the first starts at bit `from`, the last ends at bit `to`. */
  ghost predicate Tiles(fields: seq<Placed>, from: nat, to: nat)
  {
    |fields| > 0
    && fields[0].start == from
    && fields[|fields| - 1].End() == to
    && forall i :: 0 <= i < |fields| - 1 ==> fields[i].End() == fields[i + 1].start
  }

  lemma {:induction false} TilesPrefix(fields: seq<Placed>, from: nat, to: nat)
    requires Tiles(fields, from, to) && |fields| > 1
    ensures Tiles(fields[..|fields| - 1], from, fields[|fields| - 1].start)
  {
    var prefix := fields[..|fields| - 1];
    forall i | 0 <= i < |prefix| - 1 ensures prefix[i].End() == prefix[i + 1].start {
      assert fields[i].End() == fields[i + 1].start;
    }
    assert fields[|fields| - 2].End() == fields[|fields| - 2 + 1].start;
  }

  /** Tiles overlap nowhere and stay inside their range. */
  lemma {:induction false} TilesDisjoint(fields: seq<Placed>, from: nat, to: nat)
    requires Tiles(fields, from, to)
    ensures PairwiseDisjoint(fields)
    ensures forall i :: 0 <= i < |fields| ==> from <= fields[i].start && fields[i].End() <= to
  {
    if |fields| > 1 {
      TilesPrefix(fields, from, to);
      TilesDisjoint(fields[..|fields| - 1], from, fields[|fields| - 1].start);
      forall i | 0 <= i < |fields| - 1 ensures from <= fields[i].start && fields[i].End() <= fields[|fields| - 1].start {
        assert fields[i] == fields[..|fields| - 1][i];
      }
    }
  }

  /** Two integers read alike through every field. */
  ghost predicate Agree(x: nat, y: nat, fields: seq<Placed>)
  {
    forall i :: 0 <= i < |fields| ==>
      Field(x, fields[i].start, fields[i].width) == Field(y, fields[i].start, fields[i].width)
  }

  /** Integers that agree on every tile agree on the whole range tiled. */
  lemma {:induction false} TilingDetermines(x: nat, y: nat, fields: seq<Placed>, from: nat, to: nat)
    requires Tiles(fields, from, to) && Agree(x, y, fields)
    ensures from <= to && Field(x, from, to - from) == Field(y, from, to - from)
  {
    TilesDisjoint(fields, from, to);
    if |fields| > 1 {
      var last := fields[|fields| - 1];
      TilesPrefix(fields, from, to);
      TilingDetermines(x, y, fields[..|fields| - 1], from, last.start);
      FieldJoin(x, y, from, last.start - from, last.width);
    }
  }

  lemma FieldJoin(x: nat, y: nat, from: nat, v: nat, w: nat)
    requires Field(x, from, v) == Field(y, from, v) && Field(x, from + v, w) == Field(y, from + v, w)
    ensures Field(x, from, v + w) == Field(y, from, v + w)
  {
    ShrShr(x, from, v);
    ShrShr(y, from, v);
    LowJoin(Shr(x, from), Shr(y, from), v, w);
  }

  // ----- Ten-byte packets -----

  /** `packet.to_bytes(count, "little")` */
  function LittleEndian(n: nat, count: nat): (b: Bytes)
    ensures |b| == count
  {
    if count == 0 then [] else [n % 256] + LittleEndian(n / 256, count - 1)
  }

  /** `int.from_bytes(payload, "little")` */
  function FromLittleEndian(b: Bytes): nat
  {
    if |b| == 0 then 0 else b[0] + 256 * FromLittleEndian(b[1..])
  }

  lemma {:induction false} LittleEndianRoundTrip(n: nat, count: nat)
    requires n < Space(count)
    ensures FromLittleEndian(LittleEndian(n, count)) == n
  {
    if count > 0 {
      LittleEndianRoundTrip(n / 256, count - 1);
      assert LittleEndian(n, count)[1..] == LittleEndian(n / 256, count - 1);
    }
  }

  lemma LowByte(low: byte, high: nat)
    ensures (low + 256 * high) % 256 == low && (low + 256 * high) / 256 == high
  {
  }

  lemma {:induction false} FromLittleEndianRoundTrip(b: Bytes)
    ensures FromLittleEndian(b) < Space(|b|)
    ensures LittleEndian(FromLittleEndian(b), |b|) == b
  {
    if |b| > 0 {
      var high := FromLittleEndian(b[1..]);
      FromLittleEndianRoundTrip(b[1..]);
      LowByte(b[0], high);
      assert LittleEndian(b[0] + 256 * high, |b|) == [b[0]] + LittleEndian(high, |b| - 1);
      assert b == [b[0]] + b[1..];
    }
  }

  function Sum(b: Bytes): nat
  {
    if |b| == 0 then 0 else b[0] + Sum(b[1..])
  }

  /** `sum(payload[1:10]) & 0xFF` */
  function Checksum(payload: Bytes): byte
    requires |payload| == 10
  {
    Sum(payload[1..]) % 256
  }

  /** Serialise a packed integer and overwrite byte zero with the checksum. */
  function Finalize(packet: nat): (payload: Bytes)
    ensures |payload| == 10 && payload[0] == Checksum(payload)
  {
    var raw := LittleEndian(packet, 10);
    assert raw[0 := Checksum(raw)][1..] == raw[1..];
    raw[0 := Checksum(raw)]
  }

  lemma {:induction false} SumSnoc(b: Bytes)
    requires |b| > 0
    ensures Sum(b) == Sum(b[..|b| - 1]) + b[|b| - 1]
  {
    if |b| > 1 {
      SumSnoc(b[1..]);
      assert b[1..][..|b[1..]| - 1] == b[..|b| - 1][1..];
    }
  }

  /** The in-place form of the same step, on the builder's bytearray. */
  method WriteChecksum(payload: array<byte>)
    requires payload.Length == 10
    modifies payload
    ensures payload[..] == old(payload[..])[0 := Checksum(old(payload[..]))]
  {
    var total: nat := 0;
    for i := 1 to 10
      invariant total == Sum(payload[1..i])
      invariant payload[..] == old(payload[..])
    {
      SumSnoc(payload[1..i + 1]);
      assert payload[1..i + 1][..i - 1] == payload[1..i];
      total := total + payload[i];
    }
    assert payload[1..10] == old(payload[..])[1..];
    payload[0] := total % 256;
  }

  /** A whole builder: the accumulating loop, `to_bytes`, then the checksum in place. */
  method BuildPayload(fields: seq<Placed>) returns (payload: Bytes)
    ensures payload == Finalize(Pack(fields))
  {
    var packet := BuildPacket(fields);
    var raw := LittleEndian(packet, 10);
    var buffer := new byte[10](i requires 0 <= i < 10 => raw[i]);
    assert buffer[..] == raw;
    WriteChecksum(buffer);
    payload := buffer[..];
  }

  lemma {:induction false} DropByte(n: nat)
    ensures Shr(n, 8) == n / 256
  {
    assert Shr(n, 8) == Shr(n / 2 / 2 / 2 / 2 / 2 / 2 / 2 / 2, 0) by {
      assert Shr(n, 8) == Shr(n / 2, 7) == Shr(n / 2 / 2, 6) == Shr(n / 2 / 2 / 2, 5)
          == Shr(n / 2 / 2 / 2 / 2, 4);
      var m := n / 2 / 2 / 2 / 2;
      assert Shr(m, 4) == Shr(m / 2, 3) == Shr(m / 2 / 2, 2) == Shr(m / 2 / 2 / 2, 1) == Shr(m / 2 / 2 / 2 / 2, 0);
    }
  }

  lemma {:induction false} ByteAt(b: Bytes, i: nat)
    requires i <= |b|
    ensures Shr(FromLittleEndian(b), 8 * i) == FromLittleEndian(b[i..])
  {
    if i > 0 {
      ByteAt(b[1..], i - 1);
      DropByte(FromLittleEndian(b));
      ShrShr(FromLittleEndian(b), 8, 8 * (i - 1));
      assert b[1..][i - 1..] == b[i..];
    } else {
      assert b[0..] == b;
    }
  }

  /** The command byte's low seven bits are bits 72-78 of the packet. */
  lemma CommandBits(payload: Bytes)
    requires |payload| == 10
    ensures Field(FromLittleEndian(payload), 72, 7) == payload[9] % 128
  {
    ByteAt(payload, 9);
    assert payload[9..] == [payload[9]];
    assert FromLittleEndian(payload[9..]) == payload[9];
    LowSeven(payload[9]);
  }

  lemma {:induction false} LowAndShr(n: nat, w: nat)
    ensures n == Low(n, w) + Shl(Shr(n, w), w)
  {
    if w > 0 {
      LowAndShr(n / 2, w - 1);
    }
  }

  lemma ShlSeven(q: nat)
    ensures Shl(q, 7) == 128 * q
  {
    assert Shl(q, 1) == 2 * q;
    assert Shl(q, 3) == 4 * Shl(q, 1);
    assert Shl(q, 5) == 4 * Shl(q, 3);
    assert Shl(q, 7) == 4 * Shl(q, 5);
  }

  lemma LowSeven(n: nat)
    ensures Low(n, 7) == n % 128
  {
    LowAndShr(n, 7);
    LowBound(n, 7);
    ShlSeven(Shr(n, 7));
    assert Pow2(7) == 128;
  }

  /** Writing the checksum disturbs no field above byte zero. */
  lemma FinalizeKeepsFields(packet: nat, start: nat, width: nat)
    requires packet < Space(10) && start >= 8
    ensures Field(FromLittleEndian(Finalize(packet)), start, width) == Field(packet, start, width)
  {
    var payload := Finalize(packet);
    var raw := LittleEndian(packet, 10);
    assert payload[1..] == raw[1..];
    LittleEndianRoundTrip(packet, 10);
    var n := FromLittleEndian(payload);
    assert n / 256 == packet / 256;
    DropByte(n);
    DropByte(packet);
    ShrShr(n, 8, start - 8);
    ShrShr(packet, 8, start - 8);
  }

  lemma HighBytes(p: Bytes, width: nat)
    requires |p| > 0 && width == 8 * (|p| - 1)
    ensures Field(FromLittleEndian(p), 8, width) == FromLittleEndian(p[1..])
  {
    FromLittleEndianRoundTrip(p[1..]);
    DropByte(FromLittleEndian(p));
    SpaceIsPow2(|p| - 1);
    LowFits(FromLittleEndian(p[1..]), width);
  }

  /** A checksummed packet is determined by its bits above byte zero. */
  lemma ChecksummedDetermined(p: Bytes, q: Bytes)
    requires |p| == |q| == 10
    requires p[0] == Checksum(p) && q[0] == Checksum(q)
    requires Field(FromLittleEndian(p), 8, 72) == Field(FromLittleEndian(q), 8, 72)
    ensures p == q
  {
    HighBytes(p, 72);
    HighBytes(q, 72);
    FromLittleEndianRoundTrip(p[1..]);
    FromLittleEndianRoundTrip(q[1..]);
    assert p == [p[0]] + p[1..] && q == [q[0]] + q[1..];
  }

  lemma {:induction false} SpaceIsPow2(count: nat)
    ensures Space(count) == Pow2(8 * count)
  {
    if count > 0 {
      SpaceIsPow2(count - 1);
      var k := 8 * count - 4;
      assert Pow2(8 * count) == 2 * Pow2(8 * count - 1) == 4 * Pow2(8 * count - 2) == 8 * Pow2(8 * count - 3)
          == 16 * Pow2(k);
      assert Pow2(k) == 2 * Pow2(k - 1) == 4 * Pow2(k - 2) == 8 * Pow2(k - 3) == 16 * Pow2(k - 4);
    }
  }

  /** Fields that all lie below bit `top` pack into an integer below `1 << top`. */
  lemma {:induction false} PackBound(fields: seq<Placed>, top: nat)
    requires AllFit(fields)
    requires forall i :: 0 <= i < |fields| ==> fields[i].End() <= top
    ensures Pack(fields) < Pow2(top)
  {
    if |fields| > 0 {
      var last := fields[|fields| - 1];
      PackBound(fields[..|fields| - 1], top);
      ShlBound(last.value, last.width, last.start, top);
      OrBound(Pack(fields[..|fields| - 1]), Shl(last.value, last.start), top);
    }
  }

  lemma {:induction false} ShlBound(v: nat, w: nat, k: nat, top: nat)
    requires v < Pow2(w) && w + k <= top
    ensures Shl(v, k) < Pow2(top)
  {
    if k > 0 {
      ShlBound(v, w, k - 1, top - 1);
    } else if w < top {
      ShlBound(v, w, 0, top - 1);
    }
  }

  lemma {:induction false} OrBound(a: nat, b: nat, top: nat)
    requires a < Pow2(top) && b < Pow2(top)
    ensures Or(a, b) < Pow2(top)
  {
    if top > 0 {
      OrBound(a / 2, b / 2, top - 1);
      OrStep(a, b);
    }
  }

  /** A built packet reads back every field it was built from. */
  lemma BuiltReads(fields: seq<Placed>)
    requires AllFit(fields) && PairwiseDisjoint(fields)
    requires forall i :: 0 <= i < |fields| ==> 8 <= fields[i].start && fields[i].End() <= 80
    ensures forall i :: 0 <= i < |fields| ==>
      Field(FromLittleEndian(Finalize(Pack(fields))), fields[i].start, fields[i].width) == fields[i].value
  {
    PackBound(fields, 80);
    SpaceIsPow2(10);
    forall i | 0 <= i < |fields|
      ensures Field(FromLittleEndian(Finalize(Pack(fields))), fields[i].start, fields[i].width) == fields[i].value
    {
      ReadBack(fields, i);
      FinalizeKeepsFields(Pack(fields), fields[i].start, fields[i].width);
    }
  }
}
