/** Types shared by every layer of the model. */
module Prelude {

  /** One octet. */
  type byte = b: int | 0 <= b < 256

  type Bytes = seq<byte>

  datatype Option<+T> = None | Some(value: T)

  /** A call that either returns or raises; `error` names the exception raised. */
  datatype Result<+T, +E> = Ok(value: T) | Err(error: E) {
    predicate IsFailure() { Err? }

    function PropagateFailure<U>(): Result<U, E>
      requires Err?
    {
      Err(error)
    }

    function Extract(): T
      requires Ok?
    {
      value
    }
  }

  function Max(a: int, b: int): (m: int)
  {
    if a < b then b else a
  }

  function Min(a: int, b: int): (m: int)
  {
    if a < b then a else b
  }

  /** Big-endian serialisation, the `to_bytes(n, "big")` of the mesh layers. */
  function BigEndian(value: nat, count: nat): (b: Bytes)
    ensures |b| == count
  {
    if count == 0 then [] else BigEndian(value / 256, count - 1) + [value % 256]
  }

  /** The `from_bytes(b, "big")` that reverses it. */
  function FromBigEndian(b: Bytes): (value: nat)
  {
    if |b| == 0 then 0 else 256 * FromBigEndian(b[..|b| - 1]) + b[|b| - 1]
  }

  /** Bounds of `count`-byte integers. */
  function Space(count: nat): (n: nat)
    ensures n >= 1
  {
    if count == 0 then 1 else 256 * Space(count - 1)
  }

  lemma {:induction false} BigEndianRoundTrip(value: nat, count: nat)
    requires value < Space(count)
    ensures FromBigEndian(BigEndian(value, count)) == value
  {
    if count > 0 {
      BigEndianRoundTrip(value / 256, count - 1);
      var b := BigEndian(value, count);
      assert b[..|b| - 1] == BigEndian(value / 256, count - 1);
    }
  }

  lemma {:induction false} FromBigEndianRoundTrip(b: Bytes)
    ensures FromBigEndian(b) < Space(|b|)
    ensures BigEndian(FromBigEndian(b), |b|) == b
  {
    if |b| > 0 {
      FromBigEndianRoundTrip(b[..|b| - 1]);
      assert b == b[..|b| - 1] + [b[|b| - 1]];
    }
  }

  lemma BigEndianInjective(v: nat, w: nat, count: nat)
    requires v < Space(count) && w < Space(count)
    requires BigEndian(v, count) == BigEndian(w, count)
    ensures v == w
  {
    BigEndianRoundTrip(v, count);
    BigEndianRoundTrip(w, count);
  }
}
