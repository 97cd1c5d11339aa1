/**
 Nonce layouts of `crypto.py` (section 3.8.5 of Mesh Profile 1.0.1): 13 bytes whose first one
 names the layer.
 */
module Nonces {
  import opened Prelude

  /** The fields the four layouts are filled from. */
  datatype Nonce =
    | Network(ctl: nat, ttl: nat, seq_: nat, src: nat, ivIndex: nat)
    | Application(szmic: nat, seq_: nat, src: nat, dst: nat, ivIndex: nat)
    | Device(szmic: nat, seq_: nat, src: nat, dst: nat, ivIndex: nat)
    | Proxy(seq_: nat, src: nat, ivIndex: nat)

  ghost predicate InRange(n: Nonce)
  {
    && n.seq_ < 0x1000000 && n.src < 0x10000 && n.ivIndex < 0x1_0000_0000
    && (n.Network? ==> n.ctl < 2 && n.ttl < 128)
    && (n.Application? || n.Device? ==> n.szmic < 2 && n.dst < 0x10000)
  }

  function Tail(seq_: nat, src: nat, dst: nat, ivIndex: nat): (b: Bytes)
    ensures |b| == 11
  {
    BigEndian(seq_, 3) + BigEndian(src, 2) + BigEndian(dst, 2) + BigEndian(ivIndex, 4)
  }

  function TransportNonce(kind: byte, szmic: nat, seq_: nat, src: nat, dst: nat, ivIndex: nat): (b: Bytes)
    ensures |b| == 13
  {
    [kind, szmic % 2 * 128] + Tail(seq_, src, dst, ivIndex)
  }

  function NetworkNonce(ctl: nat, ttl: nat, seq_: nat, src: nat, ivIndex: nat): (b: Bytes)
    ensures |b| == 13
  {
    [0, ctl % 2 * 128 + ttl % 128] + Tail(seq_, src, 0, ivIndex)
  }

  function ProxyNonce(seq_: nat, src: nat, ivIndex: nat): (b: Bytes)
    ensures |b| == 13
  {
    [3, 0] + Tail(seq_, src, 0, ivIndex)
  }

  /** The bytes each layer hands to AES-CCM. */
  function Layout(n: Nonce): (b: Bytes)
    ensures |b| == 13
  {
    match n
    case Network(ctl, ttl, s, src, iv) => NetworkNonce(ctl, ttl, s, src, iv)
    case Application(szmic, s, src, dst, iv) => TransportNonce(1, szmic, s, src, dst, iv)
    case Device(szmic, s, src, dst, iv) => TransportNonce(2, szmic, s, src, dst, iv)
    case Proxy(s, src, iv) => ProxyNonce(s, src, iv)
  }

  lemma Spaces()
    ensures Space(2) == 0x10000 && Space(3) == 0x1000000 && Space(4) == 0x1_0000_0000
  {
    assert Space(2) == 256 * Space(1) == 65536;
    assert Space(3) == 256 * Space(2) && Space(4) == 256 * Space(3);
  }

  lemma TailInjective(s1: nat, src1: nat, dst1: nat, iv1: nat, s2: nat, src2: nat, dst2: nat, iv2: nat)
    requires s1 < 0x1000000 && src1 < 0x10000 && dst1 < 0x10000 && iv1 < 0x1_0000_0000
    requires s2 < 0x1000000 && src2 < 0x10000 && dst2 < 0x10000 && iv2 < 0x1_0000_0000
    requires Tail(s1, src1, dst1, iv1) == Tail(s2, src2, dst2, iv2)
    ensures s1 == s2 && src1 == src2 && dst1 == dst2 && iv1 == iv2
  {
    Spaces();
    hide BigEndian, Space;
    var a, b := Tail(s1, src1, dst1, iv1), Tail(s2, src2, dst2, iv2);
    assert a[..3] == BigEndian(s1, 3) && b[..3] == BigEndian(s2, 3);
    assert a[3..5] == BigEndian(src1, 2) && b[3..5] == BigEndian(src2, 2);
    assert a[5..7] == BigEndian(dst1, 2) && b[5..7] == BigEndian(dst2, 2);
    assert a[7..] == BigEndian(iv1, 4) && b[7..] == BigEndian(iv2, 4);
    BigEndianInjective(s1, s2, 3);
    BigEndianInjective(src1, src2, 2);
    BigEndianInjective(dst1, dst2, 2);
    BigEndianInjective(iv1, iv2, 4);
  }

  function DstOf(n: Nonce): nat
  {
    if n.Application? || n.Device? then n.dst else 0
  }

  /** Equal nonce bytes come from the same layer and the same fields: no two layers can collide. */
  lemma LayoutInjective(m: Nonce, n: Nonce)
    requires InRange(m) && InRange(n)
    ensures Layout(m) == Layout(n) <==> m == n
  {
    if Layout(m) == Layout(n) {
      assert Layout(m)[2..] == Tail(m.seq_, m.src, DstOf(m), m.ivIndex);
      assert Layout(n)[2..] == Tail(n.seq_, n.src, DstOf(n), n.ivIndex);
      TailInjective(m.seq_, m.src, DstOf(m), m.ivIndex, n.seq_, n.src, DstOf(n), n.ivIndex);
      assert Layout(m)[0] == Layout(n)[0] && Layout(m)[1] == Layout(n)[1];
    }
  }
}
