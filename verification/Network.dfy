/**
 Network and upper transport layers of `network.py` (sections 3.4 and 3.6 of Mesh Profile
 1.0.1): the opcode codec, access encryption, and one obfuscated network PDU.

 AES-CCM and AES-ECB are parameters; all that is known of them is `Correct`.
 */
module Network {
  import opened Prelude
  import opened Nonces

  const UNSEGMENTED_ACCESS_MAX := 11

  datatype CodecError =
    | ValueError | OverflowError | BadLength | WrongIvi | WrongNid | NotUnicast | ShortControl | MicFailed
    | EmptyTransport | BadDestination | EmptyAccess | TruncatedOpcode

  /** The library ciphers: key, nonce, data and MIC length for CCM, key and block for ECB. */
  datatype Cipher = Cipher(encrypt: (Bytes, Bytes, Bytes, nat) -> Bytes,
                           decrypt: (Bytes, Bytes, Bytes, nat) -> Option<Bytes>,
                           ecb: (Bytes, Bytes) -> Bytes)

  ghost predicate Correct(c: Cipher)
  {
    && (forall key, nonce, data, mic ::
          |c.encrypt(key, nonce, data, mic)| == |data| + mic
          && c.decrypt(key, nonce, c.encrypt(key, nonce, data, mic), mic) == Some(data))
    && forall key, block :: |c.ecb(key, block)| == 16
  }

  // ----- Opcodes (section 3.7.3.1) -----

  function EncodeOpcode(opcode: nat): Result<Bytes, CodecError>
  {
    if opcode < 0x80 then Ok([opcode])
    else if opcode < 0x10000 then Ok(BigEndian(opcode, 2))
    else if opcode < 0x1000000 then Ok(BigEndian(opcode, 3))
    else Err(OverflowError)
  }

  function DecodeOpcode(accessPdu: Bytes): Result<(nat, Bytes), CodecError>
  {
    if |accessPdu| == 0 then Err(EmptyAccess)
    else
      var first: nat := accessPdu[0];
      if first < 0x80 then Ok((first, accessPdu[1..]))
      else if first < 0xC0 then
        if |accessPdu| < 2 then Err(TruncatedOpcode) else Ok((FromBigEndian(accessPdu[..2]), accessPdu[2..]))
      else if |accessPdu| < 3 then Err(TruncatedOpcode)
      else Ok((FromBigEndian(accessPdu[..3]), accessPdu[3..]))
  }

  /** The opcodes whose first octet announces their own length. */
  predicate ValidOpcode(opcode: nat)
  {
    opcode < 0x80 || 0x8000 <= opcode < 0xC000 || 0xC00000 <= opcode < 0x1000000
  }

  lemma TwoBytes(n: nat)
    requires n < 0x10000
    ensures BigEndian(n, 2) == [n / 256, n % 256]
  {
    assert BigEndian(n / 256, 1) == BigEndian(n / 256 / 256, 0) + [n / 256 % 256];
  }

  lemma ThreeBytes(n: nat)
    requires n < 0x1000000
    ensures BigEndian(n, 3) == [n / 0x10000, n / 256 % 256, n % 256]
  {
    TwoBytes(n / 256);
    assert n / 256 / 256 == n / 0x10000;
  }

  function Word(high: nat, low: nat): nat
  {
    256 * high + low
  }

  lemma FromTwo(b: Bytes)
    requires |b| == 2
    ensures FromBigEndian(b) == Word(b[0], b[1])
  {
    assert b[..1] == [b[0]] && b[..1][..0] == [];
    assert FromBigEndian(b[..1]) == b[0];
  }

  lemma FromThree(b: Bytes)
    requires |b| == 3
    ensures FromBigEndian(b) == Word(Word(b[0], b[1]), b[2])
  {
    FromTwo(b[..2]);
  }

  /** An opcode survives the codec exactly when it is valid. */
  lemma OpcodeRoundTrip(opcode: nat, parameters: Bytes)
    requires opcode < 0x1000000
    ensures EncodeOpcode(opcode).Ok?
    ensures DecodeOpcode(EncodeOpcode(opcode).value + parameters) == Ok((opcode, parameters))
            <==> ValidOpcode(opcode)
  {
    hide BigEndian, FromBigEndian;
    var head := EncodeOpcode(opcode).value;
    var pdu := head + parameters;
    if opcode >= 0x80 && opcode < 0x10000 {
      TwoBytes(opcode);
      FromTwo(head);
      assert pdu[..2] == head && pdu[2..] == parameters && pdu[0] == opcode / 256;
      if opcode >= 0xC000 && |pdu| >= 3 {
        FromThree(pdu[..3]);
      }
    } else if opcode >= 0x10000 {
      ThreeBytes(opcode);
      FromThree(head);
      assert pdu[..3] == head && pdu[3..] == parameters && pdu[0] == opcode / 0x10000;
      FromTwo(pdu[..2]);
    } else {
      assert pdu[1..] == parameters;
    }
  }

  lemma TwoOctets(accessPdu: Bytes)
    requires |accessPdu| >= 2 && 0x80 <= accessPdu[0] < 0xC0
    ensures var opcode := FromBigEndian(accessPdu[..2]);
            0x8000 <= opcode < 0xC000 && BigEndian(opcode, 2) == accessPdu[..2]
  {
    FromTwo(accessPdu[..2]);
    TwoBytes(Word(accessPdu[0], accessPdu[1]));
    hide BigEndian, FromBigEndian;
  }

  lemma ThreeOctets(accessPdu: Bytes)
    requires |accessPdu| >= 3 && 0xC0 <= accessPdu[0]
    ensures var opcode := FromBigEndian(accessPdu[..3]);
            0xC00000 <= opcode < 0x1000000 && BigEndian(opcode, 3) == accessPdu[..3]
  {
    FromThree(accessPdu[..3]);
    ThreeBytes(Word(Word(accessPdu[0], accessPdu[1]), accessPdu[2]));
    hide BigEndian, FromBigEndian;
  }

  /** Every access PDU that decodes is the encoding of what it decodes to, and of a valid opcode. */
  lemma OpcodeExact(accessPdu: Bytes)
    requires DecodeOpcode(accessPdu).Ok?
    ensures var (opcode, parameters) := DecodeOpcode(accessPdu).value;
            ValidOpcode(opcode) && EncodeOpcode(opcode).Ok?
            && EncodeOpcode(opcode).value + parameters == accessPdu
  {
    hide BigEndian, FromBigEndian;
    if accessPdu[0] < 0x80 {
      assert [accessPdu[0]] + accessPdu[1..] == accessPdu;
    } else if accessPdu[0] < 0xC0 {
      TwoOctets(accessPdu);
      assert accessPdu[..2] + accessPdu[2..] == accessPdu;
    } else {
      ThreeOctets(accessPdu);
      assert accessPdu[..3] + accessPdu[3..] == accessPdu;
    }
  }

  // ----- Access encryption -----

  function MicLength(szmic: nat): nat
  {
    if szmic != 0 then 8 else 4
  }

  function AccessNonce(deviceKey: bool, szmic: nat, seq_: nat, src: nat, dst: nat, ivIndex: nat): Bytes
  {
    TransportNonce(if deviceKey then 2 else 1, szmic, seq_, src, dst, ivIndex)
  }

  function EncryptAccess(c: Cipher, key: Bytes, deviceKey: bool, ivIndex: nat, seq_: nat, src: nat, dst: nat,
                         accessPdu: Bytes, szmic: nat): Bytes
  {
    c.encrypt(key, AccessNonce(deviceKey, szmic, seq_, src, dst, ivIndex), accessPdu, MicLength(szmic))
  }

  function DecryptAccess(c: Cipher, key: Bytes, deviceKey: bool, ivIndex: nat, seq_: nat, src: nat, dst: nat,
                         upper: Bytes, szmic: nat): Option<Bytes>
  {
    c.decrypt(key, AccessNonce(deviceKey, szmic, seq_, src, dst, ivIndex), upper, MicLength(szmic))
  }

  function BuildUnsegmentedAccess(akf: nat, aid: nat, upper: Bytes): Result<Bytes, CodecError>
    requires akf < 2
  {
    if 1 <= |upper| <= 15 then Ok([64 * akf + aid % 64] + upper) else Err(ValueError)
  }

  // ----- Network PDUs -----

  /** What a NetKey derives: NID, EncryptionKey and PrivacyKey. */
  datatype NetworkKeys = NetworkKeys(nid: nat, encryptionKey: Bytes, privacyKey: Bytes)

  datatype NetworkMessage = NetworkMessage(ctl: nat, ttl: nat, seq_: nat, src: nat, dst: nat, transport: Bytes)

  /** The low `n` bits of `a ^ b`. */
  function XorBits(a: nat, b: nat, n: nat): nat
  {
    if n == 0 then 0 else (if a % 2 == b % 2 then 0 else 1) + 2 * XorBits(a / 2, b / 2, n - 1)
  }

  lemma XorStep(a: nat, b: nat, n: nat)
    requires n > 0
    ensures XorBits(a, b, n) / 2 == XorBits(a / 2, b / 2, n - 1)
    ensures XorBits(a, b, n) % 2 == if a % 2 == b % 2 then 0 else 1
  {
  }

  lemma {:induction false} XorBits8(a: nat, b: nat, n: nat)
    requires a < Pow(n)
    ensures XorBits(a, b, n) < Pow(n) && XorBits(XorBits(a, b, n), b, n) == a
  {
    if n > 0 {
      XorBits8(a / 2, b / 2, n - 1);
      XorStep(a, b, n);
    }
  }

  function Pow(n: nat): nat
  {
    if n == 0 then 1 else 2 * Pow(n - 1)
  }

  lemma PowEight()
    ensures Pow(8) == 256
  {
    assert Pow(4) == 2 * Pow(3) == 4 * Pow(2) == 8 * Pow(1) == 16;
    assert Pow(8) == 2 * Pow(7) == 4 * Pow(6) == 8 * Pow(5) == 16 * Pow(4);
  }

  function XorByte(a: byte, b: byte): byte
  {
    PowEight();
    XorBits8(a, b, 8);
    XorBits(a, b, 8)
  }

  /** The obfuscation mask applied to the six header bytes. */
  function Mask(header: Bytes, pecb: Bytes): (m: Bytes)
    requires |header| == |pecb|
    ensures |m| == |header|
  {
    seq(|header|, i requires 0 <= i < |header| => XorByte(header[i], pecb[i]))
  }

  lemma XorTwice(a: byte, b: byte)
    ensures XorByte(XorByte(a, b), b) == a
  {
    PowEight();
    XorBits8(a, b, 8);
  }

  lemma MaskTwice(header: Bytes, pecb: Bytes)
    requires |header| == |pecb|
    ensures Mask(Mask(header, pecb), pecb) == header
  {
    forall i | 0 <= i < |header| ensures Mask(Mask(header, pecb), pecb)[i] == header[i] {
      XorTwice(header[i], pecb[i]);
    }
  }

  function Pecb(c: Cipher, privacyKey: Bytes, ivIndex: nat, encrypted: Bytes): (m: Bytes)
    requires |encrypted| >= 7
  {
    c.ecb(privacyKey, [0, 0, 0, 0, 0] + BigEndian(ivIndex, 4) + encrypted[..7])
  }

  function Header(ctl: nat, ttl: nat, seq_: nat, src: nat): (h: Bytes)
    requires ctl < 2 && ttl < 128
    ensures |h| == 6
  {
    [ctl * 128 + ttl] + BigEndian(seq_, 3) + BigEndian(src, 2)
  }

  function PduNonce(proxyConfig: bool, ctl: nat, ttl: nat, seq_: nat, src: nat, ivIndex: nat): Bytes
  {
    if proxyConfig then ProxyNonce(seq_, src, ivIndex) else NetworkNonce(ctl, ttl, seq_, src, ivIndex)
  }

  function NetMic(ctl: nat): nat
  {
    if ctl != 0 then 8 else 4
  }

  predicate Sendable(m: NetworkMessage, proxyConfig: bool)
  {
    && m.ctl < 2 && m.ttl < 128 && m.seq_ < 0x1000000 && 1 <= m.src <= 0x7FFF
    && (if proxyConfig then m.dst == 0 else m.dst != 0)
    && 1 <= |m.transport| <= (if m.ctl == 1 then 12 else 16)
  }

  function EncodeNetworkPdu(c: Cipher, keys: NetworkKeys, ivIndex: nat, m: NetworkMessage, proxyConfig: bool)
    : Result<Bytes, CodecError>
    requires Correct(c)
  {
    if !Sendable(m, proxyConfig) then Err(ValueError)
    else if m.dst >= 0x10000 then Err(OverflowError)
    else
      var encrypted := c.encrypt(keys.encryptionKey, PduNonce(proxyConfig, m.ctl, m.ttl, m.seq_, m.src, ivIndex),
                                 BigEndian(m.dst, 2) + m.transport, NetMic(m.ctl));
      var pecb := Pecb(c, keys.privacyKey, ivIndex, encrypted)[..6];
      Ok([ivIndex % 2 * 128 + keys.nid % 128] + Mask(Header(m.ctl, m.ttl, m.seq_, m.src), pecb) + encrypted)
  }

  function DecodeNetworkPdu(c: Cipher, keys: NetworkKeys, ivIndex: nat, pdu: Bytes, proxyConfig: bool)
    : Result<NetworkMessage, CodecError>
    requires Correct(c)
  {
    if !(14 <= |pdu| <= 29) then Err(BadLength)
    else if pdu[0] / 128 != ivIndex % 2 then Err(WrongIvi)
    else if pdu[0] % 128 != keys.nid then Err(WrongNid)
    else
      var encrypted := pdu[7..];
      var header := Mask(pdu[1..7], Pecb(c, keys.privacyKey, ivIndex, encrypted)[..6]);
      var ctl: nat, ttl: nat := header[0] / 128, header[0] % 128;
      var seq_, src := FromBigEndian(header[1..4]), FromBigEndian(header[4..6]);
      if !(1 <= src <= 0x7FFF) then Err(NotUnicast)
      else if ctl == 1 && |pdu| < 18 then Err(ShortControl)
      else
        match c.decrypt(keys.encryptionKey, PduNonce(proxyConfig, ctl, ttl, seq_, src, ivIndex), encrypted,
                        NetMic(ctl))
        case None => Err(MicFailed)
        case Some(plaintext) =>
          if |plaintext| < 3 then Err(EmptyTransport)
          else
            var dst := FromBigEndian(plaintext[..2]);
            if proxyConfig != (dst == 0) then Err(BadDestination)
            else Ok(NetworkMessage(ctl, ttl, seq_, src, dst, plaintext[2..]))
  }

  lemma HeaderRoundTrip(ctl: nat, ttl: nat, seq_: nat, src: nat)
    requires ctl < 2 && ttl < 128 && seq_ < 0x1000000 && src < 0x10000
    ensures var h := Header(ctl, ttl, seq_, src);
            h[0] / 128 == ctl && h[0] % 128 == ttl && FromBigEndian(h[1..4]) == seq_
            && FromBigEndian(h[4..6]) == src
  {
    Spaces();
    BigEndianRoundTrip(seq_, 3);
    BigEndianRoundTrip(src, 2);
    hide BigEndian, FromBigEndian, Space;
    var h := Header(ctl, ttl, seq_, src);
    assert h[1..4] == BigEndian(seq_, 3) && h[4..6] == BigEndian(src, 2);
  }

  /** Whatever `encode_network_pdu` accepts, a node with the same keys decodes to the same message. */
  lemma NetworkRoundTrip(c: Cipher, keys: NetworkKeys, ivIndex: nat, m: NetworkMessage, proxyConfig: bool)
    requires Correct(c) && keys.nid < 128
    requires EncodeNetworkPdu(c, keys, ivIndex, m, proxyConfig).Ok?
    ensures DecodeNetworkPdu(c, keys, ivIndex, EncodeNetworkPdu(c, keys, ivIndex, m, proxyConfig).value, proxyConfig)
            == Ok(m)
  {
    hide BigEndian, FromBigEndian, Mask, Header, PduNonce;
    var plaintext := BigEndian(m.dst, 2) + m.transport;
    var encrypted := c.encrypt(keys.encryptionKey, PduNonce(proxyConfig, m.ctl, m.ttl, m.seq_, m.src, ivIndex),
                               plaintext, NetMic(m.ctl));
    var header := Header(m.ctl, m.ttl, m.seq_, m.src);
    var pecb := Pecb(c, keys.privacyKey, ivIndex, encrypted)[..6];
    var pdu := EncodeNetworkPdu(c, keys, ivIndex, m, proxyConfig).value;
    assert pdu[7..] == encrypted && pdu[1..7] == Mask(header, pecb);
    MaskTwice(header, pecb);
    HeaderRoundTrip(m.ctl, m.ttl, m.seq_, m.src);
    Spaces();
    BigEndianRoundTrip(m.dst, 2);
    assert plaintext[..2] == BigEndian(m.dst, 2) && plaintext[2..] == m.transport;
  }
}
