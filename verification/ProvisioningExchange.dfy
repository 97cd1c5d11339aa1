/**
 The PB-GATT provisioning exchange of `provisioning.py` (section 5.4 of Mesh Profile 1.0.1)
 over an arbitrary peer: a queue of received PDUs, the PDUs sent, and the durable hook.
 */
module ProvisioningExchange {
  import opened Prelude

  const INVITE := 0
  const CAPABILITIES := 1
  const START := 2
  const PUBLIC_KEY := 3
  const CONFIRMATION := 5
  const RANDOM := 6
  const DATA := 7
  const COMPLETE := 8
  const FAILED := 9

  /** No-OOB, both keys in band, CMAC-AES128. */
  const START_PARAMS: Bytes := [0, 0, 0, 0, 0]
  const AUTH_VALUE: Bytes := seq(16, _ => 0)

  datatype Pdu = Pdu(kind: nat, params: Bytes)

  datatype Error = TimedOut | MalformedFailure | Rejected | UnexpectedPdu | BadCapabilities | NoAlgorithm | NoElements
                 | AddressRange | BadPublicKey | Reflected | InvalidPoint | BadConfirmation | BadRandom | Mismatch
                 | HookRaised | BadComplete

  /** The library primitives the exchange composes. */
  datatype Crypto = Crypto(publicKey: Bytes -> Bytes, shared: (Bytes, Bytes) -> Option<Bytes>, s1: Bytes -> Bytes,
                           k1: (Bytes, Bytes, string) -> Bytes, cmac: (Bytes, Bytes) -> Bytes,
                           encrypt: (Bytes, Bytes, Bytes, nat) -> Bytes,
                           decrypt: (Bytes, Bytes, Bytes, nat) -> Option<Bytes>)

  /** Diffie-Hellman agrees, sizes are fixed, and decryption undoes encryption. */
  ghost predicate Sound(c: Crypto)
  {
    && (forall a, b :: c.shared(a, c.publicKey(b)).Some? && c.shared(a, c.publicKey(b)) == c.shared(b, c.publicKey(a)))
    && (forall a :: |c.publicKey(a)| == 64)
    && (forall k, m :: |c.cmac(k, m)| == 16)
    && forall key, nonce, data, mic :: c.decrypt(key, nonce, c.encrypt(key, nonce, data, mic), mic) == Some(data)
  }

  /** Everything either side derives from the shared secret and the exchanged values. */
  datatype Session = Session(confirmationKey: Bytes, sessionKey: Bytes, nonce: Bytes, deviceKey: Bytes)

  function ConfirmationKey(c: Crypto, invite: Bytes, capabilities: Bytes, provisionerKey: Bytes, deviceKey: Bytes,
                           secret: Bytes): Bytes
  {
    c.k1(secret, c.s1(invite + capabilities + START_PARAMS + provisionerKey + deviceKey), "prck")
  }

  /** `b[-13:]` */
  function Last13(b: Bytes): Bytes
  {
    if |b| <= 13 then b else b[|b| - 13..]
  }

  function Derive(c: Crypto, invite: Bytes, capabilities: Bytes, provisionerKey: Bytes, deviceKey: Bytes, secret: Bytes,
                  provisionerRandom: Bytes, deviceRandom: Bytes): Session
  {
    var salt := c.s1(c.s1(invite + capabilities + START_PARAMS + provisionerKey + deviceKey)
                     + provisionerRandom + deviceRandom);
    Session(ConfirmationKey(c, invite, capabilities, provisionerKey, deviceKey, secret),
            c.k1(secret, salt, "prsk"), Last13(c.k1(secret, salt, "prsn")), c.k1(secret, salt, "prdk"))
  }

  /** What the provisioner brings to one exchange. */
  datatype Plan = Plan(networkKey: Bytes, keyIndex: nat, flags: byte, ivIndex: nat, unicast: nat, attention: byte,
                       privateKey: Bytes, random: Bytes)

  function ProvisioningData(p: Plan): Bytes
  {
    p.networkKey + BigEndian(p.keyIndex, 2) + [p.flags] + BigEndian(p.ivIndex, 4) + BigEndian(p.unicast, 2)
  }

  datatype Provisioned = Provisioned(unicast: nat, numElements: nat, deviceKey: Bytes)

  /** The session the replies so far determine. */
  ghost function SessionOf(c: Crypto, p: Plan, replies: seq<Pdu>): Option<Session>
    requires Sound(c)
  {
    if |replies| < 4 || c.shared(p.privateKey, replies[1].params).None? then None
    else
      Some(Derive(c, [p.attention], replies[0].params, c.publicKey(p.privateKey), replies[1].params,
                  c.shared(p.privateKey, replies[1].params).value, p.random, replies[3].params))
  }

  /** The peer proved, by its earlier confirmation, that it had committed to the random it then sent. */
  ghost predicate Confirmed(c: Crypto, p: Plan, replies: seq<Pdu>)
    requires Sound(c)
  {
    && SessionOf(c, p, replies).Some?
    && replies[2].params == c.cmac(SessionOf(c, p, replies).value.confirmationKey, replies[3].params + AUTH_VALUE)
  }

  function Elements(capabilities: Bytes): nat
    requires |capabilities| == 11
  {
    capabilities[0]
  }

  predicate Acceptable(p: Plan, capabilities: Bytes)
  {
    |capabilities| == 11 && capabilities[2] % 2 == 1 && Elements(capabilities) >= 1
    && p.unicast + Elements(capabilities) - 1 <= 0x7FFF
  }

  /** The PDU that hands over the network: nothing before it is irreversible. */
  ghost function DataPdu(c: Crypto, p: Plan, replies: seq<Pdu>): Pdu
    requires Sound(c) && SessionOf(c, p, replies).Some?
  {
    var session := SessionOf(c, p, replies).value;
    Pdu(DATA, c.encrypt(session.sessionKey, session.nonce, ProvisioningData(p), 8))
  }

  /** Where the exchange stands when Data goes out, if it does: confirmed, and durably saved. */
  ghost predicate Committed(c: Crypto, p: Plan, replies: seq<Pdu>, saved: Option<(Bytes, nat)>)
    requires Sound(c)
  {
    && Confirmed(c, p, replies) && Acceptable(p, replies[0].params)
    && saved == Some((SessionOf(c, p, replies).value.deviceKey, Elements(replies[0].params)))
  }

  /** Replies the exchange carries through to Data, whatever follows them. */
  ghost predicate InOrder(c: Crypto, p: Plan, replies: seq<Pdu>)
    requires Sound(c)
  {
    && |replies| >= 4
    && replies[0].kind == CAPABILITIES && replies[1].kind == PUBLIC_KEY && replies[2].kind == CONFIRMATION
    && replies[3].kind == RANDOM
    && Acceptable(p, replies[0].params) && |replies[1].params| == 64 && |replies[3].params| == 16
    && replies[1].params != c.publicKey(p.privateKey) && Confirmed(c, p, replies)
    && replies[2].params != c.cmac(SessionOf(c, p, replies).value.confirmationKey, p.random + AUTH_VALUE)
  }

  ghost predicate NoData(pdus: seq<Pdu>)
  {
    forall i :: 0 <= i < |pdus| ==> pdus[i].kind != DATA
  }

  class Provisioner {
    const crypto: Crypto
    /** PDUs received and not yet taken, PDUs sent, and what the durable hook was given. */
    var queue: seq<Pdu>
    var sent: seq<Pdu>
    var saved: Option<(Bytes, nat)>

    constructor (crypto: Crypto, queue: seq<Pdu>)
      ensures this.crypto == crypto && this.queue == queue && sent == [] && saved == None
    {
      this.crypto, this.queue, sent, saved := crypto, queue, [], None;
    }

    method Send(kind: nat, params: Bytes)
      modifies `sent
      ensures sent == old(sent) + [Pdu(kind, params)]
      ensures kind != DATA && NoData(old(sent)) ==> NoData(sent)
    {
      sent := sent + [Pdu(kind, params)];
    }

    /** `_expect`: an empty queue is the timeout. */
    method Expect(kind: nat) returns (r: Result<Bytes, Error>)
      modifies `queue
      ensures r.Ok? ==> |old(queue)| > 0 && old(queue)[0] == Pdu(kind, r.value) && queue == old(queue)[1..]
      ensures |old(queue)| > 0 && old(queue)[0].kind == kind != FAILED ==> r.Ok?
    {
      if queue == [] {
        return Err(TimedOut);
      }
      var pdu := queue[0];
      queue := queue[1..];
      if pdu.kind == FAILED {
        return Err(if |pdu.params| != 1 then MalformedFailure else Rejected);
      }
      if pdu.kind != kind {
        return Err(UnexpectedPdu);
      }
      return Ok(pdu.params);
    }

    /**
     `_provision_exchange` up to its confirmation check: the derived session and element count,
     or an error, with nothing irreversible sent either way.
     */
    method Authenticate(p: Plan) returns (r: Result<(Session, nat), Error>)
      requires Sound(crypto) && sent == []
      modifies `queue, `sent
      ensures NoData(sent)
      ensures var replies := old(queue);
              r.Ok? ==> Confirmed(crypto, p, replies) && Acceptable(p, replies[0].params)
                        && r.value == (SessionOf(crypto, p, replies).value, Elements(replies[0].params))
                        && queue == replies[4..]
      ensures InOrder(crypto, p, old(queue)) ==> r.Ok?
    {
      hide Sound, Derive, ConfirmationKey, InOrder, NoData, SessionOf, Confirmed;
      ghost var replies := queue;
      assert NoData([]) by {
        Nothing();
      }
      OnTrack(crypto, p, replies);
      var invite: Bytes := [p.attention];
      Send(INVITE, invite);
      var capabilities :- Expect(CAPABILITIES);
      if |capabilities| != 11 {
        return Err(BadCapabilities);
      }
      if capabilities[2] % 2 == 0 {
        return Err(NoAlgorithm);
      }
      var numElements: nat := capabilities[0];
      if numElements < 1 {
        return Err(NoElements);
      }
      if p.unicast + numElements - 1 > 0x7FFF {
        return Err(AddressRange);
      }
      Send(START, START_PARAMS);
      var provisionerKey := crypto.publicKey(p.privateKey);
      Send(PUBLIC_KEY, provisionerKey);
      var deviceKey :- Expect(PUBLIC_KEY);
      if |deviceKey| != 64 {
        return Err(BadPublicKey);
      }
      if deviceKey == provisionerKey {
        return Err(Reflected);
      }
      var secret := crypto.shared(p.privateKey, deviceKey);
      if secret.None? {
        return Err(InvalidPoint);
      }
      var confirmationKey := ConfirmationKey(crypto, invite, capabilities, provisionerKey, deviceKey, secret.value);
      var confirmation := crypto.cmac(confirmationKey, p.random + AUTH_VALUE);
      Send(CONFIRMATION, confirmation);
      var deviceConfirmation :- Expect(CONFIRMATION);
      if |deviceConfirmation| != 16 {
        return Err(BadConfirmation);
      }
      if deviceConfirmation == confirmation {
        return Err(Reflected);
      }
      Send(RANDOM, p.random);
      var deviceRandom :- Expect(RANDOM);
      if |deviceRandom| != 16 {
        return Err(BadRandom);
      }
      var session := Derive(crypto, invite, capabilities, provisionerKey, deviceKey, secret.value, p.random, deviceRandom);
      Authenticated(crypto, p, replies, capabilities, deviceKey, deviceConfirmation, deviceRandom);
      if crypto.cmac(confirmationKey, deviceRandom + AUTH_VALUE) != deviceConfirmation {
        return Err(Mismatch);
      }
      return Ok((session, numElements));
    }

    /**
     `_provision_exchange`: Data is sent at most once, last, and only after the peer's
     confirmation matched its random and the hook durably saved the DeviceKey this very exchange
     derived; success means all of that and an empty Complete.
     */
    method ProvisionExchange(p: Plan, hookReturns: bool) returns (r: Result<Provisioned, Error>)
      requires Sound(crypto) && sent == [] && saved == None
      modifies this
      ensures var replies := old(queue);
              if NoData(sent) then r.Err? && saved == None
              else
                && Committed(crypto, p, replies, saved) && hookReturns
                && NoData(sent[..|sent| - 1]) && sent[|sent| - 1] == DataPdu(crypto, p, replies)
      ensures r.Ok? <==> !NoData(sent) && |old(queue)| >= 5 && old(queue)[4] == Pdu(COMPLETE, [])
      ensures r.Ok? ==> saved.Some? && r.value == Provisioned(p.unicast, saved.value.1, saved.value.0)
      ensures hookReturns && InOrder(crypto, p, old(queue)) ==> !NoData(sent)
    {
      hide Sound, Derive, ConfirmationKey, InOrder;
      ghost var replies := queue;
      var authenticated :- Authenticate(p);
      var (session, numElements) := authenticated;
      if !hookReturns {
        return Err(HookRaised);
      }
      saved := Some((session.deviceKey, numElements));
      Send(DATA, crypto.encrypt(session.sessionKey, session.nonce, ProvisioningData(p), 8));
      assert sent[|sent| - 1].kind == DATA;
      assert |queue| > 0 ==> queue[0] == replies[4];
      var complete :- Expect(COMPLETE);
      if complete != [] {
        return Err(BadComplete);
      }
      return Ok(Provisioned(p.unicast, numElements, session.deviceKey));
    }
  }

  lemma Nothing()
    ensures NoData([])
  {
  }

  /** What replies that keep the exchange going look like to each of its checks. */
  lemma OnTrack(c: Crypto, p: Plan, replies: seq<Pdu>)
    requires Sound(c)
    ensures InOrder(c, p, replies) ==>
              && |replies| >= 4
              && replies[0].kind == CAPABILITIES && replies[1].kind == PUBLIC_KEY && replies[2].kind == CONFIRMATION
              && replies[3].kind == RANDOM
              && Acceptable(p, replies[0].params) && |replies[1].params| == 64 && |replies[2].params| == 16
              && |replies[3].params| == 16 && replies[1].params != c.publicKey(p.privateKey)
              && c.shared(p.privateKey, replies[1].params).Some?
              && var key := ConfirmationKey(c, [p.attention], replies[0].params, c.publicKey(p.privateKey),
                                            replies[1].params, c.shared(p.privateKey, replies[1].params).value);
                 replies[2].params == c.cmac(key, replies[3].params + AUTH_VALUE)
                 && replies[2].params != c.cmac(key, p.random + AUTH_VALUE)
  {
    hide ConfirmationKey;
  }

  /** The values taken from the queue are the ones the session is derived from. */
  lemma Authenticated(c: Crypto, p: Plan, replies: seq<Pdu>, capabilities: Bytes, deviceKey: Bytes, confirmation: Bytes,
                      random: Bytes)
    requires Sound(c) && |replies| >= 4 && replies[0].params == capabilities && replies[1].params == deviceKey
    requires replies[2].params == confirmation && replies[3].params == random
    requires c.shared(p.privateKey, deviceKey).Some?
    ensures var secret := c.shared(p.privateKey, deviceKey).value;
            var own := c.publicKey(p.privateKey);
            var session := Derive(c, [p.attention], capabilities, own, deviceKey, secret, p.random, random);
            SessionOf(c, p, replies) == Some(session)
            && (Confirmed(c, p, replies) <==>
                  c.cmac(ConfirmationKey(c, [p.attention], capabilities, own, deviceKey, secret), random + AUTH_VALUE)
                  == confirmation)
  {
    hide ConfirmationKey, Sound;
  }

  // ----- Agreement -----

  /** A device that runs the exchange honestly. */
  datatype Device = Device(privateKey: Bytes, random: Bytes, capabilities: Bytes)

  /** What the device derives from its own private key and the provisioner's public values. */
  ghost function DeviceSession(c: Crypto, p: Plan, d: Device): Session
    requires Sound(c)
  {
    Derive(c, [p.attention], d.capabilities, c.publicKey(p.privateKey), c.publicKey(d.privateKey),
           c.shared(d.privateKey, c.publicKey(p.privateKey)).value, p.random, d.random)
  }

  ghost function Replies(c: Crypto, p: Plan, d: Device): seq<Pdu>
    requires Sound(c)
  {
    [Pdu(CAPABILITIES, d.capabilities), Pdu(PUBLIC_KEY, c.publicKey(d.privateKey)),
     Pdu(CONFIRMATION, c.cmac(DeviceSession(c, p, d).confirmationKey, d.random + AUTH_VALUE)), Pdu(RANDOM, d.random),
     Pdu(COMPLETE, [])]
  }

  /**
   Both sides derive the same session, so the DeviceKey the hook saved is the one the device
   keeps, and the Data PDU decrypts there to exactly the network handed over; an honest device
   whose values are not mistaken for a reflection is carried all the way.
   */
  lemma Agreement(c: Crypto, p: Plan, d: Device)
    requires Sound(c) && Acceptable(p, d.capabilities) && |d.random| == 16
    requires c.publicKey(p.privateKey) != c.publicKey(d.privateKey)
    requires c.cmac(DeviceSession(c, p, d).confirmationKey, d.random + AUTH_VALUE)
             != c.cmac(DeviceSession(c, p, d).confirmationKey, p.random + AUTH_VALUE)
    ensures var replies := Replies(c, p, d);
            InOrder(c, p, replies) && SessionOf(c, p, replies) == Some(DeviceSession(c, p, d))
            && var session := DeviceSession(c, p, d);
               c.decrypt(session.sessionKey, session.nonce, DataPdu(c, p, replies).params, 8) == Some(ProvisioningData(p))
  {
    var replies := Replies(c, p, d);
    assert c.shared(p.privateKey, c.publicKey(d.privateKey)) == c.shared(d.privateKey, c.publicKey(p.privateKey));
    hide Derive;
    assert SessionOf(c, p, replies) == Some(DeviceSession(c, p, d));
  }
}
