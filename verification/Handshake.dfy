/** The handshake: packet layouts, the two sides' computations over abstract primitives, and agreement on
    the session key. The exchange is Diffie-Hellman as in section 6.1 of RFC 7748. */
module Handshake {
  import opened Options
  import opened Wire
  import opened Tables

  const KEY_LEN: nat := 32
  const HMAC_LEN: nat := 32
  const ENCRYPTED_PUB_LEN: nat := KEY_LEN + TAG_LEN

  /** X25519, SHA-256, HMAC-SHA256 and AES-256-GCM with a zero nonce, as functions. */
  datatype Primitives = Primitives(
    pub: Bytes -> Bytes,
    dh: (Bytes, Bytes) -> Option<Bytes>,
    hash: Bytes -> Bytes,
    hmac: (Bytes, Bytes) -> Bytes,
    seal: (Bytes, Bytes) -> Bytes,
    open: (Bytes, Bytes) -> Option<Bytes>)
  {
    /** What is assumed of them: lengths, the symmetry of Diffie-Hellman for public keys of private keys, and
        that opening undoes sealing. Any other computation may fail or yield anything of its length. */
    ghost predicate Sound() {
      && (forall a :: |pub(a)| == KEY_LEN)
      && (forall a, b :: dh(a, pub(b)).Some?)
      && (forall a, b :: dh(a, pub(b)) == dh(b, pub(a)))
      && (forall a, q :: dh(a, q).Some? ==> |dh(a, q).value| == KEY_LEN)
      && (forall x :: |hash(x)| == KEY_LEN)
      && (forall k, x :: |hmac(k, x)| == HMAC_LEN)
      && (forall k, x :: |x| == KEY_LEN ==> |seal(k, x)| == ENCRYPTED_PUB_LEN && open(k, seal(k, x)) == Some(x))
      && (forall k, x :: |x| == ENCRYPTED_PUB_LEN && open(k, x).Some? ==> |open(k, x).value| == KEY_LEN)
    }
  }

  const BLOCK: Bytes :=
    [0, 0, 0, 0, 0, 0, 0, 0, 0, 0, 0, 0, 0, 0, 0, 0, 0, 0, 0, 0, 0, 0, 0, 0, 0, 0, 0, 0, 0, 0, 0, 0]

  /** Primitives that meet the assumptions. */
  const TOY: Primitives := Primitives(
    (a: Bytes) => BLOCK,
    (a: Bytes, q: Bytes) => Some(BLOCK),
    (x: Bytes) => BLOCK,
    (k: Bytes, x: Bytes) => BLOCK,
    (k: Bytes, x: Bytes) => x + BLOCK[..TAG_LEN],
    (k: Bytes, x: Bytes) => if |x| == ENCRYPTED_PUB_LEN then Some(x[..KEY_LEN]) else None)

  lemma ToyIsSound()
    ensures TOY.Sound()
  {}

  type Crypto = c: Primitives | c.Sound() witness (ToyIsSound(); TOY)

  // ----- packets

  /** Magic, ephemeral key, encrypted identity, and with a pre-shared key an HMAC over the latter two. */
  function Packet(c: Crypto, psk: Option<Bytes>, ephPub: Bytes, enc: Bytes): Bytes {
    MAGIC + ephPub + enc + if psk.Some? then c.hmac(psk.value, ephPub + enc) else []
  }

  function PacketLen(psk: Option<Bytes>): nat {
    HEADER_SIZE + KEY_LEN + ENCRYPTED_PUB_LEN + if psk.Some? then HMAC_LEN else 0
  }

  /** Both sides build their packet this way, `memcpy` by `memcpy`. */
  method BuildPacket(c: Crypto, psk: Option<Bytes>, ephPub: Bytes, enc: Bytes, pkt: array<byte>) returns (len: nat)
    requires |ephPub| == KEY_LEN && |enc| == ENCRYPTED_PUB_LEN
    requires pkt.Length == HEADER_SIZE + KEY_LEN + ENCRYPTED_PUB_LEN + HMAC_LEN
    modifies pkt
    ensures len == PacketLen(psk) && pkt[..len] == Packet(c, psk, ephPub, enc)
  {
    CopyIn(pkt, 0, MAGIC);
    CopyIn(pkt, HEADER_SIZE, ephPub);
    assert pkt[..40] == pkt[..8] + pkt[8..40];
    CopyIn(pkt, HEADER_SIZE + KEY_LEN, enc);
    assert pkt[..88] == pkt[..40] + pkt[40..88] == MAGIC + ephPub + enc;
    len := HEADER_SIZE + KEY_LEN + ENCRYPTED_PUB_LEN;
    if psk.Some? {
      assert pkt[8..88] == pkt[..88][8..] == ephPub + enc;
      CopyIn(pkt, len, c.hmac(psk.value, pkt[8..88]));
      assert pkt[..120] == pkt[..88] + pkt[88..120];
      len := len + HMAC_LEN;
    }
  }

  function EphOf(pkt: Bytes): Bytes
    requires |pkt| >= 88
  {
    pkt[8..40]
  }

  function EncOf(pkt: Bytes): Bytes
    requires |pkt| >= 88
  {
    pkt[40..88]
  }

  /** The checks on an incoming packet: length, magic, and with a pre-shared key the HMAC. */
  predicate WellFormed(c: Crypto, psk: Option<Bytes>, pkt: Bytes) {
    && |pkt| == PacketLen(psk)
    && pkt[..8] == MAGIC
    && (psk.Some? ==> pkt[88..] == c.hmac(psk.value, pkt[8..88]))
  }

  lemma PacketRoundTrip(c: Crypto, psk: Option<Bytes>, ephPub: Bytes, enc: Bytes)
    requires |ephPub| == KEY_LEN && |enc| == ENCRYPTED_PUB_LEN
    ensures var pkt := Packet(c, psk, ephPub, enc);
            WellFormed(c, psk, pkt) && EphOf(pkt) == ephPub && EncOf(pkt) == enc
  {
    var pkt := Packet(c, psk, ephPub, enc);
    assert pkt[..8] == MAGIC && pkt[8..40] == ephPub && pkt[40..88] == enc && pkt[8..88] == ephPub + enc;
  }

  // ----- the two sides

  /** The input of `derive_session_key`. */
  function KeyInput(ee: Bytes, se: Bytes, es: Bytes, clientEph: Bytes, serverEph: Bytes, clientStatic: Bytes,
                    serverStatic: Bytes): Bytes {
    ee + se + es + clientEph + serverEph + clientStatic + serverStatic
  }

  /** `handshake_client_send`, up to `sendto`: the packet and the state kept for the response. */
  function ClientSend(c: Crypto, psk: Option<Bytes>, ephPriv: Bytes, staticPub: Bytes,
                      serverPub: Bytes): Option<(Bytes, HsState)> {
    match c.dh(ephPriv, serverPub)
    case None => None
    case Some(es) =>
      var enc := c.seal(c.hash(es), staticPub);
      Some((Packet(c, psk, c.pub(ephPriv), enc), HsState(ephPriv, c.pub(ephPriv), es)))
  }

  /** What the initiator hashes into the session key on receiving `resp`, if it accepts it. */
  function ClientInput(c: Crypto, resp: Bytes, psk: Option<Bytes>, staticPriv: Bytes, staticPub: Bytes,
                       serverPub: Bytes, st: HsState): Option<Bytes> {
    if !WellFormed(c, psk, resp) then None
    else
      match c.dh(st.ephPriv, EphOf(resp))
      case None => None
      case Some(ee) =>
        if c.open(c.hash(ee), EncOf(resp)) != Some(serverPub) then None
        else
          match c.dh(staticPriv, EphOf(resp))
          case None => None
          case Some(se) => Some(KeyInput(ee, se, st.ecdhEcSs, st.ephPub, EphOf(resp), staticPub, serverPub))
  }

  /** `handshake_client_recv` */
  function ClientRecv(c: Crypto, resp: Bytes, psk: Option<Bytes>, staticPriv: Bytes, staticPub: Bytes,
                      serverPub: Bytes, st: HsState): Option<Bytes> {
    match ClientInput(c, resp, psk, staticPriv, staticPub, serverPub, st)
    case None => None
    case Some(x) => Some(c.hash(x))
  }

  /** What the responder does with a packet: the response it sends, the initiator's identity, and the input of
      the session key. The response goes out before the last computation, which may still fail. */
  datatype Reply = Reply(resp: Bytes, clientPub: Bytes, input: Option<Bytes>)

  function ServerInput(c: Crypto, pkt: Bytes, psk: Option<Bytes>, staticPriv: Bytes, staticPub: Bytes,
                       ephPriv: Bytes): Option<Reply> {
    if !WellFormed(c, psk, pkt) then None
    else
      match c.dh(staticPriv, EphOf(pkt))
      case None => None
      case Some(es) =>
        match c.open(c.hash(es), EncOf(pkt))
        case None => None
        case Some(clientPub) =>
          match c.dh(ephPriv, EphOf(pkt))
          case None => None
          case Some(ee) =>
            var resp := Packet(c, psk, c.pub(ephPriv), c.seal(c.hash(ee), staticPub));
            match c.dh(ephPriv, clientPub)
            case None => Some(Reply(resp, clientPub, None))
            case Some(se) =>
              Some(Reply(resp, clientPub, Some(KeyInput(ee, se, es, EphOf(pkt), c.pub(ephPriv), clientPub, staticPub))))
  }

  /** `handshake_server_respond`: the initiator's identity and the session key. */
  function ServerRespond(c: Crypto, pkt: Bytes, psk: Option<Bytes>, staticPriv: Bytes, staticPub: Bytes,
                         ephPriv: Bytes): Option<(Bytes, Bytes)> {
    match ServerInput(c, pkt, psk, staticPriv, staticPub, ephPriv)
    case Some(Reply(resp, clientPub, Some(x))) => Some((clientPub, c.hash(x)))
    case _ => None
  }

  // ----- what is accepted

  /** `pkt` is laid out as a packet and, with a pre-shared key, carries the HMAC of its parts under it. */
  ghost predicate Authentic(c: Crypto, psk: Option<Bytes>, pkt: Bytes) {
    && |pkt| == 88 + (if psk.Some? then 32 else 0)
    && pkt[..8] == [0xde, 0xad, 0xbe, 0xef, 0xca, 0xfe, 0xba, 0xbe]
    && (psk.Some? ==> pkt[88..120] == c.hmac(psk.value, pkt[8..88]))
  }

  /** A responder accepts a packet if and only if it is authentic, its ephemeral key can be used, and the identity in it
      opens under the key agreed with the responder's static key; that identity is the one it reports. */
  lemma ResponderAccepts(c: Crypto, pkt: Bytes, psk: Option<Bytes>, staticPriv: Bytes, staticPub: Bytes, ephPriv: Bytes)
    ensures var r := ServerInput(c, pkt, psk, staticPriv, staticPub, ephPriv);
            && (r.Some? <==>
                && Authentic(c, psk, pkt) && c.dh(staticPriv, pkt[8..40]).Some? && c.dh(ephPriv, pkt[8..40]).Some?
                && c.open(c.hash(c.dh(staticPriv, pkt[8..40]).value), pkt[40..88]).Some?)
            && (r.Some? ==>
                Some(r.value.clientPub) == c.open(c.hash(c.dh(staticPriv, pkt[8..40]).value), pkt[40..88]))
  {}

  /** An initiator accepts a response if and only if it is authentic, its ephemeral key can be used, and the identity
      in it is the expected one. */
  lemma InitiatorAccepts(c: Crypto, resp: Bytes, psk: Option<Bytes>, staticPriv: Bytes, staticPub: Bytes,
                         serverPub: Bytes, st: HsState)
    ensures ClientRecv(c, resp, psk, staticPriv, staticPub, serverPub, st).Some? <==>
            && Authentic(c, psk, resp) && c.dh(st.ephPriv, resp[8..40]).Some? && c.dh(staticPriv, resp[8..40]).Some?
            && c.open(c.hash(c.dh(st.ephPriv, resp[8..40]).value), resp[40..88]) == Some(serverPub)
  {}

  /** The authentic packets are those that a peer with the same pre-shared key builds. */
  lemma AuthenticIsBuilt(c: Crypto, psk: Option<Bytes>, pkt: Bytes)
    ensures Authentic(c, psk, pkt) <==>
            exists eph, enc :: |eph| == 32 && |enc| == 48 && pkt == Packet(c, psk, eph, enc)
  {
    if Authentic(c, psk, pkt) {
      var eph, enc := pkt[8..40], pkt[40..88];
      assert eph + enc == pkt[8..88];
      assert pkt == pkt[..8] + eph + enc + pkt[88..];
      assert pkt == Packet(c, psk, eph, enc);
    }
    forall eph, enc | |eph| == 32 && |enc| == 48 && pkt == Packet(c, psk, eph, enc)
      ensures Authentic(c, psk, pkt)
    {
      PacketRoundTrip(c, psk, eph, enc);
    }
  }

  /** A packet built under one pre-shared key, or under none, is authentic under another setting only if the two keys
      have one HMAC on it. */
  lemma OtherSecretIsRefused(c: Crypto, mine: Option<Bytes>, theirs: Option<Bytes>, eph: Bytes, enc: Bytes)
    requires |eph| == 32 && |enc| == 48
    ensures Authentic(c, theirs, Packet(c, mine, eph, enc)) <==>
            && mine.Some? == theirs.Some?
            && (mine.Some? ==> c.hmac(mine.value, eph + enc) == c.hmac(theirs.value, eph + enc))
  {
    var pkt := Packet(c, mine, eph, enc);
    assert pkt[..8] == MAGIC && pkt[8..88] == eph + enc;
    if mine.Some? {
      assert pkt[88..] == c.hmac(mine.value, eph + enc);
    }
  }

  /** The seven parts of the initiator's key input, in order. */
  lemma InitiatorKeyInput(c: Crypto, resp: Bytes, psk: Option<Bytes>, staticPriv: Bytes, staticPub: Bytes,
                          serverPub: Bytes, st: HsState)
    requires |staticPub| == |serverPub| == |st.ephPub| == |st.ecdhEcSs| == KEY_LEN
    ensures var x := ClientInput(c, resp, psk, staticPriv, staticPub, serverPub, st);
            x.Some? ==>
              && |x.value| == 224 && |resp| >= 88
              && Some(x.value[..32]) == c.dh(st.ephPriv, resp[8..40])
              && Some(x.value[32..64]) == c.dh(staticPriv, resp[8..40])
              && x.value[64..96] == st.ecdhEcSs && x.value[96..128] == st.ephPub && x.value[128..160] == resp[8..40]
              && x.value[160..192] == staticPub && x.value[192..] == serverPub
  {
    var x := ClientInput(c, resp, psk, staticPriv, staticPub, serverPub, st);
    if x.Some? {
      var ee, se := c.dh(st.ephPriv, resp[8..40]).value, c.dh(staticPriv, resp[8..40]).value;
      PartsAt(ee, se, st.ecdhEcSs, st.ephPub, resp[8..40], staticPub, serverPub, x.value);
    }
  }

  /** The seven parts of the responder's key input: the same secrets, from its side. */
  lemma ResponderKeyInput(c: Crypto, pkt: Bytes, psk: Option<Bytes>, staticPriv: Bytes, staticPub: Bytes,
                          ephPriv: Bytes)
    requires |staticPub| == KEY_LEN
    ensures var r := ServerInput(c, pkt, psk, staticPriv, staticPub, ephPriv);
            r.Some? && r.value.input.Some? ==>
              var x, clientPub := r.value.input.value, r.value.clientPub;
              && |x| == 224 && |pkt| >= 88
              && Some(x[..32]) == c.dh(ephPriv, pkt[8..40]) && Some(x[32..64]) == c.dh(ephPriv, clientPub)
              && Some(x[64..96]) == c.dh(staticPriv, pkt[8..40]) && x[96..128] == pkt[8..40]
              && x[128..160] == c.pub(ephPriv) && x[160..192] == clientPub && x[192..] == staticPub
  {
    var r := ServerInput(c, pkt, psk, staticPriv, staticPub, ephPriv);
    if r.Some? && r.value.input.Some? {
      var es, ee := c.dh(staticPriv, pkt[8..40]).value, c.dh(ephPriv, pkt[8..40]).value;
      var se := c.dh(ephPriv, r.value.clientPub).value;
      PartsAt(ee, se, es, pkt[8..40], c.pub(ephPriv), r.value.clientPub, staticPub, r.value.input.value);
    }
  }

  lemma PartsAt(a0: Bytes, a1: Bytes, a2: Bytes, a3: Bytes, a4: Bytes, a5: Bytes, a6: Bytes, x: Bytes)
    requires |a0| == |a1| == |a2| == |a3| == |a4| == |a5| == |a6| == 32 && x == KeyInput(a0, a1, a2, a3, a4, a5, a6)
    ensures |x| == 224 && x[..32] == a0 && x[32..64] == a1 && x[64..96] == a2 && x[96..128] == a3
    ensures x[128..160] == a4 && x[160..192] == a5 && x[192..] == a6
  {}

  // ----- agreement

  /** An undisturbed exchange: both sides succeed with the same session key, and the responder learns who the
      initiator is. For all keys, with or without a pre-shared key. */
  lemma BothSidesAgree(c: Crypto, psk: Option<Bytes>, clientPriv: Bytes, clientEph: Bytes, serverPriv: Bytes,
                       serverEph: Bytes)
    ensures var sent := ClientSend(c, psk, clientEph, c.pub(clientPriv), c.pub(serverPriv));
            && sent.Some?
            && var (pkt, st) := sent.value;
               var reply := ServerInput(c, pkt, psk, serverPriv, c.pub(serverPriv), serverEph);
               && reply.Some?
               && var key := ClientRecv(c, reply.value.resp, psk, clientPriv, c.pub(clientPriv), c.pub(serverPriv), st);
                  && key.Some?
                  && ServerRespond(c, pkt, psk, serverPriv, c.pub(serverPriv), serverEph) ==
                    Some((c.pub(clientPriv), key.value))
  {
    var (pkt, st) := ClientSend(c, psk, clientEph, c.pub(clientPriv), c.pub(serverPriv)).value;
    var es := c.dh(clientEph, c.pub(serverPriv)).value;
    PacketRoundTrip(c, psk, c.pub(clientEph), c.seal(c.hash(es), c.pub(clientPriv)));
    var ee := c.dh(serverEph, c.pub(clientEph)).value;
    PacketRoundTrip(c, psk, c.pub(serverEph), c.seal(c.hash(ee), c.pub(serverPriv)));
  }

  /** The key input of seven 32-byte parts. */
  function Joined(a: seq<Bytes>): Bytes
    requires |a| == 7
  {
    KeyInput(a[0], a[1], a[2], a[3], a[4], a[5], a[6])
  }

  lemma PartsOf(a: seq<Bytes>)
    requires |a| == 7 && forall i :: 0 <= i < 7 ==> |a[i]| == KEY_LEN
    ensures |Joined(a)| == 7 * KEY_LEN
    ensures forall i :: 0 <= i < 7 ==> Joined(a)[KEY_LEN * i..KEY_LEN * (i + 1)] == a[i]
  {
    PartsAt(a[0], a[1], a[2], a[3], a[4], a[5], a[6], Joined(a));
  }

  /** The key input determines its seven parts. */
  lemma KeyInputInjective(a: seq<Bytes>, b: seq<Bytes>)
    requires |a| == |b| == 7 && forall i :: 0 <= i < 7 ==> |a[i]| == |b[i]| == KEY_LEN
    requires Joined(a) == Joined(b)
    ensures a == b
  {
    PartsOf(a);
    PartsOf(b);
    forall i | 0 <= i < 7
      ensures a[i] == b[i]
    {
      assert Joined(a)[KEY_LEN * i..KEY_LEN * (i + 1)] == a[i];
    }
  }

  /** Two inputs with one hash. */
  predicate Collision(c: Crypto, x: Bytes, y: Bytes) {
    x != y && c.hash(x) == c.hash(y)
  }

  /** Conversely, whatever packets the network delivered: if an initiator and a responder end with the same
      session key, then their key inputs are a hash collision, or they agree on both ephemeral keys, on both
      static keys, and on who initiated. */
  lemma SameKeyMeansAgreement(c: Crypto, psk: Option<Bytes>, resp: Bytes, clientPriv: Bytes, clientPub: Bytes,
                              serverPub: Bytes, st: HsState,
                              psk': Option<Bytes>, pkt: Bytes, serverPriv: Bytes, staticPub: Bytes, serverEph: Bytes)
    requires |clientPub| == |serverPub| == |staticPub| == |st.ephPub| == |st.ecdhEcSs| == KEY_LEN
    requires ClientInput(c, resp, psk, clientPriv, clientPub, serverPub, st).Some?
    requires ServerInput(c, pkt, psk', serverPriv, staticPub, serverEph).Some?
    requires ServerInput(c, pkt, psk', serverPriv, staticPub, serverEph).value.input.Some?
    requires ClientRecv(c, resp, psk, clientPriv, clientPub, serverPub, st).value ==
             ServerRespond(c, pkt, psk', serverPriv, staticPub, serverEph).value.1
    ensures var x := ClientInput(c, resp, psk, clientPriv, clientPub, serverPub, st).value;
            var reply := ServerInput(c, pkt, psk', serverPriv, staticPub, serverEph).value;
            || Collision(c, x, reply.input.value)
            || (&& st.ephPub == EphOf(pkt) && EphOf(resp) == c.pub(serverEph)
                && clientPub == reply.clientPub && serverPub == staticPub)
  {
    var x := ClientInput(c, resp, psk, clientPriv, clientPub, serverPub, st).value;
    var reply := ServerInput(c, pkt, psk', serverPriv, staticPub, serverEph).value;
    if x == reply.input.value {
      var ee, se := c.dh(st.ephPriv, EphOf(resp)).value, c.dh(clientPriv, EphOf(resp)).value;
      var es' := c.dh(serverPriv, EphOf(pkt)).value;
      var ee', se' := c.dh(serverEph, EphOf(pkt)).value, c.dh(serverEph, reply.clientPub).value;
      var a := [ee, se, st.ecdhEcSs, st.ephPub, EphOf(resp), clientPub, serverPub];
      var b := [ee', se', es', EphOf(pkt), c.pub(serverEph), reply.clientPub, staticPub];
      KeyInputInjective(a, b);
      assert a[3] == b[3] && a[4] == b[4] && a[5] == b[5] && a[6] == b[6];
    }
  }
}
