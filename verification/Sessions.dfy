/** One session slot: `peer_session_t` as a value, what each operation makes of it, and the
    operations themselves, in place on a `PeerSession`. */
module Sessions {
  import opened Options
  import opened Words
  import opened Wire
  import opened Routing
  import Replay

  datatype Addr = Addr(ip: int, port: int)

  /** The settings `main` accepts. */
  datatype Params = Params(
    rekeyAfter: int,
    reconnectInterval: int,
    sessionExpiry: int,
    prevKeyGrace: int,
    handshakeTimeout: int,
    handshakeCooldown: int,
    keepaliveInterval: int)
  {
    predicate Valid() {
      && keepaliveInterval > 0 && rekeyAfter > 0 && reconnectInterval > 0 && sessionExpiry > rekeyAfter
      && prevKeyGrace > 0 && handshakeTimeout > 0 && handshakeCooldown > 0
    }
  }

  datatype Session = Session(
    active: bool,
    addr: Addr,
    pub: Bytes,
    key: Bytes,
    prevKey: Bytes,
    prevActive: bool,
    prevExpires: int,
    lastSeen: int,
    lastSent: int,
    lastHandshake: int,
    rekeyDeadline: int,
    rekeying: bool,
    sendSeq: uint64,
    window: Replay.Window,
    routes: seq<Prefix>,
    outbound: bool)

  /** The key a packet was opened with. */
  datatype KeyUsed = Current | Previous

  /** How a data packet fares in the section under `hot_lock`. */
  datatype Verdict =
    | Undecrypted
    | BadHeader
    | Replayed(seqno: uint64)
    | Passed(used: KeyUsed, seqno: uint64, payload: Bytes)

  // ----- what the operations make of a session

  /** `session_init` */
  function Installed(p: Params, s: Session, addr: Addr, pub: Bytes, key: Bytes, routes: seq<Prefix>, outbound: bool,
                     now: int): Session {
    Session(
      active := true,
      addr := addr,
      pub := pub,
      key := key,
      prevKey := if s.active then s.key else s.prevKey,
      prevActive := s.active,
      prevExpires := if s.active then now + p.prevKeyGrace else s.prevExpires,
      lastSeen := 0,
      lastSent := now,
      lastHandshake := now,
      rekeyDeadline := now + p.rekeyAfter,
      rekeying := false,
      sendSeq := 0,
      window := Replay.Fresh(),
      routes := routes,
      outbound := outbound)
  }

  /** `forward_to_peer`; `sent` says that encryption and `sendto` succeeded. */
  function Forwarded(s: Session, sent: bool, now: int): Session {
    s.(sendSeq := (s.sendSeq + 1) % TWO_TO_THE_64, lastSent := if sent then now else s.lastSent)
  }

  /** The datagram `forward_to_peer` sends. */
  function Datagram(aead: Aead, s: Session, iv: Iv, payload: Bytes): Bytes {
    Encrypted(aead, s.key, iv, Frame(s.sendSeq, payload))
  }

  /** On the wire: 12 bytes of nonce, then what seals 8 bytes of magic, the number in 8 bytes in network order, and the
      payload; 44 bytes more than the payload. */
  lemma DatagramLayout(aead: Aead, s: Session, iv: Iv, payload: Bytes)
    ensures var wire := Datagram(aead, s, iv, payload);
            && |wire| == |payload| + 44 && wire[..12] == iv
            && exists plain :: && wire[12..] == aead.seal(s.key, iv, plain) && |plain| == 16 + |payload|
                               && plain[..8] == [0xde, 0xad, 0xbe, 0xef, 0xca, 0xfe, 0xba, 0xbe]
                               && FromBigEndian(plain[8..16]) == s.sendSeq && plain[16..] == payload
  {
    var plain := Frame(s.sendSeq, payload);
    FrameRoundTrip(s.sendSeq, payload);
    assert Datagram(aead, s, iv, payload)[12..] == aead.seal(s.key, iv, plain);
    assert plain[..8] == MAGIC && plain[8..16] == BigEndian(s.sendSeq, 8) && plain[16..] == payload;
  }

  /** The key that opens `wire` in session `s`, and the plaintext: the current key is tried first,
      the previous one only while it is still good. */
  function Opened(aead: Aead, s: Session, wire: Bytes, now: int): Option<(KeyUsed, Bytes)> {
    match Decrypted(aead, s.key, wire)
    case Some(plain) => Some((Current, plain))
    case None =>
      if s.prevActive && now <= s.prevExpires then
        match Decrypted(aead, s.prevKey, wire)
        case Some(plain) => Some((Previous, plain))
        case None => None
      else None
  }

  /** The verdict on a packet opened as `o`, and the window after it: only packets under the current key
      pass through the replay check. */
  function Judged(w: Replay.Window, o: Option<(KeyUsed, Bytes)>): (r: (Replay.Window, Verdict))
    requires w.Valid()
    ensures r.0.Valid()
  {
    match o
    case None => (w, Undecrypted)
    case Some((used, plain)) =>
      if !Framed(plain) then (w, BadHeader)
      else if used == Previous then (w, Passed(Previous, SeqOf(plain), PayloadOf(plain)))
      else
        var (w', ok) := Replay.Check(w, SeqOf(plain));
        (w', if ok then Passed(Current, SeqOf(plain), PayloadOf(plain)) else Replayed(SeqOf(plain)))
  }

  /** The section under `hot_lock` that a data packet runs through. A packet that opens under the current
      key ends the life of the previous one. */
  function Received(aead: Aead, s: Session, wire: Bytes, now: int): (r: (Session, Verdict))
    requires s.window.Valid()
    ensures r.0.window.Valid()
  {
    var o := Opened(aead, s, wire, now);
    var (w, v) := Judged(s.window, o);
    (s.(lastSeen := now, prevActive := s.prevActive && !(o.Some? && o.value.0 == Current), window := w), v)
  }

  /** A packet sealed under the session's current key passes exactly when its number is new to the
      window, and then yields the payload that was sent. */
  lemma CurrentKeyDelivery(aead: Aead, s: Session, iv: Iv, n: uint64, payload: Bytes, now: int)
    requires s.window.Valid()
    ensures var (s', v) := Received(aead, s, Encrypted(aead, s.key, iv, Frame(n, payload)), now);
            var (w, ok) := Replay.Check(s.window, n);
            && v == (if ok then Passed(Current, n, payload) else Replayed(n))
            && s' == s.(lastSeen := now, prevActive := false, window := w)
  {
    DecryptRoundTrip(aead, s.key, iv, Frame(n, payload));
    FrameRoundTrip(n, payload);
  }

  // ----- the operations in place

  /** The scalar members of `peer_session_t`; `highest` is `recv_seq_highest`. */
  datatype Fields = Fields(
    active: bool,
    addr: Addr,
    pub: Bytes,
    key: Bytes,
    prevKey: Bytes,
    prevActive: bool,
    prevExpires: int,
    lastSeen: int,
    lastSent: int,
    lastHandshake: int,
    rekeyDeadline: int,
    rekeying: bool,
    sendSeq: uint64,
    highest: uint64,
    routes: seq<Prefix>,
    outbound: bool)
  {
    /** The session with these members and these replay flags. */
    function With(flags: seq<bool>): Session {
      Session(active, addr, pub, key, prevKey, prevActive, prevExpires, lastSeen, lastSent, lastHandshake,
              rekeyDeadline, rekeying, sendSeq, Replay.Window(highest, flags), routes, outbound)
    }
  }

  const BLANK: Fields :=
    Fields(false, Addr(0, 0), [], [], [], false, 0, 0, 0, 0, 0, false, 0, 0, [], false)

  const BLANK_SESSION: Session := BLANK.With(Zeros(Replay.WINDOW_BITS))

  /** `peer_session_t`: its scalar members, and `recv_seq_window` in place. */
  class PeerSession {
    var f: Fields
    const words: array<Word64>

    /** A slot of the zero-initialised table. */
    constructor ()
      ensures Valid() && fresh(words) && View() == BLANK_SESSION
    {
      f := BLANK;
      words := new Word64[Replay.WINDOW_WORDS](_ => Zeros(64));
      new;
      Replay.ClearedWords(words[..]);
    }

    ghost predicate Valid() {
      words.Length == Replay.WINDOW_WORDS
    }

    /** The session as a value. */
    ghost function View(): (s: Session)
      requires Valid()
      reads this, words
      ensures s.window.Valid()
    {
      f.With(Replay.Flatten(words[..]))
    }

    /** `session_init` */
    method Init(p: Params, addr: Addr, pub: Bytes, key: Bytes, routes: seq<Prefix>, outbound: bool, now: int)
      requires Valid()
      modifies this, words
      ensures View() == Installed(p, old(View()), addr, pub, key, routes, outbound, now)
    {
      var wasActive := f.active;
      f := f.(active := true, pub := pub);
      f := f.(addr := addr);
      if wasActive {
        f := f.(prevKey := f.key, prevActive := true, prevExpires := now + p.prevKeyGrace);
      } else {
        f := f.(prevActive := false);
      }
      f := f.(key := key, lastSeen := 0, lastSent := now, sendSeq := 0, highest := 0);
      Replay.ClearWindow(words);
      f := f.(lastHandshake := now, rekeyDeadline := now + p.rekeyAfter, rekeying := false, outbound := outbound);
      f := f.(routes := routes);
    }

    /** `forward_to_peer`: frames `payload[off..off + len]` in `plainBuf` and encrypts it into
        `wireBuf`. The payload may already lie in `plainBuf`, behind the room for the header: that is
        how a relay calls it. `iv` and `sendOk` are the outcomes of the random generator and `sendto`.
        The result is the length of the datagram in `wireBuf` and its destination. */
    method ForwardToPeer(aead: Aead, iv: Option<Iv>, plainBuf: array<byte>, payload: array<byte>, off: nat, len: nat,
                         wireBuf: array<byte>, sendOk: bool, now: int)
      returns (out: Option<(nat, Addr)>)
      requires Valid()
      requires plainBuf.Length == PLAIN_BUFFER && wireBuf.Length == WIRE_BUFFER && plainBuf != wireBuf
      requires payload != wireBuf && off + len <= payload.Length && len <= BUFFER_SIZE
      requires payload == plainBuf ==> off == HEADER_SIZE + SEQ_SIZE
      modifies this, plainBuf, wireBuf
      ensures View() == Forwarded(old(View()), iv.Some? && sendOk, now)
      ensures out == if iv.Some? then Some((len + WIRE_OVERHEAD, old(f.addr))) else None
      ensures iv.Some? ==>
                wireBuf[..len + WIRE_OVERHEAD] == Datagram(aead, old(View()), iv.value, old(payload[off..off + len]))
    {
      hide Datagram, Replay.Flatten;
      var seqno, key := f.sendSeq, f.key;
      f := f.(sendSeq := (f.sendSeq + 1) % TWO_TO_THE_64);
      var encLen := SealFrame(aead, key, iv, seqno, plainBuf, payload, off, len, wireBuf);
      if encLen.None? {
        return None;
      }
      DatagramIs(aead, old(View()), iv.value, old(payload[off..off + len]));
      out := Some((encLen.value, f.addr));
      if sendOk {
        f := f.(lastSent := now);
      }
    }

    /** The decryption steps of the data branch: stamps the session, tries the current key, then
        the previous one while it is good. */
    method OpenPacket(aead: Aead, wireBuf: array<byte>, nr: nat, plainBuf: array<byte>, now: int)
      returns (r: Option<(KeyUsed, nat)>)
      requires Valid()
      requires plainBuf.Length == PLAIN_BUFFER && wireBuf.Length == WIRE_BUFFER && plainBuf != wireBuf
      requires nr <= WIRE_BUFFER
      modifies this, plainBuf
      ensures r.None? <==> Opened(aead, old(View()), wireBuf[..nr], now).None?
      ensures r.Some? ==> r.value.1 + CRYPTO_OVERHEAD == nr &&
                          Opened(aead, old(View()), wireBuf[..nr], now) == Some((r.value.0, plainBuf[..r.value.1]))
      ensures f == old(f).(lastSeen := now, prevActive := old(f.prevActive) && (r.None? || r.value.0 == Previous))
    {
      f := f.(lastSeen := now);
      var n := DecryptPacket(aead, f.key, wireBuf, nr, plainBuf);
      if n.Some? {
        f := f.(prevActive := false);
        return Some((Current, n.value));
      }
      if f.prevActive && now <= f.prevExpires {
        n := DecryptPacket(aead, f.prevKey, wireBuf, nr, plainBuf);
        if n.Some? {
          return Some((Previous, n.value));
        }
      }
      return None;
    }

    /** The part of the data branch under `hot_lock`. On `Passed` the payload is what `plainBuf`
        holds behind header and sequence number. */
    method Receive(aead: Aead, wireBuf: array<byte>, nr: nat, plainBuf: array<byte>, now: int)
      returns (v: Verdict)
      requires Valid()
      requires plainBuf.Length == PLAIN_BUFFER && wireBuf.Length == WIRE_BUFFER && plainBuf != wireBuf
      requires nr <= WIRE_BUFFER
      modifies this, words, plainBuf
      ensures (View(), v) == Received(aead, old(View()), wireBuf[..nr], now)
      ensures v.Passed? ==> HEADER_SIZE + SEQ_SIZE + |v.payload| + CRYPTO_OVERHEAD == nr
      ensures v.Passed? ==> plainBuf[16..16 + |v.payload|] == v.payload
    {
      var r := OpenPacket(aead, wireBuf, nr, plainBuf, now);
      if r.None? {
        return Undecrypted;
      }
      var plain := plainBuf[..r.value.1];
      if !Framed(plain) {
        return BadHeader;
      }
      if r.value.0 == Current {
        var ok, highest := Replay.CheckReplay(SeqOf(plain), f.highest, words);
        f := f.(highest := highest);
        if !ok {
          return Replayed(SeqOf(plain));
        }
      }
      return Passed(r.value.0, SeqOf(plain), PayloadOf(plain));
    }
  }

  lemma DatagramIs(aead: Aead, s: Session, iv: Iv, payload: Bytes)
    ensures Datagram(aead, s, iv, payload) == Encrypted(aead, s.key, iv, Frame(s.sendSeq, payload))
  {}

  /** Framing and encryption in `forward_to_peer`. */
  method SealFrame(aead: Aead, key: Bytes, iv: Option<Iv>, seqno: uint64, plainBuf: array<byte>,
                   payload: array<byte>, off: nat, len: nat,
                   wireBuf: array<byte>)
    returns (n: Option<nat>)
    requires plainBuf.Length == PLAIN_BUFFER && wireBuf.Length == WIRE_BUFFER && plainBuf != wireBuf
    requires payload != wireBuf && off + len <= payload.Length && len <= BUFFER_SIZE
    requires payload == plainBuf ==> off == HEADER_SIZE + SEQ_SIZE
    modifies plainBuf, wireBuf
    ensures n == if iv.Some? then Some(len + WIRE_OVERHEAD) else None
    ensures iv.Some? ==>
              wireBuf[..len + WIRE_OVERHEAD] ==
                Encrypted(aead, key, iv.value, Frame(seqno, old(payload[off..off + len])))
  {
    hide BigEndian, Encrypted;
    FillFrame(plainBuf, BigEndian(seqno, 8), payload, off, len);
    n := EncryptPacket(aead, key, iv, plainBuf, HEADER_SIZE + SEQ_SIZE + len, wireBuf);
  }

  /** The three `memcpy` calls of `forward_to_peer`. */
  method FillFrame(plainBuf: array<byte>, seqBytes: Bytes, payload: array<byte>, off: nat, len: nat)
    requires plainBuf.Length == PLAIN_BUFFER && |seqBytes| == SEQ_SIZE
    requires off + len <= payload.Length && len <= BUFFER_SIZE
    requires payload == plainBuf ==> off == HEADER_SIZE + SEQ_SIZE
    modifies plainBuf
    ensures plainBuf[..16 + len] == MAGIC + seqBytes + old(payload[off..off + len])
  {
    CopyIn(plainBuf, 0, MAGIC);
    assert plainBuf[16..] == old(plainBuf[8..])[8..];
    CopyIn(plainBuf, HEADER_SIZE, seqBytes);
    assert plainBuf[..16] == plainBuf[..8] + plainBuf[8..16];
    assert plainBuf[16..] == old(plainBuf[16..]);
    if payload == plainBuf {
      assert payload[off..off + len] == plainBuf[16..][..len];
    }
    assert payload[off..off + len] == old(payload[off..off + len]);
    if len > 0 {
      CopyIn(plainBuf, HEADER_SIZE + SEQ_SIZE, payload[off..off + len]);
    }
    assert plainBuf[..16 + len] == plainBuf[..16] + plainBuf[16..16 + len];
  }
}
