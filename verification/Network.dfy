/** A network of any number of peers, each with its complete tables and any run of events. Datagrams are lost,
    reordered, duplicated, delayed across rekeys, and may come back to the peer that sealed them. */
module Network {
  import opened Options
  import opened Words
  import opened Wire
  import opened Routing
  import opened Sessions
  import opened Tables
  import opened Runs
  import opened SlotHistory
  import opened Choices
  import Replay

  // ----- what one step sends

  /** A pass sends a keepalive from this session. */
  predicate KeepaliveDue(p: Params, s: Session, now: int) {
    ExpireSession(p, s, now).active && now - s.lastSent >= p.keepaliveInterval
  }

  /** The payload that slot `i` sends in a step, if it sends one. */
  function Sends(n: Node, t: State, e: Event, i: nat): Option<Bytes>
    requires Shape(t) && i < MAX_PEERS
  {
    match e.act
    case Handshake(_, _, _) => None
    case Pass(_) => if i < t.slots && KeepaliveDue(n.p, t.sessions[i], e.at) then Some([]) else None
    case Data(src, wire, sent) =>
      var o := OnData(t, n.aead, src, wire, sent, e.at).1;
      if o.Relayed? && o.slot == i then Some(o.payload) else None
    case Tun(packet, _) => if TunRoute(t, packet) == Some(i) then Some(packet) else None
  }

  /** The send counter after a step that sends, or not. */
  function Counted(m: uint64, sends: bool): uint64 {
    if sends then (m + 1) % TWO_TO_THE_64 else m
  }

  lemma PassSends(n: Node, t: State, e: Event, i: nat)
    requires Shape(t) && i < MAX_PEERS && e.act.Pass?
    ensures Step(n, t, e).sessions[i].sendSeq == Counted(t.sessions[i].sendSeq, Sends(n, t, e, i).Some?)
  {
    hide Connect, TimeOut, Expire, Keepalive;
    var env, now := e.act.env, e.at;
    var t1 := Connect(n.p, t, |t.configs|, env, now);
    ConnectSlots(n.p, t, |t.configs|, env, now);
    var t2 := TimeOut(n.p, t1, MAX_PEERS, now);
    TimeOutSlots(n.p, t1, MAX_PEERS, now);
    var t3 := Expire(n.p, t2, t2.slots, now);
    ExpireSlots(n.p, t2, t2.slots, now, i);
    KeepaliveSlots(n.p, t3, t3.slots, env, now, i);
  }

  lemma RoutedIsActive(t: State, ip: Ip, i: nat)
    requires Shape(t) && Route(RouteTable(t), ip) == Some(i)
    ensures i < t.slots && t.sessions[i].active
  {
    hide Route;
    RouteIsBest(RouteTable(t), ip, i);
  }

  lemma PacketSends(n: Node, t: State, e: Event, i: nat)
    requires Shape(t) && i < MAX_PEERS && (e.act.Data? || e.act.Tun?)
    ensures Step(n, t, e).sessions[i].sendSeq == Counted(t.sessions[i].sendSeq, Sends(n, t, e, i).Some?)
    ensures Receiver(t, e) == Some(i) ==> Sends(n, t, e, i).None?
  {
    hide FindByAddr, Opened, Judged, Dispatch, Route;
  }

  lemma SenderIsActive(n: Node, t: State, e: Event, i: nat)
    requires Shape(t) && i < MAX_PEERS && Sends(n, t, e, i).Some?
    ensures t.sessions[i].active
  {
    hide Received, FindByAddr, Route, RouteTable, AllowedSrc, IpAt;
    match e.act {
      case Pass(_) =>
      case Tun(packet, _) => RoutedIsActive(t, IpAt(packet, 16), i);
      case Data(src, wire, _) =>
        var k := FindByAddr(t, src).value;
        var (s, v) := Received(n.aead, t.sessions[k], wire, e.at);
        var t' := SetSession(t, k, s);
        RoutedIsActive(t', IpAt(v.payload, 16), i);
    }
  }

  /** Everything a step may do to a session, as far as keys, window and send counter go. */
  lemma StepSlot(n: Node, t: State, e: Event, i: nat)
    requires Shape(t) && i < MAX_PEERS
    ensures var s, r, x := t.sessions[i], Step(n, t, e).sessions[i], Installs(n, t, e);
            if x.Some? && x.value.slot == i then r == InstalledAs(n.p, s, x.value, e.at)
            else if Receiver(t, e) == Some(i) then r == Received(n.aead, s, e.act.wire, e.at).0
            else
              && r.key == s.key && r.prevKey == s.prevKey && r.prevActive == s.prevActive && r.window == s.window
              && (r.active ==> s.active)
              && r.sendSeq == Counted(s.sendSeq, Sends(n, t, e, i).Some?)
    ensures Sends(n, t, e, i).Some? ==> t.sessions[i].active && Installs(n, t, e).None? && Receiver(t, e) != Some(i)
  {
    hide Step, Received, Housekeeping, OnData, TunRoute;
    match e.act {
      case Handshake(_, _, _) => HandshakeSlot(n, t, e, i);
      case Pass(env) => PassSlot(n.p, t, env, e.at, i); PassStep(n, t, e); PassSends(n, t, e, i);
      case Data(_, _, _) => PacketSlot(n, t, e, i); PacketSends(n, t, e, i);
      case Tun(_, _) => PacketSlot(n, t, e, i); PacketSends(n, t, e, i);
    }
    if Sends(n, t, e, i).Some? {
      SenderIsActive(n, t, e, i);
    }
  }

  // ----- the network

  /** The peers: their settings and public keys. */
  datatype Net = Net(aead: Aead, size: nat, params: nat -> Params, pub: nat -> Bytes)

  function NodeAt(net: Net, a: nat): Node {
    Node(net.params(a), net.aead, net.pub(a))
  }

  /** A datagram and the peer that sealed it. */
  datatype Sealed = Sealed(sealer: nat, key: Bytes, seqno: uint64, payload: Bytes, wire: Bytes)

  /** A datagram that a session of peer `at` took, the session's current key then, and the verdict. */
  datatype Taken = Taken(at: nat, key: Bytes, wire: Bytes, verdict: Verdict)

  /** A packet that peer `at` read from its tunnel interface. */
  datatype Input = Input(at: nat, packet: Bytes)

  /** The tables of all peers, the keys each has installed so far, and the traffic. */
  datatype World = World(tables: seq<State>, keys: seq<set<Bytes>>, input: set<Input>, sealed: set<Sealed>,
                         taken: seq<Taken>)

  /** Peer `at` goes through a critical section; `iv` are the nonces it draws, per slot. */
  datatype Deed = Deed(at: nat, event: Event, iv: nat -> Iv)

  ghost predicate Sized(net: Net, w: World) {
    |w.tables| == |w.keys| == net.size && forall a :: 0 <= a < net.size ==> Shape(w.tables[a])
  }

  ghost function NewKeys(n: Node, t: State, e: Event): set<Bytes>
    requires Shape(t)
  {
    var x := Installs(n, t, e);
    if x.Some? then {x.value.key} else {}
  }

  function SealAt(a: nat, aead: Aead, s: Session, iv: Iv, payload: Bytes): Sealed {
    Sealed(a, s.key, s.sendSeq, payload, Datagram(aead, s, iv, payload))
  }

  ghost function NewSeals(a: nat, n: Node, t: State, e: Event, iv: nat -> Iv): set<Sealed>
    requires Shape(t)
  {
    set i | 0 <= i < MAX_PEERS && Sends(n, t, e, i).Some? ::
      SealAt(a, n.aead, t.sessions[i], iv(i), Sends(n, t, e, i).value)
  }

  ghost function NewTaken(a: nat, n: Node, t: State, e: Event): seq<Taken>
    requires Shape(t)
  {
    match Receiver(t, e)
    case None => []
    case Some(i) => [Taken(a, t.sessions[i].key, e.act.wire, Received(n.aead, t.sessions[i], e.act.wire, e.at).1)]
  }

  ghost function NewInput(a: nat, e: Event): set<Input> {
    if e.act.Tun? then {Input(a, e.act.packet)} else {}
  }

  ghost function Do(net: Net, w: World, d: Deed): (r: World)
    requires Sized(net, w) && d.at < net.size
    ensures Sized(net, r)
  {
    var a, n, t := d.at, NodeAt(net, d.at), w.tables[d.at];
    World(w.tables[a := Step(n, t, d.event)], w.keys[a := w.keys[a] + NewKeys(n, t, d.event)],
          w.input + NewInput(a, d.event), w.sealed + NewSeals(a, n, t, d.event, d.iv),
          w.taken + NewTaken(a, n, t, d.event))
  }

  /** No forgery: what opens under a key of the receiver was sealed under it, by whomever: both ends of a session
      seal under one key. */
  ghost predicate Genuine(aead: Aead, w: World, keys: set<Bytes>, wire: Bytes) {
    forall k :: k in keys && Decrypted(aead, k, wire).Some? ==>
      exists x :: x in w.sealed && x.wire == wire && x.key == k
  }

  /** A peer that sends with its counter at 0 has sealed nothing under the key yet: fewer than 2^64 per key. */
  ghost predicate Unwrapped(sealed: set<Sealed>, a: nat, s: Session) {
    s.sendSeq == 0 ==> forall x :: x in sealed ==> !(x.sealer == a && x.key == s.key)
  }

  /** Nonces never make two datagrams the same. */
  ghost predicate FreshNonces(sealed: set<Sealed>, new': set<Sealed>) {
    forall x, y :: x in new' && y in sealed + new' && x.wire == y.wire ==> x == y
  }

  /** What is assumed of a step: no key is given to a peer twice, no forgery, fresh nonces, no wrapped counter. */
  ghost predicate Possible(net: Net, w: World, d: Deed)
    requires Sized(net, w)
  {
    && d.at < net.size
    && var a, n, t, e := d.at, NodeAt(net, d.at), w.tables[d.at], d.event;
       && (Installs(n, t, e).Some? ==> Installs(n, t, e).value.key !in w.keys[a])
       && (e.act.Data? ==> Genuine(net.aead, w, w.keys[a], e.act.wire))
       && (forall i :: 0 <= i < MAX_PEERS && Sends(n, t, e, i).Some? ==> Unwrapped(w.sealed, a, t.sessions[i]))
       && FreshNonces(w.sealed, NewSeals(a, n, t, e, d.iv))
  }

  ghost predicate Start(net: Net, w: World) {
    && Sized(net, w) && w.input == {} && w.sealed == {} && w.taken == []
    && forall a :: 0 <= a < net.size ==> Initial(w.tables[a]) && w.keys[a] == {}
  }

  /** `ws` is a run of the network: each world follows from the one before by a possible step of some peer. */
  ghost predicate IsRun(net: Net, ws: seq<World>) {
    ws != [] && Start(net, ws[0]) && forall k :: 0 <= k < |ws| - 1 ==> Follows(net, ws[k], ws[k + 1])
  }

  ghost predicate Follows(net: Net, w: World, r: World) {
    Sized(net, w) && exists d :: Possible(net, w, d) && d.at < net.size && r == Do(net, w, d)
  }

  // ----- keys

  /** The sessions of a peer hold keys it installed, and no key is current twice, or current here and previous
      there. */
  ghost predicate KeysOk(t: State, keys: set<Bytes>)
    requires Shape(t)
  {
    && (forall i :: 0 <= i < MAX_PEERS && t.sessions[i].active ==>
          t.sessions[i].key in keys && (t.sessions[i].prevActive ==> t.sessions[i].prevKey in keys))
    && (forall i, j :: 0 <= i < MAX_PEERS && 0 <= j < MAX_PEERS && t.sessions[i].active && t.sessions[j].active ==>
          && (i != j ==> t.sessions[i].key != t.sessions[j].key)
          && (t.sessions[j].prevActive ==> t.sessions[j].prevKey != t.sessions[i].key))
  }

  /** A session is given `key`, or keeps its keys. */
  ghost predicate KeyMove(s: Session, r: Session, key: Option<Bytes>) {
    match key
    case Some(k) => r.active && r.key == k && r.prevActive == s.active && (s.active ==> r.prevKey == s.key)
    case None => r.key == s.key && r.prevKey == s.prevKey && (r.prevActive ==> s.prevActive) && (r.active ==> s.active)
  }

  function KeyFor(n: Node, t: State, e: Event, i: nat): Option<Bytes>
    requires Shape(t)
  {
    var x := Installs(n, t, e);
    if x.Some? && x.value.slot == i then Some(x.value.key) else None
  }

  lemma StepKeyMove(n: Node, t: State, e: Event, i: nat)
    requires Shape(t) && i < MAX_PEERS
    ensures KeyMove(t.sessions[i], Step(n, t, e).sessions[i], KeyFor(n, t, e, i))
  {
    hide Step, Installs, Receiver, Sends, Opened, Judged;
    StepSlot(n, t, e, i);
  }

  lemma StepKeepsKeys(n: Node, t: State, e: Event, keys: set<Bytes>)
    requires Shape(t) && KeysOk(t, keys)
    requires Installs(n, t, e).Some? ==> Installs(n, t, e).value.key !in keys
    ensures KeysOk(Step(n, t, e), keys + NewKeys(n, t, e))
  {
    hide Step, Installs;
    forall i | 0 <= i < MAX_PEERS
      ensures KeyMove(t.sessions[i], Step(n, t, e).sessions[i], KeyFor(n, t, e, i))
    {
      StepKeyMove(n, t, e, i);
    }
  }

  // ----- what is sealed

  /** Everything sealed opens to its frame; a datagram is sealed once; a peer numbers a key's datagrams apart. */
  ghost predicate SealsOk(aead: Aead, sealed: set<Sealed>) {
    && (forall x :: x in sealed ==> Decrypted(aead, x.key, x.wire) == Some(Frame(x.seqno, x.payload)))
    && (forall x, y :: x in sealed && y in sealed && x.wire == y.wire ==> x == y)
    && (forall x, y :: x in sealed && y in sealed && x.sealer == y.sealer && x.key == y.key && x.seqno == y.seqno ==>
          x == y)
  }

  /** A send counter is ahead of everything the peer sealed under the key, until it wraps. */
  ghost predicate Ahead(a: nat, s: Session, sealed: set<Sealed>) {
    s.sendSeq != 0 ==> forall x :: x in sealed && x.sealer == a && x.key == s.key ==> x.seqno < s.sendSeq
  }

  ghost predicate CountersOk(a: nat, t: State, sealed: set<Sealed>)
    requires Shape(t)
  {
    forall i :: 0 <= i < MAX_PEERS && t.sessions[i].active ==> Ahead(a, t.sessions[i], sealed)
  }

  /** The seals of one step: at most one per slot, each from an active session. */
  lemma NewSealIs(a: nat, n: Node, t: State, e: Event, iv: nat -> Iv, x: Sealed) returns (i: nat)
    requires Shape(t) && x in NewSeals(a, n, t, e, iv)
    ensures i < MAX_PEERS && Sends(n, t, e, i).Some? && t.sessions[i].active && Installs(n, t, e).None?
    ensures x == SealAt(a, n.aead, t.sessions[i], iv(i), Sends(n, t, e, i).value)
  {
    hide Sends, SealAt, Step;
    i :| 0 <= i < MAX_PEERS && Sends(n, t, e, i).Some? &&
         x == SealAt(a, n.aead, t.sessions[i], iv(i), Sends(n, t, e, i).value);
    StepSlot(n, t, e, i);
  }

  lemma SealOpens(a: nat, aead: Aead, s: Session, iv: Iv, payload: Bytes)
    ensures var x := SealAt(a, aead, s, iv, payload); Decrypted(aead, x.key, x.wire) == Some(Frame(x.seqno, x.payload))
  {
    DecryptRoundTrip(aead, s.key, iv, Frame(s.sendSeq, payload));
  }

  /** A new seal has a number that the peer has not used under the key. */
  lemma NewSealIsNew(a: nat, n: Node, t: State, e: Event, iv: nat -> Iv, keys: set<Bytes>, sealed: set<Sealed>,
                     x: Sealed, y: Sealed)
    requires Shape(t) && KeysOk(t, keys) && CountersOk(a, t, sealed)
    requires forall i :: 0 <= i < MAX_PEERS && Sends(n, t, e, i).Some? ==> Unwrapped(sealed, a, t.sessions[i])
    requires x in NewSeals(a, n, t, e, iv) && y in sealed + NewSeals(a, n, t, e, iv)
    requires y.sealer == a && y.key == x.key && y.seqno == x.seqno
    ensures x == y
  {
    hide Sends, NewSeals, Datagram;
    var i := NewSealIs(a, n, t, e, iv, x);
    if y in NewSeals(a, n, t, e, iv) {
      var j := NewSealIs(a, n, t, e, iv, y);
      assert i == j;
    }
  }

  lemma StepKeepsSeals(a: nat, n: Node, t: State, e: Event, iv: nat -> Iv, keys: set<Bytes>, sealed: set<Sealed>)
    requires Shape(t) && KeysOk(t, keys) && SealsOk(n.aead, sealed) && CountersOk(a, t, sealed)
    requires forall i :: 0 <= i < MAX_PEERS && Sends(n, t, e, i).Some? ==> Unwrapped(sealed, a, t.sessions[i])
    requires FreshNonces(sealed, NewSeals(a, n, t, e, iv))
    ensures SealsOk(n.aead, sealed + NewSeals(a, n, t, e, iv))
  {
    hide Sends, NewSeals, Decrypted, Frame, SealAt, KeysOk, CountersOk, Unwrapped;
    var new' := NewSeals(a, n, t, e, iv);
    forall x | x in new'
      ensures x.sealer == a && Decrypted(n.aead, x.key, x.wire) == Some(Frame(x.seqno, x.payload))
    {
      var i := NewSealIs(a, n, t, e, iv, x);
      SealIsBy(a, n.aead, t.sessions[i], iv(i), Sends(n, t, e, i).value);
      SealOpens(a, n.aead, t.sessions[i], iv(i), Sends(n, t, e, i).value);
    }
    forall x, y | x in new' && y in sealed + new' && y.sealer == a && y.key == x.key && y.seqno == x.seqno
      ensures x == y
    {
      NewSealIsNew(a, n, t, e, iv, keys, sealed, x, y);
    }
  }

  lemma SealIsBy(a: nat, aead: Aead, s: Session, iv: Iv, payload: Bytes)
    ensures SealAt(a, aead, s, iv, payload).sealer == a
  {}

  lemma StepKeepsAhead(a: nat, n: Node, t: State, e: Event, iv: nat -> Iv, keys: set<Bytes>, sealed: set<Sealed>,
                       i: nat)
    requires Shape(t) && KeysOk(t, keys) && CountersOk(a, t, sealed) && i < MAX_PEERS
    requires forall i :: 0 <= i < MAX_PEERS && Sends(n, t, e, i).Some? ==> Unwrapped(sealed, a, t.sessions[i])
    requires Step(n, t, e).sessions[i].active
    ensures Ahead(a, Step(n, t, e).sessions[i], sealed + NewSeals(a, n, t, e, iv))
  {
    hide Step, Sends, NewSeals, Opened, Judged, Datagram, Installs, Receiver;
    StepSlot(n, t, e, i);
    forall x | x in NewSeals(a, n, t, e, iv) && x.key == Step(n, t, e).sessions[i].key
      ensures Sends(n, t, e, i).Some? && x.seqno == t.sessions[i].sendSeq
    {
      var j := NewSealIs(a, n, t, e, iv, x);
      assert i == j;
    }
  }

  lemma StepKeepsCounters(a: nat, n: Node, t: State, e: Event, iv: nat -> Iv, keys: set<Bytes>, sealed: set<Sealed>)
    requires Shape(t) && KeysOk(t, keys) && CountersOk(a, t, sealed)
    requires forall i :: 0 <= i < MAX_PEERS && Sends(n, t, e, i).Some? ==> Unwrapped(sealed, a, t.sessions[i])
    ensures CountersOk(a, Step(n, t, e), sealed + NewSeals(a, n, t, e, iv))
  {
    hide Step, Sends, NewSeals, Ahead, KeysOk, Unwrapped;
    forall i | 0 <= i < MAX_PEERS && Step(n, t, e).sessions[i].active
      ensures Ahead(a, Step(n, t, e).sessions[i], sealed + NewSeals(a, n, t, e, iv))
    {
      StepKeepsAhead(a, n, t, e, iv, keys, sealed, i);
    }
  }

  // ----- what is taken

  /** Passed under the key that was current at the time. */
  predicate Delivered(g: Taken) {
    g.verdict.Passed? && g.verdict.used == Current
  }

  /** The numbers peer `a` accepted while `key` was current. */
  ghost function AcceptedUnder(taken: seq<Taken>, a: nat, key: Bytes): set<uint64> {
    set g | g in taken && g.at == a && g.key == key && Delivered(g) :: g.verdict.seqno
  }

  /** The windows of a peer record what it accepted under the current keys. */
  ghost predicate WindowsOk(a: nat, t: State, taken: seq<Taken>)
    requires Shape(t)
  {
    forall i :: 0 <= i < MAX_PEERS && t.sessions[i].active ==>
      Replay.Records(t.sessions[i].window, AcceptedUnder(taken, a, t.sessions[i].key))
  }

  /** `wire` opens under `key` to a frame numbered `m`. */
  ghost predicate Carries(aead: Aead, key: Bytes, wire: Bytes, m: uint64) {
    var plain := Decrypted(aead, key, wire);
    plain.Some? && Framed(plain.value) && SeqOf(plain.value) == m
  }

  /** What was taken was taken under a key the peer had; what was delivered carried its number and was sealed under
      that key; and no number was delivered twice under a key. */
  ghost predicate TakenOk(aead: Aead, w: World) {
    && (forall g :: g in w.taken ==> g.at < |w.keys| && g.key in w.keys[g.at])
    && (forall g :: g in w.taken && Delivered(g) ==>
          && Carries(aead, g.key, g.wire, g.verdict.seqno)
          && exists x :: x in w.sealed && x.wire == g.wire && x.key == g.key)
    && (forall k, l :: 0 <= k < l < |w.taken| && Delivered(w.taken[k]) && Delivered(w.taken[l]) &&
                       w.taken[k].at == w.taken[l].at && w.taken[k].key == w.taken[l].key ==>
          w.taken[k].verdict.seqno != w.taken[l].verdict.seqno)
  }

  /** What one packet does, in terms of the key's accepted numbers. */
  lemma Judgement(aead: Aead, s: Session, wire: Bytes, at: int, accepted: set<uint64>)
    requires Replay.Records(s.window, accepted)
    ensures var (r, v) := Received(aead, s, wire, at);
            var ok := v.Passed? && v.used == Current;
            && Replay.Records(r.window, if ok then accepted + {v.seqno} else accepted)
            && (ok ==> Replay.Acceptable(accepted, v.seqno) && Carries(aead, s.key, wire, v.seqno))
  {}

  lemma AcceptedGrows(taken: seq<Taken>, g: Taken, a: nat, key: Bytes)
    ensures AcceptedUnder(taken + [g], a, key) ==
            var earlier := AcceptedUnder(taken, a, key);
            if g.at == a && g.key == key && Delivered(g) then earlier + {g.verdict.seqno} else earlier
  {}

  /** The taken packets after a step, as the slot that is not given a key sees them. */
  lemma NewTakenSeen(a: nat, n: Node, t: State, e: Event, keys: set<Bytes>, taken: seq<Taken>, i: nat)
    requires Shape(t) && KeysOk(t, keys) && WindowsOk(a, t, taken) && i < MAX_PEERS && t.sessions[i].active
    requires KeyFor(n, t, e, i).None?
    ensures Replay.Records(Step(n, t, e).sessions[i].window,
                           AcceptedUnder(taken + NewTaken(a, n, t, e), a, t.sessions[i].key))
  {
    hide Step, Received, Replay.Records, Installs, Sends, AcceptedUnder, FindByAddr;
    StepSlot(n, t, e, i);
    assert taken + [] == taken;
    if Receiver(t, e).Some? {
      var k := Receiver(t, e).value;
      ReceiverIsActive(t, e);
      var g := NewTaken(a, n, t, e)[0];
      AcceptedGrows(taken, g, a, t.sessions[i].key);
      if k == i {
        Judgement(n.aead, t.sessions[i], e.act.wire, e.at, AcceptedUnder(taken, a, t.sessions[i].key));
      }
    }
  }

  lemma ReceiverIsActive(t: State, e: Event)
    requires Shape(t) && Receiver(t, e).Some?
    ensures Receiver(t, e).value < MAX_PEERS && t.sessions[Receiver(t, e).value].active && e.act.Data?
  {}

  lemma InstallerTakesNothing(a: nat, n: Node, t: State, e: Event)
    requires Shape(t) && Installs(n, t, e).Some?
    ensures NewTaken(a, n, t, e) == []
  {}

  lemma FreshKeyAcceptedNothing(taken: seq<Taken>, a: nat, key: Bytes)
    requires forall g :: g in taken && g.at == a ==> g.key != key
    ensures AcceptedUnder(taken, a, key) == {}
  {}

  lemma StepKeepsWindows(a: nat, n: Node, t: State, e: Event, keys: set<Bytes>, taken: seq<Taken>)
    requires Shape(t) && KeysOk(t, keys) && WindowsOk(a, t, taken)
    requires Installs(n, t, e).Some? ==> Installs(n, t, e).value.key !in keys
    requires forall g :: g in taken && g.at == a ==> g.key in keys
    ensures WindowsOk(a, Step(n, t, e), taken + NewTaken(a, n, t, e))
  {
    hide Step, Received, Replay.Records, Installs, Sends, AcceptedUnder, NewTaken, Receiver;
    var t' := Step(n, t, e);
    forall i | 0 <= i < MAX_PEERS && t'.sessions[i].active
      ensures Replay.Records(t'.sessions[i].window, AcceptedUnder(taken + NewTaken(a, n, t, e), a, t'.sessions[i].key))
    {
      StepKeyMove(n, t, e, i);
      if KeyFor(n, t, e, i).Some? {
        StepSlot(n, t, e, i);
        InstallerTakesNothing(a, n, t, e);
        assert taken + [] == taken;
        FreshKeyAcceptedNothing(taken, a, t'.sessions[i].key);
        Replay.FreshRecordsNothing();
      } else {
        NewTakenSeen(a, n, t, e, keys, taken, i);
      }
    }
  }

  /** What is sealed is a keepalive, or an IPv4 packet that some peer read from its tunnel interface. */
  ghost predicate PayloadsOk(w: World) {
    forall x :: x in w.sealed ==> x.payload == [] || (IsIpv4(x.payload) && WasRead(w.input, x.payload))
  }

  ghost predicate WasRead(input: set<Input>, packet: Bytes) {
    exists b :: Input(b, packet) in input
  }

  /** Peer `a` once installed `key` and holds it as the current key no more. */
  ghost predicate Retired(w: World, a: nat, key: Bytes) {
    && a < |w.keys| && a < |w.tables| && key in w.keys[a] && Shape(w.tables[a])
    && forall i :: 0 <= i < MAX_PEERS && w.tables[a].sessions[i].active ==> w.tables[a].sessions[i].key != key
  }

  /** What was handed on under a previous key had been sealed under a key that is retired. */
  ghost predicate RetiredOk(w: World) {
    forall g :: g in w.taken && g.verdict.Passed? && g.verdict.used == Previous ==>
      exists x :: x in w.sealed && x.wire == g.wire && Retired(w, g.at, x.key)
  }

  // ----- all of it, in every run

  ghost predicate PeerOk(net: Net, w: World, a: nat)
    requires Sized(net, w) && a < net.size
  {
    && KeysOk(w.tables[a], w.keys[a])
    && CountersOk(a, w.tables[a], w.sealed)
    && WindowsOk(a, w.tables[a], w.taken)
  }

  ghost predicate WorldOk(net: Net, w: World) {
    && Sized(net, w)
    && SealsOk(net.aead, w.sealed) && TakenOk(net.aead, w) && PayloadsOk(w) && RetiredOk(w)
    && forall a :: 0 <= a < net.size ==> PeerOk(net, w, a)
  }

  lemma StartIsOk(net: Net, w: World)
    requires Start(net, w)
    ensures WorldOk(net, w)
  {}

  /** A peer does not notice the steps of the others. */
  lemma OthersKeepPeer(net: Net, w: World, d: Deed, a: nat)
    requires Sized(net, w) && d.at < net.size && a < net.size && a != d.at && PeerOk(net, w, a)
    ensures PeerOk(net, Do(net, w, d), a)
  {
    hide Step, Sends, Received, Installs, Replay.Records, KeysOk, AcceptedUnder, Receiver, NewSeals;
    var n, t := NodeAt(net, d.at), w.tables[d.at];
    forall x | x in NewSeals(d.at, n, t, d.event, d.iv)
      ensures x.sealer != a
    {
      var i := NewSealIs(d.at, n, t, d.event, d.iv, x);
    }
    OthersAccept(w.taken, NewTaken(d.at, n, t, d.event), a);
  }

  lemma OthersAccept(taken: seq<Taken>, more: seq<Taken>, a: nat)
    requires forall g :: g in more ==> g.at != a
    ensures forall key :: AcceptedUnder(taken + more, a, key) == AcceptedUnder(taken, a, key)
  {
    forall key
      ensures AcceptedUnder(taken + more, a, key) == AcceptedUnder(taken, a, key)
    {
      assert forall g :: g in taken + more && g.at == a ==> g in taken;
    }
  }

  lemma OwnStepKeepsPeer(net: Net, w: World, d: Deed)
    requires WorldOk(net, w) && Possible(net, w, d)
    ensures PeerOk(net, Do(net, w, d), d.at)
  {
    hide Step, Sends, Installs, KeysOk, CountersOk, WindowsOk, SealsOk, Unwrapped, FreshNonces, Genuine, NewSeals,
         NewTaken, NewKeys;
    var a, n, t := d.at, NodeAt(net, d.at), w.tables[d.at];
    assert PeerOk(net, w, a);
    StepKeepsKeys(n, t, d.event, w.keys[a]);
    StepKeepsCounters(a, n, t, d.event, d.iv, w.keys[a], w.sealed);
    StepKeepsWindows(a, n, t, d.event, w.keys[a], w.taken);
  }

  lemma StepKeepsTaken(net: Net, w: World, d: Deed)
    requires WorldOk(net, w) && Possible(net, w, d)
    ensures TakenOk(net.aead, Do(net, w, d))
  {
    hide Step, Sends, Received, Installs, NewSeals, Decrypted, Framed, SeqOf, Replay.Records, FindByAddr, SealsOk,
         CountersOk, Unwrapped, FreshNonces, NewKeys;
    var a, n, t, e := d.at, NodeAt(net, d.at), w.tables[d.at], d.event;
    if Receiver(t, e).Some? {
      var i := Receiver(t, e).value;
      ReceiverIsActive(t, e);
      assert PeerOk(net, w, a);
      Judgement(net.aead, t.sessions[i], e.act.wire, e.at, AcceptedUnder(w.taken, a, t.sessions[i].key));
      var g := NewTaken(a, n, t, e)[0];
      AddTaken(net, w, Do(net, w, d), g);
    }
  }

  lemma AddTaken(net: Net, w: World, r: World, g: Taken)
    requires TakenOk(net.aead, w) && r.taken == w.taken + [g] && w.sealed <= r.sealed && g.at < |w.keys| == |r.keys|
    requires g.key in r.keys[g.at] && forall a :: 0 <= a < |w.keys| ==> w.keys[a] <= r.keys[a]
    requires Delivered(g) ==>
               && g.verdict.seqno !in AcceptedUnder(w.taken, g.at, g.key)
               && Carries(net.aead, g.key, g.wire, g.verdict.seqno)
               && exists x :: x in w.sealed && x.wire == g.wire && x.key == g.key
    ensures TakenOk(net.aead, r)
  {
    hide Carries;
    assert forall h :: h in r.taken ==> h in w.taken || h == g;
    forall h | h in r.taken && Delivered(h)
      ensures exists x :: x in r.sealed && x.wire == h.wire && x.key == h.key
    {
      var x :| x in w.sealed && x.wire == h.wire && x.key == h.key;
      assert x in r.sealed;
    }
  }

  /** A packet that passes is one that was sealed. */
  lemma PassedWasSealed(net: Net, w: World, a: nat, i: nat, wire: Bytes, at: int)
    requires WorldOk(net, w) && a < net.size && i < MAX_PEERS && w.tables[a].sessions[i].active
    requires Genuine(net.aead, w, w.keys[a], wire)
    ensures var s := w.tables[a].sessions[i];
            var v := Received(net.aead, s, wire, at).1;
            v.Passed? ==> exists x :: && x in w.sealed && x.wire == wire && v == Passed(v.used, x.seqno, x.payload)
                                      && x.key == if v.used == Current then s.key else s.prevKey
  {
    hide Decrypted, Frame, Framed, SeqOf, PayloadOf, CountersOk, WindowsOk, TakenOk, PayloadsOk, RetiredOk,
         Replay.Check;
    assert PeerOk(net, w, a);
    var s := w.tables[a].sessions[i];
    var v := Received(net.aead, s, wire, at).1;
    if v.Passed? {
      var key := if v.used == Current then s.key else s.prevKey;
      assert key in w.keys[a] && Decrypted(net.aead, key, wire).Some?;
      var x :| x in w.sealed && x.wire == wire && x.key == key;
      FrameRoundTrip(x.seqno, x.payload);
    }
  }

  lemma SentPayload(net: Net, w: World, d: Deed, i: nat)
    requires WorldOk(net, w) && Possible(net, w, d) && i < MAX_PEERS
    requires Sends(NodeAt(net, d.at), w.tables[d.at], d.event, i).Some?
    ensures var p := Sends(NodeAt(net, d.at), w.tables[d.at], d.event, i).value;
            p == [] || (IsIpv4(p) && WasRead(w.input + NewInput(d.at, d.event), p))
  {
    hide Received, FindByAddr, Route, RouteTable, AllowedSrc, IpAt, IsIpv4, PeerOk, SealsOk, TakenOk, RetiredOk,
         Genuine, Installs, Unwrapped, FreshNonces, KeepaliveDue;
    var n, t, e := NodeAt(net, d.at), w.tables[d.at], d.event;
    match e.act {
      case Pass(_) =>
      case Tun(packet, _) => assert Input(d.at, packet) in w.input + NewInput(d.at, e);
      case Data(src, wire, _) =>
        ReceiverIsActive(t, e);
        PassedWasSealed(net, w, d.at, FindByAddr(t, src).value, wire, e.at);
    }
  }

  lemma StepKeepsPayloads(net: Net, w: World, d: Deed)
    requires WorldOk(net, w) && Possible(net, w, d)
    ensures PayloadsOk(Do(net, w, d))
  {
    hide Step, Sends, Installs, PeerOk, SealsOk, TakenOk, RetiredOk, NewSeals, NewTaken, NewInput, IsIpv4, Genuine,
         Unwrapped, FreshNonces, NewKeys;
    var r := Do(net, w, d);
    forall x | x in r.sealed
      ensures x.payload == [] || (IsIpv4(x.payload) && WasRead(r.input, x.payload))
    {
      if x in w.sealed {
        if x.payload != [] {
          var b :| Input(b, x.payload) in w.input;
          assert Input(b, x.payload) in r.input;
        }
      } else {
        var i := NewSealIs(d.at, NodeAt(net, d.at), w.tables[d.at], d.event, d.iv, x);
        SentPayload(net, w, d, i);
      }
    }
  }

  lemma RetiredStays(net: Net, w: World, d: Deed, a: nat, key: Bytes)
    requires Sized(net, w) && Possible(net, w, d) && a < net.size && Retired(w, a, key)
    ensures Retired(Do(net, w, d), a, key)
  {
    hide Step, Sends, Installs, Genuine, Unwrapped, FreshNonces, NewSeals, NewTaken, NewInput;
    if a == d.at {
      var n, t := NodeAt(net, a), w.tables[a];
      forall i | 0 <= i < MAX_PEERS && Step(n, t, d.event).sessions[i].active
        ensures Step(n, t, d.event).sessions[i].key != key
      {
        StepKeyMove(n, t, d.event, i);
      }
    }
  }

  lemma StepKeepsRetired(net: Net, w: World, d: Deed)
    requires WorldOk(net, w) && Possible(net, w, d)
    ensures RetiredOk(Do(net, w, d))
  {
    hide Step, Sends, Received, Installs, NewSeals, FindByAddr, SealsOk, TakenOk, PayloadsOk, CountersOk, WindowsOk,
         Retired, Unwrapped, FreshNonces, NewKeys, NewInput, Genuine;
    var r := Do(net, w, d);
    forall g | g in r.taken && g.verdict.Passed? && g.verdict.used == Previous
      ensures exists x :: x in r.sealed && x.wire == g.wire && Retired(r, g.at, x.key)
    {
      if g in w.taken {
        var x :| x in w.sealed && x.wire == g.wire && Retired(w, g.at, x.key);
        RetiredInRange(w, g.at, x.key);
        RetiredStays(net, w, d, g.at, x.key);
        assert x in r.sealed;
      } else {
        var x := TakenUnderPrevious(net, w, d, g);
        RetiredStays(net, w, d, g.at, x.key);
        assert x in r.sealed;
      }
    }
  }

  lemma RetiredInRange(w: World, a: nat, key: Bytes)
    requires Retired(w, a, key)
    ensures a < |w.keys|
  {}

  lemma TakenUnderPrevious(net: Net, w: World, d: Deed, g: Taken) returns (x: Sealed)
    requires WorldOk(net, w) && Possible(net, w, d)
    requires g in NewTaken(d.at, NodeAt(net, d.at), w.tables[d.at], d.event)
    requires g.verdict.Passed? && g.verdict.used == Previous
    ensures g.at == d.at && x in w.sealed && x.wire == g.wire && Retired(w, g.at, x.key)
  {
    hide Sends, Received, Installs, NewSeals, FindByAddr, SealsOk, TakenOk, PayloadsOk, CountersOk, WindowsOk,
         RetiredOk, Unwrapped, FreshNonces, Genuine;
    var a, t, e := d.at, w.tables[d.at], d.event;
    assert PeerOk(net, w, a);
    ReceiverIsActive(t, e);
    var j := Receiver(t, e).value;
    PassedWasSealed(net, w, a, j, e.act.wire, e.at);
    PreviousWasGood(net.aead, t.sessions[j], e.act.wire, e.at);
    x :| x in w.sealed && x.wire == g.wire && x.key == t.sessions[j].prevKey;
  }

  lemma PreviousWasGood(aead: Aead, s: Session, wire: Bytes, now: int)
    requires s.window.Valid()
    ensures var v := Received(aead, s, wire, now).1;
            v.Passed? && v.used == Previous ==> s.prevActive && now <= s.prevExpires
  {}

  lemma StepKeepsWorld(net: Net, w: World, d: Deed)
    requires Sized(net, w) && WorldOk(net, w) && Possible(net, w, d)
    ensures WorldOk(net, Do(net, w, d))
  {
    hide Do, Sized, TakenOk, PeerOk, SealsOk, PayloadsOk, RetiredOk;
    StepKeepsPayloads(net, w, d);
    StepKeepsRetired(net, w, d);
    StepKeepsTaken(net, w, d);
    StepKeepsAllSeals(net, w, d);
    forall a | 0 <= a < net.size
      ensures PeerOk(net, Do(net, w, d), a)
    {
      if a == d.at {
        OwnStepKeepsPeer(net, w, d);
      } else {
        OthersKeepPeer(net, w, d, a);
      }
    }
  }

  lemma StepKeepsAllSeals(net: Net, w: World, d: Deed)
    requires WorldOk(net, w) && Possible(net, w, d)
    ensures SealsOk(net.aead, Do(net, w, d).sealed)
  {
    hide Step, Sends, Installs, KeysOk, CountersOk, WindowsOk, SealsOk, Unwrapped, FreshNonces, Genuine, NewSeals,
         NewTaken, NewKeys, TakenOk;
    assert PeerOk(net, w, d.at);
    StepKeepsSeals(d.at, NodeAt(net, d.at), w.tables[d.at], d.event, d.iv, w.keys[d.at], w.sealed);
  }

  lemma {:induction false} RunsAreOk(net: Net, ws: seq<World>, k: nat)
    requires IsRun(net, ws) && k < |ws|
    ensures WorldOk(net, ws[k])
  {
    hide Do, Possible, WorldOk, Sized, Start;
    if k == 0 {
      StartIsOk(net, ws[0]);
    } else {
      RunsAreOk(net, ws, k - 1);
      assert Follows(net, ws[k - 1], ws[k - 1 + 1]);
      var d :| Possible(net, ws[k - 1], d) && d.at < net.size && ws[k] == Do(net, ws[k - 1], d);
      StepKeepsWorld(net, ws[k - 1], d);
    }
  }

  // ----- the promises

  /** In every run: whenever a peer hands on one datagram twice, one of the two times it opened under a previous
      key. So all but one of any number of times did. */
  lemma NoDoubleDelivery(net: Net, ws: seq<World>, k: nat, i: nat, j: nat)
    requires IsRun(net, ws) && k < |ws| && i < j < |ws[k].taken|
    requires ws[k].taken[i].at == ws[k].taken[j].at && ws[k].taken[i].wire == ws[k].taken[j].wire
    requires ws[k].taken[i].verdict.Passed? && ws[k].taken[j].verdict.Passed?
    ensures ws[k].taken[i].verdict.used == Previous || ws[k].taken[j].verdict.used == Previous
  {
    hide IsRun, PeerOk, Decrypted, Framed, SeqOf;
    RunsAreOk(net, ws, k);
    var g, h := ws[k].taken[i], ws[k].taken[j];
    if Delivered(g) && Delivered(h) {
      OneWireOneKey(net.aead, ws[k], g, h);
    }
  }

  lemma OneWireOneKey(aead: Aead, w: World, g: Taken, h: Taken)
    requires SealsOk(aead, w.sealed) && TakenOk(aead, w) && g in w.taken && h in w.taken
    requires Delivered(g) && Delivered(h) && g.wire == h.wire
    ensures g.key == h.key && g.verdict.seqno == h.verdict.seqno
  {}

  /** Peer `a` has been delivered `y`, which has the key and the number of `x`. */
  ghost predicate Preempts(w: World, a: nat, x: Sealed, y: Sealed) {
    && y in w.sealed && y.key == x.key && y.seqno == x.seqno
    && exists g :: g in w.taken && g.at == a && g.key == x.key && g.wire == y.wire && Delivered(g)
  }

  /** `x` is new to peer `a`: no datagram with its key and number has been delivered there, and none with a number
      2048 or more ahead. */
  ghost predicate NewTo(w: World, a: nat, x: Sealed) {
    && (forall y :: y in w.sealed ==> !Preempts(w, a, x, y))
    && forall m :: m in AcceptedUnder(w.taken, a, x.key) ==> m - x.seqno < Replay.WINDOW_BITS
  }

  lemma NewIsAcceptable(aead: Aead, w: World, a: nat, x: Sealed)
    requires SealsOk(aead, w.sealed) && TakenOk(aead, w) && x in w.sealed
    ensures NewTo(w, a, x) <==> Replay.Acceptable(AcceptedUnder(w.taken, a, x.key), x.seqno)
  {
    hide Decrypted, Framed, SeqOf;
    forall g | g in w.taken && g.at == a && g.key == x.key && Delivered(g)
      ensures exists y :: y in w.sealed && y.wire == g.wire && y.key == x.key && y.seqno == g.verdict.seqno
    {
      DeliveredNumber(aead, w, g);
    }
    forall y | y in w.sealed && Preempts(w, a, x, y)
      ensures x.seqno in AcceptedUnder(w.taken, a, x.key)
    {
      var g :| g in w.taken && g.at == a && g.key == x.key && g.wire == y.wire && Delivered(g);
      DeliveredNumber(aead, w, g);
    }
  }

  lemma DeliveredNumber(aead: Aead, w: World, g: Taken)
    requires SealsOk(aead, w.sealed) && TakenOk(aead, w) && g in w.taken && Delivered(g)
    ensures exists y :: y in w.sealed && y.wire == g.wire && y.key == g.key && y.seqno == g.verdict.seqno
  {
    var y :| y in w.sealed && y.wire == g.wire && y.key == g.key;
    FrameRoundTrip(y.seqno, y.payload);
  }

  /** A datagram sealed under the current key of one slot opens in no other slot. */
  lemma OpensNowhereElse(net: Net, w: World, a: nat, i: nat, j: nat, x: Sealed, at: int)
    requires WorldOk(net, w) && a < net.size && i < MAX_PEERS && j < MAX_PEERS && i != j
    requires w.tables[a].sessions[i].active && w.tables[a].sessions[j].active
    requires x in w.sealed && x.key == w.tables[a].sessions[i].key && Genuine(net.aead, w, w.keys[a], x.wire)
    ensures Opened(net.aead, w.tables[a].sessions[j], x.wire, at).None?
  {
    hide Decrypted, CountersOk, WindowsOk, TakenOk;
    assert PeerOk(net, w, a);
  }

  lemma OpensIn(net: Net, w: World, a: nat, i: nat, x: Sealed, at: int)
    requires WorldOk(net, w) && a < net.size && i < MAX_PEERS && w.tables[a].sessions[i].active
    requires x in w.sealed && x.key == w.tables[a].sessions[i].key
    ensures var v := Received(net.aead, w.tables[a].sessions[i], x.wire, at).1;
            v == if NewTo(w, a, x) then Passed(Current, x.seqno, x.payload) else Replayed(x.seqno)
  {
    hide Decrypted, CountersOk, KeysOk, NewTo, Replay.Check, Replay.Records, Replay.Acceptable, AcceptedUnder, Frame,
         Framed, SeqOf, PayloadOf;
    assert PeerOk(net, w, a);
    NewIsAcceptable(net.aead, w, a, x);
    FrameRoundTrip(x.seqno, x.payload);
    Replay.CheckDecides(w.tables[a].sessions[i].window, AcceptedUnder(w.taken, a, x.key), x.seqno);
  }

  lemma ReceiptKeepsDispatch(t: State, aead: Aead, i: nat, wire: Bytes, now: int, payload: Bytes)
    requires Shape(t) && i < t.slots
    ensures Dispatch(SetSession(t, i, Received(aead, t.sessions[i], wire, now).0), i, payload) ==
            Dispatch(t, i, payload)
  {
    hide Opened, Judged, Route, AllowedSrc, IpAt;
    assert RouteTable(SetSession(t, i, Received(aead, t.sessions[i], wire, now).0)) == RouteTable(t);
  }

  /** In every run, a datagram sealed under the current key of slot `i` passes, with its number and payload, exactly
      if it comes from the slot's address, no lower active slot has that address, and it is new to the peer.
      Otherwise it is dropped. */
  lemma DeliveryIsExact(net: Net, ws: seq<World>, k: nat, a: nat, i: nat, x: Sealed, src: Addr, sent: bool, at: int)
    requires IsRun(net, ws) && k < |ws| && Sized(net, ws[k]) && a < net.size && i < MAX_PEERS
    requires ws[k].tables[a].sessions[i].active && x in ws[k].sealed && x.key == ws[k].tables[a].sessions[i].key
    requires Genuine(net.aead, ws[k], ws[k].keys[a], x.wire)
    ensures var t, e := ws[k].tables[a], Event(at, Data(src, x.wire, sent));
            var passes := Addressed(t, src, i) && NewTo(ws[k], a, x);
            && (VerdictOn(NodeAt(net, a), t, e) == Some(Passed(Current, x.seqno, x.payload)) <==> passes)
            && OnData(t, net.aead, src, x.wire, sent, at).1 == if passes then Dispatch(t, i, x.payload) else Dropped
  {
    hide IsRun, Addressed, NewTo, FindByAddr, Dispatch, WorldOk, Genuine, Opened, Judged;
    RunsAreOk(net, ws, k);
    var t := ws[k].tables[a];
    AddressedIsFound(t, src, i);
    OpensIn(net, ws[k], a, i, x, at);
    match FindByAddr(t, src) {
      case None =>
      case Some(j) =>
        if j == i {
          ReceiptKeepsDispatch(t, net.aead, i, x.wire, at, x.payload);
        } else {
          FoundIsActive(t, src, j);
          OpensNowhereElse(net, ws[k], a, i, j, x, at);
          UnopenedIsDropped(net.aead, t.sessions[j], x.wire, at);
        }
    }
  }

  lemma FoundIsActive(t: State, src: Addr, j: nat)
    requires Shape(t) && FindByAddr(t, src) == Some(j)
    ensures j < MAX_PEERS && t.sessions[j].active
  {}

  lemma UnopenedIsDropped(aead: Aead, s: Session, wire: Bytes, now: int)
    requires s.window.Valid() && Opened(aead, s, wire, now).None?
    ensures Received(aead, s, wire, now).1 == Undecrypted
  {}

  /** Who can take a number away: one peer numbers its datagrams apart, so apart from `x` itself it is a datagram that
      another holder of the key sealed. Two peers hold a session key; for the receiver, the other is itself. */
  lemma PreemptedByTheOtherEnd(net: Net, ws: seq<World>, k: nat, a: nat, x: Sealed, y: Sealed)
    requires IsRun(net, ws) && k < |ws| && x in ws[k].sealed && Preempts(ws[k], a, x, y)
    ensures y == x || y.sealer != x.sealer
  {
    hide IsRun, TakenOk, PeerOk;
    RunsAreOk(net, ws, k);
  }

  /** So the first arrival of a datagram that is less than 2048 behind passes, unless the other end's datagram of the
      same number was delivered here before. */
  lemma FirstArrivalDelivered(net: Net, ws: seq<World>, k: nat, a: nat, i: nat, x: Sealed, sent: bool, at: int)
    requires IsRun(net, ws) && k < |ws| && Sized(net, ws[k]) && a < net.size && i < MAX_PEERS
    requires x in ws[k].sealed && x.key == ws[k].tables[a].sessions[i].key
    requires Genuine(net.aead, ws[k], ws[k].keys[a], x.wire)
    requires Addressed(ws[k].tables[a], ws[k].tables[a].sessions[i].addr, i)
    requires forall g :: g in ws[k].taken && g.at == a ==> g.wire != x.wire
    requires forall y :: y in ws[k].sealed && y.sealer != x.sealer ==> !Preempts(ws[k], a, x, y)
    requires forall m :: m in AcceptedUnder(ws[k].taken, a, x.key) ==> m - x.seqno < Replay.WINDOW_BITS
    ensures var t := ws[k].tables[a];
            VerdictOn(NodeAt(net, a), t, Event(at, Data(t.sessions[i].addr, x.wire, sent))) ==
            Some(Passed(Current, x.seqno, x.payload))
  {
    hide IsRun, VerdictOn, Genuine, OnData;
    DeliveryIsExact(net, ws, k, a, i, x, ws[k].tables[a].sessions[i].addr, sent, at);
    forall y | y in ws[k].sealed
      ensures !Preempts(ws[k], a, x, y)
    {
      if Preempts(ws[k], a, x, y) {
        PreemptedByTheOtherEnd(net, ws, k, a, x, y);
      }
    }
  }

  // ----- replays, exactly

  /** A session that takes data packets under `key` as its previous key. */
  predicate InGrace(s: Session, key: Bytes, now: int) {
    s.prevActive && now <= s.prevExpires && s.prevKey == key
  }

  lemma GraceVerdict(net: Net, w: World, a: nat, j: nat, x: Sealed, at: int)
    requires WorldOk(net, w) && a < net.size && j < MAX_PEERS && w.tables[a].sessions[j].active && x in w.sealed
    requires x.key != w.tables[a].sessions[j].key && Genuine(net.aead, w, w.keys[a], x.wire)
    ensures var s := w.tables[a].sessions[j];
            Received(net.aead, s, x.wire, at).1 ==
            if InGrace(s, x.key, at) then Passed(Previous, x.seqno, x.payload) else Undecrypted
  {
    hide Decrypted, CountersOk, WindowsOk, TakenOk, PayloadsOk, RetiredOk, Frame, Framed, SeqOf, PayloadOf,
         Replay.Check;
    assert PeerOk(net, w, a);
    FrameRoundTrip(x.seqno, x.payload);
  }

  /** The verdict on any datagram of the network, in the slot that takes it: under the current key it passes if it is
      new to the peer and is a replay otherwise; under the previous key it passes during the grace time; under any
      other key it does not open. */
  lemma VerdictIsExact(net: Net, ws: seq<World>, k: nat, a: nat, j: nat, x: Sealed, src: Addr, sent: bool, at: int)
    requires IsRun(net, ws) && k < |ws| && Sized(net, ws[k]) && a < net.size && x in ws[k].sealed
    requires Genuine(net.aead, ws[k], ws[k].keys[a], x.wire) && Addressed(ws[k].tables[a], src, j)
    ensures var t := ws[k].tables[a];
            var s := t.sessions[j];
            VerdictOn(NodeAt(net, a), t, Event(at, Data(src, x.wire, sent))) == Some(
              if x.key == s.key then
                if NewTo(ws[k], a, x) then Passed(Current, x.seqno, x.payload) else Replayed(x.seqno)
              else if InGrace(s, x.key, at) then Passed(Previous, x.seqno, x.payload)
              else Undecrypted)
  {
    hide IsRun, NewTo, FindByAddr, WorldOk, Genuine, Received, InGrace;
    RunsAreOk(net, ws, k);
    var t := ws[k].tables[a];
    AddressedIsFound(t, src, j);
    if x.key == t.sessions[j].key {
      OpensIn(net, ws[k], a, j, x, at);
    } else {
      GraceVerdict(net, ws[k], a, j, x, at);
    }
  }

  /** Peer `a` has handed on datagram `x`. */
  ghost predicate HandedOn(w: World, a: nat, x: Sealed) {
    exists g :: g in w.taken && g.at == a && g.wire == x.wire && g.verdict.Passed?
  }

  /** A datagram that was handed on is not new under a current key, and its key is retired if it was handed on under a
      previous key. */
  lemma HandedOnIsOld(net: Net, w: World, a: nat, x: Sealed)
    requires WorldOk(net, w) && x in w.sealed && HandedOn(w, a, x)
    ensures !NewTo(w, a, x) || Retired(w, a, x.key)
  {
    hide PeerOk, PayloadsOk, Carries, Decrypted, Retired;
    var g :| g in w.taken && g.at == a && g.wire == x.wire && g.verdict.Passed?;
    if Delivered(g) {
      assert Preempts(w, a, x, x);
    }
  }

  /** Replays, exactly: a datagram that a peer has handed on is handed on again if and only if the session at the
      address it comes from holds the datagram's key as its previous key and the grace time has not passed. */
  lemma RepeatIsExact(net: Net, ws: seq<World>, k: nat, a: nat, x: Sealed, src: Addr, sent: bool, at: int)
    requires IsRun(net, ws) && k < |ws| && Sized(net, ws[k]) && a < net.size && x in ws[k].sealed
    requires Genuine(net.aead, ws[k], ws[k].keys[a], x.wire) && HandedOn(ws[k], a, x)
    ensures var t := ws[k].tables[a];
            var v := VerdictOn(NodeAt(net, a), t, Event(at, Data(src, x.wire, sent)));
            v.Some? && v.value.Passed? <==>
            exists j :: 0 <= j < MAX_PEERS && Addressed(t, src, j) && InGrace(t.sessions[j], x.key, at)
  {
    hide IsRun, NewTo, FindByAddr, WorldOk, Genuine, Received, InGrace, HandedOn, Retired, Addressed;
    RunsAreOk(net, ws, k);
    HandedOnIsOld(net, ws[k], a, x);
    var t := ws[k].tables[a];
    match FindByAddr(t, src) {
      case None => NobodyAddressed(t, src);
      case Some(j) =>
        OnlyOneAddressed(t, src, j);
        VerdictIsExact(net, ws, k, a, j, x, src, sent, at);
        if t.sessions[j].key == x.key {
          CurrentIsNoPrevious(net, ws[k], a, j, x.key, at);
        }
    }
  }

  lemma NobodyAddressed(t: State, src: Addr)
    requires Shape(t) && FindByAddr(t, src).None?
    ensures forall j: nat :: !Addressed(t, src, j)
  {
    hide FindByAddr;
    forall j: nat
      ensures !Addressed(t, src, j)
    {
      AddressedIsFound(t, src, j);
    }
  }

  lemma OnlyOneAddressed(t: State, src: Addr, j: nat)
    requires Shape(t) && FindByAddr(t, src) == Some(j)
    ensures j < MAX_PEERS && t.sessions[j].active && forall i: nat :: Addressed(t, src, i) <==> i == j
  {
    hide FindByAddr;
    FoundIsActive(t, src, j);
    forall i: nat
      ensures Addressed(t, src, i) <==> i == j
    {
      AddressedIsFound(t, src, i);
    }
  }

  /** In an active slot, a current key is neither retired nor any slot's previous key. */
  lemma CurrentIsNoPrevious(net: Net, w: World, a: nat, j: nat, key: Bytes, at: int)
    requires WorldOk(net, w) && a < net.size && j < MAX_PEERS && w.tables[a].sessions[j].active
    requires w.tables[a].sessions[j].key == key
    ensures !Retired(w, a, key) && !InGrace(w.tables[a].sessions[j], key, at)
  {
    assert PeerOk(net, w, a);
  }

  // ----- where packets come from

  /** In every run, whatever a peer hands on, to its tunnel interface or to another peer, is an IPv4 packet that some
      peer of the network read from its own tunnel interface, byte for byte, through however many relays. */
  lemma HandedOnWasRead(net: Net, ws: seq<World>, k: nat, a: nat, src: Addr, wire: Bytes, sent: bool, at: int)
    requires IsRun(net, ws) && k < |ws| && Sized(net, ws[k]) && a < net.size
    requires Genuine(net.aead, ws[k], ws[k].keys[a], wire)
    ensures var o := OnData(ws[k].tables[a], net.aead, src, wire, sent, at).1;
            o.Dropped? || (IsIpv4(o.payload) && WasRead(ws[k].input, o.payload))
  {
    hide IsRun, FindByAddr, Received, Route, RouteTable, AllowedSrc, IpAt, IsIpv4, PeerOk, SealsOk, TakenOk,
         RetiredOk, Genuine, WasRead;
    RunsAreOk(net, ws, k);
    var t := ws[k].tables[a];
    if FindByAddr(t, src).Some? {
      FoundIsActive(t, src, FindByAddr(t, src).value);
      PassedWasSealed(net, ws[k], a, FindByAddr(t, src).value, wire, at);
    }
  }
}
