/** The setting of the example runs: default settings, one peer or two, a packet, and what single events do there. */
module Scenes {
  import opened Options
  import opened Words
  import opened Wire
  import opened Routing
  import opened Sessions
  import opened Tables
  import opened Runs
  import opened SlotHistory
  import Replay

  const KEY_A: Bytes := [1, 0, 0, 0, 0, 0, 0, 0, 0, 0, 0, 0, 0, 0, 0, 0]
  const KEY_B: Bytes := [2, 0, 0, 0, 0, 0, 0, 0, 0, 0, 0, 0, 0, 0, 0, 0]
  const KEY_C: Bytes := [3, 0, 0, 0, 0, 0, 0, 0, 0, 0, 0, 0, 0, 0, 0, 0]
  const NONCE: Iv := [0, 0, 0, 0, 0, 0, 0, 0, 0, 0, 0, 0]
  const OTHER_NONCE: Iv := [1, 0, 0, 0, 0, 0, 0, 0, 0, 0, 0, 0]
  const PUB: Bytes := [1]
  const PUB_2: Bytes := [2]
  const ADDR: Addr := Addr(1, 1)
  const ADDR_2: Addr := Addr(2, 1)
  const DEFAULTS: Params := Params(180, 30, 540, 90, 5, 5, 25)

  /** 0.0.0.0/0 */
  const ANY: Prefix := Prefix(Zeros(32), Zeros(32), 0)

  /** An IPv4 header. */
  function Packet(): (p: Bytes)
    ensures IsIpv4(p)
  {
    [0x45] + seq(19, _ => 0)
  }

  function NoResponse(h: HsState, pub: Bytes): Option<Bytes> {
    None
  }

  /** An inbound initiation by `pub` that ends in session key `key`. */
  function Initiation(at: int, src: Addr, pub: Bytes, key: Bytes): Event {
    Event(at, Handshake(src, NoResponse, Some((pub, key))))
  }

  lemma AnyCovers(ip: Ip)
    ensures Covers(ANY, ip)
  {}

  /** The example cipher opens nothing under another key. */
  lemma OpensUnderOwnKeyOnly(key: Bytes, other: Bytes, iv: Iv, plain: Bytes)
    requires |key| == |other| == TAG_LEN && key[0] != other[0]
    ensures Decrypted(TOY_CIPHER, other, Encrypted(TOY_CIPHER, key, iv, plain)) == None
  {
    var sealed := plain + ToyTag(key);
    assert Encrypted(TOY_CIPHER, key, iv, plain)[IV_LEN..] == sealed;
    assert sealed[|sealed| - TAG_LEN..] == key;
  }

  // ----- one peer

  /** `PUB` is the only configured peer, for every address. */
  ghost predicate OnlyPeer(t: State) {
    |t.configs| == 1 && t.configs[0].pub == PUB && t.configs[0].routes == [ANY]
  }

  /** Slot 0, the only one in use, holds session `s` of `PUB`, and no handshake is pending. */
  ghost predicate OnlySlot(t: State, s: Session) {
    && Shape(t) && t.slots == 1 && t.sessions[0] == s && s.active && s.pub == PUB && s.addr == ADDR && s.routes == [ANY]
    && OnlyPeer(t)
    && forall j :: 0 <= j < MAX_PEERS ==> !t.pending[j].active
  }

  function FirstSession(p: Params, blank: Session, key: Bytes, at: int): Session {
    Installed(p, blank, ADDR, PUB, key, [ANY], false, at)
  }

  lemma FirstInstall(n: Node, t: State, at: int, key: Bytes)
    requires Initial(t) && OnlyPeer(t)
    ensures OnlySlot(Step(n, t, Initiation(at, ADDR, PUB, key)), FirstSession(n.p, t.sessions[0], key, at))
  {}

  lemma NextInstall(n: Node, t: State, s: Session, at: int, key: Bytes)
    requires OnlySlot(t, s) && at - s.lastHandshake >= n.p.handshakeCooldown
    ensures OnlySlot(Step(n, t, Initiation(at, ADDR, PUB, key)), FirstSession(n.p, s, key, at))
  {}

  lemma SoleSession(t: State, s: Session)
    requires OnlySlot(t, s)
    ensures Shape(t) && t.sessions[0] == s && s.window.Valid() && s.active
    ensures forall j :: 0 <= j < MAX_PEERS ==> !t.pending[j].active
  {}

  lemma SoleReceiver(n: Node, t: State, s: Session, e: Event)
    requires OnlySlot(t, s) && e.act.Data? && e.act.src == ADDR
    ensures Receiver(t, e) == Some(0) && s.window.Valid()
    ensures VerdictOn(n, t, e) == Some(Received(n.aead, s, e.act.wire, e.at).1)
  {
    hide Received;
    assert t.sessions[..1] == [s];
  }

  /** Every address is routed to the one session. */
  lemma SoleRoute(t: State, s: Session, ip: Ip)
    requires OnlySlot(t, s)
    ensures Route(RouteTable(t), ip) == Some(0) && AllowedSrc(s.routes, ip)
  {
    hide Route, Covers;
    AnyCovers(ip);
    RouteIsLongestMatch(RouteTable(t), ip);
    assert RouteTable(t) == [[ANY]];
    assert BestAt(RouteTable(t), ip, 0, ANY);
  }

  lemma SoleDispatch(t: State, s: Session)
    requires OnlySlot(t, s)
    ensures Dispatch(t, 0, Packet()) == ToTun(Packet())
  {
    hide Route, RouteTable, AllowedSrc, IpAt, Packet;
    SoleRoute(t, s, IpAt(Packet(), 16));
    SoleRoute(t, s, IpAt(Packet(), 12));
  }

  lemma SetSole(t: State, s: Session, r: Session)
    requires OnlySlot(t, s) && r.window.Valid() && r.active && r.pub == PUB && r.addr == ADDR && r.routes == [ANY]
    ensures OnlySlot(SetSession(t, 0, r), r)
  {}

  /** A datagram that carries the packet goes to the interface, and any other packet nowhere. */
  lemma SoleData(n: Node, t: State, s: Session, wire: Bytes, now: int)
    requires OnlySlot(t, s)
    requires var v := Received(n.aead, s, wire, now).1; v.Passed? ==> v.payload == Packet()
    ensures var (r, v) := Received(n.aead, s, wire, now);
            && OnData(t, n.aead, ADDR, wire, true, now) ==
              (SetSession(t, 0, r), if v.Passed? then ToTun(Packet()) else Dropped)
            && OnlySlot(SetSession(t, 0, r), r)
  {
    hide Dispatch, Opened, Judged, Packet;
    assert t.sessions[..1] == [s];
    var r := Received(n.aead, s, wire, now).0;
    SetSole(t, s, r);
    SoleDispatch(SetSession(t, 0, r), r);
  }

  /** The packet, read from the interface, leaves from slot 0. */
  lemma SoleTun(t: State, s: Session, now: int)
    requires OnlySlot(t, s)
    ensures TunRoute(t, Packet()) == Some(0)
    ensures OnlySlot(OnTun(t, Packet(), true, now), Forwarded(s, true, now))
  {
    hide Route, RouteTable, IpAt, Packet;
    SoleRoute(t, s, IpAt(Packet(), 16));
    SetSole(t, s, Forwarded(s, true, now));
  }

  // ----- two peers

  ghost predicate TwoPeers(t: State) {
    |t.configs| == 2 && t.configs[0].pub == PUB && t.configs[1].pub == PUB_2
  }

  /** `slots` sessions are in use, and no handshake is pending. */
  ghost predicate InUse(t: State, slots: nat) {
    && Shape(t) && t.slots == slots && TwoPeers(t)
    && forall j :: 0 <= j < MAX_PEERS ==> !t.pending[j].active
  }

  /** An active session of `pub` at `addr`, installed at `at`. */
  ghost predicate Holds(s: Session, pub: Bytes, addr: Addr, at: int) {
    s.active && s.pub == pub && s.addr == addr && s.lastHandshake == at
  }

  lemma FirstPeer(n: Node, t: State)
    requires Initial(t) && TwoPeers(t)
    ensures var r := Step(n, t, Initiation(1000, ADDR, PUB, KEY_A));
            && InUse(r, 1) && Holds(r.sessions[0], PUB, ADDR, 1000)
            && r.sessions[0].key == KEY_A && !r.sessions[0].prevActive
  {}

  lemma SecondPeer(n: Node, t: State)
    requires InUse(t, 1) && Holds(t.sessions[0], PUB, ADDR, 1000)
    ensures var r := Step(n, t, Initiation(1000, ADDR_2, PUB_2, KEY_B));
            InUse(r, 2) && r.sessions[0] == t.sessions[0] && Holds(r.sessions[1], PUB_2, ADDR_2, 1000)
  {
    assert t.sessions[..1] == [t.sessions[0]];
  }

  /** The second peer connects again, from the address of the first. */
  lemma SecondPeerMoves(n: Node, t: State)
    requires n.p == DEFAULTS && InUse(t, 2)
    requires Holds(t.sessions[0], PUB, ADDR, 1000) && Holds(t.sessions[1], PUB_2, ADDR_2, 1000)
    ensures var r := Step(n, t, Initiation(1010, ADDR, PUB_2, KEY_C));
            && InUse(r, 2) && r.sessions[0] == t.sessions[0] && Holds(r.sessions[1], PUB_2, ADDR, 1010)
            && r.sessions[1].key == KEY_C && r.sessions[1].window == Replay.Fresh()
  {
    hide Installed;
    SecondPeerFound(t);
    SecondPeerInstalled(n.p, t.sessions[1]);
  }

  lemma SecondPeerFound(t: State)
    requires InUse(t, 2)
    requires Holds(t.sessions[0], PUB, ADDR, 1000) && Holds(t.sessions[1], PUB_2, ADDR_2, 1000)
    ensures FindByAddr(t, ADDR) == Some(0) && FindByPub(t, PUB_2) == Some(1) && FindConfig(t, PUB_2) == Some(1)
    ensures PendingFrom(t, ADDR).None?
  {
    assert t.sessions[..2] == [t.sessions[0], t.sessions[1]];
  }

  lemma SecondPeerInstalled(p: Params, s: Session)
    ensures forall routes :: var r := Installed(p, s, ADDR, PUB_2, KEY_C, routes, false, 1010);
              Holds(r, PUB_2, ADDR, 1010) && r.key == KEY_C && r.window == Replay.Fresh()
  {}
}
