/** The tables a peer keeps under `table_lock` (configurations, sessions, pending handshakes) and
    what each critical section makes of them. Every section reads the clock once, as `now`. */
module Tables {
  import opened Options
  import opened Wire
  import opened Routing
  import opened Sessions

  const MAX_PEERS: nat := 64
  const MAX_ROUTES_PER_PEER: nat := 16

  /** `peer_config_t` */
  datatype Config = Config(pub: Bytes, routes: seq<Prefix>, hasEndpoint: bool, endpoint: Addr, lastAttempt: int)

  /** `hs_client_state_t` */
  datatype HsState = HsState(ephPriv: Bytes, ephPub: Bytes, ecdhEcSs: Bytes)

  /** The outcome of `handshake_client_recv` on a packet, given the pending state and the expected peer key. */
  type Recv = (HsState, Bytes) -> Option<Bytes>

  /** The outcome of `handshake_server_respond`: the initiator's key and the session key. */
  type Answer = Option<(Bytes, Bytes)>

  /** `pending_hs_t` */
  datatype Pending = Pending(active: bool, cfgIdx: nat, sentAt: int, serverAddr: Addr, hs: HsState)

  datatype State = State(configs: seq<Config>, sessions: seq<Session>, slots: nat, pending: seq<Pending>)

  /** Array sizes, and every index in use within its array. */
  ghost predicate Shape(t: State) {
    && |t.sessions| == |t.pending| == MAX_PEERS
    && t.slots <= MAX_PEERS
    && (forall i :: 0 <= i < MAX_PEERS ==> t.sessions[i].window.Valid())
    && (forall j :: 0 <= j < MAX_PEERS && t.pending[j].active ==> t.pending[j].cfgIdx < |t.configs|)
  }

  const NO_HANDSHAKE: Pending := Pending(false, 0, 0, Addr(0, 0), HsState([], [], []))

  /** The tables at the start of the program: zero but for the configurations. */
  function ZeroTables(configs: seq<Config>): (t: State)
    ensures Shape(t)
  {
    State(configs, seq(MAX_PEERS, _ => BLANK_SESSION), 0, seq(MAX_PEERS, _ => NO_HANDSHAKE))
  }

  // ----- lookups

  /** The first element that satisfies `p`. */
  function FirstIndex<T>(s: seq<T>, p: T -> bool): (r: Option<nat>)
    ensures r.Some? ==> r.value < |s| && p(s[r.value]) && forall k :: 0 <= k < r.value ==> !p(s[k])
    ensures r.None? ==> forall k :: 0 <= k < |s| ==> !p(s[k])
  {
    if s == [] then None
    else
      var r := FirstIndex(s[..|s| - 1], p);
      if r.None? && p(s[|s| - 1]) then Some(|s| - 1) else r
  }

  /** A search that found nothing before `r` and something at `r` computes `FirstIndex`. */
  lemma FirstIndexIs<T>(s: seq<T>, p: T -> bool, r: Option<nat>)
    requires r.Some? ==> r.value < |s| && p(s[r.value]) && forall k :: 0 <= k < r.value ==> !p(s[k])
    requires r.None? ==> forall k :: 0 <= k < |s| ==> !p(s[k])
    ensures FirstIndex(s, p) == r
  {}

  function FindByPub(t: State, pub: Bytes): (r: Option<nat>)
    requires Shape(t)
    ensures r.Some? ==> r.value < t.slots
  {
    FirstIndex(t.sessions[..t.slots], (s: Session) => s.active && s.pub == pub)
  }

  function FindByAddr(t: State, addr: Addr): (r: Option<nat>)
    requires Shape(t)
    ensures r.Some? ==> r.value < t.slots
  {
    FirstIndex(t.sessions[..t.slots], (s: Session) => s.active && s.addr == addr)
  }

  function FreeSession(t: State): (r: Option<nat>)
    requires Shape(t)
    ensures r.Some? ==> r.value < t.slots
  {
    FirstIndex(t.sessions[..t.slots], (s: Session) => !s.active)
  }

  function FindConfig(t: State, pub: Bytes): Option<nat> {
    FirstIndex(t.configs, (c: Config) => c.pub == pub)
  }

  function FreePending(t: State): Option<nat> {
    FirstIndex(t.pending, (p: Pending) => !p.active)
  }

  /** The pending handshake a packet from `src` answers. */
  function PendingFrom(t: State, src: Addr): Option<nat> {
    FirstIndex(t.pending, (p: Pending) => p.active && p.serverAddr == src)
  }

  // ----- sessions

  function SetSession(t: State, i: nat, s: Session): State
    requires Shape(t) && i < MAX_PEERS
  {
    t.(sessions := t.sessions[i := s])
  }

  /** `alloc_session`: by key, then by address, then a free slot, then a new slot. */
  function Alloc(t: State, pub: Bytes, addr: Addr): (r: (State, Option<nat>))
    requires Shape(t)
    ensures Shape(r.0) && r.0 == t.(slots := r.0.slots)
    ensures r.1.Some? ==> r.1.value < r.0.slots
  {
    if FindByPub(t, pub).Some? then (t, FindByPub(t, pub))
    else if FindByAddr(t, addr).Some? then (t, FindByAddr(t, addr))
    else if FreeSession(t).Some? then (t, FreeSession(t))
    else if t.slots >= MAX_PEERS then (t, None)
    else (t.(slots := t.slots + 1), Some(t.slots))
  }

  /** `alloc_session` followed by `session_init` with the data of configuration `c`. */
  function InstallFor(p: Params, t: State, c: nat, src: Addr, key: Bytes, outbound: bool, now: int): (r: State)
    requires Shape(t) && c < |t.configs|
    ensures Shape(r)
  {
    var cfg := t.configs[c];
    var (t', slot) := Alloc(t, cfg.pub, src);
    match slot
    case None => t'
    case Some(i) => SetSession(t', i, Installed(p, t'.sessions[i], src, cfg.pub, key, cfg.routes, outbound, now))
  }

  function SetRekeying(t: State, slot: Option<nat>, b: bool): (r: State)
    requires Shape(t) && (slot.Some? ==> slot.value < MAX_PEERS)
    ensures Shape(r)
  {
    match slot
    case None => t
    case Some(i) => SetSession(t, i, t.sessions[i].(rekeying := b))
  }

  /** Clears `rekeying` of the session with key `pub`, if there is one. */
  function ClearRekeying(t: State, pub: Bytes): (r: State)
    requires Shape(t)
    ensures Shape(r)
  {
    SetRekeying(t, FindByPub(t, pub), false)
  }

  // ----- a handshake packet

  function Consume(t: State, j: nat): (r: State)
    requires Shape(t) && j < MAX_PEERS
    ensures Shape(r)
  {
    t.(pending := t.pending[j := t.pending[j].(active := false)])
  }

  /** A packet taken as the response to pending handshake `j`; `key` is the outcome of
      `handshake_client_recv`. */
  function Answered(p: Params, t: State, j: nat, src: Addr, key: Option<Bytes>, now: int): (r: State)
    requires Shape(t) && j < MAX_PEERS && t.pending[j].active
    ensures Shape(r)
  {
    var c := t.pending[j].cfgIdx;
    match key
    case Some(k) => InstallFor(p, Consume(t, j), c, src, k, true, now)
    case None => ClearRekeying(Consume(t, j), t.configs[c].pub)
  }

  predicate CoolingDown(p: Params, t: State, slot: Option<nat>, now: int)
    requires Shape(t) && (slot.Some? ==> slot.value < MAX_PEERS)
  {
    slot.Some? && now - t.sessions[slot.value].lastHandshake < p.handshakeCooldown
  }

  /** The configuration for which an inbound initiation installs a session, if any: the address must
      not be cooling down, the response must have been sent (`reply`, with the initiator's key and
      the session key), the key must be configured and not be cooling down. */
  function InboundFor(p: Params, t: State, src: Addr, reply: Answer, now: int): (c: Option<nat>)
    requires Shape(t)
    ensures c.Some? ==> c.value < |t.configs| && reply.Some? && t.configs[c.value].pub == reply.value.0
  {
    if CoolingDown(p, t, FindByAddr(t, src), now) || reply.None? then None
    else if FindConfig(t, reply.value.0).None? then None
    else if CoolingDown(p, t, FindByPub(t, reply.value.0), now) then None
    else FindConfig(t, reply.value.0)
  }

  function Inbound(p: Params, t: State, src: Addr, reply: Answer, now: int): (r: State)
    requires Shape(t)
    ensures Shape(r)
  {
    match InboundFor(p, t, src, reply, now)
    case None => t
    case Some(c) => InstallFor(p, t, c, src, reply.value.1, false, now)
  }

  /** `memcmp(a, b) > 0` for keys of equal length. */
  predicate KeyGreater(a: Bytes, b: Bytes) {
    a != [] && b != [] && (a[0] > b[0] || (a[0] == b[0] && KeyGreater(a[1..], b[1..])))
  }

  /** The tie-break before the inbound path: with a pending handshake to `src`, the side with the
      greater key ignores the packet (second result), the other drops its own handshake. */
  function TieBroken(t: State, myPub: Bytes, src: Addr): (r: (State, bool))
    requires Shape(t)
    ensures Shape(r.0)
  {
    match PendingFrom(t, src)
    case None => (t, false)
    case Some(j) =>
      var pub := t.configs[t.pending[j].cfgIdx].pub;
      if KeyGreater(myPub, pub) then (t, true) else (ClearRekeying(Consume(t, j), pub), false)
  }

  /** The handshake branch of a worker. `recv` stands for `handshake_client_recv` on the packet, as a
      function of the pending state and the expected peer key. */
  function OnHandshake(p: Params, t: State, myPub: Bytes, src: Addr, recv: Recv,
                       reply: Answer, now: int): (r: State)
    requires Shape(t)
    ensures Shape(r)
  {
    match PendingFrom(t, src)
    case Some(j) => Answered(p, t, j, src, recv(t.pending[j].hs, t.configs[t.pending[j].cfgIdx].pub), now)
    case None =>
      var (t', skip) := TieBroken(t, myPub, src);
      if skip then t' else Inbound(p, t', src, reply, now)
  }

  /** The tie-break is dead code: every packet from an address with a pending handshake is taken as its
      response, so whoever reaches the inbound path finds nothing to break, whatever the keys are. */
  lemma TieBreakIsDead(p: Params, t: State, myPub: Bytes, src: Addr, recv: Recv, reply: Answer, now: int)
    requires Shape(t)
    ensures PendingFrom(t, src).None? ==>
              && TieBroken(t, myPub, src) == (t, false)
              && OnHandshake(p, t, myPub, src, recv, reply, now) == Inbound(p, t, src, reply, now)
  {}

  lemma ResponseBranch(p: Params, t: State, myPub: Bytes, src: Addr, recv: Recv, reply: Answer, now: int, j: nat)
    requires Shape(t) && PendingFrom(t, src) == Some(j)
    ensures OnHandshake(p, t, myPub, src, recv, reply, now) ==
            Answered(p, t, j, src, recv(t.pending[j].hs, t.configs[t.pending[j].cfgIdx].pub), now)
  {}

  // ----- the housekeeping pass

  /** Outcomes of the foreign calls of one pass: resolving the endpoint of a configuration, sending a
      handshake initiation for it, and drawing a nonce and sending a keepalive for a slot. */
  datatype Env = Env(resolve: nat -> Option<Addr>, send: nat -> Option<HsState>, iv: nat -> Option<Iv>,
                     sendOk: nat -> bool)

  function SetConfig(t: State, i: nat, c: Config): (r: State)
    requires Shape(t) && i < |t.configs|
    ensures Shape(r)
  {
    t.(configs := t.configs[i := c])
  }

  /** `initiate_outbound_handshake` for configuration `i`; `sent` is the outcome of
      `handshake_client_send`. */
  function Initiated(t: State, i: nat, sent: Option<HsState>, now: int): (r: (State, bool))
    requires Shape(t) && i < |t.configs|
    ensures Shape(r.0)
  {
    var t' := SetConfig(t, i, t.configs[i].(lastAttempt := now));
    match FreePending(t')
    case None => (t', false)
    case Some(j) =>
      if sent.None? then (t', false)
      else (t'.(pending := t'.pending[j := Pending(true, i, now, t'.configs[i].endpoint, sent.value)]), true)
  }

  /** A configuration is due for a handshake: no session, or one old enough to rekey. */
  predicate Due(p: Params, t: State, i: nat, now: int)
    requires Shape(t) && i < |t.configs|
  {
    var cfg := t.configs[i];
    var slot := FindByPub(t, cfg.pub);
    && cfg.hasEndpoint
    && (|| slot.None?
        || (&& now >= t.sessions[slot.value].lastHandshake + p.rekeyAfter * 4 / 5
            && !t.sessions[slot.value].rekeying))
    && now - cfg.lastAttempt >= p.reconnectInterval
  }

  function Resolved(cfg: Config, addr: Option<Addr>): Config {
    if addr.Some? then cfg.(endpoint := addr.value) else cfg
  }

  function ConnectOne(p: Params, t: State, i: nat, env: Env, now: int): (r: State)
    requires Shape(t) && i < |t.configs|
    ensures Shape(r) && |r.configs| == |t.configs|
  {
    if !Due(p, t, i, now) then t
    else
      var slot := FindByPub(t, t.configs[i].pub);
      var t1 := SetConfig(t, i, Resolved(t.configs[i], env.resolve(i)));
      var t2 := SetRekeying(t1, slot, true);
      var (t3, ok) := Initiated(t2, i, env.send(i), now);
      if ok then t3 else SetRekeying(t3, slot, false)
  }

  /** The first loop of the pass, over configurations `0..n`. */
  function Connect(p: Params, t: State, n: nat, env: Env, now: int): (r: State)
    requires Shape(t) && n <= |t.configs|
    ensures Shape(r) && |r.configs| == |t.configs|
  {
    if n == 0 then t else ConnectOne(p, Connect(p, t, n - 1, env, now), n - 1, env, now)
  }

  function TimeOutOne(p: Params, t: State, j: nat, now: int): (r: State)
    requires Shape(t) && j < MAX_PEERS
    ensures Shape(r) && |r.configs| == |t.configs|
  {
    if !t.pending[j].active || now - t.pending[j].sentAt < p.handshakeTimeout then t
    else ClearRekeying(Consume(t, j), t.configs[t.pending[j].cfgIdx].pub)
  }

  /** The second loop, over pending handshakes `0..n`. */
  function TimeOut(p: Params, t: State, n: nat, now: int): (r: State)
    requires Shape(t) && n <= MAX_PEERS
    ensures Shape(r) && |r.configs| == |t.configs|
  {
    if n == 0 then t else TimeOutOne(p, TimeOut(p, t, n - 1, now), n - 1, now)
  }

  /** The moment from which a session's silence is counted. */
  function SilentSince(s: Session): int {
    if s.lastSeen > 0 then s.lastSeen else s.lastHandshake
  }

  function ExpireSession(p: Params, s: Session, now: int): Session {
    if s.active && now - SilentSince(s) > p.sessionExpiry then s.(active := false) else s
  }

  /** The third loop, over slots `0..n`. */
  function Expire(p: Params, t: State, n: nat, now: int): (r: State)
    requires Shape(t) && n <= t.slots
    ensures Shape(r) && |r.configs| == |t.configs| && r.slots == t.slots
  {
    if n == 0 then t
    else
      var t' := Expire(p, t, n - 1, now);
      SetSession(t', n - 1, ExpireSession(p, t'.sessions[n - 1], now))
  }

  function KeepSessionAlive(p: Params, s: Session, sent: bool, now: int): Session {
    if s.active && now - s.lastSent >= p.keepaliveInterval then Forwarded(s, sent, now) else s
  }

  /** The fourth loop, over slots `0..n`. */
  function Keepalive(p: Params, t: State, n: nat, env: Env, now: int): (r: State)
    requires Shape(t) && n <= t.slots
    ensures Shape(r) && |r.configs| == |t.configs| && r.slots == t.slots
  {
    if n == 0 then t
    else
      var t' := Keepalive(p, t, n - 1, env, now);
      SetSession(t', n - 1, KeepSessionAlive(p, t'.sessions[n - 1], env.iv(n - 1).Some? && env.sendOk(n - 1), now))
  }

  /** One housekeeping pass. */
  function Housekeeping(p: Params, t: State, env: Env, now: int): (r: State)
    requires Shape(t)
    ensures Shape(r)
  {
    var t1 := Connect(p, t, |t.configs|, env, now);
    var t2 := TimeOut(p, t1, MAX_PEERS, now);
    var t3 := Expire(p, t2, t2.slots, now);
    Keepalive(p, t3, t3.slots, env, now)
  }

  // ----- packets

  /** The prefixes `route_lookup` consults, per slot in use. */
  function RouteTable(t: State): (r: seq<seq<Prefix>>)
    requires Shape(t)
    ensures |r| == t.slots
  {
    seq(t.slots, i requires 0 <= i < t.slots => if t.sessions[i].active then t.sessions[i].routes else [])
  }

  /** What becomes of a packet after the section under `hot_lock`. */
  datatype Outcome = Dropped | ToTun(payload: Bytes) | Relayed(slot: nat, payload: Bytes)

  /** The rest of the data branch, for a packet that passed the checks of slot `i`. */
  function Dispatch(t: State, i: nat, payload: Bytes): (o: Outcome)
    requires Shape(t) && i < t.slots
    ensures o.Relayed? ==> o.slot < t.slots && o.slot != i && o.payload == payload
  {
    var routes := t.sessions[i].routes;
    if payload == [] then Dropped
    else if !IsIpv4(payload) then ToTun(payload)
    else if routes != [] && !AllowedSrc(routes, IpAt(payload, 12)) then Dropped
    else
      match Route(RouteTable(t), IpAt(payload, 16))
      case Some(j) => if j != i then Relayed(j, payload) else ToTun(payload)
      case None => ToTun(payload)
  }

  /** The data branch of a worker; `sent` is the outcome of a relayed transmission. */
  function OnData(t: State, aead: Aead, src: Addr, wire: Bytes, sent: bool, now: int): (r: (State, Outcome))
    requires Shape(t)
    ensures Shape(r.0)
  {
    match FindByAddr(t, src)
    case None => (t, Dropped)
    case Some(i) =>
      var (s, v) := Received(aead, t.sessions[i], wire, now);
      var t' := SetSession(t, i, s);
      if !v.Passed? then (t', Dropped)
      else
        var o := Dispatch(t', i, v.payload);
        (if o.Relayed? then SetSession(t', o.slot, Forwarded(t'.sessions[o.slot], sent, now)) else t', o)
  }

  /** The slot a packet read from the tunnel interface is sent to. */
  function TunRoute(t: State, packet: Bytes): (r: Option<nat>)
    requires Shape(t)
    ensures r.Some? ==> r.value < t.slots
  {
    if IsIpv4(packet) then Route(RouteTable(t), IpAt(packet, 16)) else None
  }

  /** A packet read from the tunnel interface. */
  function OnTun(t: State, packet: Bytes, sent: bool, now: int): (r: State)
    requires Shape(t)
    ensures Shape(r)
  {
    match TunRoute(t, packet)
    case None => t
    case Some(i) => SetSession(t, i, Forwarded(t.sessions[i], sent, now))
  }
}
