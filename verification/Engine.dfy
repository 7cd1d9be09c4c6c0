/** The peer's tables in place: the global arrays of the program and the loops that search and
    update them. Each method is proved to do what the corresponding function of `Tables` says. */
module Engine {
  import opened Options
  import opened Wire
  import opened Routing
  import opened Sessions
  import opened Tables

  /** The zero-initialised `sessions` table. */
  method BlankSessions() returns (ss: seq<PeerSession>)
    ensures |ss| == MAX_PEERS
    ensures forall i :: 0 <= i < |ss| ==>
              fresh(ss[i]) && fresh(ss[i].words) && ss[i].Valid() && ss[i].View() == BLANK_SESSION
    ensures forall i, j :: 0 <= i < j < |ss| ==> ss[i] != ss[j] && ss[i].words != ss[j].words
  {
    ss := [];
    while |ss| < MAX_PEERS
      invariant |ss| <= MAX_PEERS
      invariant forall i :: 0 <= i < |ss| ==>
                  fresh(ss[i]) && fresh(ss[i].words) && ss[i].Valid() && ss[i].View() == BLANK_SESSION
      invariant forall i, j :: 0 <= i < j < |ss| ==> ss[i] != ss[j] && ss[i].words != ss[j].words
    {
      var s := new PeerSession();
      ss := ss + [s];
    }
  }

  class Peer {
    const params: Params
    const configs: array<Config>
    const sessions: seq<PeerSession>
    const pending: array<Pending>
    var slots: nat

    /** The objects that make up the tables. */
    ghost function Repr(): set<object> {
      {this, configs, pending} + (set s | s in sessions) + (set s | s in sessions :: s.words)
    }

    /** 64 session slots, none sharing storage with another. */
    ghost predicate Separate() {
      && |sessions| == MAX_PEERS
      && (forall i :: 0 <= i < MAX_PEERS ==> sessions[i].Valid())
      && (forall i, j :: 0 <= i < j < MAX_PEERS ==>
            sessions[i] != sessions[j] && sessions[i].words != sessions[j].words)
    }

    ghost predicate Valid()
      reads Repr()
    {
      && Separate()
      && pending.Length == MAX_PEERS
      && slots <= MAX_PEERS
      && forall j :: 0 <= j < MAX_PEERS && pending[j].active ==> pending[j].cfgIdx < configs.Length
    }

    ghost function Sessions(): (r: seq<Session>)
      requires Separate()
      reads Repr()
      ensures |r| == MAX_PEERS
      ensures forall i :: 0 <= i < MAX_PEERS ==> r[i] == sessions[i].View()
    {
      seq(MAX_PEERS, i requires 0 <= i < MAX_PEERS reads Repr() => sessions[i].View())
    }

    /** The tables as a value. */
    ghost function View(): (t: State)
      requires Valid()
      reads Repr()
      ensures Shape(t)
    {
      State(configs[..], Sessions(), slots, pending[..])
    }

    constructor (p: Params, cfgs: seq<Config>)
      ensures Valid() && params == p && View() == ZeroTables(cfgs)
    {
      hide Replay.Flatten;
      params := p;
      configs := new Config[|cfgs|](i requires 0 <= i < |cfgs| => cfgs[i]);
      pending := new Pending[MAX_PEERS](_ => NO_HANDSHAKE);
      slots := 0;
      var ss := BlankSessions();
      sessions := ss;
    }

    // ----- lookups

    /** `find_session_by_addr` */
    method FindSessionByAddr(addr: Addr) returns (r: Option<nat>)
      requires Valid()
      ensures Valid() && View() == old(View())
      ensures r == FindByAddr(View(), addr) && (r.Some? ==> r.value < slots)
    {
      r := None;
      for i := 0 to slots
        invariant forall k :: 0 <= k < i ==> !(sessions[k].f.active && sessions[k].f.addr == addr)
      {
        if sessions[i].f.active && sessions[i].f.addr == addr {
          r := Some(i);
          break;
        }
      }
      FirstIndexIs(View().sessions[..slots], (s: Session) => s.active && s.addr == addr, r);
    }

    /** `find_session_by_pub` */
    method FindSessionByPub(pub: Bytes) returns (r: Option<nat>)
      requires Valid()
      ensures Valid() && View() == old(View())
      ensures r == FindByPub(View(), pub) && (r.Some? ==> r.value < slots)
    {
      r := None;
      for i := 0 to slots
        invariant r.None?
        invariant forall k :: 0 <= k < i ==> !(sessions[k].f.active && sessions[k].f.pub == pub)
      {
        if sessions[i].f.active && sessions[i].f.pub == pub {
          r := Some(i);
          break;
        }
      }
      FirstIndexIs(View().sessions[..slots], (s: Session) => s.active && s.pub == pub, r);
    }

    method FindFreeSession() returns (r: Option<nat>)
      requires Valid()
      ensures Valid() && View() == old(View())
      ensures r == FreeSession(View()) && (r.Some? ==> r.value < slots)
    {
      r := None;
      for i := 0 to slots
        invariant r.None?
        invariant forall k :: 0 <= k < i ==> sessions[k].f.active
      {
        if !sessions[i].f.active {
          r := Some(i);
          break;
        }
      }
      FirstIndexIs(View().sessions[..slots], (s: Session) => !s.active, r);
    }

    /** `find_peer_config` */
    method FindPeerConfig(pub: Bytes) returns (r: Option<nat>)
      requires Valid()
      ensures Valid() && View() == old(View())
      ensures r == FindConfig(View(), pub) && (r.Some? ==> r.value < configs.Length)
    {
      r := None;
      for i := 0 to configs.Length
        invariant r.None?
        invariant forall k :: 0 <= k < i ==> configs[k].pub != pub
      {
        if configs[i].pub == pub {
          r := Some(i);
          break;
        }
      }
      FirstIndexIs(View().configs, (c: Config) => c.pub == pub, r);
    }

    /** `alloc_session` */
    method AllocSession(pub: Bytes, addr: Addr) returns (r: Option<nat>)
      requires Valid()
      modifies this`slots
      ensures Valid() && View() == Alloc(old(View()), pub, addr).0
      ensures r == Alloc(old(View()), pub, addr).1
    {
      hide FindByPub, FindByAddr, FreeSession, Shape;
      r := FindSessionByPub(pub);
      if r.Some? {
        return;
      }
      r := FindSessionByAddr(addr);
      if r.Some? {
        return;
      }
      r := FindFreeSession();
      if r.Some? {
        return;
      }
      if slots >= MAX_PEERS {
        return None;
      }
      GrowSlots();
      return Some(slots - 1);
    }

    method GrowSlots()
      requires Valid() && slots < MAX_PEERS
      modifies this`slots
      ensures Valid() && View() == old(View()).(slots := old(slots) + 1) && slots == old(slots) + 1
    {
      slots := slots + 1;
      assert Sessions() == old(Sessions());
    }

    // ----- routing

    /** `route_lookup` */
    method RouteLookup(ip: Ip) returns (best: Option<nat>)
      requires Valid()
      ensures Valid() && View() == old(View())
      ensures best == Route(RouteTable(View()), ip) && (best.Some? ==> best.value < slots)
    {
      ghost var lens := Lengths(RouteTable(View()), ip);
      SlotLengths(ip);
      hide RouteTable, Lengths, View, Longest, FirstGreatest;
      best := None;
      var bestLen := -1;
      for i := 0 to slots
        invariant (best, bestLen) == FirstGreatest(lens[..i])
      {
        FirstGreatestNext(lens, i);
        if !sessions[i].f.active {
          continue;
        }
        var here, len := Scan(sessions[i].f.routes, ip, bestLen);
        if here {
          best, bestLen := Some(i), len;
        }
      }
      assert lens[..slots] == lens;
    }

    lemma SlotLengths(ip: Ip)
      requires Valid()
      ensures |Lengths(RouteTable(View()), ip)| == slots
      ensures forall i :: 0 <= i < slots ==>
                Lengths(RouteTable(View()), ip)[i] ==
                  if sessions[i].f.active then Longest(sessions[i].f.routes, ip) else -1
    {}

    // ----- updates of one slot

    /** If only slot `i` changed, the view changed only there. */
    twostate lemma OneSlotChanged(i: nat)
      requires old(Valid()) && i < MAX_PEERS
      requires forall o :: o in Repr() && o != sessions[i] && o != sessions[i].words ==> unchanged(o)
      ensures Valid() && View() == SetSession(old(View()), i, sessions[i].View())
    {
      forall k | 0 <= k < MAX_PEERS
        ensures Sessions()[k] == SetSession(old(View()), i, sessions[i].View()).sessions[k]
      {
        assert sessions[k] in Repr() && sessions[k].words in Repr();
      }
      assert Sessions() == SetSession(old(View()), i, sessions[i].View()).sessions;
    }

    method MarkRekeying(slot: Option<nat>, b: bool)
      requires Valid() && (slot.Some? ==> slot.value < MAX_PEERS)
      modifies Repr()
      ensures Valid() && View() == SetRekeying(old(View()), slot, b)
    {
      if slot.Some? {
        var s := sessions[slot.value];
        s.f := s.f.(rekeying := b);
        OneSlotChanged(slot.value);
      }
    }

    /** `session_init` on slot `i` */
    method SessionInit(i: nat, src: Addr, pub: Bytes, key: Bytes, routes: seq<Prefix>, outbound: bool, now: int)
      requires Valid() && i < MAX_PEERS
      modifies Repr()
      ensures Valid()
      ensures var s := old(View()).sessions[i];
              View() == SetSession(old(View()), i, Installed(params, s, src, pub, key, routes, outbound, now))
    {
      sessions[i].Init(params, src, pub, key, routes, outbound, now);
      OneSlotChanged(i);
    }

    /** `alloc_session` and `session_init` for configuration `c`, as at both call sites. */
    method InstallSession(c: nat, src: Addr, key: Bytes, outbound: bool, now: int)
      requires Valid() && c < configs.Length
      modifies Repr()
      ensures Valid() && View() == InstallFor(params, old(View()), c, src, key, outbound, now)
    {
      var cfg := configs[c];
      var slot := AllocSession(cfg.pub, src);
      if slot.Some? {
        SessionInit(slot.value, src, cfg.pub, key, cfg.routes, outbound, now);
      }
    }

    // ----- pending handshakes

    method ConsumePending(j: nat)
      requires Valid() && j < MAX_PEERS
      modifies pending
      ensures Valid() && View() == Consume(old(View()), j)
    {
      pending[j] := pending[j].(active := false);
      assert Sessions() == old(Sessions());
    }

    method ClearRekeyingOf(pub: Bytes)
      requires Valid()
      modifies Repr()
      ensures Valid() && View() == ClearRekeying(old(View()), pub)
    {
      var slot := FindSessionByPub(pub);
      MarkRekeying(slot, false);
    }

    /** Both loops that look for a pending handshake to `src`. */
    method FindPendingFrom(src: Addr) returns (r: Option<nat>)
      requires Valid()
      ensures Valid() && View() == old(View())
      ensures r == PendingFrom(View(), src) && (r.Some? ==> r.value < MAX_PEERS && pending[r.value].active)
    {
      r := None;
      for j := 0 to MAX_PEERS
        invariant r.None?
        invariant forall k :: 0 <= k < j ==> !(pending[k].active && pending[k].serverAddr == src)
      {
        if pending[j].active && pending[j].serverAddr == src {
          r := Some(j);
          break;
        }
      }
      FirstIndexIs(View().pending, (q: Pending) => q.active && q.serverAddr == src, r);
    }

    /** The response to pending handshake `j`. */
    method Answer(j: nat, src: Addr, recv: Recv, now: int)
      requires Valid() && j < MAX_PEERS && pending[j].active
      modifies Repr()
      ensures Valid()
      ensures View() ==
              Answered(params, old(View()), j, src, recv(old(pending[j].hs), old(configs[pending[j].cfgIdx].pub)), now)
    {
      hide InstallFor, ClearRekeying;
      var c := pending[j].cfgIdx;
      var pub := configs[c].pub;
      var key := recv(pending[j].hs, pub);
      ConsumePending(j);
      match key {
        case Some(k) => InstallSession(c, src, k, true, now);
        case None => ClearRekeyingOf(pub);
      }
    }

    method BreakTie(myPub: Bytes, src: Addr) returns (skip: bool)
      requires Valid()
      modifies Repr()
      ensures Valid() && View() == TieBroken(old(View()), myPub, src).0
      ensures skip == TieBroken(old(View()), myPub, src).1
    {
      hide PendingFrom, ClearRekeying, KeyGreater;
      var r := FindPendingFrom(src);
      match r {
        case None => return false;
        case Some(j) =>
          var pub := configs[pending[j].cfgIdx].pub;
          if KeyGreater(myPub, pub) {
            return true;
          }
          ConsumePending(j);
          ClearRekeyingOf(pub);
          return false;
      }
    }

    /** The inbound path: `reply` is the outcome of `handshake_server_respond`. */
    method InboundHandshake(src: Addr, reply: Answer, now: int)
      requires Valid()
      modifies Repr()
      ensures Valid() && View() == Inbound(params, old(View()), src, reply, now)
    {
      hide FindByAddr, FindByPub, FindConfig, InstallFor, Replay.Flatten;
      var existing := FindSessionByAddr(src);
      if existing.Some? && now - sessions[existing.value].f.lastHandshake < params.handshakeCooldown {
        return;
      }
      if reply.None? {
        return;
      }
      var (peerPub, key) := reply.value;
      var cfg := FindPeerConfig(peerPub);
      if cfg.None? {
        return;
      }
      var byPub := FindSessionByPub(peerPub);
      if byPub.Some? && now - sessions[byPub.value].f.lastHandshake < params.handshakeCooldown {
        return;
      }
      InstallSession(cfg.value, src, key, false, now);
    }

    /** The handshake branch of a worker. */
    method HandshakePacket(myPub: Bytes, src: Addr, recv: Recv, reply: Answer, now: int)
      requires Valid()
      modifies Repr()
      ensures Valid() && View() == OnHandshake(params, old(View()), myPub, src, recv, reply, now)
    {
      hide PendingFrom, TieBroken, Answered, Inbound;
      var j := FindPendingFrom(src);
      if j.Some? {
        Answer(j.value, src, recv, now);
        return;
      }
      var skip := BreakTie(myPub, src);
      if !skip {
        InboundHandshake(src, reply, now);
      }
    }

    // ----- the housekeeping pass

    /** `initiate_outbound_handshake`; `sent` is the outcome of `handshake_client_send`. */
    method InitiateOutboundHandshake(i: nat, sent: Option<HsState>, now: int) returns (ok: bool)
      requires Valid() && i < configs.Length
      modifies configs, pending
      ensures Valid() && View() == Initiated(old(View()), i, sent, now).0
      ensures ok == Initiated(old(View()), i, sent, now).1
    {
      SetConfigAt(i, configs[i].(lastAttempt := now));
      var slot := FindFreePending();
      if slot.None? || sent.None? {
        return false;
      }
      pending[slot.value] := Pending(true, i, now, configs[i].endpoint, sent.value);
      assert Sessions() == old(Sessions());
      return true;
    }

    method SetConfigAt(i: nat, c: Config)
      requires Valid() && i < configs.Length
      modifies configs
      ensures Valid() && View() == SetConfig(old(View()), i, c)
    {
      configs[i] := c;
      assert Sessions() == old(Sessions());
    }

    method FindFreePending() returns (r: Option<nat>)
      requires Valid()
      ensures Valid() && View() == old(View())
      ensures r == FreePending(View()) && (r.Some? ==> r.value < MAX_PEERS)
    {
      r := None;
      for j := 0 to MAX_PEERS
        invariant r.None?
        invariant forall k :: 0 <= k < j ==> pending[k].active
      {
        if !pending[j].active {
          r := Some(j);
          break;
        }
      }
      FirstIndexIs(View().pending, (q: Pending) => !q.active, r);
    }

    /** The body of the first loop, for configuration `i`. */
    method ConnectPeer(i: nat, env: Env, now: int)
      requires Valid() && i < configs.Length
      modifies Repr()
      ensures Valid() && View() == ConnectOne(params, old(View()), i, env, now)
    {
      hide FindByPub, FreePending, Initiated;
      var cfg := configs[i];
      if !cfg.hasEndpoint {
        return;
      }
      var slot := FindSessionByPub(cfg.pub);
      var needs := slot.None? ||
                   (&& now >= sessions[slot.value].f.lastHandshake + params.rekeyAfter * 4 / 5
                    && !sessions[slot.value].f.rekeying);
      var ready := now - cfg.lastAttempt >= params.reconnectInterval;
      if needs && ready {
        SetConfigAt(i, Resolved(cfg, env.resolve(i)));
        MarkRekeying(slot, true);
        var ok := InitiateOutboundHandshake(i, env.send(i), now);
        if !ok {
          MarkRekeying(slot, false);
        }
      }
    }

    method ConnectPeers(env: Env, now: int)
      requires Valid()
      modifies Repr()
      ensures Valid() && View() == Connect(params, old(View()), configs.Length, env, now)
    {
      hide ConnectOne;
      for i := 0 to configs.Length
        invariant Valid() && View() == Connect(params, old(View()), i, env, now)
      {
        ConnectPeer(i, env, now);
      }
    }

    method TimeOutEntry(j: nat, now: int)
      requires Valid() && j < MAX_PEERS
      modifies Repr()
      ensures Valid() && View() == TimeOutOne(params, old(View()), j, now)
    {
      hide ClearRekeying;
      if !pending[j].active || now - pending[j].sentAt < params.handshakeTimeout {
        return;
      }
      var pub := configs[pending[j].cfgIdx].pub;
      ConsumePending(j);
      ClearRekeyingOf(pub);
    }

    method TimeOutPending(now: int)
      requires Valid()
      modifies Repr()
      ensures Valid() && View() == TimeOut(params, old(View()), MAX_PEERS, now)
    {
      hide TimeOutOne;
      for j := 0 to MAX_PEERS
        invariant Valid() && View() == TimeOut(params, old(View()), j, now)
      {
        TimeOutEntry(j, now);
      }
    }

    method ExpireSlot(j: nat, now: int)
      requires Valid() && j < MAX_PEERS
      modifies Repr()
      ensures Valid() && slots == old(slots)
      ensures View() == SetSession(old(View()), j, ExpireSession(params, old(View()).sessions[j], now))
    {
      var s := sessions[j];
      if s.f.active {
        var since := if s.f.lastSeen > 0 then s.f.lastSeen else s.f.lastHandshake;
        if now - since > params.sessionExpiry {
          s.f := s.f.(active := false);
        }
      }
      OneSlotChanged(j);
    }

    method ExpireSessions(now: int)
      requires Valid()
      modifies Repr()
      ensures Valid() && View() == Expire(params, old(View()), old(slots), now)
    {
      hide ExpireSession;
      for j := 0 to slots
        invariant Valid() && slots == old(slots) && View() == Expire(params, old(View()), j, now)
      {
        ExpireSlot(j, now);
      }
    }

    method KeepSlotAlive(aead: Aead, j: nat, env: Env, plainBuf: array<byte>, wireBuf: array<byte>, now: int)
      requires Valid() && j < MAX_PEERS && Buffers(plainBuf, wireBuf)
      modifies Repr(), plainBuf, wireBuf
      ensures Valid() && slots == old(slots)
      ensures var sent := env.iv(j).Some? && env.sendOk(j);
              View() == SetSession(old(View()), j, KeepSessionAlive(params, old(View()).sessions[j], sent, now))
    {
      var s := sessions[j];
      if s.f.active && now - s.f.lastSent >= params.keepaliveInterval {
        var _ := s.ForwardToPeer(aead, env.iv(j), plainBuf, plainBuf, HEADER_SIZE + SEQ_SIZE, 0, wireBuf,
                                 env.sendOk(j), now);
      }
      OneSlotChanged(j);
    }

    method SendKeepalives(aead: Aead, env: Env, plainBuf: array<byte>, wireBuf: array<byte>, now: int)
      requires Valid() && Buffers(plainBuf, wireBuf)
      modifies Repr(), plainBuf, wireBuf
      ensures Valid() && View() == Keepalive(params, old(View()), old(slots), env, now)
    {
      hide KeepSessionAlive;
      for j := 0 to slots
        invariant Valid() && slots == old(slots) && View() == Keepalive(params, old(View()), j, env, now)
      {
        KeepSlotAlive(aead, j, env, plainBuf, wireBuf, now);
      }
    }

    /** One housekeeping pass. */
    method HousekeepingPass(aead: Aead, env: Env, plainBuf: array<byte>, wireBuf: array<byte>, now: int)
      requires Valid() && Buffers(plainBuf, wireBuf)
      modifies Repr(), plainBuf, wireBuf
      ensures Valid() && View() == Housekeeping(params, old(View()), env, now)
    {
      hide Connect, TimeOut, Expire, Keepalive;
      ConnectPeers(env, now);
      TimeOutPending(now);
      ExpireSessions(now);
      SendKeepalives(aead, env, plainBuf, wireBuf, now);
    }

    // ----- packets

    /** The two buffers of a thread, apart from each other and from the tables. */
    ghost predicate Buffers(plainBuf: array<byte>, wireBuf: array<byte>) {
      && plainBuf.Length == PLAIN_BUFFER && wireBuf.Length == WIRE_BUFFER && plainBuf != wireBuf
      && plainBuf !in Repr() && wireBuf !in Repr()
    }

    method ForwardSlot(aead: Aead, i: nat, iv: Option<Iv>, plainBuf: array<byte>, payload: array<byte>, off: nat,
                       len: nat,
                       wireBuf: array<byte>, sendOk: bool, now: int)
      returns (out: Option<(nat, Addr)>)
      requires Valid() && i < MAX_PEERS && Buffers(plainBuf, wireBuf)
      requires payload != wireBuf && off + len <= payload.Length && len <= BUFFER_SIZE
      requires payload == plainBuf ==> off == HEADER_SIZE + SEQ_SIZE
      modifies Repr(), plainBuf, wireBuf
      ensures Valid()
      ensures View() == SetSession(old(View()), i, Forwarded(old(View()).sessions[i], iv.Some? && sendOk, now))
      ensures out == if iv.Some? then Some((len + WIRE_OVERHEAD, old(View()).sessions[i].addr)) else None
      ensures iv.Some? ==>
                wireBuf[..len + WIRE_OVERHEAD] ==
                  Datagram(aead, old(View()).sessions[i], iv.value, old(payload[off..off + len]))
    {
      out := sessions[i].ForwardToPeer(aead, iv, plainBuf, payload, off, len, wireBuf, sendOk, now);
      OneSlotChanged(i);
    }

    method ReceiveSlot(aead: Aead, i: nat, wireBuf: array<byte>, nr: nat, plainBuf: array<byte>, now: int)
      returns (v: Verdict)
      requires Valid() && i < MAX_PEERS && Buffers(plainBuf, wireBuf) && nr <= WIRE_BUFFER
      modifies Repr(), plainBuf
      ensures Valid() && slots == old(slots)
      ensures View() == SetSession(old(View()), i, Received(aead, old(View()).sessions[i], old(wireBuf[..nr]), now).0)
      ensures v == Received(aead, old(View()).sessions[i], old(wireBuf[..nr]), now).1
      ensures v.Passed? ==> |v.payload| <= BUFFER_SIZE && plainBuf[16..16 + |v.payload|] == v.payload
    {
      v := sessions[i].Receive(aead, wireBuf, nr, plainBuf, now);
      OneSlotChanged(i);
    }

    /** The checks and the routing decision for a payload that passed in slot `i`. */
    method Decide(i: nat, payload: Bytes) returns (o: Outcome)
      requires Valid() && i < slots
      ensures Valid() && View() == old(View()) && o == Dispatch(View(), i, payload)
      ensures o.Relayed? ==> o.slot < slots && o.slot != i && o.payload == payload
    {
      hide RouteTable, Route;
      if |payload| == 0 {
        return Dropped;
      }
      if |sessions[i].f.routes| > 0 && IsIpv4(payload) {
        var ok := CheckAllowedSrc(sessions[i].f.routes, IpAt(payload, 12));
        if !ok {
          return Dropped;
        }
      }
      if IsIpv4(payload) {
        var fwd := RouteLookup(IpAt(payload, 16));
        if fwd.Some? && fwd.value != i {
          return Relayed(fwd.value, payload);
        }
      }
      return ToTun(payload);
    }

    /** The data branch of a worker. `out` is the datagram of a relayed packet, left in `wireBuf`. */
    method DataPacket(aead: Aead, src: Addr, wireBuf: array<byte>, nr: nat, plainBuf: array<byte>, iv: Option<Iv>,
                      sendOk: bool, now: int)
      returns (o: Outcome, out: Option<(nat, Addr)>)
      requires Valid() && Buffers(plainBuf, wireBuf) && nr <= WIRE_BUFFER
      modifies Repr(), plainBuf, wireBuf
      ensures Valid() && (o.Relayed? ==> o.slot < MAX_PEERS)
      ensures (View(), o) == OnData(old(View()), aead, src, old(wireBuf[..nr]), iv.Some? && sendOk, now)
      ensures out.Some? <==> o.Relayed? && iv.Some?
      ensures out.Some? ==>
                var s := old(View()).sessions[o.slot];
                out.value == (|o.payload| + WIRE_OVERHEAD, s.addr) && |o.payload| <= BUFFER_SIZE &&
                wireBuf[..|o.payload| + WIRE_OVERHEAD] == Datagram(aead, s, iv.value, o.payload)
    {
      hide FindByAddr, Received, Dispatch, Forwarded, Datagram;
      out := None;
      var slot := FindSessionByAddr(src);
      if slot.None? {
        return Dropped, None;
      }
      var i := slot.value;
      var v := ReceiveSlot(aead, i, wireBuf, nr, plainBuf, now);
      if !v.Passed? {
        return Dropped, None;
      }
      o := Decide(i, v.payload);
      if o.Relayed? {
        out := ForwardSlot(aead, o.slot, iv, plainBuf, plainBuf, HEADER_SIZE + SEQ_SIZE, |v.payload|,
                           wireBuf, sendOk, now);
      }
    }

    /** A packet of `nr` bytes read from the tunnel interface. */
    method TunPacket(aead: Aead, buffer: array<byte>, nr: nat, iv: Option<Iv>, plainBuf: array<byte>,
                     wireBuf: array<byte>, sendOk: bool, now: int)
      returns (out: Option<(nat, Addr)>)
      requires Valid() && Buffers(plainBuf, wireBuf)
      requires buffer.Length == BUFFER_SIZE && nr <= BUFFER_SIZE && buffer != plainBuf && buffer != wireBuf
      modifies Repr(), plainBuf, wireBuf
      ensures Valid() && View() == OnTun(old(View()), old(buffer[..nr]), iv.Some? && sendOk, now)
      ensures out.Some? <==> iv.Some? && TunRoute(old(View()), old(buffer[..nr])).Some?
      ensures out.Some? ==>
                var s := old(View()).sessions[TunRoute(old(View()), old(buffer[..nr])).value];
                out.value == (nr + WIRE_OVERHEAD, s.addr) &&
                wireBuf[..nr + WIRE_OVERHEAD] == Datagram(aead, s, iv.value, old(buffer[..nr]))
    {
      hide RouteTable, Route, Forwarded, Datagram, IpAt;
      out := None;
      var packet := buffer[..nr];
      if IsIpv4(packet) {
        var slot := RouteLookup(IpAt(packet, 16));
        if slot.Some? {
          out := ForwardSlot(aead, slot.value, iv, plainBuf, buffer, 0, nr, wireBuf, sendOk, now);
        }
      }
    }
  }

  /** The inner loop of `route_lookup`: whether some prefix of one session is longer than `bound`, and
      the greatest such length. */
  method Scan(routes: seq<Prefix>, ip: Ip, bound: int) returns (found: bool, len: int)
    requires bound >= -1
    ensures found == (Longest(routes, ip) > bound)
    ensures len == if found then Longest(routes, ip) else bound
  {
    found, len := false, bound;
    for j := 0 to |routes|
      invariant found == (Longest(routes[..j], ip) > bound)
      invariant len == if found then Longest(routes[..j], ip) else bound
    {
      assert routes[..j + 1][..j] == routes[..j];
      if Covers(routes[j], ip) && routes[j].len > len {
        len := routes[j].len;
        found := true;
      }
    }
    assert routes[..|routes|] == routes;
  }

  /** `check_allowed_src` */
  method CheckAllowedSrc(routes: seq<Prefix>, ip: Ip) returns (ok: bool)
    ensures ok == AllowedSrc(routes, ip)
  {
    if |routes| == 0 {
      return true;
    }
    for i := 0 to |routes|
      invariant forall k :: 0 <= k < i ==> !Covers(routes[k], ip)
    {
      if Covers(routes[i], ip) {
        return true;
      }
    }
    return false;
  }
}
