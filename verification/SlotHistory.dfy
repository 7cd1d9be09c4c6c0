/** The history of one session slot over a run: which keys it was given, and which of them still open
    data packets. */
module SlotHistory {
  import opened Options
  import opened Wire
  import opened Routing
  import opened Sessions
  import opened Tables
  import opened Runs

  // ----- what each critical section does to one slot

  /** A session installed by a handshake packet: its slot, identity and key. */
  datatype Install = Install(slot: nat, src: Addr, cfg: Config, key: Bytes, outbound: bool)

  /** The session the packet installs, if any. */
  function Installs(n: Node, t: State, e: Event): (r: Option<Install>)
    requires Shape(t)
    ensures r.Some? ==> r.value.slot < MAX_PEERS
  {
    if !e.act.Handshake? then None
    else
      match PendingFrom(t, e.act.src)
      case Some(j) =>
        var cfg := t.configs[t.pending[j].cfgIdx];
        var key := e.act.recv(t.pending[j].hs, cfg.pub);
        var slot := Alloc(Consume(t, j), cfg.pub, e.act.src).1;
        if key.Some? && slot.Some? then Some(Install(slot.value, e.act.src, cfg, key.value, true)) else None
      case None =>
        var c := InboundFor(n.p, t, e.act.src, e.act.reply, e.at);
        if c.None? then None
        else
          var cfg := t.configs[c.value];
          var slot := Alloc(t, cfg.pub, e.act.src).1;
          if slot.Some? then Some(Install(slot.value, e.act.src, cfg, e.act.reply.value.1, false)) else None
  }

  function InstalledAs(p: Params, s: Session, x: Install, now: int): Session {
    Installed(p, s, x.src, x.cfg.pub, x.key, x.cfg.routes, x.outbound, now)
  }

  /** A handshake packet installs into one slot or none, and otherwise at most clears `rekeying`. */
  lemma HandshakeSlot(n: Node, t: State, e: Event, i: nat)
    requires Shape(t) && e.act.Handshake? && i < MAX_PEERS
    ensures var s, r, x := t.sessions[i], Step(n, t, e).sessions[i], Installs(n, t, e);
            if x.Some? && x.value.slot == i then r == InstalledAs(n.p, s, x.value, e.at)
            else r == s.(rekeying := r.rekeying)
  {
    hide FindByPub, FindByAddr, FreeSession, FindConfig;
    TieBreakIsDead(n.p, t, n.myPub, e.act.src, e.act.recv, e.act.reply, e.at);
  }

  /** What a pass may do to a session. */
  ghost predicate PassedOver(p: Params, s: Session, r: Session, now: int) {
    && r == s.(active := r.active, rekeying := r.rekeying, sendSeq := r.sendSeq, lastSent := r.lastSent)
    && (r.active ==> s.active)
    && (s.active && !r.active ==> now - SilentSince(s) > p.sessionExpiry)
  }

  ghost predicate OnlyRekeying(t: State, r: State)
    requires Shape(t) && Shape(r)
  {
    && r.slots == t.slots
    && forall i :: 0 <= i < MAX_PEERS ==> r.sessions[i] == t.sessions[i].(rekeying := r.sessions[i].rekeying)
  }

  lemma ConnectOneSlots(p: Params, t: State, i: nat, env: Env, now: int, r: State)
    requires Shape(t) && i < |t.configs| && r == ConnectOne(p, t, i, env, now)
    ensures OnlyRekeying(t, r)
  {
    hide FindByPub, FreePending;
  }

  lemma {:induction false} ConnectSlots(p: Params, t: State, n: nat, env: Env, now: int)
    requires Shape(t) && n <= |t.configs|
    ensures OnlyRekeying(t, Connect(p, t, n, env, now))
  {
    hide ConnectOne;
    if n > 0 {
      ConnectSlots(p, t, n - 1, env, now);
      ConnectOneSlots(p, Connect(p, t, n - 1, env, now), n - 1, env, now, Connect(p, t, n, env, now));
    }
  }

  lemma {:induction false} TimeOutSlots(p: Params, t: State, n: nat, now: int)
    requires Shape(t) && n <= MAX_PEERS
    ensures OnlyRekeying(t, TimeOut(p, t, n, now))
  {
    hide FindByPub;
    if n > 0 {
      TimeOutSlots(p, t, n - 1, now);
    }
  }

  lemma {:induction false} ExpireSlots(p: Params, t: State, n: nat, now: int, i: nat)
    requires Shape(t) && n <= t.slots && i < MAX_PEERS
    ensures Expire(p, t, n, now).sessions[i] == if i < n then ExpireSession(p, t.sessions[i], now) else t.sessions[i]
  {
    hide ExpireSession;
    if n > 0 {
      ExpireSlots(p, t, n - 1, now, i);
    }
  }

  lemma {:induction false} KeepaliveSlots(p: Params, t: State, n: nat, env: Env, now: int, i: nat)
    requires Shape(t) && n <= t.slots && i < MAX_PEERS
    ensures Keepalive(p, t, n, env, now).sessions[i] ==
            if i < n then KeepSessionAlive(p, t.sessions[i], env.iv(i).Some? && env.sendOk(i), now) else t.sessions[i]
  {
    hide KeepSessionAlive;
    if n > 0 {
      KeepaliveSlots(p, t, n - 1, env, now, i);
    }
  }

  lemma PassSlot(p: Params, t: State, env: Env, now: int, i: nat)
    requires Shape(t) && i < MAX_PEERS
    ensures PassedOver(p, t.sessions[i], Housekeeping(p, t, env, now).sessions[i], now)
  {
    hide Connect, TimeOut, Expire, Keepalive;
    var t1 := Connect(p, t, |t.configs|, env, now);
    ConnectSlots(p, t, |t.configs|, env, now);
    var t2 := TimeOut(p, t1, MAX_PEERS, now);
    TimeOutSlots(p, t1, MAX_PEERS, now);
    var t3 := Expire(p, t2, t2.slots, now);
    ExpireSlots(p, t2, t2.slots, now, i);
    KeepaliveSlots(p, t3, t3.slots, env, now, i);
  }

  /** The slot whose session handles a data packet. */
  function Receiver(t: State, e: Event): Option<nat>
    requires Shape(t)
  {
    if e.act.Data? then FindByAddr(t, e.act.src) else None
  }

  /** What a data packet is told, if a session takes it. */
  function VerdictOn(n: Node, t: State, e: Event): Option<Verdict>
    requires Shape(t)
  {
    match Receiver(t, e)
    case None => None
    case Some(i) => Some(Received(n.aead, t.sessions[i], e.act.wire, e.at).1)
  }

  /** A packet is received by one slot, and at most sends from another. */
  lemma PacketSlot(n: Node, t: State, e: Event, i: nat)
    requires Shape(t) && (e.act.Data? || e.act.Tun?) && i < MAX_PEERS
    ensures var s, r := t.sessions[i], Step(n, t, e).sessions[i];
            if Receiver(t, e) == Some(i) then r == Received(n.aead, s, e.act.wire, e.at).0
            else r == s.(sendSeq := r.sendSeq, lastSent := r.lastSent)
  {
    hide FindByAddr, Received, Dispatch, Route;
  }

  /** When a slot last saw a packet: 0 after an install, the time of every packet it takes. */
  lemma StepSeen(n: Node, t: State, e: Event, i: nat)
    requires Shape(t) && i < MAX_PEERS
    ensures var s, r, x := t.sessions[i], Step(n, t, e).sessions[i], Installs(n, t, e);
            r.lastSeen ==
            if x.Some? && x.value.slot == i then 0 else if Receiver(t, e) == Some(i) then e.at else s.lastSeen
  {
    hide Step, Opened, Judged, Housekeeping, FindByAddr, Shape;
    match e.act {
      case Handshake(src, recv, reply) => HandshakeSlot(n, t, e, i);
      case Pass(env) => PassSlot(n.p, t, env, e.at, i); PassStep(n, t, e);
      case Data(src, wire, sent) => PacketSlot(n, t, e, i);
      case Tun(packet, sent) => PacketSlot(n, t, e, i);
    }
  }

  // ----- the keys of a slot

  /** The keys a slot was given, whether it was active when given the last one, whether a packet has
      authenticated under the last one since, and when that one was installed. */
  datatype Log = Log(keys: seq<Bytes>, continued: bool, confirmed: bool, since: int) {
    function Latest(): Bytes
      requires keys != []
    {
      keys[|keys| - 1]
    }
  }

  function Logged(n: Node, t: State, e: Event, i: nat, l: Log): Log
    requires Shape(t) && i < MAX_PEERS
  {
    var x := Installs(n, t, e);
    if x.Some? && x.value.slot == i then Log(l.keys + [x.value.key], t.sessions[i].active, false, e.at)
    else if Receiver(t, e) == Some(i) && l.keys != [] && Decrypted(n.aead, l.Latest(), e.act.wire).Some? then
      l.(confirmed := true)
    else l
  }

  function LogOf(n: Node, start: State, es: seq<Event>, i: nat): Log
    requires Shape(start) && i < MAX_PEERS
  {
    if es == [] then Log([], false, false, 0)
    else
      var earlier := es[..|es| - 1];
      Logged(n, Run(n, start, earlier), es[|es| - 1], i, LogOf(n, start, earlier, i))
  }

  /** A session against the history of its slot. */
  ghost predicate Tracks(p: Params, s: Session, l: Log) {
    s.active ==>
      && l.keys != [] && s.key == l.Latest()
      && (l.continued ==> |l.keys| >= 2)
      && (s.prevActive <==> l.continued && !l.confirmed)
      && (s.prevActive ==> s.prevKey == l.keys[|l.keys| - 2] && s.prevExpires == l.since + p.prevKeyGrace)
  }

  lemma ReceivedTracks(n: Node, s: Session, wire: Bytes, now: int, l: Log)
    requires s.window.Valid() && Tracks(n.p, s, l) && s.active
    ensures var confirmed := Decrypted(n.aead, l.Latest(), wire).Some?;
            Tracks(n.p, Received(n.aead, s, wire, now).0, if confirmed then l.(confirmed := true) else l)
  {}

  lemma StepTracks(n: Node, t: State, e: Event, i: nat, l: Log)
    requires Shape(t) && i < MAX_PEERS && Tracks(n.p, t.sessions[i], l)
    ensures Tracks(n.p, Step(n, t, e).sessions[i], Logged(n, t, e, i, l))
  {
    hide Step, Received, Housekeeping, Decrypted;
    match e.act {
      case Handshake(src, recv, reply) => HandshakeSlot(n, t, e, i);
      case Pass(env) => PassSlot(n.p, t, env, e.at, i); PassStep(n, t, e);
      case Data(src, wire, sent) =>
        PacketSlot(n, t, e, i);
        if Receiver(t, e) == Some(i) {
          ReceivedTracks(n, t.sessions[i], wire, e.at, l);
        }
      case Tun(packet, sent) => PacketSlot(n, t, e, i);
    }
  }

  lemma PassStep(n: Node, t: State, e: Event)
    requires Shape(t) && e.act.Pass?
    ensures Step(n, t, e) == Housekeeping(n.p, t, e.act.env, e.at)
  {}

  lemma {:induction false} RunTracks(n: Node, start: State, es: seq<Event>, i: nat)
    requires Shape(start) && Initial(start) && i < MAX_PEERS
    ensures Tracks(n.p, Run(n, start, es).sessions[i], LogOf(n, start, es, i))
  {
    hide Step, Logged, Tracks, Shape;
    if es == [] {
      InitialTracks(n, start, i);
    } else {
      RunTracks(n, start, es[..|es| - 1], i);
      StepTracks(n, Run(n, start, es[..|es| - 1]), es[|es| - 1], i, LogOf(n, start, es[..|es| - 1], i));
    }
  }

  lemma InitialTracks(n: Node, start: State, i: nat)
    requires Initial(start) && i < MAX_PEERS
    ensures Tracks(n.p, start.sessions[i], Log([], false, false, 0))
  {}

  /** The reference: which key of its history opens a packet in a slot. */
  function OpenedByHistory(n: Node, l: Log, wire: Bytes, now: int): Option<(KeyUsed, Bytes)>
    requires l.keys != []
  {
    var current := Decrypted(n.aead, l.Latest(), wire);
    if current.Some? then Some((Current, current.value))
    else if |l.keys| >= 2 && l.continued && !l.confirmed && now <= l.since + n.p.prevKeyGrace then
      var previous := Decrypted(n.aead, l.keys[|l.keys| - 2], wire);
      if previous.Some? then Some((Previous, previous.value)) else None
    else None
  }

  /** In every reachable state an active slot opens data only under its latest key, or under the one
      just before it; the latter exactly when the slot stayed active across the rekey, no packet has yet
      authenticated under the latest key, and the grace time has not passed. */
  lemma OnlyLatestTwoKeys(n: Node, start: State, es: seq<Event>, i: nat, wire: Bytes, now: int)
    requires Initial(start) && i < MAX_PEERS
    ensures Run(n, start, es).sessions[i].active ==>
              && LogOf(n, start, es, i).keys != []
              && Opened(n.aead, Run(n, start, es).sessions[i], wire, now) ==
                OpenedByHistory(n, LogOf(n, start, es, i), wire, now)
  {
    hide Run, LogOf, Decrypted;
    RunTracks(n, start, es, i);
  }
}
