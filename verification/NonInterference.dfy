/** Packets under a previous key do not interfere with the current session: deleting them from a run
    leaves the replay windows and every other verdict as they were. The one channel to these is the
    `last_seen` stamp, which only session expiry reads; when an expiry turns on it, the claim fails. Send
    counters and `last_sent` are outside the claim: a previous-key packet that is relayed advances both in
    the slot it leaves from, and so moves later keepalives. */
module NonInterference {
  import opened Options
  import opened Wire
  import opened Routing
  import opened Sessions
  import opened Tables
  import opened Passes
  import opened Runs
  import opened SlotHistory

  /** Equal but for the stamps of traffic and the send counter. */
  ghost predicate Alike(s: Session, r: Session) {
    r == s.(lastSeen := r.lastSeen, lastSent := r.lastSent, sendSeq := r.sendSeq)
  }

  ghost predicate AlikeStates(t: State, u: State) {
    && Shape(t) && Shape(u)
    && u.configs == t.configs && u.slots == t.slots && u.pending == t.pending
    && forall i :: 0 <= i < MAX_PEERS ==> Alike(t.sessions[i], u.sessions[i])
  }

  /** Alike sessions give every packet the same verdict and end in the same window. */
  lemma AlikeReceive(aead: Aead, s: Session, r: Session, wire: Bytes, now: int)
    requires s.window.Valid() && Alike(s, r)
    ensures r.window == s.window
    ensures Received(aead, r, wire, now).1 == Received(aead, s, wire, now).1
    ensures Alike(Received(aead, s, wire, now).0, Received(aead, r, wire, now).0)
  {}

  /** A previous-key packet touches nothing but `last_seen`. */
  lemma PreviousReceive(aead: Aead, s: Session, wire: Bytes, now: int)
    requires s.window.Valid() && Opened(aead, s, wire, now).Some? && Opened(aead, s, wire, now).value.0 == Previous
    ensures Received(aead, s, wire, now).0 == s.(lastSeen := now)
  {}

  // ----- lookups agree

  lemma AlikeLookups(t: State, u: State)
    requires AlikeStates(t, u)
    ensures forall pub :: FindByPub(u, pub) == FindByPub(t, pub)
    ensures forall addr :: FindByAddr(u, addr) == FindByAddr(t, addr)
    ensures FreeSession(u) == FreeSession(t)
  {
    hide FirstIndex;
    var us := u.sessions[..u.slots];
    forall pub
      ensures FindByPub(u, pub) == FindByPub(t, pub)
    {
      FirstIndexIs(us, (s: Session) => s.active && s.pub == pub, FindByPub(t, pub));
    }
    forall addr
      ensures FindByAddr(u, addr) == FindByAddr(t, addr)
    {
      FirstIndexIs(us, (s: Session) => s.active && s.addr == addr, FindByAddr(t, addr));
    }
    FirstIndexIs(us, (s: Session) => !s.active, FreeSession(t));
  }

  lemma AlikeRoutes(t: State, u: State)
    requires AlikeStates(t, u)
    ensures RouteTable(u) == RouteTable(t)
  {}

  lemma AlikeSet(t: State, u: State, i: nat, s: Session, r: Session)
    requires AlikeStates(t, u) && i < MAX_PEERS && Alike(s, r) && s.window.Valid()
    ensures AlikeStates(SetSession(t, i, s), SetSession(u, i, r))
  {}

  // ----- each critical section keeps states alike

  lemma AlikeInstall(p: Params, t: State, u: State, c: nat, src: Addr, key: Bytes, outbound: bool, now: int)
    requires AlikeStates(t, u) && c < |t.configs|
    ensures AlikeStates(InstallFor(p, t, c, src, key, outbound, now), InstallFor(p, u, c, src, key, outbound, now))
  {
    hide FindByPub, FindByAddr, FreeSession;
    AlikeLookups(t, u);
  }

  lemma AlikeRekeying(t: State, u: State, slot: Option<nat>, b: bool)
    requires AlikeStates(t, u) && (slot.Some? ==> slot.value < MAX_PEERS)
    ensures AlikeStates(SetRekeying(t, slot, b), SetRekeying(u, slot, b))
  {}

  lemma AlikeClear(t: State, u: State, pub: Bytes)
    requires AlikeStates(t, u)
    ensures AlikeStates(ClearRekeying(t, pub), ClearRekeying(u, pub))
  {
    hide FindByPub;
    AlikeLookups(t, u);
    AlikeRekeying(t, u, FindByPub(t, pub), false);
  }

  lemma AlikeInbound(p: Params, t: State, u: State, src: Addr, reply: Answer, now: int)
    requires AlikeStates(t, u)
    ensures AlikeStates(Inbound(p, t, src, reply, now), Inbound(p, u, src, reply, now))
  {
    hide FindByPub, FindByAddr, InstallFor;
    AlikeLookups(t, u);
    assert InboundFor(p, u, src, reply, now) == InboundFor(p, t, src, reply, now);
    match InboundFor(p, t, src, reply, now) {
      case None =>
      case Some(c) => AlikeInstall(p, t, u, c, src, reply.value.1, false, now);
    }
  }

  lemma AlikeHandshake(p: Params, t: State, u: State, myPub: Bytes, src: Addr, recv: Recv, reply: Answer, now: int)
    requires AlikeStates(t, u)
    ensures AlikeStates(OnHandshake(p, t, myPub, src, recv, reply, now),
                        OnHandshake(p, u, myPub, src, recv, reply, now))
  {
    hide OnHandshake, Inbound, InstallFor, ClearRekeying;
    TieBreakIsDead(p, t, myPub, src, recv, reply, now);
    TieBreakIsDead(p, u, myPub, src, recv, reply, now);
    match PendingFrom(t, src) {
      case None => AlikeInbound(p, t, u, src, reply, now);
      case Some(j) =>
        ResponseBranch(p, t, myPub, src, recv, reply, now, j);
        ResponseBranch(p, u, myPub, src, recv, reply, now, j);
        var c := t.pending[j].cfgIdx;
        match recv(t.pending[j].hs, t.configs[c].pub) {
          case Some(k) => AlikeInstall(p, Consume(t, j), Consume(u, j), c, src, k, true, now);
          case None => AlikeClear(Consume(t, j), Consume(u, j), t.configs[c].pub);
        }
    }
  }

  lemma AlikeInitiated(t: State, u: State, i: nat, sent: Option<HsState>, now: int)
    requires AlikeStates(t, u) && i < |t.configs|
    ensures AlikeStates(Initiated(t, i, sent, now).0, Initiated(u, i, sent, now).0)
    ensures Initiated(t, i, sent, now).1 == Initiated(u, i, sent, now).1
  {}

  lemma AlikeDue(p: Params, t: State, u: State, i: nat, now: int)
    requires AlikeStates(t, u) && i < |t.configs|
    ensures Due(p, t, i, now) == Due(p, u, i, now)
  {}

  lemma AlikeConnectOne(p: Params, t: State, u: State, i: nat, env: Env, now: int, t': State, u': State)
    requires AlikeStates(t, u) && i < |t.configs|
    requires t' == ConnectOne(p, t, i, env, now) && u' == ConnectOne(p, u, i, env, now)
    ensures AlikeStates(t', u')
  {
    hide FindByPub, Due, Initiated, Resolved;
    AlikeLookups(t, u);
    AlikeDue(p, t, u, i, now);
    if Due(p, t, i, now) {
      var slot := FindByPub(t, t.configs[i].pub);
      var c := Resolved(t.configs[i], env.resolve(i));
      var t1, u1 := SetConfig(t, i, c), SetConfig(u, i, c);
      AlikeRekeying(t1, u1, slot, true);
      var t2, u2 := SetRekeying(t1, slot, true), SetRekeying(u1, slot, true);
      AlikeInitiated(t2, u2, i, env.send(i), now);
      AlikeRekeying(Initiated(t2, i, env.send(i), now).0, Initiated(u2, i, env.send(i), now).0, slot, false);
    }
  }

  lemma {:induction false} AlikeConnect(p: Params, t: State, u: State, n: nat, env: Env, now: int)
    requires Shape(t) && Shape(u) && AlikeStates(t, u) && n <= |t.configs| == |u.configs|
    ensures AlikeStates(Connect(p, t, n, env, now), Connect(p, u, n, env, now))
  {
    hide ConnectOne, AlikeStates, Shape;
    if n > 0 {
      AlikeConnect(p, t, u, n - 1, env, now);
      AlikeConnectOne(p, Connect(p, t, n - 1, env, now), Connect(p, u, n - 1, env, now), n - 1, env, now,
                      Connect(p, t, n, env, now), Connect(p, u, n, env, now));
    }
  }

  lemma {:induction false} AlikeTimeOut(p: Params, t: State, u: State, n: nat, now: int)
    requires AlikeStates(t, u) && n <= MAX_PEERS
    ensures AlikeStates(TimeOut(p, t, n, now), TimeOut(p, u, n, now))
  {
    hide ClearRekeying;
    if n > 0 {
      AlikeTimeOut(p, t, u, n - 1, now);
      var t', u' := TimeOut(p, t, n - 1, now), TimeOut(p, u, n - 1, now);
      if t'.pending[n - 1].active {
        AlikeClear(Consume(t', n - 1), Consume(u', n - 1), t'.configs[t'.pending[n - 1].cfgIdx].pub);
      }
    }
  }

  // ----- expiry

  /** The guard of session expiry. */
  predicate Expires(p: Params, s: Session, now: int) {
    s.active && now - SilentSince(s) > p.sessionExpiry
  }

  /** A pass at `now` would expire the same slots in both states. */
  ghost predicate ExpiryAgrees(p: Params, t: State, u: State, now: int)
    requires Shape(t) && Shape(u)
  {
    forall i :: 0 <= i < MAX_PEERS && i < t.slots ==> Expires(p, t.sessions[i], now) == Expires(p, u.sessions[i], now)
  }

  lemma OnlyRekeyingExpires(p: Params, t: State, r: State, now: int)
    requires Shape(t) && Shape(r) && OnlyRekeying(t, r)
    ensures forall i :: 0 <= i < MAX_PEERS ==> Expires(p, r.sessions[i], now) == Expires(p, t.sessions[i], now)
  {}

  /** The session in slot `i` after a pass, up to stamps and `rekeying`. */
  lemma PassExpires(p: Params, t: State, env: Env, now: int, i: nat)
    requires Shape(t) && i < MAX_PEERS
    ensures var r := Housekeeping(p, t, env, now);
            && r.slots == t.slots
            && r.sessions[i].active == (t.sessions[i].active && !(i < t.slots && Expires(p, t.sessions[i], now)))
  {
    hide Connect, TimeOut, Expire, Keepalive;
    var t1 := Connect(p, t, |t.configs|, env, now);
    ConnectSlots(p, t, |t.configs|, env, now);
    var t2 := TimeOut(p, t1, MAX_PEERS, now);
    TimeOutSlots(p, t1, MAX_PEERS, now);
    ExpireSlots(p, t2, t2.slots, now, i);
    var t3 := Expire(p, t2, t2.slots, now);
    KeepaliveSlots(p, t3, t3.slots, env, now, i);
  }

  lemma AlikePass(p: Params, t: State, u: State, env: Env, now: int)
    requires AlikeStates(t, u) && ExpiryAgrees(p, t, u, now)
    ensures AlikeStates(Housekeeping(p, t, env, now), Housekeeping(p, u, env, now))
  {
    hide Connect, TimeOut, Expire, Keepalive;
    var t1, u1 := Connect(p, t, |t.configs|, env, now), Connect(p, u, |u.configs|, env, now);
    AlikeConnect(p, t, u, |t.configs|, env, now);
    ConnectSlots(p, t, |t.configs|, env, now);
    ConnectSlots(p, u, |u.configs|, env, now);
    var t2, u2 := TimeOut(p, t1, MAX_PEERS, now), TimeOut(p, u1, MAX_PEERS, now);
    AlikeTimeOut(p, t1, u1, MAX_PEERS, now);
    TimeOutSlots(p, t1, MAX_PEERS, now);
    TimeOutSlots(p, u1, MAX_PEERS, now);
    OnlyRekeyingExpires(p, t, t1, now);
    OnlyRekeyingExpires(p, t1, t2, now);
    OnlyRekeyingExpires(p, u, u1, now);
    OnlyRekeyingExpires(p, u1, u2, now);
    AlikeLastLoops(p, t2, u2, env, now);
  }

  lemma AlikeExpire(p: Params, s: Session, r: Session, now: int)
    requires Alike(s, r) && Expires(p, s, now) == Expires(p, r, now)
    ensures Alike(ExpireSession(p, s, now), ExpireSession(p, r, now))
  {}

  lemma AlikeKeepalive(p: Params, s: Session, r: Session, sent: bool, now: int)
    requires Alike(s, r)
    ensures Alike(KeepSessionAlive(p, s, sent, now), KeepSessionAlive(p, r, sent, now))
  {}

  lemma AlikeLastLoops(p: Params, t: State, u: State, env: Env, now: int)
    requires AlikeStates(t, u) && ExpiryAgrees(p, t, u, now)
    ensures var t1, u1 := Expire(p, t, t.slots, now), Expire(p, u, u.slots, now);
            AlikeStates(Keepalive(p, t1, t1.slots, env, now), Keepalive(p, u1, u1.slots, env, now))
  {
    hide Expire, Keepalive, ExpireSession, KeepSessionAlive, Expires;
    var t1, u1 := Expire(p, t, t.slots, now), Expire(p, u, u.slots, now);
    ExpireKeepsPending(p, t, t.slots, now);
    ExpireKeepsPending(p, u, u.slots, now);
    KeepaliveKeepsPending(p, t1, t1.slots, env, now);
    KeepaliveKeepsPending(p, u1, u1.slots, env, now);
    forall i | 0 <= i < MAX_PEERS
      ensures Alike(Keepalive(p, t1, t1.slots, env, now).sessions[i], Keepalive(p, u1, u1.slots, env, now).sessions[i])
    {
      ExpireSlots(p, t, t.slots, now, i);
      ExpireSlots(p, u, u.slots, now, i);
      KeepaliveSlots(p, t1, t1.slots, env, now, i);
      KeepaliveSlots(p, u1, u1.slots, env, now, i);
      if i < t.slots {
        AlikeExpire(p, t.sessions[i], u.sessions[i], now);
      }
      AlikeKeepalive(p, t1.sessions[i], u1.sessions[i], env.iv(i).Some? && env.sendOk(i), now);
    }
  }

  lemma AlikeDispatch(t: State, u: State, i: nat, payload: Bytes)
    requires AlikeStates(t, u) && i < t.slots
    ensures Dispatch(u, i, payload) == Dispatch(t, i, payload)
  {
    hide Route, RouteTable, AllowedSrc, IpAt, IsIpv4;
    AlikeRoutes(t, u);
  }

  lemma AlikeForward(t: State, u: State, i: nat, sent: bool, now: int)
    requires AlikeStates(t, u) && i < MAX_PEERS
    ensures AlikeStates(SetSession(t, i, Forwarded(t.sessions[i], sent, now)),
                        SetSession(u, i, Forwarded(u.sessions[i], sent, now)))
  {
    AlikeSet(t, u, i, Forwarded(t.sessions[i], sent, now), Forwarded(u.sessions[i], sent, now));
  }

  lemma AlikeData(t: State, u: State, aead: Aead, src: Addr, wire: Bytes, sent: bool, now: int)
    requires Shape(t) && Shape(u) && AlikeStates(t, u)
    ensures AlikeStates(OnData(t, aead, src, wire, sent, now).0, OnData(u, aead, src, wire, sent, now).0)
    ensures OnData(t, aead, src, wire, sent, now).1 == OnData(u, aead, src, wire, sent, now).1
  {
    hide FindByAddr, Received, Dispatch, Forwarded, Alike;
    AlikeLookups(t, u);
    match FindByAddr(t, src) {
      case None =>
      case Some(i) =>
        AlikeReceive(aead, t.sessions[i], u.sessions[i], wire, now);
        var (s, v) := Received(aead, t.sessions[i], wire, now);
        var r := Received(aead, u.sessions[i], wire, now).0;
        AlikeSet(t, u, i, s, r);
        var t', u' := SetSession(t, i, s), SetSession(u, i, r);
        if v.Passed? {
          AlikeDispatch(t', u', i, v.payload);
          if Dispatch(t', i, v.payload).Relayed? {
            AlikeForward(t', u', Dispatch(t', i, v.payload).slot, sent, now);
          }
        }
    }
  }

  lemma AlikeTun(t: State, u: State, packet: Bytes, sent: bool, now: int)
    requires AlikeStates(t, u)
    ensures AlikeStates(OnTun(t, packet, sent, now), OnTun(u, packet, sent, now))
  {
    hide Route, RouteTable, IpAt;
    AlikeRoutes(t, u);
  }

  lemma AlikeStep(n: Node, t: State, u: State, e: Event)
    requires Shape(t) && Shape(u) && AlikeStates(t, u) && (e.act.Pass? ==> ExpiryAgrees(n.p, t, u, e.at))
    ensures AlikeStates(Step(n, t, e), Step(n, u, e))
  {
    hide OnHandshake, Housekeeping, OnData, OnTun, AlikeStates, ExpiryAgrees, Shape;
    match e.act {
      case Handshake(src, recv, reply) => AlikeHandshake(n.p, t, u, n.myPub, src, recv, reply, e.at);
      case Pass(env) => AlikePass(n.p, t, u, env, e.at);
      case Data(src, wire, sent) => AlikeData(t, u, n.aead, src, wire, sent, e.at);
      case Tun(packet, sent) => AlikeTun(t, u, packet, sent, e.at);
    }
  }

  // ----- runs with the previous-key packets deleted

  /** `e` is a data packet that its slot opens under the previous key. */
  predicate UnderPrevious(n: Node, t: State, e: Event)
    requires Shape(t)
  {
    && Receiver(t, e).Some?
    && var key := Opened(n.aead, t.sessions[Receiver(t, e).value], e.act.wire, e.at);
       key.Some? && key.value.0 == Previous
  }

  /** The run without its previous-key packets. */
  function Reduced(n: Node, start: State, es: seq<Event>): seq<Event>
    requires Shape(start)
  {
    if es == [] then []
    else
      var earlier, e := es[..|es| - 1], es[|es| - 1];
      if UnderPrevious(n, Run(n, start, earlier), e) then Reduced(n, start, earlier)
      else Reduced(n, start, earlier) + [e]
  }

  /** The state of the full run after `k` events, and of the reduced run at that point. */
  ghost function Full(n: Node, start: State, es: seq<Event>, k: nat): (t: State)
    requires Shape(start) && k <= |es|
    ensures Shape(t)
  {
    Run(n, start, es[..k])
  }

  ghost function Thinned(n: Node, start: State, es: seq<Event>, k: nat): (t: State)
    requires Shape(start) && k <= |es|
    ensures Shape(t)
  {
    Run(n, start, Reduced(n, start, es[..k]))
  }

  lemma UnfoldRuns(n: Node, start: State, es: seq<Event>, k: nat)
    requires Shape(start) && k < |es|
    ensures Full(n, start, es, k + 1) == Step(n, Full(n, start, es, k), es[k])
    ensures Thinned(n, start, es, k + 1) ==
            if UnderPrevious(n, Full(n, start, es, k), es[k]) then Thinned(n, start, es, k)
            else Step(n, Thinned(n, start, es, k), es[k])
  {
    hide Step, Shape, UnderPrevious;
    assert es[..k + 1][..k] == es[..k];
    if !UnderPrevious(n, Full(n, start, es, k), es[k]) {
      var r := Reduced(n, start, es[..k]);
      assert (r + [es[k]])[..|r|] == r;
    }
  }

  lemma PreviousStepAlike(n: Node, t: State, e: Event)
    requires Shape(t) && UnderPrevious(n, t, e)
    ensures AlikeStates(t, Step(n, t, e))
  {
    hide FindByAddr, Received, Dispatch, Opened;
    var i := Receiver(t, e).value;
    PreviousReceive(n.aead, t.sessions[i], e.act.wire, e.at);
  }

  lemma AlikeTransitive(t: State, u: State, v: State)
    requires AlikeStates(t, u) && AlikeStates(t, v)
    ensures AlikeStates(u, v)
  {}

  /** Up to event `k`, full and reduced run agree in everything but traffic stamps and send counters. */
  ghost predicate AlikeAt(n: Node, start: State, es: seq<Event>, k: nat)
    requires Shape(start) && k <= |es|
  {
    AlikeStates(Full(n, start, es, k), Thinned(n, start, es, k))
  }

  /** If event `k` is a pass, it expires the same slots in both runs. */
  ghost predicate AgreesAt(n: Node, start: State, es: seq<Event>, k: nat)
    requires Shape(start) && k < |es|
  {
    es[k].act.Pass? ==> ExpiryAgrees(n.p, Full(n, start, es, k), Thinned(n, start, es, k), es[k].at)
  }

  lemma AlikeNext(n: Node, start: State, es: seq<Event>, k: nat)
    requires Shape(start) && k < |es| && AlikeAt(n, start, es, k) && AgreesAt(n, start, es, k)
    ensures AlikeAt(n, start, es, k + 1)
  {
    hide Step, Full, Thinned, UnderPrevious, AlikeStates, ExpiryAgrees, Shape;
    UnfoldRuns(n, start, es, k);
    var t, u := Full(n, start, es, k), Thinned(n, start, es, k);
    if UnderPrevious(n, t, es[k]) {
      PreviousStepAlike(n, t, es[k]);
      AlikeTransitive(t, Step(n, t, es[k]), u);
    } else {
      AlikeStep(n, t, u, es[k]);
    }
  }

  lemma AgreesBecauseAlike(n: Node, start: State, es: seq<Event>, k: nat)
    requires Shape(start) && k < |es| && AlikeAt(n, start, es, k) && AlikeAt(n, start, es, k + 1)
    ensures AgreesAt(n, start, es, k)
  {
    hide Full, Thinned, Housekeeping, Expires;
    if es[k].act.Pass? {
      UnfoldRuns(n, start, es, k);
      var t, u := Full(n, start, es, k), Thinned(n, start, es, k);
      forall i | 0 <= i < MAX_PEERS && i < t.slots
        ensures Expires(n.p, t.sessions[i], es[k].at) == Expires(n.p, u.sessions[i], es[k].at)
      {
        PassExpires(n.p, t, es[k].act.env, es[k].at, i);
        PassExpires(n.p, u, es[k].act.env, es[k].at, i);
        ExpiresOnlyActive(n.p, t.sessions[i], es[k].at);
        ExpiresOnlyActive(n.p, u.sessions[i], es[k].at);
      }
    }
  }

  lemma ExpiresOnlyActive(p: Params, s: Session, now: int)
    ensures Expires(p, s, now) ==> s.active
  {}

  // ----- the condition, read off the full run alone

  /** When slot `i` last took a packet that was not under a previous key; 0 from an install on. */
  function HeardAfter(n: Node, t: State, e: Event, i: nat, heard: int): int
    requires Shape(t) && i < MAX_PEERS
  {
    var x := Installs(n, t, e);
    if x.Some? && x.value.slot == i then 0
    else if Receiver(t, e) == Some(i) && !UnderPrevious(n, t, e) then e.at
    else heard
  }

  function Heard(n: Node, start: State, es: seq<Event>, i: nat): int
    requires Shape(start) && i < MAX_PEERS
  {
    if es == [] then start.sessions[i].lastSeen
    else
      var earlier := es[..|es| - 1];
      HeardAfter(n, Run(n, start, earlier), es[|es| - 1], i, Heard(n, start, earlier, i))
  }

  /** If event `k` is a pass, no expiry turns on a previous-key packet: counted from the last other packet, the
      silence of each session comes out on the same side of `session_expiry`. */
  ghost predicate SettledAt(n: Node, start: State, es: seq<Event>, k: nat)
    requires Shape(start) && k < |es|
  {
    es[k].act.Pass? ==>
      var t := Full(n, start, es, k);
      forall i :: 0 <= i < MAX_PEERS && i < t.slots ==>
        Expires(n.p, t.sessions[i], es[k].at) ==
        Expires(n.p, t.sessions[i].(lastSeen := Heard(n, start, es[..k], i)), es[k].at)
  }

  /** In the reduced run `last_seen` is the last packet heard. */
  ghost predicate HeardAt(n: Node, start: State, es: seq<Event>, k: nat)
    requires Shape(start) && k <= |es|
  {
    forall i :: 0 <= i < MAX_PEERS ==> Thinned(n, start, es, k).sessions[i].lastSeen == Heard(n, start, es[..k], i)
  }

  /** Alike states install alike. */
  lemma AlikeInstalls(n: Node, t: State, u: State, e: Event)
    requires AlikeStates(t, u)
    ensures Installs(n, u, e) == Installs(n, t, e) && Receiver(u, e) == Receiver(t, e)
  {
    hide FindByPub, FindByAddr, FreeSession;
    AlikeLookups(t, u);
    if e.act.Handshake? && PendingFrom(t, e.act.src).Some? {
      var j := PendingFrom(t, e.act.src).value;
      AlikeLookups(Consume(t, j), Consume(u, j));
    }
  }

  lemma StepHears(n: Node, t: State, u: State, e: Event, i: nat, heard: int)
    requires Shape(t) && Shape(u) && AlikeStates(t, u) && i < MAX_PEERS && u.sessions[i].lastSeen == heard
    requires !UnderPrevious(n, t, e)
    ensures Step(n, u, e).sessions[i].lastSeen == HeardAfter(n, t, e, i, heard)
  {
    hide Step, UnderPrevious, Installs, Receiver, AlikeStates, Shape;
    AlikeInstalls(n, t, u, e);
    StepSeen(n, u, e, i);
  }

  lemma HeardNextIn(n: Node, start: State, es: seq<Event>, k: nat, i: nat)
    requires Shape(start) && k < |es| && AlikeAt(n, start, es, k) && i < MAX_PEERS
    requires Thinned(n, start, es, k).sessions[i].lastSeen == Heard(n, start, es[..k], i)
    ensures Thinned(n, start, es, k + 1).sessions[i].lastSeen == Heard(n, start, es[..k + 1], i)
  {
    hide Step, Full, Thinned, UnderPrevious, AlikeStates, HeardAfter, Shape;
    UnfoldRuns(n, start, es, k);
    var t, u := Full(n, start, es, k), Thinned(n, start, es, k);
    HeardUnfolds(n, start, es, k, i);
    if UnderPrevious(n, t, es[k]) {
      PreviousUnheard(n, t, es[k], i, Heard(n, start, es[..k], i));
    } else {
      StepHears(n, t, u, es[k], i, Heard(n, start, es[..k], i));
    }
  }

  lemma HeardNext(n: Node, start: State, es: seq<Event>, k: nat)
    requires Shape(start) && k < |es| && AlikeAt(n, start, es, k) && HeardAt(n, start, es, k)
    ensures HeardAt(n, start, es, k + 1)
  {
    hide Thinned, AlikeAt, Heard;
    var m := k + 1;
    forall i | 0 <= i < MAX_PEERS
      ensures Thinned(n, start, es, m).sessions[i].lastSeen == Heard(n, start, es[..m], i)
    {
      HeardNextIn(n, start, es, k, i);
    }
  }

  lemma HeardUnfolds(n: Node, start: State, es: seq<Event>, k: nat, i: nat)
    requires Shape(start) && k < |es| && i < MAX_PEERS
    ensures Heard(n, start, es[..k + 1], i) ==
            HeardAfter(n, Full(n, start, es, k), es[k], i, Heard(n, start, es[..k], i))
  {
    assert es[..k + 1][..k] == es[..k];
  }

  lemma PreviousUnheard(n: Node, t: State, e: Event, i: nat, heard: int)
    requires Shape(t) && i < MAX_PEERS && UnderPrevious(n, t, e)
    ensures HeardAfter(n, t, e, i, heard) == heard
  {}

  /** As long as the runs are alike, the two conditions are one. */
  lemma SettledIsAgreement(n: Node, start: State, es: seq<Event>, k: nat)
    requires Shape(start) && k < |es| && AlikeAt(n, start, es, k) && HeardAt(n, start, es, k)
    ensures SettledAt(n, start, es, k) <==> AgreesAt(n, start, es, k)
  {
    hide Full, Thinned, Heard;
    if es[k].act.Pass? {
      var t, u := Full(n, start, es, k), Thinned(n, start, es, k);
      forall i | 0 <= i < MAX_PEERS && i < t.slots
        ensures Expires(n.p, t.sessions[i].(lastSeen := Heard(n, start, es[..k], i)), es[k].at) ==
                Expires(n.p, u.sessions[i], es[k].at)
      {
        assert Alike(t.sessions[i], u.sessions[i]);
      }
    }
  }

  lemma AtStart(n: Node, start: State, es: seq<Event>)
    requires Shape(start)
    ensures AlikeAt(n, start, es, 0) && HeardAt(n, start, es, 0)
  {}

  lemma {:induction false} AlikeUpTo(n: Node, start: State, es: seq<Event>, m: nat)
    requires Shape(start) && m <= |es| && forall k :: 0 <= k < m ==> SettledAt(n, start, es, k)
    ensures forall k :: 0 <= k <= m ==> AlikeAt(n, start, es, k)
    ensures HeardAt(n, start, es, m)
  {
    hide AlikeAt, AgreesAt, SettledAt, HeardAt, Shape;
    if m == 0 {
      AtStart(n, start, es);
    } else {
      AlikeUpTo(n, start, es, m - 1);
      SettledIsAgreement(n, start, es, m - 1);
      AlikeNext(n, start, es, m - 1);
      HeardNext(n, start, es, m - 1);
    }
  }

  lemma {:induction false} HeardUpTo(n: Node, start: State, es: seq<Event>, m: nat)
    requires Shape(start) && m <= |es| && forall k :: 0 <= k < m ==> AlikeAt(n, start, es, k)
    ensures HeardAt(n, start, es, m)
  {
    hide AlikeAt, HeardAt, Shape;
    if m == 0 {
      AtStart(n, start, es);
    } else {
      HeardUpTo(n, start, es, m - 1);
      HeardNext(n, start, es, m - 1);
    }
  }

  /** Main result: deleting the previous-key packets of a run leaves every window, every key and all else but
      traffic stamps and send counters as it was at every point, exactly when no expiry in the run turns on a
      previous-key packet. The condition is one on the full run, before anything is deleted. */
  lemma PreviousKeyNonInterference(n: Node, start: State, es: seq<Event>)
    requires Shape(start)
    ensures (forall k :: 0 <= k <= |es| ==> AlikeAt(n, start, es, k)) <==>
            (forall k :: 0 <= k < |es| ==> SettledAt(n, start, es, k))
  {
    hide AlikeAt, AgreesAt, SettledAt, HeardAt, Shape;
    if forall k :: 0 <= k < |es| ==> SettledAt(n, start, es, k) {
      AlikeUpTo(n, start, es, |es|);
    }
    if forall k :: 0 <= k <= |es| ==> AlikeAt(n, start, es, k) {
      forall k | 0 <= k < |es|
        ensures SettledAt(n, start, es, k)
      {
        assert AlikeAt(n, start, es, k) && AlikeAt(n, start, es, k + 1);
        AgreesBecauseAlike(n, start, es, k);
        HeardUpTo(n, start, es, k);
        SettledIsAgreement(n, start, es, k);
      }
    }
  }

  /** ... and then every other packet gets the same verdict from the same window. */
  lemma SameVerdicts(n: Node, start: State, es: seq<Event>, k: nat)
    requires Shape(start) && k < |es| && forall m :: 0 <= m < k ==> SettledAt(n, start, es, m)
    ensures VerdictOn(n, Full(n, start, es, k), es[k]) == VerdictOn(n, Thinned(n, start, es, k), es[k])
    ensures forall i :: 0 <= i < MAX_PEERS ==>
              Full(n, start, es, k).sessions[i].window == Thinned(n, start, es, k).sessions[i].window
  {
    hide Full, Thinned, FindByAddr, Received, SettledAt;
    AlikeUpTo(n, start, es, k);
    var t, u := Full(n, start, es, k), Thinned(n, start, es, k);
    assert AlikeAt(n, start, es, k);
    AlikeLookups(t, u);
    if Receiver(t, es[k]).Some? {
      var i := Receiver(t, es[k]).value;
      AlikeReceive(n.aead, t.sessions[i], u.sessions[i], es[k].act.wire, es[k].at);
    }
  }
}
