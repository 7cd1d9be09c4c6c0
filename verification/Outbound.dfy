/** The life of an outbound handshake: when a pass starts one, what it records, how long the record stays, and that the
    response finds it. */
module Outbound {
  import opened Options
  import opened Wire
  import opened Sessions
  import opened Tables
  import opened Invariants
  import opened Passes
  import opened Runs
  import opened SlotHistory
  import opened Choices
  import opened Inbound

  // ----- starting one

  /** The session with key `pub` is due for a rekey: 4/5 of its time is over, and no rekey is under way. */
  predicate RekeyDue(p: Params, s: Session, now: int) {
    now >= s.lastHandshake + p.rekeyAfter * 4 / 5 && !s.rekeying
  }

  /** A configuration is due if and only if it has an endpoint, its last attempt is `reconnect_interval` ago, and there
      is no session with its key or one that is due for a rekey. */
  lemma DueIsExact(p: Params, t: State, i: nat, now: int)
    requires Shape(t) && i < |t.configs|
    ensures var c := t.configs[i];
            Due(p, t, i, now) <==>
            && c.hasEndpoint && now - c.lastAttempt >= p.reconnectInterval
            && (Unknown(t, c.pub, None) || exists k: nat :: KeyedAt(t, c.pub, k) && RekeyDue(p, t.sessions[k], now))
  {
    hide FindByPub, Unknown, RekeyDue;
    var pub := t.configs[i].pub;
    match FindByPub(t, pub) {
      case None => NotFoundIsUnknown(t, pub);
      case Some(k) =>
        KeyedIsFound(t, pub, k);
        OnlyKeyedAt(t, pub, k);
        DueWith(p, t, i, now, k);
    }
  }

  lemma DueWith(p: Params, t: State, i: nat, now: int, k: nat)
    requires Shape(t) && i < |t.configs| && FindByPub(t, t.configs[i].pub) == Some(k)
    ensures var c := t.configs[i];
            Due(p, t, i, now) <==>
            c.hasEndpoint && now - c.lastAttempt >= p.reconnectInterval && RekeyDue(p, t.sessions[k], now)
  {}

  lemma NotFoundIsUnknown(t: State, pub: Bytes)
    requires Shape(t)
    ensures FindByPub(t, pub).None? <==> Unknown(t, pub, None)
  {
    hide FirstIndex;
  }

  lemma OnlyKeyedAt(t: State, pub: Bytes, k: nat)
    requires Shape(t) && KeyedAt(t, pub, k)
    ensures !Unknown(t, pub, None) && forall l: nat :: KeyedAt(t, pub, l) ==> l == k
  {}

  /** Entry `j` is the lowest free one. */
  predicate FreeEntry(t: State, j: nat)
    requires Shape(t)
  {
    j < MAX_PEERS && !t.pending[j].active && forall k :: 0 <= k < j ==> t.pending[k].active
  }

  lemma FreeEntryIsFound(t: State, j: nat)
    requires Shape(t)
    ensures FreePending(t) == Some(j) <==> FreeEntry(t, j)
  {
    hide FirstIndex;
  }

  /** The address a handshake goes to: as resolved now, or else as resolved before. */
  function Target(c: Config, resolved: Option<Addr>): Addr {
    if resolved.Some? then resolved.value else c.endpoint
  }

  /** A due configuration is attempted now. If the packet went out and entry `j` is the lowest free one, it records the
      time, the address and the secrets; otherwise the pending table stays as it is. */
  lemma AttemptIsRecorded(p: Params, t: State, i: nat, env: Env, now: int, j: nat)
    requires Shape(t) && i < |t.configs|
    ensures var r := ConnectOne(p, t, i, env, now);
            && r.configs[i].lastAttempt == (if Due(p, t, i, now) then now else t.configs[i].lastAttempt)
            && (Due(p, t, i, now) && env.send(i).Some? && FreeEntry(t, j) ==>
                r.pending ==
                t.pending[j := Pending(true, i, now, Target(t.configs[i], env.resolve(i)), env.send(i).value)])
            && (!Due(p, t, i, now) || env.send(i).None? || (forall k :: 0 <= k < MAX_PEERS ==> t.pending[k].active) ==>
                r.pending == t.pending)
  {
    hide FindByPub, Due, FreeEntry, FirstIndex;
    FreeEntryIsFound(t, j);
    AllActiveIsFull(t);
  }

  lemma AllActiveIsFull(t: State)
    requires Shape(t)
    ensures (forall k :: 0 <= k < MAX_PEERS ==> t.pending[k].active) ==> FreePending(t).None?
  {
    hide FirstIndex;
  }

  // ----- timing out

  /** The entry is older than the time-out. */
  predicate Stale(p: Params, q: Pending, now: int) {
    q.active && now - q.sentAt >= p.handshakeTimeout
  }

  lemma {:induction false} TimeOutEntries(p: Params, t: State, n: nat, now: int, j: nat)
    requires Shape(t) && n <= MAX_PEERS && j < MAX_PEERS
    ensures TimeOut(p, t, n, now).pending[j] ==
            if j < n && Stale(p, t.pending[j], now) then t.pending[j].(active := false) else t.pending[j]
  {
    hide TimeOutOne;
    if n > 0 {
      TimeOutEntries(p, t, n - 1, now, j);
      TimeOutOneEntry(p, TimeOut(p, t, n - 1, now), n - 1, now, j, TimeOut(p, t, n, now));
    }
  }

  lemma TimeOutOneEntry(p: Params, t: State, k: nat, now: int, j: nat, r: State)
    requires Shape(t) && k < MAX_PEERS && j < MAX_PEERS && r == TimeOutOne(p, t, k, now)
    ensures Shape(r)
    ensures r.pending[j] == if j == k && Stale(p, t.pending[j], now) then t.pending[j].(active := false)
            else t.pending[j]
  {
    hide FindByPub;
  }

  lemma {:induction false} ConnectKeepsEntry(p: Params, t: State, n: nat, env: Env, now: int, j: nat)
    requires Shape(t) && n <= |t.configs| && j < MAX_PEERS && t.pending[j].active
    ensures Connect(p, t, n, env, now).pending[j] == t.pending[j]
  {
    hide ConnectOne, Shape;
    if n > 0 {
      ConnectKeepsEntry(p, t, n - 1, env, now, j);
      ConnectOneKeepsEntry(p, Connect(p, t, n - 1, env, now), n - 1, env, now, j, Connect(p, t, n, env, now));
    }
  }

  lemma ConnectOneKeepsEntry(p: Params, t: State, i: nat, env: Env, now: int, j: nat, r: State)
    requires Shape(t) && i < |t.configs| && j < MAX_PEERS && t.pending[j].active && r == ConnectOne(p, t, i, env, now)
    ensures Shape(r) && r.pending[j] == t.pending[j]
  {
    ConnectOnePending(p, t, i, env, now);
  }

  /** A pass drops a pending handshake if and only if it is older than the time-out, and changes nothing else about it.
      */
  lemma PassEntry(p: Params, t: State, env: Env, now: int, j: nat)
    requires Shape(t) && j < MAX_PEERS && t.pending[j].active
    ensures Housekeeping(p, t, env, now).pending[j] ==
            if now - t.pending[j].sentAt >= p.handshakeTimeout then t.pending[j].(active := false) else t.pending[j]
  {
    hide Connect, TimeOut, Expire, Keepalive;
    ConnectKeepsEntry(p, t, |t.configs|, env, now, j);
    PassPending(p, t, env, now, j);
  }

  lemma PassPending(p: Params, t: State, env: Env, now: int, j: nat)
    requires Shape(t) && j < MAX_PEERS
    ensures var q := Connect(p, t, |t.configs|, env, now).pending[j];
            Housekeeping(p, t, env, now).pending[j] == if Stale(p, q, now) then q.(active := false) else q
  {
    hide Connect, TimeOut, Expire, Keepalive;
    var t1 := Connect(p, t, |t.configs|, env, now);
    TimeOutEntries(p, t1, MAX_PEERS, now, j);
    var t2 := TimeOut(p, t1, MAX_PEERS, now);
    ExpireKeepsPending(p, t2, t2.slots, now);
    var t3 := Expire(p, t2, t2.slots, now);
    KeepaliveKeepsPending(p, t3, t3.slots, env, now);
  }

  // ----- a pass that starts one

  /** The connect loop has not reached configuration `i` yet. */
  lemma {:induction false} NotReached(p: Params, t: State, n: nat, env: Env, now: int, i: nat)
    requires Shape(t) && n <= i < |t.configs|
    ensures Connect(p, t, n, env, now).configs[i] == t.configs[i]
  {
    hide ConnectOne, Shape;
    if n > 0 {
      NotReached(p, t, n - 1, env, now, i);
      OthersConfig(p, Connect(p, t, n - 1, env, now), n - 1, env, now, i, Connect(p, t, n, env, now));
    }
  }

  lemma OthersConfig(p: Params, t: State, k: nat, env: Env, now: int, i: nat, r: State)
    requires Shape(t) && k < i < |t.configs| && r == ConnectOne(p, t, k, env, now)
    ensures |r.configs| == |t.configs| && r.configs[i] == t.configs[i]
  {
    hide FindByPub, FreePending, Due;
  }

  lemma UnknownStays(p: Params, t: State, n: nat, env: Env, now: int, pub: Bytes)
    requires Shape(t) && n <= |t.configs| && Unknown(t, pub, None)
    ensures Unknown(Connect(p, t, n, env, now), pub, None)
  {
    hide Connect;
    ConnectSlots(p, t, n, env, now);
  }

  /** Entry `j` records a handshake to configuration `i`, sent at `now` to `target` with secrets `hs`. */
  predicate Records(t: State, j: nat, i: nat, now: int, target: Addr, hs: HsState)
    requires Shape(t)
  {
    j < MAX_PEERS && t.pending[j] == Pending(true, i, now, target, hs)
  }

  /** A pass starts a handshake for every configuration that has an endpoint, no session and no recent attempt, if an
      entry is free when its turn comes and the packet goes out; the handshake is pending after the pass. */
  lemma PassConnects(p: Params, t: State, env: Env, now: int, i: nat)
    requires p.Valid() && Shape(t) && i < |t.configs| && t.configs[i].hasEndpoint && Unknown(t, t.configs[i].pub, None)
    requires now - t.configs[i].lastAttempt >= p.reconnectInterval && env.send(i).Some?
    requires FreePending(Connect(p, t, i, env, now)).Some?
    ensures exists j :: Records(Housekeeping(p, t, env, now), j, i, now, Target(t.configs[i], env.resolve(i)),
                                env.send(i).value)
  {
    hide Connect, Due, FreePending, Housekeeping, Unknown;
    var before := Connect(p, t, i, env, now);
    NotReached(p, t, i, env, now, i);
    UnknownStays(p, t, i, env, now, t.configs[i].pub);
    DueIsExact(p, before, i, now);
    var j := FreePending(before).value;
    FreeEntryIsFound(before, j);
    AttemptIsRecorded(p, before, i, env, now, j);
    var q := Pending(true, i, now, Target(t.configs[i], env.resolve(i)), env.send(i).value);
    ConnectUnfolds(p, t, i, env, now);
    assert Connect(p, t, i + 1, env, now).pending[j] == q;
    ConnectRest(p, t, i + 1, |t.configs|, env, now, j);
    PassPending(p, t, env, now, j);
    assert Records(Housekeeping(p, t, env, now), j, i, now, q.serverAddr, q.hs);
  }

  lemma ConnectUnfolds(p: Params, t: State, i: nat, env: Env, now: int)
    requires Shape(t) && i < |t.configs|
    ensures Connect(p, t, i + 1, env, now) == ConnectOne(p, Connect(p, t, i, env, now), i, env, now)
  {}

  lemma {:induction false} ConnectRest(p: Params, t: State, m: nat, n: nat, env: Env, now: int, j: nat)
    requires Shape(t) && m <= n <= |t.configs| && j < MAX_PEERS && Connect(p, t, m, env, now).pending[j].active
    ensures Connect(p, t, n, env, now).pending[j] == Connect(p, t, m, env, now).pending[j]
    decreases n
  {
    hide ConnectOne, Shape;
    if m < n {
      ConnectRest(p, t, m, n - 1, env, now, j);
      ConnectOneKeepsEntry(p, Connect(p, t, n - 1, env, now), n - 1, env, now, j, Connect(p, t, n, env, now));
    }
  }

  // ----- waiting for the response

  /** Event `e` is neither a handshake packet from the address of `q` nor a pass that finds it stale. */
  predicate Spares(n: Node, e: Event, q: Pending) {
    && (e.act.Handshake? ==> e.act.src != q.serverAddr)
    && (e.act.Pass? ==> e.at - q.sentAt < n.p.handshakeTimeout)
  }

  lemma StepKeepsEntry(n: Node, t: State, e: Event, j: nat)
    requires Shape(t) && j < MAX_PEERS && t.pending[j].active && Spares(n, e, t.pending[j])
    ensures Step(n, t, e).pending[j] == t.pending[j]
  {
    hide Housekeeping, FindByPub, FindByAddr, FreeSession, FindConfig, Received, Dispatch, TunRoute;
    match e.act {
      case Handshake(src, recv, reply) => TieBreakIsDead(n.p, t, n.myPub, src, recv, reply, e.at);
      case Pass(env) => PassEntry(n.p, t, env, e.at, j);
      case Data(src, wire, sent) =>
      case Tun(packet, sent) =>
    }
  }

  /** A pending handshake stays as it is through every run without a handshake packet from its address and without a
      pass that is `handshake_timeout` or more after it was sent. */
  lemma {:induction false} EntryStays(n: Node, start: State, es: seq<Event>, a: nat, b: nat, j: nat)
    requires Shape(start) && a <= b <= |es| && j < MAX_PEERS && Run(n, start, es[..a]).pending[j].active
    requires forall k :: a <= k < b ==> Spares(n, es[k], Run(n, start, es[..a]).pending[j])
    ensures Run(n, start, es[..b]).pending[j] == Run(n, start, es[..a]).pending[j]
    decreases b
  {
    hide Step, Shape, Spares;
    if a < b {
      EntryStays(n, start, es, a, b - 1, j);
      assert es[..b][..b - 1] == es[..b - 1];
      StepKeepsEntry(n, Run(n, start, es[..b - 1]), es[b - 1], j);
    }
  }

  /** No lower pending handshake waits for the same address. */
  predicate FirstFor(t: State, j: nat)
    requires Shape(t)
  {
    && j < MAX_PEERS && t.pending[j].active
    && forall k :: 0 <= k < j ==> !(t.pending[k].active && t.pending[k].serverAddr == t.pending[j].serverAddr)
  }

  lemma FirstForIsFound(t: State, j: nat)
    requires Shape(t) && FirstFor(t, j)
    ensures PendingFrom(t, t.pending[j].serverAddr) == Some(j)
  {
    hide FirstIndex;
  }

  /** A response from the address of a pending handshake, if none before it waits for that address, installs a new
      outbound session for the key and the address of that handshake, under the key the exchange yields. In every run a
      slot is found for it. */
  lemma ResponseInstalls(n: Node, start: State, es: seq<Event>, j: nat, recv: Recv, reply: Answer, key: Bytes, at: int)
    requires n.p.Valid() && Shape(start) && Initial(start) && FirstFor(Run(n, start, es), j)
    requires var t := Run(n, start, es); recv(t.pending[j].hs, t.configs[t.pending[j].cfgIdx].pub) == Some(key)
    ensures var t := Run(n, start, es);
            var q := t.pending[j];
            var x := Installs(n, t, Event(at, Handshake(q.serverAddr, recv, reply)));
            && x.Some? && x.value.cfg == t.configs[q.cfgIdx]
            && New(n.p, Step(n, t, Event(at, Handshake(q.serverAddr, recv, reply))).sessions[x.value.slot],
                   t.configs[q.cfgIdx].pub, q.serverAddr, key, true, at)
  {
    hide Run, Step, New, Alloc, FirstFor, Initial;
    var t := Run(n, start, es);
    FirstForIsFound(t, j);
    FirstIsActive(t, j);
    TableNeverFull(n, start, es, t.pending[j].cfgIdx, j, t.pending[j].serverAddr);
    InstalledIsNew(n, t, Event(at, Handshake(t.pending[j].serverAddr, recv, reply)));
  }

  lemma FirstIsActive(t: State, j: nat)
    requires Shape(t) && FirstFor(t, j)
    ensures j < MAX_PEERS && t.pending[j].active && t.pending[j].cfgIdx < |t.configs|
  {}

  /** Main result: a pass finds configuration `i` with an endpoint, without session and without recent attempt, and its
      initiation goes out. Then an entry is pending such that, as long as no handshake packet comes from the endpoint
      and no pass comes `handshake_timeout` later, a response from the endpoint that completes the exchange installs an
      outbound session for key of `i`, provided no lower entry waits for the same address. */
  lemma OutboundCompletes(n: Node, start: State, es: seq<Event>, a: nat, b: nat, i: nat, recv: Recv, reply: Answer,
                          key: Bytes, at: int)
    requires n.p.Valid() && Shape(start) && Initial(start) && a < b <= |es| && es[a].act.Pass?
    requires var t, env := Run(n, start, es[..a]), es[a].act.env;
             && i < |t.configs| && t.configs[i].hasEndpoint && Unknown(t, t.configs[i].pub, None)
             && es[a].at - t.configs[i].lastAttempt >= n.p.reconnectInterval && env.send(i).Some?
             && FreePending(Connect(n.p, t, i, env, es[a].at)).Some?
    requires var t, env := Run(n, start, es[..a]), es[a].act.env;
             var q := Pending(true, i, es[a].at, Target(t.configs[i], env.resolve(i)), env.send(i).value);
             forall k :: a + 1 <= k < b ==> Spares(n, es[k], q)
    requires var t, env := Run(n, start, es[..a]), es[a].act.env; recv(env.send(i).value, t.configs[i].pub) == Some(key)
    ensures var t, env := Run(n, start, es[..a]), es[a].act.env;
            var target, r := Target(t.configs[i], env.resolve(i)), Run(n, start, es[..b]);
            exists j ::
              && Records(r, j, i, es[a].at, target, env.send(i).value)
              && (FirstFor(r, j) ==>
                  var e := Event(at, Handshake(target, recv, reply));
                  var x := Installs(n, r, e);
                  && x.Some?
                  && New(n.p, Step(n, r, e).sessions[x.value.slot], t.configs[i].pub, target, key, true, at))
  {
    hide Run, Step, Connect, Unknown, FreePending, Installs, Initial, FirstFor, Spares, New;
    var t, env := Run(n, start, es[..a]), es[a].act.env;
    PassConnects(n.p, t, env, es[a].at, i);
    RunUnfolds(n, start, es, a);
    PassStep(n, t, es[a]);
    var target := Target(t.configs[i], env.resolve(i));
    var j :| Records(Housekeeping(n.p, t, env, es[a].at), j, i, es[a].at, target, env.send(i).value);
    EntryStays(n, start, es, a + 1, b, j);
    var r := Run(n, start, es[..b]);
    SamePub(n, start, es[..a], es[..b], i);
    assert Records(r, j, i, es[a].at, target, env.send(i).value);
    if FirstFor(r, j) {
      ResponseInstalls(n, start, es[..b], j, recv, reply, key, at);
    }
  }

  lemma SamePub(n: Node, start: State, es: seq<Event>, fs: seq<Event>, i: nat)
    requires Shape(start) && i < |Run(n, start, es).configs|
    ensures i < |Run(n, start, fs).configs| && Run(n, start, fs).configs[i].pub == Run(n, start, es).configs[i].pub
  {
    hide Run;
    RunSameConfigs(n, start, es);
    RunSameConfigs(n, start, fs);
  }
}
