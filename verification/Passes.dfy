/** The housekeeping pass: it keeps the table invariant, leaves only young pending handshakes, and
    never runs out of pending slots. */
module Passes {
  import opened Options
  import opened Wire
  import opened Sessions
  import opened Tables
  import opened Invariants

  // ----- the connect loop

  /** `c` may replace a configuration: same identity, attempt not earlier. */
  ghost predicate SameConfig(old': Config, c: Config) {
    && c.pub == old'.pub && c.routes == old'.routes && c.hasEndpoint == old'.hasEndpoint
    && c.lastAttempt >= old'.lastAttempt
  }

  lemma ConfigKeepsTable(t: State, i: nat, c: Config)
    requires TableOk(t) && i < |t.configs| && SameConfig(t.configs[i], c)
    ensures TableOk(SetConfig(t, i, c))
  {
    var r := SetConfig(t, i, c);
    forall k | 0 <= k < MAX_PEERS && r.sessions[k].active
      ensures Configured(r.configs, r.sessions[k].pub, r.sessions[k].routes)
    {
      var x :| 0 <= x < |t.configs| && t.configs[x].pub == t.sessions[k].pub &&
        t.configs[x].routes == t.sessions[k].routes;
      assert r.configs[x].pub == t.sessions[k].pub && r.configs[x].routes == t.sessions[k].routes;
    }
  }

  lemma ConfigKeepsRekey(t: State, i: nat, c: Config, except: set<Bytes>)
    requires Shape(t) && RekeyOk(t, except) && PendingOk(t) && i < |t.configs| && SameConfig(t.configs[i], c)
    ensures RekeyOk(SetConfig(t, i, c), except) && PendingOk(SetConfig(t, i, c))
  {}

  /** Marking a session with key `pub` as rekeying disturbs only that key. */
  lemma MarkKeeps(t: State, i: nat, b: bool, pub: Bytes)
    requires TableOk(t) && PendingOk(t) && RekeyOk(t, {pub}) && i < MAX_PEERS && t.sessions[i].pub == pub
    ensures TableOk(SetRekeying(t, Some(i), b)) && PendingOk(SetRekeying(t, Some(i), b))
    ensures RekeyOk(SetRekeying(t, Some(i), b), {pub})
  {}

  lemma UnmarkSettles(t: State, i: nat, pub: Bytes)
    requires TableOk(t) && PendingOk(t) && RekeyOk(t, {pub}) && i < MAX_PEERS
    requires t.sessions[i].active && t.sessions[i].pub == pub
    ensures Good(SetRekeying(t, Some(i), false))
  {}

  /** A newly registered handshake to configuration `c` vouches for the key of `c`. */
  lemma RegisteredSettles(t: State, j: nat, q: Pending)
    requires TableOk(t) && PendingOk(t) && j < MAX_PEERS && !t.pending[j].active
    requires q.active && q.cfgIdx < |t.configs| && t.configs[q.cfgIdx].hasEndpoint
    requires q.sentAt <= t.configs[q.cfgIdx].lastAttempt
    requires RekeyOk(t, {t.configs[q.cfgIdx].pub})
    ensures Good(t.(pending := t.pending[j := q]))
  {
    var r := t.(pending := t.pending[j := q]);
    forall k | 0 <= k < MAX_PEERS && r.sessions[k].active && r.sessions[k].rekeying
      ensures HasPending(r, r.sessions[k].pub)
    {
      if t.sessions[k].pub == t.configs[q.cfgIdx].pub {
        assert r.pending[j].active;
      } else {
        assert HasPending(t, t.sessions[k].pub);
        var h :| 0 <= h < MAX_PEERS && t.pending[h].active && t.configs[t.pending[h].cfgIdx].pub == t.sessions[k].pub;
        assert r.pending[h] == t.pending[h];
      }
    }
  }

  lemma InitiatedKeeps(t: State, i: nat, sent: Option<HsState>, now: int)
    requires TableOk(t) && PendingOk(t) && i < |t.configs| && RekeyOk(t, {t.configs[i].pub})
    requires t.configs[i].hasEndpoint && t.configs[i].lastAttempt <= now
    ensures var (r, ok) := Initiated(t, i, sent, now);
            if ok then Good(r)
            else TableOk(r) && PendingOk(r) && RekeyOk(r, {t.configs[i].pub}) && r.sessions == t.sessions
  {
    var c := t.configs[i].(lastAttempt := now);
    var t' := SetConfig(t, i, c);
    ConfigKeepsTable(t, i, c);
    ConfigKeepsRekey(t, i, c, {t.configs[i].pub});
    if FreePending(t').Some? && sent.Some? {
      RegisteredSettles(t', FreePending(t').value, Pending(true, i, now, c.endpoint, sent.value));
    }
  }

  lemma ConnectOneKeepsGood(p: Params, t: State, i: nat, env: Env, now: int, r: State)
    requires p.Valid() && Good(t) && i < |t.configs| && r == ConnectOne(p, t, i, env, now)
    ensures Good(r)
  {
    if Due(p, t, i, now) {
      var pub := t.configs[i].pub;
      var slot := FindByPub(t, pub);
      FindByPubFinds(t, pub);
      var c := Resolved(t.configs[i], env.resolve(i));
      var t1 := SetConfig(t, i, c);
      ConfigKeepsTable(t, i, c);
      ConfigKeepsRekey(t, i, c, {});
      var t2 := SetRekeying(t1, slot, true);
      if slot.Some? {
        MarkKeeps(t1, slot.value, true, pub);
      }
      InitiatedKeeps(t2, i, env.send(i), now);
      var (t3, ok) := Initiated(t2, i, env.send(i), now);
      if !ok {
        if slot.Some? {
          UnmarkSettles(t3, slot.value, pub);
        } else {
          NobodyHolds(t3, pub);
        }
      }
    }
  }

  lemma NobodyHolds(t: State, pub: Bytes)
    requires TableOk(t) && RekeyOk(t, {pub}) && FindByPub(t, pub).None?
    ensures RekeyOk(t, {})
  {}

  lemma {:induction false} ConnectKeepsGood(p: Params, t: State, n: nat, env: Env, now: int)
    requires p.Valid() && Shape(t) && Good(t) && n <= |t.configs|
    ensures Good(Connect(p, t, n, env, now))
  {
    hide ConnectOne, Good, Shape;
    if n > 0 {
      ConnectKeepsGood(p, t, n - 1, env, now);
      ConnectOneKeepsGood(p, Connect(p, t, n - 1, env, now), n - 1, env, now, Connect(p, t, n, env, now));
    }
  }

  // ----- the time-out, expiry and keepalive loops

  lemma TimeOutOneKeepsGood(p: Params, t: State, j: nat, now: int, r: State)
    requires Good(t) && j < MAX_PEERS && r == TimeOutOne(p, t, j, now)
    ensures Good(r)
  {
    hide ClearRekeying;
    if r != t {
      ConsumeKeeps(t, j);
      ClearRekeyingSettles(Consume(t, j), t.configs[t.pending[j].cfgIdx].pub);
    }
  }

  lemma {:induction false} TimeOutKeepsGood(p: Params, t: State, n: nat, now: int)
    requires Shape(t) && Good(t) && n <= MAX_PEERS
    ensures Good(TimeOut(p, t, n, now))
  {
    hide TimeOutOne, Good, Shape;
    if n > 0 {
      TimeOutKeepsGood(p, t, n - 1, now);
      TimeOutOneKeepsGood(p, TimeOut(p, t, n - 1, now), n - 1, now, TimeOut(p, t, n, now));
    }
  }

  lemma {:induction false} ExpireKeepsGood(p: Params, t: State, n: nat, now: int)
    requires Good(t) && n <= t.slots
    ensures Good(Expire(p, t, n, now))
  {
    if n > 0 {
      ExpireKeepsGood(p, t, n - 1, now);
      var t' := Expire(p, t, n - 1, now);
      HarmlessKeepsGood(t', n - 1, ExpireSession(p, t'.sessions[n - 1], now));
    }
  }

  lemma {:induction false} KeepaliveKeepsGood(p: Params, t: State, n: nat, env: Env, now: int)
    requires Good(t) && n <= t.slots
    ensures Good(Keepalive(p, t, n, env, now))
  {
    if n > 0 {
      KeepaliveKeepsGood(p, t, n - 1, env, now);
      var t' := Keepalive(p, t, n - 1, env, now);
      HarmlessKeepsGood(t', n - 1,
        KeepSessionAlive(p, t'.sessions[n - 1], env.iv(n - 1).Some? && env.sendOk(n - 1), now));
    }
  }

  /** A whole pass keeps the invariant. */
  lemma PassKeepsGood(p: Params, t: State, env: Env, now: int)
    requires p.Valid() && Good(t)
    ensures Good(Housekeeping(p, t, env, now))
  {
    ConnectKeepsGood(p, t, |t.configs|, env, now);
    var t1 := Connect(p, t, |t.configs|, env, now);
    TimeOutKeepsGood(p, t1, MAX_PEERS, now);
    var t2 := TimeOut(p, t1, MAX_PEERS, now);
    ExpireKeepsGood(p, t2, t2.slots, now);
    var t3 := Expire(p, t2, t2.slots, now);
    KeepaliveKeepsGood(p, t3, t3.slots, env, now);
  }

  // ----- what is left pending after a pass

  /** The pending handshakes of `r` are some of those of `t`. */
  ghost predicate FewerPending(t: State, r: State)
    requires Shape(t) && Shape(r)
  {
    && r.configs == t.configs
    && forall j :: 0 <= j < MAX_PEERS && r.pending[j].active ==> r.pending[j] == t.pending[j]
  }

  ghost predicate Young(p: Params, t: State, n: nat, now: int)
    requires Shape(t) && n <= MAX_PEERS
  {
    forall j :: 0 <= j < n && t.pending[j].active ==> now - t.pending[j].sentAt < p.handshakeTimeout
  }

  lemma TimeOutOneLeavesYoung(p: Params, t: State, j: nat, now: int, r: State)
    requires Shape(t) && j < MAX_PEERS && Young(p, t, j, now) && r == TimeOutOne(p, t, j, now)
    ensures Shape(r) && FewerPending(t, r) && Young(p, r, j + 1, now)
  {
    hide FindByPub;
  }

  lemma {:induction false} TimeOutLeavesYoung(p: Params, t: State, n: nat, now: int)
    requires Shape(t) && n <= MAX_PEERS
    ensures FewerPending(t, TimeOut(p, t, n, now)) && Young(p, TimeOut(p, t, n, now), n, now)
  {
    hide TimeOutOne;
    if n > 0 {
      TimeOutLeavesYoung(p, t, n - 1, now);
      TimeOutOneLeavesYoung(p, TimeOut(p, t, n - 1, now), n - 1, now, TimeOut(p, t, n, now));
    }
  }

  lemma {:induction false} ExpireKeepsPending(p: Params, t: State, n: nat, now: int)
    requires Shape(t) && n <= t.slots
    ensures Expire(p, t, n, now).pending == t.pending && Expire(p, t, n, now).configs == t.configs
  {
    if n > 0 {
      ExpireKeepsPending(p, t, n - 1, now);
    }
  }

  lemma {:induction false} KeepaliveKeepsPending(p: Params, t: State, n: nat, env: Env, now: int)
    requires Shape(t) && n <= t.slots
    ensures Keepalive(p, t, n, env, now).pending == t.pending && Keepalive(p, t, n, env, now).configs == t.configs
  {
    if n > 0 {
      KeepaliveKeepsPending(p, t, n - 1, env, now);
    }
  }

  lemma PassLeavesYoung(p: Params, t: State, env: Env, now: int)
    requires Shape(t)
    ensures FewerPending(Connect(p, t, |t.configs|, env, now), Housekeeping(p, t, env, now))
    ensures Young(p, Housekeeping(p, t, env, now), MAX_PEERS, now)
  {
    var t1 := Connect(p, t, |t.configs|, env, now);
    TimeOutLeavesYoung(p, t1, MAX_PEERS, now);
    var t2 := TimeOut(p, t1, MAX_PEERS, now);
    ExpireKeepsPending(p, t2, t2.slots, now);
    var t3 := Expire(p, t2, t2.slots, now);
    KeepaliveKeepsPending(p, t3, t3.slots, env, now);
  }

  /** After a pass, a session still marked `rekeying` waits for a handshake to its own key that was
      sent less than `handshake_timeout` ago. */
  lemma NoStuckRekeying(p: Params, t: State, env: Env, now: int, i: nat)
    requires p.Valid() && Good(t) && i < MAX_PEERS
    requires Housekeeping(p, t, env, now).sessions[i].active && Housekeeping(p, t, env, now).sessions[i].rekeying
    ensures var r := Housekeeping(p, t, env, now);
            exists j :: 0 <= j < MAX_PEERS && r.pending[j].active &&
              Shape(r) && r.configs[r.pending[j].cfgIdx].pub == r.sessions[i].pub &&
              now - r.pending[j].sentAt < p.handshakeTimeout
  {
    PassKeepsGood(p, t, env, now);
    PassLeavesYoung(p, t, env, now);
    var r := Housekeeping(p, t, env, now);
    assert HasPending(r, r.sessions[i].pub);
    var j :| 0 <= j < MAX_PEERS && r.pending[j].active && r.configs[r.pending[j].cfgIdx].pub == r.sessions[i].pub;
    assert now - r.pending[j].sentAt < p.handshakeTimeout;
  }

  // ----- at most one pending handshake per configuration

  ghost predicate AtMostOne(t: State)
    requires Shape(t)
  {
    forall j, k :: 0 <= j < k < MAX_PEERS && t.pending[j].active && t.pending[k].active ==>
      t.pending[j].cfgIdx != t.pending[k].cfgIdx
  }

  /** Of two pending handshakes to one configuration, one is at least `reconnect_interval` old. */
  ghost predicate TwinsStale(p: Params, t: State, now: int)
    requires Shape(t)
  {
    forall j, k :: 0 <= j < k < MAX_PEERS && t.pending[j].active && t.pending[k].active &&
                   t.pending[j].cfgIdx == t.pending[k].cfgIdx ==>
      now - t.pending[j].sentAt >= p.reconnectInterval || now - t.pending[k].sentAt >= p.reconnectInterval
  }

  /** The pending table after `ConnectOne`: unchanged, or one free entry now holds a handshake to `i`. */
  lemma ConnectOnePending(p: Params, t: State, i: nat, env: Env, now: int)
    requires Shape(t) && i < |t.configs|
    ensures var r := ConnectOne(p, t, i, env, now);
            || r.pending == t.pending
            || (&& Due(p, t, i, now)
                && exists j :: && 0 <= j < MAX_PEERS && !t.pending[j].active
                               && r.pending == t.pending[j := r.pending[j]]
                               && r.pending[j].active && r.pending[j].cfgIdx == i && r.pending[j].sentAt == now)
  {}

  lemma ConnectOneTwins(p: Params, t: State, i: nat, env: Env, now: int, r: State)
    requires Shape(t) && Good(t) && i < |t.configs| && TwinsStale(p, t, now) && r == ConnectOne(p, t, i, env, now)
    ensures Shape(r) && TwinsStale(p, r, now)
  {}

  lemma {:induction false} ConnectTwins(p: Params, t: State, n: nat, env: Env, now: int)
    requires p.Valid() && Shape(t) && Good(t) && n <= |t.configs| && TwinsStale(p, t, now)
    ensures TwinsStale(p, Connect(p, t, n, env, now), now)
  {
    hide ConnectOne, Good, Shape, TwinsStale;
    if n > 0 {
      ConnectTwins(p, t, n - 1, env, now);
      ConnectKeepsGood(p, t, n - 1, env, now);
      ConnectOneTwins(p, Connect(p, t, n - 1, env, now), n - 1, env, now, Connect(p, t, n, env, now));
    }
  }

  /** With `handshake_timeout <= reconnect_interval`, a pass leaves at most one pending handshake per
      configuration if it found no more than that. */
  lemma PassKeepsAtMostOne(p: Params, t: State, env: Env, now: int)
    requires p.Valid() && p.handshakeTimeout <= p.reconnectInterval && Good(t) && AtMostOne(t)
    ensures AtMostOne(Housekeeping(p, t, env, now))
  {
    ConnectTwins(p, t, |t.configs|, env, now);
    PassLeavesYoung(p, t, env, now);
  }

  // ----- the search for a free pending slot never fails

  ghost function ActiveSet(t: State): (r: set<nat>)
    requires Shape(t)
    ensures forall j :: j in r <==> 0 <= j < MAX_PEERS && t.pending[j].active
  {
    set j: nat | j < MAX_PEERS && t.pending[j].active
  }

  /** The first `n` configurations that have an endpoint. */
  ghost function Endpoints(configs: seq<Config>, n: nat): (r: set<nat>)
    requires n <= |configs|
  {
    set c: nat | c < n && configs[c].hasEndpoint
  }

  lemma {:induction false} InjectiveSize(a: set<nat>, b: set<nat>, f: nat -> nat)
    requires forall x :: x in a ==> f(x) in b
    requires forall x, y :: x in a && y in a && x != y ==> f(x) != f(y)
    ensures |a| <= |b|
    decreases a
  {
    if a != {} {
      var x :| x in a;
      InjectiveSize(a - {x}, b - {f(x)}, f);
    }
  }

  lemma PendingAtMostEndpoints(t: State)
    requires Good(t) && AtMostOne(t)
    ensures |ActiveSet(t)| <= |Endpoints(t.configs, |t.configs|)|
  {
    var f := (j: nat) => if j < |t.pending| then t.pending[j].cfgIdx else 0;
    InjectiveSize(ActiveSet(t), Endpoints(t.configs, |t.configs|), f);
  }

  /** The configurations of `a` and `b` have endpoints in the same places. */
  ghost predicate SameEndpoints(a: seq<Config>, b: seq<Config>) {
    |a| == |b| && forall c :: 0 <= c < |a| ==> a[c].hasEndpoint == b[c].hasEndpoint
  }

  lemma ConnectOneGrowth(p: Params, t: State, i: nat, env: Env, now: int, r: State)
    requires Shape(t) && i < |t.configs| && r == ConnectOne(p, t, i, env, now)
    ensures Shape(r) && SameEndpoints(t.configs, r.configs)
    ensures |ActiveSet(r)| <= |ActiveSet(t)| + if t.configs[i].hasEndpoint then 1 else 0
  {
    ConnectOnePending(p, t, i, env, now);
    if r.pending == t.pending {
      assert ActiveSet(r) == ActiveSet(t);
    } else {
      var j :| 0 <= j < MAX_PEERS && !t.pending[j].active && r.pending == t.pending[j := r.pending[j]] &&
        r.pending[j].active;
      OneMorePending(t, r, j);
    }
  }

  lemma OneMorePending(t: State, r: State, j: nat)
    requires Shape(t) && Shape(r) && j < MAX_PEERS && !t.pending[j].active
    requires r.pending == t.pending[j := r.pending[j]] && r.pending[j].active
    ensures |ActiveSet(r)| == |ActiveSet(t)| + 1
  {
    assert ActiveSet(r) == ActiveSet(t) + {j};
  }

  lemma EndpointsGrow(a: seq<Config>, b: seq<Config>, n: nat)
    requires SameEndpoints(a, b) && 0 < n <= |a|
    ensures |Endpoints(a, n)| == |Endpoints(a, n - 1)| + if b[n - 1].hasEndpoint then 1 else 0
  {
    if a[n - 1].hasEndpoint {
      assert Endpoints(a, n) == Endpoints(a, n - 1) + {n - 1};
    } else {
      assert Endpoints(a, n) == Endpoints(a, n - 1);
    }
  }

  lemma {:induction false} ConnectGrowth(p: Params, t: State, n: nat, env: Env, now: int)
    requires Shape(t) && n <= |t.configs|
    ensures SameEndpoints(t.configs, Connect(p, t, n, env, now).configs)
    ensures |ActiveSet(Connect(p, t, n, env, now))| <= |ActiveSet(t)| + |Endpoints(t.configs, n)|
  {
    hide ConnectOne, Shape;
    if n > 0 {
      var t' := Connect(p, t, n - 1, env, now);
      ConnectGrowth(p, t, n - 1, env, now);
      ConnectOneGrowth(p, t', n - 1, env, now, Connect(p, t, n, env, now));
      EndpointsGrow(t.configs, t'.configs, n);
    }
  }

  lemma {:induction false} FullIsAll(n: nat, s: set<nat>)
    requires forall j :: j in s <==> 0 <= j < n
    ensures |s| == n
  {
    if n > 0 {
      FullIsAll(n - 1, s - {n - 1});
    } else {
      assert s == {};
    }
  }

  /** With at most 32 endpoints, and at most one pending handshake each before the pass, every
      initiation of the pass finds a free pending slot. */
  lemma PendingSearchNeverFails(p: Params, t: State, i: nat, env: Env, now: int)
    requires Shape(t) && Good(t) && AtMostOne(t) && i < |t.configs| && t.configs[i].hasEndpoint
    requires |Endpoints(t.configs, |t.configs|)| <= 32
    ensures FreePending(Connect(p, t, i, env, now)).Some?
  {
    hide Connect, TableOk, RekeyOk;
    PendingAtMostEndpoints(t);
    ConnectGrowth(p, t, i, env, now);
    var all := Endpoints(t.configs, |t.configs|);
    assert Endpoints(t.configs, i) <= all - {i};
    SubsetSize(Endpoints(t.configs, i), all - {i});
    var t' := Connect(p, t, i, env, now);
    if FreePending(t').None? {
      FullIsAll(MAX_PEERS, ActiveSet(t'));
    }
  }
}
