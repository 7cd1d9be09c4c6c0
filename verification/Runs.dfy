/** Runs of a peer: any sequence of critical sections, at any times, from the zero-initialised tables. */
module Runs {
  import opened Options
  import opened Wire
  import opened Sessions
  import opened Tables
  import opened Invariants
  import opened Passes

  /** What stays fixed during a run. */
  datatype Node = Node(p: Params, aead: Aead, myPub: Bytes)

  /** A critical section and the outcomes of its foreign calls. */
  datatype Action =
    | Handshake(src: Addr, recv: Recv, reply: Answer)
    | Pass(env: Env)
    | Data(src: Addr, wire: Bytes, sent: bool)
    | Tun(packet: Bytes, sent: bool)

  datatype Event = Event(at: int, act: Action)

  function Step(n: Node, t: State, e: Event): (r: State)
    requires Shape(t)
    ensures Shape(r)
  {
    match e.act
    case Handshake(src, recv, reply) => OnHandshake(n.p, t, n.myPub, src, recv, reply, e.at)
    case Pass(env) => Housekeeping(n.p, t, env, e.at)
    case Data(src, wire, sent) => OnData(t, n.aead, src, wire, sent, e.at).0
    case Tun(packet, sent) => OnTun(t, packet, sent, e.at)
  }

  function Run(n: Node, start: State, es: seq<Event>): (r: State)
    requires Shape(start)
    ensures Shape(r)
  {
    if es == [] then start else Step(n, Run(n, start, es[..|es| - 1]), es[|es| - 1])
  }

  lemma RunUnfolds(n: Node, start: State, es: seq<Event>, k: nat)
    requires Shape(start) && k < |es|
    ensures Run(n, start, es[..k + 1]) == Step(n, Run(n, start, es[..k]), es[k])
    ensures Run(n, start, []) == start
  {
    hide Step, Shape;
    assert es[..k + 1][..k] == es[..k];
  }

  /** The tables after `load_config`: nothing active yet. */
  ghost predicate Initial(t: State) {
    && Shape(t) && t.slots == 0 && |t.configs| <= MAX_PEERS
    && (forall i :: 0 <= i < MAX_PEERS ==> !t.sessions[i].active)
    && (forall j :: 0 <= j < MAX_PEERS ==> !t.pending[j].active)
  }

  // ----- the table invariant holds in every run

  lemma DataKeepsGood(t: State, aead: Aead, src: Addr, wire: Bytes, sent: bool, now: int)
    requires Shape(t) && Good(t)
    ensures Good(OnData(t, aead, src, wire, sent, now).0)
  {
    hide Good, Dispatch, FindByAddr;
    match FindByAddr(t, src) {
      case None =>
      case Some(i) =>
        var (s, v) := Received(aead, t.sessions[i], wire, now);
        HarmlessKeepsGood(t, i, s);
        var t' := SetSession(t, i, s);
        if v.Passed? && Dispatch(t', i, v.payload).Relayed? {
          var k := Dispatch(t', i, v.payload).slot;
          HarmlessKeepsGood(t', k, Forwarded(t'.sessions[k], sent, now));
        }
    }
  }

  lemma TunKeepsGood(t: State, packet: Bytes, sent: bool, now: int)
    requires Good(t)
    ensures Good(OnTun(t, packet, sent, now))
  {
    match TunRoute(t, packet) {
      case None =>
      case Some(i) => HarmlessKeepsGood(t, i, Forwarded(t.sessions[i], sent, now));
    }
  }

  lemma StepKeepsGood(n: Node, t: State, e: Event)
    requires n.p.Valid() && Shape(t) && Good(t)
    ensures Good(Step(n, t, e))
  {
    hide Good, Shape, OnHandshake, Housekeeping, OnData, OnTun;
    match e.act {
      case Handshake(src, recv, reply) => HandshakeKeepsGood(n.p, t, n.myPub, src, recv, reply, e.at);
      case Pass(env) => PassKeepsGood(n.p, t, env, e.at);
      case Data(src, wire, sent) => DataKeepsGood(t, n.aead, src, wire, sent, e.at);
      case Tun(packet, sent) => TunKeepsGood(t, packet, sent, e.at);
    }
  }

  /** In every reachable state: active slots below `session_slots`, pairwise distinct configured keys with
      the prefixes of a configuration, and a pending handshake behind every rekeying session. */
  lemma {:induction false} RunKeepsGood(n: Node, start: State, es: seq<Event>)
    requires n.p.Valid() && Shape(start) && Initial(start)
    ensures Good(Run(n, start, es))
  {
    hide Step, Shape;
    if es != [] {
      RunKeepsGood(n, start, es[..|es| - 1]);
      StepKeepsGood(n, Run(n, start, es[..|es| - 1]), es[|es| - 1]);
    }
  }

  /** Neither call site of `alloc_session` ever finds the table full. */
  lemma TableNeverFull(n: Node, start: State, es: seq<Event>, c: nat, j: nat, addr: Addr)
    requires n.p.Valid() && Initial(start) && c < |Run(n, start, es).configs| && j < MAX_PEERS
    ensures var t := Run(n, start, es);
            && Alloc(t, t.configs[c].pub, addr).1.Some?
            && Alloc(Consume(t, j), t.configs[c].pub, addr).1.Some?
  {
    RunKeepsGood(n, start, es);
    var t := Run(n, start, es);
    AllocNeverFails(t, c, addr);
    AllocNeverFails(Consume(t, j), c, addr);
  }

  // ----- pending handshakes in every run

  lemma HandshakeFewerPending(p: Params, t: State, myPub: Bytes, src: Addr, recv: Recv, reply: Answer, now: int)
    requires Shape(t)
    ensures FewerPending(t, OnHandshake(p, t, myPub, src, recv, reply, now))
  {}

  lemma StepKeepsAtMostOne(n: Node, t: State, e: Event)
    requires n.p.Valid() && n.p.handshakeTimeout <= n.p.reconnectInterval && Shape(t) && Good(t) && AtMostOne(t)
    ensures AtMostOne(Step(n, t, e))
  {
    hide Good, OnHandshake, Housekeeping, Received, Dispatch, FindByAddr;
    match e.act {
      case Handshake(src, recv, reply) => HandshakeFewerPending(n.p, t, n.myPub, src, recv, reply, e.at);
      case Pass(env) => PassKeepsAtMostOne(n.p, t, env, e.at);
      case Data(src, wire, sent) =>
      case Tun(packet, sent) =>
    }
  }

  /** With `handshake_timeout <= reconnect_interval`, no configuration ever has two pending handshakes
      between critical sections. */
  lemma {:induction false} RunKeepsAtMostOne(n: Node, start: State, es: seq<Event>)
    requires n.p.Valid() && n.p.handshakeTimeout <= n.p.reconnectInterval && Shape(start) && Initial(start)
    ensures AtMostOne(Run(n, start, es))
  {
    hide Step, Shape, Good;
    if es != [] {
      RunKeepsAtMostOne(n, start, es[..|es| - 1]);
      RunKeepsGood(n, start, es[..|es| - 1]);
      StepKeepsAtMostOne(n, Run(n, start, es[..|es| - 1]), es[|es| - 1]);
    }
  }

  /** After every pass of every run, a session marked `rekeying` waits for a handshake to its own key
      that is younger than `handshake_timeout`. */
  lemma RunNoStuckRekeying(n: Node, start: State, es: seq<Event>, env: Env, now: int, i: nat)
    requires n.p.Valid() && Initial(start) && i < MAX_PEERS
    requires var r := Housekeeping(n.p, Run(n, start, es), env, now); r.sessions[i].active && r.sessions[i].rekeying
    ensures var r := Housekeeping(n.p, Run(n, start, es), env, now);
            exists j :: 0 <= j < MAX_PEERS && r.pending[j].active &&
              Shape(r) && r.configs[r.pending[j].cfgIdx].pub == r.sessions[i].pub &&
              now - r.pending[j].sentAt < n.p.handshakeTimeout
  {
    RunKeepsGood(n, start, es);
    NoStuckRekeying(n.p, Run(n, start, es), env, now, i);
  }

  // ----- configurations keep their identity

  ghost predicate SameConfigs(a: seq<Config>, b: seq<Config>) {
    |a| == |b| && forall c :: 0 <= c < |a| ==>
      b[c].pub == a[c].pub && b[c].routes == a[c].routes && b[c].hasEndpoint == a[c].hasEndpoint
  }

  lemma ConnectOneSameConfigs(p: Params, t: State, i: nat, env: Env, now: int, r: State)
    requires Shape(t) && i < |t.configs| && r == ConnectOne(p, t, i, env, now)
    ensures SameConfigs(t.configs, r.configs)
  {
    hide FindByPub, FreePending;
  }

  lemma {:induction false} ConnectSameConfigs(p: Params, t: State, n: nat, env: Env, now: int)
    requires Shape(t) && n <= |t.configs|
    ensures SameConfigs(t.configs, Connect(p, t, n, env, now).configs)
  {
    hide ConnectOne, Shape;
    if n > 0 {
      ConnectSameConfigs(p, t, n - 1, env, now);
      ConnectOneSameConfigs(p, Connect(p, t, n - 1, env, now), n - 1, env, now, Connect(p, t, n, env, now));
    }
  }

  lemma StepSameConfigs(n: Node, t: State, e: Event)
    requires Shape(t)
    ensures SameConfigs(t.configs, Step(n, t, e).configs)
  {
    hide OnHandshake, Housekeeping, Received, Dispatch, FindByAddr;
    match e.act {
      case Handshake(src, recv, reply) => HandshakeFewerPending(n.p, t, n.myPub, src, recv, reply, e.at);
      case Pass(env) =>
        ConnectSameConfigs(n.p, t, |t.configs|, env, e.at);
        PassLeavesYoung(n.p, t, env, e.at);
      case Data(src, wire, sent) =>
      case Tun(packet, sent) =>
    }
  }

  lemma {:induction false} RunSameConfigs(n: Node, start: State, es: seq<Event>)
    requires Shape(start)
    ensures SameConfigs(start.configs, Run(n, start, es).configs)
  {
    hide Step, Shape;
    if es != [] {
      RunSameConfigs(n, start, es[..|es| - 1]);
      StepSameConfigs(n, Run(n, start, es[..|es| - 1]), es[|es| - 1]);
    }
  }

  /** With `handshake_timeout <= reconnect_interval` and at most 32 configured endpoints, no initiation of
      any pass ever finds the pending table full. */
  lemma PendingTableNeverFull(n: Node, start: State, es: seq<Event>, i: nat, env: Env, now: int)
    requires n.p.Valid() && n.p.handshakeTimeout <= n.p.reconnectInterval && Initial(start)
    requires |Endpoints(start.configs, |start.configs|)| <= 32
    requires i < |Run(n, start, es).configs| && Run(n, start, es).configs[i].hasEndpoint
    ensures FreePending(Connect(n.p, Run(n, start, es), i, env, now)).Some?
  {
    RunKeepsGood(n, start, es);
    RunKeepsAtMostOne(n, start, es);
    RunSameConfigs(n, start, es);
    var t := Run(n, start, es);
    assert Endpoints(t.configs, |t.configs|) == Endpoints(start.configs, |start.configs|);
    PendingSearchNeverFails(n.p, t, i, env, now);
  }
}
