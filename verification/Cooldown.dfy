/** The per-key handshake cooldown of a relay, over whole runs in which packets may carry a time read before they got
    the lock. */
module Cooldown {
  import opened Options
  import opened Wire
  import opened Sessions
  import opened Tables
  import opened Invariants
  import opened Runs
  import opened SlotHistory
  import opened NonInterference
  import opened Scenes

  /** No configured endpoint: the peer never initiates. */
  ghost predicate Relay(t: State) {
    forall c :: 0 <= c < |t.configs| ==> !t.configs[c].hasEndpoint
  }

  /** Event `i` of the run installs a session for `pub`. */
  ghost predicate InstallsKey(n: Node, start: State, es: seq<Event>, i: nat, pub: Bytes)
    requires Shape(start) && i < |es|
  {
    var x := Installs(n, Run(n, start, es[..i]), es[i]);
    x.Some? && x.value.cfg.pub == pub
  }

  /** A section under the write lock. */
  predicate Writes(e: Event) {
    e.act.Handshake? || e.act.Pass?
  }

  /** Sections under the write lock read a clock that does not go back; the time of a packet, read before it got the
      read lock, is at most `lag` behind. */
  ghost predicate Lagging(es: seq<Event>, lag: nat) {
    && (forall i :: 0 <= i < |es| ==> es[i].at >= 0)
    && forall i, j :: 0 <= i < j < |es| && Writes(es[i]) ==> es[i].at - (if Writes(es[j]) then 0 else lag) <= es[j].at
  }

  /** The time of the last section under the write lock. */
  function Clock(es: seq<Event>): int {
    if es == [] then 0 else if Writes(es[|es| - 1]) then es[|es| - 1].at else Clock(es[..|es| - 1])
  }

  lemma {:induction false} ClockLags(es: seq<Event>, lag: nat)
    requires es != [] && Lagging(es, lag)
    ensures var e, clock := es[|es| - 1], Clock(es[..|es| - 1]);
            clock - (if Writes(e) then 0 else lag) <= e.at && clock <= Clock(es)
    decreases |es|
  {
    var earlier := es[..|es| - 1];
    if earlier != [] && !Writes(earlier[|earlier| - 1]) {
      var shorter := earlier[..|earlier| - 1] + [es[|es| - 1]];
      ShorterLags(es, lag, shorter);
      assert shorter[..|shorter| - 1] == earlier[..|earlier| - 1];
      ClockLags(shorter, lag);
    }
  }

  lemma ShorterLags(es: seq<Event>, lag: nat, shorter: seq<Event>)
    requires |es| >= 2 && Lagging(es, lag) && shorter == es[..|es| - 2] + [es[|es| - 1]]
    ensures Lagging(shorter, lag)
  {}

  /** Times recorded in a session: installed by now, and last seen at most `lag` before that. */
  ghost predicate TimesOk(s: Session, clock: int, lag: nat) {
    s.active ==> s.lastHandshake <= clock && (s.lastSeen > 0 ==> s.lastHandshake - lag <= s.lastSeen)
  }

  lemma StepTimes(n: Node, t: State, e: Event, clock: int, lag: nat, i: nat)
    requires Shape(t) && i < MAX_PEERS && TimesOk(t.sessions[i], clock, lag)
    requires clock - (if Writes(e) then 0 else lag) <= e.at
    ensures TimesOk(Step(n, t, e).sessions[i], if Writes(e) then e.at else clock, lag)
  {
    hide Step, Housekeeping;
    match e.act {
      case Handshake(src, recv, reply) => HandshakeSlot(n, t, e, i);
      case Pass(env) => PassSlot(n.p, t, env, e.at, i); PassStep(n, t, e);
      case Data(src, wire, sent) => PacketSlot(n, t, e, i);
      case Tun(packet, sent) => PacketSlot(n, t, e, i);
    }
  }

  /** Key `pub` sits in slot `i`, installed at `since` or later. */
  ghost predicate HeldIn(t: State, i: nat, pub: Bytes, since: int)
    requires Shape(t)
  {
    i < MAX_PEERS && t.sessions[i].active && t.sessions[i].pub == pub && t.sessions[i].lastHandshake >= since
  }

  ghost predicate Held(t: State, pub: Bytes, since: int)
    requires Shape(t)
  {
    exists i :: HeldIn(t, i, pub, since)
  }

  lemma {:induction false} RunTimes(n: Node, start: State, es: seq<Event>, lag: nat, i: nat)
    requires Shape(start) && Initial(start) && Lagging(es, lag) && i < MAX_PEERS
    ensures TimesOk(Run(n, start, es).sessions[i], Clock(es), lag)
  {
    hide Step, Shape;
    if es != [] {
      RunTimes(n, start, es[..|es| - 1], lag, i);
      ClockLags(es, lag);
      StepTimes(n, Run(n, start, es[..|es| - 1]), es[|es| - 1], Clock(es[..|es| - 1]), lag, i);
    }
  }

  /** A relay has no pending handshakes, so every handshake packet is inbound. */
  lemma RelayHasNoPending(t: State, src: Addr)
    requires Good(t) && Relay(t)
    ensures PendingFrom(t, src).None?
  {}

  /** A slot holding one key is taken over for another only by address, after its own cooldown. */
  lemma TakeoverIsCooled(n: Node, t: State, e: Event, i: nat)
    requires Good(t) && Relay(t) && i < MAX_PEERS && t.sessions[i].active
    requires Installs(n, t, e).Some? && Installs(n, t, e).value.slot == i
    ensures e.at - t.sessions[i].lastHandshake >= n.p.handshakeCooldown
  {}

  /** A key stays in the table for at least the cooldown: nothing removes it sooner. */
  lemma HeldStays(n: Node, t: State, e: Event, clock: int, lag: nat, pub: Bytes, since: int, i: nat)
    requires Shape(t) && Good(t) && Relay(t) && n.p.handshakeCooldown + lag <= n.p.sessionExpiry + 1
    requires HeldIn(t, i, pub, since) && TimesOk(t.sessions[i], clock, lag)
    ensures HeldIn(Step(n, t, e), i, pub, since) || (Writes(e) && e.at >= since + n.p.handshakeCooldown)
  {
    hide Step, Housekeeping, Installs, Good, Received, Relay;
    match e.act {
      case Handshake(src, recv, reply) =>
        HandshakeSlot(n, t, e, i);
        if Installs(n, t, e).Some? && Installs(n, t, e).value.slot == i {
          TakeoverIsCooled(n, t, e, i);
        }
      case Pass(env) => PassSlot(n.p, t, env, e.at, i); PassStep(n, t, e);
      case Data(src, wire, sent) => PacketSlot(n, t, e, i); ReceivedKeepsIdentity(n.aead, t.sessions[i], wire, e.at);
      case Tun(packet, sent) => PacketSlot(n, t, e, i);
    }
  }

  lemma ReceivedKeepsIdentity(aead: Aead, s: Session, wire: Bytes, now: int)
    requires s.window.Valid()
    ensures var r := Received(aead, s, wire, now).0;
            r.active == s.active && r.pub == s.pub && r.lastHandshake == s.lastHandshake
  {}

  lemma RunIsRelay(n: Node, start: State, es: seq<Event>)
    requires Initial(start) && Relay(start)
    ensures Relay(Run(n, start, es))
  {
    RunSameConfigs(n, start, es);
  }

  lemma {:induction false} HeldAlong(n: Node, start: State, es: seq<Event>, lag: nat, i: nat, k: nat, pub: Bytes)
    requires n.p.Valid() && n.p.handshakeCooldown + lag <= n.p.sessionExpiry + 1
    requires Shape(start) && Initial(start) && Relay(start) && Lagging(es, lag)
    requires i < k <= |es| && InstallsKey(n, start, es, i, pub)
    ensures Held(Run(n, start, es[..k]), pub, es[i].at) || Clock(es[..k]) >= es[i].at + n.p.handshakeCooldown
    decreases k
  {
    hide Step, Shape, Installs, Relay, Good, Initial, Lagging;
    assert es[..k][..k - 1] == es[..k - 1];
    var t, e := Run(n, start, es[..k - 1]), es[k - 1];
    assert Run(n, start, es[..k]) == Step(n, t, e);
    PrefixLags(es, lag, k);
    PrefixLags(es, lag, k - 1);
    ClockLags(es[..k], lag);
    if k == i + 1 {
      InstallHolds(n, t, e);
    } else {
      HeldAlong(n, start, es, lag, i, k - 1, pub);
      if Held(t, pub, es[i].at) {
        var slot :| HeldIn(t, slot, pub, es[i].at);
        RunKeepsGood(n, start, es[..k - 1]);
        RunIsRelay(n, start, es[..k - 1]);
        RunTimes(n, start, es[..k - 1], lag, slot);
        HeldStays(n, t, e, Clock(es[..k - 1]), lag, pub, es[i].at, slot);
      }
    }
  }

  lemma PrefixLags(es: seq<Event>, lag: nat, k: nat)
    requires Lagging(es, lag) && k <= |es|
    ensures Lagging(es[..k], lag)
  {}

  lemma InstallHolds(n: Node, t: State, e: Event)
    requires Shape(t) && Installs(n, t, e).Some?
    ensures Held(Step(n, t, e), Installs(n, t, e).value.cfg.pub, e.at)
  {
    var i := Installs(n, t, e).value.slot;
    HandshakeSlot(n, t, e, i);
    assert HeldIn(Step(n, t, e), i, Installs(n, t, e).value.cfg.pub, e.at);
  }

  /** On a relay with `handshake_cooldown + lag <= session_expiry + 1`, two installs for one key are at least
      `handshake_cooldown` apart in every run, whatever happens in between. */
  lemma InstallsAreApart(n: Node, start: State, es: seq<Event>, lag: nat, i: nat, j: nat, pub: Bytes)
    requires n.p.Valid() && n.p.handshakeCooldown + lag <= n.p.sessionExpiry + 1
    requires Initial(start) && Relay(start) && Lagging(es, lag) && i < j < |es|
    ensures InstallsKey(n, start, es, i, pub) && InstallsKey(n, start, es, j, pub) ==>
              es[j].at - es[i].at >= n.p.handshakeCooldown
  {
    hide Run, Installs, Lagging;
    if InstallsKey(n, start, es, i, pub) && InstallsKey(n, start, es, j, pub) {
      HeldAlong(n, start, es, lag, i, j, pub);
      var t := Run(n, start, es[..j]);
      RunKeepsGood(n, start, es[..j]);
      RunIsRelay(n, start, es[..j]);
      if Held(t, pub, es[i].at) {
        var slot :| HeldIn(t, slot, pub, es[i].at);
        ReinstallIsCooled(n, t, es[j], slot);
      } else {
        InstallWrites(n, t, es[j]);
        PrefixLags(es, lag, j + 1);
        assert es[..j + 1][..j] == es[..j];
        ClockLags(es[..j + 1], lag);
      }
    }
  }

  lemma InstallWrites(n: Node, t: State, e: Event)
    requires Shape(t) && Installs(n, t, e).Some?
    ensures Writes(e)
  {}

  lemma ReinstallIsCooled(n: Node, t: State, e: Event, i: nat)
    requires Good(t) && Relay(t) && i < MAX_PEERS && t.sessions[i].active
    requires Installs(n, t, e).Some? && Installs(n, t, e).value.cfg.pub == t.sessions[i].pub
    ensures e.at - t.sessions[i].lastHandshake >= n.p.handshakeCooldown
  {
    RelayHasNoPending(t, e.act.src);
    FindByPubFinds(t, t.sessions[i].pub);
  }

  // ----- the bound is exact

  /** An install, a packet that is `lag` late, a pass that counts its silence from there, and an install again. */
  function LaggingRun(p: Params, lag: nat, env: Env): seq<Event> {
    var again := lag + 1 + if p.sessionExpiry + 1 > lag then p.sessionExpiry + 1 - lag else 0;
    [Initiation(lag + 1, ADDR, PUB, KEY_A), Event(1, Data(ADDR, [], true)), Event(again, Pass(env)),
     Initiation(again, ADDR, PUB, KEY_B)]
  }

  /** With settings outside the bound, installs for one key can be less than the cooldown apart. */
  lemma LagBreaksSpacing(n: Node, start: State, lag: nat, env: Env)
    requires n.p.Valid() && n.p.handshakeCooldown + lag > n.p.sessionExpiry + 1
    requires Shape(start) && Initial(start) && Relay(start) && OnlyPeer(start)
    ensures var es := LaggingRun(n.p, lag, env);
            && Lagging(es, lag) && InstallsKey(n, start, es, 0, PUB) && InstallsKey(n, start, es, 3, PUB)
            && es[3].at - es[0].at < n.p.handshakeCooldown
  {
    hide Run, InstallsKey, Initial, Relay;
    InstallsFirst(n, start, LaggingRun(n.p, lag, env), lag);
    InstallsAgain(n, start, lag, env);
  }

  lemma InstallsFirst(n: Node, start: State, es: seq<Event>, lag: nat)
    requires n.p.Valid() && Shape(start) && Initial(start) && Relay(start) && OnlyPeer(start)
    requires es != [] && es[0] == Initiation(lag + 1, ADDR, PUB, KEY_A)
    ensures InstallsKey(n, start, es, 0, PUB)
  {
    hide Installs;
    RunKeepsGood(n, start, []);
    InstallsIntoFree(n, start, es[0]);
    assert es[..0] == [];
  }

  lemma InstallsAgain(n: Node, start: State, lag: nat, env: Env)
    requires n.p.Valid() && Shape(start) && Initial(start) && Relay(start) && OnlyPeer(start)
    ensures InstallsKey(n, start, LaggingRun(n.p, lag, env), 3, PUB)
  {
    hide Step, Run, Installs, OnlySlot, Initial, Relay, InstallsKey, Good;
    var es := LaggingRun(n.p, lag, env);
    RunUnfolds(n, start, es, 0);
    RunUnfolds(n, start, es, 1);
    RunUnfolds(n, start, es, 2);
    assert es[..0] == [];
    var s := FirstSession(n.p, start.sessions[0], KEY_A, lag + 1);
    FirstInstall(n, start, lag + 1, KEY_A);
    SeenLate(n, Run(n, start, es[..1]), s, 1);
    GoneSilent(n, Run(n, start, es[..2]), s.(lastSeen := 1), es[2]);
    RunKeepsGood(n, start, es[..3]);
    RunIsRelay(n, start, es[..3]);
    RunSameConfigs(n, start, es[..3]);
    InstallsIntoFree(n, Run(n, start, es[..3]), es[3]);
    InstallIn(n, start, es, 3);
  }

  /** Even a packet that does not open stamps `last_seen`. */
  lemma SeenLate(n: Node, t: State, s: Session, at: int)
    requires OnlySlot(t, s)
    ensures OnlySlot(Step(n, t, Event(at, Data(ADDR, [], true))), s.(lastSeen := at))
  {
    hide OnlySlot, OnData;
    SoleSession(t, s);
    SoleData(n, t, s, [], at);
  }

  lemma GoneSilent(n: Node, t: State, s: Session, pass: Event)
    requires OnlySlot(t, s) && pass.act.Pass? && pass.at - SilentSince(s) > n.p.sessionExpiry
    ensures Step(n, t, pass).slots == 1 && !Step(n, t, pass).sessions[0].active
  {
    hide Step, Housekeeping;
    PassStep(n, t, pass);
    PassExpires(n.p, t, pass.act.env, pass.at, 0);
  }

  /** With no active session, an initiation by the configured peer installs one. */
  lemma InstallsIntoFree(n: Node, t: State, e: Event)
    requires Good(t) && Relay(t) && t.slots <= 1 && (t.slots == 1 ==> !t.sessions[0].active)
    requires |t.configs| == 1 && t.configs[0].pub == PUB
    requires e.act.Handshake? && e.act.src == ADDR && e.act.reply.Some? && e.act.reply.value.0 == PUB
    ensures Installs(n, t, e).Some? && Installs(n, t, e).value.cfg.pub == PUB
  {
    RelayHasNoPending(t, ADDR);
  }

  lemma InstallIn(n: Node, start: State, es: seq<Event>, k: nat)
    requires Shape(start) && k < |es| && Installs(n, Run(n, start, es[..k]), es[k]).Some?
    requires Installs(n, Run(n, start, es[..k]), es[k]).value.cfg.pub == PUB
    ensures InstallsKey(n, start, es, k, PUB)
  {}
}
