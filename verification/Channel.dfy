/** Why non-interference has its condition: a run in which a deleted previous-key packet matters. */
module Channel {
  import opened Options
  import opened Wire
  import opened Sessions
  import opened Tables
  import opened Runs
  import opened SlotHistory
  import opened NonInterference
  import opened Scenes
  import Replay

  function LateWire(): Bytes {
    Encrypted(TOY_CIPHER, KEY_A, NONCE, Frame(7, Packet()))
  }

  function CurrentWire(): Bytes {
    Encrypted(TOY_CIPHER, KEY_B, NONCE, Frame(0, Packet()))
  }

  /** A session installed at 1000 and rekeyed at 1010, a packet under the old key at 1100, a pass at 1551, and a
      packet under the current key at 1552. */
  function LateRun(env: Env): seq<Event> {
    [Initiation(1000, ADDR, PUB, KEY_A),
     Initiation(1010, ADDR, PUB, KEY_B),
     Event(1100, Data(ADDR, LateWire(), true)),
     Event(1551, Pass(env)),
     Event(1552, Data(ADDR, CurrentWire(), true))]
  }

  /** The session after both installs. */
  function Rekeyed(blank: Session): Session {
    FirstSession(DEFAULTS, FirstSession(DEFAULTS, blank, KEY_A, 1000), KEY_B, 1010)
  }

  lemma LateReceived(s: Session, now: int)
    requires s.window.Valid() && s.key == KEY_B && s.prevKey == KEY_A && s.prevActive && now <= s.prevExpires
    ensures Opened(TOY_CIPHER, s, LateWire(), now) == Some((Previous, Frame(7, Packet())))
    ensures Received(TOY_CIPHER, s, LateWire(), now).0 == s.(lastSeen := now)
  {
    hide Encrypted, Decrypted, Frame, Packet;
    DecryptRoundTrip(TOY_CIPHER, KEY_A, NONCE, Frame(7, Packet()));
    OpensUnderOwnKeyOnly(KEY_A, KEY_B, NONCE, Frame(7, Packet()));
    PreviousReceive(TOY_CIPHER, s, LateWire(), now);
  }

  lemma LatePacket(n: Node, t: State, s: Session, e: Event)
    requires OnlySlot(t, s) && n.aead == TOY_CIPHER && e.act == Data(ADDR, LateWire(), true)
    requires s.key == KEY_B && s.prevKey == KEY_A && s.prevActive && e.at <= s.prevExpires
    ensures UnderPrevious(n, t, e) && Step(n, t, e).sessions[0] == s.(lastSeen := e.at)
  {
    hide Step, Received, Opened, LateWire;
    SoleSession(t, s);
    SoleReceiver(n, t, s, e);
    LateReceived(s, e.at);
    PacketSlot(n, t, e, 0);
  }

  /** Up to the pass: with the late packet the session was seen at 1100, without it never. */
  lemma LateStates(n: Node, start: State, env: Env)
    requires n.p == DEFAULTS && n.aead == TOY_CIPHER && Shape(start) && Initial(start) && OnlyPeer(start)
    ensures var es, s := LateRun(env), Rekeyed(start.sessions[0]);
            && HeardAt(n, start, es, 3)
            && Full(n, start, es, 3).slots == 1 && Thinned(n, start, es, 3).slots == 1
            && Full(n, start, es, 3).sessions[0] == s.(lastSeen := 1100)
            && Thinned(n, start, es, 3).sessions[0] == s
  {
    hide Step, OnlySlot, UnderPrevious, Initial, LateWire, CurrentWire, HeardAt, AlikeAt, AlikeStates, Full, Thinned;
    var es, s := LateRun(env), Rekeyed(start.sessions[0]);
    LateInstalls(n, start, env);
    UnfoldRuns(n, start, es, 2);
    var t := Full(n, start, es, 2);
    LatePacket(n, t, s, es[2]);
    PreviousStepAlike(n, t, es[2]);
    LateSlots(t, s, Full(n, start, es, 3));
    AlikeUpTo(n, start, es, 3);
  }

  lemma LateInstalls(n: Node, start: State, env: Env)
    requires n.p == DEFAULTS && n.aead == TOY_CIPHER && Shape(start) && Initial(start) && OnlyPeer(start)
    ensures var es := LateRun(env);
            && Full(n, start, es, 2) == Thinned(n, start, es, 2)
            && OnlySlot(Full(n, start, es, 2), Rekeyed(start.sessions[0]))
  {
    hide Step, OnlySlot, UnderPrevious, Initial, LateWire, CurrentWire, Full, Thinned;
    var es := LateRun(env);
    StartStates(n, start, es);
    UnfoldRuns(n, start, es, 0);
    UnfoldRuns(n, start, es, 1);
    NotUnderPrevious(n, start, es[0]);
    NotUnderPrevious(n, Full(n, start, es, 1), es[1]);
    FirstInstall(n, start, 1000, KEY_A);
    NextInstall(n, Full(n, start, es, 1), FirstSession(DEFAULTS, start.sessions[0], KEY_A, 1000), 1010, KEY_B);
  }

  lemma LateSlots(t: State, s: Session, u: State)
    requires OnlySlot(t, s) && AlikeStates(t, u)
    ensures t.slots == u.slots == 1 && t.sessions[0] == s
  {}

  lemma StartStates(n: Node, start: State, es: seq<Event>)
    requires Shape(start)
    ensures Full(n, start, es, 0) == Thinned(n, start, es, 0) == start
  {}

  lemma NotUnderPrevious(n: Node, t: State, e: Event)
    requires Shape(t) && !e.act.Data?
    ensures !UnderPrevious(n, t, e)
  {}

  lemma KeptByLatePacket(n: Node, t: State, s: Session, pass: Event, e: Event)
    requires Shape(t) && t.slots == 1 && t.sessions[0] == s && s.active && s.addr == ADDR && s.key == KEY_B
    requires n.aead == TOY_CIPHER && s.window == Replay.Fresh() && pass.act.Pass? && !Expires(n.p, s, pass.at)
    requires e.act.Data? && e.act.src == ADDR && e.act.wire == CurrentWire()
    ensures VerdictOn(n, Step(n, t, pass), e) == Some(Passed(Current, 0, Packet()))
  {
    hide Step, Housekeeping, Received, Encrypted, Frame, Packet, Replay.Check;
    PassStep(n, t, pass);
    PassSlot(n.p, t, pass.act.env, pass.at, 0);
    PassExpires(n.p, t, pass.act.env, pass.at, 0);
    var t' := Step(n, t, pass);
    FirstIndexIs(t'.sessions[..1], (s: Session) => s.active && s.addr == ADDR, Some(0));
    CurrentKeyDelivery(n.aead, t'.sessions[0], NONCE, 0, Packet(), e.at);
    Replay.FreshRecordsNothing();
    Replay.CheckDecides(Replay.Fresh(), {}, 0);
  }

  lemma GoneWithoutIt(n: Node, t: State, s: Session, pass: Event, e: Event)
    requires Shape(t) && t.slots == 1 && t.sessions[0] == s && pass.act.Pass? && Expires(n.p, s, pass.at)
    requires e.act.Data?
    ensures VerdictOn(n, Step(n, t, pass), e) == None
  {
    hide Step, Housekeeping, Received;
    PassStep(n, t, pass);
    PassExpires(n.p, t, pass.act.env, pass.at, 0);
    FirstIndexIs(Step(n, t, pass).sessions[..1], (s: Session) => s.active && s.addr == e.act.src, None);
  }

  lemma NotSettled(n: Node, start: State, es: seq<Event>, k: nat)
    requires Shape(start) && k < |es| && es[k].act.Pass? && HeardAt(n, start, es, k) && Full(n, start, es, k).slots == 1
    requires var s, r := Full(n, start, es, k).sessions[0], Thinned(n, start, es, k).sessions[0];
             r == s.(lastSeen := r.lastSeen) && Expires(n.p, r, es[k].at) && !Expires(n.p, s, es[k].at)
    ensures !SettledAt(n, start, es, k)
  {
    hide Full, Thinned, Heard, Expires;
    assert Thinned(n, start, es, k).sessions[0].lastSeen == Heard(n, start, es[..k], 0);
  }

  /** With the default settings, the late packet keeps the session from expiring. A packet under the current key then
      passes, which finds no session at all if the late packet is deleted. */
  lemma LastSeenIsTheChannel(n: Node, start: State, env: Env)
    requires n.p == DEFAULTS && n.aead == TOY_CIPHER && Shape(start) && Initial(start) && OnlyPeer(start)
    ensures var es := LateRun(env);
            && !SettledAt(n, start, es, 3)
            && VerdictOn(n, Full(n, start, es, 4), es[4]) == Some(Passed(Current, 0, Packet()))
            && VerdictOn(n, Thinned(n, start, es, 4), es[4]) == None
  {
    hide Step, UnderPrevious, Full, Thinned, Initial, LateWire, CurrentWire, SettledAt, HeardAt, VerdictOn, Packet;
    var es, s := LateRun(env), Rekeyed(start.sessions[0]);
    LateStates(n, start, env);
    UnfoldRuns(n, start, es, 3);
    var t, u := Full(n, start, es, 3), Thinned(n, start, es, 3);
    NotUnderPrevious(n, t, es[3]);
    KeptByLatePacket(n, t, s.(lastSeen := 1100), es[3], es[4]);
    GoneWithoutIt(n, u, s, es[3], es[4]);
    NotSettled(n, start, es, 3);
  }
}
