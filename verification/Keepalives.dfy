/** Keepalives over whole runs: a pass sends one from a session exactly when nothing has gone out for long enough. */
module Keepalives {
  import opened Options
  import opened Wire
  import opened Sessions
  import opened Tables
  import opened Runs
  import opened SlotHistory
  import opened Network

  /** The event sends a datagram from slot `i`, and encryption and `sendto` succeed. */
  predicate SendsWell(n: Node, t: State, e: Event, i: nat)
    requires Shape(t) && i < MAX_PEERS
  {
    && Sends(n, t, e, i).Some?
    && match e.act
       case Handshake(_, _, _) => false
       case Pass(env) => env.iv(i).Some? && env.sendOk(i)
       case Data(_, _, sent) => sent
       case Tun(_, sent) => sent
  }

  /** When slot `i` last sent or was given a key, over a run. */
  function SentLast(n: Node, start: State, es: seq<Event>, i: nat): int
    requires Shape(start) && i < MAX_PEERS
  {
    if es == [] then start.sessions[i].lastSent
    else
      var t, e := Run(n, start, es[..|es| - 1]), es[|es| - 1];
      var x := Installs(n, t, e);
      if (x.Some? && x.value.slot == i) || SendsWell(n, t, e, i) then e.at else SentLast(n, start, es[..|es| - 1], i)
  }

  lemma PassSent(n: Node, t: State, e: Event, i: nat)
    requires Shape(t) && i < MAX_PEERS && e.act.Pass?
    ensures Step(n, t, e).sessions[i].lastSent == if SendsWell(n, t, e, i) then e.at else t.sessions[i].lastSent
  {
    hide Tables.Connect, TimeOut, Expire, Keepalive;
    var env, now := e.act.env, e.at;
    var t1 := Tables.Connect(n.p, t, |t.configs|, env, now);
    ConnectSlots(n.p, t, |t.configs|, env, now);
    var t2 := TimeOut(n.p, t1, MAX_PEERS, now);
    TimeOutSlots(n.p, t1, MAX_PEERS, now);
    var t3 := Expire(n.p, t2, t2.slots, now);
    ExpireSlots(n.p, t2, t2.slots, now, i);
    KeepaliveSlots(n.p, t3, t3.slots, env, now, i);
  }

  lemma PacketSent(n: Node, t: State, e: Event, i: nat)
    requires Shape(t) && i < MAX_PEERS && (e.act.Data? || e.act.Tun?)
    ensures Step(n, t, e).sessions[i].lastSent == if SendsWell(n, t, e, i) then e.at else t.sessions[i].lastSent
  {
    hide FindByAddr, Opened, Judged, Dispatch, TunRoute;
  }

  lemma StepSent(n: Node, t: State, e: Event, i: nat)
    requires Shape(t) && i < MAX_PEERS
    ensures var x := Installs(n, t, e);
            Step(n, t, e).sessions[i].lastSent ==
            if (x.Some? && x.value.slot == i) || SendsWell(n, t, e, i) then e.at else t.sessions[i].lastSent
  {
    hide Step, Sends;
    match e.act {
      case Handshake(_, _, _) => HandshakeSlot(n, t, e, i);
      case Pass(_) => PassSent(n, t, e, i);
      case Data(_, _, _) => PacketSent(n, t, e, i);
      case Tun(_, _) => PacketSent(n, t, e, i);
    }
  }

  lemma {:induction false} RunSent(n: Node, start: State, es: seq<Event>, i: nat)
    requires Shape(start) && i < MAX_PEERS
    ensures Run(n, start, es).sessions[i].lastSent == SentLast(n, start, es, i)
  {
    hide Step, Shape, SendsWell, Installs;
    if es != [] {
      RunSent(n, start, es[..|es| - 1], i);
      StepSent(n, Run(n, start, es[..|es| - 1]), es[|es| - 1], i);
    }
  }

  /** In every run, a pass at `now` sends a keepalive, an empty payload, from slot `i` if and only if the slot is in
      use and active, was heard or installed within `session_expiry`, and has sent nothing for `keepalive_interval`. */
  lemma KeepaliveIsExact(n: Node, start: State, es: seq<Event>, env: Env, now: int, i: nat)
    requires Shape(start) && i < MAX_PEERS
    ensures var t := Run(n, start, es);
            var s := t.sessions[i];
            var heard := if s.lastSeen > 0 then s.lastSeen else s.lastHandshake;
            var sent := Sends(n, t, Event(now, Pass(env)), i);
            && (sent.Some? ==> sent.value == [])
            && (sent.Some? <==>
                && i < t.slots && s.active && now - heard <= n.p.sessionExpiry
                && now - SentLast(n, start, es, i) >= n.p.keepaliveInterval)
  {
    hide Run, SentLast;
    RunSent(n, start, es, i);
  }
}
