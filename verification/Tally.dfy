/** The send counters of an interleaving: between two housekeeping passes they are those of the atomic run, less what
    the threads have decided to send and not numbered yet. A pass may tell the two apart, because it looks at
    `last_sent`. */
module Tally {
  import opened Options
  import opened Words
  import opened Wire
  import opened Sessions
  import opened Tables
  import opened Runs
  import opened SlotHistory
  import opened NonInterference
  import opened Reduction
  import Network

  /** The thread is going to take a number from slot `i`. */
  predicate Owes(t: State, pc: Pc, i: nat)
    requires Shape(t) && PcOk(t, pc)
  {
    || (pc.Leaving? && pc.slot == i)
    || (pc.Opened? && var o := Dispatch(t, pc.slot, pc.payload); o.Relayed? && o.slot == i)
  }

  /** How many threads do. */
  ghost function Owing(t: State, pcs: seq<Pc>, i: nat): nat
    requires Shape(t) && forall th :: 0 <= th < |pcs| ==> PcOk(t, pcs[th])
  {
    if pcs == [] then 0
    else Owing(t, pcs[..|pcs| - 1], i) + if Owes(t, pcs[|pcs| - 1], i) then 1 else 0
  }

  lemma {:induction false} OwingUpdate(t: State, pcs: seq<Pc>, th: nat, pc: Pc, i: nat)
    requires Shape(t) && (forall u :: 0 <= u < |pcs| ==> PcOk(t, pcs[u])) && th < |pcs| && PcOk(t, pc)
    ensures Owing(t, pcs[th := pc], i) + (if Owes(t, pcs[th], i) then 1 else 0) ==
            Owing(t, pcs, i) + if Owes(t, pc, i) then 1 else 0
  {
    hide Owes, PcOk, Shape;
    var n := |pcs| - 1;
    if th < n {
      assert pcs[th := pc][..n] == pcs[..n][th := pc];
      OwingUpdate(t, pcs[..n], th, pc, i);
    } else {
      assert pcs[th := pc][..n] == pcs[..n];
    }
  }

  lemma {:induction false} OwingSteady(t: State, u: State, pcs: seq<Pc>, i: nat)
    requires Steady(t, u) && forall th :: 0 <= th < |pcs| ==> PcOk(t, pcs[th])
    ensures (forall th :: 0 <= th < |pcs| ==> PcOk(u, pcs[th])) && Owing(u, pcs, i) == Owing(t, pcs, i)
  {
    hide Dispatch;
    if pcs != [] {
      OwingSteady(t, u, pcs[..|pcs| - 1], i);
      SteadyLookups(t, u);
    }
  }

  lemma {:induction false} NothingOwed(t: State, pcs: seq<Pc>, i: nat)
    requires Shape(t) && forall th :: 0 <= th < |pcs| ==> pcs[th].Rest?
    ensures Owing(t, pcs, i) == 0
  {
    hide Shape;
    if pcs != [] {
      NothingOwed(t, pcs[..|pcs| - 1], i);
    }
  }

  /** A counter and what is owed to it, as a counter shows it. */
  ghost function Due(x: World, i: nat): uint64
    requires Sized(x) && i < MAX_PEERS
  {
    (x.t.sessions[i].sendSeq + Owing(x.t, x.pcs, i)) % TWO_TO_THE_64
  }

  /** A step under the read lock moves thread `th` only, and leaves alone what lookups read. */
  ghost predicate Moves(x: World, y: World, th: nat) {
    && Sized(x) && Sized(y) && Steady(x.t, y.t)
    && th < |x.pcs| == |y.pcs| && y.pcs == x.pcs[th := y.pcs[th]]
  }

  lemma MoveOwes(x: World, y: World, th: nat, i: nat)
    requires Moves(x, y, th) && i < MAX_PEERS
    ensures Owing(y.t, y.pcs, i) + (if Owes(x.t, x.pcs[th], i) then 1 else 0) ==
            Owing(x.t, x.pcs, i) + if Owes(y.t, y.pcs[th], i) then 1 else 0
  {
    hide Owes, Steady, PcOk;
    SteadyShape(x.t, y.t, x.pcs[th]);
    OwingSteady(x.t, y.t, x.pcs, i);
    OwingUpdate(y.t, x.pcs, th, y.pcs[th], i);
    OwesSteady(x.t, y.t, x.pcs[th], i);
  }

  lemma SteadyShape(t: State, u: State, pc: Pc)
    requires Steady(t, u) && PcOk(t, pc)
    ensures Shape(t) && Shape(u) && PcOk(u, pc)
  {}

  lemma OwesSteady(t: State, u: State, pc: Pc, i: nat)
    requires Steady(t, u) && PcOk(t, pc)
    ensures PcOk(u, pc) && Owes(u, pc, i) == Owes(t, pc, i)
  {
    hide Dispatch;
    SteadyLookups(t, u);
  }

  /** Packet `e` leaves from slot `i` if it takes effect now. */
  predicate LeavesFrom(n: Node, t: State, e: Event, i: nat)
    requires Shape(t)
  {
    var o := OutcomeOf(n, t, e); o.Relayed? && o.slot == i
  }

  lemma LeavesIsSends(n: Node, t: State, e: Event, i: nat)
    requires Shape(t) && i < MAX_PEERS && (e.act.Data? || e.act.Tun?)
    ensures Step(n, t, e).sessions[i].sendSeq == Network.Counted(t.sessions[i].sendSeq, LeavesFrom(n, t, e, i))
  {
    hide Step, OnData, TunRoute;
    Network.PacketSends(n, t, e, i);
  }

  // ----- one step

  lemma NextIsSteady(n: Node, x: World, th: nat, at: int)
    requires Shape(x.t) && th < |x.pcs| && PcOk(x.t, x.pcs[th])
    ensures var y := Next(n, x, th, at);
            Steady(x.t, y.t) && |y.pcs| == |x.pcs| && y.pcs == x.pcs[th := y.pcs[th]]
  {
    hide FindByAddr, TunRoute, Received, Dispatch, Steady;
    SteadyReflexive(x.t);
    match x.pcs[th] {
      case Found(e, i) => ReceivedIsSteady(n.aead, x.t, i, e.act.wire, e.at);
      case Leaving(e, i) => SendingIsSteady(x.t, i, TakeNumber(x.t.sessions[i]));
      case Numbered(e, i) => SendingIsSteady(x.t, i, Stamp(x.t.sessions[i], e.act.sent, at));
      case _ =>
    }
  }

  /** A datagram that was sent stamps the slot it left from with the time it was sent; no other step under the read lock
      touches `last_sent`. */
  lemma NextStamps(n: Node, x: World, th: nat, at: int, i: nat)
    requires Shape(x.t) && th < |x.pcs| && PcOk(x.t, x.pcs[th]) && i < MAX_PEERS
    ensures var pc := x.pcs[th];
            Next(n, x, th, at).t.sessions[i].lastSent ==
            if pc.Numbered? && pc.slot == i && pc.e.act.sent then at else x.t.sessions[i].lastSent
  {
    hide FindByAddr, TunRoute, Sessions.Opened, Judged, Dispatch;
  }

  lemma SendingIsSteady(t: State, i: nat, r: Session)
    requires Shape(t) && i < MAX_PEERS && r == t.sessions[i].(sendSeq := r.sendSeq, lastSent := r.lastSent)
    ensures Steady(t, SetSession(t, i, r))
  {}

  /** The event that a step enters in the log, if any. */
  function Entered(x: World, y: World): Option<Event> {
    if |y.log| == |x.log| + 1 then Some(y.log[|x.log|].event) else None
  }

  /** The thread takes a number it owes, or comes to owe one exactly if its packet takes effect now and leaves. */
  ghost predicate Balanced(x: World, y: World, th: nat, i: nat, leaves: bool)
    requires Moves(x, y, th) && i < MAX_PEERS
  {
    var owed, owes, before, now :=
      Owes(x.t, x.pcs[th], i), Owes(y.t, y.pcs[th], i), x.t.sessions[i].sendSeq, y.t.sessions[i].sendSeq;
    || (now == before && (if leaves then !owed && owes else owes == owed))
    || (now == (before + 1) % TWO_TO_THE_64 && owed && !owes && !leaves)
  }

  lemma NextBalances(n: Node, start: State, x: World, th: nat, at: int, i: nat)
    requires Shape(start) && Sized(x) && ThreadsMatch(n, start, x) && th < |x.pcs| && i < MAX_PEERS
    requires Sized(Next(n, x, th, at)) && Moves(x, Next(n, x, th, at), th)
    ensures var y := Next(n, x, th, at);
            var e := Entered(x, y);
            Balanced(x, y, th, i, e.Some? && LeavesFrom(n, x.t, e.value, i))
  {
    hide Steady, FindByAddr, TunRoute, Received, Dispatch, OnData, OutcomeOf;
    assert Stands(n, start, x.t, x.log, x.pcs[th]);
    match x.pcs[th] {
      case Begun(e) => LookUpLeaves(n, x.t, e);
      case Found(e, j) =>
        ReceiveIsTheStep(n, x.t, e, j);
        ReceivedKeepsCounter(n.aead, x.t.sessions[j], e.act.wire, e.at);
      case _ =>
    }
  }

  lemma LookUpLeaves(n: Node, t: State, e: Event)
    requires Shape(t)
    ensures e.act.Data? && FindByAddr(t, e.act.src).None? ==> OutcomeOf(n, t, e) == Dropped
    ensures e.act.Tun? ==> OutcomeOf(n, t, e) == match TunRoute(t, e.act.packet)
                                                 case Some(i) => Relayed(i, e.act.packet)
                                                 case None => Dropped
  {
    hide FindByAddr, TunRoute;
  }

  lemma ReceivedKeepsCounter(aead: Aead, s: Session, wire: Bytes, now: int)
    requires s.window.Valid()
    ensures Received(aead, s, wire, now).0.sendSeq == s.sendSeq
  {}

  lemma DueMoves(x: World, y: World, th: nat, i: nat, leaves: bool)
    requires Moves(x, y, th) && i < MAX_PEERS && Balanced(x, y, th, i, leaves)
    ensures Due(y, i) == Network.Counted(Due(x, i), leaves)
  {
    hide Owes, Owing, Steady;
    MoveOwes(x, y, th, i);
  }

  // ----- whole interleavings

  /** What is due to the counters is what the atomic run has counted. */
  ghost predicate Tallies(n: Node, start: State, x: World)
    requires Shape(start) && Sized(x)
  {
    forall i :: 0 <= i < MAX_PEERS ==> Due(x, i) == RunTo(n, start, x.log, |x.log|).sessions[i].sendSeq
  }

  lemma NextTallies(n: Node, start: State, x: World, th: nat, at: int, i: nat)
    requires Shape(start) && Sized(x) && Matches(n, start, x) && th < |x.pcs| && !x.pcs[th].Rest? && i < MAX_PEERS
    requires Due(x, i) == RunTo(n, start, x.log, |x.log|).sessions[i].sendSeq
    ensures var y := Next(n, x, th, at);
            Sized(y) && Due(y, i) == RunTo(n, start, y.log, |y.log|).sessions[i].sendSeq
  {
    hide Next, Due, RunTo, LeavesFrom, Balanced, Steady, Same, OutcomesMatch, OrderMatches, Stands, Step;
    var y := Next(n, x, th, at);
    NextKeeps(n, start, x, th, at);
    NextIsSteady(n, x, th, at);
    NextBalances(n, start, x, th, at, i);
    var e := Entered(x, y);
    DueMoves(x, y, th, i, e.Some? && LeavesFrom(n, x.t, e.value, i));
    NextLogs(n, x, th, at);
    if e.Some? {
      var u := RunTo(n, start, x.log, |x.log|);
      LogGrows(n, start, x.log, Entry(th, e.value));
      LeavesIsSends(n, u, e.value, i);
      SameLeaves(n, x.t, u, e.value, i);
    }
  }

  lemma SameLeaves(n: Node, t: State, u: State, e: Event, i: nat)
    requires Same(t, u)
    ensures LeavesFrom(n, t, e, i) == LeavesFrom(n, u, e, i)
  {
    hide OutcomeOf, Same;
    SameOutcome(n, t, u, e);
  }

  lemma NextLogs(n: Node, x: World, th: nat, at: int)
    requires Shape(x.t) && th < |x.pcs| && PcOk(x.t, x.pcs[th])
    ensures var y := Next(n, x, th, at);
            match Entered(x, y)
            case None => y.log == x.log
            case Some(e) => y.log == x.log + [Entry(th, e)] && (e.act.Data? || e.act.Tun?)
  {
    hide FindByAddr, TunRoute, Received, Dispatch;
  }

  lemma BeginTallies(x: World, th: nat, e: Event, i: nat)
    requires Sized(x) && Enabled(x, th, Begin(e)) && i < MAX_PEERS
    ensures var y := SetPc(BeginEvent(x, th, e), th, Begun(e)); Sized(y) && Due(y, i) == Due(x, i)
  {
    hide Owing;
    OwingUpdate(x.t, x.pcs, th, Begun(e), i);
  }

  /** Under the write lock nothing is owed. */
  lemma WriteTallies(n: Node, start: State, x: World, th: nat, e: Event, i: nat)
    requires Shape(start) && Sized(x) && Matches(n, start, x) && Enabled(x, th, Write(e)) && e.act.Handshake?
    requires i < MAX_PEERS
    requires Due(x, i) == RunTo(n, start, x.log, |x.log|).sessions[i].sendSeq
    ensures var y := Do(n, x, th, Write(e));
            Sized(y) && Due(y, i) == RunTo(n, start, y.log, |y.log|).sessions[i].sendSeq
  {
    hide Owing, RunTo, Step, Installs, ThreadsMatch, OutcomesMatch, OrderMatches;
    var u := RunTo(n, start, x.log, |x.log|);
    LogGrows(n, start, x.log, Entry(th, e));
    NothingOwed(x.t, x.pcs, i);
    NothingOwed(Step(n, x.t, e), x.pcs, i);
    AlikeInstalls(n, x.t, u, e);
    HandshakeSlot(n, x.t, e, i);
    HandshakeSlot(n, u, e, i);
  }

  ghost predicate NoPass(log: seq<Entry>) {
    forall k :: 0 <= k < |log| ==> !log[k].event.act.Pass?
  }

  lemma DoTallies(n: Node, start: State, x: World, th: nat, m: Move)
    requires Shape(start) && Sized(x) && Matches(n, start, x) && Tallies(n, start, x) && Enabled(x, th, m)
    requires !(m.Write? && m.e.act.Pass?)
    ensures Sized(Do(n, x, th, m)) && Tallies(n, start, Do(n, x, th, m))
  {
    hide Do, Due, RunTo, Matches;
    DoKeeps(n, start, x, th, m);
    MatchesIsSized(n, start, Do(n, x, th, m));
    forall i | 0 <= i < MAX_PEERS
      ensures Due(Do(n, x, th, m), i) == RunTo(n, start, Do(n, x, th, m).log, |Do(n, x, th, m).log|).sessions[i].sendSeq
    {
      DoTalliesIn(n, start, x, th, m, i);
    }
  }

  lemma MatchesIsSized(n: Node, start: State, x: World)
    requires Shape(start) && Matches(n, start, x)
    ensures Sized(x)
  {}

  lemma DoTalliesIn(n: Node, start: State, x: World, th: nat, m: Move, i: nat)
    requires Shape(start) && Sized(x) && Matches(n, start, x) && Enabled(x, th, m) && i < MAX_PEERS
    requires !(m.Write? && m.e.act.Pass?)
    requires Due(x, i) == RunTo(n, start, x.log, |x.log|).sessions[i].sendSeq
    ensures var y := Do(n, x, th, m);
            Sized(y) && Due(y, i) == RunTo(n, start, y.log, |y.log|).sessions[i].sendSeq
  {
    hide Due, RunTo, Matches, Next, Step;
    match m {
      case Begin(e) => BeginTallies(x, th, e, i);
      case Write(e) => WriteTallies(n, start, x, th, e, i);
      case Advance(at) => NextTallies(n, start, x, th, at, i);
    }
  }

  lemma StartTallies(n: Node, start: State, x: World)
    requires Start(x, start)
    ensures Sized(x) && Tallies(n, start, x)
  {
    hide Owing;
    forall i | 0 <= i < MAX_PEERS
      ensures Due(x, i) == RunTo(n, start, x.log, |x.log|).sessions[i].sendSeq
    {
      NothingOwed(start, x.pcs, i);
    }
  }

  lemma {:induction false} InterleavingsTally(n: Node, start: State, xs: seq<World>, k: nat)
    requires Shape(start) && Interleaving(n, start, xs) && k < |xs| && NoPass(xs[k].log)
    ensures Sized(xs[k]) && Tallies(n, start, xs[k])
  {
    hide Do, Enabled, Matches, Start, Sized, Tallies;
    if k == 0 {
      StartTallies(n, start, xs[0]);
    } else {
      assert Follows(n, xs[k - 1], xs[k - 1 + 1]);
      var th, m :| Enabled(xs[k - 1], th, m) && xs[k] == Do(n, xs[k - 1], th, m);
      DoLogs(n, xs[k - 1], th, m);
      InterleavingsTally(n, start, xs, k - 1);
      InterleavingsMatch(n, start, xs, k - 1);
      DoTallies(n, start, xs[k - 1], th, m);
    }
  }

  lemma DoLogs(n: Node, x: World, th: nat, m: Move)
    requires Sized(x) && Enabled(x, th, m) && NoPass(Do(n, x, th, m).log)
    ensures NoPass(x.log) && !(m.Write? && m.e.act.Pass?)
  {
    hide Next, Step;
    var y := Do(n, x, th, m);
    if m.Advance? {
      NextLogs(n, x, th, m.at);
    }
    if m.Write? {
      assert y.log[|x.log|] == Entry(th, m.e);
    }
    assert forall k :: 0 <= k < |x.log| ==> x.log[k] == y.log[k];
  }

  /** Between two passes, from any tables: whenever all threads are at rest, the tables are those of the atomic run in
      everything but `last_sent`, send counters included. */
  lemma EqualAtRest(n: Node, start: State, xs: seq<World>, k: nat, i: nat)
    requires Shape(start) && Interleaving(n, start, xs) && k < |xs| && i < MAX_PEERS
    requires NoPass(xs[k].log) && forall th :: 0 <= th < |xs[k].pcs| ==> xs[k].pcs[th].Rest?
    ensures Shape(xs[k].t)
    ensures var s, r := xs[k].t.sessions[i], Run(n, start, Events(xs[k].log)).sessions[i];
            r == s.(lastSent := r.lastSent)
  {
    hide Run, Interleaving, Of, OutcomeOf, Owing;
    InterleavingsAreRuns(n, start, xs, k);
    InterleavingsTally(n, start, xs, k);
    var es := Events(xs[k].log);
    assert es[..|es|] == es;
    NothingOwed(xs[k].t, xs[k].pcs, i);
    assert Due(xs[k], i) == RunTo(n, start, xs[k].log, |xs[k].log|).sessions[i].sendSeq;
    assert Alike(xs[k].t.sessions[i], Run(n, start, es).sessions[i]);
  }
}
