/** Packets are handled by several threads at once under the read lock, one section under `hot_lock` at a time.
    Every interleaving of their sections is matched by a run of whole critical sections, one after the other, in
    which each thread's packets keep their order. */
module Reduction {
  import opened Options
  import opened Wire
  import opened Routing
  import opened Sessions
  import opened Tables
  import opened Invariants
  import opened Runs
  import opened SlotHistory
  import opened NonInterference

  /** Where a worker stands with its packet `e`, which it holds `table_lock` for reading over. `k` is the packet's
      place in the log. */
  datatype Pc =
    | Rest
    | Begun(e: Event)
    | Found(e: Event, slot: nat)
    | Opened(e: Event, k: nat, slot: nat, payload: Bytes)
    | Leaving(e: Event, slot: nat)
    | Numbered(e: Event, slot: nat)
    | Finished

  datatype Entry = Entry(thread: nat, event: Event)

  /** The tables, the threads, the packets and sections each thread has begun, the log of those that took effect,
      and what became of the logged packets as far as decided. */
  datatype World = World(t: State, pcs: seq<Pc>, begun: seq<seq<Event>>, log: seq<Entry>, outcomes: map<nat, Outcome>)

  ghost predicate Sized(x: World) {
    && Shape(x.t) && |x.begun| == |x.pcs|
    && forall th :: 0 <= th < |x.pcs| ==> PcOk(x.t, x.pcs[th])
  }

  ghost predicate PcOk(t: State, pc: Pc) {
    && (pc.Begun? || pc.Leaving? || pc.Numbered? ==> pc.e.act.Data? || pc.e.act.Tun?)
    && (pc.Found? || pc.Opened? ==> pc.e.act.Data?)
    && (pc.Found? || pc.Opened? || pc.Leaving? || pc.Numbered? ==> pc.slot < t.slots)
  }

  /** What becomes of the packet of an event. */
  function OutcomeOf(n: Node, t: State, e: Event): Outcome
    requires Shape(t)
  {
    match e.act
    case Data(src, wire, sent) => OnData(t, n.aead, src, wire, sent, e.at).1
    case Tun(packet, sent) => (match TunRoute(t, packet) case Some(i) => Relayed(i, packet) case None => Dropped)
    case _ => Dropped
  }

  // ----- steps

  /** `Write` is a whole section under the write lock, which no reader can share; the others are one step of a
      worker: taking the read lock with a packet, or the next section. `at` is the clock when it stamps `last_sent`. */
  datatype Move = Begin(e: Event) | Write(e: Event) | Advance(at: int)

  ghost predicate Enabled(x: World, th: nat, m: Move) {
    && th < |x.pcs|
    && match m
       case Begin(e) => x.pcs[th].Rest? && (e.act.Data? || e.act.Tun?)
       case Write(e) => (e.act.Handshake? || e.act.Pass?) && forall u :: 0 <= u < |x.pcs| ==> x.pcs[u].Rest?
       case Advance(_) => !x.pcs[th].Rest?
  }

  function SetPc(x: World, th: nat, pc: Pc): World
    requires th < |x.pcs|
  {
    x.(pcs := x.pcs[th := pc])
  }

  /** Enters an event in the log. */
  function Logged(x: World, th: nat, e: Event): World {
    x.(log := x.log + [Entry(th, e)])
  }

  function Settled(x: World, k: nat, o: Outcome): World {
    x.(outcomes := x.outcomes[k := o])
  }

  function BeginEvent(x: World, th: nat, e: Event): World
    requires th < |x.begun|
  {
    x.(begun := x.begun[th := x.begun[th] + [e]])
  }

  /** Looking up the session of a packet. A packet without one takes effect here, and so does one from the tunnel
      interface. */
  function LookUp(n: Node, x: World, th: nat, e: Event): World
    requires Shape(x.t) && th < |x.pcs| && (e.act.Data? || e.act.Tun?)
  {
    match e.act
    case Data(src, _, _) =>
      (match FindByAddr(x.t, src)
       case Some(i) => SetPc(x, th, Found(e, i))
       case None => SetPc(Settled(Logged(x, th, e), |x.log|, Dropped), th, Finished))
    case Tun(packet, _) =>
      (match TunRoute(x.t, packet)
       case Some(i) => SetPc(Settled(Logged(x, th, e), |x.log|, Relayed(i, packet)), th, Leaving(e, i))
       case None => SetPc(Settled(Logged(x, th, e), |x.log|, Dropped), th, Finished))
  }

  /** The receive section under the `hot_lock` of slot `i`. */
  function Receive(n: Node, x: World, th: nat, e: Event, i: nat): World
    requires Shape(x.t) && th < |x.pcs| && e.act.Data? && i < x.t.slots
  {
    var (s, v) := Received(n.aead, x.t.sessions[i], e.act.wire, e.at);
    var y := Logged(x, th, e).(t := SetSession(x.t, i, s));
    if v.Passed? then SetPc(y, th, Opened(e, |x.log|, i, v.payload))
    else SetPc(Settled(y, |x.log|, Dropped), th, Finished)
  }

  function Decide(x: World, th: nat, e: Event, k: nat, i: nat, payload: Bytes): World
    requires Shape(x.t) && th < |x.pcs| && i < x.t.slots
  {
    var o := Dispatch(x.t, i, payload);
    SetPc(Settled(x, k, o), th, if o.Relayed? then Leaving(e, o.slot) else Finished)
  }

  /** The first section of `forward_to_peer`: the number is taken, the datagram sealed. */
  function TakeNumber(s: Session): Session {
    Forwarded(s, false, 0)
  }

  /** The second, after `sendto`. */
  function Stamp(s: Session, sent: bool, at: int): Session {
    if sent then s.(lastSent := at) else s
  }

  function Next(n: Node, x: World, th: nat, at: int): World
    requires Shape(x.t) && th < |x.pcs| && PcOk(x.t, x.pcs[th])
  {
    match x.pcs[th]
    case Rest => x
    case Begun(e) => LookUp(n, x, th, e)
    case Found(e, i) => Receive(n, x, th, e, i)
    case Opened(e, k, i, payload) => Decide(x, th, e, k, i, payload)
    case Leaving(e, i) => SetPc(x.(t := SetSession(x.t, i, TakeNumber(x.t.sessions[i]))), th, Numbered(e, i))
    case Numbered(e, i) => SetPc(x.(t := SetSession(x.t, i, Stamp(x.t.sessions[i], e.act.sent, at))), th, Finished)
    case Finished => SetPc(x, th, Rest)
  }

  ghost function Do(n: Node, x: World, th: nat, m: Move): World
    requires Sized(x) && Enabled(x, th, m)
  {
    match m
    case Begin(e) => SetPc(BeginEvent(x, th, e), th, Begun(e))
    case Write(e) => Logged(BeginEvent(x, th, e), th, e).(t := Step(n, x.t, e))
    case Advance(at) => Next(n, x, th, at)
  }

  // ----- equal but for the order of sending

  /** Equal but for send counters and `last_sent`: two packets may leave a slot in another order than they were
      received in. */
  ghost predicate Same(t: State, u: State) {
    AlikeStates(t, u) && forall i :: 0 <= i < MAX_PEERS ==> t.sessions[i].lastSeen == u.sessions[i].lastSeen
  }

  lemma SameStep(n: Node, t: State, u: State, e: Event)
    requires Shape(t) && Shape(u) && Same(t, u)
    ensures Same(Step(n, t, e), Step(n, u, e))
  {
    hide Step, Installs, Receiver;
    AlikeStep(n, t, u, e);
    AlikeInstalls(n, t, u, e);
    forall i | 0 <= i < MAX_PEERS
      ensures Step(n, t, e).sessions[i].lastSeen == Step(n, u, e).sessions[i].lastSeen
    {
      StepSeen(n, t, e, i);
      StepSeen(n, u, e, i);
    }
  }

  lemma SameOutcome(n: Node, t: State, u: State, e: Event)
    requires Same(t, u)
    ensures OutcomeOf(n, t, e) == OutcomeOf(n, u, e)
  {
    hide OnData, Route, RouteTable;
    AlikeRoutes(t, u);
    if e.act.Data? {
      AlikeData(t, u, n.aead, e.act.src, e.act.wire, e.act.sent, e.at);
    }
  }

  /** Sending changes nothing that counts. */
  lemma SendingIsSilent(t: State, i: nat, r: Session)
    requires Shape(t) && i < MAX_PEERS && r == t.sessions[i].(sendSeq := r.sendSeq, lastSent := r.lastSent)
    ensures Shape(SetSession(t, i, r)) && Same(t, SetSession(t, i, r)) && Same(SetSession(t, i, r), t)
  {}

  lemma SameReflexive(t: State)
    requires Shape(t)
    ensures Same(t, t)
  {}

  lemma SameTransitive(t: State, u: State, v: State)
    requires Same(t, u) && Same(u, v)
    ensures Same(t, v)
  {}

  /** A data packet as a whole is its receive section, up to sending. */
  lemma ReceiveIsTheStep(n: Node, t: State, e: Event, i: nat)
    requires Shape(t) && e.act.Data? && FindByAddr(t, e.act.src) == Some(i)
    ensures i < t.slots
    ensures var (s, v) := Received(n.aead, t.sessions[i], e.act.wire, e.at);
            var t' := SetSession(t, i, s);
            && Shape(t') && Same(t', Step(n, t, e))
            && OutcomeOf(n, t, e) == if v.Passed? then Dispatch(t', i, v.payload) else Dropped
  {
    hide FindByAddr, Received, Dispatch, AlikeStates;
    var (s, v) := Received(n.aead, t.sessions[i], e.act.wire, e.at);
    var t' := SetSession(t, i, s);
    SameReflexive(t');
    if v.Passed? && Dispatch(t', i, v.payload).Relayed? {
      var j := Dispatch(t', i, v.payload).slot;
      SendingIsSilent(t', j, Forwarded(t'.sessions[j], e.act.sent, e.at));
    }
  }

  lemma TunIsSilent(n: Node, t: State, e: Event)
    requires Shape(t) && e.act.Tun?
    ensures Same(t, Step(n, t, e))
  {
    hide TunRoute, AlikeStates;
    SameReflexive(t);
    match TunRoute(t, e.act.packet) {
      case None =>
      case Some(i) => SendingIsSilent(t, i, Forwarded(t.sessions[i], e.act.sent, e.at));
    }
  }

  // ----- what readers leave alone

  /** All that lookups and routing read. */
  ghost predicate Steady(t: State, u: State) {
    && Shape(t) && Shape(u) && u.slots == t.slots
    && forall i :: 0 <= i < MAX_PEERS ==>
         && u.sessions[i].active == t.sessions[i].active && u.sessions[i].addr == t.sessions[i].addr
         && u.sessions[i].routes == t.sessions[i].routes
  }

  lemma SteadyLookups(t: State, u: State)
    requires Steady(t, u)
    ensures forall addr :: FindByAddr(u, addr) == FindByAddr(t, addr)
    ensures RouteTable(u) == RouteTable(t)
    ensures forall i: nat, payload :: i < t.slots ==> Dispatch(u, i, payload) == Dispatch(t, i, payload)
  {
    hide FirstIndex, Route, AllowedSrc, IpAt;
    forall addr
      ensures FindByAddr(u, addr) == FindByAddr(t, addr)
    {
      FirstIndexIs(u.sessions[..u.slots], (s: Session) => s.active && s.addr == addr, FindByAddr(t, addr));
    }
    assert RouteTable(u) == RouteTable(t);
  }

  lemma ReceivedIsSteady(aead: Aead, t: State, i: nat, wire: Bytes, now: int)
    requires Shape(t) && i < MAX_PEERS
    ensures Steady(t, SetSession(t, i, Received(aead, t.sessions[i], wire, now).0))
  {}

  // ----- the log as a run

  function Events(log: seq<Entry>): (es: seq<Event>)
    ensures |es| == |log|
  {
    seq(|log|, k requires 0 <= k < |log| => log[k].event)
  }

  /** The events of one thread in the log. */
  function Of(log: seq<Entry>, th: nat): seq<Event> {
    if log == [] then []
    else
      var last, earlier := log[|log| - 1], Of(log[..|log| - 1], th);
      if last.thread == th then earlier + [last.event] else earlier
  }

  /** The atomic run that the log stands for, up to entry `k`. */
  ghost function RunTo(n: Node, start: State, log: seq<Entry>, k: nat): (t: State)
    requires Shape(start) && k <= |log|
    ensures Shape(t)
  {
    Run(n, start, Events(log)[..k])
  }

  lemma LogGrows(n: Node, start: State, log: seq<Entry>, en: Entry)
    requires Shape(start)
    ensures RunTo(n, start, log + [en], |log| + 1) == Step(n, RunTo(n, start, log, |log|), en.event)
    ensures forall k: nat :: k <= |log| ==> RunTo(n, start, log + [en], k) == RunTo(n, start, log, k)
  {
    hide Step, Shape;
    var es, longer := Events(log), Events(log + [en]);
    assert longer == es + [en.event];
    assert longer[..|log| + 1] == longer && longer[..|log|] == es;
    assert es[..|log|] == es;
    forall k: nat | k <= |log|
      ensures RunTo(n, start, log + [en], k) == RunTo(n, start, log, k)
    {
      assert longer[..k] == es[..k];
    }
  }

  lemma OfGrows(log: seq<Entry>, en: Entry, th: nat)
    ensures Of(log + [en], th) == if en.thread == th then Of(log, th) + [en.event] else Of(log, th)
  {
    assert (log + [en])[..|log|] == log;
  }

  // ----- what every interleaving keeps

  /** The tables are those of the atomic run. */
  ghost predicate TablesMatch(n: Node, start: State, x: World)
    requires Shape(start)
  {
    Same(x.t, RunTo(n, start, x.log, |x.log|))
  }

  /** What a thread has looked up still holds, and what it is about to decide is the outcome in the atomic run. */
  ghost predicate Stands(n: Node, start: State, t: State, log: seq<Entry>, pc: Pc)
    requires Shape(start) && Shape(t) && PcOk(t, pc)
  {
    && (pc.Found? ==> FindByAddr(t, pc.e.act.src) == Some(pc.slot))
    && (pc.Opened? ==>
          && pc.k < |log| && log[pc.k].event == pc.e
          && OutcomeOf(n, RunTo(n, start, log, pc.k), pc.e) == Dispatch(t, pc.slot, pc.payload))
  }

  ghost predicate ThreadsMatch(n: Node, start: State, x: World)
    requires Shape(start) && Sized(x)
  {
    forall th :: 0 <= th < |x.pcs| ==> Stands(n, start, x.t, x.log, x.pcs[th])
  }

  /** What became of each packet is what becomes of it in the atomic run. */
  ghost predicate OutcomesMatch(n: Node, start: State, log: seq<Entry>, outcomes: map<nat, Outcome>)
    requires Shape(start)
  {
    forall k :: k in outcomes ==> k < |log| && outcomes[k] == OutcomeOf(n, RunTo(n, start, log, k), log[k].event)
  }

  /** The event a thread has begun and that has not taken effect. */
  function Unlogged(pc: Pc): seq<Event> {
    if pc.Begun? || pc.Found? then [pc.e] else []
  }

  /** The log holds the events of each thread, in the order in which it began them. */
  ghost predicate OrderMatches(x: World) {
    |x.begun| == |x.pcs| && forall th :: 0 <= th < |x.pcs| ==> Of(x.log, th) + Unlogged(x.pcs[th]) == x.begun[th]
  }

  /** Every logged packet has its outcome, but for one that its thread is about to decide. */
  ghost predicate Decided(x: World) {
    forall k :: 0 <= k < |x.log| && (x.log[k].event.act.Data? || x.log[k].event.act.Tun?) && k !in x.outcomes ==>
      x.log[k].thread < |x.pcs| && x.pcs[x.log[k].thread].Opened? && x.pcs[x.log[k].thread].k == k
  }

  ghost predicate Matches(n: Node, start: State, x: World)
    requires Shape(start)
  {
    && Sized(x) && TablesMatch(n, start, x) && ThreadsMatch(n, start, x)
    && OutcomesMatch(n, start, x.log, x.outcomes) && OrderMatches(x)
  }

  lemma StandsStill(n: Node, start: State, t: State, u: State, log: seq<Entry>, pc: Pc)
    requires Shape(start) && Steady(t, u) && PcOk(t, pc) && Stands(n, start, t, log, pc)
    ensures PcOk(u, pc) && Stands(n, start, u, log, pc)
  {
    hide FindByAddr, Dispatch, OutcomeOf, RunTo;
    SteadyLookups(t, u);
  }

  lemma StandsLogged(n: Node, start: State, t: State, log: seq<Entry>, en: Entry, pc: Pc)
    requires Shape(start) && Shape(t) && PcOk(t, pc) && Stands(n, start, t, log, pc)
    ensures Stands(n, start, t, log + [en], pc)
  {
    hide FindByAddr, Dispatch, OutcomeOf, RunTo;
    LogGrows(n, start, log, en);
  }

  lemma OutcomesLogged(n: Node, start: State, log: seq<Entry>, en: Entry, outcomes: map<nat, Outcome>)
    requires Shape(start) && OutcomesMatch(n, start, log, outcomes)
    ensures OutcomesMatch(n, start, log + [en], outcomes)
  {
    hide OutcomeOf, RunTo;
    LogGrows(n, start, log, en);
  }

  /** Thread `th` moved under the read lock and is now at a place that stands. */
  ghost predicate Reads(n: Node, start: State, x: World, y: World, th: nat)
    requires Shape(start)
  {
    && Sized(x) && Steady(x.t, y.t) && th < |x.pcs| == |y.pcs| && y.pcs == x.pcs[th := y.pcs[th]] && y.begun == x.begun
    && PcOk(y.t, y.pcs[th]) && Stands(n, start, y.t, y.log, y.pcs[th])
    && OutcomesMatch(n, start, y.log, y.outcomes)
  }

  lemma OthersStand(n: Node, start: State, x: World, y: World, th: nat, u: nat)
    requires Shape(start) && Sized(x) && ThreadsMatch(n, start, x) && Reads(n, start, x, y, th) && u < |x.pcs|
    requires y.log == x.log || exists en :: y.log == x.log + [en]
    ensures PcOk(y.t, y.pcs[u]) && Stands(n, start, y.t, y.log, y.pcs[u])
  {
    hide Stands, PcOk, OutcomesMatch;
    if u != th {
      StandsStill(n, start, x.t, y.t, x.log, x.pcs[u]);
      if en :| y.log == x.log + [en] {
        StandsLogged(n, start, y.t, x.log, en, x.pcs[u]);
      }
    }
  }

  lemma ThreadsStand(n: Node, start: State, x: World, y: World, th: nat)
    requires Shape(start) && Sized(x) && ThreadsMatch(n, start, x) && Reads(n, start, x, y, th)
    requires y.log == x.log || exists en :: y.log == x.log + [en]
    ensures Sized(y) && ThreadsMatch(n, start, y)
  {
    hide Stands, PcOk, OutcomesMatch;
    forall u | 0 <= u < |y.pcs|
      ensures PcOk(y.t, y.pcs[u]) && Stands(n, start, y.t, y.log, y.pcs[u])
    {
      OthersStand(n, start, x, y, th, u);
    }
  }

  /** A step that takes no packet into the log. */
  lemma QuietKeeps(n: Node, start: State, x: World, y: World, th: nat)
    requires Shape(start) && Matches(n, start, x) && Reads(n, start, x, y, th)
    requires y.log == x.log && Same(y.t, x.t) && Unlogged(y.pcs[th]) == Unlogged(x.pcs[th])
    ensures Matches(n, start, y)
  {
    hide Same, Stands, OutcomesMatch, Steady, PcOk, RunTo, Of;
    ThreadsStand(n, start, x, y, th);
    SameTransitive(y.t, x.t, RunTo(n, start, x.log, |x.log|));
  }

  /** A step with which event `e` takes effect. */
  lemma LoggedKeeps(n: Node, start: State, x: World, y: World, th: nat, e: Event)
    requires Shape(start) && Matches(n, start, x) && Reads(n, start, x, y, th)
    requires y.log == x.log + [Entry(th, e)] && Same(y.t, Step(n, x.t, e))
    requires Unlogged(x.pcs[th]) == [e] && Unlogged(y.pcs[th]) == []
    ensures Matches(n, start, y)
  {
    hide Same, Stands, OutcomesMatch, Steady, PcOk, RunTo, Of, Step;
    ThreadsStand(n, start, x, y, th);
    LoggedTables(n, start, x, y, Entry(th, e));
    LoggedOrder(x, y, th, e);
  }

  lemma LoggedTables(n: Node, start: State, x: World, y: World, en: Entry)
    requires Shape(start) && Shape(x.t) && TablesMatch(n, start, x)
    requires y.log == x.log + [en] && Same(y.t, Step(n, x.t, en.event))
    ensures TablesMatch(n, start, y)
  {
    hide Same, RunTo, Step;
    var u := RunTo(n, start, x.log, |x.log|);
    LogGrows(n, start, x.log, en);
    SameStep(n, x.t, u, en.event);
    SameTransitive(y.t, Step(n, x.t, en.event), Step(n, u, en.event));
  }

  lemma LoggedOrder(x: World, y: World, th: nat, e: Event)
    requires OrderMatches(x) && th < |x.pcs| == |y.pcs| && y.pcs == x.pcs[th := y.pcs[th]] && y.begun == x.begun
    requires y.log == x.log + [Entry(th, e)] && Unlogged(x.pcs[th]) == [e] && Unlogged(y.pcs[th]) == []
    ensures OrderMatches(y)
  {
    hide Of, Unlogged;
    forall u | 0 <= u < |y.pcs|
      ensures Of(y.log, u) + Unlogged(y.pcs[u]) == y.begun[u]
    {
      OfGrows(x.log, Entry(th, e), u);
    }
  }

  /** The outcome of a packet that takes effect now. */
  lemma OutcomeNow(n: Node, start: State, x: World, en: Entry)
    requires Shape(start) && Shape(x.t) && TablesMatch(n, start, x)
    ensures OutcomeOf(n, RunTo(n, start, x.log + [en], |x.log|), en.event) == OutcomeOf(n, x.t, en.event)
  {
    hide Same, RunTo, OutcomeOf;
    LogGrows(n, start, x.log, en);
    SameOutcome(n, x.t, RunTo(n, start, x.log, |x.log|), en.event);
  }

  lemma OutcomeSettled(n: Node, start: State, x: World, en: Entry, o: Outcome)
    requires Shape(start) && Shape(x.t) && TablesMatch(n, start, x) && OutcomesMatch(n, start, x.log, x.outcomes)
    requires o == OutcomeOf(n, x.t, en.event)
    ensures OutcomesMatch(n, start, x.log + [en], x.outcomes[|x.log| := o])
  {
    hide Same, RunTo, OutcomeOf;
    OutcomesLogged(n, start, x.log, en, x.outcomes);
    OutcomeNow(n, start, x, en);
  }

  // ----- each step

  lemma SteadyReflexive(t: State)
    requires Shape(t)
    ensures Steady(t, t) && Same(t, t)
  {}

  lemma LookUpKeeps(n: Node, start: State, x: World, th: nat, e: Event)
    requires Shape(start) && Matches(n, start, x) && th < |x.pcs| && x.pcs[th] == Begun(e)
    requires e.act.Data? || e.act.Tun?
    ensures Matches(n, start, LookUp(n, x, th, e))
  {
    hide Same, Steady, OutcomesMatch, OrderMatches, ThreadsMatch, TablesMatch, FindByAddr, TunRoute, Run, RunTo, Step;
    var y := LookUp(n, x, th, e);
    SteadyReflexive(x.t);
    if y.log == x.log {
      QuietKeeps(n, start, x, y, th);
    } else {
      OutcomeSettled(n, start, x, Entry(th, e), y.outcomes[|x.log|]);
      LookedUpStep(n, x.t, e);
      LoggedKeeps(n, start, x, y, th, e);
    }
  }

  lemma LookedUpStep(n: Node, t: State, e: Event)
    requires Shape(t) && (e.act.Tun? || (e.act.Data? && FindByAddr(t, e.act.src).None?))
    ensures Same(t, Step(n, t, e))
  {
    hide FindByAddr, Same;
    SameReflexive(t);
    if e.act.Tun? {
      TunIsSilent(n, t, e);
    }
  }

  lemma ReceiveKeeps(n: Node, start: State, x: World, th: nat, e: Event, i: nat)
    requires Shape(start) && Matches(n, start, x) && th < |x.pcs| && x.pcs[th] == Found(e, i)
    requires e.act.Data? && i < x.t.slots
    ensures Matches(n, start, Receive(n, x, th, e, i))
  {
    hide Same, Steady, OutcomesMatch, OrderMatches, TablesMatch, FindByAddr, Received, Run, RunTo, Step, OutcomeOf,
         Dispatch;
    var y := Receive(n, x, th, e, i);
    assert Stands(n, start, x.t, x.log, x.pcs[th]);
    ReceiveIsTheStep(n, x.t, e, i);
    ReceivedIsSteady(n.aead, x.t, i, e.act.wire, e.at);
    OutcomeNow(n, start, x, Entry(th, e));
    OutcomesLogged(n, start, x.log, Entry(th, e), x.outcomes);
    if y.pcs[th].Finished? {
      OutcomeSettled(n, start, x, Entry(th, e), Dropped);
    }
    LoggedKeeps(n, start, x, y, th, e);
  }

  lemma DecideKeeps(n: Node, start: State, x: World, th: nat, e: Event, k: nat, i: nat, payload: Bytes)
    requires Shape(start) && Matches(n, start, x) && th < |x.pcs| && x.pcs[th] == Opened(e, k, i, payload)
    requires i < x.t.slots
    ensures Matches(n, start, Decide(x, th, e, k, i, payload))
  {
    hide Same, Steady, OrderMatches, TablesMatch, FindByAddr, RunTo, OutcomeOf, Dispatch;
    var y := Decide(x, th, e, k, i, payload);
    assert Stands(n, start, x.t, x.log, x.pcs[th]);
    SteadyReflexive(x.t);
    QuietKeeps(n, start, x, y, th);
  }

  /** The two sections of `forward_to_peer`. */
  lemma SendKeeps(n: Node, start: State, x: World, th: nat, i: nat, r: Session, pc: Pc)
    requires Shape(start) && Matches(n, start, x) && th < |x.pcs| && (x.pcs[th].Leaving? || x.pcs[th].Numbered?)
    requires i < x.t.slots && r == x.t.sessions[i].(sendSeq := r.sendSeq, lastSent := r.lastSent)
    requires pc.Finished? || (pc.Numbered? && pc.slot == i && (pc.e.act.Data? || pc.e.act.Tun?))
    ensures Matches(n, start, SetPc(x.(t := SetSession(x.t, i, r)), th, pc))
  {
    hide OutcomesMatch, OrderMatches, TablesMatch, RunTo;
    SendingIsSilent(x.t, i, r);
    QuietKeeps(n, start, x, SetPc(x.(t := SetSession(x.t, i, r)), th, pc), th);
  }

  lemma FinishKeeps(n: Node, start: State, x: World, th: nat)
    requires Shape(start) && Matches(n, start, x) && th < |x.pcs| && x.pcs[th].Finished?
    ensures Matches(n, start, SetPc(x, th, Rest))
  {
    hide OutcomesMatch, OrderMatches, TablesMatch, RunTo, Same, Steady;
    SteadyReflexive(x.t);
    QuietKeeps(n, start, x, SetPc(x, th, Rest), th);
  }

  lemma NextKeeps(n: Node, start: State, x: World, th: nat, at: int)
    requires Shape(start) && Sized(x) && Matches(n, start, x) && th < |x.pcs| && !x.pcs[th].Rest?
    ensures Matches(n, start, Next(n, x, th, at))
  {
    hide Matches, LookUp, Receive, Decide, Step;
    match x.pcs[th] {
      case Begun(e) => LookUpKeeps(n, start, x, th, e);
      case Found(e, i) => ReceiveKeeps(n, start, x, th, e, i);
      case Opened(e, k, i, payload) => DecideKeeps(n, start, x, th, e, k, i, payload);
      case Leaving(e, i) => SendKeeps(n, start, x, th, i, TakeNumber(x.t.sessions[i]), Numbered(e, i));
      case Numbered(e, i) => SendKeeps(n, start, x, th, i, Stamp(x.t.sessions[i], e.act.sent, at), Finished);
      case Finished => FinishKeeps(n, start, x, th);
    }
  }

  lemma BeginKeeps(n: Node, start: State, x: World, th: nat, e: Event)
    requires Shape(start) && Matches(n, start, x) && Enabled(x, th, Begin(e))
    ensures Matches(n, start, SetPc(BeginEvent(x, th, e), th, Begun(e)))
  {
    hide OutcomesMatch, RunTo, Same, Of, FindByAddr, Dispatch, OutcomeOf;
  }

  lemma WriteKeeps(n: Node, start: State, x: World, th: nat, e: Event)
    requires Shape(start) && Sized(x) && Matches(n, start, x) && Enabled(x, th, Write(e))
    ensures Matches(n, start, Do(n, x, th, Write(e)))
  {
    hide OutcomesMatch, RunTo, Same, Of, FindByAddr, Dispatch, OutcomeOf, Step;
    var y := Do(n, x, th, Write(e));
    SameReflexive(y.t);
    LoggedTables(n, start, x, y, Entry(th, e));
    OutcomesLogged(n, start, x.log, Entry(th, e), x.outcomes);
    forall u | 0 <= u < |y.pcs|
      ensures Of(y.log, u) + Unlogged(y.pcs[u]) == y.begun[u]
    {
      OfGrows(x.log, Entry(th, e), u);
    }
  }

  lemma DoKeeps(n: Node, start: State, x: World, th: nat, m: Move)
    requires Shape(start) && Sized(x) && Matches(n, start, x) && Enabled(x, th, m)
    ensures Matches(n, start, Do(n, x, th, m))
  {
    hide Matches, Next, Step;
    match m {
      case Begin(e) => BeginKeeps(n, start, x, th, e);
      case Write(e) => WriteKeeps(n, start, x, th, e);
      case Advance(at) => NextKeeps(n, start, x, th, at);
    }
  }

  /** Thread `th` may log a packet and settle it or carry it on, and settles a packet before it lets go of it. */
  ghost predicate Settles(x: World, y: World, th: nat) {
    && th < |x.pcs| == |y.pcs| && y.pcs == x.pcs[th := y.pcs[th]]
    && x.outcomes.Keys <= y.outcomes.Keys
    && (x.pcs[th].Opened? ==> y.pcs[th] == x.pcs[th] || x.pcs[th].k in y.outcomes)
    && (|| y.log == x.log
        || exists e :: && y.log == x.log + [Entry(th, e)]
                       && (|| e.act.Handshake? || e.act.Pass? || |x.log| in y.outcomes
                           || (y.pcs[th].Opened? && y.pcs[th].k == |x.log|)))
  }

  lemma NextSettles(n: Node, x: World, th: nat, at: int)
    requires Shape(x.t) && th < |x.pcs| && PcOk(x.t, x.pcs[th])
    ensures Settles(x, Next(n, x, th, at), th)
  {
    hide FindByAddr, TunRoute, Received, Dispatch, Shape;
  }

  lemma SettlesKeepsDecided(x: World, y: World, th: nat)
    requires Decided(x) && Settles(x, y, th)
    ensures Decided(y)
  {}

  lemma DoKeepsDecided(n: Node, x: World, th: nat, m: Move)
    requires Sized(x) && Decided(x) && Enabled(x, th, m)
    ensures Decided(Do(n, x, th, m))
  {
    hide Step, Next, Decided;
    if m.Advance? {
      NextSettles(n, x, th, m.at);
    }
    SettlesKeepsDecided(x, Do(n, x, th, m), th);
  }

  // ----- whole interleavings

  /** Any number of threads at rest, over the tables `start`. */
  ghost predicate Start(x: World, start: State) {
    && x.t == start && Shape(start) && |x.begun| == |x.pcs| && x.log == [] && x.outcomes == map[]
    && forall th :: 0 <= th < |x.pcs| ==> x.pcs[th].Rest? && x.begun[th] == []
  }

  ghost predicate Follows(n: Node, x: World, y: World) {
    Sized(x) && exists th, m :: Enabled(x, th, m) && y == Do(n, x, th, m)
  }

  ghost predicate Interleaving(n: Node, start: State, xs: seq<World>) {
    xs != [] && Start(xs[0], start) && forall k :: 0 <= k < |xs| - 1 ==> Follows(n, xs[k], xs[k + 1])
  }

  lemma StartMatches(n: Node, start: State, x: World)
    requires Start(x, start)
    ensures Matches(n, start, x) && Decided(x)
  {}

  lemma {:induction false} InterleavingsMatch(n: Node, start: State, xs: seq<World>, k: nat)
    requires Shape(start) && Interleaving(n, start, xs) && k < |xs|
    ensures Matches(n, start, xs[k]) && Decided(xs[k])
  {
    hide Do, Enabled, Matches, Decided, Start, Sized;
    if k == 0 {
      StartMatches(n, start, xs[0]);
    } else {
      InterleavingsMatch(n, start, xs, k - 1);
      assert Follows(n, xs[k - 1], xs[k - 1 + 1]);
      var th, m :| Enabled(xs[k - 1], th, m) && xs[k] == Do(n, xs[k - 1], th, m);
      DoKeeps(n, start, xs[k - 1], th, m);
      DoKeepsDecided(n, xs[k - 1], th, m);
    }
  }

  /** Main result. At every point of every interleaving there is a run of whole critical sections, the log, such that:
      it is a merge of what the threads have begun, in each thread's order, but for packets that have not taken effect;
      its tables are the tables now, but for send counters and `last_sent`; every logged packet has fared, or is about
      to, as it does in that run. */
  lemma InterleavingsAreRuns(n: Node, start: State, xs: seq<World>, k: nat)
    requires Shape(start) && Interleaving(n, start, xs) && k < |xs|
    ensures var x, es := xs[k], Events(xs[k].log);
            && Same(x.t, Run(n, start, es))
            && (forall j :: j in x.outcomes ==>
                  j < |es| && x.outcomes[j] == OutcomeOf(n, Run(n, start, es[..j]), es[j]))
            && Decided(x) && |x.begun| == |x.pcs|
            && forall th :: 0 <= th < |x.pcs| ==> Of(x.log, th) + Unlogged(x.pcs[th]) == x.begun[th]
  {
    hide Run, Of, Same, OutcomeOf, Interleaving, Decided;
    InterleavingsMatch(n, start, xs, k);
    var es := Events(xs[k].log);
    assert es[..|es|] == es;
  }

  /** So what holds of the tables in every run, at whatever times, holds in every interleaving: the table
      invariant ... */
  lemma InterleavedTablesAreGood(n: Node, start: State, xs: seq<World>, k: nat)
    requires n.p.Valid() && Shape(start) && Initial(start) && Interleaving(n, start, xs) && k < |xs|
    ensures Good(xs[k].t)
  {
    hide Run, Interleaving, Initial, Of, OutcomeOf;
    InterleavingsAreRuns(n, start, xs, k);
    RunKeepsGood(n, start, Events(xs[k].log));
    SameIsGood(xs[k].t, Run(n, start, Events(xs[k].log)));
  }

  lemma SameIsGood(t: State, u: State)
    requires Same(t, u) && Good(u)
    ensures Good(t)
  {}

  /** ... and which keys open a packet. */
  lemma InterleavedKeys(n: Node, start: State, xs: seq<World>, k: nat, i: nat, wire: Bytes, now: int)
    requires Shape(start) && Initial(start) && Interleaving(n, start, xs) && k < |xs| && i < MAX_PEERS
    ensures Shape(xs[k].t)
    ensures xs[k].t.sessions[i].active ==>
              var l := LogOf(n, start, Events(xs[k].log), i);
              && l.keys != []
              && Sessions.Opened(n.aead, xs[k].t.sessions[i], wire, now) == OpenedByHistory(n, l, wire, now)
  {
    hide Run, Interleaving, Initial, Of, OutcomeOf, LogOf, OpenedByHistory, Decrypted;
    InterleavingsAreRuns(n, start, xs, k);
    var u := Run(n, start, Events(xs[k].log));
    assert Alike(xs[k].t.sessions[i], u.sessions[i]);
    OnlyLatestTwoKeys(n, start, Events(xs[k].log), i, wire, now);
  }
}
