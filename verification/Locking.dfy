/** Threads and locks: any number of workers and the housekeeping thread, interleaved step by step, over
    the readers-writer `table_lock` and one `hot_lock` per slot. Reads and writes of a session's address,
    key and send counter are separate steps. */
module Locking {
  import opened Options
  import opened Words
  import opened Wire
  import opened Sessions

  /** The reign of one key in a slot: the key, its address, and the numbers handed out under it. */
  datatype Epoch = Epoch(key: Bytes, addr: Addr, handed: seq<uint64>)

  /** The hot fields a sender reads, and the history of the slot. */
  datatype Slot = Slot(key: Bytes, addr: Addr, sendSeq: uint64, epochs: seq<Epoch>)

  /** A datagram: what was sealed and where it goes, and the place in the history its number came from. */
  datatype Dgram = Dgram(slot: nat, epoch: nat, index: nat, seqno: uint64, key: Bytes, addr: Addr)

  /** What a thread does under `hot_lock`: `Touch` stands for every section that uses none of the three
      fields (the receive section, stamping `last_sent`, the expiry and keepalive checks, printing). */
  datatype Job = Touch | Forward | Install(key: Bytes, addr: Addr)

  /** Where a thread stands. `w` says that it holds `table_lock` for writing, otherwise for reading. */
  datatype Pc =
    | Idle
    | WaitRead
    | WaitWrite
    | Table(w: bool)
    | WaitHot(w: bool, slot: nat, job: Job)
    | Hot(w: bool, slot: nat, job: Job)
    | Counted(w: bool, slot: nat, seqno: uint64)
    | Numbered(w: bool, slot: nat, epoch: nat, index: nat, seqno: uint64)
    | Keyed(w: bool, slot: nat, epoch: nat, index: nat, seqno: uint64, key: Bytes)
    | Addressed(w: bool, slot: nat, d: Dgram)
    | Ready(w: bool, d: Dgram)
    | Installing(slot: nat, key: Bytes, stage: nat)

  datatype World = World(writer: Option<nat>, readers: set<nat>, hot: seq<Option<nat>>, pcs: seq<Pc>,
                         slots: seq<Slot>, log: seq<Dgram>)

  datatype Move = AskRead | AskWrite | Advance | Leave | AskHot(slot: nat, job: Job)

  // ----- steps

  /** The hot lock a thread holds, if any. */
  function HotOf(pc: Pc): Option<nat> {
    if pc.Hot? || pc.Counted? || pc.Numbered? || pc.Keyed? || pc.Addressed? || pc.Installing? then Some(pc.slot)
    else None
  }

  predicate Waiting(pc: Pc) {
    pc.WaitRead? || pc.WaitWrite? || pc.WaitHot?
  }

  predicate HoldsTable(pc: Pc) {
    !pc.Idle? && !pc.WaitRead? && !pc.WaitWrite?
  }

  predicate ForWriting(pc: Pc) {
    HoldsTable(pc) && (pc.Installing? || pc.w)
  }

  predicate ForReading(pc: Pc) {
    HoldsTable(pc) && !pc.Installing? && !pc.w
  }

  /** Between taking the hot lock and sending. */
  predicate Working(pc: Pc) {
    HoldsTable(pc) && !pc.Table? && !pc.WaitHot?
  }

  predicate Sending(pc: Pc) {
    ((pc.WaitHot? || pc.Hot?) && pc.job.Forward?) || pc.Counted? || pc.Numbered? || pc.Keyed? || pc.Addressed?
  }

  /** Slots in range; only slots that have been given a key are sent from; only a writer installs. */
  predicate PcOk(slots: seq<Slot>, pc: Pc) {
    && (pc.WaitHot? ==> pc.slot < |slots|)
    && (HotOf(pc).Some? ==> HotOf(pc).value < |slots|)
    && (Sending(pc) ==> slots[pc.slot].epochs != [])
    && ((pc.WaitHot? || pc.Hot?) && pc.job.Install? ==> pc.w)
  }

  ghost predicate Shape(x: World) {
    |x.hot| == |x.slots| && forall t :: 0 <= t < |x.pcs| ==> PcOk(x.slots, x.pcs[t])
  }

  /** `Advance` is the next step of the thread's program and blocks only on a lock; `Leave` gives up the table
      lock, or a failed encryption; `preferWriters` is the policy of the readers-writer lock. */
  ghost predicate Enabled(x: World, preferWriters: bool, t: nat, m: Move)
    requires Shape(x)
  {
    t < |x.pcs| &&
    match m
    case AskRead => x.pcs[t].Idle?
    case AskWrite => x.pcs[t].Idle?
    case AskHot(s, job) =>
      x.pcs[t].Table? && s < |x.slots| && (job.Forward? ==> x.slots[s].epochs != []) && (job.Install? ==> x.pcs[t].w)
    case Leave => x.pcs[t].Table? || x.pcs[t].Numbered?
    case Advance =>
      match x.pcs[t]
      case Idle => false
      case Table(_) => false
      case WaitRead => x.writer.None? && (preferWriters ==> forall u :: 0 <= u < |x.pcs| ==> !x.pcs[u].WaitWrite?)
      case WaitWrite => x.writer.None? && x.readers == {}
      case WaitHot(_, s, _) => x.hot[s].None?
      case _ => true
  }

  /** A count as a 64-bit counter shows it. */
  function Wrap(k: nat): uint64 {
    k % TWO_TO_THE_64
  }

  /** `send_seq++` */
  function Next(seqno: uint64): uint64 {
    Wrap(seqno + 1)
  }

  lemma WrapNext(k: nat)
    ensures Wrap(0) == 0 && Next(Wrap(k)) == Wrap(k + 1)
  {}

  function LastEpoch(s: Slot): Epoch
    requires s.epochs != []
  {
    s.epochs[|s.epochs| - 1]
  }

  /** The slot after its thread wrote `send_seq`, with the number on record. */
  function HandOut(s: Slot, seqno: uint64): Slot
    requires s.epochs != []
  {
    s.(sendSeq := Next(seqno),
       epochs := s.epochs[..|s.epochs| - 1] + [LastEpoch(s).(handed := LastEpoch(s).handed + [seqno])])
  }

  /** The slot after its thread wrote the address of a new session: a new epoch has begun. */
  function Begin(s: Slot, key: Bytes, addr: Addr): Slot {
    s.(addr := addr, epochs := s.epochs + [Epoch(key, addr, [])])
  }

  function SetPc(x: World, t: nat, pc: Pc): World
    requires t < |x.pcs|
  {
    x.(pcs := x.pcs[t := pc])
  }

  function SetSlot(x: World, s: nat, v: Slot): World
    requires s < |x.slots|
  {
    x.(slots := x.slots[s := v])
  }

  function Free(x: World, s: nat): World
    requires s < |x.hot|
  {
    x.(hot := x.hot[s := None])
  }

  /** The next step of a thread that holds a hot lock or has a datagram ready. */
  function Work(x: World, t: nat): World
    requires |x.hot| == |x.slots| && t < |x.pcs| && PcOk(x.slots, x.pcs[t]) && HoldsTable(x.pcs[t])
  {
    match x.pcs[t]
    case Hot(w, s, Touch) => SetPc(Free(x, s), t, Table(w))
    case Hot(w, s, Forward) => SetPc(x, t, Counted(w, s, x.slots[s].sendSeq))
    case Counted(w, s, n) =>
      SetPc(SetSlot(x, s, HandOut(x.slots[s], n)), t,
        Numbered(w, s, |x.slots[s].epochs| - 1, |LastEpoch(x.slots[s]).handed|, n))
    case Numbered(w, s, e, k, n) => SetPc(x, t, Keyed(w, s, e, k, n, x.slots[s].key))
    case Keyed(w, s, e, k, n, key) => SetPc(x, t, Addressed(w, s, Dgram(s, e, k, n, key, x.slots[s].addr)))
    case Addressed(w, s, d) => SetPc(Free(x, s), t, Ready(w, d))
    case Ready(w, d) => SetPc(x.(log := x.log + [d]), t, Table(w))
    case Hot(w, s, Install(key, addr)) => SetPc(SetSlot(x, s, Begin(x.slots[s], key, addr)), t, Installing(s, key, 0))
    case Installing(s, key, stage) =>
      if stage == 0 then SetPc(SetSlot(x, s, x.slots[s].(key := key)), t, Installing(s, key, 1))
      else if stage == 1 then SetPc(SetSlot(x, s, x.slots[s].(sendSeq := 0)), t, Installing(s, key, 2))
      else SetPc(Free(x, s), t, Table(true))
    case _ => x
  }

  /** One step of thread `t`. */
  ghost function Do(x: World, preferWriters: bool, t: nat, m: Move): World
    requires Shape(x) && Enabled(x, preferWriters, t, m)
  {
    var pc := x.pcs[t];
    match m
    case AskRead => SetPc(x, t, WaitRead)
    case AskWrite => SetPc(x, t, WaitWrite)
    case AskHot(s, job) => SetPc(x, t, WaitHot(pc.w, s, job))
    case Leave =>
      if pc.Numbered? then SetPc(Free(x, pc.slot), t, Table(pc.w))
      else if pc.w then SetPc(x.(writer := None), t, Idle)
      else SetPc(x.(readers := x.readers - {t}), t, Idle)
    case Advance =>
      if pc.WaitRead? then SetPc(x.(readers := x.readers + {t}), t, Table(false))
      else if pc.WaitWrite? then SetPc(x.(writer := Some(t)), t, Table(true))
      else if pc.WaitHot? then SetPc(x.(hot := x.hot[pc.slot := Some(t)]), t, Hot(pc.w, pc.slot, pc.job))
      else Work(x, t)
  }

  // ----- the locks

  /** Who holds the table lock. */
  ghost predicate TableLockOk(x: World) {
    && (forall t :: 0 <= t < |x.pcs| ==> (ForWriting(x.pcs[t]) <==> x.writer == Some(t)))
    && (forall t :: 0 <= t < |x.pcs| ==> (ForReading(x.pcs[t]) <==> t in x.readers))
    && (forall t :: t in x.readers ==> t < |x.pcs|)
    && (x.writer.Some? ==> x.writer.value < |x.pcs| && x.readers == {})
  }

  /** Who holds the hot locks. */
  ghost predicate HotLocksOk(x: World) {
    && (forall t, s :: 0 <= t < |x.pcs| && 0 <= s < |x.hot| ==> (HotOf(x.pcs[t]) == Some(s) <==> x.hot[s] == Some(t)))
    && (forall s :: 0 <= s < |x.hot| && x.hot[s].Some? ==> x.hot[s].value < |x.pcs|)
  }

  ghost predicate LocksOk(x: World) {
    Shape(x) && TableLockOk(x) && HotLocksOk(x)
  }

  /** Thread `t` moved without touching the table lock. */
  ghost predicate KeepsTable(x: World, y: World, t: nat) {
    && t < |x.pcs| == |y.pcs| && y.pcs == x.pcs[t := y.pcs[t]]
    && y.writer == x.writer && y.readers == x.readers
    && ForWriting(y.pcs[t]) == ForWriting(x.pcs[t]) && ForReading(y.pcs[t]) == ForReading(x.pcs[t])
  }

  /** Thread `t` moved and kept its hot lock (or had none), released it, or took a free one. */
  ghost predicate KeepsHot(x: World, y: World, t: nat) {
    && t < |x.pcs| == |y.pcs| && y.pcs == x.pcs[t := y.pcs[t]]
    && var a, b := HotOf(x.pcs[t]), HotOf(y.pcs[t]);
       || (a == b && y.hot == x.hot)
       || (a.Some? && b.None? && a.value < |x.hot| && y.hot == x.hot[a.value := None])
       || (a.None? && b.Some? && b.value < |x.hot| && x.hot[b.value].None? && y.hot == x.hot[b.value := Some(t)])
  }

  lemma TableLockKept(x: World, y: World, t: nat)
    requires TableLockOk(x) && KeepsTable(x, y, t)
    ensures TableLockOk(y)
  {}

  lemma HotLocksKept(x: World, y: World, t: nat)
    requires HotLocksOk(x) && KeepsHot(x, y, t)
    ensures HotLocksOk(y)
  {}

  /** Epochs are only added, and never lose what they record. */
  ghost predicate Grows(a: seq<Slot>, b: seq<Slot>) {
    |a| == |b| && forall s :: 0 <= s < |a| ==> |a[s].epochs| <= |b[s].epochs|
  }

  lemma WorkGrows(x: World, t: nat)
    requires |x.hot| == |x.slots| && t < |x.pcs| && PcOk(x.slots, x.pcs[t]) && HoldsTable(x.pcs[t])
    ensures Grows(x.slots, Work(x, t).slots)
  {}

  lemma GrowsKeepsPcs(a: seq<Slot>, b: seq<Slot>, pc: Pc)
    requires Grows(a, b) && PcOk(a, pc)
    ensures PcOk(b, pc)
  {}

  lemma WorkKeepsShape(x: World, t: nat)
    requires Shape(x) && t < |x.pcs| && HoldsTable(x.pcs[t])
    ensures Shape(Work(x, t))
  {
    WorkGrows(x, t);
    var y := Work(x, t);
    forall u | 0 <= u < |y.pcs|
      ensures PcOk(y.slots, y.pcs[u])
    {
      if u != t {
        GrowsKeepsPcs(x.slots, y.slots, x.pcs[u]);
      }
    }
  }

  lemma WorkMoves(x: World, t: nat)
    requires |x.hot| == |x.slots| && t < |x.pcs| && PcOk(x.slots, x.pcs[t]) && Working(x.pcs[t])
    ensures KeepsTable(x, Work(x, t), t) && KeepsHot(x, Work(x, t), t)
    ensures HotOf(Work(x, t).pcs[t]).Some? ==> HotOf(x.pcs[t]).Some?
  {}

  lemma DoKeepsTableLock(x: World, preferWriters: bool, t: nat, m: Move)
    requires LocksOk(x) && Enabled(x, preferWriters, t, m)
    ensures TableLockOk(Do(x, preferWriters, t, m))
  {
    hide Work, HotLocksOk;
    if m.Advance? && !Waiting(x.pcs[t]) {
      WorkMoves(x, t);
    }
    if !(m.Advance? && (x.pcs[t].WaitRead? || x.pcs[t].WaitWrite?)) && !(m.Leave? && x.pcs[t].Table?) {
      TableLockKept(x, Do(x, preferWriters, t, m), t);
    }
  }

  lemma DoKeepsHotLocks(x: World, preferWriters: bool, t: nat, m: Move)
    requires LocksOk(x) && Enabled(x, preferWriters, t, m)
    ensures HotLocksOk(Do(x, preferWriters, t, m))
  {
    hide Work, TableLockOk;
    if m.Advance? && !Waiting(x.pcs[t]) {
      WorkMoves(x, t);
    }
    HotLocksKept(x, Do(x, preferWriters, t, m), t);
  }

  lemma DoKeepsShape(x: World, preferWriters: bool, t: nat, m: Move)
    requires Shape(x) && Enabled(x, preferWriters, t, m)
    ensures Shape(Do(x, preferWriters, t, m))
  {
    hide Work;
    if m.Advance? && !Waiting(x.pcs[t]) {
      WorkKeepsShape(x, t);
    }
  }

  lemma DoKeepsLocks(x: World, preferWriters: bool, t: nat, m: Move)
    requires Shape(x) && LocksOk(x) && Enabled(x, preferWriters, t, m)
    ensures LocksOk(Do(x, preferWriters, t, m))
  {
    hide Do, Shape, Enabled, TableLockOk, HotLocksOk;
    DoKeepsShape(x, preferWriters, t, m);
    DoKeepsTableLock(x, preferWriters, t, m);
    DoKeepsHotLocks(x, preferWriters, t, m);
  }

  /** In no reachable state are two threads inside one hot section, or is a thread inside one while another
      holds the table for writing. */
  lemma MutualExclusion(x: World, t: nat, u: nat)
    requires LocksOk(x) && t < |x.pcs| && u < |x.pcs| && t != u
    ensures HotOf(x.pcs[t]).Some? ==> HotOf(x.pcs[t]) != HotOf(x.pcs[u])
    ensures HotOf(x.pcs[t]).Some? ==> !ForWriting(x.pcs[u])
  {}

  /** Thread `t` waits for a lock that `u` holds, or behind the waiting writer `u`. */
  ghost predicate WaitsFor(x: World, preferWriters: bool, t: nat, u: nat) {
    && t < |x.pcs| && u < |x.pcs|
    && match x.pcs[t]
       case WaitRead => x.writer == Some(u) || (preferWriters && x.pcs[u].WaitWrite?)
       case WaitWrite => x.writer == Some(u) || u in x.readers
       case WaitHot(_, s, _) => s < |x.hot| && x.hot[s] == Some(u)
       case _ => false
  }

  /** The order in which locks are taken. */
  function Rank(pc: Pc): nat {
    if pc.WaitRead? then 3 else if pc.WaitWrite? then 2 else if pc.WaitHot? then 1 else 0
  }

  lemma WaitsDown(x: World, preferWriters: bool, t: nat, u: nat)
    requires LocksOk(x) && WaitsFor(x, preferWriters, t, u)
    ensures Rank(x.pcs[u]) < Rank(x.pcs[t]) && !x.pcs[u].Idle?
  {}

  ghost predicate CanMove(x: World, preferWriters: bool, t: nat)
    requires Shape(x)
  {
    exists m :: Enabled(x, preferWriters, t, m)
  }

  lemma MovesOrWaits(x: World, preferWriters: bool, t: nat) returns (u: Option<nat>)
    requires LocksOk(x) && t < |x.pcs| && !x.pcs[t].Idle?
    ensures if u.Some? then WaitsFor(x, preferWriters, t, u.value) else CanMove(x, preferWriters, t)
  {
    u := None;
    var m := if x.pcs[t].Table? then Leave else Advance;
    if !Enabled(x, preferWriters, t, m) {
      match x.pcs[t] {
        case WaitRead =>
          if x.writer.Some? {
            u := x.writer;
          } else {
            var v :| 0 <= v < |x.pcs| && x.pcs[v].WaitWrite?;
            u := Some(v);
          }
        case WaitWrite =>
          if x.writer.Some? {
            u := x.writer;
          } else {
            var v :| v in x.readers;
            u := Some(v);
          }
        case WaitHot(_, s, _) => u := x.hot[s];
      }
    }
  }

  /** Each thread of `c` waits for the next. */
  ghost predicate Linked(x: World, preferWriters: bool, c: seq<nat>) {
    c != [] && (|c| > 1 ==> WaitsFor(x, preferWriters, c[0], c[1]) && Linked(x, preferWriters, c[1..]))
  }

  /** A chain of threads, each waiting for the next, leads from `t` to one that can move. */
  ghost predicate Progresses(x: World, preferWriters: bool, t: nat)
    requires Shape(x)
  {
    exists c :: Linked(x, preferWriters, c) && c[0] == t && CanMove(x, preferWriters, c[|c| - 1])
  }

  lemma {:induction false} ChainFrom(x: World, preferWriters: bool, t: nat) returns (c: seq<nat>)
    requires LocksOk(x) && t < |x.pcs| && !x.pcs[t].Idle?
    ensures Linked(x, preferWriters, c) && c[0] == t && CanMove(x, preferWriters, c[|c| - 1])
    decreases Rank(x.pcs[t])
  {
    hide LocksOk, CanMove, WaitsFor;
    c := [t];
    var u := MovesOrWaits(x, preferWriters, t);
    if u.Some? {
      WaitsInRange(x, preferWriters, t, u.value);
      WaitsDown(x, preferWriters, t, u.value);
      var d := ChainFrom(x, preferWriters, u.value);
      c := [t] + d;
      assert c[1..] == d;
    }
  }

  lemma WaitsInRange(x: World, preferWriters: bool, t: nat, u: nat)
    requires WaitsFor(x, preferWriters, t, u)
    ensures t < |x.pcs| && u < |x.pcs|
  {}

  /** No deadlock, under either policy: from every thread that is not idle, a chain of threads each waiting for the next
      ends in one that can move. */
  lemma NoDeadlock(x: World, preferWriters: bool, t: nat)
    requires LocksOk(x) && t < |x.pcs| && !x.pcs[t].Idle?
    ensures Progresses(x, preferWriters, t)
  {
    var c := ChainFrom(x, preferWriters, t);
  }

  /** Threads never wait in a circle, whatever else runs. */
  lemma {:induction false} NoCircularWait(x: World, preferWriters: bool, c: seq<nat>)
    requires LocksOk(x) && Linked(x, preferWriters, c) && |c| > 1
    ensures c[0] < |x.pcs| && c[|c| - 1] < |x.pcs| && Rank(x.pcs[c[|c| - 1]]) < Rank(x.pcs[c[0]])
    ensures c[0] != c[|c| - 1]
  {
    hide LocksOk, WaitsFor, Rank;
    WaitsInRange(x, preferWriters, c[0], c[1]);
    WaitsDown(x, preferWriters, c[0], c[1]);
    if |c| > 2 {
      NoCircularWait(x, preferWriters, c[1..]);
    }
  }

  // ----- the history

  /** The install in progress in slot `s`: the new key and how far it got. */
  function InstallIn(x: World, s: nat): Option<(Bytes, nat)>
    requires s < |x.hot|
  {
    match x.hot[s]
    case Some(t) => if t < |x.pcs| && x.pcs[t].Installing? then Some((x.pcs[t].key, x.pcs[t].stage)) else None
    case None => None
  }

  /** The `k`-th number of every epoch is `k`, up to wrap-around. */
  ghost predicate InOrder(epochs: seq<Epoch>) {
    forall e, k :: 0 <= e < |epochs| && 0 <= k < |epochs[e].handed| ==> epochs[e].handed[k] == Wrap(k)
  }

  /** Key, address and counter belong to the last epoch; during an install, as far as it got. */
  ghost predicate SlotOk(v: Slot, install: Option<(Bytes, nat)>) {
    && InOrder(v.epochs)
    && match install
       case None =>
         v.epochs != [] ==>
           && v.key == LastEpoch(v).key && v.addr == LastEpoch(v).addr
           && v.sendSeq == Wrap(|LastEpoch(v).handed|)
       case Some((key, stage)) =>
         && v.epochs != [] && LastEpoch(v).handed == [] && v.addr == LastEpoch(v).addr && LastEpoch(v).key == key
         && (stage >= 1 ==> v.key == key) && (stage >= 2 ==> v.sendSeq == 0)
  }

  /** Number `n` is entry `k` of epoch `e` of slot `s`. */
  ghost predicate OnRecord(slots: seq<Slot>, s: nat, e: nat, k: nat, n: uint64) {
    s < |slots| && e < |slots[s].epochs| && k < |slots[s].epochs[e].handed| && slots[s].epochs[e].handed[k] == n
  }

  /** Key, number and address of a datagram come from one epoch. */
  ghost predicate Genuine(slots: seq<Slot>, d: Dgram) {
    && OnRecord(slots, d.slot, d.epoch, d.index, d.seqno)
    && d.key == slots[d.slot].epochs[d.epoch].key && d.addr == slots[d.slot].epochs[d.epoch].addr
  }

  /** What a thread in the middle of sending has in its local variables. */
  ghost predicate LocalsOk(slots: seq<Slot>, pc: Pc) {
    match pc
    case Counted(_, s, n) => s < |slots| && n == slots[s].sendSeq
    case Numbered(_, s, e, k, n) => OnRecord(slots, s, e, k, n) && e == |slots[s].epochs| - 1
    case Keyed(_, s, e, k, n, key) =>
      OnRecord(slots, s, e, k, n) && e == |slots[s].epochs| - 1 && key == slots[s].epochs[e].key
    case Addressed(_, _, d) => Genuine(slots, d)
    case Ready(_, d) => Genuine(slots, d)
    case _ => true
  }

  ghost predicate HistoryOk(x: World)
    requires Shape(x)
  {
    && (forall s :: 0 <= s < |x.slots| ==> SlotOk(x.slots[s], InstallIn(x, s)))
    && (forall t :: 0 <= t < |x.pcs| ==> LocalsOk(x.slots, x.pcs[t]))
    && (forall i :: 0 <= i < |x.log| ==> Genuine(x.slots, x.log[i]))
  }

  /** Epochs keep key and address, and their numbers only grow. */
  ghost predicate Extends(a: Slot, b: Slot) {
    && |a.epochs| <= |b.epochs|
    && forall e :: 0 <= e < |a.epochs| ==>
         && b.epochs[e].key == a.epochs[e].key && b.epochs[e].addr == a.epochs[e].addr
         && a.epochs[e].handed <= b.epochs[e].handed
  }

  /** Thread `t` changed at most the slot whose hot lock it holds, and extended its history. */
  ghost predicate OwnSlotOnly(x: World, y: World, t: nat) {
    && t < |x.pcs| && |y.slots| == |x.slots|
    && forall s :: 0 <= s < |x.slots| ==>
         Extends(x.slots[s], y.slots[s]) && (HotOf(x.pcs[t]) != Some(s) ==> y.slots[s] == x.slots[s])
  }

  lemma WorkOwnSlot(x: World, t: nat)
    requires |x.hot| == |x.slots| && t < |x.pcs| && PcOk(x.slots, x.pcs[t]) && HoldsTable(x.pcs[t])
    ensures OwnSlotOnly(x, Work(x, t), t)
  {}

  lemma GenuineStays(a: seq<Slot>, b: seq<Slot>, d: Dgram)
    requires |a| == |b| && Genuine(a, d) && (d.slot < |a| ==> Extends(a[d.slot], b[d.slot]))
    ensures Genuine(b, d)
  {}

  lemma OthersLocals(x: World, y: World, t: nat, u: nat)
    requires u < |x.pcs| && OwnSlotOnly(x, y, t) && LocalsOk(x.slots, x.pcs[u])
    requires HotOf(x.pcs[u]).Some? ==> HotOf(x.pcs[u]) != HotOf(x.pcs[t])
    ensures LocalsOk(y.slots, x.pcs[u])
  {}

  /** What `Work` makes of its own slot and locals. */
  lemma WorkOwn(x: World, t: nat, s: nat)
    requires |x.hot| == |x.slots| && t < |x.pcs| && PcOk(x.slots, x.pcs[t]) && HotOf(x.pcs[t]) == Some(s)
    requires x.hot[s] == Some(t)
    requires SlotOk(x.slots[s], InstallIn(x, s)) && LocalsOk(x.slots, x.pcs[t])
    ensures var y := Work(x, t);
            |y.hot| == |x.hot| == |y.slots| && SlotOk(y.slots[s], InstallIn(y, s)) && LocalsOk(y.slots, y.pcs[t])
  {
    hide HandOut, Begin, Wrap, InOrder;
    WrapNext(0);
    match x.pcs[t] {
      case Counted(_, _, n) => HandOutOk(x.slots[s], n);
      case Hot(_, _, Install(key, addr)) => BeginOk(x.slots[s], key, addr);
      case _ =>
    }
  }

  lemma HandOutOk(v: Slot, n: uint64)
    requires v.epochs != [] && SlotOk(v, None) && n == v.sendSeq
    ensures SlotOk(HandOut(v, n), None)
    ensures |HandOut(v, n).epochs| == |v.epochs| && LastEpoch(HandOut(v, n)).handed == LastEpoch(v).handed + [n]
  {}

  lemma BeginOk(v: Slot, key: Bytes, addr: Addr)
    requires SlotOk(v, None)
    ensures SlotOk(Begin(v, key, addr), Some((key, 0)))
  {}

  lemma WorkKeepsHistory(x: World, t: nat)
    requires Shape(x) && LocksOk(x) && HistoryOk(x) && t < |x.pcs| && Working(x.pcs[t])
    ensures Shape(Work(x, t)) && HistoryOk(Work(x, t))
  {
    hide Work, SlotOk, LocalsOk, Genuine;
    var y := Work(x, t);
    WorkKeepsShape(x, t);
    WorkMoves(x, t);
    WorkOwnSlot(x, t);
    forall s | 0 <= s < |y.slots|
      ensures SlotOk(y.slots[s], InstallIn(y, s))
    {
      if HotOf(x.pcs[t]) == Some(s) {
        WorkOwn(x, t, s);
      } else {
        assert x.hot[s] != Some(t) && y.hot[s] == x.hot[s] && y.slots[s] == x.slots[s];
        assert InstallIn(y, s) == InstallIn(x, s);
      }
    }
    forall u | 0 <= u < |y.pcs|
      ensures LocalsOk(y.slots, y.pcs[u])
    {
      if u != t {
        OthersLocals(x, y, t, u);
      } else {
        WorkOwnLocals(x, t);
      }
    }
    WorkKeepsLog(x, t);
  }

  lemma WorkOwnLocals(x: World, t: nat)
    requires Shape(x) && LocksOk(x) && HistoryOk(x) && t < |x.pcs| && Working(x.pcs[t])
    ensures LocalsOk(Work(x, t).slots, Work(x, t).pcs[t])
  {
    hide SlotOk, Genuine;
    if HotOf(x.pcs[t]).Some? {
      WorkOwn(x, t, HotOf(x.pcs[t]).value);
    }
  }

  lemma WorkKeepsLog(x: World, t: nat)
    requires Shape(x) && HistoryOk(x) && t < |x.pcs| && HoldsTable(x.pcs[t])
    ensures var y := Work(x, t); forall i :: 0 <= i < |y.log| ==> Genuine(y.slots, y.log[i])
  {
    hide Genuine, SlotOk;
    WorkOwnSlot(x, t);
    var y := Work(x, t);
    forall i | 0 <= i < |y.log|
      ensures Genuine(y.slots, y.log[i])
    {
      GenuineStays(x.slots, y.slots, y.log[i]);
    }
  }

  /** A step that leaves slots and log alone, and neither starts nor ends work on a slot. */
  lemma QuietKeepsHistory(x: World, y: World, t: nat)
    requires Shape(x) && Shape(y) && HistoryOk(x) && HotLocksOk(x) && KeepsHot(x, y, t)
    requires t < |x.pcs| == |y.pcs| && y.pcs == x.pcs[t := y.pcs[t]]
    requires y.slots == x.slots && y.log == x.log && LocalsOk(y.slots, y.pcs[t])
    requires !x.pcs[t].Installing? && !y.pcs[t].Installing?
    ensures HistoryOk(y)
  {
    hide SlotOk, Genuine, LocalsOk, KeepsHot, HotLocksOk, InstallIn;
    forall s | 0 <= s < |y.slots|
      ensures InstallIn(y, s) == InstallIn(x, s)
    {
      SameInstall(x, y, t, s);
    }
    assert forall u :: 0 <= u < |y.pcs| && u != t ==> y.pcs[u] == x.pcs[u];
  }

  lemma SameInstall(x: World, y: World, t: nat, s: nat)
    requires HotLocksOk(x) && KeepsHot(x, y, t) && s < |x.hot| && !x.pcs[t].Installing? && !y.pcs[t].Installing?
    ensures |y.hot| == |x.hot| && InstallIn(y, s) == InstallIn(x, s)
  {}

  lemma DoKeepsHistory(x: World, preferWriters: bool, t: nat, m: Move)
    requires LocksOk(x) && HistoryOk(x) && Enabled(x, preferWriters, t, m)
    ensures Shape(Do(x, preferWriters, t, m)) && HistoryOk(Do(x, preferWriters, t, m))
  {
    hide Work, HistoryOk, HotLocksOk, TableLockOk;
    DoKeepsShape(x, preferWriters, t, m);
    if m.Advance? && !Waiting(x.pcs[t]) {
      WorkKeepsHistory(x, t);
    } else {
      QuietKeepsHistory(x, Do(x, preferWriters, t, m), t);
    }
  }

  // ----- each number is sent at most once

  /** A place in the history: entry `index` of an epoch of a slot. */
  datatype Ticket = Ticket(slot: nat, epoch: nat, index: nat)

  function TicketOf(d: Dgram): Ticket {
    Ticket(d.slot, d.epoch, d.index)
  }

  /** The entry a thread is about to send. */
  function Holding(pc: Pc): Option<Ticket> {
    match pc
    case Numbered(_, s, e, k, _) => Some(Ticket(s, e, k))
    case Keyed(_, s, e, k, _, _) => Some(Ticket(s, e, k))
    case Addressed(_, _, d) => Some(TicketOf(d))
    case Ready(_, d) => Some(TicketOf(d))
    case _ => None
  }

  ghost predicate Issued(slots: seq<Slot>, k: Ticket) {
    k.slot < |slots| && k.epoch < |slots[k.slot].epochs| && k.index < |slots[k.slot].epochs[k.epoch].handed|
  }

  /** No entry is held twice, sent twice, or held after it was sent. */
  ghost predicate TicketsOk(x: World) {
    && (forall t, u :: 0 <= t < u < |x.pcs| && Holding(x.pcs[t]).Some? ==> Holding(x.pcs[t]) != Holding(x.pcs[u]))
    && (forall t, i :: 0 <= t < |x.pcs| && 0 <= i < |x.log| ==> Holding(x.pcs[t]) != Some(TicketOf(x.log[i])))
    && (forall i, j :: 0 <= i < j < |x.log| ==> TicketOf(x.log[i]) != TicketOf(x.log[j]))
  }

  /** Thread `t` kept or dropped its ticket, sent it, or drew one never issued before. */
  ghost predicate TicketMove(x: World, y: World, t: nat) {
    && t < |x.pcs| == |y.pcs| && y.pcs == x.pcs[t := y.pcs[t]]
    && var a, b := Holding(x.pcs[t]), Holding(y.pcs[t]);
       || (y.log == x.log && (b == a || b.None?))
       || (a.Some? && b.None? && exists d :: y.log == x.log + [d] && TicketOf(d) == a.value)
       || (y.log == x.log && b.Some? && !Issued(x.slots, b.value))
  }

  lemma WorkTicket(x: World, t: nat)
    requires |x.hot| == |x.slots| && t < |x.pcs| && PcOk(x.slots, x.pcs[t]) && HoldsTable(x.pcs[t])
    ensures TicketMove(x, Work(x, t), t)
  {}

  lemma DoTicket(x: World, preferWriters: bool, t: nat, m: Move)
    requires Shape(x) && Enabled(x, preferWriters, t, m)
    ensures TicketMove(x, Do(x, preferWriters, t, m), t)
  {
    hide Work;
    if m.Advance? && !Waiting(x.pcs[t]) {
      WorkTicket(x, t);
    }
  }

  lemma HeldIsIssued(x: World, t: nat)
    requires Shape(x) && HistoryOk(x) && t < |x.pcs| && Holding(x.pcs[t]).Some?
    ensures Issued(x.slots, Holding(x.pcs[t]).value)
  {}

  lemma TicketsKept(x: World, y: World, t: nat)
    requires Shape(x) && HistoryOk(x) && TicketsOk(x) && TicketMove(x, y, t)
    ensures TicketsOk(y)
  {
    forall u | 0 <= u < |x.pcs| && Holding(x.pcs[u]).Some?
      ensures Issued(x.slots, Holding(x.pcs[u]).value)
    {
      HeldIsIssued(x, u);
    }
    forall i | 0 <= i < |x.log|
      ensures Issued(x.slots, TicketOf(x.log[i]))
    {
      assert Genuine(x.slots, x.log[i]);
    }
  }

  // ----- whole runs

  /** No thread has started, no slot has been given a key. */
  ghost predicate Start(x: World) {
    && |x.hot| == |x.slots| && x.writer.None? && x.readers == {} && x.log == []
    && (forall t :: 0 <= t < |x.pcs| ==> x.pcs[t].Idle?)
    && (forall s :: 0 <= s < |x.slots| ==> x.hot[s].None? && x.slots[s].epochs == [])
  }

  ghost predicate Good(x: World) {
    LocksOk(x) && HistoryOk(x) && TicketsOk(x)
  }

  lemma StartIsGood(x: World)
    requires Start(x)
    ensures Good(x)
  {}

  lemma DoKeepsGood(x: World, preferWriters: bool, t: nat, m: Move)
    requires Shape(x) && Good(x) && Enabled(x, preferWriters, t, m)
    ensures Good(Do(x, preferWriters, t, m))
  {
    hide Do, Enabled, TableLockOk, HotLocksOk, HistoryOk, TicketsOk, TicketMove;
    DoKeepsLocks(x, preferWriters, t, m);
    DoKeepsHistory(x, preferWriters, t, m);
    DoTicket(x, preferWriters, t, m);
    TicketsKept(x, Do(x, preferWriters, t, m), t);
  }

  /** `xs` is an interleaving: each state follows from the one before by a step of some thread. */
  ghost predicate Interleaving(xs: seq<World>, preferWriters: bool) {
    && xs != [] && Start(xs[0])
    && forall i :: 0 <= i < |xs| - 1 ==> Follows(xs[i], xs[i + 1], preferWriters)
  }

  ghost predicate Follows(x: World, y: World, preferWriters: bool) {
    Shape(x) && exists t, m :: Enabled(x, preferWriters, t, m) && y == Do(x, preferWriters, t, m)
  }

  /** Every state of every interleaving is good. */
  lemma {:induction false} InterleavingsAreGood(xs: seq<World>, preferWriters: bool, i: nat)
    requires Interleaving(xs, preferWriters) && i < |xs|
    ensures Good(xs[i])
  {
    hide Do, Enabled, Shape, Good, Start;
    if i == 0 {
      StartIsGood(xs[0]);
    } else {
      InterleavingsAreGood(xs, preferWriters, i - 1);
      assert Follows(xs[i - 1], xs[i - 1 + 1], preferWriters);
      var t, m :| Enabled(xs[i - 1], preferWriters, t, m) && xs[i] == Do(xs[i - 1], preferWriters, t, m);
      DoKeepsGood(xs[i - 1], preferWriters, t, m);
    }
  }

  /** In every interleaving: the numbers handed out under one key are 0, 1, 2, ... in this order; every
      datagram takes key, number and address from one epoch; no two take the same entry of the history; and
      every waiting thread waits, through a chain of others, for one that can move. */
  lemma SendingIsSound(xs: seq<World>, preferWriters: bool, i: nat)
    requires Interleaving(xs, preferWriters) && i < |xs|
    ensures var x := xs[i];
            && (forall s, e, k :: 0 <= s < |x.slots| && 0 <= e < |x.slots[s].epochs| &&
                                  0 <= k < |x.slots[s].epochs[e].handed| ==>
                  x.slots[s].epochs[e].handed[k] == Wrap(k))
            && (forall a :: 0 <= a < |x.log| ==> Genuine(x.slots, x.log[a]))
            && (forall a, b :: 0 <= a < b < |x.log| ==> TicketOf(x.log[a]) != TicketOf(x.log[b]))
            && (Shape(x) && forall t :: 0 <= t < |x.pcs| && !x.pcs[t].Idle? ==>
                  Progresses(x, preferWriters, t))
  {
    hide Enabled, Genuine, Wrap, Interleaving, Progresses;
    InterleavingsAreGood(xs, preferWriters, i);
    var x := xs[i];
    forall s, e, k | 0 <= s < |x.slots| && 0 <= e < |x.slots[s].epochs| && 0 <= k < |x.slots[s].epochs[e].handed|
      ensures x.slots[s].epochs[e].handed[k] == Wrap(k)
    {
      assert SlotOk(x.slots[s], InstallIn(x, s));
    }
    forall t | 0 <= t < |x.pcs| && !x.pcs[t].Idle?
      ensures Progresses(x, preferWriters, t)
    {
      NoDeadlock(x, preferWriters, t);
    }
  }

  /** Numbers in order are each used once exactly as long as there are at most 2^64 of them. */
  lemma EachOnceUpTo2To64(handed: seq<uint64>)
    requires forall k :: 0 <= k < |handed| ==> handed[k] == Wrap(k)
    ensures (forall i, j :: 0 <= i < j < |handed| ==> handed[i] != handed[j]) <==> |handed| <= TWO_TO_THE_64
  {
    if |handed| > TWO_TO_THE_64 {
      assert handed[0] == handed[TWO_TO_THE_64];
    }
  }
}
