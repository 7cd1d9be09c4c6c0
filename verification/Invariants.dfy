/** What every critical section keeps true of the tables. */
module Invariants {
  import opened Options
  import opened Wire
  import opened Routing
  import opened Sessions
  import opened Tables

  // ----- the table invariant

  ghost predicate Distinct(t: State)
    requires Shape(t)
  {
    forall i, j :: 0 <= i < j < MAX_PEERS && t.sessions[i].active && t.sessions[j].active ==>
      t.sessions[i].pub != t.sessions[j].pub
  }

  /** Some configuration has this key and these prefixes. */
  ghost predicate Configured(configs: seq<Config>, pub: Bytes, routes: seq<Prefix>) {
    exists c :: 0 <= c < |configs| && configs[c].pub == pub && configs[c].routes == routes
  }

  /** Active slots lie below `session_slots`, hold pairwise distinct keys, and carry the key and the
      prefixes of some configuration. */
  ghost predicate TableOk(t: State) {
    && Shape(t)
    && |t.configs| <= MAX_PEERS
    && (forall i :: t.slots <= i < MAX_PEERS ==> !t.sessions[i].active)
    && Distinct(t)
    && forall i :: 0 <= i < MAX_PEERS && t.sessions[i].active ==>
         Configured(t.configs, t.sessions[i].pub, t.sessions[i].routes)
  }

  /** An active pending handshake to a configuration with key `pub`. */
  ghost predicate HasPending(t: State, pub: Bytes)
    requires Shape(t)
  {
    exists j :: 0 <= j < MAX_PEERS && t.pending[j].active && t.configs[t.pending[j].cfgIdx].pub == pub
  }

  /** Every active session marked `rekeying`, but for the keys in `except`, has a pending handshake. */
  ghost predicate RekeyOk(t: State, except: set<Bytes>)
    requires Shape(t)
  {
    forall i :: 0 <= i < MAX_PEERS && t.sessions[i].active && t.sessions[i].rekeying && t.sessions[i].pub !in except ==>
      HasPending(t, t.sessions[i].pub)
  }

  ghost predicate PendingOk(t: State)
    requires Shape(t)
  {
    forall j :: 0 <= j < MAX_PEERS && t.pending[j].active ==>
      && t.configs[t.pending[j].cfgIdx].hasEndpoint
      && t.pending[j].sentAt <= t.configs[t.pending[j].cfgIdx].lastAttempt
  }

  ghost predicate Good(t: State) {
    TableOk(t) && RekeyOk(t, {}) && PendingOk(t)
  }

  // ----- lookups see the active sessions

  lemma FindByPubFinds(t: State, pub: Bytes)
    requires TableOk(t)
    ensures FindByPub(t, pub).Some? ==>
              var i := FindByPub(t, pub).value; i < t.slots && t.sessions[i].active && t.sessions[i].pub == pub
    ensures forall i :: 0 <= i < MAX_PEERS && t.sessions[i].active && t.sessions[i].pub == pub ==>
              FindByPub(t, pub) == Some(i)
  {}

  // ----- updates of one session

  /** `s` may replace session `i` without disturbing the tables: same identity, and neither newly
      active nor newly rekeying. */
  ghost predicate Harmless(old': Session, s: Session) {
    && s.window.Valid()
    && s.pub == old'.pub && s.routes == old'.routes
    && (s.active ==> old'.active)
    && (s.active && s.rekeying ==> old'.rekeying)
  }

  lemma HarmlessKeepsGood(t: State, i: nat, s: Session)
    requires Good(t) && i < MAX_PEERS && Harmless(t.sessions[i], s)
    ensures Good(SetSession(t, i, s))
  {}

  // ----- alloc_session never fails for a configured key

  ghost function Elements<T>(s: seq<T>): set<T> {
    set x | x in s
  }

  lemma {:induction false} ElementsAtMost<T>(s: seq<T>)
    ensures |Elements(s)| <= |s|
  {
    if s != [] {
      ElementsAtMost(s[1..]);
      assert Elements(s) == {s[0]} + Elements(s[1..]);
    }
  }

  lemma {:induction false} ElementsExactly<T>(s: seq<T>)
    requires forall i, j :: 0 <= i < j < |s| ==> s[i] != s[j]
    ensures |Elements(s)| == |s|
  {
    if s != [] {
      ElementsExactly(s[1..]);
      assert Elements(s) == {s[0]} + Elements(s[1..]);
      assert s[0] !in Elements(s[1..]);
    }
  }

  lemma SubsetSize<T>(a: set<T>, b: set<T>)
    requires a <= b
    ensures |a| <= |b|
  {
    assert a + (b - a) == b;
  }

  /** Among more slots than other keys there is no room: if `n` distinct keys all come from `keys` and
      avoid one element of it, then `n < |keys|`. */
  lemma Pigeonhole<T>(held: seq<T>, keys: seq<T>, free: T)
    requires forall i, j :: 0 <= i < j < |held| ==> held[i] != held[j]
    requires forall i :: 0 <= i < |held| ==> held[i] in keys && held[i] != free
    requires free in keys
    ensures |held| < |keys|
  {
    ElementsExactly(held);
    ElementsAtMost(keys);
    assert Elements(held) <= Elements(keys) - {free};
    SubsetSize(Elements(held), Elements(keys) - {free});
  }

  ghost function Pubs(configs: seq<Config>): (r: seq<Bytes>)
    ensures |r| == |configs| && forall c :: 0 <= c < |configs| ==> r[c] == configs[c].pub
  {
    seq(|configs|, c requires 0 <= c < |configs| => configs[c].pub)
  }

  ghost function HeldKeys(t: State): (r: seq<Bytes>)
    requires Shape(t)
    ensures |r| == MAX_PEERS && forall i :: 0 <= i < MAX_PEERS ==> r[i] == t.sessions[i].pub
  {
    seq(MAX_PEERS, i requires 0 <= i < MAX_PEERS => t.sessions[i].pub)
  }

  /** The "session table full" branch is dead: with at most 64 configurations, `alloc_session` finds a
      slot for every configured key. */
  lemma AllocNeverFails(t: State, c: nat, addr: Addr)
    requires TableOk(t) && c < |t.configs|
    ensures Alloc(t, t.configs[c].pub, addr).1.Some?
  {
    var pub := t.configs[c].pub;
    if Alloc(t, pub, addr).1.None? {
      FindByPubFinds(t, pub);
      assert t.sessions[..t.slots] == t.sessions;
      forall i | 0 <= i < MAX_PEERS
        ensures t.sessions[i].active && HeldKeys(t)[i] in Pubs(t.configs) && HeldKeys(t)[i] != pub
      {
        assert Configured(t.configs, t.sessions[i].pub, t.sessions[i].routes);
      }
      assert Pubs(t.configs)[c] == pub;
      Pigeonhole(HeldKeys(t), Pubs(t.configs), pub);
    }
  }

  // ----- installing a session

  /** The slot `alloc_session` hands out is the one holding the key, or else no slot holds the key. */
  lemma AllocByKey(t: State, pub: Bytes, addr: Addr, k: nat)
    requires TableOk(t) && k < MAX_PEERS && t.sessions[k].active && t.sessions[k].pub == pub
    ensures Alloc(t, pub, addr).1 == Some(k)
  {}

  lemma InstallKeepsTable(p: Params, t: State, c: nat, src: Addr, key: Bytes, outbound: bool, now: int)
    requires TableOk(t) && c < |t.configs|
    ensures TableOk(InstallFor(p, t, c, src, key, outbound, now))
  {
    var cfg := t.configs[c];
    AllocNeverFails(t, c, src);
    var (t', slot) := Alloc(t, cfg.pub, src);
    var i := slot.value;
    forall k | 0 <= k < MAX_PEERS && k != i && t.sessions[k].active
      ensures t.sessions[k].pub != cfg.pub
    {
      if t.sessions[k].pub == cfg.pub {
        AllocByKey(t, cfg.pub, src, k);
      }
    }
    assert Configured(t.configs, cfg.pub, cfg.routes);
  }

  lemma InstallSettlesRekey(p: Params, t: State, c: nat, src: Addr, key: Bytes, outbound: bool, now: int)
    requires TableOk(t) && c < |t.configs| && RekeyOk(t, {t.configs[c].pub})
    ensures RekeyOk(InstallFor(p, t, c, src, key, outbound, now), {})
  {
    var pub := t.configs[c].pub;
    AllocNeverFails(t, c, src);
    var i := Alloc(t, pub, src).1.value;
    var r := InstallFor(p, t, c, src, key, outbound, now);
    forall k | 0 <= k < MAX_PEERS && r.sessions[k].active && r.sessions[k].rekeying
      ensures HasPending(r, r.sessions[k].pub)
    {
      assert k != i;
      if t.sessions[k].pub == pub {
        AllocByKey(t, pub, src, k);
      }
      assert HasPending(t, t.sessions[k].pub);
    }
  }

  lemma InstallKeepsGood(p: Params, t: State, c: nat, src: Addr, key: Bytes, outbound: bool, now: int)
    requires TableOk(t) && PendingOk(t) && c < |t.configs| && RekeyOk(t, {t.configs[c].pub})
    ensures Good(InstallFor(p, t, c, src, key, outbound, now))
  {
    InstallKeepsTable(p, t, c, src, key, outbound, now);
    InstallSettlesRekey(p, t, c, src, key, outbound, now);
  }

  // ----- consuming a pending handshake

  lemma ConsumeKeeps(t: State, j: nat)
    requires Good(t) && j < MAX_PEERS && t.pending[j].active
    ensures TableOk(Consume(t, j)) && PendingOk(Consume(t, j))
    ensures RekeyOk(Consume(t, j), {t.configs[t.pending[j].cfgIdx].pub})
  {
    var pub := t.configs[t.pending[j].cfgIdx].pub;
    var r := Consume(t, j);
    forall k | 0 <= k < MAX_PEERS && r.sessions[k].active && r.sessions[k].rekeying && r.sessions[k].pub != pub
      ensures HasPending(r, r.sessions[k].pub)
    {
      assert HasPending(t, t.sessions[k].pub);
      var h :| 0 <= h < MAX_PEERS && t.pending[h].active && t.configs[t.pending[h].cfgIdx].pub == t.sessions[k].pub;
      assert r.pending[h] == t.pending[h];
    }
  }

  lemma ClearRekeyingSettles(t: State, pub: Bytes)
    requires TableOk(t) && PendingOk(t) && RekeyOk(t, {pub})
    ensures Good(ClearRekeying(t, pub))
  {}

  /** A handshake packet, answered or inbound, keeps the invariant. */
  lemma HandshakeKeepsGood(p: Params, t: State, myPub: Bytes, src: Addr, recv: Recv, reply: Answer, now: int)
    requires Good(t)
    ensures Good(OnHandshake(p, t, myPub, src, recv, reply, now))
  {
    match PendingFrom(t, src) {
      case Some(j) =>
        var c := t.pending[j].cfgIdx;
        ConsumeKeeps(t, j);
        match recv(t.pending[j].hs, t.configs[c].pub) {
          case Some(k) => InstallKeepsGood(p, Consume(t, j), c, src, k, true, now);
          case None => ClearRekeyingSettles(Consume(t, j), t.configs[c].pub);
        }
      case None =>
        match InboundFor(p, t, src, reply, now) {
          case Some(c) => InstallKeepsGood(p, t, c, src, reply.value.1, false, now);
          case None =>
        }
    }
  }
}
