/** Runs of the network that show why the promises about delivery carry their conditions. */
module Corners {
  import opened Options
  import opened Wire
  import opened Routing
  import opened Sessions
  import opened Tables
  import opened Runs
  import opened SlotHistory
  import opened Network
  import opened Scenes
  import Replay

  /** A run goes on with any possible deed. */
  lemma GoesOn(net: Net, ws: seq<World>, d: Deed)
    requires IsRun(net, ws) && Sized(net, ws[|ws| - 1]) && Possible(net, ws[|ws| - 1], d)
    ensures d.at < net.size && IsRun(net, ws + [Do(net, ws[|ws| - 1], d)])
  {
    hide Do, Start;
    var longer := ws + [Do(net, ws[|ws| - 1], d)];
    forall k | 0 <= k < |longer| - 1
      ensures Follows(net, longer[k], longer[k + 1])
    {
      if k < |ws| - 1 {
        assert Follows(net, ws[k], ws[k + 1]);
      }
    }
  }

  // ----- single deeds

  lemma NoSeals(a: nat, n: Node, t: State, e: Event, iv: nat -> Iv)
    requires Shape(t) && forall i :: 0 <= i < MAX_PEERS ==> Sends(n, t, e, i).None?
    ensures NewSeals(a, n, t, e, iv) == {}
  {}

  lemma SameKeys(keys: seq<set<Bytes>>, a: nat)
    requires a < |keys|
    ensures keys[a := keys[a] + {}] == keys
  {
    assert keys[a] + {} == keys[a];
  }

  lemma InitiationInstalls(n: Node, t: State, at: int, src: Addr, pub: Bytes, key: Bytes)
    requires Shape(t) && forall j :: 0 <= j < MAX_PEERS ==> !t.pending[j].active
    ensures NewKeys(n, t, Initiation(at, src, pub, key)) <= {key}
  {
    hide FindByAddr, FindByPub, FreeSession, FindConfig;
  }

  /** An initiation that brings a fresh key. */
  lemma InitiationDeed(net: Net, w: World, d: Deed, at: int, src: Addr, pub: Bytes, key: Bytes)
    requires Sized(net, w) && d.at < net.size && d.event == Initiation(at, src, pub, key) && key !in w.keys[d.at]
    requires forall j :: 0 <= j < MAX_PEERS ==> !w.tables[d.at].pending[j].active
    ensures Possible(net, w, d)
    ensures var r, n := Do(net, w, d), NodeAt(net, d.at);
            && r == w.(tables := w.tables[d.at := Step(n, w.tables[d.at], d.event)],
                       keys := w.keys[d.at := r.keys[d.at]])
            && r.keys[d.at] <= w.keys[d.at] + {key}
  {
    hide Step, Installs;
    var n, t := NodeAt(net, d.at), w.tables[d.at];
    InitiationInstalls(n, t, at, src, pub, key);
    NoSeals(d.at, n, t, d.event, d.iv);
  }

  /** The datagram of slot 0 at peer `a`. */
  function SealOf(a: nat, s: Session, iv: Iv): Sealed {
    SealAt(a, TOY_CIPHER, s, iv, Packet())
  }

  lemma SoleSeals(a: nat, n: Node, t: State, s: Session, at: int, iv: nat -> Iv)
    requires OnlySlot(t, s) && n.aead == TOY_CIPHER
    ensures NewSeals(a, n, t, Event(at, Tun(Packet(), true)), iv) == {SealOf(a, s, iv(0))}
    ensures Sends(n, t, Event(at, Tun(Packet(), true)), 0).Some?
    ensures forall i :: 0 < i < MAX_PEERS ==> Sends(n, t, Event(at, Tun(Packet(), true)), i).None?
  {
    hide TunRoute, OnTun, SealAt, Packet;
    SoleTun(t, s, at);
    SoleSession(t, s);
    var e := Event(at, Tun(Packet(), true));
    assert Sends(n, t, e, 0) == Some(Packet());
  }

  /** The packet is read from the interface and leaves under a fresh nonce. */
  lemma TunDeed(net: Net, w: World, d: Deed, s: Session, at: int)
    requires Sized(net, w) && d.at < net.size && net.aead == TOY_CIPHER && d.event == Event(at, Tun(Packet(), true))
    requires OnlySlot(w.tables[d.at], s) && Unwrapped(w.sealed, d.at, s)
    requires forall y :: y in w.sealed ==> y.wire != SealOf(d.at, s, d.iv(0)).wire
    ensures Possible(net, w, d)
    ensures var r := Do(net, w, d);
            && r == w.(tables := w.tables[d.at := r.tables[d.at]], input := r.input,
                       sealed := w.sealed + {SealOf(d.at, s, d.iv(0))})
            && OnlySlot(r.tables[d.at], Forwarded(s, true, at))
  {
    hide OnlySlot, OnTun, Sends, Packet, SealOf, Unwrapped, NewSeals, Possible;
    var n, t := NodeAt(net, d.at), w.tables[d.at];
    SoleSeals(d.at, n, t, s, at, d.iv);
    SoleTun(t, s, at);
    SameKeys(w.keys, d.at);
    TunPossible(net, w, d, s, at);
  }

  lemma TunPossible(net: Net, w: World, d: Deed, s: Session, at: int)
    requires Sized(net, w) && d.at < net.size && net.aead == TOY_CIPHER && d.event == Event(at, Tun(Packet(), true))
    requires OnlySlot(w.tables[d.at], s) && Unwrapped(w.sealed, d.at, s)
    requires forall y :: y in w.sealed ==> y.wire != SealOf(d.at, s, d.iv(0)).wire
    ensures Possible(net, w, d)
  {
    hide OnlySlot, Sends, Packet, SealOf, Unwrapped, NewSeals;
    SoleSeals(d.at, NodeAt(net, d.at), w.tables[d.at], s, at, d.iv);
    SoleSession(w.tables[d.at], s);
  }

  /** A data packet that is not relayed. */
  lemma DataDeed(net: Net, w: World, d: Deed, at: int, src: Addr, wire: Bytes, i: nat)
    requires Sized(net, w) && d.at < net.size && d.event == Event(at, Data(src, wire, true))
    requires Genuine(net.aead, w, w.keys[d.at], wire) && FindByAddr(w.tables[d.at], src) == Some(i)
    requires !OnData(w.tables[d.at], net.aead, src, wire, true, at).1.Relayed?
    ensures Possible(net, w, d) && i < MAX_PEERS
    ensures var s := w.tables[d.at].sessions[i];
            Do(net, w, d) == w.(tables := w.tables[d.at := OnData(w.tables[d.at], net.aead, src, wire, true, at).0],
                                taken := w.taken + [Taken(d.at, s.key, wire, Received(net.aead, s, wire, at).1)])
  {
    hide OnData, FindByAddr, Received, Genuine;
    var n, t := NodeAt(net, d.at), w.tables[d.at];
    NoSeals(d.at, n, t, d.event, d.iv);
    SameKeys(w.keys, d.at);
    ReceiverIsActive(t, d.event);
  }

  // ----- two peers and one key

  /** Peers 0 and 1, with default settings and only each other. */
  ghost predicate Pair(net: Net, w: World) {
    && net.aead == TOY_CIPHER && net.size == 2 && net.params(0) == net.params(1) == DEFAULTS
    && Start(net, w) && OnlyPeer(w.tables[0]) && OnlyPeer(w.tables[1])
  }

  function Last(ws: seq<World>): World
    requires ws != []
  {
    ws[|ws| - 1]
  }

  /** The run `ws`, whose last world is sized for `net`. */
  ghost predicate Going(net: Net, ws: seq<World>) {
    && ws != [] && IsRun(net, ws) && Sized(net, Last(ws))
    && net.size == 2 && net.aead == TOY_CIPHER && net.params(0) == net.params(1) == DEFAULTS
  }

  /** Peer `a` holds session `s` in its one slot, and has been given no more than `keys`. */
  ghost predicate Stands(w: World, a: nat, s: Session, keys: set<Bytes>) {
    a < |w.tables| == |w.keys| && OnlySlot(w.tables[a], s) && w.keys[a] <= keys
  }

  /** After both ends installed `KEY_A` at 1000. */
  ghost predicate Connected(net: Net, ws: seq<World>, s: Session, r: Session) {
    && Going(net, ws) && |ws| == 3
    && Stands(ws[2], 0, s, {KEY_A}) && Stands(ws[2], 1, r, {KEY_A}) && ws[2].sealed == {} && ws[2].taken == []
    && s == FirstSession(DEFAULTS, ws[0].tables[0].sessions[0], KEY_A, 1000)
    && r == FirstSession(DEFAULTS, ws[0].tables[1].sessions[0], KEY_A, 1000)
  }

  lemma Connect(net: Net, w: World) returns (ws: seq<World>, s: Session, r: Session)
    requires Sized(net, w) && |w.tables| >= 2 && Pair(net, w)
    ensures Connected(net, ws, s, r) && ws[0] == w
  {
    hide Step, Do, Possible, Start, OnlySlot, Initial;
    var d0 := Deed(0, Initiation(1000, ADDR, PUB, KEY_A), (i: nat) => NONCE);
    var d1 := Deed(1, Initiation(1000, ADDR, PUB, KEY_A), (i: nat) => NONCE);
    StartFacts(net, w);
    ws := [w];
    FirstInstall(NodeAt(net, 0), w.tables[0], 1000, KEY_A);
    FirstInstall(NodeAt(net, 1), w.tables[1], 1000, KEY_A);
    InitiationDeed(net, w, d0, 1000, ADDR, PUB, KEY_A);
    GoesOn(net, ws, d0);
    var w1 := Do(net, w, d0);
    InitiationDeed(net, w1, d1, 1000, ADDR, PUB, KEY_A);
    GoesOn(net, [w, w1], d1);
    ws := [w, w1, Do(net, w1, d1)];
    assert [w, w1] + [Do(net, w1, d1)] == ws;
    s := FirstSession(DEFAULTS, w.tables[0].sessions[0], KEY_A, 1000);
    r := FirstSession(DEFAULTS, w.tables[1].sessions[0], KEY_A, 1000);
  }

  lemma StartFacts(net: Net, w: World)
    requires Start(net, w)
    ensures IsRun(net, [w]) && w.sealed == {} && w.taken == []
    ensures forall a :: 0 <= a < net.size ==>
              && Initial(w.tables[a]) && w.keys[a] == {}
              && forall j :: 0 <= j < MAX_PEERS ==> !w.tables[a].pending[j].active
  {}

  /** Peer `a` sends the packet. */
  lemma SendsPacket(net: Net, ws: seq<World>, a: nat, s: Session, keys: set<Bytes>, iv: Iv,
                    at: int) returns (more: seq<World>)
    requires Going(net, ws) && a < 2 && Stands(Last(ws), a, s, keys) && Unwrapped(Last(ws).sealed, a, s)
    requires forall y :: y in Last(ws).sealed ==> y.wire != SealOf(a, s, iv).wire
    ensures Going(net, more) && |more| == |ws| + 1 && more[..|ws|] == ws
    ensures Stands(Last(more), a, Forwarded(s, true, at), keys)
    ensures var w, r := Last(ws), Last(more);
            && r == w.(tables := w.tables[a := r.tables[a]], input := r.input, sealed := w.sealed + {SealOf(a, s, iv)})
  {
    hide IsRun, Do, Possible, OnlySlot, SealOf, Unwrapped;
    var d := Deed(a, Event(at, Tun(Packet(), true)), (i: nat) => iv);
    TunDeed(net, Last(ws), d, s, at);
    GoesOn(net, ws, d);
    more := ws + [Do(net, Last(ws), d)];
  }

  /** `wire` arrives at peer 0. */
  lemma Arrives(net: Net, ws: seq<World>, s: Session, keys: set<Bytes>, wire: Bytes, at: int) returns (more: seq<World>)
    requires Going(net, ws) && Stands(Last(ws), 0, s, keys) && Genuine(net.aead, Last(ws), keys, wire)
    requires s.window.Valid()
    requires var v := Received(TOY_CIPHER, s, wire, at).1; v.Passed? ==> v.payload == Packet()
    ensures Going(net, more) && |more| == |ws| + 1 && more[..|ws|] == ws
    ensures var (s', v) := Received(TOY_CIPHER, s, wire, at);
            var w, r := Last(ws), Last(more);
            && Stands(r, 0, s', keys)
            && r == w.(tables := w.tables[0 := r.tables[0]], taken := w.taken + [Taken(0, s.key, wire, v)])
  {
    hide IsRun, Do, Possible, OnlySlot, Received, OnData, Decrypted;
    var w := Last(ws);
    var d := Deed(0, Event(at, Data(ADDR, wire, true)), (i: nat) => NONCE);
    SoleSession(w.tables[0], s);
    SoleReceiver(NodeAt(net, 0), w.tables[0], s, d.event);
    SoleData(NodeAt(net, 0), w.tables[0], s, wire, at);
    DataDeed(net, w, d, at, ADDR, wire, 0);
    GoesOn(net, ws, d);
    more := ws + [Do(net, w, d)];
  }

  /** Peer 0 is given another key. */
  lemma Rekeys(net: Net, ws: seq<World>, s: Session, keys: set<Bytes>, key: Bytes, at: int) returns (more: seq<World>)
    requires Going(net, ws) && Stands(Last(ws), 0, s, keys) && key !in keys
    requires at - s.lastHandshake >= 5
    ensures Going(net, more) && |more| == |ws| + 1 && more[..|ws|] == ws
    ensures var w, r := Last(ws), Last(more);
            && Stands(r, 0, FirstSession(DEFAULTS, s, key, at), keys + {key})
            && r == w.(tables := w.tables[0 := r.tables[0]], keys := w.keys[0 := r.keys[0]])
  {
    hide IsRun, Do, Possible, OnlySlot, Step;
    var w := Last(ws);
    var d := Deed(0, Initiation(at, ADDR, PUB, key), (i: nat) => NONCE);
    SoleSession(w.tables[0], s);
    NextInstall(NodeAt(net, 0), w.tables[0], s, at, key);
    InitiationDeed(net, w, d, at, ADDR, PUB, key);
    GoesOn(net, ws, d);
    more := ws + [Do(net, w, d)];
  }

  // ----- own datagrams, sent back

  lemma WiresDiffer(s: Session, r: Session)
    ensures SealOf(0, s, NONCE).wire != SealOf(1, r, OTHER_NONCE).wire
  {
    assert SealOf(0, s, NONCE).wire[0] == 0 && SealOf(1, r, OTHER_NONCE).wire[0] == 1;
  }

  /** A first datagram under `KEY_A` passes in a fresh session, and a second with its number is then a replay. */
  lemma NumberZeroOnce(s: Session, iv: Iv, other: Iv, at: int)
    requires s.key == KEY_A && s.window == Replay.Fresh()
    ensures var (s', v) := Received(TOY_CIPHER, s, Encrypted(TOY_CIPHER, KEY_A, iv, Frame(0, Packet())), at);
            && v == Passed(Current, 0, Packet())
            && s' == s.(lastSeen := at, prevActive := false, window := s'.window) && s'.window.Valid()
            && Received(TOY_CIPHER, s', Encrypted(TOY_CIPHER, KEY_A, other, Frame(0, Packet())), at + 1).1 ==
              Replayed(0)
  {
    hide Received, Encrypted, Frame, Replay.Check, Packet;
    CurrentKeyDelivery(TOY_CIPHER, s, iv, 0, Packet(), at);
    Replay.FreshRecordsNothing();
    Replay.CheckDecides(s.window, {}, 0);
    var s' := Received(TOY_CIPHER, s, Encrypted(TOY_CIPHER, KEY_A, iv, Frame(0, Packet())), at).0;
    CurrentKeyDelivery(TOY_CIPHER, s', other, 0, Packet(), at + 1);
    Replay.CheckDecides(s'.window, {0}, 0);
  }

  lemma SealIs(a: nat, s: Session, iv: Iv)
    requires s.sendSeq == 0
    ensures SealOf(a, s, iv) == Sealed(a, s.key, 0, Packet(), Encrypted(TOY_CIPHER, s.key, iv, Frame(0, Packet())))
  {}

  /** Both ends of a session number from 0 under one key, so a run of the network exists in which peer 0 is handed its
      own first datagram, and the first datagram of peer 1 is a replay to it. */
  lemma OwnDatagramTakesTheNumber(net: Net, w: World)
    requires Sized(net, w) && |w.tables| >= 2 && Pair(net, w)
    ensures exists ws, x, y ::
              && IsRun(net, ws) && ws != [] && ws[0] == w && x in Last(ws).sealed && y in Last(ws).sealed
              && x.sealer == 0 && y.sealer == 1 && x.key == y.key && x.seqno == y.seqno == 0
              && Last(ws).taken ==
                [Taken(0, x.key, x.wire, Passed(Current, 0, x.payload)), Taken(0, x.key, y.wire, Replayed(0))]
  {
    hide IsRun, Sized, OnlySlot, Encrypted, Frame, Received, Genuine, SealOf, Packet, Pair;
    var ws, s, x, y := BothSend(net, w);
    SealIs(0, s, NONCE);
    NumberZeroOnce(Forwarded(s, true, 1001), NONCE, OTHER_NONCE, 1002);
    var s1 := Forwarded(s, true, 1001);
    GenuineUnderA(Last(ws), x);
    GenuineUnderA(Last(ws), y);
    var w5 := Arrives(net, ws, s1, {KEY_A}, x.wire, 1002);
    SameGenuine(Last(ws), Last(w5), {KEY_A}, y.wire);
    var s2 := Received(TOY_CIPHER, s1, x.wire, 1002).0;
    var w6 := Arrives(net, w5, s2, {KEY_A}, y.wire, 1003);
    assert w6[0] == w6[..|w5|][0] && w5[0] == w5[..|ws|][0];
  }

  /** Both peers connect, and each seals its datagram number 0. */
  lemma BothSend(net: Net, w: World) returns (ws: seq<World>, s: Session, x: Sealed, y: Sealed)
    requires Sized(net, w) && |w.tables| >= 2 && Pair(net, w)
    ensures Going(net, ws) && ws[0] == w && Stands(Last(ws), 0, Forwarded(s, true, 1001), {KEY_A})
    ensures s == FirstSession(DEFAULTS, w.tables[0].sessions[0], KEY_A, 1000)
    ensures Last(ws).sealed == {x, y} && Last(ws).taken == []
    ensures x == Sealed(0, KEY_A, 0, Packet(), Encrypted(TOY_CIPHER, KEY_A, NONCE, Frame(0, Packet())))
    ensures y == Sealed(1, KEY_A, 0, Packet(), Encrypted(TOY_CIPHER, KEY_A, OTHER_NONCE, Frame(0, Packet())))
  {
    hide IsRun, OnlySlot, Encrypted, Frame, SealOf, Packet, Pair;
    var w2, s', r := Connect(net, w);
    s := s';
    x, y := SealOf(0, s, NONCE), SealOf(1, r, OTHER_NONCE);
    SealIs(0, s, NONCE);
    SealIs(1, r, OTHER_NONCE);
    WiresDiffer(s, r);
    var w3 := SendsPacket(net, w2, 0, s, {KEY_A}, NONCE, 1001);
    ws := SendsPacket(net, w3, 1, r, {KEY_A}, OTHER_NONCE, 1001);
    assert ws[0] == ws[..|w3|][0] && w3[0] == w3[..|w2|][0];
  }

  lemma GenuineUnderA(w: World, x: Sealed)
    requires x in w.sealed && x.key == KEY_A
    ensures Genuine(TOY_CIPHER, w, {KEY_A}, x.wire)
  {}

  lemma SameGenuine(w: World, r: World, keys: set<Bytes>, wire: Bytes)
    requires Genuine(TOY_CIPHER, w, keys, wire) && w.sealed <= r.sealed
    ensures Genuine(TOY_CIPHER, r, keys, wire)
  {
    hide Decrypted;
    forall k | k in keys && Decrypted(TOY_CIPHER, k, wire).Some?
      ensures exists x :: x in r.sealed && x.wire == wire && x.key == k
    {
      var x :| x in w.sealed && x.wire == wire && x.key == k;
      assert x in r.sealed;
    }
  }

  // ----- repeats under a previous key

  /** What `KEY_A` sealed opens under no other key given to a peer. */
  lemma GenuineBesides(w: World, x: Sealed, keys: set<Bytes>, iv: Iv, plain: Bytes)
    requires x in w.sealed && keys <= {KEY_A, KEY_B, KEY_C} && x.key in {KEY_A, KEY_C}
    requires x.wire == Encrypted(TOY_CIPHER, x.key, iv, plain)
    ensures Genuine(TOY_CIPHER, w, keys, x.wire)
  {
    hide Encrypted, Decrypted;
    forall k | k in keys && Decrypted(TOY_CIPHER, k, x.wire).Some?
      ensures k == x.key
    {
      if k[0] != x.key[0] {
        OpensUnderOwnKeyOnly(x.key, k, iv, plain);
      }
    }
  }

  /** A datagram under the previous key passes, and leaves no trace but `last_seen`. */
  lemma PassesInGrace(s: Session, iv: Iv, at: int)
    requires s.key == KEY_B && s.prevKey == KEY_A && s.prevActive && at <= s.prevExpires && s.window.Valid()
    ensures Received(TOY_CIPHER, s, Encrypted(TOY_CIPHER, KEY_A, iv, Frame(0, Packet())), at) ==
            (s.(lastSeen := at), Passed(Previous, 0, Packet()))
  {
    hide Decrypted, Encrypted, Frame, Framed, SeqOf, PayloadOf, Packet;
    DecryptRoundTrip(TOY_CIPHER, KEY_A, iv, Frame(0, Packet()));
    OpensUnderOwnKeyOnly(KEY_A, KEY_B, iv, Frame(0, Packet()));
    FrameRoundTrip(0, Packet());
  }

  /** The previous key has no window: a run of the network exists in which peer 0 hands on one datagram three times,
      once under the current key and twice more after a rekey. */
  lemma RepeatsUnderPrevious(net: Net, w: World)
    requires Sized(net, w) && |w.tables| >= 2 && Pair(net, w)
    ensures exists ws, y ::
              && IsRun(net, ws) && ws != [] && ws[0] == w && y in Last(ws).sealed && y.sealer == 1 && IsIpv4(y.payload)
              && Last(ws).taken == [Taken(0, KEY_A, y.wire, Passed(Current, 0, y.payload)),
                                    Taken(0, KEY_B, y.wire, Passed(Previous, 0, y.payload)),
                                    Taken(0, KEY_B, y.wire, Passed(Previous, 0, y.payload))]
  {
    hide IsRun, Sized, OnlySlot, Encrypted, Frame, Received, Genuine, Packet, Pair, IsIpv4;
    var ws, s, x, y := BothSend(net, w);
    var s1 := Forwarded(s, true, 1001);
    NumberZeroOnce(s1, OTHER_NONCE, OTHER_NONCE, 1002);
    GenuineUnderA(Last(ws), y);
    var w5 := Arrives(net, ws, s1, {KEY_A}, y.wire, 1002);
    var s2 := Received(TOY_CIPHER, s1, y.wire, 1002).0;
    var w6 := Rekeys(net, w5, s2, {KEY_A}, KEY_B, 1010);
    var s3 := FirstSession(DEFAULTS, s2, KEY_B, 1010);
    var w8 := TwiceInGrace(net, w6, s3, y);
    assert w8[0] == w8[..|w6|][0] && w6[0] == w6[..|w5|][0] && w5[0] == w5[..|ws|][0];
  }

  lemma TwiceInGrace(net: Net, ws: seq<World>, s: Session, y: Sealed) returns (more: seq<World>)
    requires Going(net, ws) && Stands(Last(ws), 0, s, {KEY_A} + {KEY_B}) && y in Last(ws).sealed
    requires y == Sealed(1, KEY_A, 0, Packet(), Encrypted(TOY_CIPHER, KEY_A, OTHER_NONCE, Frame(0, Packet())))
    requires s.key == KEY_B && s.prevKey == KEY_A && s.prevActive && s.prevExpires == 1100 && s.window.Valid()
    ensures Going(net, more) && |more| == |ws| + 2 && more[..|ws|] == ws && y in Last(more).sealed
    ensures var g := Taken(0, KEY_B, y.wire, Passed(Previous, 0, Packet())); Last(more).taken == Last(ws).taken + [g, g]
  {
    hide IsRun, Sized, OnlySlot, Encrypted, Frame, Received, Genuine, Packet;
    var keys := {KEY_A} + {KEY_B};
    GenuineBesides(Last(ws), y, keys, OTHER_NONCE, Frame(0, Packet()));
    PassesInGrace(s, OTHER_NONCE, 1011);
    var next := Arrives(net, ws, s, keys, y.wire, 1011);
    SameGenuine(Last(ws), Last(next), keys, y.wire);
    PassesInGrace(s.(lastSeen := 1011), OTHER_NONCE, 1012);
    more := Arrives(net, next, s.(lastSeen := 1011), keys, y.wire, 1012);
    assert more[..|ws|] == more[..|next|][..|ws|];
  }

  // ----- two sessions at one address

  /** Peer 0 knows two peers, of which peer 1 is the second; peer 1 knows only peer 0. */
  ghost predicate Hub(net: Net, w: World) {
    && net.aead == TOY_CIPHER && net.size == 2 && net.params(0) == net.params(1) == DEFAULTS
    && Start(net, w) && TwoPeers(w.tables[0]) && OnlyPeer(w.tables[1])
  }

  /** Peer 0 goes through an initiation with a fresh key. */
  lemma HubTakes(net: Net, ws: seq<World>, keys: set<Bytes>, at: int, src: Addr, pub: Bytes, key: Bytes)
    returns (more: seq<World>)
    requires Going(net, ws) && Last(ws).keys[0] <= keys && key !in keys
    requires forall j :: 0 <= j < MAX_PEERS ==> !Last(ws).tables[0].pending[j].active
    ensures Going(net, more) && |more| == |ws| + 1 && more[..|ws|] == ws
    ensures var w, r := Last(ws), Last(more);
            && r == w.(tables := w.tables[0 := Step(NodeAt(net, 0), w.tables[0], Initiation(at, src, pub, key))],
                       keys := w.keys[0 := r.keys[0]])
            && r.keys[0] <= keys + {key}
  {
    hide IsRun, Do, Possible, Step;
    var d := Deed(0, Initiation(at, src, pub, key), (i: nat) => NONCE);
    InitiationDeed(net, Last(ws), d, at, src, pub, key);
    GoesOn(net, ws, d);
    more := ws + [Do(net, Last(ws), d)];
  }

  /** Two peers connect to peer 0 from two addresses; then the second connects again, from the address of the first. */
  lemma SharesAddress(net: Net, w: World) returns (ws: seq<World>)
    requires Sized(net, w) && |w.tables| >= 2 && Hub(net, w)
    ensures Going(net, ws) && ws[0] == w && Last(ws).tables[1] == w.tables[1]
    ensures Last(ws).keys[0] <= {KEY_A, KEY_B, KEY_C}
    ensures Last(ws).keys[1] == {} && Last(ws).sealed == {} && Last(ws).taken == []
    ensures var t := Last(ws).tables[0];
            && InUse(t, 2) && Holds(t.sessions[0], PUB, ADDR, 1000) && Holds(t.sessions[1], PUB_2, ADDR, 1010)
            && t.sessions[0].key == KEY_A && !t.sessions[0].prevActive
            && t.sessions[1].key == KEY_C && t.sessions[1].window == Replay.Fresh()
  {
    hide IsRun, Step, Start, Initial, InUse, TwoPeers, Holds;
    StartFacts(net, w);
    var n := NodeAt(net, 0);
    FirstPeer(n, w.tables[0]);
    var w1 := HubTakes(net, [w], {}, 1000, ADDR, PUB, KEY_A);
    NothingPending(Last(w1).tables[0], 1);
    SecondPeer(n, Last(w1).tables[0]);
    var w2 := HubTakes(net, w1, {} + {KEY_A}, 1000, ADDR_2, PUB_2, KEY_B);
    NothingPending(Last(w2).tables[0], 2);
    SecondPeerMoves(n, Last(w2).tables[0]);
    ws := HubTakes(net, w2, {} + {KEY_A} + {KEY_B}, 1010, ADDR, PUB_2, KEY_C);
    assert ws[0] == ws[..|w2|][0] && w2[0] == w2[..|w1|][0] && w1[0] == w1[..1][0];
  }

  lemma NothingPending(t: State, slots: nat)
    requires InUse(t, slots)
    ensures Shape(t) && forall j :: 0 <= j < MAX_PEERS ==> !t.pending[j].active
  {}

  /** Active sessions may share an address, and the lower slot takes all its packets: a run of the network exists after
      which a new datagram under the current key of slot 1, from the address of slot 1, is dropped. */
  lemma LowerSlotTakesThePacket(net: Net, w: World)
    requires Sized(net, w) && |w.tables| >= 2 && Hub(net, w)
    ensures exists ws, x ::
              && IsRun(net, ws) && ws != [] && ws[0] == w && Sized(net, Last(ws))
              && x in Last(ws).sealed && x.sealer == 1
              && var t := Last(ws).tables[0];
                 && t.sessions[1].active && t.sessions[1].addr == ADDR && t.sessions[1].key == x.key
                 && NewTo(Last(ws), 0, x) && Genuine(net.aead, Last(ws), Last(ws).keys[0], x.wire)
                 && OnData(t, net.aead, ADDR, x.wire, true, 1012).1 == Dropped
  {
    hide IsRun, OnlySlot, Encrypted, Frame, Packet, OnData, Genuine, Start, Hub, InUse, SealOf, Step, Initial;
    var w3 := SharesAddress(net, w);
    HubFacts(net, w);
    var r := FirstSession(DEFAULTS, w.tables[1].sessions[0], KEY_C, 1010);
    var w4 := JoinsHub(net, w3, r);
    var ws := SendsPacket(net, w4, 1, r, {KEY_C}, NONCE, 1011);
    var x := SealOf(1, r, NONCE);
    SealIs(1, r, NONCE);
    GenuineBesides(Last(ws), x, Last(ws).keys[0], NONCE, Frame(0, Packet()));
    NewToNobody(Last(ws), x);
    SharedIsDropped(net, ws, x);
    assert ws[0] == ws[..|w4|][0] && w4[0] == w4[..|w3|][0];
  }

  lemma HubFacts(net: Net, w: World)
    requires Hub(net, w)
    ensures net.aead == TOY_CIPHER && net.size == 2 && net.params(1) == DEFAULTS && Sized(net, w)
    ensures Initial(w.tables[1]) && OnlyPeer(w.tables[1])
  {}

  lemma JoinsHub(net: Net, ws: seq<World>, r: Session) returns (more: seq<World>)
    requires Going(net, ws) && Initial(Last(ws).tables[1]) && OnlyPeer(Last(ws).tables[1]) && Last(ws).keys[1] == {}
    requires r == FirstSession(DEFAULTS, Last(ws).tables[1].sessions[0], KEY_C, 1010)
    ensures Going(net, more) && |more| == |ws| + 1 && more[..|ws|] == ws && Stands(Last(more), 1, r, {KEY_C})
    ensures var w, v := Last(ws), Last(more);
            v == w.(tables := w.tables[1 := v.tables[1]], keys := w.keys[1 := v.keys[1]])
  {
    hide IsRun, Do, Possible, Step, OnlySlot;
    var d := Deed(1, Initiation(1010, ADDR, PUB, KEY_C), (i: nat) => NONCE);
    FirstInstall(NodeAt(net, 1), Last(ws).tables[1], 1010, KEY_C);
    InitiationDeed(net, Last(ws), d, 1010, ADDR, PUB, KEY_C);
    GoesOn(net, ws, d);
    more := ws + [Do(net, Last(ws), d)];
  }

  lemma NewToNobody(w: World, x: Sealed)
    requires w.taken == []
    ensures NewTo(w, 0, x)
  {}

  lemma SharedIsDropped(net: Net, ws: seq<World>, x: Sealed)
    requires Going(net, ws) && x in Last(ws).sealed && Genuine(TOY_CIPHER, Last(ws), Last(ws).keys[0], x.wire)
    requires var t := Last(ws).tables[0];
             InUse(t, 2) && Holds(t.sessions[0], PUB, ADDR, 1000) && t.sessions[1].active && t.sessions[1].key == x.key
    ensures OnData(Last(ws).tables[0], net.aead, ADDR, x.wire, true, 1012).1 == Dropped
  {
    hide IsRun, Genuine, OnData, NewTo;
    DeliveryIsExact(net, ws, |ws| - 1, 0, 1, x, ADDR, true, 1012);
  }
}
