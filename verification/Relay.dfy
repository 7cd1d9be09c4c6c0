/** A packet's way through a relay: what one peer reads from its tunnel interface is what the other
    writes to its own, byte for byte. */
module Relay {
  import opened Options
  import opened Wire
  import opened Routing
  import opened Sessions
  import opened Tables
  import opened Invariants
  import opened Runs
  import Replay

  /** Slot `i` of `t` takes the next datagram of session `s` from address `src` and lets the source of
      `packet` through. */
  ghost predicate Admits(t: State, src: Addr, i: nat, s: Session, packet: Bytes)
    requires Shape(t) && IsIpv4(packet)
  {
    && FindByAddr(t, src) == Some(i) && i < t.slots
    && t.sessions[i].key == s.key
    && Replay.Check(t.sessions[i].window, s.sendSeq).1
    && AllowedSrc(t.sessions[i].routes, IpAt(packet, 12))
  }

  /** A peer that admits the sender's datagram recovers the packet and dispatches on it. */
  lemma HopRecovers(t: State, aead: Aead, src: Addr, i: nat, s: Session, iv: Iv, packet: Bytes, sent: bool, now: int)
    requires Shape(t) && IsIpv4(packet) && Admits(t, src, i, s, packet)
    ensures var r := Route(RouteTable(t), IpAt(packet, 16));
            OnData(t, aead, src, Datagram(aead, s, iv, packet), sent, now).1 ==
            if r.Some? && r.value != i then Relayed(r.value, packet) else ToTun(packet)
  {
    hide FindByAddr, Route, AllowedSrc, IpAt, Received, Encrypted;
    CurrentKeyDelivery(aead, t.sessions[i], iv, s.sendSeq, packet, now);
    var t' := SetSession(t, i, Received(aead, t.sessions[i], Datagram(aead, s, iv, packet), now).0);
    assert RouteTable(t') == RouteTable(t);
  }

  /** A way from peer A through the relay to peer B: A routes the packet to its slot `i`; the relay admits the
      datagram, from `fromA`, in slot `k` and routes the packet to slot `m`; B admits the relay's datagram, from
      `fromHub`, in slot `x` and has no other route for the packet. */
  datatype Path = Path(i: nat, fromA: Addr, k: nat, m: nat, fromHub: Addr, x: nat)

  ghost predicate Leads(w: Path, a: State, hub: State, b: State, packet: Bytes)
    requires Shape(a) && Shape(hub) && Shape(b)
  {
    && TunRoute(a, packet) == Some(w.i) && Admits(hub, w.fromA, w.k, a.sessions[w.i], packet)
    && Route(RouteTable(hub), IpAt(packet, 16)) == Some(w.m) && w.m != w.k
    && Admits(b, w.fromHub, w.x, hub.sessions[w.m], packet)
    && (Route(RouteTable(b), IpAt(packet, 16)).Some? ==> Route(RouteTable(b), IpAt(packet, 16)) == Some(w.x))
  }

  /** Hub transparency: along such a way, B hands its tunnel interface exactly the bytes A read, and no datagram
      exceeds a wire buffer. `Engine.Peer.TunPacket` and `Engine.Peer.DataPacket` produce these datagrams in the
      shared buffers. */
  lemma HubTransparency(a: State, hub: State, b: State, aead: Aead, packet: Bytes, w: Path, iv1: Iv, iv2: Iv,
                        sent: bool, now: int)
    requires Shape(a) && Shape(hub) && Shape(b) && |packet| <= BUFFER_SIZE
    ensures Leads(w, a, hub, b, packet) ==>
              var wire1 := Datagram(aead, a.sessions[w.i], iv1, packet);
              var wire2 := Datagram(aead, hub.sessions[w.m], iv2, packet);
              && OnData(hub, aead, w.fromA, wire1, sent, now).1 == Relayed(w.m, packet)
              && OnData(b, aead, w.fromHub, wire2, sent, now).1 == ToTun(packet)
              && |wire1| == |wire2| == |packet| + 44 <= 2092 == WIRE_BUFFER
  {
    hide OnData, Admits, Route, RouteTable, IpAt;
    if Leads(w, a, hub, b, packet) {
      HopRecovers(hub, aead, w.fromA, w.k, a.sessions[w.i], iv1, packet, sent, now);
      HopRecovers(b, aead, w.fromHub, w.x, hub.sessions[w.m], iv2, packet, sent, now);
    }
  }

  /** In every reachable state, a packet is handed on only if it opened under a key of the session at its source
      address, passed the replay check if that key was the current one, and, when it is IPv4 and the session has
      prefixes, comes from one of the prefixes configured for the session's static key. A relayed packet goes to
      the routed slot, never back. */
  lemma HandedOnPacketsAreAllowed(n: Node, start: State, es: seq<Event>, src: Addr, wire: Bytes, sent: bool, now: int)
    requires n.p.Valid() && Initial(start)
    ensures var t := Run(n, start, es);
            var o := OnData(t, n.aead, src, wire, sent, now).1;
            o.Dropped? || exists i, c, used, plain ::
              && 0 <= i < t.slots && FindByAddr(t, src) == Some(i)
              && 0 <= c < |t.configs| && t.configs[c].pub == t.sessions[i].pub
              && t.configs[c].routes == t.sessions[i].routes
              && Opened(n.aead, t.sessions[i], wire, now) == Some((used, plain))
              && Framed(plain) && o.payload == PayloadOf(plain) != []
              && (used == Current ==> Replay.Check(t.sessions[i].window, SeqOf(plain)).1)
              && (IsIpv4(o.payload) ==> AllowedSrc(t.configs[c].routes, IpAt(o.payload, 12)))
              && (o.Relayed? ==> o.slot != i && Route(RouteTable(t), IpAt(o.payload, 16)) == Some(o.slot))
  {
    hide Run, FindByAddr, Route, Covers, IpAt, Decrypted, SeqOf, Replay.Check;
    RunKeepsGood(n, start, es);
    var t := Run(n, start, es);
    if OnData(t, n.aead, src, wire, sent, now).1.Dropped? {
      return;
    }
    var i := FindByAddr(t, src).value;
    SessionIsConfigured(t, src);
    var c :| 0 <= c < |t.configs| && t.configs[c].pub == t.sessions[i].pub &&
      t.configs[c].routes == t.sessions[i].routes;
    var (used, plain) := Opened(n.aead, t.sessions[i], wire, now).value;
    assert RouteTable(SetSession(t, i, Received(n.aead, t.sessions[i], wire, now).0)) == RouteTable(t);
  }

  lemma SessionIsConfigured(t: State, addr: Addr)
    requires TableOk(t) && FindByAddr(t, addr).Some?
    ensures var i := FindByAddr(t, addr).value; Configured(t.configs, t.sessions[i].pub, t.sessions[i].routes)
  {}
}
