/** What the lookups of the program choose, said of the sessions and the bytes of a packet themselves. */
module Choices {
  import opened Options
  import opened Words
  import opened Wire
  import opened Routing
  import opened Sessions
  import opened Tables

  // ----- session slots

  /** Slot `i` takes the data packets from `src`: no lower active slot has the address. */
  predicate Addressed(t: State, src: Addr, i: nat)
    requires Shape(t)
  {
    && i < t.slots && t.sessions[i].active && t.sessions[i].addr == src
    && forall j :: 0 <= j < i ==> !(t.sessions[j].active && t.sessions[j].addr == src)
  }

  /** Slot `i` is the lowest active one with key `pub`. */
  predicate KeyedAt(t: State, pub: Bytes, i: nat)
    requires Shape(t)
  {
    && i < t.slots && t.sessions[i].active && t.sessions[i].pub == pub
    && forall j :: 0 <= j < i ==> !(t.sessions[j].active && t.sessions[j].pub == pub)
  }

  /** Slot `i` is the lowest inactive one in use. */
  predicate FreeAt(t: State, i: nat)
    requires Shape(t)
  {
    i < t.slots && !t.sessions[i].active && forall j :: 0 <= j < i ==> t.sessions[j].active
  }

  lemma AddressedIsFound(t: State, src: Addr, i: nat)
    requires Shape(t)
    ensures FindByAddr(t, src) == Some(i) <==> Addressed(t, src, i)
  {
    hide FirstIndex;
  }

  lemma KeyedIsFound(t: State, pub: Bytes, i: nat)
    requires Shape(t)
    ensures FindByPub(t, pub) == Some(i) <==> KeyedAt(t, pub, i)
  {
    hide FirstIndex;
  }

  lemma FreeIsFound(t: State, i: nat)
    requires Shape(t)
    ensures FreeSession(t) == Some(i) <==> FreeAt(t, i)
  {
    hide FirstIndex;
  }

  /** No active slot in use has the key `pub`, and none the address `addr`. */
  ghost predicate Unknown(t: State, pub: Bytes, addr: Option<Addr>)
    requires Shape(t)
  {
    forall i :: 0 <= i < t.slots && t.sessions[i].active ==>
      t.sessions[i].pub != pub && (addr.Some? ==> t.sessions[i].addr != addr.value)
  }

  /** `alloc_session` takes the lowest active slot with the key; without one, the lowest active slot with the address;
      without one, the lowest inactive slot in use; without one, the next slot, if there is one. */
  lemma AllocIsExact(t: State, pub: Bytes, addr: Addr, i: nat)
    requires Shape(t)
    ensures KeyedAt(t, pub, i) ==> Alloc(t, pub, addr) == (t, Some(i))
    ensures Unknown(t, pub, None) && Addressed(t, addr, i) ==> Alloc(t, pub, addr) == (t, Some(i))
    ensures Unknown(t, pub, Some(addr)) && FreeAt(t, i) ==> Alloc(t, pub, addr) == (t, Some(i))
    ensures Unknown(t, pub, Some(addr)) && (forall j :: 0 <= j < t.slots ==> t.sessions[j].active) ==>
              Alloc(t, pub, addr) == if t.slots < MAX_PEERS then (t.(slots := t.slots + 1), Some(t.slots))
                else (t, None)
  {
    hide FindByPub, FindByAddr, FreeSession, KeyedAt, Addressed, FreeAt;
    KeyedIsFound(t, pub, i);
    AddressedIsFound(t, addr, i);
    FreeIsFound(t, i);
    UnknownIsNotFound(t, pub, addr);
  }

  lemma UnknownIsNotFound(t: State, pub: Bytes, addr: Addr)
    requires Shape(t)
    ensures Unknown(t, pub, None) ==> FindByPub(t, pub).None?
    ensures Unknown(t, pub, Some(addr)) ==> FindByPub(t, pub).None? && FindByAddr(t, addr).None?
    ensures (forall j :: 0 <= j < t.slots ==> t.sessions[j].active) ==> FreeSession(t).None?
  {
    hide FirstIndex;
  }

  // ----- routes

  /** An active session in use has a prefix that covers `ip`. */
  ghost predicate Reachable(t: State, ip: Ip)
    requires Shape(t)
  {
    exists i, q :: 0 <= i < t.slots && t.sessions[i].active && q in t.sessions[i].routes && Covers(q, ip)
  }

  /** `p` is a longest prefix of an active session that covers `ip`, and no lower slot has one as long. */
  ghost predicate BestRoute(t: State, ip: Ip, i: nat, p: Prefix)
    requires Shape(t)
  {
    && i < t.slots && t.sessions[i].active && p in t.sessions[i].routes && Covers(p, ip)
    && forall j: nat, q :: j < t.slots && t.sessions[j].active && q in t.sessions[j].routes && Covers(q, ip) ==>
         q.len <= p.len && (j < i ==> q.len < p.len)
  }

  lemma BestRouteIsBest(t: State, ip: Ip, i: nat, p: Prefix)
    requires Shape(t)
    ensures BestAt(RouteTable(t), ip, i, p) <==> BestRoute(t, ip, i, p)
  {
    hide Covers;
    var slots := RouteTable(t);
    assert forall j :: 0 <= j < t.slots ==> slots[j] == if t.sessions[j].active then t.sessions[j].routes else [];
  }

  lemma RoutedIsBest(t: State, ip: Ip)
    requires Shape(t)
    ensures Route(RouteTable(t), ip).None? <==> !Reachable(t, ip)
    ensures forall i: nat :: Route(RouteTable(t), ip) == Some(i) <==> exists p :: BestRoute(t, ip, i, p)
  {
    hide Route, BestRoute, BestAt, Covers;
    var slots := RouteTable(t);
    RouteIsLongestMatch(slots, ip);
    forall i: nat, p
      ensures BestAt(slots, ip, i, p) <==> BestRoute(t, ip, i, p)
    {
      BestRouteIsBest(t, ip, i, p);
    }
    ReachableIsCovered(t, ip);
  }

  lemma ReachableIsCovered(t: State, ip: Ip)
    requires Shape(t)
    ensures Reachable(t, ip) <==> exists i: nat :: CoveredBy(RouteTable(t), ip, i)
  {
    hide Covers;
    var slots := RouteTable(t);
    if i, q :| 0 <= i < t.slots && t.sessions[i].active && q in t.sessions[i].routes && Covers(q, ip) {
      assert CoveredBy(slots, ip, i);
    }
    if i: nat :| CoveredBy(slots, ip, i) {
      var q :| q in slots[i] && Covers(q, ip);
      assert 0 <= i < t.slots && t.sessions[i].active && q in t.sessions[i].routes && Covers(q, ip);
    }
  }

  /** The bytes at `off` are the address `ip`, in network order. */
  ghost predicate AddressAt(packet: Bytes, off: nat, ip: Ip) {
    off + 4 <= |packet| && Value(ip) == FromBigEndian(packet[off..off + 4])
  }

  lemma AddressIs(packet: Bytes, off: nat, ip: Ip)
    requires AddressAt(packet, off, ip)
    ensures IpAt(packet, off) == ip
  {
    hide IpAt, Value, FromBigEndian;
    IpAtValue(packet, off);
    ValueInjective(IpAt(packet, off), ip);
  }

  /** At least 20 bytes, and version 4 in the first half of the first. */
  predicate Version4(packet: Bytes) {
    |packet| >= 20 && 0x40 <= packet[0] <= 0x4f
  }

  /** A packet from the tunnel interface is sent to slot `i` if and only if it is IPv4 and slot `i` has the best route
      for the destination in bytes 16 to 19; it is sent nowhere if and only if it is not IPv4 or nobody covers that
      address. */
  lemma TunRouteIsExact(t: State, packet: Bytes, dst: Ip, i: nat)
    requires Shape(t) && (Version4(packet) ==> AddressAt(packet, 16, dst))
    ensures TunRoute(t, packet) == Some(i) <==> Version4(packet) && exists p :: BestRoute(t, dst, i, p)
    ensures TunRoute(t, packet).None? <==> !Version4(packet) || !Reachable(t, dst)
  {
    hide Route, RouteTable, IpAt, BestRoute, Reachable, AddressAt;
    if Version4(packet) {
      AddressIs(packet, 16, dst);
      RoutedIsBest(t, dst);
    }
  }

  /** The session has prefixes, and none covers `src`. */
  ghost predicate Foreign(s: Session, src: Ip) {
    s.routes != [] && forall p :: p in s.routes ==> !Covers(p, src)
  }

  /** A packet that passed in slot `i`. An empty one ends there; one that is not IPv4 goes to the interface; an IPv4
      packet whose source, in bytes 12 to 15, is foreign to the session is dropped; any other is relayed to slot `j` if
      that is another slot and has the best route for its destination, and goes to the interface if there is none. */
  lemma DispatchIsExact(t: State, i: nat, packet: Bytes, src: Ip, dst: Ip, j: nat)
    requires Shape(t) && i < t.slots
    requires Version4(packet) ==> AddressAt(packet, 12, src) && AddressAt(packet, 16, dst)
    ensures Dispatch(t, i, packet) == Dropped <==>
            packet == [] || (Version4(packet) && Foreign(t.sessions[i], src))
    ensures Dispatch(t, i, packet) == Relayed(j, packet) <==>
            Version4(packet) && !Foreign(t.sessions[i], src) && j != i && exists p :: BestRoute(t, dst, j, p)
    ensures Dispatch(t, i, packet).ToTun? ==> Dispatch(t, i, packet).payload == packet
  {
    hide Route, RouteTable, IpAt, BestRoute, Reachable, AddressAt, Covers, AllowedSrc, Foreign;
    if Version4(packet) {
      AddressIs(packet, 12, src);
      AddressIs(packet, 16, dst);
      RoutedIsBest(t, dst);
      ForeignIsRefused(t.sessions[i], src);
      assert Route(RouteTable(t), dst) == Some(j) <==> exists p :: BestRoute(t, dst, j, p);
    }
  }

  lemma ForeignIsRefused(s: Session, src: Ip)
    ensures Foreign(s, src) <==> s.routes != [] && !AllowedSrc(s.routes, src)
  {
    hide Covers;
  }
}
