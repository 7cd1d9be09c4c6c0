/** Allowed prefixes of peers and the choice of a session for a destination address. */
module Routing {
  import opened Options
  import opened Words
  import opened Wire

  type Ip = Word32

  /** `ip_prefix_t` */
  datatype Prefix = Prefix(network: Word32, mask: Word32, len: nat)

  /** The test `(ip & mask) == network`. */
  predicate Covers(p: Prefix, ip: Ip) {
    And32(ip, p.mask) == p.network
  }

  // ----- parse_cidr

  /** `~0u << (32 - n)`, or 0 for `n == 0`: the `n` most significant digits. */
  function NetMask(n: nat): Word32
    requires n <= 32
  {
    Zeros(32 - n) + seq(n, _ => true)
  }

  /** `parse_cidr` after its calls to `inet_pton` (`addr`) and `atoi` (`len`, 32 without a slash). */
  function ParseCidr(addr: Option<Ip>, len: int): (r: Option<Prefix>)
    ensures r.Some? <==> addr.Some? && 0 <= len <= 32
    ensures r.Some? ==> WellFormed(r.value) && r.value.len == len
    ensures r.Some? ==> forall ip: Ip :: Covers(r.value, ip) <==> SamePrefix(ip, addr.value, len)
  {
    if len < 0 || len > 32 || addr.None? then None
    else
      var mask := NetMask(len);
      assert And32(And32(addr.value, mask), mask) == And32(addr.value, mask);
      NetworkCovers(addr.value, len);
      Some(Prefix(And32(addr.value, mask), mask, len))
  }

  /** The `n` most significant digits of the two addresses agree. */
  ghost predicate SamePrefix(a: Ip, b: Ip, n: nat)
    requires n <= 32
  {
    forall k :: 32 - n <= k < 32 ==> a[k] == b[k]
  }

  lemma NetworkCovers(addr: Ip, n: nat)
    requires n <= 32
    ensures var p := Prefix(And32(addr, NetMask(n)), NetMask(n), n);
            forall ip: Ip :: Covers(p, ip) <==> SamePrefix(ip, addr, n)
  {
    var p := Prefix(And32(addr, NetMask(n)), NetMask(n), n);
    forall ip: Ip
      ensures Covers(p, ip) <==> SamePrefix(ip, addr, n)
    {
      MaskedDigits(ip, n);
      MaskedDigits(addr, n);
      if Covers(p, ip) {
        assert forall k :: 0 <= k < 32 ==> And32(ip, p.mask)[k] == And32(addr, p.mask)[k];
      }
    }
  }

  lemma MaskedDigits(ip: Ip, n: nat)
    requires n <= 32
    ensures forall k :: 0 <= k < 32 ==> And32(ip, NetMask(n))[k] == (k >= 32 - n && ip[k])
  {}

  /** The prefixes `parse_cidr` builds: a contiguous mask of the stated length, and a network
      without host digits. */
  ghost predicate WellFormed(p: Prefix) {
    p.len <= 32 && p.mask == NetMask(p.len) && And32(p.network, p.mask) == p.network
  }

  /** Every address of `p` is an address of `q`. */
  ghost predicate Inside(p: Prefix, q: Prefix) {
    forall ip: Ip :: Covers(p, ip) ==> Covers(q, ip)
  }

  lemma CoversDigit(p: Prefix, ip: Ip, k: nat)
    requires WellFormed(p) && Covers(p, ip) && 32 - p.len <= k < 32
    ensures p.network[k] == ip[k]
  {}

  lemma NetworkDigit(p: Prefix, k: nat)
    requires WellFormed(p) && k < 32 - p.len
    ensures !p.network[k]
  {}

  /** Of two prefixes that cover one address, the longer lies inside the other. */
  lemma LongerIsInside(p: Prefix, q: Prefix, ip: Ip)
    requires WellFormed(p) && WellFormed(q) && q.len <= p.len
    requires Covers(p, ip) && Covers(q, ip)
    ensures Inside(p, q)
  {
    forall other: Ip | Covers(p, other)
      ensures Covers(q, other)
    {
      forall k | 0 <= k < 32
        ensures And32(other, q.mask)[k] == q.network[k]
      {
        if k < 32 - q.len {
          NetworkDigit(q, k);
        } else {
          CoversDigit(q, ip, k);
          CoversDigit(p, ip, k);
          CoversDigit(p, other, k);
        }
      }
    }
  }

  // ----- route_lookup, over one list of prefixes per slot (empty for an inactive slot)

  /** The longest prefix of `routes` that covers `ip`, or -1. */
  function Longest(routes: seq<Prefix>, ip: Ip): (best: int)
    ensures best >= -1
    ensures forall p :: p in routes && Covers(p, ip) ==> p.len <= best
    ensures best >= 0 ==> exists p :: p in routes && Covers(p, ip) && p.len == best
  {
    if routes == [] then -1
    else
      var earlier, p := Longest(routes[..|routes| - 1], ip), routes[|routes| - 1];
      if Covers(p, ip) && p.len > earlier then p.len else earlier
  }

  /** The first position of a greatest non-negative number, and that number; (None, -1) if none
      is above -1. */
  function FirstGreatest(lens: seq<int>): (r: (Option<nat>, int))
    ensures r.1 >= -1 && forall j :: 0 <= j < |lens| ==> lens[j] <= r.1
    ensures r.0.None? <==> r.1 == -1
    ensures r.0.Some? ==> r.0.value < |lens| && lens[r.0.value] == r.1
    ensures r.0.Some? ==> forall j :: 0 <= j < r.0.value ==> lens[j] < r.1
  {
    if lens == [] then (None, -1)
    else
      var n := |lens| - 1;
      var earlier := FirstGreatest(lens[..n]);
      if lens[n] > earlier.1 then (Some(n), lens[n]) else earlier
  }

  lemma FirstGreatestNext(lens: seq<int>, i: nat)
    requires i < |lens|
    ensures FirstGreatest(lens[..i + 1]) ==
            if lens[i] > FirstGreatest(lens[..i]).1 then (Some(i), lens[i]) else FirstGreatest(lens[..i])
  {
    assert lens[..i + 1][..i] == lens[..i];
  }

  function Lengths(slots: seq<seq<Prefix>>, ip: Ip): (r: seq<int>)
    ensures |r| == |slots|
    ensures forall i :: 0 <= i < |slots| ==> r[i] == Longest(slots[i], ip)
  {
    seq(|slots|, i requires 0 <= i < |slots| => Longest(slots[i], ip))
  }

  /** The slot `route_lookup` picks. */
  function Route(slots: seq<seq<Prefix>>, ip: Ip): (r: Option<nat>)
    ensures r.Some? ==> r.value < |slots|
  {
    FirstGreatest(Lengths(slots, ip)).0
  }

  ghost predicate CoveredBy(slots: seq<seq<Prefix>>, ip: Ip, i: nat) {
    i < |slots| && exists p :: p in slots[i] && Covers(p, ip)
  }

  /** `p` is a covering prefix of slot `i`; no covering prefix is longer, and none of a lower slot
      is as long. */
  ghost predicate BestAt(slots: seq<seq<Prefix>>, ip: Ip, i: nat, p: Prefix) {
    && i < |slots| && p in slots[i] && Covers(p, ip)
    && forall j: nat, q :: j < |slots| && q in slots[j] && Covers(q, ip) ==>
         q.len <= p.len && (j < i ==> q.len < p.len)
  }

  lemma RouteIsBest(slots: seq<seq<Prefix>>, ip: Ip, i: nat)
    requires Route(slots, ip) == Some(i)
    ensures exists p :: BestAt(slots, ip, i, p)
  {
    var best := Longest(slots[i], ip);
    var p :| p in slots[i] && Covers(p, ip) && p.len == best;
    forall j: nat, q | j < |slots| && q in slots[j] && Covers(q, ip)
      ensures q.len <= p.len && (j < i ==> q.len < p.len)
    {
      assert q.len <= Longest(slots[j], ip) == Lengths(slots, ip)[j];
    }
    assert BestAt(slots, ip, i, p);
  }

  lemma BestIsRoute(slots: seq<seq<Prefix>>, ip: Ip, i: nat, p: Prefix)
    requires BestAt(slots, ip, i, p)
    ensures Route(slots, ip) == Some(i)
  {}

  /** `route_lookup` finds nothing exactly when no active session covers the address, and finds
      slot `i` exactly when `i` is the lowest slot with a longest covering prefix. */
  lemma RouteIsLongestMatch(slots: seq<seq<Prefix>>, ip: Ip)
    ensures Route(slots, ip).None? <==> forall i: nat :: !CoveredBy(slots, ip, i)
    ensures forall i: nat :: Route(slots, ip) == Some(i) <==> exists p :: BestAt(slots, ip, i, p)
  {
    forall i: nat
      ensures Route(slots, ip) == Some(i) <==> exists p :: BestAt(slots, ip, i, p)
    {
      if Route(slots, ip) == Some(i) {
        RouteIsBest(slots, ip, i);
      } else if p :| BestAt(slots, ip, i, p) {
        BestIsRoute(slots, ip, i, p);
      }
    }
    if i: nat :| CoveredBy(slots, ip, i) {
      assert Lengths(slots, ip)[i] == Longest(slots[i], ip) >= 0;
    }
    if Route(slots, ip).Some? {
      var p :| BestAt(slots, ip, Route(slots, ip).value, p);
      assert CoveredBy(slots, ip, Route(slots, ip).value);
    }
  }

  /** For prefixes built by `parse_cidr`, the block chosen lies inside every other covering block. */
  lemma RoutedBlockIsInnermost(slots: seq<seq<Prefix>>, ip: Ip, i: nat, p: Prefix, j: nat, q: Prefix)
    requires BestAt(slots, ip, i, p)
    requires j < |slots| && q in slots[j] && Covers(q, ip)
    requires WellFormed(p) && WellFormed(q)
    ensures Route(slots, ip) == Some(i) && Inside(p, q)
  {
    BestIsRoute(slots, ip, i, p);
    LongerIsInside(p, q, ip);
  }

  // ----- check_allowed_src

  /** `check_allowed_src` on a session's prefixes. */
  predicate AllowedSrc(routes: seq<Prefix>, ip: Ip) {
    routes == [] || exists p :: p in routes && Covers(p, ip)
  }

  /** No address is covered from two slots. */
  ghost predicate Disjoint(slots: seq<seq<Prefix>>) {
    forall i: nat, j: nat, ip: Ip :: CoveredBy(slots, ip, i) && CoveredBy(slots, ip, j) ==> i == j
  }

  /** With disjoint prefixes, a session may use a source address exactly when return traffic to
      that address is routed to it. */
  lemma SourceCheckMatchesReturnRoute(slots: seq<seq<Prefix>>, i: nat, ip: Ip)
    requires Disjoint(slots) && i < |slots| && slots[i] != []
    ensures AllowedSrc(slots[i], ip) <==> Route(slots, ip) == Some(i)
  {
    RouteIsLongestMatch(slots, ip);
    if Route(slots, ip).Some? {
      var r := Route(slots, ip).value;
      var p :| BestAt(slots, ip, r, p);
      assert CoveredBy(slots, ip, r);
    }
    assert AllowedSrc(slots[i], ip) <==> CoveredBy(slots, ip, i);
  }

  // ----- reading an IPv4 header

  function ByteDigits(b: byte): seq<bool> {
    [b % 2 == 1, b / 2 % 2 == 1, b / 4 % 2 == 1, b / 8 % 2 == 1,
     b / 16 % 2 == 1, b / 32 % 2 == 1, b / 64 % 2 == 1, b / 128 % 2 == 1]
  }

  /** `ntohl(*(uint32_t *)(payload + off))` */
  function IpAt(payload: Bytes, off: nat): Ip
    requires off + 4 <= |payload|
  {
    ByteDigits(payload[off + 3]) + ByteDigits(payload[off + 2]) + ByteDigits(payload[off + 1]) +
      ByteDigits(payload[off])
  }

  /** One more digit at the low end. */
  lemma DigitValue(n: nat, d: seq<bool>)
    requires Value(d) == n / 2
    ensures Value([n % 2 == 1] + d) == n
  {
    assert ([n % 2 == 1] + d)[1..] == d;
  }

  lemma NibbleValue(b: nat, b1: nat, b2: nat, b3: nat, d: seq<bool>)
    requires b1 == b / 2 && b2 == b1 / 2 && b3 == b2 / 2 && Value(d) == b3 / 2
    ensures Value([b % 2 == 1, b1 % 2 == 1, b2 % 2 == 1, b3 % 2 == 1] + d) == b
  {
    hide Value;
    var d3 := [b3 % 2 == 1] + d;
    var d2 := [b2 % 2 == 1] + d3;
    var d1 := [b1 % 2 == 1] + d2;
    DigitValue(b3, d);
    DigitValue(b2, d3);
    DigitValue(b1, d2);
    DigitValue(b, d1);
    assert [b % 2 == 1, b1 % 2 == 1, b2 % 2 == 1, b3 % 2 == 1] + d == [b % 2 == 1] + d1;
  }

  lemma OctetValue(b: nat, b1: nat, b2: nat, b3: nat, b4: nat, b5: nat, b6: nat, b7: nat)
    requires b1 == b / 2 && b2 == b1 / 2 && b3 == b2 / 2 && b4 == b3 / 2
    requires b5 == b4 / 2 && b6 == b5 / 2 && b7 == b6 / 2 && b7 < 2
    ensures Value([b % 2 == 1, b1 % 2 == 1, b2 % 2 == 1, b3 % 2 == 1, b4 % 2 == 1, b5 % 2 == 1, b6 % 2 == 1,
                   b7 % 2 == 1]) == b
  {
    var high := [b4 % 2 == 1, b5 % 2 == 1, b6 % 2 == 1, b7 % 2 == 1];
    NibbleValue(b4, b5, b6, b7, []);
    assert high + [] == high;
    NibbleValue(b, b1, b2, b3, high);
    assert [b % 2 == 1, b1 % 2 == 1, b2 % 2 == 1, b3 % 2 == 1] + high ==
           [b % 2 == 1, b1 % 2 == 1, b2 % 2 == 1, b3 % 2 == 1, b4 % 2 == 1, b5 % 2 == 1, b6 % 2 == 1, b7 % 2 == 1];
  }

  lemma ByteValue(b: byte)
    ensures |ByteDigits(b)| == 8 && Value(ByteDigits(b)) == b
  {
    hide Value;
    Halves(b);
    OctetValue(b, b / 2, b / 4, b / 8, b / 16, b / 32, b / 64, b / 128);
  }

  lemma Halves(b: byte)
    ensures b / 4 == b / 2 / 2 && b / 8 == b / 4 / 2 && b / 16 == b / 8 / 2 && b / 32 == b / 16 / 2
    ensures b / 64 == b / 32 / 2 && b / 128 == b / 64 / 2 && b / 128 < 2
  {}

  /** The digits of an address are those of its four bytes read as a number in network order. */
  lemma IpAtValue(payload: Bytes, off: nat)
    requires off + 4 <= |payload|
    ensures Value(IpAt(payload, off)) == FromBigEndian(payload[off..off + 4])
  {
    hide ByteDigits, Value, FromBigEndian;
    var b0, b1, b2, b3 := payload[off], payload[off + 1], payload[off + 2], payload[off + 3];
    ByteValue(b0);
    ByteValue(b1);
    ByteValue(b2);
    ByteValue(b3);
    ValueAppend(ByteDigits(b3) + ByteDigits(b2) + ByteDigits(b1), ByteDigits(b0));
    ValueAppend(ByteDigits(b3) + ByteDigits(b2), ByteDigits(b1));
    ValueAppend(ByteDigits(b3), ByteDigits(b2));
    FourBytes(b0, b1, b2, b3);
    assert payload[off..off + 4] == [b0, b1, b2, b3];
    Powers();
  }

  lemma Powers()
    ensures Pow2(8) == 256 && Pow2(16) == 65536 && Pow2(24) == 16777216
  {
    assert Pow2(4) == 16;
    Pow2Add(4, 4);
    Pow2Add(8, 8);
    Pow2Add(8, 16);
  }

  lemma FourBytes(b0: byte, b1: byte, b2: byte, b3: byte)
    ensures FromBigEndian([b0, b1, b2, b3]) == 16777216 * b0 + 65536 * b1 + 256 * b2 + b3
  {
    hide FromBigEndian;
    NextByte([], b0);
    NextByte([b0], b1);
    NextByte([b0, b1], b2);
    NextByte([b0, b1, b2], b3);
    assert [] + [b0] == [b0] && [b0] + [b1] == [b0, b1] && [b0, b1] + [b2] == [b0, b1, b2];
    assert [b0, b1, b2] + [b3] == [b0, b1, b2, b3];
  }

  lemma NextByte(high: Bytes, b: byte)
    ensures FromBigEndian(high + [b]) == 256 * FromBigEndian(high) + b && FromBigEndian([]) == 0
  {
    assert (high + [b])[..|high|] == high;
  }

  /** At least an IPv4 header. */
  predicate IsIpv4(payload: Bytes) {
    |payload| >= 20 && payload[0] / 16 == 4
  }
}
