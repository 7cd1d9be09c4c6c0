/** `load_config`: the state machine over YAML events that fills the peer table, and its limits. Text
    parsing and name resolution are foreign functions. */
module ConfigLoader {
  import opened Options
  import opened Wire
  import opened Routing
  import opened Sessions
  import opened Tables

  /** What `yaml_parser_parse` yields; `Malformed` is its failure. */
  datatype YamlEvent = Scalar(text: string) | SeqStart | SeqEnd | MapStart | MapEnd | StreamEnd | Malformed | Other

  /** Where the loader is in the document. */
  datatype Phase = Root | RootVal | PeersSeq | PeerMap | PeerVal | AllowedIpsSeq

  /** `hex_to_bytes`; host, port and name resolution; `inet_pton` and `atoi` on the two halves of a CIDR. */
  datatype Text = Text(hex: string -> Option<Bytes>, endpoint: string -> Option<Addr>,
                       cidr: string -> (Option<Ip>, int))

  function Cidr(tx: Text, text: string): (r: Option<Prefix>)
    ensures r.Some? ==> WellFormed(r.value)
  {
    ParseCidr(tx.cidr(text).0, tx.cidr(text).1)
  }

  /** The loader between two events; `ok` falls on the first error. */
  datatype Loader = Loader(phase: Phase, key: string, peerKey: string, ok: bool, peers: seq<Config>)

  const BLANK_PEER: Config := Config(
    [0, 0, 0, 0, 0, 0, 0, 0, 0, 0, 0, 0, 0, 0, 0, 0, 0, 0, 0, 0, 0, 0, 0, 0, 0, 0, 0, 0, 0, 0, 0, 0],
    [], false, Addr(0, 0), 0)

  /** `strncpy` into a 64-byte field. */
  function Clip(text: string): string {
    if |text| > 63 then text[..63] else text
  }

  /** A peer map has been entered in the phases that write to the last peer. */
  predicate Sane(l: Loader) {
    l.phase in {PeerMap, PeerVal, AllowedIpsSeq} ==> l.peers != []
  }

  function Fail(l: Loader): Loader {
    l.(ok := false)
  }

  /** The last peer, replaced. */
  function WithLast(l: Loader, c: Config): (r: Loader)
    requires l.peers != []
    ensures |r.peers| == |l.peers|
  {
    l.(peers := l.peers[..|l.peers| - 1] + [c])
  }

  function Last(l: Loader): Config
    requires l.peers != []
  {
    l.peers[|l.peers| - 1]
  }

  /** A scalar value inside a peer map. */
  function PeerValue(tx: Text, l: Loader, text: string): Loader
    requires l.peers != []
  {
    if l.peerKey == "public_key" then
      match tx.hex(text)
      case None => Fail(l)
      case Some(pub) => WithLast(l, Last(l).(pub := pub)).(phase := PeerMap)
    else if l.peerKey == "endpoint" then
      match tx.endpoint(text)
      case None => Fail(l)
      case Some(addr) => WithLast(l, Last(l).(hasEndpoint := true, endpoint := addr)).(phase := PeerMap)
    else l.(phase := PeerMap)
  }

  /** An entry of `allowed_ips`. */
  function AllowedIp(tx: Text, l: Loader, text: string): Loader
    requires l.peers != []
  {
    if |Last(l).routes| >= MAX_ROUTES_PER_PEER then Fail(l)
    else
      match Cidr(tx, text)
      case None => Fail(l)
      case Some(p) => WithLast(l, Last(l).(routes := Last(l).routes + [p]))
  }

  function OnEvent(tx: Text, l: Loader, e: YamlEvent): (r: Loader)
    requires Sane(l)
    ensures Sane(r)
  {
    if e.Malformed? then Fail(l) else
    match l.phase
    case Root => if e.Scalar? then l.(key := Clip(e.text), phase := RootVal) else l
    case RootVal =>
      if e.Scalar? then l.(phase := Root)
      else if e.SeqStart? && l.key == "peers" then l.(phase := PeersSeq)
      else l
    case PeersSeq =>
      if e.SeqEnd? then l.(phase := Root)
      else if e.MapStart? then
        if |l.peers| >= MAX_PEERS then Fail(l) else l.(peers := l.peers + [BLANK_PEER], phase := PeerMap)
      else l
    case PeerMap =>
      if e.MapEnd? then l.(phase := PeersSeq)
      else if e.Scalar? then l.(peerKey := Clip(e.text), phase := PeerVal)
      else l
    case PeerVal =>
      if e.Scalar? then PeerValue(tx, l, e.text)
      else if e.SeqStart? && l.peerKey == "allowed_ips" then l.(phase := AllowedIpsSeq)
      else l
    case AllowedIpsSeq =>
      if e.SeqEnd? then l.(phase := PeerMap)
      else if e.Scalar? then AllowedIp(tx, l, e.text)
      else l
  }

  const START: Loader := Loader(Root, "", "", true, [])

  /** The loader after `es`; it stops at the first error and at the end of the stream. */
  function Fold(tx: Text, l: Loader, es: seq<YamlEvent>): (r: Loader)
    requires Sane(l)
    ensures Sane(r)
    decreases |es|
  {
    if es == [] || !l.ok || es[0].StreamEnd? then l else Fold(tx, OnEvent(tx, l, es[0]), es[1..])
  }

  /** The peer table is within its limits and holds only prefixes that `parse_cidr` built. */
  ghost predicate WithinLimits(peers: seq<Config>) {
    && |peers| <= MAX_PEERS
    && forall c :: 0 <= c < |peers| ==>
         |peers[c].routes| <= MAX_ROUTES_PER_PEER && forall p :: p in peers[c].routes ==> WellFormed(p)
  }

  lemma EventKeepsLimits(tx: Text, l: Loader, e: YamlEvent)
    requires Sane(l) && WithinLimits(l.peers)
    ensures WithinLimits(OnEvent(tx, l, e).peers)
  {
    hide Cidr, WellFormed;
  }

  /** For every stream of events, accepted or not, the tables stay within their limits. */
  lemma {:induction false} LoadKeepsLimits(tx: Text, l: Loader, es: seq<YamlEvent>)
    requires Sane(l) && WithinLimits(l.peers)
    ensures WithinLimits(Fold(tx, l, es).peers)
    decreases |es|
  {
    if es != [] && l.ok && !es[0].StreamEnd? {
      EventKeepsLimits(tx, l, es[0]);
      LoadKeepsLimits(tx, OnEvent(tx, l, es[0]), es[1..]);
    }
  }

  /** `load_config` over the events of a document, up to `YAML_STREAM_END_EVENT`. */
  method LoadConfig(tx: Text, es: seq<YamlEvent>, configs: array<Config>) returns (ok: bool, count: nat)
    requires configs.Length == MAX_PEERS
    modifies configs
    ensures count <= MAX_PEERS && WithinLimits(configs[..count])
    ensures var l := Fold(tx, START, es); ok == l.ok && configs[..count] == l.peers
  {
    var phase, key, peerKey := Root, "", "";
    ok, count := true, 0;
    var i := 0;
    LoadKeepsLimits(tx, START, es);
    while i < |es| && ok && !es[i].StreamEnd?
      invariant 0 <= i <= |es| && count <= MAX_PEERS
      invariant Sane(Loader(phase, key, peerKey, ok, configs[..count])) && WithinLimits(configs[..count])
      invariant Fold(tx, START, es) == Fold(tx, Loader(phase, key, peerKey, ok, configs[..count]), es[i..])
    {
      ghost var l := Loader(phase, key, peerKey, ok, configs[..count]);
      phase, key, peerKey, ok, count := HandleEvent(tx, phase, key, peerKey, es[i], configs, count);
      EventKeepsLimits(tx, l, es[i]);
      assert es[i..][0] == es[i] && es[i..][1..] == es[i + 1..];
      i := i + 1;
    }
  }

  /** The `switch` of `load_config`, writing to the peer table in place. */
  method HandleEvent(tx: Text, phase: Phase, key: string, peerKey: string, e: YamlEvent, configs: array<Config>,
                     count: nat)
    returns (phase': Phase, key': string, peerKey': string, ok: bool, count': nat)
    requires configs.Length == MAX_PEERS && count <= MAX_PEERS
    requires Sane(Loader(phase, key, peerKey, true, configs[..count]))
    modifies configs
    ensures count' <= MAX_PEERS
    ensures Loader(phase', key', peerKey', ok, configs[..count'])
         == OnEvent(tx, Loader(phase, key, peerKey, true, old(configs[..count])), e)
  {
    phase', key', peerKey', ok, count' := phase, key, peerKey, true, count;
    if e.Malformed? {
      ok := false;
      return;
    }
    match phase {
      case Root =>
        if e.Scalar? {
          key', phase' := Clip(e.text), RootVal;
        }
      case RootVal =>
        if e.Scalar? {
          phase' := Root;
        } else if e.SeqStart? && key == "peers" {
          phase' := PeersSeq;
        }
      case PeersSeq =>
        if e.SeqEnd? {
          phase' := Root;
        } else if e.MapStart? {
          if count >= MAX_PEERS {
            ok := false;
          } else {
            configs[count] := BLANK_PEER;
            count' := count + 1;
            phase' := PeerMap;
          }
        }
      case PeerMap =>
        if e.MapEnd? {
          phase' := PeersSeq;
        } else if e.Scalar? {
          peerKey', phase' := Clip(e.text), PeerVal;
        }
      case PeerVal =>
        if e.Scalar? {
          ok := HandlePeerValue(tx, peerKey, e.text, configs, count);
          phase' := if ok then PeerMap else PeerVal;
        } else if e.SeqStart? && peerKey == "allowed_ips" {
          phase' := AllowedIpsSeq;
        }
      case AllowedIpsSeq =>
        if e.SeqEnd? {
          phase' := PeerMap;
        } else if e.Scalar? {
          var pc := configs[count - 1];
          var p := Cidr(tx, e.text);
          if |pc.routes| >= MAX_ROUTES_PER_PEER || p.None? {
            ok := false;
          } else {
            configs[count - 1] := pc.(routes := pc.routes + [p.value]);
          }
        }
    }
  }

  method HandlePeerValue(tx: Text, peerKey: string, text: string, configs: array<Config>, count: nat) returns (ok: bool)
    requires configs.Length == MAX_PEERS && 0 < count <= MAX_PEERS
    modifies configs
    ensures Loader(if ok then PeerMap else PeerVal, "", peerKey, ok, configs[..count]) ==
            PeerValue(tx, Loader(PeerVal, "", peerKey, true, old(configs[..count])), text)
  {
    ok := true;
    var pc := configs[count - 1];
    if peerKey == "public_key" {
      var pub := tx.hex(text);
      if pub.None? {
        return false;
      }
      configs[count - 1] := pc.(pub := pub.value);
    } else if peerKey == "endpoint" {
      var addr := tx.endpoint(text);
      if addr.None? {
        return false;
      }
      configs[count - 1] := pc.(hasEndpoint := true, endpoint := addr.value);
    }
  }

  // ----- documents

  lemma FoldCons(tx: Text, l: Loader, e: YamlEvent, es: seq<YamlEvent>)
    requires Sane(l) && l.ok && !e.StreamEnd?
    ensures Fold(tx, l, [e] + es) == Fold(tx, OnEvent(tx, l, e), es)
  {}

  lemma FoldStops(tx: Text, l: Loader, es: seq<YamlEvent>)
    requires Sane(l) && (es == [] || !l.ok || es[0].StreamEnd?)
    ensures Fold(tx, l, es) == l
  {}

  /** Events that the loader passes over. */
  lemma {:induction false} FoldIdle(tx: Text, l: Loader, es: seq<YamlEvent>, rest: seq<YamlEvent>)
    requires Sane(l) && l.ok && forall e :: e in es ==> !e.StreamEnd? && OnEvent(tx, l, e) == l
    ensures Fold(tx, l, es + rest) == Fold(tx, l, rest)
  {
    hide Fold, OnEvent;
    if es == [] {
      assert es + rest == rest;
    } else {
      assert es + rest == [es[0]] + (es[1..] + rest);
      FoldCons(tx, l, es[0], es[1..] + rest);
      FoldIdle(tx, l, es[1..], rest);
    }
  }

  /** A parser failure anywhere before the end of the stream is an error. */
  lemma {:induction false} MalformedIsRefused(tx: Text, l: Loader, es: seq<YamlEvent>, rest: seq<YamlEvent>)
    requires Sane(l) && forall e :: e in es ==> !e.StreamEnd?
    ensures !Fold(tx, l, es + ([Malformed] + rest)).ok
    decreases |es|
  {
    hide Fold;
    if !l.ok {
      FoldStops(tx, l, es + ([Malformed] + rest));
    } else if es == [] {
      assert es + ([Malformed] + rest) == [Malformed] + rest;
      FoldCons(tx, l, Malformed, rest);
      FoldStops(tx, Fail(l), rest);
    } else {
      assert es + ([Malformed] + rest) == [es[0]] + (es[1..] + ([Malformed] + rest));
      FoldCons(tx, l, es[0], es[1..] + ([Malformed] + rest));
      MalformedIsRefused(tx, OnEvent(tx, l, es[0]), es[1..], rest);
    }
  }

  /** The start or end of a list, map, document or stream, but not the end of all. */
  predicate Quiet(e: YamlEvent) {
    !e.Scalar? && !e.StreamEnd? && !e.Malformed?
  }

  ghost predicate AllQuiet(es: seq<YamlEvent>) {
    forall e :: e in es ==> Quiet(e)
  }

  /** An entry with a scalar value, which may lie inside lists and maps: what opens before it, what closes after it. */
  datatype Setting = Setting(key: string, lead: seq<YamlEvent>, value: string, trail: seq<YamlEvent>)

  function OneSetting(x: Setting): seq<YamlEvent> {
    [Scalar(x.key)] + (x.lead + ([Scalar(x.value)] + x.trail))
  }

  function SettingEvents(ss: seq<Setting>): seq<YamlEvent> {
    if ss == [] then [] else OneSetting(ss[0]) + SettingEvents(ss[1..])
  }

  /** An entry at the root, other than a list of peers. */
  ghost predicate RootSetting(x: Setting) {
    AllQuiet(x.lead) && AllQuiet(x.trail) && (Clip(x.key) == "peers" ==> SeqStart !in x.lead)
  }

  /** An entry of a peer, other than those the loader knows. */
  ghost predicate PeerSetting(x: Setting) {
    && AllQuiet(x.lead) && AllQuiet(x.trail) && MapEnd !in x.trail
    && Clip(x.key) != "public_key" && Clip(x.key) != "endpoint"
    && (Clip(x.key) == "allowed_ips" ==> SeqStart !in x.lead)
  }

  /** At the root, a setting leaves only its key behind. */
  lemma RootSettingLoads(tx: Text, l: Loader, x: Setting, rest: seq<YamlEvent>)
    requires Sane(l) && l.ok && l.phase == Root && RootSetting(x)
    ensures Fold(tx, l, OneSetting(x) + rest) == Fold(tx, l.(key := Clip(x.key)), rest)
  {
    hide Fold;
    var l1, l2 := l.(key := Clip(x.key), phase := RootVal), l.(key := Clip(x.key));
    assert OneSetting(x) + rest == [Scalar(x.key)] + (x.lead + ([Scalar(x.value)] + (x.trail + rest)));
    FoldCons(tx, l, Scalar(x.key), x.lead + ([Scalar(x.value)] + (x.trail + rest)));
    FoldIdle(tx, l1, x.lead, [Scalar(x.value)] + (x.trail + rest));
    FoldCons(tx, l1, Scalar(x.value), x.trail + rest);
    FoldIdle(tx, l2, x.trail, rest);
  }

  /** In a peer, likewise. */
  lemma PeerSettingLoads(tx: Text, l: Loader, x: Setting, rest: seq<YamlEvent>)
    requires Sane(l) && l.ok && l.phase == PeerMap && PeerSetting(x)
    ensures Fold(tx, l, OneSetting(x) + rest) == Fold(tx, l.(peerKey := Clip(x.key)), rest)
  {
    hide Fold;
    var l1, l2 := l.(peerKey := Clip(x.key), phase := PeerVal), l.(peerKey := Clip(x.key));
    assert OneSetting(x) + rest == [Scalar(x.key)] + (x.lead + ([Scalar(x.value)] + (x.trail + rest)));
    FoldCons(tx, l, Scalar(x.key), x.lead + ([Scalar(x.value)] + (x.trail + rest)));
    FoldIdle(tx, l1, x.lead, [Scalar(x.value)] + (x.trail + rest));
    FoldCons(tx, l1, Scalar(x.value), x.trail + rest);
    FoldIdle(tx, l2, x.trail, rest);
  }

  function LastKey(key: string, ss: seq<Setting>): string
    decreases |ss|
  {
    if ss == [] then key else LastKey(Clip(ss[0].key), ss[1..])
  }

  lemma {:induction false} RootSettingsLoad(tx: Text, l: Loader, ss: seq<Setting>, rest: seq<YamlEvent>)
    requires Sane(l) && l.ok && l.phase == Root && forall x :: x in ss ==> RootSetting(x)
    ensures Fold(tx, l, SettingEvents(ss) + rest) == Fold(tx, l.(key := LastKey(l.key, ss)), rest)
    decreases |ss|
  {
    hide Fold, OneSetting, RootSetting;
    if ss == [] {
      assert SettingEvents(ss) + rest == rest;
    } else {
      assert SettingEvents(ss) + rest == OneSetting(ss[0]) + (SettingEvents(ss[1..]) + rest);
      RootSettingLoads(tx, l, ss[0], SettingEvents(ss[1..]) + rest);
      RootSettingsLoad(tx, l.(key := Clip(ss[0].key)), ss[1..], rest);
    }
  }

  lemma {:induction false} PeerSettingsLoad(tx: Text, l: Loader, ss: seq<Setting>, rest: seq<YamlEvent>)
    requires Sane(l) && l.ok && l.phase == PeerMap && forall x :: x in ss ==> PeerSetting(x)
    ensures Fold(tx, l, SettingEvents(ss) + rest) == Fold(tx, l.(peerKey := LastKey(l.peerKey, ss)), rest)
    decreases |ss|
  {
    hide Fold, OneSetting, PeerSetting;
    if ss == [] {
      assert SettingEvents(ss) + rest == rest;
    } else {
      assert SettingEvents(ss) + rest == OneSetting(ss[0]) + (SettingEvents(ss[1..]) + rest);
      PeerSettingLoads(tx, l, ss[0], SettingEvents(ss[1..]) + rest);
      PeerSettingsLoad(tx, l.(peerKey := Clip(ss[0].key)), ss[1..], rest);
    }
  }

  // ----- peers

  /** A peer as the document writes it. */
  datatype PeerText = PeerText(extra: seq<Setting>, key: string, endpoint: Option<string>, cidrs: seq<string>)

  /** The prefixes that `cidrs` denote, if each denotes one. */
  function Prefixes(tx: Text, cidrs: seq<string>): (r: Option<seq<Prefix>>)
    ensures r.Some? <==> forall i :: 0 <= i < |cidrs| ==> Cidr(tx, cidrs[i]).Some?
    ensures r.Some? ==> |r.value| == |cidrs| && forall i :: 0 <= i < |cidrs| ==> Cidr(tx, cidrs[i]) == Some(r.value[i])
  {
    if cidrs == [] then Some([])
    else
      var earlier, last := Prefixes(tx, cidrs[..|cidrs| - 1]), Cidr(tx, cidrs[|cidrs| - 1]);
      if earlier.Some? && last.Some? then Some(earlier.value + [last.value]) else None
  }

  /** The configuration a peer denotes: none if its key, its endpoint or one of its prefixes does not parse, or if it
      has more than 16 prefixes. */
  function Denoted(tx: Text, p: PeerText): Option<Config> {
    var pub, routes := tx.hex(p.key), Prefixes(tx, p.cidrs);
    var endpoint := if p.endpoint.Some? then tx.endpoint(p.endpoint.value) else Some(Addr(0, 0));
    if pub.Some? && endpoint.Some? && routes.Some? && |p.cidrs| <= 16 then
      Some(Config(pub.value, routes.value, p.endpoint.Some?, endpoint.value, 0))
    else None
  }

  function CidrEvents(cidrs: seq<string>): seq<YamlEvent> {
    if cidrs == [] then [] else [Scalar(cidrs[0])] + CidrEvents(cidrs[1..])
  }

  function RouteEvents(cidrs: seq<string>): seq<YamlEvent> {
    [Scalar("allowed_ips")] + ([SeqStart] + (CidrEvents(cidrs) + ([SeqEnd] + [MapEnd])))
  }

  function EndpointEvents(p: PeerText): seq<YamlEvent> {
    if p.endpoint.None? then RouteEvents(p.cidrs)
    else [Scalar("endpoint")] + ([Scalar(p.endpoint.value)] + RouteEvents(p.cidrs))
  }

  function PeerEvents(p: PeerText): seq<YamlEvent> {
    [MapStart] + (SettingEvents(p.extra) + ([Scalar("public_key")] + ([Scalar(p.key)] + EndpointEvents(p))))
  }

  function PeersEvents(ps: seq<PeerText>): seq<YamlEvent> {
    if ps == [] then [] else PeerEvents(ps[0]) + PeersEvents(ps[1..])
  }

  /** Reading prefixes into the last peer, which has `done` already. */
  lemma {:induction false} CidrsLoad(tx: Text, l: Loader, cidrs: seq<string>, k: nat, rest: seq<YamlEvent>)
    requires Sane(l) && l.ok && l.phase == AllowedIpsSeq && k <= |cidrs| && k <= 16
    requires Prefixes(tx, cidrs[..k]) == Some(Last(l).routes)
    ensures var all := Prefixes(tx, cidrs);
            if all.Some? && |cidrs| <= 16 then
              Fold(tx, l, CidrEvents(cidrs[k..]) + rest) == Fold(tx, WithLast(l, Last(l).(routes := all.value)), rest)
            else !Fold(tx, l, CidrEvents(cidrs[k..]) + rest).ok
    decreases |cidrs| - k
  {
    hide Fold, Cidr, Prefixes;
    if k == |cidrs| {
      assert cidrs[..k] == cidrs && CidrEvents(cidrs[k..]) + rest == rest;
      assert WithLast(l, Last(l).(routes := Last(l).routes)) == l;
    } else {
      var e, more := Scalar(cidrs[k]), CidrEvents(cidrs[k + 1..]) + rest;
      assert cidrs[k..][1..] == cidrs[k + 1..];
      assert CidrEvents(cidrs[k..]) + rest == [e] + more;
      FoldCons(tx, l, e, more);
      PrefixesNext(tx, cidrs, k);
      if k == 16 || Cidr(tx, cidrs[k]).None? {
        FoldStops(tx, Fail(l), more);
      } else {
        CidrsLoad(tx, OnEvent(tx, l, e), cidrs, k + 1, rest);
      }
    }
  }

  lemma PrefixesNext(tx: Text, cidrs: seq<string>, k: nat)
    requires k < |cidrs| && Prefixes(tx, cidrs[..k]).Some?
    ensures Cidr(tx, cidrs[k]).Some? ==>
              Prefixes(tx, cidrs[..k + 1]) == Some(Prefixes(tx, cidrs[..k]).value + [Cidr(tx, cidrs[k]).value])
    ensures Cidr(tx, cidrs[k]).None? ==> Prefixes(tx, cidrs).None?
  {
    hide Cidr;
    assert cidrs[..k + 1][..k] == cidrs[..k];
  }

  lemma RoutesLoad(tx: Text, l: Loader, cidrs: seq<string>, rest: seq<YamlEvent>)
    requires Sane(l) && l.ok && l.phase == PeerMap && Last(l).routes == []
    ensures var all := Prefixes(tx, cidrs);
            if all.Some? && |cidrs| <= 16 then
              Fold(tx, l, RouteEvents(cidrs) + rest) ==
              Fold(tx, WithLast(l, Last(l).(routes := all.value)).(peerKey := "allowed_ips", phase := PeersSeq), rest)
            else !Fold(tx, l, RouteEvents(cidrs) + rest).ok
  {
    hide Fold, Cidr, Prefixes, CidrEvents;
    var l1 := l.(peerKey := "allowed_ips", phase := PeerVal);
    var l2 := l1.(phase := AllowedIpsSeq);
    var end := [SeqEnd] + ([MapEnd] + rest);
    assert RouteEvents(cidrs) + rest == [Scalar("allowed_ips")] + ([SeqStart] + (CidrEvents(cidrs) + end));
    FoldCons(tx, l, Scalar("allowed_ips"), [SeqStart] + (CidrEvents(cidrs) + end));
    FoldCons(tx, l1, SeqStart, CidrEvents(cidrs) + end);
    NoPrefixes(tx);
    assert cidrs[..0] == [] && cidrs[0..] == cidrs;
    CidrsLoad(tx, l2, cidrs, 0, end);
    if Prefixes(tx, cidrs).Some? && |cidrs| <= 16 {
      var r := WithLast(l2, Last(l2).(routes := Prefixes(tx, cidrs).value));
      FoldCons(tx, r, SeqEnd, [MapEnd] + rest);
      FoldCons(tx, r.(phase := PeerMap), MapEnd, rest);
    }
  }

  lemma NoPrefixes(tx: Text)
    ensures Prefixes(tx, []) == Some([])
  {}

  /** Reading the rest of a peer, once its key is known. */
  lemma EndpointLoads(tx: Text, l: Loader, p: PeerText, rest: seq<YamlEvent>)
    requires Sane(l) && l.ok && l.phase == PeerMap && tx.hex(p.key).Some?
    requires Last(l) == BLANK_PEER.(pub := tx.hex(p.key).value)
    ensures match Denoted(tx, p)
            case None => !Fold(tx, l, EndpointEvents(p) + rest).ok
            case Some(c) =>
              Fold(tx, l, EndpointEvents(p) + rest) ==
              Fold(tx, WithLast(l, c).(peerKey := "allowed_ips", phase := PeersSeq), rest)
  {
    hide Fold, Cidr, Prefixes, RouteEvents;
    if p.endpoint.None? {
      RoutesLoad(tx, l, p.cidrs, rest);
    } else {
      var text := p.endpoint.value;
      var l1 := l.(peerKey := "endpoint", phase := PeerVal);
      assert EndpointEvents(p) + rest == [Scalar("endpoint")] + ([Scalar(text)] + (RouteEvents(p.cidrs) + rest));
      FoldCons(tx, l, Scalar("endpoint"), [Scalar(text)] + (RouteEvents(p.cidrs) + rest));
      FoldCons(tx, l1, Scalar(text), RouteEvents(p.cidrs) + rest);
      if tx.endpoint(text).None? {
        FoldStops(tx, Fail(l1), RouteEvents(p.cidrs) + rest);
      } else {
        RoutesLoad(tx, OnEvent(tx, l1, Scalar(text)), p.cidrs, rest);
      }
    }
  }

  /** Reading one more peer. */
  lemma PeerLoads(tx: Text, l: Loader, p: PeerText, rest: seq<YamlEvent>)
    requires Sane(l) && l.ok && l.phase == PeersSeq && forall x :: x in p.extra ==> PeerSetting(x)
    ensures var c := Denoted(tx, p);
            if c.Some? && |l.peers| < 64 then
              Fold(tx, l, PeerEvents(p) + rest) ==
              Fold(tx, l.(peers := l.peers + [c.value], peerKey := "allowed_ips"), rest)
            else !Fold(tx, l, PeerEvents(p) + rest).ok
  {
    hide Fold, EndpointEvents, SettingEvents, Denoted, PeerSetting;
    var tail := [Scalar("public_key")] + ([Scalar(p.key)] + (EndpointEvents(p) + rest));
    assert PeerEvents(p) + rest == [MapStart] + (SettingEvents(p.extra) + tail);
    FoldCons(tx, l, MapStart, SettingEvents(p.extra) + tail);
    if |l.peers| >= 64 {
      FoldStops(tx, Fail(l), SettingEvents(p.extra) + tail);
    } else {
      var l1 := l.(peers := l.peers + [BLANK_PEER], phase := PeerMap);
      PeerSettingsLoad(tx, l1, p.extra, tail);
      KeyLoads(tx, l1.(peerKey := LastKey(l1.peerKey, p.extra)), p, rest);
    }
  }

  lemma KeyLoads(tx: Text, l: Loader, p: PeerText, rest: seq<YamlEvent>)
    requires Sane(l) && l.ok && l.phase == PeerMap && Last(l) == BLANK_PEER
    ensures var es := [Scalar("public_key")] + ([Scalar(p.key)] + (EndpointEvents(p) + rest));
            match Denoted(tx, p)
            case None => !Fold(tx, l, es).ok
            case Some(c) =>
              Fold(tx, l, es) == Fold(tx, WithLast(l, c).(peerKey := "allowed_ips", phase := PeersSeq), rest)
  {
    hide Fold, EndpointEvents, Prefixes;
    var l1 := l.(peerKey := "public_key", phase := PeerVal);
    FoldCons(tx, l, Scalar("public_key"), [Scalar(p.key)] + (EndpointEvents(p) + rest));
    FoldCons(tx, l1, Scalar(p.key), EndpointEvents(p) + rest);
    if tx.hex(p.key).None? {
      FoldStops(tx, Fail(l1), EndpointEvents(p) + rest);
    } else {
      EndpointLoads(tx, OnEvent(tx, l1, Scalar(p.key)), p, rest);
    }
  }

  /** All peers denote configurations. */
  ghost predicate AllDenoted(tx: Text, ps: seq<PeerText>) {
    forall i :: 0 <= i < |ps| ==> Denoted(tx, ps[i]).Some?
  }

  function DenotedBy(tx: Text, ps: seq<PeerText>): seq<Config>
    requires AllDenoted(tx, ps)
  {
    seq(|ps|, i requires 0 <= i < |ps| => Denoted(tx, ps[i]).value)
  }

  ghost predicate PeersProper(ps: seq<PeerText>) {
    forall p, x :: p in ps && x in p.extra ==> PeerSetting(x)
  }

  lemma {:induction false} PeersLoad(tx: Text, l: Loader, ps: seq<PeerText>, rest: seq<YamlEvent>) returns (key: string)
    requires Sane(l) && l.ok && l.phase == PeersSeq && |l.peers| <= 64 && PeersProper(ps)
    ensures if AllDenoted(tx, ps) && |l.peers| + |ps| <= 64 then
              Fold(tx, l, PeersEvents(ps) + rest) ==
              Fold(tx, l.(peers := l.peers + DenotedBy(tx, ps), peerKey := key), rest)
            else !Fold(tx, l, PeersEvents(ps) + rest).ok
    decreases |ps|
  {
    hide Fold, PeerEvents, Denoted, PeerSetting;
    if ps == [] {
      key := l.peerKey;
      assert PeersEvents(ps) + rest == rest && l.peers + DenotedBy(tx, ps) == l.peers;
    } else {
      assert PeersEvents(ps) + rest == PeerEvents(ps[0]) + (PeersEvents(ps[1..]) + rest);
      PeerLoads(tx, l, ps[0], PeersEvents(ps[1..]) + rest);
      key := "";
      if Denoted(tx, ps[0]).Some? && |l.peers| < 64 {
        var l1 := l.(peers := l.peers + [Denoted(tx, ps[0]).value], peerKey := "allowed_ips");
        key := PeersLoad(tx, l1, ps[1..], rest);
        DenotedSplit(tx, l.peers, ps);
      }
    }
  }

  lemma DenotedSplit(tx: Text, before: seq<Config>, ps: seq<PeerText>)
    requires ps != [] && Denoted(tx, ps[0]).Some?
    ensures AllDenoted(tx, ps) <==> AllDenoted(tx, ps[1..])
    ensures AllDenoted(tx, ps) ==>
              before + DenotedBy(tx, ps) == before + [Denoted(tx, ps[0]).value] + DenotedBy(tx, ps[1..])
  {
    hide Denoted;
    if AllDenoted(tx, ps[1..]) {
      forall i | 0 <= i < |ps|
        ensures Denoted(tx, ps[i]).Some?
      {
        if i > 0 {
          assert ps[i] == ps[1..][i - 1];
        }
      }
    }
  }

  /** A document: what opens it, settings, the peers, more settings, what closes it. */
  datatype Document = Document(open: seq<YamlEvent>, before: seq<Setting>, peers: seq<PeerText>, after: seq<Setting>,
                               close: seq<YamlEvent>)
  {
    function Tail(): seq<YamlEvent> {
      [SeqEnd] + (SettingEvents(after) + (close + [StreamEnd]))
    }

    function PeerList(): seq<YamlEvent> {
      [Scalar("peers")] + ([SeqStart] + (PeersEvents(peers) + Tail()))
    }

    function Events(): seq<YamlEvent> {
      open + (SettingEvents(before) + PeerList())
    }

    ghost predicate Proper() {
      && AllQuiet(open) && AllQuiet(close) && PeersProper(peers)
      && (forall x :: x in before ==> RootSetting(x)) && (forall x :: x in after ==> RootSetting(x))
    }
  }

  lemma TailLoads(tx: Text, l: Loader, doc: Document)
    requires Sane(l) && l.ok && l.phase == PeersSeq && doc.Proper()
    ensures Fold(tx, l, doc.Tail()).ok && Fold(tx, l, doc.Tail()).peers == l.peers
  {
    hide Fold, SettingEvents, RootSetting, PeersProper;
    FoldCons(tx, l, SeqEnd, SettingEvents(doc.after) + (doc.close + [StreamEnd]));
    var l1 := l.(phase := Root);
    RootSettingsLoad(tx, l1, doc.after, doc.close + [StreamEnd]);
    var l2 := l1.(key := LastKey(l1.key, doc.after));
    FoldIdle(tx, l2, doc.close, [StreamEnd]);
    FoldStops(tx, l2, [StreamEnd]);
  }

  lemma PeerListLoads(tx: Text, l: Loader, doc: Document)
    requires Sane(l) && l.ok && l.phase == Root && l.peers == [] && doc.Proper()
    ensures Fold(tx, l, doc.PeerList()).ok <==> AllDenoted(tx, doc.peers) && |doc.peers| <= 64
    ensures Fold(tx, l, doc.PeerList()).ok ==> Fold(tx, l, doc.PeerList()).peers == DenotedBy(tx, doc.peers)
  {
    hide Fold, PeersEvents, AllDenoted, PeersProper, RootSetting;
    FoldCons(tx, l, Scalar("peers"), [SeqStart] + (PeersEvents(doc.peers) + doc.Tail()));
    var l1 := l.(key := "peers", phase := RootVal);
    FoldCons(tx, l1, SeqStart, PeersEvents(doc.peers) + doc.Tail());
    var l2 := l1.(phase := PeersSeq);
    var key := PeersLoad(tx, l2, doc.peers, doc.Tail());
    if AllDenoted(tx, doc.peers) && |doc.peers| <= 64 {
      TailLoads(tx, l2.(peers := l2.peers + DenotedBy(tx, doc.peers), peerKey := key), doc);
    }
  }

  /** A document with any settings before and after its peers, and any other entries in them, is accepted if and only if
      it has at most 64 peers and each denotes a configuration; it then loads to exactly those. */
  lemma DocumentLoads(tx: Text, doc: Document)
    requires doc.Proper()
    ensures Fold(tx, START, doc.Events()).ok <==> AllDenoted(tx, doc.peers) && |doc.peers| <= 64
    ensures Fold(tx, START, doc.Events()).ok ==> Fold(tx, START, doc.Events()).peers == DenotedBy(tx, doc.peers)
  {
    hide Fold, SettingEvents, AllDenoted, PeersProper, RootSetting;
    FoldIdle(tx, START, doc.open, SettingEvents(doc.before) + doc.PeerList());
    RootSettingsLoad(tx, START, doc.before, doc.PeerList());
    PeerListLoads(tx, START.(key := LastKey(START.key, doc.before)), doc);
  }
}
