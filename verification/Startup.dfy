/** From the configuration file to the running peer. */
module Startup {
  import opened Options
  import opened Sessions
  import opened Tables
  import opened ConfigLoader
  import opened Engine
  import opened Runs

  /** Every document, accepted or not, leaves a table from which runs start. */
  lemma LoadedIsInitial(tx: Text, doc: seq<YamlEvent>)
    ensures Initial(ZeroTables(Fold(tx, START, doc).peers))
  {
    hide Fold;
    LoadKeepsLimits(tx, START, doc);
  }

  /** `main` up to the start of the threads: a peer exactly if the document loads, lists at least one peer and the
      settings are valid; it has those configurations and is in an initial state. */
  method Boot(p: Params, tx: Text, doc: seq<YamlEvent>) returns (peer: Option<Peer>)
    ensures peer.Some? <==> Fold(tx, START, doc).ok && Fold(tx, START, doc).peers != [] && p.Valid()
    ensures peer.Some? ==>
              && peer.value.Valid() && peer.value.params == p
              && peer.value.View() == ZeroTables(Fold(tx, START, doc).peers) && Initial(peer.value.View())
  {
    var configs := new Config[MAX_PEERS](_ => BLANK_PEER);
    var ok, count := LoadConfig(tx, doc, configs);
    if !ok || count == 0 || !p.Valid() {
      return None;
    }
    LoadedIsInitial(tx, doc);
    var q := new Peer(p, configs[..count]);
    return Some(q);
  }

  /** Whatever the configuration file says and whatever happens afterwards, neither call of `alloc_session` finds the
      table full. */
  lemma NeverFullAfterBoot(n: Node, tx: Text, doc: seq<YamlEvent>, es: seq<Event>, c: nat, j: nat, addr: Addr)
    requires n.p.Valid() && j < MAX_PEERS
    ensures var t := Run(n, ZeroTables(Fold(tx, START, doc).peers), es);
            c < |t.configs| ==>
              && Alloc(t, t.configs[c].pub, addr).1.Some?
              && Alloc(Consume(t, j), t.configs[c].pub, addr).1.Some?
  {
    hide Fold, Run, Alloc, Consume;
    LoadedIsInitial(tx, doc);
    var start := ZeroTables(Fold(tx, START, doc).peers);
    if c < |Run(n, start, es).configs| {
      TableNeverFull(n, start, es, c, j, addr);
    }
  }
}
