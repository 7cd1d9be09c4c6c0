/** Inbound initiations: exactly when one installs a session, and what session it is. */
module Inbound {
  import opened Options
  import opened Wire
  import opened Sessions
  import opened Tables
  import opened Invariants
  import opened Runs
  import opened SlotHistory
  import opened Choices

  /** What a session is like right after it was installed, but for its previous key. */
  predicate New(p: Params, s: Session, pub: Bytes, addr: Addr, key: Bytes, outbound: bool, at: int) {
    && s.active && s.pub == pub && s.addr == addr && s.key == key && s.outbound == outbound
    && s.lastHandshake == at && s.rekeyDeadline == at + p.rekeyAfter && !s.rekeying
    && s.lastSeen == 0 && s.lastSent == at && s.sendSeq == 0
  }

  lemma InstalledIsNew(n: Node, t: State, e: Event)
    requires Shape(t) && Installs(n, t, e).Some?
    ensures var x := Installs(n, t, e).value;
            New(n.p, Step(n, t, e).sessions[x.slot], x.cfg.pub, x.src, x.key, x.outbound, e.at)
  {
    hide Step, Installs;
    InstallIsHandshake(n, t, e);
    HandshakeSlot(n, t, e, Installs(n, t, e).value.slot);
  }

  lemma InstallIsHandshake(n: Node, t: State, e: Event)
    requires Shape(t) && Installs(n, t, e).Some?
    ensures e.act.Handshake?
  {}

  /** The session that takes packets from `src`, and the one with key `pub`, were installed a cooldown ago. */
  ghost predicate Cooled(p: Params, t: State, src: Addr, pub: Bytes, now: int)
    requires Shape(t)
  {
    && (forall i: nat :: Addressed(t, src, i) ==> now - t.sessions[i].lastHandshake >= p.handshakeCooldown)
    && (forall i: nat :: KeyedAt(t, pub, i) ==> now - t.sessions[i].lastHandshake >= p.handshakeCooldown)
  }

  lemma CoolingIsExact(p: Params, t: State, src: Addr, pub: Bytes, now: int)
    requires Shape(t)
    ensures Cooled(p, t, src, pub, now) <==>
            !CoolingDown(p, t, FindByAddr(t, src), now) && !CoolingDown(p, t, FindByPub(t, pub), now)
  {
    hide FindByAddr, FindByPub, Addressed, KeyedAt;
    forall i: nat
      ensures FindByAddr(t, src) == Some(i) <==> Addressed(t, src, i)
      ensures FindByPub(t, pub) == Some(i) <==> KeyedAt(t, pub, i)
    {
      AddressedIsFound(t, src, i);
      KeyedIsFound(t, pub, i);
    }
  }

  lemma ConfigIsFound(t: State, pub: Bytes)
    ensures FindConfig(t, pub).Some? <==> exists c :: 0 <= c < |t.configs| && t.configs[c].pub == pub
  {
    hide FirstIndex;
  }

  /** In every run: a handshake packet from an address without a pending handshake installs a session if and only if it
      was answered, its key is configured, and both the session at the address and the session with the key were
      installed a cooldown ago. The session is new, inbound, for that key and address, under the key of the exchange. */
  lemma InitiationIsExact(n: Node, start: State, es: seq<Event>, src: Addr, recv: Recv, reply: Answer, at: int)
    requires n.p.Valid() && Shape(start) && Initial(start)
    requires forall j :: 0 <= j < MAX_PEERS ==>
               var q := Run(n, start, es).pending[j]; !(q.active && q.serverAddr == src)
    ensures var t, e := Run(n, start, es), Event(at, Handshake(src, recv, reply));
            && (Installs(n, t, e).Some? <==>
                && reply.Some? && (exists c :: 0 <= c < |t.configs| && t.configs[c].pub == reply.value.0)
                && Cooled(n.p, t, src, reply.value.0, at))
            && (Installs(n, t, e).Some? ==>
                New(n.p, Step(n, t, e).sessions[Installs(n, t, e).value.slot], reply.value.0, src, reply.value.1, false,
                  at))
  {
    hide Run, FindByAddr, FindByPub, FindConfig, Alloc, Cooled, Initial, New, Step;
    var t, e := Run(n, start, es), Event(at, Handshake(src, recv, reply));
    NoEntryIsFound(t, src);
    if reply.Some? {
      ConfigIsFound(t, reply.value.0);
      CoolingIsExact(n.p, t, src, reply.value.0, at);
      if FindConfig(t, reply.value.0).Some? {
        FoundConfig(t, reply.value.0);
        TableNeverFull(n, start, es, FindConfig(t, reply.value.0).value, 0, src);
      }
    }
    if Installs(n, t, e).Some? {
      InstalledIsNew(n, t, e);
    }
  }

  lemma FoundConfig(t: State, pub: Bytes)
    requires FindConfig(t, pub).Some?
    ensures FindConfig(t, pub).value < |t.configs| && t.configs[FindConfig(t, pub).value].pub == pub
  {}

  lemma NoEntryIsFound(t: State, src: Addr)
    requires Shape(t) && forall j :: 0 <= j < MAX_PEERS ==> !(t.pending[j].active && t.pending[j].serverAddr == src)
    ensures PendingFrom(t, src).None?
  {
    hide FirstIndex;
  }
}
