/** The allocation tracker of the test framework: a ring of 32-slot tables that grows on demand. It refines
    the map of live pointers, and has as many tables as the most pointers ever live at once need. */
module PointerCache {
  import opened Options
  import opened PointerMap
  import opened Ring

  const TABLE_SIZE: nat := 32

  type Table = array<PtrInfo>

  /** The slots of the tables, in order. */
  ghost function SlotsOf(links: seq<Link<Table>>): (r: seq<PtrInfo>)
    requires forall l :: l in links ==> l.item.Length == TABLE_SIZE
    reads set l | l in links :: l.item
    ensures |r| == TABLE_SIZE * |links|
  {
    if links == [] then [] else SlotsOf(links[..|links| - 1]) + links[|links| - 1].item[..]
  }

  lemma {:induction false} SlotAt(links: seq<Link<Table>>, t: nat, a: nat)
    requires forall l :: l in links ==> l.item.Length == TABLE_SIZE
    requires t < |links| && a < TABLE_SIZE
    ensures TABLE_SIZE * t + a < TABLE_SIZE * |links|
    ensures SlotsOf(links)[TABLE_SIZE * t + a] == links[t].item[a]
  {
    if t < |links| - 1 {
      SlotAt(links[..|links| - 1], t, a);
    }
  }

  lemma SlotsOfMore(links: seq<Link<Table>>, link: Link<Table>)
    requires (forall l :: l in links ==> l.item.Length == TABLE_SIZE) && link.item.Length == TABLE_SIZE
    ensures SlotsOf(links + [link]) == SlotsOf(links) + link.item[..]
  {
    assert (links + [link])[..|links|] == links;
  }

  /** How many tables hold `n` pointers. */
  function TablesFor(n: nat): nat {
    (n + TABLE_SIZE - 1) / TABLE_SIZE
  }

  method NewTable() returns (link: Link<Table>)
    ensures fresh(link) && fresh(link.item) && link.item.Length == TABLE_SIZE
    ensures link.item[..] == seq(TABLE_SIZE, _ => EMPTY)
  {
    var tbl := new PtrInfo[TABLE_SIZE](_ => EMPTY);
    link := new Link(tbl);
  }

  class Cache {
    const head: Link<Table>
    var tableCount: nat
    var freeCounter: nat
    ghost var links: seq<Link<Table>>
    /** The most pointers ever live at once. */
    ghost var peak: nat
    /** The table of `rcu_init_ptr_cache` was allocated. */
    ghost const first: bool

    /** A ring of tables that share no storage. */
    ghost predicate Linked()
      reads this, head, links
    {
      && IsRing(head, links)
      && (forall l :: l in links ==> l.item.Length == TABLE_SIZE)
      && (forall i, j :: 0 <= i < j < |links| ==> links[i].item != links[j].item)
      && tableCount == |links|
    }

    ghost function Slots(): seq<PtrInfo>
      requires Linked()
      reads this, head, links, set l | l in links :: l.item
    {
      SlotsOf(links)
    }

    ghost predicate Valid()
      reads this, head, links, set l | l in links :: l.item
    {
      && Linked() && Tidy(Slots()) && freeCounter < TABLE_SIZE
      && |Live(Slots())| <= peak
      && tableCount == if peak == 0 && first then 1 else TablesFor(peak)
    }

    /** `rcu_init_ptr_cache`; `allocOk` is the outcome of allocating the first table. */
    constructor (allocOk: bool)
      ensures Valid() && first == allocOk && Live(Slots()) == map[] && peak == 0
      ensures fresh(head) && forall l :: l in links ==> fresh(l) && fresh(l.item)
    {
      var none := new PtrInfo[0];
      head := new Link(none);
      tableCount, freeCounter := 0, 0;
      links, peak, first := [], 0, allocOk;
      new;
      SlotsOfNone();
      var ok := CreateTable(allocOk);
      GrowKeeps([], seq(TABLE_SIZE, _ => EMPTY));
    }

    /** `rcu_cre_ptr_tbl`: appends a table of free slots, if it can be allocated. */
    method CreateTable(allocOk: bool) returns (ok: bool)
      requires Linked()
      modifies this`tableCount, this`links, head, links
      ensures Linked() && ok == allocOk
      ensures !ok ==> links == old(links) && Slots() == old(Slots())
      ensures ok ==> |links| == |old(links)| + 1 && links[..|old(links)|] == old(links)
      ensures ok ==> fresh(links[|old(links)|]) && fresh(links[|old(links)|].item)
      ensures ok ==> Slots() == old(Slots()) + seq(TABLE_SIZE, _ => EMPTY)
    {
      hide IsRing, SlotsOf;
      if !allocOk {
        return false;
      }
      var link := NewTable();
      EndsOfRing(head, links);
      Insert(head, link, links);
      assert SlotsOf(links) == old(Slots());
      links := links + [link];
      tableCount := tableCount + 1;
      SlotsOfMore(old(links), link);
      return true;
    }

    /** `rcu_find_free_slot`: the table and the index of the first free slot. */
    method FindFreeSlot() returns (r: Option<(Table, nat)>, ghost t: nat)
      requires Linked()
      ensures r.None? ==> forall k :: 0 <= k < |Slots()| ==> Slots()[k].used
      ensures r.Some? ==>
                t < |links| && r.value.0 == links[t].item && r.value.1 < TABLE_SIZE && !links[t].item[r.value.1].used
    {
      t := 0;
      var cursor := head.next;
      assert At(head, links, -1).next == At(head, links, 0);
      while cursor != head
        invariant t <= |links| && cursor == At(head, links, t)
        invariant forall i, a :: 0 <= i < t && 0 <= a < TABLE_SIZE ==> links[i].item[a].used
        decreases |links| - t
      {
        assert cursor == links[t] && At(head, links, t).next == At(head, links, t + 1);
        for a := 0 to TABLE_SIZE
          invariant forall b :: 0 <= b < a ==> links[t].item[b].used
        {
          if !cursor.item[a].used {
            return Some((cursor.item, a)), t;
          }
        }
        cursor := cursor.next;
        t := t + 1;
      }
      forall k | 0 <= k < |Slots()|
        ensures Slots()[k].used
      {
        SlotAt(links, k / TABLE_SIZE, k % TABLE_SIZE);
      }
      return None, t;
    }

    /** `rcu_srch_ptr_info`: the slot that holds `ptr`. */
    method SearchPtr(ptr: nat) returns (r: Option<(Table, nat)>, ghost t: nat)
      requires Linked() && Tidy(Slots()) && ptr != 0
      ensures r.Some? <==> ptr in Live(Slots())
      ensures r.Some? ==> t < |links| && r.value.0 == links[t].item && r.value.1 < TABLE_SIZE
      ensures r.Some? ==> links[t].item[r.value.1].ptr == ptr && links[t].item[r.value.1].used
    {
      t := 0;
      var cursor := head.next;
      assert At(head, links, -1).next == At(head, links, 0);
      while cursor != head
        invariant t <= |links| && cursor == At(head, links, t)
        invariant forall i, a :: 0 <= i < t && 0 <= a < TABLE_SIZE ==> links[i].item[a].ptr != ptr
        decreases |links| - t
      {
        assert cursor == links[t] && At(head, links, t).next == At(head, links, t + 1);
        for a := 0 to TABLE_SIZE
          invariant forall b :: 0 <= b < a ==> links[t].item[b].ptr != ptr
        {
          if cursor.item[a].ptr == ptr {
            SlotAt(links, t, a);
            LiveMeans(Slots(), ptr);
            return Some((cursor.item, a)), t;
          }
        }
        cursor := cursor.next;
        t := t + 1;
      }
      forall k | 0 <= k < |Slots()|
        ensures Slots()[k].ptr != ptr
      {
        SlotAt(links, k / TABLE_SIZE, k % TABLE_SIZE);
      }
      LiveMeans(Slots(), ptr);
      return None, t;
    }

    /** Overwrites one slot. */
    method SetSlot(tbl: Table, a: nat, info: PtrInfo, ghost t: nat)
      requires Linked() && t < |links| && tbl == links[t].item && a < TABLE_SIZE
      modifies tbl
      ensures Linked() && links == old(links)
      ensures TABLE_SIZE * t + a < |old(Slots())| && Slots() == old(Slots())[TABLE_SIZE * t + a := info]
    {
      ghost var before := Slots();
      SlotAt(links, t, a);
      forall i: nat, b: nat | i < |links| && b < TABLE_SIZE
        ensures before[TABLE_SIZE * i + b] == links[i].item[b]
      {
        SlotAt(links, i, b);
      }
      tbl[a] := info;
      forall k | 0 <= k < |before|
        ensures Slots()[k] == before[TABLE_SIZE * t + a := info][k]
      {
        SlotAt(links, k / TABLE_SIZE, k % TABLE_SIZE);
        assert k == TABLE_SIZE * (k / TABLE_SIZE) + k % TABLE_SIZE;
      }
    }

    /** A free slot exists exactly when fewer pointers are live than there are slots. */
    lemma RoomMeans()
      requires Linked() && Tidy(Slots())
      ensures |Live(Slots())| <= TABLE_SIZE * tableCount
      ensures |Live(Slots())| < TABLE_SIZE * tableCount <==> exists k :: 0 <= k < |Slots()| && !Slots()[k].used
    {
      CountAndSum(Slots());
      CountBound(Slots());
    }

    /** The middle of `rcu_cache_ptr`: a free slot, in a new table if there is none and one can be allocated. */
    method MakeRoom(allocOk: bool) returns (r: Option<(Table, nat)>, ghost t: nat)
      requires Linked() && Tidy(Slots())
      modifies this`tableCount, this`links, head, links
      ensures Linked() && Tidy(Slots()) && Live(Slots()) == old(Live(Slots()))
      ensures |old(links)| <= |links| && links[..|old(links)|] == old(links)
      ensures forall i :: |old(links)| <= i < |links| ==> fresh(links[i]) && fresh(links[i].item)
      ensures r.Some? <==> allocOk || |old(Live(Slots()))| < TABLE_SIZE * old(tableCount)
      ensures tableCount == old(tableCount) +
                            if allocOk && |old(Live(Slots()))| >= TABLE_SIZE * old(tableCount) then 1 else 0
      ensures r.Some? ==>
                t < |links| && r.value.0 == links[t].item && r.value.1 < TABLE_SIZE && !links[t].item[r.value.1].used
    {
      hide IsRing, SlotsOf, Live, Tidy;
      RoomMeans();
      r, t := FindFreeSlot();
      if r.None? {
        var _ := CreateTable(allocOk);
        if allocOk {
          GrowKeeps(old(Slots()), seq(TABLE_SIZE, _ => EMPTY));
        }
        RoomMeans();
        r, t := FindFreeSlot();
        if r.Some? {
          SlotAt(links, t, r.value.1);
        }
      } else {
        SlotAt(links, t, r.value.1);
      }
    }

    /** The end of `rcu_cache_ptr`: writes the pointer into a free slot. */
    method Record(tbl: Table, a: nat, ptr: nat, size: nat, ghost t: nat)
      requires Linked() && Tidy(Slots()) && t < |links| && tbl == links[t].item && a < TABLE_SIZE && !tbl[a].used
      requires ptr != 0 && ptr !in Live(Slots())
      modifies tbl
      ensures Linked() && Tidy(Slots()) && Live(Slots()) == old(Live(Slots()))[ptr := size]
    {
      hide IsRing, SlotsOf, Live, Tidy;
      ghost var before := Slots();
      SlotAt(links, t, a);
      SetSlot(tbl, a, PtrInfo(ptr, size, true), t);
      FillAdds(before, TABLE_SIZE * t + a, ptr, size);
    }

    /** Clears a used slot. */
    method Erase(tbl: Table, a: nat, ghost t: nat)
      requires Linked() && Tidy(Slots()) && t < |links| && tbl == links[t].item && a < TABLE_SIZE && tbl[a].used
      modifies tbl
      ensures Linked() && Tidy(Slots()) && Live(Slots()) == old(Live(Slots())) - {old(tbl[a].ptr)}
    {
      hide IsRing, SlotsOf, Live, Tidy;
      ghost var before := Slots();
      SlotAt(links, t, a);
      SetSlot(tbl, a, EMPTY, t);
      ClearDrops(before, TABLE_SIZE * t + a);
    }

    ghost method NotePeak(live: nat)
      requires Linked()
      modifies this`peak
      ensures Linked() && Slots() == old(Slots()) && peak == if live > old(peak) then live else old(peak)
    {
      peak := if live > peak then live else peak;
    }

    /** The part of `rcu_cache_ptr` after its checks. */
    method Add(ptr: nat, size: nat, allocOk: bool) returns (ok: bool)
      requires Linked() && Tidy(Slots()) && ptr != 0 && ptr !in Live(Slots())
      modifies this`tableCount, this`links, head, links, set l | l in links :: l.item
      ensures Linked() && Tidy(Slots()) && |old(links)| <= |links| && links[..|old(links)|] == old(links)
      ensures forall i :: |old(links)| <= i < |links| ==> fresh(links[i]) && fresh(links[i].item)
      ensures ok <==> allocOk || |old(Live(Slots()))| < TABLE_SIZE * old(tableCount)
      ensures tableCount == old(tableCount) +
                            if allocOk && |old(Live(Slots()))| >= TABLE_SIZE * old(tableCount) then 1 else 0
      ensures Live(Slots()) == if ok then old(Live(Slots()))[ptr := size] else old(Live(Slots()))
    {
      hide IsRing, SlotsOf, Live, Tidy;
      var r, t := MakeRoom(allocOk);
      ok := r.Some?;
      if ok {
        Record(r.value.0, r.value.1, ptr, size, t);
      }
    }

    /** Adds a pointer, and keeps the account of the peak. */
    method Store(ptr: nat, size: nat, allocOk: bool) returns (ok: bool)
      requires Valid() && ptr != 0 && ptr !in Live(Slots())
      modifies this`tableCount, this`links, this`peak, head, links, set l | l in links :: l.item
      ensures Valid() && |old(links)| <= |links| && links[..|old(links)|] == old(links)
      ensures forall i :: |old(links)| <= i < |links| ==> fresh(links[i]) && fresh(links[i].item)
      ensures ok <==> allocOk || |old(Live(Slots()))| < TABLE_SIZE * old(tableCount)
      ensures Live(Slots()) == if ok then old(Live(Slots()))[ptr := size] else old(Live(Slots()))
      ensures peak == if |Live(Slots())| > old(peak) then |Live(Slots())| else old(peak)
    {
      hide Linked, IsRing, SlotsOf, Slots, Live, Tidy, TablesFor;
      ghost var live := Live(Slots());
      RoomMeans();
      ok := Add(ptr, size, allocOk);
      if ok {
        TotalPut(live, ptr, size);
        PeakStep(old(tableCount), |live|, peak, first, allocOk);
        NotePeak(|live| + 1);
      }
    }

    /** `rcu_cache_ptr`; `allocOk` says whether a table could be allocated if one is needed. */
    method CachePtr(ptr: nat, size: nat, allocOk: bool) returns (ok: bool)
      requires Valid()
      modifies this`tableCount, this`links, this`peak, head, links, set l | l in links :: l.item
      ensures Valid() && |old(links)| <= |links| && links[..|old(links)|] == old(links)
      ensures forall i :: |old(links)| <= i < |links| ==> fresh(links[i]) && fresh(links[i].item)
      ensures ok <==> && ptr != 0 && ptr !in old(Live(Slots()))
                      && (allocOk || |old(Live(Slots()))| < TABLE_SIZE * old(tableCount))
      ensures Live(Slots()) == if ok then old(Live(Slots()))[ptr := size] else old(Live(Slots()))
      ensures peak == if |Live(Slots())| > old(peak) then |Live(Slots())| else old(peak)
    {
      hide Linked, IsRing, SlotsOf, Slots, Live, Tidy, TablesFor;
      if ptr == 0 {
        return false;
      }
      var found, _ := SearchPtr(ptr);
      if found.Some? {
        return false;
      }
      ok := Store(ptr, size, allocOk);
    }

    /** Counts a deallocation; the counter restarts at 32. */
    method CountFree()
      requires Linked() && freeCounter < TABLE_SIZE
      modifies this`freeCounter
      ensures Linked() && Slots() == old(Slots()) && freeCounter == (old(freeCounter) + 1) % TABLE_SIZE
    {
      freeCounter := freeCounter + 1;
      if freeCounter == TABLE_SIZE {
        freeCounter := 0;
      }
    }

    /** `rcu_uncache_ptr`; the counter of deallocations restarts at 32. */
    method UncachePtr(ptr: nat) returns (ok: bool)
      requires Valid()
      modifies this`freeCounter, set l | l in links :: l.item
      ensures Valid() && links == old(links) && tableCount == old(tableCount) && peak == old(peak)
      ensures ok <==> ptr in old(Live(Slots()))
      ensures Live(Slots()) == old(Live(Slots())) - {ptr}
      ensures freeCounter == if ok then (old(freeCounter) + 1) % TABLE_SIZE else old(freeCounter)
    {
      hide Linked, IsRing, SlotsOf, Slots, Live, Tidy, TablesFor;
      NullIsNotLive(Slots());
      if ptr == 0 {
        return false;
      }
      var r, t := SearchPtr(ptr);
      if r.None? {
        return false;
      }
      FewerLive(Live(Slots()), ptr);
      Erase(r.value.0, r.value.1, t);
      CountFree();
      return true;
    }

    /** `rcu_get_mtrace_results`: adds the number and the total size of the live pointers to the caller's
        counters. */
    method CountLeaks(leaks: nat, leakSize: nat) returns (n: nat, size: nat)
      requires Valid()
      ensures n == leaks + |Live(Slots())| && size == leakSize + Total(Live(Slots()))
    {
      hide Tidy, Live, SlotsOf, Total;
      n, size := leaks, leakSize;
      ghost var t := 0;
      var cursor := head.next;
      assert At(head, links, -1).next == At(head, links, 0);
      SlotsOfNone();
      while cursor != head
        invariant t <= |links| && cursor == At(head, links, t)
        invariant n == leaks + Count(SlotsOf(links[..t])) && size == leakSize + Sum(SlotsOf(links[..t]))
        decreases |links| - t
      {
        assert cursor == links[t] && At(head, links, t).next == At(head, links, t + 1);
        var n', size' := CountTable(cursor.item);
        assert links[..t + 1] == links[..t] + [links[t]];
        SlotsOfMore(links[..t], links[t]);
        CountConcat(SlotsOf(links[..t]), cursor.item[..]);
        n, size := n + n', size + size';
        cursor := cursor.next;
        t := t + 1;
      }
      assert links[..t] == links;
      CountAndSum(Slots());
    }

    /** `rcu_destroy_ptr_cache`: frees every table once and leaves an empty ring. */
    method Destroy() returns (ghost freed: seq<Link<Table>>)
      requires Valid()
      modifies head, links
      ensures IsRing(head, []) && freed == old(links)
    {
      freed := Drain(head, links);
    }
  }

  lemma SlotsOfNone()
    ensures SlotsOf([]) == []
  {}

  /** The inner loop of `rcu_get_mtrace_results`. */
  method CountTable(tbl: Table) returns (n: nat, size: nat)
    requires tbl.Length == TABLE_SIZE
    ensures n == Count(tbl[..]) && size == Sum(tbl[..])
  {
    n, size := 0, 0;
    for a := 0 to TABLE_SIZE
      invariant n == Count(tbl[..a]) && size == Sum(tbl[..a])
    {
      assert tbl[..a + 1][..a] == tbl[..a];
      if tbl[a].used {
        n := n + 1;
        size := size + tbl[a].size;
      }
    }
    assert tbl[..TABLE_SIZE] == tbl[..];
  }

  lemma FewerLive(m: map<nat, nat>, k: nat)
    ensures |m - {k}| <= |m|
  {}

  /** One more live pointer: the number of tables still matches the peak. */
  lemma PeakStep(tables: nat, live: nat, peak: nat, first: bool, allocOk: bool)
    requires live <= peak && live <= TABLE_SIZE * tables && tables == if peak == 0 && first then 1 else TablesFor(peak)
    requires allocOk || live < TABLE_SIZE * tables
    ensures var tables' := tables + if allocOk && live >= TABLE_SIZE * tables then 1 else 0;
            var peak' := if live + 1 > peak then live + 1 else peak;
            tables' == TablesFor(peak')
  {}
}
