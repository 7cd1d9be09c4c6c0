/** What a pointer cache records, slot by slot: the map from live pointers to their sizes. */
module PointerMap {

  /** `rcu_pointer_info`; pointer 0 is `NULL`. */
  datatype PtrInfo = PtrInfo(ptr: nat, size: nat, used: bool)

  const EMPTY: PtrInfo := PtrInfo(0, 0, false)

  /** Used slots hold distinct pointers, unused ones hold none. */
  ghost predicate Tidy(slots: seq<PtrInfo>) {
    && (forall i :: 0 <= i < |slots| ==> (slots[i].used <==> slots[i].ptr != 0))
    && (forall i, j :: 0 <= i < j < |slots| && slots[i].used && slots[j].used ==> slots[i].ptr != slots[j].ptr)
  }

  /** The recorded pointers and their sizes. */
  ghost function Live(slots: seq<PtrInfo>): map<nat, nat> {
    if slots == [] then map[]
    else
      var earlier, last := Live(slots[..|slots| - 1]), slots[|slots| - 1];
      if last.used then earlier[last.ptr := last.size] else earlier
  }

  lemma {:induction false} LiveMeans(slots: seq<PtrInfo>, p: nat)
    requires Tidy(slots)
    ensures p in Live(slots) <==> exists i :: 0 <= i < |slots| && slots[i].used && slots[i].ptr == p
    ensures forall i :: 0 <= i < |slots| && slots[i].used && slots[i].ptr == p ==>
              p in Live(slots) && Live(slots)[p] == slots[i].size
  {
    if slots != [] {
      var earlier := slots[..|slots| - 1];
      LiveMeans(earlier, p);
      assert forall i :: 0 <= i < |earlier| ==> earlier[i] == slots[i];
    }
  }

  lemma NullIsNotLive(slots: seq<PtrInfo>)
    requires Tidy(slots)
    ensures 0 !in Live(slots)
  {}

  lemma LiveWhen(slots: seq<PtrInfo>, m: map<nat, nat>)
    requires Tidy(slots)
    requires forall p :: p in m <==> exists i :: 0 <= i < |slots| && slots[i].used && slots[i].ptr == p
    requires forall i :: 0 <= i < |slots| && slots[i].used ==> slots[i].ptr in m && m[slots[i].ptr] == slots[i].size
    ensures Live(slots) == m
  {
    forall p
      ensures (p in Live(slots) <==> p in m) && (p in m ==> Live(slots)[p] == m[p])
    {
      LiveMeans(slots, p);
    }
  }

  /** Filling a free slot adds a pointer. */
  lemma FillAdds(slots: seq<PtrInfo>, i: nat, p: nat, size: nat)
    requires Tidy(slots) && i < |slots| && !slots[i].used && p != 0 && p !in Live(slots)
    ensures Tidy(slots[i := PtrInfo(p, size, true)])
    ensures Live(slots[i := PtrInfo(p, size, true)]) == Live(slots)[p := size]
  {
    var after, m := slots[i := PtrInfo(p, size, true)], Live(slots)[p := size];
    LiveMeans(slots, p);
    forall q
      ensures q in m <==> exists j :: 0 <= j < |after| && after[j].used && after[j].ptr == q
    {
      LiveMeans(slots, q);
      if j :| 0 <= j < |slots| && slots[j].used && slots[j].ptr == q {
        assert after[j] == slots[j];
      }
      if q == p {
        assert after[i].ptr == q;
      }
    }
    forall j | 0 <= j < |after| && after[j].used
      ensures m[after[j].ptr] == after[j].size
    {
      LiveMeans(slots, after[j].ptr);
    }
    LiveWhen(after, m);
  }

  /** Clearing a used slot drops its pointer and nothing else. */
  lemma ClearDrops(slots: seq<PtrInfo>, i: nat)
    requires Tidy(slots) && i < |slots| && slots[i].used
    ensures Tidy(slots[i := EMPTY])
    ensures Live(slots[i := EMPTY]) == Live(slots) - {slots[i].ptr}
  {
    var after, m := slots[i := EMPTY], Live(slots) - {slots[i].ptr};
    forall q
      ensures q in m <==> exists j :: 0 <= j < |after| && after[j].used && after[j].ptr == q
    {
      LiveMeans(slots, q);
      if j :| 0 <= j < |slots| && slots[j].used && slots[j].ptr == q && q != slots[i].ptr {
        assert after[j] == slots[j];
      }
    }
    forall j | 0 <= j < |after| && after[j].used
      ensures after[j].ptr in m && m[after[j].ptr] == after[j].size
    {
      LiveMeans(slots, after[j].ptr);
    }
    LiveWhen(after, m);
  }

  /** A new table of empty slots changes nothing. */
  lemma GrowKeeps(slots: seq<PtrInfo>, more: seq<PtrInfo>)
    requires Tidy(slots) && forall i :: 0 <= i < |more| ==> more[i] == EMPTY
    ensures Tidy(slots + more) && Live(slots + more) == Live(slots)
  {
    var after := slots + more;
    forall q
      ensures q in Live(slots) <==> exists j :: 0 <= j < |after| && after[j].used && after[j].ptr == q
    {
      LiveMeans(slots, q);
      if j :| 0 <= j < |slots| && slots[j].used && slots[j].ptr == q {
        assert after[j] == slots[j];
      }
    }
    forall j | 0 <= j < |after| && after[j].used
      ensures after[j].ptr in Live(slots) && Live(slots)[after[j].ptr] == after[j].size
    {
      LiveMeans(slots, after[j].ptr);
    }
    LiveWhen(after, Live(slots));
  }

  // ----- counting

  ghost function Count(slots: seq<PtrInfo>): nat {
    if slots == [] then 0 else Count(slots[..|slots| - 1]) + if slots[|slots| - 1].used then 1 else 0
  }

  ghost function Sum(slots: seq<PtrInfo>): nat {
    if slots == [] then 0
    else Sum(slots[..|slots| - 1]) + if slots[|slots| - 1].used then slots[|slots| - 1].size else 0
  }

  /** The sum of the values of `m` at `keys`. */
  ghost function SumAt(m: map<nat, nat>, keys: set<nat>): nat
    requires keys <= m.Keys
  {
    if keys == {} then 0
    else
      var k :| k in keys;
      m[k] + SumAt(m, keys - {k})
  }

  /** The sum of the values of a map. */
  ghost function Total(m: map<nat, nat>): nat {
    SumAt(m, m.Keys)
  }

  lemma {:induction false} SumWithout(m: map<nat, nat>, keys: set<nat>, k: nat)
    requires keys <= m.Keys && k in keys
    ensures SumAt(m, keys) == m[k] + SumAt(m, keys - {k})
    decreases keys
  {
    var j :| j in keys && SumAt(m, keys) == m[j] + SumAt(m, keys - {j});
    if j != k {
      SumWithout(m, keys - {j}, k);
      SumWithout(m, keys - {k}, j);
      assert keys - {j} - {k} == keys - {k} - {j};
    }
  }

  lemma {:induction false} SumAgrees(m: map<nat, nat>, n: map<nat, nat>, keys: set<nat>)
    requires keys <= m.Keys && keys <= n.Keys && forall k :: k in keys ==> m[k] == n[k]
    ensures SumAt(m, keys) == SumAt(n, keys)
    decreases keys
  {
    if keys != {} {
      var k :| k in keys;
      SumWithout(m, keys, k);
      SumWithout(n, keys, k);
      SumAgrees(m, n, keys - {k});
    }
  }

  lemma TotalPut(m: map<nat, nat>, k: nat, v: nat)
    requires k !in m
    ensures Total(m[k := v]) == Total(m) + v && |m[k := v]| == |m| + 1
  {
    var n := m[k := v];
    SumWithout(n, n.Keys, k);
    assert n.Keys - {k} == m.Keys;
    SumAgrees(m, n, m.Keys);
    assert |n.Keys| == |n| && |m.Keys| == |m|;
  }

  /** Counting used slots and adding up their sizes gives the size and the sum of the map. */
  lemma {:induction false} CountAndSum(slots: seq<PtrInfo>)
    requires Tidy(slots)
    ensures Count(slots) == |Live(slots)| && Sum(slots) == Total(Live(slots))
  {
    if slots != [] {
      var earlier, last := slots[..|slots| - 1], slots[|slots| - 1];
      CountAndSum(earlier);
      if last.used {
        LiveMeans(earlier, last.ptr);
        TotalPut(Live(earlier), last.ptr, last.size);
      }
    }
  }

  lemma {:induction false} CountBound(slots: seq<PtrInfo>)
    ensures Count(slots) <= |slots|
    ensures Count(slots) == |slots| <==> forall i :: 0 <= i < |slots| ==> slots[i].used
  {
    if slots != [] {
      var earlier := slots[..|slots| - 1];
      CountBound(earlier);
      assert forall i :: 0 <= i < |earlier| ==> earlier[i] == slots[i];
    }
  }

  lemma {:induction false} CountConcat(a: seq<PtrInfo>, b: seq<PtrInfo>)
    ensures Count(a + b) == Count(a) + Count(b) && Sum(a + b) == Sum(a) + Sum(b)
  {
    if b == [] {
      assert a + b == a;
    } else {
      assert (a + b)[..|a + b| - 1] == a + b[..|b| - 1];
      CountConcat(a, b[..|b| - 1]);
    }
  }
}
