/** The intrusive circular list of the test framework (`rcu_list`). A ring is a head and the sequence of
    entries linked to it. */
module Ring {

  /** `rcu_list`, embedded in an `item`. */
  class Link<T> {
    const item: T
    var next: Link<T>
    var prev: Link<T>

    /** `rcu_init_list`: linked to itself. */
    constructor (item: T)
      ensures this.item == item && next == this && prev == this
    {
      this.item := item;
      next := this;
      prev := this;
    }
  }

  /** Position `i` of the ring; the head stands both before and behind the entries. */
  ghost function At<T>(head: Link<T>, s: seq<Link<T>>, i: int): Link<T>
    requires -1 <= i <= |s|
  {
    if 0 <= i < |s| then s[i] else head
  }

  /** `s` are the entries between `head` and itself, in order, correctly linked both ways. */
  ghost predicate IsRing<T>(head: Link<T>, s: seq<Link<T>>)
    reads head, s
  {
    && head !in s
    && (forall i, j :: 0 <= i < j < |s| ==> s[i] != s[j])
    && (forall i :: -1 <= i < |s| ==> At(head, s, i).next == At(head, s, i + 1))
    && (forall i :: 0 <= i <= |s| ==> At(head, s, i).prev == At(head, s, i - 1))
  }

  /** `rcu_is_list_empty` */
  method IsEmpty<T>(list: Link<T>, ghost s: seq<Link<T>>) returns (empty: bool)
    requires IsRing(list, s)
    ensures empty <==> s == []
  {
    empty := list.next == list;
    assert At(list, s, -1).next == At(list, s, 0);
  }

  /** The links at the ends of a ring. */
  lemma EndsOfRing<T>(head: Link<T>, s: seq<Link<T>>)
    requires IsRing(head, s)
    ensures head !in s && (head.next == head <==> s == [])
    ensures s != [] ==> head.next == s[0] && s[0].prev == head && s[0].next in s + [head]
    ensures head.prev == head || head.prev in s
  {
    assert At(head, s, |s|).prev == At(head, s, |s| - 1);
    assert At(head, s, -1).next == At(head, s, 0);
    if s != [] {
      assert At(head, s, 0).prev == At(head, s, -1) && At(head, s, 0).next == At(head, s, 1);
    }
  }

  /** `rcu_insert_list`: appends. */
  method Insert<T>(list: Link<T>, entry: Link<T>, ghost s: seq<Link<T>>)
    requires IsRing(list, s) && entry != list && entry !in s
    modifies list, list.prev, entry
    ensures IsRing(list, s + [entry])
  {
    assert At(list, s, |s|).prev == At(list, s, |s| - 1);
    entry.prev := list.prev;
    entry.next := list;
    list.prev.next := entry;
    list.prev := entry;
    ghost var r := s + [entry];
    forall i | -1 <= i < |r|
      ensures At(list, r, i).next == At(list, r, i + 1)
    {
      if i < |s| - 1 {
        assert At(list, r, i) == At(list, s, i) && At(list, r, i + 1) == At(list, s, i + 1);
      }
    }
    forall i | 0 <= i <= |r|
      ensures At(list, r, i).prev == At(list, r, i - 1)
    {
      if i < |s| {
        assert At(list, r, i) == At(list, s, i) && At(list, r, i - 1) == At(list, s, i - 1);
      }
    }
  }

  /** The neighbours of `entry` are linked past it: it has just been removed, or is linked to itself. */
  ghost predicate Bypassed<T>(entry: Link<T>)
    reads entry, entry.prev, entry.next
  {
    entry.next != entry ==> entry.prev.next == entry.next && entry.next.prev == entry.prev
  }

  ghost function Without<T>(s: seq<T>, k: nat): seq<T>
    requires k < |s|
  {
    s[..k] + s[k + 1..]
  }

  /** `rcu_remove_list`: takes entry `k` out; the entry keeps its own links. Removing a bypassed entry changes
      nothing. */
  method Remove<T>(entry: Link<T>, ghost head: Link<T>, ghost s: seq<Link<T>>, ghost k: int)
    requires IsRing(head, s)
    requires if k < 0 then Bypassed(entry) else k < |s| && s[k] == entry
    modifies entry.prev, entry.next
    ensures entry.next == old(entry.next) && entry.prev == old(entry.prev)
    ensures k >= 0 ==> IsRing(head, Without(s, k)) && Bypassed(entry)
    ensures k < 0 ==>
              IsRing(head, s) && entry.prev.next == old(entry.prev.next) && entry.next.prev == old(entry.next.prev)
  {
    if k >= 0 {
      assert At(head, s, k).next == At(head, s, k + 1) && At(head, s, k).prev == At(head, s, k - 1);
    }
    if entry.next != entry {
      entry.prev.next := entry.next;
      entry.next.prev := entry.prev;
    }
    if k >= 0 {
      ghost var r := Without(s, k);
      forall i | -1 <= i < |r|
        ensures At(head, r, i).next == At(head, r, i + 1)
      {
        assert At(head, r, i) == At(head, s, if i < k then i else i + 1);
        assert At(head, r, i + 1) == At(head, s, if i + 1 < k then i + 1 else i + 2);
      }
      forall i | 0 <= i <= |r|
        ensures At(head, r, i).prev == At(head, r, i - 1)
      {
        assert At(head, r, i) == At(head, s, if i < k then i else i + 1);
        assert At(head, r, i - 1) == At(head, s, if i - 1 < k then i - 1 else i);
      }
    }
  }

  /** `rcu_get_list_size` */
  method Size<T>(list: Link<T>, ghost s: seq<Link<T>>) returns (size: nat)
    requires IsRing(list, s)
    ensures size == |s|
  {
    size := 0;
    var cursor := list.next;
    assert At(list, s, -1).next == At(list, s, 0);
    while cursor != list
      invariant size <= |s| && cursor == At(list, s, size)
      decreases |s| - size
    {
      assert At(list, s, size).next == At(list, s, size + 1);
      size := size + 1;
      cursor := cursor.next;
    }
  }

  /** The drain loop that destroys a list: each entry is removed and freed, and the cursor goes back to the
      node saved before it. It terminates, visits each entry once in order, never follows a freed entry, and
      leaves the empty ring. */
  method Drain<T>(list: Link<T>, ghost s: seq<Link<T>>) returns (ghost freed: seq<Link<T>>)
    requires IsRing(list, s)
    modifies list, s
    ensures IsRing(list, []) && freed == s
  {
    hide IsRing, At;
    freed := [];
    var cursor := list.next;
    EndsOfRing(list, s);
    while cursor != list
      invariant |freed| <= |s| && freed == s[..|freed|]
      invariant IsRing(list, s[|freed|..]) && cursor == list.next
      decreases |s| - |freed|
    {
      ghost var rest := s[|freed|..];
      EndsOfRing(list, rest);
      var saved := cursor.prev;
      Remove(cursor, list, rest, 0);
      assert Without(rest, 0) == s[|freed| + 1..];
      freed := freed + [cursor];
      cursor := saved;
      assert cursor !in freed;
      cursor := cursor.next;
    }
    EndsOfRing(list, s[|freed|..]);
  }
}
