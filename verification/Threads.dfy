/** Thread lists: ready lists and wait lists share one list node per thread.

  List i is a ring through its head, Head(i), and the threads standing on it; `home` says on which
  list a thread stands, or NOWHERE.
 */
module Threads {
  import opened RtList

  const NOWHERE: int := -1

  function Head(i: nat): int { -1 - i }

  ghost predicate Home(list: seq<int>, home: map<int, int>, i: int) {
    Distinct(list) && forall j :: 0 <= j < |list| ==> list[j] in home && home[list[j]] == i
  }

  /** Every thread is exactly on the list home names, once. */
  ghost predicate Homes(lists: seq<seq<int>>, home: map<int, int>) {
    && (forall i :: 0 <= i < |lists| ==> Home(lists[i], home, i))
    && (forall t :: t in home ==> t >= 0 && -1 <= home[t] < |lists|)
    && (forall t :: t in home && home[t] >= 0 ==> t in lists[home[t]])
  }

  ghost predicate Linked(k: Links<int>, lists: seq<seq<int>>, home: map<int, int>) {
    && (forall i :: 0 <= i < |lists| ==> Ring(k, [Head(i)] + lists[i]))
    && (forall t :: t in home && home[t] == NOWHERE ==> k.Detached(t))
  }

  ghost function Taken(lists: seq<seq<int>>, home: map<int, int>, t: int): seq<seq<int>>
    requires t in home && home[t] < |lists|
  {
    if home[t] < 0 then lists else lists[home[t] := Drop(lists[home[t]], t)]
  }

  ghost function Put(lists: seq<seq<int>>, i: nat, at: nat, t: int): seq<seq<int>>
    requires i < |lists| && at <= |lists[i]|
  {
    lists[i := Inserted(lists[i], at, t)]
  }

  lemma HomeOf(list: seq<int>, home: map<int, int>, i: int, t: int)
    requires Home(list, home, i) && t in list
    ensures t in home && home[t] == i
  {
  }

  lemma HomeElsewhere(list: seq<int>, home: map<int, int>, i: int, t: int, h: int)
    requires Home(list, home, i) && (t in home ==> home[t] != i)
    ensures Home(list, home[t := h], i) && t !in list
  {
  }

  lemma HomeDrop(list: seq<int>, home: map<int, int>, i: int, t: int, h: int)
    requires Home(list, home, i)
    ensures Home(Drop(list, t), home[t := h], i)
  {
    hide Drop;
    InDrop(list, t);
    forall j | 0 <= j < |Drop(list, t)|
      ensures Drop(list, t)[j] in home && Drop(list, t)[j] != t && home[Drop(list, t)[j]] == i
    {
      assert Drop(list, t)[j] in Drop(list, t);
      HomeOf(list, home, i, Drop(list, t)[j]);
    }
  }

  lemma HomePut(list: seq<int>, home: map<int, int>, i: int, at: nat, t: int)
    requires Home(list, home, i) && at <= |list| && t !in list
    ensures Home(Inserted(list, at, t), home[t := i], i)
  {
    DistinctInserted(list, at, t);
    var p := Inserted(list, at, t);
    forall j | 0 <= j < |p|
      ensures p[j] in home[t := i] && home[t := i][p[j]] == i
    {
      assert p[j] in p;
    }
  }

  lemma HomesTaken(lists: seq<seq<int>>, home: map<int, int>, t: int)
    requires Homes(lists, home) && t in home
    ensures Homes(Taken(lists, home, t), home[t := NOWHERE])
  {
    hide Home;
    var h := home[t];
    var after := Taken(lists, home, t);
    forall i | 0 <= i < |lists|
      ensures Home(after[i], home[t := NOWHERE], i)
    {
      if i == h {
        HomeDrop(lists[i], home, i, t, NOWHERE);
      } else {
        HomeElsewhere(lists[i], home, i, t, NOWHERE);
      }
    }
    forall x | x in home && x != t && home[x] >= 0
      ensures x in after[home[x]]
    {
      if home[x] == h {
        HomeDistinct(lists, home, h);
        InDrop(lists[h], t);
      }
    }
  }

  lemma HomeDistinct(lists: seq<seq<int>>, home: map<int, int>, i: nat)
    requires Homes(lists, home) && i < |lists|
    ensures Distinct(lists[i])
  {
  }

  lemma HomesPut(lists: seq<seq<int>>, home: map<int, int>, i: nat, at: nat, t: int)
    requires Homes(lists, home) && t in home && home[t] == NOWHERE && i < |lists| && at <= |lists[i]|
    ensures Homes(Put(lists, i, at, t), home[t := i])
  {
    hide Home;
    var after := Put(lists, i, at, t);
    forall j | 0 <= j < |lists|
      ensures Home(after[j], home[t := i], j)
    {
      HomeElsewhere(lists[j], home, j, t, i);
      if j == i {
        HomePut(lists[i], home, i, at, t);
      }
    }
    var home' := home[t := i];
    forall x | x in home' && home'[x] >= 0
      ensures x in after[home'[x]]
    {
      InInserted(lists[i], at, t, x);
    }
  }

  lemma InInserted<T>(list: seq<T>, at: nat, t: T, x: T)
    requires at <= |list|
    ensures x in Inserted(list, at, t) <==> x in list || x == t
  {
    var p := Inserted(list, at, t);
    assert p[at] == t;
    assert forall j :: 0 <= j < |list| ==> list[j] == p[if j < at then j else j + 1];
  }

  /** A node of list i, its head included, is no node of another list. */
  lemma OtherRing(lists: seq<seq<int>>, home: map<int, int>, i: nat, j: nat, x: int)
    requires Homes(lists, home) && i < |lists| && j < |lists| && i != j && x in [Head(i)] + lists[i]
    ensures x !in [Head(j)] + lists[j]
  {
    hide Distinct;
    assert Home(lists[i], home, i) && Home(lists[j], home, j);
    if x != Head(i) {
      HomeOf(lists[i], home, i, x);
      if x in lists[j] {
        HomeOf(lists[j], home, j, x);
      }
    } else if x in lists[j] {
      HomeOf(lists[j], home, j, x);
    }
  }

  /** A detached thread is no node of any list. */
  lemma NoRing(lists: seq<seq<int>>, home: map<int, int>, t: int, j: nat)
    requires Homes(lists, home) && t in home && home[t] == NOWHERE && j < |lists|
    ensures t !in [Head(j)] + lists[j]
  {
    hide Distinct;
    assert Home(lists[j], home, j);
  }

  lemma LinkedTake(k: Links<int>, lists: seq<seq<int>>, home: map<int, int>, t: int)
    requires Linked(k, lists, home) && Homes(lists, home) && t in home
    ensures k.Has(t) && Linked(k.Remove(t), Taken(lists, home, t), home[t := NOWHERE])
  {
    hide Ring, Home;
    var h := home[t];
    if h == NOWHERE {
      assert k.Has(t) && k.Remove(t) == k;
      assert home[t := NOWHERE] == home;
    } else {
      TakeOwn(k, lists[h], h, t);
      var after := Taken(lists, home, t);
      forall j | 0 <= j < |lists|
        ensures Ring(k.Remove(t), [Head(j)] + after[j])
      {
        if j != h {
          TakeOther(k, lists, home, t, j);
        }
      }
      forall x | x in home && x != t && home[x] == NOWHERE
        ensures k.Remove(t).Detached(x)
      {
        NoRing(lists, home, x, h);
        assert k.next[t] != x && k.prev[t] != x;
      }
    }
  }

  lemma RemoveFrame(k: Links<int>, s: seq<int>, t: int)
    requires Ring(k, s) && k.Has(t) && t !in s && k.next[t] !in s && k.prev[t] !in s
    ensures Ring(k.Remove(t), s)
  {
    hide Distinct;
    RingFrame(k, k.Remove(t), s);
  }

  lemma InsertFrame(k: Links<int>, s: seq<int>, n: int, t: int)
    requires Ring(k, s) && k.Has(n) && t !in s && n !in s && k.prev[n] !in s
    ensures Ring(k.InsertBefore(n, t), s)
  {
    hide Distinct;
    RingFrame(k, k.InsertBefore(n, t), s);
  }

  lemma TakeOwn(k: Links<int>, list: seq<int>, h: nat, t: int)
    requires Ring(k, [Head(h)] + list) && t in list
    ensures k.Has(t) && Ring(k.Remove(t), [Head(h)] + Drop(list, t)) && k.Remove(t).Detached(t)
    ensures k.next[t] in [Head(h)] + list && k.prev[t] in [Head(h)] + list
  {
    var i := PositionOf(list, t);
    var ring := [Head(h)] + list;
    assert ring[i + 1] == t;
    RingHas(k, ring, i + 1);
    RemoveFromRing(k, ring, i + 1);
    assert Without(ring, i + 1) == [Head(h)] + Without(list, i);
  }

  lemma TakeOther(k: Links<int>, lists: seq<seq<int>>, home: map<int, int>, t: int, j: nat)
    requires Homes(lists, home) && t in home && home[t] >= 0 && j < |lists| && j != home[t]
    requires Ring(k, [Head(j)] + lists[j]) && k.Has(t)
    requires k.next[t] in [Head(home[t])] + lists[home[t]] && k.prev[t] in [Head(home[t])] + lists[home[t]]
    ensures Ring(k.Remove(t), [Head(j)] + lists[j])
  {
    hide Ring, Home, Distinct;
    var h := home[t];
    assert t in [Head(h)] + lists[h];
    OtherRing(lists, home, h, j, t);
    OtherRing(lists, home, h, j, k.next[t]);
    OtherRing(lists, home, h, j, k.prev[t]);
    RemoveFrame(k, [Head(j)] + lists[j], t);
  }

  /** The node before which a thread goes to stand at position `at`. */
  ghost function NodeAt(list: seq<int>, i: nat, at: nat): int
    requires at <= |list|
  {
    if at < |list| then list[at] else Head(i)
  }

  lemma PutOwn(k: Links<int>, list: seq<int>, i: nat, at: nat, t: int)
    requires Ring(k, [Head(i)] + list) && at <= |list| && t !in [Head(i)] + list
    ensures k.Has(NodeAt(list, i, at))
    ensures Ring(k.InsertBefore(NodeAt(list, i, at), t), [Head(i)] + Inserted(list, at, t))
    ensures NodeAt(list, i, at) in [Head(i)] + list && k.prev[NodeAt(list, i, at)] in [Head(i)] + list
  {
    hide Ring, Distinct;
    var ring := [Head(i)] + list;
    if at < |list| {
      assert ring[at + 1] == list[at];
      PutInside(k, ring, at, t);
      assert Inserted(ring, at + 1, t) == [Head(i)] + Inserted(list, at, t);
    } else {
      RingHas(k, ring, 0);
      InsertBeforeHead(k, ring, t);
      assert ring + [t] == [Head(i)] + Inserted(list, at, t);
    }
  }

  /** Inserting before a node that is not the head. */
  lemma PutInside(k: Links<int>, ring: seq<int>, at: nat, t: int)
    requires Ring(k, ring) && at + 1 < |ring| && t !in ring
    ensures k.Has(ring[at + 1]) && k.prev[ring[at + 1]] == ring[at]
    ensures Ring(k.InsertBefore(ring[at + 1], t), Inserted(ring, at + 1, t))
  {
    hide Distinct, Inserted;
    RingHas(k, ring, at + 1);
    RingHas(k, ring, at);
    InsertAfterInRing(k, ring, at, t);
    assert ring[at] in ring && ring[at + 1] in ring;
    SameInsert(k, ring[at], ring[at + 1], t);
  }

  lemma SameInsert(k: Links<int>, a: int, b: int, t: int)
    requires k.Has(a) && k.Has(b) && k.next[a] == b && k.prev[b] == a && t != a && t != b
    ensures k.InsertBefore(b, t) == k.InsertAfter(a, t)
  {
  }

  lemma LinkedPut(k: Links<int>, lists: seq<seq<int>>, home: map<int, int>, i: nat, at: nat, t: int)
    requires Linked(k, lists, home) && Homes(lists, home) && t in home && home[t] == NOWHERE
    requires i < |lists| && at <= |lists[i]|
    ensures k.Has(NodeAt(lists[i], i, at))
    ensures Linked(k.InsertBefore(NodeAt(lists[i], i, at), t), Put(lists, i, at, t), home[t := i])
  {
    hide Ring, Home;
    NoRing(lists, home, t, i);
    PutOwn(k, lists[i], i, at, t);
    var n := NodeAt(lists[i], i, at);
    var k' := k.InsertBefore(n, t);
    forall j | 0 <= j < |lists|
      ensures Ring(k', [Head(j)] + Put(lists, i, at, t)[j])
    {
      if j != i {
        NoRing(lists, home, t, j);
        OtherRing(lists, home, i, j, n);
        OtherRing(lists, home, i, j, k.prev[n]);
        InsertFrame(k, [Head(j)] + lists[j], n, t);
      }
    }
    forall x | x in home && x != t && home[x] == NOWHERE
      ensures k'.Detached(x)
    {
      NoRing(lists, home, x, i);
      assert n != x && k.prev[n] != x;
    }
  }

  lemma FirstOf(k: Links<int>, list: seq<int>, i: nat)
    requires Ring(k, [Head(i)] + list)
    ensures k.Has(Head(i))
    ensures k.next[Head(i)] == if list == [] then Head(i) else list[0]
    ensures list != [] ==> list[0] != Head(i)
  {
    var ring := [Head(i)] + list;
    RingHas(k, ring, 0);
    if list != [] {
      assert ring[1] == list[0];
      assert ring[0] != ring[1];
    }
  }

  /** A thread's neighbours coincide exactly when it stands alone. */
  lemma Neighbours(k: Links<int>, list: seq<int>, i: nat, t: int)
    requires Ring(k, [Head(i)] + list) && t in list
    ensures k.Has(t) && (k.next[t] == k.prev[t] <==> list == [t])
  {
    var at := PositionOf(list, t);
    var ring := [Head(i)] + list;
    assert ring[at + 1] == t;
    RingHas(k, ring, at + 1);
    if |list| == 1 {
      assert list == [t];
    } else {
      var a := if at + 2 < |ring| then at + 2 else 0;
      assert a != at;
      assert ring[a] != ring[at];
    }
  }

  lemma NextOf(k: Links<int>, list: seq<int>, i: nat, at: nat)
    requires Ring(k, [Head(i)] + list) && at < |list|
    ensures k.Has(list[at]) && k.next[list[at]] == NodeAt(list, i, at + 1)
    ensures list[at] != Head(i)
  {
    var ring := [Head(i)] + list;
    assert ring[at + 1] == list[at];
    RingHas(k, ring, at + 1);
    if at + 1 < |list| {
      assert ring[at + 2] == list[at + 1];
    }
    assert ring[0] != ring[at + 1];
  }
}
