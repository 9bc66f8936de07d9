/** The circular doubly linked list of rtservice.h.

  A `Links` value is what the two link words of every list node hold.  The three inline primitives
  update it store by store; the lemmas say what each store sequence does to a ring, seen as the
  sequence of its nodes starting at any of them.
 */
module RtList {

  datatype Links<T(==)> = Links(next: map<T, T>, prev: map<T, T>) {

    ghost predicate Has(n: T) {
      n in next && n in prev && next[n] in next && next[n] in prev && prev[n] in next && prev[n] in prev
    }

    /** rt_list_init: a node linked to itself. */
    function Init(n: T): Links<T> {
      Links(next[n := n], prev[n := n])
    }

    function InsertAfter(l: T, n: T): Links<T>
      requires Has(l)
    {
      var prev1 := prev[next[l] := n];
      var next1 := next[n := next[l]];
      Links(next1[l := n], prev1[n := l])
    }

    function InsertBefore(l: T, n: T): Links<T>
      requires Has(l)
    {
      var next1 := next[prev[l] := n];
      var prev1 := prev[n := prev[l]];
      Links(next1[n := l], prev1[l := n])
    }

    /** The two stores that bypass a node; the node's own words stay as they were. */
    function Unlink(n: T): Links<T>
      requires Has(n)
    {
      Links(next[prev[n] := next[n]], prev[next[n] := prev[n]])
    }

    function Remove(n: T): Links<T>
      requires Has(n)
    {
      Unlink(n).Init(n)
    }

    /** A node on no list, as rt_list_init and rt_list_remove leave it. */
    ghost predicate Detached(n: T) {
      n in next && n in prev && next[n] == n && prev[n] == n
    }
  }

  ghost predicate Distinct<T(!new)>(s: seq<T>) {
    forall i, j :: 0 <= i < j < |s| ==> s[i] != s[j]
  }

  /** Following `next` from s[0] visits s in order and returns to s[0]; `prev` goes the other way. */
  ghost predicate Ring<T(!new)>(k: Links<T>, s: seq<T>) {
    && |s| > 0
    && Distinct(s)
    && (forall i :: 0 <= i < |s| ==> s[i] in k.next && s[i] in k.prev)
    && (forall i :: 0 <= i < |s| - 1 ==> k.next[s[i]] == s[i + 1])
    && (forall i :: 0 < i < |s| ==> k.prev[s[i]] == s[i - 1])
    && k.next[s[|s| - 1]] == s[0]
    && k.prev[s[0]] == s[|s| - 1]
  }

  function Without<T>(s: seq<T>, i: nat): seq<T>
    requires i < |s|
  {
    s[..i] + s[i + 1..]
  }

  function Inserted<T>(s: seq<T>, i: nat, x: T): seq<T>
    requires i <= |s|
  {
    s[..i] + [x] + s[i..]
  }

  /** Where x stands in s. */
  ghost function PositionOf<T>(s: seq<T>, x: T): (i: nat)
    requires x in s
    ensures i < |s| && s[i] == x
  {
    var i: nat :| i < |s| && s[i] == x;
    i
  }

  ghost function Drop<T>(s: seq<T>, x: T): seq<T> {
    if x in s then Without(s, PositionOf(s, x)) else s
  }

  lemma DistinctWithout<T(!new)>(s: seq<T>, i: nat)
    requires Distinct(s) && i < |s|
    ensures Distinct(Without(s, i))
    ensures s[i] !in Without(s, i)
    ensures forall x :: x in s && x != s[i] ==> x in Without(s, i)
    ensures forall x :: x in Without(s, i) ==> x in s
  {
    var t := Without(s, i);
    forall j, l | 0 <= j < l < |t|
      ensures t[j] != t[l]
    {
      assert t[j] == s[if j < i then j else j + 1];
      assert t[l] == s[if l < i then l else l + 1];
    }
    forall x | x in s && x != s[i]
      ensures x in t
    {
      var j :| 0 <= j < |s| && s[j] == x;
      assert t[if j < i then j else j - 1] == x;
    }
  }

  lemma DistinctInserted<T(!new)>(s: seq<T>, i: nat, x: T)
    requires Distinct(s) && i <= |s| && x !in s
    ensures Distinct(Inserted(s, i, x))
    ensures forall y :: y in Inserted(s, i, x) <==> y in s || y == x
  {
    var t := Inserted(s, i, x);
    assert forall j :: 0 <= j < |s| ==> s[j] == t[if j < i then j else j + 1];
    assert t[i] == x;
  }

  lemma DistinctTail<T(!new)>(q: seq<T>)
    requires Distinct(q) && q != []
    ensures Distinct(q[1..]) && q[0] !in q[1..]
    ensures forall x :: x in q <==> x == q[0] || x in q[1..]
  {
    var p := q[1..];
    assert forall i :: 0 <= i < |p| ==> p[i] == q[i + 1];
    forall x | x in q
      ensures x == q[0] || x in p
    {
      var i :| 0 <= i < |q| && q[i] == x;
      assert i > 0 ==> p[i - 1] == x;
    }
  }

  lemma InDrop<T(!new)>(q: seq<T>, t: T)
    requires Distinct(q)
    ensures Distinct(Drop(q, t)) && t !in Drop(q, t)
    ensures forall x :: x in Drop(q, t) <==> x in q && x != t
  {
    if t in q {
      DistinctWithout(q, PositionOf(q, t));
    }
  }

  lemma DropAt<T(!new)>(q: seq<T>, i: nat)
    requires Distinct(q) && i < |q|
    ensures Drop(q, q[i]) == Without(q, i)
  {
    var k := PositionOf(q, q[i]);
    assert k == i;
  }

  /** x stands somewhere before y in q. */
  ghost predicate Before<T(!new)>(q: seq<T>, x: T, y: T) {
    exists i, j :: 0 <= i < j < |q| && q[i] == x && q[j] == y
  }

  lemma BeforeAt<T(!new)>(q: seq<T>, i: nat, j: nat)
    requires i < j < |q|
    ensures Before(q, q[i], q[j])
  {
  }

  /** Taking out another element keeps two elements in their order. */
  lemma BeforeDrop<T(!new)>(q: seq<T>, t: T, x: T, y: T)
    requires Before(q, x, y) && x != t && y != t
    ensures Before(Drop(q, t), x, y)
  {
    if t in q {
      BeforeWithout(q, PositionOf(q, t), x, y);
    }
  }

  lemma BeforeWithout<T(!new)>(q: seq<T>, k: nat, x: T, y: T)
    requires k < |q| && Before(q, x, y) && q[k] != x && q[k] != y
    ensures Before(Without(q, k), x, y)
  {
    var i, j :| 0 <= i < j < |q| && q[i] == x && q[j] == y;
    assert i != k && j != k;
    var p := Without(q, k);
    var a, b := if i < k then i else i - 1, if j < k then j else j - 1;
    assert p[a] == x && p[b] == y;
  }

  /** So does putting one in. */
  lemma BeforeInserted<T(!new)>(q: seq<T>, k: nat, t: T, x: T, y: T)
    requires Before(q, x, y) && k <= |q|
    ensures Before(Inserted(q, k, t), x, y)
  {
    var i, j :| 0 <= i < j < |q| && q[i] == x && q[j] == y;
    var a, b := if i < k then i else i + 1, if j < k then j else j + 1;
    assert Inserted(q, k, t)[a] == x && Inserted(q, k, t)[b] == y;
  }

  lemma BeforeTail<T(!new)>(q: seq<T>, x: T, y: T)
    requires Before(q, x, y) && Distinct(q) && x != q[0]
    ensures Before(q[1..], x, y)
  {
    var i, j :| 0 <= i < j < |q| && q[i] == x && q[j] == y;
    assert q[1..][i - 1] == x && q[1..][j - 1] == y;
  }

  lemma BeforeOneWay<T(!new)>(q: seq<T>, x: T, y: T)
    requires Distinct(q)
    ensures !(Before(q, x, y) && Before(q, y, x))
    ensures x in q && y in q && x != y ==> Before(q, x, y) || Before(q, y, x)
  {
    if x in q && y in q && x != y {
      var i :| 0 <= i < |q| && q[i] == x;
      var j :| 0 <= j < |q| && q[j] == y;
    }
  }

  /** What is inserted at k stands behind everything that was before position k. */
  lemma InsertedBehind<T(!new)>(q: seq<T>, k: nat, t: T, i: nat)
    requires i < k <= |q|
    ensures Before(Inserted(q, k, t), q[i], t)
  {
    assert Inserted(q, k, t)[i] == q[i] && Inserted(q, k, t)[k] == t;
  }

  lemma DistinctPrepend<T(!new)>(s: seq<T>, x: T)
    requires Distinct(s) && x !in s
    ensures Distinct([x] + s)
    ensures forall y :: y in [x] + s <==> y == x || y in s
  {
    var t := [x] + s;
    forall i, j | 0 <= i < j < |t|
      ensures t[i] != t[j]
    {
      assert t[j] == s[j - 1];
    }
  }

  lemma RingHas<T(!new)>(k: Links<T>, s: seq<T>, i: nat)
    requires Ring(k, s) && i < |s|
    ensures k.Has(s[i])
    ensures k.next[s[i]] == s[if i + 1 < |s| then i + 1 else 0]
    ensures k.prev[s[i]] == s[if i > 0 then i - 1 else |s| - 1]
  {
    if i + 1 < |s| {
      assert k.next[s[i]] == s[i + 1];
    }
    if i > 0 {
      assert k.prev[s[i]] == s[i - 1];
    }
  }

  /** rt_list_insert_after at s[i] puts the node at position i + 1 of the ring. */
  lemma InsertAfterInRing<T(!new)>(k: Links<T>, s: seq<T>, i: nat, n: T)
    requires Ring(k, s) && i < |s| && n !in s
    ensures k.Has(s[i])
    ensures Ring(k.InsertAfter(s[i], n), Inserted(s, i + 1, n))
  {
    RingHas(k, s, i);
    DistinctInserted(s, i + 1, n);
    var t := Inserted(s, i + 1, n);
    var k' := k.InsertAfter(s[i], n);
    assert forall j :: 0 <= j < |t| ==> t[j] == if j <= i then s[j] else if j == i + 1 then n else s[j - 1];
    forall j | 0 <= j < |t| - 1
      ensures k'.next[t[j]] == t[j + 1]
    {
      if j < i {
        assert k.next[s[j]] == s[j + 1];
      } else if j > i + 1 {
        assert k.next[s[j - 1]] == s[j];
      }
    }
    forall j | 0 < j < |t|
      ensures k'.prev[t[j]] == t[j - 1]
    {
      if j <= i {
        assert k.prev[s[j]] == s[j - 1];
      } else if j > i + 2 {
        assert k.prev[s[j - 1]] == s[j - 2];
      }
    }
  }

  /** rt_list_insert_before at the head s[0] appends the node. */
  lemma InsertBeforeHead<T(!new)>(k: Links<T>, s: seq<T>, n: T)
    requires Ring(k, s) && n !in s
    ensures k.Has(s[0])
    ensures Ring(k.InsertBefore(s[0], n), s + [n])
  {
    RingHas(k, s, 0);
    RingHas(k, s, |s| - 1);
    InsertAfterInRing(k, s, |s| - 1, n);
    assert Inserted(s, |s|, n) == s + [n];
    assert k.InsertBefore(s[0], n) == k.InsertAfter(s[|s| - 1], n);
  }

  lemma UnlinkFromRing<T(!new)>(k: Links<T>, s: seq<T>, i: nat)
    requires Ring(k, s) && 0 < i < |s|
    ensures k.Has(s[i])
    ensures Ring(k.Unlink(s[i]), Without(s, i))
  {
    RingHas(k, s, i);
    DistinctWithout(s, i);
    var t := Without(s, i);
    var k' := k.Unlink(s[i]);
    forall j | 0 <= j < |t| - 1
      ensures k'.next[t[j]] == t[j + 1]
    {
      if j < i {
        assert k.next[s[j]] == s[j + 1];
      } else {
        assert k.next[s[j + 1]] == s[j + 2];
      }
    }
    forall j | 0 < j < |t|
      ensures k'.prev[t[j]] == t[j - 1]
    {
      if j < i {
        assert k.prev[s[j]] == s[j - 1];
      } else {
        assert k.prev[s[j + 1]] == s[j];
      }
    }
  }

  /** rt_list_remove of any node but the head takes it out of the ring and leaves it detached. */
  lemma RemoveFromRing<T(!new)>(k: Links<T>, s: seq<T>, i: nat)
    requires Ring(k, s) && 0 < i < |s|
    ensures k.Has(s[i])
    ensures Ring(k.Remove(s[i]), Without(s, i))
    ensures k.Remove(s[i]).Detached(s[i])
  {
    UnlinkFromRing(k, s, i);
    DistinctWithout(s, i);
    RingFrame(k.Unlink(s[i]), k.Remove(s[i]), Without(s, i));
  }

  /** The primitives write nothing outside the ring they work on, so every other ring survives. */
  lemma RingFrame<T(!new)>(k: Links<T>, k': Links<T>, s: seq<T>)
    requires Ring(k, s)
    requires forall x :: x in s ==> x in k'.next && x in k'.prev && k'.next[x] == k.next[x] && k'.prev[x] == k.prev[x]
    ensures Ring(k', s)
  {
    forall i | 0 <= i < |s| - 1
      ensures k'.next[s[i]] == s[i + 1]
    {
      assert s[i] in s;
    }
    forall i | 0 < i < |s|
      ensures k'.prev[s[i]] == s[i - 1]
    {
      assert s[i] in s;
    }
  }

  /** A ring determines its sequence: two rings over the same links with the same head are equal. */
  lemma {:induction false} RingUnique<T(!new)>(k: Links<T>, s: seq<T>, t: seq<T>, n: nat)
    requires Ring(k, s) && Ring(k, t) && s[0] == t[0] && n <= |s| && n <= |t|
    ensures s[..n] == t[..n]
    ensures n == |s| ==> s == t
  {
    if n > 1 {
      RingUnique(k, s, t, n - 1);
      assert s[..n - 1][n - 2] == t[..n - 1][n - 2];
      RingHas(k, s, n - 2);
      RingHas(k, t, n - 2);
      assert s[..n] == s[..n - 1] + [s[n - 1]];
      assert t[..n] == t[..n - 1] + [t[n - 1]];
    }
  }

  // ----- Counting -----

  ghost function Elements(list: seq<int>): set<int> {
    set i | 0 <= i < |list| :: list[i]
  }

  lemma {:induction false} ElementsCard(list: seq<int>)
    requires Distinct(list)
    ensures |Elements(list)| == |list|
    decreases |list|
  {
    if list != [] {
      var rest := list[..|list| - 1];
      ElementsCard(rest);
      assert Elements(list) == Elements(rest) + {list[|list| - 1]};
    }
  }

  ghost function Below(n: nat): set<int> {
    Elements(seq(n, i => i))
  }

  lemma BelowCard(n: nat)
    ensures |Below(n)| == n && forall k :: k in Below(n) <==> 0 <= k < n
  {
    var l := seq(n, i => i);
    ElementsCard(l);
    forall k | 0 <= k < n
      ensures k in Below(n)
    {
      assert l[k] == k;
    }
  }

  /** n distinct numbers below n are all of them. */
  lemma Pigeonhole(list: seq<int>, n: nat, k: int)
    requires Distinct(list) && |list| == n && forall i :: 0 <= i < |list| ==> 0 <= list[i] < n
    requires 0 <= k < n
    ensures k in list
  {
    ElementsCard(list);
    BelowCard(n);
    if k !in list {
      var others := Below(n) - {k};
      assert Elements(list) <= others;
      SubsetCount(Elements(list), others);
    }
  }

  lemma {:induction false} SubsetCount<T>(a: set<T>, b: set<T>)
    requires a <= b
    ensures |a| <= |b|
  {
    if a != {} {
      var x :| x in a;
      SubsetCount(a - {x}, b - {x});
    }
  }

  // ----- The primitives as stores -----

  class ListMemory {
    var next: map<int, int>
    var prev: map<int, int>

    ghost predicate IsRing(ring: seq<int>)
      reads this
    {
      Ring(Links(next, prev), ring)
    }

    /** rt_list_init. */
    method Init(n: int)
      modifies this
      ensures IsRing([n]) && forall ring :: old(IsRing(ring)) && n !in ring ==> IsRing(ring)
    {
      ghost var k := Links(next, prev);
      next := next[n := n];
      prev := prev[n := n];
      forall ring | Ring(k, ring) && n !in ring
        ensures IsRing(ring)
      {
        RingFrame(k, Links(next, prev), ring);
      }
    }

    /** rt_list_insert_after: the node follows ring[i]. */
    method InsertAfter(l: int, n: int, ghost ring: seq<int>, ghost i: nat)
      requires IsRing(ring) && i < |ring| && ring[i] == l && n !in ring
      modifies this
      ensures IsRing(Inserted(ring, i + 1, n))
    {
      ghost var k := Links(next, prev);
      InsertAfterInRing(k, ring, i, n);
      prev := prev[next[l] := n];
      next := next[n := next[l]];
      next := next[l := n];
      prev := prev[n := l];
      assert Links(next, prev) == k.InsertAfter(l, n);
    }

    /** rt_list_insert_before at the head: the node becomes the last. */
    method InsertBefore(l: int, n: int, ghost ring: seq<int>)
      requires IsRing(ring) && ring[0] == l && n !in ring
      modifies this
      ensures IsRing(ring + [n])
    {
      ghost var k := Links(next, prev);
      InsertBeforeHead(k, ring, n);
      next := next[prev[l] := n];
      prev := prev[n := prev[l]];
      prev := prev[l := n];
      next := next[n := l];
      assert Links(next, prev) == k.InsertBefore(l, n);
    }

    /** rt_list_remove of a node that is not the head. */
    method Remove(n: int, ghost ring: seq<int>, ghost i: nat)
      requires IsRing(ring) && 0 < i < |ring| && ring[i] == n
      modifies this
      ensures IsRing(Without(ring, i)) && IsRing([n])
    {
      ghost var k := Links(next, prev);
      RemoveFromRing(k, ring, i);
      prev := prev[next[n] := prev[n]];
      next := next[prev[n] := next[n]];
      next := next[n := n];
      prev := prev[n := n];
      assert Links(next, prev) == k.Remove(n);
    }

    /** rt_list_len: the nodes besides the head. */
    method Len(l: int, ghost ring: seq<int>) returns (len: nat)
      requires IsRing(ring) && ring[0] == l
      ensures len == |ring| - 1
    {
      hide Distinct;
      len := 0;
      var p := l;
      RingHas(Links(next, prev), ring, 0);
      while next[p] != l
        invariant len < |ring| && p == ring[len] && p in next
        invariant next[p] == ring[if len + 1 < |ring| then len + 1 else 0]
        decreases |ring| - len
      {
        p := next[p];
        len := len + 1;
        RingHas(Links(next, prev), ring, len);
      }
      NotAgain(ring, len);
    }
  }

  lemma NotAgain(ring: seq<int>, i: nat)
    requires Distinct(ring) && i < |ring|
    ensures i + 1 < |ring| ==> ring[i + 1] != ring[0]
  {
  }
}
