/** The rows of the timer skip list: one ring per row, each a sieve of the bottom row.

  Row |rows| - 1 holds every linked timer; a timer whose tower is lower is missing from the rows
  above it.  HEAD stands for the list head of each row, timers are named by naturals.
 */
module SkipList {
  import opened RtList
  import opened TimerSpec

  const HEAD: int := -1

  /** The members of m in the order in which they stand in q. */
  ghost function Sieve(q: seq<int>, m: set<int>): seq<int> {
    if q == [] then [] else (if q[0] in m then [q[0]] else []) + Sieve(q[1..], m)
  }

  lemma {:induction false} InSieve(q: seq<int>, m: set<int>)
    ensures forall x :: x in Sieve(q, m) <==> x in q && x in m
  {
    if q != [] {
      InSieve(q[1..], m);
    }
  }

  lemma {:induction false} SieveDistinct(q: seq<int>, m: set<int>)
    requires Distinct(q)
    ensures Distinct(Sieve(q, m))
  {
    if q != [] {
      DistinctTail(q);
      SieveDistinct(q[1..], m);
      InSieve(q[1..], m);
      if q[0] in m {
        DistinctPrepend(Sieve(q[1..], m), q[0]);
      }
    }
  }

  lemma {:induction false} SieveAll(q: seq<int>, m: set<int>)
    requires forall i :: 0 <= i < |q| ==> q[i] in m
    ensures Sieve(q, m) == q
  {
    if q != [] {
      SieveAll(q[1..], m);
      assert q == [q[0]] + q[1..];
    }
  }

  /** An upper row is a subsequence of the row below it. */
  lemma {:induction false} SieveNests(q: seq<int>, upper: set<int>, lower: set<int>)
    requires upper <= lower
    ensures Sieve(q, upper) == Sieve(Sieve(q, lower), upper)
  {
    if q != [] {
      SieveNests(q[1..], upper, lower);
      var rest := Sieve(q[1..], lower);
      if q[0] in lower {
        assert ([q[0]] + rest)[1..] == rest;
      } else {
        assert Sieve(q, lower) == rest;
      }
    }
  }

  lemma {:induction false} SieveSplit(p: seq<int>, q: seq<int>, m: set<int>)
    ensures Sieve(p + q, m) == Sieve(p, m) + Sieve(q, m)
  {
    hide Sieve;
    if p == [] {
      assert p + q == q;
      SieveStep(p, m);
    } else {
      SieveSplit(p[1..], q, m);
      assert (p + q)[1..] == p[1..] + q;
      SieveStep(p, m);
      SieveStep(p + q, m);
    }
  }

  lemma SieveStep(q: seq<int>, m: set<int>)
    ensures q == [] ==> Sieve(q, m) == []
    ensures q != [] && q[0] in m ==> Sieve(q, m) == [q[0]] + Sieve(q[1..], m)
    ensures q != [] && q[0] !in m ==> Sieve(q, m) == Sieve(q[1..], m)
  {
    if q != [] && q[0] !in m {
      assert [] + Sieve(q[1..], m) == Sieve(q[1..], m);
    }
  }

  lemma SieveOne(t: int, m: set<int>)
    ensures Sieve([t], m) == if t in m then [t] else []
  {
  }

  /** A timer outside m does not show in the sieve, wherever it is put. */
  lemma SieveInsertedOut(q: seq<int>, i: nat, t: int, m: set<int>)
    requires i <= |q| && t !in m
    ensures Sieve(Inserted(q, i, t), m) == Sieve(q, m)
  {
    hide Sieve;
    SieveSplit(q[..i], q[i..], m);
    assert q[..i] + q[i..] == q;
    SieveSplit(q[..i] + [t], q[i..], m);
    SieveSplit(q[..i], [t], m);
    SieveOne(t, m);
  }

  lemma SieveInsertedIn(q: seq<int>, i: nat, t: int, m: set<int>)
    requires i <= |q| && t in m
    ensures |Sieve(q[..i], m)| <= |Sieve(q, m)|
    ensures Sieve(Inserted(q, i, t), m) == Inserted(Sieve(q, m), |Sieve(q[..i], m)|, t)
    ensures Sieve(q, m)[..|Sieve(q[..i], m)|] == Sieve(q[..i], m)
            && Sieve(q, m)[|Sieve(q[..i], m)|..] == Sieve(q[i..], m)
  {
    SieveSplit(q[..i], q[i..], m);
    assert q[..i] + q[i..] == q;
    SieveSplit(q[..i] + [t], q[i..], m);
    SieveSplit(q[..i], [t], m);
    SieveOne(t, m);
  }

  /** Whether t is in m only matters if t is in q. */
  lemma {:induction false} SieveIgnores(q: seq<int>, m: set<int>, m': set<int>)
    requires forall i :: 0 <= i < |q| ==> (q[i] in m <==> q[i] in m')
    ensures Sieve(q, m) == Sieve(q, m')
  {
    if q != [] {
      SieveIgnores(q[1..], m, m');
    }
  }

  /** Taking a timer out of the bottom row takes it out of every row. */
  lemma SieveDrop(q: seq<int>, m: set<int>, t: int)
    requires Distinct(q)
    ensures Sieve(Drop(q, t), m) == Drop(Sieve(q, m), t)
  {
    hide Distinct;
    InSieve(q, m);
    if t in q {
      var i := PositionOf(q, t);
      var p, r := q[..i], q[i + 1..];
      assert q == Inserted(p + r, i, t);
      assert Drop(q, t) == p + r;
      if t in m {
        SieveDistinct(q, m);
        SieveInsertedIn(p + r, i, t, m);
        var k := |Sieve((p + r)[..i], m)|;
        InsertedBack(Sieve(p + r, m), k, t);
        DropAt(Sieve(q, m), k);
      } else {
        SieveInsertedOut(p + r, i, t, m);
      }
    }
  }

  lemma InsertedBack<T>(q: seq<T>, i: nat, t: T)
    requires i <= |q|
    ensures Inserted(q, i, t)[i] == t && Without(Inserted(q, i, t), i) == q
  {
  }

  // ----- Order -----

  lemma CountIs(q: seq<int>, deadline: map<int, nat>, d: nat, i: nat)
    requires Known(q, deadline) && Sorted(q, deadline) && i <= |q|
    requires i > 0 ==> deadline[q[i - 1]] <= d
    requires i < |q| ==> deadline[q[i]] > d
    ensures CountUpTo(q, deadline, d) == i
  {
    hide CountUpTo;
    var k := CountUpTo(q, deadline, d);
    assert i > 0 && k < |q| ==> k >= i;
  }

  lemma {:induction false} SieveSorted(q: seq<int>, deadline: map<int, nat>, m: set<int>)
    requires Known(q, deadline) && Sorted(q, deadline)
    ensures Known(Sieve(q, m), deadline) && Sorted(Sieve(q, m), deadline)
  {
    if q != [] {
      var p := q[1..];
      assert forall i :: 0 <= i < |p| ==> p[i] == q[i + 1];
      SieveSorted(p, deadline, m);
      var w := Sieve(p, m);
      InSieve(p, m);
      forall i | 0 <= i < |w|
        ensures deadline[q[0]] <= deadline[w[i]]
      {
        assert w[i] in w;
        var j :| 0 <= j < |p| && p[j] == w[i];
      }
      var v := [q[0]] + w;
      assert forall i :: 0 < i < |v| ==> v[i] == w[i - 1];
    }
  }

  lemma {:induction false} SieveKeepsBounds(q: seq<int>, deadline: map<int, nat>, d: nat, m: set<int>)
    requires Known(q, deadline)
    ensures Known(Sieve(q, m), deadline)
    ensures (forall i :: 0 <= i < |q| ==> deadline[q[i]] <= d) ==>
            forall i :: 0 <= i < |Sieve(q, m)| ==> deadline[Sieve(q, m)[i]] <= d
    ensures (forall i :: 0 <= i < |q| ==> deadline[q[i]] > d) ==>
            forall i :: 0 <= i < |Sieve(q, m)| ==> deadline[Sieve(q, m)[i]] > d
  {
    if q != [] {
      SieveKeepsBounds(q[1..], deadline, d, m);
    }
  }

  /** Placing a timer in the bottom row by its deadline is placing it so in every row it reaches. */
  lemma SievePlaced(q: seq<int>, deadline: map<int, nat>, t: int, m: set<int>)
    requires Known(q, deadline) && Sorted(q, deadline) && t in deadline
    ensures Known(Sieve(q, m), deadline)
    ensures t !in m ==> Sieve(Placed(q, deadline, t), m) == Sieve(q, m)
    ensures t in m ==> Sieve(Placed(q, deadline, t), m) == Placed(Sieve(q, m), deadline, t)
  {
    hide Sorted, CountUpTo, Sieve;
    SieveSorted(q, deadline, m);
    var d := deadline[t];
    var k := CountUpTo(q, deadline, d);
    if t in m {
      SieveInsertedIn(q, k, t, m);
      KnownParts(q, deadline, k);
      AfterCount(q, deadline, d);
      SieveKeepsBounds(q[..k], deadline, d, m);
      SieveKeepsBounds(q[k..], deadline, d, m);
      var w, i := Sieve(q, m), |Sieve(q[..k], m)|;
      if i > 0 {
        assert w[i - 1] == w[..i][i - 1];
      }
      if i < |w| {
        assert w[i] == w[i..][0];
      }
      CountIs(w, deadline, d, i);
    } else {
      SieveInsertedOut(q, k, t, m);
    }
  }

  lemma KnownParts(q: seq<int>, deadline: map<int, nat>, k: nat)
    requires Known(q, deadline) && k <= |q|
    ensures Known(q[..k], deadline) && Known(q[k..], deadline)
  {
    assert forall i :: 0 <= i < |q[k..]| ==> q[k..][i] == q[k + i];
  }

  lemma AfterCount(q: seq<int>, deadline: map<int, nat>, d: nat)
    requires Known(q, deadline) && Sorted(q, deadline)
    ensures Known(q[CountUpTo(q, deadline, d)..], deadline)
    ensures forall i :: 0 <= i < |q[CountUpTo(q, deadline, d)..]| ==> deadline[q[CountUpTo(q, deadline, d)..][i]] > d
  {
    hide CountUpTo;
    var k := CountUpTo(q, deadline, d);
    forall i | 0 <= i < |q[k..]|
      ensures q[k..][i] in deadline && deadline[q[k..][i]] > d
    {
      assert q[k..][i] == q[k + i];
      assert deadline[q[k]] <= deadline[q[k + i]];
    }
  }

  // ----- Rings -----

  /** One row: a ring through HEAD and the row's timers; every other timer's node is detached. */
  ghost predicate RowOk(k: Links<int>, list: seq<int>, ids: set<int>) {
    && HEAD !in ids
    && Ring(k, [HEAD] + list)
    && (forall i :: 0 <= i < |list| ==> list[i] in ids)
    && (forall t :: t in ids ==> t in list || k.Detached(t))
  }

  ghost predicate Rows(rows: seq<Links<int>>, q: seq<int>, levels: seq<set<int>>, ids: set<int>) {
    && |rows| == |levels|
    && forall r :: 0 <= r < |rows| ==> RowOk(rows[r], Sieve(q, levels[r]), ids)
  }

  ghost predicate Nested(levels: seq<set<int>>, ids: set<int>) {
    && |levels| > 0 && levels[|levels| - 1] == ids
    && forall r :: 0 <= r < |levels| - 1 ==> levels[r] <= levels[r + 1]
  }

  lemma RowRemove(k: Links<int>, list: seq<int>, ids: set<int>, t: int)
    requires RowOk(k, list, ids) && t in ids
    ensures k.Has(t) && RowOk(k.Remove(t), Drop(list, t), ids)
  {
    if t in list {
      var i := PositionOf(list, t);
      var ring := [HEAD] + list;
      assert ring[i + 1] == t;
      RemoveFromRing(k, ring, i + 1);
      assert Without(ring, i + 1) == [HEAD] + Without(list, i);
      RowRemoved(k, list, ids, i);
    } else {
      assert k.Has(t);
      assert k.Remove(t) == k;
    }
  }

  lemma RowRemoved(k: Links<int>, list: seq<int>, ids: set<int>, i: nat)
    requires RowOk(k, list, ids) && i < |list| && k.Has(list[i])
    requires Ring(k.Remove(list[i]), [HEAD] + Without(list, i)) && k.Remove(list[i]).Detached(list[i])
    ensures RowOk(k.Remove(list[i]), Without(list, i), ids)
  {
    var ring := [HEAD] + list;
    RingHas(k, ring, i + 1);
    var t := list[i];
    assert ring[i + 1] == t;
    assert k.next[t] in ring && k.prev[t] in ring;
    RowRest(k, list, ids, i);
  }

  lemma RowRest(k: Links<int>, list: seq<int>, ids: set<int>, i: nat)
    requires RowOk(k, list, ids) && i < |list| && k.Has(list[i])
    requires k.next[list[i]] in [HEAD] + list && k.prev[list[i]] in [HEAD] + list
    requires k.Remove(list[i]).Detached(list[i])
    ensures forall j :: 0 <= j < |Without(list, i)| ==> Without(list, i)[j] in ids
    ensures forall x :: x in ids ==> x in Without(list, i) || k.Remove(list[i]).Detached(x)
  {
    hide Ring, Distinct;
    var t := list[i];
    var p := Without(list, i);
    assert forall j :: 0 <= j < |p| ==> p[j] == list[if j < i then j else j + 1];
    forall x | x in ids && x != t
      ensures x in p || k.Remove(t).Detached(x)
    {
      if x in list {
        var j :| 0 <= j < |list| && list[j] == x;
        assert p[if j < i then j else j - 1] == x;
      }
    }
  }

  lemma RowInsert(k: Links<int>, list: seq<int>, ids: set<int>, t: int, i: nat)
    requires RowOk(k, list, ids) && t in ids && t !in list && i <= |list|
    ensures k.Has(([HEAD] + list)[i])
    ensures RowOk(k.InsertAfter(([HEAD] + list)[i], t), Inserted(list, i, t), ids)
  {
    var ring := [HEAD] + list;
    InsertAfterInRing(k, ring, i, t);
    assert Inserted(ring, i + 1, t) == [HEAD] + Inserted(list, i, t);
    RingHas(k, ring, i);
    RowWith(k, list, ids, t, i);
  }

  lemma RowWith(k: Links<int>, list: seq<int>, ids: set<int>, t: int, i: nat)
    requires RowOk(k, list, ids) && t in ids && i <= |list| && k.Has(([HEAD] + list)[i])
    requires k.next[([HEAD] + list)[i]] in [HEAD] + list
    ensures forall j :: 0 <= j < |Inserted(list, i, t)| ==> Inserted(list, i, t)[j] in ids
    ensures forall x :: x in ids ==> x in Inserted(list, i, t) || k.InsertAfter(([HEAD] + list)[i], t).Detached(x)
  {
    hide Ring, Distinct;
    var p := Inserted(list, i, t);
    assert forall j :: 0 <= j < |p| ==> p[j] == if j < i then list[j] else if j == i then t else list[j - 1];
    var n := ([HEAD] + list)[i];
    assert n in [HEAD] + list;
    forall x | x in ids && x !in p
      ensures k.InsertAfter(n, t).Detached(x)
    {
      NotInserted(list, i, t, x);
      StillDetached(k, n, t, x);
    }
  }

  lemma NotInserted<T>(list: seq<T>, i: nat, t: T, x: T)
    requires i <= |list| && x !in Inserted(list, i, t)
    ensures x !in list && x != t
  {
    var p := Inserted(list, i, t);
    assert p[i] == t;
    assert forall j :: 0 <= j < |list| ==> list[j] == p[if j < i then j else j + 1];
  }

  lemma StillDetached(k: Links<int>, n: int, t: int, x: int)
    requires k.Has(n) && k.Detached(x) && x != n && x != t && x != k.next[n]
    ensures k.InsertAfter(n, t).Detached(x)
  {
  }
}
