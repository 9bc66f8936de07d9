/** The page allocator of slab.c: a list of free runs, first fit, coalescing on free.

  Pages are numbered from the start of the heap.
 */
module Pages {

  const NULL: int := -1

  datatype Run = Run(start: nat, len: nat) {
    function End(): nat { start + len }
    predicate Has(x: int) { start <= x < End() }
  }

  /** In address order from lo on, none empty, and a used page between any two: nothing left to coalesce. */
  ghost predicate Coalesced(rs: seq<Run>, lo: nat) {
    rs == [] || (lo <= rs[0].start && rs[0].len > 0 && Coalesced(rs[1..], rs[0].End() + 1))
  }

  /** Page x is free. */
  ghost predicate IsFree(rs: seq<Run>, x: int) {
    rs != [] && (rs[0].Has(x) || IsFree(rs[1..], x))
  }

  ghost function FreePages(rs: seq<Run>): nat {
    if rs == [] then 0 else rs[0].len + FreePages(rs[1..])
  }

  predicate Within(a: int, n: nat, x: int) { a <= x < a + n }

  /** The run list after rt_page_alloc takes n pages from the first run that has them. */
  ghost function Allocated(rs: seq<Run>, n: nat): seq<Run> {
    if rs == [] then []
    else if rs[0].len > n then [Run(rs[0].start + n, rs[0].len - n)] + rs[1..]
    else if rs[0].len == n then rs[1..]
    else [rs[0]] + Allocated(rs[1..], n)
  }

  ghost function AllocatedAt(rs: seq<Run>, n: nat): (a: int)
    ensures a >= NULL
  {
    if rs == [] then NULL else if rs[0].len >= n then rs[0].start else AllocatedAt(rs[1..], n)
  }

  ghost function Freed(rs: seq<Run>, a: nat, n: nat): seq<Run> {
    if rs == [] then [Run(a, n)]
    else if rs[0].End() == a then
      if |rs| > 1 && a + n == rs[1].start then [Run(rs[0].start, rs[0].len + n + rs[1].len)] + rs[2..]
      else [Run(rs[0].start, rs[0].len + n)] + rs[1..]
    else if rs[0].start == a + n then [Run(a, rs[0].len + n)] + rs[1..]
    else if rs[0].start > a + n then [Run(a, n)] + rs
    else [rs[0]] + Freed(rs[1..], a, n)
  }

  lemma {:induction false} FreeAbove(rs: seq<Run>, lo: nat, x: int)
    requires Coalesced(rs, lo) && IsFree(rs, x)
    ensures lo <= x
    decreases |rs|
  {
    if !rs[0].Has(x) {
      FreeAbove(rs[1..], rs[0].End() + 1, x);
    }
  }

  lemma {:induction false} CoalescedFrom(rs: seq<Run>, lo: nat, lo': nat)
    requires Coalesced(rs, lo) && lo' <= lo
    ensures Coalesced(rs, lo')
  {
  }

  lemma Cons(r: Run, rs: seq<Run>, lo: nat, x: int)
    ensures Coalesced([r] + rs, lo) <==> lo <= r.start && r.len > 0 && Coalesced(rs, r.End() + 1)
    ensures IsFree([r] + rs, x) <==> r.Has(x) || IsFree(rs, x)
    ensures FreePages([r] + rs) == r.len + FreePages(rs)
  {
    assert ([r] + rs)[1..] == rs;
  }

  // ----- Allocation -----

  /** A successful allocation takes exactly the n pages from the returned one on. */
  lemma {:induction false} AllocTakes(rs: seq<Run>, lo: nat, n: nat, x: int)
    requires Coalesced(rs, lo) && n > 0
    ensures Coalesced(Allocated(rs, n), lo)
    ensures AllocatedAt(rs, n) == NULL ==> Allocated(rs, n) == rs
    ensures AllocatedAt(rs, n) != NULL ==>
              && lo <= AllocatedAt(rs, n)
              && (Within(AllocatedAt(rs, n), n, x) ==> IsFree(rs, x))
              && (IsFree(Allocated(rs, n), x) <==> IsFree(rs, x) && !Within(AllocatedAt(rs, n), n, x))
    ensures AllocatedAt(rs, n) != NULL ==> FreePages(rs) == FreePages(Allocated(rs, n)) + n
    decreases |rs|
  {
    if rs != [] {
      var r := rs[0];
      var rest := rs[1..];
      if IsFree(rest, x) {
        FreeAbove(rest, r.End() + 1, x);
      }
      if r.len > n {
        Cons(Run(r.start + n, r.len - n), rest, lo, x);
      } else if r.len == n {
        CoalescedFrom(rest, r.End() + 1, lo);
      } else {
        AllocTakes(rest, r.End() + 1, n, x);
        Cons(r, Allocated(rest, n), lo, x);
        assert rs == [r] + rest;
      }
    }
  }

  /** n free pages in a row lie in one run, because nothing is left to coalesce. */
  lemma {:induction false} RowInRun(rs: seq<Run>, lo: nat, a: int, n: nat)
    requires Coalesced(rs, lo) && n > 0 && forall x :: Within(a, n, x) ==> IsFree(rs, x)
    ensures NULL != AllocatedAt(rs, n) <= a
    decreases |rs|
  {
    assert Within(a, n, a);
    var r := rs[0];
    var rest := rs[1..];
    if r.Has(a) {
      if a + n > r.End() {
        assert Within(a, n, r.End());
        FreeAbove(rest, r.End() + 1, r.End());
        assert false;
      }
    } else {
      FreeAbove(rest, r.End() + 1, a);
      forall x | Within(a, n, x)
        ensures IsFree(rest, x)
      {
        assert IsFree(rs, x);
      }
      RowInRun(rest, r.End() + 1, a, n);
    }
  }

  ghost predicate RowFree(rs: seq<Run>, a: int, n: nat) {
    forall x :: Within(a, n, x) ==> IsFree(rs, x)
  }

  /** Allocation of n pages takes the lowest that lie in a row. */
  lemma AllocLowest(rs: seq<Run>, lo: nat, n: nat, a: int)
    requires Coalesced(rs, lo) && n > 0 && RowFree(rs, a, n)
    ensures AllocatedAt(rs, n) <= a
  {
    RowInRun(rs, lo, a, n);
  }

  /** Allocation of n pages fails exactly when no n free pages lie in a row. */
  lemma AllocFailsIff(rs: seq<Run>, lo: nat, n: nat)
    requires Coalesced(rs, lo) && n > 0
    ensures AllocatedAt(rs, n) == NULL <==> !exists a :: RowFree(rs, a, n)
  {
    if a :| RowFree(rs, a, n) {
      RowInRun(rs, lo, a, n);
    }
    if AllocatedAt(rs, n) != NULL {
      var a := AllocatedAt(rs, n);
      forall x | Within(a, n, x)
        ensures IsFree(rs, x)
      {
        AllocTakes(rs, lo, n, x);
      }
      assert RowFree(rs, a, n);
    }
  }

  // ----- Freeing -----

  ghost predicate RowUsed(rs: seq<Run>, a: nat, n: nat) {
    forall x :: Within(a, n, x) ==> !IsFree(rs, x)
  }

  lemma UsedTail(rs: seq<Run>, a: nat, n: nat)
    requires rs != [] && RowUsed(rs, a, n)
    ensures RowUsed(rs[1..], a, n)
  {
    forall x | Within(a, n, x)
      ensures !IsFree(rs[1..], x)
    {
      assert !IsFree(rs, x);
    }
  }

  /** A used row ends before a run that does not end before it. */
  lemma UsedBefore(rs: seq<Run>, lo: nat, a: nat, n: nat)
    requires Coalesced(rs, lo) && rs != [] && RowUsed(rs, a, n) && n > 0
    ensures rs[0].End() <= a || a + n <= rs[0].start
  {
    var r := rs[0];
    if r.End() > a && a + n > r.start {
      var x := if a >= r.start then a else r.start;
      assert Within(a, n, x) && r.Has(x);
      assert IsFree(rs, x);
    }
  }

  /** Freeing returns exactly the n pages, and leaves nothing to coalesce. */
  lemma {:induction false} FreeGives(rs: seq<Run>, lo: nat, a: nat, n: nat, x: int)
    requires Coalesced(rs, lo) && n > 0 && lo <= a && RowUsed(rs, a, n)
    ensures Coalesced(Freed(rs, a, n), lo)
    ensures IsFree(Freed(rs, a, n), x) <==> IsFree(rs, x) || Within(a, n, x)
    ensures FreePages(Freed(rs, a, n)) == FreePages(rs) + n
    decreases |rs|
  {
    if rs == [] {
      Cons(Run(a, n), [], lo, x);
      assert [Run(a, n)] + [] == [Run(a, n)];
    } else {
      var r := rs[0];
      var rest := rs[1..];
      UsedBefore(rs, lo, a, n);
      UsedTail(rs, a, n);
      assert rs == [r] + rest;
      if r.End() == a {
        FreeAfterRun(rs, lo, a, n, x);
      } else if r.start == a + n {
        Cons(Run(a, r.len + n), rest, lo, x);
      } else if r.start > a + n {
        CoalescedAt(rs, lo, a + n + 1);
        Cons(Run(a, n), rs, lo, x);
      } else {
        FreeGives(rest, r.End() + 1, a, n, x);
        Cons(r, Freed(rest, a, n), lo, x);
      }
    }
  }

  lemma CoalescedAt(rs: seq<Run>, lo: nat, lo': nat)
    requires Coalesced(rs, lo) && rs != [] && lo' <= rs[0].start
    ensures Coalesced(rs, lo')
  {
  }

  lemma FreeAfterRun(rs: seq<Run>, lo: nat, a: nat, n: nat, x: int)
    requires Coalesced(rs, lo) && n > 0 && rs != [] && rs[0].End() == a && RowUsed(rs[1..], a, n)
    ensures Coalesced(Freed(rs, a, n), lo)
    ensures IsFree(Freed(rs, a, n), x) <==> IsFree(rs, x) || Within(a, n, x)
    ensures FreePages(Freed(rs, a, n)) == FreePages(rs) + n
  {
    var r := rs[0];
    var rest := rs[1..];
    if rest != [] {
      UsedBefore(rest, a + 1, a, n);
      assert rest[1..] == rs[2..];
      assert rest[0] == rs[1];
    }
    if |rs| > 1 && a + n == rs[1].start {
      Cons(Run(r.start, r.len + n + rs[1].len), rs[2..], lo, x);
    } else {
      if rest != [] {
        CoalescedAt(rest, a + 1, a + n + 1);
      }
      Cons(Run(r.start, r.len + n), rest, lo, x);
    }
  }

  // ----- The run list is determined by the set of free pages -----

  lemma {:induction false} RunsUnique(rs: seq<Run>, ts: seq<Run>, lo: nat)
    requires Coalesced(rs, lo) && Coalesced(ts, lo) && forall x :: IsFree(rs, x) <==> IsFree(ts, x)
    ensures rs == ts
    decreases |rs|
  {
    if rs == [] || ts == [] {
      if rs != [] {
        assert IsFree(rs, rs[0].start);
      }
      if ts != [] {
        assert IsFree(ts, ts[0].start);
      }
    } else {
      SameFirst(rs, ts, lo);
      var r := rs[0];
      forall x
        ensures IsFree(rs[1..], x) <==> IsFree(ts[1..], x)
      {
        Split(rs, lo, x);
        Split(ts, lo, x);
      }
      RunsUnique(rs[1..], ts[1..], r.End() + 1);
      assert rs == [r] + rs[1..] && ts == [r] + ts[1..];
    }
  }

  lemma Split(rs: seq<Run>, lo: nat, x: int)
    requires Coalesced(rs, lo) && rs != []
    ensures IsFree(rs[1..], x) <==> IsFree(rs, x) && x > rs[0].End()
  {
    if IsFree(rs[1..], x) {
      FreeAbove(rs[1..], rs[0].End() + 1, x);
    }
  }

  lemma SameFirst(rs: seq<Run>, ts: seq<Run>, lo: nat)
    requires Coalesced(rs, lo) && Coalesced(ts, lo) && rs != [] && ts != [] && forall x :: IsFree(rs, x) <==>
             IsFree(ts, x)
    ensures rs[0] == ts[0]
  {
    var r, t := rs[0], ts[0];
    assert IsFree(rs, r.start) && IsFree(ts, t.start);
    assert IsFree(ts, r.start) && IsFree(rs, t.start);
    Split(rs, lo, t.start);
    Split(ts, lo, r.start);
    Split(rs, lo, r.End());
    Split(ts, lo, t.End());
    assert IsFree(rs, r.End()) <==> IsFree(ts, r.End());
    assert IsFree(rs, t.End()) <==> IsFree(ts, t.End());
    Split(ts, lo, r.End());
    Split(rs, lo, t.End());
  }

  /** Freeing what was just allocated restores the run list itself. */
  lemma FreeUndoesAlloc(rs: seq<Run>, lo: nat, n: nat)
    requires Coalesced(rs, lo) && n > 0 && AllocatedAt(rs, n) != NULL
    ensures AllocatedAt(rs, n) >= 0 && Freed(Allocated(rs, n), AllocatedAt(rs, n), n) == rs
  {
    var a := AllocatedAt(rs, n);
    AllocTakes(rs, lo, n, a);
    forall x | Within(a, n, x)
      ensures !IsFree(Allocated(rs, n), x)
    {
      AllocTakes(rs, lo, n, x);
    }
    forall x
      ensures IsFree(Freed(Allocated(rs, n), a, n), x) <==> IsFree(rs, x)
    {
      AllocTakes(rs, lo, n, x);
      FreeGives(Allocated(rs, n), lo, a, n, x);
    }
    FreeGives(Allocated(rs, n), lo, a, n, a);
    RunsUnique(Freed(Allocated(rs, n), a, n), rs, lo);
  }

  // ----- The linked list -----

  ghost function StartOf(rs: seq<Run>, i: nat): int {
    if i < |rs| then rs[i].start else NULL
  }

  /** Each run's first page holds the link to the next run and the number of pages. */
  ghost predicate Listed(first: int, next: map<int, int>, page: map<int, nat>, rs: seq<Run>) {
    && first == StartOf(rs, 0)
    && forall i :: 0 <= i < |rs| ==>
         && rs[i].start in next && next[rs[i].start] == StartOf(rs, i + 1)
         && rs[i].start in page && page[rs[i].start] == rs[i].len
  }

  lemma {:induction false} Ascending(rs: seq<Run>, lo: nat, i: nat, j: nat)
    requires Coalesced(rs, lo) && i <= j < |rs|
    ensures i < j ==> rs[i].End() < rs[j].start
    ensures lo <= rs[i].start && rs[i].len > 0
    decreases |rs|
  {
    var rest := rs[1..];
    if i > 0 {
      Ascending(rest, rs[0].End() + 1, i - 1, j - 1);
    } else if j > 0 {
      Ascending(rest, rs[0].End() + 1, j - 1, j - 1);
    }
  }

  /** Storing into *prev, where prev is the list head or the link of run i - 1. */
  function LinkFirst(first: int, prev: int, to: int): int {
    if prev == NULL then to else first
  }

  function LinkNext(next: map<int, int>, prev: int, to: int): map<int, int> {
    if prev == NULL then next else next[prev := to]
  }

  ghost function PrevOf(rs: seq<Run>, i: nat): int
    requires i <= |rs|
  {
    if i == 0 then NULL else rs[i - 1].start
  }

  /** Runs i to j give way to one run r, written at its first page and linked from the run before. */
  lemma SpliceIn(first: int, next: map<int, int>, page: map<int, nat>, rs: seq<Run>, i: nat, j: nat, r: Run)
    requires Listed(first, next, page, rs) && Coalesced(rs, 0) && i <= j <= |rs|
    requires i > 0 ==> rs[i - 1].start < r.start
    requires j < |rs| ==> r.start < rs[j].start
    ensures Listed(LinkFirst(first, PrevOf(rs, i), r.start),
                   LinkNext(next[r.start := StartOf(rs, j)], PrevOf(rs, i), r.start),
                   page[r.start := r.len], rs[..i] + [r] + rs[j..])
  {
    hide Coalesced, Listed;
    var out := rs[..i] + [r] + rs[j..];
    var next' := LinkNext(next[r.start := StartOf(rs, j)], PrevOf(rs, i), r.start);
    var page' := page[r.start := r.len];
    forall k | 0 <= k < |out|
      ensures ListedRun(next', page', out, k)
    {
      if k < i {
        SpliceBefore(first, next, page, rs, i, j, r, k);
      } else if k > i {
        SpliceAfter(first, next, page, rs, i, j, r, k);
      } else {
        SpliceAt(first, next, page, rs, i, j, r);
      }
    }
    ListedAt(first, next, page, rs, 0);
    ListedFrom(LinkFirst(first, PrevOf(rs, i), r.start), next', page', out);
  }

  ghost predicate ListedRun(next: map<int, int>, page: map<int, nat>, rs: seq<Run>, i: nat)
    requires i < |rs|
  {
    && rs[i].start in next && next[rs[i].start] == StartOf(rs, i + 1)
    && rs[i].start in page && page[rs[i].start] == rs[i].len
  }

  lemma ListedFrom(first: int, next: map<int, int>, page: map<int, nat>, rs: seq<Run>)
    requires first == StartOf(rs, 0) && forall i :: 0 <= i < |rs| ==> ListedRun(next, page, rs, i)
    ensures Listed(first, next, page, rs)
  {
    forall i | 0 <= i < |rs|
      ensures rs[i].start in next && next[rs[i].start] == StartOf(rs, i + 1)
      ensures rs[i].start in page && page[rs[i].start] == rs[i].len
    {
      assert ListedRun(next, page, rs, i);
    }
  }

  lemma SpliceBefore(first: int, next: map<int, int>, page: map<int, nat>, rs: seq<Run>, i: nat, j: nat, r: Run, k: nat)
    requires Listed(first, next, page, rs) && Coalesced(rs, 0) && k < i <= j <= |rs| && rs[i - 1].start < r.start
    ensures ListedRun(LinkNext(next[r.start := StartOf(rs, j)], PrevOf(rs, i), r.start), page[r.start := r.len],
                      rs[..i] + [r] + rs[j..], k)
  {
    hide Coalesced, Listed;
    var out := rs[..i] + [r] + rs[j..];
    ListedAt(first, next, page, rs, k);
    Ascending(rs, 0, k, i - 1);
    assert out[k] == rs[k];
    assert k + 1 < i ==> out[k + 1] == rs[k + 1];
    assert out[i] == r;
  }

  lemma SpliceAt(first: int, next: map<int, int>, page: map<int, nat>, rs: seq<Run>, i: nat, j: nat, r: Run)
    requires Listed(first, next, page, rs) && i <= j <= |rs| && (i > 0 ==> rs[i - 1].start < r.start)
    ensures ListedRun(LinkNext(next[r.start := StartOf(rs, j)], PrevOf(rs, i), r.start), page[r.start := r.len],
                      rs[..i] + [r] + rs[j..], i)
  {
    hide Listed;
    var out := rs[..i] + [r] + rs[j..];
    assert out[i] == r;
    assert j < |rs| ==> out[i + 1] == rs[j];
  }

  lemma SpliceAfter(first: int, next: map<int, int>, page: map<int, nat>, rs: seq<Run>, i: nat, j: nat, r: Run, k: nat)
    requires Listed(first, next, page, rs) && Coalesced(rs, 0) && i <= j <= |rs| && i < k < i + 1 + |rs| - j
    requires r.start < rs[j].start
    ensures ListedRun(LinkNext(next[r.start := StartOf(rs, j)], PrevOf(rs, i), r.start), page[r.start := r.len],
                      rs[..i] + [r] + rs[j..], k)
  {
    hide Coalesced, Listed;
    var out := rs[..i] + [r] + rs[j..];
    var l := k - i - 1 + j;
    ListedAt(first, next, page, rs, l);
    Ascending(rs, 0, j, l);
    assert out[k] == rs[l];
    assert l + 1 < |rs| ==> out[k + 1] == rs[l + 1];
    if i > 0 {
      Ascending(rs, 0, i - 1, l);
    }
  }

  lemma SpliceOut(first: int, next: map<int, int>, page: map<int, nat>, rs: seq<Run>, i: nat)
    requires Listed(first, next, page, rs) && Coalesced(rs, 0) && i < |rs|
    ensures Listed(LinkFirst(first, PrevOf(rs, i), StartOf(rs, i + 1)),
                   LinkNext(next, PrevOf(rs, i), StartOf(rs, i + 1)), page, rs[..i] + rs[i + 1..])
  {
    hide Coalesced, Listed;
    var out := rs[..i] + rs[i + 1..];
    var next' := LinkNext(next, PrevOf(rs, i), StartOf(rs, i + 1));
    forall k | 0 <= k < |out|
      ensures ListedRun(next', page, out, k)
    {
      SpliceOutAt(first, next, page, rs, i, k);
    }
    ListedAt(first, next, page, rs, 0);
    ListedFrom(LinkFirst(first, PrevOf(rs, i), StartOf(rs, i + 1)), next', page, out);
  }

  lemma SpliceOutAt(first: int, next: map<int, int>, page: map<int, nat>, rs: seq<Run>, i: nat, k: nat)
    requires Listed(first, next, page, rs) && Coalesced(rs, 0) && i < |rs| && k < |rs| - 1
    ensures ListedRun(LinkNext(next, PrevOf(rs, i), StartOf(rs, i + 1)), page, rs[..i] + rs[i + 1..], k)
  {
    hide Coalesced, Listed;
    var out := rs[..i] + rs[i + 1..];
    var l := if k < i then k else k + 1;
    ListedAt(first, next, page, rs, l);
    assert out[k] == rs[l];
    assert k + 1 < |out| ==> out[k + 1] == rs[if k + 1 < i then k + 1 else k + 2];
    if k < i {
      Ascending(rs, 0, k, i - 1);
    } else if i > 0 {
      Ascending(rs, 0, i - 1, k + 1);
    }
  }

  lemma AllocStep(rs: seq<Run>, i: nat, n: nat)
    requires i < |rs|
    ensures rs[i].len > n ==> Allocated(rs[i..], n) == [Run(rs[i].start + n, rs[i].len - n)] + rs[i + 1..]
    ensures rs[i].len == n ==> Allocated(rs[i..], n) == rs[i + 1..]
    ensures rs[i].len >= n ==> AllocatedAt(rs[i..], n) == rs[i].start
    ensures rs[i].len < n ==> AllocatedAt(rs[i..], n) == AllocatedAt(rs[i + 1..], n)
    ensures rs[i].len < n ==> rs[..i] + Allocated(rs[i..], n) == rs[..i + 1] + Allocated(rs[i + 1..], n)
  {
    assert rs[i..][1..] == rs[i + 1..];
  }

  lemma FreeStep(rs: seq<Run>, i: nat, a: nat, n: nat)
    requires i <= |rs|
    ensures i == |rs| ==> Freed(rs[i..], a, n) == [Run(a, n)]
    ensures i < |rs| && rs[i].End() == a && i + 1 < |rs| && a + n == rs[i + 1].start ==>
              Freed(rs[i..], a, n) == [Run(rs[i].start, rs[i].len + n + rs[i + 1].len)] + rs[i + 2..]
    ensures i < |rs| && rs[i].End() == a && !(i + 1 < |rs| && a + n == rs[i + 1].start) ==>
              Freed(rs[i..], a, n) == [Run(rs[i].start, rs[i].len + n)] + rs[i + 1..]
    ensures i < |rs| && rs[i].End() != a && rs[i].start == a + n ==>
            Freed(rs[i..], a, n) == [Run(a, rs[i].len + n)] + rs[i + 1..]
    ensures i < |rs| && rs[i].End() != a && rs[i].start > a + n ==> Freed(rs[i..], a, n) == [Run(a, n)] + rs[i..]
    ensures i < |rs| && rs[i].End() != a && rs[i].start < a + n ==>
              rs[..i] + Freed(rs[i..], a, n) == rs[..i + 1] + Freed(rs[i + 1..], a, n)
  {
    if i < |rs| {
      assert rs[i..][1..] == rs[i + 1..];
      if i + 1 < |rs| {
        assert rs[i..][2..] == rs[i + 2..];
      }
    }
  }

  /** Walking past run i, the page to be freed lies behind it. */
  lemma {:induction false} UsedAt(rs: seq<Run>, lo: nat, i: nat, a: nat, n: nat)
    requires Coalesced(rs, lo) && i < |rs| && RowUsed(rs, a, n) && n > 0
    ensures rs[i].End() <= a || a + n <= rs[i].start
    decreases |rs|
  {
    if i == 0 {
      UsedBefore(rs, lo, a, n);
    } else {
      UsedTail(rs, a, n);
      UsedAt(rs[1..], rs[0].End() + 1, i - 1, a, n);
    }
  }

  class PageAllocator {
    var first: int                // rt_page_list
    var next: map<int, int>
    var page: map<int, nat>
    ghost var runs: seq<Run>

    ghost predicate Valid()
      reads this
    {
      Coalesced(runs, 0) && Listed(first, next, page, runs)
    }

    /** rt_page_init: the pages from a on are free. */
    constructor (a: nat, n: nat)
      requires n > 0
      ensures Valid() && runs == [Run(a, n)]
    {
      first := NULL;
      next := map[];
      page := map[];
      runs := [];
      new;
      Free(a, n);
    }

    /** The walk of rt_page_alloc to the first run of at least n pages. */
    method FindRun(n: nat) returns (prev: int, b: int, ghost i: nat)
      requires Valid()
      ensures i <= |runs| && b == StartOf(runs, i) && prev == PrevOf(runs, i)
      ensures i < |runs| ==> runs[i].len >= n
      ensures Allocated(runs, n) == runs[..i] + Allocated(runs[i..], n)
      ensures b == AllocatedAt(runs, n)
    {
      hide Coalesced, Listed, Allocated, AllocatedAt;
      i := 0;
      prev := NULL;
      b := first;
      assert runs[0..] == runs;
      ListedAt(first, next, page, runs, 0);
      while b != NULL
        invariant i <= |runs| && b == StartOf(runs, i) && prev == PrevOf(runs, i)
        invariant Allocated(runs, n) == runs[..i] + Allocated(runs[i..], n)
        invariant AllocatedAt(runs, n) == AllocatedAt(runs[i..], n)
        decreases |runs| - i
      {
        ListedAt(first, next, page, runs, i);
        AllocStep(runs, i, n);
        StartIs(runs, i);
        if page[b] >= n {
          return;
        }
        prev := b;
        b := next[b];
        i := i + 1;
      }
      AtEnd(runs, i);
      NoRuns(n);
    }

    /** rt_page_alloc. */
    method Alloc(n: nat) returns (b: int)
      requires Valid()
      modifies this
      ensures Valid()
      ensures n == 0 ==> b == NULL && runs == old(runs)
      ensures n > 0 ==> b == old(AllocatedAt(runs, n)) && runs == old(Allocated(runs, n))
    {
      hide Coalesced, Listed, Allocated, AllocatedAt;
      if n == 0 {
        return NULL;
      }
      AllocTakes(runs, 0, n, 0);
      var prev;
      ghost var i;
      prev, b, i := FindRun(n);
      AtEnd(runs, i);
      if b == NULL {
        NoRuns(n);
        return;
      }
      ListedAt(first, next, page, runs, i);
      AllocStep(runs, i, n);
      Ascending(runs, 0, i, i);
      if page[b] > n {
        NextAfter(runs, i, b + n);
        PutRun(i, i + 1, prev, b + n, page[b] - n, next[b]);
      } else {
        SpliceOut(first, next, page, runs, i);
        if prev == NULL { first := next[b]; } else { next := next[prev := next[b]]; }
        runs := runs[..i] + runs[i + 1..];
      }
      assert runs == old(Allocated(runs, n));
    }

    /** The walk of rt_page_free to the run that touches the freed pages, or to the first one behind them. */
    method FindPlace(a: nat, n: nat) returns (prev: int, b: int, ghost i: nat)
      requires Valid() && n > 0 && RowUsed(runs, a, n)
      ensures i <= |runs| && b == StartOf(runs, i) && prev == PrevOf(runs, i)
      ensures i < |runs| ==> runs[i].End() == a || a + n <= runs[i].start
      ensures i > 0 ==> runs[i - 1].End() < a
      ensures Freed(runs, a, n) == runs[..i] + Freed(runs[i..], a, n)
    {
      hide Coalesced, Listed, Freed;
      i := 0;
      prev := NULL;
      b := first;
      assert runs[0..] == runs;
      ListedAt(first, next, page, runs, 0);
      while b != NULL
        invariant i <= |runs| && b == StartOf(runs, i) && prev == PrevOf(runs, i)
        invariant i > 0 ==> runs[i - 1].End() < a
        invariant Freed(runs, a, n) == runs[..i] + Freed(runs[i..], a, n)
        decreases |runs| - i
      {
        ListedAt(first, next, page, runs, i);
        FreeStep(runs, i, a, n);
        UsedAt(runs, 0, i, a, n);
        if b + page[b] == a || b >= a + n {
          return;
        }
        prev := b;
        b := next[b];
        i := i + 1;
      }
    }

    /** rt_page_free; the pages must not be free already. */
    method Free(a: nat, n: nat)
      requires Valid() && n > 0 && RowUsed(runs, a, n)
      modifies this
      ensures Valid() && runs == old(Freed(runs, a, n))
    {
      hide Coalesced, Listed, Freed;
      FreeGives(runs, 0, a, n, 0);
      ghost var rs := runs;
      var prev, b;
      ghost var i;
      prev, b, i := FindPlace(a, n);
      AtEnd(runs, i);
      FreeStep(runs, i, a, n);
      ListedAt(first, next, page, runs, i);
      if b != NULL && b + page[b] == a {
        MergeBack(i, b, a, n);
      } else if b != NULL && b == a + n {
        BeforeRun(runs, i, a, n);
        PutRun(i, i + 1, prev, a, page[b] + n, next[b]);
      } else {
        PutRun(i, i, prev, a, n, b);
      }
      assert runs == Freed(rs, a, n);
    }

    /** Writes a run head at page a and links it from *prev, in the place of runs i to j. */
    method PutRun(ghost i: nat, ghost j: nat, prev: int, a: nat, n: nat, to: int)
      requires Valid() && i <= j <= |runs| && prev == PrevOf(runs, i) && to == StartOf(runs, j)
      requires i > 0 ==> runs[i - 1].start < a
      requires j < |runs| ==> a < runs[j].start
      modifies this
      ensures Listed(first, next, page, runs) && runs == old(runs[..i] + [Run(a, n)] + runs[j..])
    {
      hide Coalesced, Listed;
      SpliceIn(first, next, page, runs, i, j, Run(a, n));
      page := page[a := n];
      next := next[a := to];
      if prev == NULL { first := a; } else { next := next[prev := a]; }
      runs := runs[..i] + [Run(a, n)] + runs[j..];
    }

    /** The freed pages follow run i: extend it, and join the next run when they meet. */
    method MergeBack(ghost i: nat, b: int, a: nat, n: nat)
      requires Valid() && n > 0 && RowUsed(runs, a, n)
      requires i < |runs| && b == runs[i].start && runs[i].End() == a
      modifies this
      ensures Listed(first, next, page, runs) && runs == old(runs[..i] + Freed(runs[i..], a, n))
    {
      hide Coalesced, Listed, Freed;
      ghost var rs := runs;
      ListedAt(first, next, page, rs, i);
      ListedAt(first, next, page, rs, i + 1);
      FreeStep(rs, i, a, n);
      Behind(rs, i, b);
      StartIs(rs, i + 1);
      var pages := page[b] + n;
      if b + pages == next[b] {
        SpliceIn(first, next, page, rs, i, i + 2, Run(b, pages + page[next[b]]));
        PrevLink(first, next, page, rs, i, StartOf(rs, i + 2));
        page := page[b := pages];
        page := page[b := page[b] + page[next[b]]];
        assert page == old(page)[b := pages + old(page[next[b]])];
        next := next[b := next[next[b]]];
        runs := rs[..i] + [Run(b, page[b])] + rs[i + 2..];
      } else {
        SpliceIn(first, next, page, rs, i, i + 1, Run(b, pages));
        PrevLink(first, next, page, rs, i, StartOf(rs, i + 1));
        page := page[b := pages];
        runs := rs[..i] + [Run(b, page[b])] + rs[i + 1..];
      }
      assert runs == old(runs[..i] + Freed(runs[i..], a, n));
    }
  }

  lemma StartIs(rs: seq<Run>, i: nat)
    ensures StartOf(rs, i) >= 0 ==> i < |rs|
    ensures i < |rs| ==> StartOf(rs, i) == rs[i].start
  {
  }

  /** The link to run i already names it. */
  lemma PrevLink(first: int, next: map<int, int>, page: map<int, nat>, rs: seq<Run>, i: nat, to: int)
    requires Listed(first, next, page, rs) && Coalesced(rs, 0) && i < |rs|
    ensures LinkFirst(first, PrevOf(rs, i), rs[i].start) == first
    ensures LinkNext(next[rs[i].start := to], PrevOf(rs, i), rs[i].start) == next[rs[i].start := to]
    ensures next[rs[i].start := StartOf(rs, i + 1)] == next
  {
    hide Coalesced;
    if i > 0 {
      Ascending(rs, 0, i - 1, i);
      assert next[rs[i - 1].start] == StartOf(rs, i);
    }
    assert next[rs[i].start] == StartOf(rs, i + 1);
  }

  lemma ListedAt(first: int, next: map<int, int>, page: map<int, nat>, rs: seq<Run>, i: nat)
    requires Listed(first, next, page, rs)
    ensures first == StartOf(rs, 0)
    ensures i < |rs| ==>
              && rs[i].start in next && next[rs[i].start] == StartOf(rs, i + 1)
              && rs[i].start in page && page[rs[i].start] == rs[i].len
  {
  }

  lemma NextAfter(rs: seq<Run>, i: nat, m: nat)
    requires Coalesced(rs, 0) && i < |rs| && rs[i].start <= m < rs[i].End()
    ensures i > 0 ==> rs[i - 1].start < m
    ensures i + 1 < |rs| ==> m < rs[i + 1].start
  {
    hide Coalesced;
    if i > 0 {
      Ascending(rs, 0, i - 1, i);
    }
    if i + 1 < |rs| {
      Ascending(rs, 0, i, i + 1);
    }
  }

  lemma BeforeRun(rs: seq<Run>, i: nat, a: nat, n: nat)
    requires Coalesced(rs, 0) && i < |rs| && rs[i].start == a + n
    ensures i + 1 < |rs| ==> a < rs[i + 1].start
  {
    hide Coalesced;
    if i + 1 < |rs| {
      Ascending(rs, 0, i, i + 1);
    }
  }

  lemma Behind(rs: seq<Run>, i: nat, b: int)
    requires Coalesced(rs, 0) && i < |rs| && b == rs[i].start
    ensures i > 0 ==> rs[i - 1].start < b
    ensures i + 1 < |rs| ==> b < rs[i + 1].start
    ensures i + 2 < |rs| ==> b < rs[i + 2].start
  {
    hide Coalesced;
    Ascending(rs, 0, i, i);
    NextAfter(rs, i, b);
    if i + 2 < |rs| {
      Ascending(rs, 0, i, i + 2);
    }
  }

  lemma AtEnd(rs: seq<Run>, i: nat)
    requires i <= |rs|
    ensures StartOf(rs, i) == NULL <==> i == |rs|
    ensures i == |rs| ==> rs[i..] == [] && rs[..i] == rs
  {
  }

  lemma NoRuns(n: nat)
    ensures Allocated([], n) == [] && AllocatedAt([], n) == NULL
  {
  }
}
