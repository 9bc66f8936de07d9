/** slab.c: what a caller gets: how much, when NULL, and what else changes. */
module SlabAnswers {
  import opened RtList
  import opened Pages
  import opened SlabSpec
  import opened SlabAlign

  // ----- How much -----

  /** Rounding to a chunk size wastes less than 8 bytes, or less than an eighth of the request. */
  lemma RoundsClosely(n: nat)
    requires 0 < n < 16384
    ensures n <= ZoneIndex(n).1 && (ZoneIndex(n).1 - n < 8 || (ZoneIndex(n).1 - n) * 8 < n)
  {
    if n < 128 { UpToIs(n, 8); }
    else if n < 256 { UpToIs(n, 16); }
    else if n < 512 { UpToIs(n, 32); }
    else if n < 1024 { UpToIs(n, 64); }
    else if n < 2048 { UpToIs(n, 128); }
    else if n < 4096 { UpToIs(n, 256); }
    else if n < 8192 { UpToIs(n, 512); }
    else { UpToIs(n, 1024); }
  }

  /** Requests from zone_limit on get whole pages, less than one page too much; smaller ones get a chunk. */
  lemma MallocFits(c: Config, s: Slab, n: nat)
    requires SlabOk(c, s) && Malloc(c, s, n).1 != None
    ensures var r := Malloc(c, s, n);
            && Live(r.0, r.1) && (r.1.Large? <==> n >= c.Limit())
            && (r.1.Large? ==> n <= Len(r.0, r.1) < n + PAGE && Len(r.0, r.1) % PAGE == 0)
            && (r.1.Small? ==> 0 < n < 16384 && Len(r.0, r.1) == ZoneIndex(n).1)
  {
    hide SlabOk, UpTo, FromZone, Opened, AllocatedAt, Allocated, ZoneIndex, SizeOf, LiveChunk, Kept;
    MallocGives(c, s, n, None);
    MallocKind(c, s, n);
    if n >= c.Limit() {
      UpToIs(n, PAGE);
    } else {
      SmallLen(c, s, n);
    }
  }

  lemma MallocKind(c: Config, s: Slab, n: nat)
    requires SlabOk(c, s) && Malloc(c, s, n).1 != None
    ensures n > 0 && (Malloc(c, s, n).1.Large? <==> n >= c.Limit())
    ensures n >= c.Limit() ==> Malloc(c, s, n).1.page in Malloc(c, s, n).0.large
                               && Malloc(c, s, n).0.large[Malloc(c, s, n).1.page] == UpTo(n, PAGE) / PAGE
  {
    hide OwnedOk, ListOk, ZoneOk, Distinct, UpTo, ChunkTaken, NewZone, Allocated, AllocatedAt, ZoneIndex, SizeOf;
  }

  // ----- Which chunk -----

  /** A chunk comes from the first zone listed for its size: the next one never used, and when all have been used the
      one given back last. */
  lemma NextChunk(c: Config, s: Slab, n: nat)
    requires SlabOk(c, s) && 0 < n < c.Limit() && ZoneIndex(n).0 < |s.lists| && s.lists[ZoneIndex(n).0] != []
    ensures var a := s.lists[ZoneIndex(n).0][0];
            && a in s.zones
            && var z := s.zones[a];
               Malloc(c, s, n).1 == Small(a, if z.uindex + 1 < z.nmax then z.uindex + 1
                                             else if z.free != [] then z.free[0] else 0)
               && (z.uindex + 1 >= z.nmax ==> z.free != [])
  {
    hide ListOk, Distinct, OwnedOk, KindsOk, ZoneIndex, SizeOf;
    HeadZone(c, s, ZoneIndex(n).0);
    ZoneAt(c, s.zones, s.lists[ZoneIndex(n).0][0]);
  }

  /** a is the first zone listed for index i. */
  ghost predicate Heads(s: Slab, a: nat, i: nat) {
    i < |s.lists| && s.lists[i] != [] && s.lists[i][0] == a
  }

  /** A chunk given back to a zone that was full, or to the first listed one, is the next to be given out when no chunk
      of the zone was never used; everything but max_mem is then as it was. */
  lemma LastFreedFirst(c: Config, s: Slab, a: nat, k: int, n: nat)
    requires SlabOk(c, s) && Live(s, Small(a, k)) && a in Free(c, s, Small(a, k)).zones
    requires s.zones[a].uindex + 1 == s.zones[a].nmax && 0 < n < c.Limit() && ZoneIndex(n).0 == s.zones[a].index
    requires s.zones[a].nfree == 0 || Heads(s, a, s.zones[a].index)
    ensures var t := Free(c, s, Small(a, k));
            && SlabOk(c, t) && Malloc(c, t, n).1 == Small(a, k)
            && Malloc(c, t, n).0 == s.(peak := Malloc(c, t, n).0.peak)
  {
    hide SlabOk, Live, ZoneIndex, FromZone;
    FreeKeeps(c, s, Small(a, k));
    FreeStays(c, s, a, k);
    TakenBack(c, s, a, k);
    SlabLimit(c, s);
  }

  lemma SlabLimit(c: Config, s: Slab)
    requires SlabOk(c, s)
    ensures c.Ok()
  {
    hide ListOk, Distinct, OwnedOk, KindsOk, ZoneOk;
  }

  /** A chunk whose zone is not given up is just returned to the zone. */
  lemma FreeStays(c: Config, s: Slab, a: nat, k: int)
    requires SlabOk(c, s) && Live(s, Small(a, k)) && a in Free(c, s, Small(a, k)).zones
    ensures s.zones[a].index < |s.lists| == NZONES && Free(c, s, Small(a, k)) == Returned(s, a, k)
  {
    hide ListOk, Distinct, OwnedOk, KindsOk, ZoneOk, Drop, Freed, ChunkGiven;
    ZoneAt(c, s.zones, a);
    ZoneIndexOk(c, a, s.zones[a]);
  }

  lemma TakenBack(c: Config, s: Slab, a: nat, k: int)
    requires SlabOk(c, s) && Live(s, Small(a, k)) && s.zones[a].index < |s.lists|
    requires s.zones[a].uindex + 1 == s.zones[a].nmax && (s.zones[a].nfree == 0 || Heads(s, a, s.zones[a].index))
    ensures var t, i := Returned(s, a, k), s.zones[a].index;
            && Heads(t, a, i) && a in t.zones && t.zones[a].nfree > 0
            && FromZone(t, i).1 == Small(a, k) && FromZone(t, i).0 == s.(peak := FromZone(t, i).0.peak)
  {
    hide SlabOk, ZoneOk;
    var z := s.zones[a];
    ZoneNatural(c, s, a);
    assert ([k] + z.free)[1..] == z.free;
    assert ChunkTaken(ChunkGiven(z, k)) == (z, k);
    assert s.zones[a := ChunkGiven(z, k)][a := z] == s.zones;
    var list := s.lists[z.index];
    assert ([a] + list)[1..] == list;
    assert s.lists[z.index := [a] + list][z.index := list] == s.lists;
  }

  lemma ZoneNatural(c: Config, s: Slab, a: nat)
    requires SlabOk(c, s) && a in s.zones
    ensures s.zones[a].nfree >= 0
  {
    hide ListOk, Distinct, OwnedOk, KindsOk, SizeOf, Capacity, Offset;
    ZoneAt(c, s.zones, a);
  }

  // ----- When NULL -----

  /** Nothing is asked for; or there is no row of pages for it; or, for a chunk, also no cached zone and no
      zone of its size with a chunk left. */
  ghost predicate CannotServe(c: Config, s: Slab, n: nat) {
    || n == 0
    || (n >= c.Limit() && !exists a :: RowFree(s.runs, a, UpTo(n, PAGE) / PAGE))
    || (0 < n < c.Limit() && s.cached == []
        && (forall a :: a in s.zones && s.zones[a].size == ZoneIndex(n).1 ==> s.zones[a].nfree == 0)
        && !exists a :: RowFree(s.runs, a, c.Pages()))
  }

  /** The same allocation exactly for a chunk that already has the size of the request's class; None, and
      nothing done, exactly when it is not and the request cannot be served; otherwise a new one. */
  lemma ReallocAnswers(c: Config, s: Slab, x: Alloc, n: nat)
    requires SlabOk(c, s) && Live(s, x) && n > 0
    ensures var r := Realloc(c, s, x, n);
            var stays := x.Small? && Len(s, x) == ZoneIndex(n).1;
            && (r.1 == x <==> stays) && (r.1 == x ==> r.0 == s)
            && (r.1 == None <==> !stays && CannotServe(c, s, if x.Small? then ZoneIndex(n).1 else n))
            && (r.1 == None ==> r.0 == s)
            && (r.1 != x && r.1 != None ==> !Live(s, r.1))
  {
    hide SlabOk, Malloc, Free, Live, ZoneIndex, Kept, CannotServe;
    var m := if x.Small? then ZoneIndex(n).1 else n;
    MallocFailsIff(c, s, m);
    MallocGives(c, s, m, x);
    CannotServeIs(c, s, m);
    LiveSize(s, x);
  }

  lemma CannotServeIs(c: Config, s: Slab, n: nat)
    requires SlabOk(c, s)
    ensures CannotServe(c, s, n) <==> Malloc(c, s, n).1 == None
  {
    hide SlabOk, Malloc, UpTo, ZoneIndex, RowFree;
    MallocFailsIff(c, s, n);
  }

  lemma LiveSize(s: Slab, x: Alloc)
    requires Live(s, x)
    ensures x != None && (x.Small? ==> x.zone in s.zones && Len(s, x) == s.zones[x.zone].size)
  {
  }

  // ----- What else -----

  /** After rt_realloc exactly these are live: all others as before, and what it returned. */
  lemma ReallocLive(c: Config, s: Slab, x: Alloc, n: nat, y: Alloc)
    requires SlabOk(c, s) && Live(s, x) && n > 0
    ensures var r := Realloc(c, s, x, n);
            && (r.1 != None ==> (Live(r.0, y) <==> (Live(s, y) && y != x) || y == r.1))
            && (r.1 == None ==> (Live(r.0, y) <==> Live(s, y)))
  {
    hide SlabOk, Malloc, Free, Live, ZoneIndex, Kept;
    NotNone(s, x);
    MovedLive(c, s, x, n, y);
    MovedLive(c, s, x, ZoneIndex(n).1, y);
  }

  lemma MovedLive(c: Config, s: Slab, x: Alloc, n: nat, y: Alloc)
    requires SlabOk(c, s) && Live(s, x)
    ensures var r := Moved(c, s, x, n);
            && (r.1 != None ==> (Live(r.0, y) <==> (Live(s, y) && y != x) || y == r.1))
            && (r.1 == None ==> r.0 == s)
  {
    hide SlabOk, Malloc, Free, Live, Kept;
    MallocKeeps(c, s, n);
    MallocGives(c, s, n, x);
    MallocGives(c, s, n, y);
    NotNone(s, x);
    var r := Malloc(c, s, n);
    if r.1 != None {
      FreeTakes(c, r.0, x, y);
    }
  }

  /** Asked for no bytes, rt_realloc frees; given no pointer, it allocates. */
  lemma ReallocEnds(c: Config, s: Slab, x: Alloc, n: nat, y: Alloc)
    requires SlabOk(c, s) && (x != None ==> Live(s, x)) && (x == None || n == 0)
    ensures var r := Realloc(c, s, x, n);
            && (x != None ==> r.1 == None && (Live(r.0, y) <==> Live(s, y) && y != x) && (y != x ==> Kept(s, r.0, y)))
            && (x == None ==> (r.1 == None <==> CannotServe(c, s, n)) && (r.1 == None ==> r.0 == s)
                              && (r.1 != None ==> !Live(s, r.1) && Live(r.0, r.1) && Len(r.0, r.1) >= n)
                              && (Live(r.0, y) <==> Live(s, y) || (y == r.1 && y != None)) && Kept(s, r.0, y))
  {
    hide SlabOk, Malloc, Free, Live, Kept, CannotServe, Len;
    if x == None {
      MallocGives(c, s, n, y);
      CannotServeIs(c, s, n);
    } else {
      FreeTakes(c, s, x, y);
    }
  }

  // ----- Which zones are given up -----

  /** Another zone of a's index has a free chunk. */
  ghost predicate AnotherFree(s: Slab, a: nat)
    requires a in s.zones
  {
    exists b :: b in s.zones && b != a && s.zones[b].index == s.zones[a].index && s.zones[b].nfree > 0
  }

  /** A free chunk's zone is given up exactly when no other chunk of it is live and another zone of its
      index has a free chunk: to the cache while that has room, and else back to the free pages. */
  lemma GivenUpIff(c: Config, s: Slab, a: nat, k: int)
    requires SlabOk(c, s) && Live(s, Small(a, k))
    ensures a in s.zones
    ensures var t := Free(c, s, Small(a, k));
            && (a !in t.zones <==> (forall j :: LiveChunk(s.zones[a], j) ==> j == k) && AnotherFree(s, a))
            && (a !in t.zones && |s.cached| < ZONE_RELEASE_THRESH ==> t.cached == [a] + s.cached && t.owned == s.owned)
            && (a !in t.zones && |s.cached| >= ZONE_RELEASE_THRESH ==>
                  t.cached == s.cached && a !in t.owned && RowFree(t.runs, a, c.Pages()))
            && (a in t.zones ==> t.cached == s.cached && t.owned == s.owned && t.runs == s.runs)
  {
    hide ListOk, ZoneOk, Distinct, OwnedOk, KindsOk, LiveChunk, Freed, Drop, ChunkGiven, AnotherFree;
    ZoneAt(c, s.zones, a);
    GivenIs(s.zones[a], k);
    ZoneIndexOk(c, a, s.zones[a]);
    LastChunk(c, a, s.zones[a], k);
    OthersListed(s, a, s.zones[a].index);
    PagesBack(c, s, a);
    GivenCount(s.zones[a], k);
  }

  lemma GivenCount(z: Zone, k: int)
    ensures ChunkGiven(z, k).nfree == z.nfree + 1
  {
  }

  lemma LastChunk(c: Config, a: nat, z: Zone, k: int)
    requires ZoneOk(c, a, z) && LiveChunk(z, k)
    ensures ChunkGiven(z, k).nfree == z.nmax <==> forall j :: LiveChunk(z, j) ==> j == k
  {
    hide LiveChunk, Distinct;
    ChunkGivenKeeps(c, a, z, k, k);
    var y := ChunkGiven(z, k);
    GivenIs(z, k);
    if y.nfree == z.nmax {
      forall j | LiveChunk(z, j)
        ensures j == k
      {
        ChunkGivenKeeps(c, a, z, k, j);
        WhollyFree(c, a, y, j);
      }
    } else {
      var j := SomeLive(c, a, y);
      ChunkGivenKeeps(c, a, z, k, j);
    }
  }

  /** A zone that is not wholly free has a live chunk. */
  lemma SomeLive(c: Config, a: nat, z: Zone) returns (k: int)
    requires ZoneOk(c, a, z) && z.nfree != z.nmax
    ensures LiveChunk(z, k)
  {
    ChunksSplit(c, a, z);
    var live := set k | 0 <= k <= z.uindex && k !in z.free;
    assert |live| != 0;
    k :| k in live;
  }

  lemma OthersListed(s: Slab, a: nat, i: nat)
    requires a in s.zones && s.zones[a].index == i < NZONES && ListsOk(s.zones, s.lists)
    ensures (if s.zones[a].nfree == 0 then [a] + s.lists[i] else s.lists[i]) != [a] <==> AnotherFree(s, a)
  {
    assert ListOk(s.zones, s.lists[i], i);
    var list := s.lists[i];
    if b :| b in s.zones && b != a && s.zones[b].index == i && s.zones[b].nfree > 0 {
      assert b in list;
    }
    if s.zones[a].nfree == 0 {
      if list != [] {
        assert list[0] in list && list[0] != a;
      }
    } else if list != [a] {
      assert a in list;
      var j := if list[0] == a then 1 else 0;
      assert list[j] in list && list[j] != a;
    }
  }

  lemma PagesBack(c: Config, s: Slab, a: nat)
    requires SlabOk(c, s) && a in s.zones
    ensures RowFree(Freed(s.runs, a, c.Pages()), a, c.Pages())
  {
    hide ListOk, ZoneOk, Distinct, OwnersApart;
    forall x | Within(a, c.Pages(), x)
      ensures IsFree(Freed(s.runs, a, c.Pages()), x)
    {
      FreeGives(s.runs, 0, a, c.Pages(), x);
    }
  }
}
