/** slab.c: which allocations of power-of-2 size are aligned to their size, as its API comment asks of all. */
module SlabAlign {
  import opened RtList
  import opened Pages
  import opened SlabSpec

  lemma {:induction false} PowerDivides(n: nat, m: nat)
    requires IsPower2(n) && IsPower2(m) && n <= m
    ensures m % n == 0
    decreases m
  {
    if n == 1 {
    } else {
      PowerDivides(n / 2, m / 2);
      var q := (m / 2) / (n / 2);
      assert m / 2 == q * (n / 2);
      assert m == q * n by {
        assert n == 2 * (n / 2) && m == 2 * (m / 2);
      }
      DivMul(q, n);
    }
  }

  lemma AddMultiple(x: nat, q: nat, n: nat)
    requires n > 0
    ensures (x + q * n) % n == x % n
  {
    var d, r := x / n, x % n;
    Quotient(x, n);
    assert (d + q) * n == d * n + q * n;
    DivIs(x + q * n, n, d + q, r);
  }

  lemma UpToItself(n: nat, k: nat)
    requires IsPower2(n) && IsPower2(k) && k <= n
    ensures UpTo(n, k) == n
  {
    PowerDivides(k, n);
    UpToIs(n, k);
  }

  lemma Powers()
    ensures IsPower2(8) && IsPower2(16) && IsPower2(32) && IsPower2(64)
    ensures IsPower2(128) && IsPower2(256) && IsPower2(512) && IsPower2(1024)
    ensures IsPower2(2048) && IsPower2(4096) && IsPower2(8192)
  {
    assert IsPower2(2) && IsPower2(4);
  }

  /** zoneindex leaves a power of 2 of at least one chunk unit as it is. */
  lemma PowerKept(n: nat)
    requires IsPower2(n) && 8 <= n < 16384
    ensures ZoneIndex(n).1 == n
  {
    hide IsPower2, UpTo;
    Powers();
    UpToItself(n, 8);
    if n >= 128 { UpToItself(n, 16); }
    if n >= 256 { UpToItself(n, 32); }
    if n >= 512 { UpToItself(n, 64); }
    if n >= 1024 { UpToItself(n, 128); }
    if n >= 2048 { UpToItself(n, 256); }
    if n >= 4096 { UpToItself(n, 512); }
    if n >= 8192 { UpToItself(n, 1024); }
  }

  lemma BaseIs(c: Config, a: nat, z: Zone)
    requires ZoneOk(c, a, z) && IsPower2(z.size)
    ensures z.size > 0 && z.base == a * PAGE + UpTo(ZONE_HEADER, z.size)
  {
    hide Distinct, Capacity;
  }

  /** A chunk of power-of-2 size is aligned to it exactly when its zone is. */
  lemma ChunkAlignedIff(c: Config, a: nat, z: Zone, k: nat)
    requires ZoneOk(c, a, z) && IsPower2(z.size)
    ensures z.size > 0 && (z.base + k * z.size) % z.size == a * PAGE % z.size
  {
    hide ZoneOk, IsPower2, UpTo;
    BaseIs(c, a, z);
    UpToIs(ZONE_HEADER, z.size);
    var q := UpTo(ZONE_HEADER, z.size) / z.size;
    Multiples(a * PAGE, UpTo(ZONE_HEADER, z.size), q, k, z.size);
  }

  lemma Multiples(x: nat, y: nat, q: nat, k: nat, n: nat)
    requires n > 0 && q * n == y
    ensures (x + y + k * n) % n == x % n
  {
    assert x + y + k * n == x + (q + k) * n;
    AddMultiple(x, q + k, n);
  }

  lemma DividesDivides(x: nat, m: nat, n: nat)
    requires n > 0 && m > 0 && m % n == 0
    ensures x % m % n == x % n
  {
    var d, q, r := m / n, x / m, x % m;
    Quotient(m, n);
    Quotient(x, m);
    Regroup(q, d, n);
    assert x == r + (q * d) * n;
    AddMultiple(r, q * d, n);
  }

  lemma Quotient(x: nat, n: nat)
    requires n > 0
    ensures x == x / n * n + x % n
  {
  }

  lemma Regroup(q: nat, d: nat, n: nat)
    ensures q * (d * n) == (q * d) * n
  {
  }

  /** Below one page every zone is aligned enough. */
  lemma PageAligned(a: nat, n: nat)
    requires IsPower2(n) && n <= PAGE
    ensures a * PAGE % n == 0
  {
    Powers();
    PowerDivides(n, PAGE);
    DivMul(a, PAGE);
    DividesDivides(a * PAGE, PAGE, n);
  }

  /** The page from which the next request of n bytes is served, or NULL: the first fitting free run for
      whole pages; else the first zone of the size, the first cached zone, or a new zone. */
  ghost function SourcePage(c: Config, s: Slab, n: nat): int
    requires SlabOk(c, s) && n > 0
  {
    if n >= c.Limit() then AllocatedAt(s.runs, UpTo(n, PAGE) / PAGE)
    else
      SmallIndex(c, n);
      var zones := s.lists[ZoneIndex(n).0];
      if zones != [] then zones[0] else if s.cached != [] then s.cached[0] else AllocatedAt(s.runs, c.Pages())
  }

  lemma ServedFrom(c: Config, s: Slab, n: nat)
    requires SlabOk(c, s) && n > 0
    ensures Malloc(c, s, n).1 == None <==> SourcePage(c, s, n) == NULL
    ensures Malloc(c, s, n).1 != None ==> OwnerOf(Malloc(c, s, n).1) == SourcePage(c, s, n)
  {
    hide OwnedOk, ListOk, ZoneOk, Distinct, ChunkTaken, NewZone, Charged, UpTo, Allocated, AllocatedAt, ZoneIndex,
      SizeOf, LiveChunk;
    if n < c.Limit() {
      SmallIndex(c, n);
      var i := ZoneIndex(n).0;
      if s.lists[i] != [] {
        HeadZone(c, s, i);
      } else if s.cached != [] {
        CachedPage(c, s);
      }
    }
  }

  /** With heap_start at a page boundary, a request of n bytes, n a power of 2, is answered at a multiple
      of n exactly when the page it is served from begins at one; up to the page size it always is. */
  lemma PowerAlignedIff(c: Config, s: Slab, n: nat, start: nat)
    requires SlabOk(c, s) && IsPower2(n) && start % PAGE == 0 && SourcePage(c, s, n) != NULL
    ensures var r := Malloc(c, s, n);
            && Live(r.0, r.1)
            && ((start + Ptr(r.0, r.1)) % n == 0 <==> (start + SourcePage(c, s, n) * PAGE) % n == 0)
            && (n <= PAGE ==> (start + Ptr(r.0, r.1)) % n == 0)
  {
    hide SlabOk, Malloc, SourcePage, ZoneOk;
    var r := Malloc(c, s, n);
    ServedFrom(c, s, n);
    MallocKeeps(c, s, n);
    MallocGives(c, s, n, None);
    var a := OwnerOf(r.1);
    assert start + a * PAGE == (start / PAGE + a) * PAGE;
    if n <= PAGE {
      PageAligned(start / PAGE + a, n);
    }
    if r.1.Small? {
      SmallSize(c, s, n);
      ChunkApart(c, a, r.0.zones[a], r.1.chunk, n, start);
    }
  }

  lemma PowerPositive(n: nat)
    requires IsPower2(n)
    ensures n > 0
  {
  }

  /** A chunk lies a multiple of n behind its zone's first page. */
  lemma ChunkApart(c: Config, a: nat, z: Zone, k: nat, n: nat, start: nat)
    requires ZoneOk(c, a, z) && IsPower2(n) && IsPower2(z.size) && z.size == if n < 8 then 8 else n
    ensures (start + z.base + k * z.size) % n == (start + a * PAGE) % n
  {
    hide ZoneOk, IsPower2, UpTo;
    BaseIs(c, a, z);
    UpToIs(ZONE_HEADER, z.size);
    var q := UpTo(ZONE_HEADER, z.size) / z.size;
    Multiples(start + a * PAGE, UpTo(ZONE_HEADER, z.size), q, k, z.size);
    if n < 8 {
      Powers();
      PowerPositive(n);
      PowerDivides(n, 8);
      DividesDivides(start + z.base + k * z.size, 8, n);
      DividesDivides(start + a * PAGE, 8, n);
    }
  }

  /** The chunk a power of 2 gets has that size, or 8 bytes. */
  lemma SmallSize(c: Config, s: Slab, n: nat)
    requires SlabOk(c, s) && IsPower2(n) && Malloc(c, s, n).1.Small?
    ensures var r := Malloc(c, s, n);
            && r.1.zone in r.0.zones && r.1.chunk >= 0 && r.1.zone >= 0
            && ZoneOk(c, r.1.zone, r.0.zones[r.1.zone])
            && IsPower2(r.0.zones[r.1.zone].size)
            && r.0.zones[r.1.zone].size == if n < 8 then 8 else n
  {
    hide SlabOk, Malloc, IsPower2, ZoneIndex, Kept;
    SmallLen(c, s, n);
    var r := Malloc(c, s, n);
    MallocKeeps(c, s, n);
    MallocGives(c, s, n, None);
    LiveZone(c, r.0, r.1);
    SizeKept(n);
  }

  /** A small allocation gets the chunk size of its request. */
  lemma SmallLen(c: Config, s: Slab, n: nat)
    requires SlabOk(c, s) && Malloc(c, s, n).1.Small?
    ensures var r := Malloc(c, s, n); Live(r.0, r.1) && 0 < n < 16384 && Len(r.0, r.1) == ZoneIndex(n).1
  {
    hide OwnedOk, ListOk, ZoneOk, Distinct, FromZone, Opened, UpTo, AllocatedAt, Allocated, ZoneIndex, SizeOf,
      LiveChunk, Kept;
    SmallIndex(c, n);
    var i := ZoneIndex(n).0;
    if s.lists[i] != [] {
      FromZoneGives(c, s, i, None);
    } else if s.cached != [] {
      CachedPage(c, s);
      OpenedGives(c, s.(cached := s.cached[1..]), s.cached[0], i, None);
    } else {
      FreshKinds(c, s, i);
      OpenedGives(c, WithPages(s, c.Pages()), AllocatedAt(s.runs, c.Pages()), i, None);
    }
  }

  lemma LiveZone(c: Config, s: Slab, x: Alloc)
    requires SlabOk(c, s) && x.Small? && Live(s, x)
    ensures x.zone in s.zones && x.chunk >= 0 && ZoneOk(c, x.zone, s.zones[x.zone])
  {
    hide ZoneOk, KindsOk, OwnedOk, ListsOk;
  }

  lemma SizeKept(n: nat)
    requires IsPower2(n) && n < 16384
    ensures ZoneIndex(n).1 == (if n < 8 then 8 else n) && IsPower2(ZoneIndex(n).1)
  {
    if n < 8 {
      Powers();
    } else {
      PowerKept(n);
    }
  }

  /** Page n after the descriptors of a heap of 100 pages. */
  lemma Descriptor100()
    ensures Descriptors(100) == 1 && ZoneSize(100 * PAGE) == 32768 && Booted(100).runs == [Run(1, 99)]
  {
  }

  /** It is not so for every page: wherever a heap of 100 pages begins, 8192 bytes come at no multiple of
      8192, at once or after one other request. */
  lemma PowerMayMiss(start: nat)
    requires start % PAGE == 0
    ensures var c, s := Config(ZoneSize(100 * PAGE)), Booted(100);
            && SlabOk(c, s)
            && var t := if start % 8192 == 0 then s else Malloc(c, s, 8193).0;
            && SlabOk(c, t) && IsPower2(8192) && Malloc(c, t, 8192).1 != None
            && Live(Malloc(c, t, 8192).0, Malloc(c, t, 8192).1)
            && (start + Ptr(Malloc(c, t, 8192).0, Malloc(c, t, 8192).1)) % 8192 != 0
  {
    hide SlabOk, IsPower2, Malloc, Live, Ptr, SourcePage;
    Powers();
    BootedOk(100);
    Descriptor100();
    var c, s := Config(32768), Booted(100);
    WholePages(c, s, 8192, 2);
    WholePages(c, s, 8193, 3);
    if start % 8192 == 0 {
      assert SourcePage(c, s, 8192) == 1;
      ServedFrom(c, s, 8192);
      PowerAlignedIff(c, s, 8192, start);
    } else {
      var t := Malloc(c, s, 8193).0;
      MallocKeeps(c, s, 8193);
      assert t.runs == [Run(4, 96)];
      WholePages(c, t, 8192, 2);
      assert SourcePage(c, t, 8192) == 4;
      ServedFrom(c, t, 8192);
      PowerAlignedIff(c, t, 8192, start);
    }
  }

  /** A request of that many whole pages is served from the first run that has them. */
  lemma WholePages(c: Config, s: Slab, n: nat, k: nat)
    requires SlabOk(c, s) && c == Config(32768) && n >= 8192 && (k - 1) * PAGE < n <= k * PAGE
    ensures SourcePage(c, s, n) == AllocatedAt(s.runs, k)
    ensures AllocatedAt(s.runs, k) != NULL ==> Malloc(c, s, n).0.runs == Allocated(s.runs, k)
  {
    hide OwnedOk, KindsOk, ZonesOk, ListsOk;
    assert UpTo(n, PAGE) / PAGE == k;
  }
}
