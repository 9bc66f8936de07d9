/** The zone allocator of slab.c: zones of equal chunks over the page allocator.

  Zones are named by their first page.  A zone in use is on the list of its index while it has a free
  chunk; at most ZONE_RELEASE_THRESH zones that became wholly free are kept in a cache.
 */
module SlabSpec {
  import opened RtList
  import opened Pages

  const PAGE: nat := 4096                  // RT_MM_PAGE_SIZE
  const NZONES: nat := 72
  const ZONE_RELEASE_THRESH: nat := 2
  const ZONE_HEADER: nat := 36             // sizeof(slab_zone)
  const MIN_CHUNK: nat := 8
  const ZONE_LIMIT: nat := 16384           // ZALLOC_ZONE_LIMIT

  // ----- Size classes -----

  /** n rounded up to a multiple of k. */
  function UpTo(n: nat, k: nat): nat
    requires k > 0
  {
    (n + k - 1) / k * k
  }

  /** zoneindex: the zone index of a request and the chunk size it is rounded to. */
  function ZoneIndex(n: nat): (r: (nat, nat))
    requires n > 0
  {
    if n < 128 then (UpTo(n, 8) / 8 - 1, UpTo(n, 8))
    else if n < 256 then (UpTo(n, 16) / 16 + 7, UpTo(n, 16))
    else if n < 512 then (UpTo(n, 32) / 32 + 15, UpTo(n, 32))
    else if n < 1024 then (UpTo(n, 64) / 64 + 23, UpTo(n, 64))
    else if n < 2048 then (UpTo(n, 128) / 128 + 31, UpTo(n, 128))
    else if n < 4096 then (UpTo(n, 256) / 256 + 39, UpTo(n, 256))
    else if n < 8192 then (UpTo(n, 512) / 512 + 47, UpTo(n, 512))
    else if n < 16384 then (UpTo(n, 1024) / 1024 + 55, UpTo(n, 1024))
    else (0, n)
  }

  /** The chunk size that belongs to an index. */
  function SizeOf(i: nat): nat
    requires i < NZONES
  {
    if i < 16 then 8 * (i + 1)
    else if i < 24 then 16 * (i - 7)
    else if i < 32 then 32 * (i - 15)
    else if i < 40 then 64 * (i - 23)
    else if i < 48 then 128 * (i - 31)
    else if i < 56 then 256 * (i - 39)
    else if i < 64 then 512 * (i - 47)
    else 1024 * (i - 55)
  }

  lemma UpToIs(n: nat, k: nat)
    requires k > 0
    ensures UpTo(n, k) % k == 0 && n <= UpTo(n, k) < n + k && UpTo(n, k) / k * k == UpTo(n, k)
    ensures forall m: nat :: n <= m && m % k == 0 ==> UpTo(n, k) <= m
  {
    var q := (n + k - 1) / k;
    DivMul(q, k);
    assert n + k - 1 == q * k + (n + k - 1) % k;
    forall m: nat | n <= m && m % k == 0
      ensures q * k <= m
    {
      var p := m / k;
      assert m == p * k;
      if p < q {
        MulMono(p + 1, q, k);
      } else {
        MulMono(q, p, k);
      }
    }
  }

  /** Quotient and remainder are unique. */
  lemma DivIs(x: nat, k: nat, q: nat, r: nat)
    requires x == q * k + r && r < k
    ensures x / k == q && x % k == r
  {
    var p := x / k;
    assert x == p * k + x % k;
    if p < q {
      MulMono(p + 1, q, k);
    } else if q < p {
      MulMono(q + 1, p, k);
    }
  }

  lemma DivMul(q: nat, k: nat)
    requires k > 0
    ensures q * k / k == q && q * k % k == 0
  {
    DivIs(q * k, k, q, 0);
  }

  lemma MulMono(p: nat, q: nat, k: nat)
    requires p <= q
    ensures p * k <= q * k
  {
  }

  /** One chunk size per index, also where two classes meet: 127 and 128 share an index, as do 255 and
      256, and so on. */
  lemma OneSizePerIndex(n: nat)
    requires 0 < n < 16384
    ensures ZoneIndex(n).0 < NZONES && ZoneIndex(n).1 == SizeOf(ZoneIndex(n).0)
    ensures n <= ZoneIndex(n).1
  {
    if n < 128 { UpToIs(n, 8); }
    else if n < 256 { UpToIs(n, 16); }
    else if n < 512 { UpToIs(n, 32); }
    else if n < 1024 { UpToIs(n, 64); }
    else if n < 2048 { UpToIs(n, 128); }
    else if n < 4096 { UpToIs(n, 256); }
    else if n < 8192 { UpToIs(n, 512); }
    else { UpToIs(n, 1024); }
  }

  /** Indexes grow with chunk sizes, so an index and its chunk size determine each other. */
  lemma SizesGrow(i: nat, j: nat)
    requires i < j < NZONES
    ensures SizeOf(i) < SizeOf(j)
  {
  }

  lemma WithinLimit(n: nat, limit: nat)
    requires 0 < n < limit && (limit == 8192 || limit == 16384)
    ensures ZoneIndex(n).1 <= limit
  {
    if n < 128 { UpToIs(n, 8); }
    else if n < 256 { UpToIs(n, 16); }
    else if n < 512 { UpToIs(n, 32); }
    else if n < 1024 { UpToIs(n, 64); }
    else if n < 2048 { UpToIs(n, 128); }
    else if n < 4096 { UpToIs(n, 256); }
    else if n < 8192 { UpToIs(n, 512); assert limit % 512 == 0; }
    else { UpToIs(n, 1024); assert limit % 1024 == 0; }
  }

  // ----- Zones -----

  /** Zones have 32K, 64K or 128K; larger requests than the limit go to the page allocator. */
  datatype Config = Config(zoneSize: nat) {
    predicate Ok() { zoneSize == 32768 || zoneSize == 65536 || zoneSize == 131072 }
    function Limit(): nat { if zoneSize / 4 > ZONE_LIMIT then ZONE_LIMIT else zoneSize / 4 }
    function Pages(): nat { zoneSize / PAGE }
  }

  predicate IsPower2(n: nat) {
    n == 1 || (n > 1 && n % 2 == 0 && IsPower2(n / 2))
  }

  /** Where the chunks of a zone begin: at a multiple of the chunk size if that is a power of 2, else of 8. */
  function Offset(size: nat): nat
    requires size > 0
  {
    if IsPower2(size) then UpTo(ZONE_HEADER, size) else UpTo(ZONE_HEADER, MIN_CHUNK)
  }

  function Capacity(c: Config, size: nat): int
    requires size > 0
  {
    (c.zoneSize - Offset(size)) / size
  }

  /** Chunks 0 to uindex have been given out at some time; those of them on `free` have come back. */
  datatype Zone = Zone(nfree: nat, nmax: nat, base: nat, uindex: nat, size: nat, index: nat, free: seq<int>)

  ghost predicate ZoneOk(c: Config, a: int, z: Zone) {
    && a >= 0
    && z.index < NZONES && z.size == SizeOf(z.index) && z.size <= c.Limit()
    && z.base == a * PAGE + Offset(z.size)
    && z.nmax == Capacity(c, z.size) && z.nmax >= 2
    && z.uindex < z.nmax
    && Distinct(z.free) && (forall i :: 0 <= i < |z.free| ==> 0 <= z.free[i] <= z.uindex)
    && z.nfree == z.nmax - 1 - z.uindex + |z.free|
  }

  ghost predicate LiveChunk(z: Zone, k: int) {
    0 <= k <= z.uindex && k !in z.free
  }

  lemma OffsetSmall(size: nat)
    requires size > 0
    ensures ZONE_HEADER <= Offset(size) < ZONE_HEADER + size + MIN_CHUNK
  {
    hide IsPower2;
    UpToIs(ZONE_HEADER, size);
    UpToIs(ZONE_HEADER, MIN_CHUNK);
  }

  /** Every zone has room for at least two chunks, and its chunks end inside it. */
  lemma CapacityIs(c: Config, size: nat)
    requires c.Ok() && 0 < size <= c.Limit()
    ensures Capacity(c, size) >= 2
    ensures Offset(size) + Capacity(c, size) * size <= c.zoneSize
  {
    hide IsPower2, Offset;
    OffsetSmall(size);
    var room := c.zoneSize - Offset(size);
    assert room == room / size * size + room % size;
    if room / size < 2 {
      MulMono(room / size, 1, size);
    }
  }

  /** A zone's chunks split into live ones, freed ones and ones never used. */
  lemma ChunksSplit(c: Config, a: int, z: Zone)
    requires ZoneOk(c, a, z)
    ensures |set k | 0 <= k <= z.uindex && k !in z.free| == z.nmax - z.nfree
    ensures z.nfree == (z.nmax - 1 - z.uindex) + |z.free|
  {
    ElementsCard(z.free);
    BelowCard(z.uindex + 1);
    var live := set k | 0 <= k <= z.uindex && k !in z.free;
    assert live !! Elements(z.free);
    forall k
      ensures k in live + Elements(z.free) <==> k in Below(z.uindex + 1)
    {
      if k in z.free {
        var i :| 0 <= i < |z.free| && z.free[i] == k;
      }
    }
    assert live + Elements(z.free) == Below(z.uindex + 1);
  }

  lemma WhollyFree(c: Config, a: int, z: Zone, k: int)
    requires ZoneOk(c, a, z) && z.nfree == z.nmax
    ensures !LiveChunk(z, k)
  {
    if 0 <= k <= z.uindex {
      Pigeonhole(z.free, z.uindex + 1, k);
    }
  }

  /** rt_malloc takes a chunk of a zone that has one: a never used one while there is one. */
  ghost function ChunkTaken(z: Zone): (r: (Zone, int))
    requires z.nfree > 0
  {
    if z.uindex + 1 != z.nmax then (z.(nfree := z.nfree - 1, uindex := z.uindex + 1), z.uindex + 1)
    else if z.free != [] then (z.(nfree := z.nfree - 1, free := z.free[1..]), z.free[0])
    else (z, 0)
  }

  lemma ChunkTakenKeeps(c: Config, a: int, z: Zone, k: int)
    requires ZoneOk(c, a, z) && z.nfree > 0
    ensures ZoneOk(c, a, ChunkTaken(z).0) && ChunkTaken(z).0.nfree == z.nfree - 1
    ensures !LiveChunk(z, ChunkTaken(z).1)
    ensures LiveChunk(ChunkTaken(z).0, k) <==> LiveChunk(z, k) || k == ChunkTaken(z).1
  {
    if z.uindex + 1 == z.nmax {
      DistinctTail(z.free);
    }
  }

  ghost function ChunkGiven(z: Zone, k: int): Zone {
    z.(nfree := z.nfree + 1, free := [k] + z.free)
  }

  lemma ChunkGivenKeeps(c: Config, a: int, z: Zone, k: int, x: int)
    requires ZoneOk(c, a, z) && LiveChunk(z, k)
    ensures ZoneOk(c, a, ChunkGiven(z, k)) && z.nfree < z.nmax
    ensures LiveChunk(ChunkGiven(z, k), x) <==> LiveChunk(z, x) && x != k
  {
    DistinctPrepend(z.free, k);
    ChunksSplit(c, a, z);
    var live := set j | 0 <= j <= z.uindex && j !in z.free;
    assert k in live;
    assert live != {};
  }

  ghost function NewZone(c: Config, a: nat, index: nat, size: nat): Zone
    requires size > 0 && c.Ok() && size <= c.Limit()
  {
    CapacityIs(c, size);
    Zone(Capacity(c, size) - 1, Capacity(c, size), a * PAGE + Offset(size), 0, size, index, [])
  }

  lemma NewZoneOk(c: Config, a: nat, index: nat, k: int)
    requires c.Ok() && index < NZONES && SizeOf(index) <= c.Limit()
    ensures ZoneOk(c, a, NewZone(c, a, index, SizeOf(index)))
    ensures LiveChunk(NewZone(c, a, index, SizeOf(index)), k) <==> k == 0
    ensures NewZone(c, a, index, SizeOf(index)).nfree < NewZone(c, a, index, SizeOf(index)).nmax
  {
    hide Offset;
    CapacityIs(c, SizeOf(index));
  }

  // ----- Page ownership -----

  /** Owners hold their pages alone, and no page of theirs is free. */
  ghost predicate OwnedOk(runs: seq<Run>, owned: map<nat, nat>) {
    && Coalesced(runs, 0)
    && (forall a :: a in owned ==> a >= 0 && owned[a] > 0 && RowUsed(runs, a, owned[a]))
    && OwnersApart(owned)
  }

  ghost predicate OwnersApart(owned: map<nat, nat>) {
    forall a, b :: a in owned && b in owned && a != b ==> a + owned[a] <= b || b + owned[b] <= a
  }

  ghost predicate IsOwned(owned: map<nat, nat>, x: int) {
    exists a :: a in owned && Within(a, owned[a], x)
  }

  /** Every page from lo up to total is free or owned, and no other is. */
  ghost predicate Accounted(lo: nat, total: nat, runs: seq<Run>, owned: map<nat, nat>) {
    forall x :: lo <= x < total <==> IsFree(runs, x) || IsOwned(owned, x)
  }

  lemma RowStaysUsed(runs: seq<Run>, n: nat, a: nat, k: nat)
    requires Coalesced(runs, 0) && n > 0 && RowUsed(runs, a, k)
    ensures RowUsed(Allocated(runs, n), a, k)
  {
    forall x | Within(a, k, x)
      ensures !IsFree(Allocated(runs, n), x)
    {
      AllocTakes(runs, 0, n, x);
      assert !IsFree(runs, x);
    }
  }

  /** Rows without a common page lie one behind the other. */
  lemma RowsApart(a: int, n: nat, b: int, k: nat)
    requires n > 0 && k > 0 && forall x :: Within(a, n, x) ==> !Within(b, k, x)
    ensures a + n <= b || b + k <= a
  {
    assert Within(a, n, a) && Within(b, k, b);
    assert !Within(b, k, a);
    if a < b {
      assert Within(a, n, b) ==> !Within(b, k, b);
    }
  }

  lemma OwnAlloc(runs: seq<Run>, owned: map<nat, nat>, n: nat)
    requires OwnedOk(runs, owned) && n > 0 && AllocatedAt(runs, n) != NULL
    ensures AllocatedAt(runs, n) >= 0 && AllocatedAt(runs, n) !in owned
    ensures OwnedOk(Allocated(runs, n), owned[AllocatedAt(runs, n) := n])
  {
    hide Coalesced, RowUsed;
    var a := AllocatedAt(runs, n);
    AllocTakes(runs, 0, n, a);
    TakenRow(runs, n);
    forall b | b in owned
      ensures RowUsed(Allocated(runs, n), b, owned[b]) && b != a && (a + n <= b || b + owned[b] <= a)
    {
      RowStaysUsed(runs, n, b, owned[b]);
      TakenApart(runs, n, b, owned[b]);
    }
  }

  lemma TakenRow(runs: seq<Run>, n: nat)
    requires Coalesced(runs, 0) && n > 0 && AllocatedAt(runs, n) != NULL
    ensures AllocatedAt(runs, n) >= 0 && RowUsed(Allocated(runs, n), AllocatedAt(runs, n), n)
  {
    hide Coalesced;
    var a := AllocatedAt(runs, n);
    AllocTakes(runs, 0, n, a);
    forall x | Within(a, n, x)
      ensures !IsFree(Allocated(runs, n), x)
    {
      AllocTakes(runs, 0, n, x);
    }
  }

  lemma TakenApart(runs: seq<Run>, n: nat, b: nat, k: nat)
    requires Coalesced(runs, 0) && n > 0 && AllocatedAt(runs, n) != NULL && k > 0 && RowUsed(runs, b, k)
    ensures var a := AllocatedAt(runs, n); a != b && (a + n <= b || b + k <= a)
  {
    hide Coalesced;
    var a := AllocatedAt(runs, n);
    forall x | Within(a, n, x)
      ensures !Within(b, k, x)
    {
      AllocTakes(runs, 0, n, x);
    }
    RowsApart(a, n, b, k);
  }

  lemma OwnFree(runs: seq<Run>, owned: map<nat, nat>, a: nat)
    requires OwnedOk(runs, owned) && a in owned
    ensures OwnedOk(Freed(runs, a, owned[a]), owned - {a})
  {
    hide Coalesced, RowUsed;
    FreeGives(runs, 0, a, owned[a], a);
    forall b | b in owned && b != a
      ensures RowUsed(Freed(runs, a, owned[a]), b, owned[b])
    {
      FreedApart(runs, a, owned[a], b, owned[b]);
    }
  }

  lemma FreedApart(runs: seq<Run>, a: nat, n: nat, b: nat, k: nat)
    requires Coalesced(runs, 0) && n > 0 && RowUsed(runs, a, n) && RowUsed(runs, b, k) && (a + n <= b || b + k <= a)
    ensures RowUsed(Freed(runs, a, n), b, k)
  {
    hide Coalesced;
    forall x | Within(b, k, x)
      ensures !IsFree(Freed(runs, a, n), x)
    {
      FreeGives(runs, 0, a, n, x);
      assert !IsFree(runs, x);
    }
  }

  lemma AccountAlloc(lo: nat, total: nat, runs: seq<Run>, owned: map<nat, nat>, n: nat)
    requires OwnedOk(runs, owned) && n > 0 && AllocatedAt(runs, n) != NULL && Accounted(lo, total, runs, owned)
    ensures Accounted(lo, total, Allocated(runs, n), owned[AllocatedAt(runs, n) := n])
  {
    hide OwnersApart, RowUsed, Coalesced;
    OwnAlloc(runs, owned, n);
    var a := AllocatedAt(runs, n);
    var owned' := owned[a := n];
    forall x
      ensures IsFree(Allocated(runs, n), x) || IsOwned(owned', x) <==> IsFree(runs, x) || IsOwned(owned, x)
    {
      AllocTakes(runs, 0, n, x);
      OwnedMore(owned, a, n, x);
    }
  }

  lemma OwnedMore(owned: map<nat, nat>, a: nat, n: nat, x: int)
    requires a !in owned
    ensures IsOwned(owned[a := n], x) <==> IsOwned(owned, x) || Within(a, n, x)
  {
    var owned' := owned[a := n];
    if IsOwned(owned, x) {
      var b :| b in owned && Within(b, owned[b], x);
      assert b in owned' && Within(b, owned'[b], x);
    }
    if Within(a, n, x) {
      assert a in owned' && Within(a, owned'[a], x);
    }
  }

  lemma AccountFree(lo: nat, total: nat, runs: seq<Run>, owned: map<nat, nat>, a: nat)
    requires OwnedOk(runs, owned) && a in owned && Accounted(lo, total, runs, owned)
    ensures Accounted(lo, total, Freed(runs, a, owned[a]), owned - {a})
  {
    hide OwnersApart, RowUsed, Coalesced;
    forall x
      ensures IsFree(Freed(runs, a, owned[a]), x) || IsOwned(owned - {a}, x) <==> IsFree(runs, x) || IsOwned(owned, x)
    {
      FreeGives(runs, 0, a, owned[a], x);
      OwnedMore(owned - {a}, a, owned[a], x);
      assert (owned - {a})[a := owned[a]] == owned;
    }
  }

  // ----- The allocator -----

  datatype Slab = Slab(
    zones: map<nat, Zone>,
    lists: seq<seq<nat>>,
    cached: seq<nat>,
    large: map<nat, nat>,
    owned: map<nat, nat>,
    runs: seq<Run>,
    used: int,
    peak: int)

  /** A live allocation: whole pages, or a chunk of a zone. */
  datatype Alloc = None | Large(page: nat) | Small(zone: nat, chunk: int)

  ghost predicate Whole(zones: map<nat, Zone>, a: int) {
    a in zones && zones[a].nfree == zones[a].nmax
  }

  /** The list of an index holds exactly its zones with a free chunk; at most one is wholly free. */
  ghost predicate ListOk(zones: map<nat, Zone>, list: seq<nat>, i: nat) {
    && Distinct(list)
    && (forall a :: a in list <==> a in zones && zones[a].index == i && zones[a].nfree > 0)
    && (forall a, b :: a in list && b in list && Whole(zones, a) && Whole(zones, b) ==> a == b)
  }

  ghost predicate ListsOk(zones: map<nat, Zone>, lists: seq<seq<nat>>) {
    |lists| == NZONES && forall i :: 0 <= i < NZONES ==> ListOk(zones, lists[i], i)
  }

  ghost predicate ZonesOk(c: Config, zones: map<nat, Zone>) {
    forall a :: a in zones ==> ZoneOk(c, a, zones[a])
  }

  /** Every owner of pages is a zone in use, a cached zone or a large allocation. */
  ghost predicate KindsOk(c: Config, s: Slab) {
    && s.owned.Keys == s.zones.Keys + Elements(s.cached) + s.large.Keys
    && (forall a :: a in s.zones ==> a !in s.cached && a !in s.large && s.owned[a] == c.Pages())
    && (forall a :: a in s.cached ==> a !in s.large && a in s.owned && s.owned[a] == c.Pages())
    && (forall a :: a in s.large ==> s.owned[a] == s.large[a])
    && Distinct(s.cached) && |s.cached| <= ZONE_RELEASE_THRESH
  }

  ghost predicate SlabOk(c: Config, s: Slab) {
    && c.Ok()
    && OwnedOk(s.runs, s.owned)
    && KindsOk(c, s)
    && ZonesOk(c, s.zones)
    && ListsOk(s.zones, s.lists)
  }

  ghost predicate Live(s: Slab, x: Alloc) {
    match x
    case None => false
    case Large(a) => a in s.large
    case Small(a, k) => a in s.zones && LiveChunk(s.zones[a], k)
  }

  ghost function Ptr(s: Slab, x: Alloc): int
    requires Live(s, x)
  {
    match x
    case Large(a) => a * PAGE
    case Small(a, k) => s.zones[a].base + k * s.zones[a].size
  }

  ghost function Len(s: Slab, x: Alloc): nat
    requires Live(s, x)
  {
    match x
    case Large(a) => s.large[a] * PAGE
    case Small(a, k) => s.zones[a].size
  }

  ghost function Charged(s: Slab, n: nat): Slab {
    s.(used := s.used + n, peak := if s.used + n > s.peak then s.used + n else s.peak)
  }

  /** Allocation from the first zone on the list of index i. */
  ghost function FromZone(s: Slab, i: nat): (r: (Slab, Alloc))
    requires i < |s.lists| && s.lists[i] != [] && s.lists[i][0] in s.zones && s.zones[s.lists[i][0]].nfree > 0
  {
    var a := s.lists[i][0];
    var t := ChunkTaken(s.zones[a]);
    var lists := if t.0.nfree == 0 then s.lists[i := s.lists[i][1..]] else s.lists;
    (Charged(s.(zones := s.zones[a := t.0], lists := lists), s.zones[a].size), Small(a, t.1))
  }

  /** Zone a is laid out for index i and gives its first chunk. */
  ghost function Opened(c: Config, s: Slab, a: nat, i: nat): (r: (Slab, Alloc))
    requires c.Ok() && i < NZONES && i < |s.lists| && SizeOf(i) <= c.Limit()
  {
    (Charged(s.(zones := s.zones[a := NewZone(c, a, i, SizeOf(i))], lists := s.lists[i := [a] + s.lists[i]]),
      SizeOf(i)), Small(a, 0))
  }

  ghost function WithPages(s: Slab, n: nat): Slab
    requires AllocatedAt(s.runs, n) != NULL
  {
    s.(runs := Allocated(s.runs, n), owned := s.owned[AllocatedAt(s.runs, n) := n])
  }

  ghost function Malloc(c: Config, s: Slab, n: nat): (r: (Slab, Alloc))
    requires SlabOk(c, s)
  {
    if n == 0 then (s, None)
    else if n >= c.Limit() then
      var pages := UpTo(n, PAGE) / PAGE;
      var a := AllocatedAt(s.runs, pages);
      if a == NULL then (s, None)
      else
        var s' := WithPages(s, pages);
        (Charged(s'.(large := s.large[a := pages]), pages * PAGE), Large(a))
    else
      SmallIndex(c, n);
      var i := ZoneIndex(n).0;
      if s.lists[i] != [] then
        HeadZone(c, s, i);
        FromZone(s, i)
      else if s.cached != [] then
        CachedPage(c, s);
        Opened(c, s.(cached := s.cached[1..]), s.cached[0], i)
      else if AllocatedAt(s.runs, c.Pages()) == NULL then (s, None)
      else
        AllocTakes(s.runs, 0, c.Pages(), 0);
        Opened(c, WithPages(s, c.Pages()), AllocatedAt(s.runs, c.Pages()), i)
  }

  lemma SmallIndex(c: Config, n: nat)
    requires c.Ok() && 0 < n < c.Limit()
    ensures ZoneIndex(n).0 < NZONES && ZoneIndex(n).1 == SizeOf(ZoneIndex(n).0)
            && n <= SizeOf(ZoneIndex(n).0) <= c.Limit()
  {
    hide ZoneIndex, SizeOf;
    OneSizePerIndex(n);
    WithinLimit(n, c.Limit());
  }

  lemma HeadZone(c: Config, s: Slab, i: nat)
    requires ListsOk(s.zones, s.lists) && i < NZONES && s.lists[i] != []
    ensures s.lists[i][0] in s.zones && s.zones[s.lists[i][0]].nfree > 0 && s.zones[s.lists[i][0]].index == i
  {
    hide Distinct;
    var a := s.lists[i][0];
    assert ListOk(s.zones, s.lists[i], i);
    assert a in s.lists[i];
  }

  lemma CachedPage(c: Config, s: Slab)
    requires SlabOk(c, s) && s.cached != []
    ensures s.cached[0] >= 0 && s.cached[0] in s.owned && s.cached[0] !in s.zones && s.cached[0] !in s.large
  {
    hide OwnersApart, Coalesced, RowUsed, ZoneOk, ListOk, Distinct;
    assert s.cached[0] in s.cached;
  }

  // ----- Every allocation keeps the invariant -----

  lemma ListElse(zones: map<nat, Zone>, list: seq<nat>, i: nat, a: nat, z: Zone)
    requires ListOk(zones, list, i) && z.index != i && (a in zones ==> zones[a].index != i)
    ensures ListOk(zones[a := z], list, i)
  {
    hide Distinct;
  }

  lemma ListGone(zones: map<nat, Zone>, list: seq<nat>, i: nat, a: nat)
    requires ListOk(zones, list, i) && (a in zones ==> zones[a].index != i)
    ensures ListOk(zones - {a}, list, i)
  {
    hide Distinct;
  }

  /** A zone that stays on its list, and is not wholly free after the change. */
  lemma ListStays(zones: map<nat, Zone>, list: seq<nat>, i: nat, a: nat, z: Zone)
    requires ListOk(zones, list, i) && a in zones && zones[a].index == i && zones[a].nfree > 0
    requires z.index == i && 0 < z.nfree < z.nmax
    ensures ListOk(zones[a := z], list, i)
  {
    hide Distinct;
    assert a in list;
  }

  /** The first zone of a list has given its last chunk. */
  lemma ListShifts(zones: map<nat, Zone>, list: seq<nat>, i: nat, z: Zone)
    requires ListOk(zones, list, i) && list != [] && z.index == i && z.nfree == 0 < z.nmax
    ensures ListOk(zones[list[0] := z], list[1..], i)
  {
    DistinctTail(list);
    assert list[0] in list;
  }

  /** A zone with free chunks, not wholly free, joins its list at the front. */
  lemma ListGrows(zones: map<nat, Zone>, list: seq<nat>, i: nat, a: nat, z: Zone)
    requires ListOk(zones, list, i) && z.index == i && 0 < z.nfree < z.nmax
    requires a in zones ==> zones[a].index == i && zones[a].nfree == 0
    ensures ListOk(zones[a := z], [a] + list, i)
  {
    hide Distinct;
    DistinctPrepend(list, a);
  }

  lemma ZoneAt(c: Config, zones: map<nat, Zone>, a: nat)
    requires ZonesOk(c, zones) && a in zones
    ensures ZoneOk(c, a, zones[a])
  {
  }

  lemma FromZoneKeeps(c: Config, s: Slab, i: nat)
    requires SlabOk(c, s) && i < NZONES && s.lists[i] != []
    ensures s.lists[i][0] in s.zones && s.zones[s.lists[i][0]].nfree > 0 && SlabOk(c, FromZone(s, i).0)
  {
    hide ListOk, ZoneOk, ChunkTaken, Distinct, OwnedOk;
    HeadZone(c, s, i);
    var a := s.lists[i][0];
    var t := ChunkTaken(s.zones[a]);
    ChunkTakenKeeps(c, a, s.zones[a], 0);
    SameIndex(s.zones[a]);
    ZoneSizes(c, a, s.zones[a]);
    var s' := FromZone(s, i).0;
    forall j | 0 <= j < NZONES
      ensures ListOk(s'.zones, s'.lists[j], j)
    {
      if j != i {
        ListElse(s.zones, s.lists[j], j, a, t.0);
      } else if t.0.nfree == 0 {
        ListShifts(s.zones, s.lists[i], i, t.0);
      } else {
        ListStays(s.zones, s.lists[i], i, a, t.0);
      }
    }
  }

  lemma SameIndex(z: Zone)
    requires z.nfree > 0
    ensures ChunkTaken(z).0.index == z.index && ChunkTaken(z).0.nmax == z.nmax
    ensures ChunkTaken(z).0.size == z.size && ChunkTaken(z).0.base == z.base
  {
  }

  lemma ZoneSizes(c: Config, a: int, z: Zone)
    requires ZoneOk(c, a, z)
    ensures z.nfree <= z.nmax && z.nmax >= 2
  {
    ChunksSplit(c, a, z);
  }

  lemma OpenedKeeps(c: Config, s: Slab, a: nat, i: nat)
    requires c.Ok() && OwnedOk(s.runs, s.owned) && ZonesOk(c, s.zones) && ListsOk(s.zones, s.lists)
    requires i < NZONES && SizeOf(i) <= c.Limit() && a !in s.zones
    requires KindsOk(c, Opened(c, s, a, i).0)
    ensures SlabOk(c, Opened(c, s, a, i).0)
  {
    hide ListOk, ZoneOk, NewZone, Distinct, KindsOk, OwnedOk;
    NewZoneOk(c, a, i, 0);
    NewZoneIndex(c, a, i);
    var z := NewZone(c, a, i, SizeOf(i));
    forall j | 0 <= j < NZONES
      ensures ListOk(Opened(c, s, a, i).0.zones, Opened(c, s, a, i).0.lists[j], j)
    {
      if j != i {
        ListElse(s.zones, s.lists[j], j, a, z);
      } else {
        ListGrows(s.zones, s.lists[i], i, a, z);
      }
    }
  }

  lemma NewZoneIndex(c: Config, a: nat, i: nat)
    requires c.Ok() && i < NZONES && SizeOf(i) <= c.Limit()
    ensures NewZone(c, a, i, SizeOf(i)).index == i && NewZone(c, a, i, SizeOf(i)).nfree > 0
  {
    hide Offset;
    CapacityIs(c, SizeOf(i));
  }

  /** A cached zone goes back to work. */
  lemma ReopenedKinds(c: Config, s: Slab, i: nat)
    requires SlabOk(c, s) && s.cached != [] && i < NZONES && SizeOf(i) <= c.Limit()
    ensures KindsOk(c, Opened(c, s.(cached := s.cached[1..]), s.cached[0], i).0)
  {
    hide OwnedOk, ListOk, ZoneOk, NewZone;
    DistinctTail(s.cached);
    ElementsIn(s.cached);
    ElementsIn(s.cached[1..]);
    assert s.cached[0] in s.cached;
  }

  lemma ElementsIn(l: seq<nat>)
    ensures forall k :: k in Elements(l) <==> k in l
  {
  }

  lemma FreshKinds(c: Config, s: Slab, i: nat)
    requires SlabOk(c, s) && AllocatedAt(s.runs, c.Pages()) != NULL && i < NZONES && SizeOf(i) <= c.Limit()
    ensures KindsOk(c, Opened(c, WithPages(s, c.Pages()), AllocatedAt(s.runs, c.Pages()), i).0)
    ensures AllocatedAt(s.runs, c.Pages()) !in s.zones
  {
    hide ListOk, ZoneOk, NewZone, Coalesced, RowUsed, OwnersApart, Distinct;
    OwnAlloc(s.runs, s.owned, c.Pages());
    ElementsIn(s.cached);
  }

  lemma LargeKinds(c: Config, s: Slab, n: nat)
    requires SlabOk(c, s) && n > 0 && AllocatedAt(s.runs, n) != NULL
    ensures KindsOk(c, WithPages(s, n).(large := s.large[AllocatedAt(s.runs, n) := n]))
    ensures AllocatedAt(s.runs, n) !in s.large
  {
    hide ListOk, ZoneOk, Coalesced, RowUsed, OwnersApart, Distinct;
    OwnAlloc(s.runs, s.owned, n);
    ElementsIn(s.cached);
  }

  lemma LargePages(n: nat)
    requires n > 0
    ensures UpTo(n, PAGE) / PAGE > 0 && n <= UpTo(n, PAGE) / PAGE * PAGE
  {
    UpToIs(n, PAGE);
  }

  lemma ChargedKeeps(c: Config, s: Slab, n: nat)
    requires SlabOk(c, s)
    ensures SlabOk(c, Charged(s, n))
  {
    hide OwnedOk, ListOk, ZoneOk, Distinct;
  }

  lemma MallocKeeps(c: Config, s: Slab, n: nat)
    requires SlabOk(c, s)
    ensures SlabOk(c, Malloc(c, s, n).0)
  {
    hide OwnedOk, ListOk, ZoneOk, Distinct, KindsOk, FromZone, Opened, UpTo, AllocatedAt, Allocated, ZoneIndex, SizeOf;
    if n == 0 {
    } else if n >= c.Limit() {
      LargePages(n);
      var pages := UpTo(n, PAGE) / PAGE;
      if AllocatedAt(s.runs, pages) != NULL {
        OwnAlloc(s.runs, s.owned, pages);
        LargeKinds(c, s, pages);
        ChargedKeeps(c, WithPages(s, pages).(large := s.large[AllocatedAt(s.runs, pages) := pages]), pages * PAGE);
      }
    } else {
      SmallIndex(c, n);
      var i := ZoneIndex(n).0;
      if s.lists[i] != [] {
        FromZoneKeeps(c, s, i);
      } else if s.cached != [] {
        CachedPage(c, s);
        ReopenedKinds(c, s, i);
        OpenedKeeps(c, s.(cached := s.cached[1..]), s.cached[0], i);
      } else if AllocatedAt(s.runs, c.Pages()) != NULL {
        OwnAlloc(s.runs, s.owned, c.Pages());
        FreshKinds(c, s, i);
        OpenedKeeps(c, WithPages(s, c.Pages()), AllocatedAt(s.runs, c.Pages()), i);
      }
    }
  }

  // ----- The heap rt_system_heap_init sets up -----

  /** Pages that the page descriptors take, at four bytes a page. */
  function Descriptors(n: nat): nat {
    UpTo(n * 4, PAGE) / PAGE
  }

  /** The zone size doubles while a doubled zone is under 1/1024 of the heap. */
  function ZoneSize(heap: nat): nat {
    if heap / 1024 <= 65536 then 32768 else if heap / 1024 <= 131072 then 65536 else 131072
  }

  /** A heap of n pages: the first ones hold the descriptors, the others are free. */
  ghost function Booted(n: nat): Slab {
    Slab(map[], seq(NZONES, _ => []), [], map[], map[], Allocated([Run(0, n)], Descriptors(n)), 0, 0)
  }

  lemma DescriptorsFit(n: nat)
    requires n > 0
    ensures 0 < Descriptors(n) <= n
  {
    UpToIs(n * 4, PAGE);
  }

  lemma BootedOk(n: nat)
    requires n > 0
    ensures SlabOk(Config(ZoneSize(n * PAGE)), Booted(n))
    ensures AllocatedAt([Run(0, n)], Descriptors(n)) == 0
    ensures Accounted(Descriptors(n), n, Booted(n).runs, map[])
  {
    hide UpTo, Descriptors;
    DescriptorsFit(n);
    var k := Descriptors(n);
    assert Coalesced([Run(0, n)], 0) && AllocatedAt([Run(0, n)], k) == 0;
    AllocTakes([Run(0, n)], 0, k, 0);
    forall x
      ensures k <= x < n <==> IsFree(Booted(n).runs, x) || IsOwned(map[], x)
    {
      AllocTakes([Run(0, n)], 0, k, x);
      assert IsFree([Run(0, n)], x) <==> 0 <= x < n;
    }
  }

  // ----- What an allocation gives -----

  /** The other allocations stay alive, where they were and as long as they were. */
  ghost predicate Kept(s: Slab, s': Slab, x: Alloc) {
    Live(s, x) ==> Live(s', x) && Ptr(s', x) == Ptr(s, x) && Len(s', x) == Len(s, x)
  }

  lemma FromZoneGives(c: Config, s: Slab, i: nat, x: Alloc)
    requires SlabOk(c, s) && i < NZONES && s.lists[i] != []
    ensures s.lists[i][0] in s.zones && s.zones[s.lists[i][0]].nfree > 0
    ensures var r := FromZone(s, i);
            && !Live(s, r.1) && Live(r.0, r.1) && Len(r.0, r.1) == SizeOf(i)
            && (Live(r.0, x) <==> Live(s, x) || x == r.1) && Kept(s, r.0, x)
  {
    hide ListOk, ChunkTaken, Distinct, OwnedOk, SizeOf, LiveChunk;
    HeadZone(c, s, i);
    var a := s.lists[i][0];
    ZoneAt(c, s.zones, a);
    SameIndex(s.zones[a]);
    ChunkTakenKeeps(c, a, s.zones[a], ChunkTaken(s.zones[a]).1);
    if x.Small? {
      ChunkTakenKeeps(c, a, s.zones[a], x.chunk);
    }
  }

  lemma OpenedGives(c: Config, s: Slab, a: nat, i: nat, x: Alloc)
    requires c.Ok() && i < NZONES && i < |s.lists| && SizeOf(i) <= c.Limit() && a !in s.zones
    ensures var r := Opened(c, s, a, i);
            && !Live(s, r.1) && Live(r.0, r.1) && Len(r.0, r.1) == SizeOf(i)
            && (Live(r.0, x) <==> Live(s, x) || x == r.1) && Kept(s, r.0, x)
  {
    hide SizeOf, LiveChunk;
    NewZoneOk(c, a, i, 0);
    NewZoneSize(c, a, i);
    if x.Small? {
      NewZoneOk(c, a, i, x.chunk);
    }
  }

  lemma NewZoneSize(c: Config, a: nat, i: nat)
    requires c.Ok() && i < NZONES && SizeOf(i) <= c.Limit()
    ensures NewZone(c, a, i, SizeOf(i)).size == SizeOf(i)
  {
  }

  lemma LiveThen(s: Slab, mid: Slab, s': Slab, y: Alloc, x: Alloc)
    requires mid.zones == s.zones && mid.large == s.large
    requires (Live(s', x) <==> Live(mid, x) || x == y) && Kept(mid, s', x)
    ensures (Live(s', x) <==> Live(s, x) || x == y) && Kept(s, s', x)
  {
    hide LiveChunk;
  }

  /** A successful allocation returns memory that was not allocated, of at least the requested size,
      and disturbs no other allocation. */
  lemma MallocGives(c: Config, s: Slab, n: nat, x: Alloc)
    requires SlabOk(c, s)
    ensures var r := Malloc(c, s, n);
            && (r.1 == None ==> r.0 == s)
            && (r.1 != None ==> !Live(s, r.1) && Live(r.0, r.1) && Len(r.0, r.1) >= n)
            && (Live(r.0, x) <==> Live(s, x) || (x == r.1 && x != None)) && Kept(s, r.0, x)
  {
    hide OwnedOk, ListOk, ZoneOk, Distinct, FromZone, Opened, UpTo, AllocatedAt, Allocated, ZoneIndex, SizeOf,
      LiveChunk;
    if n == 0 {
    } else if n >= c.Limit() {
      LargePages(n);
      var pages := UpTo(n, PAGE) / PAGE;
      if AllocatedAt(s.runs, pages) != NULL {
        LargeKinds(c, s, pages);
      }
    } else {
      SmallIndex(c, n);
      var i := ZoneIndex(n).0;
      if s.lists[i] != [] {
        FromZoneGives(c, s, i, x);
        SomeAlloc(s, i);
      } else if s.cached != [] {
        CachedPage(c, s);
        var mid := s.(cached := s.cached[1..]);
        OpenedGives(c, mid, s.cached[0], i, x);
        LiveThen(s, mid, Opened(c, mid, s.cached[0], i).0, Opened(c, mid, s.cached[0], i).1, x);
        OpenedAlloc(c, mid, s.cached[0], i, s);
      } else if AllocatedAt(s.runs, c.Pages()) != NULL {
        FreshKinds(c, s, i);
        var mid := WithPages(s, c.Pages());
        OpenedGives(c, mid, AllocatedAt(s.runs, c.Pages()), i, x);
        LiveThen(s, mid, Opened(c, mid, AllocatedAt(s.runs, c.Pages()), i).0,
          Opened(c, mid, AllocatedAt(s.runs, c.Pages()), i).1, x);
        OpenedAlloc(c, mid, AllocatedAt(s.runs, c.Pages()), i, s);
      }
    }
  }

  lemma SomeAlloc(s: Slab, i: nat)
    requires i < |s.lists| && s.lists[i] != [] && s.lists[i][0] in s.zones && s.zones[s.lists[i][0]].nfree > 0
    ensures FromZone(s, i).1.Small?
  {
  }

  lemma OpenedAlloc(c: Config, s: Slab, a: nat, i: nat, before: Slab)
    requires c.Ok() && i < NZONES && i < |s.lists| && SizeOf(i) <= c.Limit() && before.zones == s.zones
             && before.large == s.large
    ensures Opened(c, s, a, i).1.Small? && (Live(s, Opened(c, s, a, i).1) <==> Live(before, Opened(c, s, a, i).1))
  {
  }

  /** The request fails exactly when it is 0, or large with no row of pages for it, or small with no
      free chunk of its size, no cached zone and no row of pages for a zone. */
  lemma MallocFailsIff(c: Config, s: Slab, n: nat)
    requires SlabOk(c, s)
    ensures Malloc(c, s, n).1 == None <==>
              || n == 0
              || (n >= c.Limit() && !exists a :: RowFree(s.runs, a, UpTo(n, PAGE) / PAGE))
              || (0 < n < c.Limit() && s.cached == []
                  && (forall a :: a in s.zones && s.zones[a].size == ZoneIndex(n).1 ==> s.zones[a].nfree == 0)
                  && !exists a :: RowFree(s.runs, a, c.Pages()))
  {
    hide ListOk, ZoneOk, Distinct, KindsOk, FromZone, Opened, UpTo, AllocatedAt, Allocated, ZoneIndex, SizeOf, RowUsed,
      OwnersApart, RowFree, Coalesced;
    if n >= c.Limit() {
      LargePages(n);
      AllocFailsIff(s.runs, 0, UpTo(n, PAGE) / PAGE);
    } else if n > 0 {
      SmallIndex(c, n);
      AllocFailsIff(s.runs, 0, c.Pages());
      var i := ZoneIndex(n).0;
      NoneOfSize(c, s, i);
      if s.lists[i] != [] {
        HeadZone(c, s, i);
        SomeAlloc(s, i);
      } else if s.cached != [] {
        CachedPage(c, s);
        OpenedAlloc(c, s.(cached := s.cached[1..]), s.cached[0], i, s);
      } else if AllocatedAt(s.runs, c.Pages()) != NULL {
        OpenedAlloc(c, WithPages(s, c.Pages()), AllocatedAt(s.runs, c.Pages()), i, s);
      }
    }
  }

  lemma NoneOfSize(c: Config, s: Slab, i: nat)
    requires ZonesOk(c, s.zones) && ListsOk(s.zones, s.lists) && i < NZONES
    ensures s.lists[i] == [] <==> forall a :: a in s.zones && s.zones[a].size == SizeOf(i) ==> s.zones[a].nfree == 0
  {
    hide Distinct, SizeOf;
    assert ListOk(s.zones, s.lists[i], i);
    forall a | a in s.zones && s.zones[a].size == SizeOf(i)
      ensures s.zones[a].nfree == 0 <==> a !in s.lists[i]
    {
      SizeGivesIndex(c, a, s.zones[a], i);
    }
    if s.lists[i] != [] {
      var a := s.lists[i][0];
      assert a in s.lists[i];
      ZoneAt(c, s.zones, a);
    }
  }

  lemma SizeGivesIndex(c: Config, a: int, z: Zone, i: nat)
    requires ZoneOk(c, a, z) && i < NZONES && z.size == SizeOf(i)
    ensures z.index == i
  {
    hide SizeOf;
    if z.index < i {
      SizesGrow(z.index, i);
    } else if i < z.index {
      SizesGrow(i, z.index);
    }
  }

  // ----- Freeing -----

  /** The chunk is back on its zone, and a zone that was full is back on its list. */
  ghost function Returned(s: Slab, a: nat, k: int): Slab
    requires a in s.zones && s.zones[a].index < |s.lists|
  {
    var z := s.zones[a];
    var lists := if z.nfree == 0 then s.lists[z.index := [a] + s.lists[z.index]] else s.lists;
    s.(zones := s.zones[a := ChunkGiven(z, k)], lists := lists, used := s.used - z.size)
  }

  /** A wholly free zone leaves its list for the cache; a full cache sends its pages back. */
  ghost function Retired(c: Config, s: Slab, a: nat): Slab
    requires a in s.zones && s.zones[a].index < |s.lists|
  {
    var i := s.zones[a].index;
    var s' := s.(zones := s.zones - {a}, lists := s.lists[i := Drop(s.lists[i], a)]);
    if |s.cached| >= ZONE_RELEASE_THRESH then s'.(runs := Freed(s.runs, a, c.Pages()), owned := s.owned - {a})
    else s'.(cached := [a] + s.cached)
  }

  ghost function Free(c: Config, s: Slab, x: Alloc): Slab
    requires SlabOk(c, s) && (x != None ==> Live(s, x))
  {
    match x
    case None => s
    case Large(a) =>
      s.(large := s.large - {a}, owned := s.owned - {a}, runs := Freed(s.runs, a, s.large[a]),
        used := s.used - s.large[a] * PAGE)
    case Small(a, k) =>
      ZoneAt(c, s.zones, a);
      var r := Returned(s, a, k);
      if r.zones[a].nfree == r.zones[a].nmax && r.lists[r.zones[a].index] != [a] then Retired(c, r, a) else r
  }

  lemma ListLeaves(zones: map<nat, Zone>, list: seq<nat>, i: nat, a: nat, z: Zone)
    requires ListOk(zones, list, i) && a in zones && zones[a].index == i && z.index == i
    ensures ListOk(zones[a := z] - {a}, Drop(list, a), i)
    ensures a !in list ==> Drop([a] + list, a) == list
  {
    hide Drop, Distinct;
    assert zones[a := z] - {a} == zones - {a};
    ListDistinct(zones, list, i);
    InDrop(list, a);
    if a !in list {
      DropFront(list, a);
    }
  }

  lemma ListDistinct(zones: map<nat, Zone>, list: seq<nat>, i: nat)
    requires ListOk(zones, list, i)
    ensures Distinct(list)
  {
  }

  lemma DropFront(list: seq<nat>, a: nat)
    requires a !in list
    ensures Drop([a] + list, a) == list
  {
    var l := [a] + list;
    assert l[0] == a && l[PositionOf(l, a)] == a;
    assert forall j :: 0 < j < |l| ==> l[j] == list[j - 1];
    assert Without(l, 0) == list;
  }

  lemma ListAlone(zones: map<nat, Zone>, list: seq<nat>, i: nat, a: nat, z: Zone)
    requires ListOk(zones, list, i) && a in zones && zones[a].index == i && z.index == i && z.nfree > 0
    requires list == [a] || (list == [] && zones[a].nfree == 0)
    ensures ListOk(zones[a := z], [a], i)
  {
    forall b
      ensures b in [a] <==> b in zones[a := z] && zones[a := z][b].index == i && zones[a := z][b].nfree > 0
    {
      if b != a && b in zones {
        assert b in list <==> zones[b].index == i && zones[b].nfree > 0;
      }
    }
  }

  lemma ListsReturned(c: Config, s: Slab, a: nat, k: int)
    requires SlabOk(c, s) && a in s.zones && LiveChunk(s.zones[a], k)
    requires s.zones[a].index < NZONES
    requires var r := Returned(s, a, k); !(r.zones[a].nfree == r.zones[a].nmax && r.lists[r.zones[a].index] != [a])
    ensures ListsOk(Returned(s, a, k).zones, Returned(s, a, k).lists)
  {
    hide ListOk, ZoneOk, Distinct, OwnedOk, KindsOk, LiveChunk;
    ZoneAt(c, s.zones, a);
    ChunkGivenKeeps(c, a, s.zones[a], k, 0);
    ZoneSizes(c, a, s.zones[a]);
    var z := ChunkGiven(s.zones[a], k);
    var r := Returned(s, a, k);
    var i := z.index;
    forall j | 0 <= j < NZONES
      ensures ListOk(r.zones, r.lists[j], j)
    {
      if j != i {
        ListElse(s.zones, s.lists[j], j, a, z);
      } else if z.nfree == z.nmax {
        OnOwnList(s.zones, s.lists[i], i, a);
        assert s.zones[a].nfree > 0;
        ListAlone(s.zones, s.lists[i], i, a, z);
      } else if s.zones[a].nfree == 0 {
        ListGrows(s.zones, s.lists[i], i, a, z);
      } else {
        ListStays(s.zones, s.lists[i], i, a, z);
      }
    }
  }

  lemma OnOwnList(zones: map<nat, Zone>, list: seq<nat>, i: nat, a: nat)
    requires ListOk(zones, list, i) && a in zones && zones[a].index == i
    ensures a in list <==> zones[a].nfree > 0
  {
  }

  lemma ListsRetired(c: Config, s: Slab, a: nat, k: int)
    requires SlabOk(c, s) && a in s.zones && LiveChunk(s.zones[a], k)
    requires s.zones[a].index < NZONES && Returned(s, a, k).zones[a].nfree == Returned(s, a, k).zones[a].nmax
    ensures Returned(s, a, k).zones[a].index == s.zones[a].index
    ensures ListsOk(Retired(c, Returned(s, a, k), a).zones, Retired(c, Returned(s, a, k), a).lists)
    ensures a in Returned(s, a, k).lists[s.zones[a].index]
  {
    hide ListOk, ZoneOk, Distinct, OwnedOk, KindsOk, LiveChunk, Drop;
    ZoneAt(c, s.zones, a);
    ZoneSizes(c, a, s.zones[a]);
    var z := ChunkGiven(s.zones[a], k);
    var r := Returned(s, a, k);
    var t := Retired(c, r, a);
    var i := z.index;
    assert s.zones[a := z] - {a} == s.zones - {a};
    forall j | 0 <= j < NZONES
      ensures ListOk(t.zones, t.lists[j], j)
    {
      if j != i {
        ListGone(s.zones, s.lists[j], j, a);
      } else {
        ListLeaves(s.zones, s.lists[i], i, a, z);
      }
    }
    OnOwnList(s.zones, s.lists[i], i, a);
  }

  lemma RetiredKinds(c: Config, s: Slab, a: nat, k: int)
    requires SlabOk(c, s) && a in s.zones && s.zones[a].index < NZONES
    ensures KindsOk(c, Retired(c, Returned(s, a, k), a)) && s.owned[a] == c.Pages()
  {
    hide ListOk, ZoneOk, OwnedOk, LiveChunk, Drop;
    ElementsIn(s.cached);
    ElementsIn([a] + s.cached);
    DistinctPrepend(s.cached, a);
  }

  lemma FreeKeeps(c: Config, s: Slab, x: Alloc)
    requires SlabOk(c, s) && (x != None ==> Live(s, x))
    ensures SlabOk(c, Free(c, s, x))
  {
    hide ListOk, ZoneOk, Distinct, OwnedOk, LiveChunk, Freed, Drop, KindsOk, ChunkGiven;
    match x
    case None =>
    case Large(a) =>
      LargeFreed(c, s, a);
    case Small(a, k) =>
      ZoneAt(c, s.zones, a);
      ChunkGivenKeeps(c, a, s.zones[a], k, 0);
      GivenIs(s.zones[a], k);
      ZoneIndexOk(c, a, s.zones[a]);
      var r := Returned(s, a, k);
      if r.zones[a].nfree == r.zones[a].nmax && r.lists[r.zones[a].index] != [a] {
        ListsRetired(c, s, a, k);
        RetiredKinds(c, s, a, k);
        RetiredOwned(c, s, a);
        assert r.zones - {a} == s.zones - {a};
      } else {
        ListsReturned(c, s, a, k);
        ReturnedKinds(c, s, a, k);
      }
  }

  lemma GivenIs(z: Zone, k: int)
    ensures ChunkGiven(z, k).index == z.index && ChunkGiven(z, k).size == z.size && ChunkGiven(z, k).base == z.base
    ensures ChunkGiven(z, k).nmax == z.nmax
  {
  }

  lemma ZoneIndexOk(c: Config, a: int, z: Zone)
    requires ZoneOk(c, a, z)
    ensures z.index < NZONES && z.size == SizeOf(z.index)
  {
  }

  lemma RetiredOwned(c: Config, s: Slab, a: nat)
    requires SlabOk(c, s) && a in s.zones
    ensures a in s.owned && s.owned[a] == c.Pages() && OwnedOk(Freed(s.runs, a, c.Pages()), s.owned - {a})
  {
    hide ListOk, ZoneOk, Distinct, Coalesced, RowUsed, OwnersApart;
    OwnFree(s.runs, s.owned, a);
  }

  lemma ReturnedKinds(c: Config, s: Slab, a: nat, k: int)
    requires SlabOk(c, s) && a in s.zones && s.zones[a].index < NZONES
    ensures KindsOk(c, Returned(s, a, k))
  {
    hide ListOk, ZoneOk, Distinct, OwnedOk;
    assert s.zones[a := ChunkGiven(s.zones[a], k)].Keys == s.zones.Keys;
  }

  lemma LargeFreed(c: Config, s: Slab, a: nat)
    requires SlabOk(c, s) && a in s.large
    ensures a in s.owned && s.owned[a] == s.large[a]
    ensures SlabOk(c, Free(c, s, Large(a)))
  {
    hide ListOk, ZoneOk, Distinct, Coalesced, RowUsed, OwnersApart;
    OwnFree(s.runs, s.owned, a);
    ElementsIn(s.cached);
  }

  /** Freeing ends exactly that allocation and disturbs no other, also when its zone is retired. */
  lemma FreeTakes(c: Config, s: Slab, y: Alloc, x: Alloc)
    requires SlabOk(c, s) && Live(s, y)
    ensures Live(Free(c, s, y), x) <==> Live(s, x) && x != y
    ensures x != y ==> Kept(s, Free(c, s, y), x)
  {
    hide ListOk, ZoneOk, Distinct, OwnedOk, KindsOk, LiveChunk, Freed, Drop, ChunkGiven;
    if y.Small? {
      var a := y.zone;
      ZoneAt(c, s.zones, a);
      GivenIs(s.zones[a], y.chunk);
      ZoneIndexOk(c, a, s.zones[a]);
      ChunkGivenKeeps(c, a, s.zones[a], y.chunk, 0);
      if x.Small? {
        ChunkGivenKeeps(c, a, s.zones[a], y.chunk, x.chunk);
        if ChunkGiven(s.zones[a], y.chunk).nfree == s.zones[a].nmax {
          WhollyFree(c, a, ChunkGiven(s.zones[a], y.chunk), x.chunk);
        }
      }
    }
  }

  // ----- Allocations do not overlap -----

  ghost function OwnerOf(x: Alloc): nat
    requires x != None
  {
    if x.Large? then x.page else x.zone
  }

  /** An allocation lies inside the pages of its owner. */
  lemma Inside(c: Config, s: Slab, x: Alloc)
    requires SlabOk(c, s) && Live(s, x)
    ensures OwnerOf(x) in s.owned
    ensures OwnerOf(x) * PAGE <= Ptr(s, x) && Ptr(s, x) + Len(s, x) <= (OwnerOf(x) + s.owned[OwnerOf(x)]) * PAGE
  {
    hide ListOk, Distinct, OwnedOk, ZoneOk, LiveChunk;
    if x.Small? {
      ZoneAt(c, s.zones, x.zone);
      InsideZone(c, x.zone, s.zones[x.zone], x.chunk);
    }
  }

  lemma SizePositive(i: nat)
    requires i < NZONES
    ensures SizeOf(i) > 0
  {
  }

  lemma InsideZone(c: Config, a: nat, z: Zone, k: int)
    requires c.Ok() && ZoneOk(c, a, z) && LiveChunk(z, k)
    ensures a * PAGE <= z.base + k * z.size && z.base + k * z.size + z.size <= (a + c.Pages()) * PAGE
    ensures k * z.size >= 0
  {
    hide SizeOf, Offset, Capacity, Distinct;
    SizePositive(z.index);
    CapacityIs(c, z.size);
    MulMono(k + 1, z.nmax, z.size);
    MulMono(0, k, z.size);
    assert c.zoneSize == c.Pages() * PAGE;
    assert (k + 1) * z.size == k * z.size + z.size;
  }

  /** Two live allocations have no byte in common. */
  lemma LiveApart(c: Config, s: Slab, x: Alloc, y: Alloc)
    requires SlabOk(c, s) && Live(s, x) && Live(s, y) && x != y
    ensures Ptr(s, x) + Len(s, x) <= Ptr(s, y) || Ptr(s, y) + Len(s, y) <= Ptr(s, x)
  {
    hide ListOk, Distinct, OwnedOk, ZoneOk, SizeOf, LiveChunk;
    Inside(c, s, x);
    Inside(c, s, y);
    if OwnerOf(x) == OwnerOf(y) {
      SameOwner(c, s, x, y);
      ChunksApart(s.zones[x.zone].size, x.chunk, y.chunk);
    } else {
      OwnersDoNotMeet(c, s, OwnerOf(x), OwnerOf(y));
    }
  }

  lemma SameOwner(c: Config, s: Slab, x: Alloc, y: Alloc)
    requires SlabOk(c, s) && Live(s, x) && Live(s, y) && x != y && OwnerOf(x) == OwnerOf(y)
    ensures x.Small? && y.Small? && x.zone == y.zone && x.chunk != y.chunk
  {
    hide ListOk, Distinct, OwnedOk, ZoneOk, LiveChunk;
  }

  lemma ChunksApart(size: nat, i: int, j: int)
    requires i != j
    ensures i * size + size <= j * size || j * size + size <= i * size
  {
    if i < j {
      assert (j - i) * size >= size by { if j - i > 1 { Scale(1, j - i, size); } }
    } else {
      assert (i - j) * size >= size by { if i - j > 1 { Scale(1, i - j, size); } }
    }
  }

  lemma Scale(p: nat, q: nat, size: nat)
    requires p <= q
    ensures p * size <= q * size
  {
    MulMono(p, q, size);
  }

  lemma OwnersDoNotMeet(c: Config, s: Slab, a: nat, b: nat)
    requires SlabOk(c, s) && a in s.owned && b in s.owned && a != b
    ensures (a + s.owned[a]) * PAGE <= b * PAGE || (b + s.owned[b]) * PAGE <= a * PAGE
  {
    hide ListOk, Distinct, ZoneOk, Coalesced, RowUsed, KindsOk;
  }

  // ----- Accounts -----

  /** Each call changes what is in use by the length of the allocation it makes or ends. */
  lemma UsedExact(c: Config, s: Slab, n: nat, x: Alloc)
    requires SlabOk(c, s)
    ensures var r := Malloc(c, s, n); r.1 != None ==> Live(r.0, r.1) && r.0.used == s.used + Len(r.0, r.1)
    ensures var r := Malloc(c, s, n); r.1 != None ==> r.0.peak == if r.0.used > s.peak then r.0.used else s.peak
    ensures Live(s, x) ==> Free(c, s, x).used == s.used - Len(s, x)
  {
    hide OwnedOk, ListOk, ZoneOk, Distinct, UpTo, AllocatedAt, Allocated, ZoneIndex, SizeOf, LiveChunk, KindsOk, Freed,
      Drop;
    MallocGives(c, s, n, None);
    if 0 < n < c.Limit() {
      SmallIndex(c, n);
      var i := ZoneIndex(n).0;
      NewZoneAny(c, i);
      if s.lists[i] != [] {
        HeadZone(c, s, i);
        SameIndex(s.zones[s.lists[i][0]]);
      }
    }
  }

  lemma NewZoneAny(c: Config, i: nat)
    requires c.Ok() && i < NZONES && SizeOf(i) <= c.Limit()
    ensures forall a: nat :: NewZone(c, a, i, SizeOf(i)).size == SizeOf(i)
  {
  }

  /** No page is lost: each stays free or owned through every call. */
  lemma MallocAccounts(c: Config, s: Slab, n: nat, lo: nat, total: nat)
    requires SlabOk(c, s) && Accounted(lo, total, s.runs, s.owned)
    ensures Accounted(lo, total, Malloc(c, s, n).0.runs, Malloc(c, s, n).0.owned)
  {
    hide ListOk, ZoneOk, Distinct, UpTo, Coalesced, RowUsed, OwnersApart, ZoneIndex, SizeOf, KindsOk, Accounted,
      FromZone;
    if n >= c.Limit() {
      LargePages(n);
      if AllocatedAt(s.runs, UpTo(n, PAGE) / PAGE) != NULL {
        AccountAlloc(lo, total, s.runs, s.owned, UpTo(n, PAGE) / PAGE);
      }
    } else if n > 0 {
      SmallIndex(c, n);
      var i := ZoneIndex(n).0;
      if s.lists[i] != [] {
        HeadZone(c, s, i);
        FromZonePages(s, i);
      } else if s.cached == [] && AllocatedAt(s.runs, c.Pages()) != NULL {
        AccountAlloc(lo, total, s.runs, s.owned, c.Pages());
      }
    }
  }

  lemma FromZonePages(s: Slab, i: nat)
    requires i < |s.lists| && s.lists[i] != [] && s.lists[i][0] in s.zones && s.zones[s.lists[i][0]].nfree > 0
    ensures FromZone(s, i).0.runs == s.runs && FromZone(s, i).0.owned == s.owned
  {
  }

  lemma FreeAccounts(c: Config, s: Slab, x: Alloc, lo: nat, total: nat)
    requires SlabOk(c, s) && (x != None ==> Live(s, x)) && Accounted(lo, total, s.runs, s.owned)
    ensures Accounted(lo, total, Free(c, s, x).runs, Free(c, s, x).owned)
  {
    hide ListOk, ZoneOk, Distinct, Coalesced, RowUsed, OwnersApart, Accounted, Drop, LiveChunk;
    match x
    case None =>
    case Large(a) => AccountFree(lo, total, s.runs, s.owned, a);
    case Small(a, k) =>
      ZoneAt(c, s.zones, a);
      ZoneIndexOk(c, a, s.zones[a]);
      AccountFree(lo, total, s.runs, s.owned, a);
  }

  // ----- Changing the size, and runs -----

  ghost function Realloc(c: Config, s: Slab, x: Alloc, n: nat): (r: (Slab, Alloc))
    requires SlabOk(c, s) && (x != None ==> Live(s, x))
  {
    if x == None then Malloc(c, s, n)
    else if n == 0 then (Free(c, s, x), None)
    else if x.Large? then Moved(c, s, x, n)
    else if s.zones[x.zone].size == ZoneIndex(n).1 then (s, x)
    else Moved(c, s, x, ZoneIndex(n).1)
  }

  ghost function Moved(c: Config, s: Slab, x: Alloc, n: nat): (r: (Slab, Alloc))
    requires SlabOk(c, s) && Live(s, x)
  {
    MallocKeeps(c, s, n);
    MallocGives(c, s, n, x);
    var r := Malloc(c, s, n);
    if r.1 == None then r else (Free(c, r.0, x), r.1)
  }

  lemma MovedKeeps(c: Config, s: Slab, x: Alloc, n: nat, lo: nat, total: nat)
    requires SlabOk(c, s) && Live(s, x) && Accounted(lo, total, s.runs, s.owned)
    ensures SlabOk(c, Moved(c, s, x, n).0) && Accounted(lo, total, Moved(c, s, x, n).0.runs, Moved(c, s, x, n).0.owned)
  {
    hide SlabOk, Malloc, Free, Live, Accounted;
    MallocKeeps(c, s, n);
    MallocGives(c, s, n, x);
    MallocAccounts(c, s, n, lo, total);
    var r := Malloc(c, s, n);
    if r.1 != None {
      FreeKeeps(c, r.0, x);
      FreeAccounts(c, r.0, x, lo, total);
    }
  }

  lemma MovedGives(c: Config, s: Slab, x: Alloc, n: nat, y: Alloc)
    requires SlabOk(c, s) && Live(s, x)
    ensures var r := Moved(c, s, x, n);
            && (r.1 == None ==> r.0 == s)
            && (r.1 != None ==> r.1 != x && Live(r.0, r.1) && Len(r.0, r.1) >= n && !Live(r.0, x))
            && (y != x ==> Kept(s, r.0, y))
  {
    hide SlabOk, Malloc, Free, Live, Ptr, Len;
    MallocKeeps(c, s, n);
    MallocGives(c, s, n, x);
    MallocGives(c, s, n, y);
    var r := Malloc(c, s, n);
    if r.1 != None {
      NotNone(s, x);
      FreeTakes(c, r.0, x, y);
      FreeTakes(c, r.0, x, r.1);
      FreeTakes(c, r.0, x, x);
    }
  }

  lemma NotNone(s: Slab, x: Alloc)
    requires Live(s, x)
    ensures x != None
  {
  }

  lemma RoundedEnough(n: nat)
    requires n > 0
    ensures ZoneIndex(n).1 >= n
  {
    if n < 16384 {
      OneSizePerIndex(n);
    }
  }

  /** A new size that succeeds gives at least that many bytes, at the same place when the chunk size
      stays the same; one that fails leaves everything alone. */
  lemma ReallocGives(c: Config, s: Slab, x: Alloc, n: nat, y: Alloc)
    requires SlabOk(c, s) && Live(s, x) && n > 0
    ensures var r := Realloc(c, s, x, n);
            && (r.1 == None ==> r.0 == s)
            && (r.1 != None ==> Live(r.0, r.1) && Len(r.0, r.1) >= n)
            && (r.1 == x ==> r.0 == s)
            && (r.1 != x && r.1 != None ==> !Live(r.0, x))
            && (y != x ==> Kept(s, r.0, y))
            && (x.Small? && Len(s, x) == ZoneIndex(n).1 ==> r.1 == x)
  {
    hide SlabOk, Malloc, Free, Moved, ZoneIndex, Kept;
    RoundedEnough(n);
    MovedGives(c, s, x, n, y);
    MovedGives(c, s, x, ZoneIndex(n).1, y);
    KeptSame(s, y);
  }

  lemma KeptSame(s: Slab, y: Alloc)
    ensures Kept(s, s, y)
  {
  }

  datatype Call = DoMalloc(n: nat) | DoFree(x: Alloc) | DoRealloc(x: Alloc, n: nat)

  ghost predicate CallOk(s: Slab, o: Call) {
    match o
    case DoMalloc(_) => true
    case DoFree(x) => x != None ==> Live(s, x)
    case DoRealloc(x, _) => x != None ==> Live(s, x)
  }

  ghost function Called(c: Config, s: Slab, o: Call): Slab
    requires SlabOk(c, s) && CallOk(s, o)
  {
    match o
    case DoMalloc(n) => Malloc(c, s, n).0
    case DoFree(x) => Free(c, s, x)
    case DoRealloc(x, n) => Realloc(c, s, x, n).0
  }

  lemma CalledKeeps(c: Config, s: Slab, o: Call, lo: nat, total: nat)
    requires SlabOk(c, s) && CallOk(s, o) && Accounted(lo, total, s.runs, s.owned)
    ensures SlabOk(c, Called(c, s, o)) && Accounted(lo, total, Called(c, s, o).runs, Called(c, s, o).owned)
  {
    hide SlabOk, Malloc, Free, Live, Accounted, Moved, ZoneIndex;
    match o
    case DoMalloc(n) => MallocKeeps(c, s, n); MallocAccounts(c, s, n, lo, total);
    case DoFree(x) => FreeKeeps(c, s, x); FreeAccounts(c, s, x, lo, total);
    case DoRealloc(x, n) =>
      if x == None {
        MallocKeeps(c, s, n);
        MallocAccounts(c, s, n, lo, total);
      } else if n == 0 {
        FreeKeeps(c, s, x);
        FreeAccounts(c, s, x, lo, total);
      } else {
        MovedKeeps(c, s, x, n, lo, total);
        MovedKeeps(c, s, x, ZoneIndex(n).1, lo, total);
      }
  }

  lemma MovedOk(c: Config, s: Slab, x: Alloc, n: nat)
    requires SlabOk(c, s) && Live(s, x)
    ensures SlabOk(c, Moved(c, s, x, n).0)
  {
    hide SlabOk, Malloc, Free, Live;
    MallocKeeps(c, s, n);
    MallocGives(c, s, n, x);
    var r := Malloc(c, s, n);
    if r.1 != None {
      FreeKeeps(c, r.0, x);
    }
  }

  lemma CalledKept(c: Config, s: Slab, o: Call)
    requires SlabOk(c, s) && CallOk(s, o)
    ensures SlabOk(c, Called(c, s, o))
  {
    hide SlabOk, Malloc, Free, Live, Moved, ZoneIndex;
    match o
    case DoMalloc(n) => MallocKeeps(c, s, n);
    case DoFree(x) => FreeKeeps(c, s, x);
    case DoRealloc(x, n) =>
      if x == None {
        MallocKeeps(c, s, n);
      } else if n == 0 {
        FreeKeeps(c, s, x);
      } else {
        MovedOk(c, s, x, n);
        MovedOk(c, s, x, ZoneIndex(n).1);
      }
  }

  ghost predicate RunOk(c: Config, s: Slab, os: seq<Call>)
    requires SlabOk(c, s)
    decreases |os|
  {
    os != [] ==> CallOk(s, os[0]) && (CalledKept(c, s, os[0]); RunOk(c, Called(c, s, os[0]), os[1..]))
  }

  ghost function RunOf(c: Config, s: Slab, os: seq<Call>): Slab
    requires SlabOk(c, s) && RunOk(c, s, os)
    decreases |os|
  {
    if os == [] then s else CalledKept(c, s, os[0]); RunOf(c, Called(c, s, os[0]), os[1..])
  }

  /** Over every run of malloc, free and realloc. */
  lemma {:induction false} RunKeeps(c: Config, s: Slab, os: seq<Call>, lo: nat, total: nat)
    requires SlabOk(c, s) && RunOk(c, s, os) && Accounted(lo, total, s.runs, s.owned)
    ensures SlabOk(c, RunOf(c, s, os)) && Accounted(lo, total, RunOf(c, s, os).runs, RunOf(c, s, os).owned)
    decreases |os|
  {
    hide SlabOk, Called, Accounted;
    if os != [] {
      CalledKept(c, s, os[0]);
      CalledKeeps(c, s, os[0], lo, total);
      RunKeeps(c, Called(c, s, os[0]), os[1..], lo, total);
    }
  }
}
