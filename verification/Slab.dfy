/** rt_malloc, rt_realloc and rt_free of slab.c on zone headers, zone lists, chunk links and page descriptors. */
module SlabHeap {
  import opened RtList
  import opened Memory
  import opened Pages
  import opened SlabSpec

  /** A zone header; `chunk` holds the links stored in the zone's free chunks, by address. */
  datatype Header = Header(nfree: nat, nmax: nat, next: int, base: nat, uindex: nat, size: nat, index: nat,
    freeChunk: int, chunk: map<int, int>)

  datatype Kind = FreePage | SmallPage | LargePage

  /** struct memusage: what a page is used for, and its offset in its zone or the pages allocated. */
  datatype Usage = Usage(kind: Kind, size: nat)

  function Nth(list: seq<nat>, i: nat): int {
    if i < |list| then list[i] else NULL
  }

  /** The links of zone headers follow the list. */
  ghost predicate ZoneChain(zone: map<nat, Header>, first: int, list: seq<nat>) {
    && first == Nth(list, 0)
    && forall i :: 0 <= i < |list| ==> list[i] in zone && zone[list[i]].next == Nth(list, i + 1)
  }

  function Address(h: Header, k: int): int {
    h.base + k * h.size
  }

  function AddressNth(h: Header, free: seq<int>, i: nat): int {
    if i < |free| then Address(h, free[i]) else NULL
  }

  /** The free chunks of a zone are linked in order. */
  ghost predicate ChunkChain(h: Header, free: seq<int>) {
    && h.freeChunk == AddressNth(h, free, 0)
    && forall i :: 0 <= i < |free| ==>
       Address(h, free[i]) in h.chunk && h.chunk[Address(h, free[i])] == AddressNth(h, free, i + 1)
  }

  ghost predicate HeaderOk(h: Header, z: Zone) {
    && h.nfree == z.nfree && h.nmax == z.nmax && h.base == z.base && h.uindex == z.uindex && h.size == z.size
       && h.index == z.index
    && ChunkChain(h, z.free)
  }

  ghost predicate HeadersOk(zone: map<nat, Header>, zones: map<nat, Zone>) {
    forall a :: a in zones ==> a in zone && HeaderOk(zone[a], zones[a])
  }

  ghost predicate ChainsOk(zone: map<nat, Header>, zoneArray: seq<int>, lists: seq<seq<nat>>) {
    |zoneArray| == |lists| == NZONES && forall i :: 0 <= i < NZONES ==> ZoneChain(zone, zoneArray[i], lists[i])
  }

  /** The pages of zone a, in use or cached, point back to its header. */
  ghost predicate ZoneUsage(c: Config, usage: map<nat, Usage>, a: nat) {
    forall x: nat :: a <= x < a + c.Pages() ==> x in usage && usage[x] == Usage(SmallPage, x - a)
  }

  ghost predicate UsageOk(c: Config, usage: map<nat, Usage>, s: Slab) {
    && (forall a :: a in s.zones ==> ZoneUsage(c, usage, a))
    && (forall a :: a in s.cached ==> ZoneUsage(c, usage, a))
    && (forall a :: a in s.large ==> a in usage && usage[a] == Usage(LargePage, s.large[a]))
  }

  ghost predicate Rep(c: Config, zone: map<nat, Header>, zoneArray: seq<int>, zoneFree: int, zoneFreeCnt: nat,
                      usage: map<nat, Usage>, used: int, peak: int, s: Slab) {
    && HeadersOk(zone, s.zones)
    && ChainsOk(zone, zoneArray, s.lists)
    && ZoneChain(zone, zoneFree, s.cached) && zoneFreeCnt == |s.cached|
    && UsageOk(c, usage, s)
    && used == s.used && peak == s.peak
  }

  // ----- Frames -----

  lemma ChainElse(zone: map<nat, Header>, first: int, list: seq<nat>, a: nat, h: Header)
    requires ZoneChain(zone, first, list) && (a in list ==> a in zone && h.next == zone[a].next)
    ensures ZoneChain(zone[a := h], first, list)
  {
    forall i | 0 <= i < |list|
      ensures list[i] in zone[a := h] && zone[a := h][list[i]].next == Nth(list, i + 1)
    {
      assert list[i] in list;
    }
  }

  lemma ChainPop(zone: map<nat, Header>, first: int, list: seq<nat>)
    requires ZoneChain(zone, first, list) && list != []
    ensures first == list[0] && list[0] in zone && ZoneChain(zone, zone[list[0]].next, list[1..])
  {
    var rest := list[1..];
    assert zone[list[0]].next == Nth(list, 1);
    forall i | 0 <= i < |rest|
      ensures rest[i] in zone && zone[rest[i]].next == Nth(rest, i + 1)
    {
      assert zone[list[i + 1]].next == Nth(list, i + 2);
    }
  }

  lemma ChainPush(zone: map<nat, Header>, first: int, list: seq<nat>, a: nat, h: Header)
    requires ZoneChain(zone, first, list) && a !in list && h.next == first
    ensures ZoneChain(zone[a := h], a, [a] + list)
  {
    var l := [a] + list;
    forall i | 0 <= i < |l|
      ensures l[i] in zone[a := h] && zone[a := h][l[i]].next == Nth(l, i + 1)
    {
      if i > 0 {
        assert l[i] == list[i - 1];
        assert list[i - 1] in list;
        assert zone[list[i - 1]].next == Nth(list, i);
      }
    }
  }

  lemma HeadersElse(zone: map<nat, Header>, zones: map<nat, Zone>, a: nat, h: Header, z: Zone)
    requires HeadersOk(zone, zones) && HeaderOk(h, z)
    ensures HeadersOk(zone[a := h], zones[a := z])
  {
    hide HeaderOk;
  }

  lemma AddressesApart(h: Header, i: int, j: int)
    requires i != j && h.size > 0
    ensures Address(h, i) != Address(h, j)
  {
    ChunksApart(h.size, i, j);
  }

  /** A chunk put in front of the free list. */
  lemma ChunkPush(h: Header, free: seq<int>, k: int)
    requires ChunkChain(h, free) && k !in free && h.size > 0
    ensures ChunkChain(h.(chunk := h.chunk[Address(h, k) := h.freeChunk], freeChunk := Address(h, k)), [k] + free)
  {
    var h' := h.(chunk := h.chunk[Address(h, k) := h.freeChunk], freeChunk := Address(h, k));
    var l := [k] + free;
    forall i | 0 <= i < |l|
      ensures Address(h', l[i]) in h'.chunk && h'.chunk[Address(h', l[i])] == AddressNth(h', l, i + 1)
    {
      if i > 0 {
        assert l[i] == free[i - 1];
        assert free[i - 1] in free;
        AddressesApart(h, k, free[i - 1]);
        assert h.chunk[Address(h, free[i - 1])] == AddressNth(h, free, i);
      }
    }
  }

  lemma ChunkPop(h: Header, free: seq<int>)
    requires ChunkChain(h, free) && free != []
    ensures h.freeChunk == Address(h, free[0]) && h.freeChunk in h.chunk
    ensures ChunkChain(h.(freeChunk := h.chunk[h.freeChunk]), free[1..])
  {
    var h' := h.(freeChunk := h.chunk[h.freeChunk]);
    var rest := free[1..];
    assert h.chunk[Address(h, free[0])] == AddressNth(h, free, 1);
    forall i | 0 <= i < |rest|
      ensures Address(h', rest[i]) in h'.chunk && h'.chunk[Address(h', rest[i])] == AddressNth(h', rest, i + 1)
    {
      assert h.chunk[Address(h, free[i + 1])] == AddressNth(h, free, i + 2);
    }
  }

  lemma ChunkChainSame(h: Header, h': Header, free: seq<int>)
    requires ChunkChain(h, free) && h'.base == h.base && h'.size == h.size && h'.freeChunk == h.freeChunk
             && h'.chunk == h.chunk
    ensures ChunkChain(h', free)
  {
    forall i | 0 <= i < |free|
      ensures Address(h', free[i]) in h'.chunk && h'.chunk[Address(h', free[i])] == AddressNth(h', free, i + 1)
    {
      assert h.chunk[Address(h, free[i])] == AddressNth(h, free, i + 1);
    }
  }

  // ----- Taking a chunk -----

  /** The header after rt_malloc took a chunk, and the chunk's address. */
  function TakenHeader(h: Header): (r: (Header, int)) {
    var next := if h.nfree <= 1 then NULL else h.next;
    var nfree := if h.nfree == 0 then 0 else h.nfree - 1;
    if h.uindex + 1 != h.nmax then
      (h.(nfree := nfree, next := next, uindex := h.uindex + 1), h.base + (h.uindex + 1) * h.size)
    else
      (h.(nfree := nfree, next := next, freeChunk := if h.freeChunk in h.chunk then h.chunk[h.freeChunk] else NULL),
        h.freeChunk)
  }

  lemma TakenHeaderOk(c: Config, a: nat, h: Header, z: Zone)
    requires HeaderOk(h, z) && ZoneOk(c, a, z) && z.nfree > 0
    ensures HeaderOk(TakenHeader(h).0, ChunkTaken(z).0)
    ensures TakenHeader(h).1 == z.base + ChunkTaken(z).1 * z.size
    ensures z.uindex + 1 == z.nmax ==> h.freeChunk in h.chunk
  {
    hide ChunkChain, Distinct, SizeOf, Offset, Capacity;
    var h' := TakenHeader(h).0;
    if z.uindex + 1 != z.nmax {
      ChunkChainSame(h, h', z.free);
    } else {
      ChunkPop(h, z.free);
      ChunkChainSame(h.(freeChunk := h.chunk[h.freeChunk]), h', z.free[1..]);
    }
  }

  lemma ListIs(zones: map<nat, Zone>, list: seq<nat>, i: nat, a: nat)
    requires ListOk(zones, list, i)
    ensures a in list <==> a in zones && zones[a].index == i && zones[a].nfree > 0
    ensures Distinct(list)
  {
  }

  lemma UsageSame(c: Config, usage: map<nat, Usage>, s: Slab, s': Slab)
    requires UsageOk(c, usage, s) && s'.zones.Keys <= s.zones.Keys && s'.cached == s.cached && s'.large == s.large
    ensures UsageOk(c, usage, s')
  {
    hide ZoneUsage;
  }

  lemma NotCached(c: Config, s: Slab, a: nat)
    requires KindsOk(c, s) && a in s.zones
    ensures a !in s.cached
  {
  }

  lemma TakePrepares(c: Config, zone: map<nat, Header>, zoneArray: seq<int>, zoneFree: int, zoneFreeCnt: nat,
                     usage: map<nat, Usage>, used: int, peak: int, s: Slab, i: nat)
    requires SlabOk(c, s) && Rep(c, zone, zoneArray, zoneFree, zoneFreeCnt, usage, used, peak, s)
    requires i < NZONES && s.lists[i] != []
    ensures zoneArray[i] == s.lists[i][0] && s.lists[i][0] in zone && s.lists[i][0] in s.zones
            && s.zones[s.lists[i][0]].nfree > 0
    ensures var a := s.lists[i][0];
            var h := zone[a];
            var t := TakenHeader(h);
            && h.nfree == s.zones[a].nfree && h.size == s.zones[a].size
            && (h.uindex + 1 == h.nmax ==> h.freeChunk in h.chunk)
            && t.1 == s.zones[a].base + ChunkTaken(s.zones[a]).1 * s.zones[a].size
            && Rep(c, zone[a := t.0], if h.nfree == 1 then zoneArray[i := h.next] else zoneArray,
                   zoneFree, zoneFreeCnt, usage,
                   used + h.size, if used + h.size > peak then used + h.size else peak, FromZone(s, i).0)
  {
    hide ListOk, ZoneOk, ChunkTaken, Distinct, OwnedOk, HeaderOk, TakenHeader, ZoneChain, UsageOk, KindsOk;
    HeadZone(c, s, i);
    var a := s.lists[i][0];
    ChainPop(zone, zoneArray[i], s.lists[i]);
    HeaderFields(zone[a], s.zones[a]);
    ZoneAt(c, s.zones, a);
    TakenHeaderOk(c, a, zone[a], s.zones[a]);
    TakenNext(zone[a]);
    TakenCount(s.zones[a]);
    var t := TakenHeader(zone[a]);
    var s' := FromZone(s, i).0;
    HeadersElse(zone, s.zones, a, t.0, ChunkTaken(s.zones[a]).0);
    NotCached(c, s, a);
    ChainElse(zone, zoneFree, s.cached, a, t.0);
    UsageSame(c, usage, s, s');
    var array' := if zone[a].nfree == 1 then zoneArray[i := zone[a].next] else zoneArray;
    forall j | 0 <= j < NZONES
      ensures ZoneChain(zone[a := t.0], array'[j], s'.lists[j])
    {
      ListIs(s.zones, s.lists[j], j, a);
      if j == i && zone[a].nfree == 1 {
        DistinctTail(s.lists[i]);
        ChainElse(zone, zone[a].next, s.lists[i][1..], a, t.0);
      } else {
        ChainElse(zone, zoneArray[j], s.lists[j], a, t.0);
      }
    }
  }

  lemma HeaderFields(h: Header, z: Zone)
    requires HeaderOk(h, z)
    ensures h.nfree == z.nfree && h.nmax == z.nmax && h.size == z.size && h.index == z.index && h.base == z.base
            && h.uindex == z.uindex
  {
  }

  lemma TakenNext(h: Header)
    ensures h.nfree > 1 ==> TakenHeader(h).0.next == h.next
  {
  }

  lemma TakenCount(z: Zone)
    requires z.nfree > 0
    ensures ChunkTaken(z).0.nfree == z.nfree - 1 || (z.uindex + 1 == z.nmax && z.free == [])
  {
  }

  // ----- Opening a zone -----

  function NewHeader(c: Config, a: nat, i: nat, next: int): Header
    requires i < NZONES && SizeOf(i) > 0 && Capacity(c, SizeOf(i)) >= 1
  {
    Header(Capacity(c, SizeOf(i)) - 1, Capacity(c, SizeOf(i)), next, a * PAGE + Offset(SizeOf(i)), 0, SizeOf(i), i,
      NULL, map[])
  }

  lemma CanOpen(c: Config, i: nat)
    requires c.Ok() && i < NZONES && SizeOf(i) <= c.Limit()
    ensures SizeOf(i) > 0 && Capacity(c, SizeOf(i)) >= 1
  {
    hide Offset, Capacity;
    SizePositive(i);
    CapacityIs(c, SizeOf(i));
  }

  lemma NewHeaderOk(c: Config, a: nat, i: nat, next: int)
    requires c.Ok() && i < NZONES && SizeOf(i) <= c.Limit()
    ensures SizeOf(i) > 0 && Capacity(c, SizeOf(i)) >= 1
    ensures HeaderOk(NewHeader(c, a, i, next), NewZone(c, a, i, SizeOf(i)))
  {
    hide Offset, Capacity, SizeOf;
    CanOpen(c, i);
  }

  /** `s` is the state with the zone's pages found; the zone is on no list and not cached. */
  lemma OpenPrepares(c: Config, zone: map<nat, Header>, zoneArray: seq<int>, zoneFree: int, zoneFreeCnt: nat,
                     usage: map<nat, Usage>, used: int, peak: int, s: Slab, a: nat, i: nat)
    requires c.Ok() && i < NZONES && SizeOf(i) <= c.Limit()
    requires Rep(c, zone, zoneArray, zoneFree, zoneFreeCnt, usage, used, peak, s) && ListsOk(s.zones, s.lists)
    requires a !in s.zones && a !in s.cached && a !in s.large && ZoneUsage(c, usage, a)
    ensures SizeOf(i) > 0 && Capacity(c, SizeOf(i)) >= 1
    ensures Rep(c, zone[a := NewHeader(c, a, i, zoneArray[i])], zoneArray[i := a], zoneFree, zoneFreeCnt, usage,
                used + SizeOf(i), if used + SizeOf(i) > peak then used + SizeOf(i) else peak, Opened(c, s, a, i).0)
  {
    hide ListOk, ZoneOk, Distinct, HeaderOk, ZoneChain, NewHeader, NewZone, SizeOf, ZoneUsage, Capacity;
    NewHeaderOk(c, a, i, zoneArray[i]);
    NewHeaderNext(c, a, i, zoneArray[i]);
    var h := NewHeader(c, a, i, zoneArray[i]);
    var s' := Opened(c, s, a, i).0;
    HeadersElse(zone, s.zones, a, h, NewZone(c, a, i, SizeOf(i)));
    ChainElse(zone, zoneFree, s.cached, a, h);
    forall j | 0 <= j < NZONES
      ensures ZoneChain(zone[a := h], zoneArray[i := a][j], s'.lists[j])
    {
      ListIs(s.zones, s.lists[j], j, a);
      if j == i {
        ChainPush(zone, zoneArray[i], s.lists[i], a, h);
      } else {
        ChainElse(zone, zoneArray[j], s.lists[j], a, h);
      }
    }
  }

  lemma NewHeaderNext(c: Config, a: nat, i: nat, next: int)
    requires c.Ok() && i < NZONES && SizeOf(i) > 0 && Capacity(c, SizeOf(i)) >= 1
    ensures NewHeader(c, a, i, next).next == next
  {
  }

  /** The first cached zone leaves the cache. */
  lemma UncachePrepares(c: Config, zone: map<nat, Header>, zoneArray: seq<int>, zoneFree: int, zoneFreeCnt: nat,
                        usage: map<nat, Usage>, used: int, peak: int, s: Slab)
    requires SlabOk(c, s) && Rep(c, zone, zoneArray, zoneFree, zoneFreeCnt, usage, used, peak, s) && s.cached != []
    ensures zoneFree == s.cached[0] && s.cached[0] in zone && zoneFreeCnt > 0
    ensures Rep(c, zone, zoneArray, zone[s.cached[0]].next, zoneFreeCnt - 1, usage, used, peak,
            s.(cached := s.cached[1..]))
    ensures ZoneUsage(c, usage, s.cached[0]) && s.cached[0] !in s.cached[1..]
  {
    hide ListOk, ZoneOk, OwnedOk, HeaderOk, ZoneChain, ZoneUsage, HeadersOk;
    ChainPop(zone, zoneFree, s.cached);
    DistinctTail(s.cached);
    assert s.cached[0] in s.cached;
  }

  // ----- Page descriptors -----

  /** Outside [a, a + n) the descriptors are as before. */
  ghost predicate UsageElse(usage: map<nat, Usage>, usage': map<nat, Usage>, a: nat, n: nat) {
    forall x: nat :: !(a <= x < a + n) ==> (x in usage' <==> x in usage) && (x in usage ==> usage'[x] == usage[x])
  }

  lemma ZoneUsageElse(c: Config, usage: map<nat, Usage>, usage': map<nat, Usage>, a: nat, n: nat, b: nat)
    requires UsageElse(usage, usage', a, n) && ZoneUsage(c, usage, b) && (a + n <= b || b + c.Pages() <= a)
    ensures ZoneUsage(c, usage', b)
  {
  }

  /** Descriptors of pages that belong to nobody may change. */
  lemma UsageFresh(c: Config, usage: map<nat, Usage>, usage': map<nat, Usage>, s: Slab, a: nat, n: nat)
    requires c.Ok() && UsageOk(c, usage, s) && UsageElse(usage, usage', a, n) && KindsOk(c, s)
    requires forall b :: b in s.owned ==> s.owned[b] > 0 && (a + n <= b || b + s.owned[b] <= a)
    ensures UsageOk(c, usage', s)
  {
    hide ZoneUsage, Distinct;
    ElementsIn(s.cached);
    forall b | b in s.zones
      ensures ZoneUsage(c, usage', b)
    {
      assert b in s.owned;
      ZoneUsageElse(c, usage, usage', a, n, b);
    }
    forall b | b in s.cached
      ensures ZoneUsage(c, usage', b)
    {
      ZoneUsageElse(c, usage, usage', a, n, b);
    }
    forall b | b in s.large
      ensures b in usage' && usage'[b] == Usage(LargePage, s.large[b])
    {
      assert b in s.owned;
    }
  }

  lemma FreshPages(c: Config, s: Slab, n: nat)
    requires SlabOk(c, s) && n > 0 && AllocatedAt(s.runs, n) != NULL
    ensures var a := AllocatedAt(s.runs, n);
            forall b :: b in s.owned ==> s.owned[b] > 0 && (a + n <= b || b + s.owned[b] <= a)
    ensures AllocatedAt(s.runs, n) !in s.zones && AllocatedAt(s.runs, n) !in s.cached
            && AllocatedAt(s.runs, n) !in s.large
  {
    hide ListOk, ZoneOk, Distinct, Coalesced, RowUsed, KindsOk;
    OwnAlloc(s.runs, s.owned, n);
    var a := AllocatedAt(s.runs, n);
    var owned' := s.owned[a := n];
    forall b | b in s.owned
      ensures s.owned[b] > 0 && (a + n <= b || b + s.owned[b] <= a)
    {
      assert b in owned' && a in owned';
    }
    OwnerKinds(c, s, a);
  }

  lemma OwnerKinds(c: Config, s: Slab, a: nat)
    requires KindsOk(c, s)
    ensures a in s.owned <==> a in s.zones || a in s.cached || a in s.large
  {
    hide Distinct;
    ElementsIn(s.cached);
  }

  /** New pages found and described: for a zone, or for a large allocation. */
  lemma PagesPrepare(c: Config, zone: map<nat, Header>, zoneArray: seq<int>, zoneFree: int, zoneFreeCnt: nat,
                     usage: map<nat, Usage>, usage': map<nat, Usage>, used: int, peak: int, s: Slab, n: nat)
    requires SlabOk(c, s) && Rep(c, zone, zoneArray, zoneFree, zoneFreeCnt, usage, used, peak, s)
    requires n > 0 && AllocatedAt(s.runs, n) != NULL && UsageElse(usage, usage', AllocatedAt(s.runs, n), n)
    ensures Rep(c, zone, zoneArray, zoneFree, zoneFreeCnt, usage', used, peak, WithPages(s, n))
    ensures AllocatedAt(s.runs, n) in usage' && usage'[AllocatedAt(s.runs, n)] == Usage(LargePage, n) ==>
              Rep(c, zone, zoneArray, zoneFree, zoneFreeCnt, usage', used, peak,
                  WithPages(s, n).(large := s.large[AllocatedAt(s.runs, n) := n]))
  {
    hide ListOk, ZoneOk, Distinct, OwnedOk, HeadersOk, ZoneChain, ZoneUsage, UsageElse, AllocatedAt;
    FreshPages(c, s, n);
    UsageFresh(c, usage, usage', s, AllocatedAt(s.runs, n), n);
  }

  // ----- Giving a chunk back -----

  /** The header after rt_free linked chunk k, and the zone on its list again. */
  function GivenHeader(h: Header, ptr: int, first: int): Header {
    h.(nfree := h.nfree + 1, next := if h.nfree == 0 then first else h.next,
       chunk := h.chunk[ptr := h.freeChunk], freeChunk := ptr)
  }

  lemma GivenHeaderOk(h: Header, z: Zone, k: int, first: int)
    requires HeaderOk(h, z) && k !in z.free && z.size > 0
    ensures HeaderOk(GivenHeader(h, Address(h, k), first), ChunkGiven(z, k))
  {
    hide ChunkChain;
    ChunkPush(h, z.free, k);
    ChunkChainSame(h.(chunk := h.chunk[Address(h, k) := h.freeChunk], freeChunk := Address(h, k)),
                   GivenHeader(h, Address(h, k), first), [k] + z.free);
  }

  lemma GivenNext(h: Header, ptr: int, first: int)
    ensures GivenHeader(h, ptr, first).next == if h.nfree == 0 then first else h.next
    ensures GivenHeader(h, ptr, first).nfree == h.nfree + 1 && GivenHeader(h, ptr, first).nmax == h.nmax
  {
  }

  /** Every list holds zones of its index only, and the cached zones are not in use. */
  ghost predicate Filed(s: Slab) {
    && |s.lists| == NZONES
    && (forall j :: 0 <= j < NZONES ==> Distinct(s.lists[j]))
    && (forall j, x :: 0 <= j < NZONES && x in s.lists[j] ==> x in s.zones && s.zones[x].index == j)
    && (forall x :: x in s.cached ==> x !in s.zones)
  }

  lemma GivePrepares(c: Config, zone: map<nat, Header>, zoneArray: seq<int>, zoneFree: int, zoneFreeCnt: nat,
                     usage: map<nat, Usage>, used: int, peak: int, s: Slab, a: nat, k: int)
    requires SlabOk(c, s) && Rep(c, zone, zoneArray, zoneFree, zoneFreeCnt, usage, used, peak, s)
    requires a in s.zones && LiveChunk(s.zones[a], k)
    ensures a in zone && zone[a].index < NZONES && |zoneArray| == NZONES == |s.lists| && s.zones[a].index < |s.lists|
    ensures zone[a].index == s.zones[a].index && zone[a].nfree == s.zones[a].nfree && zone[a].nmax == s.zones[a].nmax
    ensures zone[a].size == s.zones[a].size && Address(zone[a], k) == s.zones[a].base + k * s.zones[a].size
    ensures var h := zone[a];
            Rep(c, zone[a := GivenHeader(h, Address(h, k), zoneArray[h.index])],
                if h.nfree == 0 then zoneArray[h.index := a] else zoneArray, zoneFree, zoneFreeCnt, usage,
                used - h.size, peak, Returned(s, a, k))
    ensures Filed(Returned(s, a, k)) && a in Returned(s, a, k).lists[s.zones[a].index]
  {
    hide ListOk, ZoneOk, Distinct, OwnedOk, HeaderOk, ZoneChain, UsageOk, GivenHeader, ChunkGiven, KindsOk, SizeOf;
    ZoneAt(c, s.zones, a);
    ZoneIndexOk(c, a, s.zones[a]);
    SizePositive(s.zones[a].index);
    HeaderFields(zone[a], s.zones[a]);
    GivenIs(s.zones[a], k);
    var h := zone[a];
    var h' := GivenHeader(h, Address(h, k), zoneArray[h.index]);
    GivenHeaderOk(h, s.zones[a], k, zoneArray[h.index]);
    GivenNext(h, Address(h, k), zoneArray[h.index]);
    HeadersElse(zone, s.zones, a, h', ChunkGiven(s.zones[a], k));
    NotCached(c, s, a);
    ChainElse(zone, zoneFree, s.cached, a, h');
    var r := Returned(s, a, k);
    UsageSame(c, usage, s, r);
    var array' := if h.nfree == 0 then zoneArray[h.index := a] else zoneArray;
    forall j | 0 <= j < NZONES
      ensures ZoneChain(zone[a := h'], array'[j], r.lists[j])
    {
      ListIs(s.zones, s.lists[j], j, a);
      if j == h.index && h.nfree == 0 {
        ChainPush(zone, zoneArray[j], s.lists[j], a, h');
      } else {
        ChainElse(zone, zoneArray[j], s.lists[j], a, h');
      }
    }
    ReturnedFiled(c, s, a, k);
  }

  lemma ReturnedFiled(c: Config, s: Slab, a: nat, k: int)
    requires SlabOk(c, s) && a in s.zones && s.zones[a].index < NZONES
    ensures Filed(Returned(s, a, k)) && a in Returned(s, a, k).lists[s.zones[a].index]
  {
    hide ListOk, ZoneOk, OwnedOk, ChunkGiven;
    GivenIs(s.zones[a], k);
    var r := Returned(s, a, k);
    var i := s.zones[a].index;
    ListIs(s.zones, s.lists[i], i, a);
    assert ([a] + s.lists[i])[0] == a;
    forall j | 0 <= j < NZONES
      ensures Distinct(r.lists[j]) && forall x :: x in r.lists[j] ==> x in r.zones && r.zones[x].index == j
    {
      ListIs(s.zones, s.lists[j], j, a);
      MembersIndexed(s.zones, s.lists[j], j);
      if j == i && s.zones[a].nfree == 0 {
        DistinctPrepend(s.lists[j], a);
      }
    }
  }

  lemma MembersIndexed(zones: map<nat, Zone>, list: seq<nat>, i: nat)
    requires ListOk(zones, list, i)
    ensures forall x :: x in list ==> x in zones && zones[x].index == i
  {
  }

  // ----- Retiring a zone -----

  /** The two ways the source's test says that another zone is on the list. */
  lemma OthersOnList(zone: map<nat, Header>, first: int, list: seq<nat>, a: nat)
    requires ZoneChain(zone, first, list) && a in list && Distinct(list)
    ensures a in zone
    ensures list != [a] <==> zone[a].next != NULL || first != a
  {
    var k := PositionOf(list, a);
    assert zone[list[k]].next == Nth(list, k + 1);
    if list == [a] {
    } else if |list| > 1 && k == 0 {
      assert list[1] >= 0;
    } else {
      assert list[0] != list[k];
    }
  }

  /** Bypassing position k: from the list head, or from the zone before it. */
  lemma ChainBypass(zone: map<nat, Header>, first: int, list: seq<nat>, k: nat)
    requires ZoneChain(zone, first, list) && Distinct(list) && k < |list|
    ensures list[k] in zone
    ensures k == 0 ==> ZoneChain(zone, zone[list[0]].next, Without(list, 0))
    ensures k > 0 ==> list[k - 1] in zone
    ensures k > 0 ==>
            ZoneChain(zone[list[k - 1] := zone[list[k - 1]].(next := zone[list[k]].next)], first, Without(list, k))
  {
    var l := Without(list, k);
    if k == 0 {
      ChainPop(zone, first, list);
      assert l == list[1..];
    } else {
      var p := list[k - 1];
      assert zone[p].next == Nth(list, k);
      var zone' := zone[p := zone[p].(next := zone[list[k]].next)];
      forall i | 0 <= i < |l|
        ensures l[i] in zone' && zone'[l[i]].next == Nth(l, i + 1)
      {
        var o := if i < k then i else i + 1;
        assert l[i] == list[o];
        assert zone[list[o]].next == Nth(list, o + 1);
        assert zone[list[k]].next == Nth(list, k + 1);
        if i + 1 < |l| {
          assert l[i + 1] == list[if i + 1 < k then i + 1 else i + 2];
        }
        if o != k - 1 {
          assert list[o] != p;
        }
      }
    }
  }

  /** The zone table after the bypass; prev is NULL when the list head is rewritten. */
  function Bypassed(zone: map<nat, Header>, prev: int, to: int): map<nat, Header>
    requires prev == NULL || (prev >= 0 && prev in zone)
  {
    if prev == NULL then zone else zone[prev := zone[prev].(next := to)]
  }

  ghost function PrevZone(list: seq<nat>, k: nat): int
    requires k <= |list|
  {
    if k == 0 then NULL else list[k - 1]
  }

  /** rt_free takes a wholly free zone off its list and puts it in front of the cache. */
  lemma RetirePrepares(c: Config, zone: map<nat, Header>, zoneArray: seq<int>, zoneFree: int, zoneFreeCnt: nat,
                       usage: map<nat, Usage>, used: int, peak: int, r: Slab, a: nat, k: nat)
    requires Rep(c, zone, zoneArray, zoneFree, zoneFreeCnt, usage, used, peak, r) && Filed(r)
    requires a in r.zones && r.zones[a].index < NZONES && k < |r.lists[r.zones[a].index]|
             && r.lists[r.zones[a].index][k] == a
    ensures a in zone
    ensures var i := r.zones[a].index;
            var prev := PrevZone(r.lists[i], k);
            && (prev == NULL || (prev >= 0 && prev in zone))
            && a in Bypassed(zone, prev, zone[a].next)
            && Rep(c, Bypassed(zone, prev, zone[a].next)[a := zone[a].(next := zoneFree)],
                   if prev == NULL then zoneArray[i := zone[a].next] else zoneArray,
                   a, zoneFreeCnt + 1, usage, used, peak,
                   r.(zones := r.zones - {a}, lists := r.lists[i := Drop(r.lists[i], a)], cached := [a] + r.cached))
  {
    hide HeaderOk, ZoneChain, ZoneUsage, Distinct, Drop;
    var i := r.zones[a].index;
    var list := r.lists[i];
    DropAt(list, k);
    ChainBypass(zone, zoneArray[i], list, k);
    assert list[k] in list;
    var prev := PrevZone(list, k);
    var to := zone[a].next;
    var zone1 := Bypassed(zone, prev, to);
    var zone2 := zone1[a := zone[a].(next := zoneFree)];
    BypassHeaders(zone, r.zones, prev, to, a, zoneFree);
    BypassCache(r, zone, zoneFree, i, k, prev, to, a);
    var array' := if prev == NULL then zoneArray[i := to] else zoneArray;
    var lists' := r.lists[i := Drop(list, a)];
    forall j | 0 <= j < NZONES
      ensures ZoneChain(zone2, array'[j], lists'[j])
    {
      BypassLists(r, zone, zoneArray, i, k, prev, to, a, zoneFree, j);
    }
  }

  lemma BypassHeaders(zone: map<nat, Header>, zones: map<nat, Zone>, prev: int, to: int, a: nat, zoneFree: int)
    requires HeadersOk(zone, zones) && a in zone && (prev == NULL || (prev >= 0 && prev in zone))
    ensures HeadersOk(Bypassed(zone, prev, to)[a := zone[a].(next := zoneFree)], zones - {a})
  {
    hide ChunkChain;
    forall b | b in zones && b != a
      ensures b in Bypassed(zone, prev, to) && HeaderOk(Bypassed(zone, prev, to)[b], zones[b])
    {
      ChunkChainSame(zone[b], Bypassed(zone, prev, to)[b], zones[b].free);
    }
  }

  lemma PrevApart(r: Slab, i: nat, k: nat, a: nat)
    requires Filed(r) && i < NZONES && k < |r.lists[i]| && r.lists[i][k] == a
    ensures var prev := PrevZone(r.lists[i], k);
            prev == NULL || (prev >= 0 && prev in r.lists[i] && prev in r.zones && prev != a)
    ensures a in r.zones && r.zones[a].index == i
  {
    assert r.lists[i][k] in r.lists[i];
    if k > 0 {
      assert r.lists[i][k - 1] in r.lists[i];
    }
  }

  lemma BypassCache(r: Slab, zone: map<nat, Header>, zoneFree: int, i: nat, k: nat, prev: int, to: int, a: nat)
    requires Filed(r) && i < NZONES && k < |r.lists[i]| && r.lists[i][k] == a && prev == PrevZone(r.lists[i], k)
    requires ZoneChain(zone, zoneFree, r.cached) && a in zone && (prev == NULL || (prev >= 0 && prev in zone))
    ensures ZoneChain(Bypassed(zone, prev, to)[a := zone[a].(next := zoneFree)], a, [a] + r.cached)
  {
    hide ZoneChain, Distinct;
    PrevApart(r, i, k, a);
    if prev != NULL {
      ChainElse(zone, zoneFree, r.cached, prev, zone[prev].(next := to));
    }
    ChainPush(Bypassed(zone, prev, to), zoneFree, r.cached, a, zone[a].(next := zoneFree));
  }

  lemma BypassLists(r: Slab, zone: map<nat, Header>, zoneArray: seq<int>, i: nat, k: nat, prev: int, to: int, a: nat,
                    zoneFree: int, j: nat)
    requires Filed(r) && i < NZONES && k < |r.lists[i]| && r.lists[i][k] == a && prev == PrevZone(r.lists[i], k)
    requires ChainsOk(zone, zoneArray, r.lists) && a in zone && to == zone[a].next && j < NZONES
    requires prev == NULL || (prev >= 0 && prev in zone)
    ensures ZoneChain(Bypassed(zone, prev, to)[a := zone[a].(next := zoneFree)],
                      (if prev == NULL then zoneArray[i := to] else zoneArray)[j], r.lists[i := Drop(r.lists[i], a)][j])
  {
    hide ZoneChain, Distinct, Drop;
    PrevApart(r, i, k, a);
    var list := r.lists[i];
    var h := zone[a].(next := zoneFree);
    if j == i {
      DropAt(list, k);
      ChainBypass(zone, zoneArray[i], list, k);
      InDrop(list, a);
      ChainElse(Bypassed(zone, prev, to), if prev == NULL then to else zoneArray[i], Drop(list, a), a, h);
    } else {
      if prev != NULL {
        ChainElse(zone, zoneArray[j], r.lists[j], prev, zone[prev].(next := to));
      }
      ChainElse(Bypassed(zone, prev, to), zoneArray[j], r.lists[j], a, h);
    }
  }

  /** A cache over its limit gives its first zone, the one just retired, back to the page allocator. */
  lemma ReleasePrepares(c: Config, zone: map<nat, Header>, zoneArray: seq<int>, zoneFree: int, zoneFreeCnt: nat,
                        usage: map<nat, Usage>, usage': map<nat, Usage>, used: int, peak: int, t: Slab, t': Slab)
    requires c.Ok() && Rep(c, zone, zoneArray, zoneFree, zoneFreeCnt, usage, used, peak, t) && t.cached != []
    requires t' == t.(cached := t.cached[1..], runs := t'.runs, owned := t'.owned)
    requires UsageElse(usage, usage', t.cached[0], c.Pages())
    requires KindsOk(c, t') && forall b :: b in t'.owned ==>
             t'.owned[b] > 0 && (t.cached[0] + c.Pages() <= b || b + t'.owned[b] <= t.cached[0])
    ensures zoneFree == t.cached[0] && t.cached[0] in zone && zoneFreeCnt > 0
    ensures Rep(c, zone, zoneArray, zone[t.cached[0]].next, zoneFreeCnt - 1, usage', used, peak, t')
  {
    hide HeadersOk, ZoneChain, ZoneUsage, UsageElse, Distinct, KindsOk;
    ChainPop(zone, zoneFree, t.cached);
    FewerUsage(c, usage, t, t');
    UsageFresh(c, usage, usage', t', t.cached[0], c.Pages());
  }

  lemma FewerUsage(c: Config, usage: map<nat, Usage>, t: Slab, t': Slab)
    requires UsageOk(c, usage, t) && t.cached != [] && t'.zones == t.zones && t'.large == t.large
             && t'.cached == t.cached[1..]
    ensures UsageOk(c, usage, t')
  {
    hide ZoneUsage;
  }

  // ----- Finding the zone of a pointer -----

  /** The page of a chunk lies in its zone, and its descriptor says where in the zone. */
  lemma ZoneOfPtr(c: Config, zone: map<nat, Header>, usage: map<nat, Usage>, s: Slab, a: nat, k: int)
    requires SlabOk(c, s) && UsageOk(c, usage, s) && a in s.zones && LiveChunk(s.zones[a], k)
    ensures var ptr := s.zones[a].base + k * s.zones[a].size;
            ptr >= 0 && ptr / PAGE in usage && usage[ptr / PAGE].kind == SmallPage
              && ptr / PAGE - usage[ptr / PAGE].size == a
  {
    hide ListOk, Distinct, OwnedOk, SizeOf, LiveChunk, ZoneOk;
    ZoneAt(c, s.zones, a);
    InsideZone(c, a, s.zones[a], k);
    var ptr := s.zones[a].base + k * s.zones[a].size;
    ZoneSizePositive(c, a, s.zones[a]);
    assert a <= ptr / PAGE < a + c.Pages();
  }

  lemma ZoneSizePositive(c: Config, a: int, z: Zone)
    requires ZoneOk(c, a, z)
    ensures z.size > 0
  {
    SizePositive(z.index);
  }

  class SlabAllocator {
    const c: Config
    const pages: PageAllocator
    var zone: map<nat, Header>
    var zoneArray: seq<int>
    var zoneFree: int
    var zoneFreeCnt: nat
    var usage: map<nat, Usage>
    var used: int
    var peak: int
    const bytes: array<bv8>          // the data; headers, links and descriptors are the fields above
    ghost var abs: Slab

    ghost predicate Matches()
      reads this
    {
      Rep(c, zone, zoneArray, zoneFree, zoneFreeCnt, usage, used, peak, abs)
    }

    ghost predicate Valid()
      reads this, pages
    {
      pages.Valid() && pages.runs == abs.runs && SlabOk(c, abs) && Matches()
    }

    /** The pages are those of `bytes`: behind the descriptors each is free or owned. */
    ghost predicate Held()
      reads this
    {
      bytes.Length % PAGE == 0 && Accounted(Descriptors(bytes.Length / PAGE), bytes.Length / PAGE, abs.runs, abs.owned)
    }

    /** rt_system_heap_init over n pages: all are free, then the first ones are taken for the descriptors. */
    constructor (n: nat)
      requires n > 0
      ensures Valid() && Held() && fresh(pages) && fresh(bytes) && bytes.Length == n * PAGE
      ensures c == Config(ZoneSize(n * PAGE)) && abs == Booted(n)
    {
      var heap := new PageAllocator(0, n);
      var size := ZoneSizeFor(n * PAGE);
      DescriptorsFit(n);
      BootedOk(n);
      var descriptors := heap.Alloc(Descriptors(n));
      c := Config(size);
      pages := heap;
      zone := map[];
      zoneArray := seq(NZONES, _ => NULL);
      zoneFree := NULL;
      zoneFreeCnt := 0;
      usage := map[];
      used := 0;
      peak := 0;
      bytes := new bv8[n * PAGE];
      abs := Booted(n);
      new;
      InitialSlab(c, pages.runs);
      DivMul(n, PAGE);
    }

    /** The chunk of the first zone on a list. */
    method TakeChunk(i: nat) returns (ptr: int, ghost x: Alloc)
      requires Valid() && i < NZONES && abs.lists[i] != []
      modifies this
      ensures Valid() && old(abs.lists[i][0] in abs.zones && abs.zones[abs.lists[i][0]].nfree > 0)
      ensures (abs, x) == old(FromZone(abs, i)) && Live(abs, x) && ptr == Ptr(abs, x) && x != None
    {
      hide SlabOk, Rep, FromZone, TakenHeader, ChunkTaken, Live;
      FromZoneKeeps(c, abs, i);
      FromZoneGives(c, abs, i, None);
      TakePrepares(c, zone, zoneArray, zoneFree, zoneFreeCnt, usage, used, peak, abs, i);
      ArrayHead(c, zone, zoneArray, zoneFree, zoneFreeCnt, usage, used, peak, abs, i);
      TakenIs(abs, i);
      FromZonePages(abs, i);
      var a := FirstZone(i);
      var h := zone[a];
      ghost var r := FromZone(abs, i);
      TakenHeaderIs(h);
      if h.nfree == 1 {
        zoneArray := zoneArray[i := h.next];
        h := h.(next := NULL);
      }
      h := h.(nfree := h.nfree - 1);
      if h.uindex + 1 != h.nmax {
        h := h.(uindex := h.uindex + 1);
        ptr := h.base + h.uindex * h.size;
      } else {
        ptr := h.freeChunk;
        h := h.(freeChunk := h.chunk[h.freeChunk]);
      }
      used := used + h.size;
      if used > peak {
        peak := used;
      }
      zone := zone[a := h];
      abs := r.0;
      x := r.1;
    }

    /** zone_array[i], which is not empty. */
    method FirstZone(i: nat) returns (a: nat)
      requires i < NZONES && i < |zoneArray| && zoneArray[i] >= 0
      ensures a == zoneArray[i]
    {
      a := zoneArray[i];
    }

    /** Lays out zone a for index i and gives its first chunk; s is the state with the zone's pages at hand. */
    method OpenZone(a: nat, i: nat, ghost s: Slab) returns (ptr: int, ghost x: Alloc)
      requires c.Ok() && i < NZONES && SizeOf(i) <= c.Limit() && |zoneArray| == NZONES && |s.lists| == NZONES
      requires Rep(c, zone, zoneArray, zoneFree, zoneFreeCnt, usage, used, peak, s) && ListsOk(s.zones, s.lists)
      requires a !in s.zones && a !in s.cached && a !in s.large && ZoneUsage(c, usage, a)
      modifies this`zone, this`zoneArray, this`used, this`peak, this`abs
      ensures Matches() && (abs, x) == Opened(c, s, a, i) && Live(abs, x) && ptr == Ptr(abs, x) && x != None
    {
      hide Rep, ListsOk, ListOk, Opened, ZoneUsage, SizeOf, Capacity, NewHeader;
      CanOpen(c, i);
      OpenPrepares(c, zone, zoneArray, zoneFree, zoneFreeCnt, usage, used, peak, s, a, i);
      OpenedIs(c, s, a, i);
      var size := SizeOf(i);
      zone := zone[a := NewHeader(c, a, i, zoneArray[i])];
      zoneArray := zoneArray[i := a];
      ptr := a * PAGE + Offset(size);
      used := used + size;
      if used > peak {
        peak := used;
      }
      abs := Opened(c, s, a, i).0;
      x := Opened(c, s, a, i).1;
    }

    /** The loop over the descriptors of a new zone. */
    method MarkZone(a: nat)
      modifies this`usage
      ensures ZoneUsage(c, usage, a) && UsageElse(old(usage), usage, a, c.Pages())
    {
      var off := 0;
      while off < c.Pages()
        invariant 0 <= off <= c.Pages()
        invariant forall x: nat :: a <= x < a + off ==> x in usage && usage[x] == Usage(SmallPage, x - a)
        invariant UsageElse(old(usage), usage, a, c.Pages())
      {
        usage := usage[a + off := Usage(SmallPage, off)];
        off := off + 1;
      }
    }

    /** The loop over the descriptors of a zone that is given up. */
    method ClearZone(a: nat)
      modifies this`usage
      ensures UsageElse(old(usage), usage, a, c.Pages())
      ensures forall x: nat :: a <= x < a + c.Pages() ==> x in usage && usage[x] == Usage(FreePage, 0)
    {
      var i := 0;
      while i < c.Pages()
        invariant 0 <= i <= c.Pages()
        invariant UsageElse(old(usage), usage, a, c.Pages())
        invariant forall x: nat :: a <= x < a + i ==> x in usage && usage[x] == Usage(FreePage, 0)
      {
        usage := usage[a + i := Usage(FreePage, 0)];
        i := i + 1;
      }
    }

    /** A request below the zone limit. */
    method MallocSmall(n: nat) returns (ptr: int, ghost x: Alloc)
      requires Valid() && 0 < n < c.Limit()
      modifies this, pages
      ensures Valid() && old(SlabOk(c, abs)) && (abs, x) == old(SlabSpec.Malloc(c, abs, n))
      ensures x == None ==> ptr == NULL
      ensures x != None ==> Live(abs, x) && ptr == Ptr(abs, x)
    {
      hide Rep, ListsOk, OwnedOk, KindsOk, ZonesOk, FromZone, Opened, ZoneIndex, SizeOf, ZoneUsage, Live, UsageElse;
      SmallIndex(c, n);
      MallocKeeps(c, abs, n);
      var i := ZoneIndex(n).0;
      ListsSize(abs);
      ArrayHead(c, zone, zoneArray, zoneFree, zoneFreeCnt, usage, used, peak, abs, i);
      if zoneArray[i] != NULL {
        ptr, x := TakeChunk(i);
        return;
      }
      CacheHead(c, zone, zoneArray, zoneFree, zoneFreeCnt, usage, used, peak, abs);
      if zoneFree != NULL {
        UncachePrepares(c, zone, zoneArray, zoneFree, zoneFreeCnt, usage, used, peak, abs);
        CachedPage(c, abs);
        ghost var s := abs.(cached := abs.cached[1..]);
        var a := zoneFree;
        zoneFree := zone[a].next;
        zoneFreeCnt := zoneFreeCnt - 1;
        OpenedRuns(c, s, a, i);
        ptr, x := OpenZone(a, i, s);
      } else {
        ptr, x := MallocZone(i, n);
      }
    }

    /** No zone at hand: one is made of new pages. */
    method MallocZone(i: nat, ghost n: nat) returns (ptr: int, ghost x: Alloc)
      requires Valid() && 0 < n < c.Limit() && i == ZoneIndex(n).0 && i < NZONES && SizeOf(i) <= c.Limit()
      requires abs.lists[i] == [] && abs.cached == []
      modifies this, pages
      ensures Valid() && old(SlabOk(c, abs)) && (abs, x) == old(SlabSpec.Malloc(c, abs, n))
      ensures x == None ==> ptr == NULL
      ensures x != None ==> Live(abs, x) && ptr == Ptr(abs, x)
    {
      hide Rep, ListsOk, OwnedOk, KindsOk, ZonesOk, FromZone, Opened, ZoneIndex, SizeOf, ZoneUsage, Live, UsageElse,
        Allocated, AllocatedAt;
      MallocKeeps(c, abs, n);
      ListsSize(abs);
      LimitPositive(c);
      ArrayHead(c, zone, zoneArray, zoneFree, zoneFreeCnt, usage, used, peak, abs, i);
      NoPages(abs, c.Pages());
      ghost var before := abs;
      ghost var usage0 := usage;
      var a := pages.Alloc(c.Pages());
      if a == NULL {
        return NULL, None;
      }
      FreshPages(c, before, c.Pages());
      MarkZone(a);
      PagesPrepare(c, zone, zoneArray, zoneFree, zoneFreeCnt, usage0, usage, used, peak, before, c.Pages());
      ptr, x := OpenZone(a, i, WithPages(before, c.Pages()));
      OpenedRuns(c, WithPages(before, c.Pages()), a, i);
    }

    /** A request of zone_limit or more bytes takes whole pages. */
    method MallocLarge(n: nat) returns (ptr: int, ghost x: Alloc)
      requires Valid() && n >= c.Limit()
      modifies this, pages
      ensures Valid() && old(SlabOk(c, abs)) && (abs, x) == old(SlabSpec.Malloc(c, abs, n))
      ensures x == None ==> ptr == NULL
      ensures x != None ==> Live(abs, x) && ptr == Ptr(abs, x)
    {
      hide Rep, ListsOk, OwnedOk, KindsOk, ZonesOk, UsageElse, Allocated, AllocatedAt, UpTo;
      MallocKeeps(c, abs, n);
      LimitPositive(c);
      LargePages(n);
      ghost var before := abs;
      var count := UpTo(n, PAGE) / PAGE;
      NoPages(abs, count);
      var a := pages.Alloc(count);
      if a == NULL {
        return NULL, None;
      }
      DescribePrepares(usage, a, count);
      PagesPrepare(c, zone, zoneArray, zoneFree, zoneFreeCnt, usage, usage[a := Usage(LargePage, count)], used, peak,
        before, count);
      ghost var after := WithPages(before, count).(large := before.large[a := count]);
      ChargedRep(c, zone, zoneArray, zoneFree, zoneFreeCnt, usage[a := Usage(LargePage, count)], used, peak, after,
        count * PAGE);
      usage := usage[a := Usage(LargePage, count)];
      used := used + count * PAGE;
      if used > peak {
        peak := used;
      }
      abs := Charged(after, count * PAGE);
      ptr := a * PAGE;
      x := Large(a);
    }

    /** rt_malloc. */
    method Malloc(n: nat) returns (ptr: int, ghost x: Alloc)
      requires Valid()
      modifies this, pages
      ensures Valid() && old(SlabOk(c, abs)) && (abs, x) == old(SlabSpec.Malloc(c, abs, n))
      ensures x == None ==> ptr == NULL
      ensures x != None ==> Live(abs, x) && ptr == Ptr(abs, x)
    {
      hide Rep, SlabOk, Live;
      if n == 0 {
        MallocZero(c, abs);
        return NULL, None;
      }
      if n >= c.Limit() {
        ptr, x := MallocLarge(n);
      } else {
        ptr, x := MallocSmall(n);
      }
    }

    /** The first half of rt_free for a chunk: back on its zone's free list, and the zone back on its list. */
    method ReturnChunk(a: nat, ptr: int, ghost k: int)
      requires Valid() && a in abs.zones && LiveChunk(abs.zones[a], k)
               && ptr == abs.zones[a].base + k * abs.zones[a].size
      modifies this
      ensures Matches() && old(a in abs.zones && abs.zones[a].index < |abs.lists|) && abs == old(Returned(abs, a, k))
      ensures Filed(abs) && a in abs.zones && abs.zones[a].index < NZONES && a in abs.lists[abs.zones[a].index]
    {
      hide Rep, SlabOk, ListsOk, Returned, GivenHeader, Filed, LiveChunk, ChunkGiven;
      GivePrepares(c, zone, zoneArray, zoneFree, zoneFreeCnt, usage, used, peak, abs, a, k);
      GivenHeaderIs(zone[a], ptr, zoneArray[zone[a].index]);
      ReturnedIs(abs, a, k);
      ghost var s := Returned(abs, a, k);
      var h := zone[a];
      h := h.(chunk := h.chunk[ptr := h.freeChunk], freeChunk := ptr);
      used := used - h.size;
      if h.nfree == 0 {
        h := h.(next := zoneArray[h.index]);
        zoneArray := zoneArray[h.index := a];
      }
      h := h.(nfree := h.nfree + 1);
      zone := zone[a := h];
      abs := s;
    }

    /** The walk to a zone on its list: the zone before it, or NULL when it is the first. */
    method FindOnList(a: nat, i: nat) returns (prev: int, ghost k: nat)
      requires Matches() && i < NZONES && |zoneArray| == NZONES == |abs.lists| && a in abs.lists[i]
      ensures k < |abs.lists[i]| && abs.lists[i][k] == a && prev == PrevZone(abs.lists[i], k)
    {
      hide HeadersOk, ZoneChain, UsageOk;
      ghost var list := abs.lists[i];
      k := 0;
      prev := NULL;
      var cur := zoneArray[i];
      NodeOf(zone, zoneArray[i], list, 0);
      while cur != a
        invariant k < |list| && cur == Nth(list, k) && prev == PrevZone(list, k)
        invariant forall j :: 0 <= j < k ==> list[j] != a
        decreases |list| - k
      {
        NodeOf(zone, zoneArray[i], list, k);
        prev := cur;
        cur := zone[cur].next;
        k := k + 1;
        StillAhead(list, a, k);
      }
    }

    /** Takes a wholly free zone off its list, wherever it stands, and caches it. */
    method Cache(a: nat, i: nat)
      requires Matches() && Filed(abs) && a in abs.zones && abs.zones[a].index == i && i < NZONES && a in abs.lists[i]
      modifies this
      ensures Matches() && old(i < |abs.lists|)
      ensures abs == old(abs.(zones := abs.zones - {a}, lists := abs.lists[i := Drop(abs.lists[i], a)],
              cached := [a] + abs.cached))
    {
      hide HeadersOk, ZoneChain, UsageOk, Drop, Distinct, Bypassed;
      var prev;
      ghost var k;
      prev, k := FindOnList(a, i);
      RetirePrepares(c, zone, zoneArray, zoneFree, zoneFreeCnt, usage, used, peak, abs, a, k);
      BypassedIs(zone, prev, zone[a].next);
      ghost var s :=
        abs.(zones := abs.zones - {a}, lists := abs.lists[i := Drop(abs.lists[i], a)], cached := [a] + abs.cached);
      var h := zone[a];
      if prev == NULL {
        zoneArray := zoneArray[i := h.next];
      } else {
        zone := zone[prev := zone[prev].(next := h.next)];
      }
      zone := zone[a := h.(next := zoneFree)];
      zoneFree := a;
      zoneFreeCnt := zoneFreeCnt + 1;
      abs := s;
    }

    /** A chunk of a zone. */
    method FreeSmall(a: nat, ptr: int, ghost k: int)
      requires Valid() && a in abs.zones && LiveChunk(abs.zones[a], k)
               && ptr == abs.zones[a].base + k * abs.zones[a].size
      modifies this, pages
      ensures Valid() && old(SlabOk(c, abs) && Live(abs, Small(a, k))) && abs == old(SlabSpec.Free(c, abs, Small(a, k)))
    {
      hide Rep, SlabOk, Returned, Retired, LiveChunk, Filed, Drop, ChunkGiven, Distinct;
      ghost var s := abs;
      FreeKeeps(c, s, Small(a, k));
      FreeSmallIs(c, s, a, k);
      ReturnChunk(a, ptr, k);
      ghost var r := abs;
      FiledList(c, zone, zoneArray, zoneFree, zoneFreeCnt, usage, used, peak, abs, a);
      if zone[a].nfree == zone[a].nmax && (zone[a].next != NULL || zoneArray[zone[a].index] != a) {
        Cache(a, zone[a].index);
        CachedCount(c, zone, zoneArray, zoneFree, zoneFreeCnt, usage, used, peak, abs);
        if zoneFreeCnt > ZONE_RELEASE_THRESH {
          Release(s, r, a, k);
        }
      }
    }

    /** The cache is over its limit: its first zone goes back to the page allocator. */
    method Release(ghost s: Slab, ghost r: Slab, ghost a: nat, ghost k: int)
      requires pages.Valid() && pages.runs == abs.runs && Matches()
      requires SlabOk(c, s) && a in s.zones && LiveChunk(s.zones[a], k) && s.zones[a].index < |s.lists|
               && r == Returned(s, a, k)
      requires a in r.zones && r.zones[a].index < |r.lists| && |r.cached| >= ZONE_RELEASE_THRESH
      requires SlabOk(c, Retired(c, r, a)) && r.zones[a].nfree == r.zones[a].nmax
      requires abs == r.(zones := r.zones - {a},
               lists := r.lists[r.zones[a].index := Drop(r.lists[r.zones[a].index], a)], cached := [a] + r.cached)
      modifies this, pages
      ensures pages.Valid() && pages.runs == abs.runs && Matches() && abs == Retired(c, r, a)
    {
      hide Rep, SlabOk, Returned, LiveChunk, Drop, ChunkGiven, Distinct, UsageElse, Freed, RowUsed;
      ReleasedIs(c, s, r, a, k);
      ghost var t := abs;
      ghost var t' := Retired(c, r, a);
      ghost var usage0 := usage;
      CacheHead(c, zone, zoneArray, zoneFree, zoneFreeCnt, usage, used, peak, abs);
      var z := zoneFree;
      ClearZone(z);
      ReleasePrepares(c, zone, zoneArray, zoneFree, zoneFreeCnt, usage0, usage, used, peak, t, t');
      zoneFree := zone[z].next;
      zoneFreeCnt := zoneFreeCnt - 1;
      abs := t';
      pages.Free(z, c.Pages());
    }

    /** Whole pages. */
    method FreeLarge(page: nat)
      requires Valid() && page in abs.large
      modifies this, pages
      ensures Valid() && old(SlabOk(c, abs) && Live(abs, Large(page))) && abs == old(SlabSpec.Free(c, abs, Large(page)))
    {
      hide Rep, OwnedOk, KindsOk, ZonesOk, ListsOk, Freed, RowUsed;
      FreeKeeps(c, abs, Large(page));
      LargeFreePrepares(c, zone, zoneArray, zoneFree, zoneFreeCnt, usage, used, peak, abs, page);
      ghost var s := SlabSpec.Free(c, abs, Large(page));
      var size := usage[page].size;
      usage := usage[page := Usage(LargePage, 0)];
      used := used - size * PAGE;
      abs := s;
      pages.Free(page, size);
    }

    /** rt_free; ptr is NULL or points to a live allocation. */
    method Free(ptr: int, ghost x: Alloc)
      requires Valid() && (x == None ==> ptr == NULL) && (x != None ==> Live(abs, x) && ptr == Ptr(abs, x))
      modifies this, pages
      ensures Valid() && old(SlabOk(c, abs) && (x != None ==> Live(abs, x))) && abs == old(SlabSpec.Free(c, abs, x))
    {
      hide Rep, SlabOk, LiveChunk;
      if ptr == NULL {
        NullIsNone(c, abs, x);
        return;
      }
      PtrPage(c, zone, zoneArray, zoneFree, zoneFreeCnt, usage, used, peak, abs, x);
      var page := ptr / PAGE;
      if usage[page].kind == LargePage {
        FreeLarge(page);
      } else {
        FreeSmall(page - usage[page].size, ptr, x.chunk);
      }
    }

    /** rt_realloc. */
    method Realloc(ptr: int, n: nat, ghost x: Alloc) returns (to: int, ghost y: Alloc)
      requires Valid() && Held() && (x == None ==> ptr == NULL) && (x != None ==> Live(abs, x) && ptr == Ptr(abs, x))
      modifies this, pages, bytes
      ensures Valid() && Held() && old(SlabOk(c, abs) && (x != None ==> Live(abs, x)))
              && (abs, y) == old(SlabSpec.Realloc(c, abs, x, n))
      ensures y == None ==> to == NULL
      ensures y != None ==> Live(abs, y) && to == Ptr(abs, y)
      ensures if n > 0 && x != None && y != None && y != x then
                Carried(old(bytes[..]), bytes[..], to, ptr, old(Smaller(Len(abs, x), Asked(x, n))))
              else bytes[..] == old(bytes[..])
    {
      hide Rep, SlabOk, LiveChunk, SlabSpec.Free, SlabSpec.Malloc, ZoneIndex, Accounted, Carried;
      if ptr == NULL {
        NullIsNone(c, abs, x);
        MallocAccounts(c, abs, n, Descriptors(bytes.Length / PAGE), bytes.Length / PAGE);
        to, y := Malloc(n);
        return;
      }
      if n == 0 {
        FreeAccounts(c, abs, x, Descriptors(bytes.Length / PAGE), bytes.Length / PAGE);
        Free(ptr, x);
        return NULL, None;
      }
      PtrPage(c, zone, zoneArray, zoneFree, zoneFreeCnt, usage, used, peak, abs, x);
      var page := ptr / PAGE;
      if usage[page].kind == LargePage {
        to, y := Move(ptr, n, usage[page].size * PAGE, x);
      } else {
        var size := ZoneIndex(n).1;
        var a := page - usage[page].size;
        if zone[a].size == size {
          return ptr, x;
        }
        to, y := Move(ptr, size, zone[a].size, x);
      }
    }

    /** Allocate, copy, free. */
    method Move(ptr: int, n: nat, osize: nat, ghost x: Alloc) returns (to: int, ghost y: Alloc)
      requires Valid() && Held() && Live(abs, x) && ptr == Ptr(abs, x) && osize == Len(abs, x)
      modifies this, pages, bytes
      ensures Valid() && Held() && old(SlabOk(c, abs) && Live(abs, x)) && (abs, y) == old(Moved(c, abs, x, n))
      ensures y == None ==> to == NULL
      ensures y != None ==> Live(abs, y) && to == Ptr(abs, y)
      ensures if y != None then Carried(old(bytes[..]), bytes[..], to, ptr, Smaller(osize, n)) && y != x
              else bytes[..] == old(bytes[..])
    {
      hide Rep, SlabOk, Live, Ptr, Len, SlabSpec.Free, SlabSpec.Malloc, Accounted, Carried;
      ghost var s := abs;
      MallocKeeps(c, s, n);
      MallocGives(c, s, n, x);
      NotNone(s, x);
      MovedKeeps(c, s, x, n, Descriptors(bytes.Length / PAGE), bytes.Length / PAGE);
      to, y := Malloc(n);
      NullMeansNone(c, abs, y, to);
      if to == NULL {
        return;
      }
      MoveRegions(c, s, x, n, Descriptors(bytes.Length / PAGE), bytes.Length / PAGE);
      Memcpy(bytes, to, ptr, if n > osize then osize else n);
      FreeTakes(c, abs, x, y);
      Free(ptr, x);
    }
  }

  /** The size rt_realloc asks of rt_malloc. */
  function Asked(x: Alloc, n: nat): nat
    requires n > 0
  {
    if x.Large? then n else ZoneIndex(n).1
  }

  /** A live allocation lies in the heap's bytes. */
  lemma InHeap(c: Config, s: Slab, x: Alloc, lo: nat, total: nat)
    requires SlabOk(c, s) && Live(s, x) && Accounted(lo, total, s.runs, s.owned)
    ensures 0 <= Ptr(s, x) && Ptr(s, x) + Len(s, x) <= total * PAGE
  {
    hide SlabOk, Live, Ptr, Len;
    NotNone(s, x);
    Inside(c, s, x);
    var a := OwnerOf(x);
    OwnerPositive(c, s, a);
    assert Within(a, s.owned[a], a + s.owned[a] - 1);
    assert IsOwned(s.owned, a + s.owned[a] - 1);
    MulMono(a + s.owned[a], total, PAGE);
  }

  lemma OwnerPositive(c: Config, s: Slab, a: nat)
    requires SlabOk(c, s) && a in s.owned
    ensures s.owned[a] > 0
  {
  }

  /** Where rt_realloc copies from and to. */
  lemma MoveRegions(c: Config, s: Slab, x: Alloc, n: nat, lo: nat, total: nat)
    requires SlabOk(c, s) && Live(s, x) && Accounted(lo, total, s.runs, s.owned) && SlabSpec.Malloc(c, s, n).1 != None
    ensures var r := SlabSpec.Malloc(c, s, n);
            && Live(r.0, r.1) && r.1 != x
            && var m, ptr, to := Smaller(Len(s, x), n), Ptr(s, x), Ptr(r.0, r.1);
            && 0 <= ptr && 0 <= to && ptr + m <= total * PAGE && to + m <= total * PAGE
            && (ptr + m <= to || to + m <= ptr)
  {
    hide SlabOk, Live, Ptr, Len, SlabSpec.Malloc, Accounted;
    var r := SlabSpec.Malloc(c, s, n);
    MallocKeeps(c, s, n);
    MallocGives(c, s, n, x);
    MallocAccounts(c, s, n, lo, total);
    InHeap(c, s, x, lo, total);
    InHeap(c, r.0, r.1, lo, total);
    LiveApart(c, r.0, x, r.1);
  }

  lemma NullIsNone(c: Config, s: Slab, x: Alloc)
    requires SlabOk(c, s) && (x != None ==> Live(s, x) && Ptr(s, x) == NULL)
    ensures x == None
  {
    hide OwnedOk, KindsOk, ZonesOk, ListsOk;
    if x != None {
      Inside(c, s, x);
    }
  }

  lemma NullMeansNone(c: Config, s: Slab, y: Alloc, ptr: int)
    requires SlabOk(c, s) && (y == None ==> ptr == NULL) && (y != None ==> Live(s, y) && ptr == Ptr(s, y))
    ensures y == None <==> ptr == NULL
  {
    hide OwnedOk, KindsOk, ZonesOk, ListsOk, Live;
    if y != None && ptr == NULL {
      NullIsNone(c, s, y);
    }
  }

  /** The descriptor of a pointer's page tells what it points to. */
  lemma PtrPage(c: Config, zone: map<nat, Header>, zoneArray: seq<int>, zoneFree: int, zoneFreeCnt: nat,
                usage: map<nat, Usage>, used: int, peak: int, s: Slab, x: Alloc)
    requires SlabOk(c, s) && Rep(c, zone, zoneArray, zoneFree, zoneFreeCnt, usage, used, peak, s) && Live(s, x)
    ensures Ptr(s, x) >= 0 && Ptr(s, x) / PAGE in usage
    ensures usage[Ptr(s, x) / PAGE].kind == LargePage <==> x.Large?
    ensures x.Large? ==> Ptr(s, x) / PAGE == x.page && usage[x.page].size == s.large[x.page]
    ensures x.Small? ==> Ptr(s, x) / PAGE - usage[Ptr(s, x) / PAGE].size == x.zone
    ensures x.Small? ==> x.zone in zone && zone[x.zone].size == s.zones[x.zone].size
  {
    hide OwnedOk, KindsOk, ZonesOk, ListsOk, LiveChunk, ChainsOk, ZoneChain, ChunkChain, ZoneUsage;
    if x.Small? {
      ZoneOfPtr(c, zone, usage, s, x.zone, x.chunk);
      HeaderFields(zone[x.zone], s.zones[x.zone]);
    } else {
      DivIs(x.page * PAGE, PAGE, x.page, 0);
    }
  }

  lemma LargeFreePrepares(c: Config, zone: map<nat, Header>, zoneArray: seq<int>, zoneFree: int, zoneFreeCnt: nat,
                          usage: map<nat, Usage>, used: int, peak: int, s: Slab, a: nat)
    requires SlabOk(c, s) && Rep(c, zone, zoneArray, zoneFree, zoneFreeCnt, usage, used, peak, s) && a in s.large
    ensures a in usage && usage[a] == Usage(LargePage, s.large[a]) && s.large[a] > 0 && RowUsed(s.runs, a, s.large[a])
    ensures Rep(c, zone, zoneArray, zoneFree, zoneFreeCnt, usage[a := Usage(LargePage, 0)],
                used - s.large[a] * PAGE, peak,
                SlabSpec.Free(c, s, Large(a)))
  {
    hide HeadersOk, ChainsOk, ZoneChain, ZoneUsage, Coalesced, RowUsed, Freed, ListOk, ZoneOk, Distinct, KindsOk;
    FreeKeeps(c, s, Large(a));
    LargeOwner(c, s, a);
    var s' := SlabSpec.Free(c, s, Large(a));
    UsageFresh(c, usage, usage[a := Usage(LargePage, 0)], s', a, s.large[a]);
  }

  lemma LargeOwner(c: Config, s: Slab, a: nat)
    requires KindsOk(c, s) && a in s.large
    ensures a in s.owned && s.owned[a] == s.large[a]
  {
    hide Distinct;
  }

  lemma ReturnedIs(s: Slab, a: nat, k: int)
    requires a in s.zones && s.zones[a].index < |s.lists| == NZONES
    ensures a in Returned(s, a, k).zones && Returned(s, a, k).zones[a].index == s.zones[a].index
  {
  }

  lemma GivenHeaderIs(h: Header, ptr: int, first: int)
    ensures h.nfree == 0 ==>
            GivenHeader(h, ptr, first)
            == h.(chunk := h.chunk[ptr := h.freeChunk], freeChunk := ptr, next := first, nfree := 1)
    ensures h.nfree > 0 ==>
            GivenHeader(h, ptr, first)
            == h.(chunk := h.chunk[ptr := h.freeChunk], freeChunk := ptr, nfree := h.nfree + 1)
  {
  }

  lemma NodeOf(zone: map<nat, Header>, first: int, list: seq<nat>, k: nat)
    requires ZoneChain(zone, first, list) && k < |list|
    ensures first == list[0] && list[k] in zone && zone[list[k]].next == Nth(list, k + 1)
  {
  }

  lemma StillAhead(list: seq<nat>, a: nat, k: nat)
    requires a in list && k <= |list| && forall j :: 0 <= j < k ==> list[j] != a
    ensures k < |list|
  {
  }

  lemma BypassedIs(zone: map<nat, Header>, prev: int, to: int)
    requires prev == NULL || (prev >= 0 && prev in zone)
    ensures prev == NULL ==> Bypassed(zone, prev, to) == zone
    ensures prev != NULL ==> Bypassed(zone, prev, to) == zone[prev := zone[prev].(next := to)]
  {
  }

  lemma FreeSmallIs(c: Config, s: Slab, a: nat, k: int)
    requires SlabOk(c, s) && a in s.zones && LiveChunk(s.zones[a], k)
    ensures s.zones[a].index < |s.lists| == NZONES && Live(s, Small(a, k)) && |s.cached| <= ZONE_RELEASE_THRESH
    ensures var r := Returned(s, a, k);
            && a in r.zones && r.zones[a].index == s.zones[a].index && |r.lists| == NZONES && r.cached == s.cached
               && r.runs == s.runs
            && (r.zones[a].nfree == r.zones[a].nmax && r.lists[r.zones[a].index] != [a] ==>
               SlabSpec.Free(c, s, Small(a, k)) == Retired(c, r, a))
            && (!(r.zones[a].nfree == r.zones[a].nmax && r.lists[r.zones[a].index] != [a]) ==>
               SlabSpec.Free(c, s, Small(a, k)) == r)
            && (|s.cached| < ZONE_RELEASE_THRESH ==>
                  Retired(c, r, a)
                    == r.(zones := r.zones - {a},
                    lists := r.lists[r.zones[a].index := Drop(r.lists[r.zones[a].index], a)], cached := [a] + r.cached))
  {
    hide OwnedOk, ListOk, ZoneOk, Distinct, Drop, LiveChunk, Freed;
    ZoneAt(c, s.zones, a);
    ZoneIndexOk(c, a, s.zones[a]);
    GivenIs(s.zones[a], k);
  }

  lemma FiledList(c: Config, zone: map<nat, Header>, zoneArray: seq<int>, zoneFree: int, zoneFreeCnt: nat,
                  usage: map<nat, Usage>, used: int, peak: int, s: Slab, a: nat)
    requires Rep(c, zone, zoneArray, zoneFree, zoneFreeCnt, usage, used, peak, s) && Filed(s)
    requires a in s.zones && s.zones[a].index < NZONES && a in s.lists[s.zones[a].index]
    ensures a in zone && zone[a].index == s.zones[a].index && zone[a].nfree == s.zones[a].nfree
            && zone[a].nmax == s.zones[a].nmax
    ensures |zoneArray| == NZONES
    ensures s.lists[s.zones[a].index] != [a] <==> zone[a].next != NULL || zoneArray[s.zones[a].index] != a
  {
    hide ZoneChain, UsageOk, Distinct, ChunkChain;
    HeaderFields(zone[a], s.zones[a]);
    OthersOnList(zone, zoneArray[s.zones[a].index], s.lists[s.zones[a].index], a);
  }

  lemma CachedCount(c: Config, zone: map<nat, Header>, zoneArray: seq<int>, zoneFree: int, zoneFreeCnt: nat,
                    usage: map<nat, Usage>, used: int, peak: int, s: Slab)
    requires Rep(c, zone, zoneArray, zoneFree, zoneFreeCnt, usage, used, peak, s)
    ensures zoneFreeCnt == |s.cached|
  {
    hide HeadersOk, ChainsOk, UsageOk, ZoneChain;
  }

  lemma ReleasedIs(c: Config, s: Slab, r: Slab, a: nat, k: int)
    requires SlabOk(c, s) && a in s.zones && s.zones[a].index < |s.lists| && r == Returned(s, a, k)
    requires a in r.zones && r.zones[a].index < |r.lists| && |r.cached| >= ZONE_RELEASE_THRESH
             && SlabOk(c, Retired(c, r, a))
    ensures var t := r.(zones := r.zones - {a},
            lists := r.lists[r.zones[a].index := Drop(r.lists[r.zones[a].index], a)], cached := [a] + r.cached);
            var t' := Retired(c, r, a);
            && c.Ok() && c.Pages() > 0 && t.cached != [] && t.cached[0] == a
            && t' == t.(cached := t.cached[1..], runs := t'.runs, owned := t'.owned)
            && KindsOk(c, t')
            && (forall b :: b in t'.owned ==> t'.owned[b] > 0 && (a + c.Pages() <= b || b + t'.owned[b] <= a))
            && RowUsed(t.runs, a, c.Pages()) && t'.runs == Freed(t.runs, a, c.Pages())
  {
    hide ListOk, ZoneOk, Distinct, Drop, Freed, Coalesced, RowUsed, ChunkGiven;
    assert ([a] + r.cached)[1..] == r.cached;
  }

  /** A failed page allocation leaves the free pages alone. */
  lemma NoPages(s: Slab, n: nat)
    requires Coalesced(s.runs, 0) && n > 0
    ensures AllocatedAt(s.runs, n) == NULL ==> Allocated(s.runs, n) == s.runs
  {
    AllocTakes(s.runs, 0, n, 0);
  }

  lemma MallocZero(c: Config, s: Slab)
    requires SlabOk(c, s)
    ensures SlabSpec.Malloc(c, s, 0) == (s, None)
  {
    hide OwnedOk, ListsOk, KindsOk, ZonesOk;
  }

  lemma LimitPositive(c: Config)
    requires c.Ok()
    ensures c.Limit() > 0 && c.Pages() > 0
  {
  }

  lemma DescribePrepares(usage: map<nat, Usage>, a: nat, n: nat)
    requires n > 0
    ensures UsageElse(usage, usage[a := Usage(LargePage, n)], a, n)
  {
  }

  lemma ChargedRep(c: Config, zone: map<nat, Header>, zoneArray: seq<int>, zoneFree: int, zoneFreeCnt: nat,
                   usage: map<nat, Usage>, used: int, peak: int, s: Slab, n: nat)
    requires Rep(c, zone, zoneArray, zoneFree, zoneFreeCnt, usage, used, peak, s)
    ensures Rep(c, zone, zoneArray, zoneFree, zoneFreeCnt, usage,
                used + n, if used + n > peak then used + n else peak, Charged(s, n))
  {
    hide HeadersOk, ChainsOk, ZoneChain, ZoneUsage;
  }

  lemma OpenedRuns(c: Config, s: Slab, a: nat, i: nat)
    requires c.Ok() && i < NZONES && i < |s.lists| && SizeOf(i) <= c.Limit()
    ensures Opened(c, s, a, i).0.runs == s.runs
  {
  }

  lemma ListsSize(s: Slab)
    requires ListsOk(s.zones, s.lists)
    ensures |s.lists| == NZONES
  {
  }

  lemma ArrayHead(c: Config, zone: map<nat, Header>, zoneArray: seq<int>, zoneFree: int, zoneFreeCnt: nat,
                  usage: map<nat, Usage>, used: int, peak: int, s: Slab, i: nat)
    requires Rep(c, zone, zoneArray, zoneFree, zoneFreeCnt, usage, used, peak, s) && i < NZONES
    ensures |zoneArray| == NZONES == |s.lists|
    ensures zoneArray[i] == NULL <==> s.lists[i] == []
    ensures s.lists[i] != [] ==> zoneArray[i] == s.lists[i][0]
  {
    hide HeadersOk, UsageOk;
    assert ZoneChain(zone, zoneArray[i], s.lists[i]);
  }

  lemma CacheHead(c: Config, zone: map<nat, Header>, zoneArray: seq<int>, zoneFree: int, zoneFreeCnt: nat,
                  usage: map<nat, Usage>, used: int, peak: int, s: Slab)
    requires Rep(c, zone, zoneArray, zoneFree, zoneFreeCnt, usage, used, peak, s)
    ensures zoneFree == NULL <==> s.cached == []
    ensures s.cached != [] ==> zoneFree == s.cached[0] && zoneFreeCnt > 0
  {
    hide HeadersOk, ChainsOk, UsageOk;
  }

  lemma TakenIs(s: Slab, i: nat)
    requires i < |s.lists| && s.lists[i] != [] && s.lists[i][0] in s.zones && s.zones[s.lists[i][0]].nfree > 0
    ensures var a := s.lists[i][0];
            var r := FromZone(s, i);
            r.1 == Small(a, ChunkTaken(s.zones[a]).1) && a in r.0.zones
            && (Live(r.0, r.1) ==> Ptr(r.0, r.1) == s.zones[a].base + ChunkTaken(s.zones[a]).1 * s.zones[a].size)
  {
    SameIndex(s.zones[s.lists[i][0]]);
  }

  lemma TakenHeaderIs(h: Header)
    ensures h.nfree > 0 ==>
              TakenHeader(h) ==
              var g := h.(next := if h.nfree == 1 then NULL else h.next, nfree := h.nfree - 1);
              if h.uindex + 1 != h.nmax then (g.(uindex := h.uindex + 1), h.base + (h.uindex + 1) * h.size)
              else (g.(freeChunk := if h.freeChunk in h.chunk then h.chunk[h.freeChunk] else NULL), h.freeChunk)
  {
  }

  lemma OpenedIs(c: Config, s: Slab, a: nat, i: nat)
    requires c.Ok() && i < NZONES && i < |s.lists| && SizeOf(i) <= c.Limit()
    ensures var r := Opened(c, s, a, i);
            Live(r.0, r.1) && SizeOf(i) > 0 && Ptr(r.0, r.1) == a * PAGE + Offset(SizeOf(i))
  {
    hide Offset, SizeOf, Capacity;
    SizePositive(i);
    CapacityIs(c, SizeOf(i));
  }

  lemma InitialSlab(c: Config, runs: seq<Run>)
    requires c.Ok() && Coalesced(runs, 0)
    ensures var s := Slab(map[], seq(NZONES, _ => []), [], map[], map[], runs, 0, 0);
            SlabOk(c, s) && Rep(c, map[], seq(NZONES, _ => NULL), NULL, 0, map[], 0, 0, s)
  {
    hide Coalesced;
  }

  /** The loop of rt_system_heap_init: double the zone size while a doubled zone is under 1/1024 of the heap. */
  method ZoneSizeFor(heap: nat) returns (size: nat)
    ensures size == ZoneSize(heap)
  {
    size := 32768;
    while size < 131072 && size * 2 < heap / 1024
      invariant size == 32768 || size == 65536 || size == 131072
      invariant size > 32768 ==> size < heap / 1024
      decreases 131072 - size
    {
      size := size * 2;
    }
  }
}
