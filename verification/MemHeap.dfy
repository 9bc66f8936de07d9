/** memheap.c: the link-level heap, proved to compute the functions of MemHeapSpec.dfy.

  A pointer is an offset into the pool, the free list's header sits outside it.  Every header word
  is a map entry, so a store is a map update and a load through a pointer that was never written
  does not verify.
 */
module MemHeap {
  import opened RtList
  import opened Blocks
  import opened Layouts
  import opened Memory
  import opened MemHeapSpec

  const FREE_HEADER: int := -2

  ghost predicate Linked(addr: Links<int>, used: map<int, bool>, bs: seq<Block>) {
    Ring(addr, Addrs(bs)) && Flags(used, bs)
  }

  /** Linking a new header after block i's is a split of the address ring. */
  lemma SplitRing(addr: Links<int>, bs: seq<Block>, size: int, i: nat, n: int, used: bool)
    requires Ring(addr, Addrs(bs)) && Tiles(bs, 0, size, HEADER) && i < |bs| && 0 < n < bs[i].len
    ensures addr.Has(bs[i].addr)
    ensures Ring(addr.InsertAfter(bs[i].addr, bs[i].addr + n), Addrs(Split(bs, i, n, used)))
  {
    hide Ring, Tiles, Split;
    CutIsFresh(bs, 0, size, HEADER, i, n);
    InsertAfterInRing(addr, Addrs(bs), i, bs[i].addr + n);
    SplitAddrs(bs, i, n, used);
  }

  lemma SplitAddrs(bs: seq<Block>, i: nat, n: int, used: bool)
    requires i < |bs|
    ensures Addrs(Split(bs, i, n, used)) == Inserted(Addrs(bs), i + 1, bs[i].addr + n)
  {
    AddrsReplace(bs, i, i + 1, [Block(bs[i].addr, n, used), Block(bs[i].addr + n, bs[i].len - n, false)]);
    assert Addrs(bs)[..i + 1] == Addrs(bs)[..i] + [bs[i].addr];
  }

  lemma AddrsMarked(bs: seq<Block>, i: nat, used: bool)
    requires i < |bs|
    ensures Addrs(Marked(bs, i, used)) == Addrs(bs)
  {
  }

  /** What the ring says about block i's neighbours. */
  lemma Neighbours(addr: Links<int>, bs: seq<Block>, i: nat)
    requires Ring(addr, Addrs(bs)) && i < |bs|
    ensures addr.Has(bs[i].addr)
    ensures i + 1 < |bs| ==> addr.next[bs[i].addr] == bs[i + 1].addr
    ensures addr.prev[bs[i].addr] == bs[if i > 0 then i - 1 else |bs| - 1].addr
  {
    RingHas(addr, Addrs(bs), i);
  }

  // ----- The free ring -----

  lemma PushRing(free: Links<int>, order: seq<int>, x: int)
    requires Ring(free, [FREE_HEADER] + order) && x !in order && x != FREE_HEADER
    ensures free.Has(FREE_HEADER)
    ensures Ring(free.InsertAfter(FREE_HEADER, x), [FREE_HEADER] + ([x] + order))
  {
    InsertAfterInRing(free, [FREE_HEADER] + order, 0, x);
    assert Inserted([FREE_HEADER] + order, 1, x) == [FREE_HEADER] + ([x] + order);
  }

  lemma PullRing(free: Links<int>, order: seq<int>, k: nat)
    requires Ring(free, [FREE_HEADER] + order) && k < |order|
    ensures free.Has(order[k])
    ensures Ring(free.Unlink(order[k]), [FREE_HEADER] + Without(order, k))
  {
    UnlinkFromRing(free, [FREE_HEADER] + order, k + 1);
    assert Without([FREE_HEADER] + order, k + 1) == [FREE_HEADER] + Without(order, k);
  }

  lemma FreeRingAt(free: Links<int>, order: seq<int>, k: nat)
    requires Ring(free, [FREE_HEADER] + order) && k <= |order|
    ensures var x := if k == 0 then FREE_HEADER else order[k - 1];
            free.Has(x) && free.next[x] == if k < |order| then order[k] else FREE_HEADER
    ensures FREE_HEADER !in order
  {
    RingHas(free, [FREE_HEADER] + order, k);
    forall j | 0 <= j < |order|
      ensures order[j] != FREE_HEADER
    {
      assert ([FREE_HEADER] + order)[j + 1] == order[j];
    }
  }

  /** MEMITEM_SIZE of a block that is not the tail. */
  lemma SizeRead(addr: Links<int>, bs: seq<Block>, size: int, i: nat)
    requires Ring(addr, Addrs(bs)) && Tiles(bs, 0, size, HEADER) && i + 1 < |bs|
    ensures addr.Has(bs[i].addr) && addr.next[bs[i].addr] - bs[i].addr - HEADER == Room(bs[i])
  {
    Neighbours(addr, bs, i);
    Touch(bs, 0, size, HEADER, i);
  }

  /** Clearing the links of a node on no ring. */
  function Cleared(free: Links<int>, x: int): Links<int> {
    Links(free.next[x := NULL], free.prev[x := NULL])
  }

  lemma PullAndClear(free: Links<int>, order: seq<int>, k: nat)
    requires Ring(free, [FREE_HEADER] + order) && k < |order| && Distinct(order)
    ensures free.Has(order[k])
    ensures Ring(Cleared(free.Unlink(order[k]), order[k]), [FREE_HEADER] + Without(order, k))
  {
    PullRing(free, order, k);
    FreeRingAt(free, order, k);
    DistinctWithout(order, k);
    RingFrame(free.Unlink(order[k]), Cleared(free.Unlink(order[k]), order[k]), [FREE_HEADER] + Without(order, k));
  }

  /** Splitting block i: a new header behind it, and a flag for each part. */
  lemma SplitLinked(addr: Links<int>, used: map<int, bool>, bs: seq<Block>, size: int, i: nat, n: int)
    requires Tiles(bs, 0, size, HEADER) && i < |bs| && Linked(addr, used, bs)
    requires 0 < n < bs[i].len
    ensures addr.Has(bs[i].addr)
    ensures Linked(addr.InsertAfter(bs[i].addr, bs[i].addr + n), used[bs[i].addr + n := false][bs[i].addr := true],
                   Split(bs, i, n, true))
  {
    SplitRing(addr, bs, size, i, n, true);
    FlagsReplace(used, used[bs[i].addr + n := false][bs[i].addr := true], bs, size, HEADER, i, i + 1,
                 [Block(bs[i].addr, n, true), Block(bs[i].addr + n, bs[i].len - n, false)]);
  }

  lemma MarkedLinked(addr: Links<int>, used: map<int, bool>, bs: seq<Block>, size: int, i: nat)
    requires Tiles(bs, 0, size, HEADER) && i < |bs| && Linked(addr, used, bs) && bs[i].len > 0
    ensures Linked(addr, used[bs[i].addr := true], Marked(bs, i, true))
  {
    AddrsMarked(bs, i, true);
    FlagsReplace(used, used[bs[i].addr := true], bs, size, HEADER, i, i + 1, [bs[i].(used := true)]);
  }

  /** The free ring after its k-th node is exchanged for a new first node. */
  lemma PullAndPush(free: Links<int>, p: Pool, size: int, k: nat, i: nat, n: int)
    requires WellFormed(p, size) && k < |p.free| && i < |p.blocks|
    requires Ring(free, [FREE_HEADER] + p.free)
    requires p.blocks[i].addr == p.free[k] && 0 < n < p.blocks[i].len
    ensures free.Has(p.free[k])
    ensures var free1 := Cleared(free.Unlink(p.free[k]), p.free[k]);
            && free1.Has(FREE_HEADER)
            && Ring(free1.InsertAfter(FREE_HEADER, p.free[k] + n),
               [FREE_HEADER] + ([p.free[k] + n] + Without(p.free, k)))
  {
    PullAndClear(free, p.free, k);
    CutIsFresh(p.blocks, 0, size, HEADER, i, n);
    FreeAddrsAreAddrs(p.blocks);
    DistinctWithout(p.free, k);
    AddrInRange(p.blocks, size, HEADER, i);
    PushRing(Cleared(free.Unlink(p.free[k]), p.free[k]), Without(p.free, k), p.free[k] + n);
  }

  /** The words of a heap of the given size represent the pool p. */
  ghost predicate Rep(size: int, addr: Links<int>, free: Links<int>, used: map<int, bool>, available: int, p: Pool) {
    && WellFormed(p, size)
    && FreeKnown(p)
    && Linked(addr, used, p.blocks)
    && Ring(free, [FREE_HEADER] + p.free)
    && available == Available(p)
  }

  lemma InitialRep(size: int)
    requires size >= 2 * HEADER && size % ALIGN_SIZE == 0
    ensures var tail := size - HEADER;
            Rep(size, Links(map[0 := tail, tail := 0], map[0 := tail, tail := 0]),
                Links(map[0 := FREE_HEADER, FREE_HEADER := 0], map[0 := FREE_HEADER, FREE_HEADER := 0]),
                map[0 := false, tail := true], size - 2 * HEADER, InitialPool(size))
  {
    hide Sum, Layout;
    InitialPoolWellFormed(size);
    KnownFree(InitialPool(size), size);
    assert Addrs(InitialPool(size).blocks) == [0, size - HEADER];
    assert [FREE_HEADER] + InitialPool(size).free == [FREE_HEADER, 0];
  }

  /** Block i of pool p is the one Take chooses, and a is its header. */
  ghost predicate Chosen(p: Pool, k: nat, i: nat, a: int) {
    k < |p.free| && i < |p.blocks| && p.free[k] == a && a in Addrs(p.blocks) && i == IndexAt(p.blocks, a)
  }

  lemma TakeSplitRep(size: int, addr: Links<int>, free: Links<int>, used: map<int, bool>, available: int, p: Pool,
                     k: nat, i: nat, n: int, a: int, x: int)
    requires Rep(size, addr, free, used, available, p) && Chosen(p, k, i, a)
    requires n > 0 && n % ALIGN_SIZE == 0 && n + HEADER + MINIALLOC <= Room(p.blocks[i])
    requires x == a + (n + HEADER)
    ensures addr.Has(a) && free.Has(a) && Cleared(free.Unlink(a), a).Has(FREE_HEADER)
    ensures Rep(size, addr.InsertAfter(a, x), Cleared(free.Unlink(a), a).InsertAfter(FREE_HEADER, x),
                used[x := false][a := true], available - n - HEADER, Take(p, k, n))
  {
    hide Ring, Tiles, NoAdjacentFree, Aligned, FreeRing, Flags, Sum, Take, Split, Without;
    var q := Take(p, k, n);
    SplitTaken(p, k, i, n);
    TakeSplitKeeps(p, size, k, i, n);
    SplitLinked(addr, used, p.blocks, size, i, n + HEADER);
    PullAndPush(free, p, size, k, i, n + HEADER);
    TakeSplitGives(p, size, k, i, n);
    FreeIsKnown(q);
  }

  lemma FreeIsDistinct(p: Pool)
    requires FreeRing(p)
    ensures Distinct(p.free)
  {
  }

  lemma TakeWholeRep(size: int, addr: Links<int>, free: Links<int>, used: map<int, bool>, available: int, p: Pool,
                     k: nat, i: nat, n: int, a: int)
    requires Rep(size, addr, free, used, available, p) && Chosen(p, k, i, a)
    requires 0 < n <= Room(p.blocks[i]) < n + HEADER + MINIALLOC
    ensures free.Has(a)
    ensures Rep(size, addr, Cleared(free.Unlink(a), a), used[a := true], available - Room(p.blocks[i]), Take(p, k, n))
  {
    hide Ring, Tiles, NoAdjacentFree, Aligned, FreeRing, Flags, Sum, Distinct, Take, Marked, Without;
    var q := Take(p, k, n);
    FreeIsDistinct(p);
    WholeTaken(p, k, i, n);
    TakeWholeKeeps(p, size, k, i, n);
    MarkedLinked(addr, used, p.blocks, size, i);
    PullAndClear(free, p.free, k);
    FreeIsKnown(q);
  }

  // ----- Release -----

  /** Reading block i's neighbours' flags decides the two merges. */
  lemma FreeTests(addr: Links<int>, used: map<int, bool>, bs: seq<Block>, size: int, i: nat, a: int)
    requires Linked(addr, used, bs) && Layout(bs, size, HEADER) && i + 1 < |bs| && bs[i].addr == a
    ensures addr.Has(a) && addr.prev[a] in used && addr.next[a] in used
    ensures addr.prev[a] != a && addr.next[a] != a
    ensures used[addr.prev[a]] <==> !JoinsLeft(bs, i)
    ensures used[addr.next[a]] <==> !JoinsRight(bs, i)
    ensures JoinsLeft(bs, i) ==> addr.prev[a] == bs[i - 1].addr
    ensures addr.next[a] == bs[i + 1].addr
  {
    Neighbours(addr, bs, i);
    AddrsDistinct(bs, 0, size, HEADER);
    var l := if i > 0 then i - 1 else |bs| - 1;
    assert bs[l] in bs && bs[i + 1] in bs;
    assert Addrs(bs)[l] != Addrs(bs)[i] && Addrs(bs)[i] != Addrs(bs)[i + 1];
  }

  function AfterLeft(addr: Links<int>, left: bool, a: int): Links<int>
    requires addr.Has(a)
  {
    if left then addr.Unlink(a) else addr
  }

  lemma LeftMergeRing(addr: Links<int>, bs: seq<Block>, i: nat)
    requires Ring(addr, Addrs(bs)) && i < |bs|
    ensures addr.Has(bs[i].addr)
    ensures Ring(AfterLeft(addr, JoinsLeft(bs, i), bs[i].addr), LeftAddrs(bs, i))
  {
    Neighbours(addr, bs, i);
    if JoinsLeft(bs, i) {
      UnlinkFromRing(addr, Addrs(bs), i);
    }
  }

  lemma RightMergeRing(addr1: Links<int>, bs: seq<Block>, i: nat)
    requires i + 1 < |bs| && Ring(addr1, LeftAddrs(bs, i))
    ensures addr1.Has(bs[From(bs, i)].addr) && addr1.next[bs[From(bs, i)].addr] == bs[i + 1].addr
    ensures addr1.Has(bs[i + 1].addr)
    ensures Ring(if JoinsRight(bs, i) then addr1.Unlink(bs[i + 1].addr) else addr1, Addrs(FreedBlocks(bs, i)))
  {
    var f := From(bs, i);
    assert LeftAddrs(bs, i)[f] == bs[f].addr && LeftAddrs(bs, i)[f + 1] == bs[i + 1].addr;
    RingHas(addr1, LeftAddrs(bs, i), f);
    RingHas(addr1, LeftAddrs(bs, i), f + 1);
    FreedAddrs(bs, i);
    if JoinsRight(bs, i) {
      UnlinkFromRing(addr1, LeftAddrs(bs, i), f + 1);
    }
  }

  function AfterDrop(free: Links<int>, right: bool, x: int): Links<int>
    requires right ==> free.Has(x)
  {
    if right then free.Unlink(x) else free
  }

  lemma DropFromRing(free: Links<int>, order: seq<int>, x: int)
    requires Ring(free, [FREE_HEADER] + order) && x in order
    ensures free.Has(x)
    ensures Ring(free.Unlink(x), [FREE_HEADER] + Drop(order, x))
  {
    PullRing(free, order, PositionOf(order, x));
  }

  lemma FreedFreeRing(free: Links<int>, p: Pool, size: int, i: nat)
    requires WellFormed(p, size) && Ring(free, [FREE_HEADER] + p.free) && i + 1 < |p.blocks| && p.blocks[i].used
    ensures JoinsRight(p.blocks, i) ==> free.Has(p.blocks[i + 1].addr)
    ensures var free1 := AfterDrop(free, JoinsRight(p.blocks, i), p.blocks[i + 1].addr);
            && free1.Has(FREE_HEADER)
            && Ring(if JoinsLeft(p.blocks, i) then free1 else free1.InsertAfter(FREE_HEADER, p.blocks[i].addr),
                    [FREE_HEADER] + FreedRing(p.blocks, p.free, i))
  {
    var x := p.blocks[i + 1].addr;
    var order1 := if JoinsRight(p.blocks, i) then Drop(p.free, x) else p.free;
    if JoinsRight(p.blocks, i) {
      FreeAddrsIndex(p.blocks, i + 1);
      DropFromRing(free, p.free, x);
      DropRing(p.free, FreeAddrs(p.blocks), x);
    }
    var free1 := AfterDrop(free, JoinsRight(p.blocks, i), x);
    FreeRingAt(free1, order1, 0);
    if !JoinsLeft(p.blocks, i) {
      UsedAddrIsNotFree(p.blocks, size, HEADER, i);
      AddrInRange(p.blocks, size, HEADER, i);
      PushRing(free1, order1, p.blocks[i].addr);
    }
  }

  /** The words after rt_memheap_free represent the freed pool. */
  lemma FreeRep(size: int, addr1: Links<int>, free1: Links<int>, used: map<int, bool>, p: Pool, ptr: int, i: nat)
    requires WellFormed(p, size) && Flags(used, p.blocks) && Allocated(p, size, ptr)
    requires i == IndexAt(p.blocks, ptr - HEADER)
    requires Ring(addr1, Addrs(FreedBlocks(p.blocks, i)))
    requires Ring(free1, [FREE_HEADER] + FreedRing(p.blocks, p.free, i))
    ensures Rep(size, addr1, free1, used[ptr - HEADER := false], Available(FreePool(p, ptr)), FreePool(p, ptr))
  {
    var q := FreePool(p, ptr);
    assert q == Pool(FreedBlocks(p.blocks, i), FreedRing(p.blocks, p.free, i));
    assert i + 1 < |p.blocks|;
    hide Ring, Tiles, NoAdjacentFree, Aligned, FreeRing, Flags, Sum, FreePool, FreedBlocks, FreedRing;
    FreeKeeps(p, size, ptr);
    FreedFlags(used, p.blocks, size, HEADER, i);
    FreeIsKnown(q);
  }

  /** What rt_memheap_free reads: the flags decide the merges, and every link it follows is there. */
  lemma FreeReads(size: int, addr: Links<int>, free: Links<int>, used: map<int, bool>, p: Pool, a: int, i: nat)
    returns (left: bool, right: bool, kept: int, x: int, addr1: Links<int>)
    requires WellFormed(p, size) && Linked(addr, used, p.blocks) && Ring(free, [FREE_HEADER] + p.free)
    requires i + 1 < |p.blocks| && p.blocks[i].addr == a && p.blocks[i].used
    ensures addr.Has(a) && a in used && addr.prev[a] in used && addr.prev[a] != a
    ensures left == !used[addr.prev[a]] == JoinsLeft(p.blocks, i)
    ensures kept == if left then addr.prev[a] else a
    ensures addr1 == AfterLeft(addr, left, a)
    ensures addr1.Has(kept) && addr1.next[kept] == addr.next[a] == x && addr1.Has(x)
    ensures x in used && x != a && right == !used[x] == JoinsRight(p.blocks, i)
    ensures x - a - HEADER == Room(p.blocks[i]) >= 0
    ensures x == p.blocks[i + 1].addr
  {
    assert p.blocks[i] in p.blocks;
    FreeTests(addr, used, p.blocks, size, i, a);
    left, right, x := JoinsLeft(p.blocks, i), JoinsRight(p.blocks, i), addr.next[a];
    kept, addr1 := if left then addr.prev[a] else a, AfterLeft(addr, left, a);
    hide Ring, NoAdjacentFree, Aligned, FreeRing, Flags, Sum;
    SizeRead(addr, p.blocks, size, i);
    LeftMergeRing(addr, p.blocks, i);
    RightMergeRing(addr1, p.blocks, i);
  }

  /** What its stores make of the links. */
  lemma FreeStores(size: int, addr: Links<int>, free: Links<int>, used: map<int, bool>, p: Pool, ptr: int, i: nat,
                   left: bool, right: bool, kept: int, x: int, addr1: Links<int>)
    returns (free1: Links<int>)
    requires WellFormed(p, size) && Linked(addr, used, p.blocks) && Ring(free, [FREE_HEADER] + p.free)
    requires Allocated(p, size, ptr) && i == IndexAt(p.blocks, ptr - HEADER)
    requires i + 1 < |p.blocks| && x == p.blocks[i + 1].addr
    requires left == JoinsLeft(p.blocks, i) && right == JoinsRight(p.blocks, i)
    requires addr.Has(ptr - HEADER) && addr1 == AfterLeft(addr, left, ptr - HEADER) && addr1.Has(x)
    requires !left ==> kept == ptr - HEADER
    requires x - ptr == Room(p.blocks[i]) >= 0
    ensures right ==> free.Has(x)
    ensures free1 == AfterDrop(free, right, x) && free1.Has(FREE_HEADER)
    ensures Rep(size, AfterDrop(addr1, right, x), if left then free1 else free1.InsertAfter(FREE_HEADER, kept),
                used[ptr - HEADER := false],
                Available(p) + (x - ptr) + (if left then HEADER else 0) + (if right then HEADER else 0),
                FreePool(p, ptr))
  {
    hide Ring, Distinct, Tiles, NoAdjacentFree, Aligned, FreeRing, Flags, Sum, FreePool, FreedBlocks, FreedRing;
    FreeGivesBack(p, size, ptr);
    LeftMergeRing(addr, p.blocks, i);
    RightMergeRing(addr1, p.blocks, i);
    FreedFreeRing(free, p, size, i);
    free1 := AfterDrop(free, right, x);
    FreeRep(size, AfterDrop(addr1, right, x), if left then free1 else free1.InsertAfter(FREE_HEADER, kept),
            used, p, ptr, i);
  }

  /** The four outcomes of rt_memheap_free. */
  lemma FreePrepares(size: int, addr: Links<int>, free: Links<int>, used: map<int, bool>, available: int, p: Pool,
                     ptr: int, a: int)
    returns (left: bool, right: bool, l: int, x: int, q: Pool)
    requires Rep(size, addr, free, used, available, p) && Allocated(p, size, ptr) && a == ptr - HEADER
    ensures addr.Has(a) && a in used && l == addr.prev[a] && x == addr.next[a] && l != a && x != a
    ensures l in used && x in used && left == !used[l] && right == !used[x]
    ensures x - a - HEADER >= 0 && q == FreePool(p, ptr)
    ensures right ==> free.Has(x) && free.Unlink(x).Has(FREE_HEADER)
    ensures !left ==> addr.Has(x)
    ensures free.Has(FREE_HEADER)
    ensures left ==> addr.Unlink(a).Has(l) && addr.Unlink(a).next[l] == x && addr.Unlink(a).Has(x)
    ensures left && right ==>
              Rep(size, addr.Unlink(a).Unlink(x), free.Unlink(x), used[a := false],
                  available + (x - a - HEADER) + HEADER + HEADER, q)
    ensures left && !right ==>
              Rep(size, addr.Unlink(a), free, used[a := false], available + (x - a - HEADER) + HEADER, q)
    ensures !left && right ==>
              Rep(size, addr.Unlink(x), free.Unlink(x).InsertAfter(FREE_HEADER, a), used[a := false],
                  available + (x - a - HEADER) + HEADER, q)
    ensures !left && !right ==>
              Rep(size, addr, free.InsertAfter(FREE_HEADER, a), used[a := false], available + (x - a - HEADER), q)
  {
    hide Ring, Distinct, Tiles, NoAdjacentFree, Aligned, FreeRing, Flags, Sum, FreePool, FreedBlocks, FreedRing;
    var i := IndexAt(p.blocks, a);
    FreeRingAt(free, p.free, 0);
    var kept, addr1;
    left, right, kept, x, addr1 := FreeReads(size, addr, free, used, p, a, i);
    l := addr.prev[a];
    var free1 := FreeStores(size, addr, free, used, p, ptr, i, left, right, kept, x, addr1);
    q := FreePool(p, ptr);
  }

  // ----- Resizing in place -----

  /** Growing takes the next block out of both rings before the new header goes in. */
  lemma GrowRings(addr: Links<int>, free: Links<int>, p: Pool, size: int, i: nat, n: int, x: int)
    requires Ring(addr, Addrs(p.blocks)) && Ring(free, [FREE_HEADER] + p.free) && WellFormed(p, size)
    requires Resizable(p.blocks, size, HEADER, i, n + HEADER) && JoinsRight(p.blocks, i) && n > Room(p.blocks[i])
    requires x == p.blocks[i].addr + HEADER + n
    ensures var a, y := p.blocks[i].addr, p.blocks[i + 1].addr;
            && addr.Has(y) && addr.Unlink(y).Has(a) && free.Has(y) && free.Unlink(y).Has(FREE_HEADER)
            && Ring(addr.Unlink(y).InsertAfter(a, x), Addrs(ResizedBlocks(p.blocks, i, n + HEADER)))
            && Ring(free.Unlink(y).InsertAfter(FREE_HEADER, x), [FREE_HEADER] + ([x] + Drop(p.free, y)))
  {
    hide Distinct, NoAdjacentFree, Aligned, Layout, Tiles;
    var s, y := Addrs(p.blocks), p.blocks[i + 1].addr;
    UnlinkFromRing(addr, s, i + 1);
    GrownAddrIsNew(p.blocks, size, HEADER, i, n + HEADER);
    assert Without(s, i + 1)[i] == p.blocks[i].addr;
    InsertAfterInRing(addr.Unlink(y), Without(s, i + 1), i, x);
    ResizedAddrs(p.blocks, i, n + HEADER, x);
    GrowFreeRing(free, p, size, i, n, x);
  }

  lemma GrowFreeRing(free: Links<int>, p: Pool, size: int, i: nat, n: int, x: int)
    requires Ring(free, [FREE_HEADER] + p.free) && WellFormed(p, size)
    requires Resizable(p.blocks, size, HEADER, i, n + HEADER) && JoinsRight(p.blocks, i)
    requires x == p.blocks[i].addr + HEADER + n
    ensures var y := p.blocks[i + 1].addr;
            && free.Has(y) && free.Unlink(y).Has(FREE_HEADER)
            && Ring(free.Unlink(y).InsertAfter(FREE_HEADER, x), [FREE_HEADER] + ([x] + Drop(p.free, y)))
  {
    var y := p.blocks[i + 1].addr;
    FreeAddrsIndex(p.blocks, i + 1);
    DropFromRing(free, p.free, y);
    DropRing(p.free, FreeAddrs(p.blocks), y);
    CutAddrIsNew(p.blocks, size, HEADER, i, n + HEADER);
    AddrInRange(p.blocks, size, HEADER, i);
    PushRing(free.Unlink(y), Drop(p.free, y), x);
  }

  /** Shrinking links the new header in, then takes the free block behind it out. */
  lemma ShrinkRings(addr: Links<int>, p: Pool, size: int, i: nat, n: int, x: int)
    requires Ring(addr, Addrs(p.blocks))
    requires Resizable(p.blocks, size, HEADER, i, n + HEADER) && n + HEADER < Room(p.blocks[i])
    requires x == p.blocks[i].addr + HEADER + n
    ensures i + 1 < |p.blocks|
    ensures var a, y := p.blocks[i].addr, p.blocks[i + 1].addr;
            && addr.Has(a) && x != a && x != y && a != y && addr.next[a] == y
            && var addr1 := addr.InsertAfter(a, x);
            && addr1.Has(x) && addr1.next[x] == y && addr1.Has(y)
            && Ring(if JoinsRight(p.blocks, i) then addr1.Unlink(y) else addr1,
                    Addrs(ResizedBlocks(p.blocks, i, n + HEADER)))
  {
    hide Distinct, Ring, Tiles, ResizedBlocks, Resizable;
    var bs, s := p.blocks, Addrs(p.blocks);
    ShrinkShape(bs, size, i, n);
    Touch(bs, 0, size, HEADER, i);
    CutIsFresh(bs, 0, size, HEADER, i, HEADER + n);
    Neighbours(addr, bs, i);
    InsertBetween(addr, s, i, x);
    ResizedAddrs(bs, i, n + HEADER, x);
    UnlinkFromRing(addr.InsertAfter(bs[i].addr, x), Inserted(s, i + 1, x), i + 2);
  }

  lemma ShrinkShape(bs: seq<Block>, size: int, i: nat, n: int)
    requires Resizable(bs, size, HEADER, i, n + HEADER) && n + HEADER < Room(bs[i])
    ensures i + 1 < |bs| && Tiles(bs, 0, size, HEADER) && 0 < HEADER + n < bs[i].len
  {
    hide Tiles, NoAdjacentFree, Aligned, Tailed;
  }

  /** A node put between two others of a ring has them as its neighbours. */
  lemma InsertBetween(k: Links<int>, s: seq<int>, i: nat, x: int)
    requires Ring(k, s) && i + 1 < |s| && x !in s
    ensures k.Has(s[i]) && x != s[i] && x != s[i + 1]
    ensures var k1 := k.InsertAfter(s[i], x);
            && Ring(k1, Inserted(s, i + 1, x)) && Inserted(s, i + 1, x)[i + 2] == s[i + 1]
            && k1.Has(x) && k1.next[x] == s[i + 1] && k1.Has(s[i + 1])
  {
    hide Distinct;
    InsertAfterInRing(k, s, i, x);
    var s1 := Inserted(s, i + 1, x);
    assert s1[i + 1] == x && s1[i + 2] == s[i + 1];
    RingHas(k.InsertAfter(s[i], x), s1, i + 1);
    RingHas(k.InsertAfter(s[i], x), s1, i + 2);
  }

  lemma ResizeRep(size: int, addr1: Links<int>, free1: Links<int>, used: map<int, bool>, p: Pool, ptr: int, n: int,
                  i: nat)
    requires WellFormed(p, size) && Flags(used, p.blocks) && Allocated(p, size, ptr)
    requires i == IndexAt(p.blocks, ptr - HEADER) && Resizable(p.blocks, size, HEADER, i, n + HEADER)
    requires Ring(addr1, Addrs(ResizedBlocks(p.blocks, i, n + HEADER)))
    requires Ring(free1,
             [FREE_HEADER]
             + ([ptr + n] + if JoinsRight(p.blocks, i) then Drop(p.free, p.blocks[i + 1].addr) else p.free))
    ensures Rep(size, addr1, free1, used[ptr + n := false], Available(ResizePool(p, ptr, n)), ResizePool(p, ptr, n))
  {
    hide Ring, Distinct, Tiles, NoAdjacentFree, Aligned, FreeRing, Flags, Sum, ResizedBlocks;
    var q := ResizePool(p, ptr, n);
    ResizeKeeps(p, size, ptr, n);
    ResizedFlags(used, p.blocks, size, HEADER, i, n + HEADER);
    FreeIsKnown(q);
  }

  /** Reads and stores of the growing branch of rt_memheap_realloc. */
  lemma GrowPrepares(size: int, addr: Links<int>, free: Links<int>, used: map<int, bool>, available: int, p: Pool,
                     ptr: int, a: int, i: nat, n: int, x: int, y: int)
    requires Rep(size, addr, free, used, available, p) && Allocated(p, size, ptr) && a == ptr - HEADER
    requires i == IndexAt(p.blocks, a) && Resizable(p.blocks, size, HEADER, i, n + HEADER) && n > Room(p.blocks[i])
    requires JoinsRight(p.blocks, i) && x == ptr + n && y == p.blocks[i + 1].addr
    ensures addr.Has(y) && addr.Unlink(y).Has(a) && free.Has(y) && free.Unlink(y).Has(FREE_HEADER)
    ensures Rep(size, addr.Unlink(y).InsertAfter(a, x), free.Unlink(y).InsertAfter(FREE_HEADER, x), used[x := false],
                available - (n - Room(p.blocks[i])), ResizePool(p, ptr, n))
  {
    hide Ring, Distinct, Tiles, NoAdjacentFree, Aligned, FreeRing, Flags, Sum, ResizedBlocks, ResizePool;
    GrowRings(addr, free, p, size, i, n, x);
    ResizeGives(p, size, ptr, n);
    ResizeRep(size, addr.Unlink(y).InsertAfter(a, x), free.Unlink(y).InsertAfter(FREE_HEADER, x), used, p, ptr, n, i);
  }

  /** Reads and stores of the shrinking branch. */
  lemma ShrinkPrepares(size: int, addr: Links<int>, free: Links<int>, used: map<int, bool>, available: int, p: Pool,
                       ptr: int, a: int, i: nat, n: int, x: int)
    returns (right: bool, y: int, z: int)
    requires Rep(size, addr, free, used, available, p) && Allocated(p, size, ptr) && a == ptr - HEADER
    requires i == IndexAt(p.blocks, a) && Resizable(p.blocks, size, HEADER, i, n + HEADER)
             && n + HEADER < Room(p.blocks[i])
    requires x == ptr + n
    ensures addr.Has(a) && y == addr.next[a] == a + p.blocks[i].len && x != y && y in used && right == !used[y]
    ensures var addr1 := addr.InsertAfter(a, x);
            && addr1.Has(x) && addr1.next[x] == y && addr1.Has(y) && addr1.next[y] == z
            && (right ==> addr1.Unlink(y).Has(x) && addr1.Unlink(y).next[x] == z && free.Has(y))
            && free.Has(FREE_HEADER) && (right ==> free.Unlink(y).Has(FREE_HEADER))
            && (right ==> Rep(size, addr1.Unlink(y), free.Unlink(y).InsertAfter(FREE_HEADER, x), used[x := false],
                              available - (z - y - HEADER) + (z - x - HEADER), ResizePool(p, ptr, n)))
            && (!right ==> Rep(size, addr1, free.InsertAfter(FREE_HEADER, x), used[x := false],
                               available + (y - x - HEADER), ResizePool(p, ptr, n)))
  {
    hide Ring, Distinct, Tiles, NoAdjacentFree, Aligned, FreeRing, Flags, Sum, ResizedBlocks, ResizePool;
    Neighbours(addr, p.blocks, i + 1);
    right, y, z := JoinsRight(p.blocks, i), p.blocks[i + 1].addr, addr.next[p.blocks[i + 1].addr];
    FreeTests(addr, used, p.blocks, size, i, a);
    SizeRead(addr, p.blocks, size, i);
    ShrinkRings(addr, p, size, i, n, x);
    ResizeGives(p, size, ptr, n);
    FreeRingAt(free, p.free, 0);
    if right {
      GrowFreeRing(free, p, size, i, n, x);
      SizeRead(addr, p.blocks, size, i + 1);
      ResizeRep(size, addr.InsertAfter(a, x).Unlink(y), free.Unlink(y).InsertAfter(FREE_HEADER, x), used, p, ptr, n, i);
    } else {
      ShrinkFreeRing(free, p, size, i, n, x);
      ResizeRep(size, addr.InsertAfter(a, x), free.InsertAfter(FREE_HEADER, x), used, p, ptr, n, i);
    }
  }

  /** Shrinking never lowers what is available. */
  lemma ShrinkGives(size: int, addr: Links<int>, free: Links<int>, used: map<int, bool>, available: int, p: Pool,
                    ptr: int, i: nat, n: int)
    requires Rep(size, addr, free, used, available, p) && Allocated(p, size, ptr)
    requires i == IndexAt(p.blocks, ptr - HEADER) && Resizable(p.blocks, size, HEADER, i, n + HEADER)
             && n + HEADER < Room(p.blocks[i])
    ensures forall v, q, k, l, u :: Rep(size, k, l, u, v, q) && q == ResizePool(p, ptr, n) ==> v >= available
  {
    hide Ring, Distinct, Tiles, NoAdjacentFree, Aligned, FreeRing, Flags, Sum, ResizedBlocks, ResizePool;
    ResizeGives(p, size, ptr, n);
  }

  lemma ShrinkFreeRing(free: Links<int>, p: Pool, size: int, i: nat, n: int, x: int)
    requires Ring(free, [FREE_HEADER] + p.free) && WellFormed(p, size)
    requires Resizable(p.blocks, size, HEADER, i, n + HEADER) && !JoinsRight(p.blocks, i)
    requires x == p.blocks[i].addr + HEADER + n
    ensures free.Has(FREE_HEADER)
    ensures Ring(free.InsertAfter(FREE_HEADER, x), [FREE_HEADER] + ([x] + p.free))
  {
    CutAddrIsNew(p.blocks, size, HEADER, i, n + HEADER);
    AddrInRange(p.blocks, size, HEADER, i);
    PushRing(free, p.free, x);
  }

  /** Two live allocations' data do not overlap and lie in the pool. */
  lemma DataDisjoint(p: Pool, size: int, b: Block, c: Block)
    requires WellFormed(p, size) && b in Live(p.blocks) && c in Live(p.blocks) && b != c
    ensures b.addr + b.len <= c.addr || c.addr + c.len <= b.addr
    ensures 0 <= b.addr && b.addr + b.len <= size
    ensures 0 <= c.addr && c.addr + c.len <= size
  {
    BlocksDisjoint(p.blocks, 0, size, HEADER, b, c);
    BlocksDisjoint(p.blocks, 0, size, HEADER, c, b);
  }

  /** Where rt_memheap_realloc copies from and to when it moves a block. */
  lemma MoveRegions(p: Pool, size: int, ptr: int, n: int)
    requires WellFormed(p, size) && FreeKnown(p) && Allocated(p, size, ptr)
    requires n % ALIGN_SIZE == 0 && n >= 0 && n > Room(BlockOf(p, ptr)) && !Fails(p, n)
    ensures var r, m := AllocResult(p, n), Room(BlockOf(p, ptr));
            && 0 <= ptr && 0 <= r && 0 <= m && ptr + m <= size && r + m <= size
            && (ptr + m <= r || r + m <= ptr)
  {
    hide Tiles, NoAdjacentFree, Aligned, FreeRing, Sum, FirstFit;
    var q := AllocPool(p, n);
    var got := Block(AllocResult(p, n) - HEADER, AllocLen(p, n), true);
    AllocKeeps(p, size, n);
    AllocGives(p, size, n);
    AllocIsFresh(p, size, n);
    assert BlockOf(p, ptr) in Live(p.blocks);
    DataDisjoint(q, size, BlockOf(p, ptr), got);
    LenAtLeastHeader(p.blocks, size, HEADER, IndexAt(p.blocks, ptr - HEADER));
  }

  lemma MoveFacts(size: int, addr: Links<int>, free: Links<int>, used: map<int, bool>, available: int, p: Pool,
                  ptr: int, n: int)
    requires Rep(size, addr, free, used, available, p) && Allocated(p, size, ptr)
    requires n % ALIGN_SIZE == 0 && MINIALLOC <= n <= MAX_REQUEST && n > Room(BlockOf(p, ptr))
    ensures Rounded(n) == n
    ensures AllocResult(p, n) == NULL <==> Fails(p, n)
    ensures Fails(p, n) ==> AllocPool(p, n) == p && Available(p) == available
    ensures !Fails(p, n) ==>
              var r, m := AllocResult(p, n), Room(BlockOf(p, ptr));
              && 0 <= ptr && 0 <= r && 0 <= m && ptr + m <= size && r + m <= size
              && (ptr + m <= r || r + m <= ptr)
              && Allocated(AllocPool(p, n), size, ptr) && ptr != NULL
  {
    hide Ring, Distinct, Tiles, NoAdjacentFree, Aligned, FreeRing, Flags, Sum, FirstFit;
    if !Fails(p, n) {
      MoveRegions(p, size, ptr, n);
      StillAllocated(p, size, ptr, n);
      AllocIsFresh(p, size, n);
    }
    assert (n + 3) / 4 == n / 4;
  }

  /** max_used_size after `inUse` bytes were seen in use. */
  function HighWater(maxUsed: int, inUse: int): (m: int)
    ensures m >= inUse && m >= maxUsed && (m == inUse || m == maxUsed)
  {
    if inUse > maxUsed then inUse else maxUsed
  }

  class MemHeap {
    const size: int                  // pool_size
    const bytes: array<bv8>          // the pool's data bytes
    var addr: Links<int>             // item->next, item->prev
    var free: Links<int>             // item->next_free, item->prev_free
    var used: map<int, bool>         // the USED bit of item->magic
    var available: int
    var maxUsed: int
    ghost var pool: Pool

    ghost predicate Valid()
      reads this
    {
      && bytes.Length == size < TWO_TO_32
      && Rep(size, addr, free, used, available, pool)
      && size - available <= maxUsed
    }

    /** rt_memheap_init. */
    constructor (poolBytes: int)
      requires 2 * HEADER <= poolBytes < TWO_TO_32
      ensures Valid() && size == poolBytes / ALIGN_SIZE * ALIGN_SIZE
      ensures pool == InitialPool(size)
      ensures available == size - 2 * HEADER && maxUsed == 2 * HEADER
    {
      hide Rep, InitialPool;
      var poolSize := poolBytes / ALIGN_SIZE * ALIGN_SIZE;
      size := poolSize;
      bytes := new bv8[poolSize];
      available := poolSize - 2 * HEADER;
      maxUsed := 2 * HEADER;
      var tail := poolSize - HEADER;
      addr := Links(map[0 := tail, tail := 0], map[0 := tail, tail := 0]);
      free := Links(map[0 := FREE_HEADER, FREE_HEADER := 0], map[0 := FREE_HEADER, FREE_HEADER := 0]);
      used := map[0 := false, tail := true];
      pool := InitialPool(poolSize);
      new;
      InitialRep(size);
    }

    /** rt_memheap_alloc. */
    method Alloc(request: int) returns (r: int)
      requires Valid() && 0 <= request <= MAX_REQUEST
      modifies this
      ensures Valid()
      ensures pool == AllocPool(old(pool), Rounded(request))
      ensures r == AllocResult(old(pool), Rounded(request))
      ensures maxUsed == HighWater(old(maxUsed), size - available)
    {
      hide Ring, Distinct, Tiles, NoAdjacentFree, Aligned, FreeRing, Flags, Sum, FirstFit, Rounded, Align;
      RoundedCovers(request);
      var n := Rounded(request);
      r := NULL;
      assert available == Available(pool);
      if n < available {
        var header, freeSize, found := FindFit(n);
        if found {
          ghost var k := FirstFit(pool.blocks, pool.free, n);
          FirstFitHas(pool.blocks, pool.free, n);
          if freeSize >= n + HEADER + MINIALLOC {
            TakeSplit(header, n, k, IndexAt(pool.blocks, header));
          } else {
            TakeWhole(header, freeSize, n, k, IndexAt(pool.blocks, header));
          }
          r := header + HEADER;
        }
      }
    }

    /** The search loop of rt_memheap_alloc over the free ring. */
    method FindFit(n: int) returns (header: int, freeSize: int, found: bool)
      requires Valid() && n > 0
      ensures var k := FirstFit(pool.blocks, pool.free, n);
              && (found <==> k < |pool.free|)
              && (found ==> header == pool.free[k] && freeSize == Room(pool.blocks[IndexAt(pool.blocks, pool.free[k])]))
    {
      hide Tiles, NoAdjacentFree, Aligned, Distinct, Ring, Flags, Sum, FirstFit;
      freeSize := 0;
      FreeRingAt(free, pool.free, 0);
      header := free.next[FREE_HEADER];
      ghost var k := 0;
      while header != FREE_HEADER && freeSize < n
        invariant 0 <= k <= |pool.free|
        invariant header == if k < |pool.free| then pool.free[k] else FREE_HEADER
        invariant forall j :: 0 <= j < k ==> Room(pool.blocks[IndexAt(pool.blocks, pool.free[j])]) < n
        invariant freeSize >= n ==> k < |pool.free| && freeSize == Room(pool.blocks[IndexAt(pool.blocks, pool.free[k])])
        decreases |pool.free| - k, n - freeSize
      {
        FreeRingAt(free, pool.free, k + 1);
        IndexOfFree(pool, size, k);
        SizeRead(addr, pool.blocks, size, IndexAt(pool.blocks, pool.free[k]));
        freeSize := addr.next[header] - header - HEADER;
        if freeSize < n {
          header := free.next[header];
          k := k + 1;
        }
      }
      found := freeSize >= n;
      FirstFitIs(pool.blocks, pool.free, n, k);
    }

    /** The splitting branch of rt_memheap_alloc. */
    method TakeSplit(header: int, n: int, ghost k: nat, ghost i: nat)
      requires Valid() && n > 0 && n % ALIGN_SIZE == 0
      requires Chosen(pool, k, i, header) && n + HEADER + MINIALLOC <= Room(pool.blocks[i])
      requires FreeKnown(pool)
      modifies this
      ensures Valid()
      ensures pool == Take(old(pool), k, n)
      ensures maxUsed == HighWater(old(maxUsed), size - available)
    {
      hide Rep, Take, FreeKnown;
      ghost var q := Take(pool, k, n);
      var newPtr := header + (n + HEADER);
      TakeSplitRep(size, addr, free, used, available, pool, k, i, n, header, newPtr);
      addr := addr.InsertAfter(header, newPtr);
      free := Cleared(free.Unlink(header), header);
      free := free.InsertAfter(FREE_HEADER, newPtr);
      available := available - n - HEADER;
      maxUsed := HighWater(maxUsed, size - available);
      used := used[newPtr := false];
      used := used[header := true];
      pool := q;
    }

    /** The other branch: the whole block is handed out. */
    method TakeWhole(header: int, freeSize: int, n: int, ghost k: nat, ghost i: nat)
      requires Valid() && Chosen(pool, k, i, header)
      requires 0 < n <= freeSize < n + HEADER + MINIALLOC && freeSize == Room(pool.blocks[i])
      requires FreeKnown(pool)
      modifies this
      ensures Valid()
      ensures pool == Take(old(pool), k, n)
      ensures maxUsed == HighWater(old(maxUsed), size - available)
    {
      hide Rep, Take, FreeKnown;
      ghost var q := Take(pool, k, n);
      TakeWholeRep(size, addr, free, used, available, pool, k, i, n, header);
      available := available - freeSize;
      maxUsed := HighWater(maxUsed, size - available);
      free := Cleared(free.Unlink(header), header);
      used := used[header := true];
      pool := q;
    }

    /** rt_memheap_free. */
    method Free(ptr: int)
      requires Valid() && (ptr == NULL || Allocated(pool, size, ptr))
      modifies this
      ensures Valid() && maxUsed == old(maxUsed)
      ensures pool == if ptr == NULL then old(pool) else FreePool(old(pool), ptr)
    {
      if ptr != NULL {
        FreeBlock(ptr);
      }
    }

    method FreeBlock(ptr: int)
      requires Valid() && Allocated(pool, size, ptr)
      modifies this
      ensures Valid() && maxUsed == old(maxUsed)
      ensures pool == FreePool(old(pool), ptr)
    {
      hide Rep, FreePool, Allocated, Addrs, IndexAt, Links.Unlink, Links.InsertAfter;
      var header := ptr - HEADER;
      ghost var l, r, left, x, q := FreePrepares(size, addr, free, used, available, pool, ptr, header);
      used := used[header := false];
      available := available + (addr.next[header] - header - HEADER);
      var insertHeader := true;
      if !used[addr.prev[header]] {
        available := available + HEADER;
        var prev := addr.prev[header];
        addr := addr.Unlink(header);
        header := prev;
        insertHeader := false;
      }
      if !used[addr.next[header]] {
        available := available + HEADER;
        var newPtr := addr.next[header];
        addr := addr.Unlink(newPtr);
        free := free.Unlink(newPtr);
      }
      if insertHeader {
        free := free.InsertAfter(FREE_HEADER, header);
      }
      pool := q;
    }

    /** The branch of rt_memheap_realloc that takes over part of the free block behind. */
    method Grow(ptr: int, n: int, ghost i: nat)
      requires Valid() && Allocated(pool, size, ptr) && i == IndexAt(pool.blocks, ptr - HEADER)
      requires Resizable(pool.blocks, size, HEADER, i, n + HEADER) && n > Room(pool.blocks[i])
               && JoinsRight(pool.blocks, i)
      requires addr.Has(ptr - HEADER) && addr.next[ptr - HEADER] == pool.blocks[i + 1].addr
      requires addr.next[ptr - HEADER] - ptr == Room(pool.blocks[i])
      modifies this
      ensures Valid()
      ensures pool == ResizePool(old(pool), ptr, n)
      ensures maxUsed == HighWater(old(maxUsed), size - available)
    {
      hide Rep, Resizable, JoinsRight, Allocated, IndexAt, ResizePool, Addrs, Room, Links.Unlink, Links.InsertAfter;
      ghost var q := ResizePool(pool, ptr, n);
      var header := ptr - HEADER;
      var nextPtr := addr.next[header];
      var oldSize := addr.next[header] - header - HEADER;
      var newPtr := ptr + n;
      GrowPrepares(size, addr, free, used, available, pool, ptr, header, i, n, newPtr, nextPtr);
      available := available - (n - oldSize);
      maxUsed := HighWater(maxUsed, size - available);
      free := free.Unlink(nextPtr);
      addr := addr.Unlink(nextPtr);
      used := used[newPtr := false];
      addr := addr.InsertAfter(header, newPtr);
      free := free.InsertAfter(FREE_HEADER, newPtr);
      pool := q;
    }

    /** The branch that splits the block and gives the rest back. */
    method Shrink(ptr: int, n: int, ghost i: nat)
      requires Valid() && Allocated(pool, size, ptr) && i == IndexAt(pool.blocks, ptr - HEADER)
      requires Resizable(pool.blocks, size, HEADER, i, n + HEADER) && n + HEADER < Room(pool.blocks[i])
      modifies this
      ensures Valid() && maxUsed == old(maxUsed)
      ensures pool == ResizePool(old(pool), ptr, n)
    {
      hide Rep, Resizable, Allocated, IndexAt, ResizePool, Addrs, Links.Unlink, Links.InsertAfter;
      ghost var q := ResizePool(pool, ptr, n);
      var header := ptr - HEADER;
      var newPtr := ptr + n;
      ghost var right, y, z := ShrinkPrepares(size, addr, free, used, available, pool, ptr, header, i, n, newPtr);
      ShrinkGives(size, addr, free, used, available, pool, ptr, i, n);
      used := used[newPtr := false];
      addr := addr.InsertAfter(header, newPtr);
      if !used[addr.next[newPtr]] {
        var freePtr := addr.next[newPtr];
        available := available - (addr.next[freePtr] - freePtr - HEADER);
        addr := addr.Unlink(freePtr);
        free := free.Unlink(freePtr);
      }
      free := free.InsertAfter(FREE_HEADER, newPtr);
      available := available + (addr.next[newPtr] - newPtr - HEADER);
      pool := q;
    }

    /** rt_memheap_realloc. */
    method Realloc(ptr: int, request: int) returns (r: int)
      requires Valid() && 0 <= request <= MAX_REQUEST
      requires ptr == NULL || Allocated(pool, size, ptr)
      modifies this, bytes
      ensures Valid()
      ensures request == 0 ==> r == NULL && pool == if ptr == NULL then old(pool) else FreePool(old(pool), ptr)
      ensures request > 0 && ptr == NULL ==>
                pool == AllocPool(old(pool), Rounded(request)) && r == AllocResult(old(pool), Rounded(request))
      ensures request > 0 && ptr != NULL ==>
                && Rounded(request) % ALIGN_SIZE == 0 && Rounded(request) >= MINIALLOC
                && pool == ReallocPool(old(pool), size, ptr, Rounded(request))
                && r == ReallocResult(old(pool), ptr, Rounded(request))
      ensures if request > 0 && ptr != NULL && ReallocHow(old(pool), ptr, Rounded(request)).Move? then
                Carried(old(bytes[..]), bytes[..], r, ptr, Room(BlockOf(old(pool), ptr)))
              else bytes[..] == old(bytes[..])
    {
      hide Ring, Distinct, Tiles, NoAdjacentFree, Aligned, FreeRing, Flags, Sum, FirstFit, Addrs, Fails, ReallocHow;
      RoundedCovers(request);
      if request == 0 {
        Free(ptr);
        return NULL;
      }
      var n := Rounded(request);
      if ptr == NULL {
        r := Alloc(n);
        return;
      }
      r := Resize(ptr, n);
    }

    /** The part of rt_memheap_realloc that has a block and a rounded size. */
    method Resize(ptr: int, n: int) returns (r: int)
      requires Valid() && Allocated(pool, size, ptr)
      requires n % ALIGN_SIZE == 0 && MINIALLOC <= n <= MAX_REQUEST
      modifies this, bytes
      ensures Valid()
      ensures pool == ReallocPool(old(pool), size, ptr, n)
      ensures r == ReallocResult(old(pool), ptr, n)
      ensures maxUsed == HighWater(old(maxUsed),
                           size - if ReallocHow(old(pool), ptr, n).Move? then Available(AllocPool(old(pool), n))
                             else available)
      ensures if ReallocHow(old(pool), ptr, n).Move? then
                Carried(old(bytes[..]), bytes[..], r, ptr, Room(BlockOf(old(pool), ptr)))
              else bytes[..] == old(bytes[..])
    {
      hide Ring, Distinct, Tiles, NoAdjacentFree, Aligned, FreeRing, Flags, Sum, ResizedBlocks, FirstFit, Addrs;
      ghost var p, i := pool, IndexAt(pool.blocks, ptr - HEADER);
      var header := ptr - HEADER;
      SizeRead(addr, pool.blocks, size, i);
      FreeTests(addr, used, pool.blocks, size, i, header);
      var oldSize := addr.next[header] - header - HEADER;
      if n > oldSize {
        var nextPtr := addr.next[header];
        if !used[nextPtr] {
          SizeRead(addr, pool.blocks, size, i + 1);
          var nextSize := addr.next[nextPtr] - nextPtr - HEADER;
          if nextSize + oldSize > n + MINIALLOC {
            Grow(ptr, n, i);
            return ptr;
          }
        }
        r := Move(ptr, n, oldSize);
      } else if n + HEADER + MINIALLOC >= oldSize {
        r := ptr;
      } else {
        LenAtLeastHeader(pool.blocks, size, HEADER, i + 1);
        Shrink(ptr, n, i);
        r := ptr;
      }
    }

    /** The branch that allocates, copies and releases. */
    method Move(ptr: int, n: int, oldSize: int) returns (r: int)
      requires Valid() && Allocated(pool, size, ptr)
      requires n % ALIGN_SIZE == 0 && MINIALLOC <= n <= MAX_REQUEST && oldSize < n
      requires oldSize == Room(BlockOf(pool, ptr))
      modifies this, bytes
      ensures Valid()
      ensures r == AllocResult(old(pool), n) && (r == NULL <==> Fails(old(pool), n))
      ensures r == NULL ==> pool == old(pool) && maxUsed == old(maxUsed) && bytes[..] == old(bytes[..])
      ensures r != NULL ==>
              Allocated(AllocPool(old(pool), n), size, ptr) && pool == FreePool(AllocPool(old(pool), n), ptr)
      ensures r != NULL ==> maxUsed == HighWater(old(maxUsed), size - Available(AllocPool(old(pool), n)))
      ensures r != NULL ==> Carried(old(bytes[..]), bytes[..], r, ptr, oldSize)
    {
      hide Ring, Distinct, Tiles, NoAdjacentFree, Aligned, FreeRing, Flags, Sum, FirstFit, Addrs, Fails, Carried,
        Rounded, Align;
      MoveFacts(size, addr, free, used, available, pool, ptr, n);
      r := Alloc(n);
      if r != NULL {
        assert bytes[..] == old(bytes[..]);
        Memcpy(bytes, r, ptr, if oldSize < n then oldSize else n);
        Free(ptr);
      }
    }
  }
}
