/** What mem.c's operations do to its heap, seen as a sequence of blocks and the `lfree` hint.

  The chain runs from offset 0 to heap_end, here the tail block.  `lfree` is where rt_malloc starts
  its search: always a free block or heap_end, and the lowest free block until rt_realloc shrinks a
  block in place.
 */
module SmallMemSpec {
  import opened RtList
  import opened Blocks
  import opened Layouts

  const HEADER: int := 12          // SIZEOF_STRUCT_MEM: two half words and two words
  const MIN_SIZE: int := 12        // MIN_SIZE and MIN_SIZE_ALIGNED
  const NULL: int := -1

  datatype Heap = Heap(blocks: seq<Block>, lfree: int)

  function Room(b: Block): int {
    b.len - HEADER
  }

  function UsedLen(b: Block): int {
    if b.used then b.len else 0
  }

  /** What used_mem counts: headers and data of used blocks, heap_end left out. */
  ghost function UsedBytes(h: Heap): int {
    Sum(h.blocks, UsedLen) - HEADER
  }

  ghost predicate Hinted(h: Heap, size: int) {
    h.lfree == size - HEADER || h.lfree in FreeAddrs(h.blocks)
  }

  ghost predicate WellFormed(h: Heap, size: int) {
    Layout(h.blocks, size, HEADER) && Hinted(h, size)
  }

  /** The comment's promise: lfree points to the lowest free block. */
  ghost predicate Lowest(h: Heap) {
    forall a :: a in FreeAddrs(h.blocks) ==> h.lfree <= a
  }

  function InitialHeap(size: int): Heap {
    Heap([Block(0, size - HEADER, false), Block(size - HEADER, HEADER, true)], 0)
  }

  lemma InitialHeapWellFormed(size: int)
    requires size >= 2 * HEADER && size % ALIGN_SIZE == 0
    ensures WellFormed(InitialHeap(size), size) && Lowest(InitialHeap(size)) && UsedBytes(InitialHeap(size)) == 0
  {
    var b, c := Block(0, size - HEADER, false), Block(size - HEADER, HEADER, true);
    Singles(b, c);
    SumOf(b, c, UsedLen);
  }

  /** ptr is the address of a live allocation's data. */
  ghost predicate Allocated(h: Heap, size: int, ptr: int) {
    && ptr - HEADER in Addrs(h.blocks)
    && ptr < size - HEADER
    && h.blocks[IndexAt(h.blocks, ptr - HEADER)].used
  }

  ghost function BlockOf(h: Heap, ptr: int): Block
    requires ptr - HEADER in Addrs(h.blocks)
  {
    h.blocks[IndexAt(h.blocks, ptr - HEADER)]
  }

  lemma LiveIsAllocated(h: Heap, size: int, b: Block)
    requires WellFormed(h, size) && b in Live(h.blocks) && b.addr + HEADER < size - HEADER
    ensures Allocated(h, size, b.addr + HEADER) && BlockOf(h, b.addr + HEADER) == b
  {
    var i :| 0 <= i < |h.blocks| && h.blocks[i] == b;
    IndexUnique(h.blocks, 0, size, HEADER, i);
  }

  lemma HintKnown(h: Heap, size: int)
    requires WellFormed(h, size)
    ensures h.lfree in Addrs(h.blocks)
    ensures var i := IndexAt(h.blocks, h.lfree);
            (i == |h.blocks| - 1 <==> h.lfree == size - HEADER) && (i < |h.blocks| - 1 ==> !h.blocks[i].used)
  {
    FreeAddrsAreAddrs(h.blocks);
    IndexUnique(h.blocks, 0, size, HEADER, |h.blocks| - 1);
    assert Addrs(h.blocks)[|h.blocks| - 1] == size - HEADER;
    if h.lfree in FreeAddrs(h.blocks) {
      var i :| 0 <= i < |h.blocks| && !h.blocks[i].used && h.blocks[i].addr == h.lfree;
      IndexUnique(h.blocks, 0, size, HEADER, i);
    }
  }

  // ----- rt_malloc -----

  ghost predicate Fits(b: Block, n: int) {
    !b.used && Room(b) >= n
  }

  /** The search loop: the first fitting block from i on whose offset is below limit - n. */
  ghost function Search(bs: seq<Block>, i: nat, n: int, limit: int): (k: nat)
    requires i <= |bs|
    ensures i <= k <= |bs|
    ensures k < |bs| ==> Fits(bs[k], n) && bs[k].addr < limit - n
    decreases |bs| - i
  {
    if i == |bs| || bs[i].addr >= limit - n then |bs|
    else if Fits(bs[i], n) then i
    else Search(bs, i + 1, n, limit)
  }

  /** Offset of the first free block from i on, or of heap_end. */
  ghost function NextFree(bs: seq<Block>, i: nat): (a: int)
    requires i < |bs|
    ensures a == bs[|bs| - 1].addr || exists j :: i <= j < |bs| && !bs[j].used && bs[j].addr == a
    decreases |bs| - i
  {
    if i == |bs| - 1 || !bs[i].used then bs[i].addr else NextFree(bs, i + 1)
  }

  ghost function TakenBlocks(bs: seq<Block>, k: nat, n: int): seq<Block>
    requires k < |bs|
  {
    if Room(bs[k]) >= n + HEADER + MIN_SIZE then Split(bs, k, n + HEADER, true) else Marked(bs, k, true)
  }

  ghost function Take(h: Heap, k: nat, n: int): Heap
    requires k < |h.blocks|
  {
    var bs := TakenBlocks(h.blocks, k, n);
    Heap(bs, if h.blocks[k].addr == h.lfree then NextFree(bs, k) else h.lfree)
  }

  /** Where the search from lfree ends; |blocks| when it finds nothing. */
  ghost function Found(h: Heap, size: int, n: int): nat
    requires h.lfree in Addrs(h.blocks)
  {
    Search(h.blocks, IndexAt(h.blocks, h.lfree), n, size - 2 * HEADER)
  }

  ghost predicate Fails(h: Heap, size: int, n: int)
    requires h.lfree in Addrs(h.blocks)
  {
    Found(h, size, n) == |h.blocks|
  }

  ghost function MallocHeap(h: Heap, size: int, n: int): Heap
    requires h.lfree in Addrs(h.blocks)
  {
    if Fails(h, size, n) then h else Take(h, Found(h, size, n), n)
  }

  ghost function MallocResult(h: Heap, size: int, n: int): int
    requires h.lfree in Addrs(h.blocks)
  {
    if Fails(h, size, n) then NULL else h.blocks[Found(h, size, n)].addr + HEADER
  }

  ghost function MallocLen(h: Heap, size: int, n: int): int
    requires h.lfree in Addrs(h.blocks) && !Fails(h, size, n)
  {
    var b := h.blocks[Found(h, size, n)];
    if Room(b) >= n + HEADER + MIN_SIZE then n + HEADER else b.len
  }

  lemma FoundInside(h: Heap, size: int, n: int)
    requires WellFormed(h, size) && h.lfree in Addrs(h.blocks) && !Fails(h, size, n) && n > 0
    ensures Found(h, size, n) < |h.blocks| - 1 && Fits(h.blocks[Found(h, size, n)], n)
  {
  }

  lemma AllocatedInside(h: Heap, size: int, ptr: int)
    requires WellFormed(h, size) && Allocated(h, size, ptr)
    ensures IndexAt(h.blocks, ptr - HEADER) + 1 < |h.blocks| && ptr >= HEADER
  {
    AddrInRange(h.blocks, size, HEADER, IndexAt(h.blocks, ptr - HEADER));
  }

  lemma TakenLayout(bs: seq<Block>, size: int, k: nat, n: int)
    requires Layout(bs, size, HEADER) && k + 1 < |bs| && Fits(bs[k], n) && n > 0 && n % ALIGN_SIZE == 0
    ensures Layout(TakenBlocks(bs, k, n), size, HEADER)
  {
    hide Tiles;
    if Room(bs[k]) >= n + HEADER + MIN_SIZE {
      SplitLayout(bs, size, HEADER, k, n + HEADER);
    } else {
      assert bs[k] in bs;
      Only(bs[k].(used := true), HEADER);
      LayoutReplace(bs, size, HEADER, k, k + 1, [bs[k].(used := true)]);
    }
  }

  lemma Only(b: Block, minLen: nat)
    requires b.len >= minLen
    ensures Tiles([b], b.addr, b.addr + b.len, minLen)
  {
  }

  lemma TakenGives(bs: seq<Block>, size: int, k: nat, n: int)
    requires Layout(bs, size, HEADER) && k + 1 < |bs| && Fits(bs[k], n) && n > 0
    ensures var len := if Room(bs[k]) >= n + HEADER + MIN_SIZE then n + HEADER else bs[k].len;
            && Live(TakenBlocks(bs, k, n)) == Live(bs) + {Block(bs[k].addr, len, true)}
            && Sum(TakenBlocks(bs, k, n), UsedLen) == Sum(bs, UsedLen) + len
  {
    hide NoAdjacentFree, Aligned;
    if Room(bs[k]) >= n + HEADER + MIN_SIZE {
      SplitLive(bs, 0, size, HEADER, k, n + HEADER, true, UsedLen);
      SplitSum(bs, 0, size, HEADER, k, n + HEADER, true, UsedLen);
    } else {
      MarkedLive(bs, 0, size, HEADER, k, true, UsedLen);
      MarkedSum(bs, 0, size, HEADER, k, true, UsedLen);
    }
  }

  lemma TakenFree(bs: seq<Block>, size: int, k: nat, n: int)
    requires Layout(bs, size, HEADER) && k + 1 < |bs| && Fits(bs[k], n) && n > 0
    ensures FreeAddrs(TakenBlocks(bs, k, n))
            == FreeAddrs(bs) - {bs[k].addr}
              + (if Room(bs[k]) >= n + HEADER + MIN_SIZE then {bs[k].addr + (n + HEADER)} else {})
  {
    hide NoAdjacentFree, Aligned;
    if Room(bs[k]) >= n + HEADER + MIN_SIZE {
      SplitFree(bs, 0, size, HEADER, k, n + HEADER, true, UsedLen);
    } else {
      MarkedFree(bs, 0, size, HEADER, k, true, UsedLen);
    }
  }

  /** Every run of rt_malloc keeps the chain's shape and the hint on a free block or heap_end. */
  lemma MallocKeeps(h: Heap, size: int, n: int)
    requires WellFormed(h, size) && n > 0 && n % ALIGN_SIZE == 0
    ensures h.lfree in Addrs(h.blocks) && WellFormed(MallocHeap(h, size, n), size)
  {
    hide Tiles, NoAdjacentFree, Aligned, Search;
    HintKnown(h, size);
    if !Fails(h, size, n) {
      var k := Found(h, size, n);
      FoundInside(h, size, n);
      TakenLayout(h.blocks, size, k, n);
      TakenFree(h.blocks, size, k, n);
      var bs := TakenBlocks(h.blocks, k, n);
      NextFreeIsFree(bs, k);
    }
  }

  lemma NextFreeIsFree(bs: seq<Block>, i: nat)
    requires i < |bs|
    ensures NextFree(bs, i) == bs[|bs| - 1].addr || NextFree(bs, i) in FreeAddrs(bs)
  {
  }

  lemma MallocGives(h: Heap, size: int, n: int)
    requires WellFormed(h, size) && h.lfree in Addrs(h.blocks)
    requires n > 0 && n % ALIGN_SIZE == 0 && !Fails(h, size, n)
    ensures var got := Block(MallocResult(h, size, n) - HEADER, MallocLen(h, size, n), true);
            && Live(MallocHeap(h, size, n).blocks) == Live(h.blocks) + {got}
            && n + HEADER <= got.len < n + 2 * HEADER + MIN_SIZE
            && UsedBytes(MallocHeap(h, size, n)) == UsedBytes(h) + got.len
            && got.addr in FreeAddrs(h.blocks) && got.addr != size - HEADER
  {
    hide Tiles, NoAdjacentFree, Aligned, Search;
    FoundInside(h, size, n);
    TakenGives(h.blocks, size, Found(h, size, n), n);
    FreeAddrsIndex(h.blocks, Found(h, size, n));
    Tail(h.blocks, size, Found(h, size, n));
  }

  lemma Tail(bs: seq<Block>, size: int, i: nat)
    requires Layout(bs, size, HEADER) && i + 1 < |bs|
    ensures bs[i].addr + bs[i].len <= size - HEADER
  {
    Ascending(bs, 0, size, HEADER, i, |bs| - 1);
  }

  lemma {:induction false} SearchSkips(bs: seq<Block>, size: int, i: nat, n: int, limit: int, j: nat)
    requires Tiles(bs, 0, size, HEADER) && i <= j < |bs| && Search(bs, i, n, limit) > j
    requires bs[j].addr < limit - n
    ensures !Fits(bs[j], n)
    decreases j - i
  {
    if i < j {
      Ascending(bs, 0, size, HEADER, i, j);
      SearchSkips(bs, size, i + 1, n, limit, j);
    }
  }

  /** rt_malloc gives NULL exactly when no free block from lfree on has room below the loop's bound. */
  lemma MallocFailsIff(h: Heap, size: int, n: int)
    requires WellFormed(h, size) && h.lfree in Addrs(h.blocks) && n > 0
    ensures Fails(h, size, n) <==>
            forall j :: 0 <= j < |h.blocks| && h.blocks[j].addr >= h.lfree && Fits(h.blocks[j], n) ==>
              h.blocks[j].addr >= size - 2 * HEADER - n
    ensures MallocResult(h, size, n) == NULL <==> Fails(h, size, n)
    ensures MallocResult(h, size, n) == NULL ==> MallocHeap(h, size, n) == h
  {
    hide NoAdjacentFree, Aligned, Search;
    if !Fails(h, size, n) {
      AddrInRange(h.blocks, size, HEADER, Found(h, size, n));
    }
    var bs, i := h.blocks, IndexAt(h.blocks, h.lfree);
    var k := Found(h, size, n);
    if k == |bs| {
      forall j | 0 <= j < |bs| && bs[j].addr >= h.lfree && Fits(bs[j], n)
        ensures bs[j].addr >= size - 2 * HEADER - n
      {
        if j < i {
          Ascending(bs, 0, size, HEADER, j, i);
        } else if bs[j].addr < size - 2 * HEADER - n {
          SearchSkips(bs, size, i, n, size - 2 * HEADER, j);
        }
      }
    } else if i < k {
      Ascending(bs, 0, size, HEADER, i, k);
    }
  }

  /** It gives the lowest block from lfree on that has room. */
  lemma MallocFirstFit(h: Heap, size: int, n: int)
    requires WellFormed(h, size) && h.lfree in Addrs(h.blocks) && n > 0 && !Fails(h, size, n)
    ensures MallocResult(h, size, n) - HEADER >= h.lfree
    ensures forall j :: 0 <= j < |h.blocks| && Fits(h.blocks[j], n) && h.blocks[j].addr >= h.lfree ==>
              MallocResult(h, size, n) - HEADER <= h.blocks[j].addr
  {
    hide NoAdjacentFree, Aligned, Search;
    var bs, i, k := h.blocks, IndexAt(h.blocks, h.lfree), Found(h, size, n);
    if i < k {
      Ascending(bs, 0, size, HEADER, i, k);
    }
    forall j | 0 <= j < |bs| && Fits(bs[j], n) && bs[j].addr >= h.lfree
      ensures bs[k].addr <= bs[j].addr
    {
      if j < i {
        Ascending(bs, 0, size, HEADER, j, i);
      } else if j < k {
        Ascending(bs, 0, size, HEADER, j, k);
        SearchSkips(bs, size, i, n, size - 2 * HEADER, j);
      } else if k < j {
        Ascending(bs, 0, size, HEADER, k, j);
      }
    }
  }

  /** Then lfree moves to the lowest free block from where it was on, or to heap_end. */
  lemma MallocHint(h: Heap, size: int, n: int)
    requires WellFormed(h, size) && h.lfree in Addrs(h.blocks) && n > 0 && n % ALIGN_SIZE == 0
    ensures var q := MallocHeap(h, size, n);
            && q.lfree >= h.lfree && (q.lfree in FreeAddrs(q.blocks) || q.lfree == size - HEADER)
            && forall a :: a in FreeAddrs(q.blocks) && a >= h.lfree ==> q.lfree <= a
  {
    hide Tiles, NoAdjacentFree, Aligned, Search;
    MallocKeeps(h, size, n);
    if !Fails(h, size, n) {
      FoundInside(h, size, n);
      TakeHint(h, size, Found(h, size, n), n);
    } else {
      BelowEnd(h, size);
    }
  }

  lemma BelowEnd(h: Heap, size: int)
    requires WellFormed(h, size)
    ensures forall a :: a in FreeAddrs(h.blocks) ==> a < size - HEADER
  {
    hide NoAdjacentFree, Aligned;
    forall a | a in FreeAddrs(h.blocks)
      ensures a < size - HEADER
    {
      var j :| 0 <= j < |h.blocks| && !h.blocks[j].used && h.blocks[j].addr == a;
      NeighbourAddrs(h.blocks, size, j);
    }
  }

  /** The strict bound skips one kind of fitting block: an exact fit that ends at heap_end. */
  lemma BoundSkipsExactLast(bs: seq<Block>, size: int, n: int, j: nat)
    requires Layout(bs, size, HEADER) && j < |bs| && Fits(bs[j], n) && n > 0
    ensures bs[j].addr >= size - 2 * HEADER - n <==> Room(bs[j]) == n && j == |bs| - 2
  {
    hide NoAdjacentFree, Aligned;
    Tail(bs, size, j);
    if j < |bs| - 2 {
      Tail(bs, size, j + 1);
      Touch(bs, 0, size, HEADER, j);
      LenAtLeastHeader(bs, size, HEADER, j + 1);
    } else {
      Touch(bs, 0, size, HEADER, j);
    }
  }

  /** The search loop passes block i: its bound, a difference of 32-bit unsigned words, lets it, and the
      block does not fit. */
  ghost predicate GoesOn(bs: seq<Block>, size: int, n: int, i: nat)
    requires i < |bs|
  {
    bs[i].addr < (size - 2 * HEADER - n) % 0x1_0000_0000 && !Fits(bs[i], n)
  }

  /** The block the loop looks at after k rounds: heap_end follows itself. */
  function Visited(bs: seq<Block>, i: nat, k: nat): (j: nat)
    requires i < |bs|
    ensures j < |bs|
  {
    if i + k < |bs| then i + k else |bs| - 1
  }

  ghost predicate RunsForever(bs: seq<Block>, size: int, n: int, i: nat)
    requires i < |bs|
  {
    forall k: nat :: GoesOn(bs, size, n, Visited(bs, i, k))
  }

  /** For a size that rt_malloc searches for, the loop never ends exactly when the whole heap has less than
      MIN_SIZE_ALIGNED bytes between its headers. */
  lemma SearchEndsIff(h: Heap, size: int, n: int)
    requires WellFormed(h, size) && h.lfree in Addrs(h.blocks) && 2 * HEADER <= size < 0x1_0000_0000
    requires n == MIN_SIZE || MIN_SIZE < n <= size - 2 * HEADER
    ensures RunsForever(h.blocks, size, n, IndexAt(h.blocks, h.lfree)) <==> size - 2 * HEADER < MIN_SIZE
  {
    hide NoAdjacentFree, Aligned, Tiles, Hinted;
    var bs, i := h.blocks, IndexAt(h.blocks, h.lfree);
    if size - 2 * HEADER < MIN_SIZE {
      forall k: nat
        ensures GoesOn(bs, size, n, Visited(bs, i, k))
      {
        TooSmall(bs, size, Visited(bs, i, k));
      }
    } else {
      LastEnds(bs, size, n);
      assert Visited(bs, i, |bs|) == |bs| - 1;
      assert !GoesOn(bs, size, n, Visited(bs, i, |bs|));
    }
  }

  lemma TooSmall(bs: seq<Block>, size: int, j: nat)
    requires Layout(bs, size, HEADER) && j < |bs| && 2 * HEADER <= size < 2 * HEADER + MIN_SIZE
    ensures GoesOn(bs, size, MIN_SIZE, j)
  {
    hide NoAdjacentFree, Aligned;
    if j + 1 < |bs| {
      Tail(bs, size, j);
    }
    if j > 0 {
      Ascending(bs, 0, size, HEADER, 0, j);
    }
  }

  lemma LastEnds(bs: seq<Block>, size: int, n: int)
    requires Layout(bs, size, HEADER) && 0 < n <= size - 2 * HEADER < 0x1_0000_0000
    ensures |bs| > 0 && !GoesOn(bs, size, n, |bs| - 1)
  {
    hide NoAdjacentFree, Aligned;
    var limit := size - 2 * HEADER - n;
    assert limit % 0x1_0000_0000 == limit;
  }

  /** While lfree is the lowest free block, NULL means no room anywhere, the exact last fit apart. */
  lemma MallocComplete(h: Heap, size: int, n: int)
    requires WellFormed(h, size) && h.lfree in Addrs(h.blocks) && Lowest(h) && n > 0
    ensures Fails(h, size, n) <==>
            forall j :: 0 <= j < |h.blocks| && Fits(h.blocks[j], n) ==> Room(h.blocks[j]) == n && j == |h.blocks| - 2
  {
    hide Tiles, NoAdjacentFree, Aligned, Search, Found, Fails;
    MallocFailsIff(h, size, n);
    forall j | 0 <= j < |h.blocks| && Fits(h.blocks[j], n)
      ensures h.blocks[j].addr >= h.lfree
      ensures h.blocks[j].addr >= size - 2 * HEADER - n <==> Room(h.blocks[j]) == n && j == |h.blocks| - 2
    {
      FreeAddrsIndex(h.blocks, j);
      BoundSkipsExactLast(h.blocks, size, n, j);
    }
  }

  lemma {:induction false} NextFreeLowest(bs: seq<Block>, size: int, i: nat, j: nat)
    requires Layout(bs, size, HEADER) && i <= j < |bs| && !bs[j].used
    ensures NextFree(bs, i) <= bs[j].addr
    decreases j - i
  {
    if i < j {
      Ascending(bs, 0, size, HEADER, i, j);
      NextFreeLowest(bs, size, i + 1, j);
    }
  }

  /** rt_malloc keeps lfree the lowest free block. */
  lemma MallocKeepsLowest(h: Heap, size: int, n: int)
    requires WellFormed(h, size) && Lowest(h) && n > 0 && n % ALIGN_SIZE == 0
    ensures h.lfree in Addrs(h.blocks) && Lowest(MallocHeap(h, size, n))
  {
    hide Tiles, NoAdjacentFree, Aligned, Search;
    HintKnown(h, size);
    if !Fails(h, size, n) {
      var k := Found(h, size, n);
      FoundInside(h, size, n);
      TakeKeepsLowest(h, size, k, n);
    }
  }

  lemma TakeKeepsLowest(h: Heap, size: int, k: nat, n: int)
    requires WellFormed(h, size) && Lowest(h) && k + 1 < |h.blocks| && Fits(h.blocks[k], n) && n > 0
             && n % ALIGN_SIZE == 0
    ensures Lowest(Take(h, k, n))
  {
    hide NoAdjacentFree, Aligned, Tiles;
    var bs := TakenBlocks(h.blocks, k, n);
    TakenLayout(h.blocks, size, k, n);
    TakenFree(h.blocks, size, k, n);
    FreeAddrsIndex(h.blocks, k);
    if h.blocks[k].addr == h.lfree {
      forall a | a in FreeAddrs(bs)
        ensures NextFree(bs, k) <= a
      {
        var j :| 0 <= j < |bs| && !bs[j].used && bs[j].addr == a;
        if j < k {
          assert bs[j] == h.blocks[j];
          Ascending(h.blocks, 0, size, HEADER, j, k);
          LenAtLeastHeader(h.blocks, size, HEADER, j);
          FreeAddrsIndex(h.blocks, j);
        } else {
          NextFreeLowest(bs, size, k, j);
        }
      }
    }
  }

  lemma TakeHint(h: Heap, size: int, k: nat, n: int)
    requires WellFormed(h, size) && k + 1 < |h.blocks| && Fits(h.blocks[k], n) && n > 0 && n % ALIGN_SIZE == 0
    ensures var q := Take(h, k, n);
            && q.lfree >= h.lfree && (q.lfree in FreeAddrs(q.blocks) || q.lfree == size - HEADER)
            && forall a :: a in FreeAddrs(q.blocks) && a >= h.lfree ==> q.lfree <= a
  {
    hide NoAdjacentFree, Aligned, Tiles;
    var bs := TakenBlocks(h.blocks, k, n);
    TakenLayout(h.blocks, size, k, n);
    TakenFree(h.blocks, size, k, n);
    FreeAddrsIndex(h.blocks, k);
    BelowEnd(h, size);
    if h.blocks[k].addr == h.lfree {
      NextFreeIsFree(bs, k);
      NextFreeAbove(bs, size, k);
      assert bs[k].addr == h.lfree;
      forall a | a in FreeAddrs(bs) && a >= h.lfree
        ensures NextFree(bs, k) <= a
      {
        var j :| 0 <= j < |bs| && !bs[j].used && bs[j].addr == a;
        if j < k {
          Ascending(bs, 0, size, HEADER, j, k);
          LenAtLeastHeader(bs, size, HEADER, j);
        } else {
          NextFreeLowest(bs, size, k, j);
        }
      }
    } else if h.lfree == size - HEADER {
      TakenBelowEnd(h, size, k, n);
    }
  }

  lemma TakenBelowEnd(h: Heap, size: int, k: nat, n: int)
    requires WellFormed(h, size) && k + 1 < |h.blocks| && Fits(h.blocks[k], n) && n > 0 && n % ALIGN_SIZE == 0
    ensures forall a :: a in FreeAddrs(TakenBlocks(h.blocks, k, n)) ==> a < size - HEADER
  {
    hide NoAdjacentFree, Aligned, Tiles;
    TakenLayout(h.blocks, size, k, n);
    BelowEnd(Heap(TakenBlocks(h.blocks, k, n), size - HEADER), size);
  }

  lemma {:induction false} NextFreeAbove(bs: seq<Block>, size: int, i: nat)
    requires Layout(bs, size, HEADER) && i < |bs|
    ensures NextFree(bs, i) >= bs[i].addr
    decreases |bs| - i
  {
    hide NoAdjacentFree, Aligned;
    if i < |bs| - 1 && bs[i].used {
      Ascending(bs, 0, size, HEADER, i, i + 1);
      LenAtLeastHeader(bs, size, HEADER, i);
      NextFreeAbove(bs, size, i + 1);
    }
  }

  // ----- rt_free -----

  /** What plug_holes does to lfree when it merges block i with its free neighbours. */
  ghost function PluggedHint(bs: seq<Block>, i: nat, lfree: int): int
    requires i < |bs|
  {
    var l := if JoinsRight(bs, i) && lfree == bs[i + 1].addr then bs[i].addr else lfree;
    if JoinsLeft(bs, i) && l == bs[i].addr then bs[i - 1].addr else l
  }

  ghost function FreeHeap(h: Heap, ptr: int): Heap
    requires ptr - HEADER in Addrs(h.blocks)
  {
    var i := IndexAt(h.blocks, ptr - HEADER);
    var lfree := if ptr - HEADER < h.lfree then ptr - HEADER else h.lfree;
    Heap(FreedBlocks(h.blocks, i), PluggedHint(h.blocks, i, lfree))
  }

  lemma NeighbourAddrs(bs: seq<Block>, size: int, i: nat)
    requires Layout(bs, size, HEADER) && i < |bs|
    ensures i > 0 ==> bs[i - 1].addr < bs[i].addr
    ensures i + 1 < |bs| ==> bs[i].addr < bs[i + 1].addr
    ensures JoinsLeft(bs, i) ==> bs[i - 1].addr in FreeAddrs(bs)
    ensures JoinsRight(bs, i) ==> bs[i + 1].addr in FreeAddrs(bs)
    ensures i < |bs| - 1 ==> bs[i].addr < size - HEADER
  {
    hide NoAdjacentFree, Aligned;
    if i > 0 {
      Touch(bs, 0, size, HEADER, i - 1);
      LenAtLeastHeader(bs, size, HEADER, i - 1);
    }
    if i + 1 < |bs| {
      Touch(bs, 0, size, HEADER, i);
      LenAtLeastHeader(bs, size, HEADER, i);
      Tail(bs, size, i);
    }
  }

  /** rt_free keeps the invariant, removes just its block from the live ones and its bytes from used_mem. */
  lemma FreeKeeps(h: Heap, size: int, ptr: int)
    requires WellFormed(h, size) && Allocated(h, size, ptr)
    ensures WellFormed(FreeHeap(h, ptr), size)
    ensures Live(FreeHeap(h, ptr).blocks) == Live(h.blocks) - {BlockOf(h, ptr)}
  {
    hide Tiles, NoAdjacentFree, Aligned, FreedBlocks;
    var i := IndexAt(h.blocks, ptr - HEADER);
    FreedLayout(h.blocks, size, HEADER, i);
    FreedBlocksGive(h.blocks, size, HEADER, i);
    NeighbourAddrs(h.blocks, size, i);
    UsedAddrIsNotFree(h.blocks, size, HEADER, i);
  }

  lemma FreeLowersUsed(h: Heap, size: int, ptr: int)
    requires WellFormed(h, size) && Allocated(h, size, ptr)
    ensures UsedBytes(FreeHeap(h, ptr)) == UsedBytes(h) - BlockOf(h, ptr).len
  {
    hide Tiles, NoAdjacentFree, Aligned;
    var i := IndexAt(h.blocks, ptr - HEADER);
    var m := Merged(h.blocks, i);
    SumReplace(h.blocks, From(h.blocks, i), Upto(h.blocks, i), [m], UsedLen);
    Stretch(h.blocks, i, UsedLen);
    SumOf(m, m, UsedLen);
  }

  /** rt_free keeps lfree the lowest free block. */
  lemma FreeKeepsLowest(h: Heap, size: int, ptr: int)
    requires WellFormed(h, size) && Allocated(h, size, ptr) && Lowest(h)
    ensures Lowest(FreeHeap(h, ptr))
  {
    hide Tiles, NoAdjacentFree, Aligned, FreedBlocks;
    var i := IndexAt(h.blocks, ptr - HEADER);
    FreedBlocksGive(h.blocks, size, HEADER, i);
    NeighbourAddrs(h.blocks, size, i);
  }

  lemma FreeBelow(bs: seq<Block>, size: int, i: nat, a: int)
    requires Layout(bs, size, HEADER) && i < |bs| && a in FreeAddrs(bs) && a < bs[i].addr
    ensures i > 0 && a <= bs[i - 1].addr && (a == bs[i - 1].addr ==> JoinsLeft(bs, i))
  {
    hide NoAdjacentFree, Aligned;
    var j :| 0 <= j < |bs| && !bs[j].used && bs[j].addr == a;
    if j > i {
      LenAtLeastHeader(bs, size, HEADER, i);
      Ascending(bs, 0, size, HEADER, i, j);
    } else if j < i - 1 {
      LenAtLeastHeader(bs, size, HEADER, j);
      Ascending(bs, 0, size, HEADER, j, i - 1);
    }
  }

  /** The address in x that lies highest without lying above m. */
  ghost predicate HighestUpTo(x: set<int>, m: int, a: int) {
    a in x && a <= m && forall b :: b in x && b <= m ==> b <= a
  }

  /** lfree comes to be the free block that the lower of the released block and lfree is then in. */
  lemma FreeHint(h: Heap, size: int, ptr: int)
    requires WellFormed(h, size) && Allocated(h, size, ptr)
    ensures HighestUpTo(FreeAddrs(FreeHeap(h, ptr).blocks), if ptr - HEADER < h.lfree then ptr - HEADER else h.lfree,
                        FreeHeap(h, ptr).lfree)
  {
    hide Tiles, NoAdjacentFree, Aligned, FreedBlocks;
    var bs, i := h.blocks, IndexAt(h.blocks, ptr - HEADER);
    FreedBlocksGive(bs, size, HEADER, i);
    NeighbourAddrs(bs, size, i);
    UsedAddrIsNotFree(bs, size, HEADER, i);
    forall a | a in FreeAddrs(bs) && a < bs[i].addr
      ensures i > 0 && a <= bs[i - 1].addr && (a == bs[i - 1].addr ==> JoinsLeft(bs, i))
    {
      FreeBelow(bs, size, i, a);
    }
  }

  lemma BeforeEnd(h: Heap, size: int, b: Block)
    requires WellFormed(h, size) && b in Live(h.blocks) && b.addr != size - HEADER
    ensures b.addr + b.len <= size - HEADER
  {
    hide NoAdjacentFree, Aligned;
    BlocksDisjoint(h.blocks, 0, size, HEADER, b, h.blocks[|h.blocks| - 1]);
  }

  /** Releasing what rt_malloc just returned restores the chain. */
  lemma FreeUndoesMalloc(h: Heap, size: int, n: int)
    requires WellFormed(h, size) && h.lfree in Addrs(h.blocks)
    requires n > 0 && n % ALIGN_SIZE == 0 && !Fails(h, size, n)
    ensures Allocated(MallocHeap(h, size, n), size, MallocResult(h, size, n))
    ensures FreeHeap(MallocHeap(h, size, n), MallocResult(h, size, n)).blocks == h.blocks
  {
    hide Tiles, NoAdjacentFree, Aligned, Fails, Found;
    var q, r := MallocHeap(h, size, n), MallocResult(h, size, n);
    var got := Block(r - HEADER, MallocLen(h, size, n), true);
    MallocKeeps(h, size, n);
    MallocGives(h, size, n);
    BeforeEnd(q, size, got);
    LiveIsAllocated(q, size, got);
    FreeKeeps(q, size, r);
    NotLiveWhileFree(h.blocks, size, got);
    LayoutFromLive(FreeHeap(q, r).blocks, h.blocks, 0, size, HEADER);
  }

  lemma NotLiveWhileFree(bs: seq<Block>, size: int, b: Block)
    requires Layout(bs, size, HEADER)
    ensures !(b in Live(bs) && b.addr in FreeAddrs(bs))
  {
    if b in Live(bs) {
      var i :| 0 <= i < |bs| && bs[i] == b;
      UsedAddrIsNotFree(bs, size, HEADER, i);
    }
  }

  // ----- rt_realloc, shrinking in place -----

  /** The branch condition of rt_realloc for a block with n bytes asked. */
  ghost predicate Shrinks(h: Heap, size: int, ptr: int, n: int) {
    Allocated(h, size, ptr) && n + HEADER + MIN_SIZE < Room(BlockOf(h, ptr))
  }

  ghost function ShrinkHeap(h: Heap, ptr: int, n: int): Heap
    requires ptr - HEADER in Addrs(h.blocks)
  {
    var i := IndexAt(h.blocks, ptr - HEADER);
    Heap(ResizedBlocks(h.blocks, i, n + HEADER),
         if JoinsRight(h.blocks, i) && h.lfree == h.blocks[i + 1].addr then ptr + n else h.lfree)
  }

  lemma ShrinkIsResizable(h: Heap, size: int, ptr: int, n: int)
    requires WellFormed(h, size) && Shrinks(h, size, ptr, n) && n > 0 && n % ALIGN_SIZE == 0
    ensures Resizable(h.blocks, size, HEADER, IndexAt(h.blocks, ptr - HEADER), n + HEADER)
  {
    hide NoAdjacentFree, Aligned;
    var i := IndexAt(h.blocks, ptr - HEADER);
    LenAtLeastHeader(h.blocks, size, HEADER, i + 1);
  }

  /** Shrinking keeps the invariant; the block keeps its place and gets exactly the bytes asked. */
  lemma ShrinkKeeps(h: Heap, size: int, ptr: int, n: int)
    requires WellFormed(h, size) && Shrinks(h, size, ptr, n) && n > 0 && n % ALIGN_SIZE == 0
    ensures WellFormed(ShrinkHeap(h, ptr, n), size)
    ensures Live(ShrinkHeap(h, ptr, n).blocks)
            == Live(h.blocks) - {BlockOf(h, ptr)} + {Block(ptr - HEADER, n + HEADER, true)}
  {
    hide Tiles, NoAdjacentFree, Aligned, ResizedBlocks;
    var i := IndexAt(h.blocks, ptr - HEADER);
    ShrinkIsResizable(h, size, ptr, n);
    ResizedLayout(h.blocks, size, HEADER, i, n + HEADER);
    ResizedLive(h.blocks, size, HEADER, i, n + HEADER);
    ResizedFree(h.blocks, size, HEADER, i, n + HEADER);
  }

  lemma ShrinkLowersUsed(h: Heap, size: int, ptr: int, n: int)
    requires WellFormed(h, size) && Shrinks(h, size, ptr, n) && n > 0 && n % ALIGN_SIZE == 0
    ensures UsedBytes(ShrinkHeap(h, ptr, n)) == UsedBytes(h) - (Room(BlockOf(h, ptr)) - n)
  {
    hide Tiles, NoAdjacentFree, Aligned;
    var i := IndexAt(h.blocks, ptr - HEADER);
    var mid := Cut(h.blocks, i, n + HEADER);
    SumReplace(h.blocks, i, Upto(h.blocks, i), mid, UsedLen);
    TailStretch(h.blocks, i, UsedLen);
    SumOf(mid[0], mid[1], UsedLen);
  }

  /** Shrinking leaves lfree the lowest free block exactly when lfree was below the block or was the
      free block right behind it. */
  lemma ShrinkLowestIff(h: Heap, size: int, ptr: int, n: int)
    requires WellFormed(h, size) && Shrinks(h, size, ptr, n) && n > 0 && n % ALIGN_SIZE == 0 && Lowest(h)
    ensures var b := BlockOf(h, ptr);
            Lowest(ShrinkHeap(h, ptr, n)) <==>
            h.lfree < b.addr || (b.addr + b.len in FreeAddrs(h.blocks) && h.lfree == b.addr + b.len)
  {
    hide Tiles, NoAdjacentFree, Aligned, ResizedBlocks;
    var i := IndexAt(h.blocks, ptr - HEADER);
    var bs, x := h.blocks, ptr + n;
    ShrinkIsResizable(h, size, ptr, n);
    ResizedFree(bs, size, HEADER, i, n + HEADER);
    NeighbourAddrs(bs, size, i);
    NextIsFreeIff(bs, size, i);
    HintKnown(h, size);
    HintPosition(h, size, i);
    assert x in FreeAddrs(ShrinkHeap(h, ptr, n).blocks);
  }

  /** lfree stays, or comes to be the rest of the block when it was the free block that the rest joins. */
  lemma ShrinkHint(h: Heap, size: int, ptr: int, n: int)
    requires WellFormed(h, size) && Shrinks(h, size, ptr, n) && n > 0 && n % ALIGN_SIZE == 0
    ensures var q := ShrinkHeap(h, ptr, n);
            if h.lfree == size - HEADER then q.lfree == h.lfree
            else HighestUpTo(FreeAddrs(q.blocks), h.lfree, q.lfree)
  {
    hide Tiles, NoAdjacentFree, Aligned, ResizedBlocks;
    var bs, i := h.blocks, IndexAt(h.blocks, ptr - HEADER);
    ShrinkIsResizable(h, size, ptr, n);
    ResizedFree(bs, size, HEADER, i, n + HEADER);
    NeighbourAddrs(bs, size, i);
    NextIsFreeIff(bs, size, i);
    BelowEnd(h, size);
    if JoinsRight(bs, i) && h.lfree == bs[i + 1].addr {
      forall a | a in FreeAddrs(bs) && a < bs[i + 1].addr
        ensures a <= ptr + n
      {
        FreeBelow(bs, size, i + 1, a);
      }
    }
  }

  lemma NextIsFreeIff(bs: seq<Block>, size: int, i: nat)
    requires Layout(bs, size, HEADER) && i + 1 < |bs|
    ensures bs[i].addr + bs[i].len == bs[i + 1].addr
    ensures bs[i + 1].addr in FreeAddrs(bs) <==> JoinsRight(bs, i)
  {
    Touch(bs, 0, size, HEADER, i);
    if bs[i + 1].used {
      UsedAddrIsNotFree(bs, size, HEADER, i + 1);
    }
  }

  /** lfree is below a used block or at least at the end of it. */
  lemma HintPosition(h: Heap, size: int, i: nat)
    requires WellFormed(h, size) && i + 1 < |h.blocks| && h.blocks[i].used
    ensures h.lfree < h.blocks[i].addr || h.lfree >= h.blocks[i].addr + h.blocks[i].len
  {
    hide NoAdjacentFree, Aligned;
    HintKnown(h, size);
    var j := IndexAt(h.blocks, h.lfree);
    if j < i {
      NeighbourAddrs(h.blocks, size, j);
      Ascending(h.blocks, 0, size, HEADER, j, i);
      LenAtLeastHeader(h.blocks, size, HEADER, j);
    } else if i < j {
      Ascending(h.blocks, 0, size, HEADER, i, j);
    }
  }

  /** An input for which the promise fails: in a full heap, shrinking the only block frees room that
      rt_malloc then never finds. */
  lemma ShrinkCanHideRoom()
    ensures var size := 224;
            var h := Heap([Block(0, 212, true), Block(212, HEADER, true)], 212);
            && WellFormed(InitialHeap(size), size) && InitialHeap(size).lfree in Addrs(InitialHeap(size).blocks)
            && h == MallocHeap(InitialHeap(size), size, 180)
            && WellFormed(h, size) && Lowest(h) && Shrinks(h, size, HEADER, 40)
            && var q := ShrinkHeap(h, HEADER, 40);
            && !Lowest(q) && q.lfree in Addrs(q.blocks) && Fails(q, size, 12)
            && exists j :: 0 <= j < |q.blocks| && Fits(q.blocks[j], 100)
  {
    hide *;
    FreshTaken();
    FullHidesRoom();
  }

  lemma FullHidesRoom()
    ensures var size := 224;
            var h := Heap([Block(0, 212, true), Block(212, HEADER, true)], 212);
            && WellFormed(h, size) && Lowest(h) && Shrinks(h, size, HEADER, 40)
            && var q := ShrinkHeap(h, HEADER, 40);
            && !Lowest(q) && q.lfree in Addrs(q.blocks) && Fails(q, size, 12)
            && exists j :: 0 <= j < |q.blocks| && Fits(q.blocks[j], 100)
  {
    var h := Heap([Block(0, 212, true), Block(212, HEADER, true)], 212);
    Singles(h.blocks[0], h.blocks[1]);
    IndexUnique(h.blocks, 0, 224, HEADER, 0);
    var q := ShrinkHeap(h, HEADER, 40);
    assert q.blocks == [Block(0, 52, true), Block(52, 160, false), Block(212, HEADER, true)];
    assert Fits(q.blocks[1], 100);
    FreeAddrsIndex(q.blocks, 1);
    IndexUnique(q.blocks, 0, 224, HEADER, 2);
  }

  lemma FreshTaken()
    ensures WellFormed(InitialHeap(224), 224) && InitialHeap(224).lfree in Addrs(InitialHeap(224).blocks)
    ensures MallocHeap(InitialHeap(224), 224, 180) == Heap([Block(0, 212, true), Block(212, HEADER, true)], 212)
  {
    hide Tiles, NoAdjacentFree, Aligned, Tailed, FreeAddrs;
    var h := InitialHeap(224);
    InitialHeapWellFormed(224);
    HintKnown(h, 224);
    IndexUnique(h.blocks, 0, 224, HEADER, 0);
    assert Found(h, 224, 180) == 0;
    assert Marked(h.blocks, 0, true) == [Block(0, 212, true), Block(212, HEADER, true)];
  }

  // ----- rt_realloc on a live block -----

  /** The size rt_malloc works with: at least MIN_SIZE_ALIGNED. */
  function AtLeastMin(n: int): int {
    if n < MIN_SIZE then MIN_SIZE else n
  }

  datatype How = Keep | InPlace | Move | Refuse

  /** A block too short to split is moved even when it already has the room. */
  ghost function ReallocHow(h: Heap, size: int, ptr: int, n: int): How
    requires h.lfree in Addrs(h.blocks) && ptr - HEADER in Addrs(h.blocks)
  {
    if Room(BlockOf(h, ptr)) == n then Keep
    else if n + HEADER + MIN_SIZE < Room(BlockOf(h, ptr)) then InPlace
    else if Fails(h, size, AtLeastMin(n)) then Refuse
    else Move
  }

  ghost function ReallocResult(h: Heap, size: int, ptr: int, n: int): int
    requires h.lfree in Addrs(h.blocks) && ptr - HEADER in Addrs(h.blocks)
  {
    match ReallocHow(h, size, ptr, n)
    case Move => MallocResult(h, size, AtLeastMin(n))
    case Refuse => NULL
    case _ => ptr
  }

  ghost function ReallocHeap(h: Heap, size: int, ptr: int, n: int): Heap
    requires WellFormed(h, size) && h.lfree in Addrs(h.blocks) && Allocated(h, size, ptr)
    requires n > 0 && n % ALIGN_SIZE == 0
  {
    match ReallocHow(h, size, ptr, n)
    case InPlace => ShrinkHeap(h, ptr, n)
    case Move => StillAllocated(h, size, ptr, AtLeastMin(n)); FreeHeap(MallocHeap(h, size, AtLeastMin(n)), ptr)
    case _ => h
  }

  lemma StillAllocated(h: Heap, size: int, ptr: int, n: int)
    requires WellFormed(h, size) && h.lfree in Addrs(h.blocks) && Allocated(h, size, ptr)
    requires n > 0 && n % ALIGN_SIZE == 0 && !Fails(h, size, n)
    ensures Allocated(MallocHeap(h, size, n), size, ptr)
    ensures BlockOf(MallocHeap(h, size, n), ptr) == BlockOf(h, ptr)
  {
    hide Tiles, NoAdjacentFree, Aligned, Fails, Found;
    MallocKeeps(h, size, n);
    MallocGives(h, size, n);
    var b := BlockOf(h, ptr);
    assert b in Live(h.blocks);
    LiveIsAllocated(MallocHeap(h, size, n), size, b);
  }

  ghost function ReallocLen(h: Heap, size: int, ptr: int, n: int): int
    requires h.lfree in Addrs(h.blocks) && ptr - HEADER in Addrs(h.blocks) && !ReallocHow(h, size, ptr, n).Refuse?
  {
    match ReallocHow(h, size, ptr, n)
    case Keep => BlockOf(h, ptr).len
    case InPlace => n + HEADER
    case Move => MallocLen(h, size, AtLeastMin(n))
  }

  lemma MoveGives(h: Heap, size: int, ptr: int, n: int)
    requires WellFormed(h, size) && h.lfree in Addrs(h.blocks) && Allocated(h, size, ptr)
    requires n > 0 && n % ALIGN_SIZE == 0 && !Fails(h, size, n)
    ensures Allocated(MallocHeap(h, size, n), size, ptr)
    ensures var q, got :=
            FreeHeap(MallocHeap(h, size, n), ptr),
            Block(MallocResult(h, size, n) - HEADER, MallocLen(h, size, n), true);
            WellFormed(q, size) && Live(q.blocks) == Live(h.blocks) - {BlockOf(h, ptr)} + {got}
  {
    hide Tiles, NoAdjacentFree, Aligned, Fails, Found, FreeHeap, MallocHeap, MallocResult, MallocLen, Live;
    StillAllocated(h, size, ptr, n);
    MallocKeeps(h, size, n);
    MallocGives(h, size, n);
    NotLiveWhileFree(h.blocks, size, BlockOf(h, ptr));
    LiveBlock(h, size, ptr);
    FreeKeeps(MallocHeap(h, size, n), size, ptr);
  }

  lemma LiveBlock(h: Heap, size: int, ptr: int)
    requires Allocated(h, size, ptr)
    ensures BlockOf(h, ptr) in Live(h.blocks) && BlockOf(h, ptr).addr == ptr - HEADER
  {
  }

  /** Where rt_realloc copies the m bytes from and to: both stretches lie in the heap and do not meet. */
  lemma MoveRegions(h: Heap, size: int, ptr: int, n: int, asked: int)
    requires WellFormed(h, size) && h.lfree in Addrs(h.blocks) && Allocated(h, size, ptr)
    requires n > 0 && n % ALIGN_SIZE == 0 && !Fails(h, size, n) && 0 < asked <= n
    ensures var r, m := MallocResult(h, size, n), if Room(BlockOf(h, ptr)) < asked then Room(BlockOf(h, ptr))
            else asked;
            && 0 <= m && 0 <= ptr && 0 <= r && ptr + m <= size && r + m <= size && (ptr + m <= r || r + m <= ptr)
  {
    hide NoAdjacentFree, Aligned, Fails, Found, MallocHeap, MallocResult, MallocLen, Hinted;
    var q := MallocHeap(h, size, n);
    var b, got := BlockOf(h, ptr), Block(MallocResult(h, size, n) - HEADER, MallocLen(h, size, n), true);
    MallocKeeps(h, size, n);
    MallocGives(h, size, n);
    LiveBlock(h, size, ptr);
    NotLiveWhileFree(h.blocks, size, b);
    assert b in q.blocks && got in q.blocks by {
      assert b in Live(q.blocks) && got in Live(q.blocks);
    }
    BlocksDisjoint(q.blocks, 0, size, HEADER, b, got);
    BlocksDisjoint(q.blocks, 0, size, HEADER, got, b);
    LenAtLeastHeader(h.blocks, size, HEADER, IndexAt(h.blocks, ptr - HEADER));
  }

  /** rt_realloc exchanges the block for one with the room asked and leaves every other block alone. */
  lemma ReallocGives(h: Heap, size: int, ptr: int, n: int)
    requires WellFormed(h, size) && h.lfree in Addrs(h.blocks) && Allocated(h, size, ptr)
    requires n > 0 && n % ALIGN_SIZE == 0
    ensures WellFormed(ReallocHeap(h, size, ptr, n), size)
    ensures !ReallocHow(h, size, ptr, n).Refuse? ==>
              var got := Block(ReallocResult(h, size, ptr, n) - HEADER, ReallocLen(h, size, ptr, n), true);
              && Live(ReallocHeap(h, size, ptr, n).blocks) == Live(h.blocks) - {BlockOf(h, ptr)} + {got}
              && got.len >= n + HEADER
  {
    hide Layout, Fails, Found, Live, MallocHeap, MallocResult, MallocLen, FreeHeap, ShrinkHeap;
    LiveBlock(h, size, ptr);
    match ReallocHow(h, size, ptr, n)
    case InPlace => ShrinkKeeps(h, size, ptr, n);
    case Move =>
      MallocGives(h, size, AtLeastMin(n));
      MoveGives(h, size, ptr, AtLeastMin(n));
    case _ =>
  }

  // ----- What a caller of rt_realloc gets, told by the blocks and lfree -----

  /** The search for n bytes from lfree on finds nothing below its bound. */
  ghost predicate NothingFound(h: Heap, size: int, n: int) {
    forall j :: 0 <= j < |h.blocks| && h.blocks[j].addr >= h.lfree && Fits(h.blocks[j], n) ==>
      h.blocks[j].addr >= size - 2 * HEADER - n
  }

  /** The same pointer exactly when the block has just these bytes or is cut to them; NULL, and nothing
      done, exactly when it is not and the search finds nothing; otherwise a block that was free. */
  lemma ReallocAnswers(h: Heap, size: int, ptr: int, n: int)
    requires WellFormed(h, size) && h.lfree in Addrs(h.blocks) && Allocated(h, size, ptr)
    requires n > 0 && n % ALIGN_SIZE == 0
    ensures var b, r := BlockOf(h, ptr), ReallocResult(h, size, ptr, n);
            var stays := Room(b) == n || n + HEADER + MIN_SIZE < Room(b);
            && (r == ptr <==> stays)
            && (r == NULL <==> !stays && NothingFound(h, size, if n < MIN_SIZE then MIN_SIZE else n))
            && (r != ptr && r != NULL ==> forall c :: c in Live(h.blocks) ==> c.addr != r - HEADER)
            && (r == NULL ==> ReallocHeap(h, size, ptr, n) == h)
  {
    hide Layout, Found, Live, FreeHeap, ShrinkHeap, MallocHeap, MallocResult, Fails;
    var m := AtLeastMin(n);
    MallocFailsIff(h, size, m);
    LiveBlock(h, size, ptr);
    AllocatedInside(h, size, ptr);
    if !Fails(h, size, m) {
      MallocGives(h, size, m);
      NewIsNotLive(h, size, MallocResult(h, size, m) - HEADER);
    }
  }

  lemma NewIsNotLive(h: Heap, size: int, a: int)
    requires WellFormed(h, size) && a in FreeAddrs(h.blocks)
    ensures forall c :: c in Live(h.blocks) ==> c.addr != a
  {
    hide Layout;
    forall c | c in Live(h.blocks)
      ensures c.addr != a
    {
      NotLiveWhileFree(h.blocks, size, c);
    }
  }

  /** A block that stays is untouched when it has just these bytes, and else exactly as long as asked. */
  lemma ReallocLength(h: Heap, size: int, ptr: int, n: int)
    requires WellFormed(h, size) && h.lfree in Addrs(h.blocks) && Allocated(h, size, ptr)
    requires n > 0 && n % ALIGN_SIZE == 0 && ReallocResult(h, size, ptr, n) == ptr
    ensures var b, cut := BlockOf(h, ptr), Block(ptr - HEADER, n + HEADER, true);
            if Room(b) == n then ReallocHeap(h, size, ptr, n) == h
            else Live(ReallocHeap(h, size, ptr, n).blocks) == Live(h.blocks) - {b} + {cut}
  {
    hide Layout, Found, Live, FreeHeap, ShrinkHeap, MallocHeap, MallocResult, Fails;
    ReallocAnswers(h, size, ptr, n);
    if n + HEADER + MIN_SIZE < Room(BlockOf(h, ptr)) {
      ShrinkKeeps(h, size, ptr, n);
    }
  }

  // ----- Runs -----

  datatype Op = Malloc(n: int) | Free(ptr: int) | Realloc(ptr: int, n: int)

  /** Sizes are aligned and not 0, pointers are live. */
  ghost predicate Enabled(h: Heap, size: int, op: Op) {
    match op
    case Malloc(n) => n > 0 && n % ALIGN_SIZE == 0
    case Free(ptr) => Allocated(h, size, ptr)
    case Realloc(ptr, n) => n > 0 && n % ALIGN_SIZE == 0 && Allocated(h, size, ptr)
  }

  ghost function Step(h: Heap, size: int, op: Op): Heap
    requires WellFormed(h, size) && Enabled(h, size, op)
  {
    match op
    case Malloc(n) => HintKnown(h, size); MallocHeap(h, size, n)
    case Free(ptr) => FreeHeap(h, ptr)
    case Realloc(ptr, n) => HintKnown(h, size); ReallocHeap(h, size, ptr, n)
  }

  /** rt_realloc shrinks a block while lfree lies behind it and is not the free block that joins the rest. */
  ghost predicate HidesRoom(h: Heap, size: int, op: Op)
    requires WellFormed(h, size) && Enabled(h, size, op)
  {
    && op.Realloc? && Shrinks(h, size, op.ptr, op.n)
    && var b := BlockOf(h, op.ptr);
       !(h.lfree < b.addr || (b.addr + b.len in FreeAddrs(h.blocks) && h.lfree == b.addr + b.len))
  }

  lemma HowShrinks(h: Heap, size: int, ptr: int, n: int)
    requires Allocated(h, size, ptr) && h.lfree in Addrs(h.blocks) && n > 0
    ensures ReallocHow(h, size, ptr, n).InPlace? <==> Shrinks(h, size, ptr, n)
  {
  }

  lemma MoveKeepsLowest(h: Heap, size: int, ptr: int, n: int)
    requires WellFormed(h, size) && Lowest(h) && h.lfree in Addrs(h.blocks) && Allocated(h, size, ptr)
    requires n > 0 && n % ALIGN_SIZE == 0 && !Fails(h, size, n)
    ensures ptr - HEADER in Addrs(MallocHeap(h, size, n).blocks) && Lowest(FreeHeap(MallocHeap(h, size, n), ptr))
  {
    hide WellFormed, Lowest, MallocHeap, FreeHeap, Fails;
    MallocKeeps(h, size, n);
    MallocKeepsLowest(h, size, n);
    StillAllocated(h, size, ptr, n);
    FreeKeepsLowest(MallocHeap(h, size, n), size, ptr);
  }

  lemma ReallocLowestIff(h: Heap, size: int, ptr: int, n: int)
    requires WellFormed(h, size) && Lowest(h) && Allocated(h, size, ptr) && n > 0 && n % ALIGN_SIZE == 0
    ensures h.lfree in Addrs(h.blocks)
    ensures Lowest(ReallocHeap(h, size, ptr, n)) <==> !HidesRoom(h, size, Realloc(ptr, n))
  {
    hide WellFormed, Lowest, MallocHeap, FreeHeap, ShrinkHeap, Fails, BlockOf;
    HintKnown(h, size);
    HowShrinks(h, size, ptr, n);
    match ReallocHow(h, size, ptr, n)
    case InPlace => ShrinkLowestIff(h, size, ptr, n);
    case Move => MoveKeepsLowest(h, size, ptr, AtLeastMin(n));
    case _ =>
  }

  /** Every call keeps the invariant; lfree stays the lowest free block unless a shrink hides room. */
  lemma StepKeeps(h: Heap, size: int, op: Op)
    requires WellFormed(h, size) && Enabled(h, size, op)
    ensures WellFormed(Step(h, size, op), size)
    ensures Lowest(h) ==> (Lowest(Step(h, size, op)) <==> !HidesRoom(h, size, op))
  {
    hide WellFormed, Lowest, MallocHeap, FreeHeap, ReallocHeap;
    match op
    case Malloc(n) =>
      MallocKeeps(h, size, n);
      if Lowest(h) {
        MallocKeepsLowest(h, size, n);
      }
    case Free(ptr) =>
      FreeKeeps(h, size, ptr);
      if Lowest(h) {
        FreeKeepsLowest(h, size, ptr);
      }
    case Realloc(ptr, n) =>
      HintKnown(h, size);
      ReallocGives(h, size, ptr, n);
      if Lowest(h) {
        ReallocLowestIff(h, size, ptr, n);
      }
  }

  /** Every call meets its conditions in the heap it finds. */
  ghost predicate RunOk(h: Heap, size: int, ops: seq<Op>)
    requires WellFormed(h, size)
    decreases |ops|
  {
    ops != [] ==> Enabled(h, size, ops[0]) && (StepKeeps(h, size, ops[0]); RunOk(Step(h, size, ops[0]), size, ops[1..]))
  }

  ghost function Run(h: Heap, size: int, ops: seq<Op>): Heap
    requires WellFormed(h, size) && RunOk(h, size, ops)
    decreases |ops|
  {
    if ops == [] then h else StepKeeps(h, size, ops[0]); Run(Step(h, size, ops[0]), size, ops[1..])
  }

  ghost predicate NeverHides(h: Heap, size: int, ops: seq<Op>)
    requires WellFormed(h, size) && RunOk(h, size, ops)
    decreases |ops|
  {
    ops != [] ==>
      !HidesRoom(h, size, ops[0]) && (StepKeeps(h, size, ops[0]); NeverHides(Step(h, size, ops[0]), size, ops[1..]))
  }

  /** As long as no shrink hides room, lfree stays the lowest free block, so that rt_malloc fails
      only when nothing fits, the exact last fit apart. */
  lemma {:induction false} RunKeepsLowest(h: Heap, size: int, ops: seq<Op>)
    requires WellFormed(h, size) && RunOk(h, size, ops)
    ensures WellFormed(Run(h, size, ops), size)
    ensures Lowest(h) && NeverHides(h, size, ops) ==> Lowest(Run(h, size, ops))
    decreases |ops|
  {
    hide WellFormed, Lowest, Step, Enabled, HidesRoom;
    if ops != [] {
      StepKeeps(h, size, ops[0]);
      RunKeepsLowest(Step(h, size, ops[0]), size, ops[1..]);
    }
  }

  // ----- Blocks too small to be used -----

  /** Every block but heap_end has room for MIN_SIZE_ALIGNED bytes. */
  ghost predicate NoCrumbs(h: Heap) {
    AtLeast(h.blocks, HEADER + MIN_SIZE)
  }

  lemma MallocCrumbs(h: Heap, size: int, n: int)
    requires WellFormed(h, size) && h.lfree in Addrs(h.blocks) && NoCrumbs(h) && n >= MIN_SIZE
    ensures NoCrumbs(MallocHeap(h, size, n))
  {
    hide Layout, Search, NextFree;
    if !Fails(h, size, n) {
      var k := Found(h, size, n);
      FoundInside(h, size, n);
      var b := h.blocks[k];
      AtLeastReplace(h.blocks, k, k + 1, [b.(used := true)], HEADER + MIN_SIZE);
      if Room(b) >= n + HEADER + MIN_SIZE {
        AtLeastReplace(h.blocks, k, k + 1,
                       [Block(b.addr, n + HEADER, true), Block(b.addr + (n + HEADER), b.len - (n + HEADER), false)],
                       HEADER + MIN_SIZE);
      }
    }
  }

  lemma FreeCrumbs(h: Heap, size: int, ptr: int)
    requires WellFormed(h, size) && Allocated(h, size, ptr) && NoCrumbs(h)
    ensures NoCrumbs(FreeHeap(h, ptr))
  {
    hide Layout, AtLeast;
    AllocatedInside(h, size, ptr);
    FreedAtLeast(h.blocks, size, HEADER, IndexAt(h.blocks, ptr - HEADER), HEADER + MIN_SIZE);
  }

  /** rt_realloc cuts a block below MIN_SIZE_ALIGNED bytes: it does not round the request up as rt_malloc does. */
  ghost predicate CutsShort(h: Heap, size: int, op: Op)
    requires WellFormed(h, size) && Enabled(h, size, op)
  {
    op.Realloc? && Shrinks(h, size, op.ptr, op.n) && op.n < MIN_SIZE
  }

  lemma ShrinkCrumbsIff(h: Heap, size: int, ptr: int, n: int)
    requires WellFormed(h, size) && Shrinks(h, size, ptr, n) && n > 0 && n % ALIGN_SIZE == 0 && NoCrumbs(h)
    ensures NoCrumbs(ShrinkHeap(h, ptr, n)) <==> n >= MIN_SIZE
  {
    hide AtLeast, ResizedBlocks;
    ShrinkIsResizable(h, size, ptr, n);
    var i := IndexAt(h.blocks, ptr - HEADER);
    ShrinkSpan(h, size, ptr, n);
    ResizedAtLeast(h.blocks, size, HEADER, i, n + HEADER, HEADER + MIN_SIZE);
  }

  lemma ShrinkSpan(h: Heap, size: int, ptr: int, n: int)
    requires WellFormed(h, size) && Shrinks(h, size, ptr, n)
    ensures Span(h.blocks, IndexAt(h.blocks, ptr - HEADER)) - (n + HEADER) >= HEADER + MIN_SIZE
  {
    AllocatedInside(h, size, ptr);
  }

  /** An input for which it happens: a fresh heap, one rt_malloc, and rt_realloc to 4 bytes. */
  lemma ShrinkCanCutShort()
    ensures var size := 224;
            var h := Heap([Block(0, 212, true), Block(212, HEADER, true)], 212);
            && WellFormed(InitialHeap(size), size) && InitialHeap(size).lfree in Addrs(InitialHeap(size).blocks)
            && h == MallocHeap(InitialHeap(size), size, 180)
            && WellFormed(h, size) && NoCrumbs(h) && Shrinks(h, size, HEADER, 4)
            && !NoCrumbs(ShrinkHeap(h, HEADER, 4))
  {
    hide Layout, Hinted, Lowest, MallocHeap, ShrinkHeap, Fails, Fits, Found;
    FreshTaken();
    FullHidesRoom();
    ShrinkCrumbsIff(Heap([Block(0, 212, true), Block(212, HEADER, true)], 212), 224, HEADER, 4);
  }

  lemma ReallocCrumbsIff(h: Heap, size: int, ptr: int, n: int)
    requires WellFormed(h, size) && h.lfree in Addrs(h.blocks) && Allocated(h, size, ptr) && NoCrumbs(h)
    requires n > 0 && n % ALIGN_SIZE == 0
    ensures NoCrumbs(ReallocHeap(h, size, ptr, n)) <==> !(Shrinks(h, size, ptr, n) && n < MIN_SIZE)
  {
    hide Layout, Found, MallocHeap, FreeHeap, ShrinkHeap, NoCrumbs, Hinted;
    match ReallocHow(h, size, ptr, n)
    case InPlace => ShrinkCrumbsIff(h, size, ptr, n);
    case Move =>
      StillAllocated(h, size, ptr, AtLeastMin(n));
      MallocKeeps(h, size, AtLeastMin(n));
      MallocCrumbs(h, size, AtLeastMin(n));
      FreeCrumbs(MallocHeap(h, size, AtLeastMin(n)), size, ptr);
    case _ =>
  }

  /** A call leaves no block too small for MIN_SIZE_ALIGNED bytes exactly when it does not cut one short. */
  lemma StepCrumbsIff(h: Heap, size: int, op: Op)
    requires WellFormed(h, size) && Enabled(h, size, op) && NoCrumbs(h) && (op.Malloc? ==> op.n >= MIN_SIZE)
    ensures NoCrumbs(Step(h, size, op)) <==> !CutsShort(h, size, op)
  {
    hide Layout, MallocHeap, FreeHeap, ReallocHeap, NoCrumbs, Shrinks;
    match op
    case Malloc(n) => HintKnown(h, size); MallocCrumbs(h, size, n);
    case Free(ptr) => FreeCrumbs(h, size, ptr);
    case Realloc(ptr, n) => HintKnown(h, size); ReallocCrumbsIff(h, size, ptr, n);
  }

  /** No call of the run cuts a block short, and rt_malloc asks for MIN_SIZE_ALIGNED bytes at least. */
  ghost predicate NeverShort(h: Heap, size: int, ops: seq<Op>)
    requires WellFormed(h, size) && RunOk(h, size, ops)
    decreases |ops|
  {
    ops != [] ==>
      && (ops[0].Malloc? ==> ops[0].n >= MIN_SIZE) && !CutsShort(h, size, ops[0])
      && (StepKeeps(h, size, ops[0]); NeverShort(Step(h, size, ops[0]), size, ops[1..]))
  }

  lemma {:induction false} RunCrumbs(h: Heap, size: int, ops: seq<Op>)
    requires WellFormed(h, size) && RunOk(h, size, ops) && NoCrumbs(h) && NeverShort(h, size, ops)
    ensures NoCrumbs(Run(h, size, ops))
    decreases |ops|
  {
    hide WellFormed, Step, Enabled, NoCrumbs, CutsShort;
    if ops != [] {
      StepKeeps(h, size, ops[0]);
      StepCrumbsIff(h, size, ops[0]);
      RunCrumbs(Step(h, size, ops[0]), size, ops[1..]);
    }
  }
}
