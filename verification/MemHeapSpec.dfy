/** What memheap.c's operations do to a heap seen as a sequence of blocks and an order of free ones.

  The pool is tiled by blocks up to a used tail block of header size only.  The free ring holds the
  free blocks newest first.  Nothing here mentions a link: MemHeap.dfy proves that the link stores
  compute these functions.
 */
module MemHeapSpec {
  import opened RtList
  import opened Blocks
  import opened Layouts

  const HEADER: int := 24          // RT_MEMHEAP_SIZE: six words
  const MINIALLOC: int := 12       // RT_MEMHEAP_MINIALLOC
  const TWO_TO_32: int := 0x1_0000_0000

  /** Above this, the unsigned sums of rt_memheap_realloc wrap. */
  const MAX_REQUEST: int := 0xFFFF_FFF0

  datatype Pool = Pool(blocks: seq<Block>, free: seq<int>)

  /** RT_ALIGN on 32-bit unsigned values. */
  function Align(n: int): int
    requires 0 <= n < TWO_TO_32
  {
    (n + ALIGN_SIZE - 1) % TWO_TO_32 / ALIGN_SIZE * ALIGN_SIZE
  }

  function Rounded(n: int): int
    requires 0 <= n < TWO_TO_32
  {
    if Align(n) < MINIALLOC then MINIALLOC else Align(n)
  }

  /** Rounding gives at least the request exactly when the 32-bit alignment does not wrap. */
  lemma RoundedCovers(n: int)
    requires 0 <= n < TWO_TO_32
    ensures Rounded(n) % ALIGN_SIZE == 0 && Rounded(n) >= MINIALLOC
    ensures Rounded(n) >= n <==> n <= TWO_TO_32 - ALIGN_SIZE
    ensures n <= TWO_TO_32 - ALIGN_SIZE ==> Rounded(n) <= n + MINIALLOC
    ensures n <= TWO_TO_32 - ALIGN_SIZE ==> Rounded(Rounded(n)) == Rounded(n)
  {
    if n <= TWO_TO_32 - ALIGN_SIZE {
      assert (n + 3) % TWO_TO_32 == n + 3;
      assert Align(n) <= TWO_TO_32 - ALIGN_SIZE;
    } else {
      assert (n + 3) % TWO_TO_32 == n + 3 - TWO_TO_32;
    }
  }

  function Room(b: Block): int {
    b.len - HEADER
  }

  function FreeRoom(b: Block): int {
    if b.used then 0 else Room(b)
  }

  ghost function Available(p: Pool): int {
    Sum(p.blocks, FreeRoom)
  }

  ghost predicate FreeRing(p: Pool) {
    Distinct(p.free) && forall a :: a in p.free <==> a in FreeAddrs(p.blocks)
  }

  /** The invariant of the heap. */
  ghost predicate WellFormed(p: Pool, size: int) {
    Layout(p.blocks, size, HEADER) && FreeRing(p)
  }

  /** The pool as rt_memheap_init leaves it. */
  function InitialPool(size: int): Pool {
    Pool([Block(0, size - HEADER, false), Block(size - HEADER, HEADER, true)], [0])
  }

  lemma InitialPoolWellFormed(size: int)
    requires size >= 2 * HEADER && size % ALIGN_SIZE == 0
    ensures WellFormed(InitialPool(size), size)
    ensures Available(InitialPool(size)) == size - 2 * HEADER
    ensures Live(InitialPool(size).blocks) == {Block(size - HEADER, HEADER, true)}
  {
    var b, c := Block(0, size - HEADER, false), Block(size - HEADER, HEADER, true);
    Singles(b, c);
    SumOf(b, c, FreeRoom);
  }

  /** ptr is the address of a live allocation's data. */
  ghost predicate Allocated(p: Pool, size: int, ptr: int) {
    && ptr - HEADER in Addrs(p.blocks)
    && ptr != size
    && p.blocks[IndexAt(p.blocks, ptr - HEADER)].used
  }

  ghost function BlockOf(p: Pool, ptr: int): Block
    requires ptr - HEADER in Addrs(p.blocks)
  {
    p.blocks[IndexAt(p.blocks, ptr - HEADER)]
  }

  // ----- Allocation -----

  /** Position in the free ring of the first block with room for n bytes, or the ring's length. */
  ghost function FirstFit(bs: seq<Block>, free: seq<int>, n: int): (k: nat)
    requires forall a :: a in free ==> a in Addrs(bs)
    ensures k <= |free|
  {
    if free == [] then 0
    else if Room(bs[IndexAt(bs, free[0])]) >= n then 0
    else
      assert forall a :: a in free[1..] ==> a in free;
      1 + FirstFit(bs, free[1..], n)
  }

  lemma {:induction false} FirstFitIs(bs: seq<Block>, free: seq<int>, n: int, k: nat)
    requires forall a :: a in free ==> a in Addrs(bs)
    requires k <= |free|
    requires forall j :: 0 <= j < k ==> Room(bs[IndexAt(bs, free[j])]) < n
    requires k < |free| ==> Room(bs[IndexAt(bs, free[k])]) >= n
    ensures FirstFit(bs, free, n) == k
  {
    if k > 0 {
      assert forall a :: a in free[1..] ==> a in free;
      FirstFitIs(bs, free[1..], n, k - 1);
    }
  }

  ghost predicate FreeKnown(p: Pool) {
    forall a :: a in p.free ==> a in Addrs(p.blocks)
  }

  lemma FreeIsKnown(p: Pool)
    requires FreeRing(p)
    ensures FreeKnown(p)
  {
    FreeAddrsAreAddrs(p.blocks);
  }

  ghost predicate Fails(p: Pool, n: int)
    requires FreeKnown(p)
  {
    Available(p) <= n || FirstFit(p.blocks, p.free, n) == |p.free|
  }

  /** Take the k-th free block for n bytes, splitting it when another block fits behind. */
  ghost function Take(p: Pool, k: nat, n: int): Pool
    requires FreeKnown(p) && k < |p.free|
  {
    var i := IndexAt(p.blocks, p.free[k]);
    if Room(p.blocks[i]) >= n + HEADER + MINIALLOC then
      Pool(Split(p.blocks, i, n + HEADER, true), [p.free[k] + HEADER + n] + Without(p.free, k))
    else
      Pool(Marked(p.blocks, i, true), Without(p.free, k))
  }

  ghost function AllocPool(p: Pool, n: int): Pool
    requires FreeKnown(p)
  {
    if Fails(p, n) then p else Take(p, FirstFit(p.blocks, p.free, n), n)
  }

  const NULL: int := -1

  ghost function AllocResult(p: Pool, n: int): int
    requires FreeKnown(p)
  {
    if Fails(p, n) then NULL else p.free[FirstFit(p.blocks, p.free, n)] + HEADER
  }

  lemma IndexOfFree(p: Pool, size: int, k: nat)
    requires WellFormed(p, size) && k < |p.free|
    ensures FreeKnown(p)
    ensures var i := IndexAt(p.blocks, p.free[k]); !p.blocks[i].used && i < |p.blocks| - 1
  {
    FreeIsKnown(p);
    assert p.free[k] in p.free;
    var i :| 0 <= i < |p.blocks| && !p.blocks[i].used && p.blocks[i].addr == p.free[k];
    IndexUnique(p.blocks, 0, size, HEADER, i);
  }

  lemma TakeWholeKeeps(p: Pool, size: int, k: nat, i: nat, n: int)
    requires WellFormed(p, size) && k < |p.free| && FreeKnown(p)
    requires i == IndexAt(p.blocks, p.free[k])
    requires n <= Room(p.blocks[i]) < n + HEADER + MINIALLOC
    ensures WellFormed(Take(p, k, n), size)
    ensures Live(Take(p, k, n).blocks) == Live(p.blocks) + {p.blocks[i].(used := true)}
    ensures Available(Take(p, k, n)) == Available(p) - Room(p.blocks[i])
  {
    hide Tiles, NoAdjacentFree, Aligned, Distinct, Take, Marked, Without, Sum, Live;
    IndexOfFree(p, size, k);
    WholeTaken(p, k, i, n);
    MarkedLayout(p.blocks, size, i);
    MarkedSum(p.blocks, 0, size, HEADER, i, true, FreeRoom);
    MarkedLive(p.blocks, 0, size, HEADER, i, true, FreeRoom);
    MarkedRing(p, size, k, i);
  }

  lemma MarkedLayout(bs: seq<Block>, size: int, i: nat)
    requires Layout(bs, size, HEADER) && i < |bs| - 1 && !bs[i].used
    ensures Layout(Marked(bs, i, true), size, HEADER)
  {
    var b := bs[i];
    OneBlock(bs, size, i);
    LayoutReplace(bs, size, HEADER, i, i + 1, [b.(used := true)]);
  }

  lemma OneBlock(bs: seq<Block>, size: int, i: nat)
    requires Layout(bs, size, HEADER) && i < |bs|
    ensures Tiles([bs[i].(used := true)], bs[i].addr, bs[i].addr + bs[i].len, HEADER)
    ensures NoAdjacentFree([bs[i].(used := true)]) && Aligned([bs[i].(used := true)])
  {
    assert bs[i] in bs;
  }

  lemma MarkedRing(p: Pool, size: int, k: nat, i: nat)
    requires WellFormed(p, size) && k < |p.free| && i < |p.blocks| && p.blocks[i].addr == p.free[k] && !p.blocks[i].used
    ensures FreeRing(Pool(Marked(p.blocks, i, true), Without(p.free, k)))
  {
    hide Tiles, NoAdjacentFree, Aligned, Marked, Without;
    MarkedFree(p.blocks, 0, size, HEADER, i, true, FreeRoom);
    DistinctWithout(p.free, k);
  }

  lemma SplitFreeRing(p: Pool, size: int, k: nat, i: nat, n: int)
    requires WellFormed(p, size) && k < |p.free|
    requires i < |p.blocks| && p.blocks[i].addr == p.free[k] && !p.blocks[i].used
    requires n >= 0 && n + HEADER <= Room(p.blocks[i])
    ensures FreeRing(Pool(Split(p.blocks, i, n + HEADER, true), [p.free[k] + HEADER + n] + Without(p.free, k)))
  {
    hide Tiles, NoAdjacentFree, Aligned, Split, Without;
    SplitFree(p.blocks, 0, size, HEADER, i, n + HEADER, true, FreeRoom);
    CutIsFresh(p.blocks, 0, size, HEADER, i, n + HEADER);
    DistinctWithout(p.free, k);
    FreeAddrsAreAddrs(p.blocks);
    DistinctPrepend(Without(p.free, k), p.free[k] + HEADER + n);
  }

  lemma SplitWellFormed(p: Pool, size: int, k: nat, i: nat, n: int)
    requires WellFormed(p, size) && k < |p.free|
    requires i < |p.blocks| - 1 && p.blocks[i].addr == p.free[k] && !p.blocks[i].used
    requires n % ALIGN_SIZE == 0 && n >= 0 && n + HEADER <= Room(p.blocks[i])
    ensures WellFormed(Pool(Split(p.blocks, i, n + HEADER, true), [p.free[k] + HEADER + n] + Without(p.free, k)), size)
  {
    SplitLayout(p.blocks, size, HEADER, i, n + HEADER);
    SplitFreeRing(p, size, k, i, n);
  }

  lemma TakeSplitKeeps(p: Pool, size: int, k: nat, i: nat, n: int)
    requires WellFormed(p, size) && k < |p.free| && FreeKnown(p)
    requires i == IndexAt(p.blocks, p.free[k])
    requires n % ALIGN_SIZE == 0 && n >= 0 && n + HEADER + MINIALLOC <= Room(p.blocks[i])
    ensures WellFormed(Take(p, k, n), size)
  {
    IndexOfFree(p, size, k);
    SplitWellFormed(p, size, k, i, n);
  }

  lemma SplitTaken(p: Pool, k: nat, i: nat, n: int)
    requires k < |p.free| && FreeKnown(p) && i == IndexAt(p.blocks, p.free[k])
    requires n >= 0 && n + HEADER + MINIALLOC <= Room(p.blocks[i])
    ensures Take(p, k, n) == Pool(Split(p.blocks, i, n + HEADER, true), [p.free[k] + HEADER + n] + Without(p.free, k))
  {
  }

  lemma WholeTaken(p: Pool, k: nat, i: nat, n: int)
    requires k < |p.free| && FreeKnown(p) && i == IndexAt(p.blocks, p.free[k])
    requires n + HEADER + MINIALLOC > Room(p.blocks[i])
    ensures Take(p, k, n) == Pool(Marked(p.blocks, i, true), Without(p.free, k))
  {
  }

  lemma TakeSplitGives(p: Pool, size: int, k: nat, i: nat, n: int)
    requires WellFormed(p, size) && k < |p.free| && FreeKnown(p)
    requires i == IndexAt(p.blocks, p.free[k])
    requires n % ALIGN_SIZE == 0 && n >= 0 && n + HEADER + MINIALLOC <= Room(p.blocks[i])
    ensures Live(Take(p, k, n).blocks) == Live(p.blocks) + {Block(p.free[k], n + HEADER, true)}
    ensures Available(Take(p, k, n)) == Available(p) - n - HEADER
  {
    hide Tiles, NoAdjacentFree, Aligned, Distinct, Sum, Live, Split, Take, Without;
    SplitTaken(p, k, i, n);
    IndexOfFree(p, size, k);
    SplitSum(p.blocks, 0, size, HEADER, i, n + HEADER, true, FreeRoom);
    SplitLive(p.blocks, 0, size, HEADER, i, n + HEADER, true, FreeRoom);
  }

  lemma AllocKeeps(p: Pool, size: int, n: int)
    requires WellFormed(p, size) && n % ALIGN_SIZE == 0 && n >= 0
    ensures FreeKnown(p) && WellFormed(AllocPool(p, n), size)
  {
    FreeIsKnown(p);
    if !Fails(p, n) {
      var k := FirstFit(p.blocks, p.free, n);
      FirstFitHas(p.blocks, p.free, n);
      var i := IndexAt(p.blocks, p.free[k]);
      if Room(p.blocks[i]) >= n + HEADER + MINIALLOC {
        TakeSplitKeeps(p, size, k, i, n);
      } else {
        TakeWholeKeeps(p, size, k, i, n);
      }
    }
  }

  lemma {:induction false} FirstFitHas(bs: seq<Block>, free: seq<int>, n: int)
    requires forall a :: a in free ==> a in Addrs(bs)
    ensures var k := FirstFit(bs, free, n);
            && (k < |free| ==> Room(bs[IndexAt(bs, free[k])]) >= n)
            && (forall j :: 0 <= j < k ==> Room(bs[IndexAt(bs, free[j])]) < n)
  {
    if free != [] && Room(bs[IndexAt(bs, free[0])]) < n {
      assert forall a :: a in free[1..] ==> a in free;
      FirstFitHas(bs, free[1..], n);
      var k := FirstFit(bs, free, n);
      forall j | 0 <= j < k
        ensures Room(bs[IndexAt(bs, free[j])]) < n
      {
        if j > 0 {
          assert free[1..][j - 1] == free[j];
        }
      }
    }
  }

  /** Header and data bytes the allocation of n bytes gets. */
  ghost function AllocLen(p: Pool, n: int): int
    requires FreeKnown(p) && !Fails(p, n)
  {
    var b := p.blocks[IndexAt(p.blocks, p.free[FirstFit(p.blocks, p.free, n)])];
    if Room(b) >= n + HEADER + MINIALLOC then n + HEADER else b.len
  }

  /** What an allocation takes from available_size: the data bytes, and a header more when it splits. */
  ghost function AllocCharge(p: Pool, n: int): int
    requires FreeKnown(p) && !Fails(p, n)
  {
    var b := p.blocks[IndexAt(p.blocks, p.free[FirstFit(p.blocks, p.free, n)])];
    if Room(b) >= n + HEADER + MINIALLOC then n + HEADER else Room(b)
  }

  /** A successful allocation adds one live block, at least as long as asked and wasting less than a
      header and MINIALLOC; every other live block keeps its place and its length. */
  lemma AllocGives(p: Pool, size: int, n: int)
    requires WellFormed(p, size) && n % ALIGN_SIZE == 0 && n >= 0
    requires FreeKnown(p) && !Fails(p, n)
    ensures var got := Block(AllocResult(p, n) - HEADER, AllocLen(p, n), true);
            && Live(AllocPool(p, n).blocks) == Live(p.blocks) + {got}
            && n + HEADER <= got.len < n + 2 * HEADER + MINIALLOC
            && Available(p) - Available(AllocPool(p, n)) == AllocCharge(p, n)
            && got.len - HEADER <= AllocCharge(p, n) <= got.len
  {
    hide Distinct, Tiles, NoAdjacentFree, Aligned, FreeRing, Sum, FirstFit;
    var k := FirstFit(p.blocks, p.free, n);
    FirstFitHas(p.blocks, p.free, n);
    IndexOfFree(p, size, k);
    var i := IndexAt(p.blocks, p.free[k]);
    if Room(p.blocks[i]) >= n + HEADER + MINIALLOC {
      TakeSplitGives(p, size, k, i, n);
    } else {
      TakeWholeKeeps(p, size, k, i, n);
    }
  }

  /** NULL exactly when the available bytes do not exceed the request or no free block has room. */
  lemma AllocFailsIff(p: Pool, size: int, n: int)
    requires WellFormed(p, size) && FreeKnown(p)
    ensures Fails(p, n) <==> Available(p) <= n || forall b :: b in p.blocks && !b.used ==> Room(b) < n
    ensures AllocResult(p, n) == NULL <==> Fails(p, n)
    ensures AllocResult(p, n) == NULL ==> AllocPool(p, n) == p
  {
    FirstFitHas(p.blocks, p.free, n);
    var k := FirstFit(p.blocks, p.free, n);
    if k < |p.free| {
      IndexOfFree(p, size, k);
      AddrInRange(p.blocks, size, HEADER, IndexAt(p.blocks, p.free[k]));
    }
    if k == |p.free| {
      forall b | b in p.blocks && !b.used
        ensures Room(b) < n
      {
        var i :| 0 <= i < |p.blocks| && p.blocks[i] == b;
        assert b.addr in p.free;
        var j :| 0 <= j < |p.free| && p.free[j] == b.addr;
        IndexUnique(p.blocks, 0, size, HEADER, i);
      }
    }
  }

  /** The block handed out is the first on the free ring that has room; what is left of it goes to the front. */
  lemma AllocFirstFit(p: Pool, size: int, n: int)
    requires WellFormed(p, size) && FreeKnown(p) && !Fails(p, n)
    ensures exists k :: 0 <= k < |p.free| && AllocResult(p, n) == p.free[k] + HEADER
              && Room(p.blocks[IndexAt(p.blocks, p.free[k])]) >= n
              && (forall j :: 0 <= j < k ==> Room(p.blocks[IndexAt(p.blocks, p.free[j])]) < n)
              && (AllocPool(p, n).free == Without(p.free, k)
                  || AllocPool(p, n).free == [p.free[k] + HEADER + n] + Without(p.free, k))
  {
    hide Layout, FreeRing;
    FirstFitHas(p.blocks, p.free, n);
    var k := FirstFit(p.blocks, p.free, n);
    assert AllocResult(p, n) == p.free[k] + HEADER;
  }

  // ----- Release -----

  ghost function FreedRing(bs: seq<Block>, free: seq<int>, i: nat): seq<int>
    requires i < |bs|
  {
    var free1 := if JoinsRight(bs, i) then Drop(free, bs[i + 1].addr) else free;
    if JoinsLeft(bs, i) then free1 else [bs[i].addr] + free1
  }

  ghost function FreePool(p: Pool, ptr: int): Pool
    requires ptr - HEADER in Addrs(p.blocks)
  {
    var i := IndexAt(p.blocks, ptr - HEADER);
    Pool(FreedBlocks(p.blocks, i), FreedRing(p.blocks, p.free, i))
  }

  lemma FreedBlocksSum(bs: seq<Block>, size: int, i: nat)
    requires Layout(bs, size, HEADER) && i + 1 < |bs| && bs[i].used
    ensures Sum(FreedBlocks(bs, i), FreeRoom)
            == Sum(bs, FreeRoom) + Room(bs[i]) + (if JoinsLeft(bs, i) then HEADER else 0)
              + (if JoinsRight(bs, i) then HEADER else 0)
  {
    var lo, hi, m := From(bs, i), Upto(bs, i), Merged(bs, i);
    SumReplace(bs, lo, hi, [m], FreeRoom);
    Stretch(bs, i, FreeRoom);
    SumOf(m, m, FreeRoom);
    if JoinsLeft(bs, i) {
      assert bs[i - 1].addr + bs[i - 1].len == bs[i].addr;
    }
    if JoinsRight(bs, i) {
      assert bs[i].addr + bs[i].len == bs[i + 1].addr;
    }
  }

  lemma DropRing(free: seq<int>, frees: set<int>, x: int)
    requires Distinct(free) && (forall a :: a in free <==> a in frees)
    ensures Distinct(Drop(free, x)) && forall a :: a in Drop(free, x) <==> a in frees - {x}
  {
    if x in free {
      DistinctWithout(free, PositionOf(free, x));
    }
  }

  lemma FreedRingKeeps(p: Pool, size: int, i: nat)
    requires WellFormed(p, size) && i + 1 < |p.blocks| && p.blocks[i].used
    ensures FreeRing(Pool(FreedBlocks(p.blocks, i), FreedRing(p.blocks, p.free, i)))
  {
    FreedBlocksGive(p.blocks, size, HEADER, i);
    UsedAddrIsNotFree(p.blocks, size, HEADER, i);
    var free1 := if JoinsRight(p.blocks, i) then Drop(p.free, p.blocks[i + 1].addr) else p.free;
    if JoinsRight(p.blocks, i) {
      DropRing(p.free, FreeAddrs(p.blocks), p.blocks[i + 1].addr);
    }
    if !JoinsLeft(p.blocks, i) {
      DistinctPrepend(free1, p.blocks[i].addr);
    }
  }

  /** Releasing a live block removes just it from the live blocks and gives back its bytes, plus the
      headers that joining makes superfluous. */
  lemma FreeKeeps(p: Pool, size: int, ptr: int)
    requires WellFormed(p, size) && Allocated(p, size, ptr)
    ensures WellFormed(FreePool(p, ptr), size)
    ensures Live(FreePool(p, ptr).blocks) == Live(p.blocks) - {BlockOf(p, ptr)}
  {
    var i := IndexAt(p.blocks, ptr - HEADER);
    FreedLayout(p.blocks, size, HEADER, i);
    FreedRingKeeps(p, size, i);
    FreedBlocksGive(p.blocks, size, HEADER, i);
  }

  lemma FreeGivesBack(p: Pool, size: int, ptr: int)
    requires WellFormed(p, size) && Allocated(p, size, ptr)
    ensures var i := IndexAt(p.blocks, ptr - HEADER);
            Available(FreePool(p, ptr)) == Available(p) + Room(BlockOf(p, ptr))
                                           + (if JoinsLeft(p.blocks, i) then HEADER else 0)
                                           + (if JoinsRight(p.blocks, i) then HEADER else 0)
  {
    FreedBlocksSum(p.blocks, size, IndexAt(p.blocks, ptr - HEADER));
  }

  /** A free block ends where block i begins. */
  ghost predicate FreeBefore(bs: seq<Block>, addr: int) {
    exists c :: c in bs && !c.used && c.addr + c.len == addr
  }

  lemma PreviousBlock(bs: seq<Block>, size: int, i: nat)
    requires Layout(bs, size, HEADER) && i < |bs|
    ensures FreeBefore(bs, bs[i].addr) <==> JoinsLeft(bs, i)
  {
    hide NoAdjacentFree, Aligned;
    if c :| c in bs && !c.used && c.addr + c.len == bs[i].addr {
      var j :| 0 <= j < |bs| && bs[j] == c;
      if j + 1 < i {
        Ascending(bs, 0, size, HEADER, j + 1, i);
      } else if i < j {
        Ascending(bs, 0, size, HEADER, i, j);
      }
    }
    if i > 0 {
      assert bs[i - 1] in bs && bs[i - 1].addr + bs[i - 1].len == bs[i].addr;
    }
  }

  /** A released block goes to the front of the free ring, unless it is joined to a free block before it. */
  lemma FreedToFront(p: Pool, size: int, ptr: int)
    requires WellFormed(p, size) && Allocated(p, size, ptr)
    ensures var q := FreePool(p, ptr).free;
            if FreeBefore(p.blocks, ptr - HEADER) then forall a :: a in q ==> a in p.free
            else q != [] && q[0] == ptr - HEADER
  {
    hide Tiles, NoAdjacentFree, Aligned, FreedBlocks, FreeBefore, Drop;
    var bs, i := p.blocks, IndexAt(p.blocks, ptr - HEADER);
    PreviousBlock(bs, size, i);
    if i + 1 < |bs| {
      InDrop(p.free, bs[i + 1].addr);
    }
  }

  /** Releasing ptr in pool q leads back to the tiling and the available bytes of p. */
  ghost predicate LeadsBack(p: Pool, q: Pool, size: int, ptr: int) {
    && Allocated(q, size, ptr)
    && FreePool(q, ptr).blocks == p.blocks && Available(FreePool(q, ptr)) == Available(p)
  }

  /** Allocation undone: releasing the block just obtained restores the very same tiling. */
  lemma FreeUndoesAlloc(p: Pool, size: int, n: int)
    requires WellFormed(p, size) && n % ALIGN_SIZE == 0 && n >= 0
    requires FreeKnown(p) && !Fails(p, n)
    ensures LeadsBack(p, AllocPool(p, n), size, AllocResult(p, n))
  {
    hide AllocPool, AllocResult, AllocLen, FreePool, FreeRing, Sum, Fails, NoAdjacentFree, Aligned, Allocated, BlockOf,
      Live, Tiles;
    var q, r := AllocPool(p, n), AllocResult(p, n);
    AllocKeeps(p, size, n);
    AllocGives(p, size, n);
    AllocIsFresh(p, size, n);
    var got := Block(r - HEADER, AllocLen(p, n), true);
    assert got in Live(q.blocks);
    LiveIsAllocated(q, size, got);
    FreeKeeps(q, size, r);
    assert Live(FreePool(q, r).blocks) == Live(p.blocks);
    LayoutFromLive(FreePool(q, r).blocks, p.blocks, 0, size, HEADER);
  }

  lemma LiveIsAllocated(p: Pool, size: int, b: Block)
    requires WellFormed(p, size) && b in Live(p.blocks) && b.addr != size - HEADER
    ensures Allocated(p, size, b.addr + HEADER) && BlockOf(p, b.addr + HEADER) == b
  {
    var i :| 0 <= i < |p.blocks| && p.blocks[i] == b;
    IndexUnique(p.blocks, 0, size, HEADER, i);
  }

  /** The block an allocation returns was not live, and is not the tail. */
  lemma AllocIsFresh(p: Pool, size: int, n: int)
    requires WellFormed(p, size) && FreeKnown(p) && !Fails(p, n)
    ensures forall b :: b in Live(p.blocks) ==> b.addr != AllocResult(p, n) - HEADER
    ensures AllocResult(p, n) != size
    ensures AllocResult(p, n) != NULL
  {
    var k := FirstFit(p.blocks, p.free, n);
    IndexOfFree(p, size, k);
    var i := IndexAt(p.blocks, p.free[k]);
    LiveAddrOnce(p.blocks, size, HEADER, i);
    BlocksDisjoint(p.blocks, 0, size, HEADER, p.blocks[i], p.blocks[|p.blocks| - 1]);
  }

  // ----- Resizing -----

  ghost function ResizePool(p: Pool, ptr: int, n: int): Pool
    requires ptr - HEADER in Addrs(p.blocks)
  {
    var i := IndexAt(p.blocks, ptr - HEADER);
    Pool(ResizedBlocks(p.blocks, i, n + HEADER),
         [ptr + n] + if JoinsRight(p.blocks, i) then Drop(p.free, p.blocks[i + 1].addr) else p.free)
  }

  lemma ResizedSum(bs: seq<Block>, size: int, i: nat, n: int)
    requires Resizable(bs, size, HEADER, i, n + HEADER)
    ensures Sum(ResizedBlocks(bs, i, n + HEADER), FreeRoom)
            == Sum(bs, FreeRoom) + Room(bs[i]) - n - (if JoinsRight(bs, i) then 0 else HEADER)
  {
    var mid := Cut(bs, i, n + HEADER);
    SumReplace(bs, i, Upto(bs, i), mid, FreeRoom);
    TailStretch(bs, i, FreeRoom);
    SumOf(mid[0], mid[1], FreeRoom);
    assert bs[i].addr + bs[i].len == bs[i + 1].addr;
  }

  lemma PrependRing(free: seq<int>, frees: set<int>, x: int)
    requires Distinct(free) && (forall a :: a in free <==> a in frees) && x !in frees
    ensures Distinct([x] + free) && forall a :: a in [x] + free <==> a in frees + {x}
  {
    DistinctPrepend(free, x);
  }

  lemma ResizedRing(p: Pool, size: int, i: nat, n: int)
    requires WellFormed(p, size) && Resizable(p.blocks, size, HEADER, i, n + HEADER)
    ensures FreeRing(Pool(ResizedBlocks(p.blocks, i, n + HEADER),
                          [p.blocks[i].addr + HEADER + n]
                          + if JoinsRight(p.blocks, i) then Drop(p.free, p.blocks[i + 1].addr) else p.free))
  {
    hide Tiles, NoAdjacentFree, Aligned, ResizedBlocks, Drop, Distinct, FreeAddrs;
    var x, frees := p.blocks[i].addr + HEADER + n, FreeAddrs(p.blocks);
    ResizedFree(p.blocks, size, HEADER, i, n + HEADER);
    CutAddrIsNew(p.blocks, size, HEADER, i, n + HEADER);
    if JoinsRight(p.blocks, i) {
      DropRing(p.free, frees, p.blocks[i + 1].addr);
      PrependRing(Drop(p.free, p.blocks[i + 1].addr), frees - {p.blocks[i + 1].addr}, x);
    } else {
      PrependRing(p.free, frees, x);
    }
  }

  lemma ResizeKeeps(p: Pool, size: int, ptr: int, n: int)
    requires WellFormed(p, size) && Allocated(p, size, ptr)
    requires Resizable(p.blocks, size, HEADER, IndexAt(p.blocks, ptr - HEADER), n + HEADER)
    ensures WellFormed(ResizePool(p, ptr, n), size)
  {
    hide Distinct, Tiles, NoAdjacentFree, Aligned, ResizedBlocks, Drop;
    var i := IndexAt(p.blocks, ptr - HEADER);
    ResizedLayout(p.blocks, size, HEADER, i, n + HEADER);
    ResizedRing(p, size, i, n);
  }

  /** Growing or shrinking in place changes the length of that one live block and nothing else. */
  lemma ResizeGives(p: Pool, size: int, ptr: int, n: int)
    requires WellFormed(p, size) && Allocated(p, size, ptr)
    requires Resizable(p.blocks, size, HEADER, IndexAt(p.blocks, ptr - HEADER), n + HEADER)
    ensures Live(ResizePool(p, ptr, n).blocks)
            == Live(p.blocks) - {BlockOf(p, ptr)} + {Block(ptr - HEADER, n + HEADER, true)}
    ensures Available(ResizePool(p, ptr, n))
            == Available(p) + Room(BlockOf(p, ptr)) - n
               - (if JoinsRight(p.blocks, IndexAt(p.blocks, ptr - HEADER)) then 0 else HEADER)
  {
    var i := IndexAt(p.blocks, ptr - HEADER);
    ResizedLive(p.blocks, size, HEADER, i, n + HEADER);
    ResizedSum(p.blocks, size, i, n);
  }

  /** How rt_memheap_realloc deals with a live block. */
  datatype How = Keep | InPlace | Move | Refuse

  ghost function ReallocHow(p: Pool, ptr: int, n: int): How
    requires FreeKnown(p) && ptr - HEADER in Addrs(p.blocks)
  {
    var i := IndexAt(p.blocks, ptr - HEADER);
    var had := Room(p.blocks[i]);
    if n > had then
      if JoinsRight(p.blocks, i) && Room(p.blocks[i + 1]) + had > n + MINIALLOC then InPlace
      else if Fails(p, n) then Refuse
      else Move
    else if n + HEADER + MINIALLOC >= had then Keep
    else InPlace
  }

  ghost function ReallocResult(p: Pool, ptr: int, n: int): int
    requires FreeKnown(p) && ptr - HEADER in Addrs(p.blocks)
  {
    match ReallocHow(p, ptr, n)
    case Keep => ptr
    case InPlace => ptr
    case Move => AllocResult(p, n)
    case Refuse => NULL
  }

  ghost function ReallocPool(p: Pool, size: int, ptr: int, n: int): Pool
    requires WellFormed(p, size) && FreeKnown(p) && Allocated(p, size, ptr)
    requires n % ALIGN_SIZE == 0 && n >= MINIALLOC
  {
    match ReallocHow(p, ptr, n)
    case Keep => p
    case InPlace => ResizePool(p, ptr, n)
    case Move => StillAllocated(p, size, ptr, n); FreePool(AllocPool(p, n), ptr)
    case Refuse => p
  }

  /** An allocation leaves every other allocation where it was. */
  lemma StillAllocated(p: Pool, size: int, ptr: int, n: int)
    requires WellFormed(p, size) && FreeKnown(p) && Allocated(p, size, ptr)
    requires n % ALIGN_SIZE == 0 && n >= 0 && !Fails(p, n)
    ensures Allocated(AllocPool(p, n), size, ptr)
    ensures BlockOf(AllocPool(p, n), ptr) == BlockOf(p, ptr)
  {
    AllocKeeps(p, size, n);
    AllocGives(p, size, n);
    var b := BlockOf(p, ptr);
    assert b in Live(p.blocks);
    LiveIsAllocated(AllocPool(p, n), size, b);
  }

  ghost function ReallocLen(p: Pool, ptr: int, n: int): int
    requires FreeKnown(p) && ptr - HEADER in Addrs(p.blocks)
    requires !ReallocHow(p, ptr, n).Refuse?
  {
    match ReallocHow(p, ptr, n)
    case Keep => BlockOf(p, ptr).len
    case InPlace => n + HEADER
    case Move => AllocLen(p, n)
  }

  lemma ReallocKeeps(p: Pool, size: int, ptr: int, n: int)
    requires WellFormed(p, size) && FreeKnown(p) && Allocated(p, size, ptr)
    requires n % ALIGN_SIZE == 0 && n >= MINIALLOC
    ensures WellFormed(ReallocPool(p, size, ptr, n), size)
  {
    match ReallocHow(p, ptr, n)
    case InPlace => ResizeKeeps(p, size, ptr, n);
    case Move =>
      StillAllocated(p, size, ptr, n);
      AllocKeeps(p, size, n);
      FreeKeeps(AllocPool(p, n), size, ptr);
    case _ =>
  }

  lemma MoveGives(p: Pool, size: int, ptr: int, n: int)
    requires WellFormed(p, size) && FreeKnown(p) && Allocated(p, size, ptr)
    requires n % ALIGN_SIZE == 0 && n >= 0 && !Fails(p, n)
    requires Allocated(AllocPool(p, n), size, ptr)
    ensures Live(FreePool(AllocPool(p, n), ptr).blocks)
            == Live(p.blocks) - {BlockOf(p, ptr)} + {Block(AllocResult(p, n) - HEADER, AllocLen(p, n), true)}
  {
    hide Distinct, Tiles, NoAdjacentFree, Aligned, FreeRing, Sum;
    StillAllocated(p, size, ptr, n);
    AllocKeeps(p, size, n);
    AllocGives(p, size, n);
    AllocIsFresh(p, size, n);
    FreeKeeps(AllocPool(p, n), size, ptr);
    assert BlockOf(p, ptr) in Live(p.blocks);
  }

  lemma InPlaceIsResizable(p: Pool, size: int, ptr: int, n: int)
    requires WellFormed(p, size) && FreeKnown(p) && Allocated(p, size, ptr)
    requires n % ALIGN_SIZE == 0 && n >= MINIALLOC && ReallocHow(p, ptr, n).InPlace?
    ensures Resizable(p.blocks, size, HEADER, IndexAt(p.blocks, ptr - HEADER), n + HEADER)
  {
  }

  lemma IsLive(p: Pool, size: int, ptr: int)
    requires Allocated(p, size, ptr)
    ensures BlockOf(p, ptr) in Live(p.blocks) && BlockOf(p, ptr).addr == ptr - HEADER && BlockOf(p, ptr).used
  {
  }

  /** The old block is exchanged for one at least as long as asked; all others stay.  It stays in
      place unless it must grow and the free block behind it is missing or too short. */
  lemma ReallocGives(p: Pool, size: int, ptr: int, n: int)
    requires WellFormed(p, size) && FreeKnown(p) && Allocated(p, size, ptr)
    requires n % ALIGN_SIZE == 0 && n >= MINIALLOC
    requires !ReallocHow(p, ptr, n).Refuse?
    ensures var got := Block(ReallocResult(p, ptr, n) - HEADER, ReallocLen(p, ptr, n), true);
            && Live(ReallocPool(p, size, ptr, n).blocks) == Live(p.blocks) - {BlockOf(p, ptr)} + {got}
            && n + HEADER <= got.len <= n + 2 * HEADER + MINIALLOC
  {
    hide Layout, FreeRing, Fails, AllocPool, AllocResult, FreePool, ResizePool, Live;
    match ReallocHow(p, ptr, n)
    case Keep => IsLive(p, size, ptr);
    case InPlace =>
      InPlaceIsResizable(p, size, ptr, n);
      ResizeGives(p, size, ptr, n);
    case Move =>
      AllocGives(p, size, n);
      StillAllocated(p, size, ptr, n);
      MoveGives(p, size, ptr, n);
  }

  // ----- What a caller of rt_memheap_realloc gets, told by the blocks alone -----

  /** No free block can take n bytes, or the heap counts no more than n bytes as available. */
  ghost predicate NoRoom(bs: seq<Block>, n: int) {
    Sum(bs, FreeRoom) <= n || forall c :: c in bs && !c.used ==> Room(c) < n
  }

  /** The block right behind b is free, and together they hold n bytes and another small block. */
  ghost predicate RoomBehind(bs: seq<Block>, b: Block, n: int) {
    exists c :: c in bs && !c.used && c.addr == b.addr + b.len && Room(c) + Room(b) > n + MINIALLOC
  }

  lemma NextBlock(bs: seq<Block>, size: int, i: nat, n: int)
    requires Layout(bs, size, HEADER) && i + 1 < |bs|
    ensures RoomBehind(bs, bs[i], n) <==> JoinsRight(bs, i) && Room(bs[i + 1]) + Room(bs[i]) > n + MINIALLOC
  {
    hide NoAdjacentFree, Aligned;
    if c :| c in bs && !c.used && c.addr == bs[i].addr + bs[i].len && Room(c) + Room(bs[i]) > n + MINIALLOC {
      var j :| 0 <= j < |bs| && bs[j] == c;
      if j < i {
        Ascending(bs, 0, size, HEADER, j, i);
      } else if i + 1 < j {
        Ascending(bs, 0, size, HEADER, i + 1, j);
      }
    }
    assert bs[i + 1] in bs;
  }

  lemma NotLast(p: Pool, size: int, ptr: int)
    requires WellFormed(p, size) && Allocated(p, size, ptr)
    ensures IndexAt(p.blocks, ptr - HEADER) + 1 < |p.blocks|
  {
  }

  /** NULL exactly when the block must grow, cannot take over from the free block behind it, and there is
      no room elsewhere; the same pointer exactly when the bytes are there or can be taken over; otherwise
      a block that was free. */
  lemma ReallocAnswers(p: Pool, size: int, ptr: int, n: int)
    requires WellFormed(p, size) && FreeKnown(p) && Allocated(p, size, ptr)
    requires n % ALIGN_SIZE == 0 && n >= MINIALLOC
    ensures var b, r := BlockOf(p, ptr), ReallocResult(p, ptr, n);
            && (r == NULL <==> n > Room(b) && !RoomBehind(p.blocks, b, n) && NoRoom(p.blocks, n))
            && (r == ptr <==> n <= Room(b) || RoomBehind(p.blocks, b, n))
            && (r != NULL && r != ptr ==> forall c :: c in Live(p.blocks) ==> c.addr != r - HEADER)
            && (r == NULL ==> ReallocPool(p, size, ptr, n) == p)
  {
    hide Layout, FreeRing, Fails, AllocPool, AllocResult, FreePool, ResizePool, Live, RoomBehind;
    var i := IndexAt(p.blocks, ptr - HEADER);
    NotLast(p, size, ptr);
    NextBlock(p.blocks, size, i, n);
    AllocFailsIff(p, size, n);
    IsLive(p, size, ptr);
    PointerIsAddress(p, size, ptr);
    if !Fails(p, n) {
      AllocIsFresh(p, size, n);
    }
  }

  lemma PointerIsAddress(p: Pool, size: int, ptr: int)
    requires WellFormed(p, size) && Allocated(p, size, ptr)
    ensures ptr != NULL
  {
    BlocksDisjoint(p.blocks, 0, size, HEADER, BlockOf(p, ptr), p.blocks[|p.blocks| - 1]);
  }

  /** How long the block is then: untouched when what is left over is too small for a block of its own,
      exactly as long as asked when it is cut to size in place. */
  lemma ReallocLength(p: Pool, size: int, ptr: int, n: int)
    requires WellFormed(p, size) && FreeKnown(p) && Allocated(p, size, ptr)
    requires n % ALIGN_SIZE == 0 && n >= MINIALLOC && ReallocResult(p, ptr, n) == ptr
    ensures var b, cut := BlockOf(p, ptr), Block(ptr - HEADER, n + HEADER, true);
            if n <= Room(b) <= n + HEADER + MINIALLOC then ReallocPool(p, size, ptr, n) == p
            else Live(ReallocPool(p, size, ptr, n).blocks) == Live(p.blocks) - {b} + {cut}
  {
    hide Layout, FreeRing, Fails, AllocPool, AllocResult, FreePool, ResizePool, Live;
    match ReallocHow(p, ptr, n)
    case Keep =>
    case InPlace =>
      InPlaceIsResizable(p, size, ptr, n);
      ResizeGives(p, size, ptr, n);
    case Move =>
      AllocIsFresh(p, size, n);
      IsLive(p, size, ptr);
    case Refuse => PointerIsAddress(p, size, ptr);
  }

  // ----- Runs -----

  datatype Op = DoAlloc(request: int) | DoFree(ptr: int) | DoRealloc(ptr: int, request: int)

  /** Requests do not wrap when aligned; pointers are live. */
  ghost predicate Enabled(p: Pool, size: int, o: Op) {
    match o
    case DoAlloc(request) => 0 <= request <= MAX_REQUEST
    case DoFree(ptr) => Allocated(p, size, ptr)
    case DoRealloc(ptr, request) => Allocated(p, size, ptr) && 0 <= request <= MAX_REQUEST
  }

  ghost function Step(p: Pool, size: int, o: Op): Pool
    requires WellFormed(p, size) && Enabled(p, size, o)
  {
    FreeIsKnown(p);
    match o
    case DoAlloc(request) => if Fails(p, Rounded(request)) then p else AllocPool(p, Rounded(request))
    case DoFree(ptr) => FreePool(p, ptr)
    case DoRealloc(ptr, request) =>
      if request == 0 then FreePool(p, ptr) else RoundedCovers(request); ReallocPool(p, size, ptr, Rounded(request))
  }

  lemma StepKeeps(p: Pool, size: int, o: Op)
    requires WellFormed(p, size) && Enabled(p, size, o)
    ensures WellFormed(Step(p, size, o), size)
  {
    hide Layout, FreeRing, AllocPool, FreePool, ReallocPool, Rounded, Fails;
    KnownFree(p, size);
    match o
    case DoAlloc(request) =>
      RoundedCovers(request);
      if !Fails(p, Rounded(request)) {
        AllocKeeps(p, size, Rounded(request));
      }
    case DoFree(ptr) => FreeKeeps(p, size, ptr);
    case DoRealloc(ptr, request) =>
      RoundedCovers(request);
      if request == 0 {
        FreeKeeps(p, size, ptr);
      } else {
        ReallocKeeps(p, size, ptr, Rounded(request));
      }
  }

  lemma KnownFree(p: Pool, size: int)
    requires WellFormed(p, size)
    ensures FreeKnown(p)
  {
    FreeIsKnown(p);
  }

  /** Every call meets its conditions in the pool it finds. */
  ghost predicate RunOk(p: Pool, size: int, ops: seq<Op>)
    requires WellFormed(p, size)
    decreases |ops|
  {
    ops != [] ==> Enabled(p, size, ops[0]) && (StepKeeps(p, size, ops[0]); RunOk(Step(p, size, ops[0]), size, ops[1..]))
  }

  ghost function Run(p: Pool, size: int, ops: seq<Op>): Pool
    requires WellFormed(p, size) && RunOk(p, size, ops)
    decreases |ops|
  {
    if ops == [] then p else StepKeeps(p, size, ops[0]); Run(Step(p, size, ops[0]), size, ops[1..])
  }

  /** After every sequence of calls: the blocks tile the pool in address order up to the used tail, no
      two free blocks touch, and the free ring holds exactly the free ones. */
  lemma {:induction false} RunKeeps(p: Pool, size: int, ops: seq<Op>)
    requires WellFormed(p, size) && RunOk(p, size, ops)
    ensures WellFormed(Run(p, size, ops), size)
    decreases |ops|
  {
    hide WellFormed, Step, Enabled;
    if ops != [] {
      StepKeeps(p, size, ops[0]);
      RunKeeps(Step(p, size, ops[0]), size, ops[1..]);
    }
  }

  // ----- No block is too small to be used -----

  /** Every block but the tail has room for MINIALLOC bytes. */
  ghost predicate NoCrumbs(p: Pool) {
    AtLeast(p.blocks, HEADER + MINIALLOC)
  }

  lemma InitialCrumbs(size: int)
    requires size >= 2 * HEADER
    ensures NoCrumbs(InitialPool(size)) <==> size >= 2 * HEADER + MINIALLOC
  {
    assert InitialPool(size).blocks[0].len == size - HEADER;
  }

  lemma AllocCrumbs(p: Pool, size: int, n: int)
    requires WellFormed(p, size) && FreeKnown(p) && NoCrumbs(p) && n >= MINIALLOC
    ensures NoCrumbs(AllocPool(p, n))
  {
    hide Layout, Distinct, Sum, FirstFit;
    if !Fails(p, n) {
      var k := FirstFit(p.blocks, p.free, n);
      FirstFitHas(p.blocks, p.free, n);
      IndexOfFree(p, size, k);
      var i := IndexAt(p.blocks, p.free[k]);
      var b := p.blocks[i];
      AtLeastReplace(p.blocks, i, i + 1, [b.(used := true)], HEADER + MINIALLOC);
      if Room(b) >= n + HEADER + MINIALLOC {
        AtLeastReplace(p.blocks, i, i + 1,
                       [Block(b.addr, n + HEADER, true), Block(b.addr + (n + HEADER), b.len - (n + HEADER), false)],
                       HEADER + MINIALLOC);
      }
    }
  }

  lemma FreeCrumbs(p: Pool, size: int, ptr: int)
    requires WellFormed(p, size) && Allocated(p, size, ptr) && NoCrumbs(p)
    ensures NoCrumbs(FreePool(p, ptr))
  {
    hide Layout, FreeRing, AtLeast;
    NotLast(p, size, ptr);
    FreedAtLeast(p.blocks, size, HEADER, IndexAt(p.blocks, ptr - HEADER), HEADER + MINIALLOC);
  }

  lemma ReallocCrumbs(p: Pool, size: int, ptr: int, n: int)
    requires WellFormed(p, size) && FreeKnown(p) && Allocated(p, size, ptr) && NoCrumbs(p)
    requires n % ALIGN_SIZE == 0 && n >= MINIALLOC
    ensures NoCrumbs(ReallocPool(p, size, ptr, n))
  {
    hide Layout, FreeRing, AtLeast, Fails, AllocPool, FreePool;
    match ReallocHow(p, ptr, n)
    case InPlace =>
      InPlaceIsResizable(p, size, ptr, n);
      InPlaceSpan(p, size, ptr, n);
      ResizedAtLeast(p.blocks, size, HEADER, IndexAt(p.blocks, ptr - HEADER), n + HEADER, HEADER + MINIALLOC);
    case Move =>
      StillAllocated(p, size, ptr, n);
      AllocKeeps(p, size, n);
      AllocCrumbs(p, size, n);
      FreeCrumbs(AllocPool(p, n), size, ptr);
    case _ =>
  }

  lemma InPlaceSpan(p: Pool, size: int, ptr: int, n: int)
    requires WellFormed(p, size) && FreeKnown(p) && Allocated(p, size, ptr) && ReallocHow(p, ptr, n).InPlace?
    ensures Span(p.blocks, IndexAt(p.blocks, ptr - HEADER)) - (n + HEADER) >= HEADER + MINIALLOC
  {
    hide Layout, FreeRing, Fails, AtLeast;
    NotLast(p, size, ptr);
    BlocksHaveHeader(p, size);
  }

  lemma BlocksHaveHeader(p: Pool, size: int)
    requires WellFormed(p, size)
    ensures forall i :: 0 <= i < |p.blocks| ==> p.blocks[i].len >= HEADER
  {
    hide NoAdjacentFree, Aligned, FreeRing;
  }

  lemma StepCrumbs(p: Pool, size: int, o: Op)
    requires WellFormed(p, size) && Enabled(p, size, o) && NoCrumbs(p)
    ensures NoCrumbs(Step(p, size, o))
  {
    hide Layout, FreeRing, AllocPool, FreePool, ReallocPool, Fails, NoCrumbs;
    KnownFree(p, size);
    match o
    case DoAlloc(request) =>
      RoundedCovers(request);
      AllocCrumbs(p, size, Rounded(request));
    case DoFree(ptr) => FreeCrumbs(p, size, ptr);
    case DoRealloc(ptr, request) =>
      RoundedCovers(request);
      if request == 0 {
        FreeCrumbs(p, size, ptr);
      } else {
        ReallocCrumbs(p, size, ptr, Rounded(request));
      }
  }

  /** Over every run: splitting never leaves a block, live or free, that has no room for MINIALLOC bytes. */
  lemma {:induction false} RunCrumbs(p: Pool, size: int, ops: seq<Op>)
    requires WellFormed(p, size) && RunOk(p, size, ops) && NoCrumbs(p)
    ensures NoCrumbs(Run(p, size, ops))
    decreases |ops|
  {
    hide WellFormed, Step, Enabled, NoCrumbs;
    if ops != [] {
      StepKeeps(p, size, ops[0]);
      StepCrumbs(p, size, ops[0]);
      RunCrumbs(Step(p, size, ops[0]), size, ops[1..]);
    }
  }

  /** What a resize in place cuts off goes to the front of the free ring, instead of the free block it was joined to. */
  lemma CutToFront(p: Pool, size: int, ptr: int, n: int)
    requires WellFormed(p, size) && FreeKnown(p) && Allocated(p, size, ptr) && n % ALIGN_SIZE == 0 && n >= MINIALLOC
    requires ReallocResult(p, ptr, n) == ptr && ReallocPool(p, size, ptr, n) != p
    ensures var q, b := ReallocPool(p, size, ptr, n).free, BlockOf(p, ptr);
            && q != [] && q[0] == ptr + n
            && q[1..] == (if b.addr + b.len in p.free then Drop(p.free, b.addr + b.len) else p.free)
  {
    hide Distinct, FreeRing, NoAdjacentFree, Aligned, AllocPool, AllocResult, FreePool, Drop;
    match ReallocHow(p, ptr, n)
    case Move => MovesAway(p, size, ptr, n);
    case InPlace =>
      NotLast(p, size, ptr);
      BehindFree(p, size, IndexAt(p.blocks, ptr - HEADER));
    case _ =>
  }

  lemma MovesAway(p: Pool, size: int, ptr: int, n: int)
    requires WellFormed(p, size) && FreeKnown(p) && Allocated(p, size, ptr) && !Fails(p, n)
    ensures AllocResult(p, n) != ptr
  {
    hide Layout, Fails;
    AllocIsFresh(p, size, n);
    IsLive(p, size, ptr);
  }

  /** The address behind block i is on the ring exactly when the next block is free. */
  lemma BehindFree(p: Pool, size: int, i: nat)
    requires WellFormed(p, size) && i + 1 < |p.blocks|
    ensures p.blocks[i].addr + p.blocks[i].len == p.blocks[i + 1].addr
    ensures p.blocks[i + 1].addr in p.free <==> JoinsRight(p.blocks, i)
  {
    hide NoAdjacentFree, Aligned, Distinct;
    var a := p.blocks[i + 1].addr;
    if a in FreeAddrs(p.blocks) {
      var j :| 0 <= j < |p.blocks| && !p.blocks[j].used && p.blocks[j].addr == a;
      IndexUnique(p.blocks, 0, size, HEADER, j);
      IndexUnique(p.blocks, 0, size, HEADER, i + 1);
    }
  }
}
