/** mem.c: the link-level heap, proved to compute the functions of SmallMemSpec.dfy.

  Offsets into the heap stand for pointers and each header word is a map entry.  heap_end's own
  `prev` is written by plug_holes, skipped by the splits and never read, so nothing is said of it.
 */
module SmallMem {
  import opened RtList
  import opened Blocks
  import opened Layouts
  import opened Memory
  import opened SmallMemSpec

  const TWO_TO_32: int := 0x1_0000_0000

  /** RT_ALIGN on 32-bit unsigned values. */
  function Align(n: int): int
    requires 0 <= n < TWO_TO_32
  {
    (n + ALIGN_SIZE - 1) % TWO_TO_32 / ALIGN_SIZE * ALIGN_SIZE
  }

  lemma AlignCovers(n: int)
    requires 0 <= n <= TWO_TO_32 - ALIGN_SIZE
    ensures n <= Align(n) < n + ALIGN_SIZE && Align(n) % ALIGN_SIZE == 0
  {
    assert (n + 3) % TWO_TO_32 == n + 3;
  }

  /** From s[0], `next` visits s and stays at the last; `prev` inverts it but for the last. */
  ghost predicate Chained(k: Links<int>, s: seq<int>) {
    && |s| >= 2
    && Distinct(s)
    && (forall i :: 0 <= i < |s| ==> s[i] in k.next && s[i] in k.prev)
    && (forall i :: 0 <= i < |s| - 1 ==> k.next[s[i]] == s[i + 1])
    && (forall i :: 0 < i < |s| - 1 ==> k.prev[s[i]] == s[i - 1])
    && k.next[s[|s| - 1]] == s[|s| - 1]
    && k.prev[s[0]] == s[0]
  }

  /** The four stores that link a new header x behind a, the last one only when it is not heap_end's. */
  function LinkBehind(k: Links<int>, a: int, x: int, end: int): Links<int>
    requires a in k.next
  {
    var next1 := k.next[x := k.next[a]];
    var prev1 := k.prev[x := a];
    Links(next1[a := x], if k.next[a] != end then prev1[k.next[a] := x] else prev1)
  }

  /** The two stores of plug_holes that drop the header behind a. */
  function DropBehind(k: Links<int>, a: int): Links<int>
    requires a in k.next && k.next[a] in k.next
  {
    var x := k.next[a];
    Links(k.next[a := k.next[x]], k.prev[k.next[x] := a])
  }

  lemma ChainReads(k: Links<int>, s: seq<int>, i: nat)
    requires Chained(k, s) && i + 1 < |s|
    ensures s[i] in k.next && s[i] in k.prev && k.next[s[i]] == s[i + 1] && s[i + 1] in k.next
    ensures k.prev[s[i]] == if i == 0 then s[0] else s[i - 1]
    ensures s[i] != s[i + 1]
  {
  }

  lemma LinkBehindInChain(k: Links<int>, s: seq<int>, i: nat, x: int)
    requires Chained(k, s) && i + 1 < |s| && x !in s
    ensures s[i] in k.next && Chained(LinkBehind(k, s[i], x, s[|s| - 1]), Inserted(s, i + 1, x))
  {
    ChainReads(k, s, i);
    DistinctInserted(s, i + 1, x);
    LinkBehindNext(k, s, i, x);
    LinkBehindPrev(k, s, i, x);
  }

  lemma LinkBehindNext(k: Links<int>, s: seq<int>, i: nat, x: int)
    requires Chained(k, s) && i + 1 < |s| && x !in s
    ensures s[i] in k.next
    ensures var t := Inserted(s, i + 1, x); var k' := LinkBehind(k, s[i], x, s[|s| - 1]);
            && (forall j :: 0 <= j < |t| ==> t[j] in k'.next && t[j] in k'.prev)
            && (forall j :: 0 <= j < |t| - 1 ==> k'.next[t[j]] == t[j + 1])
            && k'.next[t[|t| - 1]] == t[|t| - 1] && k'.prev[t[0]] == t[0]
  {
    ChainReads(k, s, i);
    var t := Inserted(s, i + 1, x);
    var k' := LinkBehind(k, s[i], x, s[|s| - 1]);
    forall j | 0 <= j < |t| - 1
      ensures k'.next[t[j]] == t[j + 1]
    {
      if j < i {
        assert k.next[s[j]] == s[j + 1];
      } else if j > i + 1 {
        assert k.next[s[j - 1]] == s[j];
      }
    }
  }

  lemma LinkBehindPrev(k: Links<int>, s: seq<int>, i: nat, x: int)
    requires Chained(k, s) && i + 1 < |s| && x !in s
    ensures s[i] in k.next
    ensures var t := Inserted(s, i + 1, x); var k' := LinkBehind(k, s[i], x, s[|s| - 1]);
            forall j :: 0 < j < |t| - 1 ==> t[j] in k'.prev && k'.prev[t[j]] == t[j - 1]
  {
    ChainReads(k, s, i);
    var t := Inserted(s, i + 1, x);
    var k' := LinkBehind(k, s[i], x, s[|s| - 1]);
    forall j | 0 < j < |t| - 1
      ensures t[j] in k'.prev && k'.prev[t[j]] == t[j - 1]
    {
      if j <= i {
        assert k.prev[s[j]] == s[j - 1];
      } else if j > i + 2 {
        assert k.prev[s[j - 1]] == s[j - 2];
      }
    }
  }

  lemma DropBehindInChain(k: Links<int>, s: seq<int>, i: nat)
    requires Chained(k, s) && i + 2 < |s|
    ensures s[i] in k.next && k.next[s[i]] == s[i + 1] && s[i + 1] in k.next
    ensures Chained(DropBehind(k, s[i]), Without(s, i + 1))
  {
    ChainReads(k, s, i);
    ChainReads(k, s, i + 1);
    DistinctWithout(s, i + 1);
    var t := Without(s, i + 1);
    var k' := DropBehind(k, s[i]);
    forall j | 0 <= j < |t| - 1
      ensures k'.next[t[j]] == t[j + 1]
    {
      if j < i {
        assert k.next[s[j]] == s[j + 1];
      } else if j > i {
        assert k.next[s[j + 1]] == s[j + 2];
      }
    }
    forall j | 0 < j < |t| - 1
      ensures k'.prev[t[j]] == t[j - 1]
    {
      if j <= i {
        assert k.prev[s[j]] == s[j - 1];
      } else if j > i + 1 {
        assert k.prev[s[j + 1]] == s[j];
      }
    }
  }

  // ----- Words and blocks -----

  ghost predicate Linked(k: Links<int>, used: map<int, bool>, bs: seq<Block>) {
    Chained(k, Addrs(bs)) && Flags(used, bs)
  }

  ghost predicate Rep(size: int, k: Links<int>, used: map<int, bool>, lfree: int, usedMem: int, h: Heap) {
    WellFormed(h, size) && Linked(k, used, h.blocks) && lfree == h.lfree && usedMem == UsedBytes(h)
  }

  lemma BlockReads(k: Links<int>, used: map<int, bool>, bs: seq<Block>, size: int, i: nat)
    requires Linked(k, used, bs) && Layout(bs, size, HEADER) && i < |bs|
    ensures bs[i].addr in k.next && bs[i].addr in k.prev && bs[i].addr in used && used[bs[i].addr] == bs[i].used
    ensures i + 1 < |bs| ==> k.next[bs[i].addr] == bs[i + 1].addr == bs[i].addr + bs[i].len
    ensures i + 1 < |bs| ==> k.prev[bs[i].addr] == bs[if i == 0 then 0 else i - 1].addr
    ensures bs[i].addr <= size - HEADER && (bs[i].addr == size - HEADER <==> i == |bs| - 1)
  {
    hide NoAdjacentFree, Aligned, Distinct;
    assert bs[i] in bs;
    if i + 1 < |bs| {
      ChainReads(k, Addrs(bs), i);
      Touch(bs, 0, size, HEADER, i);
      Tail(bs, size, i);
      LenAtLeastHeader(bs, size, HEADER, i);
    }
  }

  /** Splitting block i in words. */
  lemma SplitLinked(k: Links<int>, used: map<int, bool>, bs: seq<Block>, size: int, i: nat, m: int)
    requires Linked(k, used, bs) && Layout(bs, size, HEADER) && i + 1 < |bs| && 0 < m < bs[i].len
    ensures bs[i].addr in k.next
    ensures Linked(LinkBehind(k, bs[i].addr, bs[i].addr + m, size - HEADER),
            used[bs[i].addr + m := false][bs[i].addr := true],
                   Split(bs, i, m, true))
  {
    hide NoAdjacentFree, Aligned, Distinct, Flags, Tiles, Chained;
    SplitChained(k, bs, size, i, m);
    SplitFlags(used, bs, size, i, m);
  }

  lemma SplitChained(k: Links<int>, bs: seq<Block>, size: int, i: nat, m: int)
    requires Chained(k, Addrs(bs)) && Layout(bs, size, HEADER) && i + 1 < |bs| && 0 < m < bs[i].len
    ensures bs[i].addr in k.next
    ensures Chained(LinkBehind(k, bs[i].addr, bs[i].addr + m, size - HEADER), Addrs(Split(bs, i, m, true)))
  {
    hide NoAdjacentFree, Aligned, Distinct, Tiles;
    CutIsFresh(bs, 0, size, HEADER, i, m);
    LinkBehindInChain(k, Addrs(bs), i, bs[i].addr + m);
    assert Addrs(Split(bs, i, m, true)) == Inserted(Addrs(bs), i + 1, bs[i].addr + m);
  }

  lemma SplitFlags(used: map<int, bool>, bs: seq<Block>, size: int, i: nat, m: int)
    requires Flags(used, bs) && Layout(bs, size, HEADER) && i + 1 < |bs| && 0 < m < bs[i].len
    ensures Flags(used[bs[i].addr + m := false][bs[i].addr := true], Split(bs, i, m, true))
  {
    hide NoAdjacentFree, Aligned, Distinct, Tiles;
    var a, x := bs[i].addr, bs[i].addr + m;
    FlagsReplace(used, used[x := false][a := true], bs, size, HEADER, i, i + 1,
                 [Block(a, m, true), Block(x, bs[i].len - m, false)]);
  }

  lemma MarkedLinked(k: Links<int>, used: map<int, bool>, bs: seq<Block>, size: int, i: nat)
    requires Linked(k, used, bs) && Layout(bs, size, HEADER) && i + 1 < |bs|
    ensures Linked(k, used[bs[i].addr := true], Marked(bs, i, true))
  {
    hide NoAdjacentFree, Aligned, Distinct;
    LenAtLeastHeader(bs, size, HEADER, i);
    assert Addrs(Marked(bs, i, true)) == Addrs(bs);
    FlagsReplace(used, used[bs[i].addr := true], bs, size, HEADER, i, i + 1, [bs[i].(used := true)]);
  }

  /** The headers plug_holes leaves: the right neighbour goes first, then the block itself. */
  ghost function PluggedRight(bs: seq<Block>, i: nat): seq<int>
    requires i < |bs|
  {
    if JoinsRight(bs, i) then Without(Addrs(bs), i + 1) else Addrs(bs)
  }

  lemma PluggedAddrs(bs: seq<Block>, i: nat)
    requires i < |bs|
    ensures Addrs(FreedBlocks(bs, i)) == if JoinsLeft(bs, i) then Without(PluggedRight(bs, i), i)
            else PluggedRight(bs, i)
  {
    hide Without, Replace;
    var s, f, u := Addrs(bs), From(bs, i), Upto(bs, i);
    AddrsReplace(bs, f, u, [Merged(bs, i)]);
    assert Addrs([Merged(bs, i)]) == [s[f]];
    Outside(s, i);
  }

  /** What stays of s around position i when it swallows a neighbour. */
  lemma Outside(s: seq<int>, i: nat)
    requires i < |s|
    ensures s[..i] + [s[i]] + s[i + 1..] == s
    ensures i + 1 < |s| ==> s[..i] + [s[i]] + s[i + 2..] == Without(s, i + 1)
    ensures i > 0 ==> s[..i - 1] + [s[i - 1]] + s[i + 1..] == Without(s, i)
    ensures i > 0 && i + 1 < |s| ==>
            |Without(s, i + 1)| == |s| - 1 && s[..i - 1] + [s[i - 1]] + s[i + 2..] == Without(Without(s, i + 1), i)
  {
  }

  lemma PlugRight(k: Links<int>, bs: seq<Block>, i: nat)
    requires Chained(k, Addrs(bs)) && i + 1 < |bs| && bs[|bs| - 1].used
    ensures bs[i].addr in k.next && k.next[bs[i].addr] == bs[i + 1].addr && bs[i + 1].addr in k.next
    ensures bs[i].addr != bs[i + 1].addr
    ensures JoinsRight(bs, i) ==> bs[i + 1].addr != bs[|bs| - 1].addr
    ensures Chained(if JoinsRight(bs, i) then DropBehind(k, bs[i].addr) else k, PluggedRight(bs, i))
  {
    ChainReads(k, Addrs(bs), i);
    if JoinsRight(bs, i) {
      assert Addrs(bs)[i + 1] != Addrs(bs)[|bs| - 1];
      DropBehindInChain(k, Addrs(bs), i);
    }
  }

  lemma PlugLeft(k: Links<int>, bs: seq<Block>, i: nat)
    requires i + 1 < |bs| && bs[|bs| - 1].used && Chained(k, PluggedRight(bs, i))
    ensures bs[i].addr in k.prev && k.prev[bs[i].addr] == bs[if i == 0 then 0 else i - 1].addr
    ensures i > 0 ==> bs[i - 1].addr != bs[i].addr
    ensures i > 0 ==> bs[i - 1].addr in k.next && k.next[bs[i - 1].addr] == bs[i].addr && bs[i].addr in k.next
    ensures Chained(if JoinsLeft(bs, i) then DropBehind(k, bs[i - 1].addr) else k, Addrs(FreedBlocks(bs, i)))
  {
    var s := PluggedRight(bs, i);
    assert s[i] == bs[i].addr && i + 1 < |s|;
    assert i > 0 ==> s[i - 1] == bs[i - 1].addr;
    ChainReads(k, s, i);
    PluggedAddrs(bs, i);
    if i > 0 {
      ChainReads(k, s, i - 1);
      DropBehindInChain(k, s, i - 1);
    }
  }

  lemma TakenAt(bs: seq<Block>, i: nat, n: int)
    requires i < |bs|
    ensures i < |TakenBlocks(bs, i, n)| && TakenBlocks(bs, i, n)[i].addr == bs[i].addr
  {
  }

  lemma FreeReads(k: Links<int>, used: map<int, bool>, bs: seq<Block>, size: int, i: nat)
    requires Linked(k, used, bs) && Layout(bs, size, HEADER) && i + 1 < |bs|
    ensures bs[i].addr in k.next && k.next[bs[i].addr] - bs[i].addr == bs[i].len >= 0
    ensures bs[|bs| - 1] == Block(size - HEADER, HEADER, true)
    ensures bs[i].addr != bs[i + 1].addr && bs[i + 1].addr in used && used[bs[i + 1].addr] == bs[i + 1].used
    ensures i > 0 ==> bs[i - 1].addr != bs[i].addr && bs[i - 1].addr in used && used[bs[i - 1].addr] == bs[i - 1].used
  {
    hide NoAdjacentFree, Aligned, Distinct, Chained, Tiles;
    NeighbourAddrs(bs, size, i);
    LenAtLeastHeader(bs, size, HEADER, i);
    BlockReads(k, used, bs, size, i);
    BlockReads(k, used, bs, size, i + 1);
    if i > 0 {
      BlockReads(k, used, bs, size, i - 1);
    }
  }

  /** Shrinking is a split whose new block plug_holes then merges. */
  lemma ShrinkIsPlug(bs: seq<Block>, i: nat, m: int)
    requires i + 1 < |bs| && bs[i].used && bs[i].addr + bs[i].len == bs[i + 1].addr
    ensures FreedBlocks(Split(bs, i, m, true), i + 1) == ResizedBlocks(bs, i, m)
  {
    var cut := Split(bs, i, m, true);
    assert From(cut, i + 1) == i + 1 && Upto(cut, i + 1) == Upto(bs, i) + 1;
    assert cut == bs[..i] + [cut[i], cut[i + 1]] + bs[i + 1..];
  }

  lemma CutShape(bs: seq<Block>, i: nat, m: int, lfree: int)
    requires i + 1 < |bs| && bs[i].used && bs[i].addr + bs[i].len == bs[i + 1].addr && lfree != bs[i].addr + m
    ensures var cut := Split(bs, i, m, true);
            && i + 2 < |cut| && cut[i].addr == bs[i].addr && cut[i].used && cut[i + 1].addr == bs[i].addr + m
            && cut[i + 2] == bs[i + 1] && cut[|cut| - 1] == bs[|bs| - 1]
            && PluggedHint(cut, i + 1, lfree)
               == (if JoinsRight(bs, i) && lfree == bs[i + 1].addr then bs[i].addr + m else lfree)
  {
  }

  lemma ShrinkReads(used: map<int, bool>, h: Heap, size: int, ptr: int, n: int, i: nat)
    requires WellFormed(h, size) && Shrinks(h, size, ptr, n) && n > 0 && n % ALIGN_SIZE == 0
    requires i == IndexAt(h.blocks, ptr - HEADER) && Flags(used, h.blocks)
    ensures i + 1 < |h.blocks| && h.blocks[i].addr + h.blocks[i].len == h.blocks[i + 1].addr
    ensures h.blocks[|h.blocks| - 1] == Block(size - HEADER, HEADER, true)
    ensures ptr + n < h.blocks[i + 1].addr && h.lfree != ptr + n
    ensures Flags(used[ptr + n := false], ResizedBlocks(h.blocks, i, n + HEADER))
  {
    hide NoAdjacentFree, Aligned, Flags, ResizedBlocks;
    HintKnown(h, size);
    CutIsFresh(h.blocks, 0, size, HEADER, i, n + HEADER);
    Touch(h.blocks, 0, size, HEADER, i);
    ShrinkIsResizable(h, size, ptr, n);
    ResizedFlags(used, h.blocks, size, HEADER, i, n + HEADER);
  }

  lemma ResultTells(h: Heap, size: int, n: int)
    requires WellFormed(h, size) && h.lfree in Addrs(h.blocks) && n > 0
    ensures MallocResult(h, size, n) == NULL <==> Fails(h, size, n)
    ensures Fails(h, size, n) ==> MallocHeap(h, size, n) == h
  {
    hide NoAdjacentFree, Aligned;
    if !Fails(h, size, n) {
      AddrInRange(h.blocks, size, HEADER, Found(h, size, n));
    }
  }

  lemma AlignZero()
    ensures Align(0) == 0
  {
  }

  lemma AlignTwice(n: int)
    requires 0 <= n <= TWO_TO_32 - ALIGN_SIZE
    ensures Align(n) <= TWO_TO_32 - ALIGN_SIZE && Align(Align(n)) == Align(n)
    ensures n > 0 ==> Align(n) > 0
  {
    AlignCovers(n);
    AlignCovers(Align(n));
  }

  lemma NullNotAllocated(h: Heap, size: int)
    requires WellFormed(h, size)
    ensures !Allocated(h, size, NULL)
  {
    if Allocated(h, size, NULL) {
      AllocatedInside(h, size, NULL);
    }
  }

  lemma OutsideNotAllocated(h: Heap, size: int, ptr: int)
    requires WellFormed(h, size) && (ptr < 0 || ptr >= size - HEADER)
    ensures !Allocated(h, size, ptr)
  {
    if Allocated(h, size, ptr) {
      AllocatedInside(h, size, ptr);
    }
  }

  /** rt_realloc takes the branch that allocates, copies and releases, and finds room. */
  ghost predicate Moves(h: Heap, size: int, memSize: int, ptr: int, request: int)
    requires h.lfree in Addrs(h.blocks) && 0 <= request < TWO_TO_32
  {
    0 < request && Align(request) <= memSize && Allocated(h, size, ptr)
      && ReallocHow(h, size, ptr, Align(request)).Move?
  }

  class SmallMem {
    const memSize: int               // mem_size_aligned
    var k: Links<int>                // mem->next, mem->prev
    var used: map<int, bool>
    var lfree: int
    var usedMem: int
    var maxMem: int
    const bytes: array<bv8>          // the data; headers are the fields above
    ghost var heap: Heap

    /** heap_end. */
    function End(): int {
      memSize + HEADER
    }

    ghost function Size(): int {
      memSize + 2 * HEADER
    }

    ghost predicate Valid()
      reads this
    {
      && 0 <= memSize && bytes.Length == Size() < TWO_TO_32
      && Rep(Size(), k, used, lfree, usedMem, heap) && usedMem <= maxMem
    }

    /** rt_system_heap_init on an aligned stretch of that many bytes, headers of both ends included. */
    constructor (heapBytes: int)
      requires heapBytes % ALIGN_SIZE == 0 && 2 * HEADER <= heapBytes < TWO_TO_32
      ensures Valid() && memSize == heapBytes - 2 * HEADER
      ensures heap == InitialHeap(Size()) && maxMem == 0 && fresh(bytes)
    {
      memSize := heapBytes - 2 * HEADER;
      var end := heapBytes - HEADER;
      k := Links(map[0 := end, end := end], map[0 := 0, end := end]);
      used := map[0 := false, end := true];
      lfree, usedMem, maxMem := 0, 0, 0;
      heap := InitialHeap(heapBytes);
      bytes := new bv8[heapBytes];
      new;
      InitialHeapWellFormed(heapBytes);
      assert Addrs(heap.blocks) == [0, end];
    }

    method PlugHoles(mem: int, ghost bs: seq<Block>, ghost i: nat)
      requires Chained(k, Addrs(bs)) && i + 1 < |bs| && bs[i].addr == mem
      requires bs[|bs| - 1] == Block(End(), HEADER, true)
      requires bs[i + 1].addr in used && used[bs[i + 1].addr] == bs[i + 1].used
      requires i > 0 ==> bs[i - 1].addr in used && used[bs[i - 1].addr] == bs[i - 1].used
      modifies `k, `lfree
      ensures Chained(k, Addrs(FreedBlocks(bs, i)))
      ensures lfree == PluggedHint(bs, i, old(lfree))
    {
      hide Chained, FreedBlocks, PluggedRight, Addrs;
      PlugRight(k, bs, i);
      var nmem := k.next[mem];
      if mem != nmem && !used[nmem] && nmem != End() {
        if lfree == nmem {
          lfree := mem;
        }
        k := DropBehind(k, mem);
      }
      PlugLeft(k, bs, i);
      var pmem := k.prev[mem];
      if pmem != mem && !used[pmem] {
        if lfree == mem {
          lfree := pmem;
        }
        k := DropBehind(k, pmem);
      }
    }

    /** Whether the search of rt_malloc ends: SmallMemSpec.SearchEndsIff. */
    predicate Ends(request: int)
      requires 0 <= request < TWO_TO_32
    {
      MIN_SIZE <= memSize || request == 0 || Align(request) > memSize
    }

    /** rt_malloc. */
    method Malloc(request: int) returns (r: int)
      requires Valid() && 0 <= request <= TWO_TO_32 - ALIGN_SIZE && Ends(request)
      modifies this
      ensures Valid() && heap.lfree in Addrs(heap.blocks) && old(heap).lfree in Addrs(old(heap).blocks)
      ensures request == 0 || Align(request) > memSize ==> r == NULL && heap == old(heap) && maxMem == old(maxMem)
      ensures 0 < request && Align(request) <= memSize ==>
                && heap == MallocHeap(old(heap), Size(), AtLeastMin(Align(request)))
                && r == MallocResult(old(heap), Size(), AtLeastMin(Align(request)))
                && maxMem == if old(maxMem) < usedMem then usedMem else old(maxMem)
    {
      hide Chained, Flags, Layout, Hinted, Addrs, Sum, Align;
      HintKnown(heap, Size());
      r := NULL;
      if request == 0 {
        return;
      }
      AlignCovers(request);
      var size := Align(request);
      if size > memSize {
        return;
      }
      if size < MIN_SIZE {
        size := MIN_SIZE;
      }
      var ptr, found := FindFit(size);
      if found {
        ghost var i := Found(heap, Size(), size);
        Take(ptr, size, i);
        r := ptr + HEADER;
        HintKnown(heap, Size());
      }
    }

    /** The search loop of rt_malloc. */
    method FindFit(n: int) returns (ptr: int, found: bool)
      requires Valid() && 0 < n <= memSize && heap.lfree in Addrs(heap.blocks)
      ensures found <==> !Fails(heap, Size(), n)
      ensures found ==> ptr == heap.blocks[Found(heap, Size(), n)].addr
    {
      hide Chained, Flags, Layout, Hinted, Addrs, Sum;
      HintKnown(heap, Size());
      ghost var bs, i := heap.blocks, IndexAt(heap.blocks, heap.lfree);
      ptr, found := lfree, false;
      BlockReads(k, used, bs, Size(), i);
      while ptr < memSize - n
        invariant i < |bs| && ptr == bs[i].addr
        invariant Search(bs, i, n, memSize) == Found(heap, Size(), n)
        invariant ptr <= End() && (ptr == End() <==> i == |bs| - 1)
        decreases |bs| - i
      {
        BlockReads(k, used, bs, Size(), i);
        if !used[ptr] && k.next[ptr] - (ptr + HEADER) >= n {
          found := true;
          return;
        }
        ptr := k.next[ptr];
        i := i + 1;
        BlockReads(k, used, bs, Size(), i);
      }
    }

    /** The rest of rt_malloc once a block is found: split or not, then move lfree on if it was taken. */
    method Take(mem: int, n: int, ghost i: nat)
      requires Valid() && 0 < n && n % ALIGN_SIZE == 0 && heap.lfree in Addrs(heap.blocks)
      requires i == Found(heap, Size(), n) < |heap.blocks| && mem == heap.blocks[i].addr
      modifies this
      ensures Valid()
      ensures heap == MallocHeap(old(heap), Size(), n)
      ensures maxMem == if old(maxMem) < usedMem then usedMem else old(maxMem)
    {
      hide Chained, Flags, Layout, Hinted, Addrs, Sum, Split, Marked, NextFree, Found;
      ghost var bs := TakenBlocks(heap.blocks, i, n);
      ghost var q := MallocHeap(heap, Size(), n);
      FoundInside(heap, Size(), n);
      BlockReads(k, used, heap.blocks, Size(), i);
      TakenLayout(heap.blocks, Size(), i, n);
      TakenGives(heap.blocks, Size(), i, n);
      MallocKeeps(heap, Size(), n);
      if k.next[mem] - (mem + HEADER) >= n + HEADER + MIN_SIZE {
        var ptr2 := mem + (n + HEADER);
        SplitLinked(k, used, heap.blocks, Size(), i, n + HEADER);
        used := used[ptr2 := false];
        k := LinkBehind(k, mem, ptr2, End());
        used := used[mem := true];
        usedMem := usedMem + (n + HEADER);
      } else {
        MarkedLinked(k, used, heap.blocks, Size(), i);
        used := used[mem := true];
        usedMem := usedMem + (k.next[mem] - mem);
      }
      if maxMem < usedMem {
        maxMem := usedMem;
      }
      TakenAt(heap.blocks, i, n);
      if mem == lfree {
        AdvanceLfree(bs, i);
      }
      heap := q;
    }

    /** The loop that looks for the next free block after the one taken. */
    method AdvanceLfree(ghost bs: seq<Block>, ghost i: nat)
      requires Linked(k, used, bs) && Layout(bs, Size(), HEADER) && i < |bs| && bs[i].addr == lfree
      modifies `lfree
      ensures lfree == NextFree(bs, i)
    {
      hide Chained, Flags, Layout, Addrs;
      ghost var j := i;
      BlockReads(k, used, bs, Size(), i);
      while used[lfree] && lfree != End()
        invariant j < |bs| && lfree == bs[j].addr && lfree in used && used[lfree] == bs[j].used
        invariant lfree == End() <==> j == |bs| - 1
        invariant NextFree(bs, j) == NextFree(bs, i)
        decreases |bs| - j
      {
        BlockReads(k, used, bs, Size(), j);
        lfree := k.next[lfree];
        j := j + 1;
        BlockReads(k, used, bs, Size(), j);
      }
    }

    /** rt_free. */
    method Free(ptr: int)
      requires Valid() && (ptr == NULL || Allocated(heap, Size(), ptr))
      modifies this
      ensures Valid() && maxMem == old(maxMem)
      ensures heap == if ptr == NULL then old(heap) else FreeHeap(old(heap), ptr)
    {
      if ptr != NULL {
        FreeBlock(ptr);
      }
    }

    method FreeBlock(ptr: int)
      requires Valid() && Allocated(heap, Size(), ptr)
      modifies this
      ensures Valid() && maxMem == old(maxMem)
      ensures heap == FreeHeap(old(heap), ptr)
    {
      hide Chained, Flags, Layout, Hinted, Addrs, Sum, FreedBlocks, PluggedHint;
      var mem := ptr - HEADER;
      ghost var bs, i, q := heap.blocks, IndexAt(heap.blocks, mem), FreeHeap(heap, ptr);
      AllocatedInside(heap, Size(), ptr);
      FreeReads(k, used, bs, Size(), i);
      FreeKeeps(heap, Size(), ptr);
      FreeLowersUsed(heap, Size(), ptr);
      FreedFlags(used, bs, Size(), HEADER, i);
      used := used[mem := false];
      if mem < lfree {
        lfree := mem;
      }
      usedMem := usedMem - (k.next[mem] - mem);
      PlugHoles(mem, bs, i);
      heap := q;
    }

    /** rt_realloc.  A pointer outside the heap comes back as it is, unless a size of 0 asks to free it. */
    method Realloc(ptr: int, request: int) returns (r: int)
      requires Valid() && 0 <= request <= TWO_TO_32 - ALIGN_SIZE && Ends(request)
      requires ptr == NULL || Allocated(heap, Size(), ptr) || (request > 0 && (ptr < 0 || ptr >= End()))
      modifies this, bytes
      ensures Valid() && old(heap).lfree in Addrs(old(heap).blocks)
      ensures Align(request) > memSize ==> r == NULL && heap == old(heap)
      ensures request == 0 ==> r == NULL && heap == if ptr == NULL then old(heap) else FreeHeap(old(heap), ptr)
      ensures 0 < request && Align(request) <= memSize && ptr == NULL ==>
                && heap == MallocHeap(old(heap), Size(), AtLeastMin(Align(request)))
                && r == MallocResult(old(heap), Size(), AtLeastMin(Align(request)))
      ensures 0 < request && Align(request) <= memSize && ptr != NULL && !Allocated(old(heap), Size(), ptr) ==>
                r == ptr && heap == old(heap)
      ensures 0 < request && Align(request) <= memSize && Allocated(old(heap), Size(), ptr) ==>
                && Align(request) > 0 && Align(request) % ALIGN_SIZE == 0
                && heap == ReallocHeap(old(heap), Size(), ptr, Align(request))
                && r == ReallocResult(old(heap), Size(), ptr, Align(request))
      ensures if Moves(old(heap), Size(), memSize, ptr, request) then
                Carried(old(bytes[..]), bytes[..], r, ptr, Smaller(Room(BlockOf(old(heap), ptr)), Align(request)))
              else bytes[..] == old(bytes[..])
    {
      hide Chained, Flags, Layout, Hinted, Addrs, Sum, Align, MallocHeap, MallocResult, ReallocHeap, ReallocResult,
        FreeHeap, Carried, ReallocHow;
      HintKnown(heap, Size());
      AlignCovers(request);
      AlignZero();
      var newsize := Align(request);
      r := NULL;
      if newsize > memSize {
        return;
      } else if newsize == 0 {
        Free(ptr);
        return;
      }
      AlignTwice(request);
      if ptr == NULL {
        NullNotAllocated(heap, Size());
        r := Malloc(newsize);
      } else if ptr < 0 || ptr >= End() {
        OutsideNotAllocated(heap, Size(), ptr);
        r := ptr;
      } else {
        r := Resize(ptr, newsize);
      }
    }

    /** The part of rt_realloc that has a block and an aligned size. */
    method Resize(ptr: int, n: int) returns (r: int)
      requires Valid() && Allocated(heap, Size(), ptr)
      requires MIN_SIZE <= memSize && 0 < n <= memSize && n % ALIGN_SIZE == 0 && Align(n) == n
      modifies this, bytes
      ensures Valid() && old(heap).lfree in Addrs(old(heap).blocks)
      ensures heap == ReallocHeap(old(heap), Size(), ptr, n)
      ensures r == ReallocResult(old(heap), Size(), ptr, n)
      ensures if ReallocHow(old(heap), Size(), ptr, n).Move? then
                Carried(old(bytes[..]), bytes[..], r, ptr, Smaller(Room(BlockOf(old(heap), ptr)), n))
              else bytes[..] == old(bytes[..])
    {
      hide Chained, Flags, Layout, Hinted, Addrs, Sum, Align, MallocHeap, MallocResult, FreeHeap, Fails, ShrinkHeap,
        Carried;
      HintKnown(heap, Size());
      var mem := ptr - HEADER;
      AllocatedInside(heap, Size(), ptr);
      BlockReads(k, used, heap.blocks, Size(), IndexAt(heap.blocks, mem));
      var size := k.next[mem] - mem - HEADER;
      if size == n {
        return ptr;
      }
      if n + HEADER + MIN_SIZE < size {
        Shrink(ptr, n);
        return ptr;
      }
      ResultTells(heap, Size(), AtLeastMin(n));
      ghost var h := heap;
      r := Malloc(n);
      if r != NULL {
        StillAllocated(h, Size(), ptr, AtLeastMin(n));
        MoveRegions(h, Size(), ptr, AtLeastMin(n), n);
        assert bytes[..] == old(bytes[..]);
        Memcpy(bytes, r, ptr, if size < n then size else n);
        Free(ptr);
      }
    }

    /** The splitting branch of rt_realloc. */
    method Shrink(ptr: int, n: int)
      requires Valid() && Shrinks(heap, Size(), ptr, n) && n > 0 && n % ALIGN_SIZE == 0
      modifies this
      ensures Valid() && maxMem == old(maxMem)
      ensures heap == ShrinkHeap(old(heap), ptr, n)
    {
      hide Chained, Flags, Layout, Hinted, Addrs, Sum, FreedBlocks, ResizedBlocks, Split, PluggedHint;
      var mem := ptr - HEADER;
      ghost var bs, i, q := heap.blocks, IndexAt(heap.blocks, mem), ShrinkHeap(heap, ptr, n);
      AllocatedInside(heap, Size(), ptr);
      BlockReads(k, used, bs, Size(), i);
      SplitLinked(k, used, bs, Size(), i, n + HEADER);
      ShrinkReads(used, heap, Size(), ptr, n, i);
      BlockReads(k, used, bs, Size(), i + 1);
      ShrinkIsPlug(bs, i, n + HEADER);
      CutShape(bs, i, n + HEADER, lfree);
      ShrinkKeeps(heap, Size(), ptr, n);
      ShrinkLowersUsed(heap, Size(), ptr, n);
      var size := k.next[mem] - mem - HEADER;
      usedMem := usedMem - (size - n);
      var ptr2 := mem + (n + HEADER);
      used := used[ptr2 := false];
      k := LinkBehind(k, mem, ptr2, End());
      PlugHoles(ptr2, Split(bs, i, n + HEADER, true), i + 1);
      heap := q;
    }
  }
}
