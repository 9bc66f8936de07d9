/** Layouts: what both pointer heaps keep about their blocks, for headers of h bytes.

  A layout tiles [0, size) by blocks of at least a header each, ends with a used block that is a
  header and nothing else, and never has two free blocks side by side.  Releasing a block joins it
  with its free neighbours; resizing it cuts it and gives what is left to one free block.
 */
module Layouts {
  import opened RtList
  import opened Blocks

  const ALIGN_SIZE: int := 4       // RT_ALIGN_SIZE

  function Whole(b: Block): int {
    b.len
  }

  ghost predicate Aligned(bs: seq<Block>) {
    forall b :: b in bs ==> b.addr % ALIGN_SIZE == 0
  }

  ghost predicate Tailed(bs: seq<Block>, size: int, h: nat) {
    |bs| >= 2 && bs[|bs| - 1] == Block(size - h, h, true)
  }

  ghost predicate Layout(bs: seq<Block>, size: int, h: nat) {
    Tiles(bs, 0, size, h) && Tailed(bs, size, h) && NoAdjacentFree(bs) && Aligned(bs)
  }

  lemma LenAtLeastHeader(bs: seq<Block>, size: int, h: nat, i: nat)
    requires Tiles(bs, 0, size, h) && i < |bs|
    ensures bs[i].len >= h
  {
  }

  lemma AddrInRange(bs: seq<Block>, size: int, h: nat, i: nat)
    requires Tiles(bs, 0, size, h) && i < |bs|
    ensures 0 <= bs[i].addr
  {
    if i > 0 {
      Ascending(bs, 0, size, h, 0, i);
    }
  }

  lemma LiveAddrOnce(bs: seq<Block>, size: int, h: nat, i: nat)
    requires h > 0 && Tiles(bs, 0, size, h) && i < |bs|
    ensures forall b :: b in bs && b.addr == bs[i].addr ==> b == bs[i]
  {
    forall b | b in bs && b.addr == bs[i].addr
      ensures b == bs[i]
    {
      var j :| 0 <= j < |bs| && bs[j] == b;
      IndexUnique(bs, 0, size, h, i);
      IndexUnique(bs, 0, size, h, j);
    }
  }

  lemma UsedAddrIsNotFree(bs: seq<Block>, size: int, h: nat, i: nat)
    requires h > 0 && Tiles(bs, 0, size, h) && i < |bs| && bs[i].used
    ensures bs[i].addr !in FreeAddrs(bs)
  {
    FreeAddrsMember(bs, bs[i].addr);
    LiveAddrOnce(bs, size, h, i);
  }

  lemma FreeAddrsAreAddrs(bs: seq<Block>)
    ensures forall a :: a in FreeAddrs(bs) ==> a in Addrs(bs)
  {
    forall a | a in FreeAddrs(bs)
      ensures a in Addrs(bs)
    {
      var i :| 0 <= i < |bs| && !bs[i].used && bs[i].addr == a;
      assert Addrs(bs)[i] == a;
    }
  }

  /** Replacing a stretch before the tail keeps the layout when the new stretch fits in. */
  lemma LayoutReplace(bs: seq<Block>, size: int, h: nat, i: nat, j: nat, mid: seq<Block>)
    requires Layout(bs, size, h) && i < j < |bs|
    requires Tiles(mid, bs[i].addr, bs[j - 1].addr + bs[j - 1].len, h)
    requires NoAdjacentFree(mid) && Aligned(mid)
    requires i == 0 || bs[i - 1].used || mid[0].used
    requires mid[|mid| - 1].used || bs[j].used
    ensures Layout(Replace(bs, i, j, mid), size, h)
  {
    TilesReplace(bs, 0, size, h, i, j, mid);
    NoAdjacentFreeReplace(bs, i, j, mid);
    forall b | b in Replace(bs, i, j, mid)
      ensures b.addr % ALIGN_SIZE == 0
    {
      InReplace(bs, i, j, mid, b);
    }
  }

  /** Cutting a used piece of m bytes off block i. */
  lemma SplitLayout(bs: seq<Block>, size: int, h: nat, i: nat, m: int)
    requires Layout(bs, size, h) && i + 1 < |bs| && bs[i + 1].used
    requires m % ALIGN_SIZE == 0 && m >= h && m + h <= bs[i].len
    ensures Layout(Split(bs, i, m, true), size, h)
  {
    hide Tiles, NoAdjacentFree;
    var b := bs[i];
    assert b in bs;
    Pair(Block(b.addr, m, true), Block(b.addr + m, b.len - m, false), h);
    LayoutReplace(bs, size, h, i, i + 1, [Block(b.addr, m, true), Block(b.addr + m, b.len - m, false)]);
  }

  lemma Pair(b: Block, c: Block, h: nat)
    requires b.addr + b.len == c.addr && b.len >= h && c.len >= h && (b.used || c.used)
    ensures Tiles([b, c], b.addr, c.addr + c.len, h) && NoAdjacentFree([b, c])
  {
  }

  ghost predicate Flags(used: map<int, bool>, bs: seq<Block>) {
    forall b :: b in bs ==> b.addr in used && used[b.addr] == b.used
  }

  /** Flags survive stores that stay inside the replaced stretch. */
  lemma FlagsReplace(used: map<int, bool>, used': map<int, bool>, bs: seq<Block>, size: int, h: nat, i: nat, j: nat,
                     mid: seq<Block>)
    requires h > 0 && Tiles(bs, 0, size, h) && i < j <= |bs| && Flags(used, bs) && Flags(used', mid)
    requires forall a :: a in used && !(bs[i].addr <= a < bs[j - 1].addr + bs[j - 1].len) ==>
             a in used' && used'[a] == used[a]
    ensures Flags(used', Replace(bs, i, j, mid))
  {
    forall b | b in Replace(bs, i, j, mid)
      ensures b.addr in used' && used'[b.addr] == b.used
    {
      InReplace(bs, i, j, mid, b);
      if b !in mid {
        StartsOutside(bs, 0, size, h, i, j, b);
        assert b in bs;
      }
    }
  }

  ghost predicate JoinsLeft(bs: seq<Block>, i: nat)
    requires i < |bs|
  {
    i > 0 && !bs[i - 1].used
  }

  ghost predicate JoinsRight(bs: seq<Block>, i: nat)
    requires i < |bs|
  {
    i + 1 < |bs| && !bs[i + 1].used
  }

  /** First and last-plus-one of the blocks that freeing block i makes one. */
  ghost function From(bs: seq<Block>, i: nat): nat
    requires i < |bs|
  {
    if JoinsLeft(bs, i) then i - 1 else i
  }

  ghost function Upto(bs: seq<Block>, i: nat): nat
    requires i < |bs|
  {
    if JoinsRight(bs, i) then i + 2 else i + 1
  }

  ghost function Merged(bs: seq<Block>, i: nat): Block
    requires i < |bs|
  {
    var last := bs[Upto(bs, i) - 1];
    Block(bs[From(bs, i)].addr, last.addr + last.len - bs[From(bs, i)].addr, false)
  }

  ghost function FreedBlocks(bs: seq<Block>, i: nat): seq<Block>
    requires i < |bs|
  {
    Replace(bs, From(bs, i), Upto(bs, i), [Merged(bs, i)])
  }

  lemma FreedLayout(bs: seq<Block>, size: int, h: nat, i: nat)
    requires Layout(bs, size, h) && i + 1 < |bs| && bs[i].used
    ensures Layout(FreedBlocks(bs, i), size, h)
  {
    var lo, hi := From(bs, i), Upto(bs, i);
    assert bs[lo] in bs;
    assert hi < |bs|;
    assert Merged(bs, i).len >= h;
    LayoutReplace(bs, size, h, lo, hi, [Merged(bs, i)]);
  }

  /** The stretch that becomes one block. */
  lemma Stretch(bs: seq<Block>, i: nat, w: Block -> int)
    requires i < |bs| && bs[i].used
    ensures var mid := bs[From(bs, i)..Upto(bs, i)];
            && Live(mid) == {bs[i]}
            && FreeAddrs(mid) == (if JoinsLeft(bs, i) then {bs[i - 1].addr} else {})
                                 + (if JoinsRight(bs, i) then {bs[i + 1].addr} else {})
            && Sum(mid, w) == (if JoinsLeft(bs, i) then w(bs[i - 1]) else 0) + w(bs[i])
                              + (if JoinsRight(bs, i) then w(bs[i + 1]) else 0)
  {
    var mid := bs[From(bs, i)..Upto(bs, i)];
    var l := if JoinsLeft(bs, i) then [bs[i - 1]] else [];
    var r := if JoinsRight(bs, i) then [bs[i + 1]] else [];
    assert mid == l + [bs[i]] + r;
    SumConcat(l + [bs[i]], r, w);
    SumConcat(l, [bs[i]], w);
    assert mid[|l|] == bs[i];
    assert JoinsLeft(bs, i) ==> mid[0] == bs[i - 1];
    assert JoinsRight(bs, i) ==> mid[|mid| - 1] == bs[i + 1];
  }

  lemma FreedBlocksGive(bs: seq<Block>, size: int, h: nat, i: nat)
    requires h > 0 && Layout(bs, size, h) && i + 1 < |bs| && bs[i].used
    ensures Live(FreedBlocks(bs, i)) == Live(bs) - {bs[i]}
    ensures FreeAddrs(FreedBlocks(bs, i))
            == if JoinsLeft(bs, i) then
                 FreeAddrs(bs) - (if JoinsRight(bs, i) then {bs[i + 1].addr} else {})
               else
                 FreeAddrs(bs) - (if JoinsRight(bs, i) then {bs[i + 1].addr} else {}) + {bs[i].addr}
  {
    hide Tiles, NoAdjacentFree, Aligned, Tailed, Live, FreeAddrs, Sum;
    var lo, hi, m := From(bs, i), Upto(bs, i), Merged(bs, i);
    LiveReplace(bs, 0, size, h, lo, hi, [m]);
    FreeReplace(bs, 0, size, h, lo, hi, [m]);
    Stretch(bs, i, Whole);
    Singles(m, m);
    if JoinsLeft(bs, i) {
      FreeAddrsIndex(bs, i - 1);
      Touch(bs, 0, size, h, i - 1);
      Touch(bs, 0, size, h, i);
      LenAtLeastHeader(bs, size, h, i - 1);
      LenAtLeastHeader(bs, size, h, i);
    }
  }

  /** The headers left after the left merge, then after both. */
  ghost function LeftAddrs(bs: seq<Block>, i: nat): seq<int>
    requires i < |bs|
  {
    if JoinsLeft(bs, i) then Without(Addrs(bs), i) else Addrs(bs)
  }

  ghost function BothAddrs(bs: seq<Block>, i: nat): seq<int>
    requires i < |bs|
  {
    if JoinsRight(bs, i) then Without(LeftAddrs(bs, i), From(bs, i) + 1) else LeftAddrs(bs, i)
  }

  lemma FreedAddrs(bs: seq<Block>, i: nat)
    requires i < |bs|
    ensures Addrs(FreedBlocks(bs, i)) == BothAddrs(bs, i)
  {
    hide BothAddrs, Replace;
    var s, f, u := Addrs(bs), From(bs, i), Upto(bs, i);
    AddrsReplace(bs, f, u, [Merged(bs, i)]);
    assert Addrs([Merged(bs, i)]) == [s[f]];
    BothAddrsAre(bs, i);
  }

  lemma BothAddrsAre(bs: seq<Block>, i: nat)
    requires i < |bs|
    ensures var s, f, u := Addrs(bs), From(bs, i), Upto(bs, i); BothAddrs(bs, i) == s[..f] + [s[f]] + s[u..]
  {
    hide Addrs;
    var s, f, u := Addrs(bs), From(bs, i), Upto(bs, i);
    if JoinsLeft(bs, i) {
      assert s[..f] + [s[f]] == s[..i];
    } else {
      assert s[..f] + [s[f]] == s[..i + 1];
    }
  }

  lemma FreedFlags(used: map<int, bool>, bs: seq<Block>, size: int, h: nat, i: nat)
    requires h > 0 && Flags(used, bs) && Layout(bs, size, h) && i + 1 < |bs| && bs[i].used
    ensures Flags(used[bs[i].addr := false], FreedBlocks(bs, i))
  {
    var m := Merged(bs, i);
    assert bs[From(bs, i)] in bs;
    FlagsReplace(used, used[bs[i].addr := false], bs, size, h, From(bs, i), Upto(bs, i), [m]);
  }

  /** Bytes from block i up to the next used block. */
  ghost function Span(bs: seq<Block>, i: nat): int
    requires i < |bs|
  {
    bs[i].len + if JoinsRight(bs, i) then bs[i + 1].len else 0
  }

  ghost function Cut(bs: seq<Block>, i: nat, m: int): seq<Block>
    requires i < |bs|
  {
    var x, last := bs[i].addr + m, bs[Upto(bs, i) - 1];
    [Block(bs[i].addr, m, true), Block(x, last.addr + last.len - x, false)]
  }

  /** Block i cut to m bytes, what is left going to one free block with the free block after
      it, if there is one. */
  ghost function ResizedBlocks(bs: seq<Block>, i: nat, m: int): seq<Block>
    requires i < |bs|
  {
    Replace(bs, i, Upto(bs, i), Cut(bs, i, m))
  }

  ghost predicate Resizable(bs: seq<Block>, size: int, h: nat, i: nat, m: int) {
    && Layout(bs, size, h) && i + 1 < |bs| && bs[i].used
    && m % ALIGN_SIZE == 0 && h % ALIGN_SIZE == 0 && m >= h && m + h <= Span(bs, i) && m != bs[i].len
  }

  lemma CutTiles(bs: seq<Block>, size: int, h: nat, i: nat, m: int)
    requires Resizable(bs, size, h, i, m)
    ensures var last := bs[Upto(bs, i) - 1];
            Tiles(Cut(bs, i, m), bs[i].addr, last.addr + last.len, h)
    ensures NoAdjacentFree(Cut(bs, i, m))
  {
    var x := bs[i].addr + m;
    var last := bs[Upto(bs, i) - 1];
    assert last.addr + last.len - x >= h by {
      assert bs[i].addr + bs[i].len == bs[i + 1].addr;
    }
  }

  lemma CutAligned(bs: seq<Block>, size: int, h: nat, i: nat, m: int)
    requires Resizable(bs, size, h, i, m)
    ensures Aligned(Cut(bs, i, m))
    ensures Upto(bs, i) < |bs| && bs[Upto(bs, i)].used
  {
    assert bs[i] in bs;
  }

  lemma ResizedLayout(bs: seq<Block>, size: int, h: nat, i: nat, m: int)
    requires Resizable(bs, size, h, i, m)
    ensures Layout(ResizedBlocks(bs, i, m), size, h)
  {
    CutTiles(bs, size, h, i, m);
    CutAligned(bs, size, h, i, m);
    LayoutReplace(bs, size, h, i, Upto(bs, i), Cut(bs, i, m));
  }

  lemma TailStretch(bs: seq<Block>, i: nat, w: Block -> int)
    requires i < |bs| && bs[i].used
    ensures var mid := bs[i..Upto(bs, i)];
            && Live(mid) == {bs[i]}
            && FreeAddrs(mid) == (if JoinsRight(bs, i) then {bs[i + 1].addr} else {})
            && Sum(mid, w) == w(bs[i]) + (if JoinsRight(bs, i) then w(bs[i + 1]) else 0)
  {
    var mid := bs[i..Upto(bs, i)];
    if JoinsRight(bs, i) {
      assert mid == [bs[i], bs[i + 1]];
      Singles(bs[i], bs[i + 1]);
      SumOf(bs[i], bs[i + 1], w);
    } else {
      assert mid == [bs[i]];
      Singles(bs[i], bs[i]);
      SumOf(bs[i], bs[i], w);
    }
  }

  lemma ResizedLive(bs: seq<Block>, size: int, h: nat, i: nat, m: int)
    requires h > 0 && Resizable(bs, size, h, i, m)
    ensures Live(ResizedBlocks(bs, i, m)) == Live(bs) - {bs[i]} + {bs[i].(len := m)}
  {
    var mid := Cut(bs, i, m);
    LiveReplace(bs, 0, size, h, i, Upto(bs, i), mid);
    TailStretch(bs, i, Whole);
    Singles(mid[0], mid[1]);
  }

  lemma ResizedFree(bs: seq<Block>, size: int, h: nat, i: nat, m: int)
    requires h > 0 && Resizable(bs, size, h, i, m)
    ensures FreeAddrs(ResizedBlocks(bs, i, m))
            == FreeAddrs(bs) - (if JoinsRight(bs, i) then {bs[i + 1].addr} else {}) + {bs[i].addr + m}
  {
    var mid := Cut(bs, i, m);
    FreeReplace(bs, 0, size, h, i, Upto(bs, i), mid);
    TailStretch(bs, i, Whole);
    Singles(mid[0], mid[1]);
  }

  /** The new free block's header lies where no other free block starts. */
  lemma CutAddrIsNew(bs: seq<Block>, size: int, h: nat, i: nat, m: int)
    requires h > 0 && Resizable(bs, size, h, i, m)
    ensures bs[i].addr + m !in FreeAddrs(bs) - (if JoinsRight(bs, i) then {bs[i + 1].addr} else {})
  {
    var x := bs[i].addr + m;
    forall j | 0 <= j < |bs| && !bs[j].used && bs[j].addr == x
      ensures JoinsRight(bs, i) && j == i + 1
    {
      if j < i {
        Ascending(bs, 0, size, h, j, i);
      } else if i + 1 < j {
        Ascending(bs, 0, size, h, i + 1, j);
      }
    }
  }

  /** A grown block ends inside the block after it. */
  lemma GrownAddrIsNew(bs: seq<Block>, size: int, h: nat, i: nat, m: int)
    requires h > 0 && Resizable(bs, size, h, i, m) && JoinsRight(bs, i)
    ensures bs[i].addr + m !in Without(Addrs(bs), i + 1)
  {
    var x, t := bs[i].addr + m, Without(Addrs(bs), i + 1);
    forall j | 0 <= j < |t|
      ensures t[j] != x
    {
      var k := if j < i + 1 then j else j + 1;
      assert t[j] == bs[k].addr;
      if k < i {
        Ascending(bs, 0, size, h, k, i);
      } else if i + 1 < k {
        Ascending(bs, 0, size, h, i + 1, k);
      }
    }
  }

  lemma ResizedAddrs(bs: seq<Block>, i: nat, m: int, x: int)
    requires i < |bs| && x == bs[i].addr + m
    ensures Addrs(ResizedBlocks(bs, i, m))
            == Inserted(if JoinsRight(bs, i) then Without(Addrs(bs), i + 1) else Addrs(bs), i + 1, x)
    ensures JoinsRight(bs, i) ==>
              Addrs(ResizedBlocks(bs, i, m)) == Without(Inserted(Addrs(bs), i + 1, x), i + 2)
  {
    var s := Addrs(bs);
    AddrsReplace(bs, i, Upto(bs, i), Cut(bs, i, m));
    assert Addrs(Cut(bs, i, m)) == [s[i], x];
  }

  lemma ResizedFlags(used: map<int, bool>, bs: seq<Block>, size: int, h: nat, i: nat, m: int)
    requires h > 0 && Flags(used, bs) && Resizable(bs, size, h, i, m)
    ensures Flags(used[bs[i].addr + m := false], ResizedBlocks(bs, i, m))
  {
    var x := bs[i].addr + m;
    assert bs[i] in bs;
    Touch(bs, 0, size, h, i);
    FlagsReplace(used, used[x := false], bs, size, h, i, Upto(bs, i), Cut(bs, i, m));
  }

  // ----- How small a block can be -----

  /** Every block but the last has at least m bytes. */
  ghost predicate AtLeast(bs: seq<Block>, m: int) {
    forall i :: 0 <= i < |bs| - 1 ==> bs[i].len >= m
  }

  lemma AtLeastReplace(bs: seq<Block>, lo: nat, hi: nat, mid: seq<Block>, m: int)
    requires AtLeast(bs, m) && lo <= hi < |bs| && forall i :: 0 <= i < |mid| ==> mid[i].len >= m
    ensures AtLeast(Replace(bs, lo, hi, mid), m)
  {
    var r := Replace(bs, lo, hi, mid);
    forall i | 0 <= i < |r| - 1
      ensures r[i].len >= m
    {
      if i < lo {
        assert r[i] == bs[i];
      } else if i < lo + |mid| {
        assert r[i] == mid[i - lo];
      } else {
        assert r[i] == bs[i - lo - |mid| + hi];
      }
    }
  }

  lemma FreedAtLeast(bs: seq<Block>, size: int, h: nat, i: nat, m: int)
    requires Layout(bs, size, h) && i + 1 < |bs| && bs[i].used && AtLeast(bs, m) && m >= 0
    ensures AtLeast(FreedBlocks(bs, i), m)
  {
    hide NoAdjacentFree, Aligned;
    MergedLen(bs, size, h, i);
    assert Upto(bs, i) < |bs|;
    AtLeastReplace(bs, From(bs, i), Upto(bs, i), [Merged(bs, i)], m);
  }

  /** A merged block has the bytes of all its parts. */
  lemma MergedLen(bs: seq<Block>, size: int, h: nat, i: nat)
    requires Layout(bs, size, h) && i + 1 < |bs| && bs[i].used
    ensures Upto(bs, i) < |bs|
    ensures Merged(bs, i).len == Span(bs, i) + if JoinsLeft(bs, i) then bs[i - 1].len else 0
    ensures forall j :: 0 <= j < |bs| ==> bs[j].len >= h
  {
    hide NoAdjacentFree, Aligned;
    forall j | 0 <= j < |bs|
      ensures bs[j].len >= h
    {
      LenAtLeastHeader(bs, size, h, j);
    }
  }

  lemma ResizedAtLeast(bs: seq<Block>, size: int, h: nat, i: nat, k: int, m: int)
    requires Resizable(bs, size, h, i, k) && AtLeast(bs, m)
    requires Span(bs, i) - k >= m
    ensures AtLeast(ResizedBlocks(bs, i, k), m) <==> k >= m
  {
    hide NoAdjacentFree, Aligned;
    MergedLen(bs, size, h, i);
    if k >= m {
      AtLeastReplace(bs, i, Upto(bs, i), Cut(bs, i, k), m);
    } else {
      assert ResizedBlocks(bs, i, k)[i].len == k;
    }
  }
}
