/** A heap as the sequence of blocks that tile it.

  Both pointer heaps (memheap.c and mem.c) are chains of headers cutting one address range into
  used and free blocks.  The sequence of those blocks is the abstract state of either heap; what the
  operations do to it is always one of three steps: cut a block in two, flip its used flag, or join
  it with the free block after it.
 */
module Blocks {
  import opened RtList

  /** A block occupies [addr, addr + len), header included. */
  datatype Block = Block(addr: int, len: int, used: bool)

  ghost predicate Tiles(bs: seq<Block>, lo: int, hi: int, minLen: nat) {
    && |bs| > 0
    && bs[0].addr == lo
    && (forall i :: 0 <= i < |bs| ==> bs[i].len >= minLen)
    && (forall i :: 0 <= i < |bs| - 1 ==> bs[i].addr + bs[i].len == bs[i + 1].addr)
    && bs[|bs| - 1].addr + bs[|bs| - 1].len == hi
  }

  ghost predicate NoAdjacentFree(bs: seq<Block>) {
    forall i :: 0 <= i < |bs| - 1 ==> bs[i].used || bs[i + 1].used
  }

  function Addrs(bs: seq<Block>): (s: seq<int>)
    ensures |s| == |bs|
    ensures forall i :: 0 <= i < |bs| ==> s[i] == bs[i].addr
  {
    seq(|bs|, i requires 0 <= i < |bs| => bs[i].addr)
  }

  function Replace(bs: seq<Block>, i: nat, j: nat, mid: seq<Block>): seq<Block>
    requires i <= j <= |bs|
  {
    bs[..i] + mid + bs[j..]
  }

  ghost function Live(bs: seq<Block>): set<Block> {
    set b | b in bs && b.used
  }

  ghost function FreeAddrs(bs: seq<Block>): set<int> {
    set i | 0 <= i < |bs| && !bs[i].used :: bs[i].addr
  }

  ghost function Sum(bs: seq<Block>, w: Block -> int): int {
    if bs == [] then 0 else w(bs[0]) + Sum(bs[1..], w)
  }

  lemma {:induction false} Ascending(bs: seq<Block>, lo: int, hi: int, minLen: nat, i: nat, j: nat)
    requires Tiles(bs, lo, hi, minLen) && i < j < |bs|
    ensures bs[i].addr + bs[i].len <= bs[j].addr
    decreases j - i
  {
    if i + 1 < j {
      Ascending(bs, lo, hi, minLen, i + 1, j);
    }
  }

  lemma AddrsDistinct(bs: seq<Block>, lo: int, hi: int, minLen: nat)
    requires Tiles(bs, lo, hi, minLen) && minLen > 0
    ensures Distinct(Addrs(bs))
  {
    forall i, j | 0 <= i < j < |bs|
      ensures Addrs(bs)[i] != Addrs(bs)[j]
    {
      Ascending(bs, lo, hi, minLen, i, j);
    }
  }

  /** No two blocks of a tiling overlap, and all lie inside the range. */
  lemma BlocksDisjoint(bs: seq<Block>, lo: int, hi: int, minLen: nat, b: Block, c: Block)
    requires Tiles(bs, lo, hi, minLen) && b in bs && c in bs && b != c
    ensures b.addr + b.len <= c.addr || c.addr + c.len <= b.addr
    ensures lo <= b.addr && b.addr + b.len <= hi
  {
    var i :| 0 <= i < |bs| && bs[i] == b;
    var j :| 0 <= j < |bs| && bs[j] == c;
    if i < j {
      Ascending(bs, lo, hi, minLen, i, j);
    } else {
      Ascending(bs, lo, hi, minLen, j, i);
    }
    if i > 0 {
      Ascending(bs, lo, hi, minLen, 0, i);
    }
    if i < |bs| - 1 {
      Ascending(bs, lo, hi, minLen, i, |bs| - 1);
    }
  }

  /** The used blocks fix everything: with no two free blocks side by side, the free blocks are the
      gaps between used ones. */
  lemma {:induction false} LayoutFromLive(bs: seq<Block>, cs: seq<Block>, lo: int, hi: int, minLen: nat)
    requires Tiles(bs, lo, hi, minLen) && Tiles(cs, lo, hi, minLen) && minLen > 0
    requires NoAdjacentFree(bs) && NoAdjacentFree(cs)
    requires Live(bs) == Live(cs)
    ensures bs == cs
    decreases |bs|
  {
    FirstBlocksAgree(bs, cs, lo, hi, minLen);
    OnlyBlock(bs, lo, hi, minLen);
    OnlyBlock(cs, lo, hi, minLen);
    if |bs| > 1 {
      LiveTail(bs, lo, hi, minLen);
      LiveTail(cs, lo, hi, minLen);
      TilesTail(bs, lo, hi, minLen);
      TilesTail(cs, lo, hi, minLen);
      LayoutFromLive(bs[1..], cs[1..], lo + bs[0].len, hi, minLen);
      assert bs == [bs[0]] + bs[1..];
      assert cs == [cs[0]] + cs[1..];
    }
  }

  lemma OnlyBlock(bs: seq<Block>, lo: int, hi: int, minLen: nat)
    requires Tiles(bs, lo, hi, minLen) && minLen > 0
    ensures |bs| == 1 <==> bs[0].len == hi - lo
  {
    if |bs| > 1 {
      Ascending(bs, lo, hi, minLen, 0, |bs| - 1);
    }
  }

  lemma TilesTail(bs: seq<Block>, lo: int, hi: int, minLen: nat)
    requires Tiles(bs, lo, hi, minLen) && |bs| > 1
    ensures Tiles(bs[1..], lo + bs[0].len, hi, minLen)
    ensures NoAdjacentFree(bs) ==> NoAdjacentFree(bs[1..])
  {
    var cs := bs[1..];
    assert forall i :: 0 <= i < |cs| ==> cs[i] == bs[i + 1];
  }

  lemma LiveTail(bs: seq<Block>, lo: int, hi: int, minLen: nat)
    requires Tiles(bs, lo, hi, minLen) && minLen > 0
    ensures Live(bs[1..]) == Live(bs) - {bs[0]}
  {
    forall i | 0 < i < |bs|
      ensures bs[i] != bs[0]
    {
      Ascending(bs, lo, hi, minLen, 0, i);
    }
    assert forall b :: b in bs <==> b == bs[0] || b in bs[1..];
  }

  lemma FirstBlocksAgree(bs: seq<Block>, cs: seq<Block>, lo: int, hi: int, minLen: nat)
    requires Tiles(bs, lo, hi, minLen) && Tiles(cs, lo, hi, minLen) && minLen > 0
    requires NoAdjacentFree(bs) && NoAdjacentFree(cs)
    requires Live(bs) == Live(cs)
    ensures bs[0] == cs[0]
  {
    if bs[0].used {
      assert bs[0] in Live(cs);
      FirstIsAt(cs, lo, hi, minLen, bs[0]);
    } else if cs[0].used {
      assert cs[0] in Live(bs);
      FirstIsAt(bs, lo, hi, minLen, cs[0]);
    } else {
      FirstGap(bs, cs, lo, hi, minLen);
      FirstGap(cs, bs, lo, hi, minLen);
    }
  }

  lemma FirstIsAt(bs: seq<Block>, lo: int, hi: int, minLen: nat, b: Block)
    requires Tiles(bs, lo, hi, minLen) && minLen > 0 && b in bs && b.addr == lo
    ensures b == bs[0]
  {
    var i :| 0 <= i < |bs| && bs[i] == b;
    if i > 0 {
      Ascending(bs, lo, hi, minLen, 0, i);
    }
  }

  /** A leading gap is no shorter than another layout's leading gap with the same used blocks. */
  lemma FirstGap(bs: seq<Block>, cs: seq<Block>, lo: int, hi: int, minLen: nat)
    requires Tiles(bs, lo, hi, minLen) && Tiles(cs, lo, hi, minLen) && minLen > 0
    requires NoAdjacentFree(bs) && !bs[0].used && !cs[0].used
    requires Live(bs) == Live(cs)
    ensures bs[0].len >= cs[0].len
  {
    if |bs| == 1 {
      if |cs| > 1 {
        Ascending(cs, lo, hi, minLen, 0, |cs| - 1);
      }
    } else {
      assert bs[1].used && bs[1] in Live(cs);
      var i :| 0 <= i < |cs| && cs[i] == bs[1];
      Ascending(cs, lo, hi, minLen, 0, i);
    }
  }

  lemma {:induction false} SumConcat(a: seq<Block>, b: seq<Block>, w: Block -> int)
    ensures Sum(a + b, w) == Sum(a, w) + Sum(b, w)
  {
    if a == [] {
      assert a + b == b;
    } else {
      SumConcat(a[1..], b, w);
      assert (a + b)[1..] == a[1..] + b;
    }
  }

  lemma SumReplace(bs: seq<Block>, i: nat, j: nat, mid: seq<Block>, w: Block -> int)
    requires i <= j <= |bs|
    ensures Sum(Replace(bs, i, j, mid), w) == Sum(bs, w) - Sum(bs[i..j], w) + Sum(mid, w)
  {
    SumConcat(bs[..i] + mid, bs[j..], w);
    SumConcat(bs[..i], mid, w);
    SumConcat(bs[..i] + bs[i..j], bs[j..], w);
    SumConcat(bs[..i], bs[i..j], w);
    assert bs == bs[..i] + bs[i..j] + bs[j..];
  }

  lemma SumOf(b: Block, c: Block, w: Block -> int)
    ensures Sum([b], w) == w(b)
    ensures Sum([b, c], w) == w(b) + w(c)
  {
    SumConcat([b], [c], w);
    assert [b, c] == [b] + [c];
  }

  lemma TilesReplace(bs: seq<Block>, lo: int, hi: int, minLen: nat, i: nat, j: nat, mid: seq<Block>)
    requires Tiles(bs, lo, hi, minLen) && i < j <= |bs|
    requires Tiles(mid, bs[i].addr, bs[j - 1].addr + bs[j - 1].len, minLen)
    ensures Tiles(Replace(bs, i, j, mid), lo, hi, minLen)
  {
    var cs := Replace(bs, i, j, mid);
    assert |cs| == i + |mid| + (|bs| - j);
    forall k | 0 <= k < |cs| - 1
      ensures cs[k].addr + cs[k].len == cs[k + 1].addr
    {
      if k < i {
        assert cs[k] == bs[k];
        assert bs[k].addr + bs[k].len == bs[k + 1].addr;
      } else if k < i + |mid| {
        assert cs[k] == mid[k - i];
      } else {
        var l := k - i - |mid| + j;
        assert cs[k] == bs[l] && cs[k + 1] == bs[l + 1];
      }
    }
  }

  lemma NoAdjacentFreeReplace(bs: seq<Block>, i: nat, j: nat, mid: seq<Block>)
    requires NoAdjacentFree(bs) && i <= j <= |bs|
    requires NoAdjacentFree(mid) && |mid| > 0
    requires i == 0 || bs[i - 1].used || mid[0].used
    requires j == |bs| || mid[|mid| - 1].used || bs[j].used
    ensures NoAdjacentFree(Replace(bs, i, j, mid))
  {
    var cs := Replace(bs, i, j, mid);
    forall k | 0 <= k < |cs| - 1
      ensures cs[k].used || cs[k + 1].used
    {
      if k + 1 < i {
        assert cs[k] == bs[k] && cs[k + 1] == bs[k + 1];
      } else if i + |mid| <= k {
        var l := k - i - |mid| + j;
        assert cs[k] == bs[l] && cs[k + 1] == bs[l + 1];
      }
    }
  }

  lemma SliceMember(bs: seq<Block>, lo: int, hi: int, minLen: nat, i: nat, j: nat, b: Block, c: Block)
    requires Tiles(bs, lo, hi, minLen) && minLen > 0 && i <= j <= |bs|
    requires b in bs[..i] || b in bs[j..]
    requires c in bs[i..j]
    ensures b.addr != c.addr
  {
    var l :| 0 <= l < j - i && bs[i..j][l] == c;
    if b in bs[..i] {
      var k :| 0 <= k < i && bs[..i][k] == b;
      Ascending(bs, lo, hi, minLen, k, i + l);
    } else {
      var k :| 0 <= k < |bs| - j && bs[j..][k] == b;
      Ascending(bs, lo, hi, minLen, i + l, j + k);
    }
  }

  /** A block before or after a stretch starts outside it. */
  lemma StartsOutside(bs: seq<Block>, lo: int, hi: int, minLen: nat, i: nat, j: nat, b: Block)
    requires Tiles(bs, lo, hi, minLen) && minLen > 0 && i < j <= |bs|
    requires b in bs[..i] || b in bs[j..]
    ensures !(bs[i].addr <= b.addr < bs[j - 1].addr + bs[j - 1].len)
  {
    if b in bs[..i] {
      var k :| 0 <= k < i && bs[..i][k] == b;
      Ascending(bs, lo, hi, minLen, k, i);
    } else {
      var k :| 0 <= k < |bs| - j && bs[j..][k] == b;
      Ascending(bs, lo, hi, minLen, j - 1, j + k);
    }
  }

  lemma AddrsReplace(bs: seq<Block>, i: nat, j: nat, mid: seq<Block>)
    requires i <= j <= |bs|
    ensures Addrs(Replace(bs, i, j, mid)) == Addrs(bs)[..i] + Addrs(mid) + Addrs(bs)[j..]
  {
  }

  /** Neighbours in a tiling touch. */
  lemma Touch(bs: seq<Block>, lo: int, hi: int, minLen: nat, i: nat)
    requires Tiles(bs, lo, hi, minLen) && i + 1 < |bs|
    ensures bs[i].addr + bs[i].len == bs[i + 1].addr
  {
  }

  lemma InReplace(bs: seq<Block>, i: nat, j: nat, mid: seq<Block>, b: Block)
    requires i <= j <= |bs|
    ensures b in Replace(bs, i, j, mid) <==> b in bs[..i] || b in mid || b in bs[j..]
    ensures b in bs <==> b in bs[..i] || b in bs[i..j] || b in bs[j..]
  {
    assert bs == bs[..i] + bs[i..j] + bs[j..];
  }

  ghost predicate FreeAt(bs: seq<Block>, b: Block, a: int) {
    b in bs && !b.used && b.addr == a
  }

  lemma FreeAddrsMember(bs: seq<Block>, a: int)
    ensures a in FreeAddrs(bs) <==> exists b :: FreeAt(bs, b, a)
  {
    if a in FreeAddrs(bs) {
      var i :| 0 <= i < |bs| && !bs[i].used && bs[i].addr == a;
      assert FreeAt(bs, bs[i], a);
    }
    if b :| FreeAt(bs, b, a) {
      var i :| 0 <= i < |bs| && bs[i] == b;
    }
  }

  /** Only the replaced stretch changes who is live. */
  lemma LiveReplace(bs: seq<Block>, lo: int, hi: int, minLen: nat, i: nat, j: nat, mid: seq<Block>)
    requires Tiles(bs, lo, hi, minLen) && minLen > 0 && i <= j <= |bs|
    ensures Live(Replace(bs, i, j, mid)) == Live(bs) - Live(bs[i..j]) + Live(mid)
  {
    var cs := Replace(bs, i, j, mid);
    forall b
      ensures b in Live(cs) <==> b in Live(bs) - Live(bs[i..j]) + Live(mid)
    {
      InReplace(bs, i, j, mid, b);
      if (b in bs[..i] || b in bs[j..]) && b in bs[i..j] {
        SliceMember(bs, lo, hi, minLen, i, j, b, b);
      }
    }
  }

  lemma FreeReplace(bs: seq<Block>, lo: int, hi: int, minLen: nat, i: nat, j: nat, mid: seq<Block>)
    requires Tiles(bs, lo, hi, minLen) && minLen > 0 && i <= j <= |bs|
    ensures FreeAddrs(Replace(bs, i, j, mid)) == FreeAddrs(bs) - FreeAddrs(bs[i..j]) + FreeAddrs(mid)
  {
    var cs := Replace(bs, i, j, mid);
    forall a
      ensures a in FreeAddrs(cs) <==> a in FreeAddrs(bs) - FreeAddrs(bs[i..j]) + FreeAddrs(mid)
    {
      FreeAddrsMember(cs, a);
      FreeAddrsMember(bs, a);
      FreeAddrsMember(bs[i..j], a);
      FreeAddrsMember(mid, a);
      FreeReplaceAt(bs, lo, hi, minLen, i, j, mid, a);
    }
  }

  lemma FreeReplaceAt(bs: seq<Block>, lo: int, hi: int, minLen: nat, i: nat, j: nat, mid: seq<Block>, a: int)
    requires Tiles(bs, lo, hi, minLen) && minLen > 0 && i <= j <= |bs|
    ensures (exists b :: FreeAt(Replace(bs, i, j, mid), b, a)) <==>
            (exists b :: FreeAt(mid, b, a)) || ((exists b :: FreeAt(bs, b, a)) && !exists b :: FreeAt(bs[i..j], b, a))
  {
    var cs := Replace(bs, i, j, mid);
    if b :| FreeAt(cs, b, a) {
      InReplace(bs, i, j, mid, b);
      if b in mid {
        assert FreeAt(mid, b, a);
      } else {
        assert FreeAt(bs, b, a);
        if c :| FreeAt(bs[i..j], c, a) {
          SliceMember(bs, lo, hi, minLen, i, j, b, c);
        }
      }
    }
    if b :| FreeAt(mid, b, a) {
      InReplace(bs, i, j, mid, b);
      assert FreeAt(cs, b, a);
    }
    if b :| FreeAt(bs, b, a) && !exists c :: FreeAt(bs[i..j], c, a) {
      InReplace(bs, i, j, mid, b);
      if b in bs[i..j] {
        assert FreeAt(bs[i..j], b, a);
      }
      assert FreeAt(cs, b, a);
    }
  }

  // ----- The three steps -----

  /** Cut block i: its first n bytes get the given flag and the rest is free. */
  function Split(bs: seq<Block>, i: nat, n: int, used: bool): seq<Block>
    requires i < |bs|
  {
    Replace(bs, i, i + 1, [Block(bs[i].addr, n, used), Block(bs[i].addr + n, bs[i].len - n, false)])
  }

  function Marked(bs: seq<Block>, i: nat, used: bool): seq<Block>
    requires i < |bs|
  {
    Replace(bs, i, i + 1, [bs[i].(used := used)])
  }

  ghost function If<T>(c: bool, x: T): set<T> {
    if c then {x} else {}
  }

  lemma Singles(b: Block, c: Block)
    ensures Live([b]) == If(b.used, b) && FreeAddrs([b]) == If(!b.used, b.addr)
    ensures Live([b, c]) == If(b.used, b) + If(c.used, c)
    ensures FreeAddrs([b, c]) == If(!b.used, b.addr) + If(!c.used, c.addr)
  {
    assert [b][0] == b;
    assert [b, c][0] == b && [b, c][1] == c;
  }

  /** Replacing the single block i. */
  lemma ReplaceOne(bs: seq<Block>, lo: int, hi: int, minLen: nat, i: nat, mid: seq<Block>, w: Block -> int)
    requires Tiles(bs, lo, hi, minLen) && minLen > 0 && i < |bs|
    requires Tiles(mid, bs[i].addr, bs[i].addr + bs[i].len, minLen)
    ensures Tiles(Replace(bs, i, i + 1, mid), lo, hi, minLen)
    ensures Live(Replace(bs, i, i + 1, mid)) == Live(bs) - If(bs[i].used, bs[i]) + Live(mid)
    ensures FreeAddrs(Replace(bs, i, i + 1, mid)) == FreeAddrs(bs) - If(!bs[i].used, bs[i].addr) + FreeAddrs(mid)
    ensures Sum(Replace(bs, i, i + 1, mid), w) == Sum(bs, w) - w(bs[i]) + Sum(mid, w)
  {
    assert bs[i..i + 1] == [bs[i]];
    TilesReplace(bs, lo, hi, minLen, i, i + 1, mid);
    LiveReplace(bs, lo, hi, minLen, i, i + 1, mid);
    FreeReplace(bs, lo, hi, minLen, i, i + 1, mid);
    SumReplace(bs, i, i + 1, mid, w);
    Singles(bs[i], bs[i]);
    SumOf(bs[i], bs[i], w);
  }

  lemma CutIsFresh(bs: seq<Block>, lo: int, hi: int, minLen: nat, i: nat, n: int)
    requires Tiles(bs, lo, hi, minLen) && minLen > 0 && i < |bs|
    requires 0 < n < bs[i].len
    ensures bs[i].addr + n !in Addrs(bs)
  {
    forall j | 0 <= j < |bs|
      ensures bs[j].addr != bs[i].addr + n
    {
      if j < i {
        Ascending(bs, lo, hi, minLen, j, i);
      } else if i < j {
        Ascending(bs, lo, hi, minLen, i, j);
      }
    }
  }

  /** A free block's address is a free address. */
  lemma FreeAddrsIndex(bs: seq<Block>, i: nat)
    requires i < |bs|
    ensures !bs[i].used ==> bs[i].addr in FreeAddrs(bs)
  {
  }

  lemma SplitSum(bs: seq<Block>, lo: int, hi: int, minLen: nat, i: nat, n: int, used: bool, w: Block -> int)
    requires Tiles(bs, lo, hi, minLen) && minLen > 0 && i < |bs|
    requires minLen <= n && minLen <= bs[i].len - n
    ensures Tiles(Split(bs, i, n, used), lo, hi, minLen)
    ensures Sum(Split(bs, i, n, used), w)
            == Sum(bs, w) - w(bs[i]) + w(Block(bs[i].addr, n, used)) + w(Block(bs[i].addr + n, bs[i].len - n, false))
  {
    var mid := [Block(bs[i].addr, n, used), Block(bs[i].addr + n, bs[i].len - n, false)];
    ReplaceOne(bs, lo, hi, minLen, i, mid, w);
    SumOf(mid[0], mid[1], w);
  }

  lemma SplitLive(bs: seq<Block>, lo: int, hi: int, minLen: nat, i: nat, n: int, used: bool, w: Block -> int)
    requires Tiles(bs, lo, hi, minLen) && minLen > 0 && i < |bs|
    requires minLen <= n && minLen <= bs[i].len - n
    ensures Live(Split(bs, i, n, used)) == Live(bs) - If(bs[i].used, bs[i]) + If(used, Block(bs[i].addr, n, used))
  {
    var mid := [Block(bs[i].addr, n, used), Block(bs[i].addr + n, bs[i].len - n, false)];
    ReplaceOne(bs, lo, hi, minLen, i, mid, w);
    Singles(mid[0], mid[1]);
  }

  lemma SplitFree(bs: seq<Block>, lo: int, hi: int, minLen: nat, i: nat, n: int, used: bool, w: Block -> int)
    requires Tiles(bs, lo, hi, minLen) && minLen > 0 && i < |bs|
    requires minLen <= n && minLen <= bs[i].len - n
    ensures FreeAddrs(Split(bs, i, n, used)) == FreeAddrs(bs) - If(!bs[i].used, bs[i].addr) + If(!used, bs[i].addr)
            + {bs[i].addr + n}
  {
    hide Live, Sum, FreeAddrs, Tiles;
    var mid := [Block(bs[i].addr, n, used), Block(bs[i].addr + n, bs[i].len - n, false)];
    ReplaceOne(bs, lo, hi, minLen, i, mid, w);
    Singles(mid[0], mid[1]);
  }

  lemma MarkedSum(bs: seq<Block>, lo: int, hi: int, minLen: nat, i: nat, used: bool, w: Block -> int)
    requires Tiles(bs, lo, hi, minLen) && minLen > 0 && i < |bs|
    requires bs[i].used != used
    ensures Tiles(Marked(bs, i, used), lo, hi, minLen)
    ensures Sum(Marked(bs, i, used), w) == Sum(bs, w) - w(bs[i]) + w(bs[i].(used := used))
  {
    var mid := [bs[i].(used := used)];
    ReplaceOne(bs, lo, hi, minLen, i, mid, w);
    SumOf(mid[0], mid[0], w);
  }

  lemma MarkedLive(bs: seq<Block>, lo: int, hi: int, minLen: nat, i: nat, used: bool, w: Block -> int)
    requires Tiles(bs, lo, hi, minLen) && minLen > 0 && i < |bs|
    requires bs[i].used != used
    ensures Live(Marked(bs, i, used)) == if used then Live(bs) + {bs[i].(used := true)} else Live(bs) - {bs[i]}
  {
    var mid := [bs[i].(used := used)];
    ReplaceOne(bs, lo, hi, minLen, i, mid, w);
    Singles(mid[0], mid[0]);
  }

  lemma MarkedFree(bs: seq<Block>, lo: int, hi: int, minLen: nat, i: nat, used: bool, w: Block -> int)
    requires Tiles(bs, lo, hi, minLen) && minLen > 0 && i < |bs|
    requires bs[i].used != used
    ensures FreeAddrs(Marked(bs, i, used)) == if used then FreeAddrs(bs) - {bs[i].addr}
            else FreeAddrs(bs) + {bs[i].addr}
  {
    var mid := [bs[i].(used := used)];
    ReplaceOne(bs, lo, hi, minLen, i, mid, w);
    Singles(mid[0], mid[0]);
  }

  /** The position of the block whose header is at a. */
  ghost function IndexAt(bs: seq<Block>, a: int): (i: nat)
    requires a in Addrs(bs)
    ensures i < |bs| && bs[i].addr == a
  {
    var i: nat :| i < |bs| && Addrs(bs)[i] == a;
    i
  }

  lemma IndexUnique(bs: seq<Block>, lo: int, hi: int, minLen: nat, i: nat)
    requires Tiles(bs, lo, hi, minLen) && minLen > 0 && i < |bs|
    ensures bs[i].addr in Addrs(bs) && IndexAt(bs, bs[i].addr) == i
  {
    assert Addrs(bs)[i] in Addrs(bs);
    AddrsDistinct(bs, lo, hi, minLen);
    var j := IndexAt(bs, bs[i].addr);
    assert Addrs(bs)[j] == Addrs(bs)[i];
  }
}
