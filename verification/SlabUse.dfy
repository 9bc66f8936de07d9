/** slab.c: used_mem is the total length of the live allocations. */
module SlabUse {
  import opened Pages
  import opened SlabSpec

  ghost function Pick(lens: map<Alloc, nat>): (x: Alloc)
    requires lens != map[]
    ensures x in lens
  {
    var x :| x in lens;
    x
  }

  ghost function Total(lens: map<Alloc, nat>): nat
    decreases |lens|
  {
    if lens == map[] then 0
    else
      Less(lens, Pick(lens));
      lens[Pick(lens)] + Total(lens - {Pick(lens)})
  }

  lemma Less(lens: map<Alloc, nat>, x: Alloc)
    requires x in lens
    ensures |lens - {x}| < |lens|
  {
    assert lens.Keys == (lens - {x}).Keys + {x};
  }

  lemma {:induction false} TotalDrop(lens: map<Alloc, nat>, x: Alloc)
    requires x in lens
    ensures Total(lens) == lens[x] + Total(lens - {x})
    decreases |lens|
  {
    var y := Pick(lens);
    if y != x {
      Less(lens, x);
      Less(lens, y);
      TotalDrop(lens - {y}, x);
      TotalDrop(lens - {x}, y);
      assert lens - {y} - {x} == lens - {x} - {y};
    }
  }

  lemma TotalPut(lens: map<Alloc, nat>, x: Alloc, n: nat)
    requires x !in lens
    ensures Total(lens[x := n]) == Total(lens) + n
  {
    TotalDrop(lens[x := n], x);
    assert lens[x := n] - {x} == lens;
  }

  /** lens lists the live allocations with their lengths, and used_mem is the sum. */
  ghost predicate Books(s: Slab, lens: map<Alloc, nat>) {
    && (forall x :: x in lens <==> Live(s, x))
    && (forall x :: x in lens ==> lens[x] == Len(s, x))
    && s.used == Total(lens)
  }

  ghost predicate Balanced(s: Slab) {
    exists lens :: Books(s, lens)
  }

  lemma BootedBalanced(n: nat)
    ensures Balanced(Booted(n))
  {
    assert Books(Booted(n), map[]);
  }

  lemma MallocBalanced(c: Config, s: Slab, n: nat)
    requires SlabOk(c, s) && Balanced(s)
    ensures Balanced(Malloc(c, s, n).0)
  {
    hide SlabOk, Malloc, Live, Len, Ptr;
    var lens :| Books(s, lens);
    var r := Malloc(c, s, n);
    MallocGives(c, s, n, None);
    UsedExact(c, s, n, None);
    if r.1 != None {
      var lens' := lens[r.1 := Len(r.0, r.1)];
      TotalPut(lens, r.1, Len(r.0, r.1));
      forall x
        ensures x in lens' <==> Live(r.0, x)
        ensures x in lens' ==> lens'[x] == Len(r.0, x)
      {
        MallocGives(c, s, n, x);
        NoneDead(s);
      }
      assert Books(r.0, lens');
    }
  }

  lemma NoneDead(s: Slab)
    ensures !Live(s, None)
  {
  }

  lemma FreeBalanced(c: Config, s: Slab, x: Alloc)
    requires SlabOk(c, s) && (x != None ==> Live(s, x)) && Balanced(s)
    ensures Balanced(Free(c, s, x))
  {
    hide SlabOk, Malloc, Live, Len, Ptr;
    var lens :| Books(s, lens);
    FreeNone(c, s, x);
    if x != None {
      UsedExact(c, s, 0, x);
      TotalDrop(lens, x);
      var lens' := lens - {x};
      forall y
        ensures y in lens' <==> Live(Free(c, s, x), y)
        ensures y in lens' ==> lens'[y] == Len(Free(c, s, x), y)
      {
        FreeTakes(c, s, x, y);
      }
      assert Books(Free(c, s, x), lens');
    }
  }

  lemma FreeNone(c: Config, s: Slab, x: Alloc)
    requires SlabOk(c, s) && (x != None ==> Live(s, x))
    ensures x == None ==> Free(c, s, x) == s
  {
  }

  lemma MovedBalanced(c: Config, s: Slab, x: Alloc, n: nat)
    requires SlabOk(c, s) && Live(s, x) && Balanced(s)
    ensures Balanced(Moved(c, s, x, n).0)
  {
    hide SlabOk, Malloc, Free, Live, Balanced;
    MallocKeeps(c, s, n);
    MallocGives(c, s, n, x);
    MallocBalanced(c, s, n);
    var r := Malloc(c, s, n);
    if r.1 != None {
      FreeBalanced(c, r.0, x);
    }
  }

  lemma CalledBalanced(c: Config, s: Slab, o: Call)
    requires SlabOk(c, s) && CallOk(s, o) && Balanced(s)
    ensures Balanced(Called(c, s, o))
  {
    hide SlabOk, Malloc, Free, Live, Balanced, Moved, ZoneIndex;
    match o
    case DoMalloc(n) => MallocBalanced(c, s, n);
    case DoFree(x) => FreeBalanced(c, s, x);
    case DoRealloc(x, n) =>
      if x == None {
        MallocBalanced(c, s, n);
      } else if n == 0 {
        FreeBalanced(c, s, x);
      } else {
        MovedBalanced(c, s, x, n);
        MovedBalanced(c, s, x, ZoneIndex(n).1);
      }
  }

  /** Over every run of malloc, free and realloc used_mem is the total length of the live allocations. */
  lemma {:induction false} RunBalanced(c: Config, s: Slab, os: seq<Call>)
    requires SlabOk(c, s) && RunOk(c, s, os) && Balanced(s)
    ensures Balanced(RunOf(c, s, os))
    decreases |os|
  {
    hide SlabOk, Called, Balanced;
    if os != [] {
      CalledKept(c, s, os[0]);
      CalledBalanced(c, s, os[0]);
      RunBalanced(c, Called(c, s, os[0]), os[1..]);
    }
  }
}
