/** scheduler.c, thread.c and the wait-list part of ipc.c on links and bitmaps. */
module Scheduler {
  import opened RtList
  import opened Threads
  import opened Bits
  import opened SchedSpec

  // ----- The ready bitmaps -----

  ghost predicate HasReady(P: nat, lists: seq<seq<int>>, p: nat) {
    p < P && p < |lists| && lists[p] != []
  }

  /** One level: bit p of the group says whether priority p has a ready thread. */
  ghost predicate Narrow(P: nat, group: bv32, lists: seq<seq<int>>) {
    forall p: nat :: p < 32 ==> (Bit(group, p) <==> HasReady(P, lists, p))
  }

  /** Two levels: bit p % 8 of byte p / 8 says so, and a group bit says whether its byte is not 0. */
  ghost predicate Wide(P: nat, group: bv32, table: seq<bv32>, lists: seq<seq<int>>) {
    && |table| == 32
    && (forall n: nat :: n < 32 ==> (Bit(group, n) <==> table[n] != 0))
    && (forall n: nat :: n < 32 ==> And(table[n], 0xff) == table[n])
    && (forall p: nat :: p < 256 ==> (Bit(table[p / 8], p % 8) <==> HasReady(P, lists, p)))
  }

  ghost predicate Bitmap(P: nat, group: bv32, table: seq<bv32>, lists: seq<seq<int>>) {
    if P > 32 then Wide(P, group, table, lists) else Narrow(P, group, lists)
  }

  ghost predicate Readies(P: nat, lists: seq<seq<int>>, lists': seq<seq<int>>, p: nat) {
    forall q: nat :: q < 256 ==> (HasReady(P, lists', q) <==> HasReady(P, lists, q) || q == p)
  }

  ghost predicate Unreadies(P: nat, lists: seq<seq<int>>, lists': seq<seq<int>>, p: nat) {
    forall q: nat :: q < 256 ==> (HasReady(P, lists', q) <==> HasReady(P, lists, q) && q != p)
  }

  ghost predicate SameReady(P: nat, lists: seq<seq<int>>, lists': seq<seq<int>>) {
    forall q: nat :: q < 256 ==> (HasReady(P, lists', q) <==> HasReady(P, lists, q))
  }

  lemma BitmapFrame(P: nat, group: bv32, table: seq<bv32>, lists: seq<seq<int>>, lists': seq<seq<int>>)
    requires Bitmap(P, group, table, lists) && SameReady(P, lists, lists')
    ensures Bitmap(P, group, table, lists')
  {
    hide Bit, And, HasReady;
  }

  lemma NarrowSet(P: nat, group: bv32, lists: seq<seq<int>>, lists': seq<seq<int>>, p: nat)
    requires Narrow(P, group, lists) && p < P <= 32 && Readies(P, lists, lists', p)
    ensures Narrow(P, Or(group, Mask(p)), lists')
  {
    hide Bit, Or, Mask, HasReady;
    forall q: nat | q < 32
      ensures Bit(Or(group, Mask(p)), q) <==> HasReady(P, lists', q)
    {
      SetBit(group, p, q);
    }
  }

  lemma NarrowClear(P: nat, group: bv32, lists: seq<seq<int>>, lists': seq<seq<int>>, p: nat)
    requires Narrow(P, group, lists) && p < P <= 32 && Unreadies(P, lists, lists', p)
    ensures Narrow(P, Less(group, Mask(p)), lists')
  {
    hide Bit, Less, Mask, HasReady;
    forall q: nat | q < 32
      ensures Bit(Less(group, Mask(p)), q) <==> HasReady(P, lists', q)
    {
      ClearBit(group, p, q);
    }
  }

  /** Storing into rt_uint8_t keeps the low eight bits. */
  function ToByte(v: bv32): bv32 {
    And(v, 0xff)
  }

  lemma ByteIdem(v: bv32)
    ensures And(ToByte(v), 0xff) == ToByte(v)
  {
  }

  lemma LessIsByte(v: bv32, m: bv32)
    requires And(v, 0xff) == v
    ensures And(Less(v, m), 0xff) == Less(v, m)
  {
  }

  lemma ByteMask(j: nat)
    requires j < 8
    ensures Bit(0xff, j)
  {
    BitIsMask(0xff, j);
    assert j == 0 || j == 1 || j == 2 || j == 3 || j == 4 || j == 5 || j == 6 || j == 7;
  }

  lemma NoHighBit(j: nat)
    requires 8 <= j
    ensures !Bit(0xff, j)
  {
    Shifted(0xff, j - 8);
    NoBits(j - 8);
  }

  lemma ByteBit(v: bv32, j: nat)
    requires j < 8
    ensures Bit(ToByte(v), j) <==> Bit(v, j)
  {
    hide Bit, And;
    AndBit(v, 0xff, j);
    ByteMask(j);
  }

  lemma WideSet(P: nat, group: bv32, table: seq<bv32>, lists: seq<seq<int>>, lists': seq<seq<int>>, p: nat)
    requires Wide(P, group, table, lists) && p < P <= 256 && Readies(P, lists, lists', p)
    ensures Wide(P, Or(group, Mask(p / 8)), table[p / 8 := ToByte(Or(table[p / 8], Mask(p % 8)))], lists')
  {
    hide Bit, Or, Mask, HasReady, And, ToByte;
    var n, m := p / 8, p % 8;
    var e := ToByte(Or(table[n], Mask(m)));
    var table' := table[n := e];
    ByteIdem(Or(table[n], Mask(m)));
    ByteBit(Or(table[n], Mask(m)), m);
    SetBit(table[n], m, m);
    SomeBit(e, m);
    forall k: nat | k < 32
      ensures Bit(Or(group, Mask(n)), k) <==> table'[k] != 0
    {
      SetBit(group, n, k);
    }
    forall q: nat | q < 256
      ensures Bit(table'[q / 8], q % 8) <==> HasReady(P, lists', q)
    {
      if q / 8 == n {
        ByteBit(Or(table[n], Mask(m)), q % 8);
        SetBit(table[n], m, q % 8);
      }
    }
  }

  lemma WideClear(P: nat, group: bv32, table: seq<bv32>, lists: seq<seq<int>>, lists': seq<seq<int>>, p: nat)
    requires Wide(P, group, table, lists) && p < P <= 256 && Unreadies(P, lists, lists', p)
    ensures var table' := table[p / 8 := Less(table[p / 8], Mask(p % 8))];
            Wide(P, if table'[p / 8] == 0 then Less(group, Mask(p / 8)) else group, table', lists')
  {
    hide Bit, Less, Mask, HasReady, And;
    var n, m := p / 8, p % 8;
    var e := Less(table[n], Mask(m));
    var table' := table[n := e];
    var group' := if e == 0 then Less(group, Mask(n)) else group;
    LessIsByte(table[n], Mask(m));
    if e != 0 && table[n] == 0 {
      LessOfZero(Mask(m));
      assert false;
    }
    forall k: nat | k < 32
      ensures Bit(group', k) <==> table'[k] != 0
    {
      ClearBit(group, n, k);
    }
    forall q: nat | q < 256
      ensures Bit(table'[q / 8], q % 8) <==> HasReady(P, lists', q)
    {
      if q / 8 == n {
        ClearBit(table[n], m, q % 8);
      }
    }
  }

  lemma LessOfZero(m: bv32)
    ensures Less(0, m) == 0
  {
  }

  /** The search of rt_schedule. */
  function Highest(P: nat, group: bv32, table: seq<bv32>): int
    requires |table| == 32
  {
    if P <= 32 then Ffs(group) - 1
    else
      var number := Ffs(group) - 1;
      if 0 <= number < 32 then number * 8 + Ffs(table[number]) - 1 else number
  }

  lemma LowestOf(v: bv32, i: nat)
    requires Bit(v, i) && i < 32
    ensures 0 <= Ffs(v) - 1 < 32 && Bit(v, Ffs(v) - 1)
    ensures forall j: nat :: j < Ffs(v) - 1 ==> !Bit(v, j)
  {
    hide Bit, Ffs;
    SomeBit(v, i);
    FfsIsLowest(v);
  }

  lemma NarrowHighest(P: nat, group: bv32, table: seq<bv32>, lists: seq<seq<int>>)
    requires P <= 32 && P <= |lists| && Narrow(P, group, lists) && |table| == 32 && Top(lists, 0, P) < P
    ensures Highest(P, group, table) == Top(lists, 0, P)
  {
    hide Bit, Ffs, Top;
    var r := Top(lists, 0, P);
    assert HasReady(P, lists, r);
    LowestOf(group, r);
    var k := Ffs(group) - 1;
    assert HasReady(P, lists, k);
    assert k > r ==> !Bit(group, r);
  }

  lemma LowOfByte(v: bv32, i: nat)
    requires Bit(v, i) && i < 8 && And(v, 0xff) == v
    ensures 0 <= Ffs(v) - 1 < 8 && Bit(v, Ffs(v) - 1)
    ensures forall j: nat :: j < Ffs(v) - 1 ==> !Bit(v, j)
  {
    hide Bit, Ffs, And;
    LowestOf(v, i);
    var k: nat := Ffs(v) - 1;
    AndBit(v, 0xff, k);
    if k >= 8 {
      NoHighBit(k);
    }
  }

  lemma WideAt(P: nat, group: bv32, table: seq<bv32>, lists: seq<seq<int>>, n: nat, m: nat)
    requires Wide(P, group, table, lists) && n < 32 && m < 8
    ensures |table| == 32 && n * 8 + m < 256
    ensures Bit(table[n], m) <==> HasReady(P, lists, n * 8 + m)
    ensures Bit(group, n) <==> table[n] != 0
    ensures And(table[n], 0xff) == table[n]
  {
    hide Bit, And, HasReady;
    assert (n * 8 + m) / 8 == n && (n * 8 + m) % 8 == m;
  }

  lemma WideHighest(P: nat, group: bv32, table: seq<bv32>, lists: seq<seq<int>>)
    requires 32 < P <= 256 && P <= |lists| && Wide(P, group, table, lists) && Top(lists, 0, P) < P
    ensures Highest(P, group, table) == Top(lists, 0, P)
  {
    hide Bit, Ffs, Top, And, Wide;
    var r := Top(lists, 0, P);
    assert HasReady(P, lists, r);
    WideAt(P, group, table, lists, r / 8, r % 8);
    SomeBit(table[r / 8], r % 8);
    LowestOf(group, r / 8);
    var n := Ffs(group) - 1;
    var w := WitnessBit(P, group, table, lists, n);
    WideAt(P, group, table, lists, n, w);
    LowOfByte(table[n], w);
    var m := Ffs(table[n]) - 1;
    WideAt(P, group, table, lists, n, m);
    BelowLowest(P, group, table, lists, n, m, r);
  }

  lemma BelowLowest(P: nat, group: bv32, table: seq<bv32>, lists: seq<seq<int>>, n: nat, m: nat, r: nat)
    requires Wide(P, group, table, lists) && r < 256 && HasReady(P, lists, r) && n < 32 && m < 8
    requires forall j: nat :: j < n ==> !Bit(group, j)
    requires forall j: nat :: j < m ==> !Bit(table[n], j)
    ensures n * 8 + m <= r
  {
    hide Bit, And;
    SomeBit(table[r / 8], r % 8);
    var q: nat := r / 8;
    assert Bit(group, q);
  }

  /** A byte that is not 0 has one of its eight bits set. */
  lemma WitnessBit(P: nat, group: bv32, table: seq<bv32>, lists: seq<seq<int>>, n: nat) returns (w: nat)
    requires Wide(P, group, table, lists) && n < 32 && Bit(group, n)
    ensures w < 8 && Bit(table[n], w)
  {
    hide Bit, Ffs, And;
    FfsIsLowest(table[n]);
    w := Ffs(table[n]) - 1;
    AndBit(table[n], 0xff, w);
    if w >= 8 {
      NoHighBit(w);
    }
  }

  lemma HighestIsTop(P: nat, group: bv32, table: seq<bv32>, lists: seq<seq<int>>)
    requires P <= 256 && P <= |lists| && Bitmap(P, group, table, lists) && |table| == 32 && Top(lists, 0, P) < P
    ensures Highest(P, group, table) == Top(lists, 0, P)
  {
    hide Highest, Top, Narrow, Wide;
    if P <= 32 {
      NarrowHighest(P, group, table, lists);
    } else {
      WideHighest(P, group, table, lists);
    }
  }

  // ----- What the words stand for -----

  ghost predicate Rep(P: nat, links: Links<int>, group: bv32, table: seq<bv32>, thread: map<int, Thread>, current: int,
                      nest: int, s: Sched) {
    && Linked(links, s.lists, s.home)
    && |table| == 32
    && Bitmap(P, group, table, s.lists)
    && thread == s.thread && current == s.current && nest == s.nest
  }

  lemma InsertPrepares(P: nat, links: Links<int>, group: bv32, table: seq<bv32>, thread: map<int, Thread>, current: int,
                       nest: int, s: Sched, t: int)
    requires Rep(P, links, group, table, thread, current, nest, s) && Shape(P, s) && t in thread
    requires s.home[t] == NOWHERE && thread[t].stat != Init
    ensures thread[t].priority < P && links.Has(Head(thread[t].priority))
    ensures P > 32 ==> thread[t].number < 32
    ensures Linked(links.InsertBefore(Head(thread[t].priority), t), Enqueued(s, t).lists, Enqueued(s, t).home)
    ensures Bitmap(P, Or(group, thread[t].numberMask),
                   if P > 32 then table[thread[t].number := ToByte(Or(table[thread[t].number], thread[t].highMask))]
                     else table,
                   Enqueued(s, t).lists)
  {
    hide Linked, Narrow, Wide, Homes, Mask, Or, ToByte;
    var p := thread[t].priority;
    assert ThreadShape(P, s.thread[t]);
    LinkedPut(links, s.lists, s.home, p, |s.lists[p]|, t);
    PutReadies(P, s.lists, p, t);
    if P > 32 {
      WideSet(P, group, table, s.lists, Enqueued(s, t).lists, p);
    } else {
      NarrowSet(P, group, s.lists, Enqueued(s, t).lists, p);
    }
  }

  lemma PutReadies(P: nat, lists: seq<seq<int>>, p: nat, t: int)
    requires p < P <= |lists|
    ensures Readies(P, lists, Put(lists, p, |lists[p]|, t), p)
  {
  }

  lemma RemovePrepares(P: nat, links: Links<int>, group: bv32, table: seq<bv32>, thread: map<int, Thread>, current: int,
                       nest: int, s: Sched, t: int)
    requires Rep(P, links, group, table, thread, current, nest, s) && Shape(P, s) && t in thread
    requires s.home[t] == thread[t].priority && thread[t].stat != Init
    ensures thread[t].priority < P && links.Has(t) && links.Remove(t).Has(Head(thread[t].priority))
    ensures P > 32 ==> thread[t].number < 32
    ensures Linked(links.Remove(t), Dequeued(s, t).lists, Dequeued(s, t).home)
    ensures links.Remove(t).next[Head(thread[t].priority)] == Head(thread[t].priority) <==>
            Dequeued(s, t).lists[thread[t].priority] == []
    ensures Dequeued(s, t).lists[thread[t].priority] != [] ==> Bitmap(P, group, table, Dequeued(s, t).lists)
    ensures Dequeued(s, t).lists[thread[t].priority] == [] && P <= 32 ==>
              Bitmap(P, Less(group, thread[t].numberMask), table, Dequeued(s, t).lists)
    ensures Dequeued(s, t).lists[thread[t].priority] == [] && P > 32 ==>
              var table' := table[thread[t].number := Less(table[thread[t].number], thread[t].highMask)];
              Bitmap(P, if table'[thread[t].number] == 0 then Less(group, thread[t].numberMask) else group,
                     table', Dequeued(s, t).lists)
  {
    hide Linked, Narrow, Wide, Homes, Mask, Less;
    var p := thread[t].priority;
    assert ThreadShape(P, s.thread[t]);
    LinkedTake(links, s.lists, s.home, t);
    LinkedRing(links.Remove(t), Dequeued(s, t).lists, Dequeued(s, t).home, p);
    FirstOf(links.Remove(t), Dequeued(s, t).lists[p], p);
    HomeNotEmpty(s.lists, s.home, t);
    if Dequeued(s, t).lists[p] != [] {
      StillReady(P, s.lists, p, Dequeued(s, t).lists[p]);
      BitmapFrame(P, group, table, s.lists, Dequeued(s, t).lists);
    } else {
      NowUnready(P, s.lists, p);
      if P > 32 {
        WideClear(P, group, table, s.lists, Dequeued(s, t).lists, p);
      } else {
        NarrowClear(P, group, s.lists, Dequeued(s, t).lists, p);
      }
    }
  }

  lemma LinkedRing(k: Links<int>, lists: seq<seq<int>>, home: map<int, int>, i: nat)
    requires Linked(k, lists, home) && i < |lists|
    ensures Ring(k, [Head(i)] + lists[i])
  {
  }

  lemma HomeNotEmpty(lists: seq<seq<int>>, home: map<int, int>, t: int)
    requires Homes(lists, home) && t in home && home[t] >= 0
    ensures home[t] < |lists| && lists[home[t]] != []
  {
  }

  lemma StillReady(P: nat, lists: seq<seq<int>>, p: nat, l: seq<int>)
    requires p < |lists| && l != [] && lists[p] != []
    ensures SameReady(P, lists, lists[p := l])
  {
  }

  lemma NowUnready(P: nat, lists: seq<seq<int>>, p: nat)
    requires p < P <= |lists| && lists[p] != []
    ensures Unreadies(P, lists, lists[p := []], p)
  {
  }

  /** rt_list_remove of a waiting thread, or of one on no list, is not seen by the bitmaps. */
  lemma UnwaitPrepares(P: nat, links: Links<int>, group: bv32, table: seq<bv32>, thread: map<int, Thread>, current: int,
                       nest: int, s: Sched, t: int)
    requires Rep(P, links, group, table, thread, current, nest, s) && Shape(P, s) && t in thread
    requires s.home[t] == NOWHERE || s.home[t] >= P
    ensures links.Has(t) && s.home[t] < |s.lists|
    ensures Rep(P, links.Remove(t), group, table, thread, current, nest, Dequeued(s, t))
  {
    hide Linked, Narrow, Wide, Homes, Bitmap, Drop;
    HomeBound(P, s, t);
    LinkedTake(links, s.lists, s.home, t);
    WaitsUnseen(P, s.lists, Dequeued(s, t).lists);
    BitmapFrame(P, group, table, s.lists, Dequeued(s, t).lists);
  }

  lemma WaitsUnseen(P: nat, lists: seq<seq<int>>, lists': seq<seq<int>>)
    requires |lists| == |lists'| && P <= |lists| && forall i :: 0 <= i < P ==> lists'[i] == lists[i]
    ensures SameReady(P, lists, lists')
  {
  }

  lemma WaitPrepares(P: nat, links: Links<int>, group: bv32, table: seq<bv32>, thread: map<int, Thread>, current: int,
                     nest: int, s: Sched, w: nat, at: nat, t: int)
    requires Rep(P, links, group, table, thread, current, nest, s) && Shape(P, s) && t in thread
    requires s.home[t] == NOWHERE && P <= w < |s.lists| && at <= |s.lists[w]|
    ensures links.Has(NodeAt(s.lists[w], w, at))
    ensures Rep(P, links.InsertBefore(NodeAt(s.lists[w], w, at), t), group, table, thread, current, nest,
                s.(lists := Put(s.lists, w, at, t), home := s.home[t := w]))
  {
    hide Linked, Narrow, Wide, Homes, Bitmap, Inserted;
    LinkedPut(links, s.lists, s.home, w, at, t);
    WaitsUnseen(P, s.lists, Put(s.lists, w, at, t));
    BitmapFrame(P, group, table, s.lists, Put(s.lists, w, at, t));
  }

  lemma TopFirst(P: nat, links: Links<int>, group: bv32, table: seq<bv32>, thread: map<int, Thread>, current: int,
                 nest: int, s: Sched)
    requires Rep(P, links, group, table, thread, current, nest, s) && Shape(P, s) && SomeReady(P, s)
    ensures Highest(P, group, table) == Top(s.lists, 0, P)
    ensures links.Has(Head(Top(s.lists, 0, P)))
            && links.next[Head(Top(s.lists, 0, P))] == s.lists[Top(s.lists, 0, P)][0]
  {
    hide Linked, Narrow, Wide, Homes, Bitmap, Top, Highest;
    HighestIsTop(P, group, table, s.lists);
    var r := Top(s.lists, 0, P);
    LinkedRing(links, s.lists, s.home, r);
    FirstOf(links, s.lists[r], r);
  }

  class Kernel {
    const P: nat
    var links: Links<int>
    var group: bv32
    var table: seq<bv32>
    var thread: map<int, Thread>
    var current: int
    var nest: int
    var currentPriority: int      // rt_current_priority: written, but nothing here relies on it
    var remaining: map<int, int>  // remaining_tick
    var slice: map<int, int>      // init_tick
    ghost var abs: Sched

    ghost predicate Matches()
      reads this
    {
      Rep(P, links, group, table, thread, current, nest, abs)
    }

    ghost predicate Valid()
      reads this
    {
      WellFormed(P, abs) && Matches()
    }

    /** rt_system_scheduler_init, with every thread as rt_thread_init leaves it and `waits` empty wait lists. */
    constructor (P: nat, waits: nat, priority: map<int, nat>)
      requires 0 < P <= 256
      requires forall t :: t in priority ==> t >= 0 && priority[t] < P
      ensures Valid() && this.P == P && abs == InitialSched(P, waits, priority)
    {
      this.P := P;
      links := SelfLinked(priority.Keys + Heads(P + waits));
      group := 0;
      table := seq(32, _ => 0);
      thread := InitialThreads(priority);
      current := NONE;
      nest := 0;
      currentPriority := P - 1;
      remaining := map[];
      slice := map[];
      abs := InitialSched(P, waits, priority);
      new;
      InitialKeeps(P, waits, priority);
    }

    /** rt_schedule_insert_thread. */
    method InsertThread(t: int)
      requires Shape(P, abs) && Matches() && t in thread && abs.home[t] == NOWHERE && thread[t].stat != Init
      modifies this
      ensures Matches() && abs == old(Enqueued(abs, t))
    {
      hide Linked, Bitmap, ThreadShape, Homes, Put, Or, ToByte;
      InsertPrepares(P, links, group, table, thread, current, nest, abs, t);
      ghost var s := Enqueued(abs, t);
      thread := thread[t := thread[t].(stat := Ready)];
      links := links.InsertBefore(Head(thread[t].priority), t);
      if P > 32 {
        table := table[thread[t].number := ToByte(Or(table[thread[t].number], thread[t].highMask))];
      }
      group := Or(group, thread[t].numberMask);
      abs := s;
    }

    /** rt_schedule_remove_thread. */
    method RemoveThread(t: int)
      requires Shape(P, abs) && Matches() && t in thread && abs.home[t] == thread[t].priority && thread[t].stat != Init
      requires abs.home[t] < |abs.lists|
      modifies this
      ensures Matches() && abs == old(Dequeued(abs, t))
    {
      hide Linked, Bitmap, ThreadShape, Homes, Taken, Less;
      RemovePrepares(P, links, group, table, thread, current, nest, abs, t);
      ghost var s := Dequeued(abs, t);
      links := links.Remove(t);
      var head := Head(thread[t].priority);
      if links.next[head] == head {
        if P > 32 {
          table := table[thread[t].number := Less(table[thread[t].number], thread[t].highMask)];
          if table[thread[t].number] == 0 {
            group := Less(group, thread[t].numberMask);
          }
        } else {
          group := Less(group, thread[t].numberMask);
        }
      }
      abs := s;
    }

    /** rt_schedule. */
    method Schedule()
      requires Valid() && (nest == 0 ==> SomeReady(P, abs))
      modifies this`current, this`currentPriority, this`abs
      ensures Valid() && abs == old(Scheduled(P, abs))
    {
      hide Linked, Bitmap, ThreadShape, ThreadOk, Homes, Top, Highest;
      ScheduledKeeps(P, abs);
      ghost var s := Scheduled(P, abs);
      if nest == 0 {
        TopFirst(P, links, group, table, thread, current, nest, abs);
        var highest := Highest(P, group, table);
        var to := links.next[Head(highest)];
        if to != current {
          currentPriority := highest;
          current := to;
        }
      }
      abs := s;
    }

    /** rt_thread_suspend. */
    method Suspend(t: int) returns (err: int)
      requires Valid() && t in thread
      modifies this
      ensures Valid() && t in old(abs.home) && old(abs.home[t] < |abs.lists|) && abs == old(Suspended(abs, t))
      ensures err == if old(thread[t].stat) == Ready then 0 else EERROR
    {
      hide Linked, Bitmap, ThreadShape, Homes, Dequeued;
      SuspendedKeeps(P, abs, t);
      HomeBound(P, abs, t);
      if thread[t].stat != Ready {
        return EERROR;
      }
      StoppingKeeps(P, abs, t);
      thread := thread[t := thread[t].(stat := SchedSpec.Suspend)];
      abs := With(abs, t, abs.thread[t].(stat := SchedSpec.Suspend));
      RemoveThread(t);
      err := 0;
    }

    /** The first critical section of rt_thread_resume. */
    method Unlink(t: int)
      requires Valid() && t in thread && thread[t].stat == SchedSpec.Suspend
      modifies this
      ensures Valid() && t in old(abs.home) && old(abs.home[t] < |abs.lists|) && abs == old(Unlinked(abs, t))
    {
      hide Linked, Bitmap, ThreadShape, Homes, Taken;
      UnlinkedKeeps(P, abs, t);
      HomeBound(P, abs, t);
      UnwaitPrepares(P, links, group, table, thread, current, nest, abs, t);
      links := links.Remove(t);
      abs := Dequeued(abs, t);
    }

    /** rt_thread_resume. */
    method Resume(t: int) returns (err: int)
      requires Valid() && t in thread
      modifies this
      ensures Valid() && t in old(abs.home) && old(abs.home[t] < |abs.lists|)
              && old(abs.thread[t].priority < |abs.lists|)
      ensures abs == old(Resumed(abs, t))
      ensures err == if old(thread[t].stat) == SchedSpec.Suspend then 0 else EERROR
    {
      hide Linked, Bitmap, ThreadShape, Homes, Enqueued, Taken;
      ResumedKeeps(P, abs, t);
      HomeBound(P, abs, t);
      if thread[t].stat != SchedSpec.Suspend {
        return EERROR;
      }
      UnlinkedKeeps(P, abs, t);
      Unlink(t);
      InsertThread(t);
      err := 0;
    }

    /** rt_thread_startup. */
    method Startup(t: int)
      requires Valid() && t in thread && thread[t].stat == Init
      modifies this
      ensures Valid() && old(WellFormed(P, abs)) && abs == old(Started(P, abs, t))
    {
      hide Linked, Bitmap, ThreadShape, ThreadOk, Homes, Resumed, WithPriority, Scheduled, Top;
      StartingKeeps(P, abs, t);
      ghost var s := abs;
      thread := thread[t := WithPriority(P, thread[t].(stat := SchedSpec.Suspend), thread[t].initPriority)];
      abs := Starting(P, abs, t);
      var _ := Resume(t);
      if current != NONE {
        ReadyIsSome(P, abs, s.thread[t].initPriority);
        Schedule();
      }
    }

    /** rt_thread_timeout. */
    method Timeout(t: int)
      requires Valid() && t in thread && thread[t].stat == SchedSpec.Suspend
      modifies this
      ensures Valid() && old(WellFormed(P, abs)) && abs == old(TimedOut(P, abs, t))
    {
      hide Linked, Bitmap, ThreadShape, Homes, Enqueued, Taken, Scheduled, Top;
      TimingOutKeeps(P, abs, t);
      ghost var s := abs;
      thread := thread[t := thread[t].(error := ETIMEOUT)];
      abs := With(abs, t, abs.thread[t].(error := ETIMEOUT));
      HomeBound(P, abs, t);
      DequeuedShape(P, abs, t);
      UnwaitPrepares(P, links, group, table, thread, current, nest, abs, t);
      links := links.Remove(t);
      abs := Dequeued(abs, t);
      InsertThread(t);
      ReadyIsSome(P, abs, s.thread[t].priority);
      Schedule();
    }

    /** rt_thread_yield. */
    method Yield()
      requires Valid() && current != NONE
      modifies this
      ensures remaining == old(remaining) && slice == old(slice)
      ensures Valid() && old(WellFormed(P, abs)) && old(abs.current) != NONE && abs == old(Yielded(P, abs))
    {
      hide Linked, Bitmap, ThreadShape, ThreadOk, Homes, Top, Drop, Scheduled;
      var t := current;
      YieldWords(P, links, group, table, thread, current, nest, abs);
      if thread[t].stat == Ready && links.next[t] != links.prev[t] {
        RotatePrepares(P, links, group, table, thread, current, nest, abs, t);
        RotatedKeeps(P, abs, t);
        links := links.Remove(t);
        links := links.InsertBefore(Head(thread[t].priority), t);
        abs := abs.(lists := abs.lists[abs.thread[t].priority := Drop(abs.lists[abs.thread[t].priority], t) + [t]]);
        Schedule();
      }
    }

    /** The time slice part of rt_tick_increase: the thread yields when its slice is used up. */
    method TickSlice()
      requires Valid() && current != NONE && current in remaining && current in slice
               && 0 <= remaining[current] <= 0xFFFF_FFFF
      modifies this
      ensures Valid() && old(WellFormed(P, abs)) && old(abs.current) != NONE
      ensures old(remaining[current]) == 1 ==>
                abs == old(Yielded(P, abs)) && remaining == old(remaining[current := slice[current]])
      ensures old(remaining[current]) != 1 ==>
                && abs == old(abs)
                && remaining
                   == old(remaining)[old(current) := if old(remaining[current]) == 0 then 0xFFFF_FFFF
                   else old(remaining[current]) - 1]
    {
      hide Linked, Bitmap, Homes, ThreadShape, ThreadOk, Yielded;
      var t := Self();
      var left := (remaining[t] - 1) % 0x1_0000_0000;
      remaining := remaining[t := left];
      if left == 0 {
        remaining := remaining[t := slice[t]];
        Yield();
      }
    }

    /** rt_thread_control with RT_THREAD_CTRL_CHANGE_PRIORITY. */
    method SetPriority(t: int, p: nat)
      requires Valid() && t in thread && p < P
      modifies this
      ensures Valid() && old(WellFormed(P, abs)) && abs == old(Changed(P, abs, t, p))
    {
      hide Linked, Bitmap, ThreadShape, Homes, Dequeued, Enqueued, WithPriority;
      ChangedKeeps(P, abs, t, p);
      ghost var s := abs;
      if thread[t].stat == Ready {
        ReadyShape(P, abs, t);
        ChangingKeeps(P, abs, t, p);
        RemoveThread(t);
        thread := thread[t := WithPriority(P, thread[t], p)];
        abs := With(abs, t, WithPriority(P, s.thread[t], p));
        InsertThread(t);
      } else {
        thread := thread[t := WithPriority(P, thread[t], p)];
        abs := With(abs, t, WithPriority(P, s.thread[t], p));
      }
    }

    /** rt_enter_critical. */
    method EnterCritical()
      requires Valid()
      modifies this
      ensures Valid() && abs == old(Entered(abs))
    {
      hide Linked, Bitmap, ThreadShape, ThreadOk, Homes;
      nest := nest + 1;
      abs := Entered(abs);
    }

    /** rt_exit_critical. */
    method ExitCritical()
      requires Valid() && (nest <= 1 ==> SomeReady(P, abs))
      modifies this
      ensures Valid() && abs == old(Exited(P, abs))
    {
      hide Linked, Bitmap, ThreadShape, ThreadOk, Homes, Top, Scheduled;
      nest := nest - 1;
      if nest <= 0 {
        nest := 0;
        abs := abs.(nest := 0);
        Schedule();
      } else {
        abs := abs.(nest := abs.nest - 1);
      }
    }

    /** The search of rt_ipc_list_suspend for the first waiter less urgent than t. */
    method FindPlace(w: nat, t: int) returns (node: int, ghost at: nat)
      requires Shape(P, abs) && Matches() && w < |abs.lists| && t in thread
      ensures at == PlaceOn(P, abs, w, t, true) <= |abs.lists[w]|
      ensures node == NodeAt(abs.lists[w], w, PlaceOn(P, abs, w, t, true))
    {
      hide Linked, Bitmap, ThreadShape, Homes, AheadOf, Ring;
      ghost var list := abs.lists[w];
      Members(P, abs, w);
      ListWords(P, links, group, table, thread, current, nest, abs, w);
      at := 0;
      node := links.next[Head(w)];
      while node != Head(w)
        invariant at <= |list| && node == NodeAt(list, w, at)
        invariant forall i :: 0 <= i < at ==> thread[list[i]].priority <= thread[t].priority
        decreases |list| - at
      {
        NextWords(P, links, group, table, thread, current, nest, abs, w, at);
        if thread[t].priority < thread[node].priority {
          break;
        }
        node := links.next[node];
        at := at + 1;
      }
      AtHead(P, abs, w, at);
      AheadIs(list, thread, thread[t].priority, at);
    }

    /** rt_ipc_list_suspend: the caller's thread goes on wait list w. */
    method ListSuspend(w: nat, t: int, byPriority: bool)
      requires Valid() && P <= w < |abs.lists| && t in abs.thread && abs.thread[t].stat == Ready
      modifies this
      ensures Valid() && old(WellFormed(P, abs)) && abs == old(Waiting(P, abs, w, t, byPriority))
    {
      hide Linked, Bitmap, ThreadShape, ThreadOk, Homes, Suspended, PlaceOn, Ring, Inserted;
      WaitingKeeps(P, abs, w, t, byPriority);
      SuspendedKeeps(P, abs, t);
      SameSize(abs, t);
      ghost var result := Waiting(P, abs, w, t, byPriority);
      var _ := Suspend(t);
      var node := Head(w);
      ghost var at := |abs.lists[w]|;
      if byPriority {
        node, at := FindPlace(w, t);
      } else {
        PlaceAtEnd(P, abs, w, t);
      }
      WaitPrepares(P, links, group, table, thread, current, nest, abs, w, at, t);
      links := links.InsertBefore(node, t);
      abs := result;
    }

    /** rt_thread_self. */
    method Self() returns (t: int)
      requires Valid()
      ensures t == abs.current
    {
      t := current;
    }

    method SetError(t: int, e: int)
      requires Valid() && t in abs.thread
      modifies this
      ensures Valid() && t in old(abs.thread) && abs == old(With(abs, t, abs.thread[t].(error := e)))
    {
      hide Linked, Bitmap, ThreadShape, ThreadOk, Homes;
      ErrorKeeps(P, abs, t, e);
      thread := thread[t := thread[t].(error := e)];
      abs := With(abs, t, abs.thread[t].(error := e));
    }

    /** rt_list_isempty of wait list w, negated. */
    method HasWaiters(w: nat) returns (some: bool)
      requires Valid() && w < |abs.lists|
      ensures some <==> abs.lists[w] != []
    {
      hide Linked, Bitmap, ThreadShape, ThreadOk, Homes;
      ListWords(P, links, group, table, thread, current, nest, abs, w);
      some := links.next[Head(w)] != Head(w);
    }

    /** The node after a node of wait list w; `at` is where it stands. */
    method Next(w: nat, node: int, ghost at: nat) returns (next: int)
      requires Valid() && w < |abs.lists| && at <= |abs.lists[w]|
      requires node == if at == 0 then Head(w) else abs.lists[w][at - 1]
      ensures next == NodeAt(abs.lists[w], w, at)
    {
      hide Linked, Bitmap, ThreadShape, ThreadOk, Homes;
      ListWords(P, links, group, table, thread, current, nest, abs, w);
      if at > 0 {
        NextWords(P, links, group, table, thread, current, nest, abs, w, at - 1);
      }
      next := links.next[node];
    }

    /** The first thread of wait list w. */
    method FirstWaiter(w: nat) returns (t: int)
      requires Valid() && P <= w < |abs.lists| && abs.lists[w] != []
      ensures t == abs.lists[w][0] && t in thread
    {
      hide Linked, Bitmap, ThreadShape, ThreadOk, Homes;
      FirstWaits(P, abs, w);
      ListWords(P, links, group, table, thread, current, nest, abs, w);
      t := links.next[Head(w)];
    }

    /** rt_ipc_list_resume. */
    method ListResume(w: nat)
      requires Valid() && P <= w < |abs.lists| && abs.lists[w] != []
      modifies this
      ensures Valid() && old(WellFormed(P, abs)) && abs == old(Woken(P, abs, w))
    {
      hide Linked, Bitmap, ThreadShape, ThreadOk, Homes, Resumed;
      FirstWaits(P, abs, w);
      ListWords(P, links, group, table, thread, current, nest, abs, w);
      var t := links.next[Head(w)];
      var _ := Resume(t);
    }

    /** rt_ipc_list_resume_all. */
    method ListResumeAll(w: nat)
      requires Valid() && P <= w < |abs.lists|
      modifies this
      ensures Valid() && old(WellFormed(P, abs)) && abs == old(AllWoken(P, abs, w))
    {
      hide Linked, Bitmap, ThreadShape, ThreadOk, Homes, Resumed, Woken, Rep;
      ListWords(P, links, group, table, thread, current, nest, abs, w);
      while links.next[Head(w)] != Head(w)
        invariant Valid() && P <= w < |abs.lists|
        invariant AllWoken(P, abs, w) == old(AllWoken(P, abs, w))
        invariant Head(w) in links.next && links.next[Head(w)] == NodeAt(abs.lists[w], w, 0)
        invariant abs.lists[w] != [] ==> NodeAt(abs.lists[w], w, 0) != Head(w)
        decreases |abs.lists[w]|
      {
        FailedKeeps(P, abs, w);
        WokenKeeps(P, Failed(P, abs, w), w);
        FirstWaits(P, abs, w);
        FailPrepares(P, links, group, table, thread, current, nest, abs, w);
        var t := links.next[Head(w)];
        thread := thread[t := thread[t].(error := EERROR)];
        abs := Failed(P, abs, w);
        ListResume(w);
        ListWords(P, links, group, table, thread, current, nest, abs, w);
      }
    }
  }

  lemma StoppingKeeps(P: nat, s: Sched, t: int)
    requires WellFormed(P, s) && t in s.thread && s.thread[t].stat == Ready
    ensures Shape(P, With(s, t, s.thread[t].(stat := SchedSpec.Suspend))) && s.home[t] == s.thread[t].priority
  {
    hide Homes, WithPriority;
    SuspendShape(P, s.thread[t]);
    WithShape(P, s, t, s.thread[t].(stat := SchedSpec.Suspend));
  }

  lemma SuspendShape(P: nat, th: Thread)
    requires P <= 256 && ThreadShape(P, th) && th.stat == Ready
    ensures ThreadShape(P, th.(stat := SchedSpec.Suspend))
  {
    hide Mask;
  }

  lemma ReadyShape(P: nat, s: Sched, t: int)
    requires WellFormed(P, s) && t in s.thread && s.thread[t].stat == Ready
    ensures s.home[t] == s.thread[t].priority && s.home[t] < |s.lists|
  {
    hide Homes, WithPriority;
  }

  lemma ChangingKeeps(P: nat, s: Sched, t: int, p: nat)
    requires WellFormed(P, s) && t in s.thread && s.thread[t].stat == Ready && p < P
    ensures s.home[t] < |s.lists| && Dequeued(s, t).home[t] == NOWHERE && Dequeued(s, t).thread == s.thread
    ensures Shape(P, With(Dequeued(s, t), t, WithPriority(P, s.thread[t], p)))
    ensures WithPriority(P, s.thread[t], p).stat == Ready
  {
    hide Homes, WithPriority;
    WithPriorityShape(P, s.thread[t], p);
    DequeuedShape(P, s, t);
    WithShape(P, Dequeued(s, t), t, WithPriority(P, s.thread[t], p));
  }

  lemma YieldWords(P: nat, links: Links<int>, group: bv32, table: seq<bv32>, thread: map<int, Thread>, current: int,
                   nest: int, s: Sched)
    requires Rep(P, links, group, table, thread, current, nest, s) && WellFormed(P, s) && current != NONE
    ensures current in thread && thread[current].priority < P <= |s.lists|
    ensures thread[current].stat == Ready ==>
              links.Has(current)
                && (links.next[current] == links.prev[current] <==> s.lists[thread[current].priority] == [current])
  {
    hide Bitmap, WithPriority, Ring;
    ShapeBounds(P, s, current);
    if thread[current].stat == Ready {
      ReadyPlaces(P, s, current, thread[current].priority);
      Neighbours(links, s.lists[thread[current].priority], thread[current].priority, current);
    }
  }

  lemma RotatePrepares(P: nat, links: Links<int>, group: bv32, table: seq<bv32>, thread: map<int, Thread>, current: int,
                       nest: int, s: Sched, t: int)
    requires Rep(P, links, group, table, thread, current, nest, s) && WellFormed(P, s) && t in s.thread
             && s.thread[t].stat == Ready
    ensures links.Has(t) && links.Remove(t).Has(Head(thread[t].priority)) && thread[t].priority < |s.lists|
    ensures Rep(P, links.Remove(t).InsertBefore(Head(thread[t].priority), t), group, table, thread, current, nest,
                s.(lists := s.lists[s.thread[t].priority := Drop(s.lists[s.thread[t].priority], t) + [t]]))
  {
    hide Linked, Bitmap, ThreadShape, Homes, Drop;
    ReadyShape(P, s, t);
    ShapeBounds(P, s, t);
    var p := s.thread[t].priority;
    var l := Drop(s.lists[p], t);
    LinkedTake(links, s.lists, s.home, t);
    HomesTaken(s.lists, s.home, t);
    var lists, home := Taken(s.lists, s.home, t), s.home[t := NOWHERE];
    LinkedPut(links.Remove(t), lists, home, p, |lists[p]|, t);
    assert Inserted(l, |l|, t) == l + [t];
    assert home[t := p] == s.home;
    assert Put(lists, p, |l|, t) == s.lists[p := l + [t]];
    HomeNotEmpty(s.lists, s.home, t);
    StillReady(P, s.lists, p, l + [t]);
    BitmapFrame(P, group, table, s.lists, s.lists[p := l + [t]]);
  }

  lemma ListWords(P: nat, links: Links<int>, group: bv32, table: seq<bv32>, thread: map<int, Thread>, current: int,
                  nest: int, s: Sched, w: nat)
    requires Rep(P, links, group, table, thread, current, nest, s) && Shape(P, s) && w < |s.lists|
    ensures links.Has(Head(w)) && links.next[Head(w)] == NodeAt(s.lists[w], w, 0)
    ensures s.lists[w] != [] ==> NodeAt(s.lists[w], w, 0) != Head(w)
  {
    hide Bitmap, ThreadShape, Homes, Ring;
    FirstOf(links, s.lists[w], w);
  }

  lemma NextWords(P: nat, links: Links<int>, group: bv32, table: seq<bv32>, thread: map<int, Thread>, current: int,
                  nest: int, s: Sched, w: nat, at: nat)
    requires Rep(P, links, group, table, thread, current, nest, s) && Shape(P, s) && w < |s.lists| && at < |s.lists[w]|
    ensures s.lists[w][at] in thread && links.Has(s.lists[w][at])
    ensures links.next[s.lists[w][at]] == NodeAt(s.lists[w], w, at + 1)
  {
    hide Bitmap, ThreadShape, Homes, Ring;
    Members(P, s, w);
    NextOf(links, s.lists[w], w, at);
  }

  lemma {:induction false} AheadIs(list: seq<int>, thread: map<int, Thread>, p: nat, k: nat)
    requires k <= |list| && forall i :: 0 <= i < |list| ==> list[i] in thread
    requires forall i :: 0 <= i < k ==> thread[list[i]].priority <= p
    requires k < |list| ==> p < thread[list[k]].priority
    ensures AheadOf(list, thread, p) == k
  {
    hide AheadOf;
    var r := AheadOf(list, thread, p);
  }

  lemma PlaceAtEnd(P: nat, s: Sched, w: nat, t: int)
    requires Shape(P, s) && w < |s.lists| && t in s.thread
    ensures PlaceOn(P, s, w, t, false) == |s.lists[w]|
  {
  }

  /** The walk stops at the head only past the last waiter. */
  lemma AtHead(P: nat, s: Sched, w: nat, at: nat)
    requires Shape(P, s) && w < |s.lists| && at <= |s.lists[w]|
    ensures NodeAt(s.lists[w], w, at) == Head(w) <==> at == |s.lists[w]|
  {
    hide Home, ThreadShape;
    Members(P, s, w);
  }

  lemma FailPrepares(P: nat, links: Links<int>, group: bv32, table: seq<bv32>, thread: map<int, Thread>, current: int,
                     nest: int, s: Sched, w: nat)
    requires Rep(P, links, group, table, thread, current, nest, s) && WellFormed(P, s) && P <= w < |s.lists|
             && s.lists[w] != []
    ensures s.lists[w][0] in thread
    ensures Rep(P, links, group, table, thread[s.lists[w][0] := thread[s.lists[w][0]].(error := EERROR)], current, nest,
            Failed(P, s, w))
  {
    hide Linked, Bitmap, ThreadShape, ThreadOk, Homes;
    FirstWaits(P, s, w);
  }

  function Heads(n: nat): set<int> {
    set i | 0 <= i < n :: Head(i)
  }

  function SelfLinked(nodes: set<int>): Links<int> {
    Links(map n | n in nodes :: n, map n | n in nodes :: n)
  }

  function InitialThreads(priority: map<int, nat>): map<int, Thread> {
    map t | t in priority :: Thread(Init, priority[t], priority[t], 0, 0, 0, 0)
  }

  /** All lists empty, every thread in its initial state. */
  ghost function InitialSched(P: nat, waits: nat, priority: map<int, nat>): Sched {
    Sched(seq(P + waits, _ => []), map t | t in priority :: NOWHERE, InitialThreads(priority), NONE, 0)
  }

  lemma InitialKeeps(P: nat, waits: nat, priority: map<int, nat>)
    requires 0 < P <= 256 && forall t :: t in priority ==> t >= 0 && priority[t] < P
    ensures WellFormed(P, InitialSched(P, waits, priority))
    ensures Rep(P, SelfLinked(priority.Keys + Heads(P + waits)), 0, seq(32, _ => 0), InitialThreads(priority), NONE, 0,
                InitialSched(P, waits, priority))
  {
    hide Bitmap, WithPriority;
    InitialBits(P, P + waits);
    InitialLinks(P + waits, priority);
  }

  lemma InitialLinks(n: nat, priority: map<int, nat>)
    ensures Linked(SelfLinked(priority.Keys + Heads(n)), seq(n, _ => []), map t | t in priority :: NOWHERE)
  {
    var k := SelfLinked(priority.Keys + Heads(n));
    forall i | 0 <= i < n
      ensures Ring(k, [Head(i)] + [])
    {
      assert Head(i) in Heads(n);
      assert [Head(i)] + [] == [Head(i)];
    }
  }

  lemma InitialBits(P: nat, n: nat)
    requires P <= n
    ensures Bitmap(P, 0, seq(32, _ => 0), seq(n, _ => []))
  {
    hide And;
    forall p: nat
      ensures !Bit(0, p)
    {
      NoBits(p);
    }
    assert And(0, 0xff) == 0 by { ZeroAnd(); }
  }

  lemma ZeroAnd()
    ensures And(0, 0xff) == 0
  {
  }
}
