/** The order of waiters: no call changes the order of two threads that keep waiting on a list. */
module Waiters {
  import opened Bits
  import opened RtList
  import opened Threads
  import opened SchedSpec
  import opened Ipc

  /** x still stands before y, if both are still there. */
  ghost predicate Keeps(list: seq<int>, list': seq<int>, x: int, y: int) {
    Before(list, x, y) && x in list' && y in list' ==> Before(list', x, y)
  }

  lemma ShrinksKeeps(P: nat, s: Sched, s': Sched, w: nat, x: int, y: int)
    requires Shape(P, s) && Shrinks(s, s', w)
    ensures Keeps(s.lists[w], s'.lists[w], x, y)
  {
    hide Drop, Before;
    if s'.lists[w] != s.lists[w] && Before(s.lists[w], x, y) {
      var t :| s'.lists[w] == Drop(s.lists[w], t);
      HomeDistinct(s.lists, s.home, w);
      InDrop(s.lists[w], t);
      if x != t && y != t {
        BeforeDrop(s.lists[w], t, x, y);
      }
    }
  }

  lemma StartedKeepsOrder(P: nat, s: Sched, t: int, w: nat, x: int, y: int)
    requires WellFormed(P, s) && t in s.thread && s.thread[t].stat == Init && P <= w < |s.lists|
    ensures |Started(P, s, t).lists| == |s.lists| && Keeps(s.lists[w], Started(P, s, t).lists[w], x, y)
  {
    hide Homes, ThreadShape, ThreadOk, Resumed, Top, WithPriority, Keeps, Shrinks;
    StartingKeeps(P, s, t);
    var mid := Starting(P, s, t);
    ResumedShrinks(P, mid, t, w);
    ShrinksKeeps(P, mid, Resumed(mid, t), w, x, y);
    ShrinksSize(mid, Resumed(mid, t), w);
  }

  lemma KeepsShrunk(P: nat, s: Sched, s': Sched, w: nat, x: int, y: int)
    requires Shape(P, s) && Shrinks(s, s', w)
    ensures |s'.lists| == |s.lists| && Keeps(s.lists[w], s'.lists[w], x, y)
  {
    ShrinksKeeps(P, s, s', w, x, y);
  }

  lemma ShrinksSize(s: Sched, s': Sched, w: nat)
    requires Shrinks(s, s', w)
    ensures |s'.lists| == |s.lists| && w < |s.lists|
  {
  }

  lemma TimedOutKeepsOrder(P: nat, s: Sched, t: int, w: nat, x: int, y: int)
    requires WellFormed(P, s) && t in s.thread && s.thread[t].stat == Suspend && P <= w < |s.lists|
    ensures |TimedOut(P, s, t).lists| == |s.lists| && Keeps(s.lists[w], TimedOut(P, s, t).lists[w], x, y)
  {
    hide Homes, ThreadShape, ThreadOk, Resumed, Top, WithPriority, Keeps, Shrinks;
    TimingOutKeeps(P, s, t);
    var mid := With(s, t, s.thread[t].(error := ETIMEOUT));
    ResumedShrinks(P, mid, t, w);
    ShrinksKeeps(P, mid, Resumed(mid, t), w, x, y);
    ShrinksSize(mid, Resumed(mid, t), w);
  }

  lemma YieldedKeepsOrder(P: nat, s: Sched, w: nat, x: int, y: int)
    requires WellFormed(P, s) && s.current != NONE && P <= w < |s.lists|
    ensures |Yielded(P, s).lists| == |s.lists| && Keeps(s.lists[w], Yielded(P, s).lists[w], x, y)
  {
    hide Homes, ThreadOk, Top, Drop, WithPriority, Before;
  }

  lemma WaitKeepsOrder(P: nat, s: Sched, v: nat, t: int, byPriority: bool, w: nat, x: int, y: int)
    requires WellFormed(P, s) && P <= v < |s.lists| && t in s.thread && s.thread[t].stat == Ready && P <= w < |s.lists|
    ensures |Waiting(P, s, v, t, byPriority).lists| == |s.lists|
    ensures Keeps(s.lists[w], Waiting(P, s, v, t, byPriority).lists[w], x, y)
  {
    hide Homes, ThreadShape, Suspended, AheadOf, Before;
    SuspendedKeeps(P, s, t);
    SameSize(s, t);
    var mid := Suspended(s, t);
    PlaceInRange(P, mid, v, t, byPriority);
    assert s.home[t] != w by {
      assert ThreadOk(P, s.thread[t], s.home[t]);
    }
    if v == w && Before(s.lists[w], x, y) {
      BeforeInserted(mid.lists[w], PlaceOn(P, mid, w, t, byPriority), t, x, y);
    }
  }

  lemma WokenKeepsOrder(P: nat, s: Sched, v: nat, w: nat, x: int, y: int)
    requires WellFormed(P, s) && P <= v < |s.lists| && s.lists[v] != [] && P <= w < |s.lists|
    ensures |Woken(P, s, v).lists| == |s.lists| && Keeps(s.lists[w], Woken(P, s, v).lists[w], x, y)
  {
    hide Homes, ThreadShape, ThreadOk, Resumed, Keeps, Shrinks;
    FirstWaits(P, s, v);
    ResumedShrinks(P, s, s.lists[v][0], w);
    ShrinksKeeps(P, s, Woken(P, s, v), w, x, y);
    ShrinksSize(s, Woken(P, s, v), w);
  }

  lemma AllWokenKeepsOrder(P: nat, s: Sched, v: nat, w: nat, x: int, y: int)
    requires WellFormed(P, s) && P <= v < |s.lists| && P <= w < |s.lists|
    ensures |AllWoken(P, s, v).lists| == |s.lists| && Keeps(s.lists[w], AllWoken(P, s, v).lists[w], x, y)
  {
    hide WellFormed, AllWoken, Before;
    AllWokenEmpties(P, s, v);
    if v != w {
      WakeAllElsewhere(P, s, v, w);
    }
  }

  /** No call changes the order of two threads that keep waiting. */
  lemma StepKeepsOrder(P: nat, s: Sched, o: Op, w: nat, x: int, y: int)
    requires WellFormed(P, s) && OpOk(P, s, o) && P <= w < |s.lists|
    ensures |Step(P, s, o).lists| == |s.lists| && Keeps(s.lists[w], Step(P, s, o).lists[w], x, y)
  {
    hide Homes, ThreadShape, ThreadOk, Resumed, Suspended, Top, AllWoken, Woken, Changed, Yielded, Waiting,
      WithPriority, Started, TimedOut, Before, Shrinks, Starting, Unlinked;
    match o
    case Startup(t) => StartedKeepsOrder(P, s, t, w, x, y);
    case Pause(t) => SuspendedShrinks(P, s, t, w); KeepsShrunk(P, s, Suspended(s, t), w, x, y);
    case Resume(t) => ResumedShrinks(P, s, t, w); KeepsShrunk(P, s, Resumed(s, t), w, x, y);
    case Timeout(t) => TimedOutKeepsOrder(P, s, t, w, x, y);
    case Yield => YieldedKeepsOrder(P, s, w, x, y);
    case SetPriority(t, p) => ChangedSame(P, s, t, p, w);
    case Schedule =>
    case Lock =>
    case Unlock =>
    case Prepare(t) => StartingShrinks(P, s, t, w); KeepsShrunk(P, s, Starting(P, s, t), w, x, y);
    case Unlink(t) => UnlinkedShrinks(P, s, t, w); KeepsShrunk(P, s, Unlinked(s, t), w, x, y);
    case Wait(v, t, byPriority) => WaitKeepsOrder(P, s, v, t, byPriority, w, x, y);
    case Wake(v) => WokenKeepsOrder(P, s, v, w, x, y);
    case WakeAll(v) => AllWokenKeepsOrder(P, s, v, w, x, y);
  }

  /** x and y wait on list w in every state of the run. */
  ghost predicate BothWait(P: nat, s: Sched, ops: seq<Op>, w: nat, x: int, y: int)
    requires WellFormed(P, s) && RunOk(P, s, ops)
    decreases |ops|
  {
    && w < |s.lists| && x in s.lists[w] && y in s.lists[w]
    && (ops != [] ==> (StepKeeps(P, s, ops[0]); BothWait(P, Step(P, s, ops[0]), ops[1..], w, x, y)))
  }

  /** Over every run two threads that keep waiting keep their order. */
  lemma {:induction false} RunKeepsOrder(P: nat, s: Sched, ops: seq<Op>, w: nat, x: int, y: int)
    requires WellFormed(P, s) && RunOk(P, s, ops) && P <= w < |s.lists|
    requires Before(s.lists[w], x, y) && BothWait(P, s, ops, w, x, y)
    ensures w < |Run(P, s, ops).lists| && Before(Run(P, s, ops).lists[w], x, y)
    decreases |ops|
  {
    hide WellFormed, Step, Before;
    if ops != [] {
      StepKeeps(P, s, ops[0]);
      StepKeepsOrder(P, s, ops[0], w, x, y);
      NextWait(P, s, ops, w, x, y);
      RunKeepsOrder(P, Step(P, s, ops[0]), ops[1..], w, x, y);
    }
  }

  lemma NextWait(P: nat, s: Sched, ops: seq<Op>, w: nat, x: int, y: int)
    requires WellFormed(P, s) && RunOk(P, s, ops) && BothWait(P, s, ops, w, x, y) && ops != []
    ensures var s' := Step(P, s, ops[0]); w < |s'.lists| && x in s'.lists[w] && y in s'.lists[w]
  {
    hide WellFormed, Step;
    StepKeeps(P, s, ops[0]);
  }

  /** A thread that comes to wait goes behind every waiter in arrival order, and in priority order behind
      every waiter that is no less urgent. */
  lemma WaitsBehind(c: Config, s: Sched, x: int)
    requires Fits(c, s) && Running(s) && x in s.lists[c.w]
    requires c.byPriority ==>
               InOrder(s.lists[c.w], s.thread) && x in s.thread && s.thread[x].priority <= s.thread[s.current].priority
    ensures c.w < |Waiting(c.P, s, c.w, s.current, c.byPriority).lists|
    ensures Before(Waiting(c.P, s, c.w, s.current, c.byPriority).lists[c.w], x, s.current)
  {
    hide Homes, ThreadShape, Suspended, AheadOf, Before;
    var t, list := s.current, s.lists[c.w];
    var i :| 0 <= i < |list| && list[i] == x;
    SuspendedKeeps(c.P, s, t);
    SameSize(s, t);
    assert s.home[t] != c.w by {
      assert ThreadOk(c.P, s.thread[t], s.home[t]);
    }
    var mid := Suspended(s, t);
    PlaceInRange(c.P, mid, c.w, t, c.byPriority);
    if c.byPriority {
      WaitingInOrder(c.P, s, c.w, t);
      var k :| 0 <= k <= |list| && Waiting(c.P, s, c.w, t, true).lists[c.w] == Inserted(list, k, t)
               && forall i :: 0 <= i < |list| ==> (s.thread[list[i]].priority <= s.thread[t].priority <==> i < k);
      InsertedBehind(list, k, t, i);
    } else {
      PlaceLast(c.P, mid, c.w, t);
      InsertedBehind(list, |list|, t, i);
    }
  }

  lemma PlaceLast(P: nat, s: Sched, w: nat, t: int)
    requires Shape(P, s) && w < |s.lists| && t in s.thread
    ensures PlaceOn(P, s, w, t, false) == |s.lists[w]|
  {
  }
}
