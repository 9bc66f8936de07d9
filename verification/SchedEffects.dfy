/** What each scheduler call does to the lists and the threads, told list by list: a thread leaves wherever it
    stands and goes to the end of one list, and nothing else moves. */
module SchedEffects {
  import opened Bits
  import opened RtList
  import opened Threads
  import opened SchedSpec

  /** The list without t. */
  function Except(l: seq<int>, t: int): seq<int> {
    if l == [] then [] else (if l[0] == t then [] else [l[0]]) + Except(l[1..], t)
  }

  /** List i gets t at its end when t goes there. */
  function Tail(i: int, to: int, t: int): seq<int> {
    if i == to then [t] else []
  }

  /** t leaves the list it stands on and goes to the end of list `to`, or to none; the rest keeps its place. */
  ghost predicate Goes(s: Sched, s': Sched, t: int, to: int) {
    && |s'.lists| == |s.lists|
    && forall i :: 0 <= i < |s.lists| ==> s'.lists[i] == Except(s.lists[i], t) + Tail(i, to, t)
  }

  /** Of all threads only t differs, and it is th now. */
  ghost predicate Becomes(s: Sched, s': Sched, t: int, th: Thread) {
    s'.thread == s.thread[t := th] && s'.nest == s.nest
  }

  lemma {:induction false} ExceptNone(l: seq<int>, t: int)
    requires t !in l
    ensures Except(l, t) == l
  {
    if l != [] {
      ExceptNone(l[1..], t);
    }
  }

  lemma {:induction false} ExceptAt(l: seq<int>, k: nat)
    requires Distinct(l) && k < |l|
    ensures Except(l, l[k]) == Without(l, k)
    decreases k
  {
    if k == 0 {
      assert l[0] !in l[1..];
      ExceptNone(l[1..], l[0]);
    } else {
      assert l[0] != l[k];
      assert Distinct(l[1..]) by { DistinctTail(l); }
      ExceptAt(l[1..], k - 1);
      assert Without(l, k) == [l[0]] + Without(l[1..], k - 1);
    }
  }

  lemma ExceptIsDrop(l: seq<int>, t: int)
    requires Distinct(l)
    ensures Except(l, t) == Drop(l, t)
  {
    hide Except, Distinct;
    if t in l {
      ExceptAt(l, PositionOf(l, t));
    } else {
      ExceptNone(l, t);
    }
  }

  lemma DequeuedGoes(P: nat, s: Sched, t: int)
    requires Shape(P, s) && t in s.thread
    ensures s.home[t] < |s.lists| && Goes(s, Dequeued(s, t), t, NOWHERE)
  {
    hide Except, Drop, Distinct, ThreadShape;
    forall i | 0 <= i < |s.lists|
      ensures Dequeued(s, t).lists[i] == Except(s.lists[i], t) + Tail(i, NOWHERE, t)
    {
      assert Home(s.lists[i], s.home, i);
      HomeDistinct(s.lists, s.home, i);
      if i == s.home[t] {
        ExceptIsDrop(s.lists[i], t);
      } else {
        HomeElsewhere(s.lists[i], s.home, i, t, NOWHERE);
        ExceptNone(s.lists[i], t);
      }
    }
  }

  /** t is on no list: it goes to the end of the ready list of its priority. */
  lemma EnqueuedGoes(P: nat, s: Sched, s0: Sched, t: int)
    requires Goes(s, s0, t, NOWHERE) && t in s0.thread && s0.thread[t].priority < |s0.lists|
    ensures Goes(s, Enqueued(s0, t), t, s0.thread[t].priority)
  {
    hide Except;
    var p := s0.thread[t].priority;
    assert Inserted(s0.lists[p], |s0.lists[p]|, t) == s0.lists[p] + [t];
  }

  lemma SameGoes(s: Sched, s': Sched, s'': Sched, t: int, to: int)
    requires Goes(s, s', t, to) && s''.lists == s'.lists
    ensures Goes(s, s'', t, to)
  {
  }

  /** A ready thread that is suspended leaves its ready list; another one stays as it is. */
  lemma SuspendDoes(P: nat, s: Sched, t: int)
    requires WellFormed(P, s) && t in s.thread
    ensures s.home[t] < |s.lists|
    ensures s.thread[t].stat != Ready ==> Suspended(s, t) == s
    ensures s.thread[t].stat == Ready ==>
              && Goes(s, Suspended(s, t), t, NOWHERE)
              && Becomes(s, Suspended(s, t), t, s.thread[t].(stat := Suspend))
              && Suspended(s, t).current == s.current
  {
    hide Homes, ThreadShape, ThreadOk, Taken, Goes;
    DequeuedGoes(P, s, t);
    if s.thread[t].stat == Ready {
      SameGoes(s, Dequeued(s, t), Suspended(s, t), t, NOWHERE);
    }
  }

  /** A suspended thread that is resumed leaves its wait list, when it is on one, and goes to the end of the ready
      list of its priority; another one stays as it is. */
  lemma ResumeDoes(P: nat, s: Sched, t: int)
    requires WellFormed(P, s) && t in s.thread
    ensures s.home[t] < |s.lists| && s.thread[t].priority < |s.lists|
    ensures s.thread[t].stat != Suspend ==> Resumed(s, t) == s
    ensures s.thread[t].stat == Suspend ==>
              && Goes(s, Resumed(s, t), t, s.thread[t].priority)
              && Becomes(s, Resumed(s, t), t, s.thread[t].(stat := Ready))
              && Resumed(s, t).current == s.current
  {
    hide Homes, ThreadShape, ThreadOk, Taken, Goes, Put;
    DequeuedGoes(P, s, t);
    ShapeBounds(P, s, t);
    if s.thread[t].stat == Suspend {
      SameSized(s, Dequeued(s, t), t, NOWHERE);
      EnqueuedGoes(P, s, Dequeued(s, t), t);
    }
  }

  lemma SameSized(s: Sched, s': Sched, t: int, to: int)
    requires Goes(s, s', t, to)
    ensures |s'.lists| == |s.lists|
  {
  }

  /** The first section of a resume only takes the thread off. */
  lemma UnlinkDoes(P: nat, s: Sched, t: int)
    requires WellFormed(P, s) && t in s.thread
    ensures s.home[t] < |s.lists|
    ensures s.thread[t].stat != Suspend ==> Unlinked(s, t) == s
    ensures s.thread[t].stat == Suspend ==>
              && Goes(s, Unlinked(s, t), t, NOWHERE)
              && Unlinked(s, t).thread == s.thread && Unlinked(s, t).nest == s.nest
              && Unlinked(s, t).current == s.current
  {
    hide Homes, ThreadShape, ThreadOk, Taken, Goes;
    DequeuedGoes(P, s, t);
  }

  /** A ready thread goes to the end of the list of its new priority, which may be its old one; no list changes for
      another thread.  What else differs in the thread are the masks that belong to the priority. */
  lemma ChangeDoes(P: nat, s: Sched, t: int, p: nat)
    requires WellFormed(P, s) && t in s.thread && p < P
    ensures t in Changed(P, s, t, p).thread
    ensures var s', th := Changed(P, s, t, p), Changed(P, s, t, p).thread[t];
            && Becomes(s, s', t, th) && s'.current == s.current
            && th.priority == p && th.stat == s.thread[t].stat && th.error == s.thread[t].error
            && th.initPriority == s.thread[t].initPriority
            && if s.thread[t].stat == Ready then Goes(s, s', t, p) else s'.lists == s.lists
  {
    hide Homes, ThreadShape, ThreadOk, Taken, Goes, Put, Mask;
    ShapeBounds(P, s, t);
    if s.thread[t].stat == Ready {
      DequeuedGoes(P, s, t);
      SameSized(s, Dequeued(s, t), t, NOWHERE);
      var s0 := With(Dequeued(s, t), t, WithPriority(P, s.thread[t], p));
      SameGoes(s, Dequeued(s, t), s0, t, NOWHERE);
      EnqueuedGoes(P, s, s0, t);
      assert s.thread[t := s0.thread[t]] == s0.thread;
    }
  }

  /** rt_schedule changes the current thread only, and with the scheduler locked nothing. */
  lemma ScheduleDoes(P: nat, s: Sched)
    requires P <= |s.lists| && (s.nest == 0 ==> SomeReady(P, s))
    ensures Scheduled(P, s) == s.(current := Scheduled(P, s).current)
    ensures s.nest > 0 ==> Scheduled(P, s).current == s.current
  {
    hide Top;
  }

  /** A yield sends the current thread behind the others of its priority, also with the scheduler locked: then only
      the choice of the next thread is put off. */
  lemma YieldDoes(P: nat, s: Sched)
    requires WellFormed(P, s) && s.current != NONE
    ensures GivesWay(s) ==>
              && Goes(s, Yielded(P, s), s.current, s.thread[s.current].priority)
              && Yielded(P, s).thread == s.thread && Yielded(P, s).nest == s.nest && Yielded(P, s).home == s.home
    ensures !GivesWay(s) ==> Yielded(P, s) == s
    ensures s.nest > 0 ==> Yielded(P, s).current == s.current
  {
    hide Homes, ThreadShape, ThreadOk, Goes, Drop, Top;
    ShapeBounds(P, s, s.current);
    if GivesWay(s) {
      RotateGoes(P, s, s.current);
      var p := s.thread[s.current].priority;
      SameGoes(s, s.(lists := s.lists[p := Drop(s.lists[p], s.current) + [s.current]]), Yielded(P, s), s.current, p);
    }
  }

  lemma RotateGoes(P: nat, s: Sched, t: int)
    requires WellFormed(P, s) && t in s.thread && s.thread[t].stat == Ready
    ensures s.thread[t].priority < |s.lists|
    ensures var p := s.thread[t].priority; Goes(s, s.(lists := s.lists[p := Drop(s.lists[p], t) + [t]]), t, p)
  {
    hide Homes, ThreadShape, ThreadOk, Drop;
    ShapeBounds(P, s, t);
    DequeuedGoes(P, s, t);
    assert ThreadOk(P, s.thread[t], s.home[t]);
    ReadyHome(P, s, t);
    var p := s.thread[t].priority;
    assert Dequeued(s, t).lists == s.lists[p := Drop(s.lists[p], t)];
    forall i | 0 <= i < |s.lists|
      ensures s.lists[p := Drop(s.lists[p], t) + [t]][i] == Except(s.lists[i], t) + Tail(i, p, t)
    {
      assert Dequeued(s, t).lists[i] == Except(s.lists[i], t) + Tail(i, NOWHERE, t);
    }
  }

  lemma ReadyHome(P: nat, s: Sched, t: int)
    requires WellFormed(P, s) && t in s.thread && s.thread[t].stat == Ready
    ensures s.home[t] == s.thread[t].priority
  {
    hide Homes, ThreadShape;
    assert ThreadOk(P, s.thread[t], s.home[t]);
  }

  /** A thread whose wait ran out becomes ready with -RT_ETIMEOUT, off the list it waited on and behind the ready
      threads of its priority. */
  lemma TimeoutDoes(P: nat, s: Sched, t: int)
    requires WellFormed(P, s) && t in s.thread && s.thread[t].stat == Suspend
    ensures Goes(s, TimedOut(P, s, t), t, s.thread[t].priority)
    ensures Becomes(s, TimedOut(P, s, t), t, s.thread[t].(error := ETIMEOUT, stat := Ready))
    ensures s.nest > 0 ==> TimedOut(P, s, t).current == s.current
  {
    hide Homes, ThreadShape, ThreadOk, Goes, Resumed, Top;
    TimingOutKeeps(P, s, t);
    var s0 := With(s, t, s.thread[t].(error := ETIMEOUT));
    ResumeDoes(P, s0, t);
    FromSame(s, s0, Resumed(s0, t), t, s.thread[t].priority);
    SameGoes(s, Resumed(s0, t), TimedOut(P, s, t), t, s.thread[t].priority);
    assert s0.thread[t := Resumed(s0, t).thread[t]] == s.thread[t := Resumed(s0, t).thread[t]];
  }

  lemma FromSame(s: Sched, s0: Sched, s': Sched, t: int, to: int)
    requires Goes(s0, s', t, to) && s0.lists == s.lists
    ensures Goes(s, s', t, to)
  {
  }

  /** A thread that is started gets its initial priority and goes to the end of the ready list of that priority; the
      scheduler is called when there is a current thread. */
  lemma StartDoes(P: nat, s: Sched, t: int)
    requires WellFormed(P, s) && t in s.thread && s.thread[t].stat == Init
    ensures t in Started(P, s, t).thread
    ensures var s', th := Started(P, s, t), Started(P, s, t).thread[t];
            && Goes(s, s', t, s.thread[t].initPriority) && Becomes(s, s', t, th)
            && th.stat == Ready && th.priority == th.initPriority == s.thread[t].initPriority
            && th.error == s.thread[t].error
            && (s.nest > 0 || s.current == NONE ==> s'.current == s.current)
  {
    hide Homes, ThreadShape, ThreadOk, Goes, Resumed, Top, Mask;
    StartingKeeps(P, s, t);
    var s0 := Starting(P, s, t);
    ResumeDoes(P, s0, t);
    FromSame(s, s0, Resumed(s0, t), t, s.thread[t].initPriority);
    SameGoes(s, Resumed(s0, t), Started(P, s, t), t, s.thread[t].initPriority);
    assert s0.thread[t := Resumed(s0, t).thread[t]] == s.thread[t := Resumed(s0, t).thread[t]];
  }

  /** The lock counts: leaving it undoes entering it, and only the outermost exit schedules. */
  lemma LockDoes(P: nat, s: Sched)
    requires WellFormed(P, s) && SomeReady(P, s)
    ensures Entered(s) == s.(nest := s.nest + 1)
    ensures s.nest > 0 ==> Exited(P, Entered(s)) == s
    ensures s.nest == 0 ==> Exited(P, Entered(s)) == Scheduled(P, s)
    ensures Exited(P, s) == s.(nest := if s.nest == 0 then 0 else s.nest - 1, current := Exited(P, s).current)
    ensures s.nest > 1 ==> Exited(P, s).current == s.current
  {
    hide Homes, ThreadShape, ThreadOk, Top;
  }

  // ----- Wait lists -----

  /** t is suspended and leaves its ready list for wait list w: for its end in order of arrival, and in order of
      priority for the place behind the first threads that are no less urgent.  th is what t is now. */
  ghost predicate GoesToWait(s: Sched, s': Sched, w: nat, t: int, th: Thread, byPriority: bool) {
    && t in s.thread && w < |s.lists| == |s'.lists|
    && Becomes(s, s', t, th) && s'.current == s.current
    && (forall i :: 0 <= i < |s.lists| && i != w ==> s'.lists[i] == Except(s.lists[i], t))
    && (!byPriority ==> s'.lists[w] == s.lists[w] + [t])
    && (byPriority ==> exists k :: 0 <= k <= |s.lists[w]| && JoinsAt(s, s'.lists[w], w, t, k))
  }

  lemma WaitDoes(P: nat, s: Sched, w: nat, t: int, byPriority: bool)
    requires WellFormed(P, s) && P <= w < |s.lists| && t in s.thread && s.thread[t].stat == Ready
    ensures GoesToWait(s, Waiting(P, s, w, t, byPriority), w, t, s.thread[t].(stat := Suspend), byPriority)
  {
    hide Homes, ThreadShape, ThreadOk, Suspended, Goes, AheadOf;
    SuspendDoes(P, s, t);
    SuspendedKeeps(P, s, t);
    SameSize(s, t);
    ReadyHome(P, s, t);
    ShapeBounds(P, s, t);
    var s0 := Suspended(s, t);
    PlaceInRange(P, s0, w, t, byPriority);
    Members(P, s0, w);
    var k := PlaceOn(P, s0, w, t, byPriority);
    LeavesOnly(s, s0, t);
    if byPriority {
      assert JoinsAt(s, Waiting(P, s, w, t, byPriority).lists[w], w, t, k);
    }
  }

  /** t goes into list w at place k, behind threads no less urgent, before a less urgent one. */
  ghost predicate JoinsAt(s: Sched, l: seq<int>, w: nat, t: int, k: nat)
    requires w < |s.lists| && t in s.thread && k <= |s.lists[w]|
  {
    && l == s.lists[w][..k] + [t] + s.lists[w][k..]
    && (forall i :: 0 <= i < k ==> NoLater(s, s.lists[w][i], t))
    && (k < |s.lists[w]| ==> !NoLater(s, s.lists[w][k], t))
  }

  ghost predicate NoLater(s: Sched, x: int, t: int) {
    x in s.thread && t in s.thread && s.thread[x].priority <= s.thread[t].priority
  }

  lemma LeavesOnly(s: Sched, s': Sched, t: int)
    requires Goes(s, s', t, NOWHERE)
    ensures |s'.lists| == |s.lists| && forall i :: 0 <= i < |s.lists| ==> s'.lists[i] == Except(s.lists[i], t)
  {
    hide Except;
    forall i | 0 <= i < |s.lists|
      ensures s'.lists[i] == Except(s.lists[i], t)
    {
      assert s'.lists[i] == Except(s.lists[i], t) + Tail(i, NOWHERE, t);
    }
  }

  /** The first waiter of list w, and no other, becomes ready; its error stays. */
  ghost predicate FirstWakes(s: Sched, s': Sched, w: nat) {
    && w < |s.lists| == |s'.lists| && s.lists[w] != [] && s.lists[w][0] in s.thread
    && Goes(s, s', s.lists[w][0], s.thread[s.lists[w][0]].priority)
    && Becomes(s, s', s.lists[w][0], s.thread[s.lists[w][0]].(stat := Ready))
    && s'.current == s.current && s'.lists[w] == s.lists[w][1..]
  }

  lemma WakeDoes(P: nat, s: Sched, w: nat)
    requires WellFormed(P, s) && P <= w < |s.lists| && s.lists[w] != []
    ensures FirstWakes(s, Woken(P, s, w), w)
  {
    hide Homes, ThreadShape, ThreadOk, Resumed, Goes;
    FirstWaits(P, s, w);
    ResumeDoes(P, s, s.lists[w][0]);
    WokenKeeps(P, s, w);
  }

  /** The threads of l with priority p, in their order. */
  function OfPriority(l: seq<int>, thread: map<int, Thread>, p: int): seq<int> {
    if l == [] then []
    else (if l[0] in thread && thread[l[0]].priority == p then [l[0]] else []) + OfPriority(l[1..], thread, p)
  }

  /** All waiters of list w become ready with -RT_ERROR, behind the ready threads of their priorities and in the order
      they waited in; no other thread or list changes. */
  ghost predicate AllWake(s: Sched, s': Sched, w: nat) {
    && w < |s.lists| == |s'.lists|
    && (forall i :: 0 <= i < |s.lists| ==>
          s'.lists[i] == if i == w then [] else s.lists[i] + OfPriority(s.lists[w], s.thread, i))
    && s'.thread.Keys == s.thread.Keys
    && (forall t :: t in s.thread ==>
          s'.thread[t] == if t in s.lists[w] then s.thread[t].(stat := Ready, error := EERROR) else s.thread[t])
    && s'.current == s.current && s'.nest == s.nest
  }

  lemma AllWakeDoes(P: nat, s: Sched, w: nat)
    requires WellFormed(P, s) && P <= w < |s.lists|
    ensures AllWake(s, AllWoken(P, s, w), w)
  {
    hide WellFormed, AllWoken, OfPriority;
    AllWokenEmpties(P, s, w);
    AllWokenCurrent(P, s, w);
    forall i | 0 <= i < |s.lists|
      ensures AllWoken(P, s, w).lists[i] == if i == w then [] else s.lists[i] + OfPriority(s.lists[w], s.thread, i)
    {
      AllWokenLists(P, s, w, i);
    }
  }

  lemma {:induction false} AllWokenLists(P: nat, s: Sched, w: nat, i: nat)
    requires WellFormed(P, s) && P <= w < |s.lists| && i < |s.lists|
    ensures |AllWoken(P, s, w).lists| == |s.lists|
    ensures AllWoken(P, s, w).lists[i] == if i == w then [] else s.lists[i] + OfPriority(s.lists[w], s.thread, i)
    decreases |s.lists[w]|
  {
    hide WellFormed, Woken, Failed, Goes;
    if s.lists[w] != [] {
      FailedKeeps(P, s, w);
      FailedIs(P, s, w);
      FirstWaits(P, s, w);
      var s0 := Failed(P, s, w);
      WokenKeeps(P, s0, w);
      AllWokenLists(P, Woken(P, s0, w), w, i);
      if i != w {
        WakeOne(P, s0, w, i);
      }
      SamePriorities(s.lists[w][1..], s.thread, Woken(P, s0, w).thread, i);
    }
  }

  /** A list that the resumed thread was not on gains at most that thread, at its end. */
  lemma ResumeOne(P: nat, s: Sched, t: int, i: nat)
    requires WellFormed(P, s) && t in s.thread && s.thread[t].stat == Suspend && i < |s.lists| && s.home[t] != i
    ensures s.home[t] < |s.lists| && s.thread[t].priority < |s.lists| == |Resumed(s, t).lists|
    ensures Resumed(s, t).lists[i] == s.lists[i] + Tail(i, s.thread[t].priority, t)
  {
    hide Home, ThreadShape, ThreadOk, Resumed, Except;
    ResumeDoes(P, s, t);
    assert Home(s.lists[i], s.home, i);
    HomeElsewhere(s.lists[i], s.home, i, t, NOWHERE);
    ExceptNone(s.lists[i], t);
  }

  lemma WakeOne(P: nat, s: Sched, w: nat, i: nat)
    requires WellFormed(P, s) && P <= w < |s.lists| && i < |s.lists| && s.lists[w] != [] && i != w
    ensures s.lists[w][0] in s.thread && |Woken(P, s, w).lists| == |s.lists|
    ensures Woken(P, s, w).lists[i] == s.lists[i] + Tail(i, s.thread[s.lists[w][0]].priority, s.lists[w][0])
  {
    hide Homes, ThreadShape, ThreadOk, Resumed;
    FirstWaits(P, s, w);
    ResumeOne(P, s, s.lists[w][0], i);
  }

  lemma {:induction false} SamePriorities(l: seq<int>, thread: map<int, Thread>, thread': map<int, Thread>, p: int)
    requires thread.Keys == thread'.Keys && forall x :: x in thread ==> thread'[x].priority == thread[x].priority
    ensures OfPriority(l, thread, p) == OfPriority(l, thread', p)
  {
    if l != [] {
      SamePriorities(l[1..], thread, thread', p);
    }
  }
}
