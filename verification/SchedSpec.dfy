/** Threads, ready lists and wait lists, without links and bitmaps: what scheduler.c and thread.c do.

  The first P lists are the ready lists of the P priorities, 0 the most urgent; the others are the
  wait lists of IPC objects.
 */
module SchedSpec {
  import opened RtList
  import opened Threads
  import opened Bits

  const NONE: int := -1
  const ETIMEOUT: int := -2        // -RT_ETIMEOUT
  const EERROR: int := -1          // -RT_ERROR

  datatype Stat = Init | Ready | Suspend

  datatype Thread = Thread(
    stat: Stat,
    priority: nat,
    initPriority: nat,
    number: nat,
    numberMask: bv32,
    highMask: bv32,
    error: int)

  datatype Sched = Sched(lists: seq<seq<int>>, home: map<int, int>, thread: map<int, Thread>, current: int, nest: int)

  /** The priority attributes: group number and masks above 32 priorities, one mask up to 32. */
  function WithPriority(P: nat, th: Thread, p: nat): Thread
    requires p < P <= 256
  {
    if P > 32 then th.(priority := p, number := p / 8, numberMask := Mask(p / 8), highMask := Mask(p % 8))
    else th.(priority := p, numberMask := Mask(p))
  }

  ghost predicate ThreadShape(P: nat, th: Thread)
    requires P <= 256
  {
    th.priority < P && th.initPriority < P && (th.stat != Init ==> th == WithPriority(P, th, th.priority))
  }

  ghost predicate ThreadOk(P: nat, th: Thread, h: int) {
    && (th.stat == Ready <==> 0 <= h < P)
    && (th.stat == Ready ==> h == th.priority)
    && (th.stat == Init ==> h == NOWHERE)
  }

  /** Holds also while a thread is between two lists. */
  ghost predicate Shape(P: nat, s: Sched) {
    && 0 < P <= 256 && P <= |s.lists|
    && s.thread.Keys == s.home.Keys
    && Homes(s.lists, s.home)
    && (forall t :: t in s.thread ==> ThreadShape(P, s.thread[t]))
    && (s.current == NONE || s.current in s.thread)
    && s.nest >= 0
  }

  ghost predicate WellFormed(P: nat, s: Sched) {
    Shape(P, s) && forall t :: t in s.thread ==> ThreadOk(P, s.thread[t], s.home[t])
  }

  /** A READY thread stands on the ready list of its priority, once, and on no other list;
      a thread that is not READY stands on no ready list. */
  lemma ReadyPlaces(P: nat, s: Sched, t: int, i: nat)
    requires WellFormed(P, s) && t in s.thread && i < |s.lists|
    ensures s.thread[t].stat == Ready ==> (t in s.lists[i] <==> i == s.thread[t].priority)
    ensures s.thread[t].stat != Ready ==> i < P ==> t !in s.lists[i]
    ensures Distinct(s.lists[i])
  {
    hide Distinct;
    assert Home(s.lists[i], s.home, i);
    if t in s.lists[i] {
      HomeOf(s.lists[i], s.home, i, t);
    }
  }

  // ----- Moving threads -----

  ghost function Dequeued(s: Sched, t: int): Sched
    requires t in s.home && s.home[t] < |s.lists|
  {
    s.(lists := Taken(s.lists, s.home, t), home := s.home[t := NOWHERE])
  }

  ghost function Enqueued(s: Sched, t: int): Sched
    requires t in s.thread && s.thread[t].priority < |s.lists|
  {
    var p := s.thread[t].priority;
    s.(lists := Put(s.lists, p, |s.lists[p]|, t), home := s.home[t := p],
      thread := s.thread[t := s.thread[t].(stat := Ready)])
  }

  ghost function With(s: Sched, t: int, th: Thread): Sched {
    s.(thread := s.thread[t := th])
  }

  lemma DequeuedShape(P: nat, s: Sched, t: int)
    requires Shape(P, s) && t in s.thread
    ensures s.home[t] < |s.lists| && Shape(P, Dequeued(s, t))
    ensures Dequeued(s, t).home[t] == NOWHERE
  {
    hide Home;
    HomesTaken(s.lists, s.home, t);
  }

  lemma EnqueuedShape(P: nat, s: Sched, t: int)
    requires Shape(P, s) && t in s.thread && s.home[t] == NOWHERE && s.thread[t].stat != Init
    ensures s.thread[t].priority < |s.lists| && Shape(P, Enqueued(s, t))
  {
    hide Home;
    var p := s.thread[t].priority;
    HomesPut(s.lists, s.home, p, |s.lists[p]|, t);
  }

  lemma WithShape(P: nat, s: Sched, t: int, th: Thread)
    requires Shape(P, s) && t in s.thread && ThreadShape(P, th)
    ensures Shape(P, With(s, t, th))
  {
    hide Homes;
  }

  /** rt_thread_suspend. */
  ghost function Suspended(s: Sched, t: int): Sched
    requires t in s.thread && t in s.home && s.home[t] < |s.lists|
  {
    if s.thread[t].stat != Ready then s
    else Dequeued(With(s, t, s.thread[t].(stat := Suspend)), t)
  }

  lemma SuspendedKeeps(P: nat, s: Sched, t: int)
    requires WellFormed(P, s) && t in s.thread
    ensures s.home[t] < |s.lists| && WellFormed(P, Suspended(s, t))
    ensures s.thread[t].stat == Ready ==>
            Suspended(s, t).home[t] == NOWHERE && Suspended(s, t).thread[t].stat == Suspend
  {
    hide Homes, Taken;
    HomeBound(P, s, t);
    if s.thread[t].stat == Ready {
      WithShape(P, s, t, s.thread[t].(stat := Suspend));
      DequeuedShape(P, With(s, t, s.thread[t].(stat := Suspend)), t);
    }
  }

  lemma HomeBound(P: nat, s: Sched, t: int)
    requires Shape(P, s) && t in s.thread
    ensures t in s.home && NOWHERE <= s.home[t] < |s.lists|
  {
  }

  /** rt_thread_resume: off whatever list it waits on, to the end of its ready list. */
  ghost function Resumed(s: Sched, t: int): Sched
    requires t in s.thread && t in s.home && s.home[t] < |s.lists| && s.thread[t].priority < |s.lists|
  {
    if s.thread[t].stat != Suspend then s else Enqueued(Dequeued(s, t), t)
  }

  lemma ResumedKeeps(P: nat, s: Sched, t: int)
    requires WellFormed(P, s) && t in s.thread
    ensures s.home[t] < |s.lists| && s.thread[t].priority < |s.lists| && WellFormed(P, Resumed(s, t))
    ensures s.thread[t].stat == Suspend ==> t in Resumed(s, t).lists[s.thread[t].priority]
  {
    hide Homes, Taken, Put;
    HomeBound(P, s, t);
    if s.thread[t].stat == Suspend {
      DequeuedShape(P, s, t);
      EnqueuedShape(P, Dequeued(s, t), t);
      PutHas(Dequeued(s, t).lists, s.thread[t].priority, t);
    }
  }

  /** The first critical section of rt_thread_resume: off whatever list t waits on.  A resume of a thread
      that stands on no list is the second section. */
  ghost function Unlinked(s: Sched, t: int): Sched
    requires t in s.thread && t in s.home && s.home[t] < |s.lists|
  {
    if s.thread[t].stat != Suspend then s else Dequeued(s, t)
  }

  lemma UnlinkedKeeps(P: nat, s: Sched, t: int)
    requires WellFormed(P, s) && t in s.thread
    ensures s.home[t] < |s.lists| && WellFormed(P, Unlinked(s, t))
    ensures s.thread[t].stat == Suspend ==> Unlinked(s, t).home[t] == NOWHERE
    ensures Unlinked(s, t).thread == s.thread
  {
    hide Homes, Taken;
    HomeBound(P, s, t);
    if s.thread[t].stat == Suspend {
      DequeuedShape(P, s, t);
    }
  }

  /** The two sections make up the call. */
  lemma ResumedInTwo(P: nat, s: Sched, t: int)
    requires WellFormed(P, s) && t in s.thread
    ensures s.home[t] < |s.lists| && s.thread[t].priority < |s.lists|
    ensures WellFormed(P, Unlinked(s, t)) && Unlinked(s, t).home[t] < |Unlinked(s, t).lists| == |s.lists|
    ensures Unlinked(s, t).thread == s.thread && Resumed(Unlinked(s, t), t) == Resumed(s, t)
  {
    hide Homes, ThreadShape, ThreadOk, Put, Drop;
    UnlinkedKeeps(P, s, t);
    ShapeBounds(P, s, t);
  }

  lemma PutHas(lists: seq<seq<int>>, i: nat, t: int)
    requires i < |lists|
    ensures t in Put(lists, i, |lists[i]|, t)[i]
  {
    InInserted(lists[i], |lists[i]|, t, t);
  }

  /** Suspending a ready thread and resuming it puts it at the end of its ready list and touches nothing else. */
  lemma SuspendResume(P: nat, s: Sched, t: int)
    requires WellFormed(P, s) && t in s.thread && s.thread[t].stat == Ready
    ensures WellFormed(P, Suspended(s, t)) && s.home[t] < |s.lists|
    ensures Resumed(Suspended(s, t), t)
            == s.(lists := s.lists[s.thread[t].priority := Drop(s.lists[s.thread[t].priority], t) + [t]])
  {
    hide Homes, Drop;
    SuspendedKeeps(P, s, t);
    var p := s.thread[t].priority;
    var l := Drop(s.lists[p], t);
    assert Inserted(l, |l|, t) == l + [t];
    assert s.home[t := NOWHERE][t := p] == s.home;
    assert s.thread[t := s.thread[t].(stat := Suspend)][t := s.thread[t]] == s.thread;
    var s' := Resumed(Suspended(s, t), t);
    assert s'.lists == s.lists[p := l + [t]];
  }

  /** RT_THREAD_CTRL_CHANGE_PRIORITY. */
  ghost function Changed(P: nat, s: Sched, t: int, p: nat): Sched
    requires Shape(P, s) && t in s.thread && p < P
  {
    if s.thread[t].stat == Ready then
      DequeuedShape(P, s, t);
      Enqueued(With(Dequeued(s, t), t, WithPriority(P, s.thread[t], p)), t)
    else With(s, t, WithPriority(P, s.thread[t], p))
  }

  lemma WithPriorityShape(P: nat, th: Thread, p: nat)
    requires 0 < P <= 256 && p < P && th.initPriority < P
    ensures ThreadShape(P, WithPriority(P, th, p))
    ensures WithPriority(P, th, p).stat == th.stat && WithPriority(P, th, p).priority == p
  {
    hide Mask;
  }

  lemma ChangedKeeps(P: nat, s: Sched, t: int, p: nat)
    requires WellFormed(P, s) && t in s.thread && p < P
    ensures WellFormed(P, Changed(P, s, t, p)) && Changed(P, s, t, p).thread[t].priority == p
  {
    hide Homes, Taken, Put, WithPriority;
    var th := WithPriority(P, s.thread[t], p);
    WithPriorityShape(P, s.thread[t], p);
    if s.thread[t].stat == Ready {
      DequeuedShape(P, s, t);
      WithShape(P, Dequeued(s, t), t, th);
      EnqueuedShape(P, With(Dequeued(s, t), t, th), t);
    } else {
      WithShape(P, s, t, th);
    }
  }

  // ----- Choosing the thread to run -----

  /** The most urgent priority from p on with a ready thread; P when there is none. */
  ghost function Top(lists: seq<seq<int>>, p: nat, P: nat): (r: nat)
    requires p <= P <= |lists|
    ensures p <= r <= P
    ensures forall q :: p <= q < r ==> lists[q] == []
    ensures r < P ==> lists[r] != []
    decreases P - p
  {
    if p == P || lists[p] != [] then p else Top(lists, p + 1, P)
  }

  lemma TopIs(lists: seq<seq<int>>, P: nat, r: nat)
    requires r < P <= |lists| && lists[r] != [] && forall q :: 0 <= q < r ==> lists[q] == []
    ensures Top(lists, 0, P) == r
  {
    hide Top;
    var k := Top(lists, 0, P);
  }

  ghost predicate SomeReady(P: nat, s: Sched)
    requires P <= |s.lists|
  {
    Top(s.lists, 0, P) < P
  }

  lemma ReadyIsSome(P: nat, s: Sched, p: nat)
    requires p < P <= |s.lists| && s.lists[p] != []
    ensures SomeReady(P, s)
  {
    hide Top;
  }

  /** rt_schedule. */
  ghost function Scheduled(P: nat, s: Sched): Sched
    requires P <= |s.lists| && (s.nest == 0 ==> SomeReady(P, s))
  {
    if s.nest == 0 then s.(current := s.lists[Top(s.lists, 0, P)][0]) else s
  }

  /** After rt_schedule with the scheduler unlocked the current thread is READY, no ready thread is
      more urgent, and it is the first of its priority. */
  lemma ScheduledBest(P: nat, s: Sched)
    requires WellFormed(P, s) && s.nest == 0 && SomeReady(P, s)
    ensures WellFormed(P, Scheduled(P, s))
    ensures Scheduled(P, s).current in s.thread && s.thread[Scheduled(P, s).current].stat == Ready
    ensures s.lists[s.thread[Scheduled(P, s).current].priority][..1] == [Scheduled(P, s).current]
    ensures forall t :: t in s.thread && s.thread[t].stat == Ready ==>
            s.thread[Scheduled(P, s).current].priority <= s.thread[t].priority
  {
    hide Top, ThreadShape, Distinct;
    var r := Top(s.lists, 0, P);
    var c := s.lists[r][0];
    assert Home(s.lists[r], s.home, r);
    HomeOf(s.lists[r], s.home, r, c);
    forall t | t in s.thread && s.thread[t].stat == Ready
      ensures r <= s.thread[t].priority
    {
      assert t in s.lists[s.home[t]];
    }
  }

  lemma ScheduledKeeps(P: nat, s: Sched)
    requires WellFormed(P, s) && (s.nest == 0 ==> SomeReady(P, s))
    ensures WellFormed(P, Scheduled(P, s))
  {
    hide Top, ThreadShape, Homes, ThreadOk;
    if s.nest == 0 {
      ScheduledBest(P, s);
    }
  }

  /** rt_thread_yield: to the end of the ready list, unless alone on it. */
  ghost function Yielded(P: nat, s: Sched): Sched
    requires WellFormed(P, s) && s.current != NONE
  {
    var t := s.current;
    var p := s.thread[t].priority;
    if s.thread[t].stat == Ready && s.lists[p] != [t] then
      var s' := s.(lists := s.lists[p := Drop(s.lists[p], t) + [t]]);
      ReadyIsSome(P, s', p);
      Scheduled(P, s')
    else s
  }

  lemma RotatedKeeps(P: nat, s: Sched, t: int)
    requires WellFormed(P, s) && t in s.thread && s.thread[t].stat == Ready
    ensures WellFormed(P, s.(lists := s.lists[s.thread[t].priority := Drop(s.lists[s.thread[t].priority], t) + [t]]))
    ensures SomeReady(P, s.(lists := s.lists[s.thread[t].priority := Drop(s.lists[s.thread[t].priority], t) + [t]]))
  {
    hide Top, Homes, Drop, Shape, ThreadOk, ThreadShape;
    SuspendResume(P, s, t);
    SuspendedKeeps(P, s, t);
    ResumedKeeps(P, Suspended(s, t), t);
    ShapeBounds(P, s, t);
    ReadyIsSome(P, s.(lists := s.lists[s.thread[t].priority := Drop(s.lists[s.thread[t].priority], t) + [t]]),
      s.thread[t].priority);
  }

  lemma ShapeBounds(P: nat, s: Sched, t: int)
    requires Shape(P, s) && t in s.thread
    ensures s.thread[t].priority < P <= |s.lists|
  {
  }

  lemma YieldedKeeps(P: nat, s: Sched)
    requires WellFormed(P, s) && s.current != NONE
    ensures WellFormed(P, Yielded(P, s))
  {
    hide Top, Homes, Drop, ThreadOk, ThreadShape;
    var t := s.current;
    ShapeBounds(P, s, t);
    if s.thread[t].stat == Ready && s.lists[s.thread[t].priority] != [t] {
      RotatedKeeps(P, s, t);
      ScheduledKeeps(P, s.(lists := s.lists[s.thread[t].priority := Drop(s.lists[s.thread[t].priority], t) + [t]]));
    }
  }

  // ----- Round robin -----

  ghost predicate RunsFirst(P: nat, s: Sched, p: nat, l: seq<int>) {
    && WellFormed(P, s) && s.nest == 0
    && p < P && Top(s.lists, 0, P) == p && s.lists[p] == l && l != [] && s.current == l[0]
  }

  function Turned(l: seq<int>, n: nat): seq<int>
    requires n <= |l|
  {
    l[n..] + l[..n]
  }

  lemma YieldTurns(P: nat, s: Sched, p: nat, l: seq<int>)
    requires RunsFirst(P, s, p, l)
    ensures RunsFirst(P, Yielded(P, s), p, l[1..] + [l[0]])
    ensures Yielded(P, s) == s.(lists := s.lists[p := l[1..] + [l[0]]], current := (l[1..] + [l[0]])[0])
  {
    hide Top, ThreadShape;
    YieldedKeeps(P, s);
    ReadyPlaces(P, s, l[0], p);
    HeadIsReady(P, s, p);
    if l == [l[0]] {
      assert l[1..] + [l[0]] == l;
      assert s.lists[p := l] == s.lists;
    } else {
      DropFirst(l);
      var s' := s.(lists := s.lists[p := l[1..] + [l[0]]]);
      TopIs(s'.lists, P, p);
    }
  }

  lemma HeadIsReady(P: nat, s: Sched, p: nat)
    requires WellFormed(P, s) && p < P && s.lists[p] != []
    ensures s.lists[p][0] in s.thread && s.thread[s.lists[p][0]].stat == Ready && s.thread[s.lists[p][0]].priority == p
  {
    hide Distinct, ThreadShape;
    assert Home(s.lists[p], s.home, p);
    HomeOf(s.lists[p], s.home, p, s.lists[p][0]);
  }

  lemma DropFirst(l: seq<int>)
    requires Distinct(l) && l != []
    ensures Drop(l, l[0]) == l[1..]
  {
    assert PositionOf(l, l[0]) == 0;
    assert Without(l, 0) == l[1..];
  }

  ghost function Yields(P: nat, s: Sched, n: nat): Sched
    requires WellFormed(P, s) && s.current != NONE
    decreases n
  {
    if n == 0 then s
    else
      YieldedKeeps(P, s);
      var s' := Yielded(P, s);
      if s'.current == NONE then s' else Yields(P, s', n - 1)
  }

  lemma TurnedStep(l: seq<int>, n: nat)
    requires 0 < n <= |l|
    ensures Turned(l[1..] + [l[0]], n - 1) == Turned(l, n)
  {
  }

  lemma NotNone(P: nat, s: Sched, p: nat, l: seq<int>)
    requires RunsFirst(P, s, p, l)
    ensures s.current != NONE && p < |s.lists| && s.lists[p := l] == s.lists
  {
    hide Top, Distinct, ThreadShape;
    HeadIsReady(P, s, p);
  }

  /** Up to one full round of yields turns the ready list by one thread each; only the list and the
      current thread change. */
  lemma {:induction false} YieldsTurn(P: nat, s: Sched, p: nat, l: seq<int>, n: nat)
    requires RunsFirst(P, s, p, l) && n <= |l|
    ensures s.current != NONE && RunsFirst(P, Yields(P, s, n), p, Turned(l, n))
    ensures Yields(P, s, n) == s.(lists := s.lists[p := Turned(l, n)], current := Turned(l, n)[0])
    decreases n
  {
    hide Top, WellFormed, Yielded;
    NotNone(P, s, p, l);
    if n == 0 {
      assert Turned(l, 0) == l;
    } else {
      YieldTurns(P, s, p, l);
      TurnedStep(l, n);
      NotNone(P, Yielded(P, s), p, l[1..] + [l[0]]);
      YieldsTurn(P, Yielded(P, s), p, l[1..] + [l[0]], n - 1);
    }
  }

  /** With k ready threads at the top priority and the first of them current, after n <= k yields
      the current thread is the n-th in turn, and after k yields everything is as before. */
  lemma RoundRobin(P: nat, s: Sched, p: nat, l: seq<int>)
    requires RunsFirst(P, s, p, l)
    ensures s.current != NONE && Yields(P, s, |l|) == s
    ensures forall n :: 0 <= n < |l| ==> Yields(P, s, n).current == l[n]
    ensures Distinct(l)
  {
    hide Top, WellFormed, Yields;
    NotNone(P, s, p, l);
    YieldsTurn(P, s, p, l, |l|);
    assert Turned(l, |l|) == l;
    forall n | 0 <= n < |l|
      ensures Yields(P, s, n).current == l[n]
    {
      YieldsTurn(P, s, p, l, n);
    }
    ListDistinct(P, s, p);
  }

  lemma ListDistinct(P: nat, s: Sched, p: nat)
    requires WellFormed(P, s) && p < P
    ensures Distinct(s.lists[p])
  {
    assert Home(s.lists[p], s.home, p);
  }

  // ----- Startup, timeout and the lock -----

  /** rt_thread_startup. */
  ghost function Started(P: nat, s: Sched, t: int): Sched
    requires WellFormed(P, s) && t in s.thread && s.thread[t].stat == Init
  {
    StartingKeeps(P, s, t);
    var s' := Resumed(Starting(P, s, t), t);
    if s'.current != NONE then
      ReadyIsSome(P, s', s.thread[t].initPriority);
      Scheduled(P, s')
    else s'
  }

  ghost function Starting(P: nat, s: Sched, t: int): Sched
    requires WellFormed(P, s) && t in s.thread
  {
    With(s, t, WithPriority(P, s.thread[t].(stat := Suspend), s.thread[t].initPriority))
  }

  lemma StartingKeeps(P: nat, s: Sched, t: int)
    requires WellFormed(P, s) && t in s.thread && s.thread[t].stat == Init
    ensures WellFormed(P, Starting(P, s, t)) && Starting(P, s, t).thread[t].stat == Suspend
    ensures s.home[t] < |s.lists| && s.thread[t].initPriority < P <= |s.lists|
    ensures Starting(P, s, t).thread[t].priority == s.thread[t].initPriority
    ensures WellFormed(P, Resumed(Starting(P, s, t), t))
    ensures P <= |Resumed(Starting(P, s, t), t).lists|
            && Resumed(Starting(P, s, t), t).lists[s.thread[t].initPriority] != []
  {
    hide Homes, WithPriority, Resumed;
    var th := s.thread[t].(stat := Suspend);
    WithPriorityShape(P, th, th.initPriority);
    WithShape(P, s, t, WithPriority(P, th, th.initPriority));
    ResumedKeeps(P, Starting(P, s, t), t);
  }

  lemma StartedKeeps(P: nat, s: Sched, t: int)
    requires WellFormed(P, s) && t in s.thread && s.thread[t].stat == Init
    ensures WellFormed(P, Started(P, s, t))
  {
    hide Homes, WithPriority, Resumed, Top, ThreadOk, ThreadShape;
    StartingKeeps(P, s, t);
    var s' := Resumed(Starting(P, s, t), t);
    if s'.current != NONE {
      ReadyIsSome(P, s', s.thread[t].initPriority);
      ScheduledKeeps(P, s');
    }
  }

  /** rt_thread_timeout. */
  ghost function TimedOut(P: nat, s: Sched, t: int): Sched
    requires WellFormed(P, s) && t in s.thread && s.thread[t].stat == Suspend
  {
    TimingOutKeeps(P, s, t);
    var s' := Resumed(With(s, t, s.thread[t].(error := ETIMEOUT)), t);
    ReadyIsSome(P, s', s.thread[t].priority);
    Scheduled(P, s')
  }

  lemma TimingOutKeeps(P: nat, s: Sched, t: int)
    requires WellFormed(P, s) && t in s.thread && s.thread[t].stat == Suspend
    ensures s.home[t] < |s.lists| && s.thread[t].priority < P <= |s.lists|
    ensures WellFormed(P, With(s, t, s.thread[t].(error := ETIMEOUT)))
    ensures WellFormed(P, Resumed(With(s, t, s.thread[t].(error := ETIMEOUT)), t))
    ensures P <= |Resumed(With(s, t, s.thread[t].(error := ETIMEOUT)), t).lists|
    ensures Resumed(With(s, t, s.thread[t].(error := ETIMEOUT)), t).lists[s.thread[t].priority] != []
  {
    hide Homes, Resumed;
    ErrorKeeps(P, s, t, ETIMEOUT);
    ResumedKeeps(P, With(s, t, s.thread[t].(error := ETIMEOUT)), t);
  }

  lemma ErrorKeeps(P: nat, s: Sched, t: int, e: int)
    requires WellFormed(P, s) && t in s.thread
    ensures WellFormed(P, With(s, t, s.thread[t].(error := e)))
  {
    hide Homes;
    WithShape(P, s, t, s.thread[t].(error := e));
  }

  lemma TimedOutKeeps(P: nat, s: Sched, t: int)
    requires WellFormed(P, s) && t in s.thread && s.thread[t].stat == Suspend
    ensures WellFormed(P, TimedOut(P, s, t))
  {
    hide Homes, Resumed, Top, ThreadOk, ThreadShape;
    TimingOutKeeps(P, s, t);
    var s' := Resumed(With(s, t, s.thread[t].(error := ETIMEOUT)), t);
    ReadyIsSome(P, s', s.thread[t].priority);
    ScheduledKeeps(P, s');
  }

  ghost function Entered(s: Sched): Sched {
    s.(nest := s.nest + 1)
  }

  ghost function Exited(P: nat, s: Sched): Sched
    requires P <= |s.lists| && (s.nest <= 1 ==> SomeReady(P, s))
  {
    if s.nest <= 1 then Scheduled(P, s.(nest := 0)) else s.(nest := s.nest - 1)
  }

  lemma LockKeeps(P: nat, s: Sched)
    requires WellFormed(P, s)
    ensures WellFormed(P, Entered(s))
    ensures s.nest <= 1 ==> SomeReady(P, s) ==> WellFormed(P, Exited(P, s))
    ensures s.nest > 1 ==> WellFormed(P, Exited(P, s))
  {
    hide Homes, Top, ThreadShape, ThreadOk;
    if s.nest <= 1 && SomeReady(P, s) {
      ScheduledKeeps(P, s.(nest := 0));
    }
  }

  // ----- Wait lists -----

  /** The position before the first thread that is less urgent than p; the end when there is none. */
  ghost function AheadOf(list: seq<int>, thread: map<int, Thread>, p: nat): (k: nat)
    requires forall i :: 0 <= i < |list| ==> list[i] in thread
    ensures k <= |list|
    ensures forall i :: 0 <= i < k ==> thread[list[i]].priority <= p
    ensures k < |list| ==> p < thread[list[k]].priority
    decreases |list|
  {
    if list == [] || p < thread[list[0]].priority then 0
    else
      var rest := list[1..];
      assert forall i :: 0 <= i < |rest| ==> rest[i] == list[i + 1];
      1 + AheadOf(rest, thread, p)
  }

  ghost predicate InOrder(list: seq<int>, thread: map<int, Thread>) {
    && (forall i :: 0 <= i < |list| ==> list[i] in thread)
    && (forall i, j :: 0 <= i < j < |list| ==> thread[list[i]].priority <= thread[list[j]].priority)
  }

  lemma Members(P: nat, s: Sched, i: nat)
    requires Shape(P, s) && i < |s.lists|
    ensures forall j :: 0 <= j < |s.lists[i]| ==> s.lists[i][j] in s.thread && s.home[s.lists[i][j]] == i
  {
    hide Distinct;
    assert Home(s.lists[i], s.home, i);
  }

  ghost function PlaceOn(P: nat, s: Sched, w: nat, t: int, byPriority: bool): nat
    requires Shape(P, s) && w < |s.lists| && t in s.thread
  {
    Members(P, s, w);
    if byPriority then AheadOf(s.lists[w], s.thread, s.thread[t].priority) else |s.lists[w]|
  }

  lemma PlaceInRange(P: nat, s: Sched, w: nat, t: int, byPriority: bool)
    requires Shape(P, s) && w < |s.lists| && t in s.thread
    ensures PlaceOn(P, s, w, t, byPriority) <= |s.lists[w]|
  {
    hide AheadOf;
    Members(P, s, w);
  }

  /** rt_ipc_list_suspend: a ready thread goes on wait list w, in arrival or in priority order. */
  ghost function Waiting(P: nat, s: Sched, w: nat, t: int, byPriority: bool): Sched
    requires WellFormed(P, s) && P <= w < |s.lists| && t in s.thread && s.thread[t].stat == Ready
  {
    SuspendedKeeps(P, s, t);
    var s' := Suspended(s, t);
    PlaceInRange(P, s', w, t, byPriority);
    s'.(lists := Put(s'.lists, w, PlaceOn(P, s', w, t, byPriority), t), home := s'.home[t := w])
  }

  lemma WaitingKeeps(P: nat, s: Sched, w: nat, t: int, byPriority: bool)
    requires WellFormed(P, s) && P <= w < |s.lists| && t in s.thread && s.thread[t].stat == Ready
    ensures WellFormed(P, Waiting(P, s, w, t, byPriority))
    ensures t in Waiting(P, s, w, t, byPriority).lists[w]
  {
    hide Home, Suspended, PlaceOn;
    SuspendedKeeps(P, s, t);
    var s' := Suspended(s, t);
    SameSize(s, t);
    PlaceInRange(P, s', w, t, byPriority);
    HomesPut(s'.lists, s'.home, w, PlaceOn(P, s', w, t, byPriority), t);
    InInserted(s'.lists[w], PlaceOn(P, s', w, t, byPriority), t, t);
  }

  lemma SameSize(s: Sched, t: int)
    requires t in s.thread && t in s.home && s.home[t] < |s.lists|
    ensures |Suspended(s, t).lists| == |s.lists|
    ensures forall i :: 0 <= i < |s.lists| && i != s.home[t] ==> Suspended(s, t).lists[i] == s.lists[i]
    ensures Suspended(s, t).thread.Keys == s.thread.Keys
    ensures forall x :: x in s.thread ==> Suspended(s, t).thread[x].priority == s.thread[x].priority
  {
  }

  /** On a list in priority order the new thread goes behind all as urgent as itself and before all
      less urgent ones, and the list stays in order. */
  lemma WaitingInOrder(P: nat, s: Sched, w: nat, t: int)
    requires WellFormed(P, s) && P <= w < |s.lists| && t in s.thread && s.thread[t].stat == Ready
    requires InOrder(s.lists[w], s.thread)
    ensures exists k :: 0 <= k <= |s.lists[w]|
              && Waiting(P, s, w, t, true).lists[w] == Inserted(s.lists[w], k, t)
              && (forall i :: 0 <= i < |s.lists[w]| ==>
                 (s.thread[s.lists[w][i]].priority <= s.thread[t].priority <==> i < k))
    ensures InOrder(Waiting(P, s, w, t, true).lists[w], Waiting(P, s, w, t, true).thread)
  {
    hide Homes, Suspended, ThreadShape, AheadOf;
    SuspendedKeeps(P, s, t);
    SameSize(s, t);
    var s' := Suspended(s, t);
    PlaceInRange(P, s', w, t, true);
    Members(P, s', w);
    var k := PlaceOn(P, s', w, t, true);
    SameOrder(s.lists[w], s.thread, s'.thread);
    Splits(s.lists[w], s'.thread, k, s.thread[t].priority);
    PutInOrder(s.lists[w], s'.thread, k, t);
  }

  lemma SameOrder(l: seq<int>, thread: map<int, Thread>, thread': map<int, Thread>)
    requires InOrder(l, thread) && thread.Keys == thread'.Keys
    requires forall x :: x in thread ==> thread'[x].priority == thread[x].priority
    ensures InOrder(l, thread')
  {
    forall i, j | 0 <= i < j < |l|
      ensures thread'[l[i]].priority <= thread'[l[j]].priority
    {
      var a, b := l[i], l[j];
      assert thread'[a].priority == thread[a].priority && thread'[b].priority == thread[b].priority;
      assert thread[l[i]].priority <= thread[l[j]].priority;
    }
  }

  lemma Splits(l: seq<int>, thread: map<int, Thread>, k: nat, p: nat)
    requires InOrder(l, thread) && k <= |l|
    requires forall i :: 0 <= i < k ==> thread[l[i]].priority <= p
    requires k < |l| ==> p < thread[l[k]].priority
    ensures forall i :: 0 <= i < |l| ==> (thread[l[i]].priority <= p <==> i < k)
  {
    forall i | k < i < |l|
      ensures p < thread[l[i]].priority
    {
      assert thread[l[k]].priority <= thread[l[i]].priority;
    }
  }

  lemma PutInOrder(l: seq<int>, thread: map<int, Thread>, k: nat, t: int)
    requires InOrder(l, thread) && t in thread && k <= |l|
    requires forall i :: 0 <= i < |l| ==> (thread[l[i]].priority <= thread[t].priority <==> i < k)
    ensures InOrder(Inserted(l, k, t), thread)
  {
    var p := Inserted(l, k, t);
    assert forall i :: 0 <= i < |p| ==> p[i] == if i < k then l[i] else if i == k then t else l[i - 1];
  }

  lemma DropInOrder(l: seq<int>, thread: map<int, Thread>, t: int)
    requires InOrder(l, thread)
    ensures InOrder(Drop(l, t), thread)
  {
    if t in l {
      var k := PositionOf(l, t);
      var p := Without(l, k);
      assert forall i :: 0 <= i < |p| ==> p[i] == l[if i < k then i else i + 1];
    }
  }

  /** rt_ipc_list_resume: the first waiter becomes ready. */
  ghost function Woken(P: nat, s: Sched, w: nat): Sched
    requires WellFormed(P, s) && P <= w < |s.lists| && s.lists[w] != []
  {
    FirstWaits(P, s, w);
    Resumed(s, s.lists[w][0])
  }

  lemma FirstWaits(P: nat, s: Sched, w: nat)
    requires WellFormed(P, s) && P <= w < |s.lists| && s.lists[w] != []
    ensures s.lists[w][0] in s.thread && s.home[s.lists[w][0]] == w && s.thread[s.lists[w][0]].stat == Suspend
    ensures s.thread[s.lists[w][0]].priority < P && Distinct(s.lists[w])
  {
    hide Distinct, WithPriority;
    Members(P, s, w);
    assert Home(s.lists[w], s.home, w);
    var t := s.lists[w][0];
    assert t in s.thread && s.home[t] == w;
    assert ThreadOk(P, s.thread[t], s.home[t]);
    assert ThreadShape(P, s.thread[t]);
  }

  lemma WokenKeeps(P: nat, s: Sched, w: nat)
    requires WellFormed(P, s) && P <= w < |s.lists| && s.lists[w] != []
    ensures WellFormed(P, Woken(P, s, w))
    ensures |Woken(P, s, w).lists| == |s.lists| && Woken(P, s, w).lists[w] == s.lists[w][1..]
    ensures Woken(P, s, w).thread == s.thread[s.lists[w][0] := s.thread[s.lists[w][0]].(stat := Ready)]
  {
    hide Homes, ThreadShape, ThreadOk;
    FirstWaits(P, s, w);
    ResumedKeeps(P, s, s.lists[w][0]);
    DropFirst(s.lists[w]);
  }

  /** rt_ipc_list_resume_all: every waiter becomes ready with error -RT_ERROR. */
  ghost function AllWoken(P: nat, s: Sched, w: nat): Sched
    requires WellFormed(P, s) && P <= w < |s.lists|
    decreases |s.lists[w]|
  {
    if s.lists[w] == [] then s
    else
      FailedKeeps(P, s, w);
      WokenKeeps(P, Failed(P, s, w), w);
      AllWoken(P, Woken(P, Failed(P, s, w), w), w)
  }

  ghost function Failed(P: nat, s: Sched, w: nat): Sched
    requires WellFormed(P, s) && P <= w < |s.lists| && s.lists[w] != []
  {
    FirstWaits(P, s, w);
    With(s, s.lists[w][0], s.thread[s.lists[w][0]].(error := EERROR))
  }

  lemma FailedKeeps(P: nat, s: Sched, w: nat)
    requires WellFormed(P, s) && P <= w < |s.lists| && s.lists[w] != []
    ensures WellFormed(P, Failed(P, s, w)) && Failed(P, s, w).lists == s.lists
  {
    hide Homes, ThreadShape, ThreadOk;
    FirstWaits(P, s, w);
    ErrorKeeps(P, s, s.lists[w][0], EERROR);
  }

  lemma {:induction false} AllWokenEmpties(P: nat, s: Sched, w: nat)
    requires WellFormed(P, s) && P <= w < |s.lists|
    ensures WellFormed(P, AllWoken(P, s, w)) && |AllWoken(P, s, w).lists| == |s.lists|
            && AllWoken(P, s, w).lists[w] == []
    ensures AllWoken(P, s, w).thread.Keys == s.thread.Keys
    ensures forall t :: t in s.lists[w] ==>
              t in s.thread && AllWoken(P, s, w).thread[t] == s.thread[t].(stat := Ready, error := EERROR)
    ensures forall t :: t in s.thread && t !in s.lists[w] ==> AllWoken(P, s, w).thread[t] == s.thread[t]
    decreases |s.lists[w]|
  {
    hide WellFormed, Woken, Failed;
    if s.lists[w] != [] {
      FailedKeeps(P, s, w);
      FailedIs(P, s, w);
      WokenKeeps(P, Failed(P, s, w), w);
      FirstWaits(P, s, w);
      DistinctTail(s.lists[w]);
      AllWokenEmpties(P, Woken(P, Failed(P, s, w), w), w);
    }
  }

  lemma FailedIs(P: nat, s: Sched, w: nat)
    requires WellFormed(P, s) && P <= w < |s.lists| && s.lists[w] != []
    ensures s.lists[w][0] in s.thread
    ensures Failed(P, s, w).thread == s.thread[s.lists[w][0] := s.thread[s.lists[w][0]].(error := EERROR)]
  {
    hide Homes, ThreadShape, ThreadOk;
    FirstWaits(P, s, w);
  }

  // ----- Runs -----

  datatype Op =
    | Startup(t: int) | Pause(t: int) | Resume(t: int) | Timeout(t: int) | Yield | SetPriority(t: int, p: nat)
    | Schedule | Lock | Unlock | Prepare(t: int) | Unlink(t: int)
    | Wait(w: nat, t: int, byPriority: bool) | Wake(w: nat) | WakeAll(w: nat)

  /** What the source asserts or takes for granted of each call. */
  ghost predicate OpOk(P: nat, s: Sched, o: Op)
    requires WellFormed(P, s)
  {
    match o
    case Startup(t) => t in s.thread && s.thread[t].stat == Init
    case Pause(t) => t in s.thread
    case Resume(t) => t in s.thread
    case Timeout(t) => t in s.thread && s.thread[t].stat == Suspend
    case Yield => s.current != NONE
    case SetPriority(t, p) => t in s.thread && p < P
    case Schedule => s.nest == 0 ==> SomeReady(P, s)
    case Lock => true
    case Unlock => s.nest <= 1 ==> SomeReady(P, s)
    case Prepare(t) => t in s.thread && s.thread[t].stat == Init
    case Unlink(t) => t in s.thread
    case Wait(w, t, _) => P <= w < |s.lists| && t in s.thread && s.thread[t].stat == Ready
    case Wake(w) => P <= w < |s.lists| && s.lists[w] != []
    case WakeAll(w) => P <= w < |s.lists|
  }

  ghost function Step(P: nat, s: Sched, o: Op): Sched
    requires WellFormed(P, s) && OpOk(P, s, o)
  {
    match o
    case Startup(t) => Started(P, s, t)
    case Pause(t) => HomeBound(P, s, t); Suspended(s, t)
    case Resume(t) => ResumedKeeps(P, s, t); Resumed(s, t)
    case Timeout(t) => TimedOut(P, s, t)
    case Yield => Yielded(P, s)
    case SetPriority(t, p) => Changed(P, s, t, p)
    case Schedule => Scheduled(P, s)
    case Lock => Entered(s)
    case Unlock => Exited(P, s)
    case Prepare(t) => Starting(P, s, t)
    case Unlink(t) => HomeBound(P, s, t); Unlinked(s, t)
    case Wait(w, t, byPriority) => Waiting(P, s, w, t, byPriority)
    case Wake(w) => Woken(P, s, w)
    case WakeAll(w) => AllWoken(P, s, w)
  }

  lemma StepKeeps(P: nat, s: Sched, o: Op)
    requires WellFormed(P, s) && OpOk(P, s, o)
    ensures WellFormed(P, Step(P, s, o))
  {
    hide Homes, ThreadShape, ThreadOk, Started, Suspended, Resumed, TimedOut, Yielded, Changed, Scheduled, Waiting,
      Woken, AllWoken, Starting, Unlinked;
    match o
    case Startup(t) => StartedKeeps(P, s, t);
    case Pause(t) => SuspendedKeeps(P, s, t);
    case Resume(t) => ResumedKeeps(P, s, t);
    case Timeout(t) => TimedOutKeeps(P, s, t);
    case Yield => YieldedKeeps(P, s);
    case SetPriority(t, p) => ChangedKeeps(P, s, t, p);
    case Schedule => ScheduledKeeps(P, s);
    case Lock => LockKeeps(P, s);
    case Unlock => LockKeeps(P, s);
    case Prepare(t) => StartingKeeps(P, s, t);
    case Unlink(t) => UnlinkedKeeps(P, s, t);
    case Wait(w, t, byPriority) => WaitingKeeps(P, s, w, t, byPriority);
    case Wake(w) => WokenKeeps(P, s, w);
    case WakeAll(w) => AllWokenEmpties(P, s, w);
  }

  /** Every call meets its conditions in the state it finds. */
  ghost predicate RunOk(P: nat, s: Sched, ops: seq<Op>)
    requires WellFormed(P, s)
    decreases |ops|
  {
    ops != [] ==> OpOk(P, s, ops[0]) && (StepKeeps(P, s, ops[0]); RunOk(P, Step(P, s, ops[0]), ops[1..]))
  }

  ghost function Run(P: nat, s: Sched, ops: seq<Op>): Sched
    requires WellFormed(P, s) && RunOk(P, s, ops)
    decreases |ops|
  {
    if ops == [] then s else StepKeeps(P, s, ops[0]); Run(P, Step(P, s, ops[0]), ops[1..])
  }

  /** READY threads stay on exactly the ready list of their priority through every run. */
  lemma {:induction false} RunKeeps(P: nat, s: Sched, ops: seq<Op>)
    requires WellFormed(P, s) && RunOk(P, s, ops)
    ensures WellFormed(P, Run(P, s, ops))
    decreases |ops|
  {
    hide WellFormed, Step;
    if ops != [] {
      StepKeeps(P, s, ops[0]);
      RunKeeps(P, Step(P, s, ops[0]), ops[1..]);
    }
  }

  /** The current thread is READY, the first of its priority, and no READY thread is more urgent. */
  ghost predicate BestRuns(P: nat, s: Sched)
    requires WellFormed(P, s)
  {
    && s.current in s.thread && s.thread[s.current].stat == Ready
    && s.lists[s.thread[s.current].priority][..1] == [s.current]
    && forall t :: t in s.thread && s.thread[t].stat == Ready ==> s.thread[s.current].priority <= s.thread[t].priority
  }

  lemma ScheduledIsBest(P: nat, s: Sched)
    requires WellFormed(P, s) && s.nest == 0 && SomeReady(P, s)
    ensures WellFormed(P, Scheduled(P, s)) && BestRuns(P, Scheduled(P, s))
  {
    hide Homes, ThreadShape, ThreadOk, Top;
    ScheduledBest(P, s);
  }

  /** Every call that ends in rt_schedule with the scheduler unlocked leaves the best thread running. */
  lemma StepSchedules(P: nat, s: Sched, o: Op)
    requires WellFormed(P, s) && OpOk(P, s, o)
    requires s.nest == 0 || (o.Unlock? && s.nest == 1)
    requires o.Schedule? || o.Timeout? || o.Unlock? || (o.Startup? && s.current != NONE) || (o.Yield? && GivesWay(s))
    ensures WellFormed(P, Step(P, s, o)) && BestRuns(P, Step(P, s, o))
  {
    hide Homes, ThreadShape, ThreadOk, Top, Taken, Put, WithPriority, BestRuns;
    match o
    case Startup(t) =>
      StartingKeeps(P, s, t);
      ReadyIsSome(P, Resumed(Starting(P, s, t), t), s.thread[t].initPriority);
      ScheduledIsBest(P, Resumed(Starting(P, s, t), t));
    case Timeout(t) =>
      TimingOutKeeps(P, s, t);
      ReadyIsSome(P, Resumed(With(s, t, s.thread[t].(error := ETIMEOUT)), t), s.thread[t].priority);
      ScheduledIsBest(P, Resumed(With(s, t, s.thread[t].(error := ETIMEOUT)), t));
    case Schedule => ScheduledIsBest(P, s);
    case Yield =>
      RotatedKeeps(P, s, s.current);
      var p := s.thread[s.current].priority;
      ScheduledIsBest(P, s.(lists := s.lists[p := Drop(s.lists[p], s.current) + [s.current]]));
    case Unlock =>
      ScheduledIsBest(P, s.(nest := 0));
  }

  /** rt_thread_yield has another thread of its priority to give way to; if not, it does nothing. */
  ghost predicate GivesWay(s: Sched) {
    && s.current in s.thread && s.thread[s.current].stat == Ready
    && s.thread[s.current].priority < |s.lists| && s.lists[s.thread[s.current].priority] != [s.current]
  }

  lemma YieldsOnlyToOthers(P: nat, s: Sched)
    requires WellFormed(P, s) && s.current != NONE
    ensures !GivesWay(s) ==> Yielded(P, s) == s
  {
    hide Homes, ThreadShape, ThreadOk, Top;
    ShapeBounds(P, s, s.current);
  }

  // ----- A locked scheduler -----

  lemma {:induction false} AllWokenCurrent(P: nat, s: Sched, w: nat)
    requires WellFormed(P, s) && P <= w < |s.lists|
    ensures AllWoken(P, s, w).current == s.current && AllWoken(P, s, w).nest == s.nest
    decreases |s.lists[w]|
  {
    hide WellFormed, Woken, Failed;
    if s.lists[w] != [] {
      FailedKeeps(P, s, w);
      WokenKeeps(P, Failed(P, s, w), w);
      WokenCurrent(P, s, w);
      AllWokenCurrent(P, Woken(P, Failed(P, s, w), w), w);
    }
  }

  lemma WokenCurrent(P: nat, s: Sched, w: nat)
    requires WellFormed(P, s) && P <= w < |s.lists| && s.lists[w] != []
    ensures WellFormed(P, Failed(P, s, w)) && Failed(P, s, w).lists == s.lists
    ensures Woken(P, Failed(P, s, w), w).current == s.current && Woken(P, Failed(P, s, w), w).nest == s.nest
  {
    FailedKeeps(P, s, w);
  }

  /** No call but the one that unlocks the scheduler changes the current thread. */
  lemma StepLocked(P: nat, s: Sched, o: Op)
    requires WellFormed(P, s) && OpOk(P, s, o) && s.nest > 0 && !(o.Unlock? && s.nest == 1)
    ensures Step(P, s, o).current == s.current && Step(P, s, o).nest > 0
  {
    hide Homes, ThreadShape, ThreadOk, Top, Taken, Put, WithPriority, AllWoken;
    match o
    case WakeAll(w) => AllWokenCurrent(P, s, w);
    case Startup(t) => StartingKeeps(P, s, t);
    case Timeout(t) => TimingOutKeeps(P, s, t);
    case _ =>
  }

  /** The scheduler is locked in every state of the run. */
  ghost predicate LockedThrough(P: nat, s: Sched, ops: seq<Op>)
    requires WellFormed(P, s) && RunOk(P, s, ops)
    decreases |ops|
  {
    s.nest > 0 && (ops != [] ==> (StepKeeps(P, s, ops[0]); LockedThrough(P, Step(P, s, ops[0]), ops[1..])))
  }

  lemma {:induction false} RunLocked(P: nat, s: Sched, ops: seq<Op>)
    requires WellFormed(P, s) && RunOk(P, s, ops) && LockedThrough(P, s, ops)
    ensures Run(P, s, ops).current == s.current && Run(P, s, ops).nest > 0
    decreases |ops|
  {
    hide WellFormed, Step;
    if ops != [] {
      StepKeeps(P, s, ops[0]);
      LockedNext(P, s, ops);
      UnlockLast(P, s, ops[0]);
      StepLocked(P, s, ops[0]);
      RunLocked(P, Step(P, s, ops[0]), ops[1..]);
    }
  }

  lemma LockedNext(P: nat, s: Sched, ops: seq<Op>)
    requires WellFormed(P, s) && RunOk(P, s, ops) && LockedThrough(P, s, ops) && ops != []
    ensures Step(P, s, ops[0]).nest > 0
  {
    hide WellFormed, Step;
    StepKeeps(P, s, ops[0]);
  }

  lemma UnlockLast(P: nat, s: Sched, o: Op)
    requires WellFormed(P, s) && OpOk(P, s, o) && Step(P, s, o).nest > 0
    ensures !(o.Unlock? && s.nest == 1)
  {
    hide Homes, ThreadShape, ThreadOk, Top;
  }

  /** Whatever happens while the scheduler is locked leaves the current thread alone, and the exit that
      unlocks it makes the best ready thread current. */
  lemma ExitSchedules(P: nat, s: Sched, ops: seq<Op>)
    requires WellFormed(P, s) && WellFormed(P, Entered(s)) && RunOk(P, Entered(s), ops)
             && LockedThrough(P, Entered(s), ops)
    requires WellFormed(P, Run(P, Entered(s), ops))
    requires Run(P, Entered(s), ops).nest <= 1 ==> SomeReady(P, Run(P, Entered(s), ops))
    ensures var e := Run(P, Entered(s), ops);
            && e.current == s.current
            && WellFormed(P, Exited(P, e))
            && if e.nest == 1 then BestRuns(P, Exited(P, e)) else Exited(P, e).current == s.current
  {
    hide Homes, Top, ThreadShape, ThreadOk, BestRuns;
    RunLocked(P, Entered(s), ops);
    var e := Run(P, Entered(s), ops);
    LockKeeps(P, e);
    if e.nest == 1 {
      StepSchedules(P, e, Unlock);
    }
  }

  // ----- Priority wait lists over runs -----

  ghost predicate Ordered(s: Sched, W: set<nat>) {
    forall w :: w in W ==> w < |s.lists| && InOrder(s.lists[w], s.thread)
  }

  /** W is a set of wait lists used by priority, and the call changes no waiter's priority. */
  ghost predicate KeepsPriority(P: nat, s: Sched, o: Op, W: set<nat>)
    requires WellFormed(P, s) && OpOk(P, s, o)
  {
    && (forall w :: w in W ==> P <= w)
    && (o.Wait? && o.w in W ==> o.byPriority)
    && (o.SetPriority? ==> forall w :: w in W && w < |s.lists| ==> o.t !in s.lists[w])
  }

  /** Wait list w lost at most one thread, and nobody waiting on it changed priority. */
  ghost predicate Shrinks(s: Sched, s': Sched, w: nat) {
    && w < |s.lists| == |s'.lists|
    && (s'.lists[w] == s.lists[w] || exists t :: s'.lists[w] == Drop(s.lists[w], t))
    && (forall i :: 0 <= i < |s.lists[w]| ==> Same(s, s', s.lists[w][i]))
  }

  ghost predicate Same(s: Sched, s': Sched, t: int) {
    t in s.thread && t in s'.thread && s'.thread[t].priority == s.thread[t].priority
  }

  lemma ShrinksInOrder(s: Sched, s': Sched, w: nat)
    requires Shrinks(s, s', w) && InOrder(s.lists[w], s.thread)
    ensures InOrder(s'.lists[w], s'.thread)
  {
    hide Drop;
    var l := s.lists[w];
    forall i, j | 0 <= i < j < |l|
      ensures s'.thread[l[i]].priority <= s'.thread[l[j]].priority
    {
      assert Same(s, s', l[i]) && Same(s, s', l[j]);
      assert s.thread[l[i]].priority <= s.thread[l[j]].priority;
    }
    if s'.lists[w] != l {
      var t :| s'.lists[w] == Drop(l, t);
      DropInOrder(l, s'.thread, t);
    }
  }

  lemma ResumedShrinks(P: nat, s: Sched, t: int, w: nat)
    requires WellFormed(P, s) && t in s.thread && P <= w < |s.lists|
    ensures s.home[t] < |s.lists| && s.thread[t].priority < |s.lists| && Shrinks(s, Resumed(s, t), w)
  {
    hide Home, Drop, WithPriority, Inserted;
    HomeBound(P, s, t);
    ShapeBounds(P, s, t);
    Members(P, s, w);
    var h := s.home[t];
    assert h == w ==> Taken(s.lists, s.home, t)[w] == Drop(s.lists[w], t);
  }

  lemma UnlinkedShrinks(P: nat, s: Sched, t: int, w: nat)
    requires WellFormed(P, s) && t in s.thread && P <= w < |s.lists|
    ensures s.home[t] < |s.lists| && Shrinks(s, Unlinked(s, t), w)
  {
    hide Home, Drop, WithPriority, Inserted;
    HomeBound(P, s, t);
    ShapeBounds(P, s, t);
    Members(P, s, w);
  }

  lemma StartingShrinks(P: nat, s: Sched, t: int, w: nat)
    requires WellFormed(P, s) && t in s.thread && s.thread[t].stat == Init && P <= w < |s.lists|
    ensures Shrinks(s, Starting(P, s, t), w)
  {
    hide Homes, ThreadShape, WithPriority;
    StartingKeeps(P, s, t);
    Members(P, s, w);
    assert ThreadOk(P, s.thread[t], s.home[t]);
  }

  lemma SuspendedShrinks(P: nat, s: Sched, t: int, w: nat)
    requires WellFormed(P, s) && t in s.thread && P <= w < |s.lists|
    ensures s.home[t] < |s.lists| && Shrinks(s, Suspended(s, t), w)
  {
    hide Home, Drop, WithPriority, Inserted;
    HomeBound(P, s, t);
    ShapeBounds(P, s, t);
    Members(P, s, w);
  }

  lemma {:induction false} AllWokenOrder(P: nat, s: Sched, v: nat, w: nat)
    requires WellFormed(P, s) && P <= v < |s.lists| && P <= w < |s.lists| && InOrder(s.lists[w], s.thread)
    ensures |AllWoken(P, s, v).lists| == |s.lists| && InOrder(AllWoken(P, s, v).lists[w], AllWoken(P, s, v).thread)
    decreases |s.lists[v]|
  {
    hide WellFormed, Woken, Failed, Shrinks, InOrder;
    if s.lists[v] != [] {
      FailedKeeps(P, s, v);
      WokenKeeps(P, Failed(P, s, v), v);
      WakeOrder(P, s, v, w);
      AllWokenOrder(P, Woken(P, Failed(P, s, v), v), v, w);
    }
  }

  lemma WakeOrder(P: nat, s: Sched, v: nat, w: nat)
    requires WellFormed(P, s) && P <= v < |s.lists| && s.lists[v] != [] && P <= w < |s.lists|
             && InOrder(s.lists[w], s.thread)
    ensures WellFormed(P, Failed(P, s, v)) && Failed(P, s, v).lists == s.lists
    ensures |Woken(P, Failed(P, s, v), v).lists| == |s.lists|
    ensures InOrder(Woken(P, Failed(P, s, v), v).lists[w], Woken(P, Failed(P, s, v), v).thread)
  {
    hide Homes, ThreadShape, ThreadOk, Resumed;
    FailedKeeps(P, s, v);
    FirstWaits(P, s, v);
    var f := Failed(P, s, v);
    SameOrder(s.lists[w], s.thread, f.thread);
    ResumedShrinks(P, f, s.lists[v][0], w);
    ShrinksInOrder(f, Woken(P, f, v), w);
  }

  /** One call keeps every such wait list in priority order. */
  lemma StepOrder(P: nat, s: Sched, o: Op, W: set<nat>, w: nat)
    requires WellFormed(P, s) && OpOk(P, s, o) && KeepsPriority(P, s, o, W) && Ordered(s, W) && w in W
    ensures WellFormed(P, Step(P, s, o)) && |Step(P, s, o).lists| == |s.lists|
    ensures InOrder(Step(P, s, o).lists[w], Step(P, s, o).thread)
  {
    hide Homes, ThreadShape, ThreadOk, Resumed, Suspended, Top, InOrder, AllWoken, Woken, Changed, Yielded, Waiting,
      WithPriority, Started, TimedOut, Starting, Unlinked;
    StepKeeps(P, s, o);
    match o
    case Startup(t) => StartedOrder(P, s, t, w);
    case Pause(t) => SuspendedShrinks(P, s, t, w); ShrinksInOrder(s, Suspended(s, t), w);
    case Resume(t) => ResumedShrinks(P, s, t, w); ShrinksInOrder(s, Resumed(s, t), w);
    case Timeout(t) => TimedOutOrder(P, s, t, w);
    case Yield => YieldedOrder(P, s, w);
    case SetPriority(t, p) => ChangedOrder(P, s, t, p, w);
    case Schedule =>
    case Lock =>
    case Unlock =>
    case Prepare(t) => StartingShrinks(P, s, t, w); ShrinksInOrder(s, Starting(P, s, t), w);
    case Unlink(t) => UnlinkedShrinks(P, s, t, w); ShrinksInOrder(s, Unlinked(s, t), w);
    case Wait(v, t, byPriority) => WaitOrder(P, s, v, t, byPriority, w);
    case Wake(v) => WokenOrder(P, s, v, w);
    case WakeAll(v) => AllWokenOrder(P, s, v, w);
  }

  lemma WokenOrder(P: nat, s: Sched, v: nat, w: nat)
    requires WellFormed(P, s) && P <= v < |s.lists| && s.lists[v] != [] && P <= w < |s.lists|
             && InOrder(s.lists[w], s.thread)
    ensures |Woken(P, s, v).lists| == |s.lists| && InOrder(Woken(P, s, v).lists[w], Woken(P, s, v).thread)
  {
    hide Homes, ThreadShape, ThreadOk, Resumed;
    FirstWaits(P, s, v);
    ResumedShrinks(P, s, s.lists[v][0], w);
    ShrinksInOrder(s, Woken(P, s, v), w);
  }

  lemma StartedOrder(P: nat, s: Sched, t: int, w: nat)
    requires WellFormed(P, s) && t in s.thread && s.thread[t].stat == Init && P <= w < |s.lists|
             && InOrder(s.lists[w], s.thread)
    ensures |Started(P, s, t).lists| == |s.lists| && InOrder(Started(P, s, t).lists[w], Started(P, s, t).thread)
  {
    hide Homes, ThreadShape, Resumed, Top, Drop, WithPriority;
    StartingKeeps(P, s, t);
    var mid := Starting(P, s, t);
    Members(P, s, w);
    assert ThreadOk(P, s.thread[t], s.home[t]);
    ApartInOrder(s.lists[w], s.thread, mid.thread, t);
    ResumedShrinks(P, mid, t, w);
    ShrinksInOrder(mid, Resumed(mid, t), w);
  }

  lemma ApartInOrder(l: seq<int>, thread: map<int, Thread>, thread': map<int, Thread>, t: int)
    requires InOrder(l, thread) && t !in l
    requires t in thread && t in thread' && thread' == thread[t := thread'[t]]
    ensures InOrder(l, thread')
  {
    forall i, j | 0 <= i < j < |l|
      ensures thread'[l[i]].priority <= thread'[l[j]].priority
    {
      assert l[i] != t && l[j] != t;
      assert thread[l[i]].priority <= thread[l[j]].priority;
    }
    forall i | 0 <= i < |l|
      ensures l[i] in thread'
    {
      assert l[i] != t;
    }
  }

  lemma TimedOutOrder(P: nat, s: Sched, t: int, w: nat)
    requires WellFormed(P, s) && t in s.thread && s.thread[t].stat == Suspend && P <= w < |s.lists|
             && InOrder(s.lists[w], s.thread)
    ensures |TimedOut(P, s, t).lists| == |s.lists| && InOrder(TimedOut(P, s, t).lists[w], TimedOut(P, s, t).thread)
  {
    hide Homes, ThreadShape, ThreadOk, Resumed, Top, Drop, WithPriority;
    TimingOutKeeps(P, s, t);
    var mid := With(s, t, s.thread[t].(error := ETIMEOUT));
    SameOrder(s.lists[w], s.thread, mid.thread);
    ResumedShrinks(P, mid, t, w);
    ShrinksInOrder(mid, Resumed(mid, t), w);
  }

  lemma YieldedOrder(P: nat, s: Sched, w: nat)
    requires WellFormed(P, s) && s.current != NONE && P <= w < |s.lists| && InOrder(s.lists[w], s.thread)
    ensures |Yielded(P, s).lists| == |s.lists| && InOrder(Yielded(P, s).lists[w], Yielded(P, s).thread)
  {
    hide Homes, ThreadOk, Top, Drop, WithPriority, InOrder;
  }

  lemma ChangedOrder(P: nat, s: Sched, t: int, p: nat, w: nat)
    requires WellFormed(P, s) && t in s.thread && p < P && P <= w < |s.lists| && t !in s.lists[w]
    requires InOrder(s.lists[w], s.thread)
    ensures |Changed(P, s, t, p).lists| == |s.lists|
            && InOrder(Changed(P, s, t, p).lists[w], Changed(P, s, t, p).thread)
  {
    hide Homes, ThreadShape, ThreadOk, InOrder, Changed;
    ChangedSame(P, s, t, p, w);
    ChangedKeeps(P, s, t, p);
    ApartInOrder(s.lists[w], s.thread, Changed(P, s, t, p).thread, t);
  }

  /** A priority change concerns one thread and no wait list. */
  lemma ChangedSame(P: nat, s: Sched, t: int, p: nat, w: nat)
    requires WellFormed(P, s) && t in s.thread && p < P && P <= w < |s.lists|
    ensures |Changed(P, s, t, p).lists| == |s.lists| && Changed(P, s, t, p).lists[w] == s.lists[w]
    ensures t in Changed(P, s, t, p).thread
            && Changed(P, s, t, p).thread == s.thread[t := Changed(P, s, t, p).thread[t]]
    ensures Changed(P, s, t, p).thread[t].stat == s.thread[t].stat && Changed(P, s, t, p).thread[t].priority == p
    ensures Changed(P, s, t, p).thread[t].error == s.thread[t].error && Changed(P, s, t, p).current == s.current
  {
    hide Homes, Drop, ThreadShape, Mask;
    assert ThreadOk(P, s.thread[t], s.home[t]);
    DequeuedShape(P, s, t);
    WithPriorityIs(P, s, t, p);
  }

  lemma WithPriorityIs(P: nat, s: Sched, t: int, p: nat)
    requires Shape(P, s) && t in s.thread && p < P
    ensures WithPriority(P, s.thread[t], p).priority == p && p < |s.lists|
  {
  }

  lemma WaitOrder(P: nat, s: Sched, v: nat, t: int, byPriority: bool, w: nat)
    requires WellFormed(P, s) && P <= v < |s.lists| && t in s.thread && s.thread[t].stat == Ready
    requires P <= w < |s.lists| && InOrder(s.lists[w], s.thread) && (v == w ==> byPriority)
    ensures |Waiting(P, s, v, t, byPriority).lists| == |s.lists|
    ensures InOrder(Waiting(P, s, v, t, byPriority).lists[w], Waiting(P, s, v, t, byPriority).thread)
  {
    hide Homes, ThreadShape, Suspended, InOrder, AheadOf;
    SuspendedKeeps(P, s, t);
    SameSize(s, t);
    if v == w {
      WaitingInOrder(P, s, w, t);
    } else {
      PlaceInRange(P, Suspended(s, t), v, t, byPriority);
      assert s.home[t] != w by { assert ThreadOk(P, s.thread[t], s.home[t]); }
      SameOrder(s.lists[w], s.thread, Suspended(s, t).thread);
    }
  }

  /** Over every run that changes no waiter's priority, the wait lists used by priority stay in order. */
  lemma {:induction false} RunOrder(P: nat, s: Sched, ops: seq<Op>, W: set<nat>)
    requires WellFormed(P, s) && RunOk(P, s, ops) && Ordered(s, W) && RunKeepsPriority(P, s, ops, W)
    ensures Ordered(Run(P, s, ops), W)
    decreases |ops|
  {
    hide WellFormed, Step, InOrder, OpOk, KeepsPriority;
    if ops != [] {
      forall w | w in W
        ensures w < |Step(P, s, ops[0]).lists| && InOrder(Step(P, s, ops[0]).lists[w], Step(P, s, ops[0]).thread)
      {
        StepOrder(P, s, ops[0], W, w);
      }
      StepKeeps(P, s, ops[0]);
      RunOrder(P, Step(P, s, ops[0]), ops[1..], W);
    }
  }

  ghost predicate RunKeepsPriority(P: nat, s: Sched, ops: seq<Op>, W: set<nat>)
    requires WellFormed(P, s) && RunOk(P, s, ops)
    decreases |ops|
  {
    ops != [] ==>
      KeepsPriority(P, s, ops[0], W) && (StepKeeps(P, s, ops[0]); RunKeepsPriority(P, Step(P, s, ops[0]), ops[1..], W))
  }

  // ----- What a call leaves alone -----

  /** Nobody new waits on w. */
  ghost predicate Thins(s: Sched, s': Sched, w: nat) {
    && w < |s.lists| == |s'.lists|
    && (s.lists[w] == [] ==> s'.lists[w] == [])
    && forall x :: x in s'.lists[w] ==> x in s.lists[w]
  }

  lemma ShrinksThins(P: nat, s: Sched, s': Sched, w: nat)
    requires Shape(P, s) && Shrinks(s, s', w)
    ensures Thins(s, s', w)
  {
    hide Home, ThreadShape, Drop;
    HomeDistinct(s.lists, s.home, w);
    if s'.lists[w] != s.lists[w] {
      var t :| s'.lists[w] == Drop(s.lists[w], t);
      InDrop(s.lists[w], t);
      DropSize(s.lists[w], t);
    }
  }

  lemma DropSize<T>(l: seq<T>, t: T)
    ensures |Drop(l, t)| <= |l|
  {
  }

  lemma {:induction false} AllWokenThins(P: nat, s: Sched, v: nat, w: nat)
    requires WellFormed(P, s) && P <= v < |s.lists| && P <= w < |s.lists|
    ensures Thins(s, AllWoken(P, s, v), w)
    decreases |s.lists[v]|
  {
    hide WellFormed, Woken, Failed, Shrinks, Resumed;
    if s.lists[v] != [] {
      FailedKeeps(P, s, v);
      WokenKeeps(P, Failed(P, s, v), v);
      WokenThins(P, Failed(P, s, v), v, w);
      AllWokenThins(P, Woken(P, Failed(P, s, v), v), v, w);
    }
  }

  lemma WokenThins(P: nat, s: Sched, v: nat, w: nat)
    requires WellFormed(P, s) && P <= v < |s.lists| && s.lists[v] != [] && P <= w < |s.lists|
    ensures Thins(s, Woken(P, s, v), w)
  {
    hide Homes, ThreadShape, ThreadOk, Resumed, Shrinks;
    FirstWaits(P, s, v);
    ResumedShrinks(P, s, s.lists[v][0], w);
    ShrinksThins(P, s, Resumed(s, s.lists[v][0]), w);
  }

  /** Only a wait call on w itself puts a thread there. */
  lemma StepThins(P: nat, s: Sched, o: Op, w: nat)
    requires WellFormed(P, s) && OpOk(P, s, o) && P <= w < |s.lists| && !(o.Wait? && o.w == w)
    ensures Thins(s, Step(P, s, o), w)
  {
    hide Homes, ThreadShape, ThreadOk, Resumed, Suspended, Top, AllWoken, Woken, Changed, Yielded, Waiting,
      WithPriority, Started, TimedOut, Shrinks, Starting, Unlinked;
    match o
    case Startup(t) => StartedThins(P, s, t, w);
    case Pause(t) => SuspendedShrinks(P, s, t, w); ShrinksThins(P, s, Suspended(s, t), w);
    case Resume(t) => ResumedShrinks(P, s, t, w); ShrinksThins(P, s, Resumed(s, t), w);
    case Timeout(t) => TimedOutThins(P, s, t, w);
    case Yield => YieldedThins(P, s, w);
    case SetPriority(t, p) => ChangedThins(P, s, t, p, w);
    case Schedule =>
    case Lock =>
    case Unlock =>
    case Prepare(t) => StartingShrinks(P, s, t, w); ShrinksThins(P, s, Starting(P, s, t), w);
    case Unlink(t) => UnlinkedShrinks(P, s, t, w); ShrinksThins(P, s, Unlinked(s, t), w);
    case Wait(v, t, byPriority) => WaitThins(P, s, v, t, byPriority, w);
    case Wake(v) => WokenThins(P, s, v, w);
    case WakeAll(v) => AllWokenThins(P, s, v, w);
  }

  lemma StartedThins(P: nat, s: Sched, t: int, w: nat)
    requires WellFormed(P, s) && t in s.thread && s.thread[t].stat == Init && P <= w < |s.lists|
    ensures Thins(s, Started(P, s, t), w)
  {
    hide Homes, ThreadShape, ThreadOk, Resumed, Top, WithPriority, Shrinks;
    StartingKeeps(P, s, t);
    ResumedShrinks(P, Starting(P, s, t), t, w);
    ShrinksThins(P, Starting(P, s, t), Resumed(Starting(P, s, t), t), w);
  }

  lemma TimedOutThins(P: nat, s: Sched, t: int, w: nat)
    requires WellFormed(P, s) && t in s.thread && s.thread[t].stat == Suspend && P <= w < |s.lists|
    ensures Thins(s, TimedOut(P, s, t), w)
  {
    hide Homes, ThreadShape, ThreadOk, Resumed, Top, WithPriority, Shrinks;
    TimingOutKeeps(P, s, t);
    var mid := With(s, t, s.thread[t].(error := ETIMEOUT));
    ResumedShrinks(P, mid, t, w);
    ShrinksThins(P, mid, Resumed(mid, t), w);
  }

  lemma YieldedThins(P: nat, s: Sched, w: nat)
    requires WellFormed(P, s) && s.current != NONE && P <= w < |s.lists|
    ensures Thins(s, Yielded(P, s), w)
  {
    hide Homes, ThreadOk, Top, Drop, WithPriority;
  }

  lemma ChangedThins(P: nat, s: Sched, t: int, p: nat, w: nat)
    requires WellFormed(P, s) && t in s.thread && p < P && P <= w < |s.lists|
    ensures Thins(s, Changed(P, s, t, p), w)
  {
    hide Homes, Top, Drop, ThreadShape, Inserted;
    DequeuedShape(P, s, t);
    WithPriorityIs(P, s, t, p);
    assert ThreadOk(P, s.thread[t], s.home[t]);
  }

  lemma WaitThins(P: nat, s: Sched, v: nat, t: int, byPriority: bool, w: nat)
    requires WellFormed(P, s) && P <= v < |s.lists| && t in s.thread && s.thread[t].stat == Ready
    requires P <= w < |s.lists| && v != w
    ensures Thins(s, Waiting(P, s, v, t, byPriority), w)
  {
    hide Homes, ThreadShape, Suspended, AheadOf;
    SuspendedKeeps(P, s, t);
    SameSize(s, t);
    PlaceInRange(P, Suspended(s, t), v, t, byPriority);
    assert s.home[t] != w by { assert ThreadOk(P, s.thread[t], s.home[t]); }
  }

  // ----- Priorities -----

  /** Threads stay, none returns to its initial state, and only the named one changes priority. */
  ghost predicate Priorities(s: Sched, s': Sched, except: set<int>) {
    && s'.thread.Keys == s.thread.Keys
    && (forall t :: t in s.thread && s.thread[t].stat != Init ==> s'.thread[t].stat != Init)
    && (forall t :: t in s.thread && t !in except ==> s'.thread[t].priority == s.thread[t].priority)
  }

  lemma {:induction false} AllWokenPriorities(P: nat, s: Sched, v: nat)
    requires WellFormed(P, s) && P <= v < |s.lists|
    ensures Priorities(s, AllWoken(P, s, v), {})
  {
    hide WellFormed, AllWoken;
    AllWokenEmpties(P, s, v);
  }

  ghost function Renamed(o: Op): set<int> {
    match o
    case Startup(t) => {t}
    case Prepare(t) => {t}
    case SetPriority(t, _) => {t}
    case _ => {}
  }

  lemma StepPriorities(P: nat, s: Sched, o: Op)
    requires WellFormed(P, s) && OpOk(P, s, o)
    ensures Priorities(s, Step(P, s, o), Renamed(o))
  {
    hide Homes, ThreadShape, ThreadOk, Top, AllWoken, WithPriority, Taken, Put, AheadOf;
    match o
    case Startup(t) => StartedPriorities(P, s, t);
    case Pause(t) => SuspendedKeeps(P, s, t);
    case Resume(t) => ResumedKeeps(P, s, t);
    case Timeout(t) => TimingOutKeeps(P, s, t);
    case Yield =>
    case SetPriority(t, p) => ChangedPriorities(P, s, t, p);
    case Schedule =>
    case Lock =>
    case Unlock =>
    case Prepare(t) => StartingKeeps(P, s, t);
    case Unlink(t) => UnlinkedKeeps(P, s, t);
    case Wait(v, t, byPriority) => SuspendedKeeps(P, s, t);
    case Wake(v) => FirstWaits(P, s, v); WokenKeeps(P, s, v);
    case WakeAll(v) => AllWokenPriorities(P, s, v);
  }

  lemma StartedPriorities(P: nat, s: Sched, t: int)
    requires WellFormed(P, s) && t in s.thread && s.thread[t].stat == Init
    ensures Priorities(s, Started(P, s, t), {t})
  {
    hide Homes, ThreadShape, ThreadOk, Top, WithPriority, Taken, Put;
    StartingKeeps(P, s, t);
  }

  lemma ChangedPriorities(P: nat, s: Sched, t: int, p: nat)
    requires WellFormed(P, s) && t in s.thread && p < P
    ensures Priorities(s, Changed(P, s, t, p), {t})
  {
    hide Homes, ThreadShape, ThreadOk, Taken, Put, Mask;
    DequeuedShape(P, s, t);
    WithPriorityIs(P, s, t, p);
  }
}
