/** What the IPC objects share: a wait list of their own, and arbitrary scheduler calls in between. */
module Ipc {
  import opened Bits
  import opened RtList
  import opened Threads
  import opened SchedSpec
  import opened SchedEffects

  const EOK: int := 0

  /** Wait list w of the scheduler is the object's; byPriority is RT_IPC_FLAG_PRIO. */
  datatype Config = Config(P: nat, w: nat, byPriority: bool)

  ghost predicate Fits(c: Config, s: Sched) {
    WellFormed(c.P, s) && c.P <= c.w < |s.lists|
  }

  ghost predicate Clean(s: Sched, t: int) {
    t in s.thread && s.thread[t].error == EOK
  }

  /** The current thread has not suspended itself. */
  ghost predicate Running(s: Sched) {
    s.current in s.thread && s.thread[s.current].stat == Ready
  }

  /** The calls asserted to come from a thread come from the current one; it may have suspended itself. */
  ghost predicate InThread(s: Sched) {
    s.current != NONE && s.current in s.thread && s.thread[s.current].stat != Init
  }

  /** Who makes a call: an interrupt handler, possibly after the current thread suspended itself and before
      rt_schedule; the current thread; or the current thread when it was resumed and looks again. */
  datatype Caller = Handler | First | Again

  /** Of the threads that were resumed and have not looked again, a call by the current thread removes it. */
  ghost function Looked(pending: set<int>, s: Sched, who: Caller): set<int> {
    if who == Handler then pending else pending - {s.current}
  }

  ghost function Cleaned(s: Sched): Sched
    requires s.current in s.thread
  {
    With(s, s.current, s.thread[s.current].(error := EOK))
  }

  lemma CleanKeeps(c: Config, s: Sched)
    requires Fits(c, s) && s.current in s.thread
    ensures Fits(c, Cleaned(s)) && Cleaned(s).lists == s.lists && Cleaned(s).current == s.current
    ensures (Running(s) <==> Running(Cleaned(s))) && (InThread(s) <==> InThread(Cleaned(s)))
  {
    hide Homes, ThreadShape, ThreadOk;
    ErrorKeeps(c.P, s, s.current, EOK);
  }

  /** Only the error of the current thread differs. */
  ghost predicate OnlyError(s: Sched, s': Sched, e: int) {
    && s.current in s.thread
    && s' == s.(thread := s.thread[s.current := s.thread[s.current].(error := e)])
  }

  /** Suspending the caller puts it on the list, and changes no other thread's priority. */
  lemma Joined(c: Config, s: Sched)
    requires Fits(c, s) && Running(s)
    ensures s.current !in s.lists[c.w]
    ensures var s' := Waiting(c.P, s, c.w, s.current, c.byPriority);
            && |s'.lists| == |s.lists| && s'.thread.Keys == s.thread.Keys
            && (forall x :: x in s'.lists[c.w] <==> x in s.lists[c.w] || x == s.current)
            && (forall x :: x in s.thread ==> s'.thread[x].priority == s.thread[x].priority)
            && (forall x :: x in s.thread && s.thread[x].stat != Init ==> s'.thread[x].stat != Init)
  {
    hide Homes, ThreadShape, AheadOf, Taken, Inserted;
    var t := s.current;
    SuspendedKeeps(c.P, s, t);
    SameSize(s, t);
    assert ThreadOk(c.P, s.thread[t], s.home[t]);
    Members(c.P, s, c.w);
    PlaceInRange(c.P, Suspended(s, t), c.w, t, c.byPriority);
    forall x
      ensures x in Waiting(c.P, s, c.w, t, c.byPriority).lists[c.w] <==> x in s.lists[c.w] || x == t
    {
      InInserted(s.lists[c.w], PlaceOn(c.P, Suspended(s, t), c.w, t, c.byPriority), t, x);
    }
  }

  /** It leaves every other wait list as it was. */
  lemma JoinedElse(c: Config, s: Sched, other: nat)
    requires Fits(c, s) && Running(s) && c.P <= other < |s.lists| && other != c.w
    ensures var s' := Waiting(c.P, s, c.w, s.current, c.byPriority);
            |s'.lists| == |s.lists| && s'.lists[other] == s.lists[other]
  {
    hide Homes, ThreadShape, AheadOf, Taken, Inserted;
    SuspendedKeeps(c.P, s, s.current);
    SameSize(s, s.current);
    assert ThreadOk(c.P, s.thread[s.current], s.home[s.current]);
    PlaceInRange(c.P, Suspended(s, s.current), c.w, s.current, c.byPriority);
  }

  /** The caller goes to sleep on the object's list, with its error cleared, and nothing else changes. */
  ghost predicate CallerSleeps(c: Config, s: Sched, s': Sched) {
    && s.current in s.thread
    && GoesToWait(s, s', c.w, s.current, s.thread[s.current].(stat := Suspend, error := EOK), c.byPriority)
  }

  lemma CallerWaits(c: Config, s: Sched)
    requires Fits(c, s) && Running(s)
    ensures Fits(c, Cleaned(s)) && Running(Cleaned(s))
    ensures CallerSleeps(c, s, Waiting(c.P, Cleaned(s), c.w, s.current, c.byPriority))
  {
    hide Homes, ThreadShape, ThreadOk, Waiting, NoLater, Except;
    CleanKeeps(c, s);
    var t := s.current;
    WaitDoes(c.P, Cleaned(s), c.w, t, c.byPriority);
    var s' := Waiting(c.P, Cleaned(s), c.w, t, c.byPriority);
    var th := s.thread[t].(stat := Suspend, error := EOK);
    assert Cleaned(s).thread[t := th] == s.thread[t := th];
    if c.byPriority {
      var k :| 0 <= k <= |s.lists[c.w]| && JoinsAt(Cleaned(s), s'.lists[c.w], c.w, t, k);
      JoinsSame(s, Cleaned(s), s'.lists[c.w], c.w, t, k);
    }
  }

  lemma JoinsSame(s: Sched, s0: Sched, l: seq<int>, w: nat, t: int, k: nat)
    requires w < |s.lists| && s0.lists == s.lists && t in s.thread && t in s0.thread && k <= |s.lists[w]|
    requires s0.thread.Keys == s.thread.Keys
             && forall x :: x in s.thread ==> s0.thread[x].priority == s.thread[x].priority
    requires JoinsAt(s0, l, w, t, k)
    ensures JoinsAt(s, l, w, t, k)
  {
    forall i | 0 <= i < k
      ensures NoLater(s, s.lists[w][i], t)
    {
      assert NoLater(s0, s0.lists[w][i], t);
    }
  }

  lemma WaitingClean(c: Config, s: Sched)
    requires Fits(c, s) && Running(s) && Clean(s, s.current)
    requires forall i :: 0 <= i < |s.lists[c.w]| ==> Clean(s, s.lists[c.w][i])
    ensures var s' := Waiting(c.P, s, c.w, s.current, c.byPriority);
            c.w < |s'.lists| && forall i :: 0 <= i < |s'.lists[c.w]| ==> Clean(s', s'.lists[c.w][i])
  {
    hide Homes, ThreadShape, AheadOf, Taken;
    var t := s.current;
    SuspendedKeeps(c.P, s, t);
    SameSize(s, t);
    assert ThreadOk(c.P, s.thread[t], s.home[t]);
    var s' := Suspended(s, t);
    PlaceInRange(c.P, s', c.w, t, c.byPriority);
    var k := PlaceOn(c.P, s', c.w, t, c.byPriority);
    var l := s.lists[c.w];
    var p := Inserted(l, k, t);
    assert forall i :: 0 <= i < |p| ==> p[i] == if i < k then l[i] else if i == k then t else l[i - 1];
  }

  // ----- Other calls in between -----

  /** Anything but using the semaphore's own wait list, or resuming its waiters, from outside. */
  ghost predicate Foreign(c: Config, s: Sched, o: Op) {
    && !(o.Wait? && o.w == c.w)
    && !(o.Wake? && o.w == c.w)
    && !((o.Resume? || o.Unlink?) && c.w < |s.lists| && o.t in s.lists[c.w])
  }

  /** Whoever waited either still waits, its error still clear, or left with an error. */
  ghost predicate LeftFailed(s: Sched, s': Sched, w: nat) {
    && w < |s.lists| == |s'.lists|
    && forall t :: t in s.lists[w] ==>
         && t in s.thread && t in s'.thread
         && (t in s'.lists[w] ==> s'.thread[t].error == s.thread[t].error)
         && (t !in s'.lists[w] ==> s'.thread[t].error != EOK)
  }

  lemma SameList(c: Config, s: Sched, s': Sched)
    requires Fits(c, s) && |s'.lists| == |s.lists| && s'.lists[c.w] == s.lists[c.w] && s'.thread.Keys == s.thread.Keys
    requires forall t :: t in s.lists[c.w] && t in s.thread ==> s'.thread[t].error == s.thread[t].error
    ensures LeftFailed(s, s', c.w)
  {
    hide Homes, ThreadShape, ThreadOk;
    Members(c.P, s, c.w);
  }

  lemma {:induction false} WakeAllElsewhere(P: nat, s: Sched, v: nat, w: nat)
    requires WellFormed(P, s) && P <= v < |s.lists| && P <= w < |s.lists| && v != w
    ensures |AllWoken(P, s, v).lists| == |s.lists| && AllWoken(P, s, v).lists[w] == s.lists[w]
    decreases |s.lists[v]|
  {
    hide WellFormed, Woken, Failed;
    if s.lists[v] != [] {
      FailedKeeps(P, s, v);
      WokenKeeps(P, Failed(P, s, v), v);
      WokenElsewhere(P, Failed(P, s, v), v, w);
      WakeAllElsewhere(P, Woken(P, Failed(P, s, v), v), v, w);
    }
  }

  lemma WokenElsewhere(P: nat, s: Sched, v: nat, w: nat)
    requires WellFormed(P, s) && P <= v < |s.lists| && s.lists[v] != [] && P <= w < |s.lists| && v != w
    ensures |Woken(P, s, v).lists| == |s.lists| && Woken(P, s, v).lists[w] == s.lists[w]
  {
    hide Homes, ThreadShape, ThreadOk;
    FirstWaits(P, s, v);
  }

  lemma WakeAllFails(c: Config, s: Sched, v: nat)
    requires Fits(c, s) && c.P <= v < |s.lists|
    ensures LeftFailed(s, AllWoken(c.P, s, v), c.w)
  {
    hide Homes, ThreadShape, ThreadOk, AllWoken;
    AllWokenEmpties(c.P, s, v);
    Members(c.P, s, c.w);
    Members(c.P, s, v);
    if v != c.w {
      WakeAllElsewhere(c.P, s, v, c.w);
      SameList(c, s, AllWoken(c.P, s, v));
    }
  }

  lemma TimeoutFails(c: Config, s: Sched, t: int)
    requires Fits(c, s) && t in s.thread && s.thread[t].stat == Suspend
    ensures LeftFailed(s, TimedOut(c.P, s, t), c.w)
  {
    hide Homes, ThreadShape, ThreadOk, Top, Drop;
    TimingOutKeeps(c.P, s, t);
    Members(c.P, s, c.w);
    HomeBound(c.P, s, t);
    DropWaiter(c, s, t);
  }

  lemma DropWaiter(c: Config, s: Sched, t: int)
    requires Fits(c, s)
    ensures forall x :: x in Drop(s.lists[c.w], t) <==> x in s.lists[c.w] && x != t
  {
    hide Home, Drop, ThreadShape, ThreadOk;
    HomeDistinct(s.lists, s.home, c.w);
    InDrop(s.lists[c.w], t);
  }

  predicate Moves(o: Op) {
    o.Startup? || o.Pause? || o.Resume? || o.SetPriority? || o.Wait? || o.Prepare? || o.Unlink?
  }

  lemma MovedElsewhere(c: Config, s: Sched, o: Op)
    requires Fits(c, s) && OpOk(c.P, s, o) && Foreign(c, s, o)
    requires Moves(o)
    ensures |Step(c.P, s, o).lists| == |s.lists| && Step(c.P, s, o).lists[c.w] == s.lists[c.w]
  {
    hide Homes, ThreadShape, Top, Drop, WithPriority, AheadOf;
    match o
    case Startup(t) => StartingKeeps(c.P, s, t); ThreadIs(c, s, t);
    case Pause(t) => SuspendedKeeps(c.P, s, t); ThreadIs(c, s, t);
    case Resume(t) => ResumedKeeps(c.P, s, t); ThreadIs(c, s, t);
    case SetPriority(t, p) => DequeuedShape(c.P, s, t); WithPriorityIs(c.P, s, t, p); ThreadIs(c, s, t);
    case Wait(v, t, b) => SuspendedKeeps(c.P, s, t); SameSize(s, t); ThreadIs(c, s, t);
    case Prepare(t) =>
    case Unlink(t) => UnlinkedKeeps(c.P, s, t); ThreadIs(c, s, t);
  }

  lemma ThreadIs(c: Config, s: Sched, t: int)
    requires Fits(c, s) && t in s.thread
    ensures s.home[t] == c.w <==> t in s.lists[c.w]
    ensures ThreadOk(c.P, s.thread[t], s.home[t]) && s.thread[t].priority < c.P
  {
    hide Home, WithPriority;
    Members(c.P, s, c.w);
  }

  lemma KeepsErrors(c: Config, s: Sched, o: Op)
    requires Fits(c, s) && OpOk(c.P, s, o)
    requires Moves(o)
    ensures Step(c.P, s, o).thread.Keys == s.thread.Keys
    ensures forall t :: t in s.thread ==> Step(c.P, s, o).thread[t].error == s.thread[t].error
  {
    hide Homes, ThreadShape, ThreadOk, Top, Taken, Put, AheadOf, Mask;
    match o
    case Startup(t) => StartingKeeps(c.P, s, t);
    case Pause(t) => SuspendedKeeps(c.P, s, t);
    case Resume(t) => ResumedKeeps(c.P, s, t);
    case SetPriority(t, p) => DequeuedShape(c.P, s, t); WithPriorityIs(c.P, s, t, p);
    case Wait(v, t, b) => SuspendedKeeps(c.P, s, t);
    case Prepare(t) => StartingKeeps(c.P, s, t);
    case Unlink(t) => UnlinkedKeeps(c.P, s, t);
  }

  /** No foreign call lets a waiter go with a clear error: only a release does. */
  lemma ForeignFails(c: Config, s: Sched, o: Op)
    requires Fits(c, s) && OpOk(c.P, s, o) && Foreign(c, s, o)
    ensures LeftFailed(s, Step(c.P, s, o), c.w)
  {
    hide Homes, ThreadShape, ThreadOk, Top, AllWoken, Woken, Changed, Yielded, Waiting, Started, TimedOut, Suspended,
      Resumed, LeftFailed;
    if Moves(o) {
      MovedElsewhere(c, s, o);
      KeepsErrors(c, s, o);
      SameList(c, s, Step(c.P, s, o));
    } else {
      match o {
        case Timeout(t) => TimeoutFails(c, s, t);
        case Yield => YieldSame(c, s);
        case Schedule => SameList(c, s, Step(c.P, s, o));
        case Lock => SameList(c, s, Step(c.P, s, o));
        case Unlock => SameList(c, s, Step(c.P, s, o));
        case Wake(v) => WakeSame(c, s, v);
        case WakeAll(v) => WakeAllFails(c, s, v);
      }
    }
  }

  lemma YieldSame(c: Config, s: Sched)
    requires Fits(c, s) && s.current != NONE
    ensures LeftFailed(s, Yielded(c.P, s), c.w)
  {
    hide Homes, Top, Drop, WithPriority, ThreadOk, LeftFailed;
    SameList(c, s, Yielded(c.P, s));
  }

  lemma WakeSame(c: Config, s: Sched, v: nat)
    requires Fits(c, s) && c.P <= v < |s.lists| && s.lists[v] != [] && v != c.w
    ensures LeftFailed(s, Woken(c.P, s, v), c.w)
  {
    hide Homes, ThreadShape, ThreadOk, Woken, LeftFailed;
    WokenElsewhere(c.P, s, v, c.w);
    WokenKeeps(c.P, s, v);
    FirstWaits(c.P, s, v);
    SameList(c, s, Woken(c.P, s, v));
  }
}
