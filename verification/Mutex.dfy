/** rt_mutex_take and rt_mutex_release of one priority-ordered mutex: hand-off and priority inheritance. */
module Mutex {
  import opened RtList
  import opened Threads
  import opened SchedSpec
  import opened Scheduler
  import opened Ipc

  const HOLD_WRAP: int := 0x100          // hold is an rt_uint8_t
  const NO_PRIORITY: int := 0xff

  datatype State = State(value: nat, hold: nat, owner: int, original: nat, s: Sched)

  datatype Outcome = Got | Refused | Waits

  ghost predicate Prioritised(c: Config, s: Sched) {
    Fits(c, s) && c.byPriority
  }

  /** The owner is at least as urgent as every waiter, and no less urgent than when it took the mutex. */
  ghost predicate Inherits(c: Config, m: State)
    requires Fits(c, m.s)
  {
    && m.owner in m.s.thread && m.s.thread[m.owner].stat != Init
    && m.owner !in m.s.lists[c.w]
    && m.s.thread[m.owner].priority <= m.original < c.P
    && forall i :: 0 <= i < |m.s.lists[c.w]| ==> NoLess(m.s, m.owner, m.s.lists[c.w][i])
  }

  ghost predicate NoLess(s: Sched, t: int, x: int) {
    t in s.thread && x in s.thread && s.thread[t].priority <= s.thread[x].priority
  }

  ghost predicate MutexOk(c: Config, m: State) {
    && Prioritised(c, m.s)
    && (m.value == 1 || m.value == 0)
    && (m.value == 1 <==> m.owner == NONE)
    && (m.value == 1 <==> m.hold == 0)
    && m.hold < HOLD_WRAP
    && InOrder(m.s.lists[c.w], m.s.thread)
    && (m.owner == NONE ==> m.s.lists[c.w] == [])
    && (m.owner != NONE ==> Inherits(c, m))
  }

  ghost function Errored(s: Sched, e: int): Sched
    requires s.current in s.thread
  {
    With(s, s.current, s.thread[s.current].(error := e))
  }

  /** A waiter lends the owner its priority, when that is more urgent. */
  ghost function Lent(c: Config, s: Sched, owner: int): Sched
    requires Fits(c, s) && Running(s) && owner in s.thread
  {
    var p := s.thread[s.current].priority;
    ShapeBounds(c.P, s, s.current);
    if p < s.thread[owner].priority then Changed(c.P, s, owner, p) else s
  }

  /** Only a take that waits needs a caller that has not suspended itself. */
  ghost predicate MayTake(m: State, time: int) {
    InThread(m.s) && (Running(m.s) || m.owner == m.s.current || m.value > 0 || time == 0)
  }

  ghost function Tried(c: Config, m: State, time: int): (r: (State, Outcome))
    requires MutexOk(c, m) && MayTake(m, time)
  {
    var t := m.s.current;
    CleanKeeps(c, m.s);
    var s := Cleaned(m.s);
    if m.owner == t then (m.(hold := (m.hold + 1) % HOLD_WRAP, s := s), Got)
    else if m.value > 0 then (State(m.value - 1, (m.hold + 1) % HOLD_WRAP, t, m.s.thread[t].priority, s), Got)
    else if time == 0 then (m.(s := Errored(m.s, ETIMEOUT)), Refused)
    else
      OwnerKnown(c, m);
      LentKeeps(c, s, m.owner);
      (m.(s := Waiting(c.P, Lent(c, s, m.owner), c.w, t, true)), Waits)
  }

  /** What a release by the owner does once nothing is held: give the priority back, then pass the mutex on. */
  ghost function Freed(c: Config, m: State): State
    requires Prioritised(c, m.s) && m.owner in m.s.thread && m.original < c.P
  {
    ChangedKeeps(c.P, m.s, m.owner, m.original);
    ChangedSame(c.P, m.s, m.owner, m.original, c.w);
    var s := if m.original != m.s.thread[m.owner].priority then Changed(c.P, m.s, m.owner, m.original) else m.s;
    if s.lists[c.w] != [] then
      FirstWaits(c.P, s, c.w);
      var t := s.lists[c.w][0];
      State(m.value, 1, t, s.thread[t].priority, Woken(c.P, s, c.w))
    else State(m.value + 1, 0, NONE, NO_PRIORITY, s)
  }

  ghost function Released(c: Config, m: State): (r: (State, bool))
    requires MutexOk(c, m) && InThread(m.s)
  {
    if m.s.current != m.owner then (m.(s := Errored(m.s, EERROR)), false)
    else if m.hold > 1 then (m.(hold := m.hold - 1), true)
    else (Freed(c, m), true)
  }

  lemma OwnerKnown(c: Config, m: State)
    requires MutexOk(c, m) && m.value == 0
    ensures m.owner in m.s.thread && m.original < c.P && m.s.thread[m.owner].priority <= m.original
  {
    hide Fits, InOrder;
  }

  lemma LentKeeps(c: Config, s: Sched, owner: int)
    requires Fits(c, s) && Running(s) && owner in s.thread && owner != s.current
    ensures Fits(c, Lent(c, s, owner)) && Running(Lent(c, s, owner)) && Lent(c, s, owner).current == s.current
    ensures Lent(c, s, owner).lists[c.w] == s.lists[c.w]
    ensures Lent(c, s, owner).thread.Keys == s.thread.Keys
    ensures forall x :: x in s.thread && x != owner ==> Lent(c, s, owner).thread[x] == s.thread[x]
    ensures Lent(c, s, owner).thread[owner].stat == s.thread[owner].stat
    ensures Lent(c, s, owner).thread[owner].priority <= s.thread[s.current].priority
    ensures Lent(c, s, owner).thread[owner].priority <= s.thread[owner].priority
  {
    hide Homes, ThreadShape, ThreadOk, Changed;
    var p := s.thread[s.current].priority;
    ShapeBounds(c.P, s, s.current);
    if p < s.thread[owner].priority {
      ChangedKeeps(c.P, s, owner, p);
      ChangedSame(c.P, s, owner, p, c.w);
    }
  }

  // ----- Every step keeps the invariant -----

  lemma SetErrorKeeps(c: Config, m: State, t: int, e: int)
    requires MutexOk(c, m) && t in m.s.thread
    ensures MutexOk(c, m.(s := With(m.s, t, m.s.thread[t].(error := e))))
  {
    hide Homes, ThreadShape, ThreadOk, InOrder;
    ErrorKeeps(c.P, m.s, t, e);
    var s' := With(m.s, t, m.s.thread[t].(error := e));
    SameOrder(m.s.lists[c.w], m.s.thread, s'.thread);
    if m.owner != NONE {
      forall i | 0 <= i < |s'.lists[c.w]|
        ensures NoLess(s', m.owner, s'.lists[c.w][i])
      {
        assert NoLess(m.s, m.owner, m.s.lists[c.w][i]);
      }
    }
  }

  /** The mutex is free: the caller becomes its owner. */
  lemma GrabKeeps(c: Config, m: State)
    requires MutexOk(c, m) && InThread(m.s) && m.value == 1
    ensures MutexOk(c, State(0, 1, m.s.current, m.s.thread[m.s.current].priority, m.s))
  {
    hide Homes, ThreadShape, ThreadOk;
    ShapeBounds(c.P, m.s, m.s.current);
  }

  lemma CurrentIsThread(c: Config, s: Sched)
    requires Fits(c, s) && Running(s)
    ensures s.current != NONE && s.current !in s.lists[c.w]
  {
    hide ThreadShape, Home;
    assert ThreadOk(c.P, s.thread[s.current], s.home[s.current]);
    Members(c.P, s, c.w);
  }

  lemma JoinKeeps(c: Config, m: State)
    requires MutexOk(c, m) && Running(m.s) && m.value == 0 && m.owner != m.s.current
    ensures m.owner in m.s.thread && Fits(c, Lent(c, m.s, m.owner)) && Running(Lent(c, m.s, m.owner))
    ensures Lent(c, m.s, m.owner).current == m.s.current
    ensures MutexOk(c, m.(s := Waiting(c.P, Lent(c, m.s, m.owner), c.w, m.s.current, true)))
  {
    hide Homes, ThreadShape, ThreadOk, InOrder, Lent, Waiting;
    OwnerKnown(c, m);
    LentKeeps(c, m.s, m.owner);
    var l, t := Lent(c, m.s, m.owner), m.s.current;
    CurrentIsThread(c, m.s);
    ApartSame(m.s.lists[c.w], m.s.thread, l.thread, m.owner);
    WaitingKeeps(c.P, l, c.w, t, true);
    WaitingInOrder(c.P, l, c.w, t);
    var s' := Waiting(c.P, l, c.w, t, true);
    Joined(c, l);
    forall i | 0 <= i < |s'.lists[c.w]|
      ensures s'.lists[c.w][i] != m.owner && NoLess(s', m.owner, s'.lists[c.w][i])
    {
      var x := s'.lists[c.w][i];
      assert x in s'.lists[c.w];
      if x != t {
        var j :| 0 <= j < |m.s.lists[c.w]| && m.s.lists[c.w][j] == x;
        assert NoLess(m.s, m.owner, m.s.lists[c.w][j]);
      }
    }
  }

  lemma ApartSame(l: seq<int>, thread: map<int, Thread>, thread': map<int, Thread>, t: int)
    requires InOrder(l, thread) && t !in l && thread.Keys == thread'.Keys
    requires forall x :: x in thread && x != t ==> thread'[x] == thread[x]
    ensures InOrder(l, thread')
  {
    forall i, j | 0 <= i < j < |l|
      ensures thread'[l[i]].priority <= thread'[l[j]].priority
    {
      assert l[i] != t && l[j] != t;
      assert thread[l[i]].priority <= thread[l[j]].priority;
    }
  }

  /** The owner takes the mutex once more than the 8-bit hold can count. */
  ghost predicate WrapsHold(m: State) {
    m.owner == m.s.current && m.hold == HOLD_WRAP - 1
  }

  /** A take keeps the invariant exactly when the hold does not wrap. */
  lemma TriedKeeps(c: Config, m: State, time: int)
    requires MutexOk(c, m) && MayTake(m, time)
    ensures MutexOk(c, Tried(c, m, time).0) <==> !WrapsHold(m)
  {
    hide Homes, ThreadShape, ThreadOk, InOrder, Lent, Waiting, Inherits;
    if WrapsHold(m) {
      HoldLost(c, m, time);
      return;
    }
    CleanKeeps(c, m.s);
    SetErrorKeeps(c, m, m.s.current, EOK);
    SetErrorKeeps(c, m, m.s.current, ETIMEOUT);
    var m' := m.(s := Cleaned(m.s));
    if m.owner == m.s.current {
      HoldKeeps(c, m', m.hold + 1);
    } else if m.value > 0 {
      GrabKeeps(c, m');
    } else if time != 0 {
      JoinKeeps(c, m');
    }
  }

  /** Then nothing is held although the mutex has an owner. */
  lemma HoldLost(c: Config, m: State, time: int)
    requires MutexOk(c, m) && InThread(m.s) && WrapsHold(m)
    ensures var m' := Tried(c, m, time).0; m'.hold == 0 && m'.value == 0 && m'.owner == m.owner != NONE
    ensures Prioritised(c, Tried(c, m, time).0.s)
  {
    hide Homes, ThreadShape, ThreadOk, InOrder, Inherits;
    CleanKeeps(c, m.s);
  }

  lemma HoldKeeps(c: Config, m: State, hold: nat)
    requires MutexOk(c, m) && m.hold > 0 && 0 < hold < HOLD_WRAP
    ensures MutexOk(c, m.(hold := hold))
  {
    hide Fits, InOrder;
  }

  lemma FreedKeeps(c: Config, m: State)
    requires MutexOk(c, m) && m.value == 0
    ensures m.owner in m.s.thread && m.original < c.P && MutexOk(c, Freed(c, m))
  {
    hide Homes, ThreadShape, ThreadOk, InOrder, Inherits, Freed, Changed;
    OwnerKnown(c, m);
    ChangedKeeps(c.P, m.s, m.owner, m.original);
    ChangedSame(c.P, m.s, m.owner, m.original, c.w);
    var s := if m.original != m.s.thread[m.owner].priority then Changed(c.P, m.s, m.owner, m.original) else m.s;
    assert m.owner !in m.s.lists[c.w] by { OwnerApart(c, m); }
    ApartSame(m.s.lists[c.w], m.s.thread, s.thread, m.owner);
    PassedOn(c, s);
    FreedIs(c, m, s);
  }

  lemma OwnerApart(c: Config, m: State)
    requires MutexOk(c, m) && m.value == 0
    ensures m.owner !in m.s.lists[c.w]
  {
    hide Fits, InOrder;
  }

  lemma FreedIs(c: Config, m: State, s: Sched)
    requires Prioritised(c, m.s) && m.owner in m.s.thread && m.original < c.P && Prioritised(c, s)
    requires s == if m.original != m.s.thread[m.owner].priority then Changed(c.P, m.s, m.owner, m.original) else m.s
    ensures Freed(c, m) == Passed(c, m.value, s)
  {
    hide Homes, ThreadShape, ThreadOk, Changed, Woken;
  }

  /** The mutex goes to the first waiter, or becomes free. */
  ghost function Passed(c: Config, value: nat, s: Sched): State
    requires Prioritised(c, s)
  {
    if s.lists[c.w] != [] then
      FirstWaits(c.P, s, c.w);
      State(value, 1, s.lists[c.w][0], s.thread[s.lists[c.w][0]].priority, Woken(c.P, s, c.w))
    else State(value + 1, 0, NONE, NO_PRIORITY, s)
  }

  lemma PassedOn(c: Config, s: Sched)
    requires Prioritised(c, s) && InOrder(s.lists[c.w], s.thread)
    ensures MutexOk(c, Passed(c, 0, s))
  {
    hide Homes, ThreadShape, ThreadOk, Woken;
    var l := s.lists[c.w];
    if l != [] {
      var t := l[0];
      FirstWaits(c.P, s, c.w);
      DistinctTail(l);
      FirstNotNone(c, s);
      WokenKeeps(c.P, s, c.w);
      var s' := Woken(c.P, s, c.w);
      var l' := s'.lists[c.w];
      assert forall i :: 0 <= i < |l'| ==> l'[i] == l[i + 1];
      forall i | 0 <= i < |l'|
        ensures NoLess(s', t, l'[i])
      {
        assert s.thread[l[0]].priority <= s.thread[l[i + 1]].priority;
      }
    }
  }

  lemma FirstNotNone(c: Config, s: Sched)
    requires Fits(c, s) && s.lists[c.w] != []
    ensures s.lists[c.w][0] != NONE
  {
    hide Home, ThreadShape;
    Members(c.P, s, c.w);
  }

  lemma ReleasedKeeps(c: Config, m: State)
    requires MutexOk(c, m) && InThread(m.s)
    ensures MutexOk(c, Released(c, m).0)
  {
    hide Homes, ThreadShape, ThreadOk, InOrder, Inherits, Freed;
    SetErrorKeeps(c, m, m.s.current, EERROR);
    if m.s.current == m.owner {
      if m.hold > 1 {
        HoldKeeps(c, m, m.hold - 1);
      } else {
        FreedKeeps(c, m);
      }
    }
  }

  /** Other scheduler calls: none uses the mutex's wait list or sets the priority of its owner or waiters. */
  ghost predicate OtherOk(c: Config, m: State, o: Op)
    requires Fits(c, m.s)
  {
    && OpOk(c.P, m.s, o) && Foreign(c, m.s, o)
    && (o.SetPriority? ==> o.t != m.owner && o.t !in m.s.lists[c.w])
  }

  lemma OtherKeeps(c: Config, m: State, o: Op)
    requires MutexOk(c, m) && OtherOk(c, m, o)
    ensures MutexOk(c, m.(s := Step(c.P, m.s, o)))
  {
    hide WellFormed, Step, InOrder;
    StepKeeps(c.P, m.s, o);
    StepThins(c.P, m.s, o, c.w);
    StepOrder(c.P, m.s, o, {c.w}, c.w);
    StepPriorities(c.P, m.s, o);
    var s' := Step(c.P, m.s, o);
    if m.owner != NONE {
      RenamedApart(c, m, o, m.owner);
      forall i | 0 <= i < |s'.lists[c.w]|
        ensures NoLess(s', m.owner, s'.lists[c.w][i])
      {
        var x := s'.lists[c.w][i];
        assert x in s'.lists[c.w];
        assert x in m.s.lists[c.w];
        var j :| 0 <= j < |m.s.lists[c.w]| && m.s.lists[c.w][j] == x;
        assert NoLess(m.s, m.owner, m.s.lists[c.w][j]);
        RenamedApart(c, m, o, x);
      }
    }
  }

  /** The owner and the waiters are not renamed. */
  lemma RenamedApart(c: Config, m: State, o: Op, x: int)
    requires MutexOk(c, m) && OtherOk(c, m, o) && (x in m.s.lists[c.w] || (x == m.owner && m.owner != NONE))
    ensures x !in Renamed(o) && x in m.s.thread
  {
    hide Homes, ThreadShape, InOrder;
    Members(c.P, m.s, c.w);
    if (o.Startup? || o.Prepare?) && x in m.s.lists[c.w] {
      assert ThreadOk(c.P, m.s.thread[x], m.s.home[x]);
    }
  }

  // ----- What a caller gets -----

  function Lower(p: nat, q: nat): nat {
    if q < p then q else p
  }

  /** The mutex is got exactly when it is free or the caller's own, refused exactly when another thread has
      it and the caller does not wait. */
  lemma TakeOutcome(c: Config, m: State, time: int)
    requires MutexOk(c, m) && MayTake(m, time)
    ensures var t, r := m.s.current, Tried(c, m, time);
            && (r.1 == Got <==> m.owner == NONE || m.owner == t)
            && (r.1 == Refused <==> m.owner != NONE && m.owner != t && time == 0)
            && (r.1 == Got && m.owner == t ==>
                  r.0 == m.(hold := (m.hold + 1) % HOLD_WRAP, s := r.0.s) && OnlyError(m.s, r.0.s, EOK))
            && (r.1 == Got && m.owner == NONE ==>
                  r.0 == State(0, 1, t, m.s.thread[t].priority, r.0.s) && OnlyError(m.s, r.0.s, EOK))
            && (r.1 == Refused ==> r.0 == m.(s := r.0.s) && OnlyError(m.s, r.0.s, ETIMEOUT))
  {
    hide Homes, ThreadShape, ThreadOk, InOrder, Lent, Waiting, Inherits;
    CleanKeeps(c, m.s);
  }

  /** A caller that waits goes on the list, suspended and without an error, and lends the owner its priority:
      the owner then has the more urgent one of both.  No other priority changes. */
  lemma WaitLends(c: Config, m: State, time: int)
    requires MutexOk(c, m) && MayTake(m, time) && Tried(c, m, time).1 == Waits
    ensures var t, m' := m.s.current, Tried(c, m, time).0;
            && m' == m.(s := m'.s) && m.owner in m.s.thread && m.owner != t && |m'.s.lists| == |m.s.lists|
            && m'.s.thread.Keys == m.s.thread.Keys
            && m'.s.thread[m.owner].priority == Lower(m.s.thread[m.owner].priority, m.s.thread[t].priority)
            && (forall x :: x in m.s.thread && x != m.owner ==> m'.s.thread[x].priority == m.s.thread[x].priority)
            && (forall x :: x in m'.s.lists[c.w] <==> x in m.s.lists[c.w] || x == t)
            && m'.s.thread[t].stat == Suspend && m'.s.thread[t].error == EOK
  {
    hide Homes, ThreadShape, ThreadOk, InOrder, Lent, Waiting, Inherits;
    CleanKeeps(c, m.s);
    OwnerKnown(c, m);
    var s := Cleaned(m.s);
    LentKeeps(c, s, m.owner);
    LentIs(c, s, m.owner);
    Joined(c, Lent(c, s, m.owner));
    WaiterIs(c, Lent(c, s, m.owner));
  }

  lemma LentIs(c: Config, s: Sched, owner: int)
    requires Fits(c, s) && Running(s) && owner in s.thread && owner != s.current
    ensures owner in Lent(c, s, owner).thread
    ensures Lent(c, s, owner).thread[owner].priority == Lower(s.thread[owner].priority, s.thread[s.current].priority)
    ensures |Lent(c, s, owner).lists| == |s.lists|
  {
    hide Homes, ThreadShape, ThreadOk, Changed;
    var p := s.thread[s.current].priority;
    ShapeBounds(c.P, s, s.current);
    if p < s.thread[owner].priority {
      ChangedKeeps(c.P, s, owner, p);
      ChangedSame(c.P, s, owner, p, c.w);
    }
  }

  lemma WaiterIs(c: Config, s: Sched)
    requires Fits(c, s) && Running(s)
    ensures var s' := Waiting(c.P, s, c.w, s.current, true);
            && s.current in s'.thread && s'.thread[s.current].stat == Suspend
            && s'.thread[s.current].error == s.thread[s.current].error
  {
    hide Homes, ThreadShape, ThreadOk, AheadOf, Taken, Inserted;
    SuspendedKeeps(c.P, s, s.current);
    SameSize(s, s.current);
  }

  /** A release by another thread fails; one by the owner undoes one hold; the last one gives it the saved
      priority, and the mutex to the first waiter, or to nobody when there is none. */
  lemma ReleaseOutcome(c: Config, m: State)
    requires MutexOk(c, m) && InThread(m.s)
    ensures var t, r := m.s.current, Released(c, m);
            && (r.1 <==> t == m.owner)
            && (t != m.owner ==> r.0 == m.(s := r.0.s) && OnlyError(m.s, r.0.s, EERROR))
            && (t == m.owner && m.hold > 1 ==> r.0 == m.(hold := m.hold - 1))
            && (t == m.owner && m.hold == 1 ==> t in r.0.s.thread && r.0.s.thread[t].priority == m.original)
            && (t == m.owner && m.hold == 1 ==>
                  if m.s.lists[c.w] == [] then r.0.value == 1 && r.0.owner == NONE && r.0.hold == 0
                  else r.0.value == 0 && r.0.owner == m.s.lists[c.w][0] && r.0.hold == 1
                       && r.0.owner in m.s.thread && r.0.original == m.s.thread[r.0.owner].priority)
            && (forall x :: x in m.s.thread && x != t ==>
                  x in r.0.s.thread && r.0.s.thread[x].priority == m.s.thread[x].priority)
  {
    hide Homes, ThreadShape, ThreadOk, InOrder, Changed, Woken, Inherits;
    if m.s.current == m.owner && m.hold == 1 {
      FinalRelease(c, m);
      OwnerKnown(c, m);
      OwnerApart(c, m);
      ChangedKeeps(c.P, m.s, m.owner, m.original);
      ChangedSame(c.P, m.s, m.owner, m.original, c.w);
      var s := if m.original != m.s.thread[m.owner].priority then Changed(c.P, m.s, m.owner, m.original) else m.s;
      if s.lists[c.w] != [] {
        WokenKeeps(c.P, s, c.w);
        FirstWaits(c.P, s, c.w);
      }
    }
  }

  // ----- Runs -----

  datatype Call = Take(time: int) | Release | Other(o: Op)

  ghost predicate CallOk(c: Config, m: State, x: Call)
    requires MutexOk(c, m)
  {
    match x
    case Take(time) => MayTake(m, time) && !WrapsHold(m)
    case Release => InThread(m.s)
    case Other(o) => OtherOk(c, m, o)
  }

  ghost function Called(c: Config, m: State, x: Call): State
    requires MutexOk(c, m) && CallOk(c, m, x)
  {
    match x
    case Take(time) => Tried(c, m, time).0
    case Release => Released(c, m).0
    case Other(o) => m.(s := Step(c.P, m.s, o))
  }

  lemma CalledKeeps(c: Config, m: State, x: Call)
    requires MutexOk(c, m) && CallOk(c, m, x)
    ensures MutexOk(c, Called(c, m, x))
  {
    hide Fits, InOrder, Tried, Released, Step, Inherits;
    match x
    case Take(time) => TriedKeeps(c, m, time);
    case Release => ReleasedKeeps(c, m);
    case Other(o) => OtherKeeps(c, m, o);
  }

  ghost predicate RunOk(c: Config, m: State, xs: seq<Call>)
    requires MutexOk(c, m)
    decreases |xs|
  {
    xs != [] ==> CallOk(c, m, xs[0]) && (CalledKeeps(c, m, xs[0]); RunOk(c, Called(c, m, xs[0]), xs[1..]))
  }

  ghost function Run(c: Config, m: State, xs: seq<Call>): State
    requires MutexOk(c, m) && RunOk(c, m, xs)
    decreases |xs|
  {
    if xs == [] then m else CalledKeeps(c, m, xs[0]); Run(c, Called(c, m, xs[0]), xs[1..])
  }

  /** In every reachable state the value is 1 iff nobody owns the mutex iff it is not held, and the
      owner is at least as urgent as every waiter. */
  lemma {:induction false} RunKeeps(c: Config, m: State, xs: seq<Call>)
    requires MutexOk(c, m) && RunOk(c, m, xs)
    ensures MutexOk(c, Run(c, m, xs))
    decreases |xs|
  {
    hide MutexOk, Called;
    if xs != [] {
      CalledKeeps(c, m, xs[0]);
      RunKeeps(c, Called(c, m, xs[0]), xs[1..]);
    }
  }

  function Takes(n: nat, time: int): seq<Call> {
    if n == 0 then [] else [Take(time)] + Takes(n - 1, time)
  }

  lemma {:induction false} HoldsAdd(c: Config, m: State, n: nat, time: int)
    requires MutexOk(c, m) && InThread(m.s) && m.owner == m.s.current && m.hold + n < HOLD_WRAP
    ensures RunOk(c, m, Takes(n, time))
    ensures var e := Run(c, m, Takes(n, time)); e.owner == e.s.current == m.owner && e.hold == m.hold + n
    decreases n
  {
    hide MutexOk, InThread, Tried;
    if n > 0 {
      TriedOwned(c, m, time);
      TriedKeeps(c, m, time);
      assert Takes(n, time)[1..] == Takes(n - 1, time);
      HoldsAdd(c, Called(c, m, Take(time)), n - 1, time);
    }
  }

  /** A take makes the caller the owner of a free mutex, or of its own mutex once more. */
  lemma TriedOwned(c: Config, m: State, time: int)
    requires MutexOk(c, m) && InThread(m.s) && (m.value == 1 || m.owner == m.s.current)
    ensures MayTake(m, time)
    ensures var m' := Tried(c, m, time).0;
            && InThread(m'.s) && m'.owner == m'.s.current == m.s.current && m'.hold == (m.hold + 1) % HOLD_WRAP
  {
    hide Homes, ThreadShape, ThreadOk, InOrder, Inherits;
    CleanKeeps(c, m.s);
  }

  /** Any thread that finds the mutex free reaches the last hold before the wrap: it takes it 255 times. */
  lemma HoldReached(c: Config, m: State, time: int)
    requires MutexOk(c, m) && InThread(m.s) && m.value == 1
    ensures RunOk(c, m, Takes(HOLD_WRAP - 1, time))
    ensures MutexOk(c, Run(c, m, Takes(HOLD_WRAP - 1, time))) && WrapsHold(Run(c, m, Takes(HOLD_WRAP - 1, time)))
  {
    hide MutexOk, InThread, Tried, Run;
    FreeIsUnheld(c, m);
    TriedOwned(c, m, time);
    TriedKeeps(c, m, time);
    var m' := Called(c, m, Take(time));
    HoldsAdd(c, m', HOLD_WRAP - 2, time);
    var xs := Takes(HOLD_WRAP - 1, time);
    assert xs[0] == Take(time) && xs[1..] == Takes(HOLD_WRAP - 2, time);
    RunFirst(c, m, xs);
    RunKeeps(c, m, xs);
  }

  lemma RunFirst(c: Config, m: State, xs: seq<Call>)
    requires MutexOk(c, m) && xs != [] && CallOk(c, m, xs[0])
    requires MutexOk(c, Called(c, m, xs[0])) && RunOk(c, Called(c, m, xs[0]), xs[1..])
    ensures RunOk(c, m, xs) && Run(c, m, xs) == Run(c, Called(c, m, xs[0]), xs[1..])
  {
    hide MutexOk, Called, CallOk;
  }

  lemma FreeIsUnheld(c: Config, m: State)
    requires MutexOk(c, m) && InThread(m.s) && m.value == 1
    ensures m.hold == 0 && !WrapsHold(m)
  {
    hide Fits, InOrder, Inherits;
  }

  /** t owns the mutex before and after every call of the run. */
  ghost predicate OwnsThrough(c: Config, m: State, xs: seq<Call>, t: int)
    requires MutexOk(c, m) && RunOk(c, m, xs)
    decreases |xs|
  {
    m.owner == t && (xs != [] ==> (CalledKeeps(c, m, xs[0]); OwnsThrough(c, Called(c, m, xs[0]), xs[1..], t)))
  }

  /** The saved priority changes only with the owner. */
  lemma CalledOriginal(c: Config, m: State, x: Call)
    requires MutexOk(c, m) && CallOk(c, m, x) && m.owner != NONE && Called(c, m, x).owner == m.owner
    ensures Called(c, m, x).original == m.original
  {
    hide Homes, ThreadShape, ThreadOk, InOrder, Step, Changed, Lent, Waiting, Woken;
    if x.Release? {
      if m.s.current == m.owner && m.hold <= 1 {
        OwnerApart(c, m);
        ChangedKeeps(c.P, m.s, m.owner, m.original);
        ChangedSame(c.P, m.s, m.owner, m.original, c.w);
      }
    }
  }

  lemma {:induction false} OriginalKept(c: Config, m: State, xs: seq<Call>, t: int)
    requires MutexOk(c, m) && RunOk(c, m, xs) && t != NONE && OwnsThrough(c, m, xs, t)
    ensures Run(c, m, xs).original == m.original && Run(c, m, xs).owner == t
    decreases |xs|
  {
    hide MutexOk, Called;
    if xs != [] {
      CalledKeeps(c, m, xs[0]);
      OwnsNext(c, m, xs, t);
      CalledOriginal(c, m, xs[0]);
      OriginalKept(c, Called(c, m, xs[0]), xs[1..], t);
    }
  }

  lemma OwnsNext(c: Config, m: State, xs: seq<Call>, t: int)
    requires MutexOk(c, m) && RunOk(c, m, xs) && xs != [] && OwnsThrough(c, m, xs, t)
    ensures Called(c, m, xs[0]).owner == t
  {
    hide MutexOk, Called;
  }

  /** The priorities of the callers that a run makes wait. */
  ghost function Lenders(c: Config, m: State, xs: seq<Call>): set<nat>
    requires MutexOk(c, m) && RunOk(c, m, xs)
    decreases |xs|
  {
    if xs == [] then {}
    else
      CalledKeeps(c, m, xs[0]);
      LenderOf(c, m, xs[0]) + Lenders(c, Called(c, m, xs[0]), xs[1..])
  }

  ghost function LenderOf(c: Config, m: State, x: Call): set<nat>
    requires MutexOk(c, m) && CallOk(c, m, x)
  {
    if x.Take? && Tried(c, m, x.time).1 == Waits then {m.s.thread[m.s.current].priority} else {}
  }

  /** A call that leaves the owner changes its priority only to that of a caller that waits and is more urgent. */
  lemma CalledPriority(c: Config, m: State, x: Call)
    requires MutexOk(c, m) && CallOk(c, m, x) && m.owner != NONE && Called(c, m, x).owner == m.owner
    ensures m.owner in m.s.thread && m.owner in Called(c, m, x).s.thread
    ensures var p, p' := m.s.thread[m.owner].priority, Called(c, m, x).s.thread[m.owner].priority;
            p' in {p} + LenderOf(c, m, x) && p' <= p && forall q :: q in LenderOf(c, m, x) ==> p' <= q
  {
    hide Fits, InOrder, Tried, Released, Step, Inherits, InThread;
    OwnerIn(c, m);
    match x
    case Take(time) =>
      TakeOutcome(c, m, time);
      if Tried(c, m, time).1 == Waits {
        WaitLends(c, m, time);
      }
    case Release =>
      ReleaseOutcome(c, m);
      if m.s.current == m.owner && m.hold == 1 {
        FinalRelease(c, m);
      }
    case Other(o) =>
      PrioritiesKept(c, m, o);
  }

  lemma OwnerIn(c: Config, m: State)
    requires MutexOk(c, m) && m.owner != NONE
    ensures m.owner in m.s.thread && m.hold >= 1
  {
    hide Fits, InOrder;
  }

  lemma PrioritiesKept(c: Config, m: State, o: Op)
    requires MutexOk(c, m) && OtherOk(c, m, o) && m.owner != NONE
    ensures m.owner in m.s.thread && m.owner in Step(c.P, m.s, o).thread
    ensures Step(c.P, m.s, o).thread[m.owner].priority == m.s.thread[m.owner].priority
  {
    hide WellFormed, Step, InOrder;
    StepPriorities(c.P, m.s, o);
    RenamedApart(c, m, o, m.owner);
  }

  /** While t owns the mutex its priority is the most urgent of the one it had and those of the threads that
      came to wait, and of nothing else. */
  lemma {:induction false} InheritsExactly(c: Config, m: State, xs: seq<Call>, t: int)
    requires MutexOk(c, m) && RunOk(c, m, xs) && t != NONE && OwnsThrough(c, m, xs, t)
    ensures t in m.s.thread && t in Run(c, m, xs).s.thread
    ensures var p, e := m.s.thread[t].priority, Run(c, m, xs).s.thread[t].priority;
            e in {p} + Lenders(c, m, xs) && e <= p && forall q :: q in Lenders(c, m, xs) ==> e <= q
    decreases |xs|
  {
    hide MutexOk, Called, LenderOf;
    OwnsFirst(c, m, xs, t);
    OwnerIn(c, m);
    if xs != [] {
      CalledKeeps(c, m, xs[0]);
      OwnsNext(c, m, xs, t);
      CalledPriority(c, m, xs[0]);
      InheritsExactly(c, Called(c, m, xs[0]), xs[1..], t);
    }
  }

  lemma OwnsFirst(c: Config, m: State, xs: seq<Call>, t: int)
    requires MutexOk(c, m) && RunOk(c, m, xs) && OwnsThrough(c, m, xs, t)
    ensures m.owner == t
  {
    hide MutexOk, Called;
  }

  /** The last release gives the owner the saved priority. */
  lemma FinalRelease(c: Config, m: State)
    requires MutexOk(c, m) && InThread(m.s) && m.s.current == m.owner && m.hold == 1
    ensures MutexOk(c, Released(c, m).0)
    ensures m.owner in Released(c, m).0.s.thread && Released(c, m).0.s.thread[m.owner].priority == m.original
    ensures Released(c, m).0.owner != m.owner
  {
    hide Homes, ThreadShape, ThreadOk, InOrder, Changed, Woken, Inherits;
    ReleasedKeeps(c, m);
    OwnerKnown(c, m);
    OwnerApart(c, m);
    ChangedKeeps(c.P, m.s, m.owner, m.original);
    ChangedSame(c.P, m.s, m.owner, m.original, c.w);
    var s := if m.original != m.s.thread[m.owner].priority then Changed(c.P, m.s, m.owner, m.original) else m.s;
    if s.lists[c.w] != [] {
      WokenKeeps(c.P, s, c.w);
      FirstWaits(c.P, s, c.w);
    }
  }

  /** Taking the free mutex, any run as its owner, and the last release: the owner's priority is what it was. */
  lemma PriorityRestored(c: Config, m: State, time: int, xs: seq<Call>)
    requires MutexOk(c, m) && InThread(m.s) && m.value == 1
    requires RunOk(c, Called(c, m, Take(time)), xs) && OwnsThrough(c, Called(c, m, Take(time)), xs, m.s.current)
    requires var e := Run(c, Called(c, m, Take(time)), xs);
             MutexOk(c, e) && InThread(e.s) && e.s.current == m.s.current && e.hold == 1
    ensures var e := Run(c, Called(c, m, Take(time)), xs);
            m.s.current in Released(c, e).0.s.thread
            && Released(c, e).0.s.thread[m.s.current].priority == m.s.thread[m.s.current].priority
  {
    hide Run, OwnsThrough, RunOk, Released, Fits, InOrder, Inherits, Called;
    var a := Called(c, m, Take(time));
    Grabbed(c, m, time);
    CalledKeeps(c, m, Take(time));
    OriginalKept(c, a, xs, m.s.current);
    FinalRelease(c, Run(c, a, xs));
  }

  lemma Grabbed(c: Config, m: State, time: int)
    requires MutexOk(c, m) && InThread(m.s) && m.value == 1
    ensures Called(c, m, Take(time)).owner == m.s.current && m.s.current != NONE
    ensures Called(c, m, Take(time)).original == m.s.thread[m.s.current].priority
  {
    hide Homes, ThreadShape, ThreadOk, InOrder, Lent, Waiting, Inherits;
  }

  /** With waiters the last release passes the mutex straight to the most urgent of them, the longest
      waiting of those, with the value still 0. */
  lemma HandOff(c: Config, m: State)
    requires MutexOk(c, m) && InThread(m.s) && m.s.current == m.owner && m.hold == 1 && m.s.lists[c.w] != []
    ensures var l, m' := m.s.lists[c.w], Released(c, m).0;
            && m'.owner == l[0] && m'.value == 0 && m'.hold == 1
            && m'.s.lists[c.w] == l[1..]
            && (forall i :: 0 <= i < |l| ==>
               l[i] in m.s.thread && m.s.thread[l[0]].priority <= m.s.thread[l[i]].priority)
            && l[0] in m'.s.thread && m'.s.thread[l[0]].stat == Ready
  {
    hide Homes, ThreadShape, ThreadOk, Changed, Woken, Inherits;
    OwnerKnown(c, m);
    ChangedKeeps(c.P, m.s, m.owner, m.original);
    ChangedSame(c.P, m.s, m.owner, m.original, c.w);
    var s := if m.original != m.s.thread[m.owner].priority then Changed(c.P, m.s, m.owner, m.original) else m.s;
    WokenKeeps(c.P, s, c.w);
    FirstWaits(c.P, s, c.w);
  }

  class RtMutex {
    const c: Config
    const kernel: Kernel
    var value: nat
    var hold: nat
    var owner: int
    var original: nat

    ghost function Now(): State
      reads this, kernel
    {
      State(value, hold, owner, original, kernel.abs)
    }

    ghost predicate Valid()
      reads this, kernel
    {
      kernel.Valid() && kernel.P == c.P && MutexOk(c, Now())
    }

    /** rt_mutex_init with RT_IPC_FLAG_PRIO. */
    constructor (kernel: Kernel, c: Config)
      requires kernel.Valid() && kernel.P == c.P && c.P <= c.w < |kernel.abs.lists| && kernel.abs.lists[c.w] == []
               && c.byPriority
      ensures Valid() && this.kernel == kernel && this.c == c && value == 1
    {
      this.kernel := kernel;
      this.c := c;
      value := 1;
      owner := NONE;
      original := NO_PRIORITY;
      hold := 0;
    }

    /** rt_mutex_take up to its rt_schedule, which follows when the outcome is Waits. */
    method Take(time: int) returns (outcome: Outcome)
      requires Valid() && MayTake(Now(), time)
      modifies this, kernel
      ensures kernel.Valid() && (Valid() <==> !old(WrapsHold(Now())))
      ensures old(MutexOk(c, Now()) && MayTake(Now(), time))
      ensures (Now(), outcome) == old(Tried(c, Now(), time))
    {
      hide WellFormed, Linked, Bitmap, Waiting, Inherits, InOrder, Changed;
      ghost var m := Now();
      TriedKeeps(c, m, time);
      CleanKeeps(c, m.s);
      var t := kernel.current;
      kernel.thread := kernel.thread[t := kernel.thread[t].(error := EOK)];
      kernel.abs := Cleaned(m.s);
      if owner == t {
        hold := (hold + 1) % HOLD_WRAP;
        return Got;
      }
      if value > 0 {
        value := value - 1;
        owner := t;
        original := kernel.thread[t].priority;
        hold := (hold + 1) % HOLD_WRAP;
        return Got;
      }
      if time == 0 {
        RefusedKeeps(c, m);
        kernel.thread := kernel.thread[t := kernel.thread[t].(error := ETIMEOUT)];
        kernel.abs := Errored(m.s, ETIMEOUT);
        return Refused;
      }
      OwnerKnown(c, m);
      LentKeeps(c, kernel.abs, owner);
      if kernel.thread[t].priority < kernel.thread[owner].priority {
        PriorityBelow(c, kernel.abs, t);
        kernel.SetPriority(owner, kernel.thread[t].priority);
      }
      kernel.ListSuspend(c.w, t, c.byPriority);
      outcome := Waits;
    }

    /** rt_mutex_release up to its rt_schedule. */
    method Release() returns (ok: bool)
      requires Valid() && InThread(kernel.abs)
      modifies this, kernel
      ensures Valid() && old(MutexOk(c, Now()) && InThread(kernel.abs))
      ensures (Now(), ok) == old(Released(c, Now()))
    {
      hide WellFormed, Linked, Bitmap, Woken, Inherits, InOrder, Changed;
      ghost var m := Now();
      ReleasedKeeps(c, m);
      var t := kernel.current;
      if t != owner {
        ErrorWell(c, m.s);
        kernel.thread := kernel.thread[t := kernel.thread[t].(error := EERROR)];
        kernel.abs := Errored(m.s, EERROR);
        return false;
      }
      hold := hold - 1;
      if hold == 0 {
        ReleaseOwner(c, m);
        if original != kernel.thread[owner].priority {
          kernel.SetPriority(owner, original);
        }
        FreedIs(c, m, kernel.abs);
        var some := kernel.HasWaiters(c.w);
        if some {
          var first := kernel.FirstWaiter(c.w);
          owner := first;
          original := kernel.thread[first].priority;
          hold := hold + 1;
          kernel.ListResume(c.w);
        } else {
          value := value + 1;
          owner := NONE;
          original := NO_PRIORITY;
        }
      }
      ok := true;
    }
  }

  lemma ErrorWell(c: Config, s: Sched)
    requires Fits(c, s) && s.current in s.thread
    ensures WellFormed(c.P, Errored(s, EERROR))
  {
    hide Homes, ThreadShape, ThreadOk;
    ErrorKeeps(c.P, s, s.current, EERROR);
  }

  lemma ReleaseOwner(c: Config, m: State)
    requires MutexOk(c, m) && InThread(m.s) && m.owner == m.s.current
    ensures m.value == 0 && m.owner in m.s.thread && m.original < c.P && Prioritised(c, m.s)
    ensures Fits(c, Changed(c.P, m.s, m.owner, m.original))
  {
    hide Homes, ThreadShape, ThreadOk, InOrder, Changed;
    OwnerKnown(c, m);
    ChangedKeeps(c.P, m.s, m.owner, m.original);
    ChangedSame(c.P, m.s, m.owner, m.original, c.w);
  }

  lemma PriorityBelow(c: Config, s: Sched, t: int)
    requires Fits(c, s) && t in s.thread
    ensures s.thread[t].priority < c.P
  {
    hide Homes, ThreadOk, WithPriority;
  }

  lemma RefusedKeeps(c: Config, m: State)
    requires MutexOk(c, m) && InThread(m.s)
    ensures WellFormed(c.P, Errored(m.s, ETIMEOUT))
    ensures Cleaned(m.s).thread[m.s.current := Cleaned(m.s).thread[m.s.current].(error := ETIMEOUT)]
            == Errored(m.s, ETIMEOUT).thread
  {
    hide Homes, ThreadShape, ThreadOk, InOrder, Inherits;
    ErrorKeeps(c.P, m.s, m.s.current, ETIMEOUT);
  }
}
