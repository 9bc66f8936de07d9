/** rt_sem_take and rt_sem_release: one step per critical section, between any other scheduler calls. */
module Semaphore {
  import opened RtList
  import opened Threads
  import opened SchedSpec
  import opened SchedEffects
  import opened Scheduler
  import opened Ipc
  import opened Waiters

  const VALUE_WRAP: int := 0x1_0000    // the value is an rt_uint16_t

  datatype Sem = Sem(value: nat, s: Sched)

  datatype Outcome = Got | Refused | Waits

  /** A thread waits only while there is nothing to take, and no waiter carries an error yet. */
  ghost predicate SemOk(c: Config, m: Sem) {
    && Fits(c, m.s)
    && m.value < VALUE_WRAP
    && (m.value > 0 ==> m.s.lists[c.w] == [])
    && (forall i :: 0 <= i < |m.s.lists[c.w]| ==> Clean(m.s, m.s.lists[c.w][i]))
  }

  /** Only a take that waits needs a running caller: any other one may come from an interrupt handler, also
      after the current thread suspended itself and before rt_schedule. */
  ghost predicate MayTake(m: Sem, time: int) {
    Running(m.s) || m.value > 0 || time == 0
  }

  ghost function Tried(c: Config, m: Sem, time: int): (r: (Sem, Outcome))
    requires Fits(c, m.s) && MayTake(m, time)
  {
    if m.value > 0 then (m.(value := m.value - 1), Got)
    else if time == 0 then (m, Refused)
    else
      CleanKeeps(c, m.s);
      (m.(s := Waiting(c.P, Cleaned(m.s), c.w, m.s.current, c.byPriority)), Waits)
  }

  ghost function Released(c: Config, m: Sem): Sem
    requires Fits(c, m.s)
  {
    if m.s.lists[c.w] != [] then m.(s := Woken(c.P, m.s, c.w)) else m.(value := (m.value + 1) % VALUE_WRAP)
  }

  lemma TriedKeeps(c: Config, m: Sem, time: int)
    requires SemOk(c, m) && MayTake(m, time)
    ensures SemOk(c, Tried(c, m, time).0)
  {
    hide Homes, ThreadShape, ThreadOk, Waiting;
    if m.value == 0 && time != 0 {
      CleanKeeps(c, m.s);
      WaitingKeeps(c.P, Cleaned(m.s), c.w, m.s.current, c.byPriority);
      WaitingClean(c, Cleaned(m.s));
    }
  }

  lemma ReleasedKeeps(c: Config, m: Sem)
    requires SemOk(c, m)
    ensures SemOk(c, Released(c, m))
  {
    hide Homes, ThreadShape, ThreadOk, Woken;
    var l := m.s.lists[c.w];
    if l != [] {
      WokenKeeps(c.P, m.s, c.w);
      FirstWaits(c.P, m.s, c.w);
      var s' := Woken(c.P, m.s, c.w);
      forall i | 0 <= i < |s'.lists[c.w]|
        ensures Clean(s', s'.lists[c.w][i])
      {
        assert s'.lists[c.w][i] == l[i + 1] && Clean(m.s, l[i + 1]);
      }
    }
  }

  lemma ForeignKeeps(c: Config, m: Sem, o: Op)
    requires SemOk(c, m) && OpOk(c.P, m.s, o) && Foreign(c, m.s, o)
    ensures SemOk(c, m.(s := Step(c.P, m.s, o)))
  {
    hide WellFormed, Step;
    StepKeeps(c.P, m.s, o);
    StepThins(c.P, m.s, o, c.w);
    ForeignFails(c, m.s, o);
    var s' := Step(c.P, m.s, o);
    forall i | 0 <= i < |s'.lists[c.w]|
      ensures Clean(s', s'.lists[c.w][i])
    {
      var t := s'.lists[c.w][i];
      assert t in s'.lists[c.w];
      assert t in m.s.lists[c.w];
      var j :| 0 <= j < |m.s.lists[c.w]| && m.s.lists[c.w][j] == t;
      assert Clean(m.s, m.s.lists[c.w][j]);
    }
  }

  // ----- What a caller gets -----

  /** A take gets a unit exactly when there is one, is refused exactly when there is none and it does not wait, and
      otherwise sleeps on the list. */
  lemma TakeOutcome(c: Config, m: Sem, time: int)
    requires SemOk(c, m) && MayTake(m, time)
    ensures var r := Tried(c, m, time);
            && (r.1 == Got <==> m.value > 0) && (r.1 == Refused <==> m.value == 0 && time == 0)
            && (r.1 == Got ==> r.0 == Sem(m.value - 1, m.s))
            && (r.1 == Refused ==> r.0 == m)
            && (r.1 == Waits ==> r.0.value == 0 && CallerSleeps(c, m.s, r.0.s))
  {
    hide Homes, ThreadShape, ThreadOk, Waiting, CallerSleeps;
    if m.value == 0 && time != 0 {
      CallerWaits(c, m.s);
    }
  }

  /** A release wakes the first waiter, and only without one does it add a unit. */
  lemma ReleaseOutcome(c: Config, m: Sem)
    requires SemOk(c, m)
    ensures var m' := Released(c, m);
            if m.s.lists[c.w] != [] then m'.value == m.value == 0 && FirstWakes(m.s, m'.s, c.w)
            else m' == Sem(if m.value == VALUE_WRAP - 1 then 0 else m.value + 1, m.s)
  {
    hide Homes, ThreadShape, ThreadOk, Woken, FirstWakes;
    if m.s.lists[c.w] != [] {
      WakeDoes(c.P, m.s, c.w);
    }
  }

  // ----- Conservation over runs -----

  datatype Call = Take(time: int) | Release | Other(o: Op)

  /** The semaphore with the number of releases and of successful takes so far. */
  datatype Ledger = Ledger(m: Sem, releases: nat, takes: nat)

  ghost predicate CallOk(c: Config, m: Sem, x: Call)
    requires SemOk(c, m)
  {
    match x
    case Take(time) => MayTake(m, time)
    case Release => true
    case Other(o) => OpOk(c.P, m.s, o) && Foreign(c, m.s, o)
  }

  /** A take succeeds at once, or when a release hands it the unit. */
  ghost function Booked(c: Config, l: Ledger, x: Call): Ledger
    requires SemOk(c, l.m) && CallOk(c, l.m, x)
  {
    match x
    case Take(time) =>
      var r := Tried(c, l.m, time);
      Ledger(r.0, l.releases, l.takes + if r.1.Got? then 1 else 0)
    case Release =>
      Ledger(Released(c, l.m), l.releases + 1, l.takes + if l.m.s.lists[c.w] != [] then 1 else 0)
    case Other(o) => Ledger(l.m.(s := Step(c.P, l.m.s, o)), l.releases, l.takes)
  }

  /** A release that finds nobody waiting and the value at its maximum. */
  ghost predicate Overflows(c: Config, m: Sem, x: Call)
    requires Fits(c, m.s)
  {
    x.Release? && m.s.lists[c.w] == [] && m.value == VALUE_WRAP - 1
  }

  /** A call conserves units exactly when it does not overflow the value. */
  lemma BookedKeeps(c: Config, l: Ledger, x: Call)
    requires SemOk(c, l.m) && CallOk(c, l.m, x)
    ensures SemOk(c, Booked(c, l, x).m)
    ensures Booked(c, l, x).m.value + Booked(c, l, x).takes - Booked(c, l, x).releases
            == l.m.value + l.takes - l.releases
            <==> !Overflows(c, l.m, x)
  {
    hide Homes, ThreadShape, ThreadOk, Waiting, Woken, Step;
    match x
    case Take(time) => TriedKeeps(c, l.m, time); SemFits(c, l.m);
    case Release => ReleasedKeeps(c, l.m); SemFits(c, l.m);
    case Other(o) => ForeignKeeps(c, l.m, o);
  }

  lemma SemFits(c: Config, m: Sem)
    requires SemOk(c, m)
    ensures Fits(c, m.s)
  {
  }

  ghost predicate RunOk(c: Config, l: Ledger, xs: seq<Call>)
    requires SemOk(c, l.m)
    decreases |xs|
  {
    xs != [] ==>
      CallOk(c, l.m, xs[0]) && !Overflows(c, l.m, xs[0])
      && (BookedKeeps(c, l, xs[0]); RunOk(c, Booked(c, l, xs[0]), xs[1..]))
  }

  ghost function Run(c: Config, l: Ledger, xs: seq<Call>): Ledger
    requires SemOk(c, l.m) && RunOk(c, l, xs)
    decreases |xs|
  {
    if xs == [] then l else BookedKeeps(c, l, xs[0]); Run(c, Booked(c, l, xs[0]), xs[1..])
  }

  /** With RT_IPC_FLAG_PRIO the waiters stand in priority order. */
  ghost predicate Sorted(c: Config, m: Sem)
    requires Fits(c, m.s)
  {
    c.byPriority ==> InOrder(m.s.lists[c.w], m.s.thread)
  }

  /** The call changes no waiter's priority. */
  ghost predicate LeavesPriorities(c: Config, m: Sem, x: Call)
    requires Fits(c, m.s)
  {
    x.Other? && x.o.SetPriority? ==> x.o.t !in m.s.lists[c.w]
  }

  lemma BookedSorted(c: Config, l: Ledger, x: Call)
    requires SemOk(c, l.m) && CallOk(c, l.m, x) && LeavesPriorities(c, l.m, x) && Sorted(c, l.m)
    ensures SemOk(c, Booked(c, l, x).m) && Sorted(c, Booked(c, l, x).m)
  {
    hide WellFormed, InOrder, Step, Waiting, Woken, Cleaned;
    BookedKeeps(c, l, x);
    var s := l.m.s;
    if c.byPriority {
      match x
      case Take(time) =>
        if l.m.value == 0 && time != 0 {
          CleanKeeps(c, s);
          CleanedSame(s);
          SameOrder(s.lists[c.w], s.thread, Cleaned(s).thread);
          WaitOrder(c.P, Cleaned(s), c.w, s.current, true, c.w);
        }
      case Release =>
        if s.lists[c.w] != [] {
          WokenOrder(c.P, s, c.w, c.w);
        }
      case Other(o) => StepOrder(c.P, s, o, {c.w as nat}, c.w);
    }
  }

  lemma CleanedSame(s: Sched)
    requires Running(s)
    ensures Cleaned(s).thread.Keys == s.thread.Keys && Cleaned(s).lists == s.lists
    ensures forall x :: x in s.thread ==> Cleaned(s).thread[x].priority == s.thread[x].priority
  {
  }

  /** No call of the run changes the priority of a thread that waits at that time. */
  ghost predicate AllLeavePriorities(c: Config, l: Ledger, xs: seq<Call>)
    requires SemOk(c, l.m) && RunOk(c, l, xs)
    decreases |xs|
  {
    xs != [] ==>
      LeavesPriorities(c, l.m, xs[0]) && (BookedKeeps(c, l, xs[0]); AllLeavePriorities(c, Booked(c, l, xs[0]), xs[1..]))
  }

  /** Over every run without overflow: initial value + releases = value + successful takes, a positive value
      means that no thread waits, and a priority wait list stays sorted while its waiters keep their priorities. */
  lemma {:induction false} Conservation(c: Config, l: Ledger, xs: seq<Call>)
    requires SemOk(c, l.m) && RunOk(c, l, xs)
    ensures SemOk(c, Run(c, l, xs).m)
    ensures Run(c, l, xs).m.value + Run(c, l, xs).takes - Run(c, l, xs).releases == l.m.value + l.takes - l.releases
    ensures Run(c, l, xs).m.value > 0 ==> Run(c, l, xs).m.s.lists[c.w] == []
    ensures Sorted(c, l.m) && AllLeavePriorities(c, l, xs) ==> Sorted(c, Run(c, l, xs).m)
    decreases |xs|
  {
    hide SemOk, Booked, Sorted, LeavesPriorities, Fits;
    SemFits(c, l.m);
    if xs != [] {
      BookedKeeps(c, l, xs[0]);
      Conservation(c, Booked(c, l, xs[0]), xs[1..]);
      if Sorted(c, l.m) && AllLeavePriorities(c, l, xs) {
        BookedSorted(c, l, xs[0]);
      }
    } else {
      PositiveIdle(c, l.m);
    }
  }

  lemma PositiveIdle(c: Config, m: Sem)
    requires SemOk(c, m)
    ensures Fits(c, m.s) && (m.value > 0 ==> m.s.lists[c.w] == [])
  {
  }

  // ----- Whose turn it is -----

  lemma BookedKeepsOrder(c: Config, l: Ledger, x: Call, a: int, b: int)
    requires SemOk(c, l.m) && CallOk(c, l.m, x)
    ensures SemOk(c, Booked(c, l, x).m) && Keeps(l.m.s.lists[c.w], Booked(c, l, x).m.s.lists[c.w], a, b)
  {
    hide WellFormed, Step, Waiting, Woken, Cleaned, Before;
    BookedKeeps(c, l, x);
    var s := l.m.s;
    match x
    case Take(time) =>
      if l.m.value == 0 && time != 0 {
        CleanKeeps(c, s);
        WaitKeepsOrder(c.P, Cleaned(s), c.w, s.current, c.byPriority, c.w, a, b);
      }
    case Release =>
      if s.lists[c.w] != [] {
        WokenKeepsOrder(c.P, s, c.w, c.w, a, b);
      }
    case Other(o) => StepKeepsOrder(c.P, s, o, c.w, a, b);
  }

  /** a and b wait in every state of the run. */
  ghost predicate BothWaitOn(c: Config, l: Ledger, xs: seq<Call>, a: int, b: int)
    requires SemOk(c, l.m) && RunOk(c, l, xs)
    decreases |xs|
  {
    && a in l.m.s.lists[c.w] && b in l.m.s.lists[c.w]
    && (xs != [] ==> (BookedKeeps(c, l, xs[0]); BothWaitOn(c, Booked(c, l, xs[0]), xs[1..], a, b)))
  }

  lemma {:induction false} RunKeepsWaiters(c: Config, l: Ledger, xs: seq<Call>, a: int, b: int)
    requires SemOk(c, l.m) && RunOk(c, l, xs) && BothWaitOn(c, l, xs, a, b) && Before(l.m.s.lists[c.w], a, b)
    ensures SemOk(c, Run(c, l, xs).m) && Before(Run(c, l, xs).m.s.lists[c.w], a, b)
    decreases |xs|
  {
    hide SemOk, Booked, Before, Fits;
    SemFits(c, l.m);
    if xs != [] {
      BookedKeepsOrder(c, l, xs[0], a, b);
      NextBothWait(c, l, xs, a, b);
      RunKeepsWaiters(c, Booked(c, l, xs[0]), xs[1..], a, b);
    }
  }

  lemma NextBothWait(c: Config, l: Ledger, xs: seq<Call>, a: int, b: int)
    requires SemOk(c, l.m) && RunOk(c, l, xs) && BothWaitOn(c, l, xs, a, b) && xs != []
    ensures SemOk(c, Booked(c, l, xs[0]).m)
    ensures a in Booked(c, l, xs[0]).m.s.lists[c.w] && b in Booked(c, l, xs[0]).m.s.lists[c.w]
  {
    hide SemOk, Booked;
    BookedKeeps(c, l, xs[0]);
    SemFits(c, Booked(c, l, xs[0]).m);
  }

  /** Ties are served in the order of arrival.  When a take makes the caller wait, every thread already
      waiting (with RT_IPC_FLAG_PRIO: every one no less urgent) stays before it as long as both wait, so
      that the next release does not hand the unit to the caller. */
  lemma FifoTies(c: Config, l: Ledger, time: int, xs: seq<Call>, a: int)
    requires SemOk(c, l.m) && Running(l.m.s) && l.m.value == 0 && time != 0 && a in l.m.s.lists[c.w]
    requires c.byPriority ==>
             Sorted(c, l.m) && a in l.m.s.thread && l.m.s.thread[a].priority <= l.m.s.thread[l.m.s.current].priority
    requires SemOk(c, Booked(c, l, Take(time)).m) && RunOk(c, Booked(c, l, Take(time)), xs)
    requires BothWaitOn(c, Booked(c, l, Take(time)), xs, a, l.m.s.current)
    ensures var e := Run(c, Booked(c, l, Take(time)), xs);
            && SemOk(c, e.m)
            && Before(e.m.s.lists[c.w], a, l.m.s.current)
            && e.m.s.lists[c.w][0] != l.m.s.current
  {
    hide WellFormed, Waiting, InOrder, Before, Cleaned, RunOk, Run, BothWaitOn;
    var s := l.m.s;
    CleanKeeps(c, s);
    CleanedSame(s);
    if c.byPriority {
      SameOrder(s.lists[c.w], s.thread, Cleaned(s).thread);
    }
    WaitsBehind(c, Cleaned(s), a);
    RunKeepsWaiters(c, Booked(c, l, Take(time)), xs, a, s.current);
    var e := Run(c, Booked(c, l, Take(time)), xs).m;
    NotFirst(c, e.s, a, s.current);
  }

  lemma NotFirst(c: Config, s: Sched, a: int, b: int)
    requires Fits(c, s) && Before(s.lists[c.w], a, b)
    ensures s.lists[c.w] != [] && s.lists[c.w][0] != b
  {
    HomeDistinct(s.lists, s.home, c.w);
  }

  /** The waiters that left the list with their error clear: their rt_sem_take returns RT_EOK. */
  ghost function Served(c: Config, m: Sem, m': Sem): set<int>
    requires Fits(c, m.s) && Fits(c, m'.s)
  {
    set t | t in m.s.lists[c.w] && t !in m'.s.lists[c.w] && Clean(m'.s, t)
  }

  /** The takes that are booked are those that succeed: at once, or by waking without an error. */
  lemma TakesSucceed(c: Config, l: Ledger, x: Call)
    requires SemOk(c, l.m) && CallOk(c, l.m, x)
    ensures Fits(c, l.m.s) && Fits(c, Booked(c, l, x).m.s)
    ensures Booked(c, l, x).takes - l.takes
            == |Served(c, l.m, Booked(c, l, x).m)| + if x.Take? && Tried(c, l.m, x.time).1.Got? then 1 else 0
  {
    hide WellFormed, Step, Waiting, Woken, Cleaned;
    BookedKeeps(c, l, x);
    var s := l.m.s;
    var served := Served(c, l.m, Booked(c, l, x).m);
    match x
    case Take(time) =>
      if l.m.value == 0 && time != 0 {
        CleanKeeps(c, s);
        Joined(c, Cleaned(s));
      }
      assert served == {};
    case Release =>
      if s.lists[c.w] != [] {
        HandOff(c, l.m);
        ListHead(c, s);
        assert served == {s.lists[c.w][0]};
      } else {
        assert served == {};
      }
    case Other(o) =>
      ForeignFails(c, s, o);
      assert served == {};
  }

  lemma ListHead(c: Config, s: Sched)
    requires Fits(c, s) && s.lists[c.w] != []
    ensures forall t :: t in s.lists[c.w] <==> t == s.lists[c.w][0] || t in s.lists[c.w][1..]
    ensures s.lists[c.w][0] !in s.lists[c.w][1..]
  {
    HomeDistinct(s.lists, s.home, c.w);
    DistinctTail(s.lists[c.w]);
  }

  /** A release with waiters makes exactly the first of them ready, without an error, and leaves the value alone. */
  lemma HandOff(c: Config, m: Sem)
    requires SemOk(c, m) && m.s.lists[c.w] != []
    ensures var t := m.s.lists[c.w][0];
            && t in m.s.thread && m.s.thread[t].stat == Suspend
            && Released(c, m).s.thread == m.s.thread[t := m.s.thread[t].(stat := Ready)]
            && Released(c, m).s.thread[t].error == EOK
            && Released(c, m).s.lists[c.w] == m.s.lists[c.w][1..]
            && Released(c, m).value == 0
  {
    hide Homes, ThreadShape, ThreadOk, Woken;
    FirstWaits(c.P, m.s, c.w);
    WokenKeeps(c.P, m.s, c.w);
    assert Clean(m.s, m.s.lists[c.w][0]);
  }

  class RtSemaphore {
    const c: Config
    const kernel: Kernel
    var value: nat

    ghost predicate Valid()
      reads this, kernel
    {
      kernel.Valid() && kernel.P == c.P && SemOk(c, Sem(value, kernel.abs))
    }

    /** rt_sem_init. */
    constructor (kernel: Kernel, c: Config, value: nat)
      requires kernel.Valid() && kernel.P == c.P && c.P <= c.w < |kernel.abs.lists| && kernel.abs.lists[c.w] == []
      requires value < VALUE_WRAP
      ensures Valid() && this.kernel == kernel && this.c == c && this.value == value
    {
      this.kernel := kernel;
      this.c := c;
      this.value := value;
    }

    /** rt_sem_take up to its rt_schedule, which follows when the outcome is Waits. */
    method Take(time: int) returns (outcome: Outcome)
      requires Valid() && MayTake(Sem(value, kernel.abs), time)
      modifies this, kernel
      ensures Valid() && old(Fits(c, kernel.abs) && MayTake(Sem(value, kernel.abs), time))
      ensures (Sem(value, kernel.abs), outcome) == old(Tried(c, Sem(value, kernel.abs), time))
    {
      hide WellFormed, Linked, Bitmap, Waiting;
      TriedKeeps(c, Sem(value, kernel.abs), time);
      if value > 0 {
        value := value - 1;
        return Got;
      }
      if time == 0 {
        return Refused;
      }
      CleanKeeps(c, kernel.abs);
      var t := kernel.current;
      kernel.thread := kernel.thread[t := kernel.thread[t].(error := EOK)];
      kernel.abs := Cleaned(kernel.abs);
      kernel.ListSuspend(c.w, t, c.byPriority);
      outcome := Waits;
    }

    /** rt_sem_release up to its rt_schedule. */
    method Release() returns (needSchedule: bool)
      requires Valid()
      modifies this, kernel
      ensures Valid() && old(Fits(c, kernel.abs)) && Sem(value, kernel.abs) == old(Released(c, Sem(value, kernel.abs)))
      ensures needSchedule <==> old(kernel.abs.lists[c.w]) != []
    {
      hide WellFormed, Linked, Bitmap, Woken, Homes;
      ReleasedKeeps(c, Sem(value, kernel.abs));
      var some := kernel.HasWaiters(c.w);
      if some {
        kernel.ListResume(c.w);
        needSchedule := true;
      } else {
        value := (value + 1) % VALUE_WRAP;
        needSchedule := false;
      }
    }
  }
}
