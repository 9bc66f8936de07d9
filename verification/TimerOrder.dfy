/** Hard timers over runs: which timers carry the ACTIVATED flag, and the order of timers due together. */
module TimerOrder {
  import opened RtList
  import opened TimerSpec

  // ----- Flags and links -----

  /** At tick now, when t may have come due, the callback of the one-shot timer t leaves t started. */
  ghost predicate Bad(u: Setup, t: int, now: nat) {
    t in u.script && t in u.init && t !in u.periodic && u.init[t] <= now && After(u.script[t](now), t, false)
  }

  /** No one-shot timer's callback leaves its own timer started. */
  ghost predicate NeverParts(u: Setup) {
    forall t, now :: !Bad(u, t, now)
  }

  /** The state rt_system_timer_init and rt_timer_init leave. */
  function Initial(u: Setup): State {
    State(0, [], {}, map t | t in u.init :: 0, [])
  }

  ghost predicate RunOk(u: Setup, ops: seq<Op>) {
    forall i :: 0 <= i < |ops| ==> OpOk(u, ops[i])
  }

  lemma InitialSettled(u: Setup)
    requires Sane(u)
    ensures Settled(u, Initial(u)) && InStep(Initial(u))
  {
  }

  lemma {:induction false} CheckedInStep(u: Setup, s: State)
    requires WellFormed(u, s) && InStep(s) && NeverParts(u) && forall x :: Tidy(u, s, x)
    ensures InStep(Checked(u, s))
    decreases |Due(s)|
  {
    hide Sane, Sorted, Distinct, Near, Fired, InStep, Tidy;
    if HeadDue(s) {
      HeadReady(u, s);
      assert !Bad(u, s.queue[0], s.now);
      forall x
        ensures Tidy(u, Fired(u, s), x)
      {
        FiredTidy(u, s, x);
      }
      FiredDue(u, s);
      PoppedDue(u, s);
      PoppedKeeps(u, s);
      SmallerSet(Due(Fired(u, s)), Due(s), s.queue[0]);
      FiredInStep(u, s);
      CheckedInStep(u, Fired(u, s));
    }
  }

  lemma HeadReady(u: Setup, s: State)
    requires WellFormed(u, s) && HeadDue(s) && Tidy(u, s, s.queue[0])
    ensures s.queue[0] in u.init && u.init[s.queue[0]] <= s.now
  {
    assert s.queue[0] in s.queue;
  }

  lemma StepInStep(u: Setup, s: State, o: Op)
    requires Settled(u, s) && OpOk(u, o) && InStep(s) && NeverParts(u)
    ensures Settled(u, Step(u, s, o)) && InStep(Step(u, s, o))
  {
    hide Sane, Sorted, Distinct, Near, Settled, Started, NeverParts, Checked;
    StepKeeps(u, s, o);
    SettledWell(u, s);
    match o
    case Do(Start(t)) => StartedKeeps(u, s, t); StartedActive(u, s, t);
    case Do(Stop(t)) => StoppedKeeps(u, s, t);
    case Tick =>
      LaterKeeps(u, s);
      CheckedInStep(u, Later(s));
  }

  lemma {:induction false} RunInStep(u: Setup, s: State, ops: seq<Op>)
    requires Settled(u, s) && RunOk(u, ops) && InStep(s) && NeverParts(u)
    ensures InStep(Run(u, s, ops))
    decreases |ops|
  {
    hide Settled, Step, InStep, NeverParts;
    if ops != [] {
      StepInStep(u, s, ops[0]);
      RunInStep(u, Step(u, s, ops[0]), ops[1..]);
    }
  }

  function Ticks(n: nat): seq<Op> {
    if n == 0 then [] else [Tick] + Ticks(n - 1)
  }

  lemma {:induction false} TicksOk(u: Setup, n: nat)
    ensures RunOk(u, Ticks(n))
  {
    if n > 0 {
      TicksOk(u, n - 1);
    }
  }

  /** The only linked timer, when it comes due. */
  lemma LastTick(u: Setup, s: State, t: int)
    requires Settled(u, s) && InStep(s) && Bad(u, t, s.now + 1) && s.queue == [t] && s.deadline[t] == s.now + 1
    ensures !InStep(Ticked(u, s))
  {
    hide Sane, Sorted, Distinct, Near, Fired, InStep, Settled;
    LaterKeeps(u, s);
    SettledWell(u, s);
    SameInStep(s, Later(s));
    var l := Later(s);
    FiredInStep(u, l);
    FiredDue(u, l);
    assert Due(l) <= {t};
    if HeadDue(Fired(u, l)) {
      HeadIsIn(Fired(u, l));
    }
    assert Checked(u, l) == Checked(u, Fired(u, l)) == Fired(u, l);
  }

  lemma SameInStep(s: State, s': State)
    requires InStep(s) && s'.active == s.active && s'.queue == s.queue
    ensures InStep(s')
  {
  }

  lemma HeadIsIn(s: State)
    requires Known(s.queue, s.deadline) && HeadDue(s)
    ensures s.queue[0] in Due(s)
  {
  }

  /** The only linked timer, until it comes due. */
  lemma {:induction false} PartsAfter(u: Setup, s: State, t: int, n: nat)
    requires Settled(u, s) && InStep(s) && Bad(u, t, s.now + n) && s.queue == [t] && n > 0 && s.deadline[t] == s.now + n
    ensures RunOk(u, Ticks(n)) && !InStep(Run(u, s, Ticks(n)))
    decreases n
  {
    hide Sane, Sorted, Distinct, Near, InStep, Settled, Bad, RunOk;
    TicksOk(u, n);
    TicksOk(u, n - 1);
    StepKeeps(u, s, Tick);
    SettledWell(u, s);
    if n == 1 {
      LastTick(u, s, t);
    } else {
      LaterKeeps(u, s);
      SameInStep(s, Later(s));
      assert Ticked(u, s) == Later(s);
      PartsAfter(u, Later(s), t, n - 1);
    }
    assert Ticks(n)[1..] == Ticks(n - 1);
    RunFirst(u, s, Ticks(n));
  }

  lemma RunFirst(u: Setup, s: State, ops: seq<Op>)
    requires Settled(u, s) && RunOk(u, ops) && ops != []
    ensures Settled(u, Step(u, s, ops[0])) && Run(u, s, ops) == Run(u, Step(u, s, ops[0]), ops[1..])
  {
    hide Settled, Step;
    StepKeeps(u, s, ops[0]);
  }

  /** Start t now, and let its delay pass. */
  lemma PartsNow(u: Setup, s: State, t: int) returns (ops: seq<Op>)
    requires Settled(u, s) && s.queue == [] && s.active == {} && t in u.init && Bad(u, t, s.now + u.init[t])
    ensures RunOk(u, ops) && !InStep(Run(u, s, ops))
  {
    hide Sorted, Distinct, Near, Settled, InStep, Run, Placed;
    SettledWell(u, s);
    AfterStarts(u.script[t](s.now + u.init[t]), t);
    ScriptIsSane(u, t, s.now + u.init[t]);
    StartedKeeps(u, s, t);
    var n := u.init[t];
    ops := [Do(Start(t))] + Ticks(n);
    TicksOk(u, n);
    StepKeeps(u, s, Do(Start(t)));
    var s1 := Started(u, s, t);
    OnlyLinked(s1.queue, t);
    StartedActive(u, s, t);
    OneInStep(s1, t);
    PartsAfter(u, s1, t, n);
    assert ops[1..] == Ticks(n);
    RunFirst(u, s, ops);
  }

  /** Let time pass, so that the delay of t ends at the tick at which its callback leaves it started. */
  lemma {:induction false} PartsLater(u: Setup, s: State, t: int, now: nat) returns (ops: seq<Op>)
    requires Settled(u, s) && s.queue == [] && s.active == {} && t in u.init && Bad(u, t, now)
             && s.now + u.init[t] <= now
    ensures RunOk(u, ops) && !InStep(Run(u, s, ops))
    decreases now - s.now
  {
    hide Settled, InStep, Run, Bad;
    if s.now + u.init[t] == now {
      ops := PartsNow(u, s, t);
    } else {
      SettledWell(u, s);
      LaterKeeps(u, s);
      StepKeeps(u, s, Tick);
      assert Ticked(u, s) == Later(s);
      var rest := PartsLater(u, Later(s), t, now);
      ops := [Tick] + rest;
      assert ops[1..] == rest;
      RunFirst(u, s, ops);
    }
  }

  lemma Parts(u: Setup, t: int, now: nat) returns (ops: seq<Op>)
    requires Sane(u) && t in u.init && Bad(u, t, now)
    ensures RunOk(u, ops) && Settled(u, Initial(u)) && !InStep(Run(u, Initial(u), ops))
  {
    hide Sane, Settled, InStep, Run;
    InitialSettled(u);
    ops := PartsLater(u, Initial(u), t, now);
  }

  lemma OnlyLinked(q: seq<int>, t: int)
    requires Distinct(q) && forall x :: x in q <==> x == t
    ensures q == [t]
  {
    assert |q| > 1 ==> q[0] != q[1];
    forall i | 0 <= i < |q|
      ensures q[i] == t
    {
      assert q[i] in q;
    }
    assert t in q;
  }

  lemma OneInStep(s: State, t: int)
    requires s.queue == [t] && s.active == {t}
    ensures InStep(s)
  {
  }

  /** Flags and links agree in every state every run reaches exactly when no one-shot timer's callback
      leaves its own timer started, at any tick at which that timer can fire. */
  lemma InStepIff(u: Setup)
    requires Sane(u)
    ensures Settled(u, Initial(u))
    ensures NeverParts(u) <==> forall ops :: RunOk(u, ops) ==> InStep(Run(u, Initial(u), ops))
  {
    hide Sane, Settled, InStep, Run;
    InitialSettled(u);
    if NeverParts(u) {
      forall ops | RunOk(u, ops)
        ensures InStep(Run(u, Initial(u), ops))
      {
        RunInStep(u, Initial(u), ops);
      }
    } else {
      var t, now :| Bad(u, t, now);
      var ops := Parts(u, t, now);
    }
  }

  // ----- The order of linked timers -----

  /** x and y, if linked with these deadlines, stand in this order. */
  ghost predicate Ordered(s: State, x: int, y: int, dx: nat, dy: nat) {
    x in s.queue && y in s.queue && x in s.deadline && s.deadline[x] == dx && y in s.deadline && s.deadline[y] == dy
    ==> Before(s.queue, x, y)
  }

  lemma CalledOrder(u: Setup, s: State, c: Call, x: int, y: int, dx: nat, dy: nat)
    requires WellFormed(u, s) && c.t in u.init && Ordered(s, x, y, dx, dy)
    requires c == Start(x) && x in u.init ==> s.now + u.init[x] != dx
    requires c == Start(y) && y in u.init ==> s.now + u.init[y] != dy
    ensures Ordered(Called(u, s, c), x, y, dx, dy)
  {
    hide Sane, Sorted, Distinct, Near, Before, Started, Stopped;
    match c
    case Start(t) =>
      StartedKeeps(u, s, t);
      StartedActive(u, s, t);
      if t != x && t != y && Before(s.queue, x, y) {
        StartedOther(u, s, t, x, y);
      }
    case Stop(t) =>
      StoppedKeeps(u, s, t);
      StoppedDeadlines(s, t);
      if x in Stopped(s, t).queue && y in Stopped(s, t).queue && Before(s.queue, x, y) {
        StoppedOther(u, s, t, x, y);
      }
  }

  lemma StartedOther(u: Setup, s: State, t: int, x: int, y: int)
    requires WellFormed(u, s) && t in u.init && t != x && t != y && Before(s.queue, x, y)
    ensures Before(Started(u, s, t).queue, x, y)
  {
    hide Sane, Sorted, Near, Before, Drop, CountUpTo;
    BeforeDrop(s.queue, t, x, y);
    KnownDrop(s.queue, s.deadline, t);
    var deadline := s.deadline[t := s.now + u.init[t]];
    BeforeInserted(Drop(s.queue, t), CountUpTo(Drop(s.queue, t), deadline, deadline[t]), t, x, y);
  }

  lemma StoppedOther(u: Setup, s: State, t: int, x: int, y: int)
    requires WellFormed(u, s) && x in Stopped(s, t).queue && y in Stopped(s, t).queue && Before(s.queue, x, y)
    ensures Before(Stopped(s, t).queue, x, y)
  {
    hide Sane, Sorted, Distinct, Near, Before, Drop;
    if t in s.active {
      InDrop(s.queue, t);
      BeforeDrop(s.queue, t, x, y);
    }
  }

  lemma StoppedDeadlines(s: State, t: int)
    ensures Stopped(s, t).deadline == s.deadline
  {
  }

  /** A start now sets another deadline than d. */
  ghost predicate Newer(u: Setup, now: nat, x: int, d: nat) {
    x in u.init && u.init[x] > 0 ==> d < now + u.init[x]
  }

  lemma {:induction false} RanOrder(u: Setup, s: State, cs: seq<Call>, x: int, y: int, dx: nat, dy: nat)
    requires WellFormed(u, s) && forall i :: 0 <= i < |cs| ==> cs[i].t in u.init
    requires forall i :: 0 <= i < |cs| && cs[i].Start? ==> u.init[cs[i].t] > 0
    requires Ordered(s, x, y, dx, dy) && Newer(u, s.now, x, dx) && Newer(u, s.now, y, dy)
    ensures Ordered(Ran(u, s, cs), x, y, dx, dy)
    decreases |cs|
  {
    hide Sane, Sorted, Distinct, Near, Called, Ordered;
    if cs != [] {
      CalledKeeps(u, s, cs[0]);
      CalledOrder(u, s, cs[0], x, y, dx, dy);
      RanOrder(u, Called(u, s, cs[0]), cs[1..], x, y, dx, dy);
    }
  }

  lemma PoppedOrder(u: Setup, s: State, x: int, y: int, dx: nat, dy: nat)
    requires WellFormed(u, s) && s.queue != [] && Ordered(s, x, y, dx, dy)
    ensures Ordered(Popped(s), x, y, dx, dy)
  {
    hide Sane, Sorted, Near;
    PoppedQueue(s, x);
    PoppedQueue(s, y);
    if Before(s.queue, x, y) && x != s.queue[0] {
      BeforeTail(s.queue, x, y);
    }
  }

  lemma FiredOrder(u: Setup, s: State, x: int, y: int, dx: nat, dy: nat)
    requires WellFormed(u, s) && s.queue != []
    requires Ordered(s, x, y, dx, dy) && Newer(u, s.now, x, dx) && Newer(u, s.now, y, dy)
    ensures WellFormed(u, Fired(u, s)) && Ordered(Fired(u, s), x, y, dx, dy)
  {
    hide Sane, Sorted, Distinct, Near, Ran, Popped, Started, Before;
    FiredKeeps(u, s);
    PoppedKeeps(u, s);
    PoppedOrder(u, s, x, y, dx, dy);
    var t := s.queue[0];
    FiredNow(s);
    ScriptIsSane(u, t, s.now);
    RanKeeps(u, Popped(s), u.script[t](s.now));
    RanOrder(u, Popped(s), u.script[t](s.now), x, y, dx, dy);
    var after := Ran(u, Popped(s), u.script[t](s.now));
    IdleKeeps(u, after, t);
    var idle := after.(active := after.active - {t});
    assert Ordered(idle, x, y, dx, dy);
    if t in u.periodic && t in after.active {
      CalledOrder(u, idle, Start(t), x, y, dx, dy);
      CalledIsStarted(u, idle, t);
    }
  }

  lemma FiredNow(s: State)
    requires s.queue != []
    ensures Popped(s).now == s.now
  {
  }

  lemma {:induction false} CheckedOrder(u: Setup, s: State, x: int, y: int, dx: nat, dy: nat)
    requires WellFormed(u, s)
    requires Ordered(s, x, y, dx, dy) && Newer(u, s.now, x, dx) && Newer(u, s.now, y, dy)
    ensures Ordered(Checked(u, s), x, y, dx, dy)
    decreases |Due(s)|
  {
    hide Sane, Sorted, Distinct, Near, Fired, Ordered;
    if HeadDue(s) {
      FiredDue(u, s);
      FiredKeeps(u, s);
      PoppedDue(u, s);
      SmallerSet(Due(Fired(u, s)), Due(s), s.queue[0]);
      FiredOrder(u, s, x, y, dx, dy);
      CheckedOrder(u, Fired(u, s), x, y, dx, dy);
    }
  }

  /** x is still linked, with the deadline it had. */
  ghost predicate Stays(s: State, s': State, x: int) {
    x in s'.queue && x in s.deadline && x in s'.deadline && s'.deadline[x] == s.deadline[x]
  }

  /** No call but a start of their own changes the order of two timers that stay linked. */
  lemma StepKeepsOrder(u: Setup, s: State, o: Op, x: int, y: int)
    requires Settled(u, s) && OpOk(u, o) && Before(s.queue, x, y)
    requires o != Do(Start(x)) && o != Do(Start(y))
    requires Stays(s, Step(u, s, o), x) && Stays(s, Step(u, s, o), y)
    ensures Before(Step(u, s, o).queue, x, y)
  {
    hide Sane, Sorted, Distinct, Near, Called, Checked;
    SettledTidy(u, s);
    SettledWell(u, s);
    match o
    case Do(c) => CalledOrder(u, s, c, x, y, s.deadline[x], s.deadline[y]);
    case Tick =>
      LaterKeeps(u, s);
      assert Tidy(u, s, x) && Tidy(u, s, y);
      CheckedOrder(u, Later(s), x, y, s.deadline[x], s.deadline[y]);
  }

  /** Through every call of the run x and y stay linked and are not started again. */
  ghost predicate BothStay(u: Setup, s: State, ops: seq<Op>, x: int, y: int)
    requires Settled(u, s) && RunOk(u, ops)
    decreases |ops|
  {
    ops != [] ==>
      && ops[0] != Do(Start(x)) && ops[0] != Do(Start(y))
      && (StepKeeps(u, s, ops[0]); Stays(s, Step(u, s, ops[0]), x) && Stays(s, Step(u, s, ops[0]), y)
                                   && BothStay(u, Step(u, s, ops[0]), ops[1..], x, y))
  }

  lemma {:induction false} RunKeepsOrder(u: Setup, s: State, ops: seq<Op>, x: int, y: int)
    requires Settled(u, s) && RunOk(u, ops) && Before(s.queue, x, y) && BothStay(u, s, ops, x, y)
    ensures Before(Run(u, s, ops).queue, x, y)
    decreases |ops|
  {
    hide Settled, Step, Before, Stays;
    if ops != [] {
      StepKeeps(u, s, ops[0]);
      StepKeepsOrder(u, s, ops[0], x, y);
      RunKeepsOrder(u, Step(u, s, ops[0]), ops[1..], x, y);
    }
  }

  /** A started timer goes behind every linked timer that is due no later. */
  lemma StartedBehind(u: Setup, s: State, t: int, x: int)
    requires WellFormed(u, s) && t in u.init && x in s.queue && x != t && s.deadline[x] <= s.now + u.init[t]
    ensures Before(Started(u, s, t).queue, x, t)
  {
    hide Sane, Sorted, Near, Before;
    var deadline := s.deadline[t := s.now + u.init[t]];
    KnownDrop(s.queue, s.deadline, t);
    InDrop(s.queue, t);
    var q := Drop(s.queue, t);
    var k := CountUpTo(q, deadline, deadline[t]);
    var i :| 0 <= i < |q| && q[i] == x;
    SortedDrop(s.queue, s.deadline, deadline, t);
    InFront(q, deadline, deadline[t], i);
    InsertedBehind(q, k, t, i);
  }

  lemma InFront(q: seq<int>, deadline: map<int, nat>, d: nat, i: nat)
    requires Known(q, deadline) && Sorted(q, deadline) && i < |q| && deadline[q[i]] <= d
    ensures i < CountUpTo(q, deadline, d)
  {
    hide CountUpTo, Sorted;
    var k := CountUpTo(q, deadline, d);
    if k <= i {
      SortedAt(q, deadline, k, i);
    }
  }

  lemma SortedAt(q: seq<int>, deadline: map<int, nat>, k: nat, i: nat)
    requires Known(q, deadline) && Sorted(q, deadline) && k <= i < |q|
    ensures deadline[q[k]] <= deadline[q[i]]
  {
  }

  /** Timers due at the same tick stay in the order in which they were started. */
  lemma TiesInStartOrder(u: Setup, s: State, t: int, x: int, ops: seq<Op>)
    requires Settled(u, s) && t in u.init && x in s.queue && x != t
    requires WellFormed(u, s) && s.deadline[x] == s.now + u.init[t] && RunOk(u, ops)
    requires Settled(u, Started(u, s, t)) && BothStay(u, Started(u, s, t), ops, x, t)
    ensures Before(Run(u, Started(u, s, t), ops).queue, x, t)
  {
    StartedBehind(u, s, t, x);
    RunKeepsOrder(u, Started(u, s, t), ops, x, t);
  }

  /** One check fires timers in the order of the queue, so that of timers due together the one started
      first fires first. */
  lemma {:induction false} FiresInQueueOrder(u: Setup, s: State, i: nat, j: nat)
    requires WellFormed(u, s) && i < j < |Fires(u, s)|
    ensures Before(s.queue, Fires(u, s)[i], Fires(u, s)[j])
    decreases |Due(s)|
  {
    hide Sane, Sorted, Near, Fired, Due, HeadDue, Before;
    var t, rest := FiresFirst(u, s);
    var x, y := Fires(u, s)[i], Fires(u, s)[j];
    DueLinked(s, y);
    if i == 0 {
      var k :| 0 <= k < |s.queue| && s.queue[k] == y;
      BeforeAt(s.queue, 0, k);
    } else {
      FiresInQueueOrder(u, Fired(u, s), i - 1, j - 1);
      DueLinked(s, x);
      DueLinked(Fired(u, s), x);
      DueLinked(Fired(u, s), y);
      BeforeOneWay(s.queue, x, y);
      BeforeOneWay(Fired(u, s).queue, x, y);
      if Before(s.queue, y, x) {
        DueNewer(u, s, x);
        DueNewer(u, s, y);
        FiredOrder(u, s, y, x, s.deadline[y], s.deadline[x]);
      }
    }
  }

  lemma FiresFirst(u: Setup, s: State) returns (t: int, rest: seq<int>)
    requires WellFormed(u, s) && Fires(u, s) != []
    ensures HeadDue(s) && t == s.queue[0] && WellFormed(u, Fired(u, s)) && |Due(Fired(u, s))| < |Due(s)|
    ensures rest == Fires(u, Fired(u, s)) && Fires(u, s) == [t] + rest
    ensures Distinct(Fires(u, s)) && OldDue(s, Fired(u, s))
    ensures forall x :: x in Fires(u, s) ==> x in Due(s)
    ensures forall x :: x in rest ==> x in Due(Fired(u, s))
  {
    hide Sane, Sorted, Distinct, Near, Fired;
    FiresInOrder(u, s);
    FiredDue(u, s);
    FiredOldDue(u, s);
    PoppedDue(u, s);
    SmallerSet(Due(Fired(u, s)), Due(s), s.queue[0]);
    FiresInOrder(u, Fired(u, s));
    t, rest := s.queue[0], Fires(u, Fired(u, s));
  }

  lemma DueLinked(s: State, x: int)
    requires Known(s.queue, s.deadline) && x in Due(s)
    ensures x in s.queue && x in s.deadline && s.deadline[x] <= s.now
  {
  }

  lemma DueNewer(u: Setup, s: State, x: int)
    requires Known(s.queue, s.deadline) && x in Due(s)
    ensures x in s.deadline && Newer(u, s.now, x, s.deadline[x])
  {
  }
}
