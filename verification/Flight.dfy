/** rt_thread_resume with interrupts enabled: its test and its two critical sections, between any other steps.

  A thread is entered once the test has found it suspended, and in flight between the section that
  takes it off its wait list and the one that puts it on its ready list.  Neither section looks at the
  thread's state again.
 */
module Flight {
  import opened Threads
  import opened SchedSpec

  /** `entered` and `flying` hold a thread once for every resume that has come that far with it. */
  datatype State = State(s: Sched, entered: multiset<int>, flying: multiset<int>)

  datatype Move = Do(o: Op) | Enter(t: int) | Leave(t: int) | Finish(t: int)

  ghost predicate MoveOk(P: nat, m: State, v: Move)
    requires WellFormed(P, m.s)
  {
    match v
    case Do(o) => OpOk(P, m.s, o)
    case Enter(t) => t in m.s.thread
    case Leave(t) => t in m.entered && t in m.s.thread
    case Finish(t) => t in m.flying && t in m.s.thread
  }

  ghost function Moved(P: nat, m: State, v: Move): State
    requires WellFormed(P, m.s) && MoveOk(P, m, v)
  {
    match v
    case Do(o) => m.(s := Step(P, m.s, o))
    case Enter(t) => if m.s.thread[t].stat == Suspend then m.(entered := m.entered + multiset{t}) else m
    case Leave(t) =>
      HomeBound(P, m.s, t);
      State(Dequeued(m.s, t), m.entered - multiset{t}, m.flying + multiset{t})
    case Finish(t) =>
      ShapeBounds(P, m.s, t);
      State(Enqueued(m.s, t), m.entered, m.flying - multiset{t})
  }

  /** Every thread with a resume under way is still suspended, on no list once it is in flight, and no
      second resume of it is under way. */
  ghost predicate Calm(P: nat, m: State) {
    && WellFormed(P, m.s)
    && (forall t :: t in m.entered + m.flying ==> t in m.s.thread && m.s.thread[t].stat == Suspend)
    && (forall t :: t in m.flying ==> m.s.home[t] == NOWHERE)
    && (forall t :: (m.entered + m.flying)[t] <= 1)
  }

  /** Somebody else resumes t while its resume is under way. */
  ghost predicate Disturbs(P: nat, m: State, v: Move, t: int)
    requires WellFormed(P, m.s) && MoveOk(P, m, v)
  {
    && t in m.entered + m.flying
    && (v == Enter(t) || (v.Do? && t in Step(P, m.s, v.o).thread && Step(P, m.s, v.o).thread[t].stat == Ready))
  }

  // ----- Suspended threads stay where they are -----

  lemma {:induction false} AllWokenHome(P: nat, s: Sched, w: nat, t: int)
    requires WellFormed(P, s) && P <= w < |s.lists| && t in s.thread && t !in s.lists[w]
    ensures t in AllWoken(P, s, w).home && AllWoken(P, s, w).home[t] == s.home[t]
    decreases |s.lists[w]|
  {
    hide WellFormed, Woken, Failed;
    KnownHome(P, s, t);
    if s.lists[w] != [] {
      FailedKeeps(P, s, w);
      var f := Failed(P, s, w);
      WokenKeeps(P, f, w);
      WokenHome(P, s, w, t);
      AllWokenHome(P, Woken(P, f, w), w, t);
    }
  }

  lemma KnownHome(P: nat, s: Sched, t: int)
    requires WellFormed(P, s) && t in s.thread
    ensures t in s.home
  {
  }

  lemma WokenHome(P: nat, s: Sched, w: nat, t: int)
    requires WellFormed(P, s) && P <= w < |s.lists| && s.lists[w] != [] && t in s.thread && t != s.lists[w][0]
    ensures WellFormed(P, Failed(P, s, w)) && Failed(P, s, w).lists == s.lists
    ensures t in Woken(P, Failed(P, s, w), w).thread && t in Woken(P, Failed(P, s, w), w).home && t in s.home
    ensures Woken(P, Failed(P, s, w), w).home[t] == s.home[t]
  {
    hide Homes, ThreadShape, ThreadOk, Taken, Put;
    FirstWaits(P, s, w);
    FailedKeeps(P, s, w);
  }

  /** A suspended thread that stays suspended stays where it is, or is unlinked. */
  lemma StaysPut(P: nat, s: Sched, o: Op, t: int)
    requires WellFormed(P, s) && OpOk(P, s, o) && t in s.thread && s.thread[t].stat == Suspend
    requires t in Step(P, s, o).thread && Step(P, s, o).thread[t].stat == Suspend
    ensures t in s.home && t in Step(P, s, o).home
    ensures Step(P, s, o).home[t] == s.home[t] || Step(P, s, o).home[t] == NOWHERE
  {
    hide Homes, ThreadShape, ThreadOk, Top, AllWoken, WithPriority, Taken, Put, AheadOf;
    match o
    case Startup(x) => StartingKeeps(P, s, x);
    case Pause(x) => SuspendedKeeps(P, s, x);
    case Resume(x) => ResumedKeeps(P, s, x);
    case Timeout(x) => TimingOutKeeps(P, s, x);
    case SetPriority(x, p) => DequeuedShape(P, s, x); WithPriorityIs(P, s, x, p);
    case Wait(w, x, byPriority) => SuspendedKeeps(P, s, x);
    case Wake(w) => FirstWaits(P, s, w);
    case WakeAll(w) =>
      AllWokenEmpties(P, s, w);
      AllWokenHome(P, s, w, t);
    case _ =>
  }

  // ----- Nothing breaks while nobody else resumes the thread -----

  lemma CalmDo(P: nat, m: State, o: Op)
    requires Calm(P, m) && OpOk(P, m.s, o) && forall t :: !Disturbs(P, m, Do(o), t)
    ensures Calm(P, Moved(P, m, Do(o)))
  {
    hide WellFormed, Step;
    StepKeeps(P, m.s, o);
    StepPriorities(P, m.s, o);
    forall t | t in m.entered + m.flying
      ensures t in Step(P, m.s, o).thread && Step(P, m.s, o).thread[t].stat == Suspend
      ensures t in m.flying ==> t in Step(P, m.s, o).home && Step(P, m.s, o).home[t] == NOWHERE
    {
      assert !Disturbs(P, m, Do(o), t);
      StaysPut(P, m.s, o, t);
    }
  }

  /** The resume that has come furthest with t is its only one. */
  lemma Alone(P: nat, m: State, t: int, v: Move)
    requires Calm(P, m) && MoveOk(P, m, v) && (v == Leave(t) || v == Finish(t))
    ensures m.s.thread[t].stat == Suspend && t in m.s.home && (v == Finish(t) ==> m.s.home[t] == NOWHERE)
    ensures v == Leave(t) ==> t !in m.flying && m.entered[t] == 1
    ensures v == Finish(t) ==> t !in m.entered && m.flying[t] == 1
  {
    hide Homes, ThreadShape;
    assert t in m.entered + m.flying && (m.entered + m.flying)[t] <= 1;
  }

  lemma EnterKeeps(P: nat, m: State, t: int)
    requires Calm(P, m) && MoveOk(P, m, Enter(t)) && !Disturbs(P, m, Enter(t), t)
    ensures Calm(P, Moved(P, m, Enter(t)))
  {
    hide WellFormed;
    var m' := Moved(P, m, Enter(t));
    if m' != m {
      assert forall x :: (m'.entered + m'.flying)[x] == if x == t then 1 else (m.entered + m.flying)[x];
      assert forall x :: x in m'.entered + m'.flying ==> x == t || x in m.entered + m.flying;
    }
  }

  lemma LeaveKeeps(P: nat, m: State, t: int)
    requires Calm(P, m) && MoveOk(P, m, Leave(t))
    ensures Calm(P, Moved(P, m, Leave(t)))
  {
    hide Homes, ThreadShape, Taken;
    Alone(P, m, t, Leave(t));
    DequeuedShape(P, m.s, t);
    var m' := Moved(P, m, Leave(t));
    assert m'.entered + m'.flying == m.entered + m.flying;
  }

  lemma FinishKeeps(P: nat, m: State, t: int)
    requires Calm(P, m) && MoveOk(P, m, Finish(t))
    ensures Calm(P, Moved(P, m, Finish(t)))
  {
    hide Homes, ThreadShape, Put;
    Alone(P, m, t, Finish(t));
    ShapeBounds(P, m.s, t);
    EnqueuedShape(P, m.s, t);
    var m' := Moved(P, m, Finish(t));
    assert forall x :: (m'.entered + m'.flying)[x] == if x == t then 0 else (m.entered + m.flying)[x];
    assert forall x :: x in m'.entered + m'.flying ==> x in m.entered + m.flying && x != t;
  }

  /** A step leaves every resume under way harmless exactly when it does not resume such a thread. */
  lemma CalmIff(P: nat, m: State, v: Move)
    requires Calm(P, m) && MoveOk(P, m, v)
    ensures Calm(P, Moved(P, m, v)) <==> forall t :: !Disturbs(P, m, v, t)
  {
    hide WellFormed, Step, Dequeued, Enqueued;
    if t :| Disturbs(P, m, v, t) {
      if v == Enter(t) {
        var m' := Moved(P, m, v);
        assert m'.entered == m.entered + multiset{t};
        assert (m'.entered + m'.flying)[t] > 1;
      } else {
        assert Moved(P, m, v).s.thread[t].stat == Ready;
      }
    } else {
      match v
      case Do(o) => CalmDo(P, m, o);
      case Enter(t) => EnterKeeps(P, m, t);
      case Leave(t) => LeaveKeeps(P, m, t);
      case Finish(t) => FinishKeeps(P, m, t);
    }
  }

  // ----- Everything breaks when somebody does -----

  /** The second section on a thread that stands on a list: it then stands on two, or on one twice. */
  lemma EnqueuedBreaks(P: nat, s: Sched, t: int)
    requires WellFormed(P, s) && t in s.thread && s.home[t] != NOWHERE
    ensures s.thread[t].priority < |s.lists| && !WellFormed(P, Enqueued(s, t))
  {
    hide ThreadShape, ThreadOk;
    ShapeBounds(P, s, t);
    var p, h := s.thread[t].priority, s.home[t];
    var s' := Enqueued(s, t);
    var j :| 0 <= j < |s.lists[h]| && s.lists[h][j] == t;
    if h == p {
      assert s'.lists[p][j] == t && s'.lists[p][|s.lists[p]|] == t;
    } else {
      assert s'.lists[h][j] == t && s'.home[t] == p;
    }
    assert !Home(s'.lists[h], s'.home, h);
  }

  /** The first section on a READY thread: it is READY and on no list. */
  lemma DequeuedBreaks(P: nat, s: Sched, t: int)
    requires WellFormed(P, s) && t in s.thread && s.thread[t].stat == Ready
    ensures t in s.home && s.home[t] < |s.lists| && !WellFormed(P, Dequeued(s, t))
  {
    hide Homes, ThreadShape, Taken;
    HomeBound(P, s, t);
    assert !ThreadOk(P, Dequeued(s, t).thread[t], Dequeued(s, t).home[t]);
  }

  ghost predicate Sections(vs: seq<Move>) {
    forall i :: 0 <= i < |vs| ==> vs[i].Leave? || vs[i].Finish?
  }

  /** Carrying on with vs ends with a thread that is READY and not on exactly its own ready list. */
  ghost predicate Breaks(P: nat, m: State, vs: seq<Move>)
    decreases |vs|
  {
    if vs == [] then !WellFormed(P, m.s)
    else WellFormed(P, m.s) && MoveOk(P, m, vs[0]) && Breaks(P, Moved(P, m, vs[0]), vs[1..])
  }

  lemma BreaksFirst(P: nat, m: State, v: Move, vs: seq<Move>)
    requires WellFormed(P, m.s) && MoveOk(P, m, v) && Breaks(P, Moved(P, m, v), vs)
    ensures Breaks(P, m, [v] + vs)
  {
    hide WellFormed, MoveOk, Moved;
    assert ([v] + vs)[1..] == vs;
  }

  lemma {:induction false} CalmNeverBreaks(P: nat, m: State, vs: seq<Move>)
    requires Calm(P, m) && Sections(vs)
    ensures !Breaks(P, m, vs)
    decreases |vs|
  {
    hide WellFormed, Moved;
    if vs != [] && MoveOk(P, m, vs[0]) {
      match vs[0] {
        case Leave(t) => LeaveKeeps(P, m, t);
        case Finish(t) => FinishKeeps(P, m, t);
      }
      CalmNeverBreaks(P, Moved(P, m, vs[0]), vs[1..]);
    }
  }

  /** The sections still to come of a READY thread break the lists. */
  lemma ReadyBreaks(P: nat, m: State, t: int) returns (vs: seq<Move>)
    requires WellFormed(P, m.s) && t in m.s.thread && m.s.thread[t].stat == Ready && t in m.entered + m.flying
    ensures Sections(vs) && Breaks(P, m, vs)
  {
    hide Homes, ThreadShape, Taken, Put;
    if t in m.flying {
      assert ThreadOk(P, m.s.thread[t], m.s.home[t]);
      EnqueuedBreaks(P, m.s, t);
      BreaksFirst(P, m, Finish(t), []);
      vs := [Finish(t)] + [];
    } else {
      DequeuedBreaks(P, m.s, t);
      BreaksFirst(P, m, Leave(t), []);
      vs := [Leave(t)] + [];
    }
  }

  /** Of two resumes of a suspended thread the first makes it READY, and the second breaks the lists. */
  lemma {:induction false} TwiceBreaks(P: nat, m: State, t: int) returns (vs: seq<Move>)
    requires Calm(P, m) && t in m.entered + m.flying
    ensures Sections(vs) && Breaks(P, m.(entered := m.entered + multiset{t}), vs)
    decreases t !in m.flying
  {
    hide Homes, ThreadShape, ThreadOk, Taken, Put, Breaks;
    var twice := m.(entered := m.entered + multiset{t});
    var v := if t in m.flying then Finish(t) else Leave(t);
    var next, rest := Moved(P, twice, v), [];
    if t in m.flying {
      FinishKeeps(P, m, t);
      assert next.s == Moved(P, m, v).s;
      rest := ReadyBreaks(P, next, t);
    } else {
      LeaveKeeps(P, m, t);
      var left := Moved(P, m, v);
      assert next == left.(entered := left.entered + multiset{t});
      rest := TwiceBreaks(P, left, t);
    }
    BreaksFirst(P, twice, v, rest);
    vs := [v] + rest;
  }

  /** With resumes under way, a step is harmless, whatever sections then follow, exactly when it does not
      resume a thread whose resume is under way. */
  lemma SafeIff(P: nat, m: State, v: Move)
    requires Calm(P, m) && MoveOk(P, m, v)
    ensures (forall t :: !Disturbs(P, m, v, t)) <==> forall vs :: Sections(vs) ==> !Breaks(P, Moved(P, m, v), vs)
  {
    hide WellFormed, Step, Breaks, Dequeued, Enqueued, Sections;
    CalmIff(P, m, v);
    if t :| Disturbs(P, m, v, t) {
      if v == Enter(t) {
        var vs := TwiceBreaks(P, m, t);
      } else {
        StepKeeps(P, m.s, v.o);
        var vs := ReadyBreaks(P, Moved(P, m, v), t);
      }
    } else {
      forall vs | Sections(vs)
        ensures !Breaks(P, Moved(P, m, v), vs)
      {
        CalmNeverBreaks(P, Moved(P, m, v), vs);
      }
    }
  }

  // ----- Runs -----

  /** No step of the run resumes a thread whose resume is under way. */
  ghost predicate RunOk(P: nat, m: State, vs: seq<Move>)
    requires Calm(P, m)
    decreases |vs|
  {
    vs != [] ==>
      && MoveOk(P, m, vs[0]) && (forall t :: !Disturbs(P, m, vs[0], t))
      && (CalmIff(P, m, vs[0]); RunOk(P, Moved(P, m, vs[0]), vs[1..]))
  }

  ghost function Run(P: nat, m: State, vs: seq<Move>): State
    requires Calm(P, m) && RunOk(P, m, vs)
    decreases |vs|
  {
    if vs == [] then m else CalmIff(P, m, vs[0]); Run(P, Moved(P, m, vs[0]), vs[1..])
  }

  /** The call a step is, the second section of a resume taken for the whole of it. */
  function CallOf(v: Move): seq<Op> {
    match v
    case Do(o) => [o]
    case Enter(_) => []
    case Leave(t) => [Op.Unlink(t)]
    case Finish(t) => [Resume(t)]
  }

  function Calls(vs: seq<Move>): seq<Op> {
    if vs == [] then [] else CallOf(vs[0]) + Calls(vs[1..])
  }

  lemma MoveCall(P: nat, m: State, v: Move)
    requires Calm(P, m) && MoveOk(P, m, v)
    ensures SchedSpec.RunOk(P, m.s, CallOf(v)) && SchedSpec.Run(P, m.s, CallOf(v)) == Moved(P, m, v).s
  {
    hide Homes, ThreadShape, ThreadOk, Dequeued, Enqueued;
    match v
    case Do(o) => StepKeeps(P, m.s, o);
    case Enter(t) =>
    case Leave(t) =>
      Alone(P, m, t, v);
      UnlinkedKeeps(P, m.s, t);
    case Finish(t) =>
      Alone(P, m, t, v);
      ResumedKeeps(P, m.s, t);
      UnlinkedAlready(m.s, t);
  }

  lemma UnlinkedAlready(s: Sched, t: int)
    requires t in s.home && s.home[t] == NOWHERE
    ensures Dequeued(s, t) == s
  {
    assert s.home[t := NOWHERE] == s.home;
  }

  lemma RunOn(P: nat, s: Sched, a: seq<Op>, b: seq<Op>)
    requires WellFormed(P, s) && |a| <= 1 && SchedSpec.RunOk(P, s, a)
    requires WellFormed(P, SchedSpec.Run(P, s, a)) && SchedSpec.RunOk(P, SchedSpec.Run(P, s, a), b)
    ensures SchedSpec.RunOk(P, s, a + b) && SchedSpec.Run(P, s, a + b) == SchedSpec.Run(P, SchedSpec.Run(P, s, a), b)
  {
    hide WellFormed, Step, OpOk;
    if a == [] {
      assert a + b == b;
    } else {
      assert (a + b)[0] == a[0] && (a + b)[1..] == b;
    }
  }

  /** Such a run keeps READY threads on exactly their ready lists, and it is a run of whole calls, so that
      everything proved of those holds of it. */
  lemma {:induction false} RunKeeps(P: nat, m: State, vs: seq<Move>)
    requires Calm(P, m) && RunOk(P, m, vs)
    ensures Calm(P, Run(P, m, vs)) && WellFormed(P, m.s) && SchedSpec.RunOk(P, m.s, Calls(vs))
    ensures SchedSpec.Run(P, m.s, Calls(vs)) == Run(P, m, vs).s
    decreases |vs|
  {
    hide WellFormed, Step, Moved, Disturbs;
    CalmWell(P, m);
    if vs != [] {
      CalmIff(P, m, vs[0]);
      RunKeeps(P, Moved(P, m, vs[0]), vs[1..]);
      MoveCall(P, m, vs[0]);
      RunOn(P, m.s, CallOf(vs[0]), Calls(vs[1..]));
    }
  }

  lemma CalmWell(P: nat, m: State)
    requires Calm(P, m)
    ensures WellFormed(P, m.s)
  {
  }
}
