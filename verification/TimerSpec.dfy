/** Hard timers in real time: an unbounded clock and a queue of timers in deadline order.

  This is what timer.c and clock.c are for, told without ticks that wrap and without links.  A
  callback is the list of timer calls it makes, another one at each tick: a timer fires at most once a
  tick, so this is any behaviour over a run.  `queue` holds the linked timers and `active` those
  with RT_TIMER_FLAG_ACTIVATED; the two are kept apart because rt_timer_check can part them.
 */
module TimerSpec {
  import opened RtList

  const TICK_MAX: int := 0xFFFF_FFFF           // RT_TICK_MAX
  const HALF: int := TICK_MAX / 2

  datatype Call = Start(t: int) | Stop(t: int)

  datatype Event = Event(at: nat, t: int)

  datatype State = State(
    now: nat,
    queue: seq<int>,
    active: set<int>,
    deadline: map<int, nat>,
    log: seq<Event>)

  /** What does not change while the timers run. */
  datatype Setup = Setup(init: map<int, nat>, periodic: set<int>, script: map<int, nat -> seq<Call>>)

  ghost predicate Sane(u: Setup) {
    && u.script.Keys == u.init.Keys && u.periodic <= u.init.Keys
    && (forall t :: t in u.init ==> u.init[t] < HALF)
    && (forall t, now :: t in u.script ==> CallsOk(u, u.script[t](now)))
    // No timer can come due again within the check that fires it.
    && (forall t :: t in u.periodic ==> u.init[t] > 0)
  }

  ghost predicate CallsOk(u: Setup, cs: seq<Call>) {
    && (forall i :: 0 <= i < |cs| ==> cs[i].t in u.init)
    && (forall i :: 0 <= i < |cs| && cs[i].Start? ==> u.init[cs[i].t] > 0)
  }

  ghost predicate Known(q: seq<int>, m: map<int, nat>) {
    forall i :: 0 <= i < |q| ==> q[i] in m
  }

  ghost predicate Sorted(q: seq<int>, deadline: map<int, nat>)
    requires Known(q, deadline)
  {
    forall i, j :: 0 <= i < j < |q| ==> deadline[q[i]] <= deadline[q[j]]
  }

  ghost predicate Near(s: State)
    requires Known(s.queue, s.deadline)
  {
    forall i :: 0 <= i < |s.queue| ==> s.now <= s.deadline[s.queue[i]] + 1 && s.deadline[s.queue[i]] < s.now + HALF
  }

  /** Every linked timer is known, linked once, in deadline order, and its deadline is near. */
  ghost predicate WellFormed(u: Setup, s: State) {
    && Sane(u)
    && Distinct(s.queue)
    && Known(s.queue, u.init)
    && s.deadline.Keys == u.init.Keys
    && s.active <= u.init.Keys
    && Sorted(s.queue, s.deadline)
    && Near(s)
  }

  /** How many timers at the front of q come no later than d. */
  ghost function CountUpTo(q: seq<int>, deadline: map<int, nat>, d: nat): (k: nat)
    requires Known(q, deadline)
    ensures k <= |q|
    ensures forall i :: 0 <= i < k ==> deadline[q[i]] <= d
    ensures k < |q| ==> deadline[q[k]] > d
  {
    if q == [] || deadline[q[0]] > d then 0
    else
      var p := q[1..];
      assert forall i :: 0 <= i < |p| ==> p[i] == q[i + 1];
      1 + CountUpTo(p, deadline, d)
  }

  /** Timers with the same deadline keep the order in which they were started. */
  ghost function Placed(q: seq<int>, deadline: map<int, nat>, t: int): seq<int>
    requires Known(q, deadline) && t in deadline
  {
    Inserted(q, CountUpTo(q, deadline, deadline[t]), t)
  }

  ghost function Started(u: Setup, s: State, t: int): State
    requires WellFormed(u, s) && t in u.init
  {
    KnownDrop(s.queue, s.deadline, t);
    var deadline := s.deadline[t := s.now + u.init[t]];
    s.(queue := Placed(Drop(s.queue, t), deadline, t), deadline := deadline, active := s.active + {t})
  }

  /** rt_timer_stop leaves a timer alone that does not carry the ACTIVATED flag. */
  ghost function Stopped(s: State, t: int): State {
    if t in s.active then s.(queue := Drop(s.queue, t), active := s.active - {t}) else s
  }

  ghost function Called(u: Setup, s: State, c: Call): State
    requires WellFormed(u, s) && c.t in u.init
  {
    match c
    case Start(t) => Started(u, s, t)
    case Stop(t) => Stopped(s, t)
  }

  lemma SortedDrop(q: seq<int>, deadline: map<int, nat>, deadline': map<int, nat>, t: int)
    requires Distinct(q) && Known(q, deadline) && Sorted(q, deadline)
    requires forall x :: x in q && x != t ==> x in deadline' && deadline'[x] == deadline[x]
    ensures Known(Drop(q, t), deadline') && Sorted(Drop(q, t), deadline')
  {
    hide Distinct, Drop;
    InDrop(q, t);
    var p := Drop(q, t);
    forall i | 0 <= i < |p|
      ensures p[i] in deadline'
    {
      var x := p[i];
      assert x in p;
      assert x in q && x != t;
    }
    forall i, j | 0 <= i < j < |p|
      ensures deadline'[p[i]] <= deadline'[p[j]]
    {
      var x, y := p[i], p[j];
      assert x in p && y in p;
      assert x in q && x != t && y in q && y != t;
      DropKeepsOrder(q, t, i, j);
      var a, b :| 0 <= a < b < |q| && q[a] == x && q[b] == y;
    }
  }

  /** What is left of q stands in the order it had. */
  lemma DropKeepsOrder(q: seq<int>, t: int, i: nat, j: nat)
    requires i < j < |Drop(q, t)|
    ensures exists a, b :: 0 <= a < b < |q| && q[a] == Drop(q, t)[i] && q[b] == Drop(q, t)[j]
  {
    if t in q {
      var k := PositionOf(q, t);
      var a, b := if i < k then i else i + 1, if j < k then j else j + 1;
      assert Drop(q, t)[i] == q[a] && Drop(q, t)[j] == q[b];
    } else {
      assert Drop(q, t)[i] == q[i] && Drop(q, t)[j] == q[j];
    }
  }

  lemma SortedPlaced(q: seq<int>, deadline: map<int, nat>, t: int)
    requires Distinct(q) && t !in q && Known(q, deadline) && t in deadline && Sorted(q, deadline)
    ensures Distinct(Placed(q, deadline, t)) && Known(Placed(q, deadline, t), deadline)
    ensures forall x :: x in Placed(q, deadline, t) <==> x in q || x == t
    ensures Sorted(Placed(q, deadline, t), deadline)
  {
    DistinctInserted(q, CountUpTo(q, deadline, deadline[t]), t);
    PlacedSorted(q, deadline, t);
  }

  lemma PlacedSorted(q: seq<int>, deadline: map<int, nat>, t: int)
    requires Known(q, deadline) && t in deadline && Sorted(q, deadline)
    ensures Known(Placed(q, deadline, t), deadline) && Sorted(Placed(q, deadline, t), deadline)
  {
    hide CountUpTo;
    var k := CountUpTo(q, deadline, deadline[t]);
    var p := Placed(q, deadline, t);
    assert forall i :: 0 <= i < |p| ==> p[i] == if i < k then q[i] else if i == k then t else q[i - 1];
    forall i, j | 0 <= i < j < |p|
      ensures deadline[p[i]] <= deadline[p[j]]
    {
      if j > k {
        assert deadline[q[k]] <= deadline[q[j - 1]];
      }
    }
  }

  lemma StartedKeeps(u: Setup, s: State, t: int)
    requires WellFormed(u, s) && t in u.init
    ensures WellFormed(u, Started(u, s, t)) && Started(u, s, t).now == s.now && Started(u, s, t).log == s.log
    ensures forall x :: x in Started(u, s, t).queue <==> x in s.queue || x == t
  {
    hide Sane, Sorted, Distinct, Placed, Drop;
    var deadline := s.deadline[t := s.now + u.init[t]];
    InDrop(s.queue, t);
    KnownDrop(s.queue, s.deadline, t);
    SortedDrop(s.queue, s.deadline, deadline, t);
    SortedPlaced(Drop(s.queue, t), deadline, t);
    SaneInit(u, t);
    NearKept(u, s, Started(u, s, t));
  }

  /** Deadlines stay near when every linked timer was linked before or is freshly set. */
  lemma NearKept(u: Setup, s: State, s': State)
    requires Known(s.queue, s.deadline) && Near(s) && Known(s'.queue, s'.deadline) && s'.now == s.now
    requires forall x :: x in s'.queue ==>
               (x in s.queue && s'.deadline[x] == s.deadline[x]) || s.now <= s'.deadline[x] < s.now + HALF
    ensures Near(s')
  {
    forall i | 0 <= i < |s'.queue|
      ensures s'.now <= s'.deadline[s'.queue[i]] + 1 && s'.deadline[s'.queue[i]] < s'.now + HALF
    {
      var x := s'.queue[i];
      assert x in s'.queue;
      if !(s.now <= s'.deadline[x] < s.now + HALF) {
        var j :| 0 <= j < |s.queue| && s.queue[j] == x;
      }
    }
  }

  lemma KnownDrop(q: seq<int>, deadline: map<int, nat>, t: int)
    requires Distinct(q) && Known(q, deadline)
    ensures Known(Drop(q, t), deadline)
  {
    InDrop(q, t);
    forall i | 0 <= i < |Drop(q, t)|
      ensures Drop(q, t)[i] in deadline
    {
      assert Drop(q, t)[i] in q;
    }
  }

  lemma SaneInit(u: Setup, t: int)
    requires Sane(u) && t in u.init
    ensures u.init[t] < HALF
  {
  }

  lemma StoppedKeeps(u: Setup, s: State, t: int)
    requires WellFormed(u, s)
    ensures WellFormed(u, Stopped(s, t))
    ensures forall x :: x in Stopped(s, t).queue <==> x in s.queue && (x != t || t !in s.active)
  {
    hide Sane, Sorted, Distinct;
    InDrop(s.queue, t);
    SortedDrop(s.queue, s.deadline, s.deadline, t);
  }

  lemma CalledKeeps(u: Setup, s: State, c: Call)
    requires WellFormed(u, s) && c.t in u.init
    ensures WellFormed(u, Called(u, s, c))
    ensures Called(u, s, c).now == s.now && Called(u, s, c).log == s.log
  {
    match c
    case Start(t) => StartedKeeps(u, s, t);
    case Stop(t) => StoppedKeeps(u, s, t);
  }

  /** A callback: its calls in order. */
  ghost function Ran(u: Setup, s: State, cs: seq<Call>): State
    requires WellFormed(u, s) && forall i :: 0 <= i < |cs| ==> cs[i].t in u.init
    decreases |cs|
  {
    if cs == [] then s else CalledKeeps(u, s, cs[0]); Ran(u, Called(u, s, cs[0]), cs[1..])
  }

  lemma {:induction false} RanKeeps(u: Setup, s: State, cs: seq<Call>)
    requires WellFormed(u, s) && forall i :: 0 <= i < |cs| ==> cs[i].t in u.init
    ensures WellFormed(u, Ran(u, s, cs))
    ensures Ran(u, s, cs).now == s.now && Ran(u, s, cs).log == s.log
    decreases |cs|
  {
    if cs != [] {
      CalledKeeps(u, s, cs[0]);
      RanKeeps(u, Called(u, s, cs[0]), cs[1..]);
    }
  }

  /** The timers that have come due. */
  ghost function Due(s: State): set<int>
    requires Known(s.queue, s.deadline)
  {
    set i | 0 <= i < |s.queue| && s.deadline[s.queue[i]] <= s.now :: s.queue[i]
  }

  ghost predicate HeadDue(s: State)
    requires Known(s.queue, s.deadline)
  {
    s.queue != [] && s.deadline[s.queue[0]] <= s.now
  }

  /** The head leaves the queue before its callback runs. */
  ghost function Popped(s: State): State
    requires s.queue != []
  {
    s.(queue := s.queue[1..], log := s.log + [Event(s.now, s.queue[0])])
  }

  lemma PoppedKeeps(u: Setup, s: State)
    requires WellFormed(u, s) && s.queue != []
    ensures WellFormed(u, Popped(s))
    ensures s.queue[0] in u.init && s.queue[0] in u.script
    ensures forall i :: 0 <= i < |u.script[s.queue[0]](s.now)| ==> u.script[s.queue[0]](s.now)[i].t in u.init
  {
    var q := s.queue[1..];
    assert s.queue[0] in s.queue;
    ScriptIsSane(u, s.queue[0], s.now);
    assert forall i :: 0 <= i < |q| ==> q[i] == s.queue[i + 1];
  }

  /** One round of the loop of rt_timer_check. */
  ghost function Fired(u: Setup, s: State): State
    requires WellFormed(u, s) && s.queue != []
  {
    PoppedKeeps(u, s);
    var t := s.queue[0];
    var after := Ran(u, Popped(s), u.script[t](s.now));
    RanKeeps(u, Popped(s), u.script[t](s.now));
    var idle := after.(active := after.active - {t});
    if t in u.periodic && t in after.active then Started(u, idle, t) else idle
  }

  lemma IdleKeeps(u: Setup, s: State, t: int)
    requires WellFormed(u, s)
    ensures WellFormed(u, s.(active := s.active - {t}))
  {
  }

  lemma FiredKeeps(u: Setup, s: State)
    requires WellFormed(u, s) && s.queue != []
    ensures WellFormed(u, Fired(u, s))
    ensures Fired(u, s).now == s.now && Fired(u, s).log == s.log + [Event(s.now, s.queue[0])]
  {
    hide Sane, Sorted, Distinct, Ran, Started;
    PoppedKeeps(u, s);
    var t := s.queue[0];
    RanKeeps(u, Popped(s), u.script[t](s.now));
    var after := Ran(u, Popped(s), u.script[t](s.now));
    IdleKeeps(u, after, t);
    if t in u.periodic && t in after.active {
      StartedKeeps(u, after.(active := after.active - {t}), t);
    }
  }

  // ----- The whole check -----

  /** Calls of a callback bring no timer due and no due timer forward. */
  lemma CalledDue(u: Setup, s: State, c: Call)
    requires WellFormed(u, s) && c.t in u.init && (c.Start? ==> u.init[c.t] > 0)
    ensures WellFormed(u, Called(u, s, c)) && Due(Called(u, s, c)) <= Due(s)
  {
    hide Sane, Sorted, Distinct, Placed, Drop, Near;
    CalledKeeps(u, s, c);
    match c {
      case Start(t) => StartedKeeps(u, s, t);
      case Stop(t) => StoppedKeeps(u, s, t);
    }
    DueIsOld(s, Called(u, s, c));
  }

  lemma DueIsOld(s: State, s': State)
    requires Known(s.queue, s.deadline) && Known(s'.queue, s'.deadline) && s'.now == s.now
    requires forall x :: x in s'.queue && s'.deadline[x] <= s.now ==> x in s.queue && s'.deadline[x] == s.deadline[x]
    ensures Due(s') <= Due(s)
  {
    forall x | x in Due(s')
      ensures x in Due(s)
    {
      var i :| 0 <= i < |s'.queue| && s'.queue[i] == x && s'.deadline[s'.queue[i]] <= s.now;
      assert x in s'.queue;
      var j :| 0 <= j < |s.queue| && s.queue[j] == x;
    }
  }

  lemma {:induction false} RanDue(u: Setup, s: State, cs: seq<Call>)
    requires WellFormed(u, s)
    requires forall i :: 0 <= i < |cs| ==> cs[i].t in u.init
    requires forall i :: 0 <= i < |cs| && cs[i].Start? ==> u.init[cs[i].t] > 0
    ensures WellFormed(u, Ran(u, s, cs)) && Due(Ran(u, s, cs)) <= Due(s)
    decreases |cs|
  {
    RanKeeps(u, s, cs);
    if cs != [] {
      CalledDue(u, s, cs[0]);
      RanDue(u, Called(u, s, cs[0]), cs[1..]);
    }
  }

  lemma PoppedDue(u: Setup, s: State)
    requires WellFormed(u, s) && HeadDue(s)
    ensures WellFormed(u, Popped(s)) && Due(Popped(s)) == Due(s) - {s.queue[0]} && s.queue[0] in Due(s)
  {
    PoppedKeeps(u, s);
    var q := s.queue[1..];
    assert forall i :: 0 <= i < |q| ==> q[i] == s.queue[i + 1];
    forall x
      ensures x in Due(Popped(s)) <==> x in Due(s) && x != s.queue[0]
    {
      if x in Due(s) && x != s.queue[0] {
        var i :| 0 <= i < |s.queue| && s.queue[i] == x;
        assert q[i - 1] == x;
      }
    }
  }

  lemma ScriptIsSane(u: Setup, t: int, now: nat)
    requires Sane(u) && t in u.script
    ensures forall i :: 0 <= i < |u.script[t](now)| ==> u.script[t](now)[i].t in u.init
    ensures forall i :: 0 <= i < |u.script[t](now)| && u.script[t](now)[i].Start? ==> u.init[u.script[t](now)[i].t] > 0
    ensures t in u.periodic ==> u.init[t] > 0
  {
    assert CallsOk(u, u.script[t](now));
  }

  lemma FiredDue(u: Setup, s: State)
    requires WellFormed(u, s) && HeadDue(s)
    ensures WellFormed(u, Fired(u, s)) && Due(Fired(u, s)) <= Due(s) - {s.queue[0]}
  {
    hide Sane, Sorted, Distinct, Near, Popped, Ran, Started, Due;
    PoppedKeeps(u, s);
    FiredKeeps(u, s);
    PoppedDue(u, s);
    var t := s.queue[0];
    ScriptIsSane(u, t, s.now);
    RanDue(u, Popped(s), u.script[t](s.now));
    var after := Ran(u, Popped(s), u.script[t](s.now));
    var idle := after.(active := after.active - {t});
    IdleKeeps(u, after, t);
    SameDue(after, idle);
    if t in u.periodic && t in after.active {
      CalledDue(u, idle, Start(t));
    }
  }

  lemma SameDue(s: State, s': State)
    requires s.queue == s'.queue && s.deadline == s'.deadline && s.now == s'.now && Known(s.queue, s.deadline)
    ensures Due(s) == Due(s')
  {
  }

  lemma SmallerSet<T>(a: set<T>, b: set<T>, x: T)
    requires a <= b - {x} && x in b
    ensures |a| < |b|
  {
    if a == b - {x} {
    } else {
      SubsetCount(a, b - {x});
    }
  }

  /** rt_timer_check: rounds until the head is not due. */
  ghost function Checked(u: Setup, s: State): State
    requires WellFormed(u, s)
    decreases |Due(s)|
  {
    if HeadDue(s) then
      FiredDue(u, s);
      PoppedDue(u, s);
      SmallerSet(Due(Fired(u, s)), Due(s), s.queue[0]);
      Checked(u, Fired(u, s))
    else s
  }

  /** After the check no timer is due, and the clock has not moved. */
  lemma {:induction false} NoneDueAfterCheck(u: Setup, s: State)
    requires WellFormed(u, s)
    ensures WellFormed(u, Checked(u, s)) && Checked(u, s).now == s.now
    ensures forall i :: 0 <= i < |Checked(u, s).queue| ==> Checked(u, s).deadline[Checked(u, s).queue[i]] > s.now
    decreases |Due(s)|
  {
    hide Sane, Distinct, Near, Fired, Due;
    if HeadDue(s) {
      FiredDue(u, s);
      FiredKeeps(u, s);
      PoppedDue(u, s);
      SmallerSet(Due(Fired(u, s)), Due(s), s.queue[0]);
      NoneDueAfterCheck(u, Fired(u, s));
    }
  }

  // ----- What one check fires, and in which order -----

  /** The timers a check fires, in order. */
  ghost function Fires(u: Setup, s: State): seq<int>
    requires WellFormed(u, s)
    decreases |Due(s)|
  {
    if HeadDue(s) then
      FiredDue(u, s);
      PoppedDue(u, s);
      SmallerSet(Due(Fired(u, s)), Due(s), s.queue[0]);
      [s.queue[0]] + Fires(u, Fired(u, s))
    else []
  }

  function Events(at: nat, ts: seq<int>): seq<Event> {
    if ts == [] then [] else [Event(at, ts[0])] + Events(at, ts[1..])
  }

  /** While a timer stays linked and due its deadline is the one it had. */
  ghost predicate OldDue(s: State, s': State)
    requires Known(s.queue, s.deadline) && Known(s'.queue, s'.deadline)
  {
    && s'.now == s.now && s.deadline.Keys == s'.deadline.Keys
    && forall x :: x in Due(s') ==> x in Due(s) && s'.deadline[x] == s.deadline[x]
  }

  lemma CalledOldDue(u: Setup, s: State, c: Call)
    requires WellFormed(u, s) && c.t in u.init && (c.Start? ==> u.init[c.t] > 0)
    ensures WellFormed(u, Called(u, s, c)) && OldDue(s, Called(u, s, c))
  {
    hide Sane, Sorted, Distinct, Placed, Drop, Near;
    CalledKeeps(u, s, c);
    CalledDue(u, s, c);
  }

  lemma {:induction false} RanOldDue(u: Setup, s: State, cs: seq<Call>)
    requires WellFormed(u, s)
    requires forall i :: 0 <= i < |cs| ==> cs[i].t in u.init
    requires forall i :: 0 <= i < |cs| && cs[i].Start? ==> u.init[cs[i].t] > 0
    ensures WellFormed(u, Ran(u, s, cs)) && OldDue(s, Ran(u, s, cs))
    decreases |cs|
  {
    hide Sane, Sorted, Distinct, Near, Due, Called;
    RanKeeps(u, s, cs);
    if cs != [] {
      CalledDue(u, s, cs[0]);
      CalledOldDue(u, s, cs[0]);
      RanOldDue(u, Called(u, s, cs[0]), cs[1..]);
    }
  }

  lemma FiredOldDue(u: Setup, s: State)
    requires WellFormed(u, s) && HeadDue(s)
    ensures WellFormed(u, Fired(u, s)) && OldDue(s, Fired(u, s)) && s.queue[0] !in Due(Fired(u, s))
  {
    hide Sane, Sorted, Distinct, Near, Ran, Called, Due;
    PoppedKeeps(u, s);
    FiredDue(u, s);
    FiredKeeps(u, s);
    PoppedDue(u, s);
    var t := s.queue[0];
    ScriptIsSane(u, t, s.now);
    RanOldDue(u, Popped(s), u.script[t](s.now));
    var after := Ran(u, Popped(s), u.script[t](s.now));
    var idle := after.(active := after.active - {t});
    IdleKeeps(u, after, t);
    SameDue(after, idle);
    if t in u.periodic && t in after.active {
      CalledOldDue(u, idle, Start(t));
      assert Called(u, idle, Start(t)) == Started(u, idle, t) by { CalledIsStarted(u, idle, t); }
    }
  }

  lemma CalledIsStarted(u: Setup, s: State, t: int)
    requires WellFormed(u, s) && t in u.init
    ensures Called(u, s, Start(t)) == Started(u, s, t)
  {
  }

  /** The head of a sorted queue is due no later than any due timer. */
  lemma HeadFirst(s: State, x: int)
    requires Known(s.queue, s.deadline) && Sorted(s.queue, s.deadline) && x in Due(s)
    ensures s.deadline[s.queue[0]] <= s.deadline[x]
  {
    var i :| 0 <= i < |s.queue| && s.queue[i] == x;
  }

  /** One check fires each timer at most once, only timers that were due, in deadline order. */
  lemma {:induction false} FiresInOrder(u: Setup, s: State)
    requires WellFormed(u, s)
    ensures Checked(u, s).log == s.log + Events(s.now, Fires(u, s))
    ensures Distinct(Fires(u, s)) && (forall x :: x in Fires(u, s) ==> x in Due(s))
    ensures Known(Fires(u, s), s.deadline) && Sorted(Fires(u, s), s.deadline)
    decreases |Due(s)|
  {
    hide Sane, Near, Fired, Due, Distinct, Sorted;
    if HeadDue(s) {
      FiredOldDue(u, s);
      FiredDue(u, s);
      FiredKeeps(u, s);
      PoppedDue(u, s);
      SmallerSet(Due(Fired(u, s)), Due(s), s.queue[0]);
      FiresInOrder(u, Fired(u, s));
      FiresStep(u, s, Fires(u, Fired(u, s)));
      assert Events(s.now, Fires(u, s)) == [Event(s.now, s.queue[0])] + Events(s.now, Fires(u, Fired(u, s)));
    } else {
      NothingFires(s);
    }
  }

  lemma NothingFires(s: State)
    ensures Distinct<int>([]) && Known([], s.deadline) && Sorted([], s.deadline)
  {
  }

  lemma FiresStep(u: Setup, s: State, rest: seq<int>)
    requires WellFormed(u, s) && HeadDue(s) && WellFormed(u, Fired(u, s)) && OldDue(s, Fired(u, s))
    requires s.queue[0] !in Due(Fired(u, s)) && s.queue[0] in Due(s)
    requires Distinct(rest) && (forall x :: x in rest ==> x in Due(Fired(u, s)))
    requires Known(rest, Fired(u, s).deadline) && Sorted(rest, Fired(u, s).deadline)
    ensures Distinct([s.queue[0]] + rest) && Known([s.queue[0]] + rest, s.deadline)
            && Sorted([s.queue[0]] + rest, s.deadline)
    ensures forall x :: x in [s.queue[0]] + rest ==> x in Due(s)
  {
    hide Sane, Near, Fired, Due;
    DistinctPrepend(rest, s.queue[0]);
    var p := [s.queue[0]] + rest;
    forall i | 0 <= i < |rest|
      ensures rest[i] in Due(s) && rest[i] in s.deadline && Fired(u, s).deadline[rest[i]] == s.deadline[rest[i]]
      ensures s.deadline[s.queue[0]] <= s.deadline[rest[i]]
    {
      assert rest[i] in rest;
      HeadFirst(s, rest[i]);
    }
    assert forall i :: 0 < i < |p| ==> p[i] == rest[i - 1];
  }

  // ----- Flags and links in step -----

  ghost predicate InStep(s: State) {
    forall x :: x in s.active <==> x in s.queue
  }

  /** What the last call on t leaves behind: started or stopped, or b when no call is on t. */
  function After(cs: seq<Call>, t: int, b: bool): bool {
    if cs == [] then b else After(cs[1..], t, if cs[0].t == t then cs[0].Start? else b)
  }

  lemma {:induction false} RanLinks(u: Setup, s: State, cs: seq<Call>, t: int)
    requires WellFormed(u, s) && forall i :: 0 <= i < |cs| ==> cs[i].t in u.init
    requires t in s.queue ==> t in s.active
    ensures t in Ran(u, s, cs).queue <==> After(cs, t, t in s.queue)
    ensures t in Ran(u, s, cs).active <==> After(cs, t, t in s.active)
    decreases |cs|
  {
    hide Sane, Sorted, Distinct, Near, Placed, Drop;
    if cs != [] {
      CalledKeeps(u, s, cs[0]);
      match cs[0] {
        case Start(x) => StartedKeeps(u, s, x);
        case Stop(x) => StoppedKeeps(u, s, x);
      }
      RanLinks(u, Called(u, s, cs[0]), cs[1..], t);
    }
  }

  /** Calls keep links and flags in step for every timer that was in step. */
  lemma {:induction false} RanInStep(u: Setup, s: State, cs: seq<Call>, t: int)
    requires WellFormed(u, s) && forall i :: 0 <= i < |cs| ==> cs[i].t in u.init
    requires t in s.queue <==> t in s.active
    ensures t in Ran(u, s, cs).queue <==> t in Ran(u, s, cs).active
  {
    hide Sane, Sorted, Distinct, Near, Ran;
    RanLinks(u, s, cs, t);
  }

  /** Firing parts link from flag exactly for a one-shot timer whose own callback leaves it started:
      rt_timer_check then clears its flag although it is linked. */
  lemma FiredInStep(u: Setup, s: State)
    requires WellFormed(u, s) && s.queue != [] && InStep(s)
    ensures InStep(Fired(u, s)) <==> s.queue[0] in u.periodic || !After(u.script[s.queue[0]](s.now), s.queue[0], false)
  {
    hide Sane, Sorted, Near, Ran, Started;
    PoppedKeeps(u, s);
    var t := s.queue[0];
    var p := Popped(s);
    var q := s.queue[1..];
    assert forall i :: 0 <= i < |q| ==> q[i] == s.queue[i + 1];
    RanKeeps(u, p, u.script[t](s.now));
    var after := Ran(u, p, u.script[t](s.now));
    RanLinks(u, p, u.script[t](s.now), t);
    AfterAny(u.script[t](s.now), t);
    forall x | x != t
      ensures x in after.queue <==> x in after.active
    {
      if x in s.queue {
        var i :| 0 <= i < |s.queue| && s.queue[i] == x;
        assert q[i - 1] == x;
      }
      RanInStep(u, p, u.script[t](s.now), x);
    }
    IdleKeeps(u, after, t);
    if t in u.periodic && t in after.active {
      StartedKeeps(u, after.(active := after.active - {t}), t);
      StartedActive(u, after.(active := after.active - {t}), t);
    }
  }

  lemma StartedActive(u: Setup, s: State, t: int)
    requires WellFormed(u, s) && t in u.init
    ensures Started(u, s, t).active == s.active + {t} && Started(u, s, t).deadline == s.deadline[t := s.now + u.init[t]]
  {
  }

  lemma {:induction false} AfterAny(cs: seq<Call>, t: int)
    ensures After(cs, t, false) ==> After(cs, t, true)
  {
    if cs != [] && cs[0].t != t {
      AfterAny(cs[1..], t);
    }
  }

  // ----- Runs: one check per tick -----

  /** An active timer is linked, and a linked one is due within its delay from now. */
  ghost predicate Tidy(u: Setup, s: State, x: int) {
    && (x in s.active ==> x in s.queue)
    && (x in s.queue ==> x in u.init && x in s.deadline && u.init[x] <= s.deadline[x] <= s.now + u.init[x])
  }

  lemma CalledTidy(u: Setup, s: State, c: Call, x: int)
    requires WellFormed(u, s) && c.t in u.init && Tidy(u, s, x)
    ensures WellFormed(u, Called(u, s, c)) && Tidy(u, Called(u, s, c), x)
  {
    hide Sane, Sorted, Distinct, Near, Placed, Drop;
    match c
    case Start(t) => StartedKeeps(u, s, t);
    case Stop(t) => StoppedKeeps(u, s, t);
  }

  lemma {:induction false} RanTidy(u: Setup, s: State, cs: seq<Call>, x: int)
    requires WellFormed(u, s) && forall i :: 0 <= i < |cs| ==> cs[i].t in u.init
    requires Tidy(u, s, x)
    ensures Tidy(u, Ran(u, s, cs), x)
    decreases |cs|
  {
    hide Sane, Sorted, Distinct, Near, Called, Tidy;
    if cs != [] {
      CalledKeeps(u, s, cs[0]);
      CalledTidy(u, s, cs[0], x);
      RanTidy(u, Called(u, s, cs[0]), cs[1..], x);
    }
  }

  /** While its callback runs a timer is active and not linked; its flag then goes, or it is linked again. */
  lemma {:induction false} RanDated(u: Setup, s: State, cs: seq<Call>, x: int)
    requires WellFormed(u, s) && forall i :: 0 <= i < |cs| ==> cs[i].t in u.init
    requires x in s.queue ==> Tidy(u, s, x)
    ensures x in Ran(u, s, cs).queue ==> Tidy(u, Ran(u, s, cs), x)
    decreases |cs|
  {
    hide Sane, Sorted, Distinct, Near, Placed, Drop;
    if cs != [] {
      CalledKeeps(u, s, cs[0]);
      match cs[0] {
        case Start(t) => StartedKeeps(u, s, t);
        case Stop(t) => StoppedKeeps(u, s, t);
      }
      RanDated(u, Called(u, s, cs[0]), cs[1..], x);
    }
  }

  lemma FiredTidy(u: Setup, s: State, x: int)
    requires WellFormed(u, s) && s.queue != [] && Tidy(u, s, x)
    ensures WellFormed(u, Fired(u, s)) && Tidy(u, Fired(u, s), x)
  {
    hide Sane, Sorted, Near, Ran, Started;
    PoppedKeeps(u, s);
    FiredKeeps(u, s);
    PoppedQueue(s, x);
    var t, p := s.queue[0], Popped(s);
    var after := Ran(u, p, u.script[t](s.now));
    RanKeeps(u, p, u.script[t](s.now));
    if x == t {
      RanDated(u, p, u.script[t](s.now), x);
    } else {
      RanTidy(u, p, u.script[t](s.now), x);
    }
    IdleKeeps(u, after, t);
    if t in u.periodic && t in after.active {
      var idle := after.(active := after.active - {t});
      StartedKeeps(u, idle, t);
      StartedActive(u, idle, t);
    }
  }

  lemma {:induction false} CheckedTidy(u: Setup, s: State, x: int)
    requires WellFormed(u, s) && Tidy(u, s, x)
    ensures Tidy(u, Checked(u, s), x)
    decreases |Due(s)|
  {
    hide Sane, Sorted, Distinct, Near, Fired, Tidy;
    if HeadDue(s) {
      FiredDue(u, s);
      PoppedDue(u, s);
      SmallerSet(Due(Fired(u, s)), Due(s), s.queue[0]);
      FiredTidy(u, s, x);
      CheckedTidy(u, Fired(u, s), x);
    }
  }

  /** Between checks nothing linked is overdue, and every active timer is linked. */
  ghost predicate Settled(u: Setup, s: State) {
    && WellFormed(u, s)
    && (forall i :: 0 <= i < |s.queue| ==> s.now <= s.deadline[s.queue[i]])
    && (forall x :: Tidy(u, s, x))
  }

  ghost function Later(s: State): State {
    s.(now := s.now + 1)
  }

  lemma LaterKeeps(u: Setup, s: State)
    requires Settled(u, s)
    ensures WellFormed(u, Later(s)) && forall x :: Tidy(u, Later(s), x)
  {
    forall x
      ensures Tidy(u, Later(s), x)
    {
      assert Tidy(u, s, x);
    }
  }

  /** rt_tick_increase: the clock moves and the timers are checked. */
  ghost function Ticked(u: Setup, s: State): State
    requires Settled(u, s)
  {
    LaterKeeps(u, s);
    Checked(u, Later(s))
  }

  lemma TickedKeeps(u: Setup, s: State)
    requires Settled(u, s)
    ensures Settled(u, Ticked(u, s)) && Ticked(u, s).now == s.now + 1
    ensures forall i :: 0 <= i < |Ticked(u, s).queue| ==> Ticked(u, s).deadline[Ticked(u, s).queue[i]] > s.now + 1
  {
    hide Sane, Sorted, Distinct, Near;
    LaterKeeps(u, s);
    NoneDueAfterCheck(u, Later(s));
    forall x
      ensures Tidy(u, Ticked(u, s), x)
    {
      CheckedTidy(u, Later(s), x);
    }
  }

  datatype Op = Do(call: Call) | Tick

  ghost predicate OpOk(u: Setup, o: Op) {
    o.Do? ==> o.call.t in u.init
  }

  ghost function Step(u: Setup, s: State, o: Op): State
    requires Settled(u, s) && OpOk(u, o)
  {
    match o
    case Do(c) => Called(u, s, c)
    case Tick => Ticked(u, s)
  }

  lemma CalledSettled(u: Setup, s: State, c: Call)
    requires Settled(u, s) && c.t in u.init
    ensures Settled(u, Called(u, s, c))
  {
    hide Sane, Sorted, Distinct, Near, Placed, Drop;
    CalledKeeps(u, s, c);
    match c {
      case Start(t) => StartedKeeps(u, s, t);
      case Stop(t) => StoppedKeeps(u, s, t);
    }
    var s' := Called(u, s, c);
    forall i | 0 <= i < |s'.queue|
      ensures s'.now <= s'.deadline[s'.queue[i]]
    {
      var x := s'.queue[i];
      assert x in s'.queue;
      if s'.deadline[x] == s.deadline[x] && x in s.queue {
        var j :| 0 <= j < |s.queue| && s.queue[j] == x;
      }
    }
    forall x
      ensures Tidy(u, s', x)
    {
      CalledTidy(u, s, c, x);
    }
  }

  lemma StepKeeps(u: Setup, s: State, o: Op)
    requires Settled(u, s) && OpOk(u, o)
    ensures Settled(u, Step(u, s, o)) && s.now <= Step(u, s, o).now
  {
    hide Sane, Sorted, Distinct, Near, Settled, Ticked;
    match o
    case Do(c) => CalledSettled(u, s, c); SettledWell(u, s); CalledKeeps(u, s, c);
    case Tick => TickedKeeps(u, s);
  }

  lemma SettledWell(u: Setup, s: State)
    requires Settled(u, s)
    ensures WellFormed(u, s)
  {
  }

  ghost function Run(u: Setup, s: State, ops: seq<Op>): State
    requires Settled(u, s) && forall i :: 0 <= i < |ops| ==> OpOk(u, ops[i])
    decreases |ops|
  {
    if ops == [] then s else StepKeeps(u, s, ops[0]); Run(u, Step(u, s, ops[0]), ops[1..])
  }

  lemma {:induction false} RunKeeps(u: Setup, s: State, ops: seq<Op>)
    requires Settled(u, s) && forall i :: 0 <= i < |ops| ==> OpOk(u, ops[i])
    ensures Settled(u, Run(u, s, ops)) && s.now <= Run(u, s, ops).now
    ensures forall x :: x in Run(u, s, ops).active ==> x in Run(u, s, ops).queue
    decreases |ops|
  {
    hide Settled, Step;
    if ops != [] {
      StepKeeps(u, s, ops[0]);
      RunKeeps(u, Step(u, s, ops[0]), ops[1..]);
    } else {
      SettledTidy(u, s);
    }
  }

  lemma SettledTidy(u: Setup, s: State)
    requires Settled(u, s)
    ensures forall x :: Tidy(u, s, x)
    ensures forall x :: x in s.active ==> x in s.queue
  {
    forall x | x in s.active
      ensures x in s.queue
    {
      assert Tidy(u, s, x);
    }
  }

  // ----- When a timer fires -----

  /** The ticks at which t fired. */
  function Times(log: seq<Event>, t: int): seq<nat> {
    if log == [] then []
    else
      var e := log[|log| - 1];
      Times(log[..|log| - 1], t) + if e.t == t then [e.at] else []
  }

  /** No callback but t's own touches t. */
  ghost predicate Alone(u: Setup, t: int) {
    forall x, now :: x in u.script && x != t ==> Untouched(u.script[x](now), t)
  }

  /** Nor does its own. */
  ghost predicate Private(u: Setup, t: int) {
    Alone(u, t) && forall now :: t in u.script ==> Untouched(u.script[t](now), t)
  }

  ghost predicate Untouched(cs: seq<Call>, t: int) {
    forall i :: 0 <= i < |cs| ==> cs[i].t != t
  }

  /** Two states that agree on t. */
  ghost predicate Same(s: State, s': State, t: int) {
    && (t in s'.queue <==> t in s.queue)
    && (t in s'.active <==> t in s.active)
    && t in s.deadline && t in s'.deadline && s'.deadline[t] == s.deadline[t]
    && s'.now == s.now
  }

  lemma CalledSame(u: Setup, s: State, c: Call, t: int)
    requires WellFormed(u, s) && c.t in u.init && c.t != t && t in u.init
    ensures Same(s, Called(u, s, c), t)
  {
    hide Sane, Sorted, Distinct, Near, Placed, Drop;
    match c {
      case Start(x) => StartedKeeps(u, s, x);
      case Stop(x) => StoppedKeeps(u, s, x);
    }
  }

  lemma {:induction false} RanSame(u: Setup, s: State, cs: seq<Call>, t: int)
    requires WellFormed(u, s) && t in u.init && Untouched(cs, t)
    requires forall i :: 0 <= i < |cs| ==> cs[i].t in u.init
    ensures Same(s, Ran(u, s, cs), t)
    decreases |cs|
  {
    hide Sane, Sorted, Distinct, Near, Called;
    if cs != [] {
      CalledKeeps(u, s, cs[0]);
      CalledSame(u, s, cs[0], t);
      RanSame(u, Called(u, s, cs[0]), cs[1..], t);
    }
  }

  lemma PoppedQueue(s: State, t: int)
    requires s.queue != [] && Distinct(s.queue)
    ensures t in Popped(s).queue <==> t in s.queue && t != s.queue[0]
  {
    var q := s.queue[1..];
    assert forall i :: 0 <= i < |q| ==> q[i] == s.queue[i + 1];
    if t in s.queue && t != s.queue[0] {
      var i :| 0 <= i < |s.queue| && s.queue[i] == t;
      assert q[i - 1] == t;
    }
  }

  /** Another timer's turn leaves t as it was. */
  lemma FiredOther(u: Setup, s: State, t: int)
    requires WellFormed(u, s) && s.queue != [] && t in u.init && t != s.queue[0] && Alone(u, t)
    ensures Same(s, Fired(u, s), t) && Times(Fired(u, s).log, t) == Times(s.log, t)
  {
    hide Sane, Sorted, Near, Ran;
    PoppedKeeps(u, s);
    PoppedQueue(s, t);
    FiredKeeps(u, s);
    var x := s.queue[0];
    RanKeeps(u, Popped(s), u.script[x](s.now));
    RanSame(u, Popped(s), u.script[x](s.now), t);
    var after := Ran(u, Popped(s), u.script[x](s.now));
    var idle := after.(active := after.active - {x});
    IdleKeeps(u, after, x);
    if x in u.periodic && x in after.active {
      CalledSame(u, idle, Start(x), t);
    }
    TimesMore(s.log, Event(s.now, x), t);
  }

  lemma TimesMore(log: seq<Event>, e: Event, t: int)
    ensures Times(log + [e], t) == Times(log, t) + if e.t == t then [e.at] else []
  {
    var l := log + [e];
    assert l[..|l| - 1] == log;
  }

  /** A timer that is started during the callback is due one delay from now. */
  lemma {:induction false} RanFresh(u: Setup, s: State, cs: seq<Call>, t: int)
    requires WellFormed(u, s) && forall i :: 0 <= i < |cs| ==> cs[i].t in u.init
    requires t in s.queue ==> t in u.init && s.deadline[t] == s.now + u.init[t]
    ensures t in Ran(u, s, cs).queue ==>
              t in u.init && t in Ran(u, s, cs).deadline && Ran(u, s, cs).deadline[t] == s.now + u.init[t]
    decreases |cs|
  {
    hide Sane, Sorted, Distinct, Near, Placed, Drop;
    if cs != [] {
      CalledKeeps(u, s, cs[0]);
      match cs[0] {
        case Start(x) => StartedKeeps(u, s, x);
        case Stop(x) => StoppedKeeps(u, s, x);
      }
      RanFresh(u, Called(u, s, cs[0]), cs[1..], t);
    } else if t in s.queue {
      var i :| 0 <= i < |s.queue| && s.queue[i] == t;
    }
  }

  /** One expiry: the head is linked again exactly when the last call its callback makes on it is a start,
      or when the callback makes none and the timer is periodic and active; it is then due one delay from
      now.  Only a periodic timer keeps its flag.  Every other timer is as the callback left it. */
  lemma FiredHead(u: Setup, s: State, x: int)
    requires WellFormed(u, s) && s.queue != [] && x in u.init
    ensures var t, q := s.queue[0], Fired(u, s);
            && t in u.init && t in u.script && WellFormed(u, Popped(s))
            && var cs := u.script[t](s.now);
            && (forall i :: 0 <= i < |cs| ==> cs[i].t in u.init)
            && (t in q.queue <==> After(cs, t, t in u.periodic && t in s.active))
            && (t in q.active <==> t in u.periodic && After(cs, t, t in s.active))
            && (t in q.queue ==> t in q.deadline && q.deadline[t] == s.now + u.init[t])
            && (x != t ==> Same(Ran(u, Popped(s), cs), q, x))
  {
    hide Sane, Sorted, Near, Ran, Started;
    PoppedKeeps(u, s);
    var t, p := s.queue[0], Popped(s);
    PoppedQueue(s, t);
    var cs := u.script[t](s.now);
    var after := Ran(u, p, cs);
    RanKeeps(u, p, cs);
    RanLinks(u, p, cs, t);
    RanFresh(u, p, cs, t);
    AfterAny(cs, t);
    var idle := after.(active := after.active - {t});
    IdleKeeps(u, after, t);
    if t in u.periodic && t in after.active {
      StartedKeeps(u, idle, t);
      StartedActive(u, idle, t);
    }
  }

  /** Its own turn: fired now, then linked for one delay on, or not, as its callback leaves it. */
  lemma FiredSelf(u: Setup, s: State, t: int)
    requires WellFormed(u, s) && s.queue != [] && t == s.queue[0] && (t in u.periodic ==> t in s.active)
    ensures t in u.init && t in u.script && Times(Fired(u, s).log, t) == Times(s.log, t) + [s.now]
    ensures t in Fired(u, s).queue <==> After(u.script[t](s.now), t, t in u.periodic)
    ensures t in Fired(u, s).queue ==>
              t in Fired(u, s).deadline && Fired(u, s).deadline[t] == s.now + u.init[t] && u.init[t] > 0
    ensures t in Fired(u, s).queue && t in u.periodic ==> t in Fired(u, s).active
  {
    hide Sane, Sorted, Near, Ran, Started, Fired;
    PoppedKeeps(u, s);
    FiredHead(u, s, t);
    FiredKeeps(u, s);
    TimesMore(s.log, Event(s.now, t), t);
    if t in Fired(u, s).queue {
      AgainLater(u, t, s.now);
    }
  }

  /** A timer that its callback leaves linked has a delay above 0. */
  lemma AgainLater(u: Setup, t: int, now: nat)
    requires Sane(u) && t in u.script && After(u.script[t](now), t, t in u.periodic)
    ensures t in u.init && u.init[t] > 0
  {
    if t !in u.periodic {
      ScriptIsSane(u, t, now);
      AfterStarts(u.script[t](now), t);
    }
  }

  /** A callback that leaves t started contains a call that starts it. */
  lemma {:induction false} AfterStarts(cs: seq<Call>, t: int)
    requires After(cs, t, false)
    ensures exists i :: 0 <= i < |cs| && cs[i] == Start(t)
  {
    if cs[0] != Start(t) {
      AfterStarts(cs[1..], t);
      var i :| 0 <= i < |cs[1..]| && cs[1..][i] == Start(t);
      assert cs[i + 1] == Start(t);
    }
  }

  /** A timer that is not linked, or not due, sleeps through a check. */
  lemma {:induction false} CheckedAsleep(u: Setup, s: State, t: int)
    requires WellFormed(u, s) && t in u.init && Alone(u, t)
    requires t in s.queue ==> s.deadline[t] > s.now
    ensures Same(s, Checked(u, s), t) && Times(Checked(u, s).log, t) == Times(s.log, t)
    decreases |Due(s)|
  {
    hide Sane, Distinct, Sorted, Near, Alone, Fired, Due;
    if HeadDue(s) {
      FiredDue(u, s);
      PoppedDue(u, s);
      SmallerSet(Due(Fired(u, s)), Due(s), s.queue[0]);
      FiredOther(u, s, t);
      CheckedAsleep(u, Fired(u, s), t);
    }
  }

  /** A due timer fires exactly once in a check, and is then linked for one delay on, or not, as its own
      callback leaves it. */
  lemma {:induction false} CheckedAwake(u: Setup, s: State, t: int)
    requires WellFormed(u, s) && t in u.init && Alone(u, t)
    requires t in s.queue && (t in u.periodic ==> t in s.active) && s.deadline[t] <= s.now
    ensures t in u.script && Times(Checked(u, s).log, t) == Times(s.log, t) + [s.now]
    ensures t in Checked(u, s).queue <==> After(u.script[t](s.now), t, t in u.periodic)
    ensures t in Checked(u, s).queue ==>
              t in Checked(u, s).deadline && Checked(u, s).deadline[t] == s.now + u.init[t] && u.init[t] > 0
    ensures t in Checked(u, s).queue && t in u.periodic ==> t in Checked(u, s).active
    decreases |Due(s)|
  {
    hide Sane, Distinct, Sorted, Near, Alone, Fired, Due;
    HeadIsDue(u, s, t);
    FiredDue(u, s);
    FiredKeeps(u, s);
    PoppedDue(u, s);
    SmallerSet(Due(Fired(u, s)), Due(s), s.queue[0]);
    if t == s.queue[0] {
      FiredSelf(u, s, t);
      CheckedAsleep(u, Fired(u, s), t);
    } else {
      FiredOther(u, s, t);
      CheckedAwake(u, Fired(u, s), t);
    }
  }

  lemma HeadIsDue(u: Setup, s: State, t: int)
    requires WellFormed(u, s) && t in s.queue && s.deadline[t] <= s.now
    ensures HeadDue(s) && s.queue[0] in u.script && t in u.script
  {
    var i :| 0 <= i < |s.queue| && s.queue[i] == t;
  }

  /** The first check to find a timer due that was set for d: the one at d, or the next one. */
  function FirstCheck(now: nat, d: nat): nat {
    if d > now then d else now + 1
  }

  /** first, first + k, first + 2k, ... up to n. */
  function Beats(first: nat, k: nat, n: nat): seq<nat>
    decreases n - first
  {
    if first > n then [] else if k == 0 then [first] else [first] + Beats(first + k, k, n)
  }

  ghost predicate Away(u: Setup, ops: seq<Op>, t: int) {
    && (forall i :: 0 <= i < |ops| ==> OpOk(u, ops[i]))
    && (forall i :: 0 <= i < |ops| && ops[i].Do? ==> ops[i].call.t != t)
  }

  ghost predicate NoStart(cs: seq<Call>, t: int) {
    forall i :: 0 <= i < |cs| ==> cs[i] != Start(t)
  }

  /** No callback but t's own starts t. */
  ghost predicate LeftAlone(u: Setup, t: int) {
    forall x, now :: x in u.script && x != t ==> NoStart(u.script[x](now), t)
  }

  lemma AloneIsLeft(u: Setup, t: int)
    requires Alone(u, t)
    ensures LeftAlone(u, t)
  {
    forall x, now | x in u.script && x != t
      ensures NoStart(u.script[x](now), t)
    {
      assert Untouched(u.script[x](now), t);
    }
  }

  lemma {:induction false} RanQuiet(u: Setup, s: State, cs: seq<Call>, t: int)
    requires WellFormed(u, s) && t !in s.queue && NoStart(cs, t)
    requires forall i :: 0 <= i < |cs| ==> cs[i].t in u.init
    ensures t !in Ran(u, s, cs).queue
    decreases |cs|
  {
    hide Sane, Sorted, Distinct, Near, Placed, Drop;
    if cs != [] {
      CalledKeeps(u, s, cs[0]);
      match cs[0] {
        case Start(x) => StartedKeeps(u, s, x);
        case Stop(x) => StoppedKeeps(u, s, x);
      }
      RanQuiet(u, Called(u, s, cs[0]), cs[1..], t);
    }
  }

  lemma FiredQuiet(u: Setup, s: State, t: int)
    requires WellFormed(u, s) && s.queue != [] && t !in s.queue && LeftAlone(u, t)
    ensures t !in Fired(u, s).queue && Times(Fired(u, s).log, t) == Times(s.log, t)
  {
    hide Sane, Sorted, Near, Ran, Started;
    PoppedKeeps(u, s);
    PoppedQueue(s, t);
    FiredKeeps(u, s);
    var x := s.queue[0];
    RanKeeps(u, Popped(s), u.script[x](s.now));
    RanQuiet(u, Popped(s), u.script[x](s.now), t);
    var after := Ran(u, Popped(s), u.script[x](s.now));
    IdleKeeps(u, after, x);
    if x in u.periodic && x in after.active {
      StartedKeeps(u, after.(active := after.active - {x}), x);
    }
    TimesMore(s.log, Event(s.now, x), t);
  }

  lemma {:induction false} CheckedQuiet(u: Setup, s: State, t: int)
    requires WellFormed(u, s) && t !in s.queue && LeftAlone(u, t)
    ensures t !in Checked(u, s).queue && Times(Checked(u, s).log, t) == Times(s.log, t)
    decreases |Due(s)|
  {
    hide Sane, Distinct, Sorted, Near, LeftAlone, Fired, Due;
    if HeadDue(s) {
      FiredDue(u, s);
      PoppedDue(u, s);
      SmallerSet(Due(Fired(u, s)), Due(s), s.queue[0]);
      FiredQuiet(u, s, t);
      CheckedQuiet(u, Fired(u, s), t);
    }
  }

  /** A timer that is not linked, whoever stopped it, does not fire, however long the run, until another
      callback or a call of the run starts it. */
  lemma {:induction false} StaysQuiet(u: Setup, s: State, t: int, ops: seq<Op>)
    requires Settled(u, s) && LeftAlone(u, t) && t !in s.queue
    requires forall i :: 0 <= i < |ops| ==> OpOk(u, ops[i]) && ops[i] != Do(Start(t))
    ensures t !in Run(u, s, ops).queue && Times(Run(u, s, ops).log, t) == Times(s.log, t)
    decreases |ops|
  {
    hide Settled, LeftAlone, Checked, Called;
    if ops != [] {
      StepKeeps(u, s, ops[0]);
      SettledWell(u, s);
      match ops[0] {
        case Do(c) => CalledQuiet(u, s, c, t);
        case Tick =>
          LaterKeeps(u, s);
          CheckedQuiet(u, Later(s), t);
      }
      StaysQuiet(u, Step(u, s, ops[0]), t, ops[1..]);
    }
  }

  lemma CalledQuiet(u: Setup, s: State, c: Call, t: int)
    requires WellFormed(u, s) && c.t in u.init && c != Start(t) && t !in s.queue
    ensures t !in Called(u, s, c).queue && Called(u, s, c).log == s.log
  {
    hide Sane, Sorted, Distinct, Near, Placed, Drop;
    CalledKeeps(u, s, c);
    match c
    case Start(x) => StartedKeeps(u, s, x);
    case Stop(x) => StoppedKeeps(u, s, x);
  }

  /** A linked timer's past and future over one step that does not name it. */
  lemma StepAt(u: Setup, s: State, t: int, o: Op)
    requires Settled(u, s) && OpOk(u, o) && t in u.init && Alone(u, t)
    requires o.Do? ==> o.call.t != t
    requires t in s.queue && (t in u.periodic ==> t in s.active)
    ensures t in s.deadline && t in u.script
    ensures t in Step(u, s, o).queue && t in u.periodic ==> t in Step(u, s, o).active
    ensures o.Tick? && FirstCheck(s.now, s.deadline[t]) == s.now + 1 ==>
              && Times(Step(u, s, o).log, t) == Times(s.log, t) + [s.now + 1]
              && (t in Step(u, s, o).queue <==> After(u.script[t](s.now + 1), t, t in u.periodic))
              && (t in Step(u, s, o).queue ==>
                    u.init[t] > 0 && t in Step(u, s, o).deadline && Step(u, s, o).deadline[t] == s.now + 1 + u.init[t])
    ensures !(o.Tick? && FirstCheck(s.now, s.deadline[t]) == s.now + 1) ==>
              && Times(Step(u, s, o).log, t) == Times(s.log, t)
              && t in Step(u, s, o).queue
              && t in Step(u, s, o).deadline
              && FirstCheck(Step(u, s, o).now, Step(u, s, o).deadline[t]) == FirstCheck(s.now, s.deadline[t])
  {
    hide Alone, Checked, Called, Distinct, Sorted, Near, Sane;
    SettledWell(u, s);
    HasScript(u, t);
    match o {
      case Do(c) => CalledSame(u, s, c, t); CalledKeeps(u, s, c);
      case Tick =>
        LaterKeeps(u, s);
        var later := Later(s);
        if s.deadline[t] > s.now + 1 {
          CheckedAsleep(u, later, t);
        } else {
          CheckedAwake(u, later, t);
        }
    }
  }

  lemma HasScript(u: Setup, t: int)
    requires Sane(u) && t in u.init
    ensures t in u.script && (t in u.periodic ==> u.init[t] > 0)
  {
  }

  /** first, and as long as its callback leaves it linked one delay after that, and so on, up to n. */
  ghost function OwnBeats(u: Setup, t: int, first: nat, n: nat): seq<nat>
    requires t in u.init && t in u.script
    decreases n - first
  {
    if first > n then []
    else if After(u.script[t](first), t, t in u.periodic) && u.init[t] > 0 then
      [first] + OwnBeats(u, t, first + u.init[t], n)
    else [first]
  }

  /** When a linked timer fires, whatever its own callback does with it. */
  lemma {:induction false} RunTimes(u: Setup, s: State, t: int, ops: seq<Op>)
    requires Settled(u, s) && t in u.init && Alone(u, t) && Away(u, ops, t)
    requires t in s.queue && (t in u.periodic ==> t in s.active)
    ensures t in s.deadline && t in u.script
    ensures Times(Run(u, s, ops).log, t)
            == Times(s.log, t) + OwnBeats(u, t, FirstCheck(s.now, s.deadline[t]), Run(u, s, ops).now)
    decreases |ops|
  {
    hide Settled, Alone, Step, After;
    StepAt(u, s, t, Tick);
    if ops != [] {
      StepKeeps(u, s, ops[0]);
      StepAt(u, s, t, ops[0]);
      StepNow(u, s, ops[0]);
      var s' := Step(u, s, ops[0]);
      RunKeeps(u, s', ops[1..]);
      if t in s'.queue {
        RunTimes(u, s', t, ops[1..]);
      } else {
        AloneIsLeft(u, t);
        StaysQuiet(u, s', t, ops[1..]);
      }
    }
  }

  lemma {:induction false} Unmoved(cs: seq<Call>, t: int, b: bool)
    requires Untouched(cs, t)
    ensures After(cs, t, b) == b
  {
    if cs != [] {
      Unmoved(cs[1..], t, b);
    }
  }

  /** When its own callback leaves it alone too, that is once, or every period. */
  lemma {:induction false} OwnBeatsPlain(u: Setup, t: int, first: nat, n: nat)
    requires Sane(u) && t in u.init && t in u.script && Private(u, t)
    ensures OwnBeats(u, t, first, n) == Beats(first, if t in u.periodic then u.init[t] else 0, n)
    decreases n - first
  {
    hide Sane;
    Unmoved(u.script[t](first), t, t in u.periodic);
    HasScript(u, t);
    if first <= n && t in u.periodic {
      OwnBeatsPlain(u, t, first + u.init[t], n);
    }
  }

  lemma PeriodIsPositive(u: Setup, s: State, t: int)
    requires Settled(u, s)
    ensures t in u.periodic ==> t in u.init && u.init[t] > 0
  {
  }

  lemma StepNow(u: Setup, s: State, o: Op)
    requires Settled(u, s) && OpOk(u, o)
    ensures Step(u, s, o).now == s.now + if o.Tick? then 1 else 0
  {
    hide Settled;
    SettledWell(u, s);
    match o
    case Do(c) => CalledKeeps(u, s, c);
    case Tick => TickedKeeps(u, s);
  }

  /** Started at tick s.now with delay k, checked once per tick, a timer fires at s.now + k (one tick later
      when k is 0), and again k after each firing at which its callback's last call on it is a start, or at
      which the callback makes none and the timer is periodic. */
  lemma StartTimes(u: Setup, s: State, t: int, ops: seq<Op>)
    requires Settled(u, s) && t in u.init && Alone(u, t) && Away(u, ops, t)
    ensures WellFormed(u, s) && Settled(u, Started(u, s, t)) && t in u.script
    ensures Times(Run(u, Started(u, s, t), ops).log, t)
            == Times(s.log, t) + OwnBeats(u, t, FirstCheck(s.now, s.now + u.init[t]), Run(u, Started(u, s, t), ops).now)
  {
    hide Settled, Alone, Run, Started, Called, Sorted, Distinct, Near, Sane;
    SettledWell(u, s);
    CalledSettled(u, s, Start(t));
    CalledIsStarted(u, s, t);
    StartedKeeps(u, s, t);
    StartedActive(u, s, t);
    RunTimes(u, Started(u, s, t), t, ops);
  }

  /** Left alone by all callbacks, a one-shot timer fires once, at s.now + k; a periodic one at s.now + k,
      s.now + 2k, and so on. */
  lemma FiringTimes(u: Setup, s: State, t: int, ops: seq<Op>)
    requires Settled(u, s) && t in u.init && Private(u, t) && Away(u, ops, t)
    ensures WellFormed(u, s) && Settled(u, Started(u, s, t))
    ensures t in u.periodic ==>
              Times(Run(u, Started(u, s, t), ops).log, t)
              == Times(s.log, t) + Beats(s.now + u.init[t], u.init[t], Run(u, Started(u, s, t), ops).now)
    ensures t !in u.periodic ==>
              Times(Run(u, Started(u, s, t), ops).log, t)
              == Times(s.log, t) + Beats(FirstCheck(s.now, s.now + u.init[t]), 0, Run(u, Started(u, s, t), ops).now)
  {
    hide Settled, Run, Started, Sorted, Distinct, Near, Sane;
    SettledWell(u, s);
    StartTimes(u, s, t, ops);
    PeriodIsPositive(u, s, t);
    OwnBeatsPlain(u, t, FirstCheck(s.now, s.now + u.init[t]), Run(u, Started(u, s, t), ops).now);
  }

  /** Once stopped, an active timer does not fire until it is started. */
  lemma StoppedIsQuiet(u: Setup, s: State, t: int, ops: seq<Op>)
    requires Settled(u, s) && t in u.init && LeftAlone(u, t) && t in s.active
    requires forall i :: 0 <= i < |ops| ==> OpOk(u, ops[i]) && ops[i] != Do(Start(t))
    ensures Settled(u, Stopped(s, t))
    ensures Times(Run(u, Stopped(s, t), ops).log, t) == Times(s.log, t)
  {
    hide Settled, LeftAlone, Run, Sorted, Distinct, Near, Sane;
    SettledWell(u, s);
    CalledSettled(u, s, Stop(t));
    StoppedKeeps(u, s, t);
    assert Called(u, s, Stop(t)) == Stopped(s, t);
    StaysQuiet(u, Stopped(s, t), t, ops);
  }

  /** So a timer whose own callback stops it last fires no more until it is started. */
  lemma StopsItself(u: Setup, s: State, t: int, ops: seq<Op>)
    requires Settled(u, s) && t in u.init && Alone(u, t) && t in s.queue && (t in u.periodic ==> t in s.active)
    requires t in s.deadline && FirstCheck(s.now, s.deadline[t]) == s.now + 1
    requires t in u.script && !After(u.script[t](s.now + 1), t, t in u.periodic)
    requires forall i :: 0 <= i < |ops| ==> OpOk(u, ops[i]) && ops[i] != Do(Start(t))
    ensures Settled(u, Ticked(u, s)) && Times(Run(u, Ticked(u, s), ops).log, t) == Times(s.log, t) + [s.now + 1]
  {
    hide Settled, Alone, Run, Checked, After;
    StepAt(u, s, t, Tick);
    StepKeeps(u, s, Tick);
    AloneIsLeft(u, t);
    StaysQuiet(u, Ticked(u, s), t, ops);
  }
}
