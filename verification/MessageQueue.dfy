/** rt_mq_send, rt_mq_urgent, rt_mq_recv and rt_mq_control.

  Sending reserves a node, fills it with interrupts enabled and then links it; receiving unlinks a
  node, copies it out with interrupts enabled and then gives it back.  Each part is a step of its own,
  and the steps of any number of senders and receivers interleave.
 */
module MessageQueue {
  import opened RtList
  import opened Threads
  import opened SchedSpec
  import opened SchedEffects
  import opened Scheduler
  import opened Ipc

  const NIL: int := -1

  /** Where a pool node is: with nobody, with a sender, in the queue, or with a receiver. */
  datatype Place = Free | Reserved | Filled(urgent: bool) | Queued | Taken

  /** Receivers wait on list c.w; a message has `size` bytes. */
  datatype Pool = Pool(c: Config, nodes: nat, size: nat)

  datatype State = State(
    free: seq<int>,
    queue: seq<int>,
    place: seq<Place>,
    data: seq<seq<bv8>>,
    s: Sched,
    recv: set<int>)

  /** list holds exactly the nodes at place p, each once. */
  ghost predicate Holds(list: seq<int>, place: seq<Place>, p: Place) {
    && Distinct(list)
    && (forall i :: 0 <= i < |list| ==> 0 <= list[i] < |place| && place[list[i]] == p)
    && (forall n :: 0 <= n < |place| && place[n] == p ==> n in list)
  }

  ghost predicate NoneLost(p: Pool, m: State) {
    && |m.place| == p.nodes == |m.data|
    && Holds(m.free, m.place, Free) && Holds(m.queue, m.place, Queued)
    && (forall n :: 0 <= n < |m.data| ==> |m.data[n]| == p.size)
  }

  ghost predicate MqOk(p: Pool, m: State) {
    && Fits(p.c, m.s)
    && NoneLost(p, m)
    && (m.s.lists[p.c.w] != [] ==> |m.queue| <= |m.recv|)
    && (forall i :: 0 <= i < |m.s.lists[p.c.w]| ==> m.s.lists[p.c.w][i] !in m.recv)
  }

  /** The messages in the queue, the next one to be received first. */
  ghost function Messages(m: State): seq<seq<bv8>> {
    seq(|m.queue|, i requires 0 <= i < |m.queue| => if 0 <= m.queue[i] < |m.data| then m.data[m.queue[i]] else [])
  }

  function Overlay(before: seq<bv8>, buffer: seq<bv8>): seq<bv8> {
    if |buffer| <= |before| then buffer + before[|buffer|..] else buffer[..|before|]
  }

  // ----- Steps -----

  ghost predicate At(m: State, n: int, p: Place) {
    0 <= n < |m.place| && n < |m.data| && m.place[n] == p
  }

  /** First part of a send: a node off the free list. */
  ghost function ReserveStep(m: State): (r: (State, int)) {
    if m.free == [] || !(0 <= m.free[0] < |m.place|) then (m, NIL)
    else (m.(free := m.free[1..], place := m.place[m.free[0] := Reserved]), m.free[0])
  }

  ghost function FillStep(m: State, n: int, buffer: seq<bv8>, urgent: bool): State
    requires At(m, n, Reserved)
  {
    m.(place := m.place[n := Filled(urgent)], data := m.data[n := Overlay(m.data[n], buffer)])
  }

  /** Second part of a send: the node goes to the end of the queue, or to its front. */
  ghost function CommitStep(p: Pool, m: State, n: int): State
    requires Fits(p.c, m.s) && 0 <= n < |m.place| && m.place[n].Filled?
  {
    Rung(p, m.(queue := if m.place[n].urgent then [n] + m.queue else m.queue + [n], place := m.place[n := Queued]))
  }

  ghost function Rung(p: Pool, m: State): State
    requires Fits(p.c, m.s)
  {
    if m.s.lists[p.c.w] != [] then m.(s := Woken(p.c.P, m.s, p.c.w), recv := m.recv + {m.s.lists[p.c.w][0]}) else m
  }

  datatype Outcome = Got(node: int) | Refused | Waits

  /** Only a receive that waits needs a running caller. */
  ghost predicate MayTake(m: State, timeout: int, who: Caller) {
    || (m.queue != [] && 0 <= m.queue[0] < |m.place|)
    || (timeout == 0 && who != Again)
    || (Running(m.s) && who != Handler)
  }

  /** First part of a receive. */
  ghost function TakeStep(p: Pool, m: State, timeout: int, who: Caller): (r: (State, Outcome))
    requires Fits(p.c, m.s) && MayTake(m, timeout, who)
  {
    var t := m.s.current;
    var m0 := m.(recv := Looked(m.recv, m.s, who));
    if m.queue == [] || !(0 <= m.queue[0] < |m.place|) then
      if timeout == 0 then
        (if who == Again then m0.(s := With(m.s, t, m.s.thread[t].(error := ETIMEOUT))) else m0, Refused)
      else
        CleanKeeps(p.c, m.s);
        (m0.(s := Waiting(p.c.P, Cleaned(m.s), p.c.w, t, p.c.byPriority)), Waits)
    else (m0.(queue := m.queue[1..], place := m.place[m.queue[0] := Taken]), Got(m.queue[0]))
  }

  /** Second part of a receive: the node goes back on the free list. */
  ghost function ReturnStep(m: State, n: int): State
    requires At(m, n, Taken)
  {
    m.(free := [n] + m.free, place := m.place[n := Free])
  }

  /** RT_IPC_CMD_RESET moves the queued nodes to the free list one by one. */
  ghost function Emptied(m: State): State
    decreases |m.queue|
  {
    if m.queue == [] || !(0 <= m.queue[0] < |m.place|) then m
    else Emptied(m.(free := [m.queue[0]] + m.free, queue := m.queue[1..], place := m.place[m.queue[0] := Free]))
  }

  ghost function ResetStep(p: Pool, m: State): State
    requires Fits(p.c, m.s)
  {
    Emptied(m.(s := AllWoken(p.c.P, m.s, p.c.w)))
  }

  // ----- Nodes are conserved -----

  lemma HoldsPop(list: seq<int>, place: seq<Place>, p: Place, q: Place)
    requires Holds(list, place, p) && list != [] && p != q
    ensures 0 <= list[0] < |place| && Holds(list[1..], place[list[0] := q], p)
  {
    DistinctTail(list);
    var rest := list[1..];
    assert forall i :: 0 <= i < |rest| ==> rest[i] == list[i + 1];
  }

  lemma HoldsPush(list: seq<int>, place: seq<Place>, p: Place, n: int)
    requires Holds(list, place, p) && 0 <= n < |place| && place[n] != p
    ensures Holds([n] + list, place[n := p], p)
  {
    assert n !in list;
    DistinctPrepend(list, n);
  }

  lemma HoldsAppend(list: seq<int>, place: seq<Place>, p: Place, n: int)
    requires Holds(list, place, p) && 0 <= n < |place| && place[n] != p
    ensures Holds(list + [n], place[n := p], p)
  {
    assert n !in list;
    var l := list + [n];
    assert l[|list|] == n;
    forall k | 0 <= k < |place| && place[n := p][k] == p
      ensures k in l
    {
    }
  }

  lemma HoldsElse(list: seq<int>, place: seq<Place>, p: Place, n: int, q: Place)
    requires Holds(list, place, p) && 0 <= n < |place| && place[n] != p && q != p
    ensures Holds(list, place[n := q], p)
  {
  }

  lemma ReserveKeeps(p: Pool, m: State)
    requires MqOk(p, m)
    ensures MqOk(p, ReserveStep(m).0)
    ensures ReserveStep(m).1 == NIL <==> m.free == []
  {
    hide Fits, Holds;
    if m.free != [] {
      HoldsPop(m.free, m.place, Free, Reserved);
      PlaceOfFirst(m.free, m.place, Free);
      HoldsElse(m.queue, m.place, Queued, m.free[0], Reserved);
    }
  }

  lemma PlaceOfFirst(list: seq<int>, place: seq<Place>, p: Place)
    requires Holds(list, place, p) && list != []
    ensures 0 <= list[0] < |place| && place[list[0]] == p
  {
  }

  lemma FillKeeps(p: Pool, m: State, n: int, buffer: seq<bv8>, urgent: bool)
    requires MqOk(p, m) && At(m, n, Reserved)
    ensures MqOk(p, FillStep(m, n, buffer, urgent))
  {
    hide Fits, Holds;
    HoldsElse(m.free, m.place, Free, n, Filled(urgent));
    HoldsElse(m.queue, m.place, Queued, n, Filled(urgent));
  }

  lemma CommitKeeps(p: Pool, m: State, n: int)
    requires MqOk(p, m) && 0 <= n < |m.place| && m.place[n].Filled?
    ensures MqOk(p, CommitStep(p, m, n))
  {
    hide WellFormed, Holds, Woken;
    HoldsElse(m.free, m.place, Free, n, Queued);
    HoldsPush(m.queue, m.place, Queued, n);
    HoldsAppend(m.queue, m.place, Queued, n);
    if m.s.lists[p.c.w] != [] {
      WakesOne(p, m);
    }
  }

  lemma WakesOne(p: Pool, m: State)
    requires MqOk(p, m) && m.s.lists[p.c.w] != []
    ensures Fits(p.c, Woken(p.c.P, m.s, p.c.w))
    ensures Woken(p.c.P, m.s, p.c.w).lists[p.c.w] == m.s.lists[p.c.w][1..]
    ensures |m.recv + {m.s.lists[p.c.w][0]}| == |m.recv| + 1
    ensures forall i :: 0 <= i < |m.s.lists[p.c.w]| - 1 ==> m.s.lists[p.c.w][1..][i] !in m.recv + {m.s.lists[p.c.w][0]}
  {
    hide Homes, ThreadShape, ThreadOk, Holds, Woken;
    FirstWaits(p.c.P, m.s, p.c.w);
    WokenKeeps(p.c.P, m.s, p.c.w);
    var l := m.s.lists[p.c.w];
    assert l[0] !in m.recv;
    assert forall i :: 0 <= i < |l| - 1 ==> l[1..][i] == l[i + 1];
  }

  lemma TakeKeeps(p: Pool, m: State, timeout: int, who: Caller)
    requires MqOk(p, m) && MayTake(m, timeout, who)
    ensures MqOk(p, TakeStep(p, m, timeout, who).0)
    ensures TakeStep(p, m, timeout, who).1.Got? <==> m.queue != []
  {
    hide WellFormed, Holds, Waiting, Looked;
    LookedKeeps(m.s.lists[p.c.w], m.recv, m.s, who);
    if m.queue != [] {
      PlaceOfFirst(m.queue, m.place, Queued);
      HoldsPop(m.queue, m.place, Queued, Taken);
      HoldsElse(m.free, m.place, Free, m.queue[0], Taken);
    } else if timeout != 0 {
      Sleeps(p, m, who);
    } else if who == Again {
      ErrorKeeps(p.c.P, m.s, m.s.current, ETIMEOUT);
    }
  }

  lemma LookedKeeps(list: seq<int>, pending: set<int>, s: Sched, who: Caller)
    requires forall i :: 0 <= i < |list| ==> list[i] !in pending
    ensures forall i :: 0 <= i < |list| ==> list[i] !in Looked(pending, s, who)
    ensures |pending| - 1 <= |Looked(pending, s, who)|
  {
    if s.current !in pending {
      assert pending - {s.current} == pending;
    }
  }

  lemma Sleeps(p: Pool, m: State, who: Caller)
    requires MqOk(p, m) && Running(m.s) && who != Handler
    ensures Fits(p.c, Cleaned(m.s)) && Running(Cleaned(m.s))
    ensures var s' := Waiting(p.c.P, Cleaned(m.s), p.c.w, m.s.current, p.c.byPriority);
            && Fits(p.c, s')
            && forall i :: 0 <= i < |s'.lists[p.c.w]| ==> s'.lists[p.c.w][i] !in Looked(m.recv, m.s, who)
  {
    hide Homes, ThreadShape, ThreadOk, Holds, Waiting;
    CleanKeeps(p.c, m.s);
    WaitingKeeps(p.c.P, Cleaned(m.s), p.c.w, m.s.current, p.c.byPriority);
    Joined(p.c, Cleaned(m.s));
    var l := Waiting(p.c.P, Cleaned(m.s), p.c.w, m.s.current, p.c.byPriority).lists[p.c.w];
    forall i | 0 <= i < |l|
      ensures l[i] !in Looked(m.recv, m.s, who)
    {
      var x := l[i];
      assert x in l;
      if x != m.s.current {
        var j :| 0 <= j < |m.s.lists[p.c.w]| && m.s.lists[p.c.w][j] == x;
      }
    }
  }

  lemma ReturnKeeps(p: Pool, m: State, n: int)
    requires MqOk(p, m) && At(m, n, Taken)
    ensures MqOk(p, ReturnStep(m, n))
  {
    hide Fits, Holds;
    HoldsPush(m.free, m.place, Free, n);
    HoldsElse(m.queue, m.place, Queued, n, Free);
  }

  lemma {:induction false} EmptiedKeeps(p: Pool, m: State)
    requires NoneLost(p, m)
    ensures NoneLost(p, Emptied(m)) && Emptied(m).queue == [] && |Emptied(m).free| == |m.free| + |m.queue|
    ensures Emptied(m).s == m.s && Emptied(m).recv == m.recv && Emptied(m).data == m.data
    decreases |m.queue|
  {
    hide Holds;
    if m.queue != [] {
      PlaceOfFirst(m.queue, m.place, Queued);
      HoldsPop(m.queue, m.place, Queued, Free);
      HoldsPush(m.free, m.place, Free, m.queue[0]);
      EmptiedKeeps(p, m.(free := [m.queue[0]] + m.free, queue := m.queue[1..], place := m.place[m.queue[0] := Free]));
    }
  }

  lemma ResetKeeps(p: Pool, m: State)
    requires MqOk(p, m)
    ensures MqOk(p, ResetStep(p, m)) && ResetStep(p, m).queue == []
    ensures ResetStep(p, m).s == AllWoken(p.c.P, m.s, p.c.w)
  {
    hide WellFormed, Holds, AllWoken, Emptied;
    AllWokenEmpties(p.c.P, m.s, p.c.w);
    EmptiedKeeps(p, m.(s := AllWoken(p.c.P, m.s, p.c.w)));
  }

  // ----- Runs of interleaved senders and receivers -----

  datatype Call =
    | Reserve | Fill(n: int, buffer: seq<bv8>, urgent: bool) | Commit(n: int)
    | Take(timeout: int, who: Caller) | Return(n: int) | Reset | Other(o: Op)

  ghost predicate CallOk(p: Pool, m: State, x: Call)
    requires MqOk(p, m)
  {
    match x
    case Reserve => true
    case Fill(n, buffer, _) => At(m, n, Reserved) && |buffer| <= p.size
    case Commit(n) => 0 <= n < |m.place| && m.place[n].Filled?
    case Take(timeout, who) => MayTake(m, timeout, who)
    case Return(n) => At(m, n, Taken)
    case Reset => true
    case Other(o) => OpOk(p.c.P, m.s, o) && !(o.Wait? && o.w == p.c.w)
  }

  ghost function Called(p: Pool, m: State, x: Call): State
    requires MqOk(p, m) && CallOk(p, m, x)
  {
    match x
    case Reserve => ReserveStep(m).0
    case Fill(n, buffer, urgent) => FillStep(m, n, buffer, urgent)
    case Commit(n) => CommitStep(p, m, n)
    case Take(timeout, who) => TakeStep(p, m, timeout, who).0
    case Return(n) => ReturnStep(m, n)
    case Reset => ResetStep(p, m)
    case Other(o) => m.(s := Step(p.c.P, m.s, o))
  }

  lemma OtherKeeps(p: Pool, m: State, o: Op)
    requires MqOk(p, m) && OpOk(p.c.P, m.s, o) && !(o.Wait? && o.w == p.c.w)
    ensures MqOk(p, m.(s := Step(p.c.P, m.s, o)))
  {
    hide WellFormed, Step, Holds, OpOk;
    StepKeeps(p.c.P, m.s, o);
    StepThins(p.c.P, m.s, o, p.c.w);
    var l := Step(p.c.P, m.s, o).lists[p.c.w];
    forall i | 0 <= i < |l|
      ensures l[i] !in m.recv
    {
      var x := l[i];
      assert x in l;
      var j :| 0 <= j < |m.s.lists[p.c.w]| && m.s.lists[p.c.w][j] == x;
    }
  }

  lemma CalledKeeps(p: Pool, m: State, x: Call)
    requires MqOk(p, m) && CallOk(p, m, x)
    ensures MqOk(p, Called(p, m, x))
  {
    hide Fits, Holds, NoneLost, ReserveStep, FillStep, CommitStep, TakeStep, ReturnStep, ResetStep, Step, OpOk;
    match x
    case Reserve => ReserveKeeps(p, m);
    case Fill(n, buffer, urgent) => FillKeeps(p, m, n, buffer, urgent);
    case Commit(n) => CommitKeeps(p, m, n);
    case Take(timeout, who) => TakeKeeps(p, m, timeout, who);
    case Return(n) => ReturnKeeps(p, m, n);
    case Reset => ResetKeeps(p, m);
    case Other(o) => OtherKeeps(p, m, o);
  }

  ghost predicate RunOk(p: Pool, m: State, xs: seq<Call>)
    requires MqOk(p, m)
    decreases |xs|
  {
    xs != [] ==> CallOk(p, m, xs[0]) && (CalledKeeps(p, m, xs[0]); RunOk(p, Called(p, m, xs[0]), xs[1..]))
  }

  ghost function Run(p: Pool, m: State, xs: seq<Call>): State
    requires MqOk(p, m) && RunOk(p, m, xs)
    decreases |xs|
  {
    if xs == [] then m else CalledKeeps(p, m, xs[0]); Run(p, Called(p, m, xs[0]), xs[1..])
  }

  /** The nodes that senders and receivers hold. */
  ghost function InFlight(place: seq<Place>): set<int> {
    set n | 0 <= n < |place| && place[n] != Free && place[n] != Queued
  }

  /** Free nodes, queued nodes and nodes in flight make up the pool. */
  lemma Counted(p: Pool, m: State)
    requires NoneLost(p, m)
    ensures |m.free| + |m.queue| + |InFlight(m.place)| == p.nodes
  {
    ElementsCard(m.free);
    ElementsCard(m.queue);
    BelowCard(p.nodes);
    ElementsAre(m.free, m.place, Free);
    ElementsAre(m.queue, m.place, Queued);
    assert Elements(m.free) + Elements(m.queue) + InFlight(m.place) == Below(p.nodes);
    assert Elements(m.free) !! Elements(m.queue);
    assert (Elements(m.free) + Elements(m.queue)) !! InFlight(m.place);
  }

  lemma ElementsAre(list: seq<int>, place: seq<Place>, p: Place)
    requires Holds(list, place, p)
    ensures forall n :: n in Elements(list) <==> 0 <= n < |place| && place[n] == p
  {
    forall n | 0 <= n < |place| && place[n] == p
      ensures n in Elements(list)
    {
      assert n in list;
    }
  }

  /** However senders and receivers interleave, no node is lost or in two places. */
  lemma {:induction false} Conservation(p: Pool, m: State, xs: seq<Call>)
    requires MqOk(p, m) && RunOk(p, m, xs)
    ensures MqOk(p, Run(p, m, xs))
    ensures |Run(p, m, xs).free| + |Run(p, m, xs).queue| + |InFlight(Run(p, m, xs).place)| == p.nodes
    decreases |xs|
  {
    hide Fits, NoneLost, Called;
    if xs == [] {
      Counted(p, m);
    } else {
      CalledKeeps(p, m, xs[0]);
      Conservation(p, Called(p, m, xs[0]), xs[1..]);
    }
  }

  // ----- The queue is a deque of messages -----

  lemma SameMessages(m: State, m': State)
    requires m'.queue == m.queue && |m'.data| == |m.data|
    requires forall i :: 0 <= i < |m.queue| && 0 <= m.queue[i] < |m.data| ==> m'.data[m.queue[i]] == m.data[m.queue[i]]
    ensures Messages(m') == Messages(m)
  {
  }

  /** A commit appends or prepends the message of its node, a take removes the first message, a reset
      removes all, and no other step changes the messages in the queue. */
  lemma Deque(p: Pool, m: State, x: Call)
    requires MqOk(p, m) && CallOk(p, m, x)
    ensures x.Commit? && !m.place[x.n].urgent ==>
            x.n < |m.data| && Messages(Called(p, m, x)) == Messages(m) + [m.data[x.n]]
    ensures x.Commit? && m.place[x.n].urgent ==>
            x.n < |m.data| && Messages(Called(p, m, x)) == [m.data[x.n]] + Messages(m)
    ensures x.Take? && m.queue != [] ==> [m.data[m.queue[0]]] + Messages(Called(p, m, x)) == Messages(m)
    ensures x.Reset? ==> Messages(Called(p, m, x)) == []
    ensures !x.Commit? && !x.Reset? && !(x.Take? && m.queue != []) ==> Messages(Called(p, m, x)) == Messages(m)
  {
    hide WellFormed, Distinct, Woken, Waiting, AllWoken, Step, Emptied;
    match x
    case Fill(n, buffer, urgent) => SameMessages(m, Called(p, m, x));
    case Commit(n) => CommitMessages(p, m, n);
    case Take(timeout, who) => TakeMessages(p, m, timeout, who);
    case Reset => ResetKeeps(p, m);
    case _ =>
  }

  lemma CommitMessages(p: Pool, m: State, n: int)
    requires MqOk(p, m) && 0 <= n < |m.place| && m.place[n].Filled?
    ensures n < |m.data|
    ensures Messages(CommitStep(p, m, n)) == if m.place[n].urgent then [m.data[n]] + Messages(m)
            else Messages(m) + [m.data[n]]
  {
    hide WellFormed, Distinct, Woken;
    var a, b := Messages(CommitStep(p, m, n)), if m.place[n].urgent then [m.data[n]] + Messages(m)
      else Messages(m) + [m.data[n]];
    forall i | 0 <= i < |a|
      ensures a[i] == b[i]
    {
    }
  }

  lemma TakeMessages(p: Pool, m: State, timeout: int, who: Caller)
    requires MqOk(p, m) && MayTake(m, timeout, who)
    ensures m.queue != [] ==>
            m.queue[0] < |m.data| && m.queue[0] >= 0
            && [m.data[m.queue[0]]] + Messages(TakeStep(p, m, timeout, who).0) == Messages(m)
    ensures m.queue == [] ==> Messages(TakeStep(p, m, timeout, who).0) == Messages(m)
  {
    hide WellFormed, Distinct, Waiting;
    if m.queue != [] {
      var a, b := [m.data[m.queue[0]]] + Messages(TakeStep(p, m, timeout, who).0), Messages(m);
      forall i | 0 <= i < |b|
        ensures a[i] == b[i]
      {
      }
    }
  }

  // ----- What a caller gets -----

  /** A sender gets a node that was free, and none exactly when none is free. */
  lemma ReserveOutcome(p: Pool, m: State)
    requires MqOk(p, m)
    ensures var m', n := ReserveStep(m).0, ReserveStep(m).1;
            if m.free == [] then m' == m && n == NIL
            else At(m, n, Free) && At(m', n, Reserved) && n !in m'.free
                 && m' == m.(free := m'.free, place := m.place[n := Reserved])
  {
    hide Fits, Distinct;
    if m.free != [] {
      PlaceOfFirst(m.free, m.place, Free);
      FirstGone(m.free, m.place, Free);
    }
  }

  lemma FirstGone(list: seq<int>, place: seq<Place>, p: Place)
    requires Holds(list, place, p) && list != []
    ensures list[0] !in list[1..]
  {
    DistinctTail(list);
  }

  /** A committed node is queued, and wakes the first receiver. */
  lemma CommitOutcome(p: Pool, m: State, n: int)
    requires MqOk(p, m) && 0 <= n < |m.place| && m.place[n].Filled?
    ensures var m' := CommitStep(p, m, n);
            && At(m', n, Queued) && m'.free == m.free && m'.data == m.data
            && m'.place == m.place[n := Queued]
            && m'.queue == (if m.place[n].urgent then [n] + m.queue else m.queue + [n])
            && if m.s.lists[p.c.w] == [] then m'.s == m.s else FirstWakes(m.s, m'.s, p.c.w)
  {
    hide WellFormed, Holds, Woken, FirstWakes;
    if m.s.lists[p.c.w] != [] {
      WakeDoes(p.c.P, m.s, p.c.w);
    }
  }

  /** A receive is handed the node of the first message exactly when there is one; the node leaves the queue with it.
      With none it is refused exactly when it does not wait, and otherwise sleeps on the list. */
  lemma TakeOutcome(p: Pool, m: State, timeout: int, who: Caller)
    requires MqOk(p, m) && MayTake(m, timeout, who)
    ensures var m', r := TakeStep(p, m, timeout, who).0, TakeStep(p, m, timeout, who).1;
            && (r.Got? <==> Messages(m) != [])
            && (r.Refused? <==> Messages(m) == [] && timeout == 0)
            && (r.Got? ==>
                  && At(m, r.node, Queued) && At(m', r.node, Taken) && r.node !in m'.queue
                  && Messages(m) == [m.data[r.node]] + Messages(m')
                  && m' == m.(queue := m'.queue, place := m.place[r.node := Taken], recv := m'.recv))
            && (!r.Got? ==> m' == m.(s := m'.s, recv := m'.recv))
            && (r.Refused? ==> if who == Again then OnlyError(m.s, m'.s, ETIMEOUT) else m'.s == m.s)
            && (r.Waits? ==> CallerSleeps(p.c, m.s, m'.s))
  {
    hide WellFormed, Distinct, Waiting, CallerSleeps, Looked;
    TakeMessages(p, m, timeout, who);
    if m.queue != [] {
      PlaceOfFirst(m.queue, m.place, Queued);
      FirstGone(m.queue, m.place, Queued);
    } else if timeout != 0 {
      CallerWaits(p.c, m.s);
    }
  }

  /** A node that is given back is free again. */
  lemma ReturnOutcome(p: Pool, m: State, n: int)
    requires MqOk(p, m) && At(m, n, Taken)
    ensures var m' := ReturnStep(m, n);
            && At(m', n, Free) && n !in m.free && m'.free == [n] + m.free
            && m' == m.(free := m'.free, place := m.place[n := Free])
  {
    hide Fits, Distinct;
  }

  /** A reset frees the queued nodes, leaves those in flight to their holders, and wakes everybody with an error. */
  lemma ResetOutcome(p: Pool, m: State)
    requires MqOk(p, m)
    ensures var m' := ResetStep(p, m);
            && m'.queue == [] && m'.data == m.data && |m'.free| == |m.free| + |m.queue|
            && |m'.place| == |m.place|
            && (forall n :: 0 <= n < |m.place| ==> m'.place[n] == if m.place[n] == Queued then Free else m.place[n])
            && AllWake(m.s, m'.s, p.c.w)
  {
    hide WellFormed, AllWoken, AllWake, Holds;
    ResetKeeps(p, m);
    AllWakeDoes(p.c.P, m.s, p.c.w);
    var m0 := m.(s := AllWoken(p.c.P, m.s, p.c.w));
    EmptiedKeeps(p, m0);
    forall n | 0 <= n < |m.place|
      ensures n < |Emptied(m0).place| && Emptied(m0).place[n] == if m.place[n] == Queued then Free else m.place[n]
    {
      EmptiedPlaces(p, m0, n);
    }
  }

  lemma {:induction false} EmptiedPlaces(p: Pool, m: State, n: nat)
    requires NoneLost(p, m) && n < |m.place|
    ensures |Emptied(m).place| == |m.place|
    ensures Emptied(m).place[n] == if m.place[n] == Queued then Free else m.place[n]
    decreases |m.queue|
  {
    hide Holds;
    if m.queue != [] {
      PlaceOfFirst(m.queue, m.place, Queued);
      HoldsPop(m.queue, m.place, Queued, Free);
      HoldsPush(m.free, m.place, Free, m.queue[0]);
      EmptiedPlaces(p, m.(free := [m.queue[0]] + m.free, queue := m.queue[1..], place := m.place[m.queue[0] := Free]),
        n);
    } else {
      NoneQueued(m.place, n);
    }
  }

  lemma NoneQueued(place: seq<Place>, n: nat)
    requires Holds([], place, Queued) && n < |place|
    ensures place[n] != Queued
  {
  }

  // ----- First in, first out -----

  /** The message that a call puts at the end of the queue. */
  ghost function Puts(p: Pool, m: State, x: Call): seq<seq<bv8>>
    requires MqOk(p, m) && CallOk(p, m, x)
  {
    if x.Commit? && x.n < |m.data| then [m.data[x.n]] else []
  }

  /** The message in the node that a call hands to its receiver. */
  ghost function Gets(p: Pool, m: State, x: Call): seq<seq<bv8>>
    requires MqOk(p, m) && CallOk(p, m, x)
  {
    if x.Take? && TakeStep(p, m, x.timeout, x.who).1.Got? then
      TakeOutcome(p, m, x.timeout, x.who);
      [m.data[TakeStep(p, m, x.timeout, x.who).1.node]]
    else []
  }

  /** Neither a reset nor the commit of an urgent message. */
  ghost predicate Ordinary(m: State, x: Call) {
    !x.Reset? && !(x.Commit? && 0 <= x.n < |m.place| && m.place[x.n].Filled? && m.place[x.n].urgent)
  }

  lemma CalledFifo(p: Pool, m: State, x: Call)
    requires MqOk(p, m) && CallOk(p, m, x) && Ordinary(m, x)
    ensures Messages(m) + Puts(p, m, x) == Gets(p, m, x) + Messages(Called(p, m, x))
  {
    hide Fits, NoneLost, TakeStep, CommitStep, ReserveStep, FillStep, ReturnStep, ResetStep, Messages, OpOk, Step;
    Deque(p, m, x);
    if x.Take? {
      TakeOutcome(p, m, x.timeout, x.who);
    }
  }

  ghost predicate AllOrdinary(p: Pool, m: State, xs: seq<Call>)
    requires MqOk(p, m) && RunOk(p, m, xs)
    decreases |xs|
  {
    xs != [] ==> Ordinary(m, xs[0]) && (CalledKeeps(p, m, xs[0]); AllOrdinary(p, Called(p, m, xs[0]), xs[1..]))
  }

  /** The messages committed over a run, in order. */
  ghost function Committed(p: Pool, m: State, xs: seq<Call>): seq<seq<bv8>>
    requires MqOk(p, m) && RunOk(p, m, xs)
    decreases |xs|
  {
    if xs == [] then [] else CalledKeeps(p, m, xs[0]); Puts(p, m, xs[0]) + Committed(p, Called(p, m, xs[0]), xs[1..])
  }

  /** The messages of the nodes handed to receivers over a run, in order. */
  ghost function Received(p: Pool, m: State, xs: seq<Call>): seq<seq<bv8>>
    requires MqOk(p, m) && RunOk(p, m, xs)
    decreases |xs|
  {
    if xs == [] then [] else CalledKeeps(p, m, xs[0]); Gets(p, m, xs[0]) + Received(p, Called(p, m, xs[0]), xs[1..])
  }

  /** However senders and receivers interleave: without urgent messages and resets, receivers are handed the messages
      that were queued and then those committed, in that order, none lost and none twice; the rest is still queued. */
  lemma {:induction false} FifoRun(p: Pool, m: State, xs: seq<Call>)
    requires MqOk(p, m) && RunOk(p, m, xs) && AllOrdinary(p, m, xs)
    ensures Messages(m) + Committed(p, m, xs) == Received(p, m, xs) + Messages(Run(p, m, xs))
    decreases |xs|
  {
    hide MqOk, Called, CallOk, Puts, Gets, Messages, Ordinary;
    if xs != [] {
      CalledKeeps(p, m, xs[0]);
      CalledFifo(p, m, xs[0]);
      var m' := Called(p, m, xs[0]);
      FifoRun(p, m', xs[1..]);
      Chained(Messages(m), Puts(p, m, xs[0]), Gets(p, m, xs[0]), Messages(m'), Committed(p, m', xs[1..]),
              Received(p, m', xs[1..]), Messages(Run(p, m', xs[1..])));
    }
  }

  lemma Chained(q: seq<seq<bv8>>, put: seq<seq<bv8>>, got: seq<seq<bv8>>, q': seq<seq<bv8>>,
                committed: seq<seq<bv8>>, received: seq<seq<bv8>>, rest: seq<seq<bv8>>)
    requires q + put == got + q' && q' + committed == received + rest
    ensures q + (put + committed) == (got + received) + rest
  {
    assert q + (put + committed) == (q + put) + committed;
    assert (got + q') + committed == got + (q' + committed);
    assert got + (received + rest) == (got + received) + rest;
  }

  // ----- A node and its message -----

  /** A message changes only while its node is with the sender that fills it. */
  lemma DataStays(p: Pool, m: State, x: Call, n: int)
    requires MqOk(p, m) && CallOk(p, m, x) && 0 <= n < |m.data| && !(x.Fill? && x.n == n)
    ensures |Called(p, m, x).data| == |m.data| && Called(p, m, x).data[n] == m.data[n]
  {
    hide WellFormed, Holds, Woken, Waiting, AllWoken, Step, Emptied;
    if x.Reset? {
      EmptiedKeeps(p, m.(s := AllWoken(p.c.P, m.s, p.c.w)));
    }
  }

  /** Its sender's and its receiver's hold on a node ends only by their own next step. */
  lemma HoldStays(p: Pool, m: State, x: Call, n: int)
    requires MqOk(p, m) && CallOk(p, m, x) && 0 <= n < |m.place| && m.place[n] != Free && m.place[n] != Queued
    requires !(x.Fill? && x.n == n) && !(x.Commit? && x.n == n) && !(x.Return? && x.n == n)
    ensures |Called(p, m, x).place| == |m.place| && Called(p, m, x).place[n] == m.place[n]
  {
    hide WellFormed, Woken, Waiting, AllWoken, Step;
    if x.Reset? {
      EmptiedApart(p, m.(s := AllWoken(p.c.P, m.s, p.c.w)), n);
    }
  }

  lemma {:induction false} EmptiedApart(p: Pool, m: State, n: int)
    requires NoneLost(p, m) && 0 <= n < |m.place| && m.place[n] != Queued
    ensures |Emptied(m).place| == |m.place| && Emptied(m).place[n] == m.place[n]
    decreases |m.queue|
  {
    hide Holds;
    if m.queue != [] {
      PlaceOfFirst(m.queue, m.place, Queued);
      HoldsPop(m.queue, m.place, Queued, Free);
      HoldsPush(m.free, m.place, Free, m.queue[0]);
      EmptiedApart(p, m.(free := [m.queue[0]] + m.free, queue := m.queue[1..], place := m.place[m.queue[0] := Free]),
        n);
    }
  }

  ghost predicate LetsBe(xs: seq<Call>, n: int) {
    forall i :: 0 <= i < |xs| ==>
      !(xs[i].Fill? && xs[i].n == n) && !(xs[i].Commit? && xs[i].n == n) && !(xs[i].Return? && xs[i].n == n)
  }

  /** Between filling and linking, and between unlinking and giving back, whatever the others do the
      node stays with its holder and its bytes stay what they were. */
  lemma {:induction false} Exclusive(p: Pool, m: State, xs: seq<Call>, n: int)
    requires MqOk(p, m) && RunOk(p, m, xs) && LetsBe(xs, n)
    requires 0 <= n < |m.place| && m.place[n] != Free && m.place[n] != Queued
    ensures n < |m.data| && n < |Run(p, m, xs).place| && n < |Run(p, m, xs).data|
    ensures Run(p, m, xs).place[n] == m.place[n] && Run(p, m, xs).data[n] == m.data[n]
    decreases |xs|
  {
    hide Fits, Holds, Called, CallOk;
    if xs != [] {
      HoldStays(p, m, xs[0], n);
      DataStays(p, m, xs[0], n);
      CalledKeeps(p, m, xs[0]);
      Exclusive(p, Called(p, m, xs[0]), xs[1..], n);
    }
  }

  /** A receiver whose buffer is no larger than what was sent reads a prefix of what was sent. */
  lemma PrefixReceived(before: seq<bv8>, sent: seq<bv8>, size: nat)
    requires |sent| <= |before|
    ensures |Overlay(before, sent)| == |before|
    ensures size <= |sent| ==> Overlay(before, sent)[..size] == sent[..size]
  {
  }

  /** A node with a message in it: filled, queued or being received. */
  ghost predicate Carries(m: State, n: int) {
    0 <= n < |m.place| && n < |m.data| && (m.place[n].Filled? || m.place[n] == Queued || m.place[n] == Taken)
  }

  /** The call gives the node back, or drops it from the queue. */
  ghost predicate Ends(m: State, x: Call, n: int) {
    (x.Return? && x.n == n) || (x.Reset? && 0 <= n < |m.place| && m.place[n] == Queued)
  }

  lemma StepCarries(p: Pool, m: State, x: Call, n: int)
    requires MqOk(p, m) && CallOk(p, m, x) && Carries(m, n) && !Ends(m, x, n)
    ensures Carries(Called(p, m, x), n) && Called(p, m, x).data[n] == m.data[n]
  {
    hide WellFormed, Woken, Waiting, AllWoken, Step, Emptied;
    assert !(x.Fill? && x.n == n);
    DataStays(p, m, x, n);
    if x.Reset? {
      EmptiedApart(p, m.(s := AllWoken(p.c.P, m.s, p.c.w)), n);
    }
  }

  /** No call of the run ends the message in node n. */
  ghost predicate NeverEnds(p: Pool, m: State, xs: seq<Call>, n: int)
    requires MqOk(p, m) && RunOk(p, m, xs)
    decreases |xs|
  {
    xs != [] ==> !Ends(m, xs[0], n) && (CalledKeeps(p, m, xs[0]); NeverEnds(p, Called(p, m, xs[0]), xs[1..], n))
  }

  lemma {:induction false} RunCarries(p: Pool, m: State, xs: seq<Call>, n: int)
    requires MqOk(p, m) && RunOk(p, m, xs) && Carries(m, n) && NeverEnds(p, m, xs, n)
    ensures Carries(Run(p, m, xs), n) && Run(p, m, xs).data[n] == m.data[n]
    decreases |xs|
  {
    hide Fits, Holds, Called, CallOk, Ends, MqOk;
    if xs != [] {
      StepCarries(p, m, xs[0], n);
      CalledKeeps(p, m, xs[0]);
      RunCarries(p, Called(p, m, xs[0]), xs[1..], n);
    }
  }

  /** The bytes received are the bytes sent.  From the moment a sender has filled a node, through linking,
      waiting in the queue and unlinking, until the receiver gives it back, and whatever all other senders
      and receivers do in between, the node holds the sender's bytes. */
  lemma Delivered(p: Pool, m: State, n: int, buffer: seq<bv8>, urgent: bool, xs: seq<Call>)
    requires MqOk(p, m) && At(m, n, Reserved) && |buffer| <= p.size
    requires MqOk(p, FillStep(m, n, buffer, urgent)) && RunOk(p, FillStep(m, n, buffer, urgent), xs)
    requires NeverEnds(p, FillStep(m, n, buffer, urgent), xs, n)
    ensures var e := Run(p, FillStep(m, n, buffer, urgent), xs);
            && Carries(e, n) && |e.data[n]| == p.size
            && forall k :: 0 <= k <= |buffer| ==> e.data[n][..k] == buffer[..k]
  {
    hide Fits, Holds, RunOk, NeverEnds, Run;
    var f := FillStep(m, n, buffer, urgent);
    RunCarries(p, f, xs, n);
    forall k | 0 <= k <= |buffer|
      ensures f.data[n][..k] == buffer[..k]
    {
      PrefixReceived(m.data[n], buffer, k);
    }
  }

  // ----- The linked lists -----

  /** Following `next` from list[0] visits the list and ends at NIL. */
  ghost predicate Chain(next: seq<int>, list: seq<int>) {
    forall i :: 0 <= i < |list| ==> 0 <= list[i] < |next| && next[list[i]] == Nth(list, i + 1)
  }

  function Nth(list: seq<int>, i: nat): int {
    if i < |list| then list[i] else NIL
  }

  function Last(list: seq<int>): int {
    if list == [] then NIL else list[|list| - 1]
  }

  lemma ChainPop(next: seq<int>, list: seq<int>)
    requires Chain(next, list) && list != []
    ensures Chain(next, list[1..]) && 0 <= list[0] < |next| && next[list[0]] == Nth(list[1..], 0)
  {
    var rest := list[1..];
    assert next[list[0]] == Nth(list, 1);
    forall i | 0 <= i < |rest|
      ensures 0 <= rest[i] < |next| && next[rest[i]] == Nth(rest, i + 1)
    {
      assert rest[i] == list[i + 1];
      assert next[list[i + 1]] == Nth(list, i + 2);
    }
  }

  lemma ChainPush(next: seq<int>, list: seq<int>, n: int)
    requires Chain(next, list) && 0 <= n < |next| && n !in list
    ensures Chain(next[n := Nth(list, 0)], [n] + list)
  {
    var l := [n] + list;
    var next' := next[n := Nth(list, 0)];
    forall i | 0 <= i < |l|
      ensures 0 <= l[i] < |next'| && next'[l[i]] == Nth(l, i + 1)
    {
      if i > 0 {
        assert l[i] == list[i - 1];
        assert next[list[i - 1]] == Nth(list, i);
      }
    }
  }

  lemma ChainAppend(next: seq<int>, list: seq<int>, n: int)
    requires Chain(next, list) && Distinct(list) && 0 <= n < |next| && n !in list && next[n] == NIL
    ensures list == [] ==> Chain(next, list + [n])
    ensures list != [] ==> 0 <= Last(list) < |next| && Chain(next[Last(list) := n], list + [n])
  {
    if list != [] {
      var k := |list| - 1;
      var next' := next[list[k] := n];
      var l := list + [n];
      forall i | 0 <= i < |l|
        ensures 0 <= l[i] < |next'| && next'[l[i]] == Nth(l, i + 1)
      {
        if i < k {
          assert next[list[i]] == Nth(list, i + 1);
        }
      }
    }
  }

  lemma ChainFrame(next: seq<int>, list: seq<int>, n: int, v: int)
    requires Chain(next, list) && 0 <= n < |next| && n !in list
    ensures Chain(next[n := v], list)
  {
    var next' := next[n := v];
    forall i | 0 <= i < |list|
      ensures 0 <= list[i] < |next'| && next'[list[i]] == Nth(list, i + 1)
    {
      assert next[list[i]] == Nth(list, i + 1);
    }
  }

  /** A filled node that is not urgent already ends the queue: its sender cleared its link. */
  ghost predicate Ended(next: seq<int>, place: seq<Place>) {
    |next| == |place| && forall n :: 0 <= n < |place| && place[n] == Filled(false) ==> next[n] == NIL
  }

  ghost predicate MqRep(next: seq<int>, data: seq<seq<bv8>>, head: int, tail: int, free: int, entry: nat, m: State) {
    && Chain(next, m.free) && Chain(next, m.queue)
    && Ended(next, m.place)
    && free == Nth(m.free, 0) && head == Nth(m.queue, 0) && tail == Last(m.queue)
    && entry == |m.queue|
    && data == m.data
  }

  lemma NotHeld(list: seq<int>, place: seq<Place>, p: Place, n: int)
    requires Holds(list, place, p) && 0 <= n < |place| && place[n] != p
    ensures n !in list && Distinct(list)
  {
  }

  lemma ReservePrepares(p: Pool, next: seq<int>, data: seq<seq<bv8>>, head: int, tail: int, free: int, entry: nat,
                        m: State)
    requires MqOk(p, m) && MqRep(next, data, head, tail, free, entry, m)
    ensures free == NIL <==> m.free == []
    ensures m.free != [] ==> 0 <= free < |next| && ReserveStep(m).1 == free
    ensures m.free != [] ==> MqRep(next, data, head, tail, next[free], entry, ReserveStep(m).0)
  {
    hide Fits, Holds, Chain;
    if m.free != [] {
      PlaceOfFirst(m.free, m.place, Free);
      ChainPop(next, m.free);
    }
  }

  lemma FillPrepares(p: Pool, next: seq<int>, data: seq<seq<bv8>>, head: int, tail: int, free: int, entry: nat,
                     m: State, n: int, buffer: seq<bv8>, urgent: bool)
    requires MqOk(p, m) && MqRep(next, data, head, tail, free, entry, m) && At(m, n, Reserved)
    ensures n < |next| == |data|
    ensures MqRep(if urgent then next else next[n := NIL], data[n := Overlay(data[n], buffer)], head, tail, free, entry,
                FillStep(m, n, buffer, urgent))
  {
    hide Fits, Holds, Chain, Overlay;
    NotHeld(m.free, m.place, Free, n);
    NotHeld(m.queue, m.place, Queued, n);
    ChainFrame(next, m.free, n, NIL);
    ChainFrame(next, m.queue, n, NIL);
  }

  /** The links after a commit. */
  function Relinked(next: seq<int>, urgent: bool, head: int, tail: int, n: int): seq<int>
    requires 0 <= n < |next| && (tail == NIL || 0 <= tail < |next|)
  {
    if urgent then next[n := head] else if tail != NIL then next[tail := n] else next
  }

  ghost function Appended(m: State, n: int): State
    requires 0 <= n < |m.place| && m.place[n].Filled?
  {
    m.(queue := if m.place[n].urgent then [n] + m.queue else m.queue + [n], place := m.place[n := Queued])
  }

  lemma TailInRange(next: seq<int>, list: seq<int>)
    requires Chain(next, list)
    ensures list == [] <==> Last(list) == NIL
    ensures list == [] <==> Nth(list, 0) == NIL
    ensures list != [] ==> 0 <= Last(list) < |next| && Last(list) in list && 0 <= Nth(list, 0) < |next|
  {
  }

  lemma CommitPrepares(p: Pool, next: seq<int>, data: seq<seq<bv8>>, head: int, tail: int, free: int, entry: nat,
                       m: State, n: int)
    requires MqOk(p, m) && MqRep(next, data, head, tail, free, entry, m) && 0 <= n < |m.place| && m.place[n].Filled?
    ensures n < |next| && (tail == NIL || 0 <= tail < |next|)
    ensures MqRep(Relinked(next, m.place[n].urgent, head, tail, n), data,
                if m.place[n].urgent || head == NIL then n else head,
                if !m.place[n].urgent || tail == NIL then n else tail,
                free, entry + 1, Appended(m, n))
  {
    hide Fits, Holds, Chain;
    NotHeld(m.free, m.place, Free, n);
    NotHeld(m.queue, m.place, Queued, n);
    TailInRange(next, m.queue);
    if m.place[n].urgent {
      ChainPush(next, m.queue, n);
      ChainFrame(next, m.free, n, head);
    } else {
      ChainAppend(next, m.queue, n);
      if m.queue != [] {
        PlaceOfLast(m.queue, m.place, Queued);
        NotHeld(m.free, m.place, Free, tail);
        ChainFrame(next, m.free, tail, n);
      }
    }
  }

  lemma PlaceOfLast(list: seq<int>, place: seq<Place>, p: Place)
    requires Holds(list, place, p) && list != []
    ensures 0 <= Last(list) < |place| && place[Last(list)] == p
  {
  }

  lemma TakePrepares(p: Pool, next: seq<int>, data: seq<seq<bv8>>, head: int, tail: int, free: int, entry: nat,
                     m: State)
    requires MqOk(p, m) && MqRep(next, data, head, tail, free, entry, m) && m.queue != []
    ensures 0 <= head < |next| && head == m.queue[0] && head < |m.place|
    ensures MqRep(next, data, next[head], if tail == head then NIL else tail, free, entry - 1,
                m.(queue := m.queue[1..], place := m.place[head := Taken]))
  {
    hide Fits, Holds, Chain;
    PlaceOfFirst(m.queue, m.place, Queued);
    ChainPop(next, m.queue);
    LastOfRest(m.queue, m.place);
  }

  lemma LastOfRest(list: seq<int>, place: seq<Place>)
    requires Holds(list, place, Queued) && list != []
    ensures Last(list[1..]) == if Last(list) == list[0] then NIL else Last(list)
  {
  }

  lemma GivePrepares(p: Pool, next: seq<int>, data: seq<seq<bv8>>, head: int, tail: int, free: int, entry: nat,
                     m: State, n: int)
    requires NoneLost(p, m) && MqRep(next, data, head, tail, free, entry, m) && At(m, n, Taken)
    ensures n < |next|
    ensures MqRep(next[n := free], data, head, tail, n, entry, ReturnStep(m, n))
  {
    hide Holds, Chain;
    NotHeld(m.free, m.place, Free, n);
    NotHeld(m.queue, m.place, Queued, n);
    ChainPush(next, m.free, n);
    ChainFrame(next, m.queue, n, free);
  }

  /** Moving one queued node to the free list is taking it and giving it back. */
  lemma MovePrepares(p: Pool, next: seq<int>, data: seq<seq<bv8>>, head: int, tail: int, free: int, entry: nat,
                     m: State)
    requires NoneLost(p, m) && MqRep(next, data, head, tail, free, entry, m) && m.queue != []
    ensures 0 <= head < |next| && head == m.queue[0] && head < |m.place|
    ensures var m' := m.(free := [head] + m.free, queue := m.queue[1..], place := m.place[head := Free]);
            && MqRep(next[head := free], data, next[head], if tail == head then NIL else tail, head, entry - 1, m')
            && NoneLost(p, m') && Emptied(m) == Emptied(m')
  {
    hide Holds, Chain, Emptied;
    PlaceOfFirst(m.queue, m.place, Queued);
    ChainPop(next, m.queue);
    LastOfRest(m.queue, m.place);
    var mid := m.(queue := m.queue[1..], place := m.place[head := Taken]);
    HoldsPop(m.queue, m.place, Queued, Taken);
    HoldsElse(m.free, m.place, Free, head, Taken);
    GivePrepares(p, next, data, next[head], if tail == head then NIL else tail, free, entry - 1, mid, head);
    HoldsPush(m.free, mid.place, Free, head);
    HoldsElse(mid.queue, mid.place, Queued, head, Free);
    assert m.place[head := Taken][head := Free] == m.place[head := Free];
    EmptiedOnce(m);
  }

  lemma EmptiedOnce(m: State)
    requires m.queue != [] && 0 <= m.queue[0] < |m.place|
    ensures Emptied(m)
            == Emptied(m.(free := [m.queue[0]] + m.free, queue := m.queue[1..], place := m.place[m.queue[0] := Free]))
  {
  }

  class RtMessageQueue {
    const p: Pool
    const kernel: Kernel
    const next: array<int>
    const data: array<seq<bv8>>
    var head: int
    var tail: int
    var free: int
    var entry: nat
    ghost var m: State

    ghost predicate Matches()
      reads this, next, data
    {
      MqRep(next[..], data[..], head, tail, free, entry, m)
    }

    ghost predicate Valid()
      reads this, kernel, next, data
    {
      kernel.Valid() && kernel.P == p.c.P && MqOk(p, m) && m.s == kernel.abs && Matches()
    }

    /** rt_mq_init, given the pool. */
    constructor (kernel: Kernel, p: Pool)
      requires kernel.Valid() && kernel.P == p.c.P && p.c.P <= p.c.w < |kernel.abs.lists|
               && kernel.abs.lists[p.c.w] == []
      ensures Valid() && fresh(next) && fresh(data) && this.kernel == kernel && this.p == p
      ensures m.queue == [] && m.s == kernel.abs && |m.free| == p.nodes
    {
      hide Scheduler.Rep, WellFormed, MqOk, MqRep;
      this.kernel := kernel;
      this.p := p;
      next := new int[p.nodes];
      data := new seq<bv8>[p.nodes](_ => seq(p.size, _ => 0));
      head := NIL;
      tail := NIL;
      free := NIL;
      entry := 0;
      m := State(seq(p.nodes, i requires 0 <= i < p.nodes => p.nodes - 1 - i), [], seq(p.nodes, _ => Free),
                 seq(p.nodes, _ => seq(p.size, _ => 0)), kernel.abs, {});
      new;
      LinkPool();
      assert data[..] == m.data;
      InitialPool(p, next[..], m);
    }

    /** The loop of rt_mq_init: every node goes on the free list. */
    method LinkPool()
      requires next.Length == p.nodes && free == NIL
      modifies this`free, next
      ensures free == p.nodes - 1 && forall k :: 0 <= k < p.nodes ==> next[k] == k - 1
    {
      var i := 0;
      while i < p.nodes
        invariant 0 <= i <= p.nodes && free == i - 1
        invariant forall k :: 0 <= k < i ==> next[k] == k - 1
      {
        next[i] := free;
        free := i;
        i := i + 1;
      }
    }

    /** The first critical section of rt_mq_send and rt_mq_urgent. */
    method Reserve() returns (n: int)
      requires Valid()
      modifies this
      ensures Valid() && (m, n) == old(ReserveStep(m))
    {
      hide Fits, Scheduler.Rep, WellFormed, Holds, Chain;
      ReserveKeeps(p, m);
      ReservePrepares(p, next[..], data[..], head, tail, free, entry, m);
      n := free;
      if n != NIL {
        free := next[n];
        m := ReserveStep(m).0;
      }
    }

    /** Between them, with interrupts enabled: rt_mq_send also ends the chain at its node. */
    method Fill(n: int, buffer: seq<bv8>, urgent: bool)
      requires Valid() && At(m, n, Reserved) && |buffer| <= p.size
      modifies this`m, next, data
      ensures Valid() && old(At(m, n, Reserved)) && m == old(FillStep(m, n, buffer, urgent))
    {
      hide Fits, Scheduler.Rep, WellFormed, Holds, Chain, Overlay;
      FillKeeps(p, m, n, buffer, urgent);
      FillPrepares(p, next[..], data[..], head, tail, free, entry, m, n, buffer, urgent);
      if !urgent {
        next[n] := NIL;
      }
      data[n] := Overlay(data[n], buffer);
      m := FillStep(m, n, buffer, urgent);
    }

    /** The second critical section of rt_mq_send. */
    method Commit(n: int)
      requires Valid() && 0 <= n < |m.place| && m.place[n] == Filled(false)
      modifies this, kernel, next
      ensures Valid() && old(Fits(p.c, m.s)) && m == old(CommitStep(p, m, n))
    {
      hide Scheduler.Rep, WellFormed, Holds, Chain, Woken;
      CommitKeeps(p, m, n);
      CommitPrepares(p, next[..], data[..], head, tail, free, entry, m, n);
      if tail != NIL {
        next[tail] := n;
      }
      tail := n;
      if head == NIL {
        head := n;
      }
      entry := entry + 1;
      m := Appended(m, n);
      Resume();
    }

    /** The second critical section of rt_mq_urgent. */
    method CommitUrgent(n: int)
      requires Valid() && 0 <= n < |m.place| && m.place[n] == Filled(true)
      modifies this, kernel, next
      ensures Valid() && old(Fits(p.c, m.s)) && m == old(CommitStep(p, m, n))
    {
      hide Scheduler.Rep, WellFormed, Holds, Chain, Woken;
      CommitKeeps(p, m, n);
      CommitPrepares(p, next[..], data[..], head, tail, free, entry, m, n);
      next[n] := head;
      head := n;
      if tail == NIL {
        tail := n;
      }
      entry := entry + 1;
      m := Appended(m, n);
      Resume();
    }

    /** The end of both: resume the first waiting receiver. */
    method Resume()
      requires kernel.Valid() && kernel.P == p.c.P && Fits(p.c, m.s) && m.s == kernel.abs && Matches()
      modifies this`m, kernel
      ensures kernel.Valid() && old(Fits(p.c, m.s)) && m == old(Rung(p, m)) && m.s == kernel.abs && Matches()
    {
      hide Scheduler.Rep, WellFormed, Chain, Woken;
      var some := kernel.HasWaiters(p.c.w);
      if some {
        ghost var first := kernel.abs.lists[p.c.w][0];
        kernel.ListResume(p.c.w);
        m := m.(s := kernel.abs, recv := m.recv + {first});
      }
    }

    /** The first critical section of rt_mq_recv. */
    method Take(timeout: int, who: Caller) returns (outcome: Outcome)
      requires Valid() && MayTake(m, timeout, who)
      modifies this, kernel
      ensures Valid() && old(Fits(p.c, m.s) && MayTake(m, timeout, who))
      ensures (m, outcome) == old(TakeStep(p, m, timeout, who))
    {
      hide Scheduler.Rep, WellFormed, Holds, Chain, Waiting;
      TakeKeeps(p, m, timeout, who);
      var t := kernel.Self();
      if entry == 0 {
        m := m.(recv := Looked(m.recv, m.s, who));
        if timeout == 0 {
          if who == Again {
            kernel.SetError(t, ETIMEOUT);
            m := m.(s := kernel.abs);
          }
          return Refused;
        }
        CleanKeeps(p.c, kernel.abs);
        kernel.SetError(t, EOK);
        kernel.ListSuspend(p.c.w, t, p.c.byPriority);
        m := m.(s := kernel.abs);
        return Waits;
      }
      TakePrepares(p, next[..], data[..], head, tail, free, entry, m);
      var n := head;
      head := next[n];
      if tail == n {
        tail := NIL;
      }
      entry := entry - 1;
      m := TakeStep(p, m, timeout, who).0;
      outcome := Got(n);
    }

    /** The copy of rt_mq_recv, with interrupts enabled. */
    method CopyOut(n: int, size: nat) returns (buffer: seq<bv8>)
      requires Valid() && At(m, n, Taken)
      ensures buffer == m.data[n][..if size > p.size then p.size else size]
    {
      hide Scheduler.Rep, WellFormed, Holds, Chain;
      assert |m.data[n]| == p.size;
      buffer := data[n][..if size > p.size then p.size else size];
    }

    /** The second critical section of rt_mq_recv. */
    method Return(n: int)
      requires Valid() && At(m, n, Taken)
      modifies this, next
      ensures Valid() && old(At(m, n, Taken)) && m == old(ReturnStep(m, n))
    {
      hide Scheduler.Rep, WellFormed, Holds, Chain;
      ReturnKeeps(p, m, n);
      GivePrepares(p, next[..], data[..], head, tail, free, entry, m, n);
      next[n] := free;
      free := n;
      m := ReturnStep(m, n);
    }

    /** rt_mq_control with RT_IPC_CMD_RESET, up to its rt_schedule. */
    method Reset()
      requires Valid()
      modifies this, kernel, next
      ensures Valid() && old(Fits(p.c, m.s)) && m == old(ResetStep(p, m))
    {
      hide Scheduler.Rep, WellFormed, Holds, Chain, AllWoken, Emptied;
      ResetKeeps(p, m);
      kernel.ListResumeAll(p.c.w);
      m := m.(s := kernel.abs);
      EmptyQueue();
      entry := 0;
    }

    /** The loop of the reset. */
    method EmptyQueue()
      requires Matches() && NoneLost(p, m)
      modifies this`m, this`head, this`tail, this`free, this`entry, next
      ensures Matches() && m == old(Emptied(m))
    {
      hide Holds, Chain, Emptied;
      while head != NIL
        invariant Matches() && NoneLost(p, m) && Emptied(m) == old(Emptied(m))
        decreases |m.queue|
      {
        HeadIs(next[..], m.queue);
        MovePrepares(p, next[..], data[..], head, tail, free, entry, m);
        var n := head;
        head := next[n];
        if tail == n {
          tail := NIL;
        }
        next[n] := free;
        free := n;
        entry := entry - 1;
        m := m.(free := [n] + m.free, queue := m.queue[1..], place := m.place[n := Free]);
      }
      HeadIs(next[..], m.queue);
      EmptiedNone(m);
    }
  }

  lemma HeadIs(next: seq<int>, list: seq<int>)
    requires Chain(next, list)
    ensures Nth(list, 0) == NIL <==> list == []
  {
  }

  lemma EmptiedNone(m: State)
    requires m.queue == []
    ensures Emptied(m) == m
  {
  }

  lemma InitialPool(p: Pool, next: seq<int>, m: State)
    requires |next| == p.nodes && forall i :: 0 <= i < p.nodes ==> next[i] == i - 1
    requires Fits(p.c, m.s) && m.s.lists[p.c.w] == []
    requires m == State(seq(p.nodes, i requires 0 <= i < p.nodes => p.nodes - 1 - i), [], seq(p.nodes, _ => Free),
                        seq(p.nodes, _ => seq(p.size, _ => 0)), m.s, {})
    ensures MqOk(p, m) && MqRep(next, m.data, NIL, NIL, p.nodes - 1, 0, m)
  {
    hide Fits;
    forall n | 0 <= n < p.nodes
      ensures n in m.free
    {
      assert m.free[p.nodes - 1 - n] == n;
    }
  }
}
