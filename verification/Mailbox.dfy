/** rt_mb_send_wait, rt_mb_recv and rt_mb_control: a ring buffer with waiting receivers and waiting senders.

  One step is one critical section: from the entry or from waking up, to the exit or to the suspension.
 */
module Mailbox {
  import opened RtList
  import opened Threads
  import opened SchedSpec
  import opened SchedEffects
  import opened Scheduler
  import opened Ipc

  /** Receivers wait on list w, senders on list ws. */
  datatype Box = Box(P: nat, w: nat, ws: nat, byPriority: bool, size: nat) {
    function R(): Config { Config(P, w, byPriority) }
    function S(): Config { Config(P, ws, byPriority) }
  }

  /** `recv` and `send` are the threads that were resumed by the other side and have not yet looked again. */
  datatype State = State(queue: seq<int>, s: Sched, recv: set<int>, send: set<int>)

  datatype Outcome = Done(value: int) | Refused | Waits

  ghost predicate Shaped(b: Box, s: Sched) {
    WellFormed(b.P, s) && b.P <= b.w < |s.lists| && b.P <= b.ws < |s.lists| && b.w != b.ws
  }

  /** No wakeup is lost: if receivers sleep, every mail has a resumed receiver on its way to it; if
      senders sleep, so has every free slot. */
  ghost predicate MailOk(b: Box, m: State) {
    && Shaped(b, m.s)
    && b.size > 0 && |m.queue| <= b.size
    && (m.s.lists[b.w] != [] ==> |m.queue| <= |m.recv|)
    && (m.s.lists[b.ws] != [] ==> b.size - |m.queue| <= |m.send|)
    && Apart(m.s.lists[b.w], m.recv) && Apart(m.s.lists[b.ws], m.send)
  }

  ghost predicate Apart(list: seq<int>, pending: set<int>) {
    forall i :: 0 <= i < |list| ==> list[i] !in pending
  }

  // ----- The two operations -----

  /** Only a call that waits needs a running caller. */
  ghost predicate MaySend(b: Box, m: State, timeout: int, who: Caller) {
    |m.queue| != b.size || timeout == 0 || (Running(m.s) && who != Handler)
  }

  ghost predicate MayReceive(m: State, timeout: int, who: Caller) {
    m.queue != [] || (timeout == 0 && who != Again) || (Running(m.s) && who != Handler)
  }

  /** A sender's critical section. */
  ghost function SendStep(b: Box, m: State, value: int, timeout: int, who: Caller): (r: (State, Outcome))
    requires Shaped(b, m.s) && MaySend(b, m, timeout, who)
  {
    var t := m.s.current;
    var m0 := m.(send := Looked(m.send, m.s, who));
    if |m.queue| == b.size then
      if timeout == 0 then (m0, Refused)
      else
        CleanKeeps(b.S(), m.s);
        (m0.(s := Waiting(b.P, Cleaned(m.s), b.ws, t, b.byPriority)), Waits)
    else (Rung(b, m0.(queue := m.queue + [value])), Done(value))
  }

  /** A sender that put a mail resumes the first waiting receiver. */
  ghost function Rung(b: Box, m: State): State
    requires Shaped(b, m.s)
  {
    if m.s.lists[b.w] != [] then m.(s := Woken(b.P, m.s, b.w), recv := m.recv + {m.s.lists[b.w][0]}) else m
  }

  /** A receiver's critical section. */
  ghost function RecvStep(b: Box, m: State, timeout: int, who: Caller): (r: (State, Outcome))
    requires Shaped(b, m.s) && MayReceive(m, timeout, who)
  {
    var t := m.s.current;
    var m0 := m.(recv := Looked(m.recv, m.s, who));
    if m.queue == [] then
      if timeout == 0 then
        (if who == Again then m0.(s := With(m.s, t, m.s.thread[t].(error := ETIMEOUT))) else m0, Refused)
      else
        CleanKeeps(b.R(), m.s);
        (m0.(s := Waiting(b.P, Cleaned(m.s), b.w, t, b.byPriority)), Waits)
    else (Vacated(b, m0.(queue := m.queue[1..])), Done(m.queue[0]))
  }

  /** A receiver that took a mail resumes the first waiting sender. */
  ghost function Vacated(b: Box, m: State): State
    requires Shaped(b, m.s)
  {
    if m.s.lists[b.ws] != [] then m.(s := Woken(b.P, m.s, b.ws), send := m.send + {m.s.lists[b.ws][0]}) else m
  }

  /** RT_IPC_CMD_RESET. */
  ghost function ResetStep(b: Box, m: State): State
    requires Shaped(b, m.s)
  {
    AllWokenEmpties(b.P, m.s, b.w);
    m.(queue := [], s := AllWoken(b.P, AllWoken(b.P, m.s, b.w), b.ws))
  }

  // ----- The invariant -----

  lemma SmallerBy<T>(a: set<T>, x: T)
    ensures |a| - 1 <= |a - {x}| <= |a|
    ensures x !in a ==> |a + {x}| == |a| + 1
  {
    if x !in a {
      assert a - {x} == a;
    }
  }

  lemma ApartLess(list: seq<int>, pending: set<int>, x: int)
    requires Apart(list, pending)
    ensures Apart(list, pending - {x})
  {
  }

  lemma ApartRest(list: seq<int>, pending: set<int>)
    requires Apart(list, pending) && Distinct(list) && list != []
    ensures Apart(list[1..], pending + {list[0]}) && list[0] !in pending
  {
  }

  lemma ApartThins(list: seq<int>, list': seq<int>, pending: set<int>)
    requires Apart(list, pending) && forall x :: x in list' ==> x in list
    ensures Apart(list', pending)
  {
    forall i | 0 <= i < |list'|
      ensures list'[i] !in pending
    {
      var x := list'[i];
      assert x in list';
      assert x in list;
      var j :| 0 <= j < |list| && list[j] == x;
    }
  }

  /** Suspending the caller on list v: it joins v, and every other wait list keeps its threads. */
  lemma Joins(b: Box, s: Sched, v: nat, other: nat)
    requires Shaped(b, s) && Running(s) && b.P <= v < |s.lists| && b.P <= other < |s.lists| && v != other
    ensures Shaped(b, Cleaned(s)) && Running(Cleaned(s))
    ensures var s' := Waiting(b.P, Cleaned(s), v, s.current, b.byPriority);
            && Shaped(b, s') && |s'.lists| == |s.lists|
            && (forall x :: x in s'.lists[v] <==> x in s.lists[v] || x == s.current)
            && s'.lists[other] == s.lists[other]
  {
    hide Homes, ThreadShape, ThreadOk, Waiting;
    var c := Config(b.P, v, b.byPriority);
    CleanKeeps(c, s);
    WaitingKeeps(b.P, Cleaned(s), v, s.current, b.byPriority);
    Joined(c, Cleaned(s));
    JoinedElse(c, Cleaned(s), other);
  }

  lemma ApartJoins(list: seq<int>, list': seq<int>, pending: set<int>, t: int)
    requires Apart(list, pending) && forall x :: x in list' <==> x in list || x == t
    ensures Apart(list', pending - {t})
  {
    forall i | 0 <= i < |list'|
      ensures list'[i] !in pending - {t}
    {
      assert list'[i] in list';
      if list'[i] != t {
        var j :| 0 <= j < |list| && list[j] == list'[i];
      }
    }
  }

  /** Waking the first thread of v leaves the other list as it was. */
  lemma Wakes(b: Box, s: Sched, v: nat, other: nat)
    requires Shaped(b, s) && b.P <= v < |s.lists| && b.P <= other < |s.lists| && v != other && s.lists[v] != []
    ensures Shaped(b, Woken(b.P, s, v)) && |Woken(b.P, s, v).lists| == |s.lists|
    ensures Woken(b.P, s, v).lists[v] == s.lists[v][1..] && Woken(b.P, s, v).lists[other] == s.lists[other]
    ensures Distinct(s.lists[v])
  {
    hide Homes, ThreadShape, ThreadOk, Woken;
    FirstWaits(b.P, s, v);
    WokenKeeps(b.P, s, v);
    WokenElsewhere(b.P, s, v, other);
  }

  lemma LookedKeeps(list: seq<int>, pending: set<int>, s: Sched, who: Caller)
    requires Apart(list, pending)
    ensures Apart(list, Looked(pending, s, who)) && |pending| - 1 <= |Looked(pending, s, who)| <= |pending|
  {
    hide Apart;
    ApartLess(list, pending, s.current);
    SmallerBy(pending, s.current);
  }

  lemma SendKeeps(b: Box, m: State, value: int, timeout: int, who: Caller)
    requires MailOk(b, m) && MaySend(b, m, timeout, who)
    ensures MailOk(b, SendStep(b, m, value, timeout, who).0)
  {
    hide WellFormed, Waiting, Woken, Apart, Distinct, Running, Looked;
    LookedKeeps(m.s.lists[b.ws], m.send, m.s, who);
    if |m.queue| == b.size {
      if timeout != 0 {
        Sleeps(b, m.s, b.ws, b.w, m.send, who);
      }
    } else if m.s.lists[b.w] != [] {
      Wakes(b, m.s, b.w, b.ws);
      ApartRest(m.s.lists[b.w], m.recv);
      SmallerBy(m.recv, m.s.lists[b.w][0]);
    }
  }

  /** The caller goes to sleep on list v. */
  lemma Sleeps(b: Box, s: Sched, v: nat, other: nat, pending: set<int>, who: Caller)
    requires Shaped(b, s) && Running(s) && b.P <= v < |s.lists| && b.P <= other < |s.lists| && v != other
    requires Apart(s.lists[v], pending) && who != Handler
    ensures Shaped(b, Cleaned(s)) && Running(Cleaned(s)) && Fits(Config(b.P, v, b.byPriority), Cleaned(s))
    ensures var s' := Waiting(b.P, Cleaned(s), v, s.current, b.byPriority);
            && Shaped(b, s') && |s'.lists| == |s.lists| && s'.lists[other] == s.lists[other]
            && Apart(s'.lists[v], Looked(pending, s, who))
  {
    hide WellFormed, Waiting, Apart;
    CleanKeeps(Config(b.P, v, b.byPriority), s);
    Joins(b, s, v, other);
    ApartJoins(s.lists[v], Waiting(b.P, Cleaned(s), v, s.current, b.byPriority).lists[v], pending, s.current);
  }

  lemma RecvKeeps(b: Box, m: State, timeout: int, who: Caller)
    requires MailOk(b, m) && MayReceive(m, timeout, who)
    ensures MailOk(b, RecvStep(b, m, timeout, who).0)
  {
    hide WellFormed, Waiting, Woken, Apart, Distinct, Looked;
    LookedKeeps(m.s.lists[b.w], m.recv, m.s, who);
    if m.queue == [] {
      if timeout != 0 {
        Sleeps(b, m.s, b.w, b.ws, m.recv, who);
      } else if who == Again {
        ErrorKeeps(b.P, m.s, m.s.current, ETIMEOUT);
      }
    } else if m.s.lists[b.ws] != [] {
      Wakes(b, m.s, b.ws, b.w);
      ApartRest(m.s.lists[b.ws], m.send);
      SmallerBy(m.send, m.s.lists[b.ws][0]);
    }
  }

  lemma ResetKeeps(b: Box, m: State)
    requires MailOk(b, m)
    ensures MailOk(b, ResetStep(b, m))
  {
    hide WellFormed, AllWoken;
    AllWokenEmpties(b.P, m.s, b.w);
    var s := AllWoken(b.P, m.s, b.w);
    AllWokenEmpties(b.P, s, b.ws);
    AllWokenThins(b.P, s, b.ws, b.w);
  }

  /** A mail goes to the end of the box exactly when there is room. */
  lemma SendQueue(b: Box, m: State, value: int, timeout: int, who: Caller)
    requires MailOk(b, m) && MaySend(b, m, timeout, who)
    ensures SendStep(b, m, value, timeout, who).1.Done? <==> |m.queue| < b.size
    ensures SendStep(b, m, value, timeout, who).0.queue == if |m.queue| < b.size then m.queue + [value] else m.queue
  {
    hide WellFormed, Waiting, Woken, Apart;
  }

  /** The first mail is received exactly when there is one. */
  lemma RecvQueue(b: Box, m: State, timeout: int, who: Caller)
    requires MailOk(b, m) && MayReceive(m, timeout, who)
    ensures RecvStep(b, m, timeout, who).1.Done? <==> m.queue != []
    ensures m.queue != [] ==> [RecvStep(b, m, timeout, who).1.value] + RecvStep(b, m, timeout, who).0.queue == m.queue
    ensures m.queue == [] ==> RecvStep(b, m, timeout, who).0.queue == []
  {
    hide WellFormed, Waiting, Woken, Apart;
  }

  // ----- What a caller gets -----

  /** A send is done exactly when there is room, is refused exactly when there is none and it does not wait, and
      otherwise sleeps among the senders.  A mail that is put wakes the first receiver. */
  lemma SendOutcome(b: Box, m: State, value: int, timeout: int, who: Caller)
    requires MailOk(b, m) && MaySend(b, m, timeout, who)
    ensures var r := SendStep(b, m, value, timeout, who);
            && (r.1 == Done(value) <==> |m.queue| < b.size)
            && (r.1 == Refused <==> |m.queue| == b.size && timeout == 0)
            && (r.1 == Waits <==> |m.queue| == b.size && timeout != 0)
            && r.0.queue == m.queue + (if |m.queue| < b.size then [value] else [])
            && (r.1 == Refused ==> r.0.s == m.s)
            && (r.1 == Waits ==> CallerSleeps(b.S(), m.s, r.0.s))
            && (r.1.Done? ==> if m.s.lists[b.w] == [] then r.0.s == m.s else FirstWakes(m.s, r.0.s, b.w))
  {
    hide WellFormed, Waiting, Woken, Apart, CallerSleeps, FirstWakes, Running;
    if |m.queue| == b.size {
      if timeout != 0 {
        CallerWaits(b.S(), m.s);
      }
    } else if m.s.lists[b.w] != [] {
      WakeDoes(b.P, m.s, b.w);
    }
  }

  /** A receive gets the first mail exactly when there is one, is refused exactly when there is none and it does not
      wait, and otherwise sleeps among the receivers.  A mail that is taken wakes the first sender. */
  lemma RecvOutcome(b: Box, m: State, timeout: int, who: Caller)
    requires MailOk(b, m) && MayReceive(m, timeout, who)
    ensures var r := RecvStep(b, m, timeout, who);
            && (r.1.Done? <==> m.queue != [])
            && (r.1 == Refused <==> m.queue == [] && timeout == 0)
            && (r.1 == Waits <==> m.queue == [] && timeout != 0)
            && m.queue == (if r.1.Done? then [r.1.value] else []) + r.0.queue
            && (r.1 == Refused ==> if who == Again then OnlyError(m.s, r.0.s, ETIMEOUT) else r.0.s == m.s)
            && (r.1 == Waits ==> CallerSleeps(b.R(), m.s, r.0.s))
            && (r.1.Done? ==> if m.s.lists[b.ws] == [] then r.0.s == m.s else FirstWakes(m.s, r.0.s, b.ws))
  {
    hide WellFormed, Waiting, Woken, Apart, CallerSleeps, FirstWakes;
    if m.queue == [] {
      if timeout != 0 {
        CallerWaits(b.R(), m.s);
      }
    } else if m.s.lists[b.ws] != [] {
      WakeDoes(b.P, m.s, b.ws);
    }
  }

  /** A reset empties the box and wakes everybody with an error: the receivers, then the senders. */
  lemma ResetOutcome(b: Box, m: State)
    requires MailOk(b, m)
    ensures var m' := ResetStep(b, m);
            m'.queue == [] && exists s :: AllWake(m.s, s, b.w) && AllWake(s, m'.s, b.ws)
  {
    hide WellFormed, AllWoken, AllWake, Apart;
    AllWokenEmpties(b.P, m.s, b.w);
    AllWakeDoes(b.P, m.s, b.w);
    AllWakeDoes(b.P, AllWoken(b.P, m.s, b.w), b.ws);
  }

  // ----- Runs -----

  datatype Call = Send(value: int, timeout: int, who: Caller) | Recv(timeout: int, who: Caller) | Reset | Other(o: Op)

  ghost predicate CallOk(b: Box, m: State, x: Call)
    requires MailOk(b, m)
  {
    match x
    case Send(_, timeout, who) => MaySend(b, m, timeout, who)
    case Recv(timeout, who) => MayReceive(m, timeout, who)
    case Reset => true
    case Other(o) => OpOk(b.P, m.s, o) && !(o.Wait? && (o.w == b.w || o.w == b.ws))
  }

  ghost function Called(b: Box, m: State, x: Call): State
    requires MailOk(b, m) && CallOk(b, m, x)
  {
    match x
    case Send(value, timeout, who) => SendStep(b, m, value, timeout, who).0
    case Recv(timeout, who) => RecvStep(b, m, timeout, who).0
    case Reset => ResetStep(b, m)
    case Other(o) => m.(s := Step(b.P, m.s, o))
  }

  lemma CalledKeeps(b: Box, m: State, x: Call)
    requires MailOk(b, m) && CallOk(b, m, x)
    ensures MailOk(b, Called(b, m, x))
  {
    hide WellFormed, SendStep, RecvStep, ResetStep, Step, Apart, OpOk;
    match x
    case Send(value, timeout, who) => SendKeeps(b, m, value, timeout, who);
    case Recv(timeout, who) => RecvKeeps(b, m, timeout, who);
    case Reset => ResetKeeps(b, m);
    case Other(o) => OtherKeeps(b, m, o);
  }

  lemma OtherKeeps(b: Box, m: State, o: Op)
    requires MailOk(b, m) && OpOk(b.P, m.s, o) && !(o.Wait? && (o.w == b.w || o.w == b.ws))
    ensures MailOk(b, m.(s := Step(b.P, m.s, o)))
  {
    hide WellFormed, Step, Apart;
    StepKeeps(b.P, m.s, o);
    StepThins(b.P, m.s, o, b.w);
    StepThins(b.P, m.s, o, b.ws);
    ApartThins(m.s.lists[b.w], Step(b.P, m.s, o).lists[b.w], m.recv);
    ApartThins(m.s.lists[b.ws], Step(b.P, m.s, o).lists[b.ws], m.send);
  }

  ghost predicate RunOk(b: Box, m: State, xs: seq<Call>)
    requires MailOk(b, m)
    decreases |xs|
  {
    xs != [] ==> CallOk(b, m, xs[0]) && (CalledKeeps(b, m, xs[0]); RunOk(b, Called(b, m, xs[0]), xs[1..]))
  }

  ghost function Run(b: Box, m: State, xs: seq<Call>): State
    requires MailOk(b, m) && RunOk(b, m, xs)
    decreases |xs|
  {
    if xs == [] then m else CalledKeeps(b, m, xs[0]); Run(b, Called(b, m, xs[0]), xs[1..])
  }

  /** In every reachable state: receivers sleep with mail in the box, or senders with room in it, only
      while enough of their kind have been resumed and have not looked again. */
  lemma {:induction false} NoLostWakeup(b: Box, m: State, xs: seq<Call>)
    requires MailOk(b, m) && RunOk(b, m, xs)
    ensures MailOk(b, Run(b, m, xs))
    ensures var e := Run(b, m, xs);
            && (e.s.lists[b.w] != [] && e.recv == {} ==> e.queue == [])
            && (e.s.lists[b.ws] != [] && e.send == {} ==> |e.queue| == b.size)
    decreases |xs|
  {
    hide WellFormed, Called, Apart;
    if xs != [] {
      CalledKeeps(b, m, xs[0]);
      NoLostWakeup(b, Called(b, m, xs[0]), xs[1..]);
    }
  }

  // ----- First in, first out -----

  /** The mails a call puts in the box. */
  ghost function Puts(b: Box, m: State, x: Call): seq<int>
    requires MailOk(b, m) && CallOk(b, m, x)
  {
    if x.Send? && SendStep(b, m, x.value, x.timeout, x.who).1.Done? then [x.value] else []
  }

  /** The mails a call hands to its receiver. */
  ghost function Gets(b: Box, m: State, x: Call): seq<int>
    requires MailOk(b, m) && CallOk(b, m, x)
  {
    if x.Recv? && RecvStep(b, m, x.timeout, x.who).1.Done? then [RecvStep(b, m, x.timeout, x.who).1.value] else []
  }

  lemma CalledFifo(b: Box, m: State, x: Call)
    requires MailOk(b, m) && CallOk(b, m, x)
    ensures m.queue + Puts(b, m, x) == Gets(b, m, x) + (if x.Reset? then m.queue else []) + Called(b, m, x).queue
  {
    hide WellFormed, Waiting, Woken, Apart, Step, AllWoken;
    match x
    case Send(value, timeout, who) => SendQueue(b, m, value, timeout, who);
    case Recv(timeout, who) => RecvQueue(b, m, timeout, who);
    case Reset =>
    case Other(o) =>
  }

  /** The mails accepted over a run, in the order of their sends. */
  ghost function Accepted(b: Box, m: State, xs: seq<Call>): seq<int>
    requires MailOk(b, m) && RunOk(b, m, xs)
    decreases |xs|
  {
    if xs == [] then [] else CalledKeeps(b, m, xs[0]); Puts(b, m, xs[0]) + Accepted(b, Called(b, m, xs[0]), xs[1..])
  }

  /** The mails received over a run, in the order of their receives. */
  ghost function Received(b: Box, m: State, xs: seq<Call>): seq<int>
    requires MailOk(b, m) && RunOk(b, m, xs)
    decreases |xs|
  {
    if xs == [] then [] else CalledKeeps(b, m, xs[0]); Gets(b, m, xs[0]) + Received(b, Called(b, m, xs[0]), xs[1..])
  }

  /** Whatever happens in between, receivers get the mails that were accepted, in the same order, none lost
      and none twice; those not yet received are in the box, which never holds more than `size`. */
  lemma {:induction false} FifoRun(b: Box, m: State, xs: seq<Call>)
    requires MailOk(b, m) && RunOk(b, m, xs) && forall i :: 0 <= i < |xs| ==> !xs[i].Reset?
    ensures m.queue + Accepted(b, m, xs) == Received(b, m, xs) + Run(b, m, xs).queue
    ensures |Run(b, m, xs).queue| <= b.size
    decreases |xs|
  {
    hide WellFormed, Called, Apart, Puts, Gets;
    if xs != [] {
      CalledKeeps(b, m, xs[0]);
      CalledFifo(b, m, xs[0]);
      var m' := Called(b, m, xs[0]);
      FifoRun(b, m', xs[1..]);
      Chain(m.queue, Puts(b, m, xs[0]), Gets(b, m, xs[0]), m'.queue, Accepted(b, m', xs[1..]), Received(b, m', xs[1..]),
            Run(b, m', xs[1..]).queue);
    }
  }

  lemma Chain(q: seq<int>, put: seq<int>, got: seq<int>, q': seq<int>, accepted: seq<int>, received: seq<int>,
              rest: seq<int>)
    requires q + put == got + [] + q' && q' + accepted == received + rest
    ensures q + (put + accepted) == (got + received) + rest
  {
    assert q + (put + accepted) == (q + put) + accepted;
    assert got + [] + q' == got + q';
    assert (got + q') + accepted == got + (q' + accepted);
    assert got + (received + rest) == (got + received) + rest;
  }

  // ----- The ring buffer -----

  /** x taken round a ring of the given size once. */
  function Round(x: nat, size: nat): nat {
    if x >= size then x - size else x
  }

  /** The mails of a ring, oldest first. */
  ghost function Mails(pool: seq<int>, first: nat, count: nat): seq<int>
    requires count <= |pool| && first < |pool|
  {
    seq(count, i requires 0 <= i < count => pool[Round(first + i, |pool|)])
  }

  lemma MailsPush(pool: seq<int>, first: nat, count: nat, value: int)
    requires count < |pool| && first < |pool|
    ensures Round(first + count, |pool|) < |pool|
    ensures Mails(pool[Round(first + count, |pool|) := value], first, count + 1) == Mails(pool, first, count) + [value]
  {
    var pool' := pool[Round(first + count, |pool|) := value];
    var after := Mails(pool', first, count + 1);
    var before := Mails(pool, first, count) + [value];
    forall i | 0 <= i < count + 1
      ensures after[i] == before[i]
    {
      assert after[i] == pool'[Round(first + i, |pool|)];
    }
  }

  lemma MailsPop(pool: seq<int>, first: nat, count: nat)
    requires 0 < count <= |pool| && first < |pool|
    ensures Round(first + 1, |pool|) < |pool|
    ensures Mails(pool, first, count) == [pool[first]] + Mails(pool, Round(first + 1, |pool|), count - 1)
    ensures Round(Round(first + 1, |pool|) + (count - 1), |pool|) == Round(first + count, |pool|)
  {
    var before := Mails(pool, first, count);
    var rest := Mails(pool, Round(first + 1, |pool|), count - 1);
    forall i | 0 <= i < count
      ensures before[i] == ([pool[first]] + rest)[i]
    {
      assert before[i] == pool[Round(first + i, |pool|)];
      if i > 0 {
        assert rest[i - 1] == pool[Round(Round(first + 1, |pool|) + (i - 1), |pool|)];
      }
    }
  }

  class RtMailbox {
    const b: Box
    const kernel: Kernel
    const pool: array<int>
    var entry: nat
    var inOffset: nat
    var outOffset: nat
    ghost var recv: set<int>
    ghost var send: set<int>

    ghost predicate Placed()
      reads this, pool
    {
      && pool.Length == b.size && entry <= b.size
      && outOffset < b.size && inOffset == Round(outOffset + entry, b.size)
    }

    ghost function Now(): State
      requires Placed()
      reads this, kernel, pool
    {
      State(Mails(pool[..], outOffset, entry), kernel.abs, recv, send)
    }

    ghost predicate Valid()
      reads this, kernel, pool
    {
      kernel.Valid() && kernel.P == b.P && Placed() && MailOk(b, Now())
    }

    /** rt_mb_init. */
    constructor (kernel: Kernel, b: Box)
      requires kernel.Valid() && kernel.P == b.P && b.size > 0
      requires b.P <= b.w < |kernel.abs.lists| && b.P <= b.ws < |kernel.abs.lists| && b.w != b.ws
      requires kernel.abs.lists[b.w] == [] && kernel.abs.lists[b.ws] == []
      ensures Valid() && fresh(pool) && this.kernel == kernel && this.b == b
      ensures Now() == State([], kernel.abs, {}, {})
    {
      this.kernel := kernel;
      this.b := b;
      pool := new int[b.size];
      entry := 0;
      inOffset := 0;
      outOffset := 0;
      recv := {};
      send := {};
    }

    /** One critical section of rt_mb_send_wait. */
    method Send(value: int, timeout: int, ghost who: Caller) returns (outcome: Outcome)
      requires Valid() && MaySend(b, Now(), timeout, who)
      modifies this, kernel, pool
      ensures Valid() && old(Shaped(b, kernel.abs) && MaySend(b, Now(), timeout, who))
      ensures (Now(), outcome) == old(SendStep(b, Now(), value, timeout, who))
    {
      hide WellFormed, Rep, Waiting, Woken, Mails, Apart, MailOk, SendStep;
      MailOkShaped(b, Now());
      if entry == b.size {
        outcome := WaitForRoom(value, timeout, who);
      } else {
        outcome := PutMail(value, timeout, who);
      }
    }

    /** The mailbox is full: refuse, or go to sleep. */
    method WaitForRoom(value: int, timeout: int, ghost who: Caller) returns (outcome: Outcome)
      requires Valid() && MaySend(b, Now(), timeout, who) && entry == b.size
      modifies this, kernel
      ensures Valid() && old(Shaped(b, kernel.abs) && MaySend(b, Now(), timeout, who))
      ensures (Now(), outcome) == old(SendStep(b, Now(), value, timeout, who))
    {
      hide WellFormed, Rep, Waiting, Woken, Mails, Apart, MailOk;
      ghost var m := Now();
      MailOkShaped(b, m);
      MailsSize(pool[..], outOffset, entry);
      SendKeeps(b, m, value, timeout, who);
      var t := kernel.Self();
      send := Looked(send, kernel.abs, who);
      if timeout == 0 {
        return Refused;
      }
      CleanKeeps(b.S(), kernel.abs);
      kernel.SetError(t, EOK);
      kernel.ListSuspend(b.ws, t, b.byPriority);
      outcome := Waits;
    }

    /** There is room: store the mail and resume a receiver. */
    method PutMail(value: int, timeout: int, ghost who: Caller) returns (outcome: Outcome)
      requires Valid() && entry < b.size
      modifies this, kernel, pool
      ensures Valid() && old(Shaped(b, kernel.abs) && MaySend(b, Now(), timeout, who))
      ensures (Now(), outcome) == old(SendStep(b, Now(), value, timeout, who))
    {
      hide WellFormed, Rep, Waiting, Woken, Mails, Apart, MailOk;
      ghost var m := Now();
      MailOkShaped(b, m);
      MailsSize(pool[..], outOffset, entry);
      SendKeeps(b, m, value, timeout, who);
      MailsPush(pool[..], outOffset, entry, value);
      var t := kernel.Self();
      send := Looked(send, kernel.abs, who);
      pool[inOffset] := value;
      inOffset := inOffset + 1;
      if inOffset >= b.size {
        inOffset := 0;
      }
      entry := entry + 1;
      var some := kernel.HasWaiters(b.w);
      if some {
        recv := recv + {kernel.abs.lists[b.w][0]};
        kernel.ListResume(b.w);
      }
      outcome := Done(value);
    }

    /** One critical section of rt_mb_recv. */
    method Recv(timeout: int, who: Caller) returns (outcome: Outcome)
      requires Valid() && MayReceive(Now(), timeout, who)
      modifies this, kernel
      ensures Valid() && old(Shaped(b, kernel.abs) && MayReceive(Now(), timeout, who))
      ensures (Now(), outcome) == old(RecvStep(b, Now(), timeout, who))
    {
      hide WellFormed, Rep, Waiting, Woken, Mails, Apart, MailOk, RecvStep;
      MailOkShaped(b, Now());
      if entry == 0 {
        outcome := WaitForMail(timeout, who);
      } else {
        outcome := TakeMail(timeout, who);
      }
    }

    /** The mailbox is empty: refuse, or go to sleep. */
    method WaitForMail(timeout: int, who: Caller) returns (outcome: Outcome)
      requires Valid() && MayReceive(Now(), timeout, who) && entry == 0
      modifies this, kernel
      ensures Valid() && old(Shaped(b, kernel.abs) && MayReceive(Now(), timeout, who))
      ensures (Now(), outcome) == old(RecvStep(b, Now(), timeout, who))
    {
      hide WellFormed, Rep, Waiting, Woken, Mails, Apart, MailOk;
      ghost var m := Now();
      MailOkShaped(b, m);
      MailsSize(pool[..], outOffset, entry);
      RecvKeeps(b, m, timeout, who);
      var t := kernel.Self();
      recv := Looked(recv, kernel.abs, who);
      if timeout == 0 {
        if who == Again {
          kernel.SetError(t, ETIMEOUT);
        }
        return Refused;
      }
      CleanKeeps(b.R(), kernel.abs);
      kernel.SetError(t, EOK);
      kernel.ListSuspend(b.w, t, b.byPriority);
      outcome := Waits;
    }

    /** There is mail: take the oldest and resume a sender. */
    method TakeMail(timeout: int, ghost who: Caller) returns (outcome: Outcome)
      requires Valid() && entry > 0
      modifies this, kernel
      ensures Valid() && old(Shaped(b, kernel.abs) && MayReceive(Now(), timeout, who))
      ensures (Now(), outcome) == old(RecvStep(b, Now(), timeout, who))
    {
      hide WellFormed, Rep, Waiting, Woken, Mails, Apart, MailOk;
      ghost var m := Now();
      MailOkShaped(b, m);
      MailsSize(pool[..], outOffset, entry);
      RecvKeeps(b, m, timeout, who);
      MailsPop(pool[..], outOffset, entry);
      var t := kernel.Self();
      recv := Looked(recv, kernel.abs, who);
      outcome := Done(pool[outOffset]);
      outOffset := outOffset + 1;
      if outOffset >= b.size {
        outOffset := 0;
      }
      entry := entry - 1;
      var some := kernel.HasWaiters(b.ws);
      if some {
        send := send + {kernel.abs.lists[b.ws][0]};
        kernel.ListResume(b.ws);
      }
    }

    /** rt_mb_control with RT_IPC_CMD_RESET, up to its rt_schedule. */
    method Reset()
      requires Valid()
      modifies this, kernel
      ensures Valid() && old(Shaped(b, kernel.abs)) && Now() == old(ResetStep(b, Now()))
    {
      hide WellFormed, Rep, AllWoken, Apart;
      ghost var m := Now();
      ResetKeeps(b, m);
      AllWokenEmpties(b.P, m.s, b.w);
      kernel.ListResumeAll(b.w);
      kernel.ListResumeAll(b.ws);
      entry := 0;
      inOffset := 0;
      outOffset := 0;
    }
  }

  lemma MailOkShaped(b: Box, m: State)
    requires MailOk(b, m)
    ensures Shaped(b, m.s) && b.size > 0
  {
  }

  lemma MailsSize(pool: seq<int>, first: nat, count: nat)
    requires count <= |pool| && first < |pool|
    ensures |Mails(pool, first, count)| == count
  {
  }
}
