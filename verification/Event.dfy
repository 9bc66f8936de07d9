/** rt_event_send and rt_event_recv: waiting for all or any bits of a 32-bit event set. */
module Event {
  import opened Bits
  import opened RtList
  import opened Threads
  import opened SchedSpec
  import opened SchedEffects
  import opened Scheduler
  import opened Ipc

  /** What a receiver wants: the bits, all of them or any, and whether to clear what it got. */
  datatype Wish = Wish(bits: bv32, all: bool, clear: bool)

  /** `wish` holds event_set and event_info of every thread. */
  datatype State = State(bits: bv32, wish: map<int, Wish>, s: Sched)

  predicate Meets(bits: bv32, x: Wish) {
    if x.all then And(bits, x.bits) == x.bits else And(bits, x.bits) != 0
  }

  /** The bits a receiver is told about. */
  function Report(bits: bv32, x: Wish): bv32 {
    And(bits, x.bits)
  }

  /** The event set after a receiver got its bits. */
  function After(bits: bv32, x: Wish): bv32 {
    if x.clear then Less(bits, x.bits) else bits
  }

  /** Nobody waits for bits that are set. */
  ghost predicate EventOk(c: Config, m: State) {
    && Fits(c, m.s)
    && (forall i :: 0 <= i < |m.s.lists[c.w]| ==> Starves(m, m.s.lists[c.w][i]))
  }

  ghost predicate Starves(m: State, t: int) {
    t in m.wish && !Meets(m.bits, m.wish[t])
  }

  /** The bits taken out of the set are those reported, and nothing else changes in the set. */
  lemma ClearsReported(bits: bv32, x: Wish)
    requires Meets(bits, x)
    ensures x.clear ==> After(bits, x) == Less(bits, Report(bits, x)) && And(After(bits, x), Report(bits, x)) == 0
    ensures x.clear ==> Or(After(bits, x), Report(bits, x)) == bits
    ensures !x.clear ==> After(bits, x) == bits
    ensures x.all ==> Report(bits, x) == x.bits
    ensures !x.all ==> Report(bits, x) != 0
  {
    hide And, Or, Less;
    TakeOut(bits, x.bits);
  }

  /** Bits never appear while waiters are served. */
  lemma FewerMeet(bits: bv32, x: Wish, y: Wish)
    ensures Meets(After(bits, x), y) ==> Meets(bits, y)
  {
    hide And, Or, Less;
    LessAll(bits, x.bits, y.bits);
    LessSome(bits, x.bits, y.bits);
  }

  /** A wish for all bits is met when every one of them is set, a wish for any when one of them is. */
  lemma MeetsBits(bits: bv32, x: Wish)
    ensures Meets(bits, x) <==>
            if x.all then forall j :: 0 <= j < 32 && Bit(x.bits, j) ==> Bit(bits, j)
            else exists j :: 0 <= j < 32 && Bit(x.bits, j) && Bit(bits, j)
  {
    hide And, Bit;
    HasAll(bits, x.bits);
    HasSome(bits, x.bits);
  }

  // ----- Receiving -----

  datatype Outcome = Got(bits: bv32) | Refused | Waits

  /** Only a receive that waits needs a caller that has not suspended itself. */
  ghost predicate MayReceive(m: State, x: Wish, timeout: int) {
    InThread(m.s) && (Running(m.s) || Meets(m.bits, x) || timeout == 0)
  }

  ghost function Received(c: Config, m: State, x: Wish, timeout: int): (r: (State, Outcome))
    requires Fits(c, m.s) && MayReceive(m, x, timeout)
  {
    CleanKeeps(c, m.s);
    var s := Cleaned(m.s);
    if Meets(m.bits, x) then (State(After(m.bits, x), m.wish, s), Got(Report(m.bits, x)))
    else if timeout == 0 then (m.(s := With(m.s, m.s.current, m.s.thread[m.s.current].(error := ETIMEOUT))), Refused)
    else (State(m.bits, m.wish[m.s.current := x], Waiting(c.P, s, c.w, m.s.current, c.byPriority)), Waits)
  }

  lemma ReceivedKeeps(c: Config, m: State, x: Wish, timeout: int)
    requires EventOk(c, m) && MayReceive(m, x, timeout)
    ensures EventOk(c, Received(c, m, x, timeout).0)
  {
    hide Homes, ThreadShape, ThreadOk, Waiting, Meets, After;
    CleanKeeps(c, m.s);
    ErrorKeeps(c.P, m.s, m.s.current, ETIMEOUT);
    var m' := Received(c, m, x, timeout).0;
    var l := m.s.lists[c.w];
    if Meets(m.bits, x) {
      forall i | 0 <= i < |l|
        ensures Starves(m', l[i])
      {
        assert Starves(m, l[i]);
        FewerMeet(m.bits, x, m.wish[l[i]]);
      }
    } else if timeout != 0 {
      WaitingKeeps(c.P, Cleaned(m.s), c.w, m.s.current, c.byPriority);
      Joined(c, Cleaned(m.s));
      var l' := m'.s.lists[c.w];
      forall i | 0 <= i < |l'|
        ensures Starves(m', l'[i])
      {
        assert l'[i] in l';
        if l'[i] != m.s.current {
          var j :| 0 <= j < |l| && l[j] == l'[i];
          assert Starves(m, l[j]);
        }
      }
    } else {
      forall i | 0 <= i < |l|
        ensures Starves(m', l[i])
      {
        assert Starves(m, l[i]);
      }
    }
  }

  /** A receive that is met gets the wanted bits that are set, and takes them out when it is to clear; one that is not
      is refused exactly when it does not wait, and otherwise sleeps on the list with its wish recorded. */
  lemma ReceiveOutcome(c: Config, m: State, x: Wish, timeout: int)
    requires EventOk(c, m) && MayReceive(m, x, timeout)
    ensures var r := Received(c, m, x, timeout);
            && (r.1.Got? <==> Meets(m.bits, x)) && (r.1.Refused? <==> !Meets(m.bits, x) && timeout == 0)
            && (r.1.Got? ==>
                  r.1.bits == And(m.bits, x.bits)
                  && r.0 == State(if x.clear then Less(m.bits, x.bits) else m.bits, m.wish, r.0.s)
                  && OnlyError(m.s, r.0.s, EOK))
            && (r.1.Refused? ==> r.0 == m.(s := r.0.s) && OnlyError(m.s, r.0.s, ETIMEOUT))
            && (r.1.Waits? ==>
                  r.0 == State(m.bits, m.wish[m.s.current := x], r.0.s) && CallerSleeps(c, m.s, r.0.s))
  {
    hide Homes, ThreadShape, ThreadOk, Waiting, Meets, And, Less, CallerSleeps;
    CleanKeeps(c, m.s);
    if !Meets(m.bits, x) && timeout != 0 {
      CallerWaits(c, m.s);
    }
  }

  // ----- Sending: one pass over the waiters -----

  /** Waiter k of the list is served: it leaves with its report in event_set. */
  ghost function Served(c: Config, m: State, k: nat): State
    requires Fits(c, m.s) && k < |m.s.lists[c.w]| && m.s.lists[c.w][k] in m.wish
  {
    var t := m.s.lists[c.w][k];
    var x := m.wish[t];
    WaiterSuspended(c, m.s, k);
    ResumedKeeps(c.P, m.s, t);
    State(After(m.bits, x), m.wish[t := x.(bits := Report(m.bits, x))], Resumed(m.s, t))
  }

  lemma WaiterSuspended(c: Config, s: Sched, k: nat)
    requires Fits(c, s) && k < |s.lists[c.w]|
    ensures s.lists[c.w][k] in s.thread && s.thread[s.lists[c.w][k]].stat == Suspend && s.home[s.lists[c.w][k]] == c.w
  {
    hide Home, ThreadShape;
    Members(c.P, s, c.w);
    var t := s.lists[c.w][k];
    assert ThreadOk(c.P, s.thread[t], s.home[t]);
  }

  ghost predicate Wishes(c: Config, m: State) {
    Fits(c, m.s) && forall i :: 0 <= i < |m.s.lists[c.w]| ==> m.s.lists[c.w][i] in m.wish
  }

  lemma ServedKeeps(c: Config, m: State, k: nat)
    requires Wishes(c, m) && k < |m.s.lists[c.w]|
    ensures Wishes(c, Served(c, m, k))
    ensures Served(c, m, k).s.lists[c.w] == Without(m.s.lists[c.w], k)
    ensures |Served(c, m, k).s.lists| == |m.s.lists|
  {
    hide Homes, ThreadShape, ThreadOk, Put;
    var t := m.s.lists[c.w][k];
    WaiterSuspended(c, m.s, k);
    ResumedKeeps(c.P, m.s, t);
    ResumedList(c, m.s, k);
    var l, l' := m.s.lists[c.w], Without(m.s.lists[c.w], k);
    assert forall i :: 0 <= i < |l'| ==> l'[i] == l[if i < k then i else i + 1];
  }

  lemma ResumedList(c: Config, s: Sched, k: nat)
    requires Fits(c, s) && k < |s.lists[c.w]|
    ensures s.lists[c.w][k] in s.thread && s.home[s.lists[c.w][k]] == c.w
            && s.thread[s.lists[c.w][k]].priority < |s.lists|
    ensures |Resumed(s, s.lists[c.w][k]).lists| == |s.lists|
            && Resumed(s, s.lists[c.w][k]).lists[c.w] == Without(s.lists[c.w], k)
  {
    hide Home, ThreadShape, ThreadOk, Drop, Inserted;
    WaiterSuspended(c, s, k);
    var t := s.lists[c.w][k];
    ShapeBounds(c.P, s, t);
    HomeDistinct(s.lists, s.home, c.w);
    DropAt(s.lists[c.w], k);
  }

  /** The pass of rt_event_send from waiter k on. */
  ghost function Swept(c: Config, m: State, k: nat): State
    requires Wishes(c, m) && k <= |m.s.lists[c.w]|
    decreases |m.s.lists[c.w]| - k
  {
    if k == |m.s.lists[c.w]| then m
    else if Meets(m.bits, m.wish[m.s.lists[c.w][k]]) then
      ServedKeeps(c, m, k);
      Swept(c, Served(c, m, k), k)
    else Swept(c, m, k + 1)
  }

  ghost function Sent(c: Config, m: State, bits: bv32): State
    requires Wishes(c, m)
  {
    Swept(c, m.(bits := Or(m.bits, bits)), 0)
  }

  /** However many waiters one pass serves and whatever they clear, at its end nobody waits for bits
      that are set: the waiters already passed over cannot have become ready. */
  lemma {:induction false} SweptStarves(c: Config, m: State, k: nat)
    requires Wishes(c, m) && k <= |m.s.lists[c.w]|
    requires forall i :: 0 <= i < k ==> Starves(m, m.s.lists[c.w][i])
    ensures EventOk(c, Swept(c, m, k))
    decreases |m.s.lists[c.w]| - k
  {
    hide WellFormed, Meets, After, Served;
    if k < |m.s.lists[c.w]| {
      var t := m.s.lists[c.w][k];
      if Meets(m.bits, m.wish[t]) {
        ServedKeeps(c, m, k);
        ServedOthers(c, m, k);
        SweptStarves(c, Served(c, m, k), k);
      } else {
        SweptStarves(c, m, k + 1);
      }
    }
  }

  lemma ServedOthers(c: Config, m: State, k: nat)
    requires Wishes(c, m) && k < |m.s.lists[c.w]|
    requires forall i :: 0 <= i < k ==> Starves(m, m.s.lists[c.w][i])
    requires Served(c, m, k).s.lists[c.w] == Without(m.s.lists[c.w], k) && |Served(c, m, k).s.lists| == |m.s.lists|
    ensures forall i :: 0 <= i < k ==> Starves(Served(c, m, k), Served(c, m, k).s.lists[c.w][i])
  {
    hide Homes, ThreadShape, ThreadOk, Meets, After, Resumed;
    HomeDistinctFits(c, m.s);
    var l := m.s.lists[c.w];
    forall i | 0 <= i < k
      ensures Starves(Served(c, m, k), Without(l, k)[i])
    {
      assert Without(l, k)[i] == l[i];
      assert Starves(m, l[i]);
      assert l[i] != l[k];
      FewerMeet(m.bits, m.wish[l[k]], m.wish[l[i]]);
    }
  }

  lemma HomeDistinctFits(c: Config, s: Sched)
    requires Fits(c, s)
    ensures Distinct(s.lists[c.w])
  {
    hide Home, ThreadShape, ThreadOk;
    HomeDistinct(s.lists, s.home, c.w);
  }

  lemma SentKeeps(c: Config, m: State, bits: bv32)
    requires Wishes(c, m)
    ensures EventOk(c, Sent(c, m, bits))
  {
    hide WellFormed, Meets, Swept, Or;
    SweptStarves(c, m.(bits := Or(m.bits, bits)), 0);
  }

  // ----- What the pass gives to whom -----

  /** The bits a pass takes out are those reported to the CLEAR waiters it serves, waiter by waiter. */
  ghost function Reports(c: Config, m: State, k: nat): seq<(int, bv32)>
    requires Wishes(c, m) && k <= |m.s.lists[c.w]|
    decreases |m.s.lists[c.w]| - k
  {
    if k == |m.s.lists[c.w]| then []
    else
      var t := m.s.lists[c.w][k];
      if Meets(m.bits, m.wish[t]) then
        ServedKeeps(c, m, k);
        [(t, Report(m.bits, m.wish[t]))] + Reports(c, Served(c, m, k), k)
      else Reports(c, m, k + 1)
  }

  /** The bits reported to CLEAR receivers among those served. */
  function ClearedBy(reports: seq<(int, bv32)>, wish: map<int, Wish>): bv32 {
    if reports == [] then 0
    else
      Or(if reports[0].0 in wish && wish[reports[0].0].clear then reports[0].1 else 0, ClearedBy(reports[1..], wish))
  }

  lemma {:induction false} SameClears(reports: seq<(int, bv32)>, wish: map<int, Wish>, wish': map<int, Wish>)
    requires wish.Keys == wish'.Keys && forall t :: t in wish ==> wish'[t].clear == wish[t].clear
    ensures ClearedBy(reports, wish) == ClearedBy(reports, wish')
  {
    hide Or;
    if reports != [] {
      SameClears(reports[1..], wish, wish');
    }
  }

  lemma {:induction false} SweptClears(c: Config, m: State, k: nat)
    requires Wishes(c, m) && k <= |m.s.lists[c.w]|
    ensures Swept(c, m, k).bits == Less(m.bits, ClearedBy(Reports(c, m, k), m.wish))
    decreases |m.s.lists[c.w]| - k
  {
    hide WellFormed, Meets, Served, Report, After, Or, Less;
    if k < |m.s.lists[c.w]| {
      var t := m.s.lists[c.w][k];
      if Meets(m.bits, m.wish[t]) {
        ServedKeeps(c, m, k);
        SweptClears(c, Served(c, m, k), k);
        ServedIs(c, m, k);
        var rest := Reports(c, Served(c, m, k), k);
        SameClears(rest, m.wish, Served(c, m, k).wish);
        assert ([(t, Report(m.bits, m.wish[t]))] + rest)[1..] == rest;
        AfterIs(m.bits, m.wish[t]);
        TakeOutBoth(m.bits, Report(m.bits, m.wish[t]), ClearedBy(rest, m.wish));
        TakeOutNothing(ClearedBy(rest, m.wish));
      } else {
        SweptClears(c, m, k + 1);
      }
    } else {
      TakeOutNothing(m.bits);
    }
  }

  lemma AfterIs(bits: bv32, x: Wish)
    ensures After(bits, x) == if x.clear then Less(bits, Report(bits, x)) else bits
  {
    hide And, Less;
    TakeOut(bits, x.bits);
  }

  lemma ServedIs(c: Config, m: State, k: nat)
    requires Wishes(c, m) && k < |m.s.lists[c.w]|
    ensures var t := m.s.lists[c.w][k];
            && Served(c, m, k).bits == After(m.bits, m.wish[t])
            && Served(c, m, k).wish == m.wish[t := m.wish[t].(bits := Report(m.bits, m.wish[t]))]
  {
    hide Homes, ThreadShape, ThreadOk, Meets, After, Resumed, Report;
  }

  /** Every waiter the pass serves is ready with its report in event_set when the pass ends. */
  lemma {:induction false} SweptDelivers(c: Config, m: State, k: nat, n: nat)
    requires Wishes(c, m) && k <= |m.s.lists[c.w]| && n < |Reports(c, m, k)|
    ensures var t, r := Reports(c, m, k)[n].0, Reports(c, m, k)[n].1;
            && t in m.s.lists[c.w][k..]
            && t in Swept(c, m, k).wish && Swept(c, m, k).wish[t].bits == r
            && c.w < |Swept(c, m, k).s.lists| && t !in Swept(c, m, k).s.lists[c.w]
    decreases |m.s.lists[c.w]| - k
  {
    hide WellFormed, Meets, Served, Report, After, Or, Less;
    var l := m.s.lists[c.w];
    if k < |l| {
      var t := l[k];
      if Meets(m.bits, m.wish[t]) {
        var m' := Served(c, m, k);
        ServedKeeps(c, m, k);
        ServedIs(c, m, k);
        HomeDistinctFits'(c, m);
        Rest(l, k);
        if n == 0 {
          SweptLeaves(c, m', k, t);
        } else {
          SweptDelivers(c, m', k, n - 1);
        }
      } else {
        SweptDelivers(c, m, k + 1, n);
        assert l[k..] == [l[k]] + l[k + 1..];
      }
    }
  }

  lemma HomeDistinctFits'(c: Config, m: State)
    requires Wishes(c, m)
    ensures Distinct(m.s.lists[c.w])
  {
    HomeDistinctFits(c, m.s);
  }

  lemma Rest(l: seq<int>, k: nat)
    requires Distinct(l) && k < |l|
    ensures Without(l, k)[k..] == l[k + 1..] && l[k] !in Without(l, k)
    ensures l[k..] == [l[k]] + l[k + 1..]
  {
    DistinctWithout(l, k);
  }

  /** A thread that is not on the list is not touched by the pass. */
  lemma {:induction false} SweptLeaves(c: Config, m: State, k: nat, t: int)
    requires Wishes(c, m) && k <= |m.s.lists[c.w]| && t !in m.s.lists[c.w] && t in m.wish
    ensures t in Swept(c, m, k).wish && Swept(c, m, k).wish[t] == m.wish[t]
    ensures c.w < |Swept(c, m, k).s.lists| && t !in Swept(c, m, k).s.lists[c.w]
    decreases |m.s.lists[c.w]| - k
  {
    hide Meets, Served, Report, After, WellFormed;
    if k < |m.s.lists[c.w]| {
      if Meets(m.bits, m.wish[m.s.lists[c.w][k]]) {
        ServedKeeps(c, m, k);
        ServedIs(c, m, k);
        NotWithout(m.s.lists[c.w], k, t);
        SweptLeaves(c, Served(c, m, k), k, t);
      } else {
        SweptLeaves(c, m, k + 1, t);
      }
    }
  }

  lemma NotWithout(l: seq<int>, k: nat, t: int)
    requires k < |l| && t !in l
    ensures t !in Without(l, k)
  {
    var p := Without(l, k);
    assert forall i :: 0 <= i < |p| ==> p[i] == l[if i < k then i else i + 1];
  }

  /** Only waiters from k on get a report. */
  lemma {:induction false} ReportsFrom(c: Config, m: State, k: nat)
    requires Wishes(c, m) && k <= |m.s.lists[c.w]|
    ensures forall a :: 0 <= a < |Reports(c, m, k)| ==> Reports(c, m, k)[a].0 in m.s.lists[c.w][k..]
  {
    hide WellFormed, Meets, Served;
    forall a | 0 <= a < |Reports(c, m, k)|
      ensures Reports(c, m, k)[a].0 in m.s.lists[c.w][k..]
    {
      SweptDelivers(c, m, k, a);
    }
  }

  /** Waiter i had its turn after n reports, all of them to waiters before it: with its wish met by what those left of
      the set it got the next report, the wanted bits that were still set; otherwise it got none. */
  ghost predicate Turn(rs: seq<(int, bv32)>, bits: bv32, wish: map<int, Wish>, l: seq<int>, i: nat, n: nat)
    requires i < |l| && l[i] in wish && n <= |rs|
  {
    var t, left := l[i], Less(bits, ClearedBy(rs[..n], wish));
    && (forall a :: 0 <= a < n ==> rs[a].0 in l[..i])
    && (forall a :: n <= a < |rs| ==> rs[a].0 in l[i..])
    && if Meets(left, wish[t]) then n < |rs| && rs[n] == (t, And(left, wish[t].bits))
       else forall a :: 0 <= a < |rs| ==> rs[a].0 != t
  }

  lemma {:induction false} SweptTurns(c: Config, m: State, k: nat, i: nat) returns (n: nat)
    requires Wishes(c, m) && k <= i < |m.s.lists[c.w]|
    ensures n <= |Reports(c, m, k)| && Turn(Reports(c, m, k), m.bits, m.wish, m.s.lists[c.w], i, n)
    decreases |m.s.lists[c.w]| - k
  {
    hide WellFormed, Meets, Served, Less, ClearedBy, After, Turn, Distinct, Report;
    var l := m.s.lists[c.w];
    HomeDistinctFits'(c, m);
    if Meets(m.bits, m.wish[l[k]]) {
      var m' := Served(c, m, k);
      ServedKeeps(c, m, k);
      ServedIs(c, m, k);
      ReportsFrom(c, m', k);
      Rest(l, k);
      if i == k {
        n := 0;
        TurnNow(Reports(c, m', k), m.bits, m.wish, l, k);
      } else {
        WithoutAt(l, k, i);
        var n' := SweptTurns(c, m', k, i - 1);
        n := n' + 1;
        TurnLater(Reports(c, m', k), m.bits, m.wish, l, k, i, n');
      }
    } else {
      ReportsFrom(c, m, k + 1);
      if i == k {
        n := 0;
        TurnNever(Reports(c, m, k + 1), m.bits, m.wish, l, k);
      } else {
        n := SweptTurns(c, m, k + 1, i);
      }
    }
  }

  lemma WithoutAt(l: seq<int>, k: nat, i: nat)
    requires k < i < |l|
    ensures |Without(l, k)| == |l| - 1 && Without(l, k)[i - 1] == l[i]
  {
  }

  lemma TurnNow(rest: seq<(int, bv32)>, bits: bv32, wish: map<int, Wish>, l: seq<int>, k: nat)
    requires k < |l| && l[k] in wish && Meets(bits, wish[l[k]])
    requires forall a :: 0 <= a < |rest| ==> rest[a].0 in l[k + 1..]
    ensures Turn([(l[k], Report(bits, wish[l[k]]))] + rest, bits, wish, l, k, 0)
  {
    hide Meets, And, Less, Or;
    var rs := [(l[k], Report(bits, wish[l[k]]))] + rest;
    TakeOutNothing(bits);
    assert l[k..] == [l[k]] + l[k + 1..];
    forall a | 0 <= a < |rs|
      ensures rs[a].0 in l[k..]
    {
      if a > 0 {
        assert rs[a] == rest[a - 1];
      }
    }
  }

  lemma TurnNever(rs: seq<(int, bv32)>, bits: bv32, wish: map<int, Wish>, l: seq<int>, k: nat)
    requires Distinct(l) && k < |l| && l[k] in wish && !Meets(bits, wish[l[k]])
    requires forall a :: 0 <= a < |rs| ==> rs[a].0 in l[k + 1..]
    ensures Turn(rs, bits, wish, l, k, 0)
  {
    hide Meets, And, Less, Or;
    TakeOutNothing(bits);
    assert l[k..] == [l[k]] + l[k + 1..];
    assert l[k] !in l[k + 1..];
  }

  /** The first report went to waiter k: what was true without it holds for the waiter behind. */
  lemma TurnLater(rest: seq<(int, bv32)>, bits: bv32, wish: map<int, Wish>, l: seq<int>, k: nat, i: nat, n: nat)
    requires Distinct(l) && k < i < |l| && l[k] in wish && l[i] in wish && n <= |rest|
    requires Without(l, k)[i - 1] == l[i]
    requires var x := wish[l[k]];
             Turn(rest, After(bits, x), wish[l[k] := x.(bits := Report(bits, x))], Without(l, k), i - 1, n)
    ensures Turn([(l[k], Report(bits, wish[l[k]]))] + rest, bits, wish, l, i, n + 1)
  {
    hide Meets, And, Less, Or, After, Report, ClearedBy;
    var t, x := l[k], wish[l[k]];
    var rs := [(t, Report(bits, x))] + rest;
    var w' := wish[t := x.(bits := Report(bits, x))];
    var l' := Without(l, k);
    assert l[i] != t;
    assert rs[..n + 1] == [(t, Report(bits, x))] + rest[..n];
    LeftAfter(rest[..n], bits, wish, t);
    assert l'[..i - 1] == l[..k] + l[k + 1..i];
    assert l[..i] == l[..k] + [t] + l[k + 1..i];
    assert l'[i - 1..] == l[i..];
    forall a | 0 <= a < n + 1
      ensures rs[a].0 in l[..i]
    {
      if a > 0 {
        assert rs[a] == rest[a - 1];
        assert rest[a - 1].0 in l'[..i - 1];
      }
    }
    forall a | n + 1 <= a < |rs|
      ensures rs[a].0 in l[i..]
    {
      assert rs[a] == rest[a - 1];
    }
  }

  lemma LeftAfter(reports: seq<(int, bv32)>, bits: bv32, wish: map<int, Wish>, t: int)
    requires t in wish
    ensures var x := wish[t];
            Less(After(bits, x), ClearedBy(reports, wish[t := x.(bits := Report(bits, x))]))
            == Less(bits, ClearedBy([(t, Report(bits, x))] + reports, wish))
  {
    hide Less, Or, After, Report, And;
    var x := wish[t];
    SameClears(reports, wish, wish[t := x.(bits := Report(bits, x))]);
    assert ([(t, Report(bits, x))] + reports)[1..] == reports;
    AfterIs(bits, x);
    TakeOutBoth(bits, Report(bits, x), ClearedBy(reports, wish));
    TakeOutNothing(ClearedBy(reports, wish));
  }

  /** What is sent is added to what is set; of the union just the bits that the pass reports to CLEAR waiters go. */
  lemma SentSet(c: Config, m: State, bits: bv32)
    requires Wishes(c, m)
    ensures var m0 := m.(bits := Or(m.bits, bits));
            Sent(c, m, bits).bits == Less(Or(m.bits, bits), ClearedBy(Reports(c, m0, 0), m.wish))
    ensures m.s.lists[c.w] == [] ==> Sent(c, m, bits) == m.(bits := Or(m.bits, bits))
  {
    hide WellFormed, Meets, Or, Less, ClearedBy;
    SweptClears(c, m.(bits := Or(m.bits, bits)), 0);
  }

  /** Some report to a CLEAR waiter has the bit. */
  ghost predicate GivenAway(reports: seq<(int, bv32)>, wish: map<int, Wish>, j: nat) {
    exists a :: 0 <= a < |reports| && reports[a].0 in wish && wish[reports[a].0].clear && Bit(reports[a].1, j)
  }

  lemma {:induction false} ClearedBits(reports: seq<(int, bv32)>, wish: map<int, Wish>, j: nat)
    ensures Bit(ClearedBy(reports, wish), j) <==> GivenAway(reports, wish, j)
  {
    hide Bit, Or;
    if reports == [] {
      NoBits(j);
    } else {
      ClearedBits(reports[1..], wish, j);
      var r := reports[0];
      var first: bv32 := if r.0 in wish && wish[r.0].clear then r.1 else 0;
      OrBit(first, ClearedBy(reports[1..], wish), j);
      NoBits(j);
      if a :| 0 <= a < |reports[1..]| && reports[1..][a].0 in wish && wish[reports[1..][a].0].clear
              && Bit(reports[1..][a].1, j) {
        assert reports[a + 1] == reports[1..][a];
      }
      if a :| 0 <= a < |reports| && reports[a].0 in wish && wish[reports[a].0].clear && Bit(reports[a].1, j) {
        if a > 0 {
          assert reports[1..][a - 1] == reports[a];
        }
      }
    }
  }

  /** Bit by bit: after a send a bit is set exactly when it was set before or sent, and no waiter took it away. */
  lemma SentBits(c: Config, m: State, bits: bv32, j: nat)
    requires Wishes(c, m)
    ensures var m0 := m.(bits := Or(m.bits, bits));
            Bit(Sent(c, m, bits).bits, j) <==>
            (Bit(m.bits, j) || Bit(bits, j)) && !GivenAway(Reports(c, m0, 0), m.wish, j)
  {
    hide WellFormed, Meets, Or, Less, ClearedBy, Bit, Reports, GivenAway, Sent;
    var rs := Reports(c, m.(bits := Or(m.bits, bits)), 0);
    SentSet(c, m, bits);
    OrBit(m.bits, bits, j);
    LessBit(Or(m.bits, bits), ClearedBy(rs, m.wish), j);
    ClearedBits(rs, m.wish, j);
  }

  /** The waiters that are not among those served, in their order. */
  function Unserved(l: seq<int>, served: set<int>): seq<int> {
    if l == [] then [] else (if l[0] in served then [] else [l[0]]) + Unserved(l[1..], served)
  }

  function Names(reports: seq<(int, bv32)>): seq<int> {
    if reports == [] then [] else [reports[0].0] + Names(reports[1..])
  }

  /** Exactly the named waiters of list w became ready, in that order behind the ready threads of their priorities;
      the others wait on in their order, and nothing else changed. */
  ghost predicate TheseWake(s: Sched, s': Sched, w: nat, names: seq<int>) {
    && w < |s.lists| == |s'.lists|
    && s'.lists[w] == Unserved(s.lists[w], set x | x in names)
    && (forall i :: 0 <= i < |s.lists| && i != w ==> s'.lists[i] == s.lists[i] + OfPriority(names, s.thread, i))
    && s'.thread.Keys == s.thread.Keys
    && (forall t :: t in s.thread ==>
          s'.thread[t] == if t in names then s.thread[t].(stat := Ready) else s.thread[t])
    && s'.current == s.current && s'.nest == s.nest
  }

  lemma {:induction false} UnservedNone(l: seq<int>, served: set<int>)
    requires forall x :: x in l ==> x !in served
    ensures Unserved(l, served) == l
  {
    if l != [] {
      var x := l[0];
      assert x in l;
      UnservedNone(l[1..], served);
    }
  }

  lemma {:induction false} UnservedWithout(l: seq<int>, k: nat, served: set<int>)
    requires Distinct(l) && k < |l|
    ensures Unserved(Without(l, k), served) == Unserved(l, served + {l[k]})
    decreases k
  {
    hide Distinct, Without;
    DistinctTail(l);
    if k == 0 {
      WithoutFirst(l);
      UnservedSame(l[1..], served, served + {l[0]});
    } else {
      WithoutLater(l, k);
      UnservedWithout(l[1..], k - 1, served);
    }
  }

  lemma WithoutFirst(l: seq<int>)
    requires Distinct(l) && l != []
    ensures Without(l, 0) == l[1..] && l[0] !in l[1..]
  {
    DistinctTail(l);
  }

  lemma WithoutLater(l: seq<int>, k: nat)
    requires Distinct(l) && 0 < k < |l|
    ensures l[0] != l[k] && Without(l, k) == [l[0]] + Without(l[1..], k - 1)
  {
  }

  lemma {:induction false} UnservedSame(l: seq<int>, a: set<int>, b: set<int>)
    requires forall x :: x in l ==> (x in a <==> x in b)
    ensures Unserved(l, a) == Unserved(l, b)
  {
    if l != [] {
      var x := l[0];
      assert x in l;
      UnservedSame(l[1..], a, b);
    }
  }

  /** Serving one waiter wakes just that one. */
  lemma ServedWakes(c: Config, m: State, k: nat)
    requires Wishes(c, m) && k < |m.s.lists[c.w]|
    ensures TheseWake(m.s, Served(c, m, k).s, c.w, [m.s.lists[c.w][k]])
  {
    hide Homes, ThreadShape, ThreadOk, Resumed, After, Report, Goes;
    var t := m.s.lists[c.w][k];
    WaiterSuspended(c, m.s, k);
    ServedKeeps(c, m, k);
    ResumedKeeps(c.P, m.s, t);
    ResumeDoes(c.P, m.s, t);
    HomeDistinctFits(c, m.s);
    UnservedWithout(m.s.lists[c.w], k, {});
    UnservedNone(Without(m.s.lists[c.w], k), {});
    assert (set x | x in [t]) == {} + {t};
    var s' := Resumed(m.s, t);
    forall i | 0 <= i < |m.s.lists| && i != c.w
      ensures s'.lists[i] == m.s.lists[i] + OfPriority([t], m.s.thread, i)
    {
      ResumeOne(c.P, m.s, t, i);
    }
  }

  lemma WakeMore(s: Sched, s0: Sched, s': Sched, w: nat, k: nat, names: seq<int>)
    requires w < |s.lists| && k < |s.lists[w]| && Distinct(s.lists[w])
    requires TheseWake(s, s0, w, [s.lists[w][k]]) && s0.lists[w] == Without(s.lists[w], k)
    requires TheseWake(s0, s', w, names)
    ensures TheseWake(s, s', w, [s.lists[w][k]] + names)
  {
    hide Distinct;
    var t := s.lists[w][k];
    var served := set x | x in names;
    UnservedWithout(s.lists[w], k, served);
    assert (set x | x in [t] + names) == served + {t};
    forall i | 0 <= i < |s.lists| && i != w
      ensures s'.lists[i] == s.lists[i] + OfPriority([t] + names, s.thread, i)
    {
      SamePriorities(names, s.thread, s0.thread, i);
      OneMore(s.lists[i], t, names, s.thread, i);
    }
  }

  lemma OneMore(l: seq<int>, t: int, names: seq<int>, thread: map<int, Thread>, p: int)
    ensures l + OfPriority([t], thread, p) + OfPriority(names, thread, p) == l + OfPriority([t] + names, thread, p)
  {
    assert ([t] + names)[1..] == names;
    assert [t][1..] == [];
  }

  /** A pass makes exactly the waiters it reports to ready. */
  lemma {:induction false} SweptWakes(c: Config, m: State, k: nat)
    requires Wishes(c, m) && k <= |m.s.lists[c.w]|
    ensures TheseWake(m.s, Swept(c, m, k).s, c.w, Names(Reports(c, m, k)))
    decreases |m.s.lists[c.w]| - k
  {
    hide WellFormed, Meets, Served, Report, TheseWake;
    if k < |m.s.lists[c.w]| {
      if Meets(m.bits, m.wish[m.s.lists[c.w][k]]) {
        var m' := Served(c, m, k);
        ServedKeeps(c, m, k);
        ServedWakes(c, m, k);
        SweptWakes(c, m', k);
        HomeDistinctFits'(c, m);
        WakeMore(m.s, m'.s, Swept(c, m', k).s, c.w, k, Names(Reports(c, m', k)));
        assert Reports(c, m, k)[1..] == Reports(c, m', k);
      } else {
        SweptWakes(c, m, k + 1);
      }
    } else {
      NobodyWakes(c, m);
    }
  }

  lemma NobodyWakes(c: Config, m: State)
    requires Wishes(c, m)
    ensures TheseWake(m.s, m.s, c.w, [])
  {
    hide WellFormed, Meets;
    var nobody: seq<int> := [];
    UnservedNone(m.s.lists[c.w], set x | x in nobody);
  }

  ghost predicate HasTurn(rs: seq<(int, bv32)>, bits: bv32, wish: map<int, Wish>, l: seq<int>, i: nat)
    requires i < |l| && l[i] in wish
  {
    exists n :: 0 <= n <= |rs| && Turn(rs, bits, wish, l, i, n)
  }

  /** A send as a whole: every waiter has its turn, in the order of the list and with the set as the waiters before it
      left it; those that got a report are ready now, and nobody else. */
  lemma SentServes(c: Config, m: State, bits: bv32)
    requires Wishes(c, m)
    ensures var m0, l := m.(bits := Or(m.bits, bits)), m.s.lists[c.w];
            var rs := Reports(c, m0, 0);
            && TheseWake(m.s, Sent(c, m, bits).s, c.w, Names(rs))
            && forall i :: 0 <= i < |l| ==> HasTurn(rs, m0.bits, m.wish, l, i)
  {
    hide WellFormed, Meets, Or, Less, ClearedBy, Reports, Turn, TheseWake, Swept;
    var m0, l := m.(bits := Or(m.bits, bits)), m.s.lists[c.w];
    SweptWakes(c, m0, 0);
    forall i | 0 <= i < |l|
      ensures HasTurn(Reports(c, m0, 0), m0.bits, m.wish, l, i)
    {
      var n := SweptTurns(c, m0, 0, i);
    }
  }

  // ----- Runs -----

  datatype Call = Recv(x: Wish, timeout: int) | Send(bits: bv32) | Reset | Other(o: Op)

  ghost predicate CallOk(c: Config, m: State, x: Call)
    requires EventOk(c, m)
  {
    match x
    case Recv(x, timeout) => MayReceive(m, x, timeout)
    case Send(_) => true
    case Reset => true
    case Other(o) => OpOk(c.P, m.s, o) && !(o.Wait? && o.w == c.w)
  }

  lemma OkWishes(c: Config, m: State)
    requires EventOk(c, m)
    ensures Wishes(c, m)
  {
    hide WellFormed, Meets;
    forall i | 0 <= i < |m.s.lists[c.w]|
      ensures m.s.lists[c.w][i] in m.wish
    {
      assert Starves(m, m.s.lists[c.w][i]);
    }
  }

  ghost function Called(c: Config, m: State, x: Call): State
    requires EventOk(c, m) && CallOk(c, m, x)
  {
    match x
    case Recv(y, timeout) => Received(c, m, y, timeout).0
    case Send(bits) => OkWishes(c, m); Sent(c, m, bits)
    case Reset => State(0, m.wish, AllWoken(c.P, m.s, c.w))
    case Other(o) => m.(s := Step(c.P, m.s, o))
  }

  lemma CalledKeeps(c: Config, m: State, x: Call)
    requires EventOk(c, m) && CallOk(c, m, x)
    ensures EventOk(c, Called(c, m, x))
  {
    hide WellFormed, Meets, Received, Sent, Step, AllWoken, OpOk;
    match x
    case Recv(y, timeout) => ReceivedKeeps(c, m, y, timeout);
    case Send(bits) => OkWishes(c, m); SentKeeps(c, m, bits);
    case Reset => AllWokenEmpties(c.P, m.s, c.w);
    case Other(o) => OtherKeeps(c, m, o);
  }

  /** A reset leaves no bit set and wakes everybody with an error. */
  lemma ResetOutcome(c: Config, m: State)
    requires EventOk(c, m)
    ensures Called(c, m, Reset) == State(0, m.wish, Called(c, m, Reset).s)
    ensures AllWake(m.s, Called(c, m, Reset).s, c.w)
  {
    hide WellFormed, Meets, AllWoken, AllWake;
    AllWakeDoes(c.P, m.s, c.w);
  }

  lemma OtherKeeps(c: Config, m: State, o: Op)
    requires EventOk(c, m) && OpOk(c.P, m.s, o) && !(o.Wait? && o.w == c.w)
    ensures EventOk(c, m.(s := Step(c.P, m.s, o)))
  {
    hide WellFormed, Step, Meets;
    StepKeeps(c.P, m.s, o);
    StepThins(c.P, m.s, o, c.w);
    var l := Step(c.P, m.s, o).lists[c.w];
    forall i | 0 <= i < |l|
      ensures Starves(m, l[i])
    {
      assert l[i] in l;
      var j :| 0 <= j < |m.s.lists[c.w]| && m.s.lists[c.w][j] == l[i];
    }
  }

  ghost predicate RunOk(c: Config, m: State, xs: seq<Call>)
    requires EventOk(c, m)
    decreases |xs|
  {
    xs != [] ==> CallOk(c, m, xs[0]) && (CalledKeeps(c, m, xs[0]); RunOk(c, Called(c, m, xs[0]), xs[1..]))
  }

  ghost function Run(c: Config, m: State, xs: seq<Call>): State
    requires EventOk(c, m) && RunOk(c, m, xs)
    decreases |xs|
  {
    if xs == [] then m else CalledKeeps(c, m, xs[0]); Run(c, Called(c, m, xs[0]), xs[1..])
  }

  /** In no reachable state does a thread wait for bits that are set. */
  lemma {:induction false} RunKeeps(c: Config, m: State, xs: seq<Call>)
    requires EventOk(c, m) && RunOk(c, m, xs)
    ensures EventOk(c, Run(c, m, xs))
    decreases |xs|
  {
    hide EventOk, Called;
    if xs != [] {
      CalledKeeps(c, m, xs[0]);
      RunKeeps(c, Called(c, m, xs[0]), xs[1..]);
    }
  }

  class RtEvent {
    const c: Config
    const kernel: Kernel
    var bits: bv32
    var wish: map<int, Wish>

    ghost function Now(): State
      reads this, kernel
    {
      State(bits, wish, kernel.abs)
    }

    ghost predicate Valid()
      reads this, kernel
    {
      kernel.Valid() && kernel.P == c.P && EventOk(c, Now())
    }

    /** rt_event_init. */
    constructor (kernel: Kernel, c: Config)
      requires kernel.Valid() && kernel.P == c.P && c.P <= c.w < |kernel.abs.lists| && kernel.abs.lists[c.w] == []
      ensures Valid() && this.kernel == kernel && this.c == c && bits == 0
    {
      this.kernel := kernel;
      this.c := c;
      bits := 0;
      wish := map[];
    }

    /** rt_event_recv up to its rt_schedule, which follows when the outcome is Waits; on waking up the
        receiver reads its report from `wish`. */
    method Recv(x: Wish, timeout: int) returns (outcome: Outcome, err: int)
      requires Valid() && MayReceive(Now(), x, timeout)
      modifies this, kernel
      ensures Valid() && old(Fits(c, kernel.abs) && MayReceive(Now(), x, timeout))
      ensures err == EERROR <==> x.bits == 0
      ensures x.bits != 0 ==> (Now(), outcome) == old(Received(c, Now(), x, timeout))
      ensures x.bits == 0 ==> Now() == old(Now())
    {
      hide WellFormed, Linked, Bitmap, Waiting, Meets, Report, After;
      ghost var m := Now();
      err := EOK;
      if x.bits == 0 {
        return Refused, EERROR;
      }
      ReceivedKeeps(c, m, x, timeout);
      CleanKeeps(c, m.s);
      var t := kernel.current;
      kernel.thread := kernel.thread[t := kernel.thread[t].(error := EOK)];
      kernel.abs := Cleaned(m.s);
      if Meets(bits, x) {
        outcome := Got(Report(bits, x));
        bits := After(bits, x);
      } else if timeout == 0 {
        TimeoutWell(c, m.s);
        kernel.thread := kernel.thread[t := kernel.thread[t].(error := ETIMEOUT)];
        kernel.abs := With(m.s, t, m.s.thread[t].(error := ETIMEOUT));
        outcome := Refused;
      } else {
        wish := wish[t := x];
        kernel.ListSuspend(c.w, t, c.byPriority);
        outcome := Waits;
      }
    }

    /** rt_event_send up to its rt_schedule. */
    method Send(more: bv32) returns (err: int, needSchedule: bool)
      requires Valid()
      modifies this, kernel
      ensures Valid() && old(Wishes(c, Now()))
      ensures err == EERROR <==> more == 0
      ensures more == 0 ==> Now() == old(Now())
      ensures more != 0 ==> Now() == old(Sent(c, Now(), more))
    {
      hide WellFormed, Linked, Bitmap, Meets, Report, After, Ring, Served, Swept;
      ghost var m := Now();
      OkWishes(c, m);
      needSchedule := false;
      err := EOK;
      if more == 0 {
        return EERROR, false;
      }
      SentKeeps(c, m, more);
      bits := Or(bits, more);
      var n := kernel.Next(c.w, Head(c.w), 0);
      ghost var k := 0;
      ghost var start := Now();
      while n != Head(c.w)
        invariant kernel.Valid() && kernel.P == c.P && Wishes(c, Now())
        invariant k <= |kernel.abs.lists[c.w]| && n == NodeAt(kernel.abs.lists[c.w], c.w, k)
        invariant Swept(c, Now(), k) == Swept(c, start, 0)
        decreases |kernel.abs.lists[c.w]| - k
      {
        SweptStep(c, Now(), k);
        NodeInList(c, kernel.abs, k);
        var t := n;
        n := kernel.Next(c.w, n, k + 1);
        if Meets(bits, wish[t]) {
          ServedKeeps(c, Now(), k);
          WaiterSuspended(c, kernel.abs, k);
          AfterServed(c, Now(), k);
          var x := wish[t];
          wish := wish[t := x.(bits := Report(bits, x))];
          bits := After(bits, x);
          var _ := kernel.Resume(t);
          needSchedule := true;
        } else {
          k := k + 1;
        }
      }
      SweptStep(c, Now(), k);
      NodeInList(c, kernel.abs, k);
    }

    /** rt_event_control with RT_IPC_CMD_RESET, up to its rt_schedule. */
    method Clear()
      requires Valid()
      modifies this, kernel
      ensures Valid() && old(EventOk(c, Now())) && Now() == old(Called(c, Now(), Reset))
    {
      hide WellFormed, Scheduler.Rep, AllWoken, Meets;
      CalledKeeps(c, Now(), Reset);
      kernel.ListResumeAll(c.w);
      bits := 0;
    }
  }

  lemma TimeoutWell(c: Config, s: Sched)
    requires Fits(c, s) && s.current in s.thread
    ensures WellFormed(c.P, With(s, s.current, s.thread[s.current].(error := ETIMEOUT)))
  {
    hide Homes, ThreadShape, ThreadOk;
    ErrorKeeps(c.P, s, s.current, ETIMEOUT);
  }

  lemma SweptStep(c: Config, m: State, k: nat)
    requires Wishes(c, m) && k <= |m.s.lists[c.w]|
    ensures k == |m.s.lists[c.w]| ==> Swept(c, m, k) == m
    ensures k < |m.s.lists[c.w]| && Meets(m.bits, m.wish[m.s.lists[c.w][k]]) ==>
              && Wishes(c, Served(c, m, k)) && k <= |Served(c, m, k).s.lists[c.w]|
              && Swept(c, m, k) == Swept(c, Served(c, m, k), k)
    ensures k < |m.s.lists[c.w]| && !Meets(m.bits, m.wish[m.s.lists[c.w][k]]) ==> Swept(c, m, k) == Swept(c, m, k + 1)
  {
    hide WellFormed, Meets, Served;
    if k < |m.s.lists[c.w]| {
      ServedKeeps(c, m, k);
    }
  }

  lemma NodeInList(c: Config, s: Sched, k: nat)
    requires Fits(c, s) && k <= |s.lists[c.w]|
    ensures NodeAt(s.lists[c.w], c.w, k) == Head(c.w) <==> k == |s.lists[c.w]|
    ensures k < |s.lists[c.w]| ==> NodeAt(s.lists[c.w], c.w, k) == s.lists[c.w][k] && s.lists[c.w][k] in s.thread
  {
    hide Homes, ThreadShape, ThreadOk;
    AtHead(c.P, s, c.w, k);
    Members(c.P, s, c.w);
  }

  /** Serving waiter k leaves its successor at position k. */
  lemma AfterServed(c: Config, m: State, k: nat)
    requires Wishes(c, m) && k < |m.s.lists[c.w]|
    ensures Served(c, m, k).s.lists[c.w] == Without(m.s.lists[c.w], k)
    ensures |Served(c, m, k).s.lists| == |m.s.lists|
    ensures NodeAt(Without(m.s.lists[c.w], k), c.w, k) == NodeAt(m.s.lists[c.w], c.w, k + 1)
    ensures var t := m.s.lists[c.w][k];
            t in m.s.thread && t in m.s.home && m.s.home[t] < |m.s.lists| && m.s.thread[t].priority < |m.s.lists|
            && Served(c, m, k)
               == State(After(m.bits, m.wish[t]), m.wish[t := m.wish[t].(bits := Report(m.bits, m.wish[t]))],
                        Resumed(m.s, t))
  {
    hide Homes, ThreadShape, ThreadOk, Resumed, After, Report;
    ServedKeeps(c, m, k);
    WaiterSuspended(c, m.s, k);
    ResumedKeeps(c.P, m.s, m.s.lists[c.w][k]);
  }
}
