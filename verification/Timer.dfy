/** The hard timer list of timer.c: L linked rows, wrapping 32-bit ticks, and the check that fires timers. */
module Timer {
  import opened RtList
  import opened SkipList
  import opened TimerSpec

  const WRAP: int := TICK_MAX + 1

  /** Subtraction of rt_tick_t values. */
  function Minus(a: int, b: int): int {
    (a - b) % WRAP
  }

  lemma ModSplit(d: int)
    ensures d == WRAP * (d / WRAP) + d % WRAP && 0 <= d % WRAP < WRAP
  {
  }

  /** A number between -WRAP and 2 * WRAP that is congruent to x and in range is x % WRAP. */
  lemma ModOf(x: int, q: int, r: int)
    requires x == WRAP * q + r && 0 <= r < WRAP
    ensures x % WRAP == r
  {
  }

  /** The wrapping difference is the true one when that lies within half the range. */
  lemma MinusIs(d: int, e: int)
    requires -HALF <= d - e < HALF
    ensures Minus(d % WRAP, e % WRAP) == if d >= e then d - e else d - e + WRAP
  {
    ModSplit(d);
    ModSplit(e);
    var a, b := d % WRAP, e % WRAP;
    if d >= e {
      ModOf(a - b, e / WRAP - d / WRAP, d - e);
    } else {
      ModOf(a - b, e / WRAP - d / WRAP - 1, d - e + WRAP);
    }
  }

  /** Inside a half-range window the comparison of wrapped ticks is the comparison of deadlines. */
  lemma WrapCompare(d: int, e: int)
    requires -HALF <= d - e < HALF
    ensures Minus(d % WRAP, e % WRAP) == 0 <==> d == e
    ensures Minus(d % WRAP, e % WRAP) < HALF <==> d >= e
  {
    MinusIs(d, e);
  }

  lemma WrapAdd(d: int, k: int)
    ensures (d % WRAP + k) % WRAP == (d + k) % WRAP
  {
    ModSplit(d);
    ModSplit(d % WRAP + k);
    ModOf(d + k, (d % WRAP + k) / WRAP + d / WRAP, (d % WRAP + k) % WRAP);
  }

  /** What a configuration of rows stands for: the queue in real time, and how high towers reach. */
  datatype Abs = Abs(s: State, levels: seq<set<int>>)

  ghost predicate Ticks(timeout: map<int, int>, deadline: map<int, nat>) {
    timeout.Keys == deadline.Keys && forall t :: t in deadline ==> timeout[t] == deadline[t] % WRAP
  }

  ghost predicate Traced(trace: seq<int>, log: seq<Event>) {
    |trace| == |log| && forall i :: 0 <= i < |log| ==> trace[i] == log[i].t
  }

  /** Every comparison the search can make stays in the window. */
  ghost predicate Window(q: seq<int>, deadline: map<int, nat>, d: int)
    requires Known(q, deadline)
  {
    forall i :: 0 <= i < |q| ==> -HALF <= deadline[q[i]] - d < HALF
  }

  /** The node after which a timer due at d belongs in a row. */
  ghost function SlotOf(list: seq<int>, deadline: map<int, nat>, d: nat): int
    requires Known(list, deadline)
  {
    ([HEAD] + list)[CountUpTo(list, deadline, d)]
  }

  ghost function Levelled(levels: seq<set<int>>, t: int, top: nat): seq<set<int>> {
    seq(|levels|, r requires 0 <= r < |levels| => if r >= top then levels[r] + {t} else levels[r] - {t})
  }

  lemma LevelledNested(levels: seq<set<int>>, ids: set<int>, t: int, top: nat)
    requires Nested(levels, ids) && t in ids && top < |levels|
    ensures Nested(Levelled(levels, t, top), ids)
  {
    var after := Levelled(levels, t, top);
    forall r | 0 <= r < |after| - 1
      ensures after[r] <= after[r + 1]
    {
      assert levels[r] <= levels[r + 1];
    }
    assert after[|levels| - 1] == ids + {t};
  }

  lemma SieveKnown(q: seq<int>, deadline: map<int, nat>, d: int, m: set<int>)
    requires Known(q, deadline) && Sorted(q, deadline) && Window(q, deadline, d)
    ensures Known(Sieve(q, m), deadline) && Sorted(Sieve(q, m), deadline) && Window(Sieve(q, m), deadline, d)
  {
    hide Sorted;
    SieveSorted(q, deadline, m);
    InSieve(q, m);
    var w := Sieve(q, m);
    forall i | 0 <= i < |w|
      ensures -HALF <= deadline[w[i]] - d < HALF
    {
      assert w[i] in w;
      var j :| 0 <= j < |q| && q[j] == w[i];
    }
  }

  /** A node reached in one row stands in the row below too, no further than the slot there. */
  lemma RowBelow(q: seq<int>, levels: seq<set<int>>, ids: set<int>, r: nat, deadline: map<int, nat>, d: nat)
    returns (i: nat)
    requires Nested(levels, ids) && r + 1 < |levels| && Known(q, deadline)
    requires Known(Sieve(q, levels[r]), deadline) && Known(Sieve(q, levels[r + 1]), deadline)
    ensures i <= |Sieve(q, levels[r + 1])|
    ensures ([HEAD] + Sieve(q, levels[r + 1]))[i] == SlotOf(Sieve(q, levels[r]), deadline, d)
    ensures i > 0 ==> deadline[Sieve(q, levels[r + 1])[i - 1]] <= d
  {
    var upper, lower := Sieve(q, levels[r]), Sieve(q, levels[r + 1]);
    var k := CountUpTo(upper, deadline, d);
    if k == 0 {
      i := 0;
    } else {
      InSieve(q, levels[r]);
      InSieve(q, levels[r + 1]);
      assert levels[r] <= levels[r + 1];
      assert upper[k - 1] in upper;
      i := PositionOf(lower, upper[k - 1]) + 1;
    }
  }

  lemma RowNext(k: Links<int>, list: seq<int>, ids: set<int>, i: nat)
    requires RowOk(k, list, ids) && i <= |list|
    ensures k.Has(([HEAD] + list)[i]) && k.Has(HEAD)
    ensures i < |list| ==> k.next[([HEAD] + list)[i]] == list[i] && list[i] in ids
    ensures k.prev[HEAD] == ([HEAD] + list)[i] <==> i == |list|
  {
    var ring := [HEAD] + list;
    RingHas(k, ring, i);
    RingHas(k, ring, 0);
    if i < |list| {
      assert ring[i + 1] == list[i];
    }
  }

  lemma RowFirst(k: Links<int>, list: seq<int>, ids: set<int>)
    requires RowOk(k, list, ids)
    ensures k.Has(HEAD)
    ensures k.next[HEAD] == if list == [] then HEAD else list[0]
    ensures list != [] ==> list[0] != HEAD
  {
    var ring := [HEAD] + list;
    RingHas(k, ring, 0);
    if list != [] {
      assert ring[1] == list[0];
      assert ring[0] != ring[1];
    }
  }

  /** The bottom row is the queue. */
  lemma BottomRow(q: seq<int>, levels: seq<set<int>>, ids: set<int>)
    requires Nested(levels, ids) && forall i :: 0 <= i < |q| ==> q[i] in ids
    ensures Sieve(q, levels[|levels| - 1]) == q
  {
    SieveAll(q, ids);
  }

  /** Rows after a start: the timer is placed in the rows from top on and absent above. */
  lemma RowsPlaced(before: seq<Links<int>>, rows: seq<Links<int>>, q: seq<int>, levels: seq<set<int>>, ids: set<int>,
                   deadline: map<int, nat>, t: int, top: nat)
    requires Rows(before, q, levels, ids) && Nested(levels, ids) && t in ids && top < |levels| && |rows| == |before|
    requires Known(q, deadline) && Sorted(q, deadline) && t in deadline && t !in q
    requires forall r :: 0 <= r < |levels| ==> Known(Sieve(q, levels[r]), deadline)
    requires forall r :: top <= r < |rows| ==> RowOk(rows[r], Placed(Sieve(q, levels[r]), deadline, t), ids)
    requires forall r :: 0 <= r < top ==> rows[r] == before[r]
    ensures Rows(rows, Placed(q, deadline, t), Levelled(levels, t, top), ids)
  {
    hide Sorted, Known, Placed, RowOk, Nested;
    var after := Levelled(levels, t, top);
    forall r | 0 <= r < |rows|
      ensures RowOk(rows[r], Sieve(Placed(q, deadline, t), after[r]), ids)
    {
      SieveIgnores(q, levels[r], after[r]);
      SievePlaced(q, deadline, t, after[r]);
    }
  }

  ghost predicate Rep(u: Setup, rows: seq<Links<int>>, tick: int, timeout: map<int, int>, active: set<int>,
                      trace: seq<int>, a: Abs) {
    && WellFormed(u, a.s)
    && Nested(a.levels, u.init.Keys)
    && Rows(rows, a.s.queue, a.levels, u.init.Keys)
    && tick == a.s.now % WRAP
    && Ticks(timeout, a.s.deadline)
    && active == a.s.active
    && Traced(trace, a.s.log)
  }

  lemma StartWindow(u: Setup, s: State, t: int)
    requires WellFormed(u, s) && t in u.init
    ensures Known(Drop(s.queue, t), s.deadline[t := s.now + u.init[t]])
    ensures Sorted(Drop(s.queue, t), s.deadline[t := s.now + u.init[t]])
    ensures Window(Drop(s.queue, t), s.deadline[t := s.now + u.init[t]], s.now + u.init[t])
    ensures t !in Drop(s.queue, t) && Distinct(Drop(s.queue, t))
  {
    hide Sorted, Distinct, Sane;
    SaneInit(u, t);
    InDrop(s.queue, t);
    var deadline := s.deadline[t := s.now + u.init[t]];
    SortedDrop(s.queue, s.deadline, deadline, t);
    var p := Drop(s.queue, t);
    forall i | 0 <= i < |p|
      ensures -HALF <= deadline[p[i]] - (s.now + u.init[t]) < HALF
    {
      assert p[i] in p;
      var j :| 0 <= j < |s.queue| && s.queue[j] == p[i];
    }
  }

  lemma StartTicks(timeout: map<int, int>, deadline: map<int, nat>, t: int, tick: int, now: nat, k: nat)
    requires Ticks(timeout, deadline) && t in deadline && tick == now % WRAP
    ensures Ticks(timeout[t := (tick + k) % WRAP], deadline[t := now + k])
  {
    WrapAdd(now, k);
  }

  lemma HeadInWindow(u: Setup, s: State)
    requires WellFormed(u, s) && s.queue != []
    ensures s.queue[0] in s.deadline && -HALF <= s.now - s.deadline[s.queue[0]] < HALF
  {
  }

  lemma PoppedIsDropped(s: State)
    requires s.queue != [] && Distinct(s.queue)
    ensures Popped(s).queue == Drop(s.queue, s.queue[0])
  {
    DropAt(s.queue, 0);
    assert Without(s.queue, 0) == s.queue[1..];
  }

  class TimerList {
    const u: Setup
    const L: nat
    var rows: seq<Links<int>>
    var timeout: map<int, int>
    var active: set<int>
    var randomNr: nat
    var tick: int
    var trace: seq<int>
    var clock: nat                   // the time outside: only what a callback does depends on it
    ghost var abs: Abs

    ghost predicate Valid()
      reads this
    {
      |rows| == L && clock == abs.s.now && Rep(u, rows, tick, timeout, active, trace, abs)
    }

    /** rt_system_timer_init and rt_timer_init of every timer. */
    constructor (u: Setup, levels: nat)
      requires Sane(u) && levels > 0 && HEAD !in u.init
      ensures Valid() && L == levels && this.u == u
      ensures abs.s == State(0, [], {}, map t | t in u.init :: 0, []) && trace == [] && Settled(u, abs.s)
    {
      this.u := u;
      L := levels;
      var row := Links(map t | t in u.init.Keys + {HEAD} :: t, map t | t in u.init.Keys + {HEAD} :: t);
      rows := seq(levels, _ => row);
      timeout := map t | t in u.init :: 0;
      active := {};
      randomNr := 0;
      tick := 0;
      trace := [];
      clock := 0;
      abs := Abs(State(0, [], {}, map t | t in u.init :: 0, []), seq(levels, _ => u.init.Keys));
    }

    /** _rt_timer_remove: take the node out of every row, whether or not it is linked there. */
    method RemoveTimer(t: int)
      requires Valid() && t in u.init
      modifies this`rows
      ensures |rows| == L && Rows(rows, Drop(abs.s.queue, t), abs.levels, u.init.Keys)
    {
      hide WellFormed, Nested, Ticks, Traced, RowOk, Drop;
      ghost var q, ids := abs.s.queue, u.init.Keys;
      WellDistinct(u, abs.s);
      var i := 0;
      while i < L
        invariant 0 <= i <= L == |rows| == |abs.levels|
        invariant forall r :: 0 <= r < i ==> RowOk(rows[r], Sieve(Drop(q, t), abs.levels[r]), ids)
        invariant forall r :: i <= r < L ==> RowOk(rows[r], Sieve(q, abs.levels[r]), ids)
      {
        RowRemove(rows[i], Sieve(q, abs.levels[i]), ids, t);
        SieveDrop(q, abs.levels[i], t);
        rows := rows[i := rows[i].Remove(t)];
        i := i + 1;
      }
    }

    /** The walk along one row of rt_timer_start, from a node that is not past the slot. */
    method WalkRow(r: nat, start: int, t: int, ghost list: seq<int>, ghost deadline: map<int, nat>, ghost from: nat)
      returns (node: int)
      requires r < |rows| && RowOk(rows[r], list, u.init.Keys)
      requires Known(list, deadline) && Sorted(list, deadline) && t in deadline && Window(list, deadline, deadline[t])
      requires Ticks(timeout, deadline)
      requires from <= |list| && start == ([HEAD] + list)[from]
               && (from > 0 ==> deadline[list[from - 1]] <= deadline[t])
      ensures node == SlotOf(list, deadline, deadline[t])
    {
      hide RowOk, Sorted, CountUpTo;
      node := start;
      ghost var i := from;
      RowNext(rows[r], list, u.init.Keys, i);
      while node != rows[r].prev[HEAD]
        invariant i <= |list| && node == ([HEAD] + list)[i]
        invariant i > 0 ==> deadline[list[i - 1]] <= deadline[t]
        invariant rows[r].Has(node) && rows[r].Has(HEAD)
        decreases |list| - i
      {
        RowNext(rows[r], list, u.init.Keys, i);
        var p := rows[r].next[node];
        WrapCompare(deadline[p], deadline[t]);
        var difference := Minus(timeout[p], timeout[t]);
        if difference != 0 && difference < HALF {
          break;
        }
        node := p;
        i := i + 1;
        RowNext(rows[r], list, u.init.Keys, i);
      }
      RowNext(rows[r], list, u.init.Keys, i);
      CountIs(list, deadline, deadline[t], i);
    }

    /** The search of rt_timer_start: one predecessor per row, each found from the one above. */
    method FindSlots(t: int, ghost q: seq<int>, ghost deadline: map<int, nat>) returns (slots: seq<int>)
      requires |rows| == L && Rows(rows, q, abs.levels, u.init.Keys) && Nested(abs.levels, u.init.Keys)
      requires Known(q, deadline) && Sorted(q, deadline) && t in deadline && Window(q, deadline, deadline[t])
      requires Ticks(timeout, deadline)
      ensures |slots| == L
      ensures forall r :: 0 <= r < L ==>
                Known(Sieve(q, abs.levels[r]), deadline)
                  && slots[r] == SlotOf(Sieve(q, abs.levels[r]), deadline, deadline[t])
    {
      hide RowOk, Sorted, Known, Ticks, Window, SlotOf;
      slots := [];
      var head := HEAD;
      ghost var from := 0;
      SieveKnown(q, deadline, deadline[t], abs.levels[0]);
      while |slots| < L
        invariant |slots| <= L
        invariant forall r :: 0 <= r < |slots| ==>
                    Known(Sieve(q, abs.levels[r]), deadline)
                      && slots[r] == SlotOf(Sieve(q, abs.levels[r]), deadline, deadline[t])
        invariant |slots| < L ==>
                    && Known(Sieve(q, abs.levels[|slots|]), deadline)
                    && 0 <= from <= |Sieve(q, abs.levels[|slots|])|
                    && head == ([HEAD] + Sieve(q, abs.levels[|slots|]))[from]
                    && (from > 0 ==> SafeDeadline(Sieve(q, abs.levels[|slots|]), deadline, from - 1) <= deadline[t])
        decreases L - |slots|
      {
        var r := |slots|;
        ghost var list := Sieve(q, abs.levels[r]);
        SieveKnown(q, deadline, deadline[t], abs.levels[r]);
        head := WalkRow(r, head, t, list, deadline, from);
        slots := slots + [head];
        if r + 1 < L {
          SieveKnown(q, deadline, deadline[t], abs.levels[r + 1]);
          from := RowBelow(q, abs.levels, u.init.Keys, r, deadline, deadline[t]);
        }
      }
    }

    /** The insertions of rt_timer_start: the bottom row always, each row above while two bits of the counter are 0. */
    method InsertRows(t: int, slots: seq<int>, ghost q: seq<int>, ghost deadline: map<int, nat>)
      returns (ghost top: nat)
      requires |rows| == L && Rows(rows, q, abs.levels, u.init.Keys) && Nested(abs.levels, u.init.Keys)
      requires t in u.init && t !in q && Known(q, deadline) && Sorted(q, deadline) && t in deadline
      requires |slots| == L
      requires forall r :: 0 <= r < L ==>
                 Known(Sieve(q, abs.levels[r]), deadline)
                   && slots[r] == SlotOf(Sieve(q, abs.levels[r]), deadline, deadline[t])
      modifies this`rows, this`randomNr
      ensures |rows| == L == |abs.levels| && top < L && randomNr == (old(randomNr) + 1) % WRAP
      ensures Rows(rows, Placed(q, deadline, t), Levelled(abs.levels, t, top), u.init.Keys)
    {
      hide RowOk, Sorted, Known, SlotOf, Placed;
      randomNr := (randomNr + 1) % WRAP;
      var tst := randomNr;
      ghost var before := rows;
      InsertOne(rows[L - 1], q, abs.levels[L - 1], u.init.Keys, deadline, t);
      rows := rows[L - 1 := rows[L - 1].InsertAfter(slots[L - 1], t)];
      top := L - 1;
      var row := 2;
      while row <= L
        invariant randomNr == (old(randomNr) + 1) % WRAP
        invariant 2 <= row && |rows| == L == |before| && top == L + 1 - row
        invariant forall r :: top <= r < L ==> RowOk(rows[r], Placed(Sieve(q, abs.levels[r]), deadline, t), u.init.Keys)
        invariant forall r :: 0 <= r < top ==> rows[r] == before[r]
      {
        if tst % 4 != 0 {
          break;
        }
        InsertOne(rows[L - row], q, abs.levels[L - row], u.init.Keys, deadline, t);
        rows := rows[L - row := rows[L - row].InsertAfter(slots[L - row], t)];
        tst := tst / 4;
        row := row + 1;
        top := top - 1;
      }
      RowsPlaced(before, rows, q, abs.levels, u.init.Keys, deadline, t, top);
    }

    /** rt_timer_start. */
    method Start(t: int)
      requires Valid() && t in u.init
      modifies this
      ensures Valid() && abs.s == Started(u, old(abs.s), t) && trace == old(trace) && tick == old(tick)
    {
      hide Rep, WellFormed, Nested, Rows, Ticks, Traced, Sorted, Known, Window, Distinct, Placed, Drop, Started;
      ghost var s := abs.s;
      ghost var q, deadline := Drop(s.queue, t), s.deadline[t := s.now + u.init[t]];
      RepParts(u, rows, tick, timeout, active, trace, abs, t);
      StartWindow(u, s, t);
      StartedKeeps(u, s, t);
      StartTicks(timeout, s.deadline, t, tick, s.now, u.init[t]);
      RemoveTimer(t);
      active := active - {t};
      timeout := timeout[t := (tick + u.init[t]) % WRAP];
      var slots := FindSlots(t, q, deadline);
      ghost var top := InsertRows(t, slots, q, deadline);
      active := active + {t};
      StartRep(u, rows, tick, timeout, active, trace, Abs(s, abs.levels), t, top);
      abs := Abs(Started(u, s, t), Levelled(abs.levels, t, top));
    }

    /** rt_timer_stop. */
    method Stop(t: int) returns (ok: bool)
      requires Valid() && t in u.init
      modifies this
      ensures Valid() && abs.s == Stopped(old(abs.s), t) && trace == old(trace) && tick == old(tick)
      ensures ok <==> t in old(abs.s.active)
    {
      hide Nested, Rows, Ticks, Traced, Sorted, Known, Distinct, Sane, Near, Drop;
      if t !in active {
        return false;
      }
      StoppedKeeps(u, abs.s, t);
      RemoveTimer(t);
      active := active - {t};
      abs := Abs(Stopped(abs.s, t), abs.levels);
      ok := true;
    }

    /** A timeout function: it makes its timer calls. */
    method Timeout(cs: seq<Call>)
      requires Valid() && forall i :: 0 <= i < |cs| ==> cs[i].t in u.init
      modifies this
      ensures Valid() && abs.s == Ran(u, old(abs.s), cs) && trace == old(trace) && tick == old(tick)
    {
      hide Rep, Ran, Started, Stopped, WellFormed;
      RepWell(u, rows, tick, timeout, active, trace, abs);
      var i := 0;
      assert cs[0..] == cs;
      while i < |cs|
        invariant 0 <= i <= |cs| && Valid() && WellFormed(u, abs.s)
        invariant Ran(u, abs.s, cs[i..]) == Ran(u, old(abs.s), cs)
        invariant trace == old(trace) && tick == old(tick)
      {
        RanStep(u, abs.s, cs[i..]);
        assert cs[i..][1..] == cs[i + 1..];
        match cs[i] {
          case Start(t) => Start(t);
          case Stop(t) => var _ := Stop(t);
        }
        i := i + 1;
      }
      RanStep(u, abs.s, cs[i..]);
    }

    /** One expiry in rt_timer_check: unlink, call, then re-arm a periodic timer that is still active. */
    method Fire(t: int)
      requires Valid() && abs.s.queue != [] && t == abs.s.queue[0]
      modifies this
      ensures Valid() && abs.s == Fired(u, old(abs.s)) && trace == old(trace) + [t] && tick == old(tick)
    {
      hide Nested, Rows, Ticks, Sorted, Known, Distinct, Sane, Near, Drop, Ran, Started;
      ghost var s := abs.s;
      PoppedKeeps(u, s);
      PopDrops(u, s);
      RanKeeps(u, Popped(s), u.script[t](clock));
      RemoveTimer(t);
      trace := trace + [t];
      abs := Abs(Popped(s), abs.levels);
      Timeout(u.script[t](clock));
      ghost var idle := abs.s.(active := abs.s.active - {t});
      IdleKeeps(u, abs.s, t);
      if t in u.periodic && t in active {
        active := active - {t};
        abs := Abs(idle, abs.levels);
        Start(t);
      } else {
        active := active - {t};
        abs := Abs(idle, abs.levels);
      }
    }

    /** rt_timer_check. */
    method Check()
      requires Valid()
      modifies this
      ensures Valid() && abs.s == Checked(u, old(abs.s)) && tick == old(tick)
    {
      hide Rep, WellFormed, HeadDue, Fired, Due;
      RepWell(u, rows, tick, timeout, active, trace, abs);
      RepHead(u, rows, tick, timeout, active, trace, abs);
      while rows[L - 1].next[HEAD] != HEAD
        invariant Valid() && WellFormed(u, abs.s) && Known(abs.s.queue, abs.s.deadline) && tick == old(tick)
        invariant Checked(u, abs.s) == Checked(u, old(abs.s))
        invariant L > 0 && HEAD in rows[L - 1].next
        invariant HeadWords(rows, abs.s.queue, timeout, tick, HeadDue(abs.s))
        decreases |Due(abs.s)|
      {
        var t := rows[L - 1].next[HEAD];
        if Minus(tick, timeout[t]) < HALF {
          CheckedStep(u, abs.s);
          Fire(t);
          RepHead(u, rows, tick, timeout, active, trace, abs);
        } else {
          break;
        }
      }
      CheckedStop(u, abs.s);
    }

    /** The part of rt_tick_increase that concerns timers. */
    method TickIncrease()
      requires Valid() && Settled(u, abs.s)
      modifies this
      ensures Valid() && abs.s == Ticked(u, old(abs.s)) && tick == (old(tick) + 1) % WRAP
    {
      hide Nested, Rows, Ticks, Traced, Sorted, Known, Distinct, Sane, Near, Checked;
      LaterKeeps(u, abs.s);
      WrapAdd(abs.s.now, 1);
      tick := (tick + 1) % WRAP;
      clock := clock + 1;
      abs := Abs(abs.s.(now := abs.s.now + 1), abs.levels);
      Check();
    }

    /** rt_timer_list_next_timeout: the earliest deadline of all linked timers. */
    method NextTimeout() returns (next: int)
      requires Valid()
      ensures abs.s.queue == [] ==> next == TICK_MAX
      ensures abs.s.queue != [] ==>
                && WellFormed(u, abs.s) && next == abs.s.deadline[abs.s.queue[0]] % WRAP
                && forall i :: 0 <= i < |abs.s.queue| ==>
                   abs.s.deadline[abs.s.queue[0]] <= abs.s.deadline[abs.s.queue[i]]
    {
      RepHead(u, rows, tick, timeout, active, trace, abs);
      if rows[L - 1].next[HEAD] == HEAD {
        next := TICK_MAX;
      } else {
        next := timeout[rows[L - 1].next[HEAD]];
      }
    }
  }

  ghost function SafeDeadline(list: seq<int>, deadline: map<int, nat>, i: nat): nat
    requires Known(list, deadline) && i < |list|
  {
    deadline[list[i]]
  }

  lemma WellDistinct(u: Setup, s: State)
    requires WellFormed(u, s)
    ensures Distinct(s.queue)
  {
  }

  lemma InsertOne(k: Links<int>, q: seq<int>, m: set<int>, ids: set<int>, deadline: map<int, nat>, t: int)
    requires RowOk(k, Sieve(q, m), ids) && t in ids && t !in q && t in deadline && Known(Sieve(q, m), deadline)
    ensures k.Has(SlotOf(Sieve(q, m), deadline, deadline[t]))
    ensures RowOk(k.InsertAfter(SlotOf(Sieve(q, m), deadline, deadline[t]), t), Placed(Sieve(q, m), deadline, t), ids)
  {
    hide RowOk, CountUpTo;
    InSieve(q, m);
    RowInsert(k, Sieve(q, m), ids, t, CountUpTo(Sieve(q, m), deadline, deadline[t]));
  }

  lemma StartedIs(u: Setup, s: State, t: int)
    requires WellFormed(u, s) && t in u.init
    ensures Known(Drop(s.queue, t), s.deadline[t := s.now + u.init[t]])
    ensures Started(u, s, t).queue == Placed(Drop(s.queue, t), s.deadline[t := s.now + u.init[t]], t)
  {
    hide Placed, Drop, CountUpTo;
    StartWindow(u, s, t);
  }

  lemma RepParts(u: Setup, rows: seq<Links<int>>, tick: int, timeout: map<int, int>, active: set<int>, trace: seq<int>,
                 a: Abs, t: int)
    requires Rep(u, rows, tick, timeout, active, trace, a) && t in u.init
    ensures WellFormed(u, a.s) && Nested(a.levels, u.init.Keys) && |rows| == |a.levels|
    ensures tick == a.s.now % WRAP && Ticks(timeout, a.s.deadline) && active == a.s.active && Traced(trace, a.s.log)
    ensures t in a.s.deadline
  {
    hide Sorted, Distinct, Sane, Near, Traced, Ticks, Nested, RowOk;
  }

  /** What a start leaves in the words. */
  lemma StartRep(u: Setup, rows: seq<Links<int>>, tick: int, timeout: map<int, int>, active: set<int>, trace: seq<int>,
                 a: Abs, t: int, top: nat)
    requires WellFormed(u, a.s) && t in u.init && Nested(a.levels, u.init.Keys) && top < |a.levels|
    requires Known(Drop(a.s.queue, t), a.s.deadline[t := a.s.now + u.init[t]])
    requires Rows(rows, Placed(Drop(a.s.queue, t), a.s.deadline[t := a.s.now + u.init[t]], t),
             Levelled(a.levels, t, top), u.init.Keys)
    requires tick == a.s.now % WRAP && Ticks(timeout, a.s.deadline[t := a.s.now + u.init[t]])
    requires active == a.s.active + {t} && Traced(trace, a.s.log)
    ensures Rep(u, rows, tick, timeout, active, trace, Abs(Started(u, a.s, t), Levelled(a.levels, t, top)))
  {
    hide Nested, Rows, Ticks, Traced, Placed, Drop, WellFormed, Levelled;
    StartedKeeps(u, a.s, t);
    StartedIs(u, a.s, t);
    StartedActive(u, a.s, t);
    LevelledNested(a.levels, u.init.Keys, t, top);
  }

  lemma RepWell(u: Setup, rows: seq<Links<int>>, tick: int, timeout: map<int, int>, active: set<int>, trace: seq<int>,
                a: Abs)
    requires Rep(u, rows, tick, timeout, active, trace, a)
    ensures WellFormed(u, a.s)
  {
  }

  lemma RanStep(u: Setup, s: State, cs: seq<Call>)
    requires WellFormed(u, s) && forall i :: 0 <= i < |cs| ==> cs[i].t in u.init
    ensures cs == [] ==> Ran(u, s, cs) == s
    ensures cs != [] ==> WellFormed(u, Called(u, s, cs[0])) && Ran(u, s, cs) == Ran(u, Called(u, s, cs[0]), cs[1..])
  {
    if cs != [] {
      CalledKeeps(u, s, cs[0]);
    }
  }

  lemma PopDrops(u: Setup, s: State)
    requires WellFormed(u, s) && s.queue != []
    ensures Popped(s).queue == Drop(s.queue, s.queue[0])
  {
    PoppedIsDropped(s);
  }

  /** What the head of the bottom row tells the check. */
  ghost predicate HeadWords(rows: seq<Links<int>>, q: seq<int>, timeout: map<int, int>, tick: int, due: bool) {
    && |rows| > 0 && HEAD in rows[|rows| - 1].next
    && (rows[|rows| - 1].next[HEAD] == HEAD <==> q == [])
    && (q != [] ==>
       q[0] == rows[|rows| - 1].next[HEAD] && q[0] in timeout && (Minus(tick, timeout[q[0]]) < HALF <==> due))
    && (q == [] ==> !due)
  }

  lemma RepHead(u: Setup, rows: seq<Links<int>>, tick: int, timeout: map<int, int>, active: set<int>, trace: seq<int>,
                a: Abs)
    requires Rep(u, rows, tick, timeout, active, trace, a)
    ensures WellFormed(u, a.s) && Known(a.s.queue, a.s.deadline)
            && HeadWords(rows, a.s.queue, timeout, tick, HeadDue(a.s))
  {
    hide RowOk, Sorted, Distinct, Sane, Near;
    BottomRow(a.s.queue, a.levels, u.init.Keys);
    RowFirst(rows[|rows| - 1], a.s.queue, u.init.Keys);
    if a.s.queue != [] {
      HeadInWindow(u, a.s);
      WrapCompare(a.s.now, a.s.deadline[a.s.queue[0]]);
    }
  }

  lemma CheckedStep(u: Setup, s: State)
    requires WellFormed(u, s) && HeadDue(s)
    ensures WellFormed(u, Fired(u, s)) && Checked(u, s) == Checked(u, Fired(u, s)) && |Due(Fired(u, s))| < |Due(s)|
    ensures s.queue != []
  {
    hide Fired, Due, Sorted, Distinct, Sane, Near;
    FiredDue(u, s);
    PoppedDue(u, s);
    SmallerSet(Due(Fired(u, s)), Due(s), s.queue[0]);
  }

  lemma CheckedStop(u: Setup, s: State)
    requires WellFormed(u, s) && !HeadDue(s)
    ensures Checked(u, s) == s
  {
  }
}
