/**
  Round robin: the contexts ahead of one that gives way run before it, each
  once and in order, whatever arrives later.
*/
module Turns {
  import opened Wrappers
  import opened Schedule

  /** The contexts in the order in which they will run, the running one first. */
  ghost function Line<C, P>(s: Sched<C, P>): seq<C>
    requires s.current.Some?
  {
    [s.current.value] + s.ready
  }

  lemma {:induction false} OnlySleepers<C, P>(prom: map<C, P>, order: seq<C>)
    requires forall c | c in order :: c !in prom
    ensures TimedOut(prom, order) == [] && Woken(prom, order) == order
  {
    if order != [] {
      OnlySleepers(prom, order[..|order| - 1]);
      assert order[|order| - 1] in order;
      assert order == order[..|order| - 1] + [order[|order| - 1]];
    }
  }

  lemma ExpiredSleepers<C, P>(s: Sched<C, P>, order: seq<C>)
    requires forall c | c in order :: c !in s.prom
    requires forall c | c in s.blocked :: c in s.prom
    ensures Expired(s, order) == s.(ready := s.ready + order, sleeping := s.sleeping - SetOf(order))
  {
    OnlySleepers(s.prom, order);
    WithoutNothing(s.blocked, SetOf(order));
    assert Reverse<C>([]) + s.ready + order == s.ready + order;
  }

  lemma SleepersGoLast<C, P>(s: Sched<C, P>, running: set<C>, now: Time, order: seq<C>)
    requires Settled(s, running) && OneWaiter(s) && DueInOrder(s, now, order)
    requires forall c | c in order :: c !in s.prom
    ensures ExpireAll(s, order) == s.(ready := s.ready + order, sleeping := s.sleeping - SetOf(order))
  {
    ExpireAllDue(s, running, now, order);
    ExpiredSleepers(s, order);
  }

  lemma SameTail<T>(x: T, s: seq<T>, y: T, t: seq<T>)
    requires [x] + s <= [y] + t
    ensures x == y && s <= t && (|s| == |t| ==> s == t)
  {
    assert ([x] + s)[0] == x && ([y] + t)[0] == y;
    forall i | 0 <= i < |s| ensures i < |t| && s[i] == t[i] {
      assert ([x] + s)[i + 1] == s[i] && ([y] + t)[i + 1] == t[i];
    }
  }

  /** One yield moves the yielding context behind everybody who is ready by then. */
  lemma YieldRotates<C, P>(s: Sched<C, P>, now: Time, order: seq<C>, made: C)
    requires Consistent(s) && OneWaiter(s) && DueInOrder(s, now, order)
    requires forall c | c in order :: c !in s.prom
    requires s.ready + order != []
    ensures var t := StartNext(s, order, s.current.value, true, made);
            && t.current.Some? && Line(t) == s.ready + order + [s.current.value]
            && t.blocked == s.blocked && t.all == s.all && t.prom == s.prom && t.resume == s.resume
  {
    SleepersGoLast(s, {s.current.value}, now, order);
    var r := s.ready + order;
    assert [r[0]] + (r[1..] + [s.current.value]) == r + [s.current.value];
  }

  /**
    A yield never returns at once: whatever expires before it, another
    context runs and the yielding one is ready.  When nobody else is ready
    the other one is new.
  */
  lemma YieldGivesWay<C, P>(s: Sched<C, P>, now: Time, order: seq<C>, made: C)
    requires Consistent(s) && OneWaiter(s) && DueInOrder(s, now, order)
    requires NewNames(s, order, s.current.value, made)
    ensures var t := StartNext(s, order, s.current.value, true, made);
            && t.current.Some? && t.current != s.current && s.current.value in t.ready
            && (ExpireAll(s, order).ready == [] ==>
                  t.current == Some(made) && made !in s.all && t.ready == [s.current.value])
  {
    var c := s.current.value;
    var t := StartNext(s, order, c, true, made);
    ExpireAllDue(s, {c}, now, order);
    RunningIsNowhere(s);
    RunningIsNowhere(ExpireAll(s, order));
    StartNextConsistent(s, now, order, c, true, made);
  }

  // ----- Contexts that take turns -----

  /** What a context first does to itself when it is back in a call. */
  datatype Back = FromYield | FromWait | FromSleep

  /** How it then gives way. */
  datatype Way<P> = Yields | Sleeps(until: Time) | Waits(p: P, deadline: Time)

  /** Who expires when it does, by which clock, and the name of a context made because nobody is ready. */
  datatype Turn<C, P> = Turn(back: Back, way: Way<P>, order: seq<C>, now: Time, made: C)

  ghost function Ended<C, P>(s: Sched<C, P>, back: Back): Sched<C, P>
    requires s.current.Some?
  {
    match back
    case FromYield => s
    case FromWait => EndWait(s)
    case FromSleep => EndSleep(s)
  }

  ghost function Leaving<C, P>(s: Sched<C, P>, t: Turn<C, P>): Sched<C, P>
    requires s.current.Some?
  {
    var e := Ended(s, t.back);
    match t.way
    case Yields => e
    case Sleeps(until) => BeginSleep(e, until)
    case Waits(p, deadline) => BeginWait(e, p, deadline)
  }

  /** A turn in which no wait times out, and no second context comes to wait on a promise. */
  ghost predicate TakesTurn<C, P>(s: Sched<C, P>, t: Turn<C, P>, n: Sched<C, P>) {
    s.current.Some? &&
    var l := Leaving(s, t);
    && NewNames(l, t.order, s.current.value, t.made) && DueInOrder(l, t.now, t.order)
    && (forall c | c in t.order :: c !in l.prom)
    && (t.way.Waits? ==> forall c | c in s.blocked :: !WaitsOn(s.prom, c, t.way.p))
    && n == StartNext(l, t.order, s.current.value, t.way.Yields?, t.made)
  }

  /** Turns from a consistent state: contexts yield, sleep and wait; sleepers wake, and nobody notifies. */
  ghost predicate TakeTurns<C, P>(ss: seq<Sched<C, P>>, turns: seq<Turn<C, P>>) {
    && |ss| == |turns| + 1 && Consistent(ss[0]) && OneWaiter(ss[0])
    && forall i {:trigger turns[i]} | 0 <= i < |turns| :: TakesTurn(ss[i], turns[i], ss[i + 1])
  }

  lemma LeavingSettled<C, P>(s: Sched<C, P>, t: Turn<C, P>)
    requires Consistent(s) && OneWaiter(s)
    requires t.way.Waits? ==> forall c | c in s.blocked :: !WaitsOn(s.prom, c, t.way.p)
    ensures var l := Leaving(s, t);
            && Settled(l, Running(l, t.way.Yields?)) && OneWaiter(l)
            && l.current == s.current && l.ready == s.ready
  {
    EndConsistent(s);
    var e := Ended(s, t.back);
    match t.way {
      case Yields =>
      case Sleeps(until) => BeginSleepSettled(e, until);
      case Waits(p, deadline) =>
        assert forall c | c in e.blocked :: !WaitsOn(e.prom, c, p);
        BeginWaitSettled(e, p, deadline);
    }
  }

  /** Every state on the way is consistent. */
  lemma {:induction false} TurnsConsistent<C, P>(ss: seq<Sched<C, P>>, turns: seq<Turn<C, P>>, i: nat)
    requires TakeTurns(ss, turns) && i < |ss|
    ensures Consistent(ss[i]) && OneWaiter(ss[i])
  {
    if i > 0 {
      TurnsConsistent(ss, turns, i - 1);
      var s, t := ss[i - 1], turns[i - 1];
      assert TakesTurn(s, t, ss[i]);
      LeavingSettled(s, t);
      StartNextConsistent(Leaving(s, t), t.now, t.order, s.current.value, t.way.Yields?, t.made);
    }
  }

  /** Who runs after the turn, in order: those ready before, those that woke, and the context itself if it yields. */
  ghost function LineAfter<C, P>(s: Sched<C, P>, t: Turn<C, P>): seq<C>
    requires s.current.Some?
  {
    s.ready + t.order + if t.way.Yields? then [s.current.value] else []
  }

  lemma TurnOrder<C, P>(s: Sched<C, P>, t: Turn<C, P>, n: Sched<C, P>)
    requires Consistent(s) && OneWaiter(s) && TakesTurn(s, t, n) && s.ready + t.order != []
    ensures n.current.Some? && Line(n) == LineAfter(s, t)
  {
    var l := Leaving(s, t);
    LeavingSettled(s, t);
    SleepersGoLast(l, Running(l, t.way.Yields?), t.now, t.order);
    var r, again := s.ready + t.order, if t.way.Yields? then [s.current.value] else [];
    assert [r[0]] + (r[1..] + again) == r + again;
  }

  lemma OneMore<C, P>(ss: seq<Sched<C, P>>, turns: seq<Turn<C, P>>, i: nat)
    requires TakeTurns(ss, turns) && i < |turns| && ss[i].ready + turns[i].order != []
    ensures ss[i].current.Some? && ss[i + 1].current.Some?
    ensures Line(ss[i + 1]) == LineAfter(ss[i], turns[i])
  {
    TurnsConsistent(ss, turns, i);
    TurnOrder(ss[i], turns[i], ss[i + 1]);
  }

  /** `line` turned by `k` places. */
  function Turned<T>(line: seq<T>, k: nat): (r: seq<T>)
    requires k <= |line|
    ensures |r| == |line|
  {
    line[k..] + line[..k]
  }

  lemma TurnMore<T>(line: seq<T>, k: nat)
    requires k < |line|
    ensures Turned(line, k) == [line[k]] + (line[k + 1..] + line[..k])
    ensures line[k + 1..] + line[..k] + [line[k]] == if k + 1 == |line| then Turned(line, 0) else Turned(line, k + 1)
  {
    assert line[..k + 1] == line[..k] + [line[k]];
  }

  lemma TurnOnce<C, P>(s: Sched<C, P>, line: seq<C>, k: nat)
    requires s.current.Some? && k < |line| && Line(s) == Turned(line, k)
    ensures s.ready + [s.current.value] == if k + 1 == |line| then Turned(line, 0) else Turned(line, k + 1)
  {
    TurnMore(line, k);
    SameTail(line[k], line[k + 1..] + line[..k], s.current.value, s.ready);
  }

  lemma NoMultipleBetween(d: int, n: nat)
    requires 0 - n < d * n < n
    ensures d == 0
  {
    if d >= 1 {
      assert d * n == n + (d - 1) * n;
    } else if d <= -1 {
      assert d * n == (d + 1) * n - n;
    }
  }

  lemma Remainder(m: nat, q: nat, r: nat, n: nat)
    requires r < n && m == q * n + r
    ensures m % n == r
  {
    var d := m / n - q;
    assert m == m / n * n + m % n;
    assert d * n == m / n * n - q * n;
    NoMultipleBetween(d, n);
  }

  /** The place in a line of n after k steps. */
  function Place(k: nat, n: nat): (r: nat)
    requires n > 0
    ensures r < n
  {
    if k == 0 then 0 else if Place(k - 1, n) + 1 == n then 0 else Place(k - 1, n) + 1
  }

  lemma {:induction false} PlaceIsRemainder(k: nat, n: nat) returns (q: nat)
    requires n > 0
    ensures k == q * n + Place(k, n) && Place(k, n) == k % n
  {
    if k == 0 {
      q := 0;
    } else {
      q := PlaceIsRemainder(k - 1, n);
      if Place(k - 1, n) + 1 == n {
        assert (q + 1) * n == q * n + n;
        q := q + 1;
      }
    }
    Remainder(k, q, Place(k, n), n);
  }

  lemma TurnedOnce<C, P>(ss: seq<Sched<C, P>>, turns: seq<Turn<C, P>>, i: nat, line: seq<C>, k: nat)
    requires TakeTurns(ss, turns) && i < |turns| && turns[i].way.Yields? && turns[i].order == []
    requires k < |line| && |line| > 1 && ss[i].current.Some? && Line(ss[i]) == Turned(line, k)
    ensures ss[i + 1].current.Some?
    ensures Line(ss[i + 1]) == if k + 1 == |line| then Turned(line, 0) else Turned(line, k + 1)
  {
    var s := ss[i];
    TurnOnce(s, line, k);
    assert |Line(s)| == |line| && s.ready + turns[i].order == s.ready;
    OneMore(ss, turns, i);
  }

  lemma {:induction false} ManyTurns<C, P>(ss: seq<Sched<C, P>>, turns: seq<Turn<C, P>>, k: nat)
    requires TakeTurns(ss, turns) && ss[0].ready != []
    requires forall i {:trigger turns[i]} | 0 <= i < |turns| :: turns[i].way.Yields? && turns[i].order == []
    requires k <= |turns|
    ensures ss[0].current.Some? && ss[k].current.Some?
    ensures Line(ss[k]) == Turned(Line(ss[0]), Place(k, |ss[0].ready| + 1))
  {
    if k > 0 {
      ManyTurns(ss, turns, k - 1);
      var line := Line(ss[0]);
      assert |line| == |ss[0].ready| + 1 && turns[k - 1].way.Yields?;
      TurnedOnce(ss, turns, k - 1, line, Place(k - 1, |line|));
    }
  }

  /**
    While everybody yields and nothing expires, `k` yields turn the line by
    `k`: after every full circle it is as it was, and each context has run
    once in each.
  */
  lemma ManyYields<C, P>(ss: seq<Sched<C, P>>, turns: seq<Turn<C, P>>, k: nat)
    requires TakeTurns(ss, turns) && ss[0].ready != []
    requires forall i {:trigger turns[i]} | 0 <= i < |turns| :: turns[i].way.Yields? && turns[i].order == []
    requires k <= |turns|
    ensures Consistent(ss[0]) && Consistent(ss[k])
    ensures Line(ss[k]) == Turned(Line(ss[0]), k % (|ss[0].ready| + 1))
  {
    TurnsConsistent(ss, turns, k);
    ManyTurns(ss, turns, k);
    var _ := PlaceIsRemainder(k, |ss[0].ready| + 1);
  }

  /** Whoever was next in `line` runs, and the line behind stays in front of later arrivals. */
  lemma NextInLine<C, P>(ss: seq<Sched<C, P>>, turns: seq<Turn<C, P>>, j: nat, line: seq<C>)
    requires TakeTurns(ss, turns) && 0 < j < |turns| && j < |line|
    requires ss[j].current.Some? && line[j - 1..] <= Line(ss[j])
    ensures ss[j + 1].current.Some? && ss[j + 1].current.value == line[j] && line[j..] <= Line(ss[j + 1])
  {
    var s, rest := ss[j], line[j..];
    assert line[j - 1..] == [line[j - 1]] + rest;
    SameTail(line[j - 1], rest, s.current.value, s.ready);
    OneMore(ss, turns, j);
    assert rest <= LineAfter(s, turns[j]);
    assert rest[0] == line[j] && Line(ss[j + 1])[0] == ss[j + 1].current.value;
  }

  /**
    With arrivals.  The contexts ready when a context gives way, then the
    sleepers that expire in that very call, then the context itself if it
    yielded run next, in this order, however each of them gives way in its
    turn; sleepers that expire later do not overtake any of them.
  */
  lemma {:induction false} NobodyOvertakes<C, P>(ss: seq<Sched<C, P>>, turns: seq<Turn<C, P>>, j: nat)
    requires TakeTurns(ss, turns) && j < |turns| && ss[0].ready + turns[0].order != []
    requires j < |LineAfter(ss[0], turns[0])|
    ensures ss[j + 1].current.Some? && ss[j + 1].current.value == LineAfter(ss[0], turns[0])[j]
    ensures LineAfter(ss[0], turns[0])[j..] <= Line(ss[j + 1])
  {
    var line := LineAfter(ss[0], turns[0]);
    if j == 0 {
      OneMore(ss, turns, 0);
      assert Line(ss[1])[0] == ss[1].current.value;
    } else {
      NobodyOvertakes(ss, turns, j - 1);
      NextInLine(ss, turns, j, line);
    }
  }

  /**
    When a context that is about to suspend finds itself at the head of the
    ready list, which the code asserts never happens.  It does so exactly
    when it has expired meanwhile and is the last waiter to time out, or the
    first sleeper to wake with nobody else ready.
  */
  lemma SwitchToSelf<C, P>(s: Sched<C, P>, now: Time, order: seq<C>)
    requires s.current.Some? && Settled(s, {}) && OneWaiter(s) && DueInOrder(s, now, order)
    requires s.current.value !in s.ready
    ensures var c, out, woken := s.current.value, TimedOut(s.prom, order), Woken(s.prom, order);
            (ExpireAll(s, order).ready != [] && ExpireAll(s, order).ready[0] == c) <==>
              if out != [] then out[|out| - 1] == c else s.ready == [] && woken != [] && woken[0] == c
    ensures var ready := ExpireAll(s, order).ready;
            ready != [] && ready[0] == s.current.value ==>
              s.current.value in s.sleeping && s.resume[s.current.value] <= now
  {
    ExpireAllDue(s, {}, now, order);
    var c := s.current.value;
    TimedOutLast(s.prom, order);
    assert ExpireAll(s, order).ready == ReadyAfter(s.prom, s.ready, order);
    if c in ExpireAll(s, order).ready {
      assert c in s.all;
      assert Places(s, {}, c) == 1 && Places(ExpireAll(s, order), {}, c) == 1;
      assert c in SetOf(order);
    }
  }

  /** The only context sleeps until 3, but the clock already says 5 when it gives way. */
  lemma SleeperSwitchesToSelf() returns (s: Sched<nat, nat>, order: seq<nat>)
    ensures Consistent(s) && OneWaiter(s) && s.ready == []
    ensures var t := BeginSleep(s, 3);
            && DueInOrder(t, 5, order)
            && ExpireAll(t, order).ready == [s.current.value]
            && StartNext(t, order, s.current.value, false, 1).current == s.current
  {
    s, order := Sched({0}, Some(0), [], [], {}, map[], map[0 := 0]), [0];
    var t := BeginSleep(s, 3);
    assert SetOf(order) == {0};
    assert order[..0] == [];
    assert ExpireAll(t, order) == ExpireOne(t, 0);
  }

  lemma TimedOutLast<C, P>(prom: map<C, P>, order: seq<C>)
    ensures var out := TimedOut(prom, order);
            if out == [] then Reverse(out) == [] else Reverse(out) != [] && Reverse(out)[0] == out[|out| - 1]
  {
  }
}
