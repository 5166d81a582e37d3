/**
  Whole runs of one thread: any number of contexts call yield, sleep_until
  and wait, any thread completes promises, notifies run, and time passes.
  A promise may be waited on again and again, by one context at a time, and
  a notify may come late: all it knows is that its promise was completed
  some time before.
*/
module Runs {
  import opened Wrappers
  import opened Completions
  import opened Schedule

  /** The call a context is suspended in, or has not returned from yet. */
  datatype Call<P> = InSleep(until: Time) | InWait(p: P, deadline: Time)

  datatype Machine<C(==), P(==)> = Machine(
    sched: Sched<C, P>,
    now: Time,
    proms: map<P, PromState>,   // promises not mentioned are pending
    call: map<C, Call<P>>,
    // history
    waited: set<P>,             // promises some wait on which got past its first check
    completed: set<P>,          // promises that were ever completed
    answered: set<P>)           // promises completed since the last wait on them began
  {
    function State(p: P): PromState {
      if p in proms then proms[p] else PENDING
    }
  }

  datatype Event<C, P> =
    | Boot(boot: C)
    | Tick(t: Time)
    | Complete(p: P, c: Completion)
    | Notify(p: P, d: Option<C>)
    | Timeouts(order: seq<C>)
    | Yield(order: seq<C>, made: C)
    | SleepUntil(t: Time, order: seq<C>, made: C)
    | WaitOn(p: P, deadline: Time, order: seq<C>, made: C)
    | WaitReady(p: P)
    | Return

  ghost function Failing<C, P>(m: Machine<C, P>, order: seq<C>): set<P> {
    set c | c in order && c in m.sched.prom :: m.sched.prom[c]
  }

  ghost function TimeoutProms<C, P>(m: Machine<C, P>, order: seq<C>): map<P, PromState> {
    map p | p in m.proms.Keys + Failing(m, order) ::
      if Fails(m.sched.prom, order, p) then m.State(p).Complete(SetException(FutureWaitTimeout)) else m.State(p)
  }

  /** check_for_timeouts, with what it does to the promises. */
  ghost function Expiry<C, P>(m: Machine<C, P>, order: seq<C>): Machine<C, P> {
    m.(sched := ExpireAll(m.sched, order), proms := TimeoutProms(m, order),
       completed := m.completed + Failing(m, order), answered := m.answered + Failing(m, order))
  }

  ghost function SwitchAfter<C, P>(m: Machine<C, P>, order: seq<C>, reschedule: bool, made: C): Machine<C, P>
    requires m.sched.current.Some?
  {
    var t := Expiry(m, order);
    t.(sched := StartNext(m.sched, order, m.sched.current.value, reschedule, made))
  }

  /** The switch is possible: the right sleepers expire, and a new context has a new name. */
  ghost predicate CanSwitch<C, P>(s: Sched<C, P>, now: Time, order: seq<C>, made: C) {
    s.current.Some? && DueInOrder(s, now, order) && NewNames(s, order, s.current.value, made)
  }

  /** No context is inside a call that it has only to return from. */
  predicate AtLarge<C(==), P(==)>(m: Machine<C, P>) {
    m.sched.current.Some? ==> m.sched.current.value !in m.call
  }

  predicate NobodyIn<C, P(==)>(m: Machine<C, P>, p: P) {
    forall c | c in m.call && m.call[c].InWait? :: m.call[c].p != p
  }

  function Finished<C(==), P(==)>(m: Machine<C, P>, p: P, c: Completion): Machine<C, P> {
    m.(proms := m.proms[p := m.State(p).Complete(c)], completed := m.completed + {p}, answered := m.answered + {p})
  }

  ghost function Slept<C, P>(m: Machine<C, P>, t: Time): Machine<C, P>
    requires m.sched.current.Some?
  {
    m.(sched := BeginSleep(m.sched, t), call := m.call[m.sched.current.value := InSleep(t)])
  }

  ghost function Waited<C, P>(m: Machine<C, P>, p: P, deadline: Time): Machine<C, P>
    requires m.sched.current.Some?
  {
    m.(sched := BeginWait(m.sched, p, deadline), call := m.call[m.sched.current.value := InWait(p, deadline)],
       waited := m.waited + {p}, answered := m.answered - {p})
  }

  /** The running context leaves its call; a wait consumes the error it throws. */
  ghost function Returned<C, P>(m: Machine<C, P>): Machine<C, P>
    requires m.sched.current.Some? && m.sched.current.value in m.call
  {
    var c := m.sched.current.value;
    match m.call[c]
    case InSleep(_) => m.(sched := EndSleep(m.sched), call := m.call - {c})
    case InWait(p, _) => m.(sched := EndWait(m.sched), call := m.call - {c}, proms := m.proms[p := m.State(p).Consumed()])
  }

  ghost predicate Step<C, P>(m: Machine<C, P>, e: Event<C, P>, n: Machine<C, P>) {
    match e
    case Boot(c) => m.sched.current.None? && c !in m.sched.all && n == m.(sched := Schedule.Boot(m.sched, c))
    case Tick(t) => m.now <= t && n == m.(now := t)
    case Complete(p, c) =>
      (c.SetException? ==> c.e.Raised?) && n == Finished(m, p, c)
    case Notify(p, d) =>
      AtLarge(m) && p in m.completed && TimedChoice(m.sched, p, d) && n == m.(sched := NotifyResult(m.sched, p, d))
    case Timeouts(order) => AtLarge(m) && DueInOrder(m.sched, m.now, order) && n == Expiry(m, order)
    case Yield(order, made) =>
      AtLarge(m) && CanSwitch(m.sched, m.now, order, made) && n == SwitchAfter(m, order, true, made)
    case SleepUntil(t, order, made) =>
      AtLarge(m) && m.sched.current.Some? && CanSwitch(BeginSleep(m.sched, t), m.now, order, made) && n == SwitchAfter(Slept(m, t), order, false, made)
    case WaitOn(p, deadline, order, made) =>
      && AtLarge(m) && !m.State(p).Ready() && m.now <= deadline && NobodyIn(m, p) && m.sched.current.Some?
      && CanSwitch(BeginWait(m.sched, p, deadline), m.now, order, made)
      && n == SwitchAfter(Waited(m, p, deadline), order, false, made)
    case WaitReady(p) =>   // found ready, but only by the second check, in thread::wait
      && AtLarge(m) && m.sched.current.Some? && m.State(p).Ready() && NobodyIn(m, p)
      && n == m.(proms := m.proms[p := m.State(p).Consumed()], waited := m.waited + {p})
    case Return => m.sched.current.Some? && m.sched.current.value in m.call && n == Returned(m)
  }

  /** A thread that has no context yet. */
  ghost predicate Start<C, P>(m: Machine<C, P>) {
    && m.call == map[] && m.proms == map[] && m.waited == m.completed == m.answered == {}
    && m.sched == Sched({}, None, [], [], {}, map[], map[])
  }

  ghost predicate Run<C, P>(ms: seq<Machine<C, P>>, es: seq<Event<C, P>>) {
    && |ms| == |es| + 1 && Start(ms[0])
    && forall i {:trigger es[i]} | 0 <= i < |es| :: Step(ms[i], es[i], ms[i + 1])
  }

  // ----- The invariant -----

  /** What a context that is awake, but still inside its call, can rely on. */
  ghost predicate Due<C, P>(m: Machine<C, P>, c: C)
    requires c in m.call
  {
    match m.call[c]
    case InSleep(t) => t <= m.now
    case InWait(p, _) => p in m.completed
  }

  /** A suspended context is where its call put it. */
  ghost predicate Parked<C, P>(m: Machine<C, P>, c: C) {
    && c in m.call && c in m.sched.resume
    && match m.call[c]
       case InSleep(t) => c !in m.sched.blocked && m.sched.resume[c] == t
       case InWait(p, deadline) =>
         && c in m.sched.blocked && WaitsOn(m.sched.prom, c, p)
         && (c in m.sched.sleeping <==> deadline != TIME_MAX)
         && (c in m.sched.sleeping ==> m.sched.resume[c] == deadline)
  }

  ghost predicate AllParked<C, P>(m: Machine<C, P>) {
    forall c | c in m.sched.all && (c in m.sched.blocked || c in m.sched.sleeping) :: Parked(m, c)
  }

  ghost predicate AllDue<C, P>(m: Machine<C, P>, running: set<C>) {
    forall c | c in m.call && (c in running || c in m.sched.ready) :: Due(m, c)
  }

  /** Nobody else waits on the promise of a wait. */
  ghost predicate CallsApart<C, P>(m: Machine<C, P>) {
    && (forall c | c in m.call :: c in m.sched.all)
    && (forall c | c in m.call && m.call[c].InWait? :: m.call[c].p in m.waited)
    && (forall c, d | c in m.call && d in m.call && m.call[c].InWait? && m.call[d].InWait? && m.call[c].p == m.call[d].p :: c == d)
  }

  /**
    A wait times out at its deadline at the earliest, and it has an answer
    exactly if its promise was completed since it began.
  */
  ghost predicate Answered<C, P>(m: Machine<C, P>) {
    && (forall c | c in m.call && m.call[c].InWait? && m.State(m.call[c].p).error == Some(FutureWaitTimeout) ::
          m.call[c].deadline <= m.now)
    && (forall c | c in m.call && m.call[c].InWait? :: m.State(m.call[c].p).Ready() <==> m.call[c].p in m.answered)
  }

  ghost predicate Inv<C, P>(m: Machine<C, P>, running: set<C>) {
    Settled(m.sched, running) && OneWaiter(m.sched) && AllParked(m) && AllDue(m, running) && CallsApart(m) && Answered(m)
  }

  lemma ExpiryKeeps<C, P>(m: Machine<C, P>, running: set<C>, order: seq<C>)
    requires Inv(m, running) && DueInOrder(m.sched, m.now, order)
    ensures Inv(Expiry(m, order), running)
  {
    var n := Expiry(m, order);
    ExpireAllDue(m.sched, running, m.now, order);
    ExpiryDue(m, running, order);
    ExpiryCalls(m, running, order);
    assert forall c | c in n.sched.all && (c in n.sched.blocked || c in n.sched.sleeping) :: Parked(m, c);
  }

  lemma ExpiryCalls<C, P>(m: Machine<C, P>, running: set<C>, order: seq<C>)
    requires Inv(m, running) && DueInOrder(m.sched, m.now, order)
    requires ExpireAll(m.sched, order) == Expired(m.sched, order)
    ensures CallsApart(Expiry(m, order)) && Answered(Expiry(m, order))
  {
    var n := Expiry(m, order);
    forall c | c in m.call && m.call[c].InWait?
      ensures n.State(m.call[c].p).error == Some(FutureWaitTimeout) ==> m.call[c].deadline <= m.now
      ensures n.State(m.call[c].p).Ready() <==> m.call[c].p in n.answered
    {
      ExpiryAnswersWaiter(m, running, order, c);
    }
  }

  lemma ExpiryAnswersWaiter<C, P>(m: Machine<C, P>, running: set<C>, order: seq<C>, c: C)
    requires Inv(m, running) && DueInOrder(m.sched, m.now, order)
    requires c in m.call && m.call[c].InWait?
    ensures var n := Expiry(m, order);
            && (n.State(m.call[c].p).error == Some(FutureWaitTimeout) ==> m.call[c].deadline <= m.now)
            && (n.State(m.call[c].p).Ready() <==> m.call[c].p in n.answered)
  {
    TimeoutHits(m, running, order, c);
    assert c in order ==> c in SetOf(order) && Parked(m, c);
    if m.call[c].p in Failing(m, order) {
      var d :| d in order && d in m.sched.prom && m.sched.prom[d] == m.call[c].p;
      assert d in SetOf(order) && Parked(m, d);
      assert d == c;
    }
  }

  lemma ExpiryDue<C, P>(m: Machine<C, P>, running: set<C>, order: seq<C>)
    requires Inv(m, running) && DueInOrder(m.sched, m.now, order)
    requires ExpireAll(m.sched, order) == Expired(m.sched, order)
    requires Settled(Expired(m.sched, order), running)
    ensures AllDue(Expiry(m, order), running)
  {
    var n := Expiry(m, order);
    assert forall c | c in order :: c in SetOf(order);
    forall c | c in m.call && (c in running || c in n.sched.ready) ensures Due(n, c) {
      assert Places(m.sched, running, c) == 1 && Places(n.sched, running, c) == 1;
      assert c in order ==> Parked(m, c);
      if m.call[c].InWait? {
        TimeoutHits(m, running, order, c);
      }
    }
  }

  /** Expiring `order` fails the promise of a waiter exactly when it expires that waiter. */
  lemma TimeoutHits<C, P>(m: Machine<C, P>, running: set<C>, order: seq<C>, c: C)
    requires Inv(m, running) && DueInOrder(m.sched, m.now, order)
    requires c in m.call && m.call[c].InWait?
    ensures Expiry(m, order).State(m.call[c].p)
         == if c in order then m.State(m.call[c].p).Complete(SetException(FutureWaitTimeout)) else m.State(m.call[c].p)
  {
    var p := m.call[c].p;
    assert forall d | d in order :: d in SetOf(order);
    forall d | d in order && WaitsOn(m.sched.prom, d, p) ensures d == c {
      assert Parked(m, d);
    }
    assert c in order ==> Parked(m, c) && WaitsOn(m.sched.prom, c, p);
  }

  ghost function Cur<C, P>(m: Machine<C, P>): set<C> {
    if m.sched.current.Some? then {m.sched.current.value} else {}
  }

  lemma JumpKeeps<C, P>(m: Machine<C, P>, reschedule: bool, made: C)
    requires m.sched.current.Some? && Inv(m, Running(m.sched, reschedule))
    requires m.sched.ready == [] ==> made !in m.sched.all
    ensures var n := m.(sched := Switch(m.sched, reschedule, made)); Inv(n, Cur(n))
  {
    var n := m.(sched := Switch(m.sched, reschedule, made));
    SwitchConsistent(m.sched, reschedule, made);
    forall c | c in m.call && (c in Cur(n) || c in n.sched.ready) ensures Due(n, c) {
      assert c in Running(m.sched, reschedule) || c in m.sched.ready;
    }
  }

  lemma SwitchKeeps<C, P>(m: Machine<C, P>, order: seq<C>, reschedule: bool, made: C)
    requires Inv(m, Running(m.sched, reschedule)) && CanSwitch(m.sched, m.now, order, made)
    ensures Inv(SwitchAfter(m, order, reschedule, made), Cur(SwitchAfter(m, order, reschedule, made)))
  {
    ExpiryKeeps(m, Running(m.sched, reschedule), order);
    ExpireAllDue(m.sched, Running(m.sched, reschedule), m.now, order);
    JumpKeeps(Expiry(m, order), reschedule, made);
  }

  lemma SleptKeeps<C, P>(m: Machine<C, P>, t: Time)
    requires Inv(m, Cur(m)) && m.sched.current.Some? && AtLarge(m)
    ensures Inv(Slept(m, t), {})
  {
    BeginSleepSettled(m.sched, t);
    RunningIsNowhere(m.sched);
  }

  lemma NobodyWaits<C, P>(m: Machine<C, P>, running: set<C>, p: P)
    requires Inv(m, running) && NobodyIn(m, p)
    ensures forall c | c in m.sched.blocked :: !WaitsOn(m.sched.prom, c, p)
  {
    forall c | c in m.sched.blocked ensures !WaitsOn(m.sched.prom, c, p) {
      assert c in SetOf(m.sched.blocked) && Parked(m, c);
    }
  }

  lemma WaitedKeeps<C, P>(m: Machine<C, P>, p: P, deadline: Time)
    requires Inv(m, Cur(m)) && m.sched.current.Some? && AtLarge(m) && NobodyIn(m, p) && !m.State(p).Ready()
    ensures Inv(Waited(m, p, deadline), {})
  {
    BeginWaitSettled(m.sched, p, deadline);
    NobodyWaits(m, Cur(m), p);
    RunningIsNowhere(m.sched);
    WaitedParks(m, p, deadline);
    WaitedCalls(m, p, deadline);
  }

  lemma WaitedCalls<C, P>(m: Machine<C, P>, p: P, deadline: Time)
    requires CallsApart(m) && Answered(m)
    requires m.sched.current.Some? && m.sched.current.value in m.sched.all && NobodyIn(m, p) && !m.State(p).Ready()
    ensures CallsApart(Waited(m, p, deadline)) && Answered(Waited(m, p, deadline))
  {
  }

  lemma WaitedParks<C, P>(m: Machine<C, P>, p: P, deadline: Time)
    requires Inv(m, Cur(m)) && m.sched.current.Some?
    ensures AllParked(Waited(m, p, deadline))
  {
    var n := Waited(m, p, deadline);
    RunningIsNowhere(m.sched);
    forall x | x in n.sched.all && (x in n.sched.blocked || x in n.sched.sleeping) ensures Parked(n, x) {
      assert x != m.sched.current.value ==> Parked(m, x);
    }
  }

  lemma NotifyKeeps<C, P>(m: Machine<C, P>, p: P, d: Option<C>)
    requires Inv(m, Cur(m)) && p in m.completed && TimedChoice(m.sched, p, d)
    ensures Inv(m.(sched := NotifyResult(m.sched, p, d)), Cur(m))
  {
    var n := m.(sched := NotifyResult(m.sched, p, d));
    NotifySettled(m.sched, Cur(m), p, d);
    NotifyParks(m, p, d);
    assert CallsApart(n) && Answered(n);
  }

  lemma NotifyParks<C, P>(m: Machine<C, P>, p: P, d: Option<C>)
    requires Inv(m, Cur(m)) && p in m.completed && TimedChoice(m.sched, p, d)
    ensures var n := m.(sched := NotifyResult(m.sched, p, d)); AllParked(n) && AllDue(n, Cur(m)) && n.sched.all == m.sched.all
  {
    var i := FirstWaiter(m.sched.blocked, m.sched.prom, p);
    if i == |m.sched.blocked| {
      NotifyWithoutWaiter(m.sched, Cur(m), p, d);
    } else {
      var n := m.(sched := NotifyResult(m.sched, p, d));
      var c := m.sched.blocked[i];
      assert c in SetOf(m.sched.blocked) && Parked(m, c);
      NotifyMovesTheWaiter(m.sched, Cur(m), p, d, c);
      forall x | x in n.sched.all && (x in n.sched.blocked || x in n.sched.sleeping) ensures Parked(n, x) {
        assert Parked(m, x);
      }
    }
  }

  lemma CompleteKeeps<C, P>(m: Machine<C, P>, p: P, c: Completion)
    requires Inv(m, Cur(m)) && (c.SetException? ==> c.e.Raised?)
    ensures Inv(Finished(m, p, c), Cur(m))
  {
    var n := Finished(m, p, c);
    forall x | x in m.call && Due(m, x) ensures Due(n, x) {
    }
  }

  lemma ReturnKeeps<C, P>(m: Machine<C, P>)
    requires Inv(m, Cur(m)) && m.sched.current.Some? && m.sched.current.value in m.call
    ensures Inv(Returned(m), Cur(m))
  {
    EndConsistent(m.sched);
    RunningIsNowhere(m.sched);
    var n := Returned(m);
    forall x | x in n.call && Due(m, x) ensures Due(n, x) {
    }
  }

  /** A second check that finds the promise ready consumes its error under nobody's feet. */
  lemma WaitReadyKeeps<C, P>(m: Machine<C, P>, p: P, n: Machine<C, P>)
    requires Inv(m, Cur(m)) && NobodyIn(m, p)
    requires n == m.(proms := m.proms[p := m.State(p).Consumed()], waited := m.waited + {p})
    ensures Inv(n, Cur(n))
  {
    forall x | x in m.call && Due(m, x) ensures Due(n, x) {
    }
    forall x | x in n.sched.all && (x in n.sched.blocked || x in n.sched.sleeping) ensures Parked(n, x) {
      assert Parked(m, x);
    }
  }

  lemma BootKeeps<C, P>(m: Machine<C, P>, c: C)
    requires Inv(m, Cur(m)) && m.sched.current.None? && c !in m.sched.all
    ensures var n := m.(sched := Schedule.Boot(m.sched, c)); Inv(n, Cur(n))
  {
    var n := m.(sched := Schedule.Boot(m.sched, c));
    BootSettled(m.sched, c);
    forall x | x in m.call && (x in Cur(n) || x in n.sched.ready) ensures Due(n, x) {
      assert Due(m, x);
    }
    forall x | x in n.sched.all && (x in n.sched.blocked || x in n.sched.sleeping) ensures Parked(n, x) {
      assert Parked(m, x);
    }
  }

  lemma StepKeeps<C, P>(m: Machine<C, P>, e: Event<C, P>, n: Machine<C, P>)
    requires Inv(m, Cur(m)) && Step(m, e, n)
    ensures Inv(n, Cur(n))
  {
    match e {
      case Boot(c) => BootKeeps(m, c);
      case Tick(_) =>
      case Complete(p, c) => CompleteKeeps(m, p, c);
      case Notify(p, d) => NotifyKeeps(m, p, d);
      case Timeouts(order) =>
        ExpiryKeeps(m, Cur(m), order);
        ExpireAllDue(m.sched, Cur(m), m.now, order);
      case Yield(order, made) => SwitchKeeps(m, order, true, made);
      case SleepUntil(t, order, made) =>
        SleptKeeps(m, t);
        SwitchKeeps(Slept(m, t), order, false, made);
      case WaitOn(p, deadline, order, made) =>
        WaitedKeeps(m, p, deadline);
        SwitchKeeps(Waited(m, p, deadline), order, false, made);
      case WaitReady(p) => WaitReadyKeeps(m, p, n);
      case Return => ReturnKeeps(m);
    }
  }

  lemma StartInv<C, P>(m: Machine<C, P>)
    requires Start(m)
    ensures Inv(m, Cur(m))
  {
  }

  /** Every state of every run satisfies the invariant. */
  lemma {:induction false} RunInv<C, P>(ms: seq<Machine<C, P>>, es: seq<Event<C, P>>, i: nat)
    requires Run(ms, es) && i < |ms|
    ensures Inv(ms[i], Cur(ms[i]))
  {
    if i == 0 {
      StartInv(ms[0]);
    } else {
      RunInv(ms, es, i - 1);
      StepKeeps(ms[i - 1], es[i - 1], ms[i]);
    }
  }

  // ----- When each promise is waited on once -----

  /** Up to step `i` no wait gets past its first check on a promise that some wait got past before. */
  ghost predicate WaitedOnce<C, P>(ms: seq<Machine<C, P>>, es: seq<Event<C, P>>, i: nat)
    requires i <= |es| && |ms| == |es| + 1
  {
    forall k {:trigger es[k]} | 0 <= k < i && (es[k].WaitOn? || es[k].WaitReady?) :: es[k].p !in ms[k].waited
  }

  /** A promise that was completed keeps its answer until the one wait on it has returned. */
  ghost predicate AnswersKept<C, P>(m: Machine<C, P>) {
    && (forall p | p in m.completed && p !in m.waited :: m.State(p).Ready())
    && (forall c | c in m.call && m.call[c].InWait? && m.call[c].p in m.completed :: m.call[c].p in m.answered)
  }

  lemma CompleteAnswers<C, P>(m: Machine<C, P>, p: P, c: Completion)
    requires AnswersKept(m)
    ensures AnswersKept(Finished(m, p, c))
  {
  }

  lemma ReturnAnswers<C, P>(m: Machine<C, P>)
    requires Inv(m, Cur(m)) && AnswersKept(m) && m.sched.current.Some? && m.sched.current.value in m.call
    ensures AnswersKept(Returned(m))
  {
  }

  lemma WaitReadyAnswers<C, P>(m: Machine<C, P>, p: P)
    requires CallsApart(m) && Answered(m) && AnswersKept(m)
    ensures AnswersKept(m.(proms := m.proms[p := m.State(p).Consumed()], waited := m.waited + {p}))
  {
  }

  lemma WaitedAnswers<C, P>(m: Machine<C, P>, p: P, deadline: Time)
    requires CallsApart(m) && Answered(m) && AnswersKept(m) && m.sched.current.Some? && p !in m.waited && !m.State(p).Ready()
    ensures AnswersKept(Waited(m, p, deadline))
  {
  }

  lemma SleptAnswers<C, P>(m: Machine<C, P>, t: Time)
    requires AnswersKept(m) && m.sched.current.Some?
    ensures AnswersKept(Slept(m, t))
  {
  }

  lemma SwitchAnswers<C, P>(m: Machine<C, P>, order: seq<C>, reschedule: bool, made: C)
    requires AnswersKept(m) && m.sched.current.Some?
    ensures AnswersKept(SwitchAfter(m, order, reschedule, made))
  {
    ExpiryAnswers(m, order);
  }

  lemma AnswersStepKeeps<C, P>(m: Machine<C, P>, e: Event<C, P>, n: Machine<C, P>)
    requires Inv(m, Cur(m)) && Step(m, e, n) && AnswersKept(m)
    requires e.WaitOn? || e.WaitReady? ==> e.p !in m.waited
    ensures AnswersKept(n)
  {
    match e {
      case Boot(_) =>
      case Tick(_) =>
      case Notify(_, _) =>
      case Complete(p, c) => CompleteAnswers(m, p, c);
      case Timeouts(order) => ExpiryAnswers(m, order);
      case Yield(order, made) => SwitchAnswers(m, order, true, made);
      case SleepUntil(t, order, made) =>
        SleptAnswers(m, t);
        SwitchAnswers(Slept(m, t), order, false, made);
      case WaitOn(p, deadline, order, made) =>
        WaitedAnswers(m, p, deadline);
        SwitchAnswers(Waited(m, p, deadline), order, false, made);
      case WaitReady(p) => WaitReadyAnswers(m, p);
      case Return => ReturnAnswers(m);
    }
  }

  lemma ExpiryAnswers<C, P>(m: Machine<C, P>, order: seq<C>)
    requires AnswersKept(m)
    ensures AnswersKept(Expiry(m, order))
  {
    var n := Expiry(m, order);
    forall p | p in n.completed && p !in n.waited ensures n.State(p).Ready() {
      if p in Failing(m, order) {
        var c :| c in order && c in m.sched.prom && m.sched.prom[c] == p;
        assert WaitsOn(m.sched.prom, c, p);
      }
    }
  }

  lemma {:induction false} RunAnswers<C, P>(ms: seq<Machine<C, P>>, es: seq<Event<C, P>>, i: nat)
    requires Run(ms, es) && i < |ms| && WaitedOnce(ms, es, i)
    ensures AnswersKept(ms[i])
  {
    if i > 0 {
      RunAnswers(ms, es, i - 1);
      RunInv(ms, es, i - 1);
      assert Step(ms[i - 1], es[i - 1], ms[i]);
      AnswersStepKeeps(ms[i - 1], es[i - 1], ms[i]);
    }
  }

  // ----- What holds of every run -----

  /**
    No context is lost or doubled: once made it is in exactly one place for
    ever after.  The sleep heap meets the blocked list in exactly the waiters
    with a deadline.
  */
  lemma ContextsConserved<C, P>(ms: seq<Machine<C, P>>, es: seq<Event<C, P>>, i: nat, j: nat, c: C)
    requires Run(ms, es) && i <= j < |ms| && c in ms[i].sched.all
    ensures c in ms[j].sched.all && Places(ms[j].sched, Cur(ms[j]), c) == 1
    ensures NoDup(ms[j].sched.ready) && NoDup(ms[j].sched.blocked)
    ensures var m := ms[j];
            if c in m.sched.blocked then
              c in m.call && m.call[c].InWait? && (c in m.sched.sleeping <==> m.call[c].deadline != TIME_MAX)
            else c in m.sched.sleeping ==> c in m.call && m.call[c].InSleep?
    decreases j
  {
    RunInv(ms, es, j);
    assert c in ms[j].sched.all && (c in ms[j].sched.blocked || c in ms[j].sched.sleeping) ==> Parked(ms[j], c);
    if i < j {
      ContextsConserved(ms, es, i, j - 1, c);
      RunInv(ms, es, j - 1);
      StepKeepsAll(ms[j - 1], es[j - 1], ms[j]);
    }
  }

  lemma ExpireKeepsAll<C, P>(s: Sched<C, P>, running: set<C>, now: Time, order: seq<C>)
    requires Settled(s, running) && OneWaiter(s) && DueInOrder(s, now, order)
    ensures ExpireAll(s, order).all == s.all
  {
    ExpireAllDue(s, running, now, order);
  }

  lemma StepKeepsAll<C, P>(m: Machine<C, P>, e: Event<C, P>, n: Machine<C, P>)
    requires Inv(m, Cur(m)) && Step(m, e, n)
    ensures m.sched.all <= n.sched.all
  {
    match e {
      case Timeouts(order) => ExpireKeepsAll(m.sched, Cur(m), m.now, order);
      case Yield(order, _) => ExpireKeepsAll(m.sched, Cur(m), m.now, order);
      case SleepUntil(t, order, _) =>
        BeginSleepSettled(m.sched, t);
        ExpireKeepsAll(BeginSleep(m.sched, t), {}, m.now, order);
      case WaitOn(p, deadline, order, _) =>
        NobodyWaits(m, Cur(m), p);
        BeginWaitSettled(m.sched, p, deadline);
        ExpireKeepsAll(BeginWait(m.sched, p, deadline), {}, m.now, order);
      case _ =>
    }
  }

  /**
    No early and no spurious return.  A sleep returns when its time has
    come, and a wait reports a timeout only once its deadline has passed.  A
    wait throws future_value_not_ready exactly if nothing has completed its
    promise since it began; never, if each promise is waited on once.
  */
  lemma NoSpuriousReturn<C, P>(ms: seq<Machine<C, P>>, es: seq<Event<C, P>>, i: nat)
    requires Run(ms, es) && i < |es| && es[i].Return?
    ensures var m, c := ms[i], ms[i].sched.current.value;
            match m.call[c]
            case InSleep(t) => t <= m.now
            case InWait(p, deadline) =>
              && (m.State(p).Outcome() == Throws(FutureWaitTimeout) ==> deadline <= m.now)
              && (m.State(p).Outcome() == ValueNotReady <==> p !in m.answered)
              && (WaitedOnce(ms, es, i) ==> m.State(p).Outcome() != ValueNotReady)
  {
    RunInv(ms, es, i);
    assert Step(ms[i], es[i], ms[i + 1]);
    assert Due(ms[i], ms[i].sched.current.value);
    if WaitedOnce(ms, es, i) {
      RunAnswers(ms, es, i);
    }
  }

  /** While it is suspended a context stays in its call, where the call put it. */
  lemma SuspendedStays<C, P>(m: Machine<C, P>, e: Event<C, P>, n: Machine<C, P>, c: C)
    requires Inv(m, Cur(m)) && Step(m, e, n) && (c in m.sched.blocked || c in m.sched.sleeping)
    ensures c in m.sched.all && Parked(m, c) && c in n.call && n.call[c] == m.call[c]
  {
    assert c in SetOf(m.sched.blocked) || c in m.sched.sleeping;
    assert Places(m.sched, Cur(m), c) == 1 && Parked(m, c);
  }

  lemma AwakeIsDue<C, P>(m: Machine<C, P>, c: C)
    requires Inv(m, Cur(m)) && c in m.call && c !in m.sched.blocked && c !in m.sched.sleeping
    ensures Due(m, c)
  {
    assert Places(m.sched, Cur(m), c) == 1;
  }

  lemma ExpiryFreesTheDue<C, P>(m: Machine<C, P>, running: set<C>, order: seq<C>, c: C)
    requires Inv(m, running) && DueInOrder(m.sched, m.now, order)
    requires c in m.sched.blocked && c !in Expiry(m, order).sched.blocked
    ensures c in m.call && m.call[c].InWait? && m.call[c].deadline <= m.now
  {
    ExpireAllDue(m.sched, running, m.now, order);
    assert c in SetOf(order) && c in SetOf(m.sched.blocked);
    assert Parked(m, c);
  }

  lemma SwitchFreesTheDue<C, P>(m: Machine<C, P>, order: seq<C>, reschedule: bool, made: C, c: C)
    requires Inv(m, Running(m.sched, reschedule)) && CanSwitch(m.sched, m.now, order, made)
    requires c in m.sched.blocked && c !in SwitchAfter(m, order, reschedule, made).sched.blocked
    ensures c in m.call && m.call[c].InWait? && m.call[c].deadline <= m.now
  {
    ExpiryFreesTheDue(m, Running(m.sched, reschedule), order, c);
  }

  lemma NotifyFreesItsWaiter<C, P>(m: Machine<C, P>, p: P, d: Option<C>, c: C)
    requires Inv(m, Cur(m)) && TimedChoice(m.sched, p, d)
    requires c in m.sched.blocked && c !in NotifyResult(m.sched, p, d).blocked
    ensures WaitsOn(m.sched.prom, c, p)
  {
    var i := FirstWaiter(m.sched.blocked, m.sched.prom, p);
    if i < |m.sched.blocked| {
      RemoveAtIsWithout(m.sched.blocked, i);
    }
  }

  /** Why a wait ends: a notify of its promise reaches it where it is blocked, or its time has come. */
  ghost predicate Ends<C, P>(m: Machine<C, P>, e: Event<C, P>, c: C, p: P, deadline: Time) {
    (e.Notify? && e.p == p && c in m.sched.blocked && WaitsOn(m.sched.prom, c, p)) || deadline <= m.now
  }

  lemma UnblockedForAReason<C, P>(m: Machine<C, P>, e: Event<C, P>, n: Machine<C, P>, c: C)
    requires Inv(m, Cur(m)) && Step(m, e, n) && c in m.sched.blocked && c !in n.sched.blocked
    ensures c in m.call && m.call[c].InWait? && Ends(m, e, c, m.call[c].p, m.call[c].deadline)
  {
    SuspendedStays(m, e, n, c);
    match e {
      case Notify(p, d) => NotifyFreesItsWaiter(m, p, d, c);
      case Timeouts(order) => ExpiryFreesTheDue(m, Cur(m), order, c);
      case Yield(order, made) => SwitchFreesTheDue(m, order, true, made, c);
      case SleepUntil(t, order, made) =>
        SleptKeeps(m, t);
        SwitchFreesTheDue(Slept(m, t), order, false, made, c);
      case WaitOn(p, deadline, order, made) =>
        WaitedKeeps(m, p, deadline);
        SwitchFreesTheDue(Waited(m, p, deadline), order, false, made, c);
      case _ =>
    }
  }

  /**
    A suspended context is made ready for a reason of its own: a sleeper at
    its deadline, a waiter by a notify of the promise it is blocked on or at
    its deadline.  The promise is then set, if each promise is waited on
    once.
  */
  lemma WakesForAReason<C, P>(ms: seq<Machine<C, P>>, es: seq<Event<C, P>>, i: nat, c: C)
    requires Run(ms, es) && i < |es|
    requires c in ms[i].sched.blocked || c in ms[i].sched.sleeping
    requires c !in ms[i + 1].sched.blocked && c !in ms[i + 1].sched.sleeping
    ensures c in ms[i].call && c in ms[i + 1].call && ms[i + 1].call[c] == ms[i].call[c]
    ensures match ms[i].call[c]
            case InSleep(t) => c in ms[i].sched.resume && ms[i].sched.resume[c] == t && t <= ms[i].now
            case InWait(p, deadline) =>
              && c in ms[i].sched.blocked && WaitsOn(ms[i].sched.prom, c, p) && p in ms[i + 1].completed
              && Ends(ms[i], es[i], c, p, deadline)
              && (WaitedOnce(ms, es, i + 1) ==> ms[i + 1].State(p).Ready())
  {
    RunInv(ms, es, i);
    RunInv(ms, es, i + 1);
    assert Step(ms[i], es[i], ms[i + 1]);
    SuspendedStays(ms[i], es[i], ms[i + 1], c);
    AwakeIsDue(ms[i + 1], c);
    if c in ms[i].sched.blocked {
      UnblockedForAReason(ms[i], es[i], ms[i + 1], c);
    } else {
      assert !es[i].Tick?;
      assert ms[i + 1].now == ms[i].now;
    }
    if WaitedOnce(ms, es, i + 1) {
      RunAnswers(ms, es, i + 1);
    }
  }

  /** Step `j` ended the wait that `c` is still inside of at `i`; since then it has been awake. */
  ghost predicate EndedAt<C, P>(ms: seq<Machine<C, P>>, es: seq<Event<C, P>>, j: nat, i: nat, c: C, call: Call<P>)
    requires j < i < |ms| && |ms| == |es| + 1
  {
    && call.InWait? && Ends(ms[j], es[j], c, call.p, call.deadline)
    && forall k {:trigger ms[k]} | j < k <= i :: c in ms[k].call && ms[k].call[c] == call && c !in ms[k].sched.blocked
  }

  lemma AwakeAtOnce<C, P>(m: Machine<C, P>, e: Event<C, P>, n: Machine<C, P>, c: C)
    requires Inv(m, Cur(m)) && Step(m, e, n)
    requires c in n.call && n.call[c].InWait? && c !in n.sched.blocked
    ensures (c in m.call && m.call[c] == n.call[c]) || n.call[c].deadline <= m.now
  {
    if e.WaitOn? && !(c in m.call && m.call[c] == n.call[c]) {
      var w := Waited(m, e.p, e.deadline);
      WaitedKeeps(m, e.p, e.deadline);
      assert c == m.sched.current.value && c in w.sched.blocked;
      ExpiryFreesTheDue(w, {}, e.order, c);
    }
  }

  /** A context awake inside a wait after a step was so before it, or the step ended the wait. */
  lemma AwakeStep<C, P>(m: Machine<C, P>, e: Event<C, P>, n: Machine<C, P>, c: C)
    requires Inv(m, Cur(m)) && Step(m, e, n)
    requires c in n.call && n.call[c].InWait? && c !in n.sched.blocked
    ensures (c in m.call && m.call[c] == n.call[c] && c !in m.sched.blocked)
         || Ends(m, e, c, n.call[c].p, n.call[c].deadline)
  {
    if c in m.sched.blocked {
      SuspendedStays(m, e, n, c);
      UnblockedForAReason(m, e, n, c);
    } else {
      AwakeAtOnce(m, e, n, c);
    }
  }

  /**
    Whoever is awake inside a wait has been woken for this very wait: since
    it began, a notify of its promise has found it blocked, or its deadline
    has passed.  What ended an earlier wait on the promise does not count.
  */
  lemma {:induction false} AwakeForAReason<C, P>(ms: seq<Machine<C, P>>, es: seq<Event<C, P>>, i: nat, c: C) returns (j: nat)
    requires Run(ms, es) && i < |ms|
    requires c in ms[i].call && ms[i].call[c].InWait? && c !in ms[i].sched.blocked
    ensures j < i && EndedAt(ms, es, j, i, c, ms[i].call[c])
  {
    assert i > 0;
    RunInv(ms, es, i - 1);
    assert Step(ms[i - 1], es[i - 1], ms[i]);
    AwakeStep(ms[i - 1], es[i - 1], ms[i], c);
    var call := ms[i].call[c];
    if Ends(ms[i - 1], es[i - 1], c, call.p, call.deadline) {
      j := i - 1;
    } else {
      j := AwakeForAReason(ms, es, i - 1, c);
      forall k {:trigger ms[k]} | j < k <= i ensures c in ms[k].call && ms[k].call[c] == call && c !in ms[k].sched.blocked {
        assert k <= i - 1 || k == i;
      }
    }
  }

  // ----- What a promise holds -----

  /** The promises of the waits that time out fail. */
  ghost function TimeoutActs<C, P>(m: Machine<C, P>, order: seq<C>, p: P): seq<Act> {
    if exists c :: c in order && WaitsOn(m.sched.prom, c, p) then [Did(SetException(FutureWaitTimeout))] else []
  }

  /** What a step does to a promise. */
  ghost function StepActs<C, P>(m: Machine<C, P>, e: Event<C, P>, p: P): seq<Act>
    requires m.sched.current.Some? || !(e.SleepUntil? || e.WaitOn? || e.Return?)
  {
    match e
    case Complete(q, c) => if q == p then [Did(c)] else []
    case Timeouts(order) => TimeoutActs(m, order, p)
    case Yield(order, _) => TimeoutActs(m, order, p)
    case SleepUntil(t, order, _) => TimeoutActs(Slept(m, t), order, p)
    case WaitOn(q, deadline, order, _) => TimeoutActs(Waited(m, q, deadline), order, p)
    case WaitReady(q) => if q == p then [Took] else []
    case Return =>
      var c := m.sched.current.value;
      if c in m.call && m.call[c].InWait? && m.call[c].p == p then [Took] else []
    case _ => []
  }

  /** All that has happened to a promise in the first `i` steps. */
  ghost function Acts<C, P>(ms: seq<Machine<C, P>>, es: seq<Event<C, P>>, i: nat, p: P): seq<Act>
    requires Run(ms, es) && i < |ms|
  {
    if i == 0 then []
    else
      assert Step(ms[i - 1], es[i - 1], ms[i]);
      Acts(ms, es, i - 1, p) + StepActs(ms[i - 1], es[i - 1], p)
  }

  lemma ExpiryPlays<C, P>(m: Machine<C, P>, order: seq<C>, p: P, acts: seq<Act>)
    requires m.State(p) == Play(acts)
    ensures Expiry(m, order).State(p) == Play(acts + TimeoutActs(m, order, p))
  {
    if Fails(m.sched.prom, order, p) {
      var c :| c in order && WaitsOn(m.sched.prom, c, p);
      assert p in Failing(m, order);
      PlayMore(acts, Did(SetException(FutureWaitTimeout)));
    } else {
      assert acts + [] == acts;
    }
  }

  lemma StepPlays<C, P>(m: Machine<C, P>, e: Event<C, P>, n: Machine<C, P>, p: P, acts: seq<Act>)
    requires Step(m, e, n) && m.State(p) == Play(acts)
    ensures n.State(p) == Play(acts + StepActs(m, e, p))
  {
    assert acts + [] == acts;
    match e {
      case Complete(_, c) => PlayMore(acts, Did(c));
      case Timeouts(order) => ExpiryPlays(m, order, p, acts);
      case Yield(order, _) => ExpiryPlays(m, order, p, acts);
      case SleepUntil(t, order, _) => ExpiryPlays(Slept(m, t), order, p, acts);
      case WaitOn(q, deadline, order, _) => ExpiryPlays(Waited(m, q, deadline), order, p, acts);
      case WaitReady(_) => PlayMore(acts, Took);
      case Return => PlayMore(acts, Took);
      case _ =>
    }
  }

  /** In every state of every run a promise holds what its completions, timeouts and returned waits come to. */
  lemma {:induction false} StateIsPlay<C, P>(ms: seq<Machine<C, P>>, es: seq<Event<C, P>>, i: nat, p: P)
    requires Run(ms, es) && i < |ms|
    ensures ms[i].State(p) == Play(Acts(ms, es, i, p))
  {
    if i > 0 {
      StateIsPlay(ms, es, i - 1, p);
      assert Step(ms[i - 1], es[i - 1], ms[i]);
      StepPlays(ms[i - 1], es[i - 1], ms[i], p, Acts(ms, es, i - 1, p));
    }
  }

  /** While each promise is waited on once, nothing is taken from one before its wait returns. */
  lemma {:induction false} NothingTakenYet<C, P>(ms: seq<Machine<C, P>>, es: seq<Event<C, P>>, i: nat, p: P)
    requires Run(ms, es) && i < |ms| && WaitedOnce(ms, es, i)
    requires p !in ms[i].waited || exists c :: c in ms[i].call && ms[i].call[c].InWait? && ms[i].call[c].p == p
    ensures NothingTaken(Acts(ms, es, i, p))
  {
    if i > 0 {
      var m, e, n := ms[i - 1], es[i - 1], ms[i];
      assert Step(m, e, n);
      RunInv(ms, es, i - 1);
      TakenStep(m, e, n, p);
      NothingTakenYet(ms, es, i - 1, p);
    }
  }

  lemma TakenStep<C, P>(m: Machine<C, P>, e: Event<C, P>, n: Machine<C, P>, p: P)
    requires Inv(m, Cur(m)) && Step(m, e, n) && (e.WaitOn? || e.WaitReady? ==> e.p !in m.waited)
    requires p !in n.waited || exists c :: c in n.call && n.call[c].InWait? && n.call[c].p == p
    ensures p !in m.waited || exists c :: c in m.call && m.call[c].InWait? && m.call[c].p == p
    ensures NothingTaken(StepActs(m, e, p))
  {
    if p in n.waited {
      var c :| c in n.call && n.call[c].InWait? && n.call[c].p == p;
      assert !(e.WaitOn? && e.p == p) ==> c in m.call && m.call[c] == n.call[c];
    }
  }

  /**
    What a first wait reports, over whole runs: the last exception that came
    before it returned, timeouts included, else the last value.
  */
  lemma FirstWaitReportsTheFold<C, P>(ms: seq<Machine<C, P>>, es: seq<Event<C, P>>, i: nat)
    requires Run(ms, es) && i < |es| && es[i].Return?
    requires var c := ms[i].sched.current; c.Some? && c.value in ms[i].call && ms[i].call[c.value].InWait?
    ensures var m, p := ms[i], ms[i].call[ms[i].sched.current.value].p;
            var acts := Acts(ms, es, i, p);
            && (WaitedOnce(ms, es, i) ==> NothingTaken(acts))
            && (NothingTaken(acts) && NoException(Completed(acts)) && Completed(acts) != [] ==>
                  m.State(p).Outcome() == Returns(Completed(acts)[|Completed(acts)| - 1].v))
            && (NothingTaken(acts) ==> forall k: nat | LastException(Completed(acts), k) ::
                  m.State(p).Outcome() == Throws(Completed(acts)[k].e))
            && ms[i + 1].State(p) == PromState(None, m.State(p).value)
  {
    var m, c := ms[i], ms[i].sched.current.value;
    var p := m.call[c].p;
    var acts := Acts(ms, es, i, p);
    assert Step(ms[i], es[i], ms[i + 1]);
    StateIsPlay(ms, es, i, p);
    StateIsPlay(ms, es, i + 1, p);
    TookLeavesTheValue(acts);
    if WaitedOnce(ms, es, i) {
      NothingTakenYet(ms, es, i, p);
    }
    if NothingTaken(acts) {
      FoldReports(acts);
    }
  }

  lemma FoldReports(acts: seq<Act>)
    requires NothingTaken(acts)
    ensures NoException(Completed(acts)) && Completed(acts) != [] ==>
              Play(acts).Outcome() == Returns(Completed(acts)[|Completed(acts)| - 1].v)
    ensures forall k: nat | LastException(Completed(acts), k) :: Play(acts).Outcome() == Throws(Completed(acts)[k].e)
  {
    PlayIsFold(acts);
    if NoException(Completed(acts)) && Completed(acts) != [] {
      LastValueWins(Completed(acts));
    }
    forall k: nat | LastException(Completed(acts), k) ensures Play(acts).Outcome() == Throws(Completed(acts)[k].e) {
      ExceptionWins(Completed(acts), k);
    }
  }

  // ----- A second wait -----

  lemma Extend(ms: seq<Machine<nat, nat>>, es: seq<Event<nat, nat>>, e: Event<nat, nat>, n: Machine<nat, nat>)
      returns (ms': seq<Machine<nat, nat>>, es': seq<Event<nat, nat>>)
    requires Run(ms, es) && Step(ms[|es|], e, n)
    ensures Run(ms', es') && ms' == ms + [n] && es' == es + [e]
  {
    ms', es' := ms + [n], es + [e];
    forall k | 0 <= k < |es'| ensures Step(ms'[k], es'[k], ms'[k + 1]) {
      assert k < |es| ==> es'[k] == es[k] && Step(ms[k], es[k], ms[k + 1]);
    }
  }

  lemma NobodyExpires<C, P>(m: Machine<C, P>)
    requires m.sched.sleeping == {}
    ensures DueInOrder(m.sched, m.now, []) && Expiry(m, []) == m
  {
    assert SetOf<C>([]) == {};
    assert Failing(m, []) == {};
    forall p | p in m.proms ensures TimeoutProms(m, [])[p] == m.proms[p] {
    }
    assert TimeoutProms(m, []) == m.proms;
  }

  /** Two contexts; context 0 is inside a wait on promise 7. */
  ghost function Two(cur: nat, ready: seq<nat>, blocked: seq<nat>, state: PromState, completed: set<nat>, answered: set<nat>)
    : Machine<nat, nat>
  {
    Machine(Sched({0, 1}, Some(cur), ready, blocked, {}, map[0 := 7], map[0 := 0, 1 := 0]), 0,
      if completed == {} then map[] else map[7 := state], map[0 := InWait(7, TIME_MAX)], {7}, completed, answered)
  }

  lemma NotifyWakes(state: PromState, answered: set<nat>)
    ensures Step(Two(1, [], [0], state, {7}, answered), Notify(7, None), Two(1, [0], [], state, {7}, answered))
  {
    var s := Two(1, [], [0], state, {7}, answered).sched;
    assert FirstWaiter(s.blocked, s.prom, 7) == 0;
    assert RemoveAt(s.blocked, 0) == [];
  }

  lemma YieldsBack(state: PromState, answered: set<nat>)
    ensures Step(Two(1, [0], [], state, {7}, answered), Yield([], 2), Two(0, [1], [], state, {7}, answered))
  {
    NobodyExpires(Two(1, [0], [], state, {7}, answered));
  }

  /** The first wait of context 0 blocks, and context 1 runs. */
  lemma FirstWaitBlocks() returns (ms: seq<Machine<nat, nat>>, es: seq<Event<nat, nat>>)
    ensures Run(ms, es) && ms[|es|] == Two(1, [], [0], PENDING, {}, {})
  {
    var none := Machine(Sched({}, None, [], [], {}, map[], map[]), 0, map[], map[], {}, {}, {});
    var one := none.(sched := Sched({0}, Some(0), [], [], {}, map[], map[0 := 0]));
    ms, es := [none], [];
    ms, es := Extend(ms, es, Event.Boot(0), one);
    NobodyExpires(Waited(one, 7, TIME_MAX));
    ms, es := Extend(ms, es, WaitOn(7, TIME_MAX, [], 1), Two(1, [], [0], PENDING, {}, {}));
  }

  /** Two errors reach it, and it wakes. */
  lemma TwoErrorsWakeIt(error: Completion) returns (ms: seq<Machine<nat, nat>>, es: seq<Event<nat, nat>>)
    requires error.SetException? && error.e.Raised?
    ensures Run(ms, es) && ms[|es|] == Two(0, [1], [], PromState(Some(error.e), None), {7}, {7})
  {
    var failed := PromState(Some(error.e), None);
    ms, es := FirstWaitBlocks();
    ms, es := Extend(ms, es, Complete(7, error), Two(1, [], [0], failed, {7}, {7}));
    ms, es := Extend(ms, es, Complete(7, error), Two(1, [], [0], failed, {7}, {7}));
    NotifyWakes(failed, {7});
    ms, es := Extend(ms, es, Notify(7, None), Two(1, [0], [], failed, {7}, {7}));
    YieldsBack(failed, {7});
    ms, es := Extend(ms, es, Yield([], 2), Two(0, [1], [], failed, {7}, {7}));
  }

  /** It throws one of them, consumes it, and waits again. */
  lemma SecondWaitBlocks(error: Completion) returns (ms: seq<Machine<nat, nat>>, es: seq<Event<nat, nat>>)
    requires error.SetException? && error.e.Raised?
    ensures Run(ms, es) && ms[|es|] == Two(1, [], [0], PENDING, {7}, {})
  {
    ms, es := TwoErrorsWakeIt(error);
    var out := ms[|es|].(sched := ms[|es|].sched.(prom := map[]), proms := map[7 := PENDING], call := map[]);
    ms, es := Extend(ms, es, Return, out);
    NobodyExpires(Waited(out, 7, TIME_MAX));
    ms, es := Extend(ms, es, WaitOn(7, TIME_MAX, [], 2), Two(1, [], [0], PENDING, {7}, {}));
  }

  /**
    Waiting a second time is not safe.  Two setters fail one promise and post
    a notify each; the first wakes the wait, which consumes the error, and
    the second wakes the wait after it, which finds nothing.
  */
  lemma SecondWaitFindsNothing() returns (ms: seq<Machine<nat, nat>>, es: seq<Event<nat, nat>>)
    ensures Run(ms, es) && |es| > 0 && es[|es| - 1].Return?
    ensures var m := ms[|es| - 1]; m.sched.current == Some(0) && 0 in m.call && m.call[0] == InWait(7, TIME_MAX)
    ensures ms[|es| - 1].State(7).Outcome() == ValueNotReady
  {
    ms, es := SecondWaitBlocks(SetException(Raised(1)));
    NotifyWakes(PENDING, {});
    ms, es := Extend(ms, es, Notify(7, None), Two(1, [0], [], PENDING, {7}, {}));
    YieldsBack(PENDING, {});
    ms, es := Extend(ms, es, Yield([], 2), Two(0, [1], [], PENDING, {7}, {}));
    ms, es := Extend(ms, es, Return, Returned(ms[|es|]));
  }
}
