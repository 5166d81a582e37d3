/**
  The scheduler of one cmt::thread as a value: which context runs, the ready
  list, the blocked list, the sleep heap as a set, and what each context waits
  for.  Contexts and promises are abstract names.  The operations here say
  what the methods of ThreadPrivate do to that value.
*/
module Schedule {
  import opened Wrappers

  const TIME_MIN := -0x8000_0000_0000_0000
  const TIME_MAX := 0x7FFF_FFFF_FFFF_FFFF

  /** system_clock::time_point; TIME_MAX stands for "no deadline". */
  type Time = t: int | TIME_MIN <= t <= TIME_MAX

  datatype Sched<C(==), P(==)> = Sched(
    all: set<C>,          // every context created so far
    current: Option<C>,
    ready: seq<C>,        // ready_head first
    blocked: seq<C>,      // most recently blocked first
    sleeping: set<C>,     // the contents of sleep_pqueue
    prom: map<C, P>,      // the promise a context is blocked on; absent for a null pointer
    resume: map<C, Time>)

  predicate WaitsOn<C(==), P(==)>(prom: map<C, P>, c: C, p: P) {
    c in prom && prom[c] == p
  }

  // ----- The consistency of the structures -----

  /**
    Every context is in exactly one place: among the running ones, in the
    ready list, or suspended (blocked, sleeping, or both).  The sleep heap
    and the blocked list share exactly the waiters with a deadline: a
    sleeping context is blocked if and only if it has a promise.
  */
  ghost predicate Settled<C, P>(s: Sched<C, P>, running: set<C>) {
    && NoDup(s.ready) && NoDup(s.blocked)
    && SetOf(s.ready) <= s.all && SetOf(s.blocked) <= s.all && s.sleeping <= s.all && running <= s.all
    && s.resume.Keys == s.all && s.prom.Keys <= s.all
    && (forall c | c in s.all :: Places(s, running, c) == 1)
    && (forall c | c in s.blocked :: c in s.prom)
    && (forall c | c in s.sleeping :: c in s.blocked <==> c in s.prom)
  }

  ghost function Places<C, P>(s: Sched<C, P>, running: set<C>, c: C): nat {
    (if c in running then 1 else 0) + (if c in s.ready then 1 else 0)
    + (if c in s.blocked || c in s.sleeping then 1 else 0)
  }

  /** No two blocked contexts wait on the same promise. */
  ghost predicate OneWaiter<C, P>(s: Sched<C, P>) {
    forall c, d | c in s.blocked && d in s.blocked && c in s.prom && d in s.prom && s.prom[c] == s.prom[d] :: c == d
  }

  /** Every blocked context waits on one of `awaited`. */
  ghost predicate AllAwaited<C, P>(s: Sched<C, P>, awaited: set<P>) {
    forall c | c in s.blocked :: c in s.prom && s.prom[c] in awaited
  }

  ghost predicate Consistent<C, P>(s: Sched<C, P>) {
    s.current.Some? && Settled(s, {s.current.value})
  }

  // ----- notify -----

  /** The position of the first blocked context that waits on `p`, or the length of the list. */
  function FirstWaiter<C(==), P(==)>(blocked: seq<C>, prom: map<C, P>, p: P): (i: nat)
    ensures i <= |blocked|
    ensures forall j | 0 <= j < i :: !WaitsOn(prom, blocked[j], p)
    ensures i < |blocked| ==> WaitsOn(prom, blocked[i], p)
  {
    if blocked == [] || WaitsOn(prom, blocked[0], p) then 0 else 1 + FirstWaiter(blocked[1..], prom, p)
  }

  /** A context notify can find in the sleep heap by its promise; None only if there is none. */
  ghost predicate TimedChoice<C, P>(s: Sched<C, P>, p: P, d: Option<C>) {
    match d
    case Some(c) => c in s.sleeping && WaitsOn(s.prom, c, p)
    case None => forall c | c in s.sleeping :: !WaitsOn(s.prom, c, p)
  }

  ghost function Unblock<C, P>(s: Sched<C, P>, p: P): Sched<C, P> {
    var i := FirstWaiter(s.blocked, s.prom, p);
    if i == |s.blocked| then s
    else s.(blocked := RemoveAt(s.blocked, i), ready := [s.blocked[i]] + s.ready)
  }

  ghost function NotifyResult<C, P>(s: Sched<C, P>, p: P, d: Option<C>): Sched<C, P> {
    var t := Unblock(s, p);
    if d.None? then t else t.(sleeping := t.sleeping - {d.value}, prom := t.prom - {d.value})
  }

  /** With one waiter, notify moves exactly that context, from wherever it is, to the ready front. */
  lemma NotifyMovesTheWaiter<C, P>(s: Sched<C, P>, running: set<C>, p: P, d: Option<C>, c: C)
    requires Settled(s, running) && OneWaiter(s) && TimedChoice(s, p, d)
    requires c in s.blocked && WaitsOn(s.prom, c, p)
    ensures d == if c in s.sleeping then Some(c) else None
    ensures NotifyResult(s, p, d) == s.(
        blocked := Without(s.blocked, {c}),
        ready := [c] + s.ready,
        sleeping := s.sleeping - {c},
        prom := if c in s.sleeping then s.prom - {c} else s.prom)
  {
    var i := FirstWaiter(s.blocked, s.prom, p);
    assert s.blocked[i] == c;
    RemoveAtIsWithout(s.blocked, i);
  }

  /** Nobody waits: notify changes nothing. */
  lemma NotifyWithoutWaiter<C, P>(s: Sched<C, P>, running: set<C>, p: P, d: Option<C>)
    requires Settled(s, running) && TimedChoice(s, p, d)
    requires forall c | c in s.blocked :: !WaitsOn(s.prom, c, p)
    ensures NotifyResult(s, p, d) == s
  {
  }

  /** A second notify of the same promise changes nothing. */
  lemma NotifyTwice<C, P>(s: Sched<C, P>, running: set<C>, p: P, d: Option<C>, e: Option<C>)
    requires Settled(s, running) && OneWaiter(s)
    requires TimedChoice(s, p, d) && TimedChoice(NotifyResult(s, p, d), p, e)
    ensures NotifyResult(NotifyResult(s, p, d), p, e) == NotifyResult(s, p, d)
  {
    var i := FirstWaiter(s.blocked, s.prom, p);
    NotifySettled(s, running, p, d);
    if i == |s.blocked| {
      NotifyWithoutWaiter(s, running, p, d);
    } else {
      NotifyMovesTheWaiter(s, running, p, d, s.blocked[i]);
    }
    NotifyWithoutWaiter(NotifyResult(s, p, d), running, p, e);
  }

  lemma NotifySettledIf<C, P>(s: Sched<C, P>, running: set<C>, p: P, d: Option<C>)
    requires Settled(s, running) && TimedChoice(s, p, d)
    requires d.Some? ==> s.blocked[FirstWaiter(s.blocked, s.prom, p)] == d.value
    ensures Settled(NotifyResult(s, p, d), running)
    ensures OneWaiter(s) ==> OneWaiter(NotifyResult(s, p, d))
  {
    var t := NotifyResult(s, p, d);
    var i := FirstWaiter(s.blocked, s.prom, p);
    if i == |s.blocked| {
      NotifyWithoutWaiter(s, running, p, d);
    } else {
      var w := s.blocked[i];
      RemoveAtIsWithout(s.blocked, i);
      WithoutNoDup(s.blocked, {w});
      forall c | c in t.all ensures Places(t, running, c) == 1 {
        assert Places(s, running, c) == 1;
      }
      assert Places(s, running, w) == 1;
    }
  }

  /**
    Notify searches the blocked list and the sleep heap separately.  It keeps
    every context in exactly one place if and only if what it takes out of
    the sleep heap, if anything, is the context it unblocked.
  */
  lemma NotifySettled<C, P>(s: Sched<C, P>, running: set<C>, p: P, d: Option<C>)
    requires Settled(s, running) && TimedChoice(s, p, d)
    ensures Settled(NotifyResult(s, p, d), running) <==>
            (d.Some? ==> s.blocked[FirstWaiter(s.blocked, s.prom, p)] == d.value)
    ensures OneWaiter(s) ==> Settled(NotifyResult(s, p, d), running) && OneWaiter(NotifyResult(s, p, d))
  {
    var i := FirstWaiter(s.blocked, s.prom, p);
    if d.Some? && d.value != s.blocked[i] {
      var t := NotifyResult(s, p, d);
      RemoveAtIsWithout(s.blocked, i);
      assert d.value in t.blocked && d.value !in t.prom;
    } else {
      NotifySettledIf(s, running, p, d);
    }
  }

  /**
    Two contexts wait on promise 7 with a deadline.  The blocked list gives
    up context 1, and the sleep heap context 0.
  */
  lemma TwoWaitersComeApart() returns (s: Sched<nat, nat>, d: Option<nat>)
    ensures Settled(s, {2}) && TimedChoice(s, 7, d) && !Settled(NotifyResult(s, 7, d), {2})
    ensures var t := NotifyResult(s, 7, d); 0 in t.blocked && 0 !in t.prom && 1 in t.ready && 1 in t.sleeping
  {
    s := Sched({0, 1, 2}, Some(2), [], [1, 0], {0, 1}, map[0 := 7, 1 := 7], map[0 := 5, 1 := 9, 2 := 0]);
    d := Some(0);
    forall c | c in s.all ensures Places(s, {2}, c) == 1 {
    }
    assert Settled(s, {2});
    assert FirstWaiter(s.blocked, s.prom, 7) == 0;
    assert RemoveAt(s.blocked, 0) == [0];
    var t := NotifyResult(s, 7, d);
    assert t.ready == [1] && t.blocked == [0] && 0 !in t.prom;
  }

  // ----- check_for_timeouts -----

  /** One pass of the loop: `c` has been popped off the sleep heap. */
  ghost function ExpireOne<C, P>(s: Sched<C, P>, c: C): Sched<C, P> {
    var t := s.(sleeping := s.sleeping - {c});
    if c in s.prom then NotifyResult(t, s.prom[c], None) else t.(ready := t.ready + [c])
  }

  ghost function ExpireAll<C, P>(s: Sched<C, P>, order: seq<C>): Sched<C, P> {
    if order == [] then s
    else ExpireOne(ExpireAll(s, order[..|order| - 1]), order[|order| - 1])
  }

  ghost predicate Ascending<C>(resume: map<C, Time>, order: seq<C>) {
    forall i, j | 0 <= i < j < |order| ::
      order[i] in resume && order[j] in resume && resume[order[i]] <= resume[order[j]]
  }

  /** `order` lists exactly the sleepers due at `now`, earliest deadline first. */
  ghost predicate DueInOrder<C, P>(s: Sched<C, P>, now: Time, order: seq<C>) {
    && NoDup(order) && Ascending(s.resume, order)
    && SetOf(order) == set c | c in s.sleeping && c in s.resume && s.resume[c] <= now
  }

  /** Part of the way there: `order` lists the earliest sleepers, all of them due. */
  ghost predicate DueSoFar<C, P>(s: Sched<C, P>, now: Time, order: seq<C>) {
    && NoDup(order) && Ascending(s.resume, order) && SetOf(order) <= s.sleeping <= s.resume.Keys
    && (forall c | c in order :: c in s.resume && s.resume[c] <= now)
    && (forall c, d | c in order && d in s.sleeping && d !in order :: c in s.resume && d in s.resume && s.resume[c] <= s.resume[d])
  }

  lemma DueOneMore<C, P>(s: Sched<C, P>, now: Time, order: seq<C>, c: C)
    requires DueSoFar(s, now, order) && c in s.sleeping && c !in order && s.resume[c] <= now
    requires forall d | d in s.sleeping && d !in order :: s.resume[c] <= s.resume[d]
    ensures DueSoFar(s, now, order + [c])
    ensures ExpireAll(s, order + [c]) == ExpireOne(ExpireAll(s, order), c)
  {
    var more := order + [c];
    assert more[..|order|] == order;
    AscendingOneMore(s.resume, order, c);
    assert SetOf(more) <= s.sleeping by {
      forall x | x in SetOf(more) ensures x in s.sleeping {
        assert x == c || x in SetOf(order);
      }
    }
  }

  lemma AscendingOneMore<C>(resume: map<C, Time>, order: seq<C>, c: C)
    requires Ascending(resume, order) && c in resume
    requires forall d | d in order :: d in resume && resume[d] <= resume[c]
    ensures Ascending(resume, order + [c])
  {
  }

  lemma DueAll<C, P>(s: Sched<C, P>, now: Time, order: seq<C>)
    requires DueSoFar(s, now, order)
    requires forall d | d in s.sleeping && d !in order :: s.resume[d] > now
    ensures DueInOrder(s, now, order)
  {
    assert forall c | c in order :: c in SetOf(order);
  }

  /** Whether expiring `order` fails promise `q`. */
  ghost predicate Fails<C, P>(prom: map<C, P>, order: seq<C>, q: P) {
    exists c | c in order :: WaitsOn(prom, c, q)
  }

  lemma FailsOneMore<C, P>(prom: map<C, P>, order: seq<C>, c: C, q: P)
    ensures Fails(prom, order + [c], q) <==> Fails(prom, order, q) || WaitsOn(prom, c, q)
  {
    assert forall x | x in order :: x in order + [c];
    assert c in order + [c];
  }

  ghost function TimedOut<C, P>(prom: map<C, P>, order: seq<C>): seq<C> {
    if order == [] then [] else
      var r := TimedOut(prom, order[..|order| - 1]);
      if order[|order| - 1] in prom then r + [order[|order| - 1]] else r
  }

  ghost function Woken<C, P>(prom: map<C, P>, order: seq<C>): seq<C> {
    if order == [] then [] else
      var r := Woken(prom, order[..|order| - 1]);
      if order[|order| - 1] in prom then r else r + [order[|order| - 1]]
  }

  lemma ExpireOneSettled<C, P>(s: Sched<C, P>, running: set<C>, c: C)
    requires Settled(s, running) && OneWaiter(s) && c in s.sleeping
    ensures Settled(ExpireOne(s, c), running) && OneWaiter(ExpireOne(s, c))
    ensures ExpireOne(s, c) == s.(
        sleeping := s.sleeping - {c},
        blocked := Without(s.blocked, {c}),
        ready := if c in s.prom then [c] + s.ready else s.ready + [c])
  {
    WithoutNoDup(s.blocked, {c});
    if c in s.prom {
      var i := FirstWaiter(s.blocked, s.prom, s.prom[c]);
      assert s.blocked[i] == c;
      RemoveAtIsWithout(s.blocked, i);
    } else {
      WithoutNothing(s.blocked, {c});
    }
  }

  /** The ready list once `order` has expired. */
  ghost function ReadyAfter<C, P>(prom: map<C, P>, ready: seq<C>, order: seq<C>): seq<C> {
    Reverse(TimedOut(prom, order)) + ready + Woken(prom, order)
  }

  lemma PartsOneMore<C, P>(prom: map<C, P>, order: seq<C>, c: C)
    ensures TimedOut(prom, order + [c]) == if c in prom then TimedOut(prom, order) + [c] else TimedOut(prom, order)
    ensures Woken(prom, order + [c]) == if c in prom then Woken(prom, order) else Woken(prom, order) + [c]
  {
    var longer := order + [c];
    assert longer[..|longer| - 1] == order && longer[|longer| - 1] == c;
  }

  lemma ReadyAfterOneMore<C, P>(prom: map<C, P>, ready: seq<C>, order: seq<C>, c: C)
    ensures ReadyAfter(prom, ready, order + [c])
         == if c in prom then [c] + ReadyAfter(prom, ready, order) else ReadyAfter(prom, ready, order) + [c]
  {
    PartsOneMore(prom, order, c);
    ReverseOneMore(TimedOut(prom, order), c);
    Regroup([c], Reverse(TimedOut(prom, order)), ready, Woken(prom, order));
    Regroup(Reverse(TimedOut(prom, order)), ready, Woken(prom, order), [c]);
  }

  lemma Regroup<C>(a: seq<C>, b: seq<C>, c: seq<C>, d: seq<C>)
    ensures (a + b) + c + d == a + (b + c + d)
    ensures a + b + (c + d) == (a + b + c) + d
  {
  }

  /** `s` once exactly `order` has expired. */
  ghost function Expired<C, P>(s: Sched<C, P>, order: seq<C>): Sched<C, P> {
    s.(sleeping := s.sleeping - SetOf(order),
       blocked := Without(s.blocked, SetOf(order)),
       ready := ReadyAfter(s.prom, s.ready, order))
  }

  lemma ExpiredOneMore<C, P>(s: Sched<C, P>, running: set<C>, order: seq<C>, c: C)
    requires Settled(Expired(s, order), running) && OneWaiter(Expired(s, order))
    requires c in s.sleeping && c !in order
    ensures Settled(Expired(s, order + [c]), running) && OneWaiter(Expired(s, order + [c]))
    ensures ExpireOne(Expired(s, order), c) == Expired(s, order + [c])
  {
    ExpireOneSettled(Expired(s, order), running, c);
    assert SetOf(order + [c]) == SetOf(order) + {c};
    WithoutTwice(s.blocked, SetOf(order), {c});
    ReadyAfterOneMore(s.prom, s.ready, order, c);
    assert s.sleeping - SetOf(order) - {c} == s.sleeping - SetOf(order + [c]);
  }

  /**
    The whole loop: the sleepers that ran out leave both structures; those
    that waited on a promise go to the ready front, the last expired first,
    and those that slept go to the ready end in deadline order.
  */
  lemma {:induction false} ExpireAllResult<C, P>(s: Sched<C, P>, running: set<C>, order: seq<C>)
    requires Settled(s, running) && OneWaiter(s) && NoDup(order) && SetOf(order) <= s.sleeping
    ensures Settled(ExpireAll(s, order), running) && OneWaiter(ExpireAll(s, order))
    ensures ExpireAll(s, order) == Expired(s, order)
  {
    if order == [] {
      WithoutNothing(s.blocked, {});
      assert SetOf(order) == {};
      assert ReadyAfter(s.prom, s.ready, order) == s.ready;
    } else {
      var front, c := order[..|order| - 1], order[|order| - 1];
      assert order == front + [c] && c in SetOf(order) && SetOf(front) <= SetOf(order);
      ExpireAllResult(s, running, front);
      ExpiredOneMore(s, running, front, c);
    }
  }

  // ----- start_next_task -----

  /** A thread that has no context yet takes `c`, newly made, as its own. */
  ghost function Boot<C, P>(s: Sched<C, P>, c: C): Sched<C, P> {
    if s.current.Some? then s else s.(current := Some(c), all := s.all + {c}, resume := s.resume[c := 0])
  }

  /** Switch to the first ready context, or to `made` when none is ready. */
  ghost function Switch<C, P>(s: Sched<C, P>, reschedule: bool, made: C): Sched<C, P>
    requires s.current.Some?
  {
    var again := if reschedule then [s.current.value] else [];
    if s.ready != [] then s.(current := Some(s.ready[0]), ready := s.ready[1..] + again)
    else s.(current := Some(made), ready := again, all := s.all + {made}, resume := s.resume[made := 0])
  }

  /** The contexts that run while start_next_task(reschedule) looks for the next one. */
  ghost function Running<C, P>(s: Sched<C, P>, reschedule: bool): set<C> {
    if reschedule && s.current.Some? then {s.current.value} else {}
  }

  lemma BootSettled<C, P>(s: Sched<C, P>, c: C)
    requires s.current.None? && Settled(s, {}) && OneWaiter(s) && c !in s.all
    ensures Settled(Boot(s, c), {c}) && OneWaiter(Boot(s, c))
  {
    var t := Boot(s, c);
    forall d | d in t.all ensures Places(t, {c}, d) == 1 {
      assert d != c ==> Places(s, {}, d) == 1;
    }
  }

  lemma SwitchConsistent<C, P>(s: Sched<C, P>, reschedule: bool, made: C)
    requires s.current.Some? && Settled(s, Running(s, reschedule)) && OneWaiter(s)
    requires s.ready == [] ==> made !in s.all
    ensures Consistent(Switch(s, reschedule, made)) && OneWaiter(Switch(s, reschedule, made))
  {
    var t := Switch(s, reschedule, made);
    var cur := t.current.value;
    forall c | c in t.all ensures Places(t, {cur}, c) == 1 {
      if s.ready != [] {
        assert s.ready == [s.ready[0]] + s.ready[1..];
        assert Places(s, Running(s, reschedule), c) == 1;
      }
    }
  }

  /** start_next_task: expire what is due, then switch. */
  ghost function StartNext<C, P>(s: Sched<C, P>, order: seq<C>, boot: C, reschedule: bool, made: C): Sched<C, P> {
    Switch(Boot(ExpireAll(s, order), boot), reschedule, made)
  }

  lemma BootRunning<C, P>(s: Sched<C, P>, boot: C, reschedule: bool)
    requires Settled(s, Running(s, reschedule)) && OneWaiter(s)
    requires s.current.None? ==> reschedule && boot !in s.all
    ensures var t := Boot(s, boot);
            t.current.Some? && Settled(t, Running(t, reschedule)) && OneWaiter(t)
  {
    if s.current.None? {
      BootSettled(s, boot);
    }
  }

  /** The names of new contexts are new. */
  ghost predicate NewNames<C, P>(s: Sched<C, P>, order: seq<C>, boot: C, made: C) {
    && (s.current.None? ==> boot !in s.all)
    && (ExpireAll(s, order).ready == [] ==> made !in s.all && (s.current.None? ==> made != boot))
  }

  lemma ExpireAllDue<C, P>(s: Sched<C, P>, running: set<C>, now: Time, order: seq<C>)
    requires Settled(s, running) && OneWaiter(s) && DueInOrder(s, now, order)
    ensures Settled(ExpireAll(s, order), running) && OneWaiter(ExpireAll(s, order))
    ensures ExpireAll(s, order) == Expired(s, order)
  {
    assert forall c | c in order :: c in SetOf(order);
    ExpireAllResult(s, running, order);
  }

  /** A task switch, with all that expires before it, keeps every context in exactly one place. */
  lemma StartNextConsistent<C, P>(s: Sched<C, P>, now: Time, order: seq<C>, boot: C, reschedule: bool, made: C)
    requires Settled(s, Running(s, reschedule)) && OneWaiter(s) && DueInOrder(s, now, order)
    requires (s.current.None? ==> reschedule) && NewNames(s, order, boot, made)
    ensures Consistent(StartNext(s, order, boot, reschedule, made))
    ensures OneWaiter(StartNext(s, order, boot, reschedule, made))
    ensures s.all <= StartNext(s, order, boot, reschedule, made).all <= s.all + {boot, made}
  {
    ExpireAllDue(s, Running(s, reschedule), now, order);
    BootRunning(ExpireAll(s, order), boot, reschedule);
    SwitchConsistent(Boot(ExpireAll(s, order), boot), reschedule, made);
  }

  // ----- wait and sleep -----

  ghost function BeginSleep<C, P>(s: Sched<C, P>, t: Time): Sched<C, P>
    requires s.current.Some?
  {
    var c := s.current.value;
    s.(resume := s.resume[c := t], prom := s.prom - {c}, sleeping := s.sleeping + {c})
  }

  ghost function BeginWait<C, P>(s: Sched<C, P>, p: P, deadline: Time): Sched<C, P>
    requires s.current.Some?
  {
    var c := s.current.value;
    var t := s.(prom := s.prom[c := p], blocked := [c] + s.blocked);
    if deadline == TIME_MAX then t else t.(resume := s.resume[c := deadline], sleeping := s.sleeping + {c})
  }

  /** A context that runs is in none of the lists. */
  lemma RunningIsNowhere<C, P>(s: Sched<C, P>)
    requires Consistent(s)
    ensures s.current.value in s.all
    ensures s.current.value !in s.ready && s.current.value !in s.blocked && s.current.value !in s.sleeping
  {
    assert Places(s, {s.current.value}, s.current.value) == 1;
  }

  /** Between two calls a thread either has no context or runs one that is in none of the lists. */
  ghost predicate Steady<C, P>(s: Sched<C, P>) {
    Settled(s, Running(s, true)) && OneWaiter(s)
  }

  lemma BeginSleepSettled<C, P>(s: Sched<C, P>, t: Time)
    requires Consistent(s) && OneWaiter(s)
    ensures Settled(BeginSleep(s, t), {}) && OneWaiter(BeginSleep(s, t))
  {
    var r := BeginSleep(s, t);
    forall c | c in r.all ensures Places(r, {}, c) == 1 {
      assert Places(s, {s.current.value}, c) == 1;
    }
  }

  lemma BeginWaitAwaited<C, P>(s: Sched<C, P>, p: P, deadline: Time, awaited: set<P>)
    requires s.current.Some? && AllAwaited(s, awaited) && p in awaited
    ensures AllAwaited(BeginWait(s, p, deadline), awaited)
  {
  }

  /** Waiting keeps the structures consistent, and one waiter per promise exactly when nobody waited on `p`. */
  lemma BeginWaitSettled<C, P>(s: Sched<C, P>, p: P, deadline: Time)
    requires Consistent(s) && OneWaiter(s)
    ensures Settled(BeginWait(s, p, deadline), {})
    ensures OneWaiter(BeginWait(s, p, deadline)) <==> forall c | c in s.blocked :: !WaitsOn(s.prom, c, p)
  {
    var r := BeginWait(s, p, deadline);
    var cur := s.current.value;
    assert Places(s, {cur}, cur) == 1;
    forall c | c in r.all ensures Places(r, {}, c) == 1 {
      assert Places(s, {cur}, c) == 1;
    }
    assert forall c | c in s.blocked :: c in r.blocked && c != cur && (WaitsOn(s.prom, c, p) <==> r.prom[c] == r.prom[cur]);
    assert cur in r.blocked;
  }

  /** What a context does to its own entries once `wait` or `sleep_until` has it running again. */
  ghost function EndWait<C, P>(s: Sched<C, P>): Sched<C, P>
    requires s.current.Some?
  {
    s.(prom := s.prom - {s.current.value})
  }

  ghost function EndSleep<C, P>(s: Sched<C, P>): Sched<C, P>
    requires s.current.Some?
  {
    s.(resume := s.resume[s.current.value := TIME_MAX])
  }

  lemma EndConsistent<C, P>(s: Sched<C, P>)
    requires Consistent(s) && OneWaiter(s)
    ensures Consistent(EndWait(s)) && OneWaiter(EndWait(s))
    ensures Consistent(EndSleep(s)) && OneWaiter(EndSleep(s))
  {
    assert Places(s, {s.current.value}, s.current.value) == 1;
    forall c | c in s.all
      ensures Places(EndWait(s), {s.current.value}, c) == 1 && Places(EndSleep(s), {s.current.value}, c) == 1
    {
      assert Places(s, {s.current.value}, c) == 1;
    }
  }

  lemma EndSteady<C, P>(s: Sched<C, P>)
    requires s.current.Some? && Steady(s)
    ensures Steady(EndWait(s)) && Steady(EndSleep(s))
  {
    EndConsistent(s);
  }
}
