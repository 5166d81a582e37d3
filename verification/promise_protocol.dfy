/**
  Completing a promise against waiting on it: one context of an owner thread
  waits without a deadline, any number of setters complete the promise, some
  on other threads and some (`local`) on the owner thread itself.  A step is
  one critical section, one access to shared memory, or one stretch of the
  owner thread that no other thread can observe inside.
*/
module PromiseProtocol {
  import opened Wrappers
  import opened Completions

  type Setter = nat

  datatype Waiter =
    | Outside                      // has not called wait
    | Registered                   // has left the locked check, the thread registered
    | Checked                      // has found the promise not ready a second time
    | Blocked                      // is in the blocked list
    | Woken                        // runs again, or never blocked
    | Done(outcome: Outcome, consumed: bool, seen: nat)   // seen: completions so far

  datatype SetterState =
    | Idle
    | Published                    // has left the locked write
    | Asserted                     // has found the promise ready, about to read the registered thread
    | Finished

  datatype State = State(
    prom: PromState,
    registered: bool,
    waiter: Waiter,
    setters: map<Setter, SetterState>,
    posted: nat,                   // notify calls posted to the owner and not yet run
    failed: bool,                  // some BOOST_ASSERT(ready()) found the promise not ready
    history: seq<Completion>)      // completions in lock order
  {
    function At(i: Setter): SetterState {
      if i in setters then setters[i] else Idle
    }

    function Set(i: Setter, t: SetterState): State {
      this.(setters := setters[i := t])
    }
  }

  datatype Label =
    | Check                          // promise::wait, the locked part
    | Recheck                        // thread::wait, p->ready()
    | Block                          // thread::wait, add_to_blocked and switch
    | Finish                         // promise::wait, after the switch back
    | Publish(i: Setter, c: Completion)
    | Assert(i: Setter)
    | Tell(i: Setter)                // read m_blocked_thread; notify asserts, then runs or posts itself
    | RunNotify                      // the owner runs a posted notify

  /** Between registering and blocking the owner thread runs nothing else. */
  predicate OwnerFree(s: State) {
    s.waiter != Registered && s.waiter != Checked
  }

  /** thread::notify on the owner thread. */
  function Notify(s: State): State {
    if s.waiter == Blocked then s.(waiter := Woken) else s
  }

  ghost predicate Step(s: State, local: set<Setter>, l: Label, n: State) {
    match l
    case Check =>
      s.waiter == Outside
      && n == if s.prom.Ready() then s.(waiter := Done(s.prom.Outcome(), false, |s.history|))
              else s.(waiter := Registered, registered := true)
    case Recheck => s.waiter == Registered && n == s.(waiter := if s.prom.Ready() then Woken else Checked)
    case Block => s.waiter == Checked && n == s.(waiter := Blocked)
    case Finish =>
      s.waiter == Woken
      && n == s.(waiter := Done(s.prom.Outcome(), s.prom.error.Some?, |s.history|), prom := s.prom.Consumed())
    case Publish(i, c) =>
      s.At(i) == Idle && (i in local ==> OwnerFree(s))
      && n == s.Set(i, if c.SetValue? && s.prom.error.Some? then Finished else Published).(
                prom := s.prom.Complete(c), history := s.history + [c])
    case Assert(i) =>
      s.At(i) == Published && (i in local ==> OwnerFree(s))
      && n == s.Set(i, Asserted).(failed := s.failed || !s.prom.Ready())
    case Tell(i) =>
      s.At(i) == Asserted && (i in local ==> OwnerFree(s))
      && n == if !s.registered then s.Set(i, Finished)
              else if i in local then Notify(s.Set(i, Finished)).(failed := s.failed || !s.prom.Ready())
              else s.Set(i, Finished).(posted := s.posted + 1, failed := s.failed || !s.prom.Ready())
    case RunNotify =>
      s.posted > 0 && OwnerFree(s)
      && n == Notify(s).(posted := s.posted - 1, failed := s.failed || !s.prom.Ready())
  }

  ghost predicate Init(s: State) {
    s == State(PENDING, false, Outside, map[], 0, false, [])
  }

  ghost predicate Run(ss: seq<State>, local: set<Setter>, ls: seq<Label>) {
    && |ss| == |ls| + 1 && Init(ss[0])
    && forall k {:trigger ls[k]} | 0 <= k < |ls| :: Step(ss[k], local, ls[k], ss[k + 1])
  }

  // ----- The invariant -----

  /** A setter that has completed the promise and has still to tell the waiter. */
  ghost predicate WillTell(s: State, i: Setter) {
    s.At(i) == Published || s.At(i) == Asserted
  }

  ghost predicate SomebodyWillTell(s: State) {
    exists i :: WillTell(s, i)
  }

  /** From registering to blocking, a completed promise has somebody who will tell. */
  ghost predicate Covered(s: State) {
    && (s.waiter != Outside && !s.waiter.Done? ==> s.registered)
    && (s.waiter == Registered || s.waiter == Checked || s.waiter == Blocked ==>
          s.prom.Ready() ==> SomebodyWillTell(s) || s.posted > 0)
  }

  /** Until a wait consumes an error the promise holds the fold of its completions. */
  ghost predicate HoldsFold(s: State) {
    && (!(s.waiter.Done? && s.waiter.consumed) ==> s.prom == Fold(s.history))
    && (s.waiter == Woken ==> s.history != [])
    && (SomebodyWillTell(s) || s.posted > 0 ==> s.history != [])
  }

  /** A wait that is over has reported the fold of what it saw. */
  ghost predicate Reported(s: State) {
    s.waiter.Done? ==>
      && 0 < s.waiter.seen <= |s.history|
      && s.waiter.outcome == Fold(s.history[..s.waiter.seen]).Outcome() && (s.waiter.consumed ==> s.waiter.outcome.Throws?)
  }

  ghost predicate Folded(s: State) {
    HoldsFold(s) && Reported(s)
  }

  /** After an error has been consumed: what the promise still holds. */
  ghost predicate AfterError(s: State) {
    s.waiter.Done? && s.waiter.consumed ==>
      s.waiter.seen <= |s.history|
      && (s.prom.Ready() <==> |s.history| > s.waiter.seen || Fold(s.history[..s.waiter.seen]).value.Some?)
  }

  ghost predicate Inv(s: State) {
    Covered(s) && Folded(s) && AfterError(s)
  }

  lemma CoveredKept(s: State, local: set<Setter>, l: Label, n: State)
    requires Covered(s) && Step(s, local, l, n)
    ensures Covered(n)
  {
    if l.Publish? {
      assert n.At(l.i) == Published || s.prom.Ready();
      assert n.At(l.i) == Published ==> WillTell(n, l.i);
    }
    if SomebodyWillTell(s) {
      var i :| WillTell(s, i);
      assert WillTell(n, i) || (l.Tell? && l.i == i);
    }
  }

  lemma FoldOneMore(history: seq<Completion>, c: Completion)
    ensures Fold(history + [c]) == Fold(history).Complete(c)
  {
    assert (history + [c])[..|history|] == history;
  }

  lemma TellersHaveHistory(s: State, local: set<Setter>, l: Label, n: State)
    requires Folded(s) && Step(s, local, l, n)
    ensures SomebodyWillTell(n) || n.posted > 0 ==> n.history != []
  {
    if SomebodyWillTell(n) {
      var i :| WillTell(n, i);
      assert WillTell(s, i) || l.Publish?;
    }
    if l.Tell? {
      assert WillTell(s, l.i);
    }
  }

  lemma HoldsFoldKept(s: State, local: set<Setter>, l: Label, n: State)
    requires Covered(s) && Folded(s) && Step(s, local, l, n)
    ensures HoldsFold(n)
  {
    TellersHaveHistory(s, local, l, n);
    FoldReady(s.history);
    if l.Publish? {
      FoldOneMore(s.history, l.c);
    } else if l.Tell? {
      assert WillTell(s, l.i);
    }
  }

  lemma ReportedKept(s: State, local: set<Setter>, l: Label, n: State)
    requires Folded(s) && Step(s, local, l, n)
    ensures Reported(n)
  {
    FoldReady(s.history);
    assert s.history[..|s.history|] == s.history;
    if l.Publish? && s.waiter.Done? {
      assert n.history[..s.waiter.seen] == s.history[..s.waiter.seen];
    }
  }

  lemma FoldedKept(s: State, local: set<Setter>, l: Label, n: State)
    requires Covered(s) && Folded(s) && Step(s, local, l, n)
    ensures Folded(n)
  {
    HoldsFoldKept(s, local, l, n);
    ReportedKept(s, local, l, n);
  }

  lemma AfterErrorKept(s: State, local: set<Setter>, l: Label, n: State)
    requires Folded(s) && AfterError(s) && Step(s, local, l, n)
    ensures AfterError(n)
  {
    assert s.history[..|s.history|] == s.history;
    if l.Publish? && s.waiter.Done? {
      assert n.history[..s.waiter.seen] == s.history[..s.waiter.seen];
    }
  }

  lemma {:induction false} RunInv(ss: seq<State>, local: set<Setter>, ls: seq<Label>, k: nat)
    requires Run(ss, local, ls) && k < |ss|
    ensures Inv(ss[k])
  {
    if k > 0 {
      RunInv(ss, local, ls, k - 1);
      CoveredKept(ss[k - 1], local, ls[k - 1], ss[k]);
      FoldedKept(ss[k - 1], local, ls[k - 1], ss[k]);
      AfterErrorKept(ss[k - 1], local, ls[k - 1], ss[k]);
    }
  }

  // ----- What holds of every run -----

  /**
    No lost wake-up.  Whenever the context is blocked and the promise is
    ready, a setter is still between its write and its notify, or a notify is
    posted and has not run.
  */
  lemma NoLostWakeup(ss: seq<State>, local: set<Setter>, ls: seq<Label>, k: nat)
    requires Run(ss, local, ls) && k < |ss| && ss[k].waiter == Blocked && ss[k].prom.Ready()
    ensures SomebodyWillTell(ss[k]) || ss[k].posted > 0
  {
    RunInv(ss, local, ls, k);
  }

  /** When all setters are through and all notifies have run, a completed promise has no blocked waiter. */
  lemma QuiescentMeansWoken(ss: seq<State>, local: set<Setter>, ls: seq<Label>, k: nat)
    requires Run(ss, local, ls) && k < |ss| && ss[k].posted == 0 && ss[k].history != []
    requires forall i :: ss[k].At(i) == Idle || ss[k].At(i) == Finished
    ensures ss[k].waiter != Blocked
  {
    RunInv(ss, local, ls, k);
    FoldReady(ss[k].history);
  }

  /**
    The outcome of the wait is a fold of the completions before it: the last
    exception if there was one, else the last value.  It is never
    future_value_not_ready.
  */
  lemma OutcomeIsFold(ss: seq<State>, local: set<Setter>, ls: seq<Label>, k: nat)
    requires Run(ss, local, ls) && k < |ss| && ss[k].waiter.Done?
    ensures var w := ss[k].waiter;
            && 0 < w.seen <= |ss[k].history| && w.outcome != ValueNotReady
            && (NoException(ss[k].history[..w.seen]) ==> w.outcome == Returns(ss[k].history[w.seen - 1].v))
            && (forall i: nat | LastException(ss[k].history[..w.seen], i) :: w.outcome == Throws(ss[k].history[i].e))
  {
    RunInv(ss, local, ls, k);
    var w := ss[k].waiter;
    var h := ss[k].history[..w.seen];
    FoldReady(h);
    if NoException(h) {
      LastValueWins(h);
    }
    forall i: nat | LastException(h, i) ensures w.outcome == Throws(ss[k].history[i].e) {
      ExceptionWins(h, i);
    }
  }

  /**
    The code asserts, before it notifies and again where the notify runs,
    that the promise is ready.  That is so exactly unless the waiter has
    consumed an error, nothing has completed the promise since, and no value
    came before the error.
  */
  lemma ReadyWhenNotified(ss: seq<State>, local: set<Setter>, ls: seq<Label>, k: nat)
    requires Run(ss, local, ls) && k < |ss| && (SomebodyWillTell(ss[k]) || ss[k].posted > 0)
    ensures var s := ss[k];
            !s.prom.Ready() <==> s.waiter.Done? && s.waiter.consumed && |s.history| == s.waiter.seen
                                 && Fold(s.history[..s.waiter.seen]).value == None
  {
    RunInv(ss, local, ls, k);
    FoldReady(ss[k].history);
  }

  // ----- What can still happen -----

  ghost predicate Continues(ss: seq<State>, local: set<Setter>, ls: seq<Label>, ss': seq<State>, ls': seq<Label>) {
    Run(ss, local, ls) && Run(ss', local, ls') && ss <= ss' && ls <= ls'
  }

  /** A continuation in which nobody completes the promise again. */
  ghost predicate ContinuesAsIs(ss: seq<State>, local: set<Setter>, ls: seq<Label>, ss': seq<State>, ls': seq<Label>) {
    Continues(ss, local, ls, ss', ls') && forall k | |ls| <= k < |ls'| :: !ls'[k].Publish?
  }

  lemma ExtendBy(ss: seq<State>, local: set<Setter>, ls: seq<Label>, l: Label, n: State) returns (ss': seq<State>, ls': seq<Label>)
    requires Run(ss, local, ls) && Step(ss[|ls|], local, l, n)
    ensures Continues(ss, local, ls, ss', ls') && ls' == ls + [l] && ss'[|ls'|] == n && Inv(n)
  {
    ss', ls' := ss + [n], ls + [l];
    forall k | 0 <= k < |ls'| ensures Step(ss'[k], local, ls'[k], ss'[k + 1]) {
      assert k < |ls| ==> ls'[k] == ls[k] && Step(ss[k], local, ls[k], ss[k + 1]);
    }
    RunInv(ss', local, ls', |ls'|);
  }

  lemma {:induction false} HistoryStays(ss: seq<State>, local: set<Setter>, ls: seq<Label>, j: nat, k: nat)
    requires Run(ss, local, ls) && j <= k < |ss| && forall i | j <= i < k :: !ls[i].Publish?
    ensures ss[k].history == ss[j].history
  {
    if j < k {
      HistoryStays(ss, local, ls, j, k - 1);
      assert !ls[k - 1].Publish? && Step(ss[k - 1], local, ls[k - 1], ss[k]);
    }
  }

  lemma FinishOnce(ss: seq<State>, local: set<Setter>, ls: seq<Label>) returns (ss': seq<State>, ls': seq<Label>)
    requires Run(ss, local, ls) && ss[|ls|].waiter == Woken
    ensures ContinuesAsIs(ss, local, ls, ss', ls') && ss'[|ls'|].waiter.Done?
  {
    var s := ss[|ls|];
    ss', ls' := ExtendBy(ss, local, ls, Finish,
      s.(waiter := Done(s.prom.Outcome(), s.prom.error.Some?, |s.history|), prom := s.prom.Consumed()));
  }

  /** A posted notify runs. */
  lemma NotifyOnce(ss: seq<State>, local: set<Setter>, ls: seq<Label>) returns (ss': seq<State>, ls': seq<Label>)
    requires Run(ss, local, ls) && ss[|ls|].waiter == Blocked && ss[|ls|].posted > 0
    ensures ContinuesAsIs(ss, local, ls, ss', ls') && ss'[|ls'|].waiter == Woken
  {
    var s := ss[|ls|];
    ss', ls' := ExtendBy(ss, local, ls, RunNotify, Notify(s).(posted := s.posted - 1, failed := s.failed || !s.prom.Ready()));
  }

  /** A setter that has still to tell does so. */
  lemma TellOnce(ss: seq<State>, local: set<Setter>, ls: seq<Label>, i: Setter) returns (ss': seq<State>, ls': seq<Label>)
    requires Run(ss, local, ls) && ss[|ls|].waiter == Blocked && ss[|ls|].registered && ss[|ls|].At(i) == Asserted
    ensures ContinuesAsIs(ss, local, ls, ss', ls')
    ensures ss'[|ls'|].waiter == Woken || (ss'[|ls'|].waiter == Blocked && ss'[|ls'|].posted > 0)
  {
    var s := ss[|ls|];
    var failed := s.failed || !s.prom.Ready();
    var n := if i in local then Notify(s.Set(i, Finished)).(failed := failed)
             else s.Set(i, Finished).(posted := s.posted + 1, failed := failed);
    ss', ls' := ExtendBy(ss, local, ls, Tell(i), n);
  }

  lemma AssertOnce(ss: seq<State>, local: set<Setter>, ls: seq<Label>, i: Setter) returns (ss': seq<State>, ls': seq<Label>)
    requires Run(ss, local, ls) && ss[|ls|].waiter == Blocked && ss[|ls|].registered && WillTell(ss[|ls|], i)
    ensures ContinuesAsIs(ss, local, ls, ss', ls')
    ensures ss'[|ls'|].waiter == Blocked && ss'[|ls'|].registered && ss'[|ls'|].At(i) == Asserted
  {
    ss', ls' := ss, ls;
    var s := ss[|ls|];
    if s.At(i) == Published {
      ss', ls' := ExtendBy(ss, local, ls, Assert(i), s.Set(i, Asserted).(failed := s.failed || !s.prom.Ready()));
    }
  }

  lemma UnblockOnce(ss: seq<State>, local: set<Setter>, ls: seq<Label>) returns (ss': seq<State>, ls': seq<Label>)
    requires Run(ss, local, ls) && ss[|ls|].waiter == Blocked && ss[|ls|].history != []
    ensures ContinuesAsIs(ss, local, ls, ss', ls') && ss'[|ls'|].waiter == Woken
  {
    ss', ls' := ss, ls;
    RunInv(ss, local, ls, |ls|);
    FoldReady(ss[|ls|].history);
    if ss[|ls|].posted == 0 {
      var i :| WillTell(ss[|ls|], i);
      ss', ls' := AssertOnce(ss, local, ls, i);
      ss', ls' := TellOnce(ss', local, ls', i);
    }
    if ss'[|ls'|].waiter == Blocked {
      ss', ls' := NotifyOnce(ss', local, ls');
    }
  }

  /** From registering on: the recheck, and blocking if it comes to that. */
  lemma BlockOrWake(ss: seq<State>, local: set<Setter>, ls: seq<Label>) returns (ss': seq<State>, ls': seq<Label>)
    requires Run(ss, local, ls) && ss[|ls|].history != []
    requires ss[|ls|].waiter == Registered || ss[|ls|].waiter == Checked
    ensures ContinuesAsIs(ss, local, ls, ss', ls') && ss'[|ls'|].history != []
    ensures ss'[|ls'|].waiter == Blocked || ss'[|ls'|].waiter == Woken
  {
    ss', ls' := ss, ls;
    var s := ss[|ls|];
    if s.waiter == Registered {
      ss', ls' := ExtendBy(ss, local, ls, Recheck, s.(waiter := if s.prom.Ready() then Woken else Checked));
    }
    var m := ss'[|ls'|];
    if m.waiter == Checked {
      ss', ls' := ExtendBy(ss', local, ls', Block, m.(waiter := Blocked));
    }
  }

  lemma FinishWait(ss: seq<State>, local: set<Setter>, ls: seq<Label>) returns (ss': seq<State>, ls': seq<Label>)
    requires Run(ss, local, ls) && (ss[|ls|].waiter.Done? || ss[|ls|].history != [])
    ensures ContinuesAsIs(ss, local, ls, ss', ls') && ss'[|ls'|].waiter.Done?
  {
    ss', ls' := ss, ls;
    var s := ss[|ls|];
    if s.waiter == Outside {
      RunInv(ss, local, ls, |ls|);
      FoldReady(s.history);
      ss', ls' := ExtendBy(ss, local, ls, Check, s.(waiter := Done(s.prom.Outcome(), false, |s.history|)));
    } else if !s.waiter.Done? {
      if s.waiter == Registered || s.waiter == Checked {
        ss', ls' := BlockOrWake(ss, local, ls);
      }
      if ss'[|ls'|].waiter == Blocked {
        ss', ls' := UnblockOnce(ss', local, ls');
      }
      ss', ls' := FinishOnce(ss', local, ls');
    }
  }

  /**
    Whatever the setters and the owner thread are in the middle of, the wait
    can finish without another completion if and only if it has finished or
    the promise has been completed.
  */
  lemma WaitCanFinish(ss: seq<State>, local: set<Setter>, ls: seq<Label>)
    requires Run(ss, local, ls)
    ensures (exists ss': seq<State>, ls': seq<Label> :: ContinuesAsIs(ss, local, ls, ss', ls') && ss'[|ls'|].waiter.Done?) <==>
            (ss[|ls|].waiter.Done? || ss[|ls|].history != [])
  {
    if ss[|ls|].waiter.Done? || ss[|ls|].history != [] {
      var ss', ls' := FinishWait(ss, local, ls);
      assert ContinuesAsIs(ss, local, ls, ss', ls');
    } else {
      forall ss': seq<State>, ls': seq<Label> | ContinuesAsIs(ss, local, ls, ss', ls') ensures !ss'[|ls'|].waiter.Done? {
        HistoryStays(ss', local, ls', |ls|, |ls'|);
        RunInv(ss', local, ls', |ls'|);
      }
    }
  }

  /** The notifies of setters on other threads that have reached the owner thread's queue. */
  ghost function Told(ss: seq<State>, local: set<Setter>, ls: seq<Label>, k: nat): nat
    requires k <= |ls| < |ss|
  {
    if k == 0 then 0
    else Told(ss, local, ls, k - 1)
         + if ls[k - 1].Tell? && ls[k - 1].i !in local && ss[k - 1].registered then 1 else 0
  }

  function Ran(ls: seq<Label>): nat {
    if ls == [] then 0 else Ran(ls[..|ls| - 1]) + if ls[|ls| - 1].RunNotify? then 1 else 0
  }

  /** Every posted notify runs at most once, and one is posted for every setter on another thread that finds a registered waiter. */
  lemma {:induction false} NotifiesAddUp(ss: seq<State>, local: set<Setter>, ls: seq<Label>, k: nat)
    requires Run(ss, local, ls) && k < |ss|
    ensures ss[k].posted + Ran(ls[..k]) == Told(ss, local, ls, k)
  {
    if k > 0 {
      NotifiesAddUp(ss, local, ls, k - 1);
      assert ls[..k][..k - 1] == ls[..k - 1];
      assert Step(ss[k - 1], local, ls[k - 1], ss[k]);
    }
  }

  /** A value that comes after an error nobody consumed changes nothing and tells nobody; every other completion is told. */
  lemma OnlyIgnoredValuesAreSilent(ss: seq<State>, local: set<Setter>, ls: seq<Label>, k: nat)
    requires Run(ss, local, ls) && k < |ls| && ls[k].Publish?
    ensures ls[k].c.SetValue? && ss[k].prom.error.Some? <==> !WillTell(ss[k + 1], ls[k].i)
    ensures !WillTell(ss[k + 1], ls[k].i) ==> ss[k + 1].prom == ss[k].prom
  {
    assert Step(ss[k], local, ls[k], ss[k + 1]);
  }

  /** A wait blocks only on a promise that its second check has found not ready, and registers only after the first has. */
  lemma BlocksOnlyUnready(ss: seq<State>, local: set<Setter>, ls: seq<Label>, k: nat)
    requires Run(ss, local, ls) && k < |ls|
    ensures ss[k].waiter != Checked && ss[k + 1].waiter == Checked ==> ls[k] == Recheck && !ss[k].prom.Ready()
    ensures ss[k].waiter == Outside && ss[k + 1].waiter == Registered ==> ls[k] == Check && !ss[k].prom.Ready()
    ensures ls[k] == Recheck && ss[k].prom.Ready() ==> ss[k + 1].waiter == Woken
  {
    assert Step(ss[k], local, ls[k], ss[k + 1]);
  }

  lemma Extend(ss: seq<State>, ls: seq<Label>, l: Label, n: State) returns (ss': seq<State>, ls': seq<Label>)
    requires Run(ss, {}, ls) && Step(ss[|ls|], {}, l, n)
    ensures Run(ss', {}, ls') && ss'[|ls'|] == n
  {
    ss', ls' := ExtendBy(ss, {}, ls, l, n);
  }

  /** Two exceptions reach a blocked waiter, and their notifies are posted. */
  lemma TwoExceptionsPosted(e: Completion, s: State) returns (ss: seq<State>, ls: seq<Label>)
    requires e.SetException?
    requires s == State(PromState(Some(e.e), None), true, Blocked, map[1 := Finished, 2 := Finished], 2, false, [e, e])
    ensures Run(ss, {}, ls) && ss[|ss| - 1] == s
  {
    var p := PromState(Some(e.e), None);
    ss, ls := [State(PENDING, false, Outside, map[], 0, false, [])], [];
    ss, ls := Extend(ss, ls, Check, State(PENDING, true, Registered, map[], 0, false, []));
    ss, ls := Extend(ss, ls, Recheck, State(PENDING, true, Checked, map[], 0, false, []));
    ss, ls := Extend(ss, ls, Block, State(PENDING, true, Blocked, map[], 0, false, []));
    ss, ls := Extend(ss, ls, Publish(1, e), State(p, true, Blocked, map[1 := Published], 0, false, [e]));
    ss, ls := Extend(ss, ls, Assert(1), State(p, true, Blocked, map[1 := Asserted], 0, false, [e]));
    ss, ls := Extend(ss, ls, Tell(1), State(p, true, Blocked, map[1 := Finished], 1, false, [e]));
    ss, ls := Extend(ss, ls, Publish(2, e), State(p, true, Blocked, map[1 := Finished, 2 := Published], 1, false, [e, e]));
    ss, ls := Extend(ss, ls, Assert(2), State(p, true, Blocked, map[1 := Finished, 2 := Asserted], 1, false, [e, e]));
    ss, ls := Extend(ss, ls, Tell(2), s);
  }

  /** The waiter consumes both before the second notify runs, which then finds the promise not ready. */
  lemma NotifyMayFindNotReady() returns (ss: seq<State>, ls: seq<Label>)
    ensures Run(ss, {}, ls) && ss[|ss| - 1].failed
  {
    var e := SetException(Raised(1));
    var p, told := PromState(Some(e.e), None), map[1 := Finished, 2 := Finished];
    ss, ls := TwoExceptionsPosted(e, State(p, true, Blocked, told, 2, false, [e, e]));
    ss, ls := Extend(ss, ls, RunNotify, State(p, true, Woken, told, 1, false, [e, e]));
    ss, ls := Extend(ss, ls, Finish, State(PENDING, true, Done(Throws(e.e), true, 2), told, 1, false, [e, e]));
    ss, ls := Extend(ss, ls, RunNotify, State(PENDING, true, Done(Throws(e.e), true, 2), told, 0, true, [e, e]));
  }
}
