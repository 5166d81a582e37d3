/**
  The context half of a cmt::thread: contexts and promises as objects, the
  ready and blocked lists threaded through the contexts, and the sleep heap.
  Each method is proved against the operation on values of the same name in
  module Schedule.  A context switch is a change of `current`: a method that
  switches ends where the code jumps to the other context.
*/
module Scheduler {
  import opened Wrappers
  import opened Completions
  import opened Schedule
  import opened Heaps
  import T = Tasks

  class Context {
    var prom: Promise?
    var resumeTime: Time
    var nextBlocked: Context?
    var next: Context?

    constructor ()
      ensures prom == null && resumeTime == 0 && nextBlocked == null && next == null
    {
      prom, resumeTime, nextBlocked, next := null, 0, null, null;
    }
  }

  class Promise {
    var error: Option<Error>
    var value: Option<Value>
    var blockedThread: ThreadPrivate?

    ghost function State(): PromState
      reads `error, `value
    {
      PromState(error, value)
    }

    constructor ()
      ensures State() == PENDING && blockedThread == null
    {
      error, value, blockedThread := None, None, null;
    }

    /** The first, locked part of wait: answer at once, or register the thread that will block. */
    method CheckAndRegister(t: ThreadPrivate) returns (answer: Option<Outcome>)
      modifies `blockedThread
      ensures answer == if State().Ready() then Some(State().Outcome()) else None
      ensures blockedThread == if State().Ready() then old(blockedThread) else t
    {
      if error.Some? {
        return Some(Throws(error.value));
      }
      if value.Some? {
        return Some(Returns(value.value));
      }
      blockedThread := t;
      answer := None;
    }

    /** The last part of wait, once the context runs again. */
    method Consume() returns (outcome: Outcome)
      modifies `error
      ensures outcome == old(State()).Outcome() && State() == old(State()).Consumed()
    {
      if error.Some? {
        var e := error.value;
        error := None;
        return Throws(e);
      }
      outcome := if value.Some? then Returns(value.value) else ValueNotReady;
    }

    /**
      Tell the registered thread.  On its own thread that is a call;
      otherwise `post` says that a call must be posted to it.
    */
    method Notify(caller: ThreadPrivate) returns (post: bool, ghost d: Option<Context>)
      requires blockedThread == caller ==> caller.Valid()
      modifies caller, caller.contexts
      ensures post == (blockedThread != null && blockedThread != caller)
      ensures if blockedThread == caller then caller.Notified(this, d, old(caller.View()))
              else unchanged(caller) && unchanged(caller.contexts)
    {
      post := blockedThread != null && blockedThread != caller;
      d := None;
      if blockedThread == caller {
        d := caller.Notify(this);
      }
    }

    method SetException(e: Error, caller: ThreadPrivate) returns (post: bool, ghost d: Option<Context>)
      requires blockedThread == caller ==> caller.Valid()
      modifies `error, caller, caller.contexts
      ensures State() == old(State()).Complete(Completion.SetException(e))
      ensures post == (blockedThread != null && blockedThread != caller)
      ensures if blockedThread == caller then caller.Notified(this, d, old(caller.View()))
              else unchanged(caller) && unchanged(caller.contexts)
    {
      error := Some(e);
      post, d := Notify(caller);
    }

    /** An error stays, and then nobody is told. */
    method SetValue(v: Value, caller: ThreadPrivate) returns (post: bool, ghost d: Option<Context>)
      requires blockedThread == caller ==> caller.Valid()
      modifies `value, caller, caller.contexts
      ensures State() == old(State()).Complete(Completion.SetValue(v))
      ensures post == (error.None? && blockedThread != null && blockedThread != caller)
      ensures if error.None? && blockedThread == caller then caller.Notified(this, d, old(caller.View()))
              else unchanged(caller) && unchanged(caller.contexts)
    {
      post, d := false, None;
      if error.Some? {
        return;
      }
      value := Some(v);
      post, d := Notify(caller);
    }
  }

  /** The states of some promises. */
  type Ledger = map<Promise, PromState>

  datatype WaitStart = AlreadyReady | PastDeadline | Suspended

  function At(s: seq<Context>, i: nat): Context? {
    if i < |s| then s[i] else null
  }

  function Last(s: seq<Context>): Context? {
    if s == [] then null else s[|s| - 1]
  }

  function Times(cs: seq<Context>): map<Context, Time>
    reads cs
  {
    map c | c in cs :: c.resumeTime
  }

  /** The order of the sleep heap, on the deadlines as they stand: the earliest is the greatest. */
  function SleepPriorityLess(times: map<Context, Time>): (Context, Context) -> bool {
    (a: Context, b: Context) => a in times && b in times && times[a] > times[b]
  }

  lemma SleepOrder(times: map<Context, Time>, els: multiset<Context>)
    requires forall c | c in els :: c in times
    ensures OrderOn(SleepPriorityLess(times), els)
  {
  }

  /** The first `n` contexts form a heap with the earliest deadline in front. */
  ghost predicate ByDeadline(s: seq<Context>, n: nat)
    requires n <= |s|
    reads s`resumeTime
  {
    forall i {:trigger Parent(i)} | 0 < i < n :: s[Parent(i)].resumeTime <= s[i].resumeTime
  }

  lemma HeapByDeadline(cs: seq<Context>, s: seq<Context>, n: nat)
    requires n <= |s| && multiset(s) == multiset(cs)
    ensures HeapFrom(s, SleepPriorityLess(Times(cs)), n, 0) <==> ByDeadline(s, n)
  {
    forall i | 0 <= i < |s| ensures s[i] in cs {
      assert s[i] in multiset(cs);
    }
  }

  method PushByDeadline(v: seq<Context>) returns (w: seq<Context>)
    requires |v| > 0 && ByDeadline(v, |v| - 1)
    ensures |w| == |v| && multiset(w) == multiset(v) && ByDeadline(w, |w|)
  {
    HeapByDeadline(v, v, |v| - 1);
    SleepOrder(Times(v), multiset(v));
    w := PushHeap(v, SleepPriorityLess(Times(v)));
    HeapByDeadline(v, w, |w|);
  }

  method PopByDeadline(v: seq<Context>) returns (w: seq<Context>)
    requires |v| > 0 && ByDeadline(v, |v|)
    ensures |w| == |v| && multiset(w) == multiset(v) && w[|w| - 1] == v[0] && ByDeadline(w, |w| - 1)
  {
    HeapByDeadline(v, v, |v|);
    SleepOrder(Times(v), multiset(v));
    w := PopHeap(v, SleepPriorityLess(Times(v)));
    HeapByDeadline(v, w, |w| - 1);
  }

  method MakeByDeadline(v: seq<Context>) returns (w: seq<Context>)
    ensures |w| == |v| && multiset(w) == multiset(v) && ByDeadline(w, |w|)
  {
    SleepOrder(Times(v), multiset(v));
    w := MakeHeap(v, SleepPriorityLess(Times(v)));
    HeapByDeadline(v, w, |w|);
  }

  lemma {:induction false} FrontIsEarliest(s: seq<Context>, i: nat)
    requires i < |s| && ByDeadline(s, |s|)
    ensures s[0].resumeTime <= s[i].resumeTime
    decreases i
  {
    if i > 0 {
      FrontIsEarliest(s, Parent(i));
    }
  }

  ghost predicate WakesAt(s: Sched<Context, Promise>, c: Context, t: Time) {
    c in s.resume && s.resume[c] == t
  }

  ghost predicate EarliestSleeper(s: Sched<Context, Promise>, t: Time) {
    if s.sleeping == {} then t == TIME_MAX
    else (exists c :: c in s.sleeping && WakesAt(s, c, t)) && forall c | c in s.sleeping && c in s.resume :: t <= s.resume[c]
  }

  ghost predicate LatestTask(scheduled: multiset<T.Task>, t: Time) {
    if scheduled == multiset{} then t == TIME_MAX
    else (exists u :: u in scheduled && u.when == t) && forall u | u in scheduled :: u.when <= t
  }

  /**
    check_for_timeouts is meant to say when the next task needs to run.  The
    time it says is not past any scheduled task if and only if all scheduled
    tasks share one time, or some sleeper precedes them all.
  */
  lemma NextTimeCoversTasks(s: Sched<Context, Promise>, scheduled: multiset<T.Task>, sleeper: Time, task: Time)
    requires EarliestSleeper(s, sleeper) && LatestTask(scheduled, task)
    ensures (forall t | t in scheduled :: (if sleeper < task then sleeper else task) <= t.when) <==>
            ((forall t | t in scheduled :: t.when == task) || (forall t | t in scheduled :: sleeper <= t.when))
  {
  }

  /** Two scheduled tasks and no sleeper: the earlier one is overslept. */
  lemma EarlierTaskOverslept(s: Sched<Context, Promise>, a: T.Task, b: T.Task, sleeper: Time, task: Time)
    requires s.sleeping == {} && a.when < b.when
    requires EarliestSleeper(s, sleeper) && LatestTask(multiset{a, b}, task)
    ensures a.when < if sleeper < task then sleeper else task
  {
    assert b in multiset{a, b};
  }

  class ThreadPrivate {
    var current: Context?
    var readyHead: Context?
    var readyTail: Context?
    var blocked: Context?
    var sleepPqueue: seq<Context>
    const tasks: T.TaskQueues

    ghost var contexts: set<Context>   // every context of this thread
    ghost var ready: seq<Context>      // the list from readyHead
    ghost var waiting: seq<Context>    // the list from blocked

    ghost predicate ReadyLinks()
      reads `contexts, `ready, `readyHead, `readyTail, contexts`next
    {
      && SetOf(ready) <= contexts && NoDup(ready)
      && readyHead == At(ready, 0) && readyTail == Last(ready)
      && forall i {:trigger ready[i].next} | 0 <= i < |ready| :: ready[i] in contexts && ready[i].next == At(ready, i + 1)
    }

    ghost predicate BlockedLinks()
      reads `contexts, `waiting, `blocked, contexts`nextBlocked
    {
      && SetOf(waiting) <= contexts && NoDup(waiting) && blocked == At(waiting, 0)
      && forall i {:trigger waiting[i].nextBlocked} | 0 <= i < |waiting| ::
           waiting[i] in contexts && waiting[i].nextBlocked == At(waiting, i + 1)
    }

    ghost predicate SleepHeap()
      reads `contexts, `sleepPqueue, contexts`resumeTime
    {
      && SetOf(sleepPqueue) <= contexts && NoDup(sleepPqueue)
      && (forall i | 0 <= i < |sleepPqueue| :: sleepPqueue[i] in contexts)
      && ByDeadline(sleepPqueue, |sleepPqueue|)
    }

    ghost predicate Valid()
      reads this, contexts
    {
      && ReadyLinks() && BlockedLinks() && SleepHeap()
      && (forall c | c in ready :: c !in waiting)
      && (current != null ==> current in contexts)
    }

    ghost function Proms(): map<Context, Promise>
      reads `contexts, contexts`prom
    {
      map c | c in contexts && c.prom != null :: c.prom as Promise
    }

    ghost function Resumes(): map<Context, Time>
      reads `contexts, contexts`resumeTime
    {
      map c | c in contexts :: c.resumeTime
    }

    /** The scheduler as a value. */
    ghost function View(): Sched<Context, Promise>
      reads this, contexts
    {
      Sched(contexts, if current == null then None else Some(current as Context), ready, waiting,
            SetOf(sleepPqueue), Proms(), Resumes())
    }

    /** What notify(p) has done to a thread that stood at `before`. */
    ghost predicate Notified(p: Promise, d: Option<Context>, before: Sched<Context, Promise>)
      reads this, contexts
    {
      Valid() && TimedChoice(before, p, d) && View() == NotifyResult(before, p, d)
    }

    /** Every blocked context waits on one of `awaited`, which all notify this thread. */
    ghost predicate Registered(awaited: set<Promise>)
      reads `waiting, waiting`prom, awaited`blockedThread
    {
      && (forall c | c in waiting :: c.prom != null && c.prom in awaited)
      && (forall q | q in awaited :: q.blockedThread == this)
    }

    lemma RegisteredByView(awaited: set<Promise>)
      requires Valid() && forall q | q in awaited :: q.blockedThread == this
      ensures Registered(awaited) <==> AllAwaited(View(), awaited)
    {
      assert forall c | c in waiting :: c in contexts && (c in Proms() ==> Proms()[c] == c.prom);
    }

    constructor (tasks: T.TaskQueues)
      ensures Valid() && this.tasks == tasks
      ensures View() == Sched({}, None, [], [], {}, map[], map[])
    {
      current, readyHead, readyTail, blocked, sleepPqueue := null, null, null, null, [];
      this.tasks := tasks;
      contexts, ready, waiting := {}, [], [];
    }

    // ----- The two lists -----

    method AddToBlocked(c: Context)
      requires BlockedLinks() && c in contexts && c !in waiting
      modifies `blocked, `waiting, c`nextBlocked
      ensures BlockedLinks() && waiting == [c] + old(waiting)
    {
      c.nextBlocked := blocked;
      blocked := c;
      waiting := [c] + waiting;
    }

    method ReadyPopFront() returns (c: Context?)
      requires ReadyLinks()
      modifies `readyHead, `readyTail, `ready, contexts`next
      ensures ReadyLinks()
      ensures c == At(old(ready), 0)
      ensures ready == if old(ready) == [] then [] else old(ready)[1..]
    {
      c := null;
      if readyHead != null {
        c := readyHead;
        readyHead := c.next;
        if readyHead == null {
          readyTail := null;
        }
        c.next := null;
        ready := ready[1..];
      }
    }

    method ReadyPushFront(c: Context)
      requires ReadyLinks() && c in contexts && c !in ready
      modifies `readyHead, `readyTail, `ready, c`next
      ensures ReadyLinks() && ready == [c] + old(ready)
    {
      c.next := readyHead;
      readyHead := c;
      if readyTail == null {
        readyTail := c;
      }
      ready := [c] + ready;
    }

    method ReadyPushBack(c: Context)
      requires ReadyLinks() && c in contexts && c !in ready
      modifies `readyHead, `readyTail, `ready, contexts`next
      ensures ReadyLinks() && ready == old(ready) + [c]
    {
      c.next := null;
      if readyTail != null {
        readyTail.next := c;
      } else {
        readyHead := c;
      }
      readyTail := c;
      ready := ready + [c];
    }

    /** Take position `i` out of the blocked list, given its predecessor. */
    method Unlink(cur: Context, prev: Context?, ghost i: nat)
      requires BlockedLinks() && i < |waiting| && cur == waiting[i]
      requires prev == if i == 0 then null else waiting[i - 1]
      modifies `blocked, `waiting, contexts`nextBlocked
      ensures BlockedLinks() && waiting == RemoveAt(old(waiting), i) && cur.nextBlocked == null
    {
      if prev != null {
        prev.nextBlocked := cur.nextBlocked;
      } else {
        blocked := cur.nextBlocked;
      }
      cur.nextBlocked := null;
      RemoveAtNoDup(waiting, i);
      waiting := RemoveAt(waiting, i);
    }

    // ----- The sleep heap -----

    lemma Reheaped(v: seq<Context>)
      requires SetOf(v) <= contexts && NoDup(v)
      requires multiset(v) == multiset(sleepPqueue) && ByDeadline(sleepPqueue, |sleepPqueue|)
      ensures SleepHeap() && SetOf(sleepPqueue) == SetOf(v)
    {
      Rearranged(v, sleepPqueue);
      forall i | 0 <= i < |sleepPqueue| ensures sleepPqueue[i] in contexts {
        assert sleepPqueue[i] in SetOf(sleepPqueue);
      }
    }

    method PushSleeper(c: Context)
      requires SleepHeap() && c in contexts && c !in sleepPqueue
      modifies `sleepPqueue
      ensures SleepHeap() && SetOf(sleepPqueue) == old(SetOf(sleepPqueue)) + {c}
    {
      var v := sleepPqueue + [c];
      assert SetOf(v) == SetOf(sleepPqueue) + {c};
      sleepPqueue := PushByDeadline(v);
      Reheaped(v);
    }

    method PopSleeper() returns (c: Context)
      requires SleepHeap() && sleepPqueue != []
      modifies `sleepPqueue
      ensures c == old(sleepPqueue[0]) && c !in sleepPqueue
      ensures SleepHeap() && SetOf(sleepPqueue) == old(SetOf(sleepPqueue)) - {c}
    {
      c := sleepPqueue[0];
      var w := PopByDeadline(sleepPqueue);
      Rearranged(sleepPqueue, w);
      var rest := w[..|w| - 1];
      assert w == rest + [c];
      assert SetOf(w) == SetOf(rest) + {c};
      assert forall i | 0 <= i < |rest| :: rest[i] in SetOf(w);
      sleepPqueue := rest;
    }

    /** Overwrite position `i` with the last element, drop the last, and make a heap again. */
    method DropSleeper(i: nat)
      requires SleepHeap() && i < |sleepPqueue|
      modifies `sleepPqueue
      ensures SleepHeap() && SetOf(sleepPqueue) == old(SetOf(sleepPqueue)) - {old(sleepPqueue)[i]}
    {
      var v := sleepPqueue[i := sleepPqueue[|sleepPqueue| - 1]];
      v := v[..|v| - 1];
      assert SetOf(v) == SetOf(sleepPqueue) - {sleepPqueue[i]} by {
        forall c | c in sleepPqueue && c != sleepPqueue[i] ensures c in v {
          var k :| 0 <= k < |sleepPqueue| && sleepPqueue[k] == c;
          assert v[if k == |sleepPqueue| - 1 then i else k] == c;
        }
      }
      sleepPqueue := MakeByDeadline(v);
      Reheaped(v);
    }

    // ----- notify -----

    method MoveToReady(cur: Context, prev: Context?, ghost i: nat)
      requires Valid() && i < |waiting| && cur == waiting[i]
      requires prev == if i == 0 then null else waiting[i - 1]
      modifies `blocked, `waiting, `readyHead, `readyTail, `ready, contexts`nextBlocked, contexts`next
      ensures Valid() && cur.nextBlocked == null
      ensures View() == old(View()).(blocked := RemoveAt(old(waiting), i), ready := [cur] + old(ready))
    {
      RemoveAtNoDup(waiting, i);
      Unlink(cur, prev, i);
      ReadyPushFront(cur);
    }

    /** The walk over the blocked list. */
    method UnblockWaiter(p: Promise)
      requires Valid()
      modifies `blocked, `waiting, `readyHead, `readyTail, `ready, contexts`nextBlocked, contexts`next
      ensures Valid() && View() == Unblock(old(View()), p)
    {
      ghost var first := FirstWaiter(waiting, Proms(), p);
      var curBlocked, prevBlocked := blocked, null;
      ghost var i, hit := 0, false;
      while curBlocked != null
        invariant Valid()
        invariant hit ==> curBlocked == null && View() == Unblock(old(View()), p)
        invariant !hit ==> View() == old(View()) && i <= first && curBlocked == At(waiting, i)
        invariant !hit ==> prevBlocked == if i == 0 then null else waiting[i - 1]
        decreases !hit, |waiting| - i
      {
        assert WaitsOn(Proms(), curBlocked, p) <==> curBlocked.prom == p;
        if curBlocked.prom == p {
          MoveToReady(curBlocked, prevBlocked, i);
          hit := true;
          curBlocked := curBlocked.nextBlocked;
        } else {
          prevBlocked := curBlocked;
          curBlocked := curBlocked.nextBlocked;
          i := i + 1;
        }
      }
    }

    method RemoveBlockingPromise(c: Context)
      requires c in contexts
      modifies contexts`prom
      ensures Proms() == old(Proms()) - {c} && c.prom == null
    {
      c.prom := null;
    }

    method ForgetSleeper(i: nat)
      requires Valid() && i < |sleepPqueue|
      modifies `sleepPqueue, contexts`prom
      ensures Valid()
      ensures var c := old(sleepPqueue)[i];
              View() == old(View()).(sleeping := old(View()).sleeping - {c}, prom := old(View()).prom - {c})
    {
      RemoveBlockingPromise(sleepPqueue[i]);
      DropSleeper(i);
    }

    /** The search of the sleep heap, in the order of its vector. */
    method RemoveSleeper(p: Promise) returns (ghost d: Option<Context>)
      requires Valid()
      modifies `sleepPqueue, contexts`prom
      ensures Valid() && TimedChoice(old(View()), p, d)
      ensures View() == if d.None? then old(View()) else
                old(View()).(sleeping := old(View()).sleeping - {d.value}, prom := old(View()).prom - {d.value})
    {
      var i: nat := 0;
      while i < |sleepPqueue|
        invariant i <= |sleepPqueue| && View() == old(View()) && Valid()
        invariant forall j | 0 <= j < i :: sleepPqueue[j].prom != p
      {
        if sleepPqueue[i].prom == p {
          d := Some(sleepPqueue[i]);
          ForgetSleeper(i);
          return;
        }
        i := i + 1;
      }
      d := None;
    }

    /** thread::notify on the thread's own contexts. */
    method Notify(p: Promise) returns (ghost d: Option<Context>)
      requires Valid()
      modifies this, contexts
      ensures Notified(p, d, old(View()))
      ensures old(Steady(View())) ==> Steady(View())
    {
      ghost var before := View();
      UnblockWaiter(p);
      d := RemoveSleeper(p);
      if Steady(before) {
        NotifySettled(before, Running(before, true), p, d);
      }
    }

    // ----- check_for_timeouts -----

    /** A context that came off the sleep heap: fail its promise, or make it ready. */
    method Wake(c: Context) returns (ghost d: Option<Context>)
      requires Valid() && c in contexts && c !in ready && (c.prom == null ==> c !in waiting)
      requires c.prom != null ==> c.prom.blockedThread == this
      modifies this, contexts, c.prom
      ensures if old(c.prom) == null then Valid() && View() == old(View()).(ready := old(ready) + [c])
              else Notified(old(c.prom), d, old(View()))
      ensures old(c.prom) != null ==>
                && old(c.prom).State() == old(c.prom.State()).Complete(Completion.SetException(FutureWaitTimeout))
                && old(c.prom).blockedThread == old(c.prom.blockedThread)
    {
      d := None;
      if c.prom != null {
        var _, d' := c.prom.SetException(FutureWaitTimeout, this);
        d := d';
      } else {
        ReadyPushBack(c);
      }
    }

    ghost function States(awaited: set<Promise>): Ledger
      reads awaited`error, awaited`value
    {
      map q | q in awaited :: q.State()
    }

    ghost predicate Stand(awaited: set<Promise>, states: Ledger)
      reads awaited`error, awaited`value
    {
      forall q | q in awaited :: q in states && q.State() == states[q]
    }

    /** The promises of `order` have been given the timeout error; the others stand as in `states`. */
    ghost predicate Failed(awaited: set<Promise>, states: Ledger,
                           prom: map<Context, Promise>, order: seq<Context>)
      reads awaited`error, awaited`value
    {
      forall q | q in awaited ::
        q in states && q.State() == if Fails(prom, order, q) then states[q].(error := Some(FutureWaitTimeout)) else states[q]
    }

    lemma FailedOneMore(awaited: set<Promise>, states: Ledger, mid: Ledger,
                        prom: map<Context, Promise>, order: seq<Context>, c: Context)
      requires forall q | q in awaited :: q in states && q in mid
      requires forall q | q in awaited ::
                 mid[q] == if Fails(prom, order, q) then states[q].(error := Some(FutureWaitTimeout)) else states[q]
      requires Failed(awaited, mid, prom, [c])
      ensures Failed(awaited, states, prom, order + [c])
    {
      forall q | q in awaited
        ensures Fails(prom, order + [c], q) <==> Fails(prom, order, q) || Fails(prom, [c], q)
      {
        FailsOneMore(prom, order, c, q);
        FailsOneMore(prom, [], c, q);
        assert [] + [c] == [c];
      }
    }

    /** One pass of the loop. */
    method ExpireFront(ghost running: set<Context>, ghost awaited: set<Promise>) returns (ghost c: Context)
      requires Valid() && Registered(awaited) && sleepPqueue != []
      requires Settled(View(), running) && OneWaiter(View())
      modifies this, contexts, awaited
      ensures Valid() && c == old(sleepPqueue[0]) && View() == ExpireOne(old(View()), c)
      ensures forall q | q in awaited :: q.blockedThread == this
      ensures Failed(awaited, old(States(awaited)), old(Proms()), [c])
    {
      ghost var before := View();
      var front := PopSleeper();
      assert front in before.sleeping;
      c := front;
      ghost var d := Wake(front);
      assert forall q :: Fails(before.prom, [c], q) <==> WaitsOn(before.prom, c, q) by {
        assert c in [c];
      }
    }

    /** The front of the sleep heap is the next to expire after `order`. */
    lemma FrontIsNext(start: Sched<Context, Promise>, running: set<Context>, order: seq<Context>, now: Time)
      requires Valid() && sleepPqueue != [] && sleepPqueue[0].resumeTime <= now
      requires Settled(start, running) && OneWaiter(start)
      requires DueSoFar(start, now, order) && View() == ExpireAll(start, order)
      ensures Settled(View(), running) && OneWaiter(View()) && Proms() == start.prom
      ensures DueSoFar(start, now, order + [sleepPqueue[0]])
      ensures ExpireAll(start, order + [sleepPqueue[0]]) == ExpireOne(View(), sleepPqueue[0])
    {
      ExpireAllResult(start, running, order);
      var c := sleepPqueue[0];
      assert c in View().sleeping && start.resume[c] == Resumes()[c];
      forall d | d in start.sleeping && d !in order ensures start.resume[c] <= start.resume[d] {
        assert d in View().sleeping && start.resume[d] == Resumes()[d];
        var i :| 0 <= i < |sleepPqueue| && sleepPqueue[i] == d;
        FrontIsEarliest(sleepPqueue, i);
      }
      DueOneMore(start, now, order, c);
    }

    /** Nothing on the sleep heap is due any more. */
    lemma NothingLeft(start: Sched<Context, Promise>, running: set<Context>, order: seq<Context>, now: Time)
      requires Valid() && (sleepPqueue != [] ==> now < sleepPqueue[0].resumeTime)
      requires Settled(start, running) && OneWaiter(start)
      requires DueSoFar(start, now, order) && View() == ExpireAll(start, order)
      ensures DueInOrder(start, now, order)
    {
      ExpireAllResult(start, running, order);
      forall d | d in start.sleeping && d !in order ensures start.resume[d] > now {
        assert d in View().sleeping && start.resume[d] == Resumes()[d];
        var i :| 0 <= i < |sleepPqueue| && sleepPqueue[i] == d;
        FrontIsEarliest(sleepPqueue, i);
      }
      DueAll(start, now, order);
    }

    method ExpireNext(ghost start: Sched<Context, Promise>, ghost running: set<Context>, ghost order: seq<Context>,
                      now: Time, ghost awaited: set<Promise>, ghost states: Ledger)
      returns (ghost longer: seq<Context>)
      requires Valid() && Registered(awaited) && sleepPqueue != [] && sleepPqueue[0].resumeTime <= now
      requires Settled(start, running) && OneWaiter(start) && Failed(awaited, states, start.prom, order)
      requires DueSoFar(start, now, order) && View() == ExpireAll(start, order)
      modifies this, contexts, awaited
      ensures Valid() && Registered(awaited) && contexts == old(contexts)
      ensures SetOf(sleepPqueue) < old(SetOf(sleepPqueue))
      ensures DueSoFar(start, now, longer) && View() == ExpireAll(start, longer)
      ensures Failed(awaited, states, start.prom, longer)
    {
      FrontIsNext(start, running, order, now);
      ghost var before := View();
      RegisteredByView(awaited);
      ghost var c := ExpireFront(running, awaited);
      ExpireOneSettled(before, running, c);
      RegisteredByView(awaited);
      longer := order + [c];
      FailedOneMore(awaited, states, old(States(awaited)), start.prom, order, c);
    }

    lemma NothingDue(running: set<Context>, now: Time)
      requires Valid() && (sleepPqueue != [] ==> now < sleepPqueue[0].resumeTime)
      requires Settled(View(), running) && OneWaiter(View())
      ensures DueInOrder(View(), now, []) && View() == ExpireAll(View(), [])
    {
      NothingLeft(View(), running, [], now);
    }

    /** The loop that moves all expired sleepers. */
    method ExpireDue(now: Time, ghost running: set<Context>, ghost awaited: set<Promise>,
                     ghost states: Ledger)
      returns (ghost order: seq<Context>)
      requires Valid() && Registered(awaited) && Settled(View(), running) && OneWaiter(View())
      requires Failed(awaited, states, Proms(), [])
      modifies this, contexts, awaited
      ensures Valid() && Registered(awaited) && contexts == old(contexts)
      ensures DueInOrder(old(View()), now, order) && View() == ExpireAll(old(View()), order)
      ensures Failed(awaited, states, old(Proms()), order)
    {
      ghost var start := View();
      order := [];
      while sleepPqueue != [] && now >= sleepPqueue[0].resumeTime
        invariant Valid() && Registered(awaited) && contexts == old(contexts)
        invariant DueSoFar(start, now, order) && View() == ExpireAll(start, order)
        invariant Failed(awaited, states, start.prom, order)
        decreases SetOf(sleepPqueue)
      {
        order := ExpireNext(start, running, order, now, awaited, states);
      }
      NothingLeft(start, running, order, now);
    }

    /** The fronts of the two heaps: the earliest sleeper and the latest scheduled task. */
    method NextTime() returns (next: Time, ghost sleeper: Time, ghost task: Time)
      requires Valid()
      ensures EarliestSleeper(View(), sleeper) && (tasks.Heaps() ==> LatestTask(tasks.scheduled, task))
      ensures next == if sleeper < task then sleeper else task
      ensures next == TIME_MAX || next == task || (sleepPqueue != [] && next == sleepPqueue[0].resumeTime)
      ensures sleepPqueue != [] ==> next <= sleepPqueue[0].resumeTime
    {
      next, sleeper, task := TIME_MAX, TIME_MAX, TIME_MAX;
      if |tasks.taskSchQueue| > 0 {
        if tasks.Heaps() {
          tasks.FrontIsLatest();
        }
        task := tasks.taskSchQueue[0].when;
      }
      if |tasks.taskSchQueue| > 0 && next > tasks.taskSchQueue[0].when {
        next := tasks.taskSchQueue[0].when;
      }
      if |sleepPqueue| > 0 {
        SleepersAfterFront();
        sleeper := sleepPqueue[0].resumeTime;
      }
      if |sleepPqueue| > 0 && next > sleepPqueue[0].resumeTime {
        next := sleepPqueue[0].resumeTime;
      }
    }

    lemma SleepersAfterFront()
      requires Valid() && sleepPqueue != []
      ensures EarliestSleeper(View(), sleepPqueue[0].resumeTime)
    {
      forall c | c in View().sleeping ensures sleepPqueue[0].resumeTime <= View().resume[c] {
        var i :| 0 <= i < |sleepPqueue| && sleepPqueue[i] == c;
        FrontIsEarliest(sleepPqueue, i);
      }
      assert sleepPqueue[0] in View().sleeping && WakesAt(View(), sleepPqueue[0], sleepPqueue[0].resumeTime);
    }

    /** What check_for_timeouts returns, and whether it goes on to expire anything. */
    method NextWake(now: Time) returns (r: Time, due: bool, ghost sleeper: Time, ghost task: Time)
      requires Valid()
      ensures EarliestSleeper(View(), sleeper) && (tasks.Heaps() ==> LatestTask(tasks.scheduled, task))
      ensures var next := if sleeper < task then sleeper else task;
              r == if sleepPqueue == [] && tasks.taskSchQueue == [] then TIME_MAX
                   else if now < next then next else TIME_MIN
      ensures !due ==> sleepPqueue != [] ==> now < sleepPqueue[0].resumeTime
    {
      var next;
      next, sleeper, task := NextTime();
      if |sleepPqueue| == 0 && |tasks.taskSchQueue| == 0 {
        return TIME_MAX, false, sleeper, task;
      }
      if now < next {
        return next, false, sleeper, task;
      }
      return TIME_MIN, true, sleeper, task;
    }

    method CheckForTimeouts(now: Time, ghost running: set<Context>, ghost awaited: set<Promise>, ghost states: Ledger)
      returns (r: Time, ghost order: seq<Context>, ghost sleeper: Time, ghost task: Time)
      requires Valid() && Registered(awaited) && Stand(awaited, states)
      requires Settled(View(), running) && OneWaiter(View())
      modifies this, contexts, awaited
      ensures Valid() && Registered(awaited) && contexts == old(contexts)
      ensures DueInOrder(old(View()), now, order) && View() == ExpireAll(old(View()), order)
      ensures Failed(awaited, states, old(Proms()), order)
      ensures EarliestSleeper(old(View()), sleeper) && (tasks.Heaps() ==> LatestTask(tasks.scheduled, task))
      ensures var next := if sleeper < task then sleeper else task;
              r == if old(sleepPqueue) == [] && tasks.taskSchQueue == [] then TIME_MAX
                   else if now < next then next else TIME_MIN
    {
      var due;
      r, due, sleeper, task := NextWake(now);
      order := [];
      if !due {
        assert Failed(awaited, states, Proms(), []);
        NothingDue(running, now);
      } else {
        order := ExpireDue(now, running, awaited, states);
      }
    }

    // ----- start_next_task -----

    /** A thread that runs outside any context so far gets one. */
    method EnsureCurrent() returns (ghost c: Context)
      requires Valid()
      modifies `current, `contexts
      ensures Valid() && c == current && View() == Boot(old(View()), c)
      ensures old(current) == null ==> fresh(c)
      ensures forall c | c in contexts && c !in old(contexts) :: fresh(c)
    {
      if current == null {
        var boot := new Context();
        current := boot;
        contexts := contexts + {boot};
      }
      c := current;
    }

    /** A new context takes over, in no list. */
    method EnterNew()
      requires Valid()
      modifies `current, `contexts
      ensures Valid() && fresh(current) && current != null && contexts == old(contexts) + {current}
      ensures Proms() == old(Proms()) && Resumes() == old(Resumes())[current := 0]
    {
      var next := new Context();
      contexts := contexts + {next};
      current := next;
    }

    method JumpToNew(reschedule: bool)
      requires Valid() && current != null && ready == []
      requires reschedule ==> current !in waiting
      modifies `current, `contexts, `readyHead, `readyTail, `ready, contexts`next
      ensures Valid() && fresh(current) && contexts == old(contexts) + {current}
      ensures ready == if reschedule then [old(current)] else []
      ensures Proms() == old(Proms()) && Resumes() == old(Resumes())[current := 0]
    {
      if reschedule {
        ReadyPushBack(current);
      }
      EnterNew();
    }

    /** Go to the first ready context, or to a new one that will process tasks. */
    method JumpToNext(reschedule: bool) returns (ghost made: Context)
      requires Valid() && current != null
      requires reschedule ==> current !in ready && current !in waiting
      modifies `current, `contexts, `readyHead, `readyTail, `ready, contexts`next
      ensures Valid() && View() == Switch(old(View()), reschedule, made)
      ensures old(ready) == [] ==> fresh(made)
      ensures forall c | c in contexts && c !in old(contexts) :: fresh(c)
    {
      if readyHead != null {
        assert forall c | c in ready[1..] :: c in ready;
        var next := ReadyPopFront();
        if reschedule {
          ReadyPushBack(current);
        }
        current := next;
      } else {
        JumpToNew(reschedule);
      }
      made := current;
    }

    /** The first half of start_next_task. */
    method Expire(reschedule: bool, now: Time, ghost awaited: set<Promise>, ghost states: Ledger) returns (ghost order: seq<Context>)
      requires Valid() && Registered(awaited) && Stand(awaited, states)
      requires Settled(View(), Running(View(), reschedule)) && OneWaiter(View())
      modifies this, contexts, awaited
      ensures Valid() && Registered(awaited) && contexts == old(contexts) && current == old(current)
      ensures DueInOrder(old(View()), now, order) && View() == ExpireAll(old(View()), order)
      ensures reschedule && current != null ==> current !in ready && current !in waiting
      ensures Proms() == old(Proms()) && Failed(awaited, states, Proms(), order)
    {
      ghost var start := View();
      ghost var sleeper, task;
      var r;
      r, order, sleeper, task := CheckForTimeouts(now, Running(start, reschedule), awaited, states);
      ExpireAllDue(start, Running(start, reschedule), now, order);
      assert current != null ==> Places(View(), Running(start, reschedule), current) == 1;
    }

    /** The second half. */
    method Jump(reschedule: bool) returns (ghost boot: Context, ghost made: Context)
      requires Valid() && (current == null ==> reschedule)
      requires reschedule && current != null ==> current !in ready && current !in waiting
      modifies `current, `contexts, `readyHead, `readyTail, `ready, contexts`next
      ensures Valid() && View() == Switch(Boot(old(View()), boot), reschedule, made) && Proms() == old(Proms())
      ensures if old(current) == null then boot !in old(contexts) else boot == old(current)
      ensures old(ready) == [] ==> made !in old(contexts) && (old(current) == null ==> made != boot)
      ensures forall c | c in contexts && c !in old(contexts) :: fresh(c)
    {
      boot := EnsureCurrent();
      made := JumpToNext(reschedule);
    }

    /** A switch leaves the promises and the blocked list alone. */
    method JumpOnly(reschedule: bool, ghost awaited: set<Promise>, ghost states: Ledger, ghost order: seq<Context>)
      returns (ghost boot: Context, ghost made: Context)
      requires Valid() && (current == null ==> reschedule)
      requires reschedule && current != null ==> current !in ready && current !in waiting
      requires Registered(awaited) && Failed(awaited, states, Proms(), order)
      modifies `current, `contexts, `readyHead, `readyTail, `ready, contexts`next
      ensures Valid() && View() == Switch(Boot(old(View()), boot), reschedule, made)
      ensures if old(current) == null then boot !in old(contexts) else boot == old(current)
      ensures old(ready) == [] ==> made !in old(contexts) && (old(current) == null ==> made != boot)
      ensures forall c | c in contexts && c !in old(contexts) :: fresh(c)
      ensures Registered(awaited) && Failed(awaited, states, Proms(), order)
    {
      boot, made := Jump(reschedule);
      assert forall c | c in waiting :: c.prom != null && c.prom in awaited;
    }

    /** The scheduler, which stood at `before`, has looked for expired sleepers at `now` and switched. */
    ghost predicate Switched(before: Sched<Context, Promise>, now: Time, reschedule: bool,
                             order: seq<Context>, boot: Context, made: Context)
      reads this, contexts
    {
      && (before.current.Some? || reschedule)
      && DueInOrder(before, now, order) && NewNames(before, order, boot, made)
      && View() == StartNext(before, order, boot, reschedule, made)
    }

    method StartNextTask(reschedule: bool, now: Time, ghost awaited: set<Promise>, ghost states: Ledger)
      returns (ghost order: seq<Context>, ghost boot: Context, ghost made: Context)
      requires Valid() && Registered(awaited) && Stand(awaited, states) && (current == null ==> reschedule)
      requires Settled(View(), Running(View(), reschedule)) && OneWaiter(View())
      modifies this, contexts, awaited
      ensures Valid() && Registered(awaited)
      ensures Switched(old(View()), now, reschedule, order, boot, made)
      ensures Consistent(View()) && OneWaiter(View())
      ensures old(current) != null ==> boot == old(current)
      ensures Failed(awaited, states, Proms(), order)
      ensures forall c | c in contexts && c !in old(contexts) :: fresh(c)
    {
      ghost var before := View();
      order := Expire(reschedule, now, awaited, states);
      boot, made := JumpOnly(reschedule, awaited, states, order);
      StartNextConsistent(before, now, order, boot, reschedule, made);
    }

    // ----- wait, sleep, yield -----

    /** Put the running context in the blocked list and, with a deadline, on the sleep heap. */
    method Suspend(p: Promise, timeout: Time)
      requires Valid() && current != null && current !in waiting && current !in sleepPqueue && current !in ready
      modifies `blocked, `waiting, `sleepPqueue, contexts`prom, contexts`resumeTime, contexts`nextBlocked
      ensures Valid() && View() == BeginWait(old(View()), p, timeout)
    {
      current.prom := p;
      assert Proms() == old(Proms())[current := p];
      SetDeadlineIf(timeout != TIME_MAX, timeout);
      assert Valid() && waiting == old(waiting);
      AddToBlocked(current);
    }

    /** A wait with a deadline goes on the sleep heap too. */
    method SetDeadlineIf(timed: bool, t: Time)
      requires Valid() && current != null && current !in sleepPqueue
      modifies `sleepPqueue, contexts`resumeTime
      ensures Valid()
      ensures Resumes() == if timed then old(Resumes())[current := t] else old(Resumes())
      ensures SetOf(sleepPqueue) == old(SetOf(sleepPqueue)) + if timed then {current} else {}
    {
      if timed {
        current.resumeTime := t;
        assert forall i | 0 <= i < |sleepPqueue| :: sleepPqueue[i] != current;
        PushSleeper(current);
      }
    }

    /** What the running context does on its way to sleep. */
    method SuspendUntil(t: Time)
      requires Valid() && current != null && current !in waiting && current !in sleepPqueue && current !in ready
      modifies `sleepPqueue, contexts`prom, contexts`resumeTime
      ensures Valid() && View() == BeginSleep(old(View()), t)
    {
      current.resumeTime := t;
      assert forall i | 0 <= i < |sleepPqueue| :: sleepPqueue[i] != current;
      PushSleeper(current);
      RemoveBlockingPromise(current);
    }

    /** The running context, made if there is none, is in none of the lists. */
    method Settle() returns (ghost boot: Context)
      requires Valid() && Steady(View())
      modifies `current, `contexts
      ensures Valid() && boot == current && View() == Boot(old(View()), boot)
      ensures Consistent(View()) && OneWaiter(View())
      ensures current !in ready && current !in waiting && current !in sleepPqueue
      ensures old(current) == null ==> boot !in old(contexts)
      ensures forall c | c in contexts && c !in old(contexts) :: fresh(c)
    {
      ghost var before := View();
      boot := EnsureCurrent();
      BootRunning(before, boot, true);
      RunningIsNowhere(View());
    }

    /** thread::wait up to the switch. */
    method Wait(p: Promise, timeout: Time, now1: Time, now2: Time, ghost awaited: set<Promise>, ghost states: Ledger)
      returns (start: WaitStart, ghost jump: Option<(seq<Context>, Context, Context)>)
      requires Valid() && Registered(awaited) && Stand(awaited, states) && Steady(View())
      requires p.blockedThread == this && p in awaited && forall c | c in waiting :: c.prom != p
      modifies this, contexts, awaited
      ensures Valid() && Registered(awaited)
      ensures start == if old(p.State()).Ready() then AlreadyReady else if timeout < now1 then PastDeadline else Suspended
      ensures Steady(View()) && (start == Suspended ==> Consistent(View()))
      ensures start != Suspended ==> View() == old(View()) && Stand(awaited, states)
      ensures start == Suspended ==> (
                && jump.Some?
                && var (order, boot, made) := jump.value;
                   var s := BeginWait(Boot(old(View()), boot), p, timeout);
                   Switched(s, now2, false, order, boot, made) && Failed(awaited, states, Proms(), order))
    {
      jump := None;
      if p.error.Some? || p.value.Some? {
        start := AlreadyReady;
      } else if timeout < now1 {
        start := PastDeadline;
      } else {
        start := Suspended;
        ghost var order, boot, made := WaitAndSwitch(p, timeout, now2, awaited, states);
        jump := Some((order, boot, made));
      }
    }

    method WaitAndSwitch(p: Promise, timeout: Time, now: Time, ghost awaited: set<Promise>, ghost states: Ledger)
      returns (ghost order: seq<Context>, ghost boot: Context, ghost made: Context)
      requires Valid() && Registered(awaited) && Stand(awaited, states) && Steady(View())
      requires p.blockedThread == this && p in awaited && forall c | c in waiting :: c.prom != p
      modifies this, contexts, awaited
      ensures Valid() && Registered(awaited)
      ensures Switched(BeginWait(Boot(old(View()), boot), p, timeout), now, false, order, boot, made)
      ensures Consistent(View()) && OneWaiter(View()) && Steady(View())
      ensures Failed(awaited, states, Proms(), order)
    {
      boot := Park(p, timeout, awaited, states);
      order, boot, made := StartNextTask(false, now, awaited, states);
    }

    method Park(p: Promise, timeout: Time, ghost awaited: set<Promise>, ghost states: Ledger) returns (ghost boot: Context)
      requires Valid() && Registered(awaited) && Stand(awaited, states) && Steady(View())
      requires p.blockedThread == this && p in awaited && forall c | c in waiting :: c.prom != p
      modifies `current, `contexts, `blocked, `waiting, `sleepPqueue, contexts`prom, contexts`resumeTime, contexts`nextBlocked
      ensures Valid() && boot == current && View() == BeginWait(Boot(old(View()), boot), p, timeout)
      ensures Registered(awaited) && Settled(View(), {}) && OneWaiter(View())
      ensures Stand(awaited, states)
      ensures forall c | c in contexts && c !in old(contexts) :: fresh(c)
    {
      boot := Settle();
      SuspendOn(p, timeout, awaited);
    }

    method SuspendOn(p: Promise, timeout: Time, ghost awaited: set<Promise>)
      requires Valid() && Registered(awaited) && Consistent(View()) && OneWaiter(View())
      requires current !in ready && current !in waiting && current !in sleepPqueue
      requires p in awaited && forall c | c in waiting :: c.prom != p
      modifies `blocked, `waiting, `sleepPqueue, contexts`prom, contexts`resumeTime, contexts`nextBlocked
      ensures Valid() && View() == BeginWait(old(View()), p, timeout)
      ensures Registered(awaited) && Settled(View(), {}) && OneWaiter(View())
    {
      ghost var s := View();
      RegisteredByView(awaited);
      Suspend(p, timeout);
      assert forall c | c in s.blocked :: !WaitsOn(s.prom, c, p);
      BeginWaitSettled(s, p, timeout);
      BeginWaitAwaited(s, p, timeout, awaited);
      RegisteredByView(awaited);
    }

    /** thread::sleep_until up to the switch. */
    method SleepUntil(t: Time, now: Time, ghost awaited: set<Promise>, ghost states: Ledger)
      returns (ghost order: seq<Context>, ghost boot: Context, ghost made: Context)
      requires Valid() && Registered(awaited) && Stand(awaited, states) && Steady(View())
      modifies this, contexts, awaited
      ensures Valid() && Registered(awaited) && Failed(awaited, states, Proms(), order)
      ensures Switched(BeginSleep(Boot(old(View()), boot), t), now, false, order, boot, made)
      ensures Consistent(View()) && OneWaiter(View()) && Steady(View())
    {
      boot := ParkUntil(t, awaited, states);
      order, boot, made := StartNextTask(false, now, awaited, states);
    }

    method ParkUntil(t: Time, ghost awaited: set<Promise>, ghost states: Ledger) returns (ghost boot: Context)
      requires Valid() && Registered(awaited) && Stand(awaited, states) && Steady(View())
      modifies `current, `contexts, `sleepPqueue, contexts`prom, contexts`resumeTime
      ensures Valid() && boot == current && View() == BeginSleep(Boot(old(View()), boot), t)
      ensures Registered(awaited) && Settled(View(), {}) && OneWaiter(View()) && Stand(awaited, states)
      ensures forall c | c in contexts && c !in old(contexts) :: fresh(c)
    {
      boot := Settle();
      SleepOn(t, awaited);
    }

    method SleepOn(t: Time, ghost awaited: set<Promise>)
      requires Valid() && Registered(awaited) && Consistent(View()) && OneWaiter(View())
      requires current !in ready && current !in waiting && current !in sleepPqueue
      modifies `sleepPqueue, contexts`prom, contexts`resumeTime
      ensures Valid() && View() == BeginSleep(old(View()), t)
      ensures Registered(awaited) && Settled(View(), {}) && OneWaiter(View())
    {
      ghost var s := View();
      RegisteredByView(awaited);
      SuspendUntil(t);
      BeginSleepSettled(s, t);
      assert AllAwaited(View(), awaited);
      RegisteredByView(awaited);
    }

    /** thread::yield. */
    method Yield(now: Time, ghost awaited: set<Promise>, ghost states: Ledger)
      returns (ghost order: seq<Context>, ghost boot: Context, ghost made: Context)
      requires Valid() && Registered(awaited) && Stand(awaited, states) && Steady(View())
      modifies this, contexts, awaited
      ensures Valid() && Registered(awaited) && Failed(awaited, states, Proms(), order)
      ensures Switched(old(View()), now, true, order, boot, made)
      ensures Consistent(View()) && OneWaiter(View()) && Steady(View())
    {
      order, boot, made := StartNextTask(true, now, awaited, states);
    }

    /** What thread::wait does once its context runs again. */
    method FinishWait()
      requires Valid() && current != null
      modifies contexts`prom
      ensures Valid() && View() == EndWait(old(View()))
      ensures current == old(current) && current.prom == null
      ensures old(Steady(View())) ==> Steady(View())
    {
      ghost var before := View();
      RemoveBlockingPromise(current);
      if Steady(before) {
        EndSteady(before);
      }
    }

    /** What thread::sleep_until does once its context runs again. */
    method FinishSleep()
      requires Valid() && current != null && current !in sleepPqueue
      modifies contexts`resumeTime
      ensures Valid() && View() == EndSleep(old(View()))
      ensures current == old(current) && current.resumeTime == TIME_MAX
      ensures old(Steady(View())) ==> Steady(View())
    {
      ghost var before := View();
      current.resumeTime := TIME_MAX;
      if Steady(before) {
        EndSteady(before);
      }
    }
  }
}
