/**
  The task half of a thread: the inbox chain other code posts to, the heap of
  runnable tasks and the heap of tasks scheduled for later.
*/
module Tasks {
  import opened Schedule
  import opened Heaps

  class Task {
    const when: Time
    const prio: int
    const postedNum: nat
    var next: Task?

    constructor (when: Time, prio: int, postedNum: nat)
      ensures this.when == when && this.prio == prio && this.postedNum == postedNum && next == null
    {
      this.when, this.prio, this.postedNum, next := when, prio, postedNum, null;
    }
  }

  predicate TaskPriorityLess(a: Task, b: Task) {
    if a.prio < b.prio then true else if a.prio > b.prio then false else a.postedNum > b.postedNum
  }

  /** As the code has it: the latest task is the front of the scheduled heap. */
  predicate TaskWhenLess(a: Task, b: Task) {
    a.when < b.when
  }

  lemma TaskOrders(els: multiset<Task>)
    ensures OrderOn(TaskPriorityLess, els) && OrderOn(TaskWhenLess, els)
  {
  }

  function At(s: seq<Task>, i: nat): Task? {
    if i < |s| then s[i] else null
  }

  /** `head` and the next pointers spell out `chain`. */
  ghost predicate Chain(head: Task?, chain: seq<Task>)
    reads chain
  {
    && head == At(chain, 0)
    && forall i {:trigger chain[i].next} | 0 <= i < |chain| :: chain[i].next == At(chain, i + 1)
  }

  ghost function Due(chain: seq<Task>, now: Time): multiset<Task> {
    if chain == [] then multiset{} else
      var t, r := chain[|chain| - 1], Due(chain[..|chain| - 1], now);
      if t.when > now then r else r + multiset{t}
  }

  ghost function Late(chain: seq<Task>, now: Time): multiset<Task> {
    if chain == [] then multiset{} else
      var t, r := chain[|chain| - 1], Late(chain[..|chain| - 1], now);
      if t.when > now then r + multiset{t} else r
  }

  lemma SplitOneMore(chain: seq<Task>, i: nat, now: Time)
    requires i < |chain|
    ensures Due(chain[..i + 1], now)
         == if chain[i].when > now then Due(chain[..i], now) else Due(chain[..i], now) + multiset{chain[i]}
    ensures Late(chain[..i + 1], now)
         == if chain[i].when > now then Late(chain[..i], now) + multiset{chain[i]} else Late(chain[..i], now)
  {
    assert chain[..i + 1][..i] == chain[..i];
  }

  lemma AddOne(a: multiset<Task>, b: multiset<Task>, t: Task)
    ensures a + b + multiset{t} == a + (b + multiset{t})
  {
  }

  /** Sorting a chain by the clock loses nothing and misplaces nothing. */
  lemma {:induction false} ChainSplit(chain: seq<Task>, now: Time)
    ensures Due(chain, now) + Late(chain, now) == multiset(chain)
    ensures forall t | t in Due(chain, now) :: t.when <= now
    ensures forall t | t in Late(chain, now) :: t.when > now
  {
    if chain != [] {
      ChainSplit(chain[..|chain| - 1], now);
      assert chain == chain[..|chain| - 1] + [chain[|chain| - 1]];
    }
  }

  ghost predicate AllDue(sch: multiset<Task>, now: Time) {
    forall t | t in sch :: t.when <= now
  }

  /**
    What dequeue hands out.  A scheduled task comes out if and only if every
    scheduled task is due, and then it is a latest one; otherwise the best
    runnable task comes out.
  */
  ghost predicate Dispatched(sch: multiset<Task>, pq: multiset<Task>, now: Time,
                             p: Task?, sch': multiset<Task>, pq': multiset<Task>) {
    if sch != multiset{} && AllDue(sch, now) then
      && p != null && p in sch && sch' == sch - multiset{p} && pq' == pq
      && forall t | t in sch :: t.when <= p.when
    else if pq != multiset{} then
      && p != null && p in pq && pq' == pq - multiset{p} && sch' == sch
      && forall t | t in pq && t != p :: !TaskPriorityLess(p, t)
    else p == null && sch' == sch && pq' == pq
  }

  /**
    A scheduled task is meant to run as soon as possible after its time.
    While one is due, dequeue hands out a scheduled task if and only if none
    of them lies in the future.
  */
  lemma DueTaskServed(sch: multiset<Task>, pq: multiset<Task>, now: Time,
                      p: Task?, sch': multiset<Task>, pq': multiset<Task>, due: Task)
    requires Dispatched(sch, pq, now, p, sch', pq') && due in sch && due.when <= now
    ensures sch' < sch <==> AllDue(sch, now)
    ensures sch' < sch ==> AllDue(sch', now)
  {
    if AllDue(sch, now) {
      assert sch'[p] < sch[p];
    }
  }

  /** What that comes to for the scheduled heap and for the task. */
  lemma DispatchedServes(sch: multiset<Task>, pq: multiset<Task>, now: Time,
                         p: Task?, sch': multiset<Task>, pq': multiset<Task>)
    requires Dispatched(sch, pq, now, p, sch', pq') && AllDue(pq, now)
    ensures sch' < sch <==> sch != multiset{} && AllDue(sch, now)
    ensures sch' < sch ==> p != null && p in sch && sch' == sch - multiset{p} && forall t | t in sch :: t.when <= p.when
    ensures p != null ==> p.when <= now
    ensures AllDue(pq', now)
  {
    if sch != multiset{} && AllDue(sch, now) {
      assert sch'[p] < sch[p];
    }
  }

  /** A task is due, but a later one hides it: dequeue hands out nothing. */
  lemma DueTaskPassedOver(a: Task, b: Task, now: Time, p: Task?, sch': multiset<Task>, pq': multiset<Task>)
    requires a.when <= now < b.when && Dispatched(multiset{a, b}, multiset{}, now, p, sch', pq')
    ensures p == null && sch' == multiset{a, b} && pq' == multiset{}
  {
    assert b in multiset{a, b};
  }

  class TaskQueues {
    var taskInQueue: Task?
    var taskPqueue: seq<Task>
    var taskSchQueue: seq<Task>
    ghost var inbox: seq<Task>           // the chain from taskInQueue
    ghost var runnable: multiset<Task>   // the contents of taskPqueue
    ghost var scheduled: multiset<Task>  // the contents of taskSchQueue
    ghost var clock: Time                // the latest clock reading so far

    ghost predicate Heaps()
      reads `taskPqueue, `taskSchQueue, `runnable, `scheduled
    {
      && runnable == multiset(taskPqueue) && IsHeap(taskPqueue, TaskPriorityLess)
      && scheduled == multiset(taskSchQueue) && IsHeap(taskSchQueue, TaskWhenLess)
    }

    ghost predicate Valid()
      reads this, inbox
    {
      Heaps() && Chain(taskInQueue, inbox) && AllDue(runnable, clock)
    }

    constructor ()
      ensures Valid() && inbox == [] && runnable == scheduled == multiset{} && clock == TIME_MIN
    {
      taskInQueue, taskPqueue, taskSchQueue := null, [], [];
      inbox, runnable, scheduled, clock := [], multiset{}, multiset{}, TIME_MIN;
    }

    /** thread::async when the exchange succeeds: link to the old head, become the head. */
    method Post(t: Task)
      requires Valid() && t !in inbox
      modifies this`taskInQueue, this`inbox, t`next
      ensures Valid() && inbox == [t] + old(inbox)
    {
      t.next := taskInQueue;
      taskInQueue := t;
      inbox := [t] + inbox;
    }

    method PushScheduled(t: Task)
      requires Heaps()
      modifies this`taskSchQueue, this`scheduled
      ensures Heaps() && scheduled == old(scheduled) + multiset{t}
    {
      taskSchQueue := taskSchQueue + [t];
      assert HeapFrom(taskSchQueue, TaskWhenLess, |taskSchQueue| - 1, 0);
      TaskOrders(multiset(taskSchQueue));
      taskSchQueue := PushHeap(taskSchQueue, TaskWhenLess);
      scheduled := scheduled + multiset{t};
    }

    method PushRunnable(t: Task)
      requires Heaps()
      modifies this`taskPqueue, this`runnable
      ensures Heaps() && runnable == old(runnable) + multiset{t}
    {
      taskPqueue := taskPqueue + [t];
      assert HeapFrom(taskPqueue, TaskPriorityLess, |taskPqueue| - 1, 0);
      TaskOrders(multiset(taskPqueue));
      taskPqueue := PushHeap(taskPqueue, TaskPriorityLess);
      runnable := runnable + multiset{t};
    }

    /** One pass of the loop in enqueue. */
    method SortTask(t: Task, now: Time)
      requires Heaps()
      modifies this`taskPqueue, this`taskSchQueue, this`runnable, this`scheduled
      ensures Heaps()
      ensures runnable == if t.when > now then old(runnable) else old(runnable) + multiset{t}
      ensures scheduled == if t.when > now then old(scheduled) + multiset{t} else old(scheduled)
    {
      if t.when > now {
        PushScheduled(t);
      } else {
        PushRunnable(t);
      }
    }

    /** How far enqueue has come, from heaps that held r0 and s0. */
    ghost predicate SortedUpTo(chain: seq<Task>, i: nat, now: Time, r0: multiset<Task>, s0: multiset<Task>)
      requires i <= |chain|
      reads this, chain
    {
      Heaps() && runnable == r0 + Due(chain[..i], now) && scheduled == s0 + Late(chain[..i], now)
    }

    method SortNext(ghost chain: seq<Task>, ghost i: nat, t: Task, now: Time, ghost r0: multiset<Task>, ghost s0: multiset<Task>)
      requires i < |chain| && t == chain[i] && SortedUpTo(chain, i, now, r0, s0)
      modifies this`taskPqueue, this`taskSchQueue, this`runnable, this`scheduled
      ensures SortedUpTo(chain, i + 1, now, r0, s0)
    {
      SplitOneMore(chain, i, now);
      AddOne(s0, Late(chain[..i], now), t);
      AddOne(r0, Due(chain[..i], now), t);
      SortTask(t, now);
    }

    /** Walk a chain, sorting its tasks into the two heaps by whether they are due. */
    method Enqueue(t: Task?, ghost chain: seq<Task>, now: Time)
      requires Heaps() && Chain(t, chain)
      modifies this`taskPqueue, this`taskSchQueue, this`runnable, this`scheduled
      ensures Heaps()
      ensures runnable == old(runnable) + Due(chain, now) && scheduled == old(scheduled) + Late(chain, now)
    {
      var cur := t;
      ghost var i := 0;
      assert Due(chain[..i], now) == Late(chain[..i], now) == multiset{};
      while cur != null
        invariant i <= |chain| && cur == At(chain, i) && SortedUpTo(chain, i, now, old(runnable), old(scheduled))
        decreases |chain| - i
      {
        SortNext(chain, i, cur, now, old(runnable), old(scheduled));
        cur, i := cur.next, i + 1;
      }
      assert chain[..i] == chain;
    }

    method PopScheduled() returns (p: Task)
      requires Heaps() && |taskSchQueue| > 0
      modifies this`taskSchQueue, this`scheduled
      ensures Heaps() && p == old(taskSchQueue[0]) && scheduled == old(scheduled) - multiset{p}
    {
      p := taskSchQueue[0];
      TaskOrders(multiset(taskSchQueue));
      var w := PopHeap(taskSchQueue, TaskWhenLess);
      assert w == w[..|w| - 1] + [p];
      taskSchQueue := w[..|w| - 1];
      scheduled := scheduled - multiset{p};
    }

    method PopRunnable() returns (p: Task)
      requires Heaps() && |taskPqueue| > 0
      modifies this`taskPqueue, this`runnable
      ensures Heaps() && p == old(taskPqueue[0]) && runnable == old(runnable) - multiset{p}
    {
      p := taskPqueue[0];
      TaskOrders(multiset(taskPqueue));
      var w := PopHeap(taskPqueue, TaskPriorityLess);
      assert w == w[..|w| - 1] + [p];
      taskPqueue := w[..|w| - 1];
      runnable := runnable - multiset{p};
    }

    lemma FrontIsLatest()
      requires Heaps() && |taskSchQueue| > 0
      ensures taskSchQueue[0] in scheduled
      ensures forall t | t in scheduled :: t.when <= taskSchQueue[0].when
    {
      forall t | t in scheduled ensures t.when <= taskSchQueue[0].when {
        var i :| 0 <= i < |taskSchQueue| && taskSchQueue[i] == t;
        FrontIsGreatest(taskSchQueue, TaskWhenLess, i);
      }
    }

    lemma FrontIsBest()
      requires Heaps() && |taskPqueue| > 0
      ensures taskPqueue[0] in runnable
      ensures forall t | t in runnable :: !TaskPriorityLess(taskPqueue[0], t)
    {
      forall t | t in runnable ensures !TaskPriorityLess(taskPqueue[0], t) {
        var i :| 0 <= i < |taskPqueue| && taskPqueue[i] == t;
        FrontIsGreatest(taskPqueue, TaskPriorityLess, i);
      }
    }

    /** Take the whole inbox in one exchange and sort it into the heaps. */
    method TakeInbox(now: Time)
      requires Valid() && clock <= now
      modifies this
      ensures Valid() && inbox == [] && clock == now
      ensures scheduled == old(scheduled) + Late(old(inbox), now) && runnable == old(runnable) + Due(old(inbox), now)
    {
      var pending := taskInQueue;
      ghost var chain := inbox;
      taskInQueue, inbox, clock := null, [], now;
      assert AllDue(runnable + Due(chain, now), now) by {
        ChainSplit(chain, now);
      }
      EnqueuePending(pending, chain, now);
    }

    method EnqueuePending(t: Task?, ghost chain: seq<Task>, now: Time)
      requires Heaps() && Chain(t, chain)
      modifies this`taskPqueue, this`taskSchQueue, this`runnable, this`scheduled
      ensures Heaps()
      ensures runnable == old(runnable) + Due(chain, now) && scheduled == old(scheduled) + Late(chain, now)
    {
      if t != null {
        Enqueue(t, chain, now);
      }
    }

    /** Empty the inbox and hand out one task; the clock is read twice. */
    method Dequeue(now1: Time, now2: Time) returns (p: Task?)
      requires Valid() && clock <= now1 <= now2
      modifies this
      ensures Valid() && inbox == [] && clock == now2
      ensures Dispatched(old(scheduled) + Late(old(inbox), now1), old(runnable) + Due(old(inbox), now1),
                now2, p, scheduled, runnable)
      ensures var sch := old(scheduled) + Late(old(inbox), now1);
              scheduled < sch <==> sch != multiset{} && AllDue(sch, now2)
      ensures var sch := old(scheduled) + Late(old(inbox), now1);
              scheduled < sch ==> p != null && p in sch && scheduled == sch - multiset{p} && forall t | t in sch :: t.when <= p.when
      ensures p != null ==> p.when <= now2
    {
      TakeInbox(now1);
      clock := now2;
      ghost var sch, pq := scheduled, runnable;
      p := Select(now2);
      DispatchedServes(sch, pq, now2, p, scheduled, runnable);
    }

    /** The choice dequeue makes once the inbox is empty. */
    method Select(now: Time) returns (p: Task?)
      requires Heaps()
      modifies this`taskPqueue, this`taskSchQueue, this`runnable, this`scheduled
      ensures Heaps() && Dispatched(old(scheduled), old(runnable), now, p, scheduled, runnable)
    {
      p := null;
      if |taskSchQueue| > 0 {
        FrontIsLatest();
        if taskSchQueue[0].when <= now {
          p := PopScheduled();
          return;
        }
      }
      if |taskPqueue| > 0 {
        FrontIsBest();
        p := PopRunnable();
      }
    }
  }
}
