/**
  Dispatch order.  Tasks reach a thread in batches, each batch last-posted
  first, and go through a heap.  What comes out is what a queue kept sorted by
  priority, then by order of posting, would give.
*/
module Dispatch {
  import opened Wrappers
  import opened Heaps
  import S = Schedule
  import T = Tasks

  datatype Op<T> = Post(batch: seq<T>) | Take(out: Option<T>)

  /** Different elements never tie. */
  ghost predicate TotalOn<T>(less: (T, T) -> bool, els: multiset<T>) {
    && OrderOn(less, els)
    && forall a, b | a in els && b in els && a != b :: less(a, b) || less(b, a)
  }

  ghost predicate Within<T>(s: seq<T>, els: multiset<T>) {
    forall x | x in s :: x in els
  }

  // ----- The sorted queue, best element first -----

  function Insert<T>(q: seq<T>, less: (T, T) -> bool, x: T): (r: seq<T>)
    ensures forall y | y in r :: y == x || y in q
  {
    if q == [] || less(q[0], x) then [x] + q else [q[0]] + Insert(q[1..], less, x)
  }

  function InsertAll<T>(q: seq<T>, less: (T, T) -> bool, batch: seq<T>): (r: seq<T>)
    ensures forall y | y in r :: y in q || y in batch
    decreases |batch|
  {
    if batch == [] then q else InsertAll(Insert(q, less, batch[0]), less, batch[1..])
  }

  ghost predicate Sorted<T>(q: seq<T>, less: (T, T) -> bool) {
    forall i, j | 0 <= i < j < |q| :: !less(q[i], q[j])
  }

  /** What the sorted queue hands out over a series of operations. */
  function SortedRun<T>(q: seq<T>, less: (T, T) -> bool, ops: seq<Op<T>>): seq<Option<T>>
    decreases |ops|
  {
    if ops == [] then []
    else match ops[0]
      case Post(batch) => SortedRun(InsertAll(q, less, batch), less, ops[1..])
      case Take(_) =>
        if q == [] then [None] + SortedRun(q, less, ops[1..])
        else [Some(q[0])] + SortedRun(q[1..], less, ops[1..])
  }

  // ----- The heap -----

  /** `ops` is a series of operations a heap holding `h` allows: take removes a greatest element. */
  ghost predicate HeapRun<T>(h: multiset<T>, less: (T, T) -> bool, ops: seq<Op<T>>)
    decreases |ops|
  {
    ops == [] ||
    match ops[0]
    case Post(batch) => HeapRun(h + multiset(batch), less, ops[1..])
    case Take(None) => h == multiset{} && HeapRun(h, less, ops[1..])
    case Take(Some(x)) =>
      x in h && (forall y | y in h :: !less(x, y)) && HeapRun(h - multiset{x}, less, ops[1..])
  }

  function Outs<T>(ops: seq<Op<T>>): seq<Option<T>> {
    if ops == [] then []
    else (if ops[0].Take? then [ops[0].out] else []) + Outs(ops[1..])
  }

  /** Everything posted belongs to `els`. */
  ghost predicate PostsWithin<T>(ops: seq<Op<T>>, els: multiset<T>) {
    forall i {:trigger ops[i]} | 0 <= i < |ops| && ops[i].Post? :: Within(ops[i].batch, els)
  }

  lemma {:induction false} InsertKeeps<T>(q: seq<T>, less: (T, T) -> bool, x: T)
    ensures multiset(Insert(q, less, x)) == multiset(q) + multiset{x}
  {
    if q != [] && !less(q[0], x) {
      InsertKeeps(q[1..], less, x);
      assert q == [q[0]] + q[1..];
    }
  }

  lemma {:induction false} InsertAllKeeps<T>(q: seq<T>, less: (T, T) -> bool, batch: seq<T>)
    ensures multiset(InsertAll(q, less, batch)) == multiset(q) + multiset(batch)
    decreases |batch|
  {
    if batch != [] {
      InsertKeeps(q, less, batch[0]);
      InsertAllKeeps(Insert(q, less, batch[0]), less, batch[1..]);
      assert batch == [batch[0]] + batch[1..];
    }
  }

  lemma {:induction false} InsertSorted<T>(q: seq<T>, less: (T, T) -> bool, x: T, els: multiset<T>)
    requires Sorted(q, less) && OrderOn(less, els) && Within(q, els) && x in els
    ensures Sorted(Insert(q, less, x), less)
  {
    if q == [] || less(q[0], x) {
      var r := [x] + q;
      forall j | 0 <= j < |q| ensures !less(x, q[j]) {
        assert q[0] in q && q[j] in q;
      }
    } else {
      InsertSorted(q[1..], less, x, els);
      var r := Insert(q[1..], less, x);
      forall j | 0 <= j < |r| ensures !less(q[0], r[j]) {
        assert r[j] in r;
      }
    }
  }

  lemma {:induction false} InsertAllSorted<T>(q: seq<T>, less: (T, T) -> bool, batch: seq<T>, els: multiset<T>)
    requires Sorted(q, less) && OrderOn(less, els) && Within(q, els) && Within(batch, els)
    ensures Sorted(InsertAll(q, less, batch), less)
    decreases |batch|
  {
    if batch != [] {
      InsertSorted(q, less, batch[0], els);
      InsertAllSorted(Insert(q, less, batch[0]), less, batch[1..], els);
    }
  }

  lemma FrontsAgree<T>(p: seq<T>, q: seq<T>, less: (T, T) -> bool, els: multiset<T>)
    requires Sorted(p, less) && Sorted(q, less) && p != [] && q != [] && p[0] in q && q[0] in p
    requires TotalOn(less, els) && Within(p, els) && Within(q, els)
    ensures p[0] == q[0]
  {
    var i :| 0 <= i < |q| && q[i] == p[0];
    var j :| 0 <= j < |p| && p[j] == q[0];
  }

  lemma Tail<T>(p: seq<T>)
    requires p != []
    ensures multiset(p[1..]) == multiset(p) - multiset{p[0]}
  {
    assert p == [p[0]] + p[1..];
  }

  /** There is only one way to sort. */
  lemma {:induction false} SortedUnique<T>(p: seq<T>, q: seq<T>, less: (T, T) -> bool, els: multiset<T>)
    requires Sorted(p, less) && Sorted(q, less) && multiset(p) == multiset(q)
    requires TotalOn(less, els) && Within(p, els) && Within(q, els)
    ensures p == q
  {
    assert |p| == |multiset(p)| == |multiset(q)| == |q|;
    if p != [] {
      assert p[0] in multiset(q) && q[0] in multiset(p);
      FrontsAgree(p, q, less, els);
      Tail(p);
      Tail(q);
      SortedUnique(p[1..], q[1..], less, els);
    }
  }

  /** The order of the posts in a batch does not matter: the inbox may hand them over reversed. */
  lemma BatchOrderIrrelevant<T>(q: seq<T>, less: (T, T) -> bool, batch: seq<T>, els: multiset<T>)
    requires Sorted(q, less) && TotalOn(less, els) && Within(q, els) && Within(batch, els)
    ensures InsertAll(q, less, Reverse(batch)) == InsertAll(q, less, batch)
  {
    ReverseKeeps(batch);
    assert Within(Reverse(batch), els) by {
      forall x | x in Reverse(batch) ensures x in els {
        assert x in multiset(Reverse(batch));
      }
    }
    InsertAllSorted(q, less, batch, els);
    InsertAllSorted(q, less, Reverse(batch), els);
    InsertAllKeeps(q, less, batch);
    InsertAllKeeps(q, less, Reverse(batch));
    SortedUnique(InsertAll(q, less, Reverse(batch)), InsertAll(q, less, batch), less, els);
  }

  lemma {:induction false} ReverseKeeps<T>(s: seq<T>)
    ensures multiset(Reverse(s)) == multiset(s)
  {
    if s != [] {
      ReverseKeeps(s[..|s| - 1]);
      assert s == s[..|s| - 1] + [s[|s| - 1]];
    }
  }

  lemma HeadIsTaken<T>(q: seq<T>, less: (T, T) -> bool, x: T, els: multiset<T>)
    requires Sorted(q, less) && TotalOn(less, els) && Within(q, els)
    requires x in multiset(q) && forall y | y in multiset(q) :: !less(x, y)
    ensures q != [] && q[0] == x && multiset(q[1..]) == multiset(q) - multiset{x}
  {
    var i :| 0 <= i < |q| && q[i] == x;
    assert q[0] in multiset(q);
    Tail(q);
  }

  /** For any interleaving of batches and takes the heap hands out what the sorted queue does. */
  lemma {:induction false} HeapRefinesSorted<T>(q: seq<T>, less: (T, T) -> bool, ops: seq<Op<T>>, els: multiset<T>)
    requires Sorted(q, less) && HeapRun(multiset(q), less, ops)
    requires TotalOn(less, els) && Within(q, els) && PostsWithin(ops, els)
    ensures Outs(ops) == SortedRun(q, less, ops)
    decreases |ops|
  {
    if ops != [] {
      var rest := ops[1..];
      assert PostsWithin(rest, els) by {
        assert forall i | 0 <= i < |rest| :: rest[i] == ops[i + 1];
      }
      match ops[0] {
        case Post(batch) =>
          assert Within(batch, els);
          InsertAllSorted(q, less, batch, els);
          InsertAllKeeps(q, less, batch);
          HeapRefinesSorted(InsertAll(q, less, batch), less, rest, els);
        case Take(None) =>
          assert |q| == |multiset(q)|;
          HeapRefinesSorted(q, less, rest, els);
        case Take(Some(x)) =>
          HeadIsTaken(q, less, x, els);
          HeapRefinesSorted(q[1..], less, rest, els);
      }
    }
  }

  // ----- Tasks -----

  /** Posting numbers are not used twice. */
  ghost predicate PostedOnce(els: multiset<T.Task>) {
    forall a, b | a in els && b in els && a != b :: a.postedNum != b.postedNum
  }

  lemma TasksNeverTie(els: multiset<T.Task>)
    requires PostedOnce(els)
    ensures TotalOn(T.TaskPriorityLess, els)
  {
  }

  /** What dequeue takes from the priority heap: highest priority first, first posted first among equals. */
  lemma TakenTask(sch: multiset<T.Task>, pq: multiset<T.Task>, now: S.Time,
                  p: T.Task, sch': multiset<T.Task>, pq': multiset<T.Task>, t: T.Task)
    requires T.Dispatched(sch, pq, now, p, sch', pq') && pq' != pq && PostedOnce(pq) && t in pq'
    ensures t != p ==> t.prio < p.prio || (t.prio == p.prio && p.postedNum < t.postedNum)
    ensures p in pq && pq == pq' + multiset{p}
  {
    assert t in pq;
  }

  /** Dispatch from the priority heap, for every series of posted batches and takes. */
  lemma TaskDispatchOrder(ops: seq<Op<T.Task>>, els: multiset<T.Task>)
    requires HeapRun(multiset{}, T.TaskPriorityLess, ops) && PostsWithin(ops, els) && PostedOnce(els)
    ensures Outs(ops) == SortedRun([], T.TaskPriorityLess, ops)
  {
    TasksNeverTie(els);
    var q: seq<T.Task> := [];
    assert multiset(q) == multiset{};
    HeapRefinesSorted(q, T.TaskPriorityLess, ops, els);
  }

  // ----- What dequeue does is a run of the heap -----

  /** A call of dequeue: the chain it took from the inbox, its clock readings, its result, what it left in the heaps. */
  datatype Call = Call(chain: seq<T.Task>, now1: S.Time, now2: S.Time, task: T.Task?,
                       scheduled: multiset<T.Task>, runnable: multiset<T.Task>)

  /** Calls of dequeue in a row, each as its contract says; anything may be posted in between. */
  ghost predicate DequeueRun(sch: multiset<T.Task>, pq: multiset<T.Task>, calls: seq<Call>)
    decreases |calls|
  {
    calls == [] ||
    var c := calls[0];
    && T.Dispatched(sch + T.Late(c.chain, c.now1), pq + T.Due(c.chain, c.now1), c.now2, c.task, c.scheduled, c.runnable)
    && DequeueRun(c.scheduled, c.runnable, calls[1..])
  }

  /** The scheduled heap comes first. */
  ghost predicate ServesScheduled(sch: multiset<T.Task>, c: Call) {
    var s := sch + T.Late(c.chain, c.now1);
    s != multiset{} && T.AllDue(s, c.now2)
  }

  /** The tasks of a chain that go to the priority heap, as they lie in the chain. */
  function Runnable(chain: seq<T.Task>, now: S.Time): (r: seq<T.Task>)
    ensures forall t | t in r :: t in chain && t.when <= now
  {
    if chain == [] then [] else
      var t, r := chain[|chain| - 1], Runnable(chain[..|chain| - 1], now);
      if t.when > now then r else r + [t]
  }

  lemma {:induction false} RunnableIsDue(chain: seq<T.Task>, now: S.Time)
    ensures multiset(Runnable(chain, now)) == T.Due(chain, now)
  {
    if chain != [] {
      RunnableIsDue(chain[..|chain| - 1], now);
    }
  }

  function Result(c: Call): Option<T.Task> {
    if c.task == null then None else Some(c.task)
  }

  /** A call takes from the priority heap unless it serves the scheduled one. */
  ghost function TakeOp(sch: multiset<T.Task>, c: Call): seq<Op<T.Task>> {
    if ServesScheduled(sch, c) then [] else [Take(Result(c))]
  }

  /** What the calls do to the priority heap. */
  ghost function HeapOps(sch: multiset<T.Task>, calls: seq<Call>): seq<Op<T.Task>>
    decreases |calls|
  {
    if calls == [] then [] else
      var c := calls[0];
      [Post(Runnable(c.chain, c.now1))] + (TakeOp(sch, c) + HeapOps(c.scheduled, calls[1..]))
  }

  /** The results of the calls that did not serve the scheduled heap. */
  ghost function Served(sch: multiset<T.Task>, calls: seq<Call>): seq<Option<T.Task>>
    decreases |calls|
  {
    if calls == [] then []
    else (if ServesScheduled(sch, calls[0]) then [] else [Result(calls[0])]) + Served(calls[0].scheduled, calls[1..])
  }

  lemma PostFirst<E>(h: multiset<E>, less: (E, E) -> bool, batch: seq<E>, rest: seq<Op<E>>)
    requires HeapRun(h + multiset(batch), less, rest)
    ensures HeapRun(h, less, [Post(batch)] + rest) && Outs([Post(batch)] + rest) == Outs(rest)
  {
    var ops := [Post(batch)] + rest;
    assert ops[0] == Post(batch) && ops[1..] == rest;
  }

  lemma TakeFirst(sch: multiset<T.Task>, pq: multiset<T.Task>, c: Call, rest: seq<Op<T.Task>>)
    requires T.Dispatched(sch + T.Late(c.chain, c.now1), pq, c.now2, c.task, c.scheduled, c.runnable)
    requires HeapRun(c.runnable, T.TaskPriorityLess, rest)
    ensures HeapRun(pq, T.TaskPriorityLess, TakeOp(sch, c) + rest)
    ensures Outs(TakeOp(sch, c) + rest) == (if ServesScheduled(sch, c) then [] else [Result(c)]) + Outs(rest)
  {
    var ops := TakeOp(sch, c) + rest;
    if ServesScheduled(sch, c) {
      assert ops == rest;
    } else {
      assert ops[0] == Take(Result(c)) && ops[1..] == rest;
    }
  }

  /** Calls of dequeue are a run of the heap, and what it hands out is what they return. */
  lemma {:induction false} DequeueIsHeapRun(sch: multiset<T.Task>, pq: multiset<T.Task>, calls: seq<Call>)
    requires DequeueRun(sch, pq, calls)
    ensures HeapRun(pq, T.TaskPriorityLess, HeapOps(sch, calls))
    ensures Outs(HeapOps(sch, calls)) == Served(sch, calls)
    decreases |calls|
  {
    if calls != [] {
      var c := calls[0];
      var later := HeapOps(c.scheduled, calls[1..]);
      DequeueIsHeapRun(c.scheduled, c.runnable, calls[1..]);
      RunnableIsDue(c.chain, c.now1);
      TakeFirst(sch, pq + T.Due(c.chain, c.now1), c, later);
      PostFirst(pq, T.TaskPriorityLess, Runnable(c.chain, c.now1), TakeOp(sch, c) + later);
    }
  }

  ghost predicate ChainsWithin(calls: seq<Call>, els: multiset<T.Task>) {
    forall i {:trigger calls[i]} | 0 <= i < |calls| :: Within(calls[i].chain, els)
  }

  lemma {:induction false} OpsWithin(sch: multiset<T.Task>, calls: seq<Call>, els: multiset<T.Task>)
    requires ChainsWithin(calls, els)
    ensures PostsWithin(HeapOps(sch, calls), els)
    decreases |calls|
  {
    if calls != [] {
      var c := calls[0];
      OpsWithin(c.scheduled, calls[1..], els);
      var ops, later := HeapOps(sch, calls), HeapOps(c.scheduled, calls[1..]);
      var skip := if ServesScheduled(sch, c) then 1 else 2;
      forall i | 0 <= i < |ops| && ops[i].Post? ensures Within(ops[i].batch, els) {
        assert i >= skip ==> ops[i] == later[i - skip];
      }
    }
  }

  /** The same operations with every batch in the order in which it was posted. */
  ghost function InPostingOrder<E>(ops: seq<Op<E>>): seq<Op<E>> {
    if ops == [] then []
    else [if ops[0].Post? then Post(Reverse(ops[0].batch)) else ops[0]] + InPostingOrder(ops[1..])
  }

  lemma {:induction false} PostingOrderIrrelevant<E>(q: seq<E>, less: (E, E) -> bool, ops: seq<Op<E>>, els: multiset<E>)
    requires Sorted(q, less) && TotalOn(less, els) && Within(q, els) && PostsWithin(ops, els)
    ensures SortedRun(q, less, InPostingOrder(ops)) == SortedRun(q, less, ops)
    decreases |ops|
  {
    if ops != [] {
      var rest := ops[1..];
      assert PostsWithin(rest, els) by {
        assert forall i | 0 <= i < |rest| :: rest[i] == ops[i + 1];
      }
      assert InPostingOrder(ops)[1..] == InPostingOrder(rest);
      match ops[0] {
        case Post(batch) =>
          assert Within(batch, els);
          BatchOrderIrrelevant(q, less, batch, els);
          InsertAllSorted(q, less, batch, els);
          PostingOrderIrrelevant(InsertAll(q, less, batch), less, rest, els);
        case Take(_) =>
          PostingOrderIrrelevant(if q == [] then q else q[1..], less, rest, els);
      }
    }
  }

  /**
    Dispatch order, of dequeue itself.  Whatever is posted between the calls,
    and though the inbox hands it over last-posted first, the calls that do
    not serve the scheduled heap return what a queue would that is sorted by
    priority and then by order of posting, and gets each batch in the order
    of posting.
  */
  lemma DequeueOrder(sch: multiset<T.Task>, calls: seq<Call>, els: multiset<T.Task>)
    requires DequeueRun(sch, multiset{}, calls) && ChainsWithin(calls, els) && PostedOnce(els)
    ensures Served(sch, calls) == SortedRun([], T.TaskPriorityLess, InPostingOrder(HeapOps(sch, calls)))
  {
    var ops := HeapOps(sch, calls);
    DequeueIsHeapRun(sch, multiset{}, calls);
    OpsWithin(sch, calls, els);
    TaskDispatchOrder(ops, els);
    TasksNeverTie(els);
    PostingOrderIrrelevant([], T.TaskPriorityLess, ops, els);
  }
}
