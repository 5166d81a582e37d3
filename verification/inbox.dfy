/**
  Posting to a thread against its parking.  Any number of OS threads push
  tasks onto the inbox with a compare-and-exchange loop; the owner takes the
  whole inbox with one exchange and, when it finds nothing to do, waits on a
  condition variable.  Atomics are sequentially consistent; a step is one
  access to shared memory.
*/
module Inbox {
  import opened Wrappers

  type Id = nat       // a task; each is posted once
  type Thread = nat

  /** The owner posts to itself under this name, without the notification. */
  const OWNER: Thread := 0

  datatype Poster =
    | Idle
    | Loaded(t: Id, stale: Option<Id>)   // has read the head
    | Linked(t: Id, stale: Option<Id>)   // has set t->next, about to exchange
    | Pushed                             // the exchange succeeded
    | Locked                             // holds the mutex, has not notified
    | Notified                           // holds the mutex, has notified

  datatype Owner =
    | Running
    | Holding                                    // holds the mutex
    | Draining(cur: Option<Id>, locked: bool)    // walks the chain it took
    | Parked                                     // waits on the condition variable, mutex released
    | Signaled                                   // woken, must take the mutex again

  datatype Mutex = Free | ByPoster(i: Thread) | ByOwner

  datatype State = State(
    head: Option<Id>,
    next: map<Id, Option<Id>>,
    posters: map<Thread, Poster>,
    mutex: Mutex,
    owner: Owner,
    runnable: multiset<Id>,    // the two heaps
    scheduled: multiset<Id>,
    out: seq<Id>,              // tasks dequeued
    // history
    posted: set<Id>,           // every task some thread has started to post
    chain: seq<Id>,            // the inbox, from the head
    rest: seq<Id>,             // what the owner has still to sort
    log: seq<Id>)              // the successful exchanges, in order
  {
    function At(i: Thread): Poster {
      if i in posters then posters[i] else Idle
    }

    function Set(i: Thread, p: Poster): State {
      this.(posters := posters[i := p])
    }
  }

  datatype Label =
    | Load(i: Thread, t: Id)
    | Link(i: Thread)
    | Swap(i: Thread)
    | Fail(i: Thread)
    | Lock(i: Thread)
    | NotifyAll(i: Thread)
    | Unlock(i: Thread)
    | Acquire
    | Exchange
    | Sort(late: bool)
    | Take(t: Id)
    | NothingToDo
    | Wake
    | Resume

  /** The owner does one thing at a time. */
  predicate MayStep(s: State, i: Thread) {
    i == OWNER ==> s.owner == Running
  }

  ghost predicate Step(s: State, l: Label, n: State) {
    match l
    case Load(i, t) =>
      MayStep(s, i) && s.At(i) == Idle && t !in s.posted
      && n == s.Set(i, Loaded(t, s.head)).(posted := s.posted + {t})
    case Link(i) =>
      MayStep(s, i) && s.At(i).Loaded?
      && n == s.Set(i, Linked(s.At(i).t, s.At(i).stale)).(next := s.next[s.At(i).t := s.At(i).stale])
    case Swap(i) =>
      MayStep(s, i) && s.At(i).Linked? && s.head == s.At(i).stale
      && n == s.Set(i, if i == OWNER then Idle else Pushed).(
                head := Some(s.At(i).t), chain := [s.At(i).t] + s.chain, log := s.log + [s.At(i).t])
    case Fail(i) =>   // the head moved, or the weak exchange failed spuriously
      MayStep(s, i) && s.At(i).Linked? && n == s.Set(i, Loaded(s.At(i).t, s.head))
    case Lock(i) => s.At(i) == Pushed && s.mutex == Free && n == s.Set(i, Locked).(mutex := ByPoster(i))
    case NotifyAll(i) =>
      s.At(i) == Locked && n == s.Set(i, Notified).(owner := if s.owner == Parked then Signaled else s.owner)
    case Unlock(i) => s.At(i) == Notified && n == s.Set(i, Idle).(mutex := Free)
    case Acquire => s.At(OWNER) == Idle && s.owner == Running && s.mutex == Free && n == s.(owner := Holding, mutex := ByOwner)
    case Exchange =>
      && s.At(OWNER) == Idle && (s.owner == Running || s.owner == Holding)
      && n == s.(head := None, owner := Draining(s.head, s.owner == Holding), rest := s.chain, chain := [])
    case Sort(late) =>
      && s.owner.Draining? && s.owner.cur.Some? && s.owner.cur.value in s.next && s.rest != []
      && n == (if late then s.(scheduled := s.scheduled + multiset{s.owner.cur.value})
               else s.(runnable := s.runnable + multiset{s.owner.cur.value})).(
                owner := Draining(s.next[s.owner.cur.value], s.owner.locked), rest := s.rest[1..])
    case Take(t) =>
      && s.owner.Draining? && s.owner.cur == None && (t in s.scheduled || t in s.runnable)
      && n == (if t in s.scheduled then s.(scheduled := s.scheduled - multiset{t})
               else s.(runnable := s.runnable - multiset{t})).(
                out := s.out + [t], owner := Running, mutex := if s.owner.locked then Free else s.mutex)
    case NothingToDo =>   // dequeue found nothing; under the lock that means waiting
      && s.owner.Draining? && s.owner.cur == None && s.runnable == multiset{}
      && n == if s.owner.locked then s.(owner := Parked, mutex := Free) else s.(owner := Running)
    case Wake => s.owner == Parked && n == s.(owner := Signaled)   // timeout or spurious
    case Resume => s.owner == Signaled && s.mutex == Free && n == s.(owner := Running)
  }

  ghost predicate Init(s: State) {
    s == State(None, map[], map[], Free, Running, multiset{}, multiset{}, [], {}, [], [], [])
  }

  ghost predicate Run(ss: seq<State>, ls: seq<Label>) {
    && |ss| == |ls| + 1 && Init(ss[0])
    && forall k {:trigger ls[k]} | 0 <= k < |ls| :: Step(ss[k], ls[k], ss[k + 1])
  }

  // ----- The invariant -----

  function First(s: seq<Id>, k: nat): Option<Id> {
    if k < |s| then Some(s[k]) else None
  }

  /** From `head` the next pointers spell out `chain`. */
  ghost predicate Chain(next: map<Id, Option<Id>>, head: Option<Id>, chain: seq<Id>) {
    && head == First(chain, 0)
    && forall k {:trigger chain[k]} | 0 <= k < |chain| :: chain[k] in next && next[chain[k]] == First(chain, k + 1)
  }

  ghost predicate Flying(s: State, i: Thread, t: Id) {
    (s.At(i).Loaded? || s.At(i).Linked?) && s.At(i).t == t
  }

  ghost function InFlight(s: State): set<Id> {
    set i | i in s.posters && (s.posters[i].Loaded? || s.posters[i].Linked?) :: s.posters[i].t
  }

  /** Every task that has been pushed, wherever it is now, as often as it is there. */
  ghost function Delivered(s: State): multiset<Id> {
    multiset(s.chain) + multiset(s.rest) + s.runnable + s.scheduled + multiset(s.out)
  }

  ghost predicate WellFormed(s: State) {
    && Chain(s.next, s.head, s.chain)
    && (if s.owner.Draining? then Chain(s.next, s.owner.cur, s.rest) else s.rest == [])
    && PointersSet(s)
  }

  ghost predicate Conserved(s: State) {
    && (forall i, t :: Flying(s, i, t) ==> t in s.posted)
    && (forall i, j, t :: Flying(s, i, t) && Flying(s, j, t) ==> i == j)
    && Delivered(s) == multiset(s.posted - InFlight(s))
  }

  /** The inbox holds the latest posts, the last first. */
  ghost predicate EndsReversed(log: seq<Id>, chain: seq<Id>) {
    |chain| <= |log| && log[|log| - |chain|..] == Reverse(chain)
  }

  ghost predicate LastFirst(s: State) {
    EndsReversed(s.log, s.chain)
  }

  ghost predicate Exclusive(s: State) {
    && (forall i :: HasMutex(s, i) <==> s.mutex == ByPoster(i))
    && (s.owner == Holding || (s.owner.Draining? && s.owner.locked) <==> s.mutex == ByOwner)
  }

  /** A poster that has pushed and still has to notify. */
  ghost predicate WillNotify(s: State, i: Thread) {
    s.At(i) == Pushed || s.At(i) == Locked
  }

  /** While the owner waits, or holds the lock and is on its way to wait, nothing is left unannounced. */
  ghost predicate Announced(s: State) {
    Waiting(s) && s.head.Some? ==> exists i :: WillNotify(s, i)
  }

  ghost predicate Inv(s: State) {
    WellFormed(s) && Conserved(s) && LastFirst(s) && Exclusive(s) && Announced(s)
  }

  // ----- Preservation, property by property -----

  predicate HasMutex(s: State, i: Thread) {
    s.At(i) == Locked || s.At(i) == Notified
  }

  ghost predicate Waiting(s: State) {
    s.owner == Parked || (s.owner.Draining? && s.owner.locked)
  }

  lemma AnnouncedKept(s: State, l: Label, n: State)
    requires Exclusive(s) && Announced(s) && Step(s, l, n)
    ensures Announced(n)
  {
    if Waiting(n) && n.head.Some? {
      if l.Swap? {
        assert WillNotify(n, l.i);
      } else if l.NotifyAll? {
        assert HasMutex(s, l.i);
      } else {
        var i :| WillNotify(s, i);
        assert WillNotify(n, i);
      }
    }
  }

  /** The poster that a label moves. */
  function Mover(l: Label): Option<Thread> {
    match l
    case Load(i, _) => Some(i)
    case Link(i) => Some(i)
    case Swap(i) => Some(i)
    case Fail(i) => Some(i)
    case Lock(i) => Some(i)
    case NotifyAll(i) => Some(i)
    case Unlock(i) => Some(i)
    case _ => None
  }

  lemma OthersStand(s: State, l: Label, n: State, j: Thread)
    requires Step(s, l, n) && Mover(l) != Some(j)
    ensures n.At(j) == s.At(j)
  {
  }

  lemma PosterMutexKept(s: State, l: Label, n: State, j: Thread)
    requires Exclusive(s) && Step(s, l, n)
    ensures HasMutex(n, j) <==> n.mutex == ByPoster(j)
  {
    assert HasMutex(s, j) <==> s.mutex == ByPoster(j);
    if Mover(l) == Some(j) {
      assert HasMutex(n, j) <==> l.Lock? || l.NotifyAll?;
    } else {
      OthersStand(s, l, n, j);
      if l.NotifyAll? || l.Unlock? {
        assert HasMutex(s, l.i);
      }
    }
  }

  lemma ExclusiveKept(s: State, l: Label, n: State)
    requires Exclusive(s) && Step(s, l, n)
    ensures Exclusive(n)
  {
    forall j ensures HasMutex(n, j) <==> n.mutex == ByPoster(j) {
      PosterMutexKept(s, l, n, j);
    }
    if l.Unlock? {
      assert HasMutex(s, l.i);
    }
  }

  lemma LastFirstPush(log: seq<Id>, chain: seq<Id>, t: Id)
    requires EndsReversed(log, chain)
    ensures EndsReversed(log + [t], [t] + chain)
  {
    ReverseCons(t, chain);
    AppendLast(log, |log| - |chain|, t);
  }

  lemma NothingReversed(log: seq<Id>)
    ensures EndsReversed(log, [])
  {
    assert log[|log|..] == [];
  }

  lemma LastFirstKept(s: State, l: Label, n: State)
    requires LastFirst(s) && Step(s, l, n)
    ensures LastFirst(n)
  {
    NothingReversed(s.log);
    if l.Swap? {
      LastFirstPush(s.log, s.chain, s.At(l.i).t);
    }
  }

  lemma AppendLast(s: seq<Id>, k: nat, t: Id)
    requires k <= |s|
    ensures (s + [t])[k..] == s[k..] + [t]
  {
  }

  lemma {:induction false} ReverseCons(t: Id, s: seq<Id>)
    ensures Reverse([t] + s) == Reverse(s) + [t]
  {
    if s != [] {
      var front := s[..|s| - 1];
      assert ([t] + s)[..|s|] == [t] + front;
      ReverseCons(t, front);
    }
  }

  lemma InFlightIs(s: State, t: Id)
    ensures t in InFlight(s) <==> exists i :: Flying(s, i, t)
  {
    if t in InFlight(s) {
      var i :| i in s.posters && (s.posters[i].Loaded? || s.posters[i].Linked?) && s.posters[i].t == t;
      assert Flying(s, i, t);
    }
  }

  /** A task in flight is nowhere else. */
  lemma FlyingIsNowhere(s: State, i: Thread, t: Id)
    requires Conserved(s) && Flying(s, i, t)
    ensures t !in s.chain && t !in s.rest && t in s.posted
  {
    InFlightIs(s, t);
    assert Delivered(s)[t] == 0;
  }

  /** A chain does not mind a pointer that is not in it. */
  lemma ChainFrame(next: map<Id, Option<Id>>, head: Option<Id>, chain: seq<Id>, t: Id, to: Option<Id>)
    requires Chain(next, head, chain) && t !in chain
    ensures Chain(next[t := to], head, chain)
  {
  }

  lemma ChainPush(next: map<Id, Option<Id>>, head: Option<Id>, chain: seq<Id>, t: Id)
    requires Chain(next, head, chain) && t in next && next[t] == head
    ensures Chain(next, Some(t), [t] + chain)
  {
    var c := [t] + chain;
    forall k | 0 <= k < |c| ensures c[k] in next && next[c[k]] == First(c, k + 1) {
      if k > 0 {
        assert c[k] == chain[k - 1];
        assert First(c, k + 1) == First(chain, k);
      }
    }
  }

  lemma ChainPop(next: map<Id, Option<Id>>, head: Option<Id>, chain: seq<Id>)
    requires Chain(next, head, chain) && chain != []
    ensures head == Some(chain[0]) && chain[0] in next && Chain(next, next[chain[0]], chain[1..])
  {
    var c := chain[1..];
    assert chain[0] in next && next[chain[0]] == First(chain, 1);
    assert First(chain, 1) == First(c, 0);
    forall k | 0 <= k < |c| ensures c[k] in next && next[c[k]] == First(c, k + 1) {
      assert c[k] == chain[k + 1];
    }
  }

  ghost predicate PointersSet(s: State) {
    forall i, t :: Flying(s, i, t) && s.At(i).Linked? ==> t in s.next && s.next[t] == s.At(i).stale
  }

  lemma PointersKept(s: State, l: Label, n: State)
    requires PointersSet(s) && Conserved(s) && Step(s, l, n)
    ensures PointersSet(n)
  {
    forall i, t | Flying(n, i, t) && n.At(i).Linked? ensures t in n.next && n.next[t] == n.At(i).stale {
      if n.At(i) == s.At(i) {
        assert Flying(s, i, t);
        if l.Link? {
          assert Flying(s, l.i, s.At(l.i).t);
        }
      }
    }
  }

  lemma WellFormedKept(s: State, l: Label, n: State)
    requires WellFormed(s) && Conserved(s) && Step(s, l, n)
    ensures WellFormed(n)
  {
    PointersKept(s, l, n);
    match l {
      case Link(i) =>
        var t := s.At(i).t;
        assert Flying(s, i, t);
        FlyingIsNowhere(s, i, t);
        ChainFrame(s.next, s.head, s.chain, t, s.At(i).stale);
        if s.owner.Draining? {
          ChainFrame(s.next, s.owner.cur, s.rest, t, s.At(i).stale);
        }
      case Swap(i) =>
        assert Flying(s, i, s.At(i).t);
        ChainPush(s.next, s.head, s.chain, s.At(i).t);
      case Sort(_) => ChainPop(s.next, s.owner.cur, s.rest);
      case _ =>
    }
  }

  // ----- Conservation -----

  lemma SameFlight(s: State, n: State)
    requires n.posters == s.posters
    ensures InFlight(n) == InFlight(s)
    ensures forall j, t :: Flying(n, j, t) <==> Flying(s, j, t)
  {
  }

  /** A thread whose poster state changes without a task getting into or out of flight. */
  lemma FlightKept(s: State, i: Thread, p: Poster, n: State)
    requires n.posters == s.posters[i := p]
    requires forall t :: Flying(s, i, t) <==> (p.Loaded? || p.Linked?) && p.t == t
    ensures InFlight(n) == InFlight(s)
    ensures forall j, t :: Flying(n, j, t) <==> Flying(s, j, t)
  {
    forall t ensures t in InFlight(n) <==> t in InFlight(s) {
      InFlightIs(s, t);
      InFlightIs(n, t);
      assert forall j :: Flying(n, j, t) <==> Flying(s, j, t);
    }
  }

  lemma LoadFlies(s: State, i: Thread, t: Id, n: State)
    requires Step(s, Load(i, t), n)
    ensures InFlight(n) == InFlight(s) + {t}
    ensures forall j, u :: Flying(n, j, u) <==> Flying(s, j, u) || (j == i && u == t)
  {
    assert Flying(n, i, t);
    forall u ensures u in InFlight(n) <==> u in InFlight(s) || u == t {
      InFlightIs(s, u);
      InFlightIs(n, u);
      if u in InFlight(s) {
        var j :| Flying(s, j, u);
        assert Flying(n, j, u);
      }
    }
  }

  lemma LoadConserves(s: State, i: Thread, t: Id, n: State)
    requires Conserved(s) && Step(s, Load(i, t), n)
    ensures Conserved(n)
  {
    LoadFlies(s, i, t, n);
    assert forall j :: !Flying(s, i, j);
    forall j, u | Flying(n, j, u) ensures u in n.posted && (u == t <==> j == i) {
      assert Flying(s, j, u) || (j == i && u == t);
    }
    assert n.posted - InFlight(n) == s.posted - InFlight(s);
  }

  lemma SwapLands(s: State, i: Thread, n: State)
    requires Conserved(s) && Step(s, Swap(i), n)
    ensures s.At(i).t in s.posted && s.At(i).t in InFlight(s)
    ensures InFlight(n) == InFlight(s) - {s.At(i).t}
    ensures forall j, u :: Flying(n, j, u) <==> Flying(s, j, u) && j != i
  {
    var t := s.At(i).t;
    assert Flying(s, i, t);
    InFlightIs(s, t);
    forall u ensures u in InFlight(n) <==> u in InFlight(s) && u != t {
      InFlightIs(s, u);
      InFlightIs(n, u);
      if u in InFlight(s) && u != t {
        var j :| Flying(s, j, u);
        assert Flying(n, j, u);
      }
      if u in InFlight(n) {
        var j :| Flying(n, j, u);
        assert Flying(s, j, u) && j != i;
      }
    }
  }

  lemma SwapConserves(s: State, i: Thread, n: State)
    requires Conserved(s) && Step(s, Swap(i), n)
    ensures Conserved(n)
  {
    var t := s.At(i).t;
    SwapLands(s, i, n);
    assert n.posted - InFlight(n) == (s.posted - InFlight(s)) + {t};
    AddToSet(s.posted - InFlight(s), t);
    PushCounts(t, s.chain, multiset(s.rest), s.runnable, s.scheduled, multiset(s.out));
  }

  lemma AddToSet(a: set<Id>, t: Id)
    requires t !in a
    ensures multiset(a + {t}) == multiset(a) + multiset{t}
  {
  }

  lemma PushCounts(t: Id, c: seq<Id>, r: multiset<Id>, a: multiset<Id>, b: multiset<Id>, o: multiset<Id>)
    ensures multiset([t] + c) + r + a + b + o == (multiset(c) + r + a + b + o) + multiset{t}
  {
  }

  lemma SortCounts(t: Id, c: multiset<Id>, r: multiset<Id>, a: multiset<Id>, b: multiset<Id>, o: multiset<Id>)
    ensures c + r + (a + multiset{t}) + b + o == c + (multiset{t} + r) + a + b + o
    ensures c + r + a + (b + multiset{t}) + o == c + (multiset{t} + r) + a + b + o
  {
  }

  lemma TakeCounts(t: Id, c: multiset<Id>, r: multiset<Id>, a: multiset<Id>, b: multiset<Id>, o: multiset<Id>)
    ensures t in a ==> c + r + (a - multiset{t}) + b + (o + multiset{t}) == c + r + a + b + o
    ensures t in b ==> c + r + a + (b - multiset{t}) + (o + multiset{t}) == c + r + a + b + o
  {
  }

  lemma HeadCounts(s: seq<Id>)
    requires s != []
    ensures multiset(s) == multiset{s[0]} + multiset(s[1..])
  {
    assert s == [s[0]] + s[1..];
  }

  lemma SortConserves(s: State, late: bool, n: State)
    requires Conserved(s) && s.owner.Draining? && Chain(s.next, s.owner.cur, s.rest) && Step(s, Sort(late), n)
    ensures Conserved(n)
  {
    SameFlight(s, n);
    ChainPop(s.next, s.owner.cur, s.rest);
    HeadCounts(s.rest);
    SortCounts(s.rest[0], multiset(s.chain), multiset(s.rest[1..]), s.runnable, s.scheduled, multiset(s.out));
    StillConserved(s, n);
  }

  lemma TakeConserves(s: State, t: Id, n: State)
    requires Conserved(s) && Step(s, Take(t), n)
    ensures Conserved(n)
  {
    SameFlight(s, n);
    TakeCounts(t, multiset(s.chain), multiset(s.rest), s.runnable, s.scheduled, multiset(s.out));
  }

  lemma ExchangeConserves(s: State, n: State)
    requires Conserved(s) && s.rest == [] && Step(s, Exchange, n)
    ensures Conserved(n)
  {
    SameFlight(s, n);
    assert multiset(s.chain) + multiset(s.rest) == multiset(n.chain) + multiset(n.rest);
  }

  /** A step that leaves the tasks where they are. */
  lemma StillConserved(s: State, n: State)
    requires Conserved(s) && InFlight(n) == InFlight(s) && n.posted == s.posted && Delivered(n) == Delivered(s)
    requires forall j, t :: Flying(n, j, t) <==> Flying(s, j, t)
    ensures Conserved(n)
  {
  }

  lemma PosterConserves(s: State, l: Label, n: State)
    requires Conserved(s) && Step(s, l, n)
    requires l.Link? || l.Fail? || l.Lock? || l.NotifyAll? || l.Unlock?
    ensures Conserved(n)
  {
    FlightKept(s, l.i, n.At(l.i), n);
    StillConserved(s, n);
  }

  lemma OwnerConserves(s: State, l: Label, n: State)
    requires Conserved(s) && Step(s, l, n)
    requires l.Acquire? || l.NothingToDo? || l.Wake? || l.Resume?
    ensures Conserved(n)
  {
    SameFlight(s, n);
    StillConserved(s, n);
  }

  lemma ConservedKept(s: State, l: Label, n: State)
    requires Conserved(s) && WellFormed(s) && Step(s, l, n)
    ensures Conserved(n)
  {
    match l {
      case Load(i, t) => LoadConserves(s, i, t, n);
      case Swap(i) => SwapConserves(s, i, n);
      case Sort(late) => SortConserves(s, late, n);
      case Take(t) => TakeConserves(s, t, n);
      case Exchange => ExchangeConserves(s, n);
      case _ =>
        if Mover(l).Some? {
          PosterConserves(s, l, n);
        } else {
          OwnerConserves(s, l, n);
        }
    }
  }

  lemma {:induction false} RunInv(ss: seq<State>, ls: seq<Label>, k: nat)
    requires Run(ss, ls) && k < |ss|
    ensures Inv(ss[k])
  {
    if k > 0 {
      RunInv(ss, ls, k - 1);
      var s, l, n := ss[k - 1], ls[k - 1], ss[k];
      WellFormedKept(s, l, n);
      ConservedKept(s, l, n);
      LastFirstKept(s, l, n);
      ExclusiveKept(s, l, n);
      AnnouncedKept(s, l, n);
    }
  }

  // ----- What holds of every run -----

  /**
    Exactly-once delivery, for any number of posters with failing or
    spuriously failing exchanges: the inbox is a proper chain, and the tasks
    pushed so far are, each exactly once, in the inbox, on their way into the
    heaps, in a heap, or handed out.
  */
  lemma ExactlyOnce(ss: seq<State>, ls: seq<Label>, k: nat)
    requires Run(ss, ls) && k < |ss|
    ensures var s := ss[k];
            && Chain(s.next, s.head, s.chain)
            && Delivered(s) == multiset(s.posted - InFlight(s)) && InFlight(s) <= s.posted
            && NoDup(s.out) && NoDup(s.chain)
  {
    RunInv(ss, ls, k);
    var s := ss[k];
    forall t | t in InFlight(s) ensures t in s.posted {
      InFlightIs(s, t);
    }
    OnceMeansNoDup(s.out, Delivered(s));
    OnceMeansNoDup(s.chain, Delivered(s));
  }

  lemma OnceMeansNoDup(s: seq<Id>, all: multiset<Id>)
    requires multiset(s) <= all && forall x | x in all :: all[x] == 1
    ensures NoDup(s)
  {
    forall i, j | 0 <= i < j < |s| ensures s[i] != s[j] {
      assert s == s[..j] + ([s[j]] + s[j + 1..]);
      assert multiset(s)[s[j]] == multiset(s[..j])[s[j]] + multiset([s[j]] + s[j + 1..])[s[j]];
      assert ([s[j]] + s[j + 1..])[0] == s[j];
      assert multiset([s[j]] + s[j + 1..])[s[j]] >= 1;
      assert s[j] in all;
      assert s[i] == s[..j][i];
    }
  }

  /** Once no post is under way and nothing waits, everything posted has been handed out, once. */
  lemma NothingLost(ss: seq<State>, ls: seq<Label>, k: nat)
    requires Run(ss, ls) && k < |ss|
    requires InFlight(ss[k]) == {} && ss[k].head == None && !ss[k].owner.Draining?
    requires ss[k].runnable == ss[k].scheduled == multiset{}
    ensures multiset(ss[k].out) == multiset(ss[k].posted)
  {
    RunInv(ss, ls, k);
    assert ss[k].posted - {} == ss[k].posted;
  }

  /**
    No lost wake-up.  Whenever the owner waits on the condition variable,
    not signaled, while the inbox holds a task, some poster has done its
    exchange and has still to notify.
  */
  lemma NoLostWakeup(ss: seq<State>, ls: seq<Label>, k: nat)
    requires Run(ss, ls) && k < |ss| && ss[k].owner == Parked && ss[k].head.Some?
    ensures exists i :: i != OWNER && WillNotify(ss[k], i)
  {
    RunInv(ss, ls, k);
    OwnerNeverNotifies(ss, ls, k);
  }

  /** The owner does not take the poster's lock, and posts nothing while it dequeues or waits. */
  lemma {:induction false} OwnerNeverNotifies(ss: seq<State>, ls: seq<Label>, k: nat)
    requires Run(ss, ls) && k < |ss|
    ensures ss[k].At(OWNER) != Pushed && ss[k].At(OWNER) != Locked && ss[k].At(OWNER) != Notified
    ensures ss[k].owner != Running ==> ss[k].At(OWNER) == Idle
  {
    if k > 0 {
      OwnerNeverNotifies(ss, ls, k - 1);
      assert Step(ss[k - 1], ls[k - 1], ss[k]);
    }
  }

  /** The inbox hands over its tasks in the reverse of the order in which they were pushed. */
  lemma InboxIsReversed(ss: seq<State>, ls: seq<Label>, k: nat)
    requires Run(ss, ls) && k < |ss|
    ensures EndsReversed(ss[k].log, ss[k].chain)
  {
    RunInv(ss, ls, k);
  }

  // ----- What can still happen -----

  ghost predicate Continues(ss: seq<State>, ls: seq<Label>, ss': seq<State>, ls': seq<Label>) {
    Run(ss, ls) && Run(ss', ls') && ss <= ss' && ls <= ls'
  }

  lemma Extend(ss: seq<State>, ls: seq<Label>, l: Label, n: State) returns (ss': seq<State>, ls': seq<Label>)
    requires Run(ss, ls) && Step(ss[|ls|], l, n)
    ensures Continues(ss, ls, ss', ls') && ls' == ls + [l] && ss'[|ls'|] == n && Inv(n)
  {
    ss', ls' := ss + [n], ls + [l];
    forall k | 0 <= k < |ls'| ensures Step(ss'[k], ls'[k], ss'[k + 1]) {
      assert k < |ls| ==> ls'[k] == ls[k] && Step(ss[k], ls[k], ss[k + 1]);
    }
    RunInv(ss', ls', |ls'|);
  }

  ghost predicate InFlightAt(s: State, i: Thread) {
    s.At(i).Loaded? || s.At(i).Linked?
  }

  /** The poster's task has become the head of the inbox, and nothing else has changed. */
  ghost predicate Pushes(s: State, i: Thread, n: State)
    requires InFlightAt(s, i)
  {
    && n.chain == [s.At(i).t] + s.chain && n.head == Some(s.At(i).t)
    && n.At(i) == (if i == OWNER then Idle else Pushed) && (forall j | j != i :: n.At(j) == s.At(j))
    && n.owner == s.owner && n.mutex == s.mutex && n.rest == s.rest && n.posted == s.posted
    && n.runnable == s.runnable && n.scheduled == s.scheduled && n.out == s.out
  }

  /** An exchange succeeds if the head is the one that was read. */
  lemma SwapSucceeds(s: State, i: Thread) returns (n: State)
    requires MayStep(s, i) && s.At(i).Linked? && s.At(i).stale == s.head
    ensures Step(s, Swap(i), n) && Pushes(s, i, n)
  {
    n := s.Set(i, if i == OWNER then Idle else Pushed).(
      head := Some(s.At(i).t), chain := [s.At(i).t] + s.chain, log := s.log + [s.At(i).t]);
  }

  /** A failed exchange reads the head again: with nobody in between the next one can succeed. */
  lemma RetryCanSucceed(s: State, i: Thread, a: State, b: State) returns (n: State)
    requires Step(s, Fail(i), a) && Step(a, Link(i), b)
    ensures Step(b, Swap(i), n) && Pushes(s, i, n)
  {
    n := SwapSucceeds(b, i);
  }

  /** The first load reads the head too: with nobody in between the first exchange can succeed. */
  lemma FirstTryCanSucceed(s: State, i: Thread, t: Id, a: State, b: State) returns (n: State)
    requires Step(s, Load(i, t), a) && Step(a, Link(i), b)
    ensures Step(b, Swap(i), n) && Pushes(a, i, n) && n.chain == [t] + s.chain
  {
    n := SwapSucceeds(b, i);
  }

  /** The poster links its task, and pushes it unless the head has moved. */
  lemma LinkAndSwap(ss: seq<State>, ls: seq<Label>, i: Thread) returns (ss': seq<State>, ls': seq<Label>)
    requires Run(ss, ls) && MayStep(ss[|ls|], i) && ss[|ls|].At(i).Loaded? && ss[|ls|].At(i).stale == ss[|ls|].head
    ensures Continues(ss, ls, ss', ls') && ls' == ls + [Link(i), Swap(i)] && Pushes(ss[|ls|], i, ss'[|ls'|])
  {
    var s := ss[|ls|];
    var t := s.At(i).t;
    var linked := s.Set(i, Linked(t, s.head)).(next := s.next[t := s.head]);
    ss', ls' := Extend(ss, ls, Link(i), linked);
    var n := SwapSucceeds(linked, i);
    ss', ls' := Extend(ss', ls', Swap(i), n);
    assert ls' == ls + [Link(i), Swap(i)];
  }

  /** From any point of any run, a post under way can be brought to its end by its own thread alone. */
  lemma PostCanLand(ss: seq<State>, ls: seq<Label>, i: Thread) returns (ss': seq<State>, ls': seq<Label>)
    requires Run(ss, ls) && InFlightAt(ss[|ls|], i) && MayStep(ss[|ls|], i)
    ensures Continues(ss, ls, ss', ls') && Pushes(ss[|ls|], i, ss'[|ls'|])
    ensures forall k | |ls| <= k < |ls'| :: Mover(ls'[k]) == Some(i)
  {
    var s := ss[|ls|];
    var t := s.At(i).t;
    ss', ls' := ss, ls;
    if s.At(i).Loaded? && s.At(i).stale != s.head {
      ss', ls' := Extend(ss', ls', Link(i), s.Set(i, Linked(t, s.At(i).stale)).(next := s.next[t := s.At(i).stale]));
    }
    var m := ss'[|ls'|];
    if m.At(i).Linked? {
      ss', ls' := Extend(ss', ls', Fail(i), m.Set(i, Loaded(t, m.head)));
    }
    ss', ls' := LinkAndSwap(ss', ls', i);
  }

  /** What the owner and the threads that have pushed can do, and nobody else has to. */
  ghost predicate SamePosts(s: State, n: State) {
    && n.posted == s.posted && n.At(OWNER) == s.At(OWNER)
    && (forall j, t :: Flying(n, j, t) <==> Flying(s, j, t))
  }

  lemma SameFlights(s: State, n: State)
    requires SamePosts(s, n)
    ensures InFlight(n) == InFlight(s)
  {
    forall t ensures t in InFlight(n) <==> t in InFlight(s) {
      InFlightIs(s, t);
      InFlightIs(n, t);
    }
  }

  /** The owner sorts all that it has taken from the inbox. */
  lemma {:induction false} SortAll(ss: seq<State>, ls: seq<Label>) returns (ss': seq<State>, ls': seq<Label>)
    requires Run(ss, ls) && ss[|ls|].owner.Draining?
    ensures Continues(ss, ls, ss', ls') && SamePosts(ss[|ls|], ss'[|ls'|])
    ensures var s, n := ss[|ls|], ss'[|ls'|];
            n.owner == Draining(None, s.owner.locked) && n.mutex == s.mutex && n.rest == [] && n.chain == s.chain
    decreases |ss[|ls|].rest|
  {
    ss', ls' := ss, ls;
    var s := ss[|ls|];
    RunInv(ss, ls, |ls|);
    if s.rest != [] {
      var t := s.rest[0];
      ChainPop(s.next, s.owner.cur, s.rest);
      var n := s.(runnable := s.runnable + multiset{t}, owner := Draining(s.next[t], s.owner.locked), rest := s.rest[1..]);
      ss', ls' := Extend(ss, ls, Sort(false), n);
      ss', ls' := SortAll(ss', ls');
    }
  }

  /** A thread that holds the mutex to notify lets go of it. */
  lemma FreeMutex(ss: seq<State>, ls: seq<Label>) returns (ss': seq<State>, ls': seq<Label>)
    requires Run(ss, ls) && ss[|ls|].owner == Signaled
    ensures Continues(ss, ls, ss', ls') && SamePosts(ss[|ls|], ss'[|ls'|])
    ensures ss'[|ls'|].owner == Signaled && ss'[|ls'|].mutex == Free
  {
    ss', ls' := ss, ls;
    RunInv(ss, ls, |ls|);
    if ss[|ls|].mutex.ByPoster? {
      var i := ss[|ls|].mutex.i;
      OwnerNeverNotifies(ss, ls, |ls|);
      assert HasMutex(ss[|ls|], i);
      if ss[|ls|].At(i) == Locked {
        ss', ls' := Extend(ss', ls', NotifyAll(i), ss[|ls|].Set(i, Notified));
      }
      var m := ss'[|ls'|];
      ss', ls' := Extend(ss', ls', Unlock(i), m.Set(i, Idle).(mutex := Free));
    }
  }

  /** The owner comes to run again, wherever it is. */
  lemma OwnerCanRun(ss: seq<State>, ls: seq<Label>) returns (ss': seq<State>, ls': seq<Label>)
    requires Run(ss, ls)
    ensures Continues(ss, ls, ss', ls') && ss'[|ls'|].owner == Running && SamePosts(ss[|ls|], ss'[|ls'|])
  {
    ss', ls' := ss, ls;
    OwnerNeverNotifies(ss, ls, |ls|);
    if ss[|ls|].owner == Holding || ss[|ls|].owner.Draining? {
      ss', ls' := OwnerCanFinish(ss, ls);
    }
    ss', ls' := OwnerCanWake(ss', ls');
  }

  lemma OwnerCanFinish(ss: seq<State>, ls: seq<Label>) returns (ss': seq<State>, ls': seq<Label>)
    requires Run(ss, ls) && (ss[|ls|].owner.Draining? || (ss[|ls|].owner == Holding && ss[|ls|].At(OWNER) == Idle))
    ensures Continues(ss, ls, ss', ls') && SamePosts(ss[|ls|], ss'[|ls'|])
    ensures ss'[|ls'|].owner == Running || ss'[|ls'|].owner == Parked
  {
    ss', ls' := ss, ls;
    if ss[|ls|].owner == Holding {
      ss', ls' := ExchangeOnce(ss, ls);
    }
    ss', ls' := SortAll(ss', ls');
    ss', ls' := FinishDequeue(ss', ls');
  }

  lemma Resumes(ss: seq<State>, ls: seq<Label>) returns (ss': seq<State>, ls': seq<Label>)
    requires Run(ss, ls) && ss[|ls|].owner == Signaled
    ensures Continues(ss, ls, ss', ls') && ss'[|ls'|].owner == Running && SamePosts(ss[|ls|], ss'[|ls'|])
  {
    ss', ls' := FreeMutex(ss, ls);
    var m := ss'[|ls'|];
    ss', ls' := Extend(ss', ls', Resume, m.(owner := Running));
    SameFlight(m, ss'[|ls'|]);
    assert SamePosts(m, ss'[|ls'|]);
  }

  lemma OwnerCanWake(ss: seq<State>, ls: seq<Label>) returns (ss': seq<State>, ls': seq<Label>)
    requires Run(ss, ls) && (ss[|ls|].owner == Running || ss[|ls|].owner == Parked || ss[|ls|].owner == Signaled)
    ensures Continues(ss, ls, ss', ls') && ss'[|ls'|].owner == Running && SamePosts(ss[|ls|], ss'[|ls'|])
  {
    var s := ss[|ls|];
    ss', ls' := ss, ls;
    if s.owner == Parked {
      ss', ls' := Extend(ss, ls, Wake, s.(owner := Signaled));
      SameFlight(s, ss'[|ls'|]);
      ss', ls' := Resumes(ss', ls');
    } else if s.owner == Signaled {
      ss', ls' := Resumes(ss, ls);
    }
  }

  lemma ExchangeOnce(ss: seq<State>, ls: seq<Label>) returns (ss': seq<State>, ls': seq<Label>)
    requires Run(ss, ls) && (ss[|ls|].owner == Running || ss[|ls|].owner == Holding) && ss[|ls|].At(OWNER) == Idle
    ensures Continues(ss, ls, ss', ls') && SamePosts(ss[|ls|], ss'[|ls'|])
    ensures ss'[|ls'|].owner.Draining? && ss'[|ls'|].chain == []
  {
    var s := ss[|ls|];
    ss', ls' := Extend(ss, ls, Exchange,
      s.(head := None, owner := Draining(s.head, s.owner == Holding), rest := s.chain, chain := []));
  }

  lemma FinishDequeue(ss: seq<State>, ls: seq<Label>) returns (ss': seq<State>, ls': seq<Label>)
    requires Run(ss, ls) && ss[|ls|].owner.Draining? && ss[|ls|].owner.cur == None
    ensures Continues(ss, ls, ss', ls') && SamePosts(ss[|ls|], ss'[|ls'|])
    ensures ss'[|ls'|].owner == Running || ss'[|ls'|].owner == Parked
  {
    var s := ss[|ls|];
    if s.runnable == multiset{} {
      ss', ls' := Extend(ss, ls, NothingToDo,
        if s.owner.locked then s.(owner := Parked, mutex := Free) else s.(owner := Running));
    } else {
      var t :| t in s.runnable;
      ss', ls' := TakeOne(ss, ls, t);
    }
  }

  lemma TakeOne(ss: seq<State>, ls: seq<Label>, t: Id) returns (ss': seq<State>, ls': seq<Label>)
    requires Run(ss, ls) && ss[|ls|].owner.Draining? && ss[|ls|].owner.cur == None
    requires t in ss[|ls|].scheduled || t in ss[|ls|].runnable
    ensures Continues(ss, ls, ss', ls') && SamePosts(ss[|ls|], ss'[|ls'|])
    ensures ss'[|ls'|].owner == Running && ss'[|ls'|].out == ss[|ls|].out + [t]
  {
    var s := ss[|ls|];
    var m := if t in s.scheduled then s.(scheduled := s.scheduled - multiset{t}) else s.(runnable := s.runnable - multiset{t});
    ss', ls' := Extend(ss, ls, Take(t), m.(out := s.out + [t], owner := Running, mutex := if s.owner.locked then Free else s.mutex));
  }

  /** A post of `t`, or one of the owner, is brought to its end if it is under way. */
  lemma LandIfFlying(ss: seq<State>, ls: seq<Label>, i: Thread) returns (ss': seq<State>, ls': seq<Label>)
    requires Run(ss, ls) && ss[|ls|].owner == Running
    ensures Continues(ss, ls, ss', ls') && ss'[|ls'|].owner == Running && !InFlightAt(ss'[|ls'|], i)
    ensures ss'[|ls'|].posted == ss[|ls|].posted
    ensures forall j | j != i :: ss'[|ls'|].At(j) == ss[|ls|].At(j)
  {
    ss', ls' := ss, ls;
    if InFlightAt(ss[|ls|], i) {
      ss', ls' := PostCanLand(ss, ls, i);
    }
  }

  /**
    Nothing gets stuck.  From any point of any run, whatever the threads are
    in the middle of, every task that some thread has begun to post can still
    be dequeued.
  */
  lemma EveryTaskCanBeDequeued(ss: seq<State>, ls: seq<Label>, t: Id) returns (ss': seq<State>, ls': seq<Label>)
    requires Run(ss, ls) && t in ss[|ls|].posted
    ensures Continues(ss, ls, ss', ls') && t in ss'[|ls'|].out
  {
    ss', ls' := OwnerCanRun(ss, ls);
    ss', ls' := LandIfFlying(ss', ls', OWNER);
    var m := ss'[|ls'|];
    InFlightIs(m, t);
    if t in InFlight(m) {
      var i :| Flying(m, i, t);
      RunInv(ss', ls', |ls'|);
      ss', ls' := LandIfFlying(ss', ls', i);
      assert forall j :: Flying(ss'[|ls'|], j, t) ==> Flying(m, j, t) && j != i;
    }
    OwnerNeverNotifies(ss', ls', |ls'|);
    InFlightIs(ss'[|ls'|], t);
    ss', ls' := ExchangeOnce(ss', ls');
    ss', ls' := SortAll(ss', ls');
    ss', ls' := TakeIfThere(ss', ls', t);
  }

  lemma TakeIfThere(ss: seq<State>, ls: seq<Label>, t: Id) returns (ss': seq<State>, ls': seq<Label>)
    requires Run(ss, ls) && ss[|ls|].owner.Draining? && ss[|ls|].owner.cur == None
    requires ss[|ls|].rest == [] && ss[|ls|].chain == [] && t in ss[|ls|].posted && forall j :: !Flying(ss[|ls|], j, t)
    ensures Continues(ss, ls, ss', ls') && t in ss'[|ls'|].out
  {
    var s := ss[|ls|];
    RunInv(ss, ls, |ls|);
    InFlightIs(s, t);
    assert t in Delivered(s);
    ss', ls' := ss, ls;
    if t !in s.out {
      ss', ls' := TakeOne(ss, ls, t);
    }
  }

  lemma OwnerParks() returns (ss: seq<State>, ls: seq<Label>)
    ensures Run(ss, ls) && ls == [Acquire, Exchange, NothingToDo]
    ensures ss[|ls|] == State(None, map[], map[], Free, Parked, multiset{}, multiset{}, [], {}, [], [], [])
  {
    var s := State(None, map[], map[], Free, Running, multiset{}, multiset{}, [], {}, [], [], []);
    ss, ls := [s], [];
    ss, ls := Extend(ss, ls, Acquire, s.(owner := Holding, mutex := ByOwner));
    ss, ls := Extend(ss, ls, Exchange, s.(owner := Draining(None, true), mutex := ByOwner));
    ss, ls := Extend(ss, ls, NothingToDo, s.(owner := Parked));
  }

  /** A thread that has pushed wakes a parked owner. */
  lemma PushedWakes(ss: seq<State>, ls: seq<Label>, i: Thread) returns (ss': seq<State>, ls': seq<Label>)
    requires Run(ss, ls) && ss[|ls|].owner == Parked && ss[|ls|].mutex == Free && ss[|ls|].At(i) == Pushed
    ensures Continues(ss, ls, ss', ls') && ls' == ls + [Lock(i), NotifyAll(i)]
    ensures ss'[|ls'|].owner == Signaled && ss'[|ls'|].chain == ss[|ls|].chain
  {
    var s := ss[|ls|];
    var m := s.Set(i, Locked).(mutex := ByPoster(i));
    ss', ls' := Extend(ss, ls, Lock(i), m);
    ss', ls' := Extend(ss', ls', NotifyAll(i), m.Set(i, Notified).(owner := Signaled));
    assert ls' == ls + [Lock(i), NotifyAll(i)];
  }

  /** The owner parks on an empty inbox, and the thread that then posts a task wakes it, without any other wake-up. */
  lemma PostWakesTheOwner(t: Id) returns (ss: seq<State>, ls: seq<Label>, parked: nat)
    ensures Run(ss, ls) && parked < |ls| && ss[parked].owner == Parked
    ensures ls[|ls| - 1] == NotifyAll(1) && ss[|ls|].owner == Signaled && ss[|ls|].chain == [t]
    ensures forall k | 0 <= k < |ls| :: !ls[k].Wake?
  {
    ss, ls := OwnerParks();
    parked := |ls|;
    ss, ls := Extend(ss, ls, Load(1, t), ss[|ls|].Set(1, Loaded(t, None)).(posted := {t}));
    var first := ls;
    ss, ls := PostCanLand(ss, ls, 1);
    var second := ls;
    forall k | 0 <= k < |second| ensures !second[k].Wake? {
      assert k < |first| ==> second[k] == first[k];
      assert k >= |first| ==> Mover(second[k]) == Some(1);
    }
    ss, ls := PushedWakes(ss, ls, 1);
  }
}
