/**
  The result of a promise: what set_value, set_exception and the two reads in
  promise::wait do to m_error and m_value.
*/
module Completions {
  import opened Wrappers

  type Value = int
  datatype Error = FutureWaitTimeout | Raised(code: int)
  datatype Completion = SetValue(v: Value) | SetException(e: Error)
  datatype Outcome = Returns(v: Value) | Throws(e: Error) | ValueNotReady

  datatype PromState = PromState(error: Option<Error>, value: Option<Value>) {
    predicate Ready() {
      error.Some? || value.Some?
    }

    /** set_exception overwrites; set_value gives way to an error. */
    function Complete(c: Completion): PromState {
      match c
      case SetException(e) => this.(error := Some(e))
      case SetValue(v) => if error.Some? then this else this.(value := Some(v))
    }

    /** What a wait reads: an error before a value. */
    function Outcome(): Outcome {
      if error.Some? then Throws(error.value)
      else if value.Some? then Returns(value.value)
      else ValueNotReady
    }

    /** A wait that blocked clears the error it throws; one that did not block leaves it. */
    function Consumed(): PromState {
      this.(error := None)
    }
  }

  const PENDING := PromState(None, None)

  /** The state of a promise that nobody has consumed, from its completions in lock order. */
  function Fold(history: seq<Completion>): PromState {
    if history == [] then PENDING
    else Fold(history[..|history| - 1]).Complete(history[|history| - 1])
  }

  ghost predicate LastException(history: seq<Completion>, i: nat) {
    && i < |history| && history[i].SetException?
    && forall j | i < j < |history| :: history[j].SetValue?
  }

  ghost predicate NoException(history: seq<Completion>) {
    forall j | 0 <= j < |history| :: history[j].SetValue?
  }

  /** The last exception wins over every value, before or after it. */
  lemma {:induction false} ExceptionWins(history: seq<Completion>, i: nat)
    requires LastException(history, i)
    ensures Fold(history).Outcome() == Throws(history[i].e)
  {
    var front := history[..|history| - 1];
    if i < |front| {
      ExceptionWins(front, i);
    }
  }

  /** Without an exception the last value is returned. */
  lemma {:induction false} LastValueWins(history: seq<Completion>)
    requires NoException(history) && history != []
    ensures Fold(history) == PromState(None, Some(history[|history| - 1].v))
  {
    var front := history[..|history| - 1];
    if front != [] {
      LastValueWins(front);
    }
  }

  /** A value set after an error nobody consumed is ignored, however much follows. */
  lemma {:induction false} ValueAfterErrorIgnored(history: seq<Completion>, i: nat)
    requires i < |history| && history[i].SetException?
    ensures Fold(history).error.Some? && Fold(history).value == Fold(history[..i]).value
  {
    var front := history[..|history| - 1];
    if i < |front| {
      ValueAfterErrorIgnored(front, i);
      assert front[..i] == history[..i];
    }
  }

  /** A promise is ready as soon as anything completed it. */
  lemma {:induction false} FoldReady(history: seq<Completion>)
    ensures Fold(history).Ready() <==> history != []
  {
    if history != [] {
      FoldReady(history[..|history| - 1]);
    }
  }

  // ----- With waits in between -----

  /** What happens to a promise: it is completed, or a wait that had blocked returns. */
  datatype Act = Did(c: Completion) | Took

  function Play(acts: seq<Act>): PromState {
    if acts == [] then PENDING
    else match acts[|acts| - 1]
      case Did(c) => Play(acts[..|acts| - 1]).Complete(c)
      case Took => Play(acts[..|acts| - 1]).Consumed()
  }

  ghost predicate NothingTaken(acts: seq<Act>) {
    forall i | 0 <= i < |acts| :: acts[i].Did?
  }

  function Completed(acts: seq<Act>): seq<Completion> {
    if acts == [] then []
    else Completed(acts[..|acts| - 1]) + match acts[|acts| - 1] case Did(c) => [c] case Took => []
  }

  lemma PlayMore(acts: seq<Act>, a: Act)
    ensures Play(acts + [a]) == match a case Did(c) => Play(acts).Complete(c) case Took => Play(acts).Consumed()
    ensures Completed(acts + [a]) == Completed(acts) + match a case Did(c) => [c] case Took => []
  {
    assert (acts + [a])[..|acts|] == acts;
  }

  /** Until a wait has returned a promise holds the fold of its completions. */
  lemma {:induction false} PlayIsFold(acts: seq<Act>)
    requires NothingTaken(acts)
    ensures Play(acts) == Fold(Completed(acts)) && |Completed(acts)| == |acts|
  {
    if acts != [] {
      var front := acts[..|acts| - 1];
      PlayIsFold(front);
      assert Completed(acts)[..|front|] == Completed(front);
    }
  }

  /** The wait that returned has left no error and the value as it was, whatever came before. */
  lemma TookLeavesTheValue(acts: seq<Act>)
    ensures Play(acts + [Took]) == PromState(None, Play(acts).value)
  {
    PlayMore(acts, Took);
  }

  /** After it the last exception wins again, and without one the last value, or else the value that was left. */
  lemma {:induction false} PlayAfterTook(acts: seq<Act>, later: seq<Act>)
    requires NothingTaken(later)
    ensures var p, c := Play(acts + [Took] + later), Completed(later);
            && |c| == |later|
            && (NoException(c) ==> p == PromState(None, if c == [] then Play(acts).value else Some(c[|c| - 1].v)))
            && (forall i: nat | LastException(c, i) :: p.error == Some(c[i].e))
  {
    if later == [] {
      assert acts + [Took] + [] == acts + [Took];
      TookLeavesTheValue(acts);
    } else {
      var front, a := later[..|later| - 1], later[|later| - 1];
      PlayAfterTook(acts, front);
      assert acts + [Took] + later == acts + [Took] + front + [a];
      PlayMore(acts + [Took] + front, a);
      LaterOne(Play(acts + [Took] + front), Completed(front), a.c, Play(acts).value);
      assert Completed(later) == Completed(front) + [a.c];
    }
  }

  lemma LaterOne(p: PromState, cs: seq<Completion>, c: Completion, left: Option<Value>)
    requires NoException(cs) ==> p == PromState(None, if cs == [] then left else Some(cs[|cs| - 1].v))
    requires forall i: nat | LastException(cs, i) :: p.error == Some(cs[i].e)
    ensures var ds, q := cs + [c], p.Complete(c);
            && (NoException(ds) ==> q == PromState(None, Some(ds[|ds| - 1].v)))
            && (forall i: nat | LastException(ds, i) :: q.error == Some(ds[i].e))
  {
    var ds := cs + [c];
    if NoException(ds) {
      forall j | 0 <= j < |cs| ensures cs[j].SetValue? {
        assert ds[j] == cs[j];
      }
    }
    forall i: nat | LastException(ds, i) ensures p.Complete(c).error == Some(ds[i].e) {
      if i < |cs| {
        assert ds[|cs|] == c && c.SetValue?;
        forall j | i < j < |cs| ensures cs[j].SetValue? {
          assert ds[j] == cs[j];
        }
        assert LastException(cs, i);
      }
    }
  }
}
