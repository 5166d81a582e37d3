/**
  The buffered writer of a TCP socket: `write` fills one buffer while a
  background loop sends the other, and the two swap.  Module SocketWriter has
  the writer as a value, one event for each stretch that runs without giving
  way; class WriteSide has the code, proved against it.
*/
module SocketWriter {
  import opened Wrappers

  /** Where write_loop stands; `idx` is its own copy of the buffer index. */
  datatype Loop =
    | Off
    | Starting(idx: nat)                            // posted, has not run
    | Sending(idx: nat, total: nat, size: nat)      // waits for the transport
    | Broken(idx: nat, total: nat)                  // left by an error

  datatype Writer = Writer(
    bufs: seq<seq<Byte>>,      // write_buf
    cur: Option<nat>,          // cur_write_buf, as an index into write_buf
    curIdx: nat,               // cur_wbuf_idx
    error: bool,               // write_complete holds an error
    flushing: bool,            // a flush is blocked on write_complete
    loop: Loop,
    sent: seq<Byte>,           // what the transport has taken
    accepted: seq<Byte>)       // what write has taken

  datatype Event =
    | Write(data: seq<Byte>)
    | Start
    | Wrote(n: nat)            // the transport took n more bytes
    | Fail(n: nat)             // it took n more bytes, then reported an error
    | FlushWaits               // a flush finds write_complete not ready and blocks
    | FlushThrows              // that flush wakes and throws the error, which clears it

  const EMPTY := Writer([[], []], None, 0, false, false, Off, [], [])

  function Other(i: nat): nat {
    (i + 1) % 2
  }

  /**
    At most one flush waits at a time.  A flush that finds a value or an
    error answers at once and changes nothing.
  */
  predicate Enabled(w: Writer, e: Event) {
    match e
    case Write(_) => true
    case Start => w.loop.Starting?
    case Wrote(n) => w.loop.Sending? && n <= w.loop.size - w.loop.total
    case Fail(n) => w.loop.Sending? && n <= w.loop.size - w.loop.total
    case FlushWaits => w.loop != Off && !w.error && !w.flushing
    case FlushThrows => w.error && w.flushing
  }

  /** What has to hold for the code to be defined: indices in range, pointers set, front() of something. */
  predicate Sane(w: Writer) {
    && |w.bufs| == 2 && w.curIdx < 2 && (w.cur.Some? ==> w.cur.value < 2)
    && match w.loop
       case Off => true
       case Starting(idx) => idx < 2 && w.cur.Some?
       case Sending(idx, total, size) => idx < 2 && total <= size <= |w.bufs[idx]| && w.cur.Some?
       case Broken(idx, total) => idx < 2 && total <= |w.bufs[idx]|
  }

  function Accept(w: Writer, data: seq<Byte>): Writer
    requires Sane(w)
  {
    if w.error || data == [] then w
    else if w.cur.Some? then
      w.(bufs := w.bufs[w.cur.value := w.bufs[w.cur.value] + data], accepted := w.accepted + data)
    else
      w.(bufs := w.bufs[0 := w.bufs[0] + data], accepted := w.accepted + data, loop := Starting(0), curIdx := 1, cur := Some(1))
  }

  function Sent(w: Writer, n: nat): seq<Byte>
    requires Sane(w) && w.loop.Sending? && n <= w.loop.size - w.loop.total
  {
    w.sent + w.bufs[w.loop.idx][w.loop.total..w.loop.total + n]
  }

  /** The buffer is through: swap if the other one has bytes, stop otherwise. */
  function Swap(w: Writer): Writer
    requires Sane(w) && w.loop.Sending?
  {
    var i := w.loop.idx;
    var bufs := w.bufs[i := []];
    if bufs[w.cur.value] != [] then
      var c := Other(w.curIdx);
      w.(bufs := bufs, curIdx := c, cur := Some(c), loop := Sending(Other(i), 0, |bufs[Other(i)]|))
    else
      w.(bufs := bufs, curIdx := 0, cur := None, loop := Off, flushing := false)
  }

  function Next(w: Writer, e: Event): Writer
    requires Sane(w) && Enabled(w, e)
  {
    match e
    case Write(data) => Accept(w, data)
    case Start => w.(loop := Sending(w.loop.idx, 0, |w.bufs[w.loop.idx]|))
    case Wrote(n) =>
      var v := w.(sent := Sent(w, n), loop := Sending(w.loop.idx, w.loop.total + n, w.loop.size));
      if v.loop.total < v.loop.size then v else Swap(v)
    case Fail(n) => w.(sent := Sent(w, n), loop := Broken(w.loop.idx, w.loop.total + n), error := true)
    case FlushWaits => w.(flushing := true)
    case FlushThrows => w.(error := false, flushing := false)
  }

  // ----- The discipline of the two buffers -----

  /** Bytes on their way out that the transport has not taken. */
  function InFlight(w: Writer): seq<Byte>
    requires Sane(w)
  {
    match w.loop
    case Off => []
    case Starting(idx) => w.bufs[idx]
    case Sending(idx, total, _) => w.bufs[idx][total..]
    case Broken(idx, total) => w.bufs[idx][total..]
  }

  function Filling(w: Writer): seq<Byte>
    requires Sane(w)
  {
    if w.cur.Some? then w.bufs[w.cur.value] else []
  }

  /**
    While a loop is live the filling index is the other one than the loop's;
    a loop that is about to send has something to send; and when no loop is
    live both buffers are empty and the pointer is null.
  */
  predicate Disciplined(w: Writer) {
    && Sane(w) && (w.error ==> w.loop.Broken?)
    && (w.cur.Some? ==> w.cur.value == w.curIdx)
    && match w.loop
       case Off => w.cur == None && w.curIdx == 0 && w.bufs == [[], []] && !w.flushing
       case Starting(idx) => w.cur == Some(Other(idx)) && idx == 0 && w.bufs[idx] != []
       case Sending(idx, total, size) => w.cur == Some(Other(idx)) && total < size == |w.bufs[idx]|
       case Broken(idx, _) => w.cur == Some(Other(idx))
  }

  /** Sent, in flight and filling are all bytes accepted, in order. */
  predicate Fifo(w: Writer)
    requires Sane(w)
  {
    w.sent + InFlight(w) + Filling(w) == w.accepted
  }

  predicate Inv(w: Writer) {
    Disciplined(w) && Fifo(w)
  }

  lemma AcceptKeeps(w: Writer, data: seq<Byte>)
    requires Inv(w)
    ensures Inv(Accept(w, data))
    ensures w.loop.Sending? || w.loop.Broken? ==>
              Accept(w, data).loop == w.loop && Accept(w, data).bufs[w.loop.idx] == w.bufs[w.loop.idx]
  {
    var n := Accept(w, data);
    if n != w {
      if w.cur.Some? {
        assert n.sent + InFlight(n) + (Filling(w) + data) == (w.sent + InFlight(w) + Filling(w)) + data;
      } else {
        assert n.bufs[0] == data && n.bufs[1] == [];
        assert w.sent + [] + [] == w.sent;
        assert n.sent + InFlight(n) + Filling(n) == w.sent + data;
      }
    }
  }

  /** The first bytes of a buffer move over to what is sent. */
  lemma Shift(sent: seq<Byte>, s: seq<Byte>, a: nat, b: nat, filling: seq<Byte>)
    requires a <= b <= |s|
    ensures sent + s[a..b] + s[b..] + filling == sent + s[a..] + filling
  {
    assert s[a..b] + s[b..] == s[a..];
    assert sent + s[a..b] + s[b..] == sent + (s[a..b] + s[b..]);
  }

  lemma SentMore(w: Writer, n: nat)
    requires Inv(w) && w.loop.Sending? && n <= w.loop.size - w.loop.total
    ensures Sent(w, n) + w.bufs[w.loop.idx][w.loop.total + n..] + Filling(w) == w.accepted
  {
    Shift(w.sent, w.bufs[w.loop.idx], w.loop.total, w.loop.total + n, Filling(w));
  }

  lemma NextKeeps(w: Writer, e: Event)
    requires Inv(w) && Enabled(w, e)
    ensures Inv(Next(w, e))
  {
    match e {
      case Write(data) => AcceptKeeps(w, data);
      case Start =>
      case Wrote(n) =>
        SentMore(w, n);
        if w.loop.total + n == w.loop.size {
          SwapKeeps(w, n);
        }
      case Fail(n) => SentMore(w, n);
      case FlushWaits =>
      case FlushThrows =>
    }
  }

  lemma SwapKeeps(w: Writer, n: nat)
    requires Inv(w) && w.loop.Sending? && w.loop.total + n == w.loop.size
    ensures Inv(Next(w, Wrote(n)))
  {
    SentMore(w, n);
    var v, i := Next(w, Wrote(n)), w.loop.idx;
    var c := Other(i);
    assert Filling(w) == w.bufs[c] && v.bufs[i] == [] && v.bufs[c] == w.bufs[c];
    assert w.bufs[i][w.loop.total + n..] == [];
    assert v.sent + w.bufs[c] == w.accepted;
    if w.bufs[c] == [] {
      assert v.bufs == [[], []];
      assert v.sent + [] + [] == v.sent;
    } else {
      assert InFlight(v) == w.bufs[c] && Filling(v) == [];
    }
  }

  // ----- Runs -----

  /** Writes, loop steps and flushes in any interleaving, from a new socket. */
  ghost predicate Run(ws: seq<Writer>, es: seq<Event>) {
    && |ws| == |es| + 1 && ws[0] == EMPTY
    && forall k {:trigger es[k]} | 0 <= k < |es| ::
         Enabled(ws[k], es[k]) && (Sane(ws[k]) ==> ws[k + 1] == Next(ws[k], es[k]))
  }

  lemma {:induction false} RunInv(ws: seq<Writer>, es: seq<Event>, k: nat)
    requires Run(ws, es) && k < |ws|
    ensures Inv(ws[k])
  {
    if k > 0 {
      RunInv(ws, es, k - 1);
      assert Enabled(ws[k - 1], es[k - 1]);
      NextKeeps(ws[k - 1], es[k - 1]);
    }
  }

  /** The argument of every write, in order. */
  function Written(es: seq<Event>): seq<Byte> {
    if es == [] then []
    else Written(es[..|es| - 1]) + Data(es[|es| - 1])
  }

  ghost predicate NoFailure(es: seq<Event>) {
    forall e | e in es :: !e.Fail?
  }

  function Data(e: Event): seq<Byte> {
    match e case Write(data) => data case _ => []
  }

  lemma GoodStep(w: Writer, e: Event)
    requires Inv(w) && Enabled(w, e) && !e.Fail? && !w.loop.Broken?
    ensures Next(w, e).accepted == w.accepted + Data(e)
    ensures !Next(w, e).error && !Next(w, e).loop.Broken?
  {
  }

  lemma {:induction false} AllAccepted(ws: seq<Writer>, es: seq<Event>, k: nat)
    requires Run(ws, es) && k < |ws| && NoFailure(es[..k])
    ensures ws[k].accepted == Written(es[..k]) && !ws[k].loop.Broken?
  {
    if k > 0 {
      assert es[..k][..k - 1] == es[..k - 1];
      forall e | e in es[..k - 1] ensures !e.Fail? {
        assert e in es[..k];
      }
      AllAccepted(ws, es, k - 1);
      RunInv(ws, es, k - 1);
      assert Enabled(ws[k - 1], es[k - 1]) && es[k - 1] in es[..k];
      GoodStep(ws[k - 1], es[k - 1]);
    }
  }

  /**
    The writer is a FIFO.  Whatever the interleaving, what the transport has
    taken is a prefix of what write has accepted, also after an error; while
    nothing has failed that is everything written; and the loop stops, with
    both buffers empty, exactly when all of it has been sent.
  */
  lemma WriterIsFifo(ws: seq<Writer>, es: seq<Event>, k: nat)
    requires Run(ws, es) && k < |ws|
    ensures ws[k].sent <= ws[k].accepted
    ensures NoFailure(es[..k]) ==>
              ws[k].accepted == Written(es[..k]) && (ws[k].loop == Off <==> ws[k].sent == Written(es[..k]))
    ensures ws[k].loop == Off ==> ws[k].bufs == [[], []] && ws[k].cur == None
  {
    RunInv(ws, es, k);
    var w := ws[k];
    assert w.sent + InFlight(w) + Filling(w) == w.sent + (InFlight(w) + Filling(w));
    if NoFailure(es[..k]) {
      AllAccepted(ws, es, k);
    }
  }

  /** The arguments of the writes that did not throw. */
  function Taken(ws: seq<Writer>, es: seq<Event>, k: nat): seq<Byte>
    requires k <= |es| < |ws|
  {
    if k == 0 then []
    else Taken(ws, es, k - 1) + if ws[k - 1].error then [] else Data(es[k - 1])
  }

  /** The bytes the transport has reported, also those before an error. */
  function Reported(es: seq<Event>): nat {
    if es == [] then 0
    else Reported(es[..|es| - 1]) + match es[|es| - 1] case Wrote(n) => n case Fail(n) => n case _ => 0
  }

  /** A write that throws leaves everything as it was; one that does not takes all of its data. */
  lemma WriteTakesAllOrNothing(ws: seq<Writer>, es: seq<Event>, k: nat)
    requires Run(ws, es) && k < |es| && es[k].Write?
    ensures ws[k].error ==> ws[k + 1] == ws[k]
    ensures !ws[k].error ==> ws[k + 1].accepted == ws[k].accepted + es[k].data && ws[k + 1].sent == ws[k].sent
  {
    RunInv(ws, es, k);
  }

  lemma StepCounts(w: Writer, e: Event)
    requires Inv(w) && Enabled(w, e)
    ensures Next(w, e).accepted == w.accepted + if w.error then [] else Data(e)
    ensures |Next(w, e).sent| == |w.sent| + match e case Wrote(n) => n case Fail(n) => n case _ => 0
  {
  }

  lemma {:induction false} RunCounts(ws: seq<Writer>, es: seq<Event>, k: nat)
    requires Run(ws, es) && k < |ws|
    ensures ws[k].accepted == Taken(ws, es, k) && |ws[k].sent| == Reported(es[..k])
  {
    if k > 0 {
      assert es[..k][..k - 1] == es[..k - 1];
      RunCounts(ws, es, k - 1);
      RunInv(ws, es, k - 1);
      assert Enabled(ws[k - 1], es[k - 1]);
      StepCounts(ws[k - 1], es[k - 1]);
    }
  }

  /**
    Exactly what has been sent, in every run and after any errors: of the
    bytes of all writes that did not throw, the first so many as the
    transport has reported.
  */
  lemma SentExactly(ws: seq<Writer>, es: seq<Event>, k: nat)
    requires Run(ws, es) && k < |ws|
    ensures ws[k].accepted == Taken(ws, es, k) && Reported(es[..k]) <= |Taken(ws, es, k)|
    ensures ws[k].sent == Taken(ws, es, k)[..Reported(es[..k])]
  {
    RunCounts(ws, es, k);
    WriterIsFifo(ws, es, k);
  }

  /** What the transport has taken stays taken: `sent` only grows. */
  lemma {:induction false} SentGrows(ws: seq<Writer>, es: seq<Event>, j: nat, k: nat)
    requires Run(ws, es) && j <= k < |ws|
    ensures ws[j].sent <= ws[k].sent
  {
    if j < k {
      SentGrows(ws, es, j, k - 1);
      RunInv(ws, es, k - 1);
      assert Enabled(ws[k - 1], es[k - 1]);
    }
  }

  /**
    After an error no loop runs again.  A flush that was waiting clears the
    error, and from then on write accepts bytes that are never sent.
  */
  lemma {:induction false} BrokenForGood(ws: seq<Writer>, es: seq<Event>, j: nat, k: nat)
    requires Run(ws, es) && j <= k < |ws| && ws[j].loop.Broken?
    ensures ws[k].loop == ws[j].loop && ws[k].sent == ws[j].sent
  {
    if j < k {
      BrokenForGood(ws, es, j, k - 1);
      RunInv(ws, es, k - 1);
      assert Enabled(ws[k - 1], es[k - 1]);
    }
  }

  /**
    A flush waits, the writer fails, the flush takes the error, and a write
    is accepted again: its bytes are not sent, here or in any continuation.
  */
  lemma AcceptedNeverSent(first: seq<Byte>, second: seq<Byte>) returns (ws: seq<Writer>, es: seq<Event>)
    requires first != [] && second != []
    ensures Run(ws, es) && es == [Write(first), FlushWaits, Start, Fail(0), FlushThrows, Write(second)]
    ensures var w := ws[|es|]; !w.error && w.accepted == first + second && w.sent == []
    ensures forall vs: seq<Writer>, ds: seq<Event>, k: nat | Run(vs, ds) && |es| <= k < |vs| && vs[|es|] == ws[|es|] :: vs[k].sent == []
  {
    var w1 := Accept(EMPTY, first);
    var w2 := Next(w1, FlushWaits);
    var w3 := Next(w2, Start);
    var w4 := Next(w3, Fail(0));
    var w5 := Next(w4, FlushThrows);
    var w6 := Accept(w5, second);
    ws, es := [EMPTY, w1, w2, w3, w4, w5, w6], [Write(first), FlushWaits, Start, Fail(0), FlushThrows, Write(second)];
    forall vs: seq<Writer>, ds: seq<Event>, k: nat | Run(vs, ds) && |es| <= k < |vs| && vs[|es|] == ws[|es|] ensures vs[k].sent == [] {
      BrokenForGood(vs, ds, |es|, k);
    }
  }

  /** The transport took bytes of a buffer that no write has touched since the loop turned to it. */
  lemma {:induction false} InFlightUntouched(ws: seq<Writer>, es: seq<Event>, j: nat, k: nat)
    requires Run(ws, es) && j <= k < |ws| && ws[j].loop.Sending?
    requires forall i | j <= i < k :: es[i].Write?
    ensures Inv(ws[j]) && Inv(ws[k])
    ensures ws[k].loop == ws[j].loop && ws[k].bufs[ws[k].loop.idx] == ws[j].bufs[ws[j].loop.idx]
    ensures ws[k].sent == ws[j].sent
  {
    RunInv(ws, es, j);
    RunInv(ws, es, k);
    if j < k {
      InFlightUntouched(ws, es, j, k - 1);
      RunInv(ws, es, k - 1);
      assert es[k - 1].Write? && Enabled(ws[k - 1], es[k - 1]);
      AcceptKeeps(ws[k - 1], es[k - 1].data);
    }
  }

  // ----- What can still be sent -----

  /** One more event; the longer run starts like the shorter one. */
  lemma Extend(ws: seq<Writer>, es: seq<Event>, e: Event) returns (ws': seq<Writer>, es': seq<Event>)
    requires Run(ws, es) && Inv(ws[|es|]) && Enabled(ws[|es|], e)
    ensures Run(ws', es') && ws <= ws' && es' == es + [e] && ws'[|es'|] == Next(ws[|es|], e) && Inv(ws'[|es'|])
  {
    NextKeeps(ws[|es|], e);
    ws', es' := ws + [Next(ws[|es|], e)], es + [e];
    forall k | 0 <= k < |es'| ensures Enabled(ws'[k], es'[k]) && (Sane(ws'[k]) ==> ws'[k + 1] == Next(ws'[k], es'[k])) {
      assert k < |es| ==> es'[k] == es[k] && Enabled(ws[k], es[k]);
    }
  }

  ghost predicate Continues(ws: seq<Writer>, es: seq<Event>, vs: seq<Writer>, ds: seq<Event>) {
    Run(ws, es) && Run(vs, ds) && ws <= vs && es <= ds
  }

  /** How many times the loop still has to turn. */
  function LoopsLeft(w: Writer): nat
    requires Sane(w)
  {
    match w.loop
    case Starting(_) => 3
    case Sending(_, _, _) => if Filling(w) != [] then 2 else 1
    case _ => 0
  }

  lemma LoopTurns(w: Writer)
    requires Inv(w) && (w.loop.Starting? || w.loop.Sending?)
    ensures var e := if w.loop.Starting? then Start else Wrote(w.loop.size - w.loop.total);
            && Enabled(w, e) && Inv(Next(w, e)) && !Next(w, e).loop.Broken? && !Next(w, e).loop.Starting?
            && LoopsLeft(Next(w, e)) < LoopsLeft(w) && Next(w, e).accepted == w.accepted
  {
    var e := if w.loop.Starting? then Start else Wrote(w.loop.size - w.loop.total);
    NextKeeps(w, e);
    if w.loop.Sending? && Filling(w) != [] {
      assert Filling(Next(w, e)) == [];
    }
  }

  /** A transport that takes what it is given empties the writer, unless it has failed before. */
  lemma {:induction false} Drain(ws: seq<Writer>, es: seq<Event>) returns (vs: seq<Writer>, ds: seq<Event>)
    requires Run(ws, es) && Inv(ws[|es|]) && !ws[|es|].loop.Broken?
    ensures Continues(ws, es, vs, ds) && vs[|ds|].loop == Off && vs[|ds|].sent == ws[|es|].accepted
    decreases LoopsLeft(ws[|es|])
  {
    vs, ds := ws, es;
    var w := ws[|es|];
    if w.loop == Off {
      assert w.sent + [] + [] == w.sent;
    } else {
      LoopTurns(w);
      vs, ds := Extend(ws, es, if w.loop.Starting? then Start else Wrote(w.loop.size - w.loop.total));
      vs, ds := Drain(vs, ds);
    }
  }

  /**
    When accepted bytes can still be sent.  From any point of any run some
    continuation sends everything accepted so far, if and only if the loop
    has not been left by an error or there is nothing left to send.
  */
  lemma CanBeSent(ws: seq<Writer>, es: seq<Event>)
    requires Run(ws, es)
    ensures (exists vs: seq<Writer>, ds: seq<Event> :: Continues(ws, es, vs, ds) && ws[|es|].accepted <= vs[|ds|].sent) <==>
            (!ws[|es|].loop.Broken? || ws[|es|].sent == ws[|es|].accepted)
  {
    var w := ws[|es|];
    RunInv(ws, es, |es|);
    if !w.loop.Broken? {
      var vs, ds := Drain(ws, es);
      assert Continues(ws, es, vs, ds);
    } else {
      WriterIsFifo(ws, es, |es|);
      assert w.sent == w.accepted ==> Continues(ws, es, ws, es);
      forall vs: seq<Writer>, ds: seq<Event> | Continues(ws, es, vs, ds) ensures vs[|ds|].sent == w.sent {
        BrokenForGood(vs, ds, |es|, |ds|);
      }
    }
  }

  // ----- The loop against one script of the transport -----

  /** One blocking transport write: what other contexts write meanwhile, and how it ends. */
  datatype Turn = Turn(writes: seq<seq<Byte>>, takes: nat, fails: bool)

  function Result(w: Writer, t: Turn): Event
    requires w.loop.Sending? && w.loop.total <= w.loop.size
  {
    var n := Min(t.takes, w.loop.size - w.loop.total);
    if t.fails then Fail(n) else Wrote(n)
  }

  function AcceptAll(w: Writer, writes: seq<seq<Byte>>): (v: Writer)
    requires Inv(w)
    ensures Inv(v) && (w.loop.Sending? ==> v.loop == w.loop && v.bufs[w.loop.idx] == w.bufs[w.loop.idx])
    decreases |writes|
  {
    if writes == [] then w
    else
      AcceptKeeps(w, writes[0]);
      AcceptAll(Accept(w, writes[0]), writes[1..])
  }

  function TakeTurn(w: Writer, t: Turn): (v: Writer)
    requires Inv(w) && w.loop.Sending?
    ensures Inv(v) && !v.loop.Starting?
  {
    var a := AcceptAll(w, t.writes);
    NextKeeps(a, Result(a, t));
    Next(a, Result(a, t))
  }

  /** Where the turns take a loop that is sending; it may stop before the last one. */
  function Enact(w: Writer, turns: seq<Turn>): (v: Writer)
    requires Inv(w) && !w.loop.Starting?
    ensures Inv(v) && !v.loop.Starting?
    decreases |turns|
  {
    if turns == [] || !w.loop.Sending? then w else Enact(TakeTurn(w, turns[0]), turns[1..])
  }

  /** Where the turns lead once the transport has taken n more bytes. */
  function After(a: Writer, n: nat, turns: seq<Turn>): Writer
    requires Inv(a) && Enabled(a, Wrote(n))
  {
    NextKeeps(a, Wrote(n));
    Enact(Next(a, Wrote(n)), turns)
  }

  lemma MoreToSend(a: Writer, n: nat, turns: seq<Turn>)
    requires Inv(a) && Enabled(a, Wrote(n)) && a.loop.total + n < a.loop.size
    ensures var v := a.(sent := Sent(a, n), loop := Sending(a.loop.idx, a.loop.total + n, a.loop.size));
            Next(a, Wrote(n)) == v && Inv(v) && After(a, n, turns) == Enact(v, turns)
  {
    NextKeeps(a, Wrote(n));
  }

  /** The arguments of writes, one after the other. */
  function Joined(writes: seq<seq<Byte>>): seq<Byte> {
    if writes == [] then [] else Joined(writes[..|writes| - 1]) + writes[|writes| - 1]
  }

  /** All that other contexts write in the course of some turns, in the order of the script. */
  function Script(turns: seq<Turn>): seq<Byte> {
    if turns == [] then [] else Script(turns[..|turns| - 1]) + Joined(turns[|turns| - 1].writes)
  }

  lemma {:induction false} JoinedFirst(writes: seq<seq<Byte>>)
    requires writes != []
    ensures Joined(writes) == writes[0] + Joined(writes[1..])
  {
    var front, rest := writes[..|writes| - 1], writes[1..];
    if front != [] {
      JoinedFirst(front);
      assert rest[..|rest| - 1] == front[1..];
      assert writes[0] + Joined(front[1..]) + writes[|writes| - 1] == writes[0] + (Joined(front[1..]) + writes[|writes| - 1]);
    } else {
      assert writes[0] + [] == [] + writes[0];
    }
  }

  lemma {:induction false} ScriptFirst(turns: seq<Turn>)
    requires turns != []
    ensures Script(turns) == Joined(turns[0].writes) + Script(turns[1..])
  {
    var front, rest := turns[..|turns| - 1], turns[1..];
    var last := Joined(turns[|turns| - 1].writes);
    if front != [] {
      ScriptFirst(front);
      assert rest[..|rest| - 1] == front[1..];
      assert Joined(turns[0].writes) + Script(front[1..]) + last == Joined(turns[0].writes) + (Script(front[1..]) + last);
    } else {
      assert last + [] == [] + last;
    }
  }

  lemma Regroup<T>(a: seq<T>, b: seq<T>, c: seq<T>)
    ensures a + b + c == a + (b + c)
  {
  }

  lemma {:induction false} WrittenMore(a: seq<Event>, b: seq<Event>)
    ensures Written(a + b) == Written(a) + Written(b) && Reported(a + b) == Reported(a) + Reported(b)
  {
    if b == [] {
      assert a + b == a;
    } else {
      var front, e := b[..|b| - 1], b[|b| - 1];
      WrittenMore(a, front);
      assert (a + b)[..|a + b| - 1] == a + front;
      Regroup(Written(a), Written(front), Data(e));
    }
  }

  lemma WrittenOne(e: Event)
    ensures Written([e]) == Data(e) && Reported([e]) == match e case Wrote(n) => n case Fail(n) => n case _ => 0
  {
    assert [e][..0] == [];
  }

  function Writes(writes: seq<seq<Byte>>): seq<Event> {
    if writes == [] then [] else [Write(writes[0])] + Writes(writes[1..])
  }

  lemma {:induction false} WritesWritten(writes: seq<seq<Byte>>)
    ensures Written(Writes(writes)) == Joined(writes) && Reported(Writes(writes)) == 0
  {
    if writes != [] {
      WritesWritten(writes[1..]);
      WrittenOne(Write(writes[0]));
      WrittenMore([Write(writes[0])], Writes(writes[1..]));
      JoinedFirst(writes);
    }
  }

  lemma {:induction false} AcceptAllIsRun(ws: seq<Writer>, es: seq<Event>, writes: seq<seq<Byte>>) returns (ws': seq<Writer>)
    requires Run(ws, es) && Inv(ws[|es|])
    ensures Run(ws', es + Writes(writes)) && ws'[|ws'| - 1] == AcceptAll(ws[|es|], writes)
    decreases |writes|
  {
    if writes == [] {
      ws' := ws;
      assert es + Writes(writes) == es;
    } else {
      var es';
      ws', es' := Extend(ws, es, Write(writes[0]));
      ws' := AcceptAllIsRun(ws', es', writes[1..]);
      Regroup(es, [Write(writes[0])], Writes(writes[1..]));
    }
  }

  function TurnEvents(w: Writer, t: Turn): seq<Event>
    requires Inv(w) && w.loop.Sending?
  {
    Writes(t.writes) + [Result(w, t)]
  }

  /** The events of the turns that a loop comes to. */
  function Events(w: Writer, turns: seq<Turn>): seq<Event>
    requires Inv(w) && !w.loop.Starting?
    decreases |turns|
  {
    if turns == [] || !w.loop.Sending? then []
    else TurnEvents(w, turns[0]) + Events(TakeTurn(w, turns[0]), turns[1..])
  }

  /** What one turn does is a run: the writes of its script, and then the transport. */
  lemma TurnIsRun(ws: seq<Writer>, es: seq<Event>, t: Turn) returns (ws': seq<Writer>)
    requires Run(ws, es) && Inv(ws[|es|]) && ws[|es|].loop.Sending?
    ensures Run(ws', es + TurnEvents(ws[|es|], t)) && ws'[|ws'| - 1] == TakeTurn(ws[|es|], t)
  {
    ws' := AcceptAllIsRun(ws, es, t.writes);
    var es' := es + Writes(t.writes);
    Regroup(es, Writes(t.writes), [Result(ws[|es|], t)]);
    TakeTurnIs(ws[|es|], t);
    ws', es' := Extend(ws', es', Result(ws[|es|], t));
  }

  function Sum(s: seq<nat>): nat {
    if s == [] then 0 else s[0] + Sum(s[1..])
  }

  /** Of each turn the transport takes what it can, and only the last may fail. */
  ghost predicate Serves(turns: seq<Turn>, took: seq<nat>) {
    && |took| == |turns|
    && (forall i | 0 <= i < |turns| :: took[i] <= turns[i].takes && (turns[i].takes > 0 ==> took[i] > 0))
    && (forall i | 0 <= i < |turns| - 1 :: !turns[i].fails)
  }

  lemma ServesMore(t: Turn, n: nat, turns: seq<Turn>, took: seq<nat>)
    requires Serves(turns, took) && (turns != [] ==> !t.fails) && n <= t.takes && (t.takes > 0 ==> n > 0)
    ensures Serves([t] + turns, [n] + took) && Sum([n] + took) == n + Sum(took)
    ensures Script([t] + turns) == Joined(t.writes) + Script(turns)
  {
    ScriptFirst([t] + turns);
    assert ([t] + turns)[1..] == turns && ([n] + took)[1..] == took;
  }

  lemma {:induction false} AcceptAllTakes(w: Writer, writes: seq<seq<Byte>>)
    requires Inv(w) && w.loop.Sending?
    ensures AcceptAll(w, writes).accepted == w.accepted + Joined(writes) && AcceptAll(w, writes).sent == w.sent
    decreases |writes|
  {
    if writes == [] {
      assert w.accepted + [] == w.accepted;
    } else {
      AcceptKeeps(w, writes[0]);
      AcceptAllTakes(Accept(w, writes[0]), writes[1..]);
      JoinedFirst(writes);
      Regroup(w.accepted, writes[0], Joined(writes[1..]));
    }
  }

  lemma TurnTakes(w: Writer, t: Turn)
    requires Inv(w) && w.loop.Sending?
    ensures var n := Result(w, t).n;
            && TakeTurn(w, t).accepted == w.accepted + Joined(t.writes) && |TakeTurn(w, t).sent| == |w.sent| + n
            && n <= t.takes && (t.takes > 0 ==> n > 0)
  {
    AcceptAllTakes(w, t.writes);
    StepCounts(AcceptAll(w, t.writes), Result(w, t));
  }

  /** A loop at `w` has come to `v` by `used` of the turns: all of them, unless it is through or has failed. */
  ghost predicate Stops(w: Writer, v: Writer, turns: seq<Turn>, used: nat) {
    && used <= |turns| && (v.loop.Sending? ==> used == |turns|)
    && if w.loop.Sending? && used > 0 then v.loop.Broken? <==> turns[used - 1].fails else used == 0 && v == w
  }

  lemma StopsMore(w: Writer, v: Writer, turns: seq<Turn>, used: nat)
    requires Inv(w) && w.loop.Sending? && turns != [] && Stops(TakeTurn(w, turns[0]), v, turns[1..], used)
    ensures Stops(w, v, turns, used + 1)
    ensures used > 0 ==> !turns[0].fails
    ensures turns[..used + 1] == [turns[0]] + turns[1..][..used]
  {
    TakeTurnIs(w, turns[0]);
  }

  lemma TurnWritten(w: Writer, t: Turn)
    requires Inv(w) && w.loop.Sending?
    ensures Written(TurnEvents(w, t)) == Joined(t.writes) && Reported(TurnEvents(w, t)) == Result(w, t).n
  {
    WritesWritten(t.writes);
    WrittenOne(Result(w, t));
    WrittenMore(Writes(t.writes), [Result(w, t)]);
    assert Joined(t.writes) + [] == Joined(t.writes);
  }

  lemma EnactFirst(w: Writer, turns: seq<Turn>)
    requires Inv(w) && w.loop.Sending? && turns != []
    ensures Enact(w, turns) == Enact(TakeTurn(w, turns[0]), turns[1..])
    ensures Events(w, turns) == TurnEvents(w, turns[0]) + Events(TakeTurn(w, turns[0]), turns[1..])
  {
  }

  /** From `w` to `v` by the turns: what the loop has taken from its callers, and the transport from it. */
  ghost predicate Moves(w: Writer, v: Writer, turns: seq<Turn>, took: seq<nat>) {
    Serves(turns, took) && v.accepted == w.accepted + Script(turns) && |v.sent| == |w.sent| + Sum(took)
  }

  lemma MovesMore(w: Writer, v: Writer, t: Turn, turns: seq<Turn>, took: seq<nat>)
    requires Inv(w) && w.loop.Sending? && Moves(TakeTurn(w, t), v, turns, took) && (turns != [] ==> !t.fails)
    ensures Moves(w, v, [t] + turns, [Result(w, t).n] + took)
  {
    TurnTakes(w, t);
    ServesMore(t, Result(w, t).n, turns, took);
    Regroup(w.accepted, Joined(t.writes), Script(turns));
  }

  lemma WrittenTurn(w: Writer, t: Turn, evs: seq<Event>, turns: seq<Turn>, took: seq<nat>)
    requires Inv(w) && w.loop.Sending? && Written(evs) == Script(turns) && Reported(evs) == Sum(took)
    ensures Written(TurnEvents(w, t) + evs) == Script([t] + turns)
    ensures Reported(TurnEvents(w, t) + evs) == Sum([Result(w, t).n] + took)
  {
    TurnWritten(w, t);
    WrittenMore(TurnEvents(w, t), evs);
    ScriptFirst([t] + turns);
    assert ([t] + turns)[1..] == turns && ([Result(w, t).n] + took)[1..] == took;
  }

  lemma {:induction false} EnactPerforms(w: Writer, turns: seq<Turn>) returns (used: nat, took: seq<nat>)
    requires Inv(w) && !w.loop.Starting?
    ensures Stops(w, Enact(w, turns), turns, used) && Moves(w, Enact(w, turns), turns[..used], took)
    ensures Written(Events(w, turns)) == Script(turns[..used]) && Reported(Events(w, turns)) == Sum(took)
    decreases |turns|
  {
    if turns == [] || !w.loop.Sending? {
      used, took := 0, [];
      assert w.accepted + [] == w.accepted;
    } else {
      var t, rest := turns[0], turns[1..];
      var v := Enact(w, turns);
      EnactFirst(w, turns);
      used, took := EnactPerforms(TakeTurn(w, t), rest);
      StopsMore(w, v, turns, used);
      MovesMore(w, v, t, rest[..used], took);
      WrittenTurn(w, t, Events(TakeTurn(w, t), rest), rest[..used], took);
      used, took := used + 1, [Result(w, t).n] + took;
    }
  }

  lemma Outcome(w: Writer, v: Writer, turns: seq<Turn>, used: nat)
    requires Inv(w) && w.loop.Sending? && Inv(v) && Stops(w, v, turns, used)
    ensures v.sent <= v.accepted && (v.loop.Off? ==> v.sent == v.accepted)
    ensures v.loop.Off? ==> used > 0 && !turns[used - 1].fails
    ensures v.loop.Broken? ==> used > 0 && turns[used - 1].fails
    ensures v.loop.Sending? ==> used == |turns|
  {
    Regroup(v.sent, InFlight(v), Filling(v));
    assert v.loop.Off? ==> v.sent + [] + [] == v.sent;
  }

  /**
    What write_loop does between the writes of other contexts is a run of the
    events, which performs the first turns of its script; all of them, unless
    the loop is through or has failed.
  */
  lemma LoopIsRun(ws: seq<Writer>, es: seq<Event>, turns: seq<Turn>)
      returns (ws': seq<Writer>, evs: seq<Event>, used: nat, took: seq<nat>)
    requires Run(ws, es) && Inv(ws[|es|]) && !ws[|es|].loop.Starting?
    ensures Run(ws', es + evs) && ws'[|ws'| - 1] == Enact(ws[|es|], turns)
    ensures Stops(ws[|es|], ws'[|ws'| - 1], turns, used) && Serves(turns[..used], took)
    ensures Written(es + evs) == Written(es) + Script(turns[..used]) && Reported(es + evs) == Reported(es) + Sum(took)
  {
    evs := Events(ws[|es|], turns);
    ws' := EventsAreRun(ws, es, turns);
    used, took := EnactPerforms(ws[|es|], turns);
    WrittenMore(es, evs);
  }

  lemma {:induction false} EventsAreRun(ws: seq<Writer>, es: seq<Event>, turns: seq<Turn>) returns (ws': seq<Writer>)
    requires Run(ws, es) && Inv(ws[|es|]) && !ws[|es|].loop.Starting?
    ensures Run(ws', es + Events(ws[|es|], turns)) && ws'[|ws'| - 1] == Enact(ws[|es|], turns)
    decreases |turns|
  {
    var w := ws[|es|];
    if turns == [] || !w.loop.Sending? {
      ws' := ws;
      assert es + [] == es;
    } else {
      EnactFirst(w, turns);
      ws' := TurnIsRun(ws, es, turns[0]);
      ws' := EventsAreRun(ws', es + TurnEvents(w, turns[0]), turns[1..]);
      Regroup(es, TurnEvents(w, turns[0]), Events(TakeTurn(w, turns[0]), turns[1..]));
    }
  }

  lemma NoTurns(w: Writer, turns: seq<Turn>)
    requires Inv(w) && w.loop.Sending? && turns == []
    ensures Enact(w, turns) == w
  {
  }

  lemma TakeTurnIs(w: Writer, t: Turn)
    requires Inv(w) && w.loop.Sending?
    ensures var a, n := AcceptAll(w, t.writes), Min(t.takes, w.loop.size - w.loop.total);
            && Inv(a) && a.loop == w.loop && a.bufs[w.loop.idx] == w.bufs[w.loop.idx] && Enabled(a, Fail(n)) && Enabled(a, Wrote(n))
            && TakeTurn(w, t) == Next(a, if t.fails then Fail(n) else Wrote(n))
  {
  }

  lemma StoppedStays(w: Writer, turns: seq<Turn>)
    requires Inv(w) && (w.loop.Off? || w.loop.Broken?)
    ensures Enact(w, turns) == w
  {
  }

  lemma EnactOne(w: Writer, turns: seq<Turn>, used: nat)
    requires Inv(w) && w.loop.Sending? && used < |turns|
    ensures Enact(w, turns[used..]) == Enact(TakeTurn(w, turns[used]), turns[used + 1..])
    ensures turns[used].fails ==> Enact(w, turns[used..]) == TakeTurn(w, turns[used])
  {
    assert turns[used..][0] == turns[used] && turns[used..][1..] == turns[used + 1..];
    var t := turns[used];
    TakeTurnIs(w, t);
    if t.fails {
      assert TakeTurn(w, t).loop.Broken?;
      StoppedStays(TakeTurn(w, t), turns[used + 1..]);
    }
  }

  /** Both at once, for the transport write of one turn. */
  lemma TurnLeads(w: Writer, turns: seq<Turn>, used: nat)
    requires Inv(w) && w.loop.Sending? && used < |turns|
    ensures var a, n := AcceptAll(w, turns[used].writes), Min(turns[used].takes, w.loop.size - w.loop.total);
            && Inv(a) && a.loop == w.loop && a.bufs[w.loop.idx] == w.bufs[w.loop.idx] && Enabled(a, Wrote(n))
            && Enact(w, turns[used..]) == if turns[used].fails then Next(a, Fail(n)) else After(a, n, turns[used + 1..])
  {
    EnactOne(w, turns, used);
    TakeTurnIs(w, turns[used]);
  }

  /** How write_loop ends, if it does. */
  datatype LoopResult = Finished | Threw | Suspended

  datatype FlushStart = Returns | Throws | Blocks

  class WriteSide {
    const writeBuf: array<seq<Byte>>
    var curWriteBuf: Option<nat>
    var curWbufIdx: nat
    var error: bool
    var wire: seq<Byte>
    ghost var flushing: bool
    ghost var loop: Loop
    ghost var accepted: seq<Byte>

    ghost function View(): Writer
      reads this, writeBuf
    {
      Writer(writeBuf[..], curWriteBuf, curWbufIdx, error, flushing, loop, wire, accepted)
    }

    ghost predicate Valid()
      reads this, writeBuf
    {
      Inv(View())
    }

    constructor ()
      ensures View() == EMPTY && Valid() && fresh(writeBuf)
    {
      writeBuf := new seq<Byte>[2](_ => []);
      curWriteBuf, curWbufIdx, error, wire := None, 0, false, [];
      flushing, loop, accepted := false, Off, [];
      new;
      assert writeBuf[..] == [[], []];
    }

    /** Throws the error of the last loop, as None, or takes all of data. */
    method Write(data: seq<Byte>) returns (r: Option<nat>)
      requires Valid()
      modifies this, writeBuf
      ensures Valid() && View() == Next(old(View()), Event.Write(data))
      ensures r == if old(error) then None else Some(|data|)
      ensures old(error) ==> View() == old(View())
      ensures !old(error) ==> accepted == old(accepted) + data && wire == old(wire)
    {
      ghost var w := View();
      AcceptKeeps(w, data);
      if error {
        return None;
      }
      if data == [] {
        return Some(0);
      }
      var first := false;
      if curWriteBuf == None {
        first := true;
        curWbufIdx := 0;
        curWriteBuf := Some(curWbufIdx);
      }
      writeBuf[curWriteBuf.value] := writeBuf[curWriteBuf.value] + data;
      accepted := accepted + data;
      if first {
        loop := Starting(curWbufIdx);
        curWbufIdx := Other(curWbufIdx);
        curWriteBuf := Some(curWbufIdx);
      }
      r := Some(|data|);
      assert View() == Accept(w, data);
    }

    /**
      flush, up to where it blocks: on the promise of a loop that has not
      ended, which is there exactly while the buffer pointer is.
    */
    method Flush() returns (r: FlushStart)
      requires Valid() && !flushing
      modifies `flushing
      ensures Valid()
      ensures match r
              case Returns => old(View()).loop == Off && View() == old(View())
              case Throws => old(error) && View() == old(View())
              case Blocks => Enabled(old(View()), FlushWaits) && View() == Next(old(View()), FlushWaits)
    {
      r := if error then Throws else if curWriteBuf == None then Returns else Blocks;
      if r == Blocks {
        flushing := true;
      }
    }

    /** And once it wakes because the loop has failed. */
    method FlushFails()
      requires Valid() && error && flushing
      modifies `error, `flushing
      ensures Valid() && View() == Next(old(View()), FlushThrows)
    {
      error := false;
      flushing := false;
    }

    method WriteAll(writes: seq<seq<Byte>>)
      requires Valid()
      modifies this, writeBuf
      ensures Valid() && View() == AcceptAll(old(View()), writes)
    {
      ghost var w := View();
      var i := 0;
      while i < |writes|
        invariant 0 <= i <= |writes| && Valid()
        invariant AcceptAll(View(), writes[i..]) == AcceptAll(w, writes)
      {
        assert writes[i..][0] == writes[i] && writes[i..][1..] == writes[i + 1..];
        var _ := Write(writes[i]);
        i := i + 1;
      }
    }

    /** A transport write, which lets other contexts run. */
    method Transmit(buffer: seq<Byte>, t: Turn) returns (threw: bool, wrote: nat)
      requires Valid() && loop.Sending? && buffer == writeBuf[loop.idx][loop.total..]
      modifies this, writeBuf
      ensures var a := AcceptAll(old(View()), t.writes);
              && wrote == Min(t.takes, |buffer|) && threw == t.fails
              && View() == a.(sent := Sent(a, wrote))
    {
      WriteAll(t.writes);
      wrote := Min(t.takes, |buffer|);
      wire := wire + buffer[..wrote];
      threw := t.fails;
    }

    /** A transport write of n bytes has just finished the buffer that `a` was sending. */
    ghost predicate Through(a: Writer, idx: nat, n: nat)
      reads this, writeBuf
    {
      && Inv(a) && a.loop.Sending? && a.loop.idx == idx && n == a.loop.size - a.loop.total
      && View() == a.(sent := Sent(a, n))
    }

    /** The loop is about to send buffer idx, or has come to its end. */
    ghost predicate AtTop(idx: nat)
      reads this, writeBuf
    {
      && Valid()
      && if curWriteBuf == None then loop == Off else idx < 2 && loop == Sending(idx, 0, |writeBuf[idx]|) && writeBuf[idx] != []
    }

    /** How the writer is left when write_loop is: by its end, by an error, or still at work. */
    ghost predicate Left(r: LoopResult, end: Writer)
      reads this, writeBuf
    {
      && Valid() && View() == end
      && match r
         case Finished => loop == Off && curWriteBuf == None && writeBuf[..] == [[], []]
         case Threw => loop.Broken? && error
         case Suspended => loop.Sending?
    }

    /** Inside the inner loop: `buffer` is under way, and the turns to come lead to `end`. */
    ghost predicate AtInner(idx: nat, buffer: seq<Byte>, total: nat, rest: seq<Turn>, end: Writer)
      reads this, writeBuf
    {
      && Valid() && loop == Sending(idx, total, |buffer|) && writeBuf[idx] == buffer
      && Enact(View(), rest) == end
    }

    ghost predicate Done(a: Writer, idx: nat, n: nat, rest: seq<Turn>, end: Writer)
      reads this, writeBuf
    {
      Through(a, idx, n) && After(a, n, rest) == end
    }

    /** The error of a transport write leaves the loop and ends up in write_complete. */
    method Throw(ghost a: Writer, ghost n: nat)
      requires Inv(a) && Enabled(a, Fail(n)) && View() == a.(sent := Sent(a, n))
      modifies this
      ensures Left(Threw, Next(a, Fail(n)))
    {
      NextKeeps(a, Fail(n));
      error := true;
      loop := Broken(loop.idx, loop.total + n);
      assert View() == Next(a, Fail(n));
    }

    /** The buffer is sent: on to the other one, if there is something in it. */
    method TurnOver(idx: nat, ghost a: Writer, ghost n: nat, ghost rest: seq<Turn>, ghost end: Writer) returns (next: nat)
      requires Done(a, idx, n, rest, end)
      modifies this, writeBuf
      ensures AtTop(next) && View() == Next(a, Wrote(n)) && (curWriteBuf == None ==> writeBuf[..] == [[], []])
      ensures !loop.Starting? && Enact(View(), rest) == end
    {
      NextKeeps(a, Wrote(n));
      next := idx;
      writeBuf[idx] := [];
      if |writeBuf[curWriteBuf.value]| > 0 {
        curWbufIdx := Other(curWbufIdx);
        next := Other(next);
        curWriteBuf := Some(curWbufIdx);
        loop := Sending(next, 0, |writeBuf[next]|);
      } else {
        curWbufIdx := 0;
        curWriteBuf := None;
        loop, flushing := Off, false;
      }
      assert View() == Next(a, Wrote(n));
    }

    /** There may be more of this buffer to send. */
    ghost method GoOn(a: Writer, n: nat, buffer: seq<Byte>, rest: seq<Turn>, end: Writer)
      requires Inv(a) && Enabled(a, Wrote(n)) && View() == a.(sent := Sent(a, n))
      requires buffer == a.bufs[a.loop.idx] && After(a, n, rest) == end
      modifies this`loop
      ensures a.loop.total + n < |buffer| ==> AtInner(a.loop.idx, buffer, a.loop.total + n, rest, end)
      ensures a.loop.total + n == |buffer| ==> Done(a, a.loop.idx, n, rest, end)
    {
      if a.loop.total + n < a.loop.size {
        ghost var v := a.(sent := Sent(a, n), loop := Sending(a.loop.idx, a.loop.total + n, a.loop.size));
        MoreToSend(a, n, rest);
        loop := v.loop;
        assert View() == v;
      }
    }

    lemma EnterInner(idx: nat, rest: seq<Turn>, end: Writer)
      requires AtTop(idx) && curWriteBuf != None && Enact(View(), rest) == end
      ensures AtInner(idx, writeBuf[idx], 0, rest, end)
    {
    }

    lemma StayInner(idx: nat, buffer: seq<Byte>, total: nat, rest: seq<Turn>, end: Writer)
      requires AtInner(idx, buffer, total, rest, end) && rest == []
      ensures Left(Suspended, end)
    {
      NoTurns(View(), rest);
    }

    /** How the inner loop takes the end of a transport write. */
    method Take(threw: bool, buffer: seq<Byte>, ghost rest: seq<Turn>, ghost a: Writer, ghost n: nat, ghost end: Writer)
        returns (r: Option<LoopResult>)
      requires Inv(a) && Enabled(a, Wrote(n)) && View() == a.(sent := Sent(a, n)) && buffer == a.bufs[a.loop.idx]
      requires end == if threw then Next(a, Fail(n)) else After(a, n, rest)
      modifies this
      ensures writeBuf[..] == old(writeBuf[..])
      ensures r == if threw then Some(Threw) else None
      ensures threw ==> Left(Threw, end)
      ensures !threw && a.loop.total + n < |buffer| ==> AtInner(a.loop.idx, buffer, a.loop.total + n, rest, end)
      ensures !threw && a.loop.total + n == |buffer| ==> Done(a, a.loop.idx, n, rest, end)
    {
      if threw {
        Throw(a, n);
        return Some(Threw);
      }
      GoOn(a, n, buffer, rest, end);
      r := None;
    }

    /** One round of the inner loop. */
    method SendSome(idx: nat, buffer: seq<Byte>, total: nat, turns: seq<Turn>, used: nat, ghost end: Writer)
        returns (r: Option<LoopResult>, total': nat, ghost a: Writer, ghost n: nat)
      requires used < |turns| && AtInner(idx, buffer, total, turns[used..], end)
      modifies this, writeBuf
      ensures total' <= |buffer|
      ensures r != None ==> Left(r.value, end)
      ensures r == None && total' < |buffer| ==> AtInner(idx, buffer, total', turns[used + 1..], end)
      ensures r == None && total' == |buffer| ==> Done(a, idx, n, turns[used + 1..], end)
    {
      TurnLeads(View(), turns, used);
      a := AcceptAll(View(), turns[used].writes);
      var threw, wrote := Transmit(buffer[total..], turns[used]);
      total', n := total + wrote, wrote;
      r := Take(threw, buffer, turns[used + 1..], a, n, end);
    }

    /** The same, unless no turn is left. */
    method TryToSend(idx: nat, buffer: seq<Byte>, total: nat, turns: seq<Turn>, used: nat, ghost end: Writer)
        returns (r: Option<LoopResult>, total': nat, used': nat, ghost a: Writer, ghost n: nat)
      requires used <= |turns| && AtInner(idx, buffer, total, turns[used..], end)
      modifies this, writeBuf
      ensures total' <= |buffer| && used' == (if used < |turns| then used + 1 else used) && (used == |turns| ==> r != None)
      ensures r != None ==> Left(r.value, end)
      ensures r == None && total' < |buffer| ==> AtInner(idx, buffer, total', turns[used'..], end)
      ensures r == None && total' == |buffer| ==> Done(a, idx, n, turns[used'..], end)
    {
      if used == |turns| {
        StayInner(idx, buffer, total, turns[used..], end);
        r, total', used', a, n := Some(Suspended), |buffer|, used, View(), 0;
      } else {
        r, total', a, n := SendSome(idx, buffer, total, turns, used, end);
        used' := used + 1;
      }
    }

    /**
      The inner loop, one buffer: sent when it returns None, and then `n` is
      what the last write took of `a`.
    */
    method SendBuffer(idx: nat, turns: seq<Turn>, used: nat, ghost end: Writer)
        returns (r: Option<LoopResult>, used': nat, ghost a: Writer, ghost n: nat)
      requires AtTop(idx) && curWriteBuf != None && used <= |turns| && Enact(View(), turns[used..]) == end
      modifies this, writeBuf
      ensures used <= used' <= |turns| && (r == None ==> used < used')
      ensures r != None ==> Left(r.value, end)
      ensures r == None ==> Done(a, idx, n, turns[used'..], end)
    {
      EnterInner(idx, turns[used..], end);
      var buffer := writeBuf[idx];
      var total: nat := 0;
      used', a, n := used, View(), 0;
      while true
        invariant used <= used' <= |turns| && total < |buffer| && AtInner(idx, buffer, total, turns[used'..], end)
        decreases |turns| - used'
      {
        r, total, used', a, n := TryToSend(idx, buffer, total, turns, used', end);
        if r != None || total == |buffer| {
          return;
        }
      }
    }

    /** The outer loop's body: one buffer, and on to the other. */
    method SendAndTurn(idx: nat, turns: seq<Turn>, used: nat, ghost end: Writer)
        returns (r: Option<LoopResult>, used': nat, next: nat)
      requires AtTop(idx) && curWriteBuf != None && used <= |turns| && Enact(View(), turns[used..]) == end
      modifies this, writeBuf
      ensures used <= used' <= |turns|
      ensures r != None ==> Left(r.value, end)
      ensures r == None ==> used < used' && AtTop(next) && !loop.Starting? && Enact(View(), turns[used'..]) == end
    {
      ghost var a, n;
      next := idx;
      r, used', a, n := SendBuffer(idx, turns, used, end);
      if r != None {
        return;
      } else {
        next := TurnOver(idx, a, n, turns[used'..], end);
      }
    }

    /** The task that write posted begins to run. */
    ghost method Begin(start: nat)
      requires Valid() && loop == Starting(start)
      modifies this`loop
      ensures AtTop(start) && curWriteBuf != None && View() == Next(old(View()), Start)
    {
      NextKeeps(View(), Start);
      loop := Sending(start, 0, |writeBuf[start]|);
    }

    /**
      Sends until both buffers are empty, or the transport fails, or the turns
      are used up with the loop still waiting for the transport.
    */
    method WriteLoop(start: nat, turns: seq<Turn>) returns (r: LoopResult, ghost used: nat, ghost took: seq<nat>)
      requires Valid() && loop == Starting(start)
      modifies this, writeBuf
      ensures Left(r, Enact(Next(old(View()), Start), turns))
      ensures used <= |turns| && Serves(turns[..used], took)
      ensures accepted == old(accepted) + Script(turns[..used])
      ensures wire <= accepted && |wire| == |old(wire)| + Sum(took)
      ensures match r
              case Finished => used > 0 && !turns[used - 1].fails && wire == accepted
              case Threw => used > 0 && turns[used - 1].fails
              case Suspended => used == |turns|
    {
      var idx, i := start, 0;
      Begin(start);
      ghost var end := Enact(View(), turns);
      used, took := EnactPerforms(View(), turns);
      Outcome(View(), end, turns, used);
      assert turns[i..] == turns;
      while true
        invariant i <= |turns| && AtTop(idx) && curWriteBuf != None && Enact(View(), turns[i..]) == end
        decreases |turns| - i
      {
        var left;
        left, i, idx := SendAndTurn(idx, turns, i, end);
        if left != None {
          r := left.value;
          return;
        }
        if curWriteBuf == None {
          assert View() == end;
          r := Finished;
          return;
        }
      }
    }
  }
}
