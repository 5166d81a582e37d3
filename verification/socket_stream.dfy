/**
  Two sockets and the pipe between them: what one side writes, in whatever
  pieces, the other side reads, in whatever pieces.
*/
module SocketStream {
  import opened Wrappers
  import W = SocketWriter
  import R = SocketReader

  datatype Link = Link(w: W.Writer, r: R.Reader)

  datatype Event =
    | Writes(e: W.Event)                // the writer's side does something
    | Carry(n: nat)                     // the pipe delivers the next n bytes
    | Reads(size: nat, avail: nat)      // a read on the other side returns

  const EMPTY := Link(W.EMPTY, R.EMPTY)

  /** Bytes sent that have not come in. */
  function InPipe(s: Link): seq<Byte> {
    if s.r.arrived <= s.w.sent then s.w.sent[|s.r.arrived|..] else []
  }

  ghost predicate Step(s: Link, e: Event, n: Link) {
    match e
    case Writes(e) => W.Enabled(s.w, e) && (W.Sane(s.w) ==> n.w == W.Next(s.w, e)) && n.r == s.r
    case Carry(k) => k <= |InPipe(s)| && n.w == s.w && R.Step(s.r, R.Arrive(InPipe(s)[..k]), n.r)
    case Reads(size, avail) => n.w == s.w && R.Step(s.r, R.Read(size, avail), n.r)
  }

  ghost predicate Run(ss: seq<Link>, es: seq<Event>) {
    && |ss| == |es| + 1 && ss[0] == EMPTY
    && forall k {:trigger es[k]} | 0 <= k < |es| :: Step(ss[k], es[k], ss[k + 1])
  }

  predicate Inv(s: Link) {
    W.Inv(s.w) && R.Inv(s.r) && s.r.arrived <= s.w.sent
  }

  lemma NextSends(w: W.Writer, e: W.Event)
    requires W.Inv(w) && W.Enabled(w, e)
    ensures w.sent <= W.Next(w, e).sent
  {
  }

  lemma StepKeeps(s: Link, e: Event, n: Link)
    requires Inv(s) && Step(s, e, n)
    ensures Inv(n)
  {
    match e
    case Writes(e) =>
      W.NextKeeps(s.w, e);
      NextSends(s.w, e);
    case Carry(k) =>
      R.StepKeeps(s.r, R.Arrive(InPipe(s)[..k]), n.r);
      assert s.w.sent == s.r.arrived + InPipe(s);
    case Reads(size, avail) =>
      R.StepKeeps(s.r, R.Read(size, avail), n.r);
  }

  lemma {:induction false} RunInv(ss: seq<Link>, es: seq<Event>, k: nat)
    requires Run(ss, es) && k < |ss|
    ensures Inv(ss[k])
  {
    if k > 0 {
      RunInv(ss, es, k - 1);
      assert Step(ss[k - 1], es[k - 1], ss[k]);
      StepKeeps(ss[k - 1], es[k - 1], ss[k]);
    }
  }

  // ----- The writer's part of a run -----

  function WriterEvents(es: seq<Event>): seq<W.Event> {
    if es == [] then []
    else WriterEvents(es[..|es| - 1]) + match es[|es| - 1] case Writes(e) => [e] case _ => []
  }

  /** What the writer does in a run of the link is a run of the writer. */
  lemma {:induction false} Projection(ss: seq<Link>, es: seq<Event>, k: nat) returns (ws: seq<W.Writer>)
    requires Run(ss, es) && k < |ss|
    ensures W.Run(ws, WriterEvents(es[..k])) && ws[|ws| - 1] == ss[k].w
  {
    if k == 0 {
      ws := [W.EMPTY];
    } else {
      assert es[..k][..k - 1] == es[..k - 1];
      ws := Projection(ss, es, k - 1);
      RunInv(ss, es, k - 1);
      assert Step(ss[k - 1], es[k - 1], ss[k]);
      if es[k - 1].Writes? {
        var ds;
        ws, ds := W.Extend(ws, WriterEvents(es[..k - 1]), es[k - 1].e);
      }
    }
  }

  /** What write has been given. */
  function Written(es: seq<Event>): seq<Byte> {
    W.Written(WriterEvents(es))
  }

  ghost predicate NoFailure(es: seq<Event>) {
    W.NoFailure(WriterEvents(es))
  }

  lemma AllAccepted(ss: seq<Link>, es: seq<Event>, k: nat)
    requires Run(ss, es) && k < |ss| && NoFailure(es[..k])
    ensures ss[k].w.accepted == Written(es[..k])
  {
    var ws := Projection(ss, es, k);
    var ds := WriterEvents(es[..k]);
    assert ds[..|ds|] == ds;
    W.AllAccepted(ws, ds, |ds|);
  }

  /** All the bytes on their way, from the writer's call to the reader's. */
  function Underway(s: Link): seq<Byte>
    requires Inv(s)
  {
    R.Rest(s.r) + InPipe(s) + (W.InFlight(s.w) + W.Filling(s.w))
  }

  lemma NothingIsLost(s: Link)
    requires Inv(s)
    ensures s.r.delivered + Underway(s) == s.w.accepted
  {
    var d, r, p, u := s.r.delivered, R.Rest(s.r), InPipe(s), W.InFlight(s.w) + W.Filling(s.w);
    assert s.w.sent == s.r.arrived + p;
    assert s.w.sent + W.InFlight(s.w) + W.Filling(s.w) == s.w.sent + u;
    assert d + (r + p + u) == ((d + r) + p) + u;
  }

  /**
    End to end.  For every interleaving, every size of the writes and the
    reads, every part of a buffer the transport takes and every value of
    available(), what has been read is a prefix of what has been accepted,
    and the rest is on its way, in order; also when the transport fails.
    While it has not failed the bytes accepted are the bytes written, and
    when nothing is on its way everything written has been read.
  */
  lemma EndToEnd(ss: seq<Link>, es: seq<Event>, k: nat)
    requires Run(ss, es) && k < |ss|
    ensures Inv(ss[k]) && ss[k].r.delivered <= ss[k].w.accepted
    ensures ss[k].r.delivered + Underway(ss[k]) == ss[k].w.accepted
    ensures NoFailure(es[..k]) ==>
              ss[k].r.delivered <= Written(es[..k]) && (Underway(ss[k]) == [] <==> ss[k].r.delivered == Written(es[..k]))
  {
    RunInv(ss, es, k);
    NothingIsLost(ss[k]);
    if NoFailure(es[..k]) {
      AllAccepted(ss, es, k);
    }
  }

  /** The number of bytes asked for by the reads. */
  function Asked(es: seq<Event>): nat {
    if es == [] then 0
    else Asked(es[..|es| - 1]) + match es[|es| - 1] case Reads(size, _) => size case _ => 0
  }

  lemma {:induction false} AskedIsDelivered(ss: seq<Link>, es: seq<Event>, k: nat)
    requires Run(ss, es) && k < |ss|
    ensures |ss[k].r.delivered| == Asked(es[..k])
  {
    if k > 0 {
      assert es[..k][..k - 1] == es[..k - 1];
      AskedIsDelivered(ss, es, k - 1);
      RunInv(ss, es, k - 1);
      assert Step(ss[k - 1], es[k - 1], ss[k]);
    }
  }

  /** The n bytes that one read returns are the n bytes written at that place of the stream. */
  lemma EachReadIsAPiece(ss: seq<Link>, es: seq<Event>, k: nat)
    requires Run(ss, es) && k < |es| && es[k].Reads? && NoFailure(es[..k])
    ensures var from := Asked(es[..k]);
            && from + es[k].size <= |Written(es[..k])|
            && ss[k + 1].r.delivered == ss[k].r.delivered + Written(es[..k])[from..from + es[k].size]
  {
    EndToEnd(ss, es, k);
    EndToEnd(ss, es, k + 1);
    AllAccepted(ss, es, k);
    AskedIsDelivered(ss, es, k);
    assert Step(ss[k], es[k], ss[k + 1]);
    var d, w, n := ss[k].r.delivered, Written(es[..k]), es[k].size;
    assert ss[k + 1].r.delivered == d + R.Rest(ss[k].r)[..n];
    assert ss[k + 1].r.delivered <= w;
    assert ss[k + 1].r.delivered == w[..|d| + n];
    assert w[..|d| + n] == w[..|d|] + w[|d|..|d| + n];
  }

  // ----- What can still arrive -----

  ghost predicate Continues(ss: seq<Link>, es: seq<Event>, vs: seq<Link>, ds: seq<Event>) {
    Run(ss, es) && Run(vs, ds) && ss <= vs && es <= ds
  }

  lemma Extend(ss: seq<Link>, es: seq<Event>, e: Event, n: Link) returns (vs: seq<Link>, ds: seq<Event>)
    requires Run(ss, es) && Step(ss[|es|], e, n)
    ensures Continues(ss, es, vs, ds) && vs[|ds|] == n
  {
    vs, ds := ss + [n], es + [e];
    forall k | 0 <= k < |ds| ensures Step(vs[k], ds[k], vs[k + 1]) {
      assert k < |es| ==> ds[k] == es[k] && Step(ss[k], es[k], ss[k + 1]);
    }
  }

  /** The writer's loop runs to its end. */
  lemma {:induction false} Drain(ss: seq<Link>, es: seq<Event>) returns (vs: seq<Link>, ds: seq<Event>)
    requires Run(ss, es) && Inv(ss[|es|]) && !ss[|es|].w.loop.Broken?
    ensures Continues(ss, es, vs, ds) && Inv(vs[|ds|])
    ensures vs[|ds|].w.loop == W.Off && vs[|ds|].w.accepted == ss[|es|].w.accepted
    decreases W.LoopsLeft(ss[|es|].w)
  {
    vs, ds := ss, es;
    var s := ss[|es|];
    if s.w.loop != W.Off {
      W.LoopTurns(s.w);
      var e := if s.w.loop.Starting? then W.Start else W.Wrote(s.w.loop.size - s.w.loop.total);
      vs, ds := Extend(ss, es, Writes(e), s.(w := W.Next(s.w, e)));
      RunInv(vs, ds, |ds|);
      vs, ds := Drain(vs, ds);
    }
  }

  /** All that was sent comes in and is read, in one piece. */
  lemma Deliver(ss: seq<Link>, es: seq<Event>) returns (vs: seq<Link>, ds: seq<Event>)
    requires Run(ss, es) && Inv(ss[|es|])
    ensures Continues(ss, es, vs, ds) && vs[|ds|].r.delivered == ss[|es|].w.sent
  {
    var s := ss[|es|];
    var k := |InPipe(s)|;
    var come := s.r.(incoming := s.r.incoming + InPipe(s)[..k], arrived := s.r.arrived + InPipe(s)[..k]);
    assert come.arrived == s.w.sent;
    vs, ds := Extend(ss, es, Carry(k), s.(r := come));
    RunInv(vs, ds, |ds|);
    var rest := R.Rest(come);
    var read := R.Reader([], 0, [], come.arrived, come.delivered + rest);
    assert rest[..|rest|] == rest && rest[|rest|..] == [];
    assert R.Reads(come, |rest|, 0, read);
    vs, ds := Extend(vs, ds, Reads(|rest|, 0), s.(r := read));
  }

  lemma {:induction false} SentStays(ss: seq<Link>, es: seq<Event>, j: nat, k: nat)
    requires Run(ss, es) && j <= k < |ss| && ss[j].w.loop.Broken?
    ensures ss[k].w.loop.Broken? && ss[k].w.sent == ss[j].w.sent
  {
    if j < k {
      SentStays(ss, es, j, k - 1);
      RunInv(ss, es, k - 1);
      assert Step(ss[k - 1], es[k - 1], ss[k]);
    }
  }

  /**
    When written bytes can still be read.  From any point of any run some
    continuation has everything accepted so far read on the other side, if
    and only if the writer's loop has not failed or nothing is left to send.
  */
  lemma CanBeRead(ss: seq<Link>, es: seq<Event>)
    requires Run(ss, es)
    ensures (exists vs: seq<Link>, ds: seq<Event> :: Continues(ss, es, vs, ds) && ss[|es|].w.accepted <= vs[|ds|].r.delivered) <==>
            (!ss[|es|].w.loop.Broken? || ss[|es|].w.sent == ss[|es|].w.accepted)
  {
    var w := ss[|es|].w;
    RunInv(ss, es, |es|);
    if !w.loop.Broken? {
      var vs, ds := Drain(ss, es);
      NothingIsLost(vs[|ds|]);
      assert vs[|ds|].w.sent + [] + [] == vs[|ds|].w.sent;
      var us, cs := Deliver(vs, ds);
      assert Continues(ss, es, us, cs);
    } else if w.sent == w.accepted {
      var vs, ds := Deliver(ss, es);
      assert Continues(ss, es, vs, ds);
    } else {
      forall vs: seq<Link>, ds: seq<Event> | Continues(ss, es, vs, ds) ensures !(w.accepted <= vs[|ds|].r.delivered) {
        SentStays(vs, ds, |es|, |ds|);
        RunInv(vs, ds, |ds|);
        NothingIsLost(ss[|es|]);
        ReadWasSent(vs[|ds|]);
        SentWasAccepted(ss[|es|]);
      }
    }
  }

  lemma ReadWasSent(s: Link)
    requires Inv(s)
    ensures s.r.delivered <= s.w.sent
  {
  }

  lemma SentWasAccepted(s: Link)
    requires Inv(s)
    ensures s.w.sent <= s.w.accepted
  {
    W.Regroup(s.w.sent, W.InFlight(s.w), W.Filling(s.w));
  }
}
