/**
  The read-ahead reader of a TCP socket: a read takes what it can from the
  buffer, then from the socket, together with whatever else the socket has.
  Module SocketReader has the reader as a value; class ReadSide has the code.
*/
module SocketReader {
  import opened Wrappers

  datatype Reader = Reader(
    readBuf: seq<Byte>,
    readPos: nat,
    incoming: seq<Byte>,     // in the socket, or on its way there
    arrived: seq<Byte>,      // all that has come in
    delivered: seq<Byte>)    // all that read has returned

  datatype Event =
    | Arrive(data: seq<Byte>)
    | Read(size: nat, avail: nat)   // avail is what available() says

  const EMPTY := Reader([], 0, [], [], [])

  /** A read-ahead buffer that is used up is emptied. */
  predicate Sane(r: Reader) {
    r.readPos < |r.readBuf| || (r.readBuf == [] && r.readPos == 0)
  }

  function Held(r: Reader): seq<Byte>
    requires Sane(r)
  {
    r.readBuf[r.readPos..]
  }

  /** What reads will return. */
  function Rest(r: Reader): seq<Byte>
    requires Sane(r)
  {
    Held(r) + r.incoming
  }

  // ----- The width of the count -----

  const INT_LIMIT: nat := 0x8000_0000

  /** A size_t stored into an int. */
  function ToInt(n: nat): int {
    var low := n % 0x1_0000_0000;
    if low < INT_LIMIT then low else low - 0x1_0000_0000
  }

  /** The count survives exactly when it is less than 2^31. */
  lemma CountSurvives(n: nat)
    ensures ToInt(n) == n <==> n < INT_LIMIT
  {
  }

  // ----- One read -----

  /** `available` never says more than there is. */
  predicate Honest(r: Reader, avail: nat) {
    avail <= |r.incoming|
  }

  /** How many bytes a read takes out of the socket. */
  function Fetched(r: Reader, size: nat, avail: nat): nat
    requires Sane(r)
  {
    var held := |Held(r)|;
    if held > 0 && size <= held then 0
    else if avail >= size - held then avail
    else Min(size - held, |r.incoming|)
  }

  /**
    A read of `size` from the stream leaves the rest of it, whatever it took
    from where; a stream that is shorter than that is used up.
  */
  ghost predicate Reads(r: Reader, size: nat, avail: nat, v: Reader)
    requires Sane(r) && Honest(r, avail)
  {
    && Sane(v) && v.arrived == r.arrived && v.incoming == r.incoming[Fetched(r, size, avail)..]
    && if size <= |Rest(r)| then Rest(v) == Rest(r)[size..] && v.delivered == r.delivered + Rest(r)[..size]
       else Rest(v) == [] && v.delivered == r.delivered + Rest(r)
  }

  /** `was` with `data` written over it from `at`. */
  function Over(was: seq<Byte>, at: nat, data: seq<Byte>): (r: seq<Byte>)
    requires at + |data| <= |was|
    ensures |r| == |was|
    ensures forall i | 0 <= i < |was| :: r[i] == if at <= i < at + |data| then data[i - at] else was[i]
  {
    was[..at] + data + was[at + |data|..]
  }

  lemma OverTwice(was: seq<Byte>, a: seq<Byte>, b: seq<Byte>)
    requires |a| + |b| <= |was|
    ensures Over(Over(was, 0, a), |a|, b) == Over(was, 0, a + b)
  {
  }

  /** What was held, and then n bytes from the socket, is the front of the stream. */
  lemma FrontOfRest(r: Reader, size: nat, n: nat)
    requires Sane(r) && |Held(r)| <= size && n == Min(size - |Held(r)|, |r.incoming|)
    ensures |Held(r)| + n == Min(size, |Rest(r)|)
    ensures Rest(r)[..|Held(r)| + n] == Held(r) + r.incoming[..n] && Rest(r)[|Held(r)| + n..] == r.incoming[n..]
  {
  }

  lemma HeldSuffices(r: Reader, size: nat)
    requires Sane(r) && size <= |Held(r)|
    ensures Rest(r)[..size] == Held(r)[..size] && Rest(r)[size..] == Held(r)[size..] + r.incoming
  {
  }

  lemma HeldIsUsedUp(r: Reader, n: nat)
    requires Sane(r) && n <= |Held(r)|
    ensures n == |Held(r)| ==> Held(r)[..n] == Held(r) && Held(r)[n..] == []
  {
  }

  /** What a read owes its caller: the count, exactly the next bytes of the stream, and the rest for later. */
  ghost predicate Returned(r: Reader, size: nat, avail: nat, was: seq<Byte>, v: Reader, buf: seq<Byte>, count: Option<nat>)
    requires Sane(r) && Honest(r, avail) && size <= |was|
  {
    && Reads(r, size, avail, v)
    && count == (if size <= |Rest(r)| then Some(size) else None)
    && buf == Over(was, 0, Rest(r)[..Min(size, |Rest(r)|)])
  }

  /** What was held went to the front of the buffer, and then what `Fetch` does. */
  lemma FetchedReturns(r: Reader, size: nat, avail: nat, was: seq<Byte>, v: Reader, buf: seq<Byte>)
    requires Sane(r) && Honest(r, avail) && |Held(r)| <= size <= |was| && (|Held(r)| == size ==> size == 0)
    requires v.readPos == 0 && v.arrived == r.arrived && v.incoming == r.incoming[Fetched(r, size, avail)..]
    requires var n := Min(size - |Held(r)|, |r.incoming|);
             && v.readBuf + v.incoming == r.incoming[n..] && v.delivered == r.delivered + Held(r) + r.incoming[..n]
             && buf == Over(Over(was, 0, Held(r)), |Held(r)|, r.incoming[..n])
    ensures Returned(r, size, avail, was, v, buf, if size <= |Rest(r)| then Some(size) else None)
  {
    var n := Min(size - |Held(r)|, |r.incoming|);
    FrontOfRest(r, size, n);
    OverTwice(was, Held(r), r.incoming[..n]);
    AppendTwice(r.delivered, Held(r), r.incoming[..n]);
    assert Held(v) == v.readBuf;
    WholeOrPart(r, size);
  }

  lemma AppendTwice(a: seq<Byte>, b: seq<Byte>, c: seq<Byte>)
    ensures a + b + c == a + (b + c)
  {
  }

  lemma WholeOrPart(r: Reader, size: nat)
    requires Sane(r)
    ensures size >= |Rest(r)| ==> Rest(r)[..Min(size, |Rest(r)|)] == Rest(r) && Rest(r)[Min(size, |Rest(r)|)..] == []
  {
  }

  /** How much a read leaves in the socket, by the sizes alone. */
  function LeftInSocket(held: nat, incoming: nat, size: nat, avail: nat): int {
    if held > 0 && size <= held then incoming
    else if avail >= size - held then incoming - avail
    else if size - held <= incoming then incoming - (size - held)
    else 0
  }

  /** The same, byte by byte. */
  lemma ReturnedBytes(r: Reader, size: nat, avail: nat, was: seq<Byte>, v: Reader, buf: seq<Byte>, count: Option<nat>)
    requires Sane(r) && Honest(r, avail) && size <= |was| && Returned(r, size, avail, was, v, buf, count)
    ensures |buf| == |was| && (count == None <==> size > |Rest(r)|)
    ensures forall i | 0 <= i < |buf| :: buf[i] == if i < size && i < |Rest(r)| then Rest(r)[i] else was[i]
    ensures |v.incoming| == LeftInSocket(|Held(r)|, |r.incoming|, size, avail)
  {
  }

  datatype ReadResult = Got(count: nat) | Ended | CountLost

  class ReadSide {
    var readBuf: seq<Byte>
    var readPos: nat
    var lastAvail: nat
    var socket: seq<Byte>
    ghost var arrived: seq<Byte>
    ghost var delivered: seq<Byte>

    ghost function View(): Reader
      reads this
    {
      Reader(readBuf, readPos, socket, arrived, delivered)
    }

    ghost predicate Valid()
      reads this
    {
      Sane(View())
    }

    constructor ()
      ensures View() == EMPTY && Valid()
    {
      readBuf, readPos, lastAvail, socket, arrived, delivered := [], 0, 0, [], [], [];
    }

    /** Copies n bytes of the read-ahead buffer and moves on in it. */
    method TakeHeld(buf: array<Byte>, n: nat)
      requires Valid() && n <= |readBuf| - readPos && n <= buf.Length
      modifies this`readBuf, this`readPos, this`delivered, buf
      ensures Valid() && Held(View()) == old(Held(View()))[n..]
      ensures buf[..] == Over(old(buf[..]), 0, old(Held(View()))[..n])
      ensures forall i | 0 <= i < buf.Length :: buf[i] == if i < n then old(Held(View()))[i] else old(buf[i])
      ensures delivered == old(delivered) + old(Held(View()))[..n]
    {
      forall i | 0 <= i < n {
        buf[i] := readBuf[readPos + i];
      }
      delivered := delivered + readBuf[readPos..][..n];
      readPos := readPos + n;
      if readPos == |readBuf| {
        readBuf := [];
        readPos := 0;
      }
    }

    /** Reads n bytes from the socket into buf at `at`; fewer when the stream ends first. */
    method Receive(buf: array<Byte>, at: nat, n: nat) returns (got: nat)
      requires at + n <= buf.Length
      modifies this`socket, this`delivered, buf
      ensures got == Min(n, |old(socket)|) && socket == old(socket)[got..]
      ensures buf[..] == Over(old(buf[..]), at, old(socket)[..got])
      ensures forall i | 0 <= i < buf.Length :: buf[i] == if at <= i < at + got then old(socket)[i - at] else old(buf[i])
      ensures delivered == old(delivered) + old(socket)[..got]
    {
      got := Min(n, |socket|);
      forall i | 0 <= i < got {
        buf[at + i] := socket[i];
      }
      delivered := delivered + socket[..got];
      socket := socket[got..];
    }

    /** What is still missing comes from the socket, with whatever else that has. */
    method Fetch(buf: array<Byte>, done: nat, size: nat, avail: nat) returns (r: Option<nat>)
      requires readBuf == [] && readPos == 0 && Honest(View(), avail) && done <= size <= buf.Length
      modifies this`lastAvail, this`readBuf, this`socket, this`delivered, buf
      ensures r == if size - done <= |old(socket)| then Some(size) else None
      ensures socket == old(socket)[if avail >= size - done then avail else Min(size - done, |old(socket)|)..]
      ensures var n := Min(size - done, |old(socket)|);
              && readBuf + socket == old(socket)[n..] && delivered == old(delivered) + old(socket)[..n]
              && buf[..] == Over(old(buf[..]), done, old(socket)[..n])
    {
      lastAvail := avail;
      if lastAvail >= size - done {
        var ahead := lastAvail - (size - done);
        var _ := Receive(buf, done, size - done);
        readBuf := socket[..ahead];
        socket := socket[ahead..];
        return Some(size);
      }
      var got := Receive(buf, done, size - done);
      r := if got == size - done then Some(size) else None;
    }

    /** If any data is in the read-ahead buffer, that comes first; it may be enough.  A count that an int loses stops it. */
    method UseHeld(buf: array<Byte>, size: nat) returns (fits: bool, done: nat, enough: bool)
      requires Valid() && size <= buf.Length
      modifies this`readBuf, this`readPos, this`delivered, buf
      ensures fits <==> Min(|old(Held(View()))|, size) < INT_LIMIT
      ensures done == if fits then Min(|old(Held(View()))|, size) else 0
      ensures enough <==> fits && old(Held(View())) != [] && done == size
      ensures Valid() && Held(View()) == old(Held(View()))[done..]
      ensures buf[..] == Over(old(buf[..]), 0, old(Held(View()))[..done])
      ensures delivered == old(delivered) + old(Held(View()))[..done]
    {
      fits, done, enough := true, 0, false;
      if |readBuf| - readPos != 0 {
        var s := ToInt(Min(|readBuf| - readPos, size));
        if s != Min(|readBuf| - readPos, size) {
          fits := false;
          return;
        }
        TakeHeld(buf, s);
        done, enough := s, s == size;
      }
    }

    /** The read-ahead buffer was not enough: `v` and `was` are as the read found them. */
    method Complete(buf: array<Byte>, done: nat, size: nat, avail: nat, ghost v: Reader, ghost was: seq<Byte>) returns (r: Option<nat>)
      requires Sane(v) && Honest(v, avail) && done == |Held(v)| <= size <= |was| == buf.Length && (done == size ==> done == 0)
      requires readBuf == [] && readPos == 0 && socket == v.incoming && arrived == v.arrived
      requires delivered == v.delivered + Held(v) && buf[..] == Over(was, 0, Held(v))
      modifies this`lastAvail, this`readBuf, this`socket, this`delivered, buf
      ensures Returned(v, size, avail, was, View(), buf[..], r)
    {
      r := Fetch(buf, done, size, avail);
      FetchedReturns(v, size, avail, was, View(), buf[..]);
    }

    /**
      Returns `size` once that many bytes are in buf; the end of the stream
      before that is thrown.  With 2^31 bytes or more to copy from the
      read-ahead buffer the count is lost, and what follows is not modelled.
    */
    method Read(buf: array<Byte>, size: nat, avail: nat) returns (r: ReadResult)
      requires Valid() && Honest(View(), avail) && size <= buf.Length
      modifies this, buf
      ensures Valid() && (r == CountLost <==> Min(|old(Held(View()))|, size) >= INT_LIMIT)
      ensures r != CountLost ==>
        Returned(old(View()), size, avail, old(buf[..]), View(), buf[..], if r == Ended then None else Some(r.count))
      ensures r.Got? ==>
        && r.count == size <= |old(Rest(View()))|
        && (forall i | 0 <= i < size :: buf[i] == old(Rest(View()))[i])
        && (forall i | size <= i < buf.Length :: buf[i] == old(buf[i]))
      ensures r == Ended ==>
        && size > |old(Rest(View()))|
        && (forall i | 0 <= i < |old(Rest(View()))| :: buf[i] == old(Rest(View()))[i])
        && (forall i | |old(Rest(View()))| <= i < buf.Length :: buf[i] == old(buf[i]))
      ensures r != CountLost ==> |socket| == LeftInSocket(|old(Held(View()))|, |old(socket)|, size, avail)
      ensures r.Got? ==> Step(old(View()), Event.Read(size, avail), View())
    {
      ghost var v, was := View(), buf[..];
      var fits, done, enough := UseHeld(buf, size);
      ghost var count := None;
      if !fits {
        return CountLost;
      }
      if enough {
        HeldSuffices(v, size);
        r, count := Got(size), Some(size);
      } else {
        HeldIsUsedUp(v, done);
        var n := Complete(buf, done, size, avail, v, was);
        r, count := if n == None then Ended else Got(n.value), n;
      }
      ReturnedBytes(v, size, avail, was, View(), buf[..], count);
    }
  }

  // ----- Runs -----

  ghost predicate Step(r: Reader, e: Event, n: Reader) {
    match e
    case Arrive(data) => n == r.(incoming := r.incoming + data, arrived := r.arrived + data)
    case Read(size, avail) =>   // returns once it has its bytes
      Honest(r, avail) && (Sane(r) ==> size <= |Rest(r)| && Reads(r, size, avail, n))
  }

  ghost predicate Run(rs: seq<Reader>, es: seq<Event>) {
    && |rs| == |es| + 1 && rs[0] == EMPTY
    && forall k {:trigger es[k]} | 0 <= k < |es| :: Step(rs[k], es[k], rs[k + 1])
  }

  /** Bytes that have come in and not been returned are what reads will return. */
  predicate Inv(r: Reader) {
    Sane(r) && r.delivered + Rest(r) == r.arrived
  }

  lemma StepKeeps(r: Reader, e: Event, n: Reader)
    requires Inv(r) && Step(r, e, n)
    ensures Inv(n) && r.delivered <= n.delivered
  {
    var d, rest := r.delivered, Rest(r);
    if e.Arrive? {
      AppendTwice(Held(r), r.incoming, e.data);
      AppendTwice(d, rest, e.data);
    } else {
      AppendTwice(d, rest[..e.size], rest[e.size..]);
      assert rest[..e.size] + rest[e.size..] == rest;
    }
  }

  lemma {:induction false} RunInv(rs: seq<Reader>, es: seq<Event>, k: nat)
    requires Run(rs, es) && k < |rs|
    ensures Inv(rs[k])
  {
    if k > 0 {
      RunInv(rs, es, k - 1);
      assert Step(rs[k - 1], es[k - 1], rs[k]);
      StepKeeps(rs[k - 1], es[k - 1], rs[k]);
    }
  }

  // ----- The unbuffered reader -----

  /** A reader without a buffer: one stream, from whose front each read takes its bytes. */
  datatype Plain = Plain(stream: seq<Byte>, position: nat)

  function PlainStep(p: Plain, e: Event): Plain {
    match e
    case Arrive(data) => p.(stream := p.stream + data)
    case Read(size, _) => p.(position := p.position + size)
  }

  function PlainRun(es: seq<Event>): Plain {
    if es == [] then Plain([], 0) else PlainStep(PlainRun(es[..|es| - 1]), es[|es| - 1])
  }

  /**
    Whatever the sizes and whatever available() says, after any events the
    buffered reader has returned what an unbuffered one would have.
  */
  lemma {:induction false} ReaderRefinesPlain(rs: seq<Reader>, es: seq<Event>, k: nat)
    requires Run(rs, es) && k < |rs|
    ensures var p := PlainRun(es[..k]);
            Sane(rs[k]) && p.position <= |p.stream| && rs[k].delivered == p.stream[..p.position] && Rest(rs[k]) == p.stream[p.position..]
  {
    RunInv(rs, es, k);
    if k > 0 {
      ReaderRefinesPlain(rs, es, k - 1);
      RunInv(rs, es, k - 1);
      assert es[..k][..k - 1] == es[..k - 1];
      assert Step(rs[k - 1], es[k - 1], rs[k]);
      ArrivedIsStream(rs, es, k);
    }
  }

  lemma {:induction false} ArrivedIsStream(rs: seq<Reader>, es: seq<Event>, k: nat)
    requires Run(rs, es) && k < |rs|
    ensures rs[k].arrived == PlainRun(es[..k]).stream && |rs[k].delivered| == PlainRun(es[..k]).position
  {
    if k > 0 {
      ArrivedIsStream(rs, es, k - 1);
      RunInv(rs, es, k - 1);
      assert es[..k][..k - 1] == es[..k - 1];
      assert Step(rs[k - 1], es[k - 1], rs[k]);
    }
  }
}
