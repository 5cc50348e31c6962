/** A connection's requests (`http.rs`): heads and bodies taken from a stream of bytes
    that arrives in pieces of any size (section 6.3 of RFC 9112). */
module HttpFraming {
  import opened Wrappers

  type Byte = n: nat | n < 256

  const MAX_HEAD := 16384
  const READ := 4096
  const CR: Byte := 13
  const LF: Byte := 10
  const BREAK: seq<Byte> := [CR, LF, CR, LF]

  predicate BreakAt(s: seq<Byte>, i: int) {
    0 <= i && i + 4 <= |s| && s[i..i + 4] == BREAK
  }

  /** `find_head_end`: where the first empty line begins. */
  function HeadEnd(s: seq<Byte>): (r: Option<nat>)
    ensures r.Some? ==> r.value + 4 <= |s|
  {
    if |s| < 4 then None
    else if s[..4] == BREAK then Some(0)
    else
      match HeadEnd(s[1..])
      case None => None
      case Some(i) => Some(i + 1)
  }

  lemma {:induction false} HeadEndFirst(s: seq<Byte>)
    ensures HeadEnd(s).Some? ==> BreakAt(s, HeadEnd(s).value)
    ensures forall i :: BreakAt(s, i) ==> HeadEnd(s).Some? && HeadEnd(s).value <= i
    decreases |s|
  {
    if |s| >= 4 && s[..4] != BREAK {
      HeadEndFirst(s[1..]);
      assert !BreakAt(s, 0);
      forall i | BreakAt(s, i) ensures BreakAt(s[1..], i - 1) {
        assert i > 0;
        assert s[1..][i - 1..i + 3] == s[i..i + 4];
      }
      if HeadEnd(s[1..]).Some? {
        var j := HeadEnd(s[1..]).value;
        assert s[1..][j..j + 4] == s[j + 1..j + 5];
      }
    }
  }

  /** Bytes that come later do not move a head's end, and show none within what came before. */
  lemma HeadEndLater(s: seq<Byte>, more: seq<Byte>)
    ensures HeadEnd(s).Some? ==> HeadEnd(s + more) == HeadEnd(s)
    ensures HeadEnd(s) == None && HeadEnd(s + more).Some? ==> HeadEnd(s + more).value + 4 > |s|
  {
    hide HeadEnd;
    HeadEndFirst(s);
    HeadEndFirst(s + more);
    forall i | 0 <= i && i + 4 <= |s| ensures BreakAt(s, i) <==> BreakAt(s + more, i) {
      assert (s + more)[i..i + 4] == s[i..i + 4];
    }
  }

  // ---------------------------------------------------------------- reading, by its splits

  datatype Read = Head(head: seq<Byte>) | Body(body: seq<Byte>) | TooLarge | Closed | Dropped

  /** What a read leaves: the bytes kept, those not arrived yet, and the sizes of the
      pieces they will arrive in. */
  datatype Left = Left(read: Read, buf: seq<Byte>, rest: seq<Byte>, sizes: seq<nat>)

  function Min(a: nat, b: nat): nat {
    if a < b then a else b
  }

  /** One read from the socket takes at most `most` bytes, as many as have arrived; none
      when the client closed or its time is up. */
  function Taken(rest: seq<Byte>, sizes: seq<nat>, most: nat): (n: nat)
    ensures n <= |rest| && n <= most
  {
    if sizes == [] then 0 else Min(sizes[0], Min(most, |rest|))
  }

  function Tail(sizes: seq<nat>): seq<nat> {
    if sizes == [] then [] else sizes[1..]
  }

  /** What `read_request_waiting` reads. */
  function HeadRead(buf: seq<Byte>, rest: seq<Byte>, sizes: seq<nat>): Left
    decreases |rest|
  {
    var end := HeadEnd(buf);
    if end.Some? then
      if end.value > MAX_HEAD then Left(TooLarge, buf, rest, sizes)
      else Left(Head(buf[..end.value]), buf[end.value + 4..], rest, sizes)
    else if |buf| > MAX_HEAD then Left(TooLarge, buf, rest, sizes)
    else
      var n := Taken(rest, sizes, READ);
      if n == 0 then Left(if buf == [] then Closed else Dropped, buf, rest, Tail(sizes))
      else HeadRead(buf + rest[..n], rest[n..], Tail(sizes))
  }

  /** What `read_body` reads: no more than the body from the socket. */
  function BodyRead(buf: seq<Byte>, rest: seq<Byte>, sizes: seq<nat>, len: nat): Left
    decreases |rest|
  {
    if |buf| >= len then Left(Body(buf[..len]), buf[len..], rest, sizes)
    else
      var n := Taken(rest, sizes, Min(4 * READ, len - |buf|));
      if n == 0 then Left(Dropped, buf, rest, Tail(sizes))
      else BodyRead(buf + rest[..n], rest[n..], Tail(sizes), len)
  }

  /** What the server makes of a head: it refuses it, or takes its body and goes on, or
      closes the connection after it. */
  datatype Plan = Refuse | Take(len: nat, keep: bool)

  datatype Frame = Frame(head: seq<Byte>, body: seq<Byte>)

  /** How a connection ends. */
  datatype Ending = Lost | Large | Refused | Done

  /** `Conn` over a socket whose bytes still to come and their pieces are known. */
  class Conn {
    var buf: seq<Byte>
    var rest: seq<Byte>
    var sizes: seq<nat>

    constructor (stream: seq<Byte>, pieces: seq<nat>)
      ensures buf == [] && rest == stream && sizes == pieces
    {
      buf, rest, sizes := [], stream, pieces;
    }

    /** `TcpStream::read`. */
    method Receive(most: nat) returns (chunk: seq<Byte>)
      modifies this`rest, this`sizes
      ensures chunk == old(rest)[..Taken(old(rest), old(sizes), most)]
      ensures rest == old(rest)[|chunk|..] && sizes == Tail(old(sizes))
    {
      var n := Taken(rest, sizes, most);
      chunk, rest, sizes := rest[..n], rest[n..], Tail(sizes);
    }

    method ReadRequest() returns (r: Read)
      modifies this
      ensures Left(r, buf, rest, sizes) == HeadRead(old(buf), old(rest), old(sizes))
    {
      var started := buf != [];
      while true
        invariant started == (buf != [])
        invariant HeadRead(buf, rest, sizes) == HeadRead(old(buf), old(rest), old(sizes))
        decreases |rest|
      {
        var end := HeadEnd(buf);
        if end.Some? {
          if end.value > MAX_HEAD {
            return TooLarge;
          }
          r := Head(buf[..end.value]);
          buf := buf[end.value + 4..];
          return;
        }
        if |buf| > MAX_HEAD {
          return TooLarge;
        }
        var chunk := Receive(READ);
        if chunk == [] {
          return if started then Dropped else Closed;
        }
        started := true;
        buf := buf + chunk;
      }
    }

    method ReadBody(len: nat) returns (r: Read)
      modifies this
      ensures Left(r, buf, rest, sizes) == BodyRead(old(buf), old(rest), old(sizes), len)
    {
      while |buf| < len
        invariant BodyRead(buf, rest, sizes, len) == BodyRead(old(buf), old(rest), old(sizes), len)
        decreases |rest|
      {
        var chunk := Receive(Min(4 * READ, len - |buf|));
        if chunk == [] {
          return Dropped;
        }
        buf := buf + chunk;
      }
      r := Body(buf[..len]);
      buf := buf[len..];
    }

    /** `handle_connection`: the requests of the connection, until it ends. */
    method Serve(plan: seq<Byte> -> Plan) returns (frames: seq<Frame>, ending: Ending)
      modifies this
      ensures var o := Served(old(buf), old(rest), old(sizes), plan);
        frames == o.frames && ending == o.ending && buf == o.buf && rest == o.rest
    {
      frames := [];
      while true
        invariant Prepend(frames, Served(buf, rest, sizes, plan)) == Served(old(buf), old(rest), old(sizes), plan)
        decreases |buf| + |rest|
      {
        ReadsTakeBytes(buf, rest, sizes);
        var read := ReadRequest();
        if read.Head? {
          var next := plan(read.head);
          if next.Refuse? {
            assert frames + [] == frames;
            return frames, Refused;
          }
          BodiesTakeBytes(buf, rest, sizes, next.len);
          var body := ReadBody(next.len);
          if !body.Body? {
            assert frames + [] == frames;
            return frames, Lost;
          }
          PrependTwice(frames, [Frame(read.head, body.body)], Served(buf, rest, sizes, plan));
          frames := frames + [Frame(read.head, body.body)];
          if !next.keep {
            return frames, Done;
          }
        } else {
          assert frames + [] == frames;
          return frames, if read == TooLarge then Large else Lost;
        }
      }
    }
  }

  // ---------------------------------------------------------------- what one read takes

  lemma {:induction false} ReadsTakeBytes(buf: seq<Byte>, rest: seq<Byte>, sizes: seq<nat>)
    ensures var h := HeadRead(buf, rest, sizes);
      |h.buf| + |h.rest| <= |buf| + |rest| && (h.read.Head? ==> |h.buf| + |h.rest| < |buf| + |rest|)
    decreases |rest|
  {
    hide HeadEnd;
    HeadEndFirst(buf);
    var n := Taken(rest, sizes, READ);
    if HeadEnd(buf) == None && |buf| <= MAX_HEAD && n > 0 {
      ReadsTakeBytes(buf + rest[..n], rest[n..], Tail(sizes));
    }
  }

  /** A body is the bytes that follow, whatever the pieces; what is kept and still to come
      follows it. */
  lemma {:induction false} BodiesTakeBytes(buf: seq<Byte>, rest: seq<Byte>, sizes: seq<nat>, len: nat)
    ensures var (b, all) := (BodyRead(buf, rest, sizes, len), buf + rest);
      && (b.read.Body? || b.read.Dropped?)
      && (b.read.Body? ==> len <= |all| && b.read.body == all[..len] && b.buf + b.rest == all[len..])
      && (b.read.Dropped? ==> b.buf + b.rest == all)
      && |b.buf| + |b.rest| <= |buf| + |rest|
    decreases |rest|
  {
    if |buf| < len {
      var n := Taken(rest, sizes, Min(4 * READ, len - |buf|));
      if n > 0 {
        assert buf + rest[..n] + rest[n..] == buf + rest;
        BodiesTakeBytes(buf + rest[..n], rest[n..], Tail(sizes), len);
      }
    } else {
      assert (buf + rest)[len..] == buf[len..] + rest;
    }
  }

  /** The heads whose reading no split changes: they end three bytes before the limit at
      the latest, or past it. */
  predicate ClearEnd(end: nat) {
    end + 3 <= MAX_HEAD || end > MAX_HEAD
  }

  /** One head, by the stream alone: it is read at its end whatever the pieces, is refused
      when it ends past the limit, and at the limit itself one or the other. */
  lemma {:induction false} HeadsBySplits(buf: seq<Byte>, rest: seq<Byte>, sizes: seq<nat>)
    ensures var (h, all) := (HeadRead(buf, rest, sizes), buf + rest);
      && (h.read.Head? ==> HeadEnd(all) == Some(|h.read.head|) && |h.read.head| <= MAX_HEAD)
      && (h.read.Head? ==> all == h.read.head + BREAK + (h.buf + h.rest))
      && (h.read.TooLarge? ==> |all| > MAX_HEAD && (HeadEnd(all).Some? ==> HeadEnd(all).value + 2 >= MAX_HEAD))
      && (!h.read.Head? ==> h.buf + h.rest == all && !h.read.Body?)
      && (h.read.Closed? || h.read.Dropped? ==> HeadEnd(h.buf) == None && |h.buf| <= MAX_HEAD)
    decreases |rest|
  {
    hide HeadEnd;
    var all := buf + rest;
    HeadEndFirst(buf);
    HeadEndLater(buf, rest);
    var n := Taken(rest, sizes, READ);
    if HeadEnd(buf).Some? {
      var end := HeadEnd(buf).value;
      assert buf == buf[..end] + buf[end..end + 4] + buf[end + 4..];
      assert all == buf[..end] + BREAK + (buf[end + 4..] + rest);
    } else if |buf| <= MAX_HEAD && n > 0 {
      assert buf + rest[..n] + rest[n..] == all;
      HeadsBySplits(buf + rest[..n], rest[n..], Tail(sizes));
    }
  }

  /** A connection is closed between requests exactly when nothing of one was read; and no more than a
      body is read from the socket for it. */
  lemma {:induction false} ClosedBetween(buf: seq<Byte>, rest: seq<Byte>, sizes: seq<nat>)
    ensures var h := HeadRead(buf, rest, sizes);
      (h.read.Closed? ==> h.buf == []) && (h.read.Dropped? ==> h.buf != [])
    decreases |rest|
  {
    hide HeadEnd;
    var n := Taken(rest, sizes, READ);
    if HeadEnd(buf) == None && |buf| <= MAX_HEAD && n > 0 {
      ClosedBetween(buf + rest[..n], rest[n..], Tail(sizes));
    }
  }

  lemma {:induction false} BodyAlone(buf: seq<Byte>, rest: seq<Byte>, sizes: seq<nat>, len: nat)
    ensures var b := BodyRead(buf, rest, sizes, len); b.read.Body? && |buf| <= len ==> b.buf == []
    decreases |rest|
  {
    if |buf| < len {
      var n := Taken(rest, sizes, Min(4 * READ, len - |buf|));
      if n > 0 {
        BodyAlone(buf + rest[..n], rest[n..], Tail(sizes), len);
      }
    }
  }

  /** Nothing is lost but where the stream ends, when pieces come as long as there is one. */
  predicate Flows(sizes: seq<nat>, n: nat) {
    |sizes| >= n && forall i :: 0 <= i < n ==> sizes[i] > 0
  }

  lemma {:induction false} HeadsFlow(buf: seq<Byte>, rest: seq<Byte>, sizes: seq<nat>)
    requires Flows(sizes, |rest|)
    ensures var h := HeadRead(buf, rest, sizes);
      Flows(h.sizes, |h.rest|) && (h.read.Closed? || h.read.Dropped? ==> h.rest == [])
    decreases |rest|
  {
    hide HeadEnd;
    var n := Taken(rest, sizes, READ);
    if HeadEnd(buf) == None && |buf| <= MAX_HEAD && n > 0 {
      HeadsFlow(buf + rest[..n], rest[n..], Tail(sizes));
    }
  }

  lemma {:induction false} BodiesFlow(buf: seq<Byte>, rest: seq<Byte>, sizes: seq<nat>, len: nat)
    requires Flows(sizes, |rest|)
    ensures var b := BodyRead(buf, rest, sizes, len);
      Flows(b.sizes, |b.rest|) && (b.read.Dropped? ==> b.rest == [] && |b.buf| < len)
    decreases |rest|
  {
    if |buf| < len {
      var n := Taken(rest, sizes, Min(4 * READ, len - |buf|));
      if n > 0 {
        BodiesFlow(buf + rest[..n], rest[n..], Tail(sizes), len);
      }
    }
  }

  // ---------------------------------------------------------------- a whole connection

  /** A connection's requests, how it ended, the head taken without a request, and what
      was kept and never arrived. */
  datatype Outcome = Outcome(frames: seq<Frame>, ending: Ending, last: seq<Byte>, buf: seq<Byte>, rest: seq<Byte>)

  function Prepend(frames: seq<Frame>, o: Outcome): Outcome {
    o.(frames := frames + o.frames)
  }

  lemma PrependTwice(a: seq<Frame>, b: seq<Frame>, o: Outcome)
    ensures Prepend(a, Prepend(b, o)) == Prepend(a + b, o)
  {
    assert a + (b + o.frames) == a + b + o.frames;
  }

  function Served(buf: seq<Byte>, rest: seq<Byte>, sizes: seq<nat>, plan: seq<Byte> -> Plan): Outcome
    decreases |buf| + |rest|
  {
    var h := HeadRead(buf, rest, sizes);
    ReadsTakeBytes(buf, rest, sizes);
    if !h.read.Head? then Outcome([], if h.read == TooLarge then Large else Lost, [], h.buf, h.rest)
    else
      match plan(h.read.head)
      case Refuse => Outcome([], Refused, h.read.head + BREAK, h.buf, h.rest)
      case Take(len, keep) =>
        var b := BodyRead(h.buf, h.rest, h.sizes, len);
        BodiesTakeBytes(h.buf, h.rest, h.sizes, len);
        if !b.read.Body? then Outcome([], Lost, h.read.head + BREAK, b.buf, b.rest)
        else
          var frame := Frame(h.read.head, b.read.body);
          Prepend([frame], if keep then Served(b.buf, b.rest, b.sizes, plan) else Outcome([], Done, [], b.buf, b.rest))
  }

  /** The requests in a stream, by its bytes alone. */
  function Requests(all: seq<Byte>, plan: seq<Byte> -> Plan): (seq<Frame>, Ending)
    decreases |all|
  {
    HeadEndFirst(all);
    match HeadEnd(all)
    case None => ([], if |all| > MAX_HEAD then Large else Lost)
    case Some(end) =>
      if end > MAX_HEAD then ([], Large)
      else
        match plan(all[..end])
        case Refuse => ([], Refused)
        case Take(len, keep) =>
          if |all| < end + 4 + len then ([], Lost)
          else
            var frame := Frame(all[..end], all[end + 4..end + 4 + len]);
            if !keep then ([frame], Done)
            else
              var (more, ending) := Requests(all[end + 4 + len..], plan);
              ([frame] + more, ending)
  }

  /** Every head the server gets to is clear of the limit. */
  predicate Clear(all: seq<Byte>, plan: seq<Byte> -> Plan)
    decreases |all|
  {
    HeadEndFirst(all);
    match HeadEnd(all)
    case None => true
    case Some(end) =>
      ClearEnd(end) && (end > MAX_HEAD ||
        match plan(all[..end])
        case Refuse => true
        case Take(len, keep) => !keep || |all| < end + 4 + len || Clear(all[end + 4 + len..], plan))
  }

  function Bytes(frames: seq<Frame>): seq<Byte> {
    if frames == [] then [] else frames[0].head + BREAK + frames[0].body + Bytes(frames[1..])
  }

  /** A stream that begins with a whole request. */
  lemma RequestsNext(all: seq<Byte>, plan: seq<Byte> -> Plan, end: nat, len: nat, keep: bool)
    requires HeadEnd(all) == Some(end) && end <= MAX_HEAD && end + 4 + len <= |all|
    requires plan(all[..end]) == Take(len, keep)
    ensures var frame := Frame(all[..end], all[end + 4..end + 4 + len]);
      Requests(all, plan) == if !keep then ([frame], Done)
        else ([frame] + Requests(all[end + 4 + len..], plan).0, Requests(all[end + 4 + len..], plan).1)
    ensures Clear(all, plan) && keep ==> Clear(all[end + 4 + len..], plan)
  {
    hide HeadEnd;
  }

  /** One request of a connection, with what its reads left. */
  lemma OneRequest(buf: seq<Byte>, rest: seq<Byte>, sizes: seq<nat>, len: nat)
    requires HeadRead(buf, rest, sizes).read.Head?
    ensures var (h, all) := (HeadRead(buf, rest, sizes), buf + rest);
      var (b, end) := (BodyRead(h.buf, h.rest, h.sizes, len), |h.read.head|);
      && HeadEnd(all) == Some(end) && end <= MAX_HEAD && all[..end] == h.read.head
      && |b.buf| + |b.rest| < |buf| + |rest|
      && (b.read.Body? || b.read.Dropped?)
      && (b.read.Dropped? ==> all == h.read.head + BREAK + (b.buf + b.rest))
      && (b.read.Body? ==> end + 4 + len <= |all| && b.read.body == all[end + 4..end + 4 + len])
      && (b.read.Body? ==> all[end + 4 + len..] == b.buf + b.rest)
      && (b.read.Body? ==> all == h.read.head + BREAK + b.read.body + (b.buf + b.rest))
  {
    hide HeadRead, BodyRead, HeadEnd;
    var (h, all) := (HeadRead(buf, rest, sizes), buf + rest);
    ReadsTakeBytes(buf, rest, sizes);
    HeadsBySplits(buf, rest, sizes);
    BodiesTakeBytes(h.buf, h.rest, h.sizes, len);
    var b := BodyRead(h.buf, h.rest, h.sizes, len);
    var (head, left) := (h.read.head, h.buf + h.rest);
    assert all == head + BREAK + left;
    assert b.read.Body? ==> len <= |left| && b.read.body == left[..len] && b.buf + b.rest == left[len..];
    Slices(all, head, left, len);
  }

  lemma Slices(all: seq<Byte>, head: seq<Byte>, left: seq<Byte>, len: nat)
    requires all == head + BREAK + left
    ensures var end := |head|;
      && all[..end] == head && all[end + 4..] == left
      && (len <= |left| ==> all[end + 4..end + 4 + len] == left[..len] && all[end + 4 + len..] == left[len..])
      && (len <= |left| ==> all == head + BREAK + left[..len] + left[len..])
  {}

  /** Whatever the pieces, the requests taken and what is left make up the stream: no byte
      is lost, doubled or out of order, and each request is one of the stream's. */
  lemma {:induction false} Partition(buf: seq<Byte>, rest: seq<Byte>, sizes: seq<nat>, plan: seq<Byte> -> Plan)
    ensures var o := Served(buf, rest, sizes, plan);
      && buf + rest == Bytes(o.frames) + o.last + (o.buf + o.rest)
      && o.frames <= Requests(buf + rest, plan).0
    decreases |buf| + |rest|
  {
    hide HeadRead, BodyRead, HeadEnd, Requests;
    var (h, all) := (HeadRead(buf, rest, sizes), buf + rest);
    HeadsBySplits(buf, rest, sizes);
    if h.read.Head? && plan(h.read.head).Take? {
      var (len, keep) := (plan(h.read.head).len, plan(h.read.head).keep);
      var b := BodyRead(h.buf, h.rest, h.sizes, len);
      OneRequest(buf, rest, sizes, len);
      if b.read.Body? {
        var frame := Frame(h.read.head, b.read.body);
        RequestsNext(all, plan, |h.read.head|, len, keep);
        if keep {
          Partition(b.buf, b.rest, b.sizes, plan);
          BytesFirst(frame, Served(b.buf, b.rest, b.sizes, plan).frames);
        } else {
          BytesFirst(frame, []);
        }
      }
    }
  }

  /** A head with the empty line after it. */
  ghost predicate WholeHead(s: seq<Byte>) {
    exists head :: s == head + BREAK && |head| <= MAX_HEAD && HeadEnd(s) == Some(|head|)
  }

  /** Only a whole head is taken without a request, and that only when it is refused or its body does
      not come; what is kept when a read ends the connection is all that was read since. */
  lemma {:induction false} LastIsHead(buf: seq<Byte>, rest: seq<Byte>, sizes: seq<nat>, plan: seq<Byte> -> Plan)
    ensures var o := Served(buf, rest, sizes, plan);
      && (o.last == [] || WholeHead(o.last)) && (o.ending.Done? || o.ending.Large? ==> o.last == [])
      && (o.ending.Refused? ==> o.last != [])
    decreases |buf| + |rest|
  {
    hide HeadRead, BodyRead, HeadEnd, WholeHead;
    var (h, all) := (HeadRead(buf, rest, sizes), buf + rest);
    HeadsBySplits(buf, rest, sizes);
    if h.read.Head? {
      HeadWhole(all, h.read.head, h.buf + h.rest);
      if plan(h.read.head).Take? {
        var (len, keep) := (plan(h.read.head).len, plan(h.read.head).keep);
        var b := BodyRead(h.buf, h.rest, h.sizes, len);
        OneRequest(buf, rest, sizes, len);
        if b.read.Body? && keep {
          LastIsHead(b.buf, b.rest, b.sizes, plan);
        }
      }
    }
  }

  lemma HeadWhole(all: seq<Byte>, head: seq<Byte>, left: seq<Byte>)
    requires all == head + BREAK + left && HeadEnd(all) == Some(|head|) && |head| <= MAX_HEAD
    ensures WholeHead(head + BREAK)
  {
    hide HeadEnd;
    var s := head + BREAK;
    HeadEndFirst(s);
    HeadEndLater(s, left);
    assert s[|head|..|head| + 4] == BREAK;
    assert BreakAt(s, |head|);
  }

  lemma BytesFirst(frame: Frame, frames: seq<Frame>)
    ensures Bytes([frame] + frames) == frame.head + BREAK + frame.body + Bytes(frames) && Bytes([]) == []
  {
    assert ([frame] + frames)[1..] == frames;
  }

  /** When no head is at the limit and the pieces keep coming, they change nothing: the
      requests and the ending are those of the stream's bytes. */
  lemma {:induction false} SplitsChangeNothing(buf: seq<Byte>, rest: seq<Byte>, sizes: seq<nat>,
                                               plan: seq<Byte> -> Plan)
    requires Clear(buf + rest, plan) && Flows(sizes, |rest|)
    ensures var o := Served(buf, rest, sizes, plan); (o.frames, o.ending) == Requests(buf + rest, plan)
    decreases |buf| + |rest|
  {
    hide HeadRead, BodyRead, HeadEnd, Requests, Clear;
    var (h, all) := (HeadRead(buf, rest, sizes), buf + rest);
    HeadsBySplits(buf, rest, sizes);
    HeadsFlow(buf, rest, sizes);
    if !h.read.Head? {
      NoRequest(buf, rest, sizes, plan);
    } else if plan(h.read.head).Refuse? {
      OneRequest(buf, rest, sizes, 0);
      NoBody(all, plan, |h.read.head|);
    } else {
      var (len, keep) := (plan(h.read.head).len, plan(h.read.head).keep);
      var b := BodyRead(h.buf, h.rest, h.sizes, len);
      OneRequest(buf, rest, sizes, len);
      BodiesFlow(h.buf, h.rest, h.sizes, len);
      if b.read.Body? {
        RequestsNext(all, plan, |h.read.head|, len, keep);
        assert [Frame(h.read.head, b.read.body)] + [] == [Frame(h.read.head, b.read.body)];
        if keep {
          SplitsChangeNothing(b.buf, b.rest, b.sizes, plan);
        }
      } else {
        NoBody(all, plan, |h.read.head|);
      }
    }
  }

  lemma NoRequest(buf: seq<Byte>, rest: seq<Byte>, sizes: seq<nat>, plan: seq<Byte> -> Plan)
    requires Clear(buf + rest, plan) && Flows(sizes, |rest|) && !HeadRead(buf, rest, sizes).read.Head?
    ensures Requests(buf + rest, plan) == ([], if HeadRead(buf, rest, sizes).read == TooLarge then Large else Lost)
  {
    hide HeadRead, HeadEnd;
    var (h, all) := (HeadRead(buf, rest, sizes), buf + rest);
    HeadsBySplits(buf, rest, sizes);
    HeadsFlow(buf, rest, sizes);
    if h.read.Closed? || h.read.Dropped? {
      assert all == h.buf;
    }
  }

  lemma NoBody(all: seq<Byte>, plan: seq<Byte> -> Plan, end: nat)
    requires HeadEnd(all) == Some(end) && end <= MAX_HEAD
    ensures plan(all[..end]).Refuse? ==> Requests(all, plan) == ([], Refused)
    ensures plan(all[..end]).Take? && |all| < end + 4 + plan(all[..end]).len ==> Requests(all, plan) == ([], Lost)
  {
    hide HeadEnd;
  }

  // ---------------------------------------------------------------- at the limit

  function Ones(n: nat): seq<nat> {
    seq(n, _ => 1)
  }

  /** One piece more of a head that has not ended. */
  lemma OneRead(all: seq<Byte>, at: nat, sizes: seq<nat>)
    requires at < |all| && at <= MAX_HEAD && HeadEnd(all[..at]) == None && sizes != [] && sizes[0] > 0
    ensures var next := at + Taken(all[at..], sizes, READ);
      HeadRead(all[..at], all[at..], sizes) == HeadRead(all[..next], all[next..], sizes[1..])
  {
    hide HeadEnd;
    var n := Taken(all[at..], sizes, READ);
    assert all[..at] + all[at..][..n] == all[..at + n] && all[at..][n..] == all[at + n..];
  }

  lemma NotYet(all: seq<Byte>, end: nat, at: nat)
    requires HeadEnd(all) == Some(end) && at <= |all|
    ensures HeadEnd(all[..at]) == if at < end + 4 then None else Some(end)
  {
    hide HeadEnd;
    assert all == all[..at] + all[at..];
    HeadEndLater(all[..at], all[at..]);
    HeadEndFirst(all[..at]);
    HeadEndFirst(all);
    if at >= end + 4 {
      assert all[..at][end..end + 4] == all[end..end + 4];
      assert BreakAt(all[..at], end);
    }
  }

  lemma FourReads(all: seq<Byte>, end: nat, sizes: seq<nat>)
    requires HeadEnd(all) == Some(end) && end + 2 >= MAX_HEAD && end + 4 <= |all|
    requires |sizes| >= 4 && sizes[0] == sizes[1] == sizes[2] == sizes[3] == READ
    ensures HeadRead([], all, sizes) == HeadRead(all[..MAX_HEAD], all[MAX_HEAD..], sizes[4..])
  {
    hide HeadEnd, HeadRead;
    NotYet(all, end, 0);
    NotYet(all, end, 4096);
    NotYet(all, end, 8192);
    NotYet(all, end, 12288);
    OneRead(all, 0, sizes);
    OneRead(all, 4096, sizes[1..]);
    OneRead(all, 8192, sizes[2..]);
    OneRead(all, 12288, sizes[3..]);
    assert all[..0] == [] && all[0..] == all;
    assert sizes[1..][1..] == sizes[2..] && sizes[2..][1..] == sizes[3..] && sizes[3..][1..] == sizes[4..];
  }

  /** In five whole pieces a head that ends at the limit, or up to two bytes before it, is
      read. */
  lemma WholePiecesRead(all: seq<Byte>, end: nat, sizes: seq<nat>)
    requires HeadEnd(all) == Some(end) && !ClearEnd(end) && end + 4 <= |all|
    requires |sizes| >= 5 && sizes[0] == sizes[1] == sizes[2] == sizes[3] == sizes[4] == READ
    ensures HeadRead([], all, sizes).read == Head(all[..end])
  {
    hide HeadEnd;
    FourReads(all, end, sizes);
    NotYet(all, end, MAX_HEAD);
    OneRead(all, MAX_HEAD, sizes[4..]);
    NotYet(all, end, MAX_HEAD + Taken(all[MAX_HEAD..], sizes[4..], READ));
  }

  lemma OneMore(n: nat, more: seq<nat>)
    requires n > 0
    ensures Ones(n) + more != [] && (Ones(n) + more)[0] == 1 && (Ones(n) + more)[1..] == Ones(n - 1) + more
  {}

  /** Byte by byte such a head is refused. */
  lemma {:induction false} BytesRefuse(all: seq<Byte>, end: nat, at: nat, more: seq<nat>)
    requires HeadEnd(all) == Some(end) && !ClearEnd(end) && end + 4 <= |all| && at <= MAX_HEAD + 1
    ensures HeadRead(all[..at], all[at..], Ones(MAX_HEAD + 1 - at) + more).read == TooLarge
    decreases MAX_HEAD + 1 - at
  {
    hide HeadEnd;
    NotYet(all, end, at);
    if at <= MAX_HEAD {
      OneMore(MAX_HEAD + 1 - at, more);
      OneRead(all, at, Ones(MAX_HEAD + 1 - at) + more);
      BytesRefuse(all, end, at + 1, more);
    }
  }

  /** Byte by byte an earlier head is read, and nothing after it. */
  lemma {:induction false} BytesHead(all: seq<Byte>, end: nat, at: nat, more: seq<nat>)
    requires HeadEnd(all) == Some(end) && end + 3 <= MAX_HEAD && at <= end + 4 <= |all|
    ensures HeadRead(all[..at], all[at..], Ones(end + 4 - at) + more) ==
            Left(Head(all[..end]), [], all[end + 4..], more)
    decreases end + 4 - at
  {
    hide HeadEnd;
    NotYet(all, end, at);
    if at < end + 4 {
      OneMore(end + 4 - at, more);
      OneRead(all, at, Ones(end + 4 - at) + more);
      BytesHead(all, end, at + 1, more);
    } else {
      assert Ones(0) + more == more;
      assert all[..at][..end] == all[..end] && all[..at][end + 4..] == [];
    }
  }

  lemma {:induction false} BytesBody(all: seq<Byte>, len: nat, at: nat, more: seq<nat>)
    requires at <= len <= |all|
    ensures BodyRead(all[..at], all[at..], Ones(len - at) + more, len) == Left(Body(all[..len]), [], all[len..], more)
    decreases len - at
  {
    if at < len {
      OneMore(len - at, more);
      assert all[..at] + all[at..][..1] == all[..at + 1] && all[at..][1..] == all[at + 1..];
      BytesBody(all, len, at + 1, more);
    } else {
      assert Ones(0) + more == more;
      assert all[..at][..len] == all[..len] && all[..at][len..] == [];
    }
  }

  /** Byte by byte a whole request is read, and nothing after it. */
  lemma BytesRequest(all: seq<Byte>, plan: seq<Byte> -> Plan, end: nat, len: nat, more: seq<nat>)
    requires HeadEnd(all) == Some(end) && end + 3 <= MAX_HEAD && end + 4 + len <= |all|
    requires plan(all[..end]) == Take(len, true)
    ensures var left := all[end + 4 + len..];
      Served([], all, Ones(end + 4 + len) + more, plan)
      == Prepend([Frame(all[..end], all[end + 4..end + 4 + len])], Served([], left, more, plan))
  {
    hide HeadEnd, HeadRead, BodyRead;
    var sizes := Ones(end + 4 + len) + more;
    assert sizes == Ones(end + 4) + (Ones(len) + more);
    assert all[..0] == [] && all[0..] == all;
    BytesHead(all, end, 0, Ones(len) + more);
    var rest := all[end + 4..];
    assert rest[..0] == [] && rest[0..] == rest;
    BytesBody(rest, len, 0, more);
    assert rest[..len] == all[end + 4..end + 4 + len] && rest[len..] == all[end + 4 + len..];
    ReadsTakeBytes([], all, sizes);
    BodiesTakeBytes([], rest, Ones(len) + more, len);
  }

  lemma RefusedAtOnce(all: seq<Byte>, sizes: seq<nat>, plan: seq<Byte> -> Plan)
    ensures HeadRead([], all, sizes).read == TooLarge ==>
      Served([], all, sizes, plan).frames == [] && Served([], all, sizes, plan).ending == Large
    ensures HeadRead([], all, sizes).read.Head? ==>
      Served([], all, sizes, plan).frames != [] || Served([], all, sizes, plan).ending != Large
  {
    hide HeadEnd, HeadRead, BodyRead;
  }

  predicate SameAs(o: Outcome, p: Outcome) {
    o.frames == p.frames && o.ending == p.ending
  }

  lemma StillDiffer(frame: Frame, o: Outcome, p: Outcome)
    requires !SameAs(o, p)
    ensures !SameAs(Prepend([frame], o), Prepend([frame], p))
  {
    assert ([frame] + o.frames)[1..] == o.frames && ([frame] + p.frames)[1..] == p.frames;
  }

  /** A stream with a head at the limit that the server gets to is answered in two ways, as
      the pieces come: so the pieces change nothing exactly when no head is at the limit. */
  lemma {:induction false} SplitsDiffer(all: seq<Byte>, plan: seq<Byte> -> Plan) returns (a: seq<nat>, b: seq<nat>)
    requires !Clear(all, plan)
    ensures Flows(a, |all|) && Flows(b, |all|)
    ensures !SameAs(Served([], all, a, plan), Served([], all, b, plan))
    decreases |all|
  {
    hide HeadRead, Served;
    HeadEndFirst(all);
    var end := HeadEnd(all).value;
    if !ClearEnd(end) {
      a, b := Ones(MAX_HEAD + 1) + Ones(|all|), [READ, READ, READ, READ, READ] + Ones(|all|);
      assert all[..0] == [] && all[0..] == all;
      BytesRefuse(all, end, 0, Ones(|all|));
      WholePiecesRead(all, end, b);
      RefusedAtOnce(all, a, plan);
      RefusedAtOnce(all, b, plan);
    } else {
      var len := plan(all[..end]).len;
      var left := all[end + 4 + len..];
      a, b := SplitsDiffer(left, plan);
      StillDiffer(Frame(all[..end], all[end + 4..end + 4 + len]), Served([], left, a, plan), Served([], left, b, plan));
      BytesRequest(all, plan, end, len, a);
      BytesRequest(all, plan, end, len, b);
      a, b := Ones(end + 4 + len) + a, Ones(end + 4 + len) + b;
    }
  }
}
