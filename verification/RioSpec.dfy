/** What the buffered robust readers deliver, as a function of what the descriptor yields and
    of nothing else: not of how it is cut into short reads, nor of interruptions. */
module RioSpec {
  newtype byte = x: int | 0 <= x < 256

  const NEWLINE: byte := 10
  const RIO_BUFSIZE: nat := 8192

  type Chunk = bytes: seq<byte> | 1 <= |bytes| <= RIO_BUFSIZE witness [0]

  /** The outcomes of one read(): some bytes, the end of file, an interruption by a signal
      handler, or another error. */
  datatype Outcome = Data(bytes: Chunk) | AtEof | Interrupted | HardError

  /** What the outcomes amount to. */
  datatype Event = Byte(b: byte) | Eof | Failure

  function Bytes(bs: seq<byte>): (es: seq<Event>)
    ensures |es| == |bs| && forall i :: 0 <= i < |bs| ==> es[i] == Byte(bs[i])
  {
    seq(|bs|, i requires 0 <= i < |bs| => Byte(bs[i]))
  }

  function EventsOf(o: Outcome): seq<Event> {
    match o
    case Data(bs) => Bytes(bs)
    case AtEof => [Eof]
    case Interrupted => []
    case HardError => [Failure]
  }

  /** The events of a schedule of outcomes; after its last outcome every read is at the end
      of the file. */
  function Flatten(schedule: seq<Outcome>): seq<Event> {
    if schedule == [] then [] else EventsOf(schedule[0]) + Flatten(schedule[1..])
  }

  /** A reply with bytes, or an error, after which the bytes read so far go unreported. */
  datatype Reply = Got(bytes: seq<byte>) | Failed(unreported: seq<byte>)

  datatype Taken = Taken(reply: Reply, rest: seq<Event>)

  function Delivered(r: Reply): seq<byte> {
    match r
    case Got(bs) => bs
    case Failed(bs) => bs
  }

  function Prepend(bs: seq<byte>, t: Taken): Taken {
    match t.reply
    case Got(more) => Taken(Got(bs + more), t.rest)
    case Failed(more) => Taken(Failed(bs + more), t.rest)
  }

  /** A request for `n` bytes. */
  function TakeN(es: seq<Event>, n: nat): Taken {
    if n == 0 || es == [] then Taken(Got([]), es)
    else
      match es[0]
      case Eof => Taken(Got([]), es[1..])
      case Failure => Taken(Failed([]), es[1..])
      case Byte(b) => Prepend([b], TakeN(es[1..], n - 1))
  }

  /** A request for a line of at most `n` bytes. */
  function TakeLine(es: seq<Event>, n: nat): Taken {
    if n == 0 || es == [] then Taken(Got([]), es)
    else
      match es[0]
      case Eof => Taken(Got([]), es[1..])
      case Failure => Taken(Failed([]), es[1..])
      case Byte(b) => if b == NEWLINE then Taken(Got([b]), es[1..]) else Prepend([b], TakeLine(es[1..], n - 1))
  }

  // ---------------------------------------------------------------------------------------
  // Schedules
  // ---------------------------------------------------------------------------------------

  lemma {:induction false} FlattenConcat(a: seq<Outcome>, b: seq<Outcome>)
    ensures Flatten(a + b) == Flatten(a) + Flatten(b)
  {
    hide EventsOf, Bytes;
    if a == [] {
      assert a + b == b;
    } else {
      FlattenConcat(a[1..], b);
      assert (a + b)[1..] == a[1..] + b && (a + b)[0] == a[0];
      assert EventsOf(a[0]) + (Flatten(a[1..]) + Flatten(b)) == (EventsOf(a[0]) + Flatten(a[1..])) + Flatten(b);
    }
  }

  /** A read that comes up short, or is interrupted, changes nothing in the end: whatever the
      rest of the schedule, a chunk may come in two reads, and any read may first be
      interrupted. */
  lemma {:induction false} ShortReadsDoNotShow(before: seq<Outcome>, x: Chunk, y: Chunk, after: seq<Outcome>)
    requires |x + y| <= RIO_BUFSIZE
    ensures Flatten(before + [Data(x), Data(y)] + after) == Flatten(before + [Data(x + y)] + after)
    ensures Flatten(before + [Interrupted] + after) == Flatten(before + after)
  {
    FlattenHalves(x, y);
    hide Flatten;
    FlattenAround(before, [Data(x), Data(y)], after);
    FlattenAround(before, [Data(x + y)], after);
    FlattenAround(before, [Interrupted], after);
    FlattenConcat(before, after);
    assert Flatten(before) + [] == Flatten(before);
  }

  lemma {:induction false} FlattenHalves(x: Chunk, y: Chunk)
    requires |x + y| <= RIO_BUFSIZE
    ensures Flatten([Data(x), Data(y)]) == Flatten([Data(x + y)]) && Flatten([Interrupted]) == []
  {
    hide Bytes;
    assert [Data(x), Data(y)][1..] == [Data(y)];
    FlattenOne(Data(x));
    FlattenOne(Data(y));
    FlattenOne(Data(x + y));
    FlattenOne(Interrupted);
    BytesConcat(x, y);
  }

  lemma {:induction false} FlattenOne(o: Outcome)
    ensures Flatten([o]) == EventsOf(o)
  {
    hide EventsOf;
    assert [o][1..] == [];
    assert Flatten([o]) == EventsOf(o) + [];
  }

  lemma BytesConcat(x: seq<byte>, y: seq<byte>)
    ensures Bytes(x + y) == Bytes(x) + Bytes(y)
  {
  }

  lemma {:induction false} FlattenAround(before: seq<Outcome>, mid: seq<Outcome>, after: seq<Outcome>)
    ensures Flatten(before + mid + after) == Flatten(before) + Flatten(mid) + Flatten(after)
  {
    hide Flatten;
    FlattenConcat(before + mid, after);
    FlattenConcat(before, mid);
  }

  // ---------------------------------------------------------------------------------------
  // Requests
  // ---------------------------------------------------------------------------------------

  /** What ended a request besides its bytes: nothing, the end of file, or an error. */
  function Marker(es: seq<Event>, t: Taken): seq<Event> {
    if |es| == |Delivered(t.reply)| + |t.rest| then [] else if t.reply.Failed? then [Failure] else [Eof]
  }

  /** A request splits the events: the bytes delivered, what ended it, the rest. */
  ghost predicate Splits(es: seq<Event>, t: Taken) {
    && es == Bytes(Delivered(t.reply)) + Marker(es, t) + t.rest
    && (t.reply.Failed? ==> Marker(es, t) == [Failure])
  }

  lemma {:induction false} PrependSplits(b: byte, es: seq<Event>, t: Taken)
    requires es != [] && es[0] == Byte(b) && Splits(es[1..], t)
    ensures Splits(es, Prepend([b], t))
  {
    var ds := Delivered(t.reply);
    assert Bytes([b] + ds) == [Byte(b)] + Bytes(ds);
    assert es == [Byte(b)] + es[1..];
    assert Marker(es, Prepend([b], t)) == Marker(es[1..], t);
    assert [Byte(b)] + (Bytes(ds) + Marker(es[1..], t) + t.rest) == [Byte(b)] + Bytes(ds) + Marker(es[1..], t) + t.rest;
  }

  /** A request for `n` bytes delivers the next bytes in order, and all `n` of them unless the
      end of file or an error comes first. */
  lemma {:induction false} TakeNSplits(es: seq<Event>, n: nat)
    ensures Splits(es, TakeN(es, n)) && |Delivered(TakeN(es, n).reply)| <= n
    ensures |Delivered(TakeN(es, n).reply)| < n ==> Marker(es, TakeN(es, n)) != [] || TakeN(es, n).rest == []
    ensures |Delivered(TakeN(es, n).reply)| == n ==> Marker(es, TakeN(es, n)) == []
  {
    if n > 0 && es != [] && es[0].Byte? {
      TakeNSplits(es[1..], n - 1);
      PrependSplits(es[0].b, es, TakeN(es[1..], n - 1));
    }
  }

  /** A line holds no newline before its last byte; and it ends with a newline, or is as long
      as allowed, or was cut short by the end of file or an error. */
  lemma {:induction false} TakeLineSplits(es: seq<Event>, n: nat)
    ensures Splits(es, TakeLine(es, n)) && |Delivered(TakeLine(es, n).reply)| <= n
    ensures
      var t := TakeLine(es, n);
      var line := Delivered(t.reply);
      && (forall i :: 0 <= i < |line| - 1 ==> line[i] != NEWLINE)
      && (if |line| == n || (line != [] && line[|line| - 1] == NEWLINE) then Marker(es, t) == [] && t.reply.Got?
          else Marker(es, t) != [] || t.rest == [])
  {
    if n > 0 && es != [] && es[0].Byte? {
      if es[0].b == NEWLINE {
        assert es == Bytes([es[0].b]) + [] + es[1..];
      } else {
        TakeLineSplits(es[1..], n - 1);
        PrependSplits(es[0].b, es, TakeLine(es[1..], n - 1));
      }
    }
  }

  /** Asking for the bytes in two requests or in one comes to the same, if the first request
      is met in full. */
  lemma {:induction false} TakeNTwice(es: seq<Event>, m: nat, n: nat)
    requires |Delivered(TakeN(es, m).reply)| == m
    ensures TakeN(es, m).reply.Got? && TakeN(es, m + n) == Prepend(TakeN(es, m).reply.bytes, TakeN(TakeN(es, m).rest, n))
  {
    TakeNSplits(es, m);
    if m == 0 {
      PrependNone(TakeN(es, n));
    } else {
      TakeNSplits(es[1..], m - 1);
      TakeNTwice(es[1..], m - 1, n);
      PrependTwice([es[0].b], TakeN(es[1..], m - 1).reply.bytes, TakeN(TakeN(es, m).rest, n));
    }
  }

  lemma PrependNone(t: Taken)
    ensures Prepend([], t) == t
  {
    assert [] + Delivered(t.reply) == Delivered(t.reply);
  }

  lemma PrependTwice(a: seq<byte>, b: seq<byte>, t: Taken)
    ensures Prepend(a, Prepend(b, t)) == Prepend(a + b, t)
  {
    assert a + (b + Delivered(t.reply)) == (a + b) + Delivered(t.reply);
  }

  /** Bytes already there are taken first. */
  lemma {:induction false} TakeNBytes(es: seq<Event>, n: nat, bs: seq<byte>)
    requires |bs| <= n && |bs| <= |es| && forall i :: 0 <= i < |bs| ==> es[i] == Byte(bs[i])
    ensures TakeN(es, n) == Prepend(bs, TakeN(es[|bs|..], n - |bs|))
  {
    if bs == [] {
      PrependNone(TakeN(es, n));
    } else {
      assert es[1..][|bs[1..]|..] == es[|bs|..];
      TakeNBytes(es[1..], n - 1, bs[1..]);
      PrependTwice([bs[0]], bs[1..], TakeN(es[|bs|..], n - |bs|));
      assert [bs[0]] + bs[1..] == bs;
    }
  }

  // ---------------------------------------------------------------------------------------
  // Sessions
  // ---------------------------------------------------------------------------------------

  /** A call of rio_readnb or rio_readlineb. */
  datatype Request = ReadN(n: nat) | ReadLine(maxlen: nat)

  /** How many bytes of a line there is room for beside the terminator. */
  function Room(maxlen: nat): nat {
    if maxlen == 0 then 0 else maxlen - 1
  }

  /** What the reply to a request for `n` bytes amounts to: all of them, or those before the
      end of file or the error. */
  lemma {:induction false} BytesOf(es: seq<Event>, n: nat)
    ensures
      var t := TakeN(es, n);
      var bs := Delivered(t.reply);
      && |bs| <= n
      && (t.reply.Failed? ==> |bs| < n && es == Bytes(bs) + [Failure] + t.rest)
      && (t.reply.Got? && |bs| == n ==> es == Bytes(bs) + t.rest)
      && (t.reply.Got? && |bs| < n ==> es == Bytes(bs) + [Eof] + t.rest || (es == Bytes(bs) && t.rest == []))
  {
    TakeNSplits(es, n);
    SplitForm(es, TakeN(es, n));
  }

  /** What the reply to a request for a line amounts to, in the size of the user's buffer: the
      bytes up to the newline, or one less than that size, or those before the end of file or
      the error. */
  lemma {:induction false} LineOf(es: seq<Event>, maxlen: nat)
    ensures
      var t := TakeLine(es, Room(maxlen));
      var line := Delivered(t.reply);
      var whole := |line| >= maxlen - 1 || (line != [] && line[|line| - 1] == NEWLINE);
      && (maxlen >= 1 ==> |line| <= maxlen - 1) && (maxlen == 0 ==> line == [])
      && (forall i :: 0 <= i < |line| - 1 ==> line[i] != NEWLINE)
      && (t.reply.Failed? ==> !whole && es == Bytes(line) + [Failure] + t.rest)
      && (t.reply.Got? && whole ==> es == Bytes(line) + t.rest)
      && (t.reply.Got? && !whole ==> es == Bytes(line) + [Eof] + t.rest || (es == Bytes(line) && t.rest == []))
  {
    TakeLineSplits(es, Room(maxlen));
    SplitForm(es, TakeLine(es, Room(maxlen)));
  }

  lemma SplitForm(es: seq<Event>, t: Taken)
    requires Splits(es, t)
    ensures t.reply.Failed? ==> es == Bytes(Delivered(t.reply)) + [Failure] + t.rest
    ensures t.reply.Got? && Marker(es, t) == [] ==> es == Bytes(Delivered(t.reply)) + t.rest
    ensures t.reply.Got? && Marker(es, t) == [] && t.rest == [] ==> es == Bytes(Delivered(t.reply))
    ensures t.reply.Got? && Marker(es, t) != [] ==> es == Bytes(Delivered(t.reply)) + [Eof] + t.rest
  {
    assert Bytes(Delivered(t.reply)) + [] == Bytes(Delivered(t.reply));
  }

  function Answer(es: seq<Event>, r: Request): Taken {
    match r
    case ReadN(n) => TakeN(es, n)
    case ReadLine(maxlen) => TakeLine(es, Room(maxlen))
  }

  lemma AnswerSplits(es: seq<Event>, r: Request)
    ensures Splits(es, Answer(es, r))
  {
    match r
    case ReadN(n) => TakeNSplits(es, n);
    case ReadLine(maxlen) => TakeLineSplits(es, Room(maxlen));
  }

  /** The replies to a sequence of requests on one buffer, and what is left. */
  function Replies(es: seq<Event>, requests: seq<Request>): seq<Reply>
    decreases |requests|
  {
    if requests == [] then [] else [Answer(es, requests[0]).reply] + Replies(Answer(es, requests[0]).rest, requests[1..])
  }

  function LeftAfter(es: seq<Event>, requests: seq<Request>): seq<Event>
    decreases |requests|
  {
    if requests == [] then es else LeftAfter(Answer(es, requests[0]).rest, requests[1..])
  }

  function AllDelivered(replies: seq<Reply>): seq<byte> {
    if replies == [] then [] else Delivered(replies[0]) + AllDelivered(replies[1..])
  }

  /** The bytes among the events. */
  function Stream(es: seq<Event>): seq<byte> {
    if es == [] then [] else (if es[0].Byte? then [es[0].b] else []) + Stream(es[1..])
  }

  lemma {:induction false} StreamConcat(a: seq<Event>, b: seq<Event>)
    ensures Stream(a + b) == Stream(a) + Stream(b)
  {
    if a == [] {
      assert a + b == b;
    } else {
      StreamConcat(a[1..], b);
      assert (a + b)[1..] == a[1..] + b && (a + b)[0] == a[0];
      var first := if a[0].Byte? then [a[0].b] else [];
      assert first + (Stream(a[1..]) + Stream(b)) == (first + Stream(a[1..])) + Stream(b);
    }
  }

  lemma {:induction false} StreamBytes(bs: seq<byte>)
    ensures Stream(Bytes(bs)) == bs
  {
    if bs != [] {
      assert Bytes(bs)[1..] == Bytes(bs[1..]);
      StreamBytes(bs[1..]);
      assert [bs[0]] + bs[1..] == bs;
    }
  }

  lemma {:induction false} SplitStream(es: seq<Event>, t: Taken)
    requires Splits(es, t)
    ensures Stream(es) == Delivered(t.reply) + Stream(t.rest)
  {
    var ds, m := Delivered(t.reply), Marker(es, t);
    StreamConcat(Bytes(ds) + m, t.rest);
    StreamConcat(Bytes(ds), m);
    StreamBytes(ds);
    assert m == [] || m[1..] == [];
    assert Stream(m) == [];
    assert ds + [] == ds;
  }

  predicate NoFailure(es: seq<Event>) {
    Failure !in es
  }

  /** Any interleaving of the two kinds of request delivers the bytes of the descriptor one
      after the other: none lost, repeated or out of order.  Without a hard error every reply
      reports all its bytes. */
  lemma {:induction false} SessionDeliversStream(es: seq<Event>, requests: seq<Request>)
    ensures Stream(es) == AllDelivered(Replies(es, requests)) + Stream(LeftAfter(es, requests))
    ensures NoFailure(es) ==> forall i :: 0 <= i < |Replies(es, requests)| ==> Replies(es, requests)[i].Got?
    decreases |requests|
  {
    if requests == [] {
      assert [] + Stream(es) == Stream(es);
    } else {
      var t := Answer(es, requests[0]);
      AnswerSplits(es, requests[0]);
      SplitStream(es, t);
      SessionDeliversStream(t.rest, requests[1..]);
      var more := Replies(t.rest, requests[1..]);
      assert Replies(es, requests)[0] == t.reply && Replies(es, requests)[1..] == more;
      assert Delivered(t.reply) + (AllDelivered(more) + Stream(LeftAfter(es, requests)))
          == (Delivered(t.reply) + AllDelivered(more)) + Stream(LeftAfter(es, requests));
      if NoFailure(es) {
        forall e | e in t.rest ensures e in es { RestIn(es, t, e); }
        if t.reply.Failed? { MarkerIn(es, t); }
      }
    }
  }

  lemma RestIn(es: seq<Event>, t: Taken, e: Event)
    requires Splits(es, t) && e in t.rest
    ensures e in es
  {
    assert e in Bytes(Delivered(t.reply)) + Marker(es, t) + t.rest;
  }

  lemma MarkerIn(es: seq<Event>, t: Taken)
    requires Splits(es, t) && t.reply.Failed?
    ensures Failure in es
  {
    assert Failure in Marker(es, t);
    assert Failure in Bytes(Delivered(t.reply)) + Marker(es, t);
  }
}
