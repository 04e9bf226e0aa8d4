/** The buffered robust readers, with the buffer they fill and drain in place. */
module Rio {
  import opened RioSpec

  /** A descriptor; `schedule` is what its coming reads will yield. */
  class Descriptor {
    var schedule: seq<Outcome>

    constructor (schedule: seq<Outcome>)
      ensures this.schedule == schedule
    {
      this.schedule := schedule;
    }

    /** read(): the number of bytes put at the start of `buf`, 0 at the end of file, or -1, and
        then whether it was an interruption. */
    method Read(buf: array<byte>) returns (n: int, interrupted: bool)
      requires buf.Length == RIO_BUFSIZE
      modifies this, buf
      ensures |schedule| <= |old(schedule)| && (interrupted ==> n == -1 && |schedule| < |old(schedule)|)
      ensures -1 <= n <= RIO_BUFSIZE
      ensures n > 0 ==> Flatten(old(schedule)) == Bytes(buf[..n]) + Flatten(schedule)
      ensures n == 0 ==> (Flatten(old(schedule)) == Flatten(schedule) == []) || Flatten(old(schedule)) == [Eof] + Flatten(schedule)
      ensures n == -1 && interrupted ==> Flatten(old(schedule)) == Flatten(schedule)
      ensures n == -1 && !interrupted ==> Flatten(old(schedule)) == [Failure] + Flatten(schedule)
    {
      n, interrupted := 0, false;
      if schedule != [] {
        var o := schedule[0];
        schedule := schedule[1..];
        match o
        case Data(bs) =>
          forall i | 0 <= i < |bs| { buf[i] := bs[i]; }
          n := |bs|;
          assert buf[..n] == bs;
        case AtEof =>
        case Interrupted => n, interrupted := -1, true;
        case HardError => n := -1;
      }
    }
  }

  class Buffered {
    var rioFd: Descriptor
    var rioCnt: int
    var rioBufptr: nat
    const rioBuf: array<byte>

    ghost predicate Valid()
      reads this
    {
      rioBuf.Length == RIO_BUFSIZE && -1 <= rioCnt && rioBufptr <= RIO_BUFSIZE && rioBufptr + rioCnt <= RIO_BUFSIZE
    }

    /** The unread bytes of the buffer. */
    ghost function Unread(): seq<byte>
      reads this, rioBuf
      requires Valid()
    {
      if rioCnt > 0 then rioBuf[rioBufptr..rioBufptr + rioCnt] else []
    }

    /** All that is still to come: what the buffer holds, then what the descriptor yields. */
    ghost function Events(): seq<Event>
      reads this, rioBuf, rioFd
      requires Valid()
    {
      Bytes(Unread()) + Flatten(rioFd.schedule)
    }

    /** rio_readinitb */
    constructor (fd: Descriptor)
      ensures Valid() && rioFd == fd && Events() == Flatten(fd.schedule) && fresh(rioBuf)
    {
      rioFd := fd;
      rioCnt := 0;
      rioBufptr := 0;
      rioBuf := new byte[RIO_BUFSIZE];
      new;
      assert Bytes([]) + Flatten(fd.schedule) == Flatten(fd.schedule);
    }

    /** The loop that refills an empty buffer: afterwards it holds a byte, or the end of file
        or an error is reported. */
    method Refill() returns (ended: bool, rc: int)
      requires Valid()
      modifies this`rioCnt, this`rioBufptr, rioFd, rioBuf
      ensures Valid()
      ensures !ended ==> rioCnt > 0 && Events() == old(Events())
      ensures ended ==> rc == 0 || rc == -1
      ensures ended && rc == 0 ==> (old(Events()) == Events() == []) || old(Events()) == [Eof] + Events()
      ensures ended && rc == -1 ==> old(Events()) == [Failure] + Events()
      ensures old(rioCnt) > 0 ==> !ended && rioCnt == old(rioCnt) && rioFd.schedule == old(rioFd.schedule)
    {
      ghost var es := Events();
      while rioCnt <= 0
        invariant Valid() && Events() == es
        invariant old(rioCnt) > 0 ==> rioCnt == old(rioCnt) && rioFd.schedule == old(rioFd.schedule)
        decreases rioCnt <= 0, |rioFd.schedule|
      {
        assert Events() == Flatten(rioFd.schedule);
        var interrupted;
        rioCnt, interrupted := rioFd.Read(rioBuf);
        if rioCnt < 0 {
          if !interrupted { return true, -1; }
        } else if rioCnt == 0 {
          return true, 0;
        } else {
          rioBufptr := 0;
        }
      }
      ended, rc := false, 0;
    }

    /** rio_read: some of the `n` bytes wanted, at least one, go to `usrbuf` from `at` on; or
        none at the end of file; or an error.  Fewer than `n` come only if they empty the
        buffer, and the descriptor is read only if the buffer was empty. */
    method RioRead(usrbuf: array<byte>, at: nat, n: nat) returns (rc: int)
      requires Valid() && usrbuf != rioBuf && at + n <= usrbuf.Length
      modifies this`rioCnt, this`rioBufptr, rioFd, rioBuf, usrbuf
      ensures Valid() && -1 <= rc <= n
      ensures usrbuf[..at] == old(usrbuf[..at])
      ensures rc <= 0 ==> usrbuf[..] == old(usrbuf[..])
      ensures rc > 0 ==> usrbuf[at + rc..] == old(usrbuf[at + rc..]) && old(Events()) == Bytes(usrbuf[at..at + rc]) + Events()
      ensures rc == 0 && n > 0 ==> (old(Events()) == Events() == []) || old(Events()) == [Eof] + Events()
      ensures rc == -1 ==> old(Events()) == [Failure] + Events()
      ensures 0 < rc < n ==> rioCnt == 0
      ensures old(rioCnt) > 0 ==> rc == (if n < old(rioCnt) then n else old(rioCnt)) && rioFd.schedule == old(rioFd.schedule)
    {
      hide Bytes, Flatten, Events, Unread, Stream;
      var ended, end := Refill();
      if ended { return end; }
      var cnt := n;
      if rioCnt < n { cnt := rioCnt; }
      CopyOut(usrbuf, at, cnt);
      rc := cnt;
    }

    /** The copy of `cnt` bytes out of the buffer. */
    method CopyOut(usrbuf: array<byte>, at: nat, cnt: nat)
      requires Valid() && usrbuf != rioBuf && at + cnt <= usrbuf.Length && cnt <= rioCnt
      modifies this`rioCnt, this`rioBufptr, usrbuf
      ensures Valid()
      ensures rioCnt == old(rioCnt) - cnt
      ensures usrbuf[..at] == old(usrbuf[..at]) && usrbuf[at + cnt..] == old(usrbuf[at + cnt..])
      ensures old(Events()) == Bytes(usrbuf[at..at + cnt]) + Events()
    {
      ghost var unread := Unread();
      forall i | 0 <= i < cnt { usrbuf[at + i] := rioBuf[rioBufptr + i]; }
      assert forall i :: 0 <= i < cnt ==> usrbuf[at..at + cnt][i] == unread[i];
      assert usrbuf[at..at + cnt] == unread[..cnt];
      rioBufptr := rioBufptr + cnt;
      rioCnt := rioCnt - cnt;
      assert Unread() == unread[cnt..];
      Unsplit(unread, cnt, Flatten(rioFd.schedule));
    }

    /** rio_readnb */
    method RioReadNb(usrbuf: array<byte>, n: nat) returns (rc: int)
      requires Valid() && usrbuf != rioBuf && n <= usrbuf.Length
      modifies this`rioCnt, this`rioBufptr, rioFd, rioBuf, usrbuf
      ensures
        var t := TakeN(old(Events()), n);
        var count := |Delivered(t.reply)|;
        && Valid() && Events() == t.rest && count <= n
        && usrbuf[..] == Delivered(t.reply) + old(usrbuf[count..])
        && rc == if t.reply.Got? then count else -1
      ensures GivesBytes(old(Events()), old(usrbuf[..]), n, Events(), usrbuf[..], rc)
    {
      hide TakeN, Bytes, Flatten, Splits, Marker, Prepend, Events, GivesBytes;
      ghost var es, user := Events(), usrbuf[..];
      TakeNSplits(es, n);
      var nleft, bufp := n, 0;
      PrependNone(TakeN(es, n));
      assert usrbuf[..0] == [];
      while nleft > 0
        invariant Valid() && 0 <= bufp <= n && nleft == n - bufp && usrbuf[bufp..] == user[bufp..]
        invariant TakeN(es, n) == Prepend(usrbuf[..bufp], TakeN(Events(), nleft))
      {
        ghost var now, got, was := Events(), usrbuf[..bufp], usrbuf[bufp..];
        var nread := RioRead(usrbuf, bufp, nleft);
        if nread < 0 {
          Ended(now, nleft, Failure, Events());
          NoMore(got, Failed([]), Events());
          assert usrbuf[..] == got + user[bufp..];
          BytesGiven(es, user, n, Events(), usrbuf[..], -1);
          return -1;
        } else if nread == 0 {
          if now == [] { NoEvents(nleft); } else { Ended(now, nleft, Eof, Events()); }
          NoMore(got, Got([]), Events());
          assert usrbuf[..] == got + user[bufp..];
          break;
        }
        Advanced(now, nleft, got, usrbuf[bufp..bufp + nread], Events());
        assert usrbuf[..bufp + nread] == got + usrbuf[bufp..bufp + nread];
        assert usrbuf[bufp + nread..] == was[nread..] == user[bufp..][nread..] == user[bufp + nread..];
        nleft := nleft - nread;
        bufp := bufp + nread;
      }
      if nleft == 0 {
        NothingAsked(Events());
        NoMore(usrbuf[..bufp], Got([]), Events());
      }
      assert usrbuf[..] == usrbuf[..bufp] + user[bufp..];
      rc := n - nleft;
      BytesGiven(es, user, n, Events(), usrbuf[..], rc);
    }

    /** The next byte of a line of which `got` has been read and `room` more bytes may be. */
    method ReadChar(ghost got: seq<byte>, ghost room: nat) returns (rc: int, c: byte)
      requires Valid() && room > 0
      modifies this`rioCnt, this`rioBufptr, rioFd, rioBuf
      ensures Valid() && -1 <= rc <= 1
      ensures
        var was, now := Prepend(got, TakeLine(old(Events()), room)), Events();
        was == if rc == 1 then
                 if c == NEWLINE then Taken(Got(got + [c]), now) else Prepend(got + [c], TakeLine(now, room - 1))
               else Taken(if rc == 0 then Got(got) else Failed(got), now)
    {
      hide TakeLine, Bytes, Flatten, Prepend, Events;
      ghost var es := Events();
      var cell := new byte[1];
      rc := RioRead(cell, 0, 1);
      c := cell[0];
      if rc == 1 {
        assert cell[0..1] == [c];
        NextByte(es, room, got, c, Events());
      } else if rc == 0 {
        if es == [] { NoEvents(room); } else { Ended(es, room, Eof, Events()); }
        NoMore(got, Got([]), Events());
      } else {
        Ended(es, room, Failure, Events());
        NoMore(got, Failed([]), Events());
      }
    }

    /** The loop of rio_readlineb: `got` is what it has put at the start of `usrbuf`; at the
        end of file before the first byte, or after an error, it returns at once. */
    method ReadChars(usrbuf: array<byte>, maxlen: nat) returns (n: int, bufp: nat, rc: int, ghost got: seq<byte>)
      requires Valid() && usrbuf != rioBuf && maxlen <= usrbuf.Length && usrbuf.Length > 0
      modifies this`rioCnt, this`rioBufptr, rioFd, rioBuf, usrbuf
      ensures
        var t := TakeLine(old(Events()), Room(maxlen));
        && Valid() && |got| == bufp <= Room(maxlen) && usrbuf[..] == got + old(usrbuf[bufp..])
        && t == Taken(if rc == -1 then Failed(got) else Got(got), Events())
        && (rc == -1 || (if bufp == 0 && Room(maxlen) > 0 then rc == 0 else rc == 1 && n == bufp + 1))
    {
      hide TakeLine, Bytes, Flatten, Prepend, Events, Valid, Unread, Stream, Splits, Marker;
      ghost var es, user := Events(), usrbuf[..];
      PrependNone(TakeLine(es, Room(maxlen)));
      n, bufp, rc, got := 1, 0, 1, [];
      assert user[0..] == user;
      while n < maxlen
        invariant Valid() && n == bufp + 1 && bufp == |got| <= Room(maxlen) && usrbuf[..] == got + user[bufp..]
        invariant TakeLine(es, Room(maxlen)) == Prepend(got, TakeLine(Events(), Room(maxlen) - bufp))
      {
        var rcByte, c := ReadChar(got, Room(maxlen) - bufp);
        if rcByte == 1 {
          usrbuf[bufp] := c;
          OneMore(got, user, c);
          got := got + [c];
          bufp := bufp + 1;
          n := n + 1;
          if c == NEWLINE { return; }
        } else if rcByte == 0 {
          if n == 1 { rc := 0; }
          return;
        } else {
          rc := -1;
          return;
        }
      }
      NothingAsked(Events());
      NoMore(got, Got([]), Events());
    }

    /** rio_readlineb.  A line gets its terminator, except where the end of file comes before
        its first byte; `usrbuf` has room for the terminator even if no byte may be read. */
    method RioReadLineB(usrbuf: array<byte>, maxlen: nat) returns (rc: int)
      requires Valid() && usrbuf != rioBuf && maxlen <= usrbuf.Length && usrbuf.Length > 0
      modifies this`rioCnt, this`rioBufptr, rioFd, rioBuf, usrbuf
      ensures
        var t := TakeLine(old(Events()), Room(maxlen));
        var line := Terminated(t.reply, maxlen);
        && Valid() && Events() == t.rest && |line| <= usrbuf.Length
        && usrbuf[..] == line + old(usrbuf[|line|..])
        && rc == if t.reply.Got? then |Delivered(t.reply)| else -1
      ensures GivesLine(old(Events()), old(usrbuf[..]), maxlen, Events(), usrbuf[..], rc)
    {
      hide TakeLine, Bytes, Flatten, Prepend, Events, Valid, Unread, Stream, Splits, Marker, GivesLine;
      ghost var es, user := Events(), usrbuf[..];
      var n, bufp, ended, got := ReadChars(usrbuf, maxlen);
      if ended <= 0 {
        LineGiven(es, user, maxlen, Events(), usrbuf[..], ended);
        return ended;
      }
      usrbuf[bufp] := 0;
      OneMore(got, user, 0);
      rc := n - 1;
      LineGiven(es, user, maxlen, Events(), usrbuf[..], rc);
    }
  }

  /** Writing the byte after those already written. */
  lemma OneMore(got: seq<byte>, user: seq<byte>, b: byte)
    requires |got| < |user|
    ensures (got + user[|got|..])[|got| := b] == (got + [b]) + user[|got| + 1..]
  {
  }

  /** What a line leaves in the user's buffer. */
  function Terminated(r: Reply, maxlen: nat): seq<byte> {
    match r
    case Failed(bs) => bs
    case Got(bs) => if bs == [] && Room(maxlen) > 0 then [] else bs + [0]
  }

  /** A request for `n` bytes, by what comes before it and after it, of the events and in the
      user's buffer: the next `n` bytes, or fewer, then the end of file or an error. */
  ghost predicate GivesBytes(es: seq<Event>, user: seq<byte>, n: nat, es': seq<Event>, user': seq<byte>, rc: int) {
    && -1 <= rc <= n <= |user| == |user'|
    && (rc == n ==> es == Bytes(user'[..rc]) + es')
    && (0 <= rc < n ==> es == Bytes(user'[..rc]) + [Eof] + es' || (es == Bytes(user'[..rc]) && es' == []))
    && (rc >= 0 ==> user'[rc..] == user[rc..])
    && (rc == -1 ==> exists k: nat :: k < n && es == Bytes(user'[..k]) + [Failure] + es' && user'[k..] == user[k..])
  }

  lemma BytesGiven(es: seq<Event>, user: seq<byte>, n: nat, es': seq<Event>, user': seq<byte>, rc: int)
    requires n <= |user|
    requires
      var t := TakeN(es, n);
      var count := |Delivered(t.reply)|;
      es' == t.rest && count <= n && user' == Delivered(t.reply) + user[count..] && rc == if t.reply.Got? then count else -1
    ensures GivesBytes(es, user, n, es', user', rc)
  {
    BytesOf(es, n);
    hide TakeN, Bytes, Splits, Marker, Prepend;
    var bs := Delivered(TakeN(es, n).reply);
    assert user'[..|bs|] == bs && user'[|bs|..] == user[|bs|..];
  }

  /** A request for a line into a buffer of `maxlen` bytes, likewise.  There are at most
      `maxlen - 1` bytes, the newline only as the last of them; a shorter line without one was
      cut short by the end of file.  The terminator follows the bytes, unless the end of file
      came before any; an error leaves the line unterminated. */
  ghost predicate GivesLine(es: seq<Event>, user: seq<byte>, maxlen: nat, es': seq<Event>, user': seq<byte>, rc: int) {
    && -1 <= rc <= |user| == |user'| && (maxlen >= 1 ==> rc <= maxlen - 1) && (maxlen == 0 ==> rc <= 0)
    && (forall i :: 0 <= i < rc - 1 ==> user'[i] != NEWLINE)
    && (rc >= 0 ==>
          if rc >= maxlen - 1 || (rc > 0 && user'[rc - 1] == NEWLINE) then es == Bytes(user'[..rc]) + es'
          else es == Bytes(user'[..rc]) + [Eof] + es' || (es == Bytes(user'[..rc]) && es' == []))
    && (rc > 0 || (rc == 0 && maxlen <= 1) ==> rc < |user| && user'[rc] == 0 && user'[rc + 1..] == user[rc + 1..])
    && (rc == 0 && maxlen > 1 ==> user' == user)
    && (rc == -1 ==> exists k: nat :: k < maxlen - 1 && k <= |user| && es == Bytes(user'[..k]) + [Failure] + es' && user'[k..] == user[k..])
  }

  lemma LineGiven(es: seq<Event>, user: seq<byte>, maxlen: nat, es': seq<Event>, user': seq<byte>, rc: int)
    requires maxlen <= |user| && |user| > 0
    requires
      var t := TakeLine(es, Room(maxlen));
      var line := Terminated(t.reply, maxlen);
      && es' == t.rest && |line| <= |user| && user' == line + user[|line|..]
      && rc == if t.reply.Got? then |Delivered(t.reply)| else -1
    ensures GivesLine(es, user, maxlen, es', user', rc)
  {
    LineOf(es, maxlen);
    hide TakeLine, Bytes, Splits, Marker, Prepend;
    var bs := Delivered(TakeLine(es, Room(maxlen)).reply);
    assert user'[..|bs|] == bs;
    assert |Terminated(TakeLine(es, Room(maxlen)).reply, maxlen)| == |bs| ==> user'[|bs|..] == user[|bs|..];
  }

  lemma NextByte(es: seq<Event>, n: nat, got: seq<byte>, b: byte, rest: seq<Event>)
    requires n > 0 && es == Bytes([b]) + rest
    ensures b != NEWLINE ==> Prepend(got, TakeLine(es, n)) == Prepend(got + [b], TakeLine(rest, n - 1))
    ensures b == NEWLINE ==> Prepend(got, TakeLine(es, n)) == Taken(Got(got + [b]), rest)
  {
    assert es[0] == Byte(b) && es[1..] == rest;
    PrependTwice(got, [b], TakeLine(rest, n - 1));
  }

  lemma NoMore(got: seq<byte>, end: Reply, rest: seq<Event>)
    requires Delivered(end) == []
    ensures Prepend(got, Taken(end, rest)) == Taken(if end.Got? then Got(got) else Failed(got), rest)
  {
    assert got + [] == got;
  }

  lemma NoEvents(n: nat)
    ensures TakeN([], n) == TakeLine([], n) == Taken(Got([]), [])
  {
  }

  lemma NothingAsked(es: seq<Event>)
    ensures TakeN(es, 0) == TakeLine(es, 0) == Taken(Got([]), es)
  {
  }

  lemma Unsplit(bs: seq<byte>, k: nat, more: seq<Event>)
    requires k <= |bs|
    ensures Bytes(bs) + more == Bytes(bs[..k]) + (Bytes(bs[k..]) + more)
  {
    assert Bytes(bs) == Bytes(bs[..k]) + Bytes(bs[k..]);
  }

  lemma Ended(es: seq<Event>, n: nat, e: Event, rest: seq<Event>)
    requires n > 0 && !e.Byte? && es == [e] + rest
    ensures TakeN(es, n) == Taken(if e.Eof? then Got([]) else Failed([]), rest)
    ensures TakeLine(es, n) == Taken(if e.Eof? then Got([]) else Failed([]), rest)
  {
    assert es[1..] == rest;
  }

  lemma Advanced(es: seq<Event>, n: nat, got: seq<byte>, bs: seq<byte>, rest: seq<Event>)
    requires |bs| <= n && es == Bytes(bs) + rest
    ensures Prepend(got, TakeN(es, n)) == Prepend(got + bs, TakeN(rest, n - |bs|))
  {
    assert es[|bs|..] == rest;
    TakeNBytes(es, n, bs);
    PrependTwice(got, bs, TakeN(rest, n - |bs|));
  }
}