// rio.c: reads and writes that survive interruptions and short counts, and the
// buffered reader as a stream of bytes.
module Rio {
  type Byte = x: int | 0 <= x < 256

  const NEWLINE: Byte := 10
  const RIO_BUFSIZE := 8192

  // What becomes of one call of read or write: interrupted by a signal handler, at
  // most one byte more than this transferred, or some other error.
  datatype Event = Interrupted | AtMost(less1: nat) | Broken

  // Interruptions and short counts only.
  predicate Calm(schedule: seq<Event>) { Broken !in schedule }

  function Min(a: nat, b: nat): nat { if a < b then a else b }

  // The result of a system call: a count, or -1 and whether errno is EINTR.
  datatype Result = Count(n: nat) | Error(interrupted: bool)

  // A descriptor open for reading.  Once the schedule has run out, calls transfer
  // all they can.
  class Input {
    const data: seq<Byte>
    var pos: nat
    var schedule: seq<Event>

    ghost predicate Valid()
      reads this
    {
      pos <= |data|
    }

    constructor (data: seq<Byte>, schedule: seq<Event>)
      ensures Valid() && this.data == data && pos == 0 && this.schedule == schedule
    {
      this.data, pos, this.schedule := data, 0, schedule;
    }

    method Read(buf: array<Byte>, at: nat, want: nat) returns (r: Result)
      requires Valid() && at + want <= buf.Length
      modifies this, buf
      ensures Valid() && Kept(old(buf[..]), buf[..], at, if r.Count? then r.n else 0)
      ensures r.Count? ==>
        && r.n <= want && (r.n == 0 <==> want == 0 || old(pos) == |data|)
        && pos == old(pos) + r.n && buf[at..at + r.n] == data[old(pos)..pos]
        && |schedule| <= |old(schedule)|
      ensures r.Error? ==> pos == old(pos) && |schedule| < |old(schedule)|
      ensures Calm(old(schedule)) ==> Calm(schedule) && (r.Error? ==> r.interrupted)
    {
      var n := Min(want, |data| - pos);
      if schedule != [] {
        var e := schedule[0];
        schedule := schedule[1..];
        if !e.AtMost? {
          return Error(e.Interrupted?);
        }
        n := Min(n, e.less1 + 1);
      }
      forall k | 0 <= k < n { buf[at + k] := data[pos + k]; }
      assert forall k :: at <= k < at + n ==> buf[k] == data[pos + k - at];
      assert buf[at..at + n] == data[pos..pos + n];
      pos := pos + n;
      return Count(n);
    }
  }

  // Nothing changed but n bytes at this place.
  ghost predicate Kept(before: seq<Byte>, after: seq<Byte>, at: nat, n: nat) {
    |before| == |after| && forall k :: 0 <= k < |before| && !(at <= k < at + n) ==> after[k] == before[k]
  }

  lemma {:induction false} Around(before: seq<Byte>, after: seq<Byte>, p: nat, k: nat, n: nat)
    requires p + k <= n <= |before| && Kept(before, after, p, k)
    ensures after[..p] == before[..p] && after[n..] == before[n..]
  {
  }

  // ---- rio_readn

  method ReadN(fd: Input, usrbuf: array<Byte>, n: nat) returns (r: int)
    requires fd.Valid() && n <= usrbuf.Length
    modifies fd, usrbuf
    ensures fd.Valid() && -1 <= r
    ensures r >= 0 ==> r == Min(n, |fd.data| - old(fd.pos)) && fd.pos == old(fd.pos) + r
    ensures old(fd.pos) <= fd.pos <= old(fd.pos) + n
    ensures usrbuf[..fd.pos - old(fd.pos)] == fd.data[old(fd.pos)..fd.pos]
    ensures Calm(old(fd.schedule)) ==> r >= 0
    ensures usrbuf[n..] == old(usrbuf[n..])
  {
    var nleft: nat, bufp: nat := n, 0;
    while nleft > 0
      invariant bufp + nleft == n && fd.Valid() && fd.pos == old(fd.pos) + bufp
      invariant usrbuf[..bufp] == fd.data[old(fd.pos)..fd.pos]
      invariant usrbuf[n..] == old(usrbuf[n..])
      invariant Calm(old(fd.schedule)) ==> Calm(fd.schedule)
      decreases nleft + |fd.schedule|
    {
      ghost var before := usrbuf[..];
      ghost var from := fd.pos;
      var nread: nat := 0;
      var x := fd.Read(usrbuf, bufp, nleft);
      Around(before, usrbuf[..], bufp, if x.Count? then x.n else 0, n);
      match x {
        case Error(interrupted) =>
          if !interrupted { return -1; }
        case Count(k) =>
          if k == 0 { break; }
          nread := k;
      }
      assert usrbuf[..bufp + nread] == usrbuf[..bufp] + usrbuf[bufp..bufp + nread];
      Adjoin(fd.data, old(fd.pos), from, fd.pos);
      nleft := nleft - nread;
      bufp := bufp + nread;
    }
    return n - nleft;
  }

  lemma {:induction false} Adjoin(s: seq<Byte>, p: nat, q: nat, r: nat)
    requires p <= q <= r <= |s|
    ensures s[p..q] + s[q..r] == s[p..r]
  {
  }

  // ---- rio_writen

  // A descriptor open for writing.
  class Output {
    var written: seq<Byte>
    var schedule: seq<Event>

    constructor (schedule: seq<Event>)
      ensures written == [] && this.schedule == schedule
    {
      written, this.schedule := [], schedule;
    }

    method Write(buf: array<Byte>, at: nat, want: nat) returns (r: Result)
      requires at + want <= buf.Length && want > 0
      modifies this
      ensures r.Count? ==>
        0 < r.n <= want && written == old(written) + buf[at..at + r.n] && |schedule| <= |old(schedule)|
      ensures r.Error? ==> written == old(written) && |schedule| < |old(schedule)|
      ensures Calm(old(schedule)) ==> Calm(schedule) && (r.Error? ==> r.interrupted)
    {
      var n := want;
      if schedule != [] {
        var e := schedule[0];
        schedule := schedule[1..];
        if !e.AtMost? {
          return Error(e.Interrupted?);
        }
        n := Min(n, e.less1 + 1);
      }
      written := written + buf[at..at + n];
      return Count(n);
    }
  }

  // All of it is written, once and in order, or else a beginning of it.
  method WriteN(fd: Output, usrbuf: array<Byte>, n: nat) returns (r: int)
    requires n <= usrbuf.Length
    modifies fd
    ensures r == n || r == -1
    ensures r == n ==> fd.written == old(fd.written) + usrbuf[..n]
    ensures exists k :: 0 <= k <= n && fd.written == old(fd.written) + usrbuf[..k]
    ensures Calm(old(fd.schedule)) ==> r == n
  {
    var nleft: nat, bufp: nat := n, 0;
    assert usrbuf[..0] == [];
    while nleft > 0
      invariant bufp + nleft == n && fd.written == old(fd.written) + usrbuf[..bufp]
      invariant Calm(old(fd.schedule)) ==> Calm(fd.schedule)
      decreases nleft + |fd.schedule|
    {
      var nwritten: nat := 0;
      var x := fd.Write(usrbuf, bufp, nleft);
      match x {
        case Error(interrupted) =>
          if !interrupted { return -1; }
        case Count(k) =>
          nwritten := k;
      }
      assert usrbuf[..bufp + nwritten] == usrbuf[..bufp] + usrbuf[bufp..bufp + nwritten];
      nleft := nleft - nwritten;
      bufp := bufp + nwritten;
    }
    return n;
  }

  // ---- the buffered reader

  // Where a line ends that is cut at max bytes.
  function LineLength(s: seq<Byte>, max: nat): (l: nat)
    ensures l <= |s| && l <= max
    ensures forall k :: 0 <= k < l - 1 ==> s[k] != NEWLINE
    ensures l < |s| && l < max ==> l > 0 && s[l - 1] == NEWLINE
  {
    if s == [] || max == 0 then 0
    else if s[0] == NEWLINE then 1
    else 1 + LineLength(s[1..], max - 1)
  }

  function Less1(n: nat): nat { if n == 0 then 0 else n - 1 }

  lemma {:induction false} Filled(data: seq<Byte>, p: nat, q: nat, held: seq<Byte>)
    requires p <= q <= |data| && held == data[p..q]
    ensures data[p..] == held + data[q..]
  {
  }

  lemma {:induction false} HandedOut(held: seq<Byte>, rest: seq<Byte>, m: nat)
    requires m <= |held|
    ensures (held + rest)[..m] == held[..m] && (held + rest)[m..] == held[m..] + rest
  {
  }

  class Reader {
    const fd: Input
    const buf: array<Byte>
    var cnt: int
    var ptr: nat

    ghost predicate Valid()
      reads this, fd, buf
    {
      fd.Valid() && buf.Length == RIO_BUFSIZE && ptr + (if cnt > 0 then cnt else 0) <= RIO_BUFSIZE
    }

    // The bytes that have not been handed out: what the buffer holds, then what
    // the descriptor will still give.
    ghost function Unread(): seq<Byte>
      requires Valid()
      reads this, fd, buf
    {
      (if cnt > 0 then buf[ptr..ptr + cnt] else []) + fd.data[fd.pos..]
    }

    // rio_readinitb
    constructor (fd: Input)
      requires fd.Valid()
      ensures Valid() && this.fd == fd && fresh(buf) && Unread() == fd.data[fd.pos..]
    {
      this.fd := fd;
      buf := new Byte[RIO_BUFSIZE](_ => 0);
      cnt, ptr := 0, 0;
    }

    // The loop that refills the buffer.
    method Refill() returns (r: int)
      requires Valid()
      modifies this, fd, buf
      ensures Valid() && Unread() == old(Unread())
      ensures r == -1 || (r == 0 && Unread() == []) || (r == 1 && cnt > 0)
      ensures Calm(old(fd.schedule)) ==> Calm(fd.schedule) && r >= 0
    {
      while cnt <= 0
        invariant Valid() && Unread() == old(Unread())
        invariant Calm(old(fd.schedule)) ==> Calm(fd.schedule)
        decreases if cnt > 0 then 0 else 1 + |fd.schedule|
      {
        ghost var from := fd.pos;
        var x := fd.Read(buf, 0, RIO_BUFSIZE);
        match x {
          case Error(interrupted) =>
            cnt := -1;
            if !interrupted { return -1; }
          case Count(n) =>
            cnt := n;
            if n == 0 { return 0; }
            ptr := 0;
            Filled(fd.data, from, fd.pos, buf[0..n]);
        }
      }
      return 1;
    }

    // rio_read
    method Read(usrbuf: array<Byte>, at: nat, n: nat) returns (r: int)
      requires Valid() && at + n <= usrbuf.Length && usrbuf != buf
      modifies this, fd, buf, usrbuf
      ensures Valid() && -1 <= r <= n
      ensures r == -1 ==> Unread() == old(Unread()) && usrbuf[..] == old(usrbuf[..])
      ensures r >= 0 ==>
        && r <= |old(Unread())| && (r == 0 <==> n == 0 || old(Unread()) == [])
        && usrbuf[at..at + r] == old(Unread())[..r] && Unread() == old(Unread())[r..]
        && Kept(old(usrbuf[..]), usrbuf[..], at, r)
      ensures Calm(old(fd.schedule)) ==> Calm(fd.schedule) && r >= 0
    {
      var state := Refill();
      if state <= 0 {
        return state;
      }
      var m: nat := n;
      if cnt < n {
        m := cnt;
      }
      Copy(usrbuf, at, m);
      return m;
    }

    // The first m bytes of the buffer are handed out.
    method Copy(usrbuf: array<Byte>, at: nat, m: nat)
      requires Valid() && 0 < cnt && m <= cnt && at + m <= usrbuf.Length && usrbuf != buf
      modifies this, usrbuf
      ensures Valid() && m <= |old(Unread())| && Unread() == old(Unread())[m..]
      ensures usrbuf[at..at + m] == old(Unread())[..m] && Kept(old(usrbuf[..]), usrbuf[..], at, m)
    {
      ghost var held, rest := buf[ptr..ptr + cnt], fd.data[fd.pos..];
      HandedOut(held, rest, m);
      forall k | 0 <= k < m { usrbuf[at + k] := buf[ptr + k]; }
      assert buf[..] == old(buf[..]);
      assert forall k :: at <= k < at + m ==> usrbuf[k] == held[k - at];
      assert usrbuf[at..at + m] == held[..m];
      ptr := ptr + m;
      cnt := cnt - m;
      assert buf[ptr..ptr + cnt] == old(buf[..])[ptr..ptr + cnt] == held[m..];
    }

    // rio_readnb.  After an error what was read is gone from the stream, and is in
    // the caller's buffer.
    method ReadNb(usrbuf: array<Byte>, n: nat) returns (r: int)
      requires Valid() && n <= usrbuf.Length && usrbuf != buf
      modifies this, fd, buf, usrbuf
      ensures Valid() && -1 <= r
      ensures r >= 0 ==>
        && r == Min(n, |old(Unread())|) && usrbuf[..r] == old(Unread())[..r] && Unread() == old(Unread())[r..]
      ensures exists k :: (0 <= k <= n && k <= |old(Unread())|
        && usrbuf[..k] == old(Unread())[..k] && Unread() == old(Unread())[k..])
      ensures usrbuf[n..] == old(usrbuf[n..])
      ensures Calm(old(fd.schedule)) ==> Calm(fd.schedule) && r >= 0
    {
      var nleft: nat, bufp: nat := n, 0;
      ghost var all := Unread();
      while nleft > 0
        invariant bufp + nleft == n && Valid() && bufp <= |all|
        invariant usrbuf[..bufp] == all[..bufp] && Unread() == all[bufp..]
        invariant usrbuf[n..] == old(usrbuf[n..])
        invariant Calm(old(fd.schedule)) ==> Calm(fd.schedule)
      {
        ghost var before := usrbuf[..];
        var nread := Read(usrbuf, bufp, nleft);
        if nread < 0 {
          return -1;
        } else if nread == 0 {
          break;
        }
        Extended(all, before, usrbuf[..], bufp, nread, n);
        nleft := nleft - nread;
        bufp := bufp + nread;
      }
      return n - nleft;
    }

    method Put(usrbuf: array<Byte>, at: nat, c: Byte, ghost all: seq<Byte>)
      requires Valid() && at < usrbuf.Length && usrbuf != buf
      requires at < |all| && c == all[at] && usrbuf[..at] == all[..at]
      modifies usrbuf
      ensures Valid() && Unread() == old(Unread()) && usrbuf[..at + 1] == all[..at + 1]
      ensures usrbuf[at + 1..] == old(usrbuf[at + 1..])
    {
      usrbuf[at] := c;
    }

    // The loop of rio_readlineb: an error, the end of the file before any data, or
    // a line of bufp bytes.
    method ReadLine(usrbuf: array<Byte>, maxlen: nat) returns (rc: int, bufp: nat)
      requires Valid() && maxlen <= usrbuf.Length && usrbuf != buf
      modifies this, fd, buf, usrbuf
      ensures Valid() && -1 <= rc <= 1
      ensures rc >= 0 ==> bufp == LineLength(old(Unread()), Less1(maxlen)) && Unread() == old(Unread())[bufp..]
      ensures rc == 1 ==> bufp <= Less1(maxlen) && usrbuf[..bufp] == old(Unread())[..bufp]
      ensures rc == 1 && bufp == 0 ==> maxlen <= 1
      ensures rc == 0 ==> bufp == 0 && maxlen > 1 && usrbuf[..] == old(usrbuf[..])
      ensures rc == -1 ==>
        && bufp <= |old(Unread())| && bufp <= usrbuf.Length
        && usrbuf[..bufp] == old(Unread())[..bufp] && Unread() == old(Unread())[bufp..]
      ensures bufp <= usrbuf.Length && usrbuf[bufp..] == old(usrbuf[bufp..])
      ensures Calm(old(fd.schedule)) ==> Calm(fd.schedule) && rc >= 0
    {
      hide LineLength;
      ghost var all := Unread();
      ghost var max := Less1(maxlen);
      var n: nat := 1;
      bufp := 0;
      assert all == all[0..];
      while n < maxlen
        invariant n == bufp + 1 && Valid() && bufp <= |all| && bufp <= max
        invariant usrbuf[..bufp] == all[..bufp] && Unread() == all[bufp..]
        invariant LineLength(all, max) == bufp + LineLength(all[bufp..], max - bufp)
        invariant n == 1 ==> usrbuf[..] == old(usrbuf[..])
        invariant usrbuf[bufp..] == old(usrbuf[bufp..])
        invariant Calm(old(fd.schedule)) ==> Calm(fd.schedule)
      {
        var c;
        rc, c := ReadChar();
        if rc == 1 {
          LineStep(all, bufp, max);
          assert usrbuf[bufp + 1..] == usrbuf[bufp..][1..];
          Put(usrbuf, bufp, c, all);
          bufp := bufp + 1;
          if c == NEWLINE {
            n := n + 1;
            break;
          }
        } else if rc == 0 {
          if n == 1 {
            return;
          } else {
            break;
          }
        } else {
          return;
        }
        n := n + 1;
      }
      return 1, bufp;
    }

    // rio_readlineb: the next line with its newline, or as much of it as fits, and
    // a NUL after it; but no NUL at the end of the file.  After an error what was
    // read is in the caller's buffer.
    method ReadLineb(usrbuf: array<Byte>, maxlen: nat) returns (r: int)
      requires Valid() && maxlen <= usrbuf.Length && usrbuf.Length > 0 && usrbuf != buf
      modifies this, fd, buf, usrbuf
      ensures Valid() && -1 <= r
      ensures r >= 0 ==> r == LineLength(old(Unread()), Less1(maxlen)) && Unread() == old(Unread())[r..]
      ensures r >= 0 ==> usrbuf[..r] == old(Unread())[..r]
      ensures r >= 0 ==> if r == 0 && maxlen > 1 then usrbuf[..] == old(usrbuf[..])
        else usrbuf[r] == 0 && usrbuf[r + 1..] == old(usrbuf[r + 1..])
      ensures exists k :: (0 <= k <= |old(Unread())| && k <= usrbuf.Length
        && usrbuf[..k] == old(Unread())[..k] && Unread() == old(Unread())[k..]
        && (r < 0 ==> usrbuf[k..] == old(usrbuf[k..])))
      ensures Calm(old(fd.schedule)) ==> Calm(fd.schedule) && r >= 0
    {
      var rc, bufp := ReadLine(usrbuf, maxlen);
      if rc <= 0 {
        return rc;
      }
      assert usrbuf[bufp + 1..] == usrbuf[bufp..][1..] == old(usrbuf[bufp..][1..]) == old(usrbuf[bufp + 1..]);
      usrbuf[bufp] := 0;
      return bufp;
    }

    // rio_read into a variable of one byte
    method ReadChar() returns (rc: int, c: Byte)
      requires Valid()
      modifies this, fd, buf
      ensures Valid() && -1 <= rc <= 1
      ensures rc == 1 ==> old(Unread()) != [] && c == old(Unread())[0] && Unread() == old(Unread())[1..]
      ensures rc == 0 ==> old(Unread()) == Unread() == []
      ensures rc == -1 ==> Unread() == old(Unread())
      ensures Calm(old(fd.schedule)) ==> Calm(fd.schedule) && rc >= 0
    {
      var place := new Byte[1](_ => 0);
      rc := Read(place, 0, 1);
      c := place[0];
      if rc == 1 {
        assert c == place[0..1][0] == old(Unread())[..1][0];
      }
    }
  }

  lemma {:induction false} LineStep(s: seq<Byte>, p: nat, max: nat)
    requires p < |s| && p < max
    ensures s[p..][0] == s[p] && s[p..][1..] == s[p + 1..]
    ensures LineLength(s[p..], max - p) == if s[p] == NEWLINE then 1 else 1 + LineLength(s[p + 1..], max - p - 1)
  {
  }

  lemma {:induction false} Extended(all: seq<Byte>, before: seq<Byte>, after: seq<Byte>, p: nat, k: nat, n: nat)
    requires p + k <= n <= |before| && p + k <= |all| && Kept(before, after, p, k)
    requires before[..p] == all[..p] && after[p..p + k] == all[p..][..k]
    ensures after[..p + k] == all[..p + k] && after[n..] == before[n..] && all[p..][k..] == all[p + k..]
  {
    assert after[..p + k] == after[..p] + after[p..p + k];
    assert after[..p] == before[..p];
  }

  // ---- any sequence of calls

  datatype Call = Bytes(n: nat) | Line(maxlen: nat)

  function Length(s: seq<Byte>, call: Call): (l: nat)
    ensures l <= |s|
  {
    match call
    case Bytes(n) => Min(n, |s|)
    case Line(maxlen) => LineLength(s, Less1(maxlen))
  }

  // What the calls return, of a stream s.
  function Answers(s: seq<Byte>, calls: seq<Call>): seq<seq<Byte>>
    decreases calls
  {
    if calls == [] then []
    else
      var l := Length(s, calls[0]);
      [s[..l]] + Answers(s[l..], calls[1..])
  }

  function Concat(xs: seq<seq<Byte>>): seq<Byte> { if xs == [] then [] else xs[0] + Concat(xs[1..]) }

  lemma {:induction false} Pieces(s: seq<Byte>, l: nat, c: seq<Byte>)
    requires l <= |s| && |c| <= |s[l..]| && s[l..] == c + s[l..][|c|..]
    ensures |s[..l] + c| <= |s| && s == (s[..l] + c) + s[|s[..l] + c|..]
  {
    assert s == s[..l] + s[l..];
    assert s[l..][|c|..] == s[l + |c|..];
  }

  // The answers are consecutive pieces of the stream: nothing is lost, repeated or
  // out of order.
  lemma {:induction false} Consecutive(s: seq<Byte>, calls: seq<Call>)
    ensures var c := Concat(Answers(s, calls)); |c| <= |s| && s == c + s[|c|..]
    decreases calls
  {
    if calls != [] {
      var l := Length(s, calls[0]);
      var a := Answers(s[l..], calls[1..]);
      Consecutive(s[l..], calls[1..]);
      Pieces(s, l, Concat(a));
      assert ([s[..l]] + a)[1..] == a;
    }
  }

  method Serve(reader: Reader, call: Call) returns (answer: seq<Byte>)
    requires reader.Valid() && Calm(reader.fd.schedule)
    modifies reader, reader.fd, reader.buf
    ensures reader.Valid() && Calm(reader.fd.schedule)
    ensures var l := Length(old(reader.Unread()), call);
      answer == old(reader.Unread())[..l] && reader.Unread() == old(reader.Unread())[l..]
  {
    match call {
      case Bytes(n) =>
        var usrbuf := new Byte[n](_ => 0);
        var r := reader.ReadNb(usrbuf, n);
        answer := usrbuf[..r];
      case Line(maxlen) =>
        var usrbuf := new Byte[maxlen + 1](_ => 0);
        var r := reader.ReadLineb(usrbuf, maxlen);
        answer := usrbuf[..r];
    }
  }

  // Where a session is: these answers given, and these calls to come on what is
  // left of the stream.
  ghost predicate Midway(all: seq<Byte>, calls: seq<Call>, answers: seq<seq<Byte>>, left: seq<Byte>, rest: seq<Call>) {
    Answers(all, calls) == answers + Answers(left, rest) && all == Concat(answers) + left
  }

  lemma {:induction false} NextAnswer(all: seq<Byte>, calls: seq<Call>, answers: seq<seq<Byte>>, left: seq<Byte>,
                                      rest: seq<Call>)
    requires Midway(all, calls, answers, left, rest) && rest != []
    ensures var l := Length(left, rest[0]); Midway(all, calls, answers + [left[..l]], left[l..], rest[1..])
  {
    var l := Length(left, rest[0]);
    var x, y := left[..l], Answers(left[l..], rest[1..]);
    ConcatLast(answers, x);
    assert left == x + left[l..];
    assert Concat(answers) + (x + left[l..]) == Concat(answers) + x + left[l..];
    assert answers + ([x] + y) == answers + [x] + y;
  }

  // However the reads are interrupted and cut short, the calls return what they
  // would of the plain stream.
  method Session(reader: Reader, calls: seq<Call>) returns (answers: seq<seq<Byte>>)
    requires reader.Valid() && Calm(reader.fd.schedule)
    modifies reader, reader.fd, reader.buf
    ensures reader.Valid() && answers == Answers(old(reader.Unread()), calls)
    ensures old(reader.Unread()) == Concat(answers) + reader.Unread()
  {
    ghost var all := reader.Unread();
    answers := [];
    var rest := calls;
    while rest != []
      invariant reader.Valid() && Calm(reader.fd.schedule)
      invariant Midway(all, calls, answers, reader.Unread(), rest)
      decreases |rest|
    {
      NextAnswer(all, calls, answers, reader.Unread(), rest);
      var answer := Serve(reader, rest[0]);
      answers := answers + [answer];
      rest := rest[1..];
    }
  }

  lemma {:induction false} ConcatLast(xs: seq<seq<Byte>>, x: seq<Byte>)
    ensures Concat(xs + [x]) == Concat(xs) + x
  {
    if xs != [] {
      assert (xs + [x])[1..] == xs[1..] + [x];
      ConcatLast(xs[1..], x);
    } else {
      assert [x][1..] == [];
    }
  }
}
