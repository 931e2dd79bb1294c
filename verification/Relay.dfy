/** Streams of bytes tagged with the connection they came from. */
module Streams {

  datatype Tagged = Tagged(conn: nat, byte: char)

  function Tag(conn: nat, bytes: seq<char>): seq<Tagged> {
    seq(|bytes|, i requires 0 <= i < |bytes| => Tagged(conn, bytes[i]))
  }

  /** The bytes of one connection, in order. */
  function Restrict(s: seq<Tagged>, conn: nat): seq<char> {
    if s == [] then []
    else (if s[0].conn == conn then [s[0].byte] else []) + Restrict(s[1..], conn)
  }

  lemma {:induction false} RestrictAppend(s: seq<Tagged>, t: seq<Tagged>, conn: nat)
    ensures Restrict(s + t, conn) == Restrict(s, conn) + Restrict(t, conn)
  {
    if s == [] {
      assert s + t == t;
    } else {
      assert (s + t)[0] == s[0] && (s + t)[1..] == s[1..] + t;
      RestrictAppend(s[1..], t, conn);
      var head := if s[0].conn == conn then [s[0].byte] else [];
      assert head + (Restrict(s[1..], conn) + Restrict(t, conn)) == (head + Restrict(s[1..], conn)) + Restrict(t, conn);
    }
  }

  lemma {:induction false} RestrictTag(tag: nat, bytes: seq<char>, conn: nat)
    ensures Restrict(Tag(tag, bytes), conn) == if tag == conn then bytes else []
  {
    if bytes != [] {
      assert Tag(tag, bytes)[1..] == Tag(tag, bytes[1..]);
      RestrictTag(tag, bytes[1..], conn);
    }
  }

  lemma {:induction false} RestrictSubsequence(a: seq<Tagged>, b: seq<Tagged>, conn: nat)
    requires Subsequence(a, b)
    ensures Subsequence(Restrict(a, conn), Restrict(b, conn))
    decreases |b|
  {
    if a != [] {
      if a[0] == b[0] && Subsequence(a[1..], b[1..]) {
        RestrictSubsequence(a[1..], b[1..], conn);
        if a[0].conn == conn {
          var r, t := Restrict(a, conn), Restrict(b, conn);
          assert r[0] == t[0] && r[1..] == Restrict(a[1..], conn) && t[1..] == Restrict(b[1..], conn);
        } else {
          assert Restrict(a, conn) == Restrict(a[1..], conn) && Restrict(b, conn) == Restrict(b[1..], conn);
        }
      } else {
        RestrictSubsequence(a, b[1..], conn);
        if b[0].conn == conn {
          assert Restrict(b, conn)[1..] == Restrict(b[1..], conn);
        } else {
          assert Restrict(b, conn) == Restrict(b[1..], conn);
        }
      }
    }
  }

  /** `a` is `b` with some elements left out. */
  predicate Subsequence<T(==)>(a: seq<T>, b: seq<T>) {
    a == [] || (b != [] && ((a[0] == b[0] && Subsequence(a[1..], b[1..])) || Subsequence(a, b[1..])))
  }

  /** `at` names places of `b`, in ascending order, where the elements of `a` stand. */
  predicate Embeds<T(==)>(a: seq<T>, b: seq<T>, at: seq<nat>) {
    && |at| == |a|
    && (forall i :: 0 <= i < |at| ==> at[i] < |b| && b[at[i]] == a[i])
    && (forall i, j :: 0 <= i < j < |at| ==> at[i] < at[j])
  }

  lemma {:induction false} EmbeddingOf<T>(a: seq<T>, b: seq<T>) returns (at: seq<nat>)
    requires Subsequence(a, b)
    ensures Embeds(a, b, at)
    decreases |b|
  {
    if a == [] {
      at := [];
    } else if a[0] == b[0] && Subsequence(a[1..], b[1..]) {
      var rest := EmbeddingOf(a[1..], b[1..]);
      EmbedsBoth(a, b, rest);
      at := [0] + Shifted(rest, 1);
    } else {
      var rest := EmbeddingOf(a, b[1..]);
      at := Shifted(rest, 1);
    }
  }

  lemma EmbedsBoth<T>(a: seq<T>, b: seq<T>, rest: seq<nat>)
    requires a != [] && b != [] && a[0] == b[0] && Embeds(a[1..], b[1..], rest)
    ensures Embeds(a, b, [0] + Shifted(rest, 1))
  {
    var at := [0] + Shifted(rest, 1);
    assert forall i :: 0 < i < |a| ==> at[i] == rest[i - 1] + 1 && b[1..][rest[i - 1]] == a[1..][i - 1];
  }

  function Shifted(at: seq<nat>, d: nat): (r: seq<nat>)
    ensures |r| == |at| && forall i :: 0 <= i < |at| ==> r[i] == at[i] + d
  {
    seq(|at|, i requires 0 <= i < |at| => at[i] + d)
  }

  lemma {:induction false} EmbeddedIsSubsequence<T>(a: seq<T>, b: seq<T>, at: seq<nat>)
    requires Embeds(a, b, at)
    ensures Subsequence(a, b)
    decreases |b|
  {
    if a != [] {
      if at[0] == 0 {
        var rest := seq(|at| - 1, i requires 0 <= i < |at| - 1 => (assert at[0] < at[i + 1]; at[i + 1] - 1));
        EmbeddedIsSubsequence(a[1..], b[1..], rest);
      } else {
        var rest := seq(|at|, i requires 0 <= i < |at| => (assert at[0] <= at[i]; at[i] - 1));
        EmbeddedIsSubsequence(a, b[1..], rest);
      }
    }
  }

  /** What a subsequence is, element by element. */
  lemma SubsequenceIff<T>(a: seq<T>, b: seq<T>)
    ensures Subsequence(a, b) <==> exists at: seq<nat> :: Embeds(a, b, at)
  {
    if Subsequence(a, b) {
      var at := EmbeddingOf(a, b);
    }
    if at: seq<nat> :| Embeds(a, b, at) {
      EmbeddedIsSubsequence(a, b, at);
    }
  }

  lemma {:induction false} SubsequenceAppend<T>(a: seq<T>, b: seq<T>, c: seq<T>, d: seq<T>)
    requires Subsequence(a, b) && Subsequence(c, d)
    ensures Subsequence(a + c, b + d)
    decreases |b|
  {
    if b == [] {
      assert a + c == c && b + d == d;
    } else if a != [] && a[0] == b[0] && Subsequence(a[1..], b[1..]) {
      assert (a + c)[1..] == a[1..] + c && (b + d)[1..] == b[1..] + d;
      SubsequenceAppend(a[1..], b[1..], c, d);
    } else {
      assert (b + d)[1..] == b[1..] + d;
      SubsequenceAppend(a, b[1..], c, d);
    }
  }

  lemma {:induction false} PrefixIsSubsequence<T>(a: seq<T>, n: nat)
    requires n <= |a|
    ensures Subsequence(a[..n], a)
  {
    if n > 0 {
      assert a[..n][1..] == a[1..][..n - 1];
      PrefixIsSubsequence(a[1..], n - 1);
    }
  }

  lemma {:induction false} SubsequenceTransitive<T>(a: seq<T>, b: seq<T>, c: seq<T>)
    requires Subsequence(a, b) && Subsequence(b, c)
    ensures Subsequence(a, c)
    decreases |b| + |c|
  {
    if a != [] {
      if b[0] == c[0] && Subsequence(b[1..], c[1..]) {
        if a[0] == b[0] && Subsequence(a[1..], b[1..]) {
          SubsequenceTransitive(a[1..], b[1..], c[1..]);
        } else {
          SubsequenceTransitive(a, b[1..], c[1..]);
        }
      } else {
        SubsequenceTransitive(a, b, c[1..]);
      }
    }
  }
}

/** The select loop (relay-server/src/RelayServer.cpp).  What the system calls answer is input; every
    open descriptor carries the identity of what it was opened for, so that a number that is closed
    and handed out again can be told from the one before. */
module Relay {
  import opened Streams

  datatype Selected = Ready(fds: set<int>) | Interrupted | Failed

  /** `read` returns a non-empty chunk, or end of file or an error. */
  datatype Read = Data(bytes: seq<char>) | Ended

  /** Opening the FIFO fails, or gives a descriptor and the write takes the first `n` bytes only. */
  datatype Logger = NoReader | Opens(fd: int, n: nat)

  /** The answers of one pass: `accepted` is the number the kernel would give a new client. */
  datatype Answers = Answers(selected: Selected, accepted: int, input: int -> Read, logger: int -> Logger)

  /** A call of handleClientData: the descriptor and what it stood for. */
  datatype Call = Call(fd: int, conn: nat)

  /** `nbytes <= 0`. */
  predicate Ends(r: Read) { r.Ended? || r.bytes == [] }

  function Got(received: map<nat, seq<char>>, conn: nat): seq<char> {
    if conn in received then received[conn] else []
  }

  /** The descriptors that a pass reads, in the order of the loop, with their meaning before the pass. */
  function CallsOf(ready: set<int>, listener: int, open: map<int, nat>, upto: nat): (r: seq<Call>)
    requires ready <= open.Keys
  {
    if upto == 0 then []
    else
      CallsOf(ready, listener, open, upto - 1) +
      (if upto - 1 in ready && upto - 1 != listener then [Call(upto - 1, open[upto - 1])] else [])
  }

  /** A read of a ready descriptor below `upto`, as the connection it stands for in `open`. */
  predicate GoodCall(ready: set<int>, listener: int, open: map<int, nat>, upto: int, c: Call)
    requires ready <= open.Keys
  {
    0 <= c.fd < upto && c.fd in ready && c.fd != listener && c.conn == open[c.fd]
  }

  /** At most one call for each descriptor, in ascending order, each on a ready descriptor. */
  lemma {:induction false} CallsOncePerPass(ready: set<int>, listener: int, open: map<int, nat>, upto: nat)
    requires ready <= open.Keys
    ensures forall c :: c in CallsOf(ready, listener, open, upto) ==> GoodCall(ready, listener, open, upto, c)
    ensures forall i, j :: 0 <= i < j < |CallsOf(ready, listener, open, upto)| ==>
      CallsOf(ready, listener, open, upto)[i].fd < CallsOf(ready, listener, open, upto)[j].fd
  {
    if upto > 0 {
      CallsOncePerPass(ready, listener, open, upto - 1);
      var cs, before := CallsOf(ready, listener, open, upto), CallsOf(ready, listener, open, upto - 1);
      forall c | c in cs
        ensures GoodCall(ready, listener, open, upto, c)
      {
        assert c in before ==> GoodCall(ready, listener, open, upto - 1, c);
      }
      forall i, j | 0 <= i < j < |cs|
        ensures cs[i].fd < cs[j].fd
      {
        assert cs[i] == before[i] && before[i] in before;
        assert j < |before| ==> cs[j] == before[j];
      }
    }
  }

  /** No ready client descriptor is left out. */
  lemma {:induction false} CallsAllReady(ready: set<int>, listener: int, open: map<int, nat>, upto: nat, fd: int)
    requires ready <= open.Keys && fd in ready && 0 <= fd < upto && fd != listener
    ensures Call(fd, open[fd]) in CallsOf(ready, listener, open, upto)
  {
    var before := CallsOf(ready, listener, open, upto - 1);
    if fd < upto - 1 {
      CallsAllReady(ready, listener, open, upto - 1, fd);
      var i :| 0 <= i < |before| && before[i] == Call(fd, open[fd]);
      assert CallsOf(ready, listener, open, upto)[i] == before[i];
    } else {
      assert (before + [Call(fd, open[fd])])[|before|] == Call(fd, open[fd]);
    }
  }

  /** What a pass puts into the pipe, in the order of the loop. */
  function BytesOf(e: Answers, ready: set<int>, listener: int, open: map<int, nat>, upto: nat): seq<Tagged>
    requires ready <= open.Keys
  {
    if upto == 0 then []
    else
      BytesOf(e, ready, listener, open, upto - 1) +
      (if upto - 1 in ready && upto - 1 != listener && !Ends(e.input(upto - 1))
       then Tag(open[upto - 1], e.input(upto - 1).bytes) else [])
  }

  /** What the FIFO takes of `len` bytes: nothing if it does not open, or what one write takes. */
  function Taken(logger: Logger, open: map<int, nat>, len: nat): (n: nat)
    ensures n <= len
  {
    if logger.Opens? && logger.fd >= 0 && logger.fd !in open then
      if logger.n < len then logger.n else len
    else 0
  }

  /** The descriptor table: which numbers are open, and the identity each was opened with. */
  class Kernel {
    var open: map<int, nat>
    var next: nat

    ghost predicate Valid()
      reads this
    {
      && (forall fd :: fd in open ==> fd >= 0 && open[fd] < next)
      && (forall f, g :: f in open && g in open && open[f] == open[g] ==> f == g)
    }

    constructor (listener: int)
      requires listener >= 0
      ensures Valid() && open == map[listener := 0] && next == 1
    {
      open := map[listener := 0];
      next := 1;
    }

    /** accept and open give a number that is not in use, or fail. */
    method Open(wanted: int) returns (fd: int)
      requires Valid()
      modifies this
      ensures Valid() && next == old(next) + 1
      ensures fd == if wanted >= 0 && wanted !in old(open) then wanted else -1
      ensures open == if fd >= 0 then old(open)[fd := old(next)] else old(open)
    {
      fd := if wanted >= 0 && wanted !in open then wanted else -1;
      if fd >= 0 {
        open := open[fd := next];
      }
      next := next + 1;
    }

    method Close(fd: int)
      requires Valid()
      modifies this
      ensures Valid() && next == old(next)
      ensures open == old(open) - {fd}
    {
      open := open - {fd};
    }
  }

  /** A descriptor of the set that was closed below `upto`. */
  predicate Closed(e: Answers, listener: int, was: set<int>, upto: int, f: int) {
    f < upto && Dropped(e, was, listener, f)
  }

  /** A client is accepted on `e.accepted`: that number is free when the listener's turn comes. */
  predicate Accepts(e: Answers, listener: int, was: set<int>, table: map<int, nat>) {
    && listener in ReadyNow(e, was) && e.accepted >= 0
    && (e.accepted !in table || Closed(e, listener, was, listener, e.accepted))
  }

  /** Where a pass stands before descriptor `upto`, exactly: the set and the open descriptors are those of the
      moment of `select` but for the connections that ended below `upto`, and for the client accepted once
      the listener has had its turn.  The others stand for what they stood for then. */
  ghost predicate Tracks(e: Answers, listener: int, was: set<int>, table: map<int, nat>, first: nat, upto: int,
                         now: set<int>, open: map<int, nat>)
  {
    var accepted := listener < upto && Accepts(e, listener, was, table);
    && (forall f :: f in now <==>
          (f in was && !Closed(e, listener, was, upto, f)) || (accepted && f == e.accepted))
    && (forall f :: f in open <==>
          (f in table && !Closed(e, listener, was, upto, f)) || (accepted && f == e.accepted))
    && (forall f :: f in table && !Closed(e, listener, was, upto, f) ==> open[f] == table[f])
    && (accepted ==> open[e.accepted] >= first)
  }

  lemma TracksStart(e: Answers, listener: int, was: set<int>, table: map<int, nat>, first: nat, upto: int)
    requires was <= table.Keys && (forall f :: f in was ==> f >= 0)
    requires (upto == 0 && listener >= 0) || e.selected.Failed?
    ensures Tracks(e, listener, was, table, first, upto, was, table)
  {
  }

  /** The listener's turn: the new client is in the set, under a number free just then. */
  lemma TracksAccepted(e: Answers, listener: int, was: set<int>, table: map<int, nat>, first: nat,
                       now: set<int>, open: map<int, nat>, conn: nat)
    requires was <= table.Keys && Tracks(e, listener, was, table, first, listener, now, open)
    requires conn >= first
    ensures Accepts(e, listener, was, table) <==>
              listener in ReadyNow(e, was) && e.accepted >= 0 && e.accepted !in open
    ensures if Accepts(e, listener, was, table)
            then Tracks(e, listener, was, table, first, listener + 1, now + {e.accepted}, open[e.accepted := conn])
            else Tracks(e, listener, was, table, first, listener + 1, now, open)
  {
    assert forall f :: Closed(e, listener, was, listener + 1, f) <==> Closed(e, listener, was, listener, f);
  }

  /** The turn of another descriptor: it goes if its connection ended. */
  lemma TracksHandled(e: Answers, listener: int, was: set<int>, table: map<int, nat>, first: nat, upto: int,
                      now: set<int>, open: map<int, nat>)
    requires was <= table.Keys && Tracks(e, listener, was, table, first, upto, now, open) && upto != listener
    ensures !Dropped(e, was, listener, upto) ==> Tracks(e, listener, was, table, first, upto + 1, now, open)
    ensures Dropped(e, was, listener, upto) ==>
      Tracks(e, listener, was, table, first, upto + 1, now - {upto}, open - {upto})
  {
    forall f: int
      ensures Closed(e, listener, was, upto + 1, f) <==>
                Closed(e, listener, was, upto, f) || (f == upto && Dropped(e, was, listener, f))
    {
    }
  }

  /** The state of the server as a value. */
  datatype Snapshot = Snapshot(masterSet: set<int>, open: map<int, nat>, next: nat, maxFd: int,
                               calls: seq<Call>, pipe: seq<Tagged>, fifo: seq<Tagged>)

  /** What the body of the inner loop does to the state `x`: a client accepted under a number that is free, a
      connection that ended dropped, or a chunk put into the pipe and, as far as it takes it, the FIFO. */
  ghost predicate Served(e: Answers, listener: int, x: Snapshot, y: Snapshot, fd: int, ready: bool)
    requires ready ==> fd in x.open
  {
    && y.next >= x.next
    && y.calls == x.calls + (if ready && fd != listener then [Call(fd, x.open[fd])] else [])
    && (if ready && fd == listener && e.accepted >= 0 && e.accepted !in x.open then
          && y.masterSet == x.masterSet + {e.accepted} && y.open == x.open[e.accepted := x.next]
          && y.maxFd == (if e.accepted > x.maxFd then e.accepted else x.maxFd)
        else if ready && fd != listener && Ends(e.input(fd)) then
          y.masterSet == x.masterSet - {fd} && y.open == x.open - {fd} && y.maxFd == x.maxFd
        else
          y.masterSet == x.masterSet && y.open == x.open && y.maxFd == x.maxFd)
    && (if ready && fd != listener && !Ends(e.input(fd)) then
          var chunk := Tag(x.open[fd], e.input(fd).bytes);
          && y.pipe == x.pipe + chunk
          && y.fifo == x.fifo + chunk[..Taken(e.logger(fd), x.open, |chunk|)]
        else
          y.pipe == x.pipe && y.fifo == x.fifo)
  }

  /** The FIFO will open for this descriptor, whatever client is accepted meanwhile, and take all. */
  predicate TakesAll(e: Answers, table: map<int, nat>, f: int) {
    && e.logger(f).Opens? && e.logger(f).fd >= 0 && e.logger(f).fd !in table && e.logger(f).fd != e.accepted
    && (!Ends(e.input(f)) ==> e.logger(f).n >= |e.input(f).bytes|)
  }

  /** What was read and written below descriptor `upto` in a pass that began in `p`. */
  ghost predicate Streaming(e: Answers, listener: int, p: Snapshot, x: Snapshot, upto: nat)
    requires p.masterSet <= p.open.Keys
  {
    var ready := ReadyNow(e, p.masterSet);
    && x.calls == p.calls + CallsOf(ready, listener, p.open, upto)
    && x.pipe == p.pipe + BytesOf(e, ready, listener, p.open, upto)
    && ((forall f :: f in ready ==> TakesAll(e, p.open, f)) ==>
          x.fifo == p.fifo + BytesOf(e, ready, listener, p.open, upto))
  }

  /** The highest descriptor, once the listener has had its turn or before. */
  function Highest(e: Answers, listener: int, p: Snapshot, fd: int): int {
    if fd > listener && Accepts(e, listener, p.masterSet, p.open) && e.accepted > p.maxFd then e.accepted
    else p.maxFd
  }

  ghost predicate Begins(listener: int, p: Snapshot) {
    && p.masterSet <= p.open.Keys && listener in p.masterSet
    && forall f :: f in p.masterSet ==> 0 <= f <= p.maxFd
  }

  function Below(p: Snapshot, fd: int): nat
    requires p.maxFd >= 0
  {
    if fd < 0 then 0 else if fd <= p.maxFd then fd else p.maxFd + 1
  }

  /** Where a pass that began in `p` stands before descriptor `fd`. */
  ghost predicate Passing(e: Answers, listener: int, p: Snapshot, x: Snapshot, fd: int)
    requires Begins(listener, p)
  {
    && 0 <= fd <= x.maxFd + 1 && x.next >= p.next && x.maxFd == Highest(e, listener, p, fd)
    && Tracks(e, listener, p.masterSet, p.open, p.next, fd, x.masterSet, x.open)
    && Streaming(e, listener, p, x, Below(p, fd))
  }

  /** A whole pass, from `p` to `x`. */
  ghost predicate IsPass(e: Answers, listener: int, p: Snapshot, x: Snapshot) {
    Begins(listener, p) && Passing(e, listener, p, x, x.maxFd + 1)
  }

  /** The descriptor whose turn comes still stands for what it stood for. */
  lemma TurnReady(e: Answers, listener: int, p: Snapshot, x: Snapshot, fd: int)
    requires Begins(listener, p) && Passing(e, listener, p, x, fd) && fd in ReadyNow(e, p.masterSet)
    ensures fd in x.masterSet && fd in x.open && fd in p.open && x.open[fd] == p.open[fd] && fd <= p.maxFd
  {
  }

  lemma ListenerTurn(e: Answers, listener: int, p: Snapshot, x: Snapshot, y: Snapshot)
    requires Begins(listener, p) && Passing(e, listener, p, x, listener)
    requires listener in ReadyNow(e, p.masterSet) ==> listener in x.open
    requires Served(e, listener, x, y, listener, listener in ReadyNow(e, p.masterSet))
    ensures Passing(e, listener, p, y, listener + 1)
  {
    TracksAccepted(e, listener, p.masterSet, p.open, p.next, x.masterSet, x.open, x.next);
  }

  lemma ClientTurn(e: Answers, listener: int, p: Snapshot, x: Snapshot, y: Snapshot, fd: int)
    requires Begins(listener, p) && Passing(e, listener, p, x, fd) && fd <= x.maxFd && fd != listener
    requires fd in ReadyNow(e, p.masterSet) ==> fd in x.open
    requires Served(e, listener, x, y, fd, fd in ReadyNow(e, p.masterSet))
    ensures Passing(e, listener, p, y, fd + 1)
  {
    TracksHandled(e, listener, p.masterSet, p.open, p.next, fd, x.masterSet, x.open);
    ClientStream(e, listener, p, x, y, fd);
  }

  lemma ClientStream(e: Answers, listener: int, p: Snapshot, x: Snapshot, y: Snapshot, fd: int)
    requires Begins(listener, p) && Passing(e, listener, p, x, fd) && fd != listener
    requires fd in ReadyNow(e, p.masterSet) ==> fd in x.open
    requires Served(e, listener, x, y, fd, fd in ReadyNow(e, p.masterSet))
    ensures Streaming(e, listener, p, y, Below(p, fd + 1))
  {
    if fd in ReadyNow(e, p.masterSet) {
      TurnReady(e, listener, p, x, fd);
      if TakesAll(e, p.open, fd) && !Ends(e.input(fd)) {
        assert e.logger(fd).fd !in x.open;
        var chunk := Tag(x.open[fd], e.input(fd).bytes);
        assert chunk[..Taken(e.logger(fd), x.open, |chunk|)] == chunk;
      }
    }
  }

  class RelayServer {
    const kernel: Kernel
    const listenerFd: int
    var masterSet: set<int>
    var maxFd: int
    var pipe: seq<Tagged>               // everything written to the pipe
    var fifo: seq<Tagged>               // everything written to the FIFO
    ghost var received: map<nat, seq<char>>  // everything read, by connection
    ghost var calls: seq<Call>
    ghost var ended: map<nat, nat>      // connections that ended, and how many calls there were by then

    /** The listener is always in the set; every descriptor in the set is open and at most maxFd. */
    ghost predicate Valid()
      reads this, kernel
    {
      && kernel.Valid()
      && listenerFd in masterSet
      && masterSet <= kernel.open.Keys
      && forall fd :: fd in masterSet ==> 0 <= fd <= maxFd
    }

    /** The pipe carries the bytes of each connection unchanged and in order; the FIFO a part of them. */
    ghost predicate Merged()
      reads this
    {
      && (forall conn: nat :: Restrict(pipe, conn) == Got(received, conn))
      && Subsequence(fifo, pipe)
    }

    /** A connection that has ended is never read again, whoever got its number since. */
    ghost predicate Settled()
      reads this, kernel
    {
      && (forall fd :: fd in kernel.open ==> kernel.open[fd] !in ended)
      && (forall conn :: conn in ended ==> conn < kernel.next)
      && (forall i :: 0 <= i < |calls| ==> calls[i].conn < kernel.next && InTime(i))
    }

    ghost predicate InTime(i: nat)
      requires i < |calls|
      reads this
    {
      calls[i].conn in ended ==> i < ended[calls[i].conn]
    }

    /** The start of `run`: lines 50-54. */
    constructor (listener: int)
      requires listener >= 0
      ensures Valid() && Merged() && Settled() && fresh(kernel)
      ensures masterSet == {listener} && listenerFd == listener && calls == [] && pipe == [] && ended == map[]
    {
      kernel := new Kernel(listener);
      listenerFd := listener;
      masterSet := {listener};
      maxFd := listener;
      pipe, fifo, received, calls, ended := [], [], map[], [], map[];
    }

    /** Lines 169-183. */
    method HandleClientData(clientFd: int, answer: Read, logger: Logger)
      requires Valid() && Merged() && Settled()
      requires clientFd in masterSet && clientFd != listenerFd
      modifies this, kernel
      ensures Valid() && Merged() && Settled() && maxFd == old(maxFd) && kernel.next >= old(kernel.next)
      ensures calls == old(calls) + [Call(clientFd, old(kernel.open)[clientFd])]
      ensures !Ends(answer) ==>
                && masterSet == old(masterSet) && kernel.open == old(kernel.open)
                && pipe == old(pipe) + Tag(kernel.open[clientFd], answer.bytes) && ended == old(ended)
                && fifo == old(fifo) + Tag(kernel.open[clientFd], answer.bytes)
                                         [..Taken(logger, kernel.open, |answer.bytes|)]
      ensures Ends(answer) ==>
                && masterSet == old(masterSet) - {clientFd} && kernel.open == old(kernel.open) - {clientFd}
                && pipe == old(pipe) && fifo == old(fifo) && ended == old(ended)[old(kernel.open)[clientFd] := |calls|]
    {
      var conn := kernel.open[clientFd];
      NoteCall(clientFd);
      var nbytes := if answer.Ended? then 0 else |answer.bytes|;
      if nbytes <= 0 {
        Drop(clientFd);
      } else {
        received := received[conn := Got(received, conn) + answer.bytes];
        Forward(conn, answer.bytes, logger);
      }
    }

    ghost method NoteCall(clientFd: int)
      requires Valid() && Settled() && clientFd in masterSet
      modifies this`calls
      ensures Settled() && calls == old(calls) + [Call(clientFd, kernel.open[clientFd])]
    {
      calls := calls + [Call(clientFd, kernel.open[clientFd])];
      forall i | 0 <= i < |calls|
        ensures calls[i].conn < kernel.next && InTime(i)
      {
        assert i < |old(calls)| ==> old(InTime(i));
      }
    }

    /** Lines 173-174. */
    method Drop(clientFd: int)
      requires Valid() && Settled() && clientFd in masterSet && clientFd != listenerFd
      modifies this`masterSet, this`ended, kernel
      ensures Valid() && Settled() && kernel.next == old(kernel.next)
      ensures masterSet == old(masterSet) - {clientFd} && kernel.open == old(kernel.open) - {clientFd}
      ensures ended == old(ended)[old(kernel.open)[clientFd] := |calls|]
    {
      ended := ended[kernel.open[clientFd] := |calls|];
      kernel.Close(clientFd);
      masterSet := masterSet - {clientFd};
      forall i | 0 <= i < |calls|
        ensures InTime(i)
      {
        assert old(InTime(i));
      }
    }

    /** The FIFO, if it opens, takes a part of `len` bytes: lines 177-181. */
    method WriteFifo(logger: Logger, len: nat) returns (taken: nat)
      requires kernel.Valid()
      modifies kernel
      ensures kernel.Valid() && kernel.open == old(kernel.open) && kernel.next >= old(kernel.next)
      ensures taken == Taken(logger, kernel.open, len)
    {
      taken := 0;
      if logger.Opens? {
        var loggerFd := kernel.Open(logger.fd);
        if loggerFd >= 0 {
          taken := if logger.n < len then logger.n else len;
          kernel.Close(loggerFd);
        }
      }
    }

    /** Writes a chunk to the pipe, and what the FIFO takes of it to the FIFO: lines 176-181. */
    method Forward(conn: nat, bytes: seq<char>, logger: Logger)
      requires Valid() && Subsequence(fifo, pipe)
      requires forall c: nat :: Restrict(pipe, c) + (if c == conn then bytes else []) == Got(received, c)
      modifies this`pipe, this`fifo, kernel
      ensures Valid() && Merged() && pipe == old(pipe) + Tag(conn, bytes)
      ensures fifo == old(fifo) + Tag(conn, bytes)[..Taken(logger, kernel.open, |bytes|)]
      ensures kernel.open == old(kernel.open) && kernel.next >= old(kernel.next)
    {
      var chunk := Tag(conn, bytes);
      forall c: nat
        ensures Restrict(pipe + chunk, c) == Got(received, c)
      {
        RestrictAppend(pipe, chunk, c);
        RestrictTag(conn, bytes, c);
      }
      var taken := WriteFifo(logger, |chunk|);
      PrefixIsSubsequence(chunk, taken);
      SubsequenceAppend(fifo, pipe, chunk[..taken], chunk);
      fifo := fifo + chunk[..taken];
      pipe := pipe + chunk;
    }

    ghost function View(): Snapshot
      reads this, kernel
    {
      Snapshot(masterSet, kernel.open, kernel.next, maxFd, calls, pipe, fifo)
    }

    /** The body of the inner loop: lines 64-75. */
    method Serve(fd: int, e: Answers, ready: bool)
      requires Valid() && Merged() && Settled() && (ready ==> fd in masterSet)
      modifies this, kernel
      ensures Valid() && Merged() && Settled() && Served(e, listenerFd, old(View()), View(), fd, ready)
    {
      if ready {
        if fd == listenerFd {
          var clientFd := kernel.Open(e.accepted);
          if clientFd >= 0 {
            masterSet := masterSet + {clientFd};
            maxFd := if maxFd > clientFd then maxFd else clientFd;
          }
        } else {
          HandleClientData(fd, e.input(fd), e.logger(fd));
        }
      }
    }

    /** One turn of the inner loop. */
    method PassStep(e: Answers, readSet: set<int>, fd: int, ghost p: Snapshot)
      requires Valid() && Merged() && Settled() && Begins(listenerFd, p)
      requires readSet == ReadyNow(e, p.masterSet) && fd <= maxFd && Passing(e, listenerFd, p, View(), fd)
      modifies this, kernel
      ensures Valid() && Merged() && Settled() && Passing(e, listenerFd, p, View(), fd + 1)
      ensures fd <= maxFd <= Highest(e, listenerFd, p, listenerFd + 1)
    {
      ghost var x := View();
      if fd in readSet {
        TurnReady(e, listenerFd, p, x, fd);
      }
      Serve(fd, e, fd in readSet);
      if fd == listenerFd {
        ListenerTurn(e, listenerFd, p, x, View());
      } else {
        ClientTurn(e, listenerFd, p, x, View(), fd);
      }
    }

    /** The inner loop: lines 63-76.  `maxFd` may grow meanwhile. */
    method ServeAll(e: Answers, readSet: set<int>, ghost p: Snapshot)
      requires Valid() && Merged() && Settled() && Begins(listenerFd, p)
      requires readSet == ReadyNow(e, p.masterSet) && Passing(e, listenerFd, p, View(), 0)
      modifies this, kernel
      ensures Valid() && Merged() && Settled() && Passing(e, listenerFd, p, View(), maxFd + 1)
    {
      var fd := 0;
      ghost var top := Highest(e, listenerFd, p, listenerFd + 1);
      while fd <= maxFd
        invariant Valid() && Merged() && Settled() && fd <= maxFd + 1 <= top + 1
        invariant Passing(e, listenerFd, p, View(), fd)
        decreases top - fd
      {
        PassStep(e, readSet, fd, p);
        fd := fd + 1;
      }
    }

    /** One turn of the endless loop: lines 57-76.  False when `select` fails and the server throws.
        Exactly the ready descriptors are read, in ascending order, each once, and each still stands for
        the connection it stood for when `select` returned, although numbers closed in this pass may be
        handed out again in it.  The set then is what it was, without the connections that ended and with
        the client that was accepted; the pipe has got what was read. */
    method SelectPass(e: Answers) returns (ok: bool)
      requires Valid() && Merged() && Settled()
      modifies this, kernel
      ensures Valid() && Merged() && Settled()
      ensures ok <==> !e.selected.Failed?
      ensures !ok ==> View() == old(View())
      ensures IsPass(e, listenerFd, old(View()), View())
    {
      ghost var p := View();
      var readSet := {};
      match e.selected {
        case Failed =>
          FailedPass(e, listenerFd, p);
          return false;
        case Ready(fds) => readSet := fds * masterSet;
        case Interrupted => readSet := masterSet;
      }
      PassStart(e, listenerFd, p);
      ServeAll(e, readSet, p);
      ok := true;
    }

    /** `run` up to any number of turns, or until `select` fails: each turn is a pass, from the state that the
        one before left, and over all of them no connection is read after it has ended. */
    method RunTurns(script: seq<Answers>) returns (turns: nat, ghost states: seq<Snapshot>)
      requires Valid() && Merged() && Settled()
      modifies this, kernel
      ensures Valid() && listenerFd in masterSet && forall fd :: fd in masterSet ==> 0 <= fd <= maxFd
      ensures forall conn: nat :: Restrict(pipe, conn) == if conn in received then received[conn] else []
      ensures Subsequence(fifo, pipe)
      ensures forall i :: 0 <= i < |calls| && calls[i].conn in ended ==> i < ended[calls[i].conn]
      ensures turns <= |script| && forall i :: 0 <= i < turns ==> !script[i].selected.Failed?
      ensures turns < |script| ==> script[turns].selected.Failed?
      ensures |states| == turns + 1 && states[0] == old(View()) && states[turns] == View()
      ensures forall i :: 0 <= i < turns ==> IsPass(script[i], listenerFd, states[i], states[i + 1])
    {
      turns := 0;
      states := [View()];
      while turns < |script|
        invariant Valid() && Merged() && Settled() && turns <= |script|
        invariant forall i :: 0 <= i < turns ==> !script[i].selected.Failed?
        invariant |states| == turns + 1 && states[0] == old(View()) && states[turns] == View()
        invariant forall i :: 0 <= i < turns ==> IsPass(script[i], listenerFd, states[i], states[i + 1])
      {
        var ok := SelectPass(script[turns]);
        if !ok {
          break;
        }
        states := states + [View()];
        turns := turns + 1;
      }
      assert forall i :: 0 <= i < |calls| ==> InTime(i);
    }
  }

  /** Whether the pass finds `f` readable: what `select` reports, or all of the set after a signal. */
  predicate Reported(e: Answers, f: int) {
    e.selected.Interrupted? || (e.selected.Ready? && f in e.selected.fds)
  }

  /** Accepting: a client that comes under a free number, or under one that this pass closed before the
      listener's turn, is in the set afterwards; nobody else is new. */
  lemma PassAccepts(e: Answers, listener: int, p: Snapshot, x: Snapshot)
    requires IsPass(e, listener, p, x)
    ensures
      (e.selected.Interrupted? || (e.selected.Ready? && listener in e.selected.fds)) && e.accepted >= 0 &&
      (e.accepted !in p.open ||
       (e.accepted in p.masterSet && e.accepted < listener && Reported(e, e.accepted) &&
        (e.input(e.accepted).Ended? || |e.input(e.accepted).bytes| == 0)))
      ==> e.accepted in x.masterSet && e.accepted in x.open && x.open[e.accepted] >= p.next && x.maxFd >= e.accepted
    ensures forall f :: f in x.masterSet ==>
              f in p.masterSet || (f == e.accepted && f >= 0 && f !in p.open && Reported(e, listener))
  {
    assert listener <= p.maxFd <= x.maxFd;
  }

  /** Reading: a connection of the set that is not readable stays; one that is readable is read, and stays
      with its bytes in the pipe, or goes if it ended. */
  lemma PassReads(e: Answers, listener: int, p: Snapshot, x: Snapshot, f: int)
    requires IsPass(e, listener, p, x)
    requires forall g, h :: g in p.open && h in p.open && p.open[g] == p.open[h] ==> g == h
    requires f in p.masterSet && f != listener
    ensures !Reported(e, f) ==> f in x.masterSet && x.open[f] == p.open[f]
    ensures !Reported(e, f) ==> Restrict(x.pipe, p.open[f]) == Restrict(p.pipe, p.open[f])
    ensures Reported(e, f) ==> |p.calls| <= |x.calls| && Call(f, p.open[f]) in x.calls[|p.calls|..]
    ensures Reported(e, f) && e.input(f).Data? && |e.input(f).bytes| > 0 ==>
              && f in x.masterSet && x.open[f] == p.open[f]
              && Restrict(x.pipe, p.open[f]) == Restrict(p.pipe, p.open[f]) + e.input(f).bytes
    ensures Reported(e, f) && (e.input(f).Ended? || |e.input(f).bytes| == 0) ==>
              && (f in x.masterSet ==> f == e.accepted && x.open[f] >= p.next)
              && Restrict(x.pipe, p.open[f]) == Restrict(p.pipe, p.open[f])
  {
    var ready := ReadyNow(e, p.masterSet);
    assert f in ready <==> Reported(e, f);
    var sent := BytesOf(e, ready, listener, p.open, Below(p, x.maxFd + 1));
    RestrictAppend(p.pipe, sent, p.open[f]);
    RestrictBytes(e, ready, listener, p.open, Below(p, x.maxFd + 1), f);
    if f in ready {
      CallsAllReady(ready, listener, p.open, Below(p, x.maxFd + 1), f);
      assert x.calls[|p.calls|..] == CallsOf(ready, listener, p.open, Below(p, x.maxFd + 1));
    }
  }

  /** The FIFO: where it opens under a number that is free and takes whole chunks, it gets what the pipe gets. */
  lemma PassFifo(e: Answers, listener: int, p: Snapshot, x: Snapshot)
    requires IsPass(e, listener, p, x)
    requires forall f :: f in p.masterSet && Reported(e, f) ==>
      && e.logger(f).Opens? && e.logger(f).fd >= 0 && e.logger(f).fd !in p.open && e.logger(f).fd != e.accepted
      && (e.input(f).Data? ==> e.logger(f).n >= |e.input(f).bytes|)
    ensures p.pipe <= x.pipe && x.fifo == p.fifo + x.pipe[|p.pipe|..]
  {
    var sent := BytesOf(e, ReadyNow(e, p.masterSet), listener, p.open, Below(p, x.maxFd + 1));
    forall f | f in ReadyNow(e, p.masterSet)
      ensures TakesAll(e, p.open, f)
    {
      assert f in p.masterSet && Reported(e, f);
    }
    assert x.pipe[|p.pipe|..] == sent;
  }

  /** Of one connection a pass sends what it read of that connection. */
  lemma {:induction false} RestrictBytes(e: Answers, ready: set<int>, listener: int, open: map<int, nat>, upto: nat,
                                         f: int)
    requires ready <= open.Keys && f in open && f != listener
    requires forall g, h :: g in open && h in open && open[g] == open[h] ==> g == h
    ensures Restrict(BytesOf(e, ready, listener, open, upto), open[f])
         == if 0 <= f < upto && f in ready && !Ends(e.input(f)) then e.input(f).bytes else []
  {
    if upto > 0 {
      RestrictBytes(e, ready, listener, open, upto - 1, f);
      var before := BytesOf(e, ready, listener, open, upto - 1);
      if upto - 1 in ready && upto - 1 != listener && !Ends(e.input(upto - 1)) {
        var chunk := Tag(open[upto - 1], e.input(upto - 1).bytes);
        RestrictAppend(before, chunk, open[f]);
        RestrictTag(open[upto - 1], e.input(upto - 1).bytes, open[f]);
        assert open[upto - 1] == open[f] <==> upto - 1 == f;
        assert BytesOf(e, ready, listener, open, upto) == before + chunk;
      } else {
        assert BytesOf(e, ready, listener, open, upto) == before;
      }
    }
  }

  lemma PassStart(e: Answers, listener: int, p: Snapshot)
    requires Begins(listener, p)
    ensures Passing(e, listener, p, p, 0)
  {
    TracksStart(e, listener, p.masterSet, p.open, p.next, 0);
  }

  lemma FailedPass(e: Answers, listener: int, p: Snapshot)
    requires Begins(listener, p) && e.selected.Failed?
    ensures Passing(e, listener, p, p, p.maxFd + 1)
  {
    NothingReady(listener, p.open, p.maxFd + 1);
    NothingSent(e, listener, p.open, p.maxFd + 1);
    TracksStart(e, listener, p.masterSet, p.open, p.next, p.maxFd + 1);
  }

  lemma {:induction false} NothingSent(e: Answers, listener: int, open: map<int, nat>, upto: nat)
    ensures BytesOf(e, {}, listener, open, upto) == []
  {
    if upto > 0 {
      NothingSent(e, listener, open, upto - 1);
    }
  }

  lemma {:induction false} NothingReady(listener: int, open: map<int, nat>, upto: nat)
    ensures CallsOf({}, listener, open, upto) == []
  {
    if upto > 0 {
      NothingReady(listener, open, upto - 1);
    }
  }

  const BUFSIZ: nat := 8192

  /** The child that copies the pipe to standard output: lines 110-114.  `chunks` bounds each read; its
      output is always an initial part of what the pipe carries. */
  method Receive(pipe: seq<Tagged>, chunks: seq<nat>) returns (output: seq<Tagged>)
    ensures output <= pipe
    ensures (forall i :: 0 <= i < |chunks| ==> chunks[i] > 0) && |chunks| >= |pipe| ==> output == pipe
  {
    output := [];
    var i := 0;
    while i < |chunks|
      invariant 0 <= i <= |chunks| && output <= pipe
      invariant (forall j :: 0 <= j < |chunks| ==> chunks[j] > 0) ==> |output| >= i
    {
      var left := |pipe| - |output|;
      var nbytes := if chunks[i] < left then chunks[i] else left;
      nbytes := if nbytes < BUFSIZ then nbytes else BUFSIZ;
      if nbytes == 0 {
        break;
      }
      output := output + pipe[|output|..|output| + nbytes];
      i := i + 1;
    }
  }

  lemma LogStep(file: seq<Tagged>, fifo: seq<Tagged>, at: nat, nbytes: nat, taken: nat)
    requires at + nbytes <= |fifo| && taken <= nbytes && Subsequence(file, fifo[..at])
    ensures Subsequence(file + fifo[at..at + nbytes][..taken], fifo[..at + nbytes])
    ensures taken == nbytes && file == fifo[..at] ==> file + fifo[at..at + nbytes][..taken] == fifo[..at + nbytes]
  {
    var buf := fifo[at..at + nbytes];
    PrefixIsSubsequence(buf, taken);
    SubsequenceAppend(file, fifo[..at], buf[..taken], buf);
    assert fifo[..at] + buf == fifo[..at + nbytes];
    assert taken == nbytes ==> buf[..taken] == buf;
  }

  /** The child that copies the FIFO to logger.log: lines 131-136.  Each write may take a part only. */
  method Log(fifo: seq<Tagged>, chunks: seq<(nat, nat)>) returns (file: seq<Tagged>)
    ensures Subsequence(file, fifo)
    ensures |chunks| >= |fifo| && (forall i :: 0 <= i < |chunks| ==> 0 < chunks[i].0 <= chunks[i].1) ==> file == fifo
  {
    file := [];
    var at, i := 0, 0;
    while i < |chunks|
      invariant 0 <= i <= |chunks| && 0 <= at <= |fifo|
      invariant Subsequence(file, fifo[..at])
      invariant (forall j :: 0 <= j < |chunks| ==> 0 < chunks[j].0 <= chunks[j].1) ==> at >= i && file == fifo[..at]
    {
      var nbytes := if chunks[i].0 < |fifo| - at then chunks[i].0 else |fifo| - at;
      nbytes := if nbytes < BUFSIZ then nbytes else BUFSIZ;
      if nbytes == 0 {
        break;
      }
      var buf := fifo[at..at + nbytes];
      var taken := if chunks[i].1 < nbytes then chunks[i].1 else nbytes;
      LogStep(file, fifo, at, nbytes, taken);
      file := file + buf[..taken];
      at := at + nbytes;
      i := i + 1;
    }
    PrefixIsSubsequence(fifo, at);
    SubsequenceTransitive(file, fifo[..at], fifo);
  }

  /** From the sockets to the log file: what a log holds is a subsequence of the pipe, and what it holds of
      a connection is a subsequence of the bytes read from that connection. */
  lemma LogIsPartOfPipe(received: map<nat, seq<char>>, pipe: seq<Tagged>, fifo: seq<Tagged>, file: seq<Tagged>)
    requires Subsequence(file, fifo) && Subsequence(fifo, pipe)
    requires forall conn: nat :: Restrict(pipe, conn) == Got(received, conn)
    ensures Subsequence(file, pipe)
    ensures forall conn: nat :: Subsequence(Restrict(file, conn), Got(received, conn))
  {
    SubsequenceTransitive(file, fifo, pipe);
    forall conn: nat
      ensures Subsequence(Restrict(file, conn), Got(received, conn))
    {
      RestrictSubsequence(file, pipe, conn);
    }
  }

  /** readSet after `select`: the ready part of the set, or all of it when a signal interrupted the call. */
  function ReadyNow(e: Answers, masterSet: set<int>): set<int> {
    match e.selected
    case Ready(fds) => fds * masterSet
    case Interrupted => masterSet
    case Failed => {}
  }

  /** A descriptor whose connection ends in this pass. */
  predicate Dropped(e: Answers, masterSet: set<int>, listener: int, fd: int) {
    fd in ReadyNow(e, masterSet) && fd != listener && Ends(e.input(fd))
  }
}
