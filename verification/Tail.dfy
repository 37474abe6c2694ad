/**
  The transcript follower (internal/agent/claudepty/tail.go): reads an append-only
  file in whatever pieces the disk shows it, hands each decoded line to a visitor and
  returns the offset at which a later call may resume.

  What the outside world shows one call is a script of polls, one per turn of the
  follower's loop. A script that runs out is a context that expired.
*/
module Tail {
  import opened Common
  import opened Lines

  const MAX_LINE_LEN: nat := 16 * 1024 * 1024

  datatype Stat = StatFailed | Missing | Size(bytes: nat)

  /** One turn of the loop: the context check, the stat, the liveness check, the read. */
  datatype Poll = Poll(cancelled: bool, stat: Stat, dead: bool, got: nat, readFailed: bool)

  /** What one call gets to see; it expires with the context. */
  datatype Script = Expired | Turn(poll: Poll, next: Script)

  datatype Stop = ByVisit | Cancelled | ChildDead | StatError | ReadError | Oversize

  /** The caller's side: how a line decodes (None is malformed), and the visitor. */
  datatype Follower<!S, !R> = Follower(decode: Bytes -> Option<R>, visit: (S, R) -> (S, bool))

  /** `offset` is what the call returns; `unread` counts the bytes read from disk but not handed to the visitor. */
  datatype Outcome<S, R> = Outcome(offset: nat, state: S, visited: seq<R>, stop: Stop, unread: nat)

  /** Stops after which the caller may tail again from the returned offset. */
  predicate Resumable(stop: Stop) {
    stop.ByVisit? || stop.Cancelled? || stop.ChildDead?
  }

  predicate Blank(line: Bytes) {
    forall i :: 0 <= i < |line| ==> line[i] == 32 || 9 <= line[i] <= 13
  }

  /** The record on a line, if it is neither blank nor malformed. */
  function Parse<R>(decode: Bytes -> Option<R>, line: Bytes): Option<R> {
    if Blank(line) then None else decode(line)
  }

  function RecordsOf<R>(decode: Bytes -> Option<R>, lines: seq<Bytes>): seq<R> {
    if lines == [] then [] else RecordOf(decode, lines[0]) + RecordsOf(decode, lines[1..])
  }

  function RecordOf<R>(decode: Bytes -> Option<R>, line: Bytes): seq<R> {
    match Parse(decode, line) case Some(r) => [r] case None => []
  }

  /** One parse of a whole file. */
  function Records<R>(decode: Bytes -> Option<R>, s: Bytes): seq<R> {
    RecordsOf(decode, Complete(s))
  }

  /** The visitor applied to every record, whatever it answers. */
  function Fold<S, R>(f: Follower<S, R>, s: S, records: seq<R>): S {
    if records == [] then s else Fold(f, f.visit(s, records[0]).0, records[1..])
  }

  /** No record of the sequence makes the visitor ask to stop. */
  ghost predicate GoesOn<S, R>(f: Follower<S, R>, s: S, records: seq<R>) {
    records == [] || (!f.visit(s, records[0]).1 && GoesOn(f, f.visit(s, records[0]).0, records[1..]))
  }

  function Min(a: nat, b: nat): nat { if a < b then a else b }

  datatype Fed<S, R> = Fed(state: S, visited: seq<R>, stopped: bool, rest: Bytes)

  /** Takes lines off the buffer until it holds none or the visitor stops. */
  function Feed<S, R>(f: Follower<S, R>, s: S, buf: Bytes): (d: Fed<S, R>)
    ensures |d.rest| <= |buf|
    decreases |buf|
  {
    var i := FirstNewline(buf);
    if i == |buf| then Fed(s, [], false, buf) else
      match Parse(f.decode, buf[..i])
      case None => Feed(f, s, buf[i + 1..])
      case Some(r) =>
        var (s', stop) := f.visit(s, r);
        if stop then Fed(s', [r], true, buf[i + 1..]) else
          var d := Feed(f, s', buf[i + 1..]);
          d.(visited := [r] + d.visited)
  }

  /** The bytes `t` lie in the file from position `a` on. */
  ghost predicate LiesAt(file: Bytes, a: int, t: Bytes) {
    0 <= a && a + |t| <= |file| && forall i :: 0 <= i < |t| ==> t[i] == file[a + i]
  }

  ghost predicate NoLineEnd(file: Bytes, a: nat, b: nat) {
    a <= b <= |file| && forall i :: a <= i < b ==> file[i] != NEWLINE
  }

  /** The buffer holds exactly the bytes before `offset` not yet handed out. */
  ghost predicate InStep(file: Bytes, offset: nat, buf: Bytes) {
    |buf| <= offset <= |file| && LiesAt(file, offset - |buf|, buf)
  }

  /** How far the file reaches at this poll; append-only, so never past its final content. */
  function Visible(file: Bytes, p: Poll): nat {
    match p.stat case Size(n) => Min(n, |file|) case _ => 0
  }

  function Tail<S, R>(f: Follower<S, R>, file: Bytes, s: S, offset: nat, buf: Bytes, script: Script): (o: Outcome<S, R>)
    requires |buf| <= offset <= |file|
    decreases script, 0
  {
    var resumable := offset - |buf|;
    if script.Expired? || script.poll.cancelled then
      Outcome(resumable, s, [], Cancelled, |buf|)
    else
      var p := script.poll;
      var seen := Visible(file, p);
      if p.stat.StatFailed? then
        Outcome(offset, s, [], StatError, |buf|)
      else if seen <= offset then
        if p.dead then Outcome(resumable, s, [], ChildDead, |buf|)
        else Tail(f, file, s, offset, buf, script.next)
      else if p.readFailed then
        Outcome(offset, s, [], ReadError, |buf|)
      else
        var off := offset + Min(p.got, seen - offset);
        AfterRead(f, file, s, off, buf + file[offset..off], script.next)
  }

  /** The rest of a turn whose read succeeded, and the turns after it. */
  function AfterRead<S, R>(f: Follower<S, R>, file: Bytes, s: S, offset: nat, buf: Bytes, script: Script):
    (o: Outcome<S, R>)
    requires |buf| <= offset <= |file|
    decreases script, 1
  {
    if |buf| > MAX_LINE_LEN then Outcome(offset, s, [], Oversize, |buf|) else
      var d := Feed(f, s, buf);
      if d.stopped then Outcome(offset - |d.rest|, d.state, d.visited, ByVisit, |d.rest|)
      else Prepend(d.visited, Tail(f, file, d.state, offset, d.rest, script))
  }

  function Prepend<S, R>(earlier: seq<R>, o: Outcome<S, R>): Outcome<S, R> {
    o.(visited := earlier + o.visited)
  }

  // ---- parsing distributes over aligned cuts ----

  lemma {:induction false} RecordsOfAppend<R>(decode: Bytes -> Option<R>, a: seq<Bytes>, b: seq<Bytes>)
    ensures RecordsOf(decode, a + b) == RecordsOf(decode, a) + RecordsOf(decode, b)
  {
    if a == [] {
      assert a + b == b;
    } else {
      RecordsOfAppend(decode, a[1..], b);
      assert (a + b)[1..] == a[1..] + b;
      Associative(RecordOf(decode, a[0]), RecordsOf(decode, a[1..]), RecordsOf(decode, b));
    }
  }

  lemma RecordsAppend<R>(decode: Bytes -> Option<R>, a: Bytes, b: Bytes)
    requires Aligned(a)
    ensures Records(decode, a + b) == Records(decode, a) + Records(decode, b)
    ensures Aligned(b) ==> Aligned(a + b)
  {
    CutAppendAligned(a, b);
    RecordsOfAppend(decode, Complete(a), Complete(b));
  }

  lemma RecordsOfOne<R>(decode: Bytes -> Option<R>, line: Bytes)
    ensures RecordsOf(decode, [line]) == RecordOf(decode, line)
  {
    assert [line][1..] == [];
  }

  lemma {:induction false} FoldAppend<S, R>(f: Follower<S, R>, s: S, a: seq<R>, b: seq<R>)
    ensures Fold(f, s, a + b) == Fold(f, Fold(f, s, a), b)
    ensures GoesOn(f, s, a + b) <==> GoesOn(f, s, a) && GoesOn(f, Fold(f, s, a), b)
  {
    if a == [] {
      assert a + b == b;
    } else {
      FoldAppend(f, f.visit(s, a[0]).0, a[1..], b);
      assert (a + b)[1..] == a[1..] + b;
    }
  }

  // ---- one buffer ----

  /** What it means for `visited` to account for the aligned bytes `taken`. */
  ghost predicate Accounts<S, R>(f: Follower<S, R>, s: S, taken: Bytes, visited: seq<R>, s': S) {
    Aligned(taken) && visited == Records(f.decode, taken) && s' == Fold(f, s, visited)
  }

  /** The visitor stopped at the last visited record, or not at all. */
  ghost predicate StopsWhereAsked<S, R>(f: Follower<S, R>, s: S, visited: seq<R>, stopped: bool) {
    if !stopped then GoesOn(f, s, visited) else
      visited != []
      && GoesOn(f, s, visited[..|visited| - 1])
      && f.visit(Fold(f, s, visited[..|visited| - 1]), visited[|visited| - 1]).1
  }

  lemma AccountsNothing<S, R>(f: Follower<S, R>, s: S)
    ensures Accounts(f, s, [], [], s)
  {
    LineFree([]);
  }

  lemma AccountsAppend<S, R>(f: Follower<S, R>, s: S, a: Bytes, va: seq<R>, sa: S, b: Bytes, vb: seq<R>, sb: S)
    requires Accounts(f, s, a, va, sa) && Accounts(f, sa, b, vb, sb)
    ensures Accounts(f, s, a + b, va + vb, sb)
  {
    RecordsAppend(f.decode, a, b);
    FoldAppend(f, s, va, vb);
  }

  lemma StopsAppend<S, R>(f: Follower<S, R>, s: S, va: seq<R>, vb: seq<R>, stopped: bool)
    requires GoesOn(f, s, va) && StopsWhereAsked(f, Fold(f, s, va), vb, stopped)
    ensures StopsWhereAsked(f, s, va + vb, stopped)
  {
    if stopped {
      var n := |vb| - 1;
      assert (va + vb)[..|va| + n] == va + vb[..n];
      FoldAppend(f, s, va, vb[..n]);
    } else {
      FoldAppend(f, s, va, vb);
    }
  }

  /** The first line of a buffer, alone. */
  lemma AccountsHead<S, R>(f: Follower<S, R>, s: S, line: Bytes)
    requires NEWLINE !in line
    ensures Parse(f.decode, line).None? ==> Accounts(f, s, line + [NEWLINE], [], s)
    ensures Parse(f.decode, line).Some? ==>
              var r := Parse(f.decode, line).value;
              Accounts(f, s, line + [NEWLINE], [r], f.visit(s, r).0)
  {
    CutOne(line);
    RecordsOfOne(f.decode, line);
    if Parse(f.decode, line).Some? {
      FoldOne(f, s, Parse(f.decode, line).value);
    }
  }

  lemma FoldOne<S, R>(f: Follower<S, R>, s: S, r: R)
    ensures Fold(f, s, [r]) == f.visit(s, r).0
    ensures StopsWhereAsked(f, s, [r], f.visit(s, r).1)
  {
    assert [r][1..] == [] && [r][..0] == [];
  }

  /** Feeding hands out an aligned front of the buffer, record by record. */
  lemma {:induction false} FeedAccounts<S, R>(f: Follower<S, R>, s: S, buf: Bytes) returns (taken: Bytes)
    ensures var d := Feed(f, s, buf);
            && buf == taken + d.rest
            && Accounts(f, s, taken, d.visited, d.state)
            && StopsWhereAsked(f, s, d.visited, d.stopped)
            && (!d.stopped ==> NEWLINE !in d.rest)
    decreases |buf|
  {
    var i := FirstNewline(buf);
    FirstNewlineIsFirst(buf);
    if i == |buf| {
      assert buf[..i] == buf;
      taken := [];
      AccountsNothing(f, s);
      assert [] + buf == buf;
      return;
    }
    var head, after := buf[..i] + [NEWLINE], buf[i + 1..];
    SplitAtNewline(buf, i);
    AccountsHead(f, s, buf[..i]);
    match Parse(f.decode, buf[..i]) {
      case None =>
        var t := FeedAccounts(f, s, after);
        taken := head + t;
        var d := Feed(f, s, after);
        AccountsAppend(f, s, head, [], s, t, d.visited, d.state);
        assert [] + d.visited == d.visited;
        Associative(head, t, d.rest);
      case Some(r) =>
        FoldOne(f, s, r);
        if f.visit(s, r).1 {
          taken := head;
        } else {
          taken := FeedGoesOn(f, s, head, after, r);
        }
    }
  }

  lemma {:induction false} FeedGoesOn<S, R>(f: Follower<S, R>, s: S, head: Bytes, after: Bytes, r: R)
      returns (taken: Bytes)
    requires !f.visit(s, r).1 && Accounts(f, s, head, [r], f.visit(s, r).0)
    ensures var d := Feed(f, f.visit(s, r).0, after);
            && head + after == taken + d.rest
            && Accounts(f, s, taken, [r] + d.visited, d.state)
            && StopsWhereAsked(f, s, [r] + d.visited, d.stopped)
            && (!d.stopped ==> NEWLINE !in d.rest)
    decreases |after| + 1
  {
    var s' := f.visit(s, r).0;
    FoldOne(f, s, r);
    var t := FeedAccounts(f, s', after);
    var d := Feed(f, s', after);
    taken := head + t;
    Associative(head, t, d.rest);
    AccountsAppend(f, s, head, [r], s', t, d.visited, d.state);
    StopsAppend(f, s, [r], d.visited, d.stopped);
  }

  // ---- one call ----

  /** `taken` is what the call consumed; the returned offset and the unread bytes follow from it. */
  ghost predicate EndsWell<S, R>(file: Bytes, start: nat, taken: Bytes, o: Outcome<S, R>) {
    var end := start + |taken|;
    && LiesAt(file, start, taken)
    && end + o.unread <= |file|
    && o.offset == (if Resumable(o.stop) then end else end + o.unread)
    && (!o.stop.ByVisit? && !o.stop.Oversize? ==> NoLineEnd(file, end, end + o.unread))
  }

  lemma SliceJoin(file: Bytes, a: nat, b: nat, c: nat)
    requires a <= b <= c <= |file|
    ensures file[a..b] + file[b..c] == file[a..c]
  {
  }

  lemma InStepAfterRead(file: Bytes, offset: nat, buf: Bytes, off: nat)
    requires InStep(file, offset, buf) && offset <= off <= |file|
    ensures InStep(file, off, buf + file[offset..off])
  {
  }

  lemma LiesAtJoin(file: Bytes, a: nat, t: Bytes, u: Bytes)
    requires LiesAt(file, a, t) && LiesAt(file, a + |t|, u)
    ensures LiesAt(file, a, t + u)
  {
  }

  lemma LiesAtSplit(file: Bytes, a: nat, t: Bytes, u: Bytes)
    requires LiesAt(file, a, t + u)
    ensures LiesAt(file, a, t) && LiesAt(file, a + |t|, u)
  {
    var whole := t + u;
    assert forall i :: 0 <= i < |t| ==> t[i] == whole[i];
    assert forall i :: 0 <= i < |u| ==> u[i] == whole[|t| + i];
    forall i | 0 <= i < |u| ensures u[i] == file[a + |t| + i] {
      assert whole[|t| + i] == file[a + (|t| + i)];
    }
  }

  /** What feeding leaves of a buffer in step is in step. */
  lemma InStepSuffix(file: Bytes, offset: nat, buf: Bytes, taken: Bytes, rest: Bytes)
    requires InStep(file, offset, buf) && buf == taken + rest
    ensures LiesAt(file, offset - |buf|, taken)
    ensures InStep(file, offset, rest)
  {
    LiesAtSplit(file, offset - |buf|, taken, rest);
  }

  /** The whole account of a call that began at `start` in state `s`. */
  ghost predicate Sound<S, R>(f: Follower<S, R>, file: Bytes, s: S, start: nat, taken: Bytes, o: Outcome<S, R>) {
    && EndsWell(file, start, taken, o)
    && Accounts(f, s, taken, o.visited, o.state)
    && StopsWhereAsked(f, s, o.visited, o.stop.ByVisit?)
  }

  /** Calls that end before visiting anything. */
  lemma SoundIdle<S, R>(f: Follower<S, R>, file: Bytes, s: S, offset: nat, buf: Bytes, o: Outcome<S, R>)
    requires InStep(file, offset, buf) && NEWLINE !in buf
    requires o.visited == [] && o.state == s && o.unread == |buf| && !o.stop.ByVisit? && !o.stop.Oversize?
    requires o.offset == if Resumable(o.stop) then offset - |buf| else offset
    ensures Sound(f, file, s, offset - |buf|, [], o)
  {
    AccountsNothing(f, s);
    forall i | offset - |buf| <= i < offset ensures file[i] != NEWLINE {
      assert buf[i - (offset - |buf|)] in buf;
    }
  }

  lemma SoundOversize<S, R>(f: Follower<S, R>, file: Bytes, s: S, offset: nat, buf: Bytes)
    requires InStep(file, offset, buf)
    ensures Sound(f, file, s, offset - |buf|, [], Outcome(offset, s, [], Oversize, |buf|))
  {
    AccountsNothing(f, s);
  }

  lemma SoundStopped<S, R>(f: Follower<S, R>, file: Bytes, s: S, offset: nat, buf: Bytes, taken: Bytes, rest: Bytes,
                           v: seq<R>, s': S)
    requires InStep(file, offset, buf) && buf == taken + rest
    requires Accounts(f, s, taken, v, s') && StopsWhereAsked(f, s, v, true)
    ensures Sound(f, file, s, offset - |buf|, taken, Outcome(offset - |rest|, s', v, ByVisit, |rest|))
  {
    InStepSuffix(file, offset, buf, taken, rest);
  }

  lemma {:induction false} TailAccounts<S, R>(f: Follower<S, R>, file: Bytes, s: S, offset: nat, buf: Bytes,
      script: Script)
    returns (taken: Bytes, o: Outcome<S, R>)
    requires InStep(file, offset, buf) && NEWLINE !in buf
    ensures o == Tail(f, file, s, offset, buf, script)
    ensures Sound(f, file, s, offset - |buf|, taken, o)
    decreases script, 0
  {
    taken, o := [], Tail(f, file, s, offset, buf, script);
    if script.Expired? || script.poll.cancelled || script.poll.stat.StatFailed? {
      SoundIdle(f, file, s, offset, buf, o);
      return;
    }
    var p := script.poll;
    var seen := Visible(file, p);
    if seen <= offset && !p.dead {
      taken, o := TailAccounts(f, file, s, offset, buf, script.next);
    } else if seen <= offset || p.readFailed {
      SoundIdle(f, file, s, offset, buf, o);
    } else {
      var off := offset + Min(p.got, seen - offset);
      var buf' := buf + file[offset..off];
      InStepAfterRead(file, offset, buf, off);
      TurnReads(f, file, s, offset, buf, script, off, buf');
      taken, o := ReadAccounts(f, file, s, off, buf', script.next);
    }
  }

  lemma TurnReads<S, R>(f: Follower<S, R>, file: Bytes, s: S, offset: nat, buf: Bytes, script: Script, off: nat,
      buf': Bytes)
    requires |buf| <= offset < |file| && script.Turn? && !script.poll.cancelled && !script.poll.readFailed
    requires offset < Visible(file, script.poll)
    requires off == offset + Min(script.poll.got, Visible(file, script.poll) - offset)
    requires buf' == buf + file[offset..off]
    ensures off - |buf'| == offset - |buf|
    ensures Tail(f, file, s, offset, buf, script) ==
        AfterRead(f, file, s, off, buf', script.next)
  {
    hide AfterRead;
  }

  lemma {:induction false} ReadAccounts<S, R>(f: Follower<S, R>, file: Bytes, s: S, offset: nat, buf: Bytes,
      script: Script)
    returns (taken: Bytes, o: Outcome<S, R>)
    requires InStep(file, offset, buf)
    ensures o == AfterRead(f, file, s, offset, buf, script)
    ensures Sound(f, file, s, offset - |buf|, taken, o)
    decreases script, 1
  {
    if |buf| > MAX_LINE_LEN {
      taken, o := [], Outcome(offset, s, [], Oversize, |buf|);
      SoundOversize(f, file, s, offset, buf);
      return;
    }
    var d := Feed(f, s, buf);
    taken := FeedAccounts(f, s, buf);
    if d.stopped {
      o := Outcome(offset - |d.rest|, d.state, d.visited, ByVisit, |d.rest|);
      SoundStopped(f, file, s, offset, buf, taken, d.rest, d.visited, d.state);
    } else {
      InStepSuffix(file, offset, buf, taken, d.rest);
      var u, later := TailAccounts(f, file, d.state, offset, d.rest, script);
      GoesOnAfterRead(f, file, s, offset, buf, script);
      o := Prepend(d.visited, later);
      taken := JoinCalls(f, file, s, offset, buf, taken, d.rest, d.visited, d.state, u, later);
    }
  }

  lemma GoesOnAfterRead<S, R>(f: Follower<S, R>, file: Bytes, s: S, offset: nat, buf: Bytes, script: Script)
    requires |buf| <= offset <= |file| && |buf| <= MAX_LINE_LEN && !Feed(f, s, buf).stopped
    ensures var d := Feed(f, s, buf);
            AfterRead(f, file, s, offset, buf, script) ==
                Prepend(d.visited, Tail(f, file, d.state, offset, d.rest, script))
  {
  }

  /** What was taken first, then what the rest of the call took. */
  lemma JoinCalls<S, R>(f: Follower<S, R>, file: Bytes, s: S, offset: nat, buf: Bytes, t: Bytes, rest: Bytes,
                        v: seq<R>, s': S, u: Bytes, o: Outcome<S, R>)
    returns (taken: Bytes)
    requires InStep(file, offset, buf) && buf == t + rest
    requires Accounts(f, s, t, v, s') && GoesOn(f, s, v)
    requires Sound(f, file, s', offset - |rest|, u, o)
    ensures Sound(f, file, s, offset - |buf|, taken, Prepend(v, o))
  {
    taken := t + u;
    InStepSuffix(file, offset, buf, t, rest);
    LiesAtJoin(file, offset - |buf|, t, u);
    AccountsAppend(f, s, t, v, s', u, o.visited, o.state);
    StopsAppend(f, s, v, o.visited, o.stop.ByVisit?);
  }

  // ---- what callers rely on ----

  /** Where the bytes handed to the visitor end. */
  function Consumed<S, R>(o: Outcome<S, R>): int {
    if Resumable(o.stop) then o.offset else o.offset - o.unread
  }

  /** A call started at `from` in state `s`, seen from outside. */
  ghost predicate Accounted<S, R>(f: Follower<S, R>, file: Bytes, s: S, from: nat, o: Outcome<S, R>) {
    var end := Consumed(o);
    && from <= end && end + o.unread <= |file|
    && Accounts(f, s, file[from..end], o.visited, o.state)
    && StopsWhereAsked(f, s, o.visited, o.stop.ByVisit?)
    && (!o.stop.ByVisit? && !o.stop.Oversize? ==> NEWLINE !in file[end..end + o.unread])
  }

  lemma OneCall<S, R>(f: Follower<S, R>, file: Bytes, s: S, from: nat, script: Script)
    requires from <= |file|
    ensures Accounted(f, file, s, from, Tail(f, file, s, from, [], script))
  {
    var taken, o := TailAccounts(f, file, s, from, [], script);
    SoundIsAccounted(f, file, s, from, taken, o);
  }

  lemma SoundIsAccounted<S, R>(f: Follower<S, R>, file: Bytes, s: S, from: nat, taken: Bytes, o: Outcome<S, R>)
    requires Sound(f, file, s, from, taken, o)
    ensures Accounted(f, file, s, from, o)
  {
    var end := from + |taken|;
    assert file[from..end] == taken;
    if !o.stop.ByVisit? && !o.stop.Oversize? {
      var held := file[end..end + o.unread];
      assert forall i :: 0 <= i < |held| ==> held[i] == file[end + i];
    }
  }

  /** Whether every complete line of what was read has been visited. */
  ghost predicate ReadEveryLine<S, R>(f: Follower<S, R>, file: Bytes, from: nat, o: Outcome<S, R>) {
    && from <= o.offset && o.offset + o.unread <= |file|
    && o.visited == Records(f.decode, file[from..o.offset + o.unread])
    && o.unread == |Remainder(file[from..o.offset + o.unread])|
  }

  lemma ReadEveryLineFrom<S, R>(f: Follower<S, R>, file: Bytes, s: S, from: nat, o: Outcome<S, R>)
    requires Accounted(f, file, s, from, o) && (o.stop.Cancelled? || o.stop.ChildDead?)
    ensures ReadEveryLine(f, file, from, o)
  {
    var taken, held := file[from..o.offset], file[o.offset..o.offset + o.unread];
    SliceJoin(file, from, o.offset, o.offset + o.unread);
    LineFree(held);
    CutAppendAligned(taken, held);
    assert Complete(taken) + [] == Complete(taken);
  }

  // ---- why and where a call ends, read off the polls ----

  function Polls(script: Script): nat { if script.Expired? then 0 else 1 + Polls(script.next) }

  function PollAt(script: Script, k: nat): Poll
    requires k < Polls(script)
  {
    if k == 0 then script.poll else PollAt(script.next, k - 1)
  }

  /** The stat shows bytes beyond position `at`. */
  predicate News(file: Bytes, p: Poll, at: nat) { p.stat.Size? && p.stat.bytes > at && |file| > at }

  /** Where a turn begun at position `at` reads to, if it reads. */
  function ReadTo(file: Bytes, p: Poll, at: nat): nat {
    if News(file, p, at) && !p.readFailed then Min(at + p.got, Min(p.stat.bytes, |file|)) else at
  }

  /** What the world does in this turn ends no call: liveness is asked for only when nothing is new. */
  predicate Uneventful(file: Bytes, p: Poll, at: nat) {
    && !p.cancelled && !p.stat.StatFailed?
    && (if News(file, p, at) then !p.readFailed && ReadTo(file, p, at) - at <= 16_777_216 else !p.dead)
  }

  /** The position after k turns. */
  function Reached(file: Bytes, at: nat, script: Script, k: nat): nat
    requires k <= Polls(script)
    decreases k
  {
    if k == 0 then at else Reached(file, ReadTo(file, script.poll, at), script.next, k - 1)
  }

  ghost predicate Quiet(file: Bytes, at: nat, script: Script, k: nat)
    decreases k
  {
    k > 0 ==>
      && script.Turn? && Uneventful(file, script.poll, at)
      && Quiet(file, ReadTo(file, script.poll, at), script.next, k - 1)
  }

  lemma {:induction false} QuietPolls(file: Bytes, at: nat, script: Script, k: nat)
    requires Quiet(file, at, script, k)
    ensures k <= Polls(script)
    decreases k
  {
    if k > 0 {
      QuietPolls(file, ReadTo(file, script.poll, at), script.next, k - 1);
    }
  }

  /** The turn at position `at` ends the call, and why. */
  ghost predicate EndsAt<S, R>(file: Bytes, p: Poll, at: nat, o: Outcome<S, R>) {
    match o.stop
    case Cancelled => p.cancelled && o.offset + o.unread == at
    case StatError => !p.cancelled && p.stat.StatFailed? && o.offset == at
    case ChildDead =>
      !p.cancelled && !p.stat.StatFailed? && !News(file, p, at) && p.dead && o.offset + o.unread == at
    case ReadError => !p.cancelled && News(file, p, at) && p.readFailed && o.offset == at
    case ByVisit =>
      !p.cancelled && News(file, p, at) && !p.readFailed && o.offset + o.unread == ReadTo(file, p, at)
    case Oversize =>
      !p.cancelled && News(file, p, at) && !p.readFailed && o.offset == ReadTo(file, p, at) && o.unread > 16_777_216
  }

  /** Where k quiet turns have read to, the call expired or its next turn ends it. */
  ghost predicate Ended<S, R>(file: Bytes, from: nat, script: Script, k: nat, o: Outcome<S, R>) {
    && k <= Polls(script) && Quiet(file, from, script, k)
    && var at := Reached(file, from, script, k);
    if k == Polls(script) then o.stop.Cancelled? && o.offset + o.unread == at
    else EndsAt(file, PollAt(script, k), at, o)
  }

  lemma EndedLater<S, R>(file: Bytes, at: nat, script: Script, k: nat, o: Outcome<S, R>, o': Outcome<S, R>)
    requires script.Turn? && Uneventful(file, script.poll, at)
    requires Ended(file, ReadTo(file, script.poll, at), script.next, k, o)
    requires o'.stop == o.stop && o'.offset == o.offset && o'.unread == o.unread
    ensures Ended(file, at, script, k + 1, o')
  {
  }

  lemma {:induction false} TailEnds<S, R>(f: Follower<S, R>, file: Bytes, s: S, offset: nat, buf: Bytes, script: Script)
    returns (k: nat)
    requires |buf| <= offset <= |file|
    ensures Ended(file, offset, script, k, Tail(f, file, s, offset, buf, script))
    decreases script
  {
    k := 0;
    var o := Tail(f, file, s, offset, buf, script);
    if script.Turn? && !script.poll.cancelled && !script.poll.stat.StatFailed? {
      var p := script.poll;
      if !News(file, p, offset) {
        if !p.dead {
          var n := TailEnds(f, file, s, offset, buf, script.next);
          EndedLater(file, offset, script, n, o, o);
          k := n + 1;
        }
      } else if !p.readFailed {
        var off := ReadTo(file, p, offset);
        TurnReads(f, file, s, offset, buf, script, off, buf + file[offset..off]);
        k := ReadEnds(f, file, s, offset, buf + file[offset..off], script, o);
      }
    }
  }

  lemma {:induction false} ReadEnds<S, R>(f: Follower<S, R>, file: Bytes, s: S, offset: nat, buf: Bytes, script: Script,
                                          o: Outcome<S, R>)
    returns (k: nat)
    requires script.Turn? && !script.poll.cancelled && !script.poll.readFailed && News(file, script.poll, offset)
    requires var off := ReadTo(file, script.poll, offset);
             off - offset <= |buf| <= off <= |file| && o == AfterRead(f, file, s, off, buf, script.next)
    ensures Ended(file, offset, script, k, o)
    decreases script, 0
  {
    k := 0;
    var off, d := ReadTo(file, script.poll, offset), Feed(f, s, buf);
    if |buf| <= MAX_LINE_LEN && !d.stopped {
      GoesOnAfterRead(f, file, s, off, buf, script.next);
      var n := TailEnds(f, file, d.state, off, d.rest, script.next);
      EndedLater(file, offset, script, n, Tail(f, file, d.state, off, d.rest, script.next), o);
      k := n + 1;
    }
  }

  /**
    Every call ends for a cause its polls show, and not before: after k turns that end no call it has read
    to where they read; then the context is over, or the stat or the read fails, or nothing is new and
    claude is dead, or the visitor stops on what was read, or too much of it is held back.
  */
  lemma EndsForCause<S, R>(f: Follower<S, R>, file: Bytes, s: S, from: nat, script: Script) returns (k: nat)
    requires from <= |file|
    ensures Ended(file, from, script, k, Tail(f, file, s, from, [], script))
  {
    k := TailEnds(f, file, s, from, [], script);
  }

  /** A poll finds claude dead and nothing beyond position `at`. */
  ghost predicate DeadAt(file: Bytes, script: Script, at: nat) {
    exists k :: 0 <= k < Polls(script) && PollAt(script, k).dead && !News(file, PollAt(script, k), at)
  }

  /**
    However the file was cut into reads, a call that was not stopped by its visitor has
    visited every complete line among the bytes it read, and holds back only the rest.
    When claude died those bytes reach as far as the stat of that turn showed.
  */
  lemma ReadsEveryLine<S, R>(f: Follower<S, R>, file: Bytes, s: S, from: nat, script: Script)
    requires from <= |file|
    ensures var o := Tail(f, file, s, from, [], script);
            && (o.stop.Cancelled? || o.stop.ChildDead? ==> ReadEveryLine(f, file, from, o))
            && (o.stop.ChildDead? ==> DeadAt(file, script, o.offset + o.unread))
  {
    var o := Tail(f, file, s, from, [], script);
    OneCall(f, file, s, from, script);
    var k := EndsForCause(f, file, s, from, script);
    if o.stop.Cancelled? || o.stop.ChildDead? {
      ReadEveryLineFrom(f, file, s, from, o);
    }
  }

  /** A line holds a record exactly if it is not all white space and decodes. */
  lemma LineHoldsRecordIff<R>(decode: Bytes -> Option<R>, line: Bytes, r: R)
    requires NEWLINE !in line
    ensures Records(decode, line + [NEWLINE]) == [r] <==>
            decode(line) == Some(r) && exists i :: 0 <= i < |line| && line[i] !in {9, 11, 12, 13, 32}
    ensures |Records(decode, line + [NEWLINE])| <= 1
  {
    CutOne(line);
    RecordsOfOne(decode, line);
    assert Blank(line) <==> !exists i :: 0 <= i < |line| && line[i] !in {9, 11, 12, 13, 32};
  }

  /** Two readings that reached the same byte differ in nothing a caller can see. */
  lemma SameBytesSameCall<S, R>(f: Follower<S, R>, file: Bytes, s: S, from: nat, o: Outcome<S, R>, o': Outcome<S, R>)
    requires Accounted(f, file, s, from, o) && (o.stop.Cancelled? || o.stop.ChildDead?)
    requires Accounted(f, file, s, from, o') && (o'.stop.Cancelled? || o'.stop.ChildDead?)
    requires o.offset + o.unread == o'.offset + o'.unread
    ensures o.visited == o'.visited && o.offset == o'.offset && o.state == o'.state
  {
    hide Aligned, StopsWhereAsked, Records, LiesAt;
    assert ReadEveryLine(f, file, from, o) && ReadEveryLine(f, file, from, o') by {
      ReadEveryLineFrom(f, file, s, from, o);
      ReadEveryLineFrom(f, file, s, from, o');
    }
    assert o.state == Fold(f, s, o.visited) && o'.state == Fold(f, s, o'.visited);
  }

  lemma ChunkingIsInvisible<S, R>(f: Follower<S, R>, file: Bytes, s: S, from: nat, script: Script, script': Script)
    requires from <= |file|
    ensures var o, o' := Tail(f, file, s, from, [], script), Tail(f, file, s, from, [], script');
            (o.stop.Cancelled? || o.stop.ChildDead?) && (o'.stop.Cancelled? || o'.stop.ChildDead?)
            && o.offset + o.unread == o'.offset + o'.unread
            ==> o.visited == o'.visited && o.offset == o'.offset && o.state == o'.state
  {
    var o, o' := Tail(f, file, s, from, [], script), Tail(f, file, s, from, [], script');
    OneCall(f, file, s, from, script);
    OneCall(f, file, s, from, script');
    if (o.stop.Cancelled? || o.stop.ChildDead?) && (o'.stop.Cancelled? || o'.stop.ChildDead?)
       && o.offset + o.unread == o'.offset + o'.unread {
      SameBytesSameCall(f, file, s, from, o, o');
    }
  }

  datatype Chain<S, R> = Chain(offset: nat, state: S, visited: seq<R>, resumable: bool)

  /** Successive calls, each started at the offset the one before returned. */
  function Calls<S, R>(f: Follower<S, R>, file: Bytes, s: S, from: nat, scripts: seq<Script>): (c: Chain<S, R>)
    requires from <= |file|
    decreases |scripts|
  {
    if scripts == [] then Chain(from, s, [], true) else
      var o := Tail(f, file, s, from, [], scripts[0]);
      OneCall(f, file, s, from, scripts[0]);
      var rest := Calls(f, file, o.state, o.offset, scripts[1..]);
      Chain(rest.offset, rest.state, o.visited + rest.visited, Resumable(o.stop) && rest.resumable)
  }

  /**
    Exactly-once resumption: over any number of calls that stopped at a resumable point,
    the visited records are those of one parse of what lies between the first start and
    the last returned offset, which is a line boundary.
  */
  lemma {:induction false} CallsAccount<S, R>(f: Follower<S, R>, file: Bytes, s: S, from: nat, scripts: seq<Script>)
    requires from <= |file| && Calls(f, file, s, from, scripts).resumable
    ensures var c := Calls(f, file, s, from, scripts);
            from <= c.offset <= |file| && Accounts(f, s, file[from..c.offset], c.visited, c.state)
    decreases |scripts|
  {
    if scripts == [] {
      assert file[from..from] == [];
      AccountsNothing(f, s);
    } else {
      var o := Tail(f, file, s, from, [], scripts[0]);
      OneCall(f, file, s, from, scripts[0]);
      CallsAccount(f, file, o.state, o.offset, scripts[1..]);
      var c := Calls(f, file, o.state, o.offset, scripts[1..]);
      SliceJoin(file, from, o.offset, c.offset);
      AccountsAppend(f, s, file[from..o.offset], o.visited, o.state, file[o.offset..c.offset], c.visited, c.state);
    }
  }

  /** None dropped, none repeated, none cut: a prefix of one whole-file parse. */
  lemma ExactlyOnce<S, R>(f: Follower<S, R>, file: Bytes, s: S, from: nat, scripts: seq<Script>)
    requires from <= |file| && Calls(f, file, s, from, scripts).resumable
    ensures var c := Calls(f, file, s, from, scripts);
            && from <= c.offset <= |file|
            && Aligned(file[from..c.offset])
            && Records(f.decode, file[from..]) == c.visited + Records(f.decode, file[c.offset..])
  {
    var c := Calls(f, file, s, from, scripts);
    CallsAccount(f, file, s, from, scripts);
    SliceJoin(file, from, c.offset, |file|);
    assert file[from..|file|] == file[from..] && file[c.offset..|file|] == file[c.offset..];
    RecordsAppend(f.decode, file[from..c.offset], file[c.offset..]);
  }

  lemma PartialLineIsNotAligned(file: Bytes, from: nat, to: nat, held: nat)
    requires from + held <= to <= |file| && 0 < held && NEWLINE !in file[to - held..to]
    ensures !Aligned(file[from..to])
  {
    var tail := file[to - held..to];
    assert tail[held - 1] in tail && tail[held - 1] == file[to - 1];
  }

  /** The offset is where the call started, or the byte before it ends a line. */
  predicate AtLineStart(file: Bytes, from: nat, offset: nat) {
    from <= offset <= |file| && (offset == from || file[offset - 1] == NEWLINE)
  }

  lemma RawOffset<S, R>(f: Follower<S, R>, file: Bytes, s: S, from: nat, o: Outcome<S, R>)
    requires Accounted(f, file, s, from, o) && (o.stop.StatError? || o.stop.ReadError?)
    ensures Accounts(f, s, file[from..o.offset], o.visited, o.state) <==> AtLineStart(file, from, o.offset)
  {
    if o.unread > 0 {
      PartialLineIsNotAligned(file, from, o.offset, o.unread);
    }
  }

  /**
    A failed stat or read returns the raw offset instead. Resuming there is sound exactly
    when that offset starts a line of the file.
  */
  lemma ErrorOffset<S, R>(f: Follower<S, R>, file: Bytes, s: S, from: nat, script: Script)
    requires from <= |file|
    ensures var o := Tail(f, file, s, from, [], script);
            o.stop.StatError? || o.stop.ReadError? ==>
              && from <= o.offset <= |file|
              && (Accounts(f, s, file[from..o.offset], o.visited, o.state) <==> AtLineStart(file, from, o.offset))
  {
    var o := Tail(f, file, s, from, [], script);
    OneCall(f, file, s, from, script);
    if o.stop.StatError? || o.stop.ReadError? {
      RawOffset(f, file, s, from, o);
    }
  }

  lemma RawAfterOversize<S, R>(f: Follower<S, R>, file: Bytes, s: S, from: nat, o: Outcome<S, R>)
    requires Accounted(f, file, s, from, o) && o.stop.Oversize?
    ensures var held := file[Consumed(o)..o.offset];
            Accounts(f, s, file[from..o.offset], o.visited, o.state) <==> Aligned(held) && Records(f.decode, held) == []
  {
    var end := Consumed(o);
    var taken, held := file[from..end], file[end..o.offset];
    SliceJoin(file, from, end, o.offset);
    RecordsAppend(f.decode, taken, held);
  }

  /**
    The length test looks at the whole buffer, before any line is taken off it, and returns
    the raw offset too. Resuming there is sound exactly when the bytes held back end a line
    and hold no record.
  */
  lemma OversizeOffset<S, R>(f: Follower<S, R>, file: Bytes, s: S, from: nat, script: Script)
    requires from <= |file|
    ensures var o := Tail(f, file, s, from, [], script);
            o.stop.Oversize? ==>
              var end := Consumed(o);
              && from <= end <= o.offset <= |file|
              && (Accounts(f, s, file[from..o.offset], o.visited, o.state) <==>
                    Aligned(file[end..o.offset]) && Records(f.decode, file[end..o.offset]) == [])
  {
    var o := Tail(f, file, s, from, [], script);
    OneCall(f, file, s, from, script);
    if o.stop.Oversize? {
      RawAfterOversize(f, file, s, from, o);
    }
  }

  /**
    So complete records can be lost, however short the lines: a file above the limit that
    shows at once is passed over, with none of its records visited.
  */
  lemma OversizeLosesRecords<S, R>(f: Follower<S, R>, file: Bytes, s: S, script: Script)
    requires |file| > MAX_LINE_LEN && FirstNewline(file) < |file| && Parse(f.decode, file[..FirstNewline(file)]).Some?
    requires script.Turn? && script.poll == Poll(false, Size(|file|), false, |file|, false)
    ensures var o := Tail(f, file, s, 0, [], script);
            o.stop.Oversize? && o.offset == |file| && o.visited == [] && Records(f.decode, file) != []
  {
    var i := FirstNewline(file);
    CutHead(file);
    RecordsOfHead(f.decode, file[..i], Complete(file[i + 1..]));
    assert [] + file[0..|file|] == file;
    TurnReads(f, file, s, 0, [], script, |file|, file);
  }

  lemma RecordsOfHead<R>(decode: Bytes -> Option<R>, line: Bytes, lines: seq<Bytes>)
    requires Parse(decode, line).Some?
    ensures RecordsOf(decode, [line] + lines) != []
  {
  }

  /**
    And it can fail: one byte of a line is read, then the stat errors. The returned offset
    lies inside the line, so resuming there would decode half a record.
  */
  lemma StatErrorMidLine<S, R>(f: Follower<S, R>, file: Bytes, s: S, script: Script)
    requires |file| > 1 && file[0] != NEWLINE
    requires script.Turn? && script.poll == Poll(false, Size(1), false, 1, false)
    requires script.next.Turn? && !script.next.poll.cancelled && script.next.poll.stat.StatFailed?
    ensures var o := Tail(f, file, s, 0, [], script);
            && o.stop.StatError? && o.offset == 1 && o.visited == []
            && !Aligned(file[..o.offset])
  {
    var one := file[0..1];
    assert Tail(f, file, s, 0, [], script) == Outcome(1, s, [], StatError, 1) by {
      TurnReads(f, file, s, 0, [], script, 1, one) by {
        assert [] + one == one;
      }
      LineFreeThenStatFails(f, file, s, 1, one, script.next) by {
        assert FirstNewline(one) == 1;
      }
    }
    assert file[..1][0] == file[0];
  }

  lemma LineFreeThenStatFails<S, R>(f: Follower<S, R>, file: Bytes, s: S, offset: nat, buf: Bytes,
      script: Script)
    requires |buf| <= offset <= |file| && |buf| <= MAX_LINE_LEN && FirstNewline(buf) == |buf|
    requires script.Turn? && !script.poll.cancelled && script.poll.stat.StatFailed?
    ensures AfterRead(f, file, s, offset, buf, script) == Outcome(offset, s, [], StatError, |buf|)
  {
    GoesOnAfterRead(f, file, s, offset, buf, script);
    StatFails(f, file, s, offset, buf, script);
  }

  lemma StatFails<S, R>(f: Follower<S, R>, file: Bytes, s: S, offset: nat, buf: Bytes, script: Script)
    requires |buf| <= offset <= |file| && script.Turn? && !script.poll.cancelled && script.poll.stat.StatFailed?
    ensures Tail(f, file, s, offset, buf, script) == Outcome(offset, s, [], StatError, |buf|)
  {
  }
}
