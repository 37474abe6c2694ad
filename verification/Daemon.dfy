/**
  The two ends of a subscription as they run: streamReplay and the live loop of
  handleSubscribe (internal/daemon/daemon.go), streamOnce and runSubscribeLoop
  (cmd/bigband-slack/start.go). What the file holds, what arrives on a channel and when a
  connection breaks are parameters; the loops are tied to the steps of Delivery.
*/
module Daemon {
  import opened Common
  import opened Events
  import opened Delivery
  import opened Reconnect

  /** A line of the events file: empty, not an envelope (torn lines included), or one. */
  datatype Line = Blank | Malformed | Decoded(e: Envelope)

  /** The encoder of a connection on which `room` more envelopes can be written. */
  class Encoder {
    var sent: seq<Envelope>
    var room: nat

    constructor (room: nat)
      ensures sent == [] && this.room == room
    {
      sent, this.room := [], room;
    }

    method Encode(e: Envelope) returns (ok: bool)
      modifies this
      ensures ok <==> old(room) > 0
      ensures ok ==> sent == old(sent) + [e] && room == old(room) - 1
      ensures !ok ==> sent == old(sent) && room == 0
    {
      ok := room > 0;
      if ok {
        sent, room := sent + [e], room - 1;
      }
    }
  }

  predicate Wanted(line: Line, f: Filter, since: nat) {
    line.Decoded? && line.e.at >= since && Match(f, line.e)
  }

  /** The envelopes of the file that a replay is for, in file order. */
  function Replayable(lines: seq<Line>, f: Filter, since: nat): seq<Envelope> {
    if lines == [] then [] else
      var last := lines[|lines| - 1];
      Replayable(lines[..|lines| - 1], f, since) + (if Wanted(last, f, since) then [last.e] else [])
  }

  function Ids(s: seq<Envelope>): set<Id> { set e | e in s :: e.id }

  /** What the live loop passes on. */
  function Fresh(live: seq<Envelope>, replayed: set<Id>): seq<Envelope> {
    if live == [] then [] else
      var last := live[|live| - 1];
      Fresh(live[..|live| - 1], replayed) + (if last.id in replayed then [] else [last])
  }

  lemma ReplayableSnoc(lines: seq<Line>, n: nat, f: Filter, since: nat)
    requires n < |lines|
    ensures Replayable(lines[..n + 1], f, since) ==
            Replayable(lines[..n], f, since) + (if Wanted(lines[n], f, since) then [lines[n].e] else [])
  {
    assert lines[..n + 1][..n] == lines[..n];
  }

  lemma FreshSnoc(live: seq<Envelope>, n: nat, replayed: set<Id>)
    requires n < |live|
    ensures Fresh(live[..n + 1], replayed) ==
            Fresh(live[..n], replayed) + (if live[n].id in replayed then [] else [live[n]])
  {
    assert live[..n + 1][..n] == live[..n];
  }

  lemma {:induction false} ReplayableGrows(lines: seq<Line>, n: nat, f: Filter, since: nat)
    requires n <= |lines|
    ensures Replayable(lines[..n], f, since) <= Replayable(lines, f, since)
    decreases |lines| - n
  {
    if n == |lines| {
      assert lines[..n] == lines;
    } else {
      ReplayableSnoc(lines, n, f, since);
      ReplayableGrows(lines, n + 1, f, since);
    }
  }

  lemma {:induction false} FreshGrows(live: seq<Envelope>, n: nat, replayed: set<Id>)
    requires n <= |live|
    ensures Fresh(live[..n], replayed) <= Fresh(live, replayed)
    decreases |live| - n
  {
    if n == |live| {
      assert live[..n] == live;
    } else {
      FreshSnoc(live, n, replayed);
      FreshGrows(live, n + 1, replayed);
    }
  }

  /** As much of s from the front as there is room for. */
  function Fitting<T>(s: seq<T>, room: nat): seq<T> { if |s| <= room then s else s[..room] }

  /**
    streamReplay: everything wanted is sent in file order while the connection holds, and
    `seen` is what was sent; a scan that fails does so after the lines it gave.
  */
  method StreamReplay(enc: Encoder, f: Filter, since: nat, lines: seq<Line>, scanFails: bool)
    returns (seen: set<Id>, ok: bool)
    modifies enc
    ensures enc.sent == old(enc.sent) + Fitting(Replayable(lines, f, since), old(enc.room))
    ensures seen == Ids(enc.sent[|old(enc.sent)|..])
    ensures enc.room == old(enc.room) - (|enc.sent| - |old(enc.sent)|)
    ensures ok <==> !scanFails && |Replayable(lines, f, since)| <= old(enc.room)
  {
    seen := {};
    ghost var before := enc.sent;
    var k := 0;
    while k < |lines|
      invariant k <= |lines|
      invariant enc.sent == before + Replayable(lines[..k], f, since)
      invariant seen == Ids(Replayable(lines[..k], f, since))
      invariant enc.room == old(enc.room) - |Replayable(lines[..k], f, since)|
    {
      ReplayableSnoc(lines, k, f, since);
      ReplayableGrows(lines, k + 1, f, since);
      if lines[k].Decoded? && lines[k].e.at >= since && Match(f, lines[k].e) {
        var e := lines[k].e;
        var sentIt := enc.Encode(e);
        if !sentIt {
          ReplayableGrows(lines, k, f, since);
          return seen, false;
        }
        seen := seen + {e.id};
      }
      k := k + 1;
    }
    assert lines[..k] == lines;
    return seen, !scanFails;
  }

  /** The live loop: everything that arrives and was not replayed, until a write fails. */
  method DrainLive(enc: Encoder, live: seq<Envelope>, replayed: set<Id>) returns (ok: bool)
    modifies enc
    ensures enc.sent == old(enc.sent) + Fitting(Fresh(live, replayed), old(enc.room))
    ensures ok <==> |Fresh(live, replayed)| <= old(enc.room)
  {
    ghost var before := enc.sent;
    var k := 0;
    while k < |live|
      invariant k <= |live|
      invariant enc.sent == before + Fresh(live[..k], replayed)
      invariant enc.room == old(enc.room) - |Fresh(live[..k], replayed)|
    {
      FreshSnoc(live, k, replayed);
      FreshGrows(live, k + 1, replayed);
      if live[k].id !in replayed {
        var sentIt := enc.Encode(live[k]);
        if !sentIt {
          FreshGrows(live, k, replayed);
          return false;
        }
      }
      k := k + 1;
    }
    assert live[..k] == live;
    return true;
  }

  /** What a connection that never breaks carries. */
  function Carried(f: Filter, since: nat, lines: seq<Line>, live: seq<Envelope>): seq<Envelope> {
    var replay := if since > 0 then Replayable(lines, f, since) else [];
    replay + Fresh(live, Ids(replay))
  }

  /** handleSubscribe, from the acknowledgement on. */
  method HandleSubscribe(enc: Encoder, f: Filter, since: nat, lines: seq<Line>, scanFails: bool, live: seq<Envelope>)
    returns (ok: bool)
    requires enc.sent == []
    modifies enc
    ensures !(since > 0 && scanFails) ==> enc.sent == Fitting(Carried(f, since, lines, live), old(enc.room))
    ensures since > 0 && scanFails ==> enc.sent == Fitting(Replayable(lines, f, since), old(enc.room))
    ensures ok <==> |Carried(f, since, lines, live)| <= old(enc.room) && !(since > 0 && scanFails)
  {
    var replayed: set<Id> := {};
    if since > 0 {
      replayed, ok := StreamReplay(enc, f, since, lines, scanFails);
      assert [] + Replayable(lines, f, since) == Replayable(lines, f, since);
      if !ok {
        return;
      }
      assert enc.sent[0..] == enc.sent;
    }
    ghost var replay := enc.sent;
    assert replay == if since > 0 then Replayable(lines, f, since) else [];
    assert replayed == Ids(replay);
    ok := DrainLive(enc, live, replayed);
  }

  // ---- the same as the steps of Delivery ----

  function ReplayAll(c: Conn, entries: seq<Envelope>): Conn {
    if entries == [] then c else Replay(ReplayAll(c, entries[..|entries| - 1]), entries[|entries| - 1])
  }

  /** Lines that decode, in order. */
  function Decoding(lines: seq<Line>): seq<Envelope> {
    if lines == [] then [] else
      var last := lines[|lines| - 1];
      Decoding(lines[..|lines| - 1]) + (if last.Decoded? then [last.e] else [])
  }

  /** Replaying a file is the replay steps for its envelopes; blank and malformed lines do not count. */
  lemma {:induction false} ReplayAllReads(c: Conn, lines: seq<Line>)
    ensures var r := Replayable(lines, c.sub.filter, c.since);
            var d := ReplayAll(c, Decoding(lines));
            d.out == c.out + r && d.replayed == c.replayed + Ids(r) && d.sub == c.sub && d.since == c.since
            && d.pos == c.pos + |Decoding(lines)|
  {
    if lines != [] {
      var rest, last := lines[..|lines| - 1], lines[|lines| - 1];
      ReplayAllReads(c, rest);
      if last.Decoded? {
        ReplayAllSnoc(c, Decoding(rest), last.e);
        ReplayStep(ReplayAll(c, Decoding(rest)), c.out, Replayable(rest, c.sub.filter, c.since), last.e);
      } else {
        assert Decoding(lines) == Decoding(rest)
            && Replayable(lines, c.sub.filter, c.since) == Replayable(rest, c.sub.filter, c.since);
      }
    }
  }

  lemma ReplayAllSnoc(c: Conn, entries: seq<Envelope>, e: Envelope)
    ensures ReplayAll(c, entries + [e]) == Replay(ReplayAll(c, entries), e)
  {
    assert (entries + [e])[..|entries|] == entries;
  }

  lemma ReplayStep(d: Conn, out: seq<Envelope>, r: seq<Envelope>, e: Envelope)
    requires d.out == out + r
    ensures var w := if e.at >= d.since && Match(d.sub.filter, e) then [e] else [];
            Replay(d, e).out == out + (r + w) && Replay(d, e).replayed == d.replayed + Ids(w)
            && Ids(r + w) == Ids(r) + Ids(w)
  {
  }

  function DrainAll(c: Conn, n: nat): Conn
    requires n <= |c.sub.ch|
    ensures DrainAll(c, n).sub.ch == c.sub.ch[n..] && DrainAll(c, n).replayed == c.replayed
  {
    if n == 0 then c else DrainOne(DrainAll(c, n - 1))
  }

  /** And the live loop is the drain steps for what arrives. */
  lemma {:induction false} DrainAllReads(c: Conn, n: nat)
    requires n <= |c.sub.ch|
    ensures DrainAll(c, n).out == c.out + Fresh(c.sub.ch[..n], c.replayed)
  {
    if n > 0 {
      DrainAllReads(c, n - 1);
      FreshSnoc(c.sub.ch, n - 1, c.replayed);
    }
  }

  function Run(log: seq<Envelope>, c: Conn, step: Step, n: nat): Conn {
    if n == 0 then c else DaemonStep(log, Run(log, c, step, n - 1), step)
  }

  lemma ReplayMoves(c: Conn, e: Envelope)
    ensures Replay(c, e).replaying == c.replaying && Replay(c, e).pos == c.pos + 1
  {
  }

  lemma {:induction false} ReplayRuns(log: seq<Envelope>, c: Conn, n: nat)
    requires c.replaying && c.pos == 0 && n <= |log|
    ensures Run(log, c, ReplayLine, n) == ReplayAll(c, log[..n])
    ensures Run(log, c, ReplayLine, n).replaying && Run(log, c, ReplayLine, n).pos == n
  {
    if n > 0 {
      ReplayRuns(log, c, n - 1);
      ReplayMoves(ReplayAll(c, log[..n - 1]), log[n - 1]);
      hide Replay, ReplayAll, Match;
      assert log[..n] == log[..n - 1] + [log[n - 1]];
      ReplayAllSnoc(c, log[..n - 1], log[n - 1]);
    } else {
      assert log[..0] == [];
    }
  }

  lemma {:induction false} DrainRuns(log: seq<Envelope>, c: Conn, n: nat)
    requires !c.replaying && n <= |c.sub.ch|
    ensures Run(log, c, Drain, n) == DrainAll(c, n) && !DrainAll(c, n).replaying
  {
    if n > 0 {
      DrainRuns(log, c, n - 1);
    }
  }

  /** A connection as Delivery opens it, with this waiting in its channel. */
  function Opened(f: Filter, since: nat, log: seq<Envelope>, live: seq<Envelope>): Conn {
    Open(f, since, |log|).(sub := NewSub(f).(ch := live))
  }

  /** The steps of Delivery for it: the file line by line if a replay is asked for, then the channel. */
  function Delivered(f: Filter, since: nat, log: seq<Envelope>, live: seq<Envelope>): Conn {
    var c := Opened(f, since, log, live);
    var d := if since > 0 then DaemonStep(log, Run(log, c, ReplayLine, |log|), ReplayEnd) else c;
    Run(log, d, Drain, |live|)
  }

  lemma FileDelivered(c: Conn, lines: seq<Line>)
    requires c.replaying && c.pos == 0 && c.out == [] && c.replayed == {}
    ensures var log := Decoding(lines);
            var d := DaemonStep(log, Run(log, c, ReplayLine, |log|), ReplayEnd);
            var r := Replayable(lines, c.sub.filter, c.since);
            !d.replaying && d.out == r && d.replayed == Ids(r) && d.sub == c.sub
  {
    var log := Decoding(lines);
    ReplayRuns(log, c, |log|);
    assert log[..|log|] == log;
    ReplayAllReads(c, lines);
    assert [] + Replayable(lines, c.sub.filter, c.since) == Replayable(lines, c.sub.filter, c.since);
    hide Run, ReplayAll, Replayable, Decoding, Ids;
  }

  /** So a connection that never breaks carries what those steps send, down to an empty channel. */
  lemma CarriedIsDelivered(f: Filter, since: nat, lines: seq<Line>, live: seq<Envelope>)
    ensures var d := Delivered(f, since, Decoding(lines), live);
            d.out == Carried(f, since, lines, live) && d.sub.ch == [] && !d.replaying
  {
    hide Run, Replayable, Decoding, Fresh, DrainAll;
    var log := Decoding(lines);
    var c := Opened(f, since, log, live);
    var d := c;
    if since > 0 {
      FileDelivered(c, lines);
      d := DaemonStep(log, Run(log, c, ReplayLine, |log|), ReplayEnd);
    }
    DrainRuns(log, d, |live|);
    DrainAllReads(d, |live|);
    assert live[..|live|] == live && live[|live|..] == [];
    assert d.replayed == Ids(d.out);
  }

  // ---- each event at most once on a connection ----

  ghost predicate DistinctIds(s: seq<Envelope>) {
    forall i, j :: 0 <= i < j < |s| ==> s[i].id != s[j].id
  }

  lemma {:induction false} FreshIsNew(live: seq<Envelope>, replayed: set<Id>)
    requires DistinctIds(live)
    ensures DistinctIds(Fresh(live, replayed))
    ensures forall e :: e in Fresh(live, replayed) ==> e in live && e.id !in replayed
  {
    if live != [] {
      FreshIsNew(live[..|live| - 1], replayed);
    }
  }

  /** A file and a channel without repeats make a connection without repeats. */
  lemma CarriedOnce(f: Filter, since: nat, lines: seq<Line>, live: seq<Envelope>)
    requires DistinctIds(Decoding(lines)) && DistinctIds(live)
    ensures DistinctIds(Carried(f, since, lines, live))
  {
    ReplayableIsDistinct(lines, f, since);
    var replay := if since > 0 then Replayable(lines, f, since) else [];
    var news := Fresh(live, Ids(replay));
    FreshIsNew(live, Ids(replay));
    forall i, j | 0 <= i < |replay| && 0 <= j < |news| ensures replay[i].id != news[j].id {
      assert replay[i].id in Ids(replay);
      assert news[j] in news;
    }
  }

  lemma {:induction false} ReplayableIsDistinct(lines: seq<Line>, f: Filter, since: nat)
    requires DistinctIds(Decoding(lines))
    ensures DistinctIds(Replayable(lines, f, since))
    ensures forall e :: e in Replayable(lines, f, since) ==> e in Decoding(lines)
  {
    if lines != [] {
      var rest, last := lines[..|lines| - 1], lines[|lines| - 1];
      DistinctPrefix(Decoding(rest), Decoding(lines));
      ReplayableIsDistinct(rest, f, since);
      if last.Decoded? {
        forall x | x in Decoding(rest) ensures x.id != last.e.id {
          assert Decoding(lines)[|Decoding(rest)|] == last.e;
          var i :| 0 <= i < |Decoding(rest)| && Decoding(rest)[i] == x;
          assert Decoding(lines)[i] == x;
        }
      }
    }
  }

  lemma DistinctPrefix(a: seq<Envelope>, b: seq<Envelope>)
    requires a <= b && DistinctIds(b)
    ensures DistinctIds(a)
  {
    assert forall i :: 0 <= i < |a| ==> a[i] == b[i];
  }

  // ---- the client ----

  function HandleAll(cl: Client, s: seq<Envelope>): Client {
    if s == [] then cl else Handle(HandleAll(cl, s[..|s| - 1]), s[|s| - 1])
  }

  lemma {:induction false} HandleAllAppend(cl: Client, a: seq<Envelope>, b: seq<Envelope>)
    ensures HandleAll(cl, a + b) == HandleAll(HandleAll(cl, a), b)
    decreases |b|
  {
    if b == [] {
      assert a + b == a;
    } else {
      HandleAllAppend(cl, a, b[..|b| - 1]);
      assert (a + b)[..|a + b| - 1] == a + b[..|b| - 1];
    }
  }

  /** Whatever arrives in whatever order, each id is handled exactly once. */
  lemma {:induction false} HandledExactlyOnce(cl: Client, s: seq<Envelope>)
    requires ClientOk(cl)
    ensures ClientOk(HandleAll(cl, s)) && HandleAll(cl, s).seen == cl.seen + Ids(s)
  {
    if s != [] {
      hide ClientOk, Handle, Ids;
      var rest, e := s[..|s| - 1], s[|s| - 1];
      HandledExactlyOnce(cl, rest);
      HandleOne(HandleAll(cl, rest), e);
      assert s == rest + [e];
      IdsSnoc(rest, e);
    }
  }

  lemma HandleOne(cl: Client, e: Envelope)
    requires ClientOk(cl)
    ensures ClientOk(Handle(cl, e)) && Handle(cl, e).seen == cl.seen + {e.id}
  {
    HandleKeeps(cl, e);
  }

  lemma IdsSnoc(s: seq<Envelope>, e: Envelope)
    ensures Ids(s + [e]) == Ids(s) + {e.id}
  {
  }

  const FIRST_BACKOFF := SECOND
  const MAX_BACKOFF := 30 * SECOND

  /** The wait after the n-th connection ended; it is not reset by one that worked. */
  function Backoff(n: nat): nat {
    if n == 0 then FIRST_BACKOFF else
      var d := 2 * Backoff(n - 1);
      if d > MAX_BACKOFF then MAX_BACKOFF else d
  }

  lemma {:induction false} BackoffReads(n: nat)
    ensures Backoff(n) == 1_000_000_000 * if n < 5 then [1, 2, 4, 8, 16][n] else 30
  {
    if n > 0 {
      BackoffReads(n - 1);
    }
  }

  /** A connection from the client's side: what it takes before the connection ends. */
  datatype Attempt = Attempt(envs: seq<Envelope>, cancelled: bool)

  function Taken(attempts: seq<Attempt>): seq<Envelope> {
    if attempts == [] then [] else Taken(attempts[..|attempts| - 1]) + attempts[|attempts| - 1].envs
  }

  /** What the i-th connection asks for. */
  function AskedAt(cl: Client, attempts: seq<Attempt>, i: nat): nat
    requires i <= |attempts|
  {
    Floor(HandleAll(cl, Taken(attempts[..i])).lastSeen)
  }

  lemma TakenNext(cl: Client, attempts: seq<Attempt>, n: nat)
    requires n < |attempts|
    ensures HandleAll(cl, Taken(attempts[..n + 1])) == HandleAll(HandleAll(cl, Taken(attempts[..n])), attempts[n].envs)
  {
    assert attempts[..n + 1][..n] == attempts[..n];
    HandleAllAppend(cl, Taken(attempts[..n]), attempts[n].envs);
  }

  ghost predicate Asked(cl: Client, attempts: seq<Attempt>, asked: seq<nat>) {
    |asked| <= |attempts| && forall i :: 0 <= i < |asked| ==> asked[i] == AskedAt(cl, attempts, i)
  }

  ghost predicate Waited(waits: seq<nat>) {
    forall i :: 0 <= i < |waits| ==> waits[i] == Backoff(i)
  }

  /** One envelope to an id. */
  ghost predicate SameById(s: seq<Envelope>) {
    forall e, x :: e in s && x in s && e.id == x.id ==> e == x
  }

  /** The latest time among these envelopes, 0 without any. */
  ghost predicate IsLatest(s: seq<Envelope>, t: nat) {
    (forall e :: e in s ==> e.at <= t) && (t == 0 || exists e :: e in s && e.at == t)
  }

  lemma {:induction false} HandlesLatest(s: seq<Envelope>)
    requires SameById(s)
    ensures IsLatest(s, HandleAll(START.client, s).lastSeen)
  {
    if s != [] {
      var rest, e := s[..|s| - 1], s[|s| - 1];
      assert s == rest + [e] && forall x :: x in rest ==> x in s;
      HandlesLatest(rest);
      HandledExactlyOnce(START.client, rest);
      LatestNext(rest, e, HandleAll(START.client, rest));
    }
  }

  lemma LatestNext(s: seq<Envelope>, e: Envelope, cl: Client)
    requires IsLatest(s, cl.lastSeen) && SameById(s + [e]) && cl.seen == Ids(s)
    ensures IsLatest(s + [e], Handle(cl, e).lastSeen)
  {
    assert e in s + [e] && forall x :: x in s ==> x in s + [e];
    if e.id in cl.seen {
      var x :| x in s && x.id == e.id;
      assert x == e;
    }
  }

  /** Each connection asks for what happened from the second on in which the latest event taken before falls. */
  lemma AsksFromLatest(attempts: seq<Attempt>, i: nat) returns (latest: nat)
    requires i <= |attempts| && SameById(Taken(attempts[..i]))
    ensures AskedAt(START.client, attempts, i) == latest - latest % 1_000_000_000
    ensures forall k, e :: 0 <= k < i && e in attempts[k].envs ==> e.at <= latest
    ensures latest == 0 || exists k, e :: 0 <= k < i && e in attempts[k].envs && e.at == latest
  {
    HandlesLatest(Taken(attempts[..i]));
    latest := HandleAll(START.client, Taken(attempts[..i])).lastSeen;
    FloorReads(latest);
    forall k, e | 0 <= k < i && e in attempts[k].envs ensures e.at <= latest {
      TakenMember(attempts[..i], e);
      assert attempts[..i][k] == attempts[k];
    }
    if latest != 0 {
      var e :| e in Taken(attempts[..i]) && e.at == latest;
      TakenMember(attempts[..i], e);
      var k :| 0 <= k < i && e in attempts[..i][k].envs;
      assert e in attempts[k].envs;
    }
  }

  lemma {:induction false} TakenMember(attempts: seq<Attempt>, e: Envelope)
    ensures e in Taken(attempts) <==> exists k :: 0 <= k < |attempts| && e in attempts[k].envs
  {
    if attempts != [] {
      var n := |attempts| - 1;
      TakenMember(attempts[..n], e);
      assert forall k :: 0 <= k < n ==> attempts[..n][k] == attempts[k];
    }
  }

  lemma AskedSnoc(cl: Client, attempts: seq<Attempt>, asked: seq<nat>)
    requires Asked(cl, attempts, asked) && |asked| < |attempts|
    ensures Asked(cl, attempts, asked + [AskedAt(cl, attempts, |asked|)])
  {
  }

  lemma WaitedSnoc(waits: seq<nat>)
    requires Waited(waits)
    ensures Waited(waits + [Backoff(|waits|)])
  {
    hide Backoff;
  }

  /** Nothing asked and nothing waited for yet. */
  lemma LoopBegins(cl: Client, attempts: seq<Attempt>)
    ensures HandleAll(cl, Taken(attempts[..0])) == cl && Asked(cl, attempts, []) && Waited([])
    ensures Backoff(0) == FIRST_BACKOFF
  {
  }

  lemma BackoffNext(n: nat)
    ensures var d := 2 * Backoff(n);
            Backoff(n + 1) == if d > MAX_BACKOFF then MAX_BACKOFF else d
  {
  }

  class SubscribeState {
    var lastSeen: nat
    var seen: set<Id>
    var handled: seq<Envelope>

    function View(): Client
      reads this
    {
      Client(lastSeen, seen, handled)
    }

    constructor ()
      ensures View() == START.client
    {
      lastSeen, seen, handled := 0, {}, [];
    }

    /** One connection: what it asks for, and what becomes of what arrives. */
    method StreamOnce(envs: seq<Envelope>) returns (since: nat)
      modifies this
      ensures since == Floor(old(lastSeen))
      ensures View() == HandleAll(old(View()), envs)
    {
      since := Floor(lastSeen);
      var k := 0;
      while k < |envs|
        invariant k <= |envs| && View() == HandleAll(old(View()), envs[..k])
      {
        var e := envs[k];
        assert envs[..k + 1][..k] == envs[..k];
        if e.id !in seen {
          seen := seen + {e.id};
          if e.at > lastSeen {
            lastSeen := e.at;
          }
          handled := handled + [e];
        }
        k := k + 1;
      }
      assert envs[..k] == envs;
    }

    /**
      runSubscribeLoop over the connections that come about before it is cancelled: every
      connection asks for replay from where the last one left the client, and what is handled
      depends only on the envelopes taken, not on where connections broke.
    */
    method RunSubscribeLoop(attempts: seq<Attempt>) returns (asked: seq<nat>, waits: seq<nat>)
      modifies this
      ensures |asked| <= |attempts| && |waits| <= |asked| <= |waits| + 1
      ensures View() == HandleAll(old(View()), Taken(attempts[..|asked|]))
      ensures Asked(old(View()), attempts, asked) && Waited(waits)
      ensures |asked| < |attempts| ==> |asked| > 0 && attempts[|asked| - 1].cancelled
      ensures forall i :: 0 <= i < |asked| - 1 ==> !attempts[i].cancelled
      ensures |waits| < |asked| <==> |asked| > 0 && attempts[|asked| - 1].cancelled
    {
      hide HandleAll, Taken, Asked, Waited, Backoff;
      asked, waits := [], [];
      var backoff := FIRST_BACKOFF;
      ghost var was := View();
      LoopBegins(was, attempts);
      while |asked| < |attempts|
        invariant |waits| == |asked| <= |attempts| && backoff == Backoff(|waits|)
        invariant View() == HandleAll(was, Taken(attempts[..|asked|]))
        invariant Asked(was, attempts, asked) && Waited(waits)
        invariant forall i :: 0 <= i < |asked| ==> !attempts[i].cancelled
        decreases |attempts| - |asked|
      {
        var n := |asked|;
        TakenNext(was, attempts, n);
        AskedSnoc(was, attempts, asked);
        WaitedSnoc(waits);
        BackoffNext(n);
        var since := StreamOnce(attempts[n].envs);
        asked := asked + [since];
        if attempts[n].cancelled {
          return;
        }
        waits := waits + [backoff];
        backoff := 2 * backoff;
        if backoff > MAX_BACKOFF {
          backoff := MAX_BACKOFF;
        }
      }
    }
  }
}
