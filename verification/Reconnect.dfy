/**
  Delivery across disconnects: what the client has handled after any run of the system of
  Delivery.
*/
module Reconnect {
  import opened Common
  import opened Events
  import opened Selection
  import opened Delivery

  // ---- at most once, whatever happens ----

  ghost predicate ClientOk(cl: Client) {
    && (forall i :: 0 <= i < |cl.handled| ==> cl.handled[i].id in cl.seen)
    && (forall id :: id in cl.seen ==> exists i :: 0 <= i < |cl.handled| && cl.handled[i].id == id)
    && (forall i, j :: 0 <= i < j < |cl.handled| ==> cl.handled[i].id != cl.handled[j].id)
  }

  lemma HandleKeeps(cl: Client, e: Envelope)
    requires ClientOk(cl)
    ensures ClientOk(Handle(cl, e))
  {
    if e.id !in cl.seen {
      DistinctSnoc(cl.handled, e);
      SeenSnoc(cl.handled, cl.seen, e);
    }
  }

  lemma DistinctSnoc(h: seq<Envelope>, e: Envelope)
    requires forall i :: 0 <= i < |h| ==> h[i].id != e.id
    requires forall i, j :: 0 <= i < j < |h| ==> h[i].id != h[j].id
    ensures forall i, j :: 0 <= i < j < |h + [e]| ==> (h + [e])[i].id != (h + [e])[j].id
  {
  }

  lemma SeenSnoc(h: seq<Envelope>, seen: set<Id>, e: Envelope)
    requires forall i :: 0 <= i < |h| ==> h[i].id in seen
    requires forall id :: id in seen ==> exists i :: 0 <= i < |h| && h[i].id == id
    ensures forall i :: 0 <= i < |h + [e]| ==> (h + [e])[i].id in seen + {e.id}
    ensures forall id :: id in seen + {e.id} ==> exists i :: 0 <= i < |h + [e]| && (h + [e])[i].id == id
  {
    var all := h + [e];
    assert all[|h|] == e;
    forall id | id in seen ensures exists i :: 0 <= i < |all| && all[i].id == id {
      var i :| 0 <= i < |h| && h[i].id == id;
      assert all[i].id == id;
    }
  }

  lemma NothingHandledYet()
    ensures ClientOk(START.client)
  {
  }

  /** No event is handled twice, over any run: lag, lost envelopes and reconnects included. */
  lemma {:induction false} HandledAtMostOnce(f: Filter, steps: seq<Step>, n: nat)
    requires n <= |steps|
    ensures ClientOk(Play(f, steps, n).client)
  {
    hide ClientOk, Handle, DaemonStep, FanOutTo;
    if n == 0 {
      NothingHandledYet();
    } else {
      HandledAtMostOnce(f, steps, n - 1);
      var s := Play(f, steps, n - 1);
      if s.conn.Some? && s.conn.value.taken < |s.conn.value.out| {
        HandleKeeps(s.client, s.conn.value.out[s.conn.value.taken]);
      }
    }
  }

  // ---- reading the handled list ----

  function All(f: Filter): Pick { Pick(f, 0, {}, 0) }

  /** The handled events published at index x or later. */
  function FromIndex(h: seq<Envelope>, x: nat): seq<Envelope> {
    if h == [] then [] else
      var last := h[|h| - 1];
      FromIndex(h[..|h| - 1], x) + (if last.id.Published? && last.id.n >= x then [last] else [])
  }

  /** One past the highest index handled. */
  function Next(h: seq<Envelope>): nat {
    if h == [] then 0 else
      var before, last := Next(h[..|h| - 1]), h[|h| - 1];
      if last.id.Published? && last.id.n >= before then last.id.n + 1 else before
  }

  function MaxAt(h: seq<Envelope>): nat {
    if h == [] then 0 else
      var before, last := MaxAt(h[..|h| - 1]), h[|h| - 1];
      if last.at > before then last.at else before
  }

  /** Index of the first handled event. */
  function First(h: seq<Envelope>): nat
    requires h != []
  {
    if h[0].id.Published? then h[0].id.n else 0
  }

  lemma HandledSnoc(h: seq<Envelope>, e: Envelope, x: nat)
    ensures FromIndex(h + [e], x) == FromIndex(h, x) + (if e.id.Published? && e.id.n >= x then [e] else [])
    ensures Next(h + [e]) == if e.id.Published? && e.id.n >= Next(h) then e.id.n + 1 else Next(h)
    ensures MaxAt(h + [e]) == if e.at > MaxAt(h) then e.at else MaxAt(h)
  {
    assert (h + [e])[..|h|] == h;
  }

  lemma {:induction false} FromIndexMember(h: seq<Envelope>, x: nat, e: Envelope)
    requires e in FromIndex(h, x)
    ensures e in h
  {
    if h[|h| - 1] != e {
      FromIndexMember(h[..|h| - 1], x, e);
    }
  }

  lemma {:induction false} BelowNext(h: seq<Envelope>, i: nat)
    requires i < |h| && h[i].id.Published?
    ensures h[i].id.n < Next(h)
  {
    if i < |h| - 1 {
      BelowNext(h[..|h| - 1], i);
    }
  }

  lemma {:induction false} MaxAtIsHandled(h: seq<Envelope>) returns (i: nat)
    requires h != []
    ensures i < |h| && h[i].at == MaxAt(h)
  {
    var n := |h| - 1;
    if h[n].at >= MaxAt(h[..n]) {
      i := n;
    } else {
      i := MaxAtIsHandled(h[..n]);
    }
  }

  // ---- the invariant, when seconds are ordered and nothing was dropped ----

  /** No matching event is stamped before the second in which an earlier one falls. */
  ghost predicate InOrder(f: Filter, log: seq<Envelope>) {
    forall i, j :: 0 <= i < j < |log| && Match(f, log[i]) && Match(f, log[j]) ==> Floor(log[i].at) <= log[j].at
  }

  ghost predicate Dated(log: seq<Envelope>) {
    forall i :: 0 <= i < |log| ==> log[i].at >= SECOND
  }

  ghost predicate IsLogEntry(f: Filter, log: seq<Envelope>, e: Envelope) {
    e.id.Published? && e.id.n < |log| && log[e.id.n] == e && Match(f, e)
  }

  ghost predicate HandledOk(f: Filter, log: seq<Envelope>, cl: Client) {
    && (forall i :: 0 <= i < |cl.handled| ==> IsLogEntry(f, log, cl.handled[i]))
    && Next(cl.handled) <= |log|
    && cl.lastSeen == MaxAt(cl.handled)
    && (cl.handled != [] ==>
          First(cl.handled) < Next(cl.handled)
          && FromIndex(cl.handled, First(cl.handled)) == Sel(log, First(cl.handled), Next(cl.handled), All(f)))
  }

  /** What the connection owes, without drops. */
  function Owed(f: Filter, c: Conn): Pick { Pick(f, c.since, {}, 0) }

  ghost predicate Undropped(c: Conn) {
    && c.dropped == {} && !c.sub.lagged && c.sub.lagDropped == 0
    && (forall i :: 0 <= i < |c.sub.ch| ==> c.sub.ch[i].id.Published?)
  }

  ghost predicate AllSince(c: Conn) {
    forall i :: 0 <= i < |c.out| ==> c.out[i].id.Published? && c.out[i].at >= c.since
  }

  /** The client has taken exactly what the connection owes up to `reached`. */
  ghost predicate TakenOk(f: Filter, log: seq<Envelope>, c: Conn) {
    && Lo(c) <= c.reached <= Hi(c) <= |log|
    && c.taken <= |c.out|
    && c.out[..c.taken] == Sel(log, Lo(c), c.reached, Owed(f, c))
  }

  ghost predicate SinceOk(f: Filter, log: seq<Envelope>, cl: Client, c: Conn) {
    && c.since <= Floor(cl.lastSeen)
    && c.start <= |log|
    && (c.since > 0 ==> exists i :: 0 <= i < c.start && Match(f, log[i]) && Floor(log[i].at) >= c.since)
    && (c.since == 0 && cl.handled != [] ==> First(cl.handled) >= c.start)
  }

  ghost predicate TakenSeen(f: Filter, log: seq<Envelope>, cl: Client, c: Conn) {
    c.reached <= |log| &&
    forall i :: Lo(c) <= i < c.reached && Keep(log[i], i, Owed(f, c)) ==> Published(i) in cl.seen
  }

  ghost predicate WireOk(f: Filter, log: seq<Envelope>, cl: Client, c: Conn) {
    && Undropped(c) && AllSince(c)
    && TakenOk(f, log, c) && SinceOk(f, log, cl, c) && TakenSeen(f, log, cl, c)
  }

  ghost predicate Fine(f: Filter, s: System) {
    && SystemOk(f, s) && ClientOk(s.client) && Dated(s.log)
    && HandledOk(f, s.log, s.client)
    && (s.conn.Some? ==> WireOk(f, s.log, s.client, s.conn.value))
  }

  lemma {:induction false} SinceOfAll(s: seq<Envelope>, since: nat)
    requires forall i :: 0 <= i < |s| ==> s[i].id.Published? && s[i].at >= since
    ensures SinceOf(s, since) == s
  {
    if s != [] {
      var before := s[..|s| - 1];
      assert forall i :: 0 <= i < |before| ==> before[i] == s[i];
      SinceOfAll(before, since);
      assert s == before + [s[|s| - 1]];
    }
  }

  /** Everything sent is what is owed. */
  lemma OutIsOwed(f: Filter, log: seq<Envelope>, fan: nat, c: Conn)
    requires ConnOk(f, log, fan, c) && Undropped(c) && AllSince(c)
    ensures c.out == Sel(log, Lo(c), Hi(c), Owed(f, c))
  {
    SinceOfAll(c.out, c.since);
    SelSame(log, Lo(c), Hi(c), OutPick(f, c), Owed(f, c));
  }

  /** The next envelope to be taken, and the gap before it. */
  lemma NextTaken(f: Filter, log: seq<Envelope>, fan: nat, cl: Client, c: Conn) returns (n: nat)
    requires ConnOk(f, log, fan, c) && WireOk(f, log, cl, c) && Numbered(log) && c.taken < |c.out|
    ensures c.reached <= n < Hi(c) && c.out[c.taken] == log[n] && Keep(log[n], n, Owed(f, c))
    ensures Sel(log, c.reached, n, Owed(f, c)) == []
    ensures c.out[..c.taken + 1] == Sel(log, Lo(c), n + 1, Owed(f, c))
  {
    var p := Owed(f, c);
    OutIsOwed(f, log, fan, c);
    SelSplit(log, Lo(c), c.reached, Hi(c), p);
    var left, right := Sel(log, Lo(c), c.reached, p), Sel(log, c.reached, Hi(c), p);
    assert c.out == left + right && |left| == c.taken;
    n := SelHead(log, c.reached, Hi(c), p);
    assert c.out[c.taken] == right[0] == log[n];
    TakenPrefix(log, c, n, p);
  }

  lemma TakenPrefix(log: seq<Envelope>, c: Conn, n: nat, p: Pick)
    requires Lo(c) <= c.reached <= n < |log| && c.taken < |c.out|
    requires c.out[..c.taken] == Sel(log, Lo(c), c.reached, p)
    requires Sel(log, c.reached, n, p) == [] && Keep(log[n], n, p) && c.out[c.taken] == log[n]
    ensures c.out[..c.taken + 1] == Sel(log, Lo(c), n + 1, p)
  {
    SelSplit(log, Lo(c), c.reached, n, p);
    assert c.out[..c.taken + 1] == c.out[..c.taken] + [log[n]];
  }

  /** A matching entry beyond what was handled is owed, and has not been taken. */
  lemma NothingSkippedAt(f: Filter, log: seq<Envelope>, cl: Client, c: Conn, j: nat)
    requires InOrder(f, log) && Numbered(log) && ClientOk(cl) && HandledOk(f, log, cl) && cl.handled != []
    requires SinceOk(f, log, cl, c) && TakenSeen(f, log, cl, c)
    requires Next(cl.handled) <= j < |log| && Match(f, log[j])
    ensures j >= c.reached && log[j].at >= c.since
  {
    var h := cl.handled;
    var i := MaxAtIsHandled(h);
    BelowNext(h, i);
    assert IsLogEntry(f, log, h[i]);
    if j < c.reached {
      assert Keep(log[j], j, Owed(f, c));
      assert j >= Lo(c);
      var k :| 0 <= k < |h| && h[k].id == Published(j);
      BelowNext(h, k);
    }
  }

  /** Between what was handled and the next envelope beyond it lies nothing that matches. */
  lemma NothingSkipped(f: Filter, log: seq<Envelope>, cl: Client, c: Conn, n: nat, j: nat)
    requires InOrder(f, log) && Numbered(log) && ClientOk(cl) && HandledOk(f, log, cl) && cl.handled != []
    requires SinceOk(f, log, cl, c) && TakenSeen(f, log, cl, c)
    requires n < |log| && Next(cl.handled) <= j < n
    requires c.reached <= n && Sel(log, c.reached, n, Owed(f, c)) == []
    ensures !Match(f, log[j])
  {
    if Match(f, log[j]) {
      NothingSkippedAt(f, log, cl, c, j);
      SelNone(log, c.reached, n, Owed(f, c));
    }
  }

  /** The matching entries up to where the handled list reaches have all been handled. */
  lemma NotBetween(f: Filter, log: seq<Envelope>, cl: Client, n: nat)
    requires Numbered(log) && ClientOk(cl) && HandledOk(f, log, cl) && cl.handled != []
    requires First(cl.handled) <= n < Next(cl.handled) && Match(f, log[n])
    ensures Published(n) in cl.seen
  {
    var h, x := cl.handled, First(cl.handled);
    SelMember(log, x, Next(h), All(f), log[n]);
    assert log[n] in FromIndex(h, x);
    FromIndexMember(h, x, log[n]);
    var k :| 0 <= k < |h| && h[k] == log[n];
    assert h[k].id in cl.seen;
  }

  ghost predicate Ordered(f: Filter, log: seq<Envelope>, h: seq<Envelope>) {
    h != [] ==> First(h) < Next(h) <= |log| && FromIndex(h, First(h)) == Sel(log, First(h), Next(h), All(f))
  }

  lemma OrderedFirst(f: Filter, log: seq<Envelope>, n: nat)
    requires Numbered(log) && n < |log| && Match(f, log[n])
    ensures Ordered(f, log, [] + [log[n]])
  {
    HandledSnoc([], log[n], n);
    SelOne(log, n, All(f));
  }

  lemma OrderedOlder(f: Filter, log: seq<Envelope>, h: seq<Envelope>, n: nat)
    requires Numbered(log) && h != [] && Ordered(f, log, h) && n < |log| && n < First(h)
    ensures Ordered(f, log, h + [log[n]])
  {
    HandledSnoc(h, log[n], First(h));
    assert First(h + [log[n]]) == First(h);
    assert FromIndex(h, First(h)) + [] == FromIndex(h, First(h));
  }

  lemma OrderedLater(f: Filter, log: seq<Envelope>, h: seq<Envelope>, n: nat)
    requires Numbered(log) && h != [] && Ordered(f, log, h) && Next(h) <= n < |log| && Match(f, log[n])
    requires forall j :: Next(h) <= j < n ==> !Match(f, log[j])
    ensures Ordered(f, log, h + [log[n]])
  {
    HandledSnoc(h, log[n], First(h));
    assert First(h + [log[n]]) == First(h);
    SelGap(log, First(h), Next(h), n, All(f));
  }

  /** Handling a log entry that was not seen keeps the handled list in publish order. */
  lemma HandleFresh(f: Filter, log: seq<Envelope>, cl: Client, n: nat)
    requires Numbered(log) && ClientOk(cl) && HandledOk(f, log, cl)
    requires n < |log| && Match(f, log[n]) && Published(n) !in cl.seen
    requires cl.handled != [] ==> forall j :: Next(cl.handled) <= j < n ==> !Match(f, log[j])
    ensures HandledOk(f, log, Handle(cl, log[n]))
  {
    var h := cl.handled;
    if h == [] {
      OrderedFirst(f, log, n);
    } else {
      if First(h) <= n < Next(h) {
        NotBetween(f, log, cl, n);
      }
      if n < First(h) {
        OrderedOlder(f, log, h, n);
      } else {
        OrderedLater(f, log, h, n);
      }
    }
    HandledSnoc(h, log[n], 0);
    EntriesSnoc(f, log, h, log[n]);
  }

  lemma EntriesSnoc(f: Filter, log: seq<Envelope>, h: seq<Envelope>, e: Envelope)
    requires forall i :: 0 <= i < |h| ==> IsLogEntry(f, log, h[i])
    requires IsLogEntry(f, log, e)
    ensures forall i :: 0 <= i < |h + [e]| ==> IsLogEntry(f, log, (h + [e])[i])
  {
  }

  // ---- every step keeps the invariant ----

  lemma HandledAppend(f: Filter, log: seq<Envelope>, cl: Client, e: Envelope)
    requires HandledOk(f, log, cl)
    ensures HandledOk(f, log + [e], cl)
  {
    var h := cl.handled;
    if h != [] {
      SelLog(log, e, First(h), Next(h), All(f));
    }
    forall i | 0 <= i < |h| ensures IsLogEntry(f, log + [e], h[i]) {
      assert IsLogEntry(f, log, h[i]);
    }
  }

  lemma WireAppend(f: Filter, log: seq<Envelope>, cl: Client, c: Conn, e: Envelope)
    requires WireOk(f, log, cl, c)
    ensures WireOk(f, log + [e], cl, c)
  {
    SelLog(log, e, Lo(c), c.reached, Owed(f, c));
    assert forall i :: 0 <= i < |log| ==> (log + [e])[i] == log[i];
  }

  /** The daemon only adds to what it has sent. */
  lemma WireGrows(f: Filter, log: seq<Envelope>, cl: Client, c: Conn, c': Conn)
    requires WireOk(f, log, cl, c)
    requires c'.since == c.since && c'.start == c.start && c'.taken == c.taken && c'.reached == c.reached
    requires Hi(c) <= Hi(c') <= |log| && c.out <= c'.out
    requires Undropped(c') && AllSince(c')
    ensures WireOk(f, log, cl, c')
  {
    assert c'.out[..c.taken] == c.out[..c.taken];
  }

  lemma WireReplay(f: Filter, log: seq<Envelope>, fan: nat, cl: Client, c: Conn)
    requires ConnOk(f, log, fan, c) && WireOk(f, log, cl, c) && Numbered(log) && c.replaying && c.pos < |log|
    ensures WireOk(f, log, cl, Replay(c, log[c.pos]))
  {
    WireGrows(f, log, cl, c, Replay(c, log[c.pos]));
  }

  lemma WireReplayEnd(f: Filter, log: seq<Envelope>, fan: nat, cl: Client, c: Conn)
    requires ConnOk(f, log, fan, c) && WireOk(f, log, cl, c) && c.replaying && c.pos == |log|
    ensures WireOk(f, log, cl, c.(replaying := false))
  {
    WireGrows(f, log, cl, c, c.(replaying := false));
  }

  lemma WireDrain(f: Filter, log: seq<Envelope>, fan: nat, cl: Client, c: Conn)
    requires ConnOk(f, log, fan, c) && WireOk(f, log, cl, c) && Numbered(log) && InOrder(f, log)
    requires !c.replaying && c.sub.ch != []
    ensures WireOk(f, log, cl, DrainOne(c))
  {
    hide ReplayedOk, OutOk, TakenSeen;
    var c' := DrainOne(c);
    ChanHead(f, log, fan, c);
    var n := c.sub.ch[0].id.n;
    assert Match(f, log[n]) && n >= c.start;
    WireGrows(f, log, cl, c, c');
  }

  lemma WireOpen(f: Filter, log: seq<Envelope>, cl: Client)
    requires HandledOk(f, log, cl) && InOrder(f, log) && Dated(log)
    ensures WireOk(f, log, cl, Open(f, Floor(cl.lastSeen), |log|))
  {
    var c := Open(f, Floor(cl.lastSeen), |log|);
    var h := cl.handled;
    if h != [] {
      var i := MaxAtIsHandled(h);
      assert IsLogEntry(f, log, h[i]);
      FloorKeepsSeconds(cl.lastSeen);
      assert log[h[i].id.n] == h[i];
    }
  }

  lemma FloorMonotone(a: nat, b: nat)
    requires a <= b
    ensures Floor(a) <= Floor(b)
  {
  }

  /** The whole second a time falls into. */
  lemma FloorReads(t: nat)
    ensures Floor(t) % 1_000_000_000 == 0 && Floor(t) <= t < Floor(t) + 1_000_000_000
  {
  }

  lemma FloorKeepsSeconds(t: nat)
    ensures Floor(t) <= t
    ensures t >= SECOND ==> Floor(t) >= SECOND
  {
  }

  lemma FineAppend(f: Filter, s: System, kind: string, at: nat, job: string)
    requires Fine(f, s)
    ensures Fine(f, DoAppend(s, kind, at, job))
  {
    DoAppendKeeps(f, s, kind, at, job);
    var e := Envelope(Published(|s.log|), kind, at, job);
    HandledAppend(f, s.log, s.client, e);
    if s.conn.Some? {
      WireAppend(f, s.log, s.client, s.conn.value, e);
    }
  }

  lemma WireFanOut(f: Filter, log: seq<Envelope>, cl: Client, c: Conn, e: Envelope)
    requires WireOk(f, log, cl, c) && e.id.Published?
    requires FanOutTo(c, e).sub.lagDropped == c.sub.lagDropped
    ensures WireOk(f, log, cl, FanOutTo(c, e))
  {
    WireGrows(f, log, cl, c, FanOutTo(c, e));
  }

  /** The log and the client stand; only the connection moved. */
  lemma FineStill(f: Filter, s: System, t: System)
    requires Fine(f, s) && SystemOk(f, t) && t.log == s.log && t.client == s.client
    requires t.conn.Some? ==> WireOk(f, t.log, t.client, t.conn.value)
    ensures Fine(f, t)
  {
  }

  lemma FanOutWire(f: Filter, s: System, log: seq<Envelope>, cl: Client, c: Conn)
    requires s.inflight && s.log == log != [] && s.conn == Some(c) && s.client == cl && Numbered(log)
    requires WireOk(f, log, cl, c) && DoFanOut(s).drops == s.drops
    ensures DoFanOut(s).conn.Some? && WireOk(f, log, cl, DoFanOut(s).conn.value)
  {
    FanOutReads(s);
    assert FanOutTo(c, log[|log| - 1]).sub.lagDropped == c.sub.lagDropped;
    WireFanOut(f, log, cl, c, log[|log| - 1]);
  }

  lemma FineFanOut(f: Filter, s: System)
    requires Fine(f, s) && DoFanOut(s).drops == s.drops
    ensures Fine(f, DoFanOut(s))
  {
    DoFanOutKeeps(f, s);
    if s.inflight && s.log != [] && s.conn.Some? {
      FanOutWire(f, s, s.log, s.client, s.conn.value);
    }
    FineStill(f, s, DoFanOut(s));
  }

  lemma FineDaemon(f: Filter, s: System, step: Step)
    requires Fine(f, s) && InOrder(f, s.log)
    ensures Fine(f, DoDaemon(s, step))
  {
    DoDaemonKeeps(f, s, step);
    if s.conn.Some? {
      WireDaemon(f, s.log, FannedOut(s), s.client, s.conn.value, step);
    }
  }

  lemma WireDaemon(f: Filter, log: seq<Envelope>, fan: nat, cl: Client, c: Conn, step: Step)
    requires ConnOk(f, log, fan, c) && WireOk(f, log, cl, c) && Numbered(log) && InOrder(f, log)
    ensures WireOk(f, log, cl, DaemonStep(log, c, step))
  {
    match step
    case ReplayLine => if c.replaying && c.pos < |log| { WireReplay(f, log, fan, cl, c); }
    case ReplayEnd => if c.replaying && c.pos == |log| { WireReplayEnd(f, log, fan, cl, c); }
    case Drain => if !c.replaying && c.sub.ch != [] { WireDrain(f, log, fan, cl, c); }
    case _ =>
  }

  lemma FineConnect(f: Filter, s: System)
    requires Fine(f, s) && InOrder(f, s.log)
    ensures Fine(f, Do(f, s, Connect))
  {
    hide ConnOk, WireOk, ClientOk, HandledOk, Dated, InOrder;
    OpenOk(f, s.log, Floor(s.client.lastSeen));
    WireOpen(f, s.log, s.client);
  }

  lemma TakenSeenNext(f: Filter, log: seq<Envelope>, cl: Client, c: Conn, n: nat, cl': Client)
    requires TakenSeen(f, log, cl, c) && c.reached <= n < |log| && Sel(log, c.reached, n, Owed(f, c)) == []
    requires cl.seen <= cl'.seen && Published(n) in cl'.seen
    ensures TakenSeen(f, log, cl', c.(taken := c.taken + 1, reached := n + 1))
  {
    SelNone(log, c.reached, n, Owed(f, c));
  }

  lemma SinceOkNext(f: Filter, log: seq<Envelope>, cl: Client, c: Conn, e: Envelope, taken: nat, reached: nat)
    requires SinceOk(f, log, cl, c)
    requires c.since == 0 && cl.handled == [] ==> e.id.Published? && e.id.n >= c.start
    ensures SinceOk(f, log, Handle(cl, e), c.(taken := taken, reached := reached))
  {
    FloorMonotone(cl.lastSeen, Handle(cl, e).lastSeen);
    hide Match, Floor;
  }

  lemma TakeReads(s: System, c: Conn, e: Envelope, n: nat)
    requires s.conn == Some(c) && c.taken < |c.out| && c.out[c.taken] == e && e.id == Published(n)
    ensures DoTake(s) == s.(conn := Some(c.(taken := c.taken + 1, reached := n + 1)), client := Handle(s.client, e))
  {
  }

  lemma TakeWire(f: Filter, s: System, log: seq<Envelope>, fan: nat, cl: Client, c: Conn)
    requires s.conn == Some(c) && s.log == log && s.client == cl && c.taken < |c.out|
    requires ConnOk(f, log, fan, c) && WireOk(f, log, cl, c) && Numbered(log) && InOrder(f, log)
    requires ClientOk(cl) && HandledOk(f, log, cl)
    ensures var t := DoTake(s);
            && t.log == log && t.conn.Some?
            && ClientOk(t.client) && HandledOk(f, log, t.client) && WireOk(f, log, t.client, t.conn.value)
  {
    var n := TakeKeepsOrder(f, log, fan, cl, c);
    TakeReads(s, c, log[n], n);
  }

  lemma FineTake(f: Filter, s: System)
    requires Fine(f, s) && InOrder(f, s.log)
    ensures Fine(f, DoTake(s))
  {
    DoTakeKeeps(f, s);
    if s.conn.Some? && s.conn.value.taken < |s.conn.value.out| {
      TakeWire(f, s, s.log, FannedOut(s), s.client, s.conn.value);
    }
  }

  lemma HandleKeepsOrder(f: Filter, log: seq<Envelope>, cl: Client, c: Conn, n: nat)
    requires Numbered(log) && InOrder(f, log) && ClientOk(cl) && HandledOk(f, log, cl)
    requires SinceOk(f, log, cl, c) && TakenSeen(f, log, cl, c)
    requires c.reached <= n < |log| && Sel(log, c.reached, n, Owed(f, c)) == [] && Match(f, log[n])
    ensures HandledOk(f, log, Handle(cl, log[n]))
  {
    if log[n].id !in cl.seen {
      if cl.handled != [] {
        forall j | Next(cl.handled) <= j < n ensures !Match(f, log[j]) {
          NothingSkipped(f, log, cl, c, n, j);
        }
      }
      HandleFresh(f, log, cl, n);
    }
  }

  lemma TakeKeepsOrder(f: Filter, log: seq<Envelope>, fan: nat, cl: Client, c: Conn) returns (n: nat)
    requires ConnOk(f, log, fan, c) && WireOk(f, log, cl, c) && Numbered(log) && InOrder(f, log)
    requires ClientOk(cl) && HandledOk(f, log, cl) && c.taken < |c.out|
    ensures n < |log| && c.out[c.taken] == log[n] && TakenInOrder(f, log, cl, c, n)
  {
    n := NextTaken(f, log, fan, cl, c);
    TakeEntryKeepsOrder(f, log, cl, c, n);
  }

  ghost predicate TakenInOrder(f: Filter, log: seq<Envelope>, cl: Client, c: Conn, n: nat)
    requires n < |log|
  {
    var cl' := Handle(cl, log[n]);
    && ClientOk(cl') && HandledOk(f, log, cl')
    && WireOk(f, log, cl', c.(taken := c.taken + 1, reached := n + 1))
  }

  lemma TakeEntryKeepsOrder(f: Filter, log: seq<Envelope>, cl: Client, c: Conn, n: nat)
    requires WireOk(f, log, cl, c) && Numbered(log) && InOrder(f, log) && ClientOk(cl) && HandledOk(f, log, cl)
    requires c.taken < |c.out| && c.reached <= n < Hi(c) <= |log| && c.out[c.taken] == log[n]
    requires Match(f, log[n]) && Sel(log, c.reached, n, Owed(f, c)) == []
    requires c.out[..c.taken + 1] == Sel(log, Lo(c), n + 1, Owed(f, c))
    ensures TakenInOrder(f, log, cl, c, n)
  {
    assert ClientOk(Handle(cl, log[n])) by { HandleKeeps(cl, log[n]); }
    assert HandledOk(f, log, Handle(cl, log[n])) by { HandleKeepsOrder(f, log, cl, c, n); }
    WireTake(f, log, cl, c, n);
  }

  lemma WireTake(f: Filter, log: seq<Envelope>, cl: Client, c: Conn, n: nat)
    requires WireOk(f, log, cl, c) && Numbered(log) && c.taken < |c.out|
    requires c.reached <= n < Hi(c) <= |log| && c.out[c.taken] == log[n]
    requires Sel(log, c.reached, n, Owed(f, c)) == []
    requires c.out[..c.taken + 1] == Sel(log, Lo(c), n + 1, Owed(f, c))
    ensures WireOk(f, log, Handle(cl, log[n]), c.(taken := c.taken + 1, reached := n + 1))
  {
    hide Sel, Match;
    TakenSeenNext(f, log, cl, c, n, Handle(cl, log[n]));
    SinceOkNext(f, log, cl, c, log[n], c.taken + 1, n + 1);
  }

  lemma FineDisconnect(f: Filter, s: System)
    requires Fine(f, s)
    ensures Fine(f, s.(conn := None))
  {
  }

  lemma FineStep(f: Filter, s: System, step: Step)
    requires Fine(f, s) && InOrder(f, s.log) && Do(f, s, step).drops == s.drops
    ensures Fine(f, Do(f, s, step))
  {
    hide Fine, DoAppend, DoFanOut, DoTake, DoDaemon;
    match step
    case Append(kind, at, job) => FineAppend(f, s, kind, at, job);
    case Connect => FineConnect(f, s);
    case FanOut => FineFanOut(f, s);
    case Disconnect => FineDisconnect(f, s);
    case Take => FineTake(f, s);
    case _ => FineDaemon(f, s, step);
  }

  lemma StepsOnlyAdd(f: Filter, s: System, step: Step)
    ensures s.log <= Do(f, s, step).log && s.drops <= Do(f, s, step).drops
  {
  }

  lemma {:induction false} PlayIsFine(f: Filter, steps: seq<Step>, n: nat)
    requires n <= |steps|
    requires InOrder(f, Play(f, steps, n).log) && Play(f, steps, n).drops == 0
    ensures Fine(f, Play(f, steps, n))
  {
    if n > 0 {
      var s := Play(f, steps, n - 1);
      StepsOnlyAdd(f, s, steps[n - 1]);
      EarlierInOrder(f, s.log, Play(f, steps, n).log);
      PlayIsFine(f, steps, n - 1);
      FineStep(f, s, steps[n - 1]);
    }
  }

  lemma EarlierInOrder(f: Filter, a: seq<Envelope>, b: seq<Envelope>)
    requires a <= b && InOrder(f, b)
    ensures InOrder(f, a)
  {
    assert forall i :: 0 <= i < |a| ==> a[i] == b[i];
  }

  /**
    Over any run of publishes, disconnects and reconnects: if no matching event is stamped before
    the second of an earlier one and none was dropped for lag, then of the events published from the first
    handled one on, the client has handled an unbroken stretch of the matching ones, in
    publish order, although what is in flight is lost on every disconnect.
  */
  lemma NothingIsSkipped(f: Filter, steps: seq<Step>)
    ensures var s := Play(f, steps, |steps|);
            var h := s.client.handled;
            InOrder(f, s.log) && s.drops == 0 && h != [] ==>
              First(h) < Next(h) <= |s.log| && FromIndex(h, First(h)) == Sel(s.log, First(h), Next(h), All(f))
  {
    var s := Play(f, steps, |steps|);
    if InOrder(f, s.log) && s.drops == 0 {
      PlayIsFine(f, steps, |steps|);
    }
  }

  /** A connection on which nothing is outstanding anywhere. */
  ghost predicate CaughtUp(s: System) {
    && s.conn.Some? && !s.inflight
    && var c := s.conn.value;
    !c.replaying && c.sub.ch == [] && c.taken == |c.out|
  }

  lemma CaughtUpHandled(f: Filter, log: seq<Envelope>, cl: Client, c: Conn, j: nat)
    requires ConnOk(f, log, |log|, c) && WireOk(f, log, cl, c) && Numbered(log) && InOrder(f, log)
    requires ClientOk(cl) && HandledOk(f, log, cl) && cl.handled != []
    requires !c.replaying && c.sub.ch == [] && c.taken == |c.out|
    requires Next(cl.handled) <= j < |log|
    ensures !Match(f, log[j])
  {
    var p := Owed(f, c);
    OutIsOwed(f, log, |log|, c);
    SelSplit(log, Lo(c), c.reached, Hi(c), p);
    assert c.out[..c.taken] == c.out;
    assert |Sel(log, c.reached, Hi(c), p)| == 0;
    SelNone(log, c.reached, Hi(c), p);
    SelNone(log, c.drained, |log|, ChanPick(f, c));
    if Match(f, log[j]) {
      NothingSkippedAt(f, log, cl, c, j);
      assert j >= Hi(c) ==> Keep(log[j], j, ChanPick(f, c));
    }
  }

  /** And once a connection has caught up, that stretch reaches the end of the log. */
  lemma CaughtUpMissesNothing(f: Filter, steps: seq<Step>)
    ensures var s := Play(f, steps, |steps|);
            var h := s.client.handled;
            InOrder(f, s.log) && s.drops == 0 && h != [] && CaughtUp(s) ==>
              First(h) < |s.log| && FromIndex(h, First(h)) == Sel(s.log, First(h), |s.log|, All(f))
  {
    var s := Play(f, steps, |steps|);
    var h := s.client.handled;
    if InOrder(f, s.log) && s.drops == 0 && h != [] && CaughtUp(s) {
      PlayIsFine(f, steps, |steps|);
      forall j | Next(h) <= j < |s.log| ensures !Keep(s.log[j], j, All(f)) {
        CaughtUpHandled(f, s.log, s.client, s.conn.value, j);
      }
      SelNone(s.log, Next(h), |s.log|, All(f));
      SelSplit(s.log, First(h), Next(h), |s.log|, All(f));
    }
  }

  // ---- before anything has been handled, whatever the times ----

  /** What has been taken has been seen, and a client that has handled nothing asks for no replay. */
  ghost predicate Heard(s: System) {
    && (s.client.handled == [] ==> s.client.lastSeen == 0)
    && (s.conn.Some? ==>
          var c := s.conn.value;
          && c.since <= s.client.lastSeen && c.taken <= |c.out|
          && forall p :: 0 <= p < c.taken ==> c.out[p].id in s.client.seen)
  }

  lemma HeardStays(s: System, t: System)
    requires Heard(s) && t.client == s.client
    requires t.conn.Some? ==>
               s.conn.Some? && t.conn.value.since == s.conn.value.since && t.conn.value.taken == s.conn.value.taken
               && s.conn.value.out <= t.conn.value.out
    ensures Heard(t)
  {
  }

  lemma HeardStep(f: Filter, s: System, step: Step)
    requires Heard(s)
    ensures Heard(Do(f, s, step))
  {
    if step.Take? {
      hide Handle;
      if s.conn.Some? && s.conn.value.taken < |s.conn.value.out| {
        HandleAdds(s.client, s.conn.value.out[s.conn.value.taken]);
      }
    } else if step.Connect? {
      FloorKeepsSeconds(s.client.lastSeen);
    } else {
      HeardStays(s, Do(f, s, step));
    }
  }

  lemma HandleAdds(cl: Client, e: Envelope)
    requires cl.handled == [] ==> cl.lastSeen == 0
    ensures var t := Handle(cl, e);
            t.lastSeen >= cl.lastSeen && t.seen == cl.seen + {e.id} && (t.handled == [] ==> t.lastSeen == 0)
  {
  }

  lemma {:induction false} PlayHeard(f: Filter, steps: seq<Step>, n: nat)
    requires n <= |steps|
    ensures Heard(Play(f, steps, n))
  {
    hide Heard, Do;
    if n == 0 {
      assert Heard(START) by { NothingHeardYet(); }
    } else {
      PlayHeard(f, steps, n - 1);
      HeardStep(f, Play(f, steps, n - 1), steps[n - 1]);
    }
  }

  lemma NothingHeardYet()
    ensures Heard(START)
  {
  }

  lemma TakenIsHandled(s: System, c: Conn)
    requires Heard(s) && ClientOk(s.client) && s.conn == Some(c) && 0 < |c.out| == c.taken
    ensures s.client.handled != []
  {
    assert c.out[0].id in s.client.seen;
  }

  lemma NothingTaken(s: System, c: Conn)
    requires Heard(s) && ClientOk(s.client) && s.client.handled == [] && s.conn == Some(c) && c.taken == |c.out|
    ensures c.out == [] && c.since == 0
  {
    if c.out != [] {
      TakenIsHandled(s, c);
    }
  }

  lemma NothingOut(out: seq<Envelope>, since: nat)
    requires out == []
    ensures SinceOf(out, since) == []
  {
  }

  /**
    A client that has handled nothing has missed nothing since it last connected, once it has caught up
    and unless this connection dropped something: here times do not matter.
  */
  lemma NothingHandledSinceConnecting(f: Filter, steps: seq<Step>)
    ensures var s := Play(f, steps, |steps|);
            s.client.handled == [] && CaughtUp(s) && s.conn.value.sub.lagDropped == 0 ==>
              forall j: nat :: s.conn.value.start <= j < |s.log| ==> !Match(f, s.log[j])
  {
    var s := Play(f, steps, |steps|);
    if s.client.handled == [] && CaughtUp(s) && s.conn.value.sub.lagDropped == 0 {
      PlayHeard(f, steps, |steps|);
      HandledAtMostOnce(f, steps, |steps|);
      var c := s.conn.value;
      NothingTaken(s, c);
      NothingOut(c.out, c.since);
      DrainedConnectionSentAll(f, steps);
      SelNone(s.log, c.start, |s.log|, Pick(f, 0, {}, 0));
      forall j: nat | c.start <= j < |s.log| ensures !Match(f, s.log[j]) {
        assert !Keep(s.log[j], j, Pick(f, 0, {}, 0));
      }
    }
  }
}
