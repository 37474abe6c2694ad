/**
  When the whole handled list is in publish order: a replay starts at a whole second, so what
  is older than the first handled event can be handled too, but only from that second on.
*/
module Order {
  import opened Common
  import opened Events
  import opened Selection
  import opened Delivery
  import opened Reconnect

  /** Handled, and published before the first handled event: then not before its second began. */
  ghost predicate OldOk(log: seq<Envelope>, h: seq<Envelope>) {
    h != [] ==>
      First(h) < |log| &&
      forall i :: 0 <= i < |h| && h[i].id.Published? && h[i].id.n < First(h) ==> h[i].at >= Floor(log[First(h)].at)
  }

  /** A replaying connection starts no earlier than that second, a live one after that event. */
  ghost predicate StartOk(log: seq<Envelope>, h: seq<Envelope>, c: Conn) {
    if c.since > 0 then h != [] && First(h) < |log| && c.since >= Floor(log[First(h)].at)
    else h != [] ==> First(h) < c.reached
  }

  ghost predicate Placed(s: System) {
    OldOk(s.log, s.client.handled) && (s.conn.Some? ==> StartOk(s.log, s.client.handled, s.conn.value))
  }

  lemma PlacedStays(s: System, t: System)
    requires Placed(s) && s.log <= t.log && t.client == s.client
    requires t.conn.Some? ==>
        s.conn.Some? && t.conn.value.since == s.conn.value.since && t.conn.value.reached == s.conn.value.reached
    ensures Placed(t)
  {
  }

  lemma {:induction false} MaxAtCovers(h: seq<Envelope>, i: nat)
    requires i < |h|
    ensures h[i].at <= MaxAt(h)
  {
    if i < |h| - 1 {
      MaxAtCovers(h[..|h| - 1], i);
    }
  }

  lemma PlacedConnect(f: Filter, log: seq<Envelope>, cl: Client)
    requires HandledOk(f, log, cl) && Dated(log) && OldOk(log, cl.handled)
    ensures StartOk(log, cl.handled, Open(f, Floor(cl.lastSeen), |log|))
  {
    var h := cl.handled;
    if h != [] {
      assert IsLogEntry(f, log, h[0]);
      MaxAtCovers(h, 0);
      FloorMonotone(log[First(h)].at, cl.lastSeen);
      FloorKeepsSeconds(cl.lastSeen);
    }
  }

  lemma OldSnoc(log: seq<Envelope>, h: seq<Envelope>, n: nat)
    requires Numbered(log) && n < |log| && OldOk(log, h)
    requires h != [] ==> n >= First(h) || log[n].at >= Floor(log[First(h)].at)
    ensures OldOk(log, h + [log[n]])
    ensures First(h + [log[n]]) == if h == [] then n else First(h)
  {
  }

  lemma PlacedTake(f: Filter, log: seq<Envelope>, cl: Client, c: Conn, n: nat)
    requires Numbered(log) && n < |log| && OldOk(log, cl.handled) && StartOk(log, cl.handled, c)
    requires c.reached <= n && log[n].at >= c.since
    ensures OldOk(log, Handle(cl, log[n]).handled)
    ensures StartOk(log, Handle(cl, log[n]).handled, c.(taken := c.taken + 1, reached := n + 1))
  {
    if log[n].id !in cl.seen {
      OldSnoc(log, cl.handled, n);
    }
  }

  lemma TakePlaced(f: Filter, s: System, log: seq<Envelope>, fan: nat, cl: Client, c: Conn)
    requires s.conn == Some(c) && s.log == log && s.client == cl && c.taken < |c.out|
    requires ConnOk(f, log, fan, c) && WireOk(f, log, cl, c) && Numbered(log)
    requires OldOk(log, cl.handled) && StartOk(log, cl.handled, c)
    ensures Placed(DoTake(s))
  {
    var n := NextTaken(f, log, fan, cl, c);
    PlacedTake(f, log, cl, c, n);
    TakeReads(s, c, log[n], n);
  }

  lemma DaemonKeepsPlace(f: Filter, s: System, step: Step)
    requires Placed(s)
    ensures Placed(DoDaemon(s, step))
  {
    PlacedStays(s, DoDaemon(s, step));
  }

  lemma AppendKeepsPlace(s: System, kind: string, at: nat, job: string)
    requires Placed(s)
    ensures Placed(DoAppend(s, kind, at, job))
  {
    PlacedStays(s, DoAppend(s, kind, at, job));
  }

  lemma FanOutKeepsPlace(s: System)
    requires Placed(s)
    ensures Placed(DoFanOut(s))
  {
    PlacedStays(s, DoFanOut(s));
  }

  lemma ConnectKeepsPlace(f: Filter, s: System)
    requires Fine(f, s) && Placed(s)
    ensures Placed(Do(f, s, Connect))
  {
    hide SystemOk, WireOk, ClientOk;
    PlacedConnect(f, s.log, s.client);
  }

  lemma TakeKeepsPlace(f: Filter, s: System)
    requires Fine(f, s) && Placed(s)
    ensures Placed(DoTake(s))
  {
    hide ConnOk, WireOk, ClientOk, HandledOk, OldOk, StartOk;
    if s.conn.Some? && s.conn.value.taken < |s.conn.value.out| {
      TakePlaced(f, s, s.log, FannedOut(s), s.client, s.conn.value);
    }
  }

  lemma PlacedStep(f: Filter, s: System, step: Step)
    requires Fine(f, s) && Placed(s)
    ensures Placed(Do(f, s, step))
  {
    hide Fine, OldOk, StartOk, DoAppend, DoFanOut, DoTake, DoDaemon;
    match step
    case Append(kind, at, job) => AppendKeepsPlace(s, kind, at, job);
    case Connect => ConnectKeepsPlace(f, s);
    case FanOut => FanOutKeepsPlace(s);
    case Disconnect =>
    case Take => TakeKeepsPlace(f, s);
    case _ => DaemonKeepsPlace(f, s, step);
  }

  lemma {:induction false} PlayIsPlaced(f: Filter, steps: seq<Step>, n: nat)
    requires n <= |steps|
    requires InOrder(f, Play(f, steps, n).log) && Play(f, steps, n).drops == 0
    ensures Placed(Play(f, steps, n))
  {
    if n > 0 {
      var s := Play(f, steps, n - 1);
      StepsOnlyAdd(f, s, steps[n - 1]);
      EarlierInOrder(f, s.log, Play(f, steps, n).log);
      PlayIsFine(f, steps, n - 1);
      PlayIsPlaced(f, steps, n - 1);
      PlacedStep(f, s, steps[n - 1]);
    }
  }

  /** No matching event from before index x falls in or after the second of event x. */
  ghost predicate NoneInSecondOf(f: Filter, log: seq<Envelope>, x: nat) {
    x < |log| && forall i :: 0 <= i < x && Match(f, log[i]) ==> log[i].at < Floor(log[x].at)
  }

  lemma {:induction false} AllFromIndex(h: seq<Envelope>, x: nat)
    requires forall i :: 0 <= i < |h| ==> h[i].id.Published? && h[i].id.n >= x
    ensures FromIndex(h, x) == h
  {
    if h != [] {
      var before := h[..|h| - 1];
      assert forall i :: 0 <= i < |before| ==> before[i] == h[i];
      AllFromIndex(before, x);
      assert h == before + [h[|h| - 1]];
    }
  }

  lemma NothingOlder(f: Filter, log: seq<Envelope>, cl: Client)
    requires HandledOk(f, log, cl) && OldOk(log, cl.handled) && cl.handled != []
          && NoneInSecondOf(f, log, First(cl.handled))
    ensures FromIndex(cl.handled, First(cl.handled)) == cl.handled
  {
    var h := cl.handled;
    forall i | 0 <= i < |h| ensures h[i].id.Published? && h[i].id.n >= First(h) {
      assert IsLogEntry(f, log, h[i]);
    }
    AllFromIndex(h, First(h));
  }

  /**
    With seconds in order and no drop: if no matching event published before the first
    handled one falls into its second, everything handled is the unbroken stretch of matching
    events from that one on, in publish order.
  */
  lemma HandledInPublishOrder(f: Filter, steps: seq<Step>)
    ensures var s := Play(f, steps, |steps|);
            var h := s.client.handled;
            InOrder(f, s.log) && s.drops == 0 && h != [] && NoneInSecondOf(f, s.log, First(h)) ==>
              Next(h) <= |s.log| && h == Sel(s.log, First(h), Next(h), All(f))
  {
    var s := Play(f, steps, |steps|);
    if InOrder(f, s.log) && s.drops == 0 && s.client.handled != []
        && NoneInSecondOf(f, s.log, First(s.client.handled)) {
      PlayIsFine(f, steps, |steps|);
      PlayIsPlaced(f, steps, |steps|);
      NothingOlder(f, s.log, s.client);
    }
  }
}
