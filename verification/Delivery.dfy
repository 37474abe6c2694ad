/**
  Delivery from the bus to a client that reconnects (internal/daemon/daemon.go,
  pkg/bigbandext/client.go, cmd/bigband-slack/start.go) as a state machine: publish, fan
  out, replay a line, drain the live channel, take an envelope, disconnect, reconnect, in
  any order. A step that is not enabled leaves the state as it is.
*/
module Delivery {
  import opened Common
  import opened Events
  import opened Selection

  /** RFC 3339 without fractions: `since` is cut down to a whole second. */
  function Floor(t: nat): nat { t / SECOND * SECOND }

  /**
    One connection. `out` is everything the daemon has sent on it, of which the client has
    taken `taken`; the rest is in flight and dies with the connection. `start`, `drained`,
    `reached` and `dropped` are history: the log length when it subscribed, how far the live
    channel has been drained, how far the client has read, and what the buffer lost.
  */
  datatype Conn = Conn(
    sub: Sub, since: nat, replaying: bool, pos: nat, replayed: set<Id>,
    out: seq<Envelope>, taken: nat,
    start: nat, drained: nat, reached: nat, dropped: set<Id>)

  /** What streamOnce keeps across connections; lastSeen 0 is the zero time. */
  datatype Client = Client(lastSeen: nat, seen: set<Id>, handled: seq<Envelope>)

  /** `inflight`: the last log entry is written but not yet fanned out. */
  datatype System = System(log: seq<Envelope>, inflight: bool, conn: Option<Conn>, client: Client, drops: nat)

  const START := System([], false, None, Client(0, {}, []), 0)

  datatype Step =
    | Append(kind: string, at: nat, job: string)
    | FanOut
    | Nudging(m: nat, at: nat)
    | Connect
    | ReplayLine
    | ReplayEnd
    | Drain
    | Take
    | Disconnect

  /** The daemon's side of a new connection, subscribed when the log holds n entries. */
  function Open(f: Filter, since: nat, n: nat): Conn {
    Conn(NewSub(f), since, since > 0, if since > 0 then 0 else n, {}, [], 0, n, n, if since > 0 then 0 else n, {})
  }

  /** One line of streamReplay. */
  function Replay(c: Conn, e: Envelope): Conn {
    var c := c.(pos := c.pos + 1);
    if e.at < c.since || !Match(c.sub.filter, e) then c
    else c.(out := c.out + [e], replayed := c.replayed + {e.id})
  }

  /** One turn of the live loop of handleSubscribe. */
  function DrainOne(c: Conn): Conn
    requires c.sub.ch != []
  {
    var e := c.sub.ch[0];
    var c := c.(sub := Receive(c.sub), drained := if e.id.Published? then e.id.n + 1 else c.drained);
    if e.id in c.replayed then c else c.(out := c.out + [e])
  }

  function FanOutTo(c: Conn, e: Envelope): Conn {
    var sub := Offer(c.sub, e);
    c.(sub := sub, dropped := if sub.lagDropped > c.sub.lagDropped then c.dropped + {e.id} else c.dropped)
  }

  /** One turn of the loop of streamOnce. */
  function Handle(cl: Client, e: Envelope): Client {
    if e.id in cl.seen then cl
    else Client(if e.at > cl.lastSeen then e.at else cl.lastSeen, cl.seen + {e.id}, cl.handled + [e])
  }

  function FannedOut(s: System): int { |s.log| - if s.inflight then 1 else 0 }

  function LagMarker(m: nat, at: nat): Envelope { Envelope(Marked(m), "subscriber.lagged", at, "") }

  /** What the daemon may do on a connection, publishing aside. */
  function DaemonStep(log: seq<Envelope>, c: Conn, step: Step): Conn {
    match step
    case Nudging(m, at) => c.(sub := Nudge(c.sub, LagMarker(m, at)))
    case ReplayLine => if c.replaying && c.pos < |log| then Replay(c, log[c.pos]) else c
    case ReplayEnd => if c.replaying && c.pos == |log| then c.(replaying := false) else c
    case Drain => if !c.replaying && c.sub.ch != [] then DrainOne(c) else c
    case _ => c
  }

  /** Subscribers are told of their lag only after a publish has been fanned out to all. */
  function DoDaemon(s: System, step: Step): System {
    if s.conn.None? || (step.Nudging? && s.inflight) then s
    else s.(conn := Some(DaemonStep(s.log, s.conn.value, step)))
  }

  function DoAppend(s: System, kind: string, at: nat, job: string): System {
    if s.inflight || at < SECOND then s
    else s.(log := s.log + [Envelope(Published(|s.log|), kind, at, job)], inflight := true)
  }

  function DoFanOut(s: System): System {
    if !s.inflight || s.log == [] then s
    else if s.conn.None? then s.(inflight := false)
    else
      var c := FanOutTo(s.conn.value, s.log[|s.log| - 1]);
      s.(inflight := false, conn := Some(c), drops := s.drops + c.sub.lagDropped - s.conn.value.sub.lagDropped)
  }

  function DoTake(s: System): System {
    if s.conn.None? || s.conn.value.taken >= |s.conn.value.out| then s else
      var c := s.conn.value;
      var e := c.out[c.taken];
      s.(conn := Some(c.(taken := c.taken + 1, reached := if e.id.Published? then e.id.n + 1 else c.reached)),
         client := Handle(s.client, e))
  }

  function Do(f: Filter, s: System, step: Step): System {
    match step
    case Append(kind, at, job) => DoAppend(s, kind, at, job)
    case Connect =>
      if s.conn.Some? || s.inflight then s
      else s.(conn := Some(Open(f, Floor(s.client.lastSeen), |s.log|)))
    case Disconnect => s.(conn := None)
    case FanOut => DoFanOut(s)
    case Take => DoTake(s)
    case _ => DoDaemon(s, step)
  }

  function Play(f: Filter, steps: seq<Step>, n: nat): System
    requires n <= |steps|
  {
    if n == 0 then START else Do(f, Play(f, steps, n - 1), steps[n - 1])
  }

  // ---- what one connection keeps ----

  function Lo(c: Conn): nat { if c.since > 0 then 0 else c.start }

  /** How far into the log the connection's output reaches. */
  function Hi(c: Conn): nat {
    if c.replaying || c.drained < c.pos then c.pos else c.drained
  }

  /** What waits in the channel. */
  function ChanPick(f: Filter, c: Conn): Pick { Pick(f, 0, c.dropped, 0) }

  /** What the output owes: a drop counts only beyond what was replayed. */
  function OutPick(f: Filter, c: Conn): Pick { Pick(f, c.since, c.dropped, c.pos) }

  ghost predicate Bounds(f: Filter, log: seq<Envelope>, fan: nat, c: Conn) {
    && c.sub.filter == f
    && c.start <= c.drained <= fan <= |log| && c.pos <= |log|
    && (c.replaying ==> c.since > 0 && c.drained == c.start)
    && (!c.replaying ==> c.start <= c.pos)
    && (c.since == 0 ==> c.pos == c.start)
  }

  ghost predicate ChanOk(f: Filter, log: seq<Envelope>, fan: nat, c: Conn)
    requires fan <= |log|
  {
    Logged(c.sub.ch) == Sel(log, c.drained, fan, ChanPick(f, c))
  }

  ghost predicate DropsOk(fan: nat, c: Conn) {
    && (forall id :: id in c.dropped ==> id.Published? && c.start <= id.n < fan)
    && |c.dropped| == c.sub.lagDropped
  }

  ghost predicate ReplayedOk(f: Filter, log: seq<Envelope>, c: Conn) {
    forall id :: id in c.replayed <==>
      id.Published? && c.since > 0 && id.n < c.pos && id.n < |log| && Match(f, log[id.n]) && log[id.n].at >= c.since
  }

  ghost predicate OutOk(f: Filter, log: seq<Envelope>, c: Conn) {
    && Hi(c) <= |log|
    && SinceOf(c.out, c.since) == Sel(log, Lo(c), Hi(c), OutPick(f, c))
  }

  ghost predicate ConnOk(f: Filter, log: seq<Envelope>, fan: nat, c: Conn) {
    && Bounds(f, log, fan, c)
    && ChanOk(f, log, fan, c)
    && DropsOk(fan, c)
    && ReplayedOk(f, log, c)
    && OutOk(f, log, c)
    && c.taken <= |c.out|
  }

  ghost predicate SystemOk(f: Filter, s: System) {
    && Numbered(s.log)
    && (s.inflight ==> s.log != [])
    && (s.conn.Some? ==> ConnOk(f, s.log, FannedOut(s), s.conn.value))
  }

  lemma AppendKeeps(f: Filter, log: seq<Envelope>, fan: nat, c: Conn, e: Envelope)
    requires ConnOk(f, log, fan, c)
    ensures ConnOk(f, log + [e], fan, c)
  {
    SelLog(log, e, c.drained, fan, ChanPick(f, c));
    SelLog(log, e, Lo(c), Hi(c), OutPick(f, c));
    assert forall i :: 0 <= i < |log| ==> (log + [e])[i] == log[i];
  }

  lemma OpenOk(f: Filter, log: seq<Envelope>, since: nat)
    ensures ConnOk(f, log, |log|, Open(f, since, |log|))
  {
  }

  lemma NudgeKeeps(f: Filter, log: seq<Envelope>, fan: nat, c: Conn, marker: Envelope)
    requires ConnOk(f, log, fan, c) && marker.id.Marked?
    ensures ConnOk(f, log, fan, c.(sub := Nudge(c.sub, marker)))
  {
    LoggedSnoc(c.sub.ch, marker);
    assert Logged(c.sub.ch) + [] == Logged(c.sub.ch);
  }

  lemma ReplayLineKeepsOut(f: Filter, log: seq<Envelope>, fan: nat, c: Conn)
    requires Bounds(f, log, fan, c) && OutOk(f, log, c) && DropsOk(fan, c) && Numbered(log) && c.replaying
          && c.pos < |log|
    ensures OutOk(f, log, Replay(c, log[c.pos]))
  {
    hide Sel, SinceOf, Match;
    var e := log[c.pos];
    var c' := Replay(c, e);
    SinceSnoc(c.out, e, c.since);
    SelSame(log, 0, c.pos, OutPick(f, c), OutPick(f, c'));
    SelNext(log, 0, c.pos, OutPick(f, c'));
    assert c.out + [] == c.out && SinceOf(c.out, c.since) + [] == SinceOf(c.out, c.since);
  }

  lemma ReplayLineKeepsRest(f: Filter, log: seq<Envelope>, fan: nat, c: Conn)
    requires ConnOk(f, log, fan, c) && Numbered(log) && c.replaying && c.pos < |log|
    ensures var d := Replay(c, log[c.pos]);
            Bounds(f, log, fan, d) && fan <= |log| && ChanOk(f, log, fan, d) && DropsOk(fan, d) && d.taken <= |d.out|
            && ReplayedOk(f, log, d)
  {
    hide OutOk;
  }

  lemma ReplayLineKeeps(f: Filter, log: seq<Envelope>, fan: nat, c: Conn)
    requires ConnOk(f, log, fan, c) && Numbered(log) && c.replaying && c.pos < |log|
    ensures ConnOk(f, log, fan, Replay(c, log[c.pos]))
  {
    hide Bounds, ChanOk, DropsOk, ReplayedOk, OutOk, Replay;
    ReplayLineKeepsRest(f, log, fan, c);
    ReplayLineKeepsOut(f, log, fan, c);
  }

  lemma DropKeepsOut(f: Filter, log: seq<Envelope>, fan: nat, c: Conn, c': Conn)
    requires Numbered(log) && Bounds(f, log, fan, c) && OutOk(f, log, c) && fan < |log|
    requires c' == c.(sub := c'.sub, dropped := c'.dropped)
    requires c'.dropped == c.dropped || c'.dropped == c.dropped + {log[fan].id}
    ensures OutOk(f, log, c')
  {
    SelSame(log, Lo(c), Hi(c), OutPick(f, c), OutPick(f, c'));
  }

  lemma FanOutKeepsChan(f: Filter, log: seq<Envelope>, fan: nat, c: Conn)
    requires ConnOk(f, log, fan, c) && Numbered(log) && fan < |log|
    ensures ChanOk(f, log, fan + 1, FanOutTo(c, log[fan]))
  {
    var e := log[fan];
    var c' := FanOutTo(c, e);
    LoggedSnoc(c.sub.ch, e);
    SelSame(log, c.drained, fan, ChanPick(f, c), ChanPick(f, c'));
    assert e.id !in c.dropped;
    assert Sel(log, c.drained, fan + 1, ChanPick(f, c')) ==
           Sel(log, c.drained, fan, ChanPick(f, c')) + (if Keep(e, fan, ChanPick(f, c')) then [e] else []);
  }

  lemma FanOutKeeps(f: Filter, log: seq<Envelope>, fan: nat, c: Conn)
    requires ConnOk(f, log, fan, c) && Numbered(log) && fan < |log|
    ensures ConnOk(f, log, fan + 1, FanOutTo(c, log[fan]))
  {
    FanOutKeepsChan(f, log, fan, c);
    DropKeepsOut(f, log, fan, c, FanOutTo(c, log[fan]));
  }

  /** The head of the channel, and where it stands in the log. */
  lemma ChanHead(f: Filter, log: seq<Envelope>, fan: nat, c: Conn)
    requires ConnOk(f, log, fan, c) && Numbered(log) && c.sub.ch != [] && c.sub.ch[0].id.Published?
    ensures var e, n := c.sub.ch[0], c.sub.ch[0].id.n;
            && c.drained <= n < fan && log[n] == e && Keep(e, n, ChanPick(f, c))
            && Sel(log, c.drained, n, ChanPick(f, c)) == []
            && Logged(c.sub.ch[1..]) == Sel(log, n + 1, fan, ChanPick(f, c))
  {
    var p := ChanPick(f, c);
    LoggedHead(c.sub.ch);
    var n := SelHead(log, c.drained, fan, p);
    assert ([log[n]] + Sel(log, n + 1, fan, p))[0] == log[n];
    assert ([c.sub.ch[0]] + Logged(c.sub.ch[1..]))[0] == c.sub.ch[0];
    assert ([log[n]] + Sel(log, n + 1, fan, p))[1..] == Sel(log, n + 1, fan, p);
    assert ([c.sub.ch[0]] + Logged(c.sub.ch[1..]))[1..] == Logged(c.sub.ch[1..]);
  }

  /** An envelope beyond the replayed part extends the output. */
  lemma DrainExtendsOut(f: Filter, log: seq<Envelope>, c: Conn, n: nat)
    requires Hi(c) <= n < |log| && Lo(c) <= Hi(c) && c.drained <= Hi(c)
    requires OutOk(f, log, c) && Sel(log, c.drained, n, ChanPick(f, c)) == [] && Keep(log[n], n, ChanPick(f, c))
    ensures Sel(log, Lo(c), n + 1, OutPick(f, c)) ==
            SinceOf(c.out, c.since) + if log[n].at >= c.since then [log[n]] else []
  {
    SelNone(log, c.drained, n, ChanPick(f, c));
    SelGap(log, Lo(c), Hi(c), n, OutPick(f, c));
  }

  lemma DrainKeepsOut(f: Filter, log: seq<Envelope>, fan: nat, c: Conn)
    requires ConnOk(f, log, fan, c) && Numbered(log) && !c.replaying && c.sub.ch != [] && c.sub.ch[0].id.Published?
    ensures OutOk(f, log, DrainOne(c))
  {
    hide ChanOk, DropsOk, Sel, SinceOf;
    var e := c.sub.ch[0];
    ChanHead(f, log, fan, c);
    SinceSnoc(c.out, e, c.since);
    if e.id.n >= c.pos {
      DrainExtendsOut(f, log, c, e.id.n);
    }
  }

  lemma DrainKeepsRest(f: Filter, log: seq<Envelope>, fan: nat, c: Conn)
    requires ConnOk(f, log, fan, c) && Numbered(log) && !c.replaying && c.sub.ch != [] && c.sub.ch[0].id.Published?
    ensures var d := DrainOne(c);
            Bounds(f, log, fan, d) && fan <= |log| && ChanOk(f, log, fan, d) && DropsOk(fan, d) && d.taken <= |d.out|
  {
    hide ReplayedOk, OutOk;
    ChanHead(f, log, fan, c);
  }

  lemma DrainKeepsReplayed(f: Filter, log: seq<Envelope>, c: Conn)
    requires ReplayedOk(f, log, c) && c.sub.ch != []
    ensures ReplayedOk(f, log, DrainOne(c))
  {
  }

  lemma DrainMarkerKeeps(f: Filter, log: seq<Envelope>, fan: nat, c: Conn)
    requires ConnOk(f, log, fan, c) && !c.replaying && c.sub.ch != [] && c.sub.ch[0].id.Marked?
    ensures ConnOk(f, log, fan, DrainOne(c))
  {
    LoggedHead(c.sub.ch);
    assert [] + Logged(c.sub.ch[1..]) == Logged(c.sub.ch[1..]);
    SinceSnoc(c.out, c.sub.ch[0], c.since);
  }

  lemma DrainKeeps(f: Filter, log: seq<Envelope>, fan: nat, c: Conn)
    requires ConnOk(f, log, fan, c) && Numbered(log) && !c.replaying && c.sub.ch != []
    ensures ConnOk(f, log, fan, DrainOne(c))
  {
    hide Bounds, ChanOk, DropsOk, ReplayedOk, OutOk, DrainOne;
    if c.sub.ch[0].id.Published? {
      DrainKeepsRest(f, log, fan, c);
      DrainKeepsReplayed(f, log, c);
      DrainKeepsOut(f, log, fan, c);
    } else {
      DrainMarkerKeeps(f, log, fan, c);
    }
  }

  lemma ReplayEndKeeps(f: Filter, log: seq<Envelope>, fan: nat, c: Conn)
    requires ConnOk(f, log, fan, c) && c.replaying && c.pos == |log|
    ensures ConnOk(f, log, fan, c.(replaying := false))
  {
  }

  lemma TakeKeeps(f: Filter, log: seq<Envelope>, fan: nat, c: Conn, reached: nat)
    requires ConnOk(f, log, fan, c) && c.taken < |c.out|
    ensures ConnOk(f, log, fan, c.(taken := c.taken + 1, reached := reached))
  {
  }

  /** The steps that touch only the daemon's side of a connection. */
  lemma DaemonStepKeeps(f: Filter, log: seq<Envelope>, fan: nat, c: Conn, step: Step)
    requires ConnOk(f, log, fan, c) && Numbered(log)
    ensures ConnOk(f, log, fan, DaemonStep(log, c, step))
  {
    hide ConnOk;
    match step
    case Nudging(m, at) => NudgeKeeps(f, log, fan, c, LagMarker(m, at));
    case ReplayLine => if c.replaying && c.pos < |log| { ReplayLineKeeps(f, log, fan, c); }
    case ReplayEnd => if c.replaying && c.pos == |log| { ReplayEndKeeps(f, log, fan, c); }
    case Drain => if !c.replaying && c.sub.ch != [] { DrainKeeps(f, log, fan, c); }
    case _ =>
  }

  lemma DoKeeps(f: Filter, s: System, step: Step)
    requires SystemOk(f, s)
    ensures SystemOk(f, Do(f, s, step))
  {
    match step
    case Append(kind, at, job) => DoAppendKeeps(f, s, kind, at, job);
    case Connect => OpenOk(f, s.log, Floor(s.client.lastSeen));
    case FanOut => DoFanOutKeeps(f, s);
    case Disconnect =>
    case Take => DoTakeKeeps(f, s);
    case _ => DoDaemonKeeps(f, s, step);
  }

  lemma DoAppendKeeps(f: Filter, s: System, kind: string, at: nat, job: string)
    requires SystemOk(f, s)
    ensures SystemOk(f, DoAppend(s, kind, at, job))
  {
    hide ConnOk;
    if s.conn.Some? && !s.inflight {
      AppendKeeps(f, s.log, |s.log|, s.conn.value, Envelope(Published(|s.log|), kind, at, job));
    }
  }

  lemma FanOutReads(s: System)
    requires s.inflight && s.log != [] && s.conn.Some?
    ensures var t := DoFanOut(s);
            t.log == s.log && !t.inflight && t.conn == Some(FanOutTo(s.conn.value, s.log[|s.log| - 1]))
                && t.client == s.client
  {
  }

  lemma DoFanOutKeeps(f: Filter, s: System)
    requires SystemOk(f, s)
    ensures SystemOk(f, DoFanOut(s))
  {
    hide ConnOk;
    if s.inflight && s.conn.Some? {
      FanOutKeeps(f, s.log, |s.log| - 1, s.conn.value);
      FanOutReads(s);
    }
  }

  lemma DoTakeKeeps(f: Filter, s: System)
    requires SystemOk(f, s)
    ensures SystemOk(f, DoTake(s))
  {
    hide ConnOk, Handle;
    if s.conn.Some? && s.conn.value.taken < |s.conn.value.out| {
      var c := s.conn.value;
      var e := c.out[c.taken];
      TakeKeeps(f, s.log, FannedOut(s), c, if e.id.Published? then e.id.n + 1 else c.reached);
    }
  }

  lemma DoDaemonKeeps(f: Filter, s: System, step: Step)
    requires SystemOk(f, s)
    ensures SystemOk(f, DoDaemon(s, step))
  {
    hide ConnOk, DaemonStep;
    if s.conn.Some? {
      DaemonStepKeeps(f, s.log, FannedOut(s), s.conn.value, step);
    }
  }

  lemma {:induction false} PlayKeeps(f: Filter, steps: seq<Step>, n: nat)
    requires n <= |steps|
    ensures SystemOk(f, Play(f, steps, n))
  {
    if n > 0 {
      PlayKeeps(f, steps, n - 1);
      DoKeeps(f, Play(f, steps, n - 1), steps[n - 1]);
    }
  }

  /**
    One connection, in every interleaving of publishers with the file read and the live
    drain: what was sent at or after `since` is exactly the matching part of the log up to
    where it reaches, once each and in publish order, less what the full buffer dropped
    beyond the replayed part; and every drop was counted.
  */
  lemma OneConnection(f: Filter, steps: seq<Step>)
    ensures var s := Play(f, steps, |steps|);
            s.conn.Some? ==>
              var c := s.conn.value;
              && Hi(c) <= |s.log|
              && SinceOf(c.out, c.since) == Sel(s.log, Lo(c), Hi(c), Pick(f, c.since, c.dropped, c.pos))
              && |c.dropped| == c.sub.lagDropped
  {
    PlayKeeps(f, steps, |steps|);
  }

  /** Once drained, with nothing dropped, that is the whole matching log. */
  lemma DrainedConnectionSentAll(f: Filter, steps: seq<Step>)
    ensures var s := Play(f, steps, |steps|);
            s.conn.Some? && !s.conn.value.replaying && s.conn.value.sub.ch == [] && !s.inflight
            && s.conn.value.sub.lagDropped == 0 ==>
              var c := s.conn.value;
              SinceOf(c.out, c.since) == Sel(s.log, Lo(c), |s.log|, Pick(f, c.since, {}, 0))
  {
    PlayKeeps(f, steps, |steps|);
    var s := Play(f, steps, |steps|);
    if s.conn.Some? && !s.conn.value.replaying && s.conn.value.sub.ch == [] && !s.inflight
        && s.conn.value.sub.lagDropped == 0 {
      DrainedSentAll(f, s.log, s.conn.value);
    }
  }

  lemma DrainedSentAll(f: Filter, log: seq<Envelope>, c: Conn)
    requires ConnOk(f, log, |log|, c) && !c.replaying && c.sub.ch == [] && c.dropped == {}
    ensures SinceOf(c.out, c.since) == Sel(log, Lo(c), |log|, Pick(f, c.since, {}, 0))
  {
    var p, q := OutPick(f, c), Pick(f, c.since, {}, 0);
    SelNone(log, c.drained, |log|, ChanPick(f, c));
    SelNone(log, Hi(c), |log|, q);
    SelSplit(log, Lo(c), Hi(c), |log|, q);
    SelSame(log, Lo(c), Hi(c), p, q);
  }
}
