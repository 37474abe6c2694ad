/**
  Building runs of the system of Delivery: what single steps do, and the run in which a
  client hears one event, is away while the rest is published, and comes back.
*/
module Runs {
  import opened Common
  import opened Events
  import opened Selection
  import opened Delivery
  import opened Reconnect

  ghost predicate Reachable(f: Filter, s: System) {
    exists steps :: Play(f, steps, |steps|) == s
  }

  lemma {:induction false} PlayPrefix(f: Filter, steps: seq<Step>, more: seq<Step>, n: nat)
    requires n <= |steps|
    ensures Play(f, steps + more, n) == Play(f, steps, n)
  {
    if n > 0 {
      PlayPrefix(f, steps, more, n - 1);
    }
  }

  lemma ReachStart(f: Filter)
    ensures Reachable(f, START)
  {
    var none: seq<Step> := [];
    assert Play(f, none, |none|) == START;
  }

  lemma ReachStep(f: Filter, s: System, step: Step, t: System)
    requires Reachable(f, s) && t == Do(f, s, step)
    ensures Reachable(f, t)
  {
    var steps :| Play(f, steps, |steps|) == s;
    PlayPrefix(f, steps, [step], |steps|);
    var longer := steps + [step];
    assert Play(f, longer, |longer|) == Do(f, s, step);
  }

  // ---- what single steps do ----

  function Publishing(e: Envelope): Step { Append(e.kind, e.at, e.job) }

  lemma PublishReads(f: Filter, s: System, e: Envelope)
    requires !s.inflight && e.at >= SECOND && e.id == Published(|s.log|)
    ensures Do(f, s, Publishing(e)) == s.(log := s.log + [e], inflight := true)
  {
  }

  lemma UnheardReads(f: Filter, s: System)
    requires s.inflight && s.conn == None && s.log != []
    ensures Do(f, s, FanOut) == s.(inflight := false)
  {
  }

  lemma HeardReads(f: Filter, s: System, c: Conn, e: Envelope)
    requires s.inflight && s.conn == Some(c) && s.log != [] && s.log[|s.log| - 1] == e
    ensures Do(f, s, FanOut) ==
            s.(inflight := false, conn := Some(FanOutTo(c, e)),
               drops := s.drops + FanOutTo(c, e).sub.lagDropped - c.sub.lagDropped)
  {
  }

  lemma DaemonReads(f: Filter, s: System, c: Conn, step: Step)
    requires s.conn == Some(c) && (step.Drain? || step.ReplayLine? || step.ReplayEnd?)
    ensures Do(f, s, step) == s.(conn := Some(DaemonStep(s.log, c, step)))
  {
  }

  /** A live connection that holds back nothing it has sent. */
  predicate Idle(f: Filter, c: Conn) { !c.replaying && c.taken == |c.out| && c.replayed == {} && c.sub.filter == f }

  lemma DrainReads(f: Filter, log: seq<Envelope>, c: Conn, e: Envelope)
    requires Idle(f, c) && c.sub.ch != [] && c.sub.ch[0] == e
    ensures var d := DaemonStep(log, c, Drain);
            && !d.replaying && d.replayed == {} && d.sub == c.sub.(ch := c.sub.ch[1..])
            && d.out == c.out + [e] && d.taken == c.taken && d.since == c.since && d.dropped == c.dropped
  {
  }

  lemma TakenReads(f: Filter, s: System, c: Conn, e: Envelope)
    requires s.conn == Some(c) && c.taken < |c.out| && c.out[c.taken] == e
    ensures var t := Do(f, s, Take);
            && t.conn.Some? && t == s.(conn := t.conn, client := Handle(s.client, e))
            && t.conn.value == c.(taken := c.taken + 1, reached := t.conn.value.reached)
  {
  }

  lemma OfferReads(f: Filter, c: Conn, e: Envelope)
    requires c.sub.filter == f && Match(f, e) && |c.sub.ch| < CAPACITY
    ensures FanOutTo(c, e) == c.(sub := c.sub.(ch := c.sub.ch + [e]))
  {
  }

  // ---- publishing and delivering ----

  /** An event published while no client is connected. */
  lemma PublishUnheard(f: Filter, s: System, e: Envelope)
    requires Reachable(f, s) && !s.inflight && s.conn == None && e.at >= SECOND && e.id == Published(|s.log|)
    ensures Reachable(f, s.(log := s.log + [e]))
  {
    var t := s.(log := s.log + [e], inflight := true);
    PublishReads(f, s, e);
    ReachStep(f, s, Publishing(e), t);
    UnheardReads(f, t);
    ReachStep(f, t, FanOut, t.(inflight := false));
  }

  /** All of a log from index n on, likewise. */
  lemma {:induction false} PublishRest(f: Filter, s: System, log: seq<Envelope>)
    requires Reachable(f, s) && !s.inflight && s.conn == None && s.log <= log && Numbered(log) && Dated(log)
    ensures Reachable(f, s.(log := log))
    decreases |log| - |s.log|
  {
    hide Reachable;
    if |s.log| < |log| {
      PublishUnheard(f, s, log[|s.log|]);
      PublishRest(f, s.(log := s.log + [log[|s.log|]]), log);
    } else {
      assert s.log == log;
    }
  }

  /** An event published to an open connection. */
  lemma PublishTo(f: Filter, s: System, c: Conn, e: Envelope)
    requires Reachable(f, s) && !s.inflight && s.conn == Some(c) && e.at >= SECOND && e.id == Published(|s.log|)
    ensures Reachable(f, s.(log := s.log + [e], conn := Some(FanOutTo(c, e)),
                            drops := s.drops + FanOutTo(c, e).sub.lagDropped - c.sub.lagDropped))
  {
    hide FanOutTo;
    var t := s.(log := s.log + [e], inflight := true);
    PublishReads(f, s, e);
    ReachStep(f, s, Publishing(e), t);
    HeardReads(f, t, c, e);
    ReachStep(f, t, FanOut, Do(f, t, FanOut));
  }

  lemma DaemonDoes(f: Filter, s: System, c: Conn, step: Step)
    requires Reachable(f, s) && s.conn == Some(c)
    requires step.Drain? || step.ReplayLine? || step.ReplayEnd?
    ensures Reachable(f, s.(conn := Some(DaemonStep(s.log, c, step))))
  {
    DaemonReads(f, s, c, step);
    ReachStep(f, s, step, s.(conn := Some(DaemonStep(s.log, c, step))));
  }

  lemma Takes(f: Filter, s: System, c: Conn, e: Envelope) returns (d: Conn)
    requires Reachable(f, s) && s.conn == Some(c) && c.taken < |c.out| && c.out[c.taken] == e
    ensures d == c.(taken := c.taken + 1, reached := d.reached)
    ensures Reachable(f, s.(conn := Some(d), client := Handle(s.client, e)))
  {
    var t := Do(f, s, Take);
    TakenReads(f, s, c, e);
    d := t.conn.value;
    ReachStep(f, s, Take, t);
  }

  /** The head of the channel, drained and taken. */
  lemma Delivers(f: Filter, s: System, c: Conn) returns (d: Conn)
    requires Reachable(f, s) && s.conn == Some(c) && Idle(f, c) && c.sub.ch != []
    ensures Idle(f, d) && d.sub == c.sub.(ch := c.sub.ch[1..])
    ensures Reachable(f, s.(conn := Some(d), client := Handle(s.client, c.sub.ch[0])))
  {
    hide Reachable, DaemonStep, Handle;
    var m := DaemonStep(s.log, c, Drain);
    DaemonDoes(f, s, c, Drain);
    DrainReads(f, s.log, c, c.sub.ch[0]);
    d := Takes(f, s.(conn := Some(m)), m, c.sub.ch[0]);
  }

  // ---- heard once, away, and back ----

  /** An event delivered and taken on a connection just opened live-only, which then breaks. */
  lemma HeardOnce(f: Filter, s: System, e: Envelope)
    requires Reachable(f, s) && !s.inflight && s.conn == None && s.client == START.client
    requires e.at >= SECOND && e.id == Published(|s.log|) && Match(f, e)
    ensures Reachable(f, s.(log := s.log + [e], client := Handle(START.client, e)))
  {
    hide Reachable, FanOutTo, Handle;
    var c := Open(f, 0, |s.log|);
    var s1 := s.(conn := Some(c));
    ReachStep(f, s, Connect, s1);
    PublishTo(f, s1, c, e);
    OfferReads(f, c, e);
    var s2 := s.(log := s.log + [e], conn := Some(FanOutTo(c, e)));
    var d := Delivers(f, s2, FanOutTo(c, e));
    var s3 := s2.(conn := Some(d), client := Handle(s.client, e));
    ReachStep(f, s3, Disconnect, s3.(conn := None));
  }

  /** What a client becomes that takes a replay from index pos on. */
  function Replayed(f: Filter, log: seq<Envelope>, since: nat, pos: nat, cl: Client): Client
    requires pos <= |log|
    decreases |log| - pos
  {
    if pos == |log| then cl else
      Replayed(f, log, since, pos + 1,
               if Match(f, log[pos]) && log[pos].at >= since then Handle(cl, log[pos]) else cl)
  }

  lemma {:induction false} ReplayedReads(f: Filter, log: seq<Envelope>, since: nat, pos: nat, cl: Client)
    requires Numbered(log) && pos <= |log|
    ensures cl.handled <= Replayed(f, log, since, pos, cl).handled
    ensures forall n: nat :: Published(n) in Replayed(f, log, since, pos, cl).seen <==>
              Published(n) in cl.seen || (pos <= n < |log| && Match(f, log[n]) && log[n].at >= since)
    decreases |log| - pos
  {
    hide Match;
    if pos < |log| {
      ReplayedReads(f, log, since, pos + 1,
                    if Match(f, log[pos]) && log[pos].at >= since then Handle(cl, log[pos]) else cl);
    }
  }

  /** A replaying connection of which everything has been taken. */
  predicate Replaying(f: Filter, c: Conn) { c.replaying && c.sub == NewSub(f) && c.taken == |c.out| }

  lemma ReplayReads(f: Filter, log: seq<Envelope>, c: Conn)
    requires Replaying(f, c) && c.pos < |log|
    ensures var d, e := DaemonStep(log, c, ReplayLine), log[c.pos];
            && d.replaying && d.sub == c.sub && d.pos == c.pos + 1 && d.since == c.since && d.taken == c.taken
            && d.out == if Match(f, e) && e.at >= c.since then c.out + [e] else c.out
  {
  }

  lemma ReplaysLine(f: Filter, s: System, c: Conn) returns (d: Conn)
    requires Reachable(f, s) && s.conn == Some(c) && Replaying(f, c) && c.pos < |s.log|
    ensures Replaying(f, d) && d.pos == c.pos + 1 && d.since == c.since
    ensures var e := s.log[c.pos];
            Reachable(f, s.(conn := Some(d),
                            client := if Match(f, e) && e.at >= c.since then Handle(s.client, e) else s.client))
  {
    hide Reachable, Match, Handle, DaemonStep;
    var e := s.log[c.pos];
    DaemonDoes(f, s, c, ReplayLine);
    ReplayReads(f, s.log, c);
    d := DaemonStep(s.log, c, ReplayLine);
    if Match(f, e) && e.at >= c.since {
      d := Takes(f, s.(conn := Some(d)), d, e);
    }
  }

  /** A replay played to its end, with everything taken. */
  lemma {:induction false} ReplaysOn(f: Filter, s: System, c: Conn) returns (d: Conn)
    requires Reachable(f, s) && s.conn == Some(c) && Replaying(f, c) && c.pos <= |s.log|
    ensures !d.replaying && d.sub.ch == [] && d.taken == |d.out|
    ensures Reachable(f, s.(conn := Some(d), client := Replayed(f, s.log, c.since, c.pos, s.client)))
    decreases |s.log| - c.pos
  {
    hide Reachable, Match, Handle;
    if c.pos < |s.log| {
      var e := s.log[c.pos];
      var m := ReplaysLine(f, s, c);
      var cl := if Match(f, e) && e.at >= c.since then Handle(s.client, e) else s.client;
      d := ReplaysOn(f, s.(conn := Some(m), client := cl), m);
    } else {
      DaemonDoes(f, s, c, ReplayEnd);
      d := c.(replaying := false);
    }
  }

  /**
    The client hears event x as its first, is away until the whole log has been published,
    and comes back: it has then handled x and what is not stamped before the second of x.
  */
  lemma HeardThenReplayed(f: Filter, log: seq<Envelope>, x: nat) returns (t: System)
    requires Numbered(log) && Dated(log) && x < |log| && Match(f, log[x])
    ensures Reachable(f, t) && t.log == log && t.drops == 0 && CaughtUp(t)
    ensures t.client.handled != [] && First(t.client.handled) == x
    ensures forall n: nat :: Published(n) in t.client.seen <==>
              n == x || (n < |log| && Match(f, log[n]) && log[n].at >= Floor(log[x].at))
  {
    hide Reachable, Match;
    ReachStart(f);
    PublishRest(f, START, log[..x]);
    HeardOnce(f, START.(log := log[..x]), log[x]);
    var cl := Handle(START.client, log[x]);
    assert log[..x] + [log[x]] == log[..x + 1];
    PublishRest(f, System(log[..x + 1], false, None, cl, 0), log);
    FloorKeepsSeconds(log[x].at);
    var c, s := Open(f, Floor(log[x].at), |log|), System(log, false, None, cl, 0);
    ReachStep(f, s, Connect, s.(conn := Some(c)));
    var d := ReplaysOn(f, s.(conn := Some(c)), c);
    ReplayedReads(f, log, c.since, 0, cl);
    t := s.(conn := Some(d), client := Replayed(f, log, c.since, 0, cl));
  }
}
