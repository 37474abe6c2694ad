/**
  Delivery when buffers do overflow: across reconnects, lag loses only what a full buffer
  dropped. Lag markers then reach the client too and move its `lastSeen`, so their times
  matter as well as those of the matching events.
*/
module Lag {
  import opened Common
  import opened Events
  import opened Selection
  import opened Delivery
  import opened Reconnect

  // ---- history of a run ----

  /** A step that stamps something this client may be sent: a matching event, or a lag marker. */
  predicate Stamps(f: Filter, step: Step) {
    step.Nudging? || (step.Append? && Match(f, Envelope(Published(0), step.kind, step.at, step.job)))
  }

  function LatestWith(f: Filter, latest: nat, step: Step): nat {
    if Stamps(f, step) && step.at > latest then step.at else latest
  }

  /** The latest time on any matching event or lag marker so far. */
  function Latest(f: Filter, steps: seq<Step>, n: nat): nat
    requires n <= |steps|
  {
    if n == 0 then 0 else LatestWith(f, Latest(f, steps, n - 1), steps[n - 1])
  }

  /** No matching event is stamped before the second in which an earlier one or a lag marker falls. */
  ghost predicate Timely(f: Filter, steps: seq<Step>) {
    && (forall i :: 0 <= i < |steps| && steps[i].Append? && Stamps(f, steps[i]) ==>
          steps[i].at >= Floor(Latest(f, steps, i)))
    && (forall i :: 0 <= i < |steps| && steps[i].Nudging? ==> steps[i].at >= SECOND)
  }

  /** What a step loses to a full buffer. */
  function LostBy(s: System, step: Step): set<Id> {
    if step.FanOut? && s.inflight && s.log != [] && s.conn.Some? then
      FanOutTo(s.conn.value, s.log[|s.log| - 1]).dropped - s.conn.value.dropped
    else {}
  }

  /** Every event a full buffer has dropped, on whichever connection. */
  function Lost(f: Filter, steps: seq<Step>, n: nat): set<Id>
    requires n <= |steps|
  {
    if n == 0 then {} else Lost(f, steps, n - 1) + LostBy(Play(f, steps, n - 1), steps[n - 1])
  }

  // ---- the invariant ----

  /** Index of the first event handled, lag markers aside. */
  function FirstLogged(h: seq<Envelope>): Option<nat> {
    if h == [] then None else
      var before, last := FirstLogged(h[..|h| - 1]), h[|h| - 1];
      if before.Some? then before else if last.id.Published? then Some(last.id.n) else None
  }

  lemma FirstLoggedSnoc(h: seq<Envelope>, e: Envelope)
    ensures FirstLogged(h + [e]) ==
            if FirstLogged(h).Some? then FirstLogged(h) else if e.id.Published? then Some(e.id.n) else None
  {
    assert (h + [e])[..|h|] == h;
  }

  ghost predicate LogFits(f: Filter, log: seq<Envelope>, latest: nat) {
    && Numbered(log) && InOrder(f, log) && Dated(log)
    && forall i :: 0 <= i < |log| && Match(f, log[i]) ==> log[i].at <= latest
  }

  ghost predicate ClientFits(f: Filter, log: seq<Envelope>, cl: Client, latest: nat) {
    && ClientOk(cl) && Next(cl.handled) <= |log|
    && (forall i :: 0 <= i < |cl.handled| && cl.handled[i].id.Published? ==> IsLogEntry(f, log, cl.handled[i]))
    && cl.lastSeen <= latest
    && (if cl.handled == [] then cl.lastSeen == 0 else cl.lastSeen >= SECOND)
  }

  /** A matching event from index x on that is neither handled nor lost. */
  ghost predicate Pending(f: Filter, log: seq<Envelope>, cl: Client, lost: set<Id>, x: nat, j: nat) {
    x <= j < |log| && Match(f, log[j]) && Published(j) !in cl.seen && Published(j) !in lost
  }

  /** What is pending lies beyond what was handled, and a replay would still reach it. */
  ghost predicate Reaches(f: Filter, log: seq<Envelope>, cl: Client, lost: set<Id>) {
    FirstLogged(cl.handled).Some? ==>
      forall j: nat :: Pending(f, log, cl, lost, FirstLogged(cl.handled).value, j) ==>
        Next(cl.handled) <= j && log[j].at >= Floor(cl.lastSeen)
  }

  ghost predicate OutFits(f: Filter, log: seq<Envelope>, c: Conn) {
    && (forall p :: 0 <= p < |c.out| && c.out[p].id.Published? ==>
          IsLogEntry(f, log, c.out[p]) && c.out[p].at >= c.since && Lo(c) <= c.out[p].id.n < Hi(c))
    && (forall p, q :: 0 <= p < q < |c.out| && c.out[p].id.Published? && c.out[q].id.Published? ==>
          c.out[p].id.n < c.out[q].id.n)
    && (forall j :: c.start <= j < |log| && Match(f, log[j]) ==> log[j].at >= c.since)
  }

  /** What is published after a lag marker is not before its second. */
  ghost predicate Timed(f: Filter, log: seq<Envelope>, fan: nat, latest: nat, e: Envelope) {
    e.id.Marked? ==>
      SECOND <= e.at <= latest && forall j :: fan <= j < |log| && Match(f, log[j]) ==> log[j].at >= Floor(e.at)
  }

  ghost predicate Precedes(e: Envelope, later: Envelope) {
    e.id.Marked? && later.id.Published? ==> later.at >= Floor(e.at)
  }

  ghost predicate MarksFit(f: Filter, log: seq<Envelope>, fan: nat, c: Conn, latest: nat) {
    && (forall p :: 0 <= p < |c.out| ==> Timed(f, log, fan, latest, c.out[p]))
    && (forall p :: 0 <= p < |c.sub.ch| ==> Timed(f, log, fan, latest, c.sub.ch[p]))
    && (forall p, q :: 0 <= p < q < |c.out| ==> Precedes(c.out[p], c.out[q]))
    && (forall p, q :: 0 <= p < q < |c.sub.ch| ==> Precedes(c.sub.ch[p], c.sub.ch[q]))
    && (forall p, q :: 0 <= p < |c.out| && 0 <= q < |c.sub.ch| ==> Precedes(c.out[p], c.sub.ch[q]))
    && (c.replaying ==> forall p :: 0 <= p < |c.out| ==> c.out[p].id.Published?)
  }

  ghost predicate TakenFits(cl: Client, c: Conn) {
    && c.taken <= |c.out|
    && (forall p :: 0 <= p < c.taken ==> c.out[p].id in cl.seen)
    && c.since == Floor(c.since) <= Floor(cl.lastSeen)
    && (c.since == 0 && FirstLogged(cl.handled).Some? ==> FirstLogged(cl.handled).value >= c.start)
  }

  /** Beyond what has been sent: matching, to be sent, and not lost on this connection. */
  ghost predicate ToCome(f: Filter, log: seq<Envelope>, c: Conn, j: nat) {
    Hi(c) <= j < |log| && Match(f, log[j]) && log[j].at >= c.since && (c.replaying || log[j].id !in c.dropped)
  }

  /** Nothing still to be taken is older than the second of `lastSeen`. */
  ghost predicate AheadFits(f: Filter, log: seq<Envelope>, cl: Client, c: Conn) {
    && (forall p :: c.taken <= p < |c.out| && c.out[p].id.Published? ==> c.out[p].at >= Floor(cl.lastSeen))
    && (forall j: nat :: ToCome(f, log, c, j) ==> log[j].at >= Floor(cl.lastSeen))
  }

  ghost predicate ConnFits(f: Filter, log: seq<Envelope>, fan: nat, cl: Client, c: Conn, lost: set<Id>, latest: nat) {
    && ConnOk(f, log, fan, c) && c.dropped <= lost
    && OutFits(f, log, c) && MarksFit(f, log, fan, c, latest) && TakenFits(cl, c) && AheadFits(f, log, cl, c)
  }

  ghost predicate Fits(f: Filter, s: System, lost: set<Id>, latest: nat) {
    && (s.inflight ==> s.log != [])
    && LogFits(f, s.log, latest) && ClientFits(f, s.log, s.client, latest) && Reaches(f, s.log, s.client, lost)
    && (s.conn.Some? ==> ConnFits(f, s.log, FannedOut(s), s.client, s.conn.value, lost, latest))
  }

  // ---- publishing ----

  lemma FloorBelow(a: nat, b: nat)
    requires a <= b
    ensures Floor(a) <= Floor(b) <= b
    ensures a >= SECOND ==> Floor(a) >= SECOND
  {
  }

  /** A new event is not before the second of what went before, if it matches. */
  ghost predicate Fresh(f: Filter, e: Envelope, latest: nat, later: nat) {
    Match(f, e) ==> Floor(latest) <= e.at <= later
  }

  lemma AppendLog(f: Filter, log: seq<Envelope>, latest: nat, e: Envelope, later: nat)
    requires LogFits(f, log, latest) && e.id == Published(|log|) && e.at >= SECOND && latest <= later
          && Fresh(f, e, latest, later)
    ensures LogFits(f, log + [e], later)
  {
    hide Match;
    forall i | 0 <= i < |log| && Match(f, log[i]) ensures Floor(log[i].at) <= Floor(latest) {
      FloorMonotone(log[i].at, latest);
    }
    hide Floor;
  }

  lemma AppendClient(f: Filter, log: seq<Envelope>, cl: Client, lost: set<Id>, latest: nat, e: Envelope, later: nat)
    requires LogFits(f, log, latest) && ClientFits(f, log, cl, latest) && Reaches(f, log, cl, lost)
    requires e.id == Published(|log|) && e.at >= SECOND && latest <= later && Fresh(f, e, latest, later)
    ensures LogFits(f, log + [e], later) && ClientFits(f, log + [e], cl, later) && Reaches(f, log + [e], cl, lost)
  {
    hide ClientOk, Floor;
    FloorMonotone(cl.lastSeen, latest);
    AppendLog(f, log, latest, e, later);
    forall i | 0 <= i < |cl.handled| && cl.handled[i].id.Published? ensures IsLogEntry(f, log + [e], cl.handled[i]) {
      assert IsLogEntry(f, log, cl.handled[i]);
    }
    if FirstLogged(cl.handled).Some? {
      var x := FirstLogged(cl.handled).value;
      forall j: nat | Pending(f, log + [e], cl, lost, x, j)
        ensures Next(cl.handled) <= j && (log + [e])[j].at >= Floor(cl.lastSeen)
      {
        assert j < |log| ==> Pending(f, log, cl, lost, x, j);
      }
    }
  }

  lemma AppendOut(f: Filter, log: seq<Envelope>, fan: nat, c: Conn, latest: nat, e: Envelope, later: nat)
    requires OutFits(f, log, c) && MarksFit(f, log, fan, c, latest) && fan == |log| && latest <= later
    requires Match(f, e) ==> Floor(latest) <= e.at && c.since <= e.at
    ensures OutFits(f, log + [e], c) && MarksFit(f, log + [e], fan, c, later)
  {
    hide Floor, Match;
    forall p | 0 <= p < |c.out| && c.out[p].id.Published? ensures IsLogEntry(f, log + [e], c.out[p]) {
      assert IsLogEntry(f, log, c.out[p]);
    }
    forall p | 0 <= p < |c.out| ensures Timed(f, log + [e], fan, later, c.out[p]) {
      TimedAppend(f, log, fan, latest, c.out[p], e, later);
    }
    forall p | 0 <= p < |c.sub.ch| ensures Timed(f, log + [e], fan, later, c.sub.ch[p]) {
      TimedAppend(f, log, fan, latest, c.sub.ch[p], e, later);
    }
    hide Timed, Precedes;
  }

  lemma TimedAppend(f: Filter, log: seq<Envelope>, fan: nat, latest: nat, marker: Envelope, e: Envelope, later: nat)
    requires Timed(f, log, fan, latest, marker) && latest <= later && (Match(f, e) ==> Floor(latest) <= e.at)
    ensures Timed(f, log + [e], fan, later, marker)
  {
    hide Match;
    if marker.id.Marked? {
      FloorMonotone(marker.at, latest);
    }
    hide Floor;
  }

  lemma AppendAhead(f: Filter, log: seq<Envelope>, cl: Client, c: Conn, e: Envelope)
    requires AheadFits(f, log, cl, c) && (Match(f, e) ==> e.at >= Floor(cl.lastSeen))
    ensures AheadFits(f, log + [e], cl, c)
  {
    hide Floor, Match;
    forall j: nat | ToCome(f, log + [e], c, j) ensures (log + [e])[j].at >= Floor(cl.lastSeen) {
      assert j < |log| ==> ToCome(f, log, c, j);
    }
  }

  lemma AppendFits(f: Filter, s: System, lost: set<Id>, latest: nat, kind: string, at: nat, job: string,
                   later: nat)
    requires Fits(f, s, lost, latest) && latest <= later
    requires Fresh(f, Envelope(Published(|s.log|), kind, at, job), latest, later)
    ensures Fits(f, DoAppend(s, kind, at, job), lost, later)
  {
    hide LogFits, ClientFits, ConnFits, Reaches, Fresh;
    if s.inflight || at < SECOND {
      Later(f, s, lost, latest, later);
    } else {
      var e := Envelope(Published(|s.log|), kind, at, job);
      AppendClient(f, s.log, s.client, lost, latest, e, later);
      if s.conn.Some? {
        AppendConn(f, s.log, s.client, s.conn.value, lost, latest, e, later);
      }
    }
  }

  lemma AppendConn(f: Filter, log: seq<Envelope>, cl: Client, c: Conn, lost: set<Id>, latest: nat, e: Envelope,
      later: nat)
    requires ConnFits(f, log, |log|, cl, c, lost, latest) && ClientFits(f, log, cl, latest)
    requires latest <= later && Fresh(f, e, latest, later)
    ensures ConnFits(f, log + [e], |log|, cl, c, lost, later)
  {
    FloorMonotone(cl.lastSeen, latest);
    AppendKeeps(f, log, |log|, c, e);
    AppendOut(f, log, |log|, c, latest, e, later);
    AppendAhead(f, log, cl, c, e);
    hide ConnOk, OutFits, MarksFit, AheadFits, Floor;
  }

  /** Nothing depends on how late the latest time is. */
  lemma Later(f: Filter, s: System, lost: set<Id>, latest: nat, more: nat)
    requires Fits(f, s, lost, latest) && latest <= more
    ensures Fits(f, s, lost, more)
  {
    if s.conn.Some? {
      var c := s.conn.value;
      forall p | 0 <= p < |c.out| ensures Timed(f, s.log, FannedOut(s), more, c.out[p]) {
        assert Timed(f, s.log, FannedOut(s), latest, c.out[p]);
      }
      forall p | 0 <= p < |c.sub.ch| ensures Timed(f, s.log, FannedOut(s), more, c.sub.ch[p]) {
        assert Timed(f, s.log, FannedOut(s), latest, c.sub.ch[p]);
      }
    }
  }

  // ---- fanning out and marking ----

  lemma FanOutMarks(f: Filter, log: seq<Envelope>, fan: nat, c: Conn, latest: nat)
    requires MarksFit(f, log, fan, c, latest) && fan < |log| && log[fan].id.Published? && c.sub.filter == f
    ensures MarksFit(f, log, fan + 1, FanOutTo(c, log[fan]), latest)
  {
    var e := log[fan];
    forall p | 0 <= p < |c.out| ensures Timed(f, log, fan + 1, latest, c.out[p]) {
      assert Timed(f, log, fan, latest, c.out[p]);
    }
    forall p | 0 <= p < |c.sub.ch| ensures Timed(f, log, fan + 1, latest, c.sub.ch[p]) {
      assert Timed(f, log, fan, latest, c.sub.ch[p]);
    }
    if Match(f, e) {
      forall p | 0 <= p < |c.out| ensures Precedes(c.out[p], e) {
        assert Timed(f, log, fan, latest, c.out[p]);
      }
      forall p | 0 <= p < |c.sub.ch| ensures Precedes(c.sub.ch[p], e) {
        assert Timed(f, log, fan, latest, c.sub.ch[p]);
      }
      MarksGrow(f, log, fan + 1, c, latest, e);
    }
    hide Timed, Precedes, Match;
  }

  /** One more envelope in the channel. */
  lemma MarksGrow(f: Filter, log: seq<Envelope>, fan: nat, c: Conn, latest: nat, e: Envelope)
    requires forall p :: 0 <= p < |c.out| ==> Timed(f, log, fan, latest, c.out[p]) && Precedes(c.out[p], e)
    requires forall p :: 0 <= p < |c.sub.ch| ==> Timed(f, log, fan, latest, c.sub.ch[p]) && Precedes(c.sub.ch[p], e)
    requires forall p, q :: 0 <= p < q < |c.out| ==> Precedes(c.out[p], c.out[q])
    requires forall p, q :: 0 <= p < q < |c.sub.ch| ==> Precedes(c.sub.ch[p], c.sub.ch[q])
    requires forall p, q :: 0 <= p < |c.out| && 0 <= q < |c.sub.ch| ==> Precedes(c.out[p], c.sub.ch[q])
    requires c.replaying ==> forall p :: 0 <= p < |c.out| ==> c.out[p].id.Published?
    requires Timed(f, log, fan, latest, e)
    ensures forall sub: Sub, dropped: set<Id> :: sub.ch == c.sub.ch || sub.ch == c.sub.ch + [e] ==>
              MarksFit(f, log, fan, c.(sub := sub, dropped := dropped), latest)
  {
    hide Timed, Precedes;
  }

  lemma FanOutAhead(f: Filter, log: seq<Envelope>, cl: Client, c: Conn, d: Conn)
    requires OutFits(f, log, c) && TakenFits(cl, c) && AheadFits(f, log, cl, c)
    requires d == c.(sub := d.sub, dropped := d.dropped) && c.dropped <= d.dropped
    ensures OutFits(f, log, d) && TakenFits(cl, d) && AheadFits(f, log, cl, d)
  {
    hide IsLogEntry;
    forall j: nat | ToCome(f, log, d, j) ensures log[j].at >= Floor(cl.lastSeen) {
      assert ToCome(f, log, c, j);
    }
  }

  lemma FanOutConn(f: Filter, log: seq<Envelope>, fan: nat, cl: Client, c: Conn, lost: set<Id>, latest: nat)
    requires ConnFits(f, log, fan, cl, c, lost, latest) && Numbered(log) && fan + 1 == |log|
    ensures var d := FanOutTo(c, log[fan]);
            ConnFits(f, log, fan + 1, cl, d, lost + (d.dropped - c.dropped), latest)
  {
    assert c.sub.filter == f;
    hide ConnOk, OutFits, MarksFit, TakenFits, AheadFits;
    FanOutKeeps(f, log, fan, c);
    FanOutMarks(f, log, fan, c, latest);
    FanOutAhead(f, log, cl, c, FanOutTo(c, log[fan]));
  }

  lemma LosesMore(f: Filter, log: seq<Envelope>, cl: Client, lost: set<Id>, more: set<Id>)
    requires Reaches(f, log, cl, lost)
    ensures Reaches(f, log, cl, lost + more)
  {
    if FirstLogged(cl.handled).Some? {
      var x := FirstLogged(cl.handled).value;
      forall j: nat | Pending(f, log, cl, lost + more, x, j) ensures Pending(f, log, cl, lost, x, j) {
      }
    }
  }

  lemma FanOutFits(f: Filter, s: System, lost: set<Id>, latest: nat)
    requires Fits(f, s, lost, latest)
    ensures Fits(f, DoFanOut(s), lost + LostBy(s, FanOut), latest)
  {
    hide LogFits, ClientFits, ConnFits, Reaches;
    assert lost + {} == lost;
    if s.inflight {
      LosesMore(f, s.log, s.client, lost, LostBy(s, FanOut));
      if s.conn.Some? {
        FanOutReads(s);
        LogIsNumbered(f, s.log, latest);
        FanOutConn(f, s.log, |s.log| - 1, s.client, s.conn.value, lost, latest);
      }
    }
  }

  lemma LogIsNumbered(f: Filter, log: seq<Envelope>, latest: nat)
    requires LogFits(f, log, latest)
    ensures Numbered(log)
  {
  }

  lemma NudgeConn(f: Filter, log: seq<Envelope>, cl: Client, c: Conn, lost: set<Id>, latest: nat, m: nat, at: nat)
    requires ConnFits(f, log, |log|, cl, c, lost, latest) && SECOND <= at <= latest
    ensures ConnFits(f, log, |log|, cl, c.(sub := Nudge(c.sub, LagMarker(m, at))), lost, latest)
  {
    var marker := LagMarker(m, at);
    NudgeKeeps(f, log, |log|, c, marker);
    MarksGrow(f, log, |log|, c, latest, marker);
    hide ConnOk, OutFits, MarksFit, TakenFits, AheadFits;
    FanOutAhead(f, log, cl, c, c.(sub := Nudge(c.sub, marker)));
  }

  // ---- connecting and replaying ----

  lemma ConnectConn(f: Filter, log: seq<Envelope>, cl: Client, lost: set<Id>, latest: nat)
    requires ClientFits(f, log, cl, latest)
    ensures ConnFits(f, log, |log|, cl, Open(f, Floor(cl.lastSeen), |log|), lost, latest)
  {
    OpenOk(f, log, Floor(cl.lastSeen));
    FloorBelow(cl.lastSeen, cl.lastSeen);
  }

  lemma ReplayOut(f: Filter, log: seq<Envelope>, cl: Client, c: Conn)
    requires OutFits(f, log, c) && AheadFits(f, log, cl, c) && Numbered(log) && c.replaying && c.pos < |log|
    requires c.sub.filter == f && c.since > 0
    ensures OutFits(f, log, Replay(c, log[c.pos])) && AheadFits(f, log, cl, Replay(c, log[c.pos]))
  {
    var d := Replay(c, log[c.pos]);
    assert ToCome(f, log, c, c.pos) <==> Match(f, log[c.pos]) && log[c.pos].at >= c.since;
    forall j: nat | ToCome(f, log, d, j) ensures log[j].at >= Floor(cl.lastSeen) {
      assert ToCome(f, log, c, j);
    }
    hide ToCome, Match;
  }

  lemma ReplayMarks(f: Filter, log: seq<Envelope>, fan: nat, c: Conn, latest: nat, e: Envelope)
    requires MarksFit(f, log, fan, c, latest) && c.replaying && e.id.Published?
    ensures MarksFit(f, log, fan, Replay(c, e), latest)
  {
    assert Timed(f, log, fan, latest, e);
    forall p | 0 <= p < |c.out| ensures Precedes(c.out[p], e) {
    }
    forall q | 0 <= q < |c.sub.ch| ensures Precedes(e, c.sub.ch[q]) {
    }
    hide Timed, Precedes, Match;
  }

  lemma ReplayConn(f: Filter, log: seq<Envelope>, fan: nat, cl: Client, c: Conn, lost: set<Id>, latest: nat)
    requires ConnFits(f, log, fan, cl, c, lost, latest) && Numbered(log) && c.replaying && c.pos < |log|
    ensures ConnFits(f, log, fan, cl, Replay(c, log[c.pos]), lost, latest)
  {
    assert c.sub.filter == f && c.since > 0;
    hide ConnOk, OutFits, MarksFit, AheadFits;
    ReplayLineKeeps(f, log, fan, c);
    ReplayOut(f, log, cl, c);
    ReplayMarks(f, log, fan, c, latest, log[c.pos]);
  }

  lemma ReplayEndConn(f: Filter, log: seq<Envelope>, fan: nat, cl: Client, c: Conn, lost: set<Id>, latest: nat)
    requires ConnFits(f, log, fan, cl, c, lost, latest) && c.replaying && c.pos == |log|
    ensures ConnFits(f, log, fan, cl, c.(replaying := false), lost, latest)
  {
    ReplayEndKeeps(f, log, fan, c);
    assert c.drained <= |log|;
    hide ConnOk;
    ReplayEndFits(f, log, fan, cl, c, latest);
  }

  lemma ReplayEndFits(f: Filter, log: seq<Envelope>, fan: nat, cl: Client, c: Conn, latest: nat)
    requires OutFits(f, log, c) && MarksFit(f, log, fan, c, latest) && TakenFits(cl, c) && AheadFits(f, log, cl, c)
    requires c.replaying && c.pos == |log| && c.drained <= |log|
    ensures var d := c.(replaying := false);
            OutFits(f, log, d) && MarksFit(f, log, fan, d, latest) && TakenFits(cl, d) && AheadFits(f, log, cl, d)
  {
    var d := c.(replaying := false);
    assert Hi(d) == Hi(c);
    assert forall j :: !ToCome(f, log, d, j);
    hide IsLogEntry, Timed, Precedes, ToCome, Floor, Match;
  }

  // ---- draining ----

  lemma DrainMarks(f: Filter, log: seq<Envelope>, fan: nat, c: Conn, latest: nat)
    requires MarksFit(f, log, fan, c, latest) && !c.replaying && c.sub.ch != []
    ensures MarksFit(f, log, fan, DrainOne(c), latest)
  {
    hide Timed, Precedes;
  }

  lemma DrainMarker(f: Filter, log: seq<Envelope>, cl: Client, c: Conn)
    requires OutFits(f, log, c) && AheadFits(f, log, cl, c) && !c.replaying && c.sub.ch != [] && c.sub.ch[0].id.Marked?
    ensures OutFits(f, log, DrainOne(c)) && AheadFits(f, log, cl, DrainOne(c))
  {
    var d := DrainOne(c);
    forall j: nat | ToCome(f, log, d, j) ensures log[j].at >= Floor(cl.lastSeen) {
      assert ToCome(f, log, c, j);
    }
    hide ToCome, IsLogEntry;
  }

  /** An envelope of the channel that is passed on lies beyond what was sent. */
  lemma PassedOn(f: Filter, log: seq<Envelope>, fan: nat, c: Conn, n: nat)
    requires ConnOk(f, log, fan, c) && Numbered(log) && OutFits(f, log, c) && !c.replaying
    requires c.sub.ch != [] && c.sub.ch[0].id == Published(n) && Published(n) !in c.replayed
    ensures Hi(c) <= n < fan <= |log| && log[n] == c.sub.ch[0] && ToCome(f, log, c, n) && Lo(c) <= n
  {
    ChanHead(f, log, fan, c);
    hide OutOk, DropsOk, ChanOk;
    assert log[n].at >= c.since;
  }

  lemma SentNext(f: Filter, log: seq<Envelope>, cl: Client, c: Conn, d: Conn, n: nat)
    requires OutFits(f, log, c) && AheadFits(f, log, cl, c) && Numbered(log) && !c.replaying && !d.replaying
    requires Hi(c) <= n < |log| && Lo(c) <= n && ToCome(f, log, c, n)
    requires d.out == c.out + [log[n]] && d.taken == c.taken && Hi(d) == n + 1 && Lo(d) == Lo(c)
    requires d.since == c.since && d.start == c.start && d.dropped == c.dropped
    ensures OutFits(f, log, d) && AheadFits(f, log, cl, d)
  {
    hide Lo, Hi;
    assert IsLogEntry(f, log, log[n]);
    forall j: nat | ToCome(f, log, d, j) ensures log[j].at >= Floor(cl.lastSeen) {
      assert ToCome(f, log, c, j);
    }
    hide ToCome, IsLogEntry;
  }

  lemma DrainLogged(f: Filter, log: seq<Envelope>, fan: nat, cl: Client, c: Conn)
    requires ConnOk(f, log, fan, c) && Numbered(log) && OutFits(f, log, c) && AheadFits(f, log, cl, c) && !c.replaying
    requires c.sub.ch != [] && c.sub.ch[0].id.Published?
    ensures OutFits(f, log, DrainOne(c)) && AheadFits(f, log, cl, DrainOne(c))
  {
    var n, d := c.sub.ch[0].id.n, DrainOne(c);
    ChanHead(f, log, fan, c);
    if Published(n) in c.replayed {
      SkippedNext(f, log, cl, c, d);
    } else {
      PassedOn(f, log, fan, c, n);
      SentNext(f, log, cl, c, d, n);
    }
  }

  lemma SkippedNext(f: Filter, log: seq<Envelope>, cl: Client, c: Conn, d: Conn)
    requires OutFits(f, log, c) && AheadFits(f, log, cl, c) && !c.replaying
    requires d == c.(sub := d.sub, drained := d.drained) && d.drained >= c.drained
    ensures OutFits(f, log, d) && AheadFits(f, log, cl, d)
  {
    forall j: nat | ToCome(f, log, d, j) ensures log[j].at >= Floor(cl.lastSeen) {
      assert ToCome(f, log, c, j);
    }
    hide ToCome, IsLogEntry;
  }

  lemma DrainConn(f: Filter, log: seq<Envelope>, fan: nat, cl: Client, c: Conn, lost: set<Id>, latest: nat)
    requires ConnFits(f, log, fan, cl, c, lost, latest) && Numbered(log) && !c.replaying && c.sub.ch != []
    ensures ConnFits(f, log, fan, cl, DrainOne(c), lost, latest)
  {
    hide ConnOk, OutFits, MarksFit, AheadFits;
    DrainKeeps(f, log, fan, c);
    DrainMarks(f, log, fan, c, latest);
    if c.sub.ch[0].id.Published? {
      DrainLogged(f, log, fan, cl, c);
    } else {
      DrainMarker(f, log, cl, c);
    }
    assert c.out + [] == c.out;
  }

  // ---- taking ----

  lemma {:induction false} SinceOfMember(s: seq<Envelope>, since: nat, e: Envelope)
    requires e in SinceOf(s, since)
    ensures e in s
  {
    if e != s[|s| - 1] {
      SinceOfMember(s[..|s| - 1], since, e);
    }
  }

  lemma {:induction false} LoggedMember(s: seq<Envelope>, e: Envelope)
    requires e in Logged(s)
    ensures e in s
  {
    if e != s[|s| - 1] {
      LoggedMember(s[..|s| - 1], e);
    }
  }

  /** A matching event this connection is to deliver is still ahead, unless it has been seen. */
  lemma StillAhead(f: Filter, log: seq<Envelope>, fan: nat, cl: Client, c: Conn, j: nat)
    requires ConnOk(f, log, fan, c) && Numbered(log) && TakenFits(cl, c)
    requires Lo(c) <= j < |log| && Match(f, log[j]) && log[j].at >= c.since
    requires Published(j) !in cl.seen && Published(j) !in c.dropped
    ensures ToCome(f, log, c, j) || exists q :: c.taken <= q < |c.out| && c.out[q] == log[j]
  {
    hide ChanOk, DropsOk, ReplayedOk;
    if j < Hi(c) {
      SelMember(log, Lo(c), Hi(c), OutPick(f, c), log[j]);
      SinceOfMember(c.out, c.since, log[j]);
      var q :| 0 <= q < |c.out| && c.out[q] == log[j];
      assert q >= c.taken;
    }
  }

  /** What is to come and has been fanned out waits in the channel. */
  lemma InChannel(f: Filter, log: seq<Envelope>, fan: nat, c: Conn, j: nat)
    requires ConnOk(f, log, fan, c) && !c.replaying && ToCome(f, log, c, j) && j < fan
    ensures exists q :: 0 <= q < |c.sub.ch| && c.sub.ch[q] == log[j]
  {
    hide OutOk, DropsOk, ReplayedOk;
    SelMember(log, c.drained, fan, ChanPick(f, c), log[j]);
    LoggedMember(c.sub.ch, log[j]);
  }

  lemma MarkerAhead(f: Filter, log: seq<Envelope>, fan: nat, cl: Client, c: Conn, d: Conn, latest: nat, e: Envelope)
    requires ConnOk(f, log, fan, c) && Numbered(log) && MarksFit(f, log, fan, c, latest) && AheadFits(f, log, cl, c)
    requires c.taken < |c.out| && c.out[c.taken] == e && e.id.Marked?
    requires d == c.(taken := c.taken + 1, reached := d.reached)
    ensures AheadFits(f, log, Handle(cl, e), d)
  {
    var cl' := Handle(cl, e);
    forall p | d.taken <= p < |d.out| && d.out[p].id.Published? ensures d.out[p].at >= Floor(cl'.lastSeen) {
      assert Precedes(c.out[c.taken], c.out[p]);
      FloorOfLater(cl, e, d.out[p].at);
    }
    forall j: nat | ToCome(f, log, d, j) ensures log[j].at >= Floor(cl'.lastSeen) {
      assert ToCome(f, log, c, j);
      MarkerBefore(f, log, fan, c, latest, j);
      FloorOfLater(cl, e, log[j].at);
    }
  }

  lemma MarkerBefore(f: Filter, log: seq<Envelope>, fan: nat, c: Conn, latest: nat, j: nat)
    requires ConnOk(f, log, fan, c) && Numbered(log) && MarksFit(f, log, fan, c, latest) && ToCome(f, log, c, j)
    requires c.taken < |c.out| && c.out[c.taken].id.Marked?
    ensures log[j].at >= Floor(c.out[c.taken].at)
  {
    if j < fan {
      InChannel(f, log, fan, c, j);
      hide ConnOk, ToCome;
      var q :| 0 <= q < |c.sub.ch| && c.sub.ch[q] == log[j];
      assert Precedes(c.out[c.taken], c.sub.ch[q]);
    } else {
      assert Timed(f, log, fan, latest, c.out[c.taken]);
    }
  }

  lemma FloorOfLater(cl: Client, e: Envelope, at: nat)
    requires at >= Floor(e.at) && at >= Floor(cl.lastSeen)
    ensures at >= Floor(Handle(cl, e).lastSeen)
  {
  }

  lemma LoggedAhead(f: Filter, log: seq<Envelope>, cl: Client, c: Conn, d: Conn, n: nat)
    requires OutFits(f, log, c) && AheadFits(f, log, cl, c) && Numbered(log) && InOrder(f, log)
    requires c.taken < |c.out| && n < |log| && c.out[c.taken] == log[n]
    requires d == c.(taken := c.taken + 1, reached := d.reached)
    ensures AheadFits(f, log, Handle(cl, log[n]), d)
  {
    var cl' := Handle(cl, log[n]);
    forall p | d.taken <= p < |d.out| && d.out[p].id.Published? ensures d.out[p].at >= Floor(cl'.lastSeen) {
      assert IsLogEntry(f, log, c.out[p]);
      FloorOfLater(cl, log[n], d.out[p].at);
    }
    forall j: nat | ToCome(f, log, d, j) ensures log[j].at >= Floor(cl'.lastSeen) {
      assert ToCome(f, log, c, j);
      FloorOfLater(cl, log[n], log[j].at);
    }
  }

  lemma {:induction false} NoneLogged(h: seq<Envelope>)
    requires FirstLogged(h).None?
    ensures Next(h) == 0
  {
    if h != [] {
      NoneLogged(h[..|h| - 1]);
    }
  }

  lemma TakeClient(f: Filter, log: seq<Envelope>, cl: Client, latest: nat, e: Envelope)
    requires ClientFits(f, log, cl, latest) && SECOND <= e.at <= latest && (e.id.Published? ==> IsLogEntry(f, log, e))
    ensures ClientFits(f, log, Handle(cl, e), latest)
  {
    HandleKeeps(cl, e);
    HandledSnoc(cl.handled, e, 0);
    hide ClientOk, Next;
  }

  lemma TakeTaken(f: Filter, log: seq<Envelope>, cl: Client, c: Conn, d: Conn)
    requires OutFits(f, log, c) && TakenFits(cl, c) && c.taken < |c.out|
          && d == c.(taken := c.taken + 1, reached := d.reached)
    ensures TakenFits(Handle(cl, c.out[c.taken]), d)
  {
    var e := c.out[c.taken];
    FirstLoggedSnoc(cl.handled, e);
    FloorBelow(cl.lastSeen, Handle(cl, e).lastSeen);
    hide IsLogEntry;
  }

  /** What is still pending after a take is still ahead on the connection, hence late enough. */
  lemma PendingIsLate(f: Filter, log: seq<Envelope>, fan: nat, cl: Client, c: Conn, d: Conn, j: nat)
    requires ConnOk(f, log, fan, c) && Numbered(log) && TakenFits(cl, c) && c.taken < |c.out|
    requires d == c.(taken := c.taken + 1, reached := d.reached) && AheadFits(f, log, Handle(cl, c.out[c.taken]), d)
    requires Lo(c) <= j < |log| && Match(f, log[j]) && log[j].at >= c.since
    requires Published(j) !in Handle(cl, c.out[c.taken]).seen && Published(j) !in c.dropped
    ensures log[j].at >= Floor(Handle(cl, c.out[c.taken]).lastSeen)
  {
    StillAhead(f, log, fan, cl, c, j);
    hide ConnOk;
    if ToCome(f, log, c, j) {
      assert ToCome(f, log, d, j);
    } else {
      var q :| c.taken <= q < |c.out| && c.out[q] == log[j];
      assert q != c.taken;
    }
  }

  /** And it was published after the event just taken. */
  lemma PendingIsLater(f: Filter, log: seq<Envelope>, fan: nat, cl: Client, c: Conn, n: nat, j: nat)
    requires ConnOk(f, log, fan, c) && Numbered(log) && TakenFits(cl, c) && OutFits(f, log, c)
    requires c.taken < |c.out| && n < |log| && c.out[c.taken] == log[n] && j != n
    requires Lo(c) <= j < |log| && Match(f, log[j]) && log[j].at >= c.since
    requires Published(j) !in cl.seen && Published(j) !in c.dropped
    ensures j > n
  {
    StillAhead(f, log, fan, cl, c, j);
    hide ConnOk, Match, IsLogEntry;
    if !ToCome(f, log, c, j) {
      var q :| c.taken <= q < |c.out| && c.out[q] == log[j];
      assert q > c.taken;
    }
  }

  lemma TakeReaches(f: Filter, log: seq<Envelope>, fan: nat, cl: Client, c: Conn, d: Conn, lost: set<Id>)
    requires ConnOk(f, log, fan, c) && Numbered(log) && InOrder(f, log) && TakenFits(cl, c) && OutFits(f, log, c)
    requires Reaches(f, log, cl, lost) && c.dropped <= lost && c.taken < |c.out|
    requires d == c.(taken := c.taken + 1, reached := d.reached) && AheadFits(f, log, Handle(cl, c.out[c.taken]), d)
    ensures Reaches(f, log, Handle(cl, c.out[c.taken]), lost)
  {
    var e := c.out[c.taken];
    var cl' := Handle(cl, e);
    if e.id !in cl.seen && FirstLogged(cl'.handled).Some? {
      var x := FirstLogged(cl'.handled).value;
      FirstLoggedSnoc(cl.handled, e);
      HandledSnoc(cl.handled, e, 0);
      forall j: nat | Pending(f, log, cl', lost, x, j)
          ensures Next(cl'.handled) <= j && log[j].at >= Floor(cl'.lastSeen) {
        OnePending(f, log, fan, cl, c, d, lost, j);
      }
    }
  }

  /** Of a client that had handled a logged event before. */
  lemma PendingBefore(f: Filter, log: seq<Envelope>, fan: nat, cl: Client, c: Conn, lost: set<Id>, e: Envelope, j: nat)
    requires ConnOk(f, log, fan, c) && Numbered(log) && TakenFits(cl, c) && OutFits(f, log, c)
    requires Reaches(f, log, cl, lost) && c.dropped <= lost && c.taken < |c.out| && c.out[c.taken] == e
    requires FirstLogged(cl.handled).Some? && Pending(f, log, cl, lost, FirstLogged(cl.handled).value, j)
          && e.id != Published(j)
    ensures Next(cl.handled) <= j && log[j].at >= c.since && Lo(c) <= j
    ensures e.id.Published? ==> j > e.id.n
  {
    assert e.id.Published? ==> IsLogEntry(f, log, e);
    hide Match, IsLogEntry;
    if e.id.Published? {
      PendingIsLater(f, log, fan, cl, c, e.id.n, j);
    }
  }

  /** Of a client whose first logged event is the one just taken. */
  lemma PendingSinceFirst(f: Filter, log: seq<Envelope>, cl: Client, c: Conn, e: Envelope, j: nat)
    requires Numbered(log) && InOrder(f, log) && TakenFits(cl, c)
    requires IsLogEntry(f, log, e) && e.at >= c.since && Lo(c) <= e.id.n
    requires e.id.n < j < |log| && Match(f, log[j])
    ensures log[j].at >= c.since && Lo(c) <= j
  {
    FloorMonotone(c.since, e.at);
    hide Floor, Match;
    assert log[j].at >= Floor(log[e.id.n].at);
  }

  lemma OnePending(f: Filter, log: seq<Envelope>, fan: nat, cl: Client, c: Conn, d: Conn, lost: set<Id>, j: nat)
    requires ConnOk(f, log, fan, c) && Numbered(log) && InOrder(f, log) && TakenFits(cl, c) && OutFits(f, log, c)
    requires Reaches(f, log, cl, lost) && c.dropped <= lost && c.taken < |c.out| && c.out[c.taken].id !in cl.seen
    requires d == c.(taken := c.taken + 1, reached := d.reached) && AheadFits(f, log, Handle(cl, c.out[c.taken]), d)
    requires var h := Handle(cl, c.out[c.taken]).handled;
             FirstLogged(h).Some? && Pending(f, log, Handle(cl, c.out[c.taken]), lost, FirstLogged(h).value, j)
    ensures var cl' := Handle(cl, c.out[c.taken]);
            Next(cl'.handled) <= j && log[j].at >= Floor(cl'.lastSeen)
  {
    hide ConnOk, Reaches, TakenFits, AheadFits, InOrder, Match, Floor, FirstLogged, Next;
    var e := c.out[c.taken];
    FirstLoggedSnoc(cl.handled, e);
    HandledSnoc(cl.handled, e, 0);
    if FirstLogged(cl.handled).Some? {
      hide OutFits;
      assert Pending(f, log, cl, lost, FirstLogged(cl.handled).value, j);
      PendingBefore(f, log, fan, cl, c, lost, e, j);
    } else {
      NoneLogged(cl.handled);
      assert IsLogEntry(f, log, e);
      PendingSinceFirst(f, log, cl, c, e, j);
    }
    hide OutFits;
    PendingIsLate(f, log, fan, cl, c, d, j);
  }

  lemma TakeConn(f: Filter, log: seq<Envelope>, fan: nat, cl: Client, c: Conn, d: Conn, lost: set<Id>, latest: nat)
    requires ConnFits(f, log, fan, cl, c, lost, latest) && LogFits(f, log, latest) && c.taken < |c.out|
    requires ClientFits(f, log, cl, latest) && Reaches(f, log, cl, lost)
    requires d == c.(taken := c.taken + 1, reached := d.reached)
    ensures var cl' := Handle(cl, c.out[c.taken]);
            ConnFits(f, log, fan, cl', d, lost, latest) && ClientFits(f, log, cl', latest) && Reaches(f, log, cl', lost)
  {
    var e := c.out[c.taken];
    TakenEntryFits(f, log, fan, c, latest);
    SentStands(f, log, fan, c, d, latest);
    LogIsInOrder(f, log, latest);
    hide ConnOk, OutFits, MarksFit, TakenFits, AheadFits, LogFits, ClientFits, Reaches;
    TakeKeeps(f, log, fan, c, d.reached);
    if e.id.Published? {
      LoggedAhead(f, log, cl, c, d, e.id.n);
    } else {
      MarkerAhead(f, log, fan, cl, c, d, latest, e);
    }
    TakeClient(f, log, cl, latest, e);
    TakeTaken(f, log, cl, c, d);
    TakeReaches(f, log, fan, cl, c, d, lost);
  }

  lemma LogIsInOrder(f: Filter, log: seq<Envelope>, latest: nat)
    requires LogFits(f, log, latest)
    ensures Numbered(log) && InOrder(f, log)
  {
  }

  lemma TakenEntryFits(f: Filter, log: seq<Envelope>, fan: nat, c: Conn, latest: nat)
    requires OutFits(f, log, c) && MarksFit(f, log, fan, c, latest) && LogFits(f, log, latest) && c.taken < |c.out|
    ensures var e := c.out[c.taken];
            SECOND <= e.at <= latest
            && (e.id.Published? ==> IsLogEntry(f, log, e) && e.id.n < |log| && log[e.id.n] == e)
  {
    assert Timed(f, log, fan, latest, c.out[c.taken]);
  }

  lemma SentStands(f: Filter, log: seq<Envelope>, fan: nat, c: Conn, d: Conn, latest: nat)
    requires OutFits(f, log, c) && MarksFit(f, log, fan, c, latest) && d == c.(taken := d.taken, reached := d.reached)
    ensures OutFits(f, log, d) && MarksFit(f, log, fan, d, latest)
  {
    hide IsLogEntry, Timed, Precedes;
  }

  // ---- every run ----

  lemma TakeFits(f: Filter, s: System, lost: set<Id>, latest: nat)
    requires Fits(f, s, lost, latest)
    ensures Fits(f, DoTake(s), lost, latest)
  {
    hide LogFits, ClientFits, ConnFits, Reaches, Handle;
    if s.conn.Some? && s.conn.value.taken < |s.conn.value.out| {
      var c, t := s.conn.value, DoTake(s);
      TakeConn(f, s.log, FannedOut(s), s.client, c, t.conn.value, lost, latest);
    }
  }

  lemma ConnOf(f: Filter, s: System, lost: set<Id>, latest: nat)
    requires Fits(f, s, lost, latest) && s.conn.Some?
    ensures FannedOut(s) >= 0 && Numbered(s.log)
    ensures ConnFits(f, s.log, FannedOut(s), s.client, s.conn.value, lost, latest)
  {
    hide ClientFits, ConnFits, Reaches;
  }

  lemma WithConn(f: Filter, s: System, d: Conn, lost: set<Id>, latest: nat)
    requires Fits(f, s, lost, latest) && ConnFits(f, s.log, FannedOut(s), s.client, d, lost, latest)
    ensures Fits(f, s.(conn := Some(d)), lost, latest)
  {
    hide LogFits, ClientFits, ConnFits, Reaches;
  }

  lemma DaemonFits(f: Filter, s: System, lost: set<Id>, latest: nat, step: Step)
    requires Fits(f, s, lost, latest) && !step.Nudging?
    ensures Fits(f, DoDaemon(s, step), lost, latest)
  {
    hide Fits, ConnFits, DaemonStep;
    if s.conn.Some? {
      ConnOf(f, s, lost, latest);
      DaemonConn(f, s.log, FannedOut(s), s.client, s.conn.value, lost, latest, step);
      WithConn(f, s, DaemonStep(s.log, s.conn.value, step), lost, latest);
    }
  }

  lemma DaemonConn(f: Filter, log: seq<Envelope>, fan: nat, cl: Client, c: Conn, lost: set<Id>, latest: nat, step: Step)
    requires ConnFits(f, log, fan, cl, c, lost, latest) && Numbered(log) && !step.Nudging?
    ensures ConnFits(f, log, fan, cl, DaemonStep(log, c, step), lost, latest)
  {
    hide ConnFits;
    match step
    case ReplayLine => if c.replaying && c.pos < |log| { ReplayConn(f, log, fan, cl, c, lost, latest); }
    case ReplayEnd => if c.replaying && c.pos == |log| { ReplayEndConn(f, log, fan, cl, c, lost, latest); }
    case Drain => if !c.replaying && c.sub.ch != [] { DrainConn(f, log, fan, cl, c, lost, latest); }
    case _ =>
  }

  lemma NudgeFits(f: Filter, s: System, lost: set<Id>, latest: nat, m: nat, at: nat)
    requires Fits(f, s, lost, latest) && SECOND <= at <= latest
    ensures Fits(f, DoDaemon(s, Nudging(m, at)), lost, latest)
  {
    hide Fits, ConnFits;
    if s.conn.Some? && !s.inflight {
      ConnOf(f, s, lost, latest);
      NudgeConn(f, s.log, s.client, s.conn.value, lost, latest, m, at);
      WithConn(f, s, DaemonStep(s.log, s.conn.value, Nudging(m, at)), lost, latest);
    }
  }

  lemma ConnectFits(f: Filter, s: System, lost: set<Id>, latest: nat)
    requires Fits(f, s, lost, latest)
    ensures Fits(f, Do(f, s, Connect), lost, latest)
  {
    hide LogFits, ClientFits, ConnFits, Reaches, Open;
    ConnectConn(f, s.log, s.client, lost, latest);
  }

  lemma DisconnectFits(f: Filter, s: System, lost: set<Id>, latest: nat)
    requires Fits(f, s, lost, latest)
    ensures Fits(f, s.(conn := None), lost, latest)
  {
    hide LogFits, ClientFits, ConnFits, Reaches;
  }

  lemma StepFits(f: Filter, s: System, lost: set<Id>, latest: nat, step: Step, later: nat)
    requires Fits(f, s, lost, latest)
    requires step.Append? && Stamps(f, step) ==> step.at >= Floor(latest)
    requires step.Nudging? ==> step.at >= SECOND
    requires later == LatestWith(f, latest, step)
    ensures Fits(f, Do(f, s, step), lost + LostBy(s, step), later)
  {
    hide Fits, DoAppend, DoFanOut, DoTake, DoDaemon;
    assert lost + {} == lost;
    match step
    case Append(kind, at, job) => AppendFits(f, s, lost, latest, kind, at, job, later);
    case Connect => ConnectFits(f, s, lost, latest);
    case FanOut => FanOutFits(f, s, lost, latest);
    case Disconnect => DisconnectFits(f, s, lost, latest);
    case Take => TakeFits(f, s, lost, latest);
    case Nudging(m, at) =>
      Later(f, s, lost, latest, later);
      NudgeFits(f, s, lost, later, m, at);
    case _ => DaemonFits(f, s, lost, latest, step);
  }

  lemma StartFits(f: Filter)
    ensures Fits(f, START, {}, 0)
  {
  }

  lemma TimelyAt(f: Filter, steps: seq<Step>, i: nat)
    requires Timely(f, steps) && i < |steps|
    ensures steps[i].Append? && Stamps(f, steps[i]) ==> steps[i].at >= Floor(Latest(f, steps, i))
    ensures steps[i].Nudging? ==> steps[i].at >= SECOND
  {
    hide Latest;
  }

  lemma {:induction false} PlayFits(f: Filter, steps: seq<Step>, n: nat)
    requires n <= |steps| && Timely(f, steps)
    ensures Fits(f, Play(f, steps, n), Lost(f, steps, n), Latest(f, steps, n))
  {
    hide Fits, Do, LostBy, Timely;
    if n == 0 {
      StartFits(f);
    } else {
      TimelyAt(f, steps, n - 1);
      PlayFits(f, steps, n - 1);
      StepFits(f, Play(f, steps, n - 1), Lost(f, steps, n - 1), Latest(f, steps, n - 1), steps[n - 1],
          Latest(f, steps, n));
    }
  }

  ghost predicate LostSoFar(s: System, lost: set<Id>) {
    |lost| == s.drops && forall id :: id in lost ==> id.Published? && id.n < FannedOut(s)
  }

  lemma OneMoreLost(f: Filter, log: seq<Envelope>, fan: nat, c: Conn)
    requires ConnOk(f, log, fan, c) && Numbered(log) && fan + 1 == |log|
    ensures var d := FanOutTo(c, log[fan]);
            if d.sub.lagDropped > c.sub.lagDropped
            then d.sub.lagDropped == c.sub.lagDropped + 1 && d.dropped - c.dropped == {Published(fan)}
            else d.sub.lagDropped == c.sub.lagDropped && d.dropped - c.dropped == {}
  {
    hide ChanOk, ReplayedOk, OutOk, Match;
  }

  lemma FanOutCounts(s: System)
    requires s.inflight && s.log != [] && s.conn.Some?
    ensures var t, d := DoFanOut(s), FanOutTo(s.conn.value, s.log[|s.log| - 1]);
            FannedOut(s) == |s.log| - 1 && FannedOut(t) == |s.log|
            && t.drops == s.drops + d.sub.lagDropped - s.conn.value.sub.lagDropped
  {
    hide FanOutTo;
  }

  lemma NoneLostElse(f: Filter, s: System, step: Step)
    requires !(step.FanOut? && s.inflight && s.log != [] && s.conn.Some?)
    ensures Do(f, s, step).drops == s.drops && FannedOut(Do(f, s, step)) >= FannedOut(s) && LostBy(s, step) == {}
  {
    hide DaemonStep, Handle, Open;
  }

  lemma LostStep(f: Filter, s: System, step: Step, lost: set<Id>)
    requires SystemOk(f, s) && LostSoFar(s, lost)
    ensures LostSoFar(Do(f, s, step), lost + LostBy(s, step))
  {
    if step.FanOut? && s.inflight && s.conn.Some? {
      OneMoreLost(f, s.log, |s.log| - 1, s.conn.value);
      FanOutCounts(s);
      LostOnFanOut(s, lost);
    } else {
      hide SystemOk;
      NoneLostElse(f, s, step);
      assert lost + {} == lost;
      hide Do, LostBy, FannedOut;
    }
  }

  lemma LostOnFanOut(s: System, lost: set<Id>)
    requires s.inflight && s.log != [] && s.conn.Some? && LostSoFar(s, lost)
    requires var c, d := s.conn.value, FanOutTo(s.conn.value, s.log[|s.log| - 1]);
             if d.sub.lagDropped > c.sub.lagDropped
             then d.sub.lagDropped == c.sub.lagDropped + 1 && d.dropped - c.dropped == {Published(|s.log| - 1)}
             else d.sub.lagDropped == c.sub.lagDropped && d.dropped - c.dropped == {}
    ensures LostSoFar(DoFanOut(s), lost + LostBy(s, FanOut))
  {
    hide FanOutTo;
    FanOutCounts(s);
    assert Published(|s.log| - 1) !in lost;
    assert lost + {} == lost;
    hide DoFanOut;
  }

  /** The events lost are as many as the drops that were counted, so without a drop nothing is lost. */
  lemma {:induction false} LossesAreCounted(f: Filter, steps: seq<Step>, n: nat)
    requires n <= |steps|
    ensures LostSoFar(Play(f, steps, n), Lost(f, steps, n))
  {
    hide SystemOk, LostSoFar, LostBy, Do;
    if n == 0 {
      NothingLostYet();
    } else {
      PlayKeeps(f, steps, n - 1);
      LossesAreCounted(f, steps, n - 1);
      LostStep(f, Play(f, steps, n - 1), steps[n - 1], Lost(f, steps, n - 1));
    }
  }

  lemma NothingLostYet()
    ensures LostSoFar(START, {})
  {
  }

  /**
    Over any run of publishes, overflowing buffers, disconnects and reconnects in which no matching
    event is stamped before the second of an earlier one or of a lag marker: of the matching events
    from the first handled one to the last, every one was handled or was dropped by a full buffer.
  */
  lemma LagLosesOnlyDrops(f: Filter, steps: seq<Step>, j: nat)
    requires Timely(f, steps)
    ensures var s := Play(f, steps, |steps|);
            var first := FirstLogged(s.client.handled);
            first.Some? && first.value <= j < Next(s.client.handled) <= |s.log| && Match(f, s.log[j]) ==>
              Published(j) in s.client.seen || Published(j) in Lost(f, steps, |steps|)
  {
    PlayFits(f, steps, |steps|);
    var s, lost := Play(f, steps, |steps|), Lost(f, steps, |steps|);
    hide LogFits, ConnFits, ClientFits;
    var first := FirstLogged(s.client.handled);
    if first.Some? && first.value <= j < Next(s.client.handled) <= |s.log| && Match(f, s.log[j]) {
      assert Pending(f, s.log, s.client, lost, first.value, j) <==>
          Published(j) !in s.client.seen && Published(j) !in lost;
    }
  }

  lemma NothingPending(f: Filter, log: seq<Envelope>, cl: Client, c: Conn, lost: set<Id>, latest: nat, j: nat)
    requires ConnFits(f, log, |log|, cl, c, lost, latest) && Numbered(log) && Reaches(f, log, cl, lost)
    requires !c.replaying && c.sub.ch == [] && c.taken == |c.out|
    requires FirstLogged(cl.handled).Some?
    ensures !Pending(f, log, cl, lost, FirstLogged(cl.handled).value, j)
  {
    if Pending(f, log, cl, lost, FirstLogged(cl.handled).value, j) {
      assert log[j].at >= Floor(cl.lastSeen) >= c.since && Lo(c) <= j;
      StillAhead(f, log, |log|, cl, c, j);
      if ToCome(f, log, c, j) {
        InChannel(f, log, |log|, c, j);
      }
    }
  }

  /** And on a connection that has caught up, so was every matching event after it. */
  lemma CaughtUpLosesOnlyDrops(f: Filter, steps: seq<Step>, j: nat)
    requires Timely(f, steps)
    ensures var s := Play(f, steps, |steps|);
            var first := FirstLogged(s.client.handled);
            CaughtUp(s) && first.Some? && first.value <= j < |s.log| && Match(f, s.log[j]) ==>
              Published(j) in s.client.seen || Published(j) in Lost(f, steps, |steps|)
  {
    PlayFits(f, steps, |steps|);
    var s, lost := Play(f, steps, |steps|), Lost(f, steps, |steps|);
    var first := FirstLogged(s.client.handled);
    if CaughtUp(s) && first.Some? && first.value <= j < |s.log| && Match(f, s.log[j]) {
      LogIsInOrder(f, s.log, Latest(f, steps, |steps|));
      hide LogFits, ConnFits, ClientFits, Reaches;
      NothingPending(f, s.log, s.client, s.conn.value, lost, Latest(f, steps, |steps|), j);
    }
  }
}
