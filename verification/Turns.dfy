/**
  A job run turn by turn, read off what the agent's turns are, the clock and the deadline
  (internal/runner/runner.go): which turns are taken, when, and what is published.
*/
module Turns {
  import opened Common
  import opened Runner

  // ---- the clock ----

  /** When turn k begins, if every turn before it is followed by another. */
  function BeginAt(turns: nat -> AgentTurn, now: int, k: nat): int {
    if k == 0 then now else
      var before := turns(k - 1);
      var delay := if before.res.wakeup.Some? then before.res.wakeup.value.delay else 0;
      BeginAt(turns, now, k - 1) + before.took + (if delay > 0 then delay else 0) + before.overslept
  }

  function EndAt(turns: nat -> AgentTurn, now: int, k: nat): int { BeginAt(turns, now, k) + turns(k).took }

  /** The error of turn k; a turn begun when the deadline has passed has one. */
  function ErrAt(turns: nat -> AgentTurn, now: int, deadline: int, k: nat): Err {
    if turns(k).res.err != NoError then turns(k).res.err
    else if BeginAt(turns, now, k) >= deadline then DeadlineExceeded else NoError
  }

  /** Turn k has no error and asks for a delay shorter than what is left until the deadline. */
  predicate AsksInTime(turns: nat -> AgentTurn, now: int, deadline: int, k: nat) {
    && ErrAt(turns, now, deadline, k) == NoError
    && turns(k).res.wakeup.Some?
    && EndAt(turns, now, k) + turns(k).res.wakeup.value.delay < deadline
  }

  // ---- what is published ----

  /** The session named last up to turn k, or the one resumed. */
  function SessionAt(job: Job, turns: nat -> AgentTurn, k: nat): string {
    if turns(k).res.sessionId != "" then turns(k).res.sessionId
    else if k == 0 then job.resume else SessionAt(job, turns, k - 1)
  }

  /** The last non-empty message up to turn k. */
  function MessageAt(turns: nat -> AgentTurn, k: nat): string {
    if turns(k).res.finalMessage != "" then turns(k).res.finalMessage
    else if k == 0 then "" else MessageAt(turns, k - 1)
  }

  /** Turn k's events: the session when it is first known, and the turn's own message. */
  function TurnEvents(job: Job, turns: nat -> AgentTurn, k: nat): seq<Event> {
    var id := SessionAt(job, turns, k);
    (if id != "" && (k == 0 || SessionAt(job, turns, k - 1) == "") then [SessionStarted(id)] else [])
    + [TurnCompleted(turns(k).res.finalMessage, id)]
  }

  /** The wakeup after turn k: whole seconds, and the job's prompt if none of its own is given. */
  function WakeupOf(job: Job, turns: nat -> AgentTurn, k: nat): Event
    requires turns(k).res.wakeup.Some?
  {
    var w := turns(k).res.wakeup.value;
    WakeupSet(TruncDiv(w.delay, 1_000_000_000),
              if w.prompt in {"", "<<autonomous-loop-dynamic>>"} then job.prompt else w.prompt)
  }

  /** The first k turns, each followed by its wakeup. */
  function Log(job: Job, turns: nat -> AgentTurn, k: nat): seq<Event>
    requires forall i: nat :: i < k ==> turns(i).res.wakeup.Some?
  {
    if k == 0 then [] else
      Log(job, turns, k - 1) + TurnEvents(job, turns, k - 1) + [WakeupOf(job, turns, k - 1)]
  }

  ghost predicate AllGoOn(turns: nat -> AgentTurn, now: int, deadline: int, k: nat) {
    forall i: nat :: i < k ==> AsksInTime(turns, now, deadline, i) && !turns(i).cancelledAsleep
  }

  ghost predicate BegunAt(turns: nat -> AgentTurn, now: int, k: nat, begun: seq<int>) {
    |begun| == k + 1 && forall i :: 0 <= i <= k ==> begun[i] == BeginAt(turns, now, i)
  }

  /** Just after turn k: the clock and how the turn went. */
  ghost predicate Clocked(job: Job, w: World, now: int, k: nat, r: Run) {
    var turns, deadline := w.turns, now + job.timeout;
    && AllGoOn(turns, now, deadline, k)
    && r.now == EndAt(turns, now, k) && BegunAt(turns, now, k, r.begun)
    && r.res == turns(k).res && r.err == ErrAt(turns, now, deadline, k) && r.cancelled == w.cancelled
  }

  /** And what has been said. */
  ghost predicate Told(job: Job, turns: nat -> AgentTurn, events: seq<Event>, k: nat, r: Run) {
    && (forall i: nat :: i < k ==> turns(i).res.wakeup.Some?)
    && r.session == SessionAt(job, turns, k) && r.announced == (r.session != "")
    && r.message == MessageAt(turns, k)
    && r.events == events + Log(job, turns, k) + TurnEvents(job, turns, k)
  }

  ghost predicate JustAfter(job: Job, w: World, now: int, events: seq<Event>, k: nat, r: Run) {
    Clocked(job, w, now, k, r) && Told(job, w.turns, events, k, r)
  }

  lemma FirstJustAfter(job: Job, w: World, now: int, events: seq<Event>)
    ensures JustAfter(job, w, now, events, 0, FirstTurn(job, w, now, events))
  {
    assert events + [] == events;
    var id := SessionAt(job, w.turns, 0);
    Associative(events, Announce(id, false), [TurnCompleted(w.turns(0).res.finalMessage, id)]);
  }

  /** Turn k is followed by its wakeup, slept through, and the next turn. */
  lemma NextJustAfter(job: Job, w: World, now: int, events: seq<Event>, k: nat, r: Run)
    requires JustAfter(job, w, now, events, k, r) && AsksInTime(w.turns, now, now + job.timeout, k)
    requires !w.turns(k).cancelledAsleep
    ensures var s := Sleep(job, r, w.turns(k));
            JustAfter(job, w, now, events, k + 1, Turn(s, w.turns(k + 1), s.session, now + job.timeout))
  {
    assert r.res == w.turns(k).res && r.res.wakeup.Some?;
    hide Clocked, Told, AsksInTime, Sleep, Turn;
    var s, deadline := Sleep(job, r, w.turns(k)), now + job.timeout;
    SleepFields(job, r, w.turns(k));
    TurnFields(s, w.turns(k + 1), s.session, deadline);
    NextClocked(job, w, now, k, r, s, Turn(s, w.turns(k + 1), s.session, deadline));
    NextTold(job, w.turns, events, deadline, k, r);
  }

  lemma NextClocked(job: Job, w: World, now: int, k: nat, r: Run, s: Run, next: Run)
    requires Clocked(job, w, now, k, r) && AsksInTime(w.turns, now, now + job.timeout, k)
    requires !w.turns(k).cancelledAsleep && r.res.wakeup.Some?
    requires var delay := r.res.wakeup.value.delay;
             s.now == r.now + (if delay > 0 then delay else 0) + w.turns(k).overslept
    requires s.begun == r.begun && s.cancelled == r.cancelled == next.cancelled
    requires next.now == s.now + w.turns(k + 1).took && next.begun == s.begun + [s.now]
    requires next.res == w.turns(k + 1).res && next.err == CallError(w.turns(k + 1), s.now, now + job.timeout)
    ensures Clocked(job, w, now, k + 1, next)
  {
    hide AsksInTime, BeginAt, ErrAt, AllGoOn, BegunAt, CallError;
    BeginNext(w.turns, now, k);
    ErrNext(w.turns, now, now + job.timeout, k + 1);
    AllGoOnNext(w.turns, now, now + job.timeout, k);
    BegunNext(w.turns, now, k, r.begun);
  }

  lemma SleepFields(job: Job, r: Run, t: AgentTurn)
    requires r.res.wakeup.Some? && !t.cancelledAsleep
    ensures var s, delay := Sleep(job, r, t), r.res.wakeup.value.delay;
            s.now == r.now + (if delay > 0 then delay else 0) + t.overslept
            && s.begun == r.begun && s.cancelled == r.cancelled && s.session == r.session
  {
  }

  lemma TurnFields(s: Run, t: AgentTurn, resume: string, deadline: int)
    ensures var r := Turn(s, t, resume, deadline);
            r.now == s.now + t.took && r.begun == s.begun + [s.now] && r.cancelled == s.cancelled
            && r.res == t.res && r.err == CallError(t, s.now, deadline)
  {
  }

  lemma BeginNext(turns: nat -> AgentTurn, now: int, k: nat)
    requires turns(k).res.wakeup.Some?
    ensures var delay := turns(k).res.wakeup.value.delay;
            BeginAt(turns, now, k + 1) == EndAt(turns, now, k) + (if delay > 0 then delay else 0) + turns(k).overslept
  {
  }

  lemma AllGoOnNext(turns: nat -> AgentTurn, now: int, deadline: int, k: nat)
    requires AllGoOn(turns, now, deadline, k) && AsksInTime(turns, now, deadline, k) && !turns(k).cancelledAsleep
    ensures AllGoOn(turns, now, deadline, k + 1)
  {
    hide AsksInTime;
  }

  lemma ErrNext(turns: nat -> AgentTurn, now: int, deadline: int, k: nat)
    ensures ErrAt(turns, now, deadline, k) == CallError(turns(k), BeginAt(turns, now, k), deadline)
  {
  }

  lemma BegunNext(turns: nat -> AgentTurn, now: int, k: nat, begun: seq<int>)
    requires BegunAt(turns, now, k, begun)
    ensures BegunAt(turns, now, k + 1, begun + [BeginAt(turns, now, k + 1)])
  {
    hide BeginAt;
  }

  lemma NextTold(job: Job, turns: nat -> AgentTurn, events: seq<Event>, deadline: int, k: nat, r: Run)
    requires Told(job, turns, events, k, r) && r.res == turns(k).res && r.res.wakeup.Some?
    ensures var s := Sleep(job, r, turns(k));
            Told(job, turns, events, k + 1, Turn(s, turns(k + 1), s.session, deadline))
  {
    hide TurnEvents, Log, TruncDiv;
    var s := Sleep(job, r, turns(k));
    var next := Turn(s, turns(k + 1), s.session, deadline);
    assert next.session == SessionAt(job, turns, k + 1);
    EventsNext(job, turns, events, k, r.events, next.events);
  }

  lemma EventsNext(job: Job, turns: nat -> AgentTurn, events: seq<Event>, k: nat, before: seq<Event>, after: seq<Event>)
    requires forall i: nat :: i <= k ==> turns(i).res.wakeup.Some?
    requires before == events + Log(job, turns, k) + TurnEvents(job, turns, k)
    requires var id := SessionAt(job, turns, k + 1);
             after == before + [WakeupOf(job, turns, k)] + Announce(id, SessionAt(job, turns, k) != "")
                      + [TurnCompleted(turns(k + 1).res.finalMessage, id)]
    ensures after == events + Log(job, turns, k + 1) + TurnEvents(job, turns, k + 1)
  {
    var e, wake := TurnEvents(job, turns, k), [WakeupOf(job, turns, k)];
    assert Log(job, turns, k + 1) == Log(job, turns, k) + e + wake;
    assert before + wake == events + Log(job, turns, k + 1);
    var id := SessionAt(job, turns, k + 1);
    Associative(before + wake, Announce(id, SessionAt(job, turns, k) != ""),
        [TurnCompleted(turns(k + 1).res.finalMessage, id)]);
  }

  /** Cut short after turn k while asleep. */
  ghost predicate CutShort(job: Job, w: World, now: int, events: seq<Event>, k: nat, r: Run) {
    && AllGoOn(w.turns, now, now + job.timeout, k) && AsksInTime(w.turns, now, now + job.timeout, k)
    && w.turns(k).cancelledAsleep && r.cancelled && r.err == Other
    && BegunAt(w.turns, now, k, r.begun) && r.session == SessionAt(job, w.turns, k)
        && r.message == MessageAt(w.turns, k)
    && r.events == events + Log(job, w.turns, k) + TurnEvents(job, w.turns, k) + [WakeupOf(job, w.turns, k)]
  }

  /** Where a run watched for n wakeups has got to: its last turn, and whether the sleep after it was cut short. */
  ghost predicate GotTo(job: Job, w: World, now: int, events: seq<Event>, n: nat, k: nat, r: Run) {
    k <= n &&
    if AsksInTime(w.turns, now, now + job.timeout, k) && k < n then CutShort(job, w, now, events, k, r)
    else JustAfter(job, w, now, events, k, r)
  }

  lemma WakesIff(job: Job, w: World, now: int, events: seq<Event>, k: nat, r: Run)
    requires JustAfter(job, w, now, events, k, r)
    ensures Wakes(r, now + job.timeout) <==> AsksInTime(w.turns, now, now + job.timeout, k)
  {
  }

  lemma CutsShort(job: Job, w: World, now: int, events: seq<Event>, k: nat, r: Run)
    requires JustAfter(job, w, now, events, k, r) && AsksInTime(w.turns, now, now + job.timeout, k)
    requires w.turns(k).cancelledAsleep
    ensures CutShort(job, w, now, events, k, Sleep(job, r, w.turns(k)))
  {
  }

  lemma {:induction false} LoopGetsTo(job: Job, w: World, now: int, events: seq<Event>, r: Run, k: nat, n: nat)
    returns (last: nat)
    requires JustAfter(job, w, now, events, k, r)
    ensures GotTo(job, w, now, events, k + n, last, Loop(job, w.turns, r, k, now + job.timeout, n))
    decreases n
  {
    hide JustAfter, CutShort, Turn, AsksInTime;
    var deadline := now + job.timeout;
    last := k;
    WakesIff(job, w, now, events, k, r);
    if n > 0 && Wakes(r, deadline) {
      if w.turns(k).cancelledAsleep {
        CutsShort(job, w, now, events, k, r);
      } else {
        var s := Sleep(job, r, w.turns(k));
        NextJustAfter(job, w, now, events, k, r);
        last := LoopGetsTo(job, w, now, events, Turn(s, w.turns(k + 1), s.session, deadline), k + 1, n - 1);
      }
    }
  }

  /**
    The run is its turns: turn k is taken when the clock says, and followed by its wakeup exactly if it had
    no error and asks for less than what is left until the deadline; what is published is what those turns
    and wakeups say, in order.
  */
  lemma RunIsItsTurns(job: Job, w: World, now: int, events: seq<Event>, n: nat) returns (last: nat)
    ensures GotTo(job, w, now, events, n, last, AgentRun(job, w, now, events, n))
  {
    hide JustAfter, CutShort, AsksInTime;
    FirstJustAfter(job, w, now, events);
    last := LoopGetsTo(job, w, now, events, FirstTurn(job, w, now, events), 0, n);
  }

  /** A run is over within n wakeups exactly if one of its turns up to then is not followed by another. */
  lemma OverIff(job: Job, w: World, now: int, n: nat)
    requires Reached(w)
    ensures Ends(job, w, now, n) <==>
            exists k: nat :: k <= n
                && (!AsksInTime(w.turns, now, now + job.timeout, k) || (k < n && w.turns(k).cancelledAsleep))
  {
    hide AsksInTime;
    var k := RunIsItsTurns(job, w, now, Opening(w), n);
    var r, deadline := AgentPart(job, w, now, n), now + job.timeout;
    if AsksInTime(w.turns, now, deadline, k) && k < n {
      assert !Wakes(r, deadline);
      assert w.turns(k).cancelledAsleep;
    } else {
      WakesIff(job, w, now, Opening(w), k, r);
      if AsksInTime(w.turns, now, deadline, k) {
        assert AllGoOn(w.turns, now, deadline, n);
      }
    }
  }

  /** A run that is over without error and whose last turn asked to go on asked for too long a delay. */
  lemma WakeupRefusedIsLate(job: Job, w: World, now: int, n: nat)
    requires Reached(w) && Ends(job, w, now, n)
    ensures var r := AgentPart(job, w, now, n);
            r.err == NoError && r.res.wakeup.Some? ==> r.now + r.res.wakeup.value.delay >= now + job.timeout
  {
    var k := RunIsItsTurns(job, w, now, Opening(w), n);
    var r := AgentPart(job, w, now, n);
    if r.err == NoError {
      WakesIff(job, w, now, Opening(w), k, r);
    }
  }

  /**
    All that a run publishes that reaches the agent: the opening, the turns up to the last one taken with
    their wakeups, the wakeup whose sleep was cut short, and, unless the last turn goes on, the completion with
    the last message and session.
  */
  lemma PublishedIsTurns(job: Job, w: World, now: int, n: nat) returns (k: nat)
    requires Reached(w)
    ensures k <= n && AllGoOn(w.turns, now, now + job.timeout, k)
    ensures forall i: nat :: i < k ==> w.turns(i).res.wakeup.Some?
    ensures var asks := AsksInTime(w.turns, now, now + job.timeout, k);
            && (asks && k < n ==> w.turns(k).cancelledAsleep)
            && EventsOf(job, w, now, n) ==
               [Started] + (if w.worktree then [WorktreeReady] else [])
               + Log(job, w.turns, k) + TurnEvents(job, w.turns, k)
               + (if asks && k < n then [WakeupOf(job, w.turns, k)] else [])
               + (if asks && k == n then []
                  else [Completed(StatusPublished(job, w, now, n), MessageAt(w.turns, k), SessionAt(job, w.turns, k))])
  {
    hide AsksInTime, CutShort, JustAfter, AllGoOn, Log, TurnEvents, MessageAt, SessionAt, AgentRun, EventsOf,
        StatusPublished;
    k := RunIsItsTurns(job, w, now, Opening(w), n);
    var r := AgentPart(job, w, now, n);
    assert Opening(w) == [Started] + if w.worktree then [WorktreeReady] else [];
    hide AgentPart, Opening;
    EndsWith(job, w, now, n, r);
    if AsksInTime(w.turns, now, now + job.timeout, k) && k < n {
      CutsAreOver(job, w, now, k, r);
    } else {
      JustAfterTells(job, w, now, k, r);
      WakesIff(job, w, now, Opening(w), k, r);
      var events := Opening(w) + Log(job, w.turns, k) + TurnEvents(job, w.turns, k);
      assert events + [] == events;
    }
  }

  lemma JustAfterTells(job: Job, w: World, now: int, k: nat, r: Run)
    requires JustAfter(job, w, now, Opening(w), k, r)
    ensures AllGoOn(w.turns, now, now + job.timeout, k) && (forall i: nat :: i < k ==> w.turns(i).res.wakeup.Some?)
    ensures r.message == MessageAt(w.turns, k) && r.session == SessionAt(job, w.turns, k)
    ensures r.events == Opening(w) + Log(job, w.turns, k) + TurnEvents(job, w.turns, k)
  {
    hide AllGoOn, Log, TurnEvents, Opening;
  }

  lemma CutsAreOver(job: Job, w: World, now: int, k: nat, r: Run)
    requires CutShort(job, w, now, Opening(w), k, r)
    ensures !Wakes(r, now + job.timeout) && w.turns(k).cancelledAsleep && w.turns(k).res.wakeup.Some?
    ensures AllGoOn(w.turns, now, now + job.timeout, k) && (forall i: nat :: i < k ==> w.turns(i).res.wakeup.Some?)
    ensures r.message == MessageAt(w.turns, k) && r.session == SessionAt(job, w.turns, k)
    ensures r.events ==
            Opening(w) + Log(job, w.turns, k) + TurnEvents(job, w.turns, k) + [WakeupOf(job, w.turns, k)]
  {
    hide Log, TurnEvents, Opening;
  }

  lemma EndsWith(job: Job, w: World, now: int, n: nat, r: Run)
    requires Reached(w) && r == AgentPart(job, w, now, n)
    ensures Wakes(r, now + job.timeout) ==> EventsOf(job, w, now, n) == r.events
    ensures !Wakes(r, now + job.timeout) ==>
              EventsOf(job, w, now, n) == r.events + [Completed(StatusPublished(job, w, now, n), r.message, r.session)]
  {
    hide AgentPart, StatusOf, Wakes;
  }

  // ---- before the agent ----

  ghost predicate OnlyTurns(events: seq<Event>) {
    forall i :: 0 <= i < |events| ==> events[i].SessionStarted? || events[i].TurnCompleted? || events[i].WakeupSet?
  }

  lemma {:induction false} LogIsTurns(job: Job, turns: nat -> AgentTurn, k: nat)
    requires forall i: nat :: i < k ==> turns(i).res.wakeup.Some?
    ensures OnlyTurns(Log(job, turns, k))
  {
    if k > 0 {
      LogIsTurns(job, turns, k - 1);
    }
  }

  /** What the agent's part adds is only about turns. */
  lemma AgentAddsTurns(job: Job, w: World, now: int, events: seq<Event>, n: nat) returns (added: seq<Event>)
    ensures AgentRun(job, w, now, events, n).events == events + added && OnlyTurns(added)
  {
    var k := RunIsItsTurns(job, w, now, events, n);
    var turns, deadline := w.turns, now + job.timeout;
    hide Clocked, AgentRun, ErrAt, BeginAt, BegunAt, SessionAt, MessageAt;
    LogIsTurns(job, turns, k);
    added := Log(job, turns, k) + TurnEvents(job, turns, k);
    Associative(events, Log(job, turns, k), TurnEvents(job, turns, k));
    if AsksInTime(turns, now, deadline, k) && k < n {
      Associative(events, added, [WakeupOf(job, turns, k)]);
      added := added + [WakeupOf(job, turns, k)];
    }
  }

  /**
    Every run starts; the command published as failed is the first that fails; and the worktree is
    announced exactly if no command fails and there is one.
  */
  lemma OpeningReads(job: Job, w: World, now: int, n: nat)
    ensures var events := EventsOf(job, w, now, n);
            && events != [] && events[0] == Started
            && (forall i: nat :: PreFailed(i) in events <==>
                  i < |w.preExec| && !w.preExec[i] && forall j :: 0 <= j < i ==> w.preExec[j])
            && (WorktreeReady in events <==> AllPass(w.preExec) && w.worktree)
  {
    FirstFailureReads(w.preExec, 0);
    if Reached(w) {
      var added := AgentAddsTurns(job, w, now, Opening(w), n);
      hide AgentRun, StatusOf, Wakes, FirstFailure, Opening;
      var last := EventsOf(job, w, now, n)[|Opening(w) + added|..];
      assert EventsOf(job, w, now, n) == Opening(w) + added + last;
      OpeningThenTurns(w, added, last);
    }
  }

  lemma OpeningThenTurns(w: World, added: seq<Event>, last: seq<Event>)
    requires OnlyTurns(added) && |last| <= 1 && forall i :: 0 <= i < |last| ==> last[i].Completed?
    ensures var events := Opening(w) + added + last;
            events[0] == Started && (forall i: nat :: PreFailed(i) !in events)
                && (WorktreeReady in events <==> w.worktree)
  {
    var events := Opening(w) + added + last;
    assert w.worktree ==> events[1] == WorktreeReady;
    forall e | e in added + last ensures !e.PreFailed? && e != WorktreeReady {
    }
    assert events == Opening(w) + (added + last);
  }

  /** Durations in whole seconds, cut towards zero. */
  lemma SecondsRead(x: int)
    ensures var rest := x - TruncDiv(x, SECOND) * 1_000_000_000;
            -1_000_000_000 < rest < 1_000_000_000 && (x >= 0 ==> rest >= 0) && (x <= 0 ==> rest <= 0)
  {
  }
}
