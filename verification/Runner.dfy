/**
  One job run (internal/runner/runner.go), from the opened log on: pre_exec, worktree, the
  agent's turns with their wakeups, and the events published on the way. What commands and
  the agent do, and how long things take, are parameters. The agent's turns are unbounded, so
  a run is looked at over a horizon: a number of wakeups, after which it may still go on.
*/
module Runner {
  import opened Common

  datatype Err = NoError | DeadlineExceeded | Other

  /** Delays and times count nanoseconds. */
  datatype Wakeup = Wakeup(delay: int, prompt: string)

  datatype Result = Result(sessionId: string, finalMessage: string, wakeup: Option<Wakeup>, err: Err)

  /** A turn of the agent, how long it takes, and what becomes of the sleep after it. */
  datatype AgentTurn = AgentTurn(res: Result, took: nat, cancelledAsleep: bool, overslept: nat)

  datatype Job = Job(prompt: string, resume: string, timeout: int)

  datatype World = World(envFails: bool, preExec: seq<bool>, worktree: bool, agentFound: bool,
                         turns: nat -> AgentTurn, cancelled: bool)

  datatype Status = OK | PreFailure | Failed | Stopped | Timeout

  datatype Event =
    | Started
    | PreFailed(command: nat)
    | WorktreeReady
    | SessionStarted(id: string)
    | TurnCompleted(message: string, id: string)
    | WakeupSet(seconds: int, prompt: string)
    | Completed(status: Status, message: string, id: string)

  // ---- the agent's turns as a function ----

  datatype Run = Run(now: int, session: string, announced: bool, message: string,
                     res: Result, err: Err, cancelled: bool, honoured: seq<int>, begun: seq<int>, events: seq<Event>)

  function Announce(session: string, announced: bool): seq<Event> {
    if announced || session == "" then [] else [SessionStarted(session)]
  }

  /** Every call is given what is left until the deadline, and fails when nothing is. */
  function CallError(t: AgentTurn, now: int, deadline: int): Err {
    if now >= deadline && t.res.err == NoError then DeadlineExceeded else t.res.err
  }

  /** One call of the agent. */
  function Called(r: Run, t: AgentTurn, deadline: int): Run {
    r.(now := r.now + t.took, res := t.res, err := CallError(t, r.now, deadline), begun := r.begun + [r.now])
  }

  /** What follows it; `resume` stands in when it names no session. */
  function Noted(r: Run, resume: string): Run {
    var session := if r.res.sessionId != "" then r.res.sessionId else resume;
    r.(session := session, announced := r.announced || session != "",
       message := if r.res.finalMessage != "" then r.res.finalMessage else r.message,
       events := r.events + Announce(session, r.announced) + [TurnCompleted(r.res.finalMessage, session)])
  }

  function Turn(r: Run, t: AgentTurn, resume: string, deadline: int): Run { Noted(Called(r, t, deadline), resume) }

  const DYNAMIC := "<<autonomous-loop-dynamic>>"

  function ResumePrompt(job: Job, w: Wakeup): string {
    if w.prompt == "" || w.prompt == DYNAMIC then job.prompt else w.prompt
  }

  /** Division of durations cuts towards zero. */
  function TruncDiv(x: int, y: int): int
    requires y > 0
  {
    if x >= 0 then x / y else -(-x / y)
  }

  /** A wakeup accepted: announced and slept through, or cut short by a cancellation. */
  function Sleep(job: Job, r: Run, t: AgentTurn): Run
    requires r.res.wakeup.Some?
  {
    var w := r.res.wakeup.value;
    var s := r.(honoured := r.honoured + [w.delay],
                events := r.events + [WakeupSet(TruncDiv(w.delay, SECOND), ResumePrompt(job, w))]);
    if t.cancelledAsleep then s.(err := Other, cancelled := true)
    else s.(now := r.now + (if w.delay > 0 then w.delay else 0) + t.overslept)
  }

  /** The loop goes round once more. */
  predicate Wakes(r: Run, deadline: int) {
    r.res.wakeup.Some? && r.err == NoError && r.res.wakeup.value.delay < deadline - r.now
  }

  /** The wakeup loop from the end of turn k on, for at most n more wakeups. */
  function Loop(job: Job, turns: nat -> AgentTurn, r: Run, k: nat, deadline: int, n: nat): Run
    decreases n
  {
    if n == 0 || !Wakes(r, deadline) then r else
      var s := Sleep(job, r, turns(k));
      if s.err != NoError then s
      else Loop(job, turns, Turn(s, turns(k + 1), s.session, deadline), k + 1, deadline, n - 1)
  }

  function Fresh(now: int, cancelled: bool, events: seq<Event>): Run {
    Run(now, "", false, "", Result("", "", None, NoError), NoError, cancelled, [], [], events)
  }

  function FirstTurn(job: Job, w: World, now: int, events: seq<Event>): Run {
    Turn(Fresh(now, w.cancelled, events), w.turns(0), job.resume, now + job.timeout)
  }

  function AgentRun(job: Job, w: World, now: int, events: seq<Event>, n: nat): Run {
    Loop(job, w.turns, FirstTurn(job, w, now, events), 0, now + job.timeout, n)
  }

  function StatusOf(r: Run, before: Status): Status {
    if r.err == NoError then before
    else if r.cancelled then Stopped
    else if r.err == DeadlineExceeded then Timeout
    else Failed
  }

  /** The first failing pre_exec command, or their number. */
  function FirstFailure(preExec: seq<bool>, k: nat): (i: nat)
    requires k <= |preExec|
    ensures i <= |preExec|
    decreases |preExec| - k
  {
    if k == |preExec| || !preExec[k] then k else FirstFailure(preExec, k + 1)
  }

  function Opening(w: World): seq<Event> { [Started] + (if w.worktree then [WorktreeReady] else []) }

  /** Every pre_exec command succeeds and the agent is found. */
  predicate Reached(w: World) { w.agentFound && FirstFailure(w.preExec, 0) == |w.preExec| }

  /** The agent's part of a run that reaches it. */
  function AgentPart(job: Job, w: World, now: int, n: nat): Run { AgentRun(job, w, now, Opening(w), n) }

  /** The run is over within n wakeups. */
  predicate Ends(job: Job, w: World, now: int, n: nat) {
    Reached(w) ==> !Wakes(AgentPart(job, w, now, n), now + job.timeout)
  }

  /** Everything a run publishes within n wakeups. */
  function EventsOf(job: Job, w: World, now: int, n: nat): seq<Event> {
    var k := FirstFailure(w.preExec, 0);
    if k < |w.preExec| then [Started, PreFailed(k), Completed(PreFailure, "", "")]
    else
      var status := if w.envFails then PreFailure else OK;
      if !w.agentFound then Opening(w) + [Completed(Failed, "", "")]
      else
        var r := AgentPart(job, w, now, n);
        if Wakes(r, now + job.timeout) then r.events
        else r.events + [Completed(StatusOf(r, status), r.message, r.session)]
  }

  // ---- the run as it runs ----

  class JobRun {
    var now: int
    var sessionId: string
    var announced: bool
    var finalMsg: string
    var res: Result
    var runErr: Err
    var cancelled: bool
    var honoured: seq<int>
    var begun: seq<int>
    var published: seq<Event>

    function View(): Run
      reads this
    {
      Run(now, sessionId, announced, finalMsg, res, runErr, cancelled, honoured, begun, published)
    }

    constructor (now: int, cancelled: bool)
      ensures View() == Fresh(now, cancelled, [])
    {
      this.now, this.cancelled := now, cancelled;
      sessionId, announced, finalMsg, honoured, begun, published := "", false, "", [], [], [];
      res, runErr := Result("", "", None, NoError), NoError;
    }

    method Publish(e: Event)
      modifies this`published
      ensures published == old(published) + [e]
    {
      published := published + [e];
    }

    method AnnounceSession()
      modifies this`published, this`announced
      ensures announced == (old(announced) || sessionId != "")
      ensures published == old(published) + Announce(sessionId, old(announced))
    {
      if !announced && sessionId != "" {
        Publish(SessionStarted(sessionId));
        announced := true;
      } else {
        assert published + [] == published;
      }
    }

    method CallAgent(t: AgentTurn, deadline: int)
      modifies this`now, this`res, this`runErr, this`begun
      ensures View() == Called(old(View()), t, deadline)
    {
      begun := begun + [now];
      runErr := t.res.err;
      if now >= deadline && runErr == NoError {
        runErr := DeadlineExceeded;
      }
      now, res := now + t.took, t.res;
    }

    method NoteTurn(resume: string)
      modifies this`sessionId, this`announced, this`finalMsg, this`published
      ensures View() == Noted(old(View()), resume)
    {
      hide Announce;
      if res.sessionId != "" {
        sessionId := res.sessionId;
      } else {
        sessionId := resume;
      }
      AnnounceSession();
      Publish(TurnCompleted(res.finalMessage, sessionId));
      if res.finalMessage != "" {
        finalMsg := res.finalMessage;
      }
    }

    method SleepUntilWakeup(job: Job, t: AgentTurn)
      requires res.wakeup.Some?
      modifies this
      ensures View() == Sleep(job, old(View()), t)
    {
      var delay := res.wakeup.value.delay;
      var prompt := res.wakeup.value.prompt;
      if prompt == "" || prompt == DYNAMIC {
        prompt := job.prompt;
      }
      Publish(WakeupSet(TruncDiv(delay, SECOND), prompt));
      honoured := honoured + [delay];
      if t.cancelledAsleep {
        runErr, cancelled := Other, true;
      } else {
        now := now + (if delay > 0 then delay else 0) + t.overslept;
      }
    }

    /** The wakeup loop, watched for n wakeups. */
    method RunAgent(job: Job, w: World, n: nat) returns (ended: bool)
      requires View() == Fresh(now, w.cancelled, published)
      modifies this
      ensures View() == AgentRun(job, w, old(now), old(published), n)
      ensures ended <==> !Wakes(View(), old(now) + job.timeout)
    {
      hide Called, Noted, Sleep;
      var deadline := now + job.timeout;
      CallAgent(w.turns(0), deadline);
      NoteTurn(job.resume);
      var k, left := 0, n;
      ghost var all := Loop(job, w.turns, View(), 0, deadline, n);
      while res.wakeup.Some? && runErr == NoError
        invariant Loop(job, w.turns, View(), k, deadline, left) == all
        decreases left, if runErr == NoError then 1 else 0
      {
        if res.wakeup.value.delay >= deadline - now {
          break;
        }
        if left == 0 {
          return false;
        }
        SleepUntilWakeup(job, w.turns(k));
        if runErr != NoError {
          break;
        }
        k, left := k + 1, left - 1;
        CallAgent(w.turns(k), deadline);
        NoteTurn(sessionId);
      }
      return true;
    }

    method RunJob(job: Job, w: World, n: nat) returns (ended: bool)
      requires View() == Fresh(now, w.cancelled, [])
      modifies this
      ensures published == EventsOf(job, w, old(now), n)
      ensures ended <==> Ends(job, w, old(now), n)
    {
      var status := OK;
      Publish(Started);
      if w.envFails {
        status := PreFailure;
      }
      var k := 0;
      while k < |w.preExec|
        invariant k <= |w.preExec| && FirstFailure(w.preExec, k) == FirstFailure(w.preExec, 0)
        invariant View() == old(View()).(events := [Started])
      {
        if !w.preExec[k] {
          Publish(PreFailed(k));
          Publish(Completed(PreFailure, finalMsg, sessionId));
          return true;
        }
        k := k + 1;
      }
      if w.worktree {
        Publish(WorktreeReady);
      }
      assert published == Opening(w);
      if !w.agentFound {
        Publish(Completed(Failed, finalMsg, sessionId));
        return true;
      }
      ended := RunAgent(job, w, n);
      if ended {
        if runErr != NoError {
          status := if cancelled then Stopped else if runErr == DeadlineExceeded then Timeout else Failed;
        }
        Publish(Completed(status, finalMsg, sessionId));
      }
    }
  }

  // ---- the order of events ----

  datatype Where = Unstarted | Running | Failing | Ready | Announced | AfterTurn | AfterWakeup | Done | Broken

  /**
    started (pre_failed | worktree_ready? (session_started? turn (wakeup session_started? turn)*
    wakeup?)?) completed
  */
  function After(w: Where, e: Event): Where {
    match e
    case Started => if w == Unstarted then Running else Broken
    case PreFailed(_) => if w == Running then Failing else Broken
    case WorktreeReady => if w == Running then Ready else Broken
    case SessionStarted(_) => if w in {Running, Ready, AfterWakeup} then Announced else Broken
    case TurnCompleted(_, _) => if w in {Running, Ready, Announced, AfterWakeup} then AfterTurn else Broken
    case WakeupSet(_, _) => if w == AfterTurn then AfterWakeup else Broken
    case Completed(_, _, _) => if w in {Running, Failing, Ready, AfterTurn, AfterWakeup} then Done else Broken
  }

  function Read(events: seq<Event>): Where {
    if events == [] then Unstarted else After(Read(events[..|events| - 1]), events[|events| - 1])
  }

  function Sessions(events: seq<Event>): nat {
    if events == [] then 0 else
      Sessions(events[..|events| - 1]) + (if events[|events| - 1].SessionStarted? then 1 else 0)
  }

  /** The last non-empty message of a turn. */
  function LastMessage(events: seq<Event>): string {
    if events == [] then "" else
      var last := events[|events| - 1];
      if last.TurnCompleted? && last.message != "" then last.message else LastMessage(events[..|events| - 1])
  }

  /** The session of the last turn. */
  function LastSession(events: seq<Event>): string {
    if events == [] then "" else
      var last := events[|events| - 1];
      if last.TurnCompleted? then last.id else LastSession(events[..|events| - 1])
  }

  lemma Snoc(events: seq<Event>, e: Event)
    ensures Read(events + [e]) == After(Read(events), e)
    ensures Sessions(events + [e]) == Sessions(events) + (if e.SessionStarted? then 1 else 0)
    ensures LastMessage(events + [e]) == if e.TurnCompleted? && e.message != "" then e.message else LastMessage(events)
    ensures LastSession(events + [e]) == if e.TurnCompleted? then e.id else LastSession(events)
  {
    assert (events + [e])[..|events|] == events;
  }

  /** What the published events say about the run so far. */
  predicate Tells(r: Run, w: Where) {
    && Read(r.events) == w
    && Sessions(r.events) == (if r.announced then 1 else 0)
    && r.message == LastMessage(r.events) && r.session == LastSession(r.events)
    && (r.session != "" ==> r.announced)
  }

  lemma AnnounceTells(events: seq<Event>, session: string, announced: bool)
    requires Read(events) in {Running, Ready, AfterWakeup}
    ensures var all := events + Announce(session, announced);
            && Read(all) in {Running, Ready, AfterWakeup, Announced}
            && Sessions(all) == Sessions(events) + (if announced || session == "" then 0 else 1)
            && LastMessage(all) == LastMessage(events)
  {
    if announced || session == "" {
      assert events + [] == events;
    } else {
      Snoc(events, SessionStarted(session));
    }
  }

  lemma TurnTells(r: Run, t: AgentTurn, resume: string, deadline: int, w: Where)
    requires Tells(r, w) && w in {Running, Ready, AfterWakeup}
    ensures Tells(Turn(r, t, resume, deadline), AfterTurn)
  {
    var s := Turn(r, t, resume, deadline);
    AnnounceTells(r.events, s.session, r.announced);
    Snoc(r.events + Announce(s.session, r.announced), TurnCompleted(t.res.finalMessage, s.session));
  }

  lemma SleepTells(job: Job, r: Run, t: AgentTurn)
    requires Tells(r, AfterTurn) && r.res.wakeup.Some?
    ensures Tells(Sleep(job, r, t), AfterWakeup)
  {
    var w := r.res.wakeup.value;
    Snoc(r.events, WakeupSet(TruncDiv(w.delay, SECOND), ResumePrompt(job, w)));
  }

  lemma {:induction false} LoopTells(job: Job, turns: nat -> AgentTurn, r: Run, k: nat, deadline: int, n: nat)
    requires Tells(r, AfterTurn)
    ensures var s := Loop(job, turns, r, k, deadline, n);
            Tells(s, AfterTurn) || (Tells(s, AfterWakeup) && s.err != NoError)
    decreases n
  {
    hide Tells, Turn, Sleep;
    if n > 0 && Wakes(r, deadline) {
      SleepTells(job, r, turns(k));
      var s := Sleep(job, r, turns(k));
      if s.err == NoError {
        TurnTells(s, turns(k + 1), s.session, deadline, AfterWakeup);
        LoopTells(job, turns, Turn(s, turns(k + 1), s.session, deadline), k + 1, deadline, n - 1);
      }
    }
  }

  lemma OpeningTells(now: int, w: World)
    ensures Tells(Fresh(now, w.cancelled, Opening(w)), if w.worktree then Ready else Running)
  {
    var none: seq<Event> := [];
    assert none + [Started] == [Started];
    Snoc(none, Started);
    if w.worktree {
      Snoc([Started], WorktreeReady);
    } else {
      assert [Started] + [] == [Started];
    }
  }

  lemma FirstTurnTells(job: Job, w: World, now: int)
    ensures Tells(FirstTurn(job, w, now, Opening(w)), AfterTurn)
  {
    hide Tells, Turn, Opening;
    OpeningTells(now, w);
    TurnTells(Fresh(now, w.cancelled, Opening(w)), w.turns(0), job.resume, now + job.timeout,
              if w.worktree then Ready else Running);
  }

  lemma AgentPartTells(job: Job, w: World, now: int, n: nat)
    ensures var r := AgentPart(job, w, now, n);
            Tells(r, AfterTurn) || (Tells(r, AfterWakeup) && r.err != NoError)
  {
    hide Tells, Turn;
    FirstTurnTells(job, w, now);
    LoopTells(job, w.turns, FirstTurn(job, w, now, Opening(w)), 0, now + job.timeout, n);
  }

  /** What a run that is over has published. */
  predicate WellCompleted(events: seq<Event>) {
    && events != []
    && Read(events) == Done && Sessions(events) <= 1
    && var last := events[|events| - 1];
    last.Completed? && last.message == LastMessage(events) && last.id == LastSession(events)
  }

  lemma CompletedTells(events: seq<Event>, e: Event)
    requires e.Completed? && Sessions(events) <= 1 && e.message == LastMessage(events) && e.id == LastSession(events)
    requires Read(events) in {Running, Failing, Ready, AfterTurn, AfterWakeup}
    ensures WellCompleted(events + [e])
  {
    Snoc(events, e);
  }

  /**
    The events of every run follow the pattern, with at most one session_started, right before
    a turn; a run that is over completes with the last non-empty message and the last turn's
    session, and one that is not has just finished a turn.
  */
  lemma EventsFollowPattern(job: Job, w: World, now: int, n: nat)
    ensures var events := EventsOf(job, w, now, n);
            if Ends(job, w, now, n) then WellCompleted(events) else Read(events) == AfterTurn && Sessions(events) <= 1
  {
    var k := FirstFailure(w.preExec, 0);
    if k < |w.preExec| {
      PreFailedTells(now, w, k);
    } else if !w.agentFound {
      OpeningTells(now, w);
      CompletedTells(Opening(w), Completed(Failed, "", ""));
    } else {
      AgentPartTells(job, w, now, n);
      var r := AgentPart(job, w, now, n);
      if Ends(job, w, now, n) {
        CompletedTells(r.events, Completed(StatusOf(r, if w.envFails then PreFailure else OK), r.message, r.session));
      }
    }
  }

  lemma PreFailedTells(now: int, w: World, k: nat)
    ensures WellCompleted([Started, PreFailed(k), Completed(PreFailure, "", "")])
  {
    OpeningTells(now, w.(worktree := false));
    assert [Started] + [] == [Started];
    Snoc([Started], PreFailed(k));
    assert [Started] + [PreFailed(k)] == [Started, PreFailed(k)];
    CompletedTells([Started, PreFailed(k)], Completed(PreFailure, "", ""));
    assert [Started, PreFailed(k)] + [Completed(PreFailure, "", "")] ==
        [Started, PreFailed(k), Completed(PreFailure, "", "")];
  }

  // ---- time ----

  function Sum(s: seq<int>): int { if s == [] then 0 else Sum(s[..|s| - 1]) + s[|s| - 1] }

  lemma SleepInTime(job: Job, r: Run, t: AgentTurn, start: int, deadline: int)
    requires Wakes(r, deadline) && start + Sum(r.honoured) <= r.now
    ensures start + Sum(Sleep(job, r, t).honoured) < deadline
    ensures !t.cancelledAsleep ==> start + Sum(Sleep(job, r, t).honoured) <= Sleep(job, r, t).now
  {
    assert (r.honoured + [r.res.wakeup.value.delay])[..|r.honoured|] == r.honoured;
  }

  lemma {:induction false} LoopInTime(job: Job, turns: nat -> AgentTurn, r: Run, k: nat, start: int, deadline: int,
      n: nat)
    requires start + Sum(r.honoured) <= r.now && (r.honoured != [] ==> start + Sum(r.honoured) < deadline)
    ensures var s := Loop(job, turns, r, k, deadline, n);
            s.honoured != [] ==> start + Sum(s.honoured) < deadline
    decreases n
  {
    if n > 0 && Wakes(r, deadline) {
      SleepInTime(job, r, turns(k), start, deadline);
      var s := Sleep(job, r, turns(k));
      if s.err == NoError {
        LoopInTime(job, turns, Turn(s, turns(k + 1), s.session, deadline), k + 1, start, deadline, n - 1);
      }
    }
  }

  /** Whatever the agent asks for and however long it takes, the delays honoured add up to less than the timeout. */
  lemma HonouredDelaysFit(job: Job, w: World, now: int, events: seq<Event>, n: nat)
    ensures var r := AgentRun(job, w, now, events, n);
            r.honoured != [] ==> Sum(r.honoured) < job.timeout
  {
    LoopInTime(job, w.turns, FirstTurn(job, w, now, events), 0, now, now + job.timeout, n);
  }

  ghost predicate AtLeast(s: seq<int>, d: int) { forall i :: 0 <= i < |s| ==> s[i] >= d }

  /** No turn asks for a delay shorter than d. */
  ghost predicate Asks(turns: nat -> AgentTurn, d: int) {
    forall k :: turns(k).res.wakeup.Some? ==> turns(k).res.wakeup.value.delay >= d
  }

  lemma {:induction false} SumAtLeast(s: seq<int>, d: nat)
    requires AtLeast(s, d)
    ensures Sum(s) >= |s| * d
  {
    if s != [] {
      SumAtLeast(s[..|s| - 1], d);
    }
  }

  lemma {:induction false} LoopHonours(job: Job, turns: nat -> AgentTurn, r: Run, k: nat, deadline: int, d: int, n: nat)
    requires r.res == turns(k).res && AtLeast(r.honoured, d) && Asks(turns, d)
    ensures AtLeast(Loop(job, turns, r, k, deadline, n).honoured, d)
    decreases n
  {
    if n > 0 && Wakes(r, deadline) {
      var s := Sleep(job, r, turns(k));
      if s.err == NoError {
        LoopHonours(job, turns, Turn(s, turns(k + 1), s.session, deadline), k + 1, deadline, d, n - 1);
      }
    }
  }

  /** So with delays of at least a second there are fewer wakeups than the timeout has seconds. */
  lemma WakeupsAreBounded(job: Job, w: World, now: int, events: seq<Event>, n: nat)
    requires Asks(w.turns, SECOND)
    ensures var r := AgentRun(job, w, now, events, n);
            r.honoured != [] ==> |r.honoured| * SECOND < job.timeout
  {
    var r := AgentRun(job, w, now, events, n);
    HonouredDelaysFit(job, w, now, events, n);
    LoopHonours(job, w.turns, FirstTurn(job, w, now, events), 0, now + job.timeout, SECOND, n);
    SumAtLeast(r.honoured, SECOND);
  }

  /** From the end of a turn to the end of the next time passes: in the sleep or in the turn. */
  ghost predicate TimePasses(turns: nat -> AgentTurn) {
    forall k: nat ::
      turns(k + 1).took > 0 || turns(k).overslept > 0
      || (turns(k).res.wakeup.Some? ==> turns(k).res.wakeup.value.delay > 0)
  }

  lemma RoundTakesTime(job: Job, turns: nat -> AgentTurn, r: Run, k: nat, deadline: int)
    requires r.res == turns(k).res && TimePasses(turns) && Wakes(r, deadline)
    ensures var s := Sleep(job, r, turns(k));
            s.err == NoError ==>
              s.now >= r.now && Turn(s, turns(k + 1), s.session, deadline).now > r.now
  {
  }

  lemma {:induction false} LoopEnds(job: Job, turns: nat -> AgentTurn, r: Run, k: nat, deadline: int, n: nat)
    requires r.res == turns(k).res && TimePasses(turns)
    requires r.err == NoError ==> n > deadline - r.now && n > 0
    ensures !Wakes(Loop(job, turns, r, k, deadline, n), deadline)
    decreases n
  {
    if n > 0 && Wakes(r, deadline) {
      var s := Sleep(job, r, turns(k));
      if s.err == NoError {
        RoundTakesTime(job, turns, r, k, deadline);
        LoopEnds(job, turns, Turn(s, turns(k + 1), s.session, deadline), k + 1, deadline, n - 1);
      }
    }
  }

  /**
    Whatever the agent asks for, delays that wrap to nothing or below included, and however
    often: the wakeup loop ends, for a call made when the deadline has passed fails.
  */
  lemma RunEnds(job: Job, w: World, now: int, n: nat)
    requires TimePasses(w.turns) && n > job.timeout
    ensures Ends(job, w, now, n)
  {
    LoopEnds(job, w.turns, FirstTurn(job, w, now, Opening(w)), 0, now + job.timeout, n);
  }

  /** All but the last of some calls began before the deadline, and if that did not, it failed. */
  predicate BegunInTime(r: Run, deadline: int) {
    && (forall i :: 0 <= i < |r.begun| - 1 ==> r.begun[i] < deadline)
    && (r.err == NoError && r.begun != [] ==> r.begun[|r.begun| - 1] < deadline)
  }

  lemma {:induction false} LoopBeginsInTime(job: Job, turns: nat -> AgentTurn, r: Run, k: nat, deadline: int, n: nat)
    requires BegunInTime(r, deadline)
    ensures BegunInTime(Loop(job, turns, r, k, deadline, n), deadline)
    decreases n
  {
    if n > 0 && Wakes(r, deadline) {
      var s := Sleep(job, r, turns(k));
      if s.err == NoError {
        LoopBeginsInTime(job, turns, Turn(s, turns(k + 1), s.session, deadline), k + 1, deadline, n - 1);
      }
    }
  }

  /** No turn follows one begun at or after the deadline, and such a turn ends the run with an error. */
  lemma TurnsBeginInTime(job: Job, w: World, now: int, events: seq<Event>, n: nat)
    ensures BegunInTime(AgentRun(job, w, now, events, n), now + job.timeout)
  {
    LoopBeginsInTime(job, w.turns, FirstTurn(job, w, now, events), 0, now + job.timeout, n);
  }

  /** time.Duration(seconds) * time.Second, in 64 bits. */
  function ToDuration(seconds: int): int { Wrap64(seconds * SECOND) }

  /** A positive number of seconds becomes the delay it says exactly up to 9223372036. */
  lemma DelayIsMeantIff(seconds: int)
    requires 0 < seconds < TWO_63
    ensures ToDuration(seconds) == seconds * SECOND <==> seconds <= 9_223_372_036
  {
  }

  /** Beyond, it can even be no delay at all. */
  lemma DelayCanVanish()
    ensures ToDuration(0x80_0000_0000_0000) == 0
  {
  }

  // ---- the status ----

  ghost predicate HasTurn(events: seq<Event>) { exists i :: 0 <= i < |events| && events[i].TurnCompleted? }

  lemma SleepExtends(job: Job, r: Run, t: AgentTurn)
    requires r.res.wakeup.Some?
    ensures r.events <= Sleep(job, r, t).events
  {
  }

  lemma TurnExtends(r: Run, t: AgentTurn, resume: string, deadline: int)
    ensures r.events <= Turn(r, t, resume, deadline).events
  {
  }

  lemma {:induction false} LoopExtends(job: Job, turns: nat -> AgentTurn, r: Run, k: nat, deadline: int, n: nat)
    ensures r.events <= Loop(job, turns, r, k, deadline, n).events
    decreases n
  {
    hide Sleep, Turn;
    if n > 0 && Wakes(r, deadline) {
      var s := Sleep(job, r, turns(k));
      SleepExtends(job, r, turns(k));
      TurnExtends(s, turns(k + 1), s.session, deadline);
      if s.err == NoError {
        LoopExtends(job, turns, Turn(s, turns(k + 1), s.session, deadline), k + 1, deadline, n - 1);
      }
    }
  }

  /** The agent takes turns exactly when it is reached: a failed env resolution does not stop it. */
  lemma AgentRunsIff(job: Job, w: World, now: int, n: nat)
    ensures HasTurn(EventsOf(job, w, now, n)) <==> Reached(w)
  {
    if Reached(w) {
      var first := FirstTurn(job, w, now, Opening(w));
      LoopExtends(job, w.turns, first, 0, now + job.timeout, n);
      var i := |first.events| - 1;
      assert first.events[i].TurnCompleted?;
      assert EventsOf(job, w, now, n)[i] == first.events[i];
    }
  }

  lemma {:induction false} FirstFailureReads(preExec: seq<bool>, k: nat)
    requires k <= |preExec|
    ensures var i := FirstFailure(preExec, k);
            && k <= i <= |preExec| && (forall j :: k <= j < i ==> preExec[j])
            && (i < |preExec| ==> !preExec[i])
    decreases |preExec| - k
  {
    if k < |preExec| && preExec[k] {
      FirstFailureReads(preExec, k + 1);
    }
  }

  ghost predicate AllPass(preExec: seq<bool>) { forall j :: 0 <= j < |preExec| ==> preExec[j] }

  function StatusPublished(job: Job, w: World, now: int, n: nat): Status {
    var events := EventsOf(job, w, now, n);
    if events != [] && events[|events| - 1].Completed? then events[|events| - 1].status else OK
  }

  /**
    The status of a run that is over. An error of the agent masks a failed env resolution, and
    a cancellation masks what the error was.
  */
  lemma StatusMeans(job: Job, w: World, now: int, n: nat)
    requires Ends(job, w, now, n)
    ensures var status, r := StatusPublished(job, w, now, n), AgentPart(job, w, now, n);
            var passed := AllPass(w.preExec);
            && (status == OK <==> passed && w.agentFound && r.err == NoError && !w.envFails)
            && (status == PreFailure <==> !passed || (w.agentFound && r.err == NoError && w.envFails))
            && (status == Failed <==> passed && (!w.agentFound || (r.err == Other && !r.cancelled)))
            && (status == Timeout <==> passed && w.agentFound && r.err == DeadlineExceeded && !r.cancelled)
            && (status == Stopped <==> passed && w.agentFound && r.err != NoError && r.cancelled)
  {
    FirstFailureReads(w.preExec, 0);
  }
}
