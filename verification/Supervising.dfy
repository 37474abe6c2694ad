/** The supervise loop itself: spawn, wait, judge the exit, back off, respawn. */
module Supervising {
  import opened Supervisor

  datatype Status = Stopped | Starting | Running | InBackoff | Failed

  /**
    One pass of the loop, as the world makes it: whether stop is asked for at the top, while
    the child runs or during backoff; whether the manifest still wants it to run; how the
    child ends; and whether the operator's Start resets the counter meanwhile.
  */
  datatype Turn = Turn(
    stopAtTop: bool, wanted: bool, restart: Restart,
    resetWhileUp: bool, code: int, duration: nat, stopWhileUp: bool,
    resetInBackoff: bool, stopInBackoff: bool)

  datatype Verdict = Unjudged | Healthy(worthy: bool) | Rapid(worthy: bool)

  /** What happens, in order. `limit` is the policy's failure limit when the exit was judged. */
  datatype Happening =
    | Spawned
    | Reset
    | Exited(verdict: Verdict, willRestart: bool, limit: nat)
    | Waited(wait: int)

  datatype Loop = Loop(status: Status, failures: nat, restarts: nat, over: bool, trace: seq<Happening>)

  /** startLoop. */
  function Started(restarts: nat): Loop { Loop(Starting, 0, restarts, false, []) }

  predicate Worthy(e: Restart, code: int) {
    e.policy != Never && (e.policy == Always || code != 0)
  }

  function Judge(e: Restart, t: Turn, threshold: nat): Verdict {
    if t.duration >= threshold then Healthy(Worthy(e, t.code)) else Rapid(Worthy(e, t.code))
  }

  function Counted(failures: nat, v: Verdict): nat {
    if v.Unjudged? then failures
    else if v.Healthy? then 0
    else if v.worthy then failures + 1
    else failures
  }

  function Resets(asked: bool): seq<Happening> { if asked then [Reset] else [] }

  /** Spawning, and the child running to its end. */
  function Up(l: Loop, t: Turn): Loop {
    l.(status := Starting, failures := if t.resetWhileUp then 0 else l.failures,
       trace := l.trace + [Spawned] + Resets(t.resetWhileUp))
  }

  /** Judging the exit. */
  function Down(l: Loop, t: Turn, threshold: nat): Loop {
    var e := EffectiveRestart(t.restart);
    var v := Judge(e, t, threshold);
    var failures := Counted(l.failures, v);
    if t.stopWhileUp then
      l.(status := Stopped, over := true, trace := l.trace + [Exited(Unjudged, false, e.maxFailures)])
    else if v.worthy && failures >= e.maxFailures then
      l.(status := Failed, failures := failures, over := true, trace := l.trace + [Exited(v, false, e.maxFailures)])
    else if !v.worthy then
      l.(status := Stopped, failures := failures, over := true, trace := l.trace + [Exited(v, false, e.maxFailures)])
    else
      l.(status := InBackoff, failures := failures, restarts := l.restarts + 1,
         trace := l.trace + [Exited(v, true, e.maxFailures)])
  }

  function Wait(l: Loop, t: Turn): Loop {
    var e := EffectiveRestart(t.restart);
    var w := l.(failures := if t.resetInBackoff then 0 else l.failures,
                trace := l.trace + [Waited(Backoff(e.initial, e.max, l.failures))] + Resets(t.resetInBackoff));
    if t.stopInBackoff then w.(status := Stopped, over := true) else w
  }

  function Pass(l: Loop, t: Turn, threshold: nat): Loop {
    if l.over then l
    else if t.stopAtTop || !t.wanted then l.(status := Stopped, over := true)
    else
      var d := Down(Up(l, t), t, threshold);
      if d.over then d else Wait(d, t)
  }

  function Passes(l: Loop, turns: seq<Turn>, n: nat, threshold: nat): Loop
    requires n <= |turns|
  {
    if n == 0 then l else Pass(Passes(l, turns, n - 1, threshold), turns[n - 1], threshold)
  }

  class ProcState {
    var status: Status
    var failures: nat
    var restarts: nat
    var trace: seq<Happening>

    function View(over: bool): Loop
      reads this
    {
      Loop(status, failures, restarts, over, trace)
    }

    constructor ()
      ensures status == Stopped && failures == 0 && restarts == 0 && trace == []
    {
      status, failures, restarts, trace := Stopped, 0, 0, [];
    }

    method StartLoop()
      modifies this
      ensures View(false) == Started(old(restarts))
    {
      status, failures, trace := Starting, 0, [];
    }

    method PublishExited(v: Verdict, willRestart: bool, limit: nat)
      modifies this`trace
      ensures trace == old(trace) + [Exited(v, willRestart, limit)]
    {
      trace := trace + [Exited(v, willRestart, limit)];
    }

    method Spawn(t: Turn)
      modifies this
      ensures View(false) == Up(old(View(false)), t)
    {
      status, trace := Starting, trace + [Spawned];
      if t.resetWhileUp {
        failures, trace := 0, trace + [Reset];
      } else {
        assert trace + [] == trace;
      }
    }

    /** Returns whether the loop ends here. */
    method JudgeExit(t: Turn, threshold: nat) returns (over: bool)
      modifies this
      ensures View(over) == Down(old(View(false)), t, threshold)
    {
      var policy := EffectiveRestart(t.restart);
      if t.stopWhileUp {
        status := Stopped;
        PublishExited(Unjudged, false, policy.maxFailures);
        return true;
      }
      var shouldRestart := policy.policy != Never && (policy.policy == Always || t.code != 0);
      var v := Rapid(shouldRestart);
      if t.duration >= threshold {
        failures, v := 0, Healthy(shouldRestart);
      } else if shouldRestart {
        failures := failures + 1;
      }
      if shouldRestart && policy.maxFailures > 0 && failures >= policy.maxFailures {
        status := Failed;
        PublishExited(v, false, policy.maxFailures);
        return true;
      }
      PublishExited(v, shouldRestart, policy.maxFailures);
      if !shouldRestart {
        status := Stopped;
        return true;
      }
      status, restarts := InBackoff, restarts + 1;
      return false;
    }

    method BackOff(t: Turn) returns (over: bool)
      requires status == InBackoff
      modifies this
      ensures View(over) == Wait(old(View(false)), t)
    {
      var wait := ComputeBackoff(EffectiveRestart(t.restart), failures);
      trace := trace + [Waited(wait)];
      if t.resetInBackoff {
        failures, trace := 0, trace + [Reset];
      } else {
        assert trace + [] == trace;
      }
      if t.stopInBackoff {
        status := Stopped;
        return true;
      }
      return false;
    }

    /** run, over as many turns as the script has. */
    method Run(turns: seq<Turn>, threshold: nat) returns (over: bool)
      modifies this
      ensures View(over) == Passes(old(View(false)), turns, |turns|, threshold)
    {
      hide Up, Wait;
      ghost var was := View(false);
      over := false;
      var k := 0;
      while k < |turns|
        invariant k <= |turns| && View(over) == Passes(was, turns, k, threshold)
      {
        var t := turns[k];
        if over {
        } else if t.stopAtTop || !t.wanted {
          status, over := Stopped, true;
        } else {
          Spawn(t);
          over := JudgeExit(t, threshold);
          if !over {
            over := BackOff(t);
          }
        }
        k := k + 1;
      }
    }
  }

  // ---- reading the trace ----

  function Recount(n: nat, h: Happening): nat {
    if h.Reset? then 0 else if h.Exited? then Counted(n, h.verdict) else n
  }

  /** Restart-worthy rapid exits since the counter was last reset. */
  function SinceReset(trace: seq<Happening>): nat {
    if trace == [] then 0 else Recount(SinceReset(trace[..|trace| - 1]), trace[|trace| - 1])
  }

  datatype Where = Ready | Alive | Pausing | Paused | Over | Broken

  /**
    A loop's trace is (Spawned Reset? Exited(restart) Waited Reset?)*, then perhaps Spawned Reset?
    Exited(no restart).
  */
  function After(w: Where, h: Happening): Where {
    match h
    case Spawned => if w == Ready || w == Paused then Alive else Broken
    case Exited(_, willRestart, _) => if w != Alive then Broken else if willRestart then Pausing else Over
    case Waited(_) => if w == Pausing then Paused else Broken
    case Reset => if w == Alive || w == Paused then w else Broken
  }

  function Read(trace: seq<Happening>): Where {
    if trace == [] then Ready else After(Read(trace[..|trace| - 1]), trace[|trace| - 1])
  }

  /**
    With the counter at n before it: an exit judged restart-worthy leads to a restart exactly
    if it leaves the counter below the limit, and no other exit does.
  */
  predicate Judged(n: nat, h: Happening) {
    h.Exited? ==>
      if h.verdict.Unjudged? || !h.verdict.worthy then !h.willRestart
      else h.willRestart <==> Counted(n, h.verdict) < h.limit
  }

  predicate AllJudged(trace: seq<Happening>) {
    trace == [] || (AllJudged(trace[..|trace| - 1]) && Judged(SinceReset(trace[..|trace| - 1]), trace[|trace| - 1]))
  }

  lemma {:induction false} JudgedAt(trace: seq<Happening>, i: nat)
    requires AllJudged(trace) && i < |trace|
    ensures Judged(SinceReset(trace[..i]), trace[i])
  {
    var n := |trace| - 1;
    if i < n {
      JudgedAt(trace[..n], i);
      assert trace[..n][..i] == trace[..i];
    }
  }

  /** The counter is what the trace says, and the trace has got to w. */
  predicate Tells(l: Loop, w: Where) {
    AllJudged(l.trace) && l.failures == SinceReset(l.trace) && Read(l.trace) == w
  }

  lemma TellsNext(l: Loop, w: Where, l': Loop, h: Happening)
    requires Tells(l, w) && Judged(l.failures, h)
    requires l'.trace == l.trace + [h] && l'.failures == Recount(l.failures, h)
    ensures Tells(l', After(w, h))
  {
    assert l'.trace[..|l.trace|] == l.trace;
  }

  lemma TellsReset(l: Loop, w: Where, asked: bool, l': Loop)
    requires Tells(l, w) && w in {Alive, Paused}
    requires l'.trace == l.trace + Resets(asked) && l'.failures == if asked then 0 else l.failures
    ensures Tells(l', w)
  {
    if asked {
      TellsNext(l, w, l', Reset);
    } else {
      assert l.trace + [] == l.trace;
    }
  }

  /** The trace ends with a restart-worthy exit that left the counter at its limit. */
  predicate Tripped(l: Loop) {
    && l.trace != []
    && var last := l.trace[|l.trace| - 1];
    last.Exited? && !last.willRestart && last.verdict == Rapid(true) && l.failures >= last.limit
  }

  /** Between passes. */
  ghost predicate LoopOk(l: Loop) {
    var w := Read(l.trace);
    && Tells(l, w)
    && (!l.over ==> l.status in {Starting, InBackoff} && w in {Ready, Paused})
    && (l.over ==> l.status in {Stopped, Failed} && w in {Ready, Paused, Over})
    && (l.status == Failed ==> Tripped(l))
    && (l.status == Stopped && l.trace != [] ==> !Tripped(l))
  }

  lemma UpTells(l: Loop, t: Turn, w: Where)
    requires Tells(l, w) && w in {Ready, Paused}
    ensures Tells(Up(l, t), Alive)
  {
    var m := l.(trace := l.trace + [Spawned]);
    TellsNext(l, w, m, Spawned);
    TellsReset(m, Alive, t.resetWhileUp, Up(l, t));
  }

  lemma DownTells(l: Loop, t: Turn, threshold: nat)
    requires Tells(l, Alive) && !l.over
    ensures var d := Down(l, t, threshold);
            && Tells(d, if d.over then Over else Pausing)
            && d.status == (if !d.over then InBackoff else if Tripped(d) then Failed else Stopped)
  {
    var d := Down(l, t, threshold);
    TellsNext(l, Alive, d, d.trace[|l.trace|]);
  }

  lemma WaitTells(l: Loop, t: Turn)
    requires Tells(l, Pausing)
    ensures Tells(Wait(l, t), Paused) && !Tripped(Wait(l, t))
  {
    var e := EffectiveRestart(t.restart);
    var h := Waited(Backoff(e.initial, e.max, l.failures));
    var m := l.(trace := l.trace + [h]);
    TellsNext(l, Pausing, m, h);
    TellsReset(m, Paused, t.resetInBackoff, Wait(l, t));
  }

  lemma PassKeeps(l: Loop, t: Turn, threshold: nat)
    requires LoopOk(l)
    ensures LoopOk(Pass(l, t, threshold))
  {
    if !l.over {
      if t.stopAtTop || !t.wanted {
        NotTripped(l);
      } else {
        UpTells(l, t, Read(l.trace));
        DownTells(Up(l, t), t, threshold);
        var d := Down(Up(l, t), t, threshold);
        if !d.over {
          WaitTells(d, t);
        }
      }
    }
  }

  lemma NotTripped(l: Loop)
    requires Read(l.trace) in {Ready, Paused}
    ensures !Tripped(l)
  {
  }

  lemma StartedTells(restarts: nat)
    ensures LoopOk(Started(restarts)) && Breaker(Started(restarts), 1)
  {
  }

  /**
    Over every run: the counter is the number of restart-worthy rapid exits since it was last
    reset; every exit follows its own spawn; nothing follows an exit that said it would not
    restart; and the loop has failed exactly if its last exit left the counter at the limit.
  */
  lemma {:induction false} RunTells(restarts: nat, turns: seq<Turn>, n: nat, threshold: nat)
    requires n <= |turns|
    ensures LoopOk(Passes(Started(restarts), turns, n, threshold))
  {
    StartedTells(restarts);
    hide Pass, LoopOk;
    if n > 0 {
      RunTells(restarts, turns, n - 1, threshold);
      PassKeeps(Passes(Started(restarts), turns, n - 1, threshold), turns[n - 1], threshold);
    }
  }

  lemma {:induction false} OverEnds(trace: seq<Happening>, i: nat)
    requires i < |trace| && Read(trace[..i]) in {Over, Broken}
    ensures Read(trace) == Broken
  {
    var n := |trace| - 1;
    if i < n {
      assert trace[..n][..i] == trace[..i];
      OverEnds(trace[..n], i);
    }
  }

  /** Whatever happens, nothing follows an exit that would not restart. */
  lemma {:induction false} NothingAfterOver(trace: seq<Happening>, i: nat)
    requires Read(trace) != Broken && i < |trace| && trace[i].Exited? && !trace[i].willRestart
    ensures i == |trace| - 1
  {
    if i + 1 < |trace| {
      assert trace[..i + 1][..i] == trace[..i];
      OverEnds(trace, i + 1);
    }
  }

  /** A respawn happens only with the counter below the limit that judged the exit before it. */
  lemma {:induction false} RespawnBelowLimit(trace: seq<Happening>, i: nat)
    requires AllJudged(trace) && i < |trace| && trace[i].Exited? && trace[i].willRestart
    ensures SinceReset(trace[..i + 1]) < trace[i].limit && trace[i].verdict != Unjudged && trace[i].verdict.worthy
  {
    JudgedAt(trace, i);
    assert trace[..i + 1][..i] == trace[..i];
  }

  // ---- what each exit says of its turn ----

  /** The exit event of a turn that was not stopped: how it is judged by the manifest's policy. */
  ghost predicate ExitOf(t: Turn, threshold: nat, x: Happening) {
    && x.Exited? && x.limit == EffectiveRestart(t.restart).maxFailures
    && if t.stopWhileUp then x.verdict == Unjudged
       else
         && x.verdict != Unjudged && (x.verdict.Healthy? <==> t.duration >= threshold)
         && var policy := EffectiveRestart(t.restart).policy;
         x.verdict.worthy <==> policy == Always || (policy == OnFailure && t.code != 0)
  }

  /**
    Each turn of every run adds exactly this: nothing once the loop is over, or stopped or unwanted at the
    top; else a spawn, an exit judged by the turn's policy, exit code and duration, and, if that announces a
    restart, the wait for the counter as it is then; with a reset wherever the operator made one.
  */
  lemma TurnReads(restarts: nat, turns: seq<Turn>, n: nat, threshold: nat) returns (x: Happening, w: Happening)
    requires n < |turns|
    ensures var l, p, t := Passes(Started(restarts), turns, n, threshold),
                           Passes(Started(restarts), turns, n + 1, threshold), turns[n];
            var up := l.trace + [Spawned] + (if t.resetWhileUp then [Reset] else []);
            if l.over then p == l
            else if t.stopAtTop || !t.wanted then p.trace == l.trace && p.restarts == l.restarts && p.over
            else
              && ExitOf(t, threshold, x) && (x.willRestart ==> !x.verdict.Unjudged? && x.verdict.worthy)
              && (x.willRestart ==> w == Waited(Backoff(EffectiveRestart(t.restart).initial,
                                                        EffectiveRestart(t.restart).max, SinceReset(up + [x]))))
              && p.trace == up + [x] + (if x.willRestart then [w] + (if t.resetInBackoff then [Reset] else []) else [])
              && p.restarts == l.restarts + (if x.willRestart then 1 else 0)
              && (p.over <==> !x.willRestart || t.stopInBackoff)
  {
    x, w := Spawned, Spawned;
    var l, t := Passes(Started(restarts), turns, n, threshold), turns[n];
    RunTells(restarts, turns, n, threshold);
    if !l.over && !t.stopAtTop && t.wanted {
      UpTells(l, t, Read(l.trace));
      x, w := PassReads(l, t, threshold);
    }
  }

  lemma PassReads(l: Loop, t: Turn, threshold: nat) returns (x: Happening, w: Happening)
    requires !l.over && !t.stopAtTop && t.wanted && Tells(Up(l, t), Alive)
    ensures var up := l.trace + [Spawned] + (if t.resetWhileUp then [Reset] else []);
            var p := Pass(l, t, threshold);
            && ExitOf(t, threshold, x) && (x.willRestart ==> !x.verdict.Unjudged? && x.verdict.worthy)
            && (x.willRestart ==> w == Waited(Backoff(EffectiveRestart(t.restart).initial,
                                                      EffectiveRestart(t.restart).max, SinceReset(up + [x]))))
            && p.trace == up + [x] + (if x.willRestart then [w] + (if t.resetInBackoff then [Reset] else []) else [])
            && p.restarts == l.restarts + (if x.willRestart then 1 else 0)
            && (p.over <==> !x.willRestart || t.stopInBackoff)
  {
    var u, d := Up(l, t), Down(Up(l, t), t, threshold);
    DownTells(u, t, threshold);
    x := d.trace[|u.trace|];
    assert d.trace == u.trace + [x];
    w := x;
    if x.willRestart {
      w := Waited(Backoff(EffectiveRestart(t.restart).initial, EffectiveRestart(t.restart).max, d.failures));
      assert Wait(d, t).trace == d.trace + ([w] + Resets(t.resetInBackoff));
    } else {
      assert d.trace + [] == d.trace;
    }
  }

  /** The counter starts again at a reset and at a healthy exit. */
  lemma CountStartsAgain(trace: seq<Happening>, h: Happening)
    requires h.Reset? || (h.Exited? && h.verdict.Healthy?)
    ensures SinceReset(trace + [h]) == 0
  {
    assert (trace + [h])[..|trace|] == trace;
  }

  function RapidWorthy(trace: seq<Happening>): nat {
    if trace == [] then 0 else
      (if trace[0].Exited? && trace[0].verdict == Rapid(true) then 1 else 0) + RapidWorthy(trace[1..])
  }

  /** And goes up by one with every restart-worthy rapid exit, whatever else happens meanwhile. */
  lemma {:induction false} CountGoesUp(a: seq<Happening>, b: seq<Happening>)
    requires forall i :: 0 <= i < |b| ==> !b[i].Reset? && !(b[i].Exited? && b[i].verdict.Healthy?)
    ensures SinceReset(a + b) == SinceReset(a) + RapidWorthy(b)
    decreases |b|
  {
    if b == [] {
      assert a + b == a;
    } else {
      CountGoesUp(a + [b[0]], b[1..]);
      assert a + [b[0]] + b[1..] == a + b;
      assert (a + [b[0]])[..|a|] == a;
    }
  }

  // ---- when an announced restart comes ----

  /** A restart is announced between two moments of the trace. */
  ghost predicate Announces(trace: seq<Happening>, from: nat, to: nat) {
    to <= |trace| && exists i :: from <= i < to && trace[i].Exited? && trace[i].willRestart
  }

  /** The child is spawned at some moment of the trace from `from` on. */
  ghost predicate SpawnsFrom(trace: seq<Happening>, from: nat) {
    exists i :: from <= i < |trace| && trace[i].Spawned?
  }

  lemma PassExtends(l: Loop, t: Turn, threshold: nat)
    ensures l.trace <= Pass(l, t, threshold).trace
    ensures l.over ==> Pass(l, t, threshold) == l
  {
  }

  lemma {:induction false} PassesExtend(l: Loop, turns: seq<Turn>, n: nat, m: nat, threshold: nat)
    requires n <= m <= |turns|
    ensures Passes(l, turns, n, threshold).trace <= Passes(l, turns, m, threshold).trace
    ensures Passes(l, turns, n, threshold).over ==> Passes(l, turns, m, threshold) == Passes(l, turns, n, threshold)
  {
    if n < m {
      PassesExtend(l, turns, n, m - 1, threshold);
      PassExtends(Passes(l, turns, m - 1, threshold), turns[m - 1], threshold);
    }
  }

  /** What a pass announces is decided when it judges the exit. */
  lemma PassAnnouncesIff(l: Loop, t: Turn, threshold: nat)
    ensures var p := Pass(l, t, threshold);
            Announces(p.trace, |l.trace|, |p.trace|) <==>
              !l.over && !t.stopAtTop && t.wanted && !Down(Up(l, t), t, threshold).over
  {
    var p, u := Pass(l, t, threshold), Up(l, t);
    if !l.over && !t.stopAtTop && t.wanted {
      var d := Down(u, t, threshold);
      assert d.trace[|u.trace|].Exited? && (d.trace[|u.trace|].willRestart <==> !d.over);
      assert d.trace <= p.trace && |l.trace| <= |u.trace|;
      assert p.trace[|u.trace|] == d.trace[|u.trace|];
      if d.over {
        forall i | |l.trace| <= i < |p.trace| ensures !(p.trace[i].Exited? && p.trace[i].willRestart) {
          assert i < |u.trace| ==> !u.trace[i].Exited?;
        }
      }
    }
  }

  lemma PassSpawnsIff(l: Loop, t: Turn, threshold: nat)
    ensures SpawnsFrom(Pass(l, t, threshold).trace, |l.trace|) <==> !l.over && !t.stopAtTop && t.wanted
  {
    var p := Pass(l, t, threshold);
    if !l.over && !t.stopAtTop && t.wanted {
      assert Up(l, t).trace[|l.trace|] == Spawned;
      assert p.trace[|l.trace|] == Spawned;
    }
  }

  lemma NextTurnSpawnsIff(l: Loop, t: Turn, next: Turn, threshold: nat)
    ensures var p := Pass(l, t, threshold);
            var q := Pass(p, next, threshold);
            Announces(p.trace, |l.trace|, |p.trace|) ==>
              (SpawnsFrom(q.trace, |p.trace|) <==> !t.stopInBackoff && !next.stopAtTop && next.wanted)
              && (!SpawnsFrom(q.trace, |p.trace|) ==> q.over && q.trace == p.trace)
  {
    PassAnnouncesIff(l, t, threshold);
    PassSpawnsIff(Pass(l, t, threshold), next, threshold);
  }

  lemma SpawnsLater(q: seq<Happening>, z: seq<Happening>, from: nat)
    requires q <= z && SpawnsFrom(q, from)
    ensures SpawnsFrom(z, from)
  {
    var i :| from <= i < |q| && q[i].Spawned?;
    assert z[i].Spawned?;
  }

  /**
    Over every run: a restart announced by a turn's exit comes exactly if no stop cuts its
    backoff short and, when that is over, no stop is pending and the manifest still wants
    the extension to run.
  */
  lemma RestartComesIff(restarts: nat, turns: seq<Turn>, n: nat, m: nat, threshold: nat)
    requires n + 2 <= m <= |turns|
    ensures var a := Passes(Started(restarts), turns, n, threshold).trace;
            var b := Passes(Started(restarts), turns, n + 1, threshold).trace;
            var z := Passes(Started(restarts), turns, m, threshold).trace;
            Announces(b, |a|, |b|) ==>
              (SpawnsFrom(z, |b|) <==> !turns[n].stopInBackoff && !turns[n + 1].stopAtTop && turns[n + 1].wanted)
  {
    hide Pass, Announces, SpawnsFrom;
    var s := Started(restarts);
    var l, p := Passes(s, turns, n, threshold), Passes(s, turns, n + 1, threshold);
    var q, z := Passes(s, turns, n + 2, threshold), Passes(s, turns, m, threshold);
    assert p == Pass(l, turns[n], threshold) && q == Pass(p, turns[n + 1], threshold);
    NextTurnSpawnsIff(l, turns[n], turns[n + 1], threshold);
    PassesExtend(s, turns, n + 2, m, threshold);
    if SpawnsFrom(q.trace, |p.trace|) {
      SpawnsLater(q.trace, z.trace, |p.trace|);
    }
  }

  // ---- the circuit breaker ----

  /** The highest failure limit among the first n turns. */
  function HighestLimit(turns: seq<Turn>, n: nat): (h: nat)
    requires n <= |turns|
    ensures h >= 1
  {
    if n == 0 then 1 else
      var before, limit := HighestLimit(turns, n - 1), EffectiveRestart(turns[n - 1].restart).maxFailures;
      if limit > before then limit else before
  }

  predicate NeverAbove(trace: seq<Happening>, limit: nat) {
    SinceReset(trace) <= limit && (trace == [] || NeverAbove(trace[..|trace| - 1], limit))
  }

  lemma NeverAboveNext(trace: seq<Happening>, h: Happening, limit: nat)
    requires NeverAbove(trace, limit) && Recount(SinceReset(trace), h) <= limit
    ensures NeverAbove(trace + [h], limit)
  {
    assert (trace + [h])[..|trace|] == trace;
  }

  lemma NeverAboveReset(trace: seq<Happening>, asked: bool, limit: nat)
    requires NeverAbove(trace, limit)
    ensures NeverAbove(trace + Resets(asked), limit)
  {
    if asked {
      NeverAboveNext(trace, Reset, limit);
    } else {
      assert trace + [] == trace;
    }
  }

  lemma {:induction false} NeverAboveMore(trace: seq<Happening>, limit: nat, more: nat)
    requires NeverAbove(trace, limit) && limit <= more
    ensures NeverAbove(trace, more)
  {
    if trace != [] {
      NeverAboveMore(trace[..|trace| - 1], limit, more);
    }
  }

  /** The counter has never passed `limit`, and has reached it only if the loop has failed. */
  ghost predicate Breaker(l: Loop, limit: nat) {
    && NeverAbove(l.trace, limit)
    && (l.failures < limit || (l.failures == limit && l.status == Failed))
  }

  lemma UpBreaker(l: Loop, t: Turn, limit: nat)
    requires NeverAbove(l.trace, limit) && l.failures == SinceReset(l.trace) < limit
    ensures NeverAbove(Up(l, t).trace, limit) && Up(l, t).failures < limit
  {
    NeverAboveNext(l.trace, Spawned, limit);
    NeverAboveReset(l.trace + [Spawned], t.resetWhileUp, limit);
  }

  lemma DownBreaker(l: Loop, t: Turn, threshold: nat, limit: nat)
    requires NeverAbove(l.trace, limit) && l.failures == SinceReset(l.trace) < limit
    requires EffectiveRestart(t.restart).maxFailures <= limit
    ensures Breaker(Down(l, t, threshold), limit)
  {
    var d := Down(l, t, threshold);
    NeverAboveNext(l.trace, d.trace[|l.trace|], limit);
  }

  lemma WaitBreaker(l: Loop, t: Turn, limit: nat)
    requires Breaker(l, limit) && l.status == InBackoff && l.failures == SinceReset(l.trace)
    ensures Breaker(Wait(l, t), limit)
  {
    var e := EffectiveRestart(t.restart);
    var h := Waited(Backoff(e.initial, e.max, l.failures));
    NeverAboveNext(l.trace, h, limit);
    NeverAboveReset(l.trace + [h], t.resetInBackoff, limit);
  }

  lemma PassBreaker(l: Loop, t: Turn, threshold: nat, limit: nat)
    requires LoopOk(l) && Breaker(l, limit) && EffectiveRestart(t.restart).maxFailures <= limit
    ensures Breaker(Pass(l, t, threshold), limit)
  {
    if !l.over && !t.stopAtTop && t.wanted {
      UpTells(l, t, Read(l.trace));
      UpBreaker(l, t, limit);
      DownTells(Up(l, t), t, threshold);
      DownBreaker(Up(l, t), t, threshold, limit);
      var d := Down(Up(l, t), t, threshold);
      if !d.over {
        WaitBreaker(d, t, limit);
      }
    }
  }

  lemma BreakerNext(l: Loop, t: Turn, threshold: nat, limit: nat, more: nat)
    requires LoopOk(l) && Breaker(l, limit) && limit <= more && EffectiveRestart(t.restart).maxFailures <= more
    ensures Breaker(Pass(l, t, threshold), more)
  {
    NeverAboveMore(l.trace, limit, more);
    if l.over {
      PassExtends(l, t, threshold);
    } else {
      PassBreaker(l, t, threshold, more);
    }
  }

  /**
    At no moment have more restart-worthy rapid exits happened since the last reset than the
    highest limit in force so far, and only a loop that has failed has reached it.
  */
  lemma {:induction false} BreakerTripsAtLimit(restarts: nat, turns: seq<Turn>, n: nat, threshold: nat)
    requires n <= |turns|
    ensures Breaker(Passes(Started(restarts), turns, n, threshold), HighestLimit(turns, n))
  {
    StartedTells(restarts);
    hide Pass, Breaker, LoopOk;
    if n > 0 {
      var l := Passes(Started(restarts), turns, n - 1, threshold);
      BreakerTripsAtLimit(restarts, turns, n - 1, threshold);
      RunTells(restarts, turns, n - 1, threshold);
      BreakerNext(l, turns[n - 1], threshold, HighestLimit(turns, n - 1), HighestLimit(turns, n));
    }
  }
}
