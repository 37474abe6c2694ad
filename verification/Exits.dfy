/**
  How a claude-pty run ends and what it reports: why work may be left pending, how many
  attempts it takes, and what its report says about the transcript.
*/
module Exits {
  import opened Common
  import opened Lines
  import opened Session
  import opened Provider
  import T = Tail

  // ---- why a run may end with work pending ----

  /** An attempt made from here consumes no complete line. */
  ghost predicate Stuck(u: Setup, file: Bytes, v: View, from: nat, script: T.Script) {
    && from <= |file|
    && TailFrom(u, file, v, from, script).offset == from
    && TailFrom(u, file, v, from, script).visited == []
  }

  /** The last attempt of a wait shows why it ended. */
  ghost predicate EndedBy(u: Setup, file: Bytes, v: View, from: nat, last: Attempt, why: Why) {
    match why
    case JobEnded => last.jobEnded
    case ChildExited => last.childExited
    case Stalled => Stuck(u, file, v, from, last.script)
    case Done => false
  }

  lemma StalledIsStuck(u: Setup, file: Bytes, v: View, from: nat, script: T.Script)
    requires from <= |file|
    ensures var o := TailFrom(u, file, v, from, script);
            o.offset == from ==> Stuck(u, file, o.state, o.offset, script)
  {
  }

  lemma {:induction false} DrainReason(u: Setup, file: Bytes, v: View, from: nat, world: World, k: nat)
      returns (r: Wait)
    requires from <= |file|
    ensures r == AwaitDrain(u, file, v, from, world, k)
    ensures r.why.Done? || EndedBy(u, file, r.view, r.offset, world.attempt(r.attempts - 1), r.why)
    decreases |file| - from
  {
    var a := world.attempt(k);
    var o := TailFrom(u, file, v, from, a.script);
    if o.state.core.pending == {} {
      r := Now(o, k + 1, Done);
    } else if a.jobEnded {
      r := Now(o, k + 1, JobEnded);
    } else if a.childExited {
      r := Now(o, k + 1, ChildExited);
    } else if o.offset <= from {
      r := Now(o, k + 1, Stalled);
      StalledIsStuck(u, file, v, from, a.script);
    } else {
      var rest := DrainReason(u, file, o.state, o.offset, world, k + 1);
      r := Later(o, rest);
    }
  }

  /** Why a run may leave work pending. */
  ghost predicate Excused(u: Setup, file: Bytes, r: RunEnd, world: World) {
    match r.ending
    case AllDone => false
    case Guarded => world.guard(r.attempts)
    case WaitEnded(why) =>
      r.attempts > 0 && EndedBy(u, file, r.view, r.offset, world.attempt(r.attempts - 1), why)
  }

  ghost predicate Settled(u: Setup, file: Bytes, r: RunEnd, world: World) {
    && r.ok
    && (r.ending.AllDone? <==> r.view.core.pending == {})
    && (r.view.core.pending != {} ==> Excused(u, file, r, world))
  }

  lemma CycleReason(u: Setup, file: Bytes, v: View, from: nat, world: World, k: nat) returns (r: Wait)
    requires from <= |file|
    ensures r == Cycle(u, file, v, from, world, k)
    ensures !r.why.Done? ==> Settled(u, file, Ends(r, WaitEnded(r.why)), world)
  {
    r := Cycle(u, file, v, from, world, k);
    var d := DrainReason(u, file, v.(awaiting := false, turnDone := false), from, world, k);
  }

  lemma {:induction false} Phase2Reason(u: Setup, file: Bytes, v: View, from: nat, world: World, k: nat)
      returns (r: RunEnd)
    requires from <= |file|
    ensures r == Phase2(u, file, v, from, world, k)
    ensures Settled(u, file, r, world)
    decreases |file| - from
  {
    r := Phase2(u, file, v, from, world, k);
    if v.core.pending != {} && !world.guard(k) {
      var c := CycleReason(u, file, v, from, world, k);
      NewWorkMeansProgress(u, file, v, from, world, k);
      if c.why.Done? && c.view.core.pending != {} {
        var rest := Phase2Reason(u, file, c.view, c.offset, world, c.attempts);
        r := Provider.After(c, rest);
      }
    }
  }

  /**
    Exit safety: a run that returns without error leaves background work pending exactly
    when its wait was cut short, and then the job's context had ended, claude had exited,
    or one whole attempt consumed no complete line.
  */
  lemma ExitSafety(u: Setup, file: Bytes, from: nat, world: World)
    requires from <= |file|
    ensures var r := Run(u, file, from, world);
            r.ok ==>
              && (r.view.core.pending == {} <==> r.ending.AllDone?)
              && (r.view.core.pending != {} ==> Excused(u, file, r, world))
  {
    var r := Run(u, file, from, world);
    var o := TailFrom(u, file, INITIAL, from, world.attempt(0).script);
    if o.state.turnDone && o.state.core.pending != {} {
      var rest := Phase2Reason(u, file, o.state.(deferring := true), o.offset, world, 1);
      assert r == Provider.After(Now(o, 1, Done), rest);
    }
  }

  /** Phase 2 ends for every world: attempts are bounded by the transcript it consumed. */
  lemma AttemptsAreBounded(u: Setup, file: Bytes, from: nat, world: World)
    requires from <= |file|
    ensures var r := Run(u, file, from, world);
            from <= r.offset <= |file| && r.attempts <= 3 * (r.offset - from) + 3
  {
  }

  // ---- a wait only ever does what its records do ----

  lemma {:induction false} FoldIsRecords(u: Setup, v: View, records: seq<Record>)
    ensures var v' := T.Fold(Follow(u), v, records);
            && v'.core == ApplyRecords(u.w, v.core, records)
            && v'.deferring == v.deferring && v'.awaiting == v.awaiting
    decreases |records|
  {
    if records != [] {
      FoldIsRecords(u, Step(u.w, v, records[0]).0, records[1..]);
    }
  }

  lemma ApplyRecordsAppend(u: Setup, v: View, a: seq<Record>, b: seq<Record>)
    ensures ApplyRecords(u.w, v.core, a + b) == ApplyRecords(u.w, ApplyRecords(u.w, v.core, a), b)
  {
    T.FoldAppend(Follow(u), v, a, b);
    FoldIsRecords(u, v, a);
    FoldIsRecords(u, v, a + b);
    FoldIsRecords(u, T.Fold(Follow(u), v, a), b);
  }

  /** The wait started in `v` at `from` moved on by exactly the records it visited. */
  ghost predicate Moved(u: Setup, file: Bytes, v: View, from: nat, r: Wait) {
    && from <= r.offset <= |file|
    && r.view.core == ApplyRecords(u.w, v.core, r.visited)
    && r.view.deferring == v.deferring && r.view.awaiting == v.awaiting
    && (r.offset == from ==> r.visited == [])
    && (r.clean ==> Aligned(file[from..r.offset]) && r.visited == T.Records(u.decode, file[from..r.offset]))
  }

  lemma NowMoved(u: Setup, file: Bytes, v: View, from: nat, script: T.Script, attempts: nat, why: Why)
    requires from <= |file|
    ensures Moved(u, file, v, from, Now(TailFrom(u, file, v, from, script), attempts, why))
  {
    var o := TailFrom(u, file, v, from, script);
    FoldIsRecords(u, v, o.visited);
    T.OneCall(Follow(u), file, v, from, script);
  }

  lemma LaterMoved(u: Setup, file: Bytes, v: View, from: nat, o: T.Outcome<View, Record>, rest: Wait)
    requires Moved(u, file, v, from, Now(o, 0, Done)) && Moved(u, file, o.state, o.offset, rest)
    ensures Moved(u, file, v, from, Later(o, rest))
  {
    ApplyRecordsAppend(u, v, o.visited, rest.visited);
    if T.Resumable(o.stop) && rest.clean {
      T.SliceJoin(file, from, o.offset, rest.offset);
      T.RecordsAppend(u.decode, file[from..o.offset], file[o.offset..rest.offset]);
    }
  }

  lemma {:induction false} DrainMoved(u: Setup, file: Bytes, v: View, from: nat, world: World, k: nat)
    requires from <= |file|
    ensures Moved(u, file, v, from, AwaitDrain(u, file, v, from, world, k))
    decreases |file| - from
  {
    var a := world.attempt(k);
    var o := TailFrom(u, file, v, from, a.script);
    NowMoved(u, file, v, from, a.script, k + 1, AwaitDrain(u, file, v, from, world, k).why);
    if o.state.core.pending != {} && !a.jobEnded && !a.childExited && from < o.offset {
      DrainMoved(u, file, o.state, o.offset, world, k + 1);
      LaterMoved(u, file, v, from, o, AwaitDrain(u, file, o.state, o.offset, world, k + 1));
    }
  }

  lemma {:induction false} TurnMoved(u: Setup, file: Bytes, v: View, from: nat, world: World, k: nat)
    requires from <= |file|
    ensures Moved(u, file, v, from, AwaitTurn(u, file, v, from, world, k))
    decreases |file| - from
  {
    var a := world.attempt(k);
    var o := TailFrom(u, file, v, from, a.script);
    NowMoved(u, file, v, from, a.script, k + 1, AwaitTurn(u, file, v, from, world, k).why);
    if !o.state.turnDone && !a.jobEnded && from < o.offset {
      TurnMoved(u, file, o.state, o.offset, world, k + 1);
      LaterMoved(u, file, v, from, o, AwaitTurn(u, file, o.state, o.offset, world, k + 1));
    }
  }

  // ---- and so does a run ----

  lemma {:induction false} Phase2Moved(u: Setup, file: Bytes, v: View, from: nat, world: World, k: nat)
    requires from <= |file|
    ensures RunMoved(u, file, v.core, from, Phase2(u, file, v, from, world, k))
    decreases |file| - from
  {
    if v.core.pending == {} || world.guard(k) {
      assert file[from..from] == [];
      LineFree([]);
      return;
    }
    var r := Cycle(u, file, v, from, world, k);
    CycleMoved(u, file, v, from, world, k);
    NewWorkMeansProgress(u, file, v, from, world, k);
    if r.why.Done? && r.view.core.pending != {} {
      var rest := Phase2(u, file, r.view, r.offset, world, r.attempts);
      Phase2Moved(u, file, r.view, r.offset, world, r.attempts);
      AfterMoved(u, file, v, from, r, rest);
    }
  }

  ghost predicate RunMoved(u: Setup, file: Bytes, c: Core, from: nat, r: RunEnd) {
    && from <= r.offset <= |file|
    && r.view.core == ApplyRecords(u.w, c, r.visited)
    && (r.clean ==> Aligned(file[from..r.offset]) && r.visited == T.Records(u.decode, file[from..r.offset]))
  }

  ghost predicate CoreMoved(u: Setup, file: Bytes, c: Core, from: nat, r: Wait) {
    RunMoved(u, file, c, from, Ends(r, AllDone))
  }

  lemma JoinMoved(u: Setup, file: Bytes, v: View, from: nat, mid: nat, c: Core, a: seq<Record>, cleanA: bool,
                  to: nat, b: seq<Record>, cleanB: bool, c': Core)
    requires from <= mid <= to <= |file|
    requires c == ApplyRecords(u.w, v.core, a) && c' == ApplyRecords(u.w, c, b)
    requires cleanA ==> Aligned(file[from..mid]) && a == T.Records(u.decode, file[from..mid])
    requires cleanB ==> Aligned(file[mid..to]) && b == T.Records(u.decode, file[mid..to])
    ensures c' == ApplyRecords(u.w, v.core, a + b)
    ensures cleanA && cleanB ==> Aligned(file[from..to]) && a + b == T.Records(u.decode, file[from..to])
  {
    ApplyRecordsAppend(u, v, a, b);
    if cleanA && cleanB {
      T.SliceJoin(file, from, mid, to);
      T.RecordsAppend(u.decode, file[from..mid], file[mid..to]);
    }
  }

  lemma CycleMoved(u: Setup, file: Bytes, v: View, from: nat, world: World, k: nat)
    requires from <= |file|
    ensures CoreMoved(u, file, v.core, from, Cycle(u, file, v, from, world, k))
  {
    var d := AwaitDrain(u, file, v.(awaiting := false, turnDone := false), from, world, k);
    DrainMoved(u, file, v.(awaiting := false, turnDone := false), from, world, k);
    if d.why.Done? {
      TurnMoved(u, file, d.view.(awaiting := true, turnDone := false), d.offset, world, d.attempts);
      var y := AwaitSynthesis(u, file, d.view, d.offset, world, d.attempts);
      JoinMoved(u, file, v, from, d.offset, d.view.core, d.visited, d.clean, y.offset, y.visited, y.clean, y.view.core);
    }
  }

  lemma AfterMoved(u: Setup, file: Bytes, v: View, from: nat, r: Wait, rest: RunEnd)
    requires CoreMoved(u, file, v.core, from, r) && RunMoved(u, file, r.view.core, r.offset, rest)
    ensures RunMoved(u, file, v.core, from, Provider.After(r, rest))
  {
    JoinMoved(u, file, v, from, r.offset, r.view.core, r.visited, r.clean, rest.offset, rest.visited, rest.clean,
        rest.view.core);
  }

  lemma RunAccounts(u: Setup, file: Bytes, from: nat, world: World)
    requires from <= |file|
    ensures RunMoved(u, file, FRESH, from, Run(u, file, from, world))
  {
    var o := TailFrom(u, file, INITIAL, from, world.attempt(0).script);
    NowMoved(u, file, INITIAL, from, world.attempt(0).script, 1, Done);
    if o.state.turnDone && o.state.core.pending != {} {
      var v := o.state.(deferring := true);
      Phase2Moved(u, file, v, o.offset, world, 1);
      AfterMoved(u, file, INITIAL, from, Now(o, 1, Done), Phase2(u, file, v, o.offset, world, 1));
    }
  }

  /**
    What a run reports is what the records it visited say: which uses are still pending,
    the message, the wakeup. When no read of the transcript failed, those records are
    exactly the parse of the transcript between the first and the last offset.
  */
  lemma RunReportsTranscript(u: Setup, file: Bytes, from: nat, world: World)
    requires from <= |file|
    ensures var r := Run(u, file, from, world);
            var h := History(u.w, r.visited);
            && from <= r.offset <= |file|
            && (forall id :: id in r.view.core.pending <==> PendingAt(u.w, h, |h|, id))
            && FinalMessage(r.view.core) == MessageOf(h)
            && ReportOf(r.ok, r.view.core) == Report(r.ok, MessageOf(h), WakeupOf(h, |h|))
            && (r.clean ==> Aligned(file[from..r.offset]) && r.visited == T.Records(u.decode, file[from..r.offset]))
  {
    RunAccounts(u, file, from, world);
    VisitedTranscriptDecides(u.w, Run(u, file, from, world).visited);
  }
}
