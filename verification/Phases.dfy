/**
  A claude-pty run attempt by attempt: what each tail attempt leads to, from the phase it was
  made in and what it brought, without the nested loops of the code
  (internal/agent/claudepty/provider.go). The run of Provider takes exactly these steps.
*/
module Phases {
  import opened Common
  import opened Lines
  import opened Session
  import opened Provider
  import opened Exits
  import T = Tail

  datatype Phase = First | Draining | Synthesizing

  /** Before a tail attempt: the phase, the state it begins in, and where it reads from. */
  datatype Moment = Moment(phase: Phase, view: View, from: nat)

  datatype Fate = Again(next: Moment) | Over(ok: bool, ending: Ending)

  datatype Scene = Scene(u: Setup, file: Bytes, world: World)

  /** Nothing to wait for, not allowed to wait, or another drain. */
  function Waiting(v: View, offset: nat, guarded: bool): Fate {
    if v.core.pending == {} then Over(true, AllDone)
    else if guarded then Over(true, Guarded)
    else Again(Moment(Draining, View(v.core, false, true, false), offset))
  }

  /** What follows an attempt made in moment m that had outcome o. */
  function Next(m: Moment, o: T.Outcome<View, Record>, a: Attempt, guarded: bool): Fate {
    match m.phase
    case First => if !o.state.turnDone then Over(false, AllDone) else Waiting(o.state, o.offset, guarded)
    case Draining =>
      if o.state.core.pending == {} then Again(Moment(Synthesizing, View(o.state.core, false, true, true), o.offset))
      else if a.jobEnded then Over(true, WaitEnded(JobEnded))
      else if a.childExited then Over(true, WaitEnded(ChildExited))
      else if o.offset <= m.from then Over(true, WaitEnded(Stalled))
      else Again(Moment(Draining, o.state, o.offset))
    case Synthesizing =>
      if o.state.turnDone || a.jobEnded || o.offset <= m.from then Waiting(o.state, o.offset, guarded)
      else Again(Moment(Synthesizing, o.state, o.offset))
  }

  /** The k-th attempt, made in moment m. */
  function OutcomeOf(s: Scene, m: Moment, k: nat): T.Outcome<View, Record>
    requires m.from <= |s.file|
  {
    TailFrom(s.u, s.file, m.view, m.from, s.world.attempt(k).script)
  }

  function FateOf(s: Scene, m: Moment, k: nat): Fate
    requires m.from <= |s.file|
  {
    Next(m, OutcomeOf(s, m, k), s.world.attempt(k), s.world.guard(k + 1))
  }

  /** These moments, the first of them before attempt k, follow from one another. */
  ghost predicate Steps(s: Scene, k: nat, log: seq<Moment>) {
    && log != [] && (forall i :: 0 <= i < |log| ==> log[i].from <= |s.file|)
    && forall i :: 0 <= i < |log| - 1 ==> FateOf(s, log[i], k + i) == Again(log[i + 1])
  }

  function VisitedIn(s: Scene, k: nat, log: seq<Moment>): seq<Record>
    requires forall i :: 0 <= i < |log| ==> log[i].from <= |s.file|
    decreases |log|
  {
    if log == [] then [] else OutcomeOf(s, log[0], k).visited + VisitedIn(s, k + 1, log[1..])
  }

  /** What the last attempt of the log, which began with attempt k, came to. */
  ghost predicate Comes(s: Scene, k: nat, log: seq<Moment>, offset: nat, core: Core, visited: seq<Record>, fate: Fate) {
    && Steps(s, k, log)
    && var last := |log| - 1;
    && OutcomeOf(s, log[last], k + last).offset == offset
    && OutcomeOf(s, log[last], k + last).state.core == core
    && FateOf(s, log[last], k + last) == fate
    && VisitedIn(s, k, log) == visited
  }

  lemma {:induction false} VisitedAppend(s: Scene, k: nat, a: seq<Moment>, b: seq<Moment>)
    requires forall i :: 0 <= i < |a| ==> a[i].from <= |s.file|
    requires forall i :: 0 <= i < |b| ==> b[i].from <= |s.file|
    ensures VisitedIn(s, k, a + b) == VisitedIn(s, k, a) + VisitedIn(s, k + |a|, b)
    decreases |a|
  {
    hide OutcomeOf;
    if a == [] {
      assert a + b == b;
    } else {
      VisitedAppend(s, k + 1, a[1..], b);
      assert (a + b)[1..] == a[1..] + b;
      Associative(OutcomeOf(s, a[0], k).visited, VisitedIn(s, k + 1, a[1..]), VisitedIn(s, k + |a|, b));
    }
  }

  lemma JoinSteps(s: Scene, k: nat, a: seq<Moment>, b: seq<Moment>, offset: nat, core: Core, v: seq<Record>,
                  offset': nat, core': Core, w: seq<Record>, fate: Fate)
    requires b != [] && Comes(s, k, a, offset, core, v, Again(b[0]))
    requires Comes(s, k + |a|, b, offset', core', w, fate)
    ensures Comes(s, k, a + b, offset', core', v + w, fate)
  {
    hide OutcomeOf, FateOf, VisitedIn;
    var log := a + b;
    forall i | 0 <= i < |log| - 1 ensures FateOf(s, log[i], k + i) == Again(log[i + 1]) {
      if i >= |a| {
        assert log[i] == b[i - |a|] && log[i + 1] == b[i - |a| + 1];
        assert FateOf(s, b[i - |a|], k + |a| + (i - |a|)) == Again(b[i - |a| + 1]);
      } else if i == |a| - 1 {
        assert log[i] == a[i] && log[i + 1] == b[0];
      } else {
        assert log[i] == a[i] && log[i + 1] == a[i + 1];
      }
    }
    VisitedAppend(s, k, a, b);
    assert log[|log| - 1] == b[|b| - 1];
  }

  lemma OneStep(s: Scene, k: nat, m: Moment)
    requires m.from <= |s.file|
    ensures var o := OutcomeOf(s, m, k);
            Comes(s, k, [m], o.offset, o.state.core, o.visited, FateOf(s, m, k))
  {
    var none := [m][1..];
    assert none == [] && VisitedIn(s, k + 1, none) == [];
    var v := OutcomeOf(s, m, k).visited;
    assert v + [] == v;
  }

  lemma {:induction false} DrainSteps(s: Scene, v: View, from: nat, k: nat) returns (log: seq<Moment>)
    requires from <= |s.file| && v.deferring
    ensures var r := AwaitDrain(s.u, s.file, v, from, s.world, k);
            && r.attempts == k + |log| && log != [] && log[0] == Moment(Draining, v, from) && r.view.deferring
            && Comes(s, k, log, r.offset, r.view.core, r.visited,
                     if r.why.Done? then Again(Moment(Synthesizing, View(r.view.core, false, true, true), r.offset))
                     else Over(true, WaitEnded(r.why)))
    decreases |s.file| - from
  {
    hide Comes;
    var m := Moment(Draining, v, from);
    var a, o := s.world.attempt(k), OutcomeOf(s, m, k);
    log := [m];
    OneStep(s, k, m);
    FlagsStay(s.u, s.file, v, from, a.script);
    if o.state.core.pending != {} && !a.jobEnded && !a.childExited && from < o.offset {
      var rest := DrainSteps(s, o.state, o.offset, k + 1);
      var r := AwaitDrain(s.u, s.file, o.state, o.offset, s.world, k + 1);
      JoinSteps(s, k, [m], rest, o.offset, o.state.core, o.visited, r.offset, r.view.core, r.visited,
                if r.why.Done? then Again(Moment(Synthesizing, View(r.view.core, false, true, true), r.offset))
                else Over(true, WaitEnded(r.why)));
      log := [m] + rest;
    }
  }

  lemma FlagsStay(u: Setup, file: Bytes, v: View, from: nat, script: T.Script)
    requires from <= |file|
    ensures var t := TailFrom(u, file, v, from, script).state;
            t.deferring == v.deferring && t.awaiting == v.awaiting
  {
    NowMoved(u, file, v, from, script, 0, Done);
  }

  lemma {:induction false} TurnSteps(s: Scene, v: View, from: nat, k: nat) returns (log: seq<Moment>)
    requires from <= |s.file| && v.deferring && v.awaiting
    ensures var r := AwaitTurn(s.u, s.file, v, from, s.world, k);
            && r.attempts == k + |log| && log != [] && log[0] == Moment(Synthesizing, v, from) && r.view.deferring
            && Comes(s, k, log, r.offset, r.view.core, r.visited, Waiting(r.view, r.offset, s.world.guard(r.attempts)))
    decreases |s.file| - from
  {
    hide Comes;
    var m := Moment(Synthesizing, v, from);
    var a, o := s.world.attempt(k), OutcomeOf(s, m, k);
    log := [m];
    OneStep(s, k, m);
    FlagsStay(s.u, s.file, v, from, a.script);
    if !o.state.turnDone && !a.jobEnded && from < o.offset {
      var rest := TurnSteps(s, o.state, o.offset, k + 1);
      var r := AwaitTurn(s.u, s.file, o.state, o.offset, s.world, k + 1);
      JoinSteps(s, k, [m], rest, o.offset, o.state.core, o.visited, r.offset, r.view.core, r.visited,
                Waiting(r.view, r.offset, s.world.guard(r.attempts)));
      log := [m] + rest;
    }
  }

  lemma CycleSteps(s: Scene, v: View, from: nat, k: nat) returns (log: seq<Moment>)
    requires from <= |s.file| && v.deferring
    ensures var r := Cycle(s.u, s.file, v, from, s.world, k);
            && r.attempts == k + |log| && log != []
                && log[0] == Moment(Draining, View(v.core, false, true, false), from)
            && r.view.deferring
            && Comes(s, k, log, r.offset, r.view.core, r.visited,
                     if r.why.Done? then Waiting(r.view, r.offset, s.world.guard(r.attempts))
                     else Over(true, WaitEnded(r.why)))
  {
    hide Comes;
    var begun := v.(awaiting := false, turnDone := false);
    var d := AwaitDrain(s.u, s.file, begun, from, s.world, k);
    log := DrainSteps(s, begun, from, k);
    if d.why.Done? {
      var waiting := d.view.(awaiting := true, turnDone := false);
      var rest := TurnSteps(s, waiting, d.offset, d.attempts);
      var y := AwaitTurn(s.u, s.file, waiting, d.offset, s.world, d.attempts);
      JoinSteps(s, k, log, rest, d.offset, d.view.core, d.visited, y.offset, y.view.core, y.visited,
                Waiting(y.view, y.offset, s.world.guard(y.attempts)));
      log := log + rest;
    }
  }

  lemma {:induction false} Phase2Steps(s: Scene, v: View, from: nat, k: nat) returns (log: seq<Moment>)
    requires from <= |s.file| && v.deferring && v.core.pending != {} && !s.world.guard(k)
    ensures var r := Phase2(s.u, s.file, v, from, s.world, k);
            && r.attempts == k + |log| && log != []
                && log[0] == Moment(Draining, View(v.core, false, true, false), from)
            && Comes(s, k, log, r.offset, r.view.core, r.visited, Over(r.ok, r.ending))
    decreases |s.file| - from
  {
    hide Comes;
    var c := Cycle(s.u, s.file, v, from, s.world, k);
    NewWorkMeansProgress(s.u, s.file, v, from, s.world, k);
    log := CycleSteps(s, v, from, k);
    if c.why.Done? && c.view.core.pending != {} {
      var r := Phase2(s.u, s.file, c.view, c.offset, s.world, c.attempts);
      if s.world.guard(c.attempts) {
        assert c.visited + [] == c.visited;
      } else {
        var rest := Phase2Steps(s, c.view, c.offset, c.attempts);
        JoinSteps(s, k, log, rest, c.offset, c.view.core, c.visited, r.offset, r.view.core, r.visited,
                  Over(r.ok, r.ending));
        log := log + rest;
      }
    }
  }

  /**
    Every run is this chain of attempts: from the first one on each leads to the next as its phase says,
    the last one to the end the run reports, and what is visited is what the attempts visited, in order.
  */
  lemma RunIsSteps(u: Setup, file: Bytes, from: nat, world: World) returns (log: seq<Moment>)
    requires from <= |file|
    ensures var r := Run(u, file, from, world);
            && |log| == r.attempts > 0 && log[0] == Moment(First, INITIAL, from)
            && Comes(Scene(u, file, world), 0, log, r.offset, r.view.core, r.visited, Over(r.ok, r.ending))
  {
    hide Comes;
    var s, m := Scene(u, file, world), Moment(First, INITIAL, from);
    var o := OutcomeOf(s, m, 0);
    log := [m];
    OneStep(s, 0, m);
    assert o.visited + [] == o.visited;
    if o.state.turnDone && o.state.core.pending != {} && !world.guard(1) {
      var v := o.state.(deferring := true);
      var rest := Phase2Steps(s, v, o.offset, 1);
      var r := Phase2(u, file, v, o.offset, world, 1);
      JoinSteps(s, 0, [m], rest, o.offset, o.state.core, o.visited, r.offset, r.view.core, r.visited,
                Over(r.ok, r.ending));
      log := [m] + rest;
    }
  }

  // ---- when a run is without error ----

  /** The record that ends a turn of the main chain. */
  predicate EndsTurn(r: Record) { r.kind == "system" && r.subtype == "turn_duration" && !r.sidechain }

  lemma {:induction false} TurnDoneIff(u: Setup, v: View, records: seq<Record>)
    ensures T.Fold(Follow(u), v, records).turnDone <==>
            v.turnDone || exists i :: 0 <= i < |records| && EndsTurn(records[i])
    decreases |records|
  {
    if records != [] {
      TurnDoneIff(u, Step(u.w, v, records[0]).0, records[1..]);
      AnyEndsCons(records);
      hide EndsTurn;
    }
  }

  lemma AnyEndsCons(s: seq<Record>)
    requires s != []
    ensures (exists i :: 0 <= i < |s| && EndsTurn(s[i])) <==>
            EndsTurn(s[0]) || exists i :: 0 <= i < |s[1..]| && EndsTurn(s[1..][i])
  {
    hide EndsTurn;
    if i :| 0 <= i < |s| && EndsTurn(s[i]) {
      assert i > 0 ==> s[1..][i - 1] == s[i];
    }
    if i :| 0 <= i < |s[1..]| && EndsTurn(s[1..][i]) {
      assert s[i + 1] == s[1..][i];
    }
  }

  /** A run is without error exactly if its first attempt visited the end of a turn. */
  lemma RunOkIff(u: Setup, file: Bytes, from: nat, world: World)
    requires from <= |file|
    ensures var visited := TailFrom(u, file, INITIAL, from, world.attempt(0).script).visited;
            Run(u, file, from, world).ok <==> exists i :: 0 <= i < |visited| && EndsTurn(visited[i])
  {
    var o := TailFrom(u, file, INITIAL, from, world.attempt(0).script);
    T.OneCall(Follow(u), file, INITIAL, from, world.attempt(0).script);
    TurnDoneIff(u, INITIAL, o.visited);
  }

  // ---- where an attempt stops ----

  /** After these records the visitor of this phase asks to stop. */
  ghost predicate Asks(u: Setup, v: View, records: seq<Record>) {
    && records != []
    && if v.deferring && !v.awaiting then ApplyRecords(u.w, v.core, records).pending == {}
       else EndsTurn(records[|records| - 1])
  }

  lemma StepAsks(u: Setup, v: View, records: seq<Record>, r: Record)
    ensures var before := T.Fold(Follow(u), v, records);
            Step(u.w, before, r).1 <==> Asks(u, v, records + [r])
  {
    FoldIsRecords(u, v, records);
    FoldIsRecords(u, v, records + [r]);
    T.FoldAppend(Follow(u), v, records, [r]);
    T.FoldOne(Follow(u), T.Fold(Follow(u), v, records), r);
  }

  lemma GoesAt<S, R>(f: T.Follower<S, R>, s: S, records: seq<R>, n: nat)
    requires T.GoesOn(f, s, records) && n < |records|
    ensures !f.visit(T.Fold(f, s, records[..n]), records[n]).1
  {
    assert records == records[..n] + records[n..] && records[n..][0] == records[n];
    T.FoldAppend(f, s, records[..n], records[n..]);
  }

  lemma NotAsked(u: Setup, v: View, records: seq<Record>, n: nat)
    requires T.GoesOn(Follow(u), v, records) && 0 < n <= |records|
    ensures !Asks(u, v, records[..n])
  {
    hide Step, Asks, T.GoesOn, T.Fold;
    GoesAt(Follow(u), v, records, n - 1);
    StepAsks(u, v, records[..n - 1], records[n - 1]);
    assert records[..n - 1] + [records[n - 1]] == records[..n];
  }

  /**
    An attempt stops at the first record after which its phase has what it waits for: the end of a turn,
    or in a drain that nothing is pending; and it stops by itself only there.
  */
  lemma AttemptStopsIff(u: Setup, file: Bytes, v: View, from: nat, script: T.Script)
    requires from <= |file|
    ensures var o := TailFrom(u, file, v, from, script);
            && (o.stop.ByVisit? <==> Asks(u, v, o.visited))
            && forall n :: 0 < n < |o.visited| ==> !Asks(u, v, o.visited[..n])
  {
    var o := TailFrom(u, file, v, from, script);
    T.OneCall(Follow(u), file, v, from, script);
    StopsIff(u, v, o.visited, o.stop.ByVisit?);
  }

  lemma StopsIff(u: Setup, v: View, records: seq<Record>, stopped: bool)
    requires T.StopsWhereAsked(Follow(u), v, records, stopped)
    ensures stopped <==> Asks(u, v, records)
    ensures forall n :: 0 < n < |records| ==> !Asks(u, v, records[..n])
  {
    hide Step, Asks, T.GoesOn, T.Fold;
    var last := |records| - 1;
    var goes := if stopped then records[..last] else records;
    forall n | 0 < n <= |goes| ensures !Asks(u, v, records[..n]) {
      NotAsked(u, v, goes, n);
      assert goes[..n] == records[..n];
    }
    if stopped {
      StepAsks(u, v, goes, records[last]);
      assert goes + [records[last]] == records;
    } else if records != [] {
      assert records[..|records|] == records;
    } else {
      NothingAsks(u, v);
    }
  }

  lemma NothingAsks(u: Setup, v: View)
    ensures !Asks(u, v, [])
  {
  }
}
