/**
  The phases of one claude-pty run (internal/agent/claudepty/provider.go): tail to the end
  of the first turn; while background work is outstanding, alternate waiting for it to
  drain with waiting for the turn that reads its results.

  The outside world answers each tail attempt with a script of polls and says, afterwards,
  whether the job's context has ended and whether claude has exited. It is a function of
  the attempt number, so nothing bounds the number of attempts but the code itself.
*/
module Provider {
  import opened Common
  import opened Lines
  import opened Session
  import T = Tail

  /** The part of runState that decides when to stop, beside the bookkeeping. */
  datatype View = View(core: Core, turnDone: bool, deferring: bool, awaiting: bool)

  const INITIAL := View(FRESH, false, false, false)

  function Step(w: Wording, v: View, r: Record): (View, bool) {
    var core := Apply(w, v.core, Ops(w, r));
    var ended := IsTurnTerminal(r);
    (v.(core := core, turnDone := v.turnDone || ended),
     (ended && (!v.deferring || v.awaiting)) || (v.deferring && !v.awaiting && core.pending == {}))
  }

  function Visitor(w: Wording): (View, Record) -> (View, bool) {
    (v, r) => Step(w, v, r)
  }

  datatype Setup = Setup(w: Wording, decode: Bytes -> Option<Record>)

  function Follow(u: Setup): T.Follower<View, Record> {
    T.Follower(u.decode, Visitor(u.w))
  }

  datatype Attempt = Attempt(script: T.Script, jobEnded: bool, childExited: bool)

  /** `guard(k)`: asked after k attempts, the job's context has ended or claude has exited. */
  datatype World = World(attempt: nat -> Attempt, guard: nat -> bool)

  datatype Why = Done | JobEnded | ChildExited | Stalled

  /** How a wait ended. `clean` says every attempt stopped at a resumable point. */
  datatype Wait = Wait(offset: nat, view: View, visited: seq<Record>, attempts: nat, why: Why, clean: bool)

  function TailFrom(u: Setup, file: Bytes, v: View, from: nat, script: T.Script): (o: T.Outcome<View, Record>)
    requires from <= |file|
    ensures from <= o.offset <= |file|
    ensures o.offset == from ==> o.visited == [] && o.state == v
  {
    var o := T.Tail(Follow(u), file, v, from, [], script);
    T.OneCall(Follow(u), file, v, from, script);
    NothingTakenNothingVisited(u, file, v, from, o);
    o
  }

  lemma NothingTakenNothingVisited(u: Setup, file: Bytes, v: View, from: nat, o: T.Outcome<View, Record>)
    requires T.Accounted(Follow(u), file, v, from, o)
    ensures from <= o.offset <= |file|
    ensures o.offset == from ==> o.visited == [] && o.state == v
  {
    if o.offset == from {
      assert file[from..from] == [];
      LineFree([]);
    }
  }

  function Later(o: T.Outcome<View, Record>, rest: Wait): Wait {
    rest.(visited := o.visited + rest.visited, clean := T.Resumable(o.stop) && rest.clean)
  }

  function Now(o: T.Outcome<View, Record>, attempts: nat, why: Why): Wait {
    Wait(o.offset, o.state, o.visited, attempts, why, T.Resumable(o.stop))
  }

  /** Phase 2a: keep tailing while the session moves, until nothing is pending. */
  function AwaitDrain(u: Setup, file: Bytes, v: View, from: nat, world: World, k: nat): (r: Wait)
    requires from <= |file|
    ensures from <= r.offset <= |file|
    ensures k < r.attempts <= k + (r.offset - from) + 1
    ensures r.why.Done? <==> r.view.core.pending == {}
    decreases |file| - from
  {
    var a := world.attempt(k);
    var o := TailFrom(u, file, v, from, a.script);
    if o.state.core.pending == {} then Now(o, k + 1, Done)
    else if a.jobEnded then Now(o, k + 1, JobEnded)
    else if a.childExited then Now(o, k + 1, ChildExited)
    else if o.offset <= from then Now(o, k + 1, Stalled)
    else Later(o, AwaitDrain(u, file, o.state, o.offset, world, k + 1))
  }

  /** Phase 2b, once its flags are set: keep tailing until the follow-up turn ends. */
  function AwaitTurn(u: Setup, file: Bytes, v: View, from: nat, world: World, k: nat): (r: Wait)
    requires from <= |file|
    ensures from <= r.offset <= |file|
    ensures k < r.attempts <= k + (r.offset - from) + 1
    decreases |file| - from
  {
    var a := world.attempt(k);
    var o := TailFrom(u, file, v, from, a.script);
    if o.state.turnDone then Now(o, k + 1, Done)
    else if a.jobEnded then Now(o, k + 1, JobEnded)
    else if o.offset <= from then Now(o, k + 1, Stalled)
    else Later(o, AwaitTurn(u, file, o.state, o.offset, world, k + 1))
  }

  function AwaitSynthesis(u: Setup, file: Bytes, v: View, from: nat, world: World, k: nat): (r: Wait)
    requires from <= |file|
  {
    AwaitTurn(u, file, v.(awaiting := true, turnDone := false), from, world, k)
  }

  // ---- Run ----

  datatype Ending = AllDone | WaitEnded(why: Why) | Guarded

  /** `ok` is a nil error. */
  datatype RunEnd = RunEnd(ok: bool, offset: nat, view: View, visited: seq<Record>, attempts: nat, ending: Ending,
      clean: bool)

  function After(r: Wait, rest: RunEnd): RunEnd {
    rest.(visited := r.visited + rest.visited, clean := r.clean && rest.clean)
  }

  function Ends(r: Wait, ending: Ending): RunEnd {
    RunEnd(true, r.offset, r.view, r.visited, r.attempts, ending, r.clean)
  }

  /** One drain and, if it drained, the synthesis that follows it. */
  function Cycle(u: Setup, file: Bytes, v: View, from: nat, world: World, k: nat): (r: Wait)
    requires from <= |file|
    ensures from <= r.offset <= |file|
    ensures k < r.attempts <= k + (r.offset - from) + 2
  {
    var d := AwaitDrain(u, file, v.(awaiting := false, turnDone := false), from, world, k);
    if !d.why.Done? then d else
      var y := AwaitSynthesis(u, file, d.view, d.offset, world, d.attempts);
      Wait(y.offset, y.view, d.visited + y.visited, y.attempts, Done, d.clean && y.clean)
  }

  /** Work that is pending after a cycle that drained was dispatched by records it visited. */
  lemma NewWorkMeansProgress(u: Setup, file: Bytes, v: View, from: nat, world: World, k: nat)
    requires from <= |file|
    ensures var r := Cycle(u, file, v, from, world, k);
            r.why.Done? && r.view.core.pending != {} ==> from < r.offset
  {
  }

  /** Phase 2: drain and synthesis in turn, as long as work is outstanding. */
  function Phase2(u: Setup, file: Bytes, v: View, from: nat, world: World, k: nat): (r: RunEnd)
    requires from <= |file|
    ensures from <= r.offset <= |file|
    ensures r.ok && k <= r.attempts <= k + 3 * (r.offset - from) + 2
    decreases |file| - from
  {
    if v.core.pending == {} then RunEnd(true, from, v, [], k, AllDone, true)
    else if world.guard(k) then RunEnd(true, from, v, [], k, Guarded, true)
    else
      var r := Cycle(u, file, v, from, world, k);
      NewWorkMeansProgress(u, file, v, from, world, k);
      if !r.why.Done? then Ends(r, WaitEnded(r.why))
      else if r.view.core.pending == {} then Ends(r, AllDone)
      else After(r, Phase2(u, file, r.view, r.offset, world, r.attempts))
  }

  /** The whole run, from the size of the transcript at spawn time. */
  function Run(u: Setup, file: Bytes, from: nat, world: World): (r: RunEnd)
    requires from <= |file|
  {
    var o := TailFrom(u, file, INITIAL, from, world.attempt(0).script);
    RunAfterFirst(u, file, o, world)
  }

  /** What follows the first tail. */
  function RunAfterFirst(u: Setup, file: Bytes, o: T.Outcome<View, Record>, world: World): (r: RunEnd)
    requires o.offset <= |file|
  {
    var first := Now(o, 1, Done);
    if !o.state.turnDone then Ends(first, AllDone).(ok := false)
    else if o.state.core.pending == {} then Ends(first, AllDone)
    else After(first, Phase2(u, file, o.state.(deferring := true), o.offset, world, 1))
  }

  /** What a run hands to the runner. */
  datatype Report = Report(ok: bool, message: string, wakeup: Option<WakeupArgs>)

  function ReportOf(ok: bool, c: Core): Report {
    Report(ok, FinalMessage(c), c.wakeup)
  }
}
