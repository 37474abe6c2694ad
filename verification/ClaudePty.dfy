/**
  The claude-pty provider as it runs: runState with its fields updated in place, the visit
  callback, the tail loop and the phase loops (internal/agent/claudepty/provider.go and
  tail.go). Each method is proved against the function of the same name in Provider,
  Session or Tail.
*/
module ClaudePty {
  import opened Common
  import opened Lines
  import opened Session
  import P = Provider
  import T = Tail

  class RunState {
    const u: P.Setup
    var pendingBG: set<string>
    var wakeup: Option<WakeupArgs>
    var lastSeenText: string
    var finalText: string
    var turnDone: bool
    var toolNames: map<string, string>
    var bgTaskIDs: map<string, string>
    var stopRequests: map<string, string>
    var deferring: bool
    var awaitingSynthesis: bool

    function Bookkeeping(): Core
      reads this
    {
      Core(pendingBG, wakeup, lastSeenText, finalText, toolNames, bgTaskIDs, stopRequests)
    }

    function View(): P.View
      reads this
    {
      P.View(Bookkeeping(), turnDone, deferring, awaitingSynthesis)
    }

    constructor (u: P.Setup)
      ensures this.u == u && View() == P.INITIAL
    {
      this.u := u;
      pendingBG, wakeup, lastSeenText, finalText := {}, None, "", "";
      toolNames, bgTaskIDs, stopRequests := map[], map[], map[];
      turnDone, deferring, awaitingSynthesis := false, false, false;
    }

    method VisitUse(id: string, name: string, input: ToolInput)
      modifies this
      ensures View() == old(View()).(core := Use(old(Bookkeeping()), id, name, input))
    {
      hide ParseWakeup;
      if id != "" {
        toolNames := toolNames[id := name];
      }
      if name == "ScheduleWakeup" {
        var w := ParseWakeup(input);
        if w.Some? {
          wakeup := if w.value.stop then None else w;
        }
      } else if name == "TaskStop" {
        if id != "" && input.taskId != "" {
          stopRequests := stopRequests[id := input.taskId];
        }
      } else if name == "Bash" {
        if id != "" && input.background {
          pendingBG := pendingBG + {id};
        }
      }
    }

    /** A result that acknowledges background work: await it, and learn its task id. */
    method NoteDispatch(useId: string, result: string)
      modifies this`pendingBG, this`bgTaskIDs
      ensures Bookkeeping() == Acknowledge(u.w, old(Bookkeeping()), useId, result)
    {
      if useId != "" && IsAsyncLaunch(u.w, Get(toolNames, useId), result) {
        pendingBG := pendingBG + {useId};
      }
      if useId in pendingBG {
        var taskId := AnnouncedTask(u.w, result);
        if taskId != "" {
          bgTaskIDs := bgTaskIDs[taskId := useId];
        }
      }
    }

    method NoteStop(useId: string, isError: bool)
      modifies this`pendingBG, this`bgTaskIDs, this`stopRequests
      ensures Bookkeeping() == AnswerStop(old(Bookkeeping()), useId, isError)
    {
      if useId in stopRequests {
        var taskId := stopRequests[useId];
        stopRequests := stopRequests - {useId};
        if !isError && taskId in bgTaskIDs {
          pendingBG := pendingBG - {bgTaskIDs[taskId]};
          bgTaskIDs := bgTaskIDs - {taskId};
        }
      }
    }

    method VisitResult(useId: string, isError: bool, result: string)
      modifies this
      ensures View() == old(View()).(core := Answer(u.w, old(Bookkeeping()), useId, isError, result))
    {
      NoteDispatch(useId, result);
      NoteStop(useId, isError);
      toolNames := toolNames - {useId};
    }

    method VisitUses(uses: seq<Op>)
      requires forall i :: 0 <= i < |uses| ==> uses[i].Used?
      modifies this
      ensures View() == old(View()).(core := Apply(u.w, old(Bookkeeping()), uses))
    {
      var i := 0;
      while i < |uses|
        invariant i <= |uses|
        invariant View() == old(View()).(core := Bookkeeping())
        invariant Apply(u.w, Bookkeeping(), uses[i..]) == Apply(u.w, old(Bookkeeping()), uses)
      {
        assert uses[i..][0] == uses[i] && uses[i..][1..] == uses[i + 1..];
        VisitUse(uses[i].id, uses[i].name, uses[i].input);
        i := i + 1;
      }
    }

    method VisitResults(answers: seq<Op>)
      requires forall i :: 0 <= i < |answers| ==> answers[i].Answered?
      modifies this
      ensures View() == old(View()).(core := Apply(u.w, old(Bookkeeping()), answers))
    {
      var i := 0;
      while i < |answers|
        invariant i <= |answers|
        invariant View() == old(View()).(core := Bookkeeping())
        invariant Apply(u.w, Bookkeeping(), answers[i..]) == Apply(u.w, old(Bookkeeping()), answers)
      {
        assert answers[i..][0] == answers[i] && answers[i..][1..] == answers[i + 1..];
        VisitResult(answers[i].useId, answers[i].isError, answers[i].result);
        i := i + 1;
      }
    }

    /** The tail callback: updates the state, answers whether to stop tailing. */
    method Visit(rec: Record) returns (stop: bool)
      modifies this
      ensures (View(), stop) == P.Step(u.w, old(View()), rec)
    {
      ghost var c0 := Bookkeeping();
      var text := AssistantText(rec);
      if text != "" {
        lastSeenText := text;
      }
      ghost var c1 := Bookkeeping();
      if rec.kind == "assistant" && !rec.sidechain {
        UsesAreUses(rec.content);
        VisitUses(Uses(rec.content));
      }
      ghost var c2 := Bookkeeping();
      if rec.kind == "user" && !rec.sidechain {
        AnswersAreAnswers(rec.content);
        VisitResults(Answers(rec.content));
      }
      ghost var c3 := Bookkeeping();
      var id := CompletedUse(u.w, rec);
      if id != "" {
        pendingBG := pendingBG - {id};
      }
      ghost var c4 := Bookkeeping();
      if IsTurnTerminal(rec) {
        turnDone := true;
        finalText := lastSeenText;
      }
      StagesAreOps(u.w, rec, c0, c1, c2, c3, c4);
      if IsTurnTerminal(rec) {
        if !deferring {
          return true;
        }
        if awaitingSynthesis {
          return true;
        }
      }
      return deferring && !awaitingSynthesis && pendingBG == {};
    }

    /** Hands complete lines to Visit until it stops or the buffer holds none. */
    method TakeLines(buf0: Bytes) returns (rest: Bytes, stopped: bool, ghost visited: seq<Record>)
      modifies this
      ensures T.Fed(View(), visited, stopped, rest) == T.Feed(P.Follow(u), old(View()), buf0)
    {
      rest, visited := buf0, [];
      ghost var f := P.Follow(u);
      while true
        invariant T.Feed(f, old(View()), buf0) == Handed(visited, T.Feed(f, View(), rest))
        decreases |rest|
      {
        var i := FirstNewline(rest);
        if i == |rest| {
          assert visited + [] == visited;
          return rest, false, visited;
        }
        var line := rest[..i];
        ghost var before, v := rest, View();
        rest := rest[i + 1..];
        var parsed := T.Parse(u.decode, line);
        if parsed.Some? {
          stopped := Visit(parsed.value);
          Associative(visited, [parsed.value], T.Feed(f, View(), rest).visited);
          visited := visited + [parsed.value];
          if stopped {
            return rest, true, visited;
          }
        }
      }
    }

    /** One tail of the transcript (tailSession with the visit callback). */
    method TailSession(file: Bytes, from: nat, script: T.Script)
        returns (offset: nat, stop: T.Stop, ghost visited: seq<Record>)
      requires from <= |file|
      modifies this
      ensures var o := P.TailFrom(u, file, old(View()), from, script);
              offset == o.offset && stop == o.stop && View() == o.state && visited == o.visited
    {
      var buf: Bytes, polls := [], script;
      offset, visited := from, [];
      ghost var f := P.Follow(u);
      ghost var later := T.Tail(f, file, View(), from, [], script);
      ghost var whole := later;
      assert [] + whole.visited == whole.visited;
      while true
        invariant |buf| <= offset <= |file|
        invariant later == T.Tail(f, file, View(), offset, buf, polls)
        invariant whole == T.Prepend(visited, later)
        decreases polls
      {
        assert visited + [] == visited;
        if polls.Expired? || polls.poll.cancelled {
          return offset - |buf|, T.Cancelled, visited;
        }
        var p := polls.poll;
        var seen := T.Visible(file, p);
        if p.stat.StatFailed? {
          return offset, T.StatError, visited;
        }
        if seen <= offset {
          if p.dead {
            return offset - |buf|, T.ChildDead, visited;
          }
          polls := polls.next;
          continue;
        }
        if p.readFailed {
          return offset, T.ReadError, visited;
        }
        var off := offset + T.Min(p.got, seen - offset);
        T.TurnReads(f, file, View(), offset, buf, polls, off, buf + file[offset..off]);
        buf, offset, polls := buf + file[offset..off], off, polls.next;
        assert later == T.AfterRead(f, file, View(), offset, buf, polls);
        if |buf| > T.MAX_LINE_LEN {
          return offset, T.Oversize, visited;
        }
        ghost var v, read := View(), buf;
        var rest, stopped, taken := TakeLines(buf);
        if stopped {
          return offset - |rest|, T.ByVisit, visited + taken;
        }
        later := T.Tail(f, file, View(), offset, rest, polls);
        T.GoesOnAfterRead(f, file, v, offset, read, polls);
        PrependTwice(visited, taken, later);
        buf, visited := rest, visited + taken;
      }
    }

    /** Phase 2a. `k` counts the tail attempts made so far in the run. */
    method AwaitDrain(file: Bytes, from: nat, world: P.World, k0: nat)
      returns (offset: nat, k: nat, why: P.Why, ghost r: P.Wait)
      requires from <= |file|
      modifies this
      ensures r == P.AwaitDrain(u, file, old(View()), from, world, k0)
      ensures offset == r.offset && k == r.attempts && why == r.why && View() == r.view
    {
      offset, k := from, k0;
      r := P.AwaitDrain(u, file, View(), from, world, k0);
      ghost var visited, clean, rest := [], true, r;
      assert [] + r.visited == r.visited;
      while true
        invariant from <= offset <= |file|
        invariant rest == P.AwaitDrain(u, file, View(), offset, world, k)
        invariant r == Resumed(visited, clean, rest)
        decreases |file| - offset
      {
        var a := world.attempt(k);
        ghost var v := View();
        var newOffset, stop, seen := TailSession(file, offset, a.script);
        var progressed := newOffset > offset;
        k := k + 1;
        if pendingBG == {} {
          return newOffset, k, P.Done, r;
        }
        if a.jobEnded {
          return newOffset, k, P.JobEnded, r;
        }
        if a.childExited {
          return newOffset, k, P.ChildExited, r;
        }
        if !progressed {
          return newOffset, k, P.Stalled, r;
        }
        rest := P.AwaitDrain(u, file, View(), newOffset, world, k);
        ResumedLater(visited, clean, P.TailFrom(u, file, v, offset, a.script), rest);
        visited, clean, offset := visited + seen, clean && T.Resumable(stop), newOffset;
      }
    }

    /** Phase 2b. */
    method AwaitSynthesis(file: Bytes, from: nat, world: P.World, k0: nat)
      returns (offset: nat, k: nat, ghost r: P.Wait)
      requires from <= |file|
      modifies this
      ensures r == P.AwaitSynthesis(u, file, old(View()), from, world, k0)
      ensures offset == r.offset && k == r.attempts && View() == r.view
    {
      offset, k := from, k0;
      awaitingSynthesis, turnDone := true, false;
      r := P.AwaitTurn(u, file, View(), from, world, k0);
      ghost var visited, clean, rest := [], true, r;
      assert [] + r.visited == r.visited;
      while true
        invariant from <= offset <= |file|
        invariant rest == P.AwaitTurn(u, file, View(), offset, world, k)
        invariant r == Resumed(visited, clean, rest)
        decreases |file| - offset
      {
        var a := world.attempt(k);
        ghost var v := View();
        var newOffset, stop, seen := TailSession(file, offset, a.script);
        var progressed := newOffset > offset;
        k := k + 1;
        if turnDone || a.jobEnded || !progressed {
          return newOffset, k, r;
        }
        rest := P.AwaitTurn(u, file, View(), newOffset, world, k);
        ResumedLater(visited, clean, P.TailFrom(u, file, v, offset, a.script), rest);
        visited, clean, offset := visited + seen, clean && T.Resumable(stop), newOffset;
      }
    }

    /** The drain and synthesis loop of Run. */
    method Defer(file: Bytes, from: nat, world: P.World, k0: nat) returns (offset: nat, k: nat, ghost r: P.RunEnd)
      requires from <= |file|
      modifies this
      ensures r == P.Phase2(u, file, old(View()), from, world, k0)
      ensures offset == r.offset && k == r.attempts && View() == r.view
    {
      offset, k := from, k0;
      r := P.Phase2(u, file, View(), from, world, k0);
      ghost var done, rest := Nothing(View(), from, k0), r;
      assert [] + r.visited == r.visited;
      while pendingBG != {}
        invariant from <= offset <= |file|
        invariant rest == P.Phase2(u, file, View(), offset, world, k)
        invariant r == P.After(done, rest)
        decreases |file| - offset
      {
        if world.guard(k) {
          break;
        }
        ghost var v, o0, j0 := View(), offset, k;
        awaitingSynthesis, turnDone := false, false;
        var why;
        ghost var d, y;
        offset, k, why, d := AwaitDrain(file, offset, world, k);
        if pendingBG != {} {
          return offset, k, r;
        }
        offset, k, y := AwaitSynthesis(file, offset, world, k);
        ghost var c := CycleIs(u, file, v, o0, world, j0, d, y);
        ghost var next := P.Phase2(u, file, View(), offset, world, k);
        CycleThenRest(u, file, v, o0, world, j0, c, next);
        AfterTwice(done, c, next);
        done, rest := JoinWaits(done, c), next;
      }
    }

    /** The whole run, from the size of the transcript at spawn time. */
    method Run(file: Bytes, from: nat, world: P.World) returns (report: P.Report, ghost r: P.RunEnd)
      requires from <= |file|
      requires View() == P.INITIAL
      modifies this
      ensures r == P.Run(u, file, from, world)
      ensures View() == r.view && report == P.ReportOf(r.ok, r.view.core)
    {
      ghost var o := P.TailFrom(u, file, View(), from, world.attempt(0).script);
      var offset, stop, visited := TailSession(file, from, world.attempt(0).script);
      if !turnDone {
        r := P.Ends(P.Now(o, 1, P.Done), P.AllDone).(ok := false);
        return P.ReportOf(false, Bookkeeping()), r;
      }
      r := P.Ends(P.Now(o, 1, P.Done), P.AllDone);
      if pendingBG != {} {
        deferring := true;
        var last, k;
        ghost var rest;
        last, k, rest := Defer(file, offset, world, 1);
        r := P.After(P.Now(o, 1, P.Done), rest);
      }
      report := P.ReportOf(true, Bookkeeping());
    }
  }

  function Resumed(visited: seq<Record>, clean: bool, rest: P.Wait): P.Wait {
    rest.(visited := visited + rest.visited, clean := clean && rest.clean)
  }

  lemma ResumedLater(visited: seq<Record>, clean: bool, o: T.Outcome<P.View, Record>, rest: P.Wait)
    ensures Resumed(visited, clean, P.Later(o, rest)) ==
        Resumed(visited + o.visited, clean && T.Resumable(o.stop), rest)
  {
    Associative(visited, o.visited, rest.visited);
  }

  function Nothing(v: P.View, from: nat, k: nat): P.Wait {
    P.Wait(from, v, [], k, P.Done, true)
  }

  function JoinWaits(a: P.Wait, b: P.Wait): P.Wait {
    b.(visited := a.visited + b.visited, clean := a.clean && b.clean)
  }

  lemma AfterTwice(a: P.Wait, b: P.Wait, rest: P.RunEnd)
    ensures P.After(a, P.After(b, rest)) == P.After(JoinWaits(a, b), rest)
  {
    Associative(a.visited, b.visited, rest.visited);
  }

  lemma CycleIs(u: P.Setup, file: Bytes, v: P.View, from: nat, world: P.World, k: nat, d: P.Wait, y: P.Wait)
    returns (c: P.Wait)
    requires from <= |file|
    requires d == P.AwaitDrain(u, file, v.(awaiting := false, turnDone := false), from, world, k) && d.why.Done?
    requires y == P.AwaitSynthesis(u, file, d.view, d.offset, world, d.attempts)
    ensures c == P.Cycle(u, file, v, from, world, k) && c.why.Done?
    ensures c.view == y.view && c.offset == y.offset && c.attempts == y.attempts
    ensures c.view.core.pending != {} ==> from < c.offset
  {
    c := P.Cycle(u, file, v, from, world, k);
    P.NewWorkMeansProgress(u, file, v, from, world, k);
  }

  /** A cycle that drained is followed by the rest of Phase 2, even when nothing is left. */
  lemma CycleThenRest(u: P.Setup, file: Bytes, v: P.View, from: nat, world: P.World, k: nat, c: P.Wait, rest: P.RunEnd)
    requires from <= |file| && v.core.pending != {} && !world.guard(k)
    requires c == P.Cycle(u, file, v, from, world, k) && c.why.Done?
    requires rest == P.Phase2(u, file, c.view, c.offset, world, c.attempts)
    ensures P.Phase2(u, file, v, from, world, k) == P.After(c, rest)
  {
    P.NewWorkMeansProgress(u, file, v, from, world, k);
    assert c.visited + [] == c.visited;
  }

  lemma PrependTwice(a: seq<Record>, b: seq<Record>, o: T.Outcome<P.View, Record>)
    ensures T.Prepend(a, T.Prepend(b, o)) == T.Prepend(a + b, o)
  {
    Associative(a, b, o.visited);
  }

  function Handed(earlier: seq<Record>, d: T.Fed<P.View, Record>): T.Fed<P.View, Record> {
    d.(visited := earlier + d.visited)
  }

  /** The stages of visit, run one after the other, are the operations of the record. */
  lemma StagesAreOps(w: Wording, rec: Record, c0: Core, c1: Core, c2: Core, c3: Core, c4: Core)
    requires c1 == if AssistantText(rec) != "" then c0.(lastText := AssistantText(rec)) else c0
    requires c2 == if rec.kind == "assistant" && !rec.sidechain then Apply(w, c1, Uses(rec.content)) else c1
    requires c3 == if rec.kind == "user" && !rec.sidechain then Apply(w, c2, Answers(rec.content)) else c2
    requires c4 == if CompletedUse(w, rec) != "" then c3.(pending := c3.pending - {CompletedUse(w, rec)}) else c3
    ensures Apply(w, c0, Ops(w, rec)) == if IsTurnTerminal(rec) then c4.(finalText := c4.lastText) else c4
  {
    var said := if AssistantText(rec) != "" then [Said(AssistantText(rec))] else [];
    var uses := if rec.kind == "assistant" && !rec.sidechain then Uses(rec.content) else [];
    var answers := if rec.kind == "user" && !rec.sidechain then Answers(rec.content) else [];
    var done := if CompletedUse(w, rec) != "" then [Notified(CompletedUse(w, rec))] else [];
    var end := if IsTurnTerminal(rec) then [TurnEnded] else [];
    ApplyAppend(w, c0, said + uses + answers + done, end);
    ApplyAppend(w, c0, said + uses + answers, done);
    ApplyAppend(w, c0, said + uses, answers);
    ApplyAppend(w, c0, said, uses);
    ApplyUpToOne(w, c0, said);
    ApplyUpToOne(w, c3, done);
    ApplyUpToOne(w, c4, end);
  }

  lemma ApplyUpToOne(w: Wording, c: Core, ops: seq<Op>)
    requires |ops| <= 1
    ensures Apply(w, c, ops) == if ops == [] then c else OpStep(w, c, ops[0])
  {
    if ops != [] {
      assert ops[1..] == [];
    }
  }
}
