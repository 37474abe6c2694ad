/**
  What one transcript record does to a run, read off the record's own fields
  (internal/agent/claudepty/records.go and runState.visit in provider.go).
*/
module Records {
  import opened Common
  import opened Session

  function Visited(w: Wording, c: Core, r: Record): Core { ApplyRecords(w, c, [r]) }

  lemma VisitedIsOps(w: Wording, c: Core, r: Record)
    ensures Visited(w, c, r) == Apply(w, c, Ops(w, r))
  {
    var none := [r][1..];
    assert none == [];
    assert ApplyRecords(w, Apply(w, c, Ops(w, r)), none) == Apply(w, c, Ops(w, r));
  }

  lemma ApplyOne(w: Wording, c: Core, op: Op)
    ensures Apply(w, c, [op]) == OpStep(w, c, op)
  {
    assert [op][1..] == [];
  }

  // ---- whole records ----

  /** Sidechain records, system records other than a turn's end, and unknown kinds change nothing. */
  lemma IgnoredRecord(w: Wording, c: Core, r: Record)
    requires r.kind !in {"assistant", "user", "system", "attachment"}
             || (r.kind != "attachment" && r.sidechain)
             || (r.kind == "system" && r.subtype != "turn_duration")
    ensures Visited(w, c, r) == c
  {
    VisitedIsOps(w, c, r);
    assert Ops(w, r) == [];
  }

  /** A turn's end keeps the last text as the message, and nothing else changes. */
  lemma TurnEnd(w: Wording, c: Core, r: Record)
    requires r.kind == "system" && r.subtype == "turn_duration" && !r.sidechain
    ensures Visited(w, c, r) == c.(finalText := c.lastText)
  {
    VisitedIsOps(w, c, r);
    assert Ops(w, r) == [TurnEnded];
    ApplyOne(w, c, TurnEnded);
  }

  /** The record is a completion notification whose prompt names this tool use. */
  predicate Notifies(w: Wording, r: Record, id: string) {
    && r.kind == "attachment" && r.attachment.Some?
    && r.attachment.value.kind == "queued_command" && r.attachment.value.commandMode == "task-notification"
    && id != "" && w.completedUse(r.attachment.value.prompt) == id
  }

  /** A notification ends the use it names; any other attachment changes nothing. */
  lemma AttachmentRecord(w: Wording, c: Core, r: Record)
    requires r.kind == "attachment"
    ensures forall id :: Notifies(w, r, id) ==> Visited(w, c, r) == c.(pending := c.pending - {id})
    ensures (forall id :: !Notifies(w, r, id)) ==> Visited(w, c, r) == c
  {
    VisitedIsOps(w, c, r);
    var id := CompletedUse(w, r);
    if id != "" {
      assert Notifies(w, r, id) && Ops(w, r) == [Notified(id)];
      ApplyOne(w, c, Notified(id));
    } else {
      assert Ops(w, r) == [];
    }
  }

  // ---- the blocks of a message ----

  lemma UsesCons(s: seq<Block>)
    requires s != []
    ensures Uses(s) == Uses([s[0]]) + Uses(s[1..])
  {
    assert [s[0]][1..] == [];
  }

  lemma {:induction false} UsesAppend(a: seq<Block>, b: seq<Block>)
    ensures Uses(a + b) == Uses(a) + Uses(b)
    decreases |a|
  {
    if a == [] {
      assert a + b == b;
    } else {
      UsesAppend(a[1..], b);
      UsesCons(a);
      UsesCons(a + b);
      hide Uses;
      assert (a + b)[1..] == a[1..] + b;
      Associative(Uses([a[0]]), Uses(a[1..]), Uses(b));
    }
  }

  lemma AnswersCons(s: seq<Block>)
    requires s != []
    ensures Answers(s) == Answers([s[0]]) + Answers(s[1..])
  {
    assert [s[0]][1..] == [];
  }

  lemma {:induction false} AnswersAppend(a: seq<Block>, b: seq<Block>)
    ensures Answers(a + b) == Answers(a) + Answers(b)
    decreases |a|
  {
    if a == [] {
      assert a + b == b;
    } else {
      AnswersAppend(a[1..], b);
      AnswersCons(a);
      AnswersCons(a + b);
      hide Answers;
      assert (a + b)[1..] == a[1..] + b;
      Associative(Answers([a[0]]), Answers(a[1..]), Answers(b));
    }
  }

  /** Two texts with a blank line between them, unless one is empty. */
  function Joined(x: string, y: string): string {
    if x == "" then y else if y == "" then x else x + "\n\n" + y
  }

  lemma JoinedTwice(x: string, y: string, z: string)
    ensures Joined(Joined(x, y), z) == Joined(x, Joined(y, z))
  {
    if x != "" && y != "" && z != "" {
      assert x + "\n\n" + y + "\n\n" + z == x + "\n\n" + (y + "\n\n" + z);
    }
  }

  lemma {:induction false} TextsJoin(a: seq<Block>, b: seq<Block>)
    ensures JoinTexts(a + b) == Joined(JoinTexts(a), JoinTexts(b))
    decreases |b|
  {
    if b == [] {
      assert a + b == a;
    } else {
      var n := |b| - 1;
      TextsJoin(a, b[..n]);
      assert (a + b)[..|a| + n] == a + b[..n] && (a + b)[|a| + n] == b[n];
      var last := if b[n].Text? then b[n].text else "";
      JoinedTwice(JoinTexts(a), JoinTexts(b[..n]), last);
    }
  }

  lemma SaysText(w: Wording, c: Core, r: Record)
    requires r.kind == "assistant" && !r.sidechain
    ensures var text := JoinTexts(r.content);
            Visited(w, c, r) == Apply(w, if text == "" then c else c.(lastText := text), Uses(r.content))
  {
    VisitedIsOps(w, c, r);
    var text := JoinTexts(r.content);
    var said := if text == "" then [] else [Said(text)];
    assert Ops(w, r) == said + Uses(r.content);
    ApplyAppend(w, c, said, Uses(r.content));
    if text != "" {
      ApplyOne(w, c, Said(text));
    }
  }

  lemma {:induction false} UsesLeaveTexts(w: Wording, c: Core, ops: seq<Op>, text: string)
    requires forall i :: 0 <= i < |ops| ==> ops[i].Used?
    ensures Apply(w, c.(lastText := text), ops) == Apply(w, c, ops).(lastText := text)
    ensures Apply(w, c, ops).lastText == c.lastText
    decreases |ops|
  {
    if ops != [] {
      UseLeavesTexts(w, c, ops[0], text);
      hide OpStep;
      UsesLeaveTexts(w, OpStep(w, c, ops[0]), ops[1..], text);
    }
  }

  lemma UseLeavesTexts(w: Wording, c: Core, op: Op, text: string)
    requires op.Used?
    ensures OpStep(w, c.(lastText := text), op) == OpStep(w, c, op).(lastText := text)
    ensures OpStep(w, c, op).lastText == c.lastText
  {
    hide Use;
    CallLeavesTexts(c, op.id, op.name, op.input, text);
  }

  lemma CallLeavesTexts(c: Core, id: string, name: string, input: ToolInput, text: string)
    ensures Use(c.(lastText := text), id, name, input) == Use(c, id, name, input).(lastText := text)
    ensures Use(c, id, name, input).lastText == c.lastText
  {
    hide ParseWakeup;
    if name == "ScheduleWakeup" {
    } else if name == "TaskStop" {
    } else if name == "Bash" {
    }
  }

  /** A message's text is its texts in order, empty ones left out; one without text leaves the last text. */
  lemma MessageText(w: Wording, c: Core, r: Record, a: seq<Block>, b: seq<Block>)
    requires r.kind == "assistant" && !r.sidechain && r.content == a + b
    ensures var empty := c.(lastText := "");
            var x, y := Visited(w, empty, r.(content := a)).lastText, Visited(w, empty, r.(content := b)).lastText;
            Visited(w, c, r).lastText == if x == "" && y == "" then c.lastText else Joined(x, y)
  {
    var empty := c.(lastText := "");
    TextOf(w, c, r);
    TextOf(w, empty, r.(content := a));
    TextOf(w, empty, r.(content := b));
    TextsJoin(a, b);
  }

  lemma TextOf(w: Wording, c: Core, r: Record)
    requires r.kind == "assistant" && !r.sidechain
    ensures Visited(w, c, r).lastText == if JoinTexts(r.content) == "" then c.lastText else JoinTexts(r.content)
  {
    SaysText(w, c, r);
    UsesAreUses(r.content);
    var text := JoinTexts(r.content);
    UsesLeaveTexts(w, if text == "" then c else c.(lastText := text), Uses(r.content), "");
  }

  /** Its tool calls take effect one after the other. */
  lemma CallsInTurn(w: Wording, c: Core, r: Record, a: seq<Block>, b: seq<Block>)
    requires r.kind == "assistant" && !r.sidechain && r.content == a + b
    ensures Visited(w, c, r) ==
            Visited(w, Visited(w, c, r.(content := a)), r.(content := b)).(lastText := Visited(w, c, r).lastText)
  {
    var first := Visited(w, c, r.(content := a));
    UsesAreUses(a);
    UsesAreUses(b);
    UsesAreUses(r.content);
    CallsOnly(w, c, r);
    CallsOnly(w, c, r.(content := a));
    CallsOnly(w, first, r.(content := b));
    UsesAppend(a, b);
    ApplyAppend(w, c, Uses(a), Uses(b));
    UsesLeaveTexts(w, Apply(w, c, Uses(a)), Uses(b), first.lastText);
  }

  lemma CallsOnly(w: Wording, c: Core, r: Record)
    requires r.kind == "assistant" && !r.sidechain
    ensures Visited(w, c, r) == Apply(w, c, Uses(r.content)).(lastText := Visited(w, c, r).lastText)
  {
    SaysText(w, c, r);
    UsesAreUses(r.content);
    if JoinTexts(r.content) != "" {
      UsesLeaveTexts(w, c, Uses(r.content), JoinTexts(r.content));
    }
  }

  /** And so do the results in a user record. */
  lemma ResultsInTurn(w: Wording, c: Core, r: Record, a: seq<Block>, b: seq<Block>)
    requires r.kind == "user" && !r.sidechain && r.content == a + b
    ensures Visited(w, c, r) == Visited(w, Visited(w, c, r.(content := a)), r.(content := b))
  {
    ResultsOnly(w, c, r);
    ResultsOnly(w, c, r.(content := a));
    ResultsOnly(w, Visited(w, c, r.(content := a)), r.(content := b));
    AnswersAppend(a, b);
    ApplyAppend(w, c, Answers(a), Answers(b));
  }

  lemma ResultsOnly(w: Wording, c: Core, r: Record)
    requires r.kind == "user" && !r.sidechain
    ensures Visited(w, c, r) == Apply(w, c, Answers(r.content))
  {
    VisitedIsOps(w, c, r);
    assert Ops(w, r) == Answers(r.content);
  }

  // ---- single blocks ----

  /** Text is said; blocks other than calls and text have no effect in an assistant record. */
  lemma OneText(w: Wording, c: Core, r: Record)
    requires r.kind == "assistant" && !r.sidechain && |r.content| == 1 && !r.content[0].ToolUse?
    ensures Visited(w, c, r) ==
            if r.content[0].Text? && r.content[0].text != "" then c.(lastText := r.content[0].text) else c
  {
    SaysText(w, c, r);
    assert r.content[1..] == [] && r.content[..0] == [];
  }

  /** What a tool call changes. */
  lemma OneCall(w: Wording, c: Core, r: Record)
    requires r.kind == "assistant" && !r.sidechain && |r.content| == 1 && r.content[0].ToolUse?
    ensures var b, c' := r.content[0], Visited(w, c, r);
            && (b.name == "" ==> c' == c)
            && c' == c.(pending := c'.pending, wakeup := c'.wakeup, names := c'.names, stops := c'.stops)
            && c'.pending == c.pending + (if b.name == "Bash" && b.input.background && b.id != "" then {b.id} else {})
            && c'.names == (if b.id != "" && b.name != "" then c.names[b.id := b.name] else c.names)
            && c'.stops == (if b.name == "TaskStop" && b.id != "" && b.input.taskId != ""
                            then c.stops[b.id := b.input.taskId] else c.stops)
            && c'.wakeup == (if b.name != "ScheduleWakeup" || b.input.wakeup.None? then c.wakeup
                             else if b.input.wakeup.value.stop then None
                             else if b.input.wakeup.value.delaySeconds <= 0 then c.wakeup
                             else b.input.wakeup)
  {
    SaysText(w, c, r);
    var b := r.content[0];
    assert r.content[1..] == [] && r.content[..0] == [];
    if b.name != "" {
      assert Uses(r.content) == [Used(b.id, b.name, b.input)];
      ApplyOne(w, c, Used(b.id, b.name, b.input));
    }
  }

  /** The text of a result says that work goes on in the background and will be notified. */
  predicate Launches(w: Wording, tool: string, text: string) {
    && text != ""
    && if tool in {"", "Agent"} then w.isAgentMarker(text) else
         && tool !in {"Bash", "Edit", "Glob", "Grep", "NotebookEdit", "Read", "Skill",
                      "TaskOutput", "WebFetch", "WebSearch", "Write"}
         && !("mcp__" <= tool) && |text| <= 2000 && w.isPromise(text)
  }

  /** What a tool result changes: it may dispatch the use, name its task, and answer a stop. */
  lemma OneResult(w: Wording, c: Core, r: Record)
    requires r.kind == "user" && !r.sidechain && |r.content| == 1 && r.content[0].ToolResult?
    ensures var b, c' := r.content[0], Visited(w, c, r);
            var tool := if b.useId in c.names then c.names[b.useId] else "";
            var awaited := c.pending + (if b.useId != "" && Launches(w, tool, b.result) then {b.useId} else {});
            var task := if b.result == "" then "" else w.announcedTask(b.result);
            var known := if b.useId in awaited && task != "" then c.tasks[task := b.useId] else c.tasks;
            var stopped := b.useId in c.stops && !b.isError && c.stops[b.useId] in known;
            && c' == c.(pending := c'.pending, names := c'.names, tasks := c'.tasks, stops := c'.stops)
            && c'.pending == (if stopped then awaited - {known[c.stops[b.useId]]} else awaited)
            && c'.tasks == (if stopped then known - {c.stops[b.useId]} else known)
            && c'.stops == c.stops - {b.useId} && c'.names == c.names - {b.useId}
  {
    ResultsOnly(w, c, r);
    var b := r.content[0];
    assert r.content[1..] == [];
    assert Answers(r.content) == [Answered(b.useId, b.isError, b.result)];
    ApplyOne(w, c, Answered(b.useId, b.isError, b.result));
    LaunchesIff(w, Get(c.names, b.useId), b.result);
    ResultReads(w, c, b.useId, b.isError, b.result);
  }

  lemma LaunchesIff(w: Wording, tool: string, text: string)
    ensures IsAsyncLaunch(w, tool, text) <==> Launches(w, tool, text)
  {
  }

  /** The state just after the acknowledgement, and what a stop answered then does. */
  lemma ResultReads(w: Wording, c: Core, useId: string, isError: bool, result: string)
    ensures var c' := Answer(w, c, useId, isError, result);
            var awaited := c.pending +
                (if useId != "" && IsAsyncLaunch(w, Get(c.names, useId), result) then {useId} else {});
            var task := AnnouncedTask(w, result);
            var known := if useId in awaited && task != "" then c.tasks[task := useId] else c.tasks;
            var stopped := useId in c.stops && !isError && c.stops[useId] in known;
            && c' == c.(pending := c'.pending, names := c'.names, tasks := c'.tasks, stops := c'.stops)
            && c'.pending == (if stopped then awaited - {known[c.stops[useId]]} else awaited)
            && c'.tasks == (if stopped then known - {c.stops[useId]} else known)
            && c'.stops == c.stops - {useId} && c'.names == c.names - {useId}
  {
    hide IsAsyncLaunch, AnnouncedTask;
    var d := Acknowledge(w, c, useId, result);
    assert d.pending == c.pending +
        (if useId != "" && IsAsyncLaunch(w, Get(c.names, useId), result) then {useId} else {});
    assert d.stops == c.stops && d.names == c.names;
    hide Acknowledge;
    assert useId !in c.stops ==> c.stops - {useId} == c.stops;
  }

  /** Other blocks of a user record have no effect. */
  lemma OneOther(w: Wording, c: Core, r: Record)
    requires r.kind == "user" && !r.sidechain && |r.content| == 1 && !r.content[0].ToolResult?
    ensures Visited(w, c, r) == c
  {
    ResultsOnly(w, c, r);
    assert r.content[1..] == [];
  }

  lemma EmptyMessage(w: Wording, c: Core, r: Record)
    requires r.kind in {"assistant", "user"} && r.content == []
    ensures Visited(w, c, r) == c
  {
    VisitedIsOps(w, c, r);
    assert Ops(w, r) == [];
  }

  // ---- what ends background work ----

  /** The run as it is before block i of the record. */
  function Before(w: Wording, c: Core, r: Record, i: nat): Core
    requires i <= |r.content|
  {
    Visited(w, c, r.(content := r.content[..i]))
  }

  /** Block i is the error-free result of a request to stop the task mapped to this use. */
  ghost predicate StopsAt(w: Wording, c: Core, r: Record, i: nat, id: string)
    requires i < |r.content|
  {
    var b, d := r.content[i], Before(w, c, r, i);
    && b.ToolResult? && !b.isError && b.useId in d.stops
    && (InTable(d.tasks, d.stops[b.useId], id) || (b.useId == id && w.announcedTask(b.result) == d.stops[b.useId]))
  }

  lemma BlockEnds(w: Wording, c: Core, r: Record, b: Block, id: string)
    requires r.kind == "user" && !r.sidechain && r.content == [b]
    requires id in c.pending && id !in Visited(w, c, r).pending
    ensures b.ToolResult? && !b.isError && b.useId in c.stops
    ensures InTable(c.tasks, c.stops[b.useId], id) || (b.useId == id && w.announcedTask(b.result) == c.stops[b.useId])
  {
    if b.ToolResult? {
      OneResult(w, c, r);
    } else {
      OneOther(w, c, r);
    }
  }

  lemma {:induction false} ResultsEnd(w: Wording, c: Core, r: Record, n: nat, id: string) returns (i: nat)
    requires r.kind == "user" && !r.sidechain && n <= |r.content|
    requires id in c.pending && id !in Before(w, c, r, n).pending
    ensures i < n && StopsAt(w, c, r, i, id)
    decreases n
  {
    if n == 0 {
      EmptyMessage(w, c, r.(content := r.content[..0]));
      assert false;
    } else {
      var m := n - 1;
      var front := r.(content := r.content[..n]);
      assert r.content[..n] == r.content[..m] + [r.content[m]];
      ResultsInTurn(w, c, front, r.content[..m], [r.content[m]]);
      if id in Before(w, c, r, m).pending {
        BlockEnds(w, Before(w, c, r, m), r.(content := [r.content[m]]), r.content[m], id);
        i := m;
      } else {
        i := ResultsEnd(w, c, r, m, id);
      }
    }
  }

  lemma {:induction false} CallsKeep(w: Wording, c: Core, ops: seq<Op>)
    requires forall i :: 0 <= i < |ops| ==> ops[i].Used?
    ensures c.pending <= Apply(w, c, ops).pending
    decreases |ops|
  {
    hide ParseWakeup;
    if ops != [] {
      CallsKeep(w, OpStep(w, c, ops[0]), ops[1..]);
    }
  }

  /**
    A use leaves the pending set at a record only if that is a notification naming it, or a user record of
    the main chain with the error-free result of a stop of the task mapped to it.
  */
  lemma LeavesPendingOnlyIf(w: Wording, c: Core, r: Record, id: string)
    requires id in c.pending && id !in Visited(w, c, r).pending
    ensures Notifies(w, r, id)
            || (r.kind == "user" && !r.sidechain && exists i :: 0 <= i < |r.content| && StopsAt(w, c, r, i, id))
  {
    if r.kind == "attachment" {
      AttachmentRecord(w, c, r);
    } else if r.sidechain || r.kind !in {"assistant", "user", "system"} {
      IgnoredRecord(w, c, r);
    } else if r.kind == "system" {
      if r.subtype == "turn_duration" {
        TurnEnd(w, c, r);
      } else {
        IgnoredRecord(w, c, r);
      }
    } else if r.kind == "assistant" {
      CallsOnly(w, c, r);
      UsesAreUses(r.content);
      CallsKeep(w, c, Uses(r.content));
    } else {
      assert r.content[..|r.content|] == r.content;
      var i := ResultsEnd(w, c, r, |r.content|, id);
    }
  }
}
