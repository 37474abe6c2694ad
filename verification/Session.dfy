/**
  What one transcript record does to a run (internal/agent/claudepty/records.go and the
  bookkeeping of runState.visit in provider.go). A record is first read as a short list of
  operations; the state is the fold of the operations seen so far.
*/
module Session {
  import opened Common
  import opened Lines

  // ---- decoded records ----

  datatype WakeupArgs = WakeupArgs(delaySeconds: int, prompt: string, stop: bool)

  /** The inputs the provider looks at; absent or malformed fields are their zero values. */
  datatype ToolInput = ToolInput(background: bool, wakeup: Option<WakeupArgs>, taskId: string)

  /** A plain-string message is one Text block; `result` is the flattened tool_result text. */
  datatype Block =
    | Text(text: string)
    | ToolUse(id: string, name: string, input: ToolInput)
    | ToolResult(useId: string, isError: bool, result: string)
    | OtherBlock

  datatype Attachment = Attachment(kind: string, commandMode: string, prompt: string)

  datatype Record = Record(kind: string, subtype: string, sidechain: bool, content: seq<Block>,
      attachment: Option<Attachment>)

  /** The wording the provider looks for in model-adjacent text; "" means not found. */
  datatype Wording = Wording(
    isAgentMarker: string -> bool,
    isPromise: string -> bool,
    announcedTask: string -> string,
    completedUse: string -> string)

  const EXEMPT_TOOLS := {"Agent", "Bash", "Edit", "Glob", "Grep", "NotebookEdit", "Read", "Skill",
                         "TaskOutput", "WebFetch", "WebSearch", "Write"}
  const PROMISE_MAX_LEN := 2000

  predicate IsTurnTerminal(r: Record) {
    r.kind == "system" && r.subtype == "turn_duration" && !r.sidechain
  }

  predicate IsAsyncLaunch(w: Wording, tool: string, result: string) {
    if result == "" then false
    else if tool == "Agent" || tool == "" then w.isAgentMarker(result)
    else if tool in EXEMPT_TOOLS then false
    else if "mcp__" <= tool then false
    else if |result| > PROMISE_MAX_LEN then false
    else w.isPromise(result)
  }

  function AnnouncedTask(w: Wording, result: string): string {
    if result == "" then "" else w.announcedTask(result)
  }

  /** A schedule needs a positive delay; a cancellation needs nothing else. */
  function ParseWakeup(input: ToolInput): Option<WakeupArgs> {
    match input.wakeup
    case None => None
    case Some(a) => if a.stop || a.delaySeconds > 0 then Some(a) else None
  }

  // ---- operations ----

  datatype Op =
    | Said(text: string)
    | Used(id: string, name: string, input: ToolInput)
    | Answered(useId: string, isError: bool, result: string)
    | Notified(id: string)
    | TurnEnded

  function JoinTexts(content: seq<Block>): string {
    if content == [] then "" else
      var before := JoinTexts(content[..|content| - 1]);
      var b := content[|content| - 1];
      if !b.Text? || b.text == "" then before
      else if before == "" then b.text
      else before + "\n\n" + b.text
  }

  function Uses(content: seq<Block>): seq<Op> {
    if content == [] then [] else
      (match content[0]
       case ToolUse(id, name, input) => if name != "" then [Used(id, name, input)] else []
       case _ => []) + Uses(content[1..])
  }

  function Answers(content: seq<Block>): seq<Op> {
    if content == [] then [] else
      (match content[0]
       case ToolResult(useId, isError, result) => [Answered(useId, isError, result)]
       case _ => []) + Answers(content[1..])
  }

  /** The tool use a completion notification names, or "" when the record is no such thing. */
  function CompletedUse(w: Wording, r: Record): string {
    if r.kind != "attachment" || r.attachment.None? then "" else
      var a := r.attachment.value;
      if a.kind != "queued_command" || a.commandMode != "task-notification" then "" else w.completedUse(a.prompt)
  }

  function AssistantText(r: Record): string {
    if r.kind != "assistant" || r.sidechain then "" else JoinTexts(r.content)
  }

  /** Everything a record says, in the order visit acts on it. */
  function Ops(w: Wording, r: Record): seq<Op> {
    (if AssistantText(r) != "" then [Said(AssistantText(r))] else [])
    + (if r.kind == "assistant" && !r.sidechain then Uses(r.content) else [])
    + (if r.kind == "user" && !r.sidechain then Answers(r.content) else [])
    + (if CompletedUse(w, r) != "" then [Notified(CompletedUse(w, r))] else [])
    + (if IsTurnTerminal(r) then [TurnEnded] else [])
  }

  // ---- state ----

  datatype Core = Core(
    pending: set<string>,
    wakeup: Option<WakeupArgs>,
    lastText: string,
    finalText: string,
    names: map<string, string>,
    tasks: map<string, string>,
    stops: map<string, string>)

  const FRESH := Core({}, None, "", "", map[], map[], map[])

  function Get(m: map<string, string>, k: string): string {
    if k in m then m[k] else ""
  }

  function Use(c: Core, id: string, name: string, input: ToolInput): Core {
    var c := if id != "" then c.(names := c.names[id := name]) else c;
    match name
    case "ScheduleWakeup" =>
      (match ParseWakeup(input)
       case None => c
       case Some(a) => c.(wakeup := if a.stop then None else Some(a)))
    case "TaskStop" => if id != "" && input.taskId != "" then c.(stops := c.stops[id := input.taskId]) else c
    case "Bash" => if id != "" && input.background then c.(pending := c.pending + {id}) else c
    case _ => c
  }

  /** A dispatch acknowledgement: the use joins the pending set, its task id is recorded. */
  function Acknowledge(w: Wording, c: Core, useId: string, result: string): Core {
    var launched := useId != "" && IsAsyncLaunch(w, Get(c.names, useId), result);
    var pending := if launched then c.pending + {useId} else c.pending;
    var task := AnnouncedTask(w, result);
    c.(pending := pending,
       tasks := if useId in pending && task != "" then c.tasks[task := useId] else c.tasks)
  }

  /** The answer to a TaskStop: only a successful one drops the task it named. */
  function AnswerStop(c: Core, useId: string, isError: bool): Core {
    if useId !in c.stops then c else
      var task := c.stops[useId];
      var c := c.(stops := c.stops - {useId});
      if isError || task !in c.tasks then c
      else c.(pending := c.pending - {c.tasks[task]}, tasks := c.tasks - {task})
  }

  function Answer(w: Wording, c: Core, useId: string, isError: bool, result: string): Core {
    var c := AnswerStop(Acknowledge(w, c, useId, result), useId, isError);
    c.(names := c.names - {useId})
  }

  function OpStep(w: Wording, c: Core, op: Op): Core {
    match op
    case Said(text) => c.(lastText := text)
    case Used(id, name, input) => Use(c, id, name, input)
    case Answered(useId, isError, result) => Answer(w, c, useId, isError, result)
    case Notified(id) => c.(pending := c.pending - {id})
    case TurnEnded => c.(finalText := c.lastText)
  }

  /** The state after the first `n` operations of a history. */
  function After(w: Wording, h: seq<Op>, n: nat): Core
    requires n <= |h|
  {
    if n == 0 then FRESH else OpStep(w, After(w, h, n - 1), h[n - 1])
  }

  function FinalMessage(c: Core): string {
    if c.finalText != "" then c.finalText else c.lastText
  }

  // ---- reading the history without the state ----

  /** The last operation before `n` that satisfies `p`, or -1. */
  function Last(h: seq<Op>, n: nat, p: Op -> bool): (i: int)
    requires n <= |h|
    ensures -1 <= i < n
    ensures i >= 0 ==> p(h[i])
  {
    if n == 0 then -1 else if p(h[n - 1]) then n - 1 else Last(h, n - 1, p)
  }

  lemma {:induction false} LastIsLast(h: seq<Op>, n: nat, p: Op -> bool)
    requires n <= |h|
    ensures forall j :: Last(h, n, p) < j < n ==> !p(h[j])
  {
    if n > 0 && !p(h[n - 1]) {
      LastIsLast(h, n - 1, p);
    }
  }

  function TouchesName(u: string): Op -> bool {
    (op: Op) => (op.Used? && op.id == u && u != "") || (op.Answered? && op.useId == u)
  }

  /** The tool whose call `u` is in flight: used, and not answered since. */
  function NameAt(h: seq<Op>, n: nat, u: string): string
    requires n <= |h|
  {
    var i := Last(h, n, TouchesName(u));
    if i >= 0 && h[i].Used? then h[i].name else ""
  }

  function TouchesStop(u: string): Op -> bool {
    (op: Op) => (op.Used? && op.id == u && u != "" && op.name == "TaskStop" && op.input.taskId != "")
                || (op.Answered? && op.useId == u)
  }

  /** The task an unanswered TaskStop call `u` asked to stop. */
  function StopAt(h: seq<Op>, n: nat, u: string): Option<string>
    requires n <= |h|
  {
    var i := Last(h, n, TouchesStop(u));
    if i >= 0 && h[i].Used? then Some(h[i].input.taskId) else None
  }

  function IsSaid(): Op -> bool { (op: Op) => op.Said? }
  function IsTurnEnd(): Op -> bool { (op: Op) => op.TurnEnded? }
  function IsWakeupCall(): Op -> bool {
    (op: Op) => op.Used? && op.name == "ScheduleWakeup" && ParseWakeup(op.input).Some?
  }

  function TextAt(h: seq<Op>, n: nat): string
    requires n <= |h|
  {
    var i := Last(h, n, IsSaid());
    if i >= 0 then h[i].text else ""
  }

  /** The message of a run with this history, read off the history alone. */
  function MessageOf(h: seq<Op>): string {
    var end := Last(h, |h|, IsTurnEnd());
    if end >= 0 && Last(h, end, IsSaid()) >= 0 then TextAt(h, end) else TextAt(h, |h|)
  }

  /** The wakeup of a run with this history. */
  function WakeupOf(h: seq<Op>, n: nat): Option<WakeupArgs>
    requires n <= |h|
  {
    var i := Last(h, n, IsWakeupCall());
    if i < 0 then None else
      var a := ParseWakeup(h[i].input).value;
      if a.stop then None else Some(a)
  }

  // Operation i dispatches background work tracked under `id`.
  ghost predicate Dispatched(w: Wording, h: seq<Op>, i: nat, id: string)
    requires i < |h|
  {
    match h[i]
    case Used(u, name, input) => u == id && id != "" && name == "Bash" && input.background
    case Answered(u, isError, result) => u == id && id != "" && IsAsyncLaunch(w, NameAt(h, i, id), result)
    case _ => false
  }

  // Operation j is the error-free answer to a request to stop task `t`.
  ghost predicate Stopped(h: seq<Op>, j: nat, t: string)
    requires j < |h|
  {
    h[j].Answered? && !h[j].isError && StopAt(h, j, h[j].useId) == Some(t)
  }

  function UseOf(op: Op): string {
    if op.Answered? then op.useId else ""
  }

  // Operation k acknowledges task `t` for the awaited use `id`.
  ghost predicate Acked(w: Wording, h: seq<Op>, k: nat, t: string, id: string)
    requires k < |h|
    decreases k, 1
  {
    && h[k].Answered? && h[k].useId == id
    && t != "" && AnnouncedTask(w, h[k].result) == t
    && (Dispatched(w, h, k, id) || PendingAt(w, h, k, id))
  }

  // The latest acknowledgement of `t` among operations 0..n-1 is for `id`, and no stop of
  // `t` succeeded from there up to operation m.
  ghost predicate MapsTo(w: Wording, h: seq<Op>, n: nat, m: nat, t: string, id: string)
    requires 0 < n <= |h| && m <= n
    decreases n - 1, 3
  {
    exists k :: 0 <= k < n && h[k].Answered? && LatestAck(w, h, k, n, m, t, id)
  }

  ghost predicate LatestAck(w: Wording, h: seq<Op>, k: nat, n: nat, m: nat, t: string, id: string)
    requires k < n <= |h| && m <= n
    decreases n - 1, 2
  {
    && Acked(w, h, k, t, id)
    && (forall l :: k < l < n ==> !Acked(w, h, l, t, UseOf(h[l])))
    && (forall l :: k <= l < m ==> !Stopped(h, l, t))
  }

  // Operation j ends the work tracked under `id`: a notification names it, or a task that
  // maps to it was stopped.
  ghost predicate Cleared(w: Wording, h: seq<Op>, j: nat, id: string)
    requires j < |h|
    decreases j, 4
  {
    h[j] == Notified(id) || exists t :: Stopped(h, j, t) && MapsTo(w, h, j + 1, j, t, id)
  }

  /** Dispatched among the first `n` operations and not ended since. */
  ghost predicate PendingAt(w: Wording, h: seq<Op>, n: nat, id: string)
    requires n <= |h|
    decreases n, 0
  {
    exists i :: 0 <= i < n && Dispatched(w, h, i, id) && forall j :: i <= j < n ==> !Cleared(w, h, j, id)
  }

  // ---- the state says exactly what the history says ----

  lemma UseNames(c: Core, id: string, name: string, input: ToolInput)
    ensures Use(c, id, name, input).names == if id != "" then c.names[id := name] else c.names
  {
    hide ParseWakeup;
  }

  lemma AnswerNames(w: Wording, c: Core, useId: string, isError: bool, result: string)
    ensures Answer(w, c, useId, isError, result).names == c.names - {useId}
  {
    hide IsAsyncLaunch, AnnouncedTask;
  }

  lemma NamesStep(w: Wording, c: Core, op: Op, u: string)
    ensures Get(OpStep(w, c, op).names, u) ==
            if !TouchesName(u)(op) then Get(c.names, u) else if op.Used? then op.name else ""
  {
    hide Use, Answer;
    match op
    case Used(id, name, input) => UseNames(c, id, name, input);
    case Answered(useId, isError, result) => AnswerNames(w, c, useId, isError, result);
    case _ =>
  }

  lemma {:induction false} NamesRead(w: Wording, h: seq<Op>, n: nat, u: string)
    requires n <= |h|
    ensures Get(After(w, h, n).names, u) == NameAt(h, n, u)
  {
    if n > 0 {
      NamesRead(w, h, n - 1, u);
      NamesStep(w, After(w, h, n - 1), h[n - 1], u);
    }
  }

  lemma StopsStep(w: Wording, c: Core, op: Op, u: string)
    ensures var c' := OpStep(w, c, op);
            if !TouchesStop(u)(op) then (u in c'.stops <==> u in c.stops) && Get(c'.stops, u) == Get(c.stops, u)
            else if op.Used? then u in c'.stops && c'.stops[u] == op.input.taskId
            else u !in c'.stops
  {
  }

  lemma {:induction false} StopsRead(w: Wording, h: seq<Op>, n: nat, u: string)
    requires n <= |h|
    ensures u in After(w, h, n).stops <==> StopAt(h, n, u).Some?
    ensures u in After(w, h, n).stops ==> StopAt(h, n, u) == Some(After(w, h, n).stops[u])
  {
    if n > 0 {
      StopsRead(w, h, n - 1, u);
      StopsStep(w, After(w, h, n - 1), h[n - 1], u);
    }
  }

  lemma PendingExtend(w: Wording, h: seq<Op>, n: nat, id: string)
    requires n < |h|
    ensures PendingAt(w, h, n + 1, id) <==> (PendingAt(w, h, n, id) || Dispatched(w, h, n, id)) && !Cleared(w, h, n, id)
  {
    if PendingAt(w, h, n + 1, id) {
      var i :| 0 <= i < n + 1 && Dispatched(w, h, i, id) && forall j :: i <= j < n + 1 ==> !Cleared(w, h, j, id);
      assert i < n ==> PendingAt(w, h, n, id);
    }
    if PendingAt(w, h, n, id) && !Cleared(w, h, n, id) {
      var i :| 0 <= i < n && Dispatched(w, h, i, id) && forall j :: i <= j < n ==> !Cleared(w, h, j, id);
      assert PendingAt(w, h, n + 1, id);
    }
  }

  lemma MapsAck(w: Wording, h: seq<Op>, n: nat, t: string, id: string)
    requires n < |h|
    ensures MapsTo(w, h, n + 1, n, t, id) <==>
            Acked(w, h, n, t, id) || (n > 0 && MapsTo(w, h, n, n, t, id) && !Acked(w, h, n, t, UseOf(h[n])))
  {
    hide AnnouncedTask, Dispatched, PendingAt;
    if MapsTo(w, h, n + 1, n, t, id) {
      var k :| 0 <= k < n + 1 && h[k].Answered? && LatestAck(w, h, k, n + 1, n, t, id);
      assert k < n ==> LatestAck(w, h, k, n, n, t, id) && !Acked(w, h, n, t, UseOf(h[n]));
    }
    if n > 0 && MapsTo(w, h, n, n, t, id) && !Acked(w, h, n, t, UseOf(h[n])) {
      var k :| 0 <= k < n && h[k].Answered? && LatestAck(w, h, k, n, n, t, id);
      assert LatestAck(w, h, k, n + 1, n, t, id);
    }
  }

  lemma MapsStop(w: Wording, h: seq<Op>, n: nat, t: string, id: string)
    requires n < |h|
    ensures MapsTo(w, h, n + 1, n + 1, t, id) <==> MapsTo(w, h, n + 1, n, t, id) && !Stopped(h, n, t)
  {
    if MapsTo(w, h, n + 1, n, t, id) && !Stopped(h, n, t) {
      var k :| 0 <= k < n + 1 && h[k].Answered? && LatestAck(w, h, k, n + 1, n, t, id);
      assert LatestAck(w, h, k, n + 1, n + 1, t, id);
    }
  }

  // The pending set and the task table after n operations are those of the history.
  ghost predicate Reads(w: Wording, h: seq<Op>, n: nat)
    requires n <= |h|
  {
    && (forall id :: id in After(w, h, n).pending <==> PendingAt(w, h, n, id))
    && (forall t, id :: InTable(After(w, h, n).tasks, t, id) <==> TableAt(w, h, n, t, id))
  }

  predicate InTable(tasks: map<string, string>, t: string, id: string) {
    t in tasks && tasks[t] == id
  }

  ghost predicate TableAt(w: Wording, h: seq<Op>, n: nat, t: string, id: string)
    requires n <= |h|
  {
    n > 0 && MapsTo(w, h, n, n, t, id)
  }

  lemma {:induction false} HistoryReads(w: Wording, h: seq<Op>, n: nat)
    requires n <= |h|
    ensures Reads(w, h, n)
  {
    if n > 0 {
      HistoryReads(w, h, n - 1);
      forall id ensures id in After(w, h, n).pending <==> PendingAt(w, h, n, id) {
        PendingReadsNext(w, h, n - 1, id);
      }
      forall t, id ensures InTable(After(w, h, n).tasks, t, id) <==> TableAt(w, h, n, t, id) {
        TableReadsNext(w, h, n - 1, t, id);
      }
    }
  }

  /** Half-way through an answer: the acknowledgement is in, the stop is not. */
  lemma AcknowledgeReads(w: Wording, h: seq<Op>, n: nat, t: string, id: string)
    requires n < |h| && Reads(w, h, n) && h[n].Answered?
    ensures var c := Acknowledge(w, After(w, h, n), h[n].useId, h[n].result);
            && (id in c.pending <==> PendingAt(w, h, n, id) || Dispatched(w, h, n, id))
            && (InTable(c.tasks, t, id) <==> MapsTo(w, h, n + 1, n, t, id))
  {
    var u := h[n].useId;
    var c := Acknowledge(w, After(w, h, n), u, h[n].result);
    NamesRead(w, h, n, u);
    assert u in c.pending <==> PendingAt(w, h, n, u) || Dispatched(w, h, n, u);
    MapsAck(w, h, n, t, id);
    assert InTable(After(w, h, n).tasks, t, id) <==> TableAt(w, h, n, t, id);
    assert Acked(w, h, n, t, u) <==> u in c.pending && t != "" && AnnouncedTask(w, h[n].result) == t;
  }

  lemma OtherOps(w: Wording, h: seq<Op>, n: nat, id: string)
    requires n < |h| && !h[n].Answered?
    ensures var c, c' := After(w, h, n), After(w, h, n + 1);
            && c'.tasks == c.tasks
            && (id in c'.pending <==> (id in c.pending || Dispatched(w, h, n, id)) && !Cleared(w, h, n, id))
  {
    hide IsAsyncLaunch, AnnouncedTask, ParseWakeup;
    assert Cleared(w, h, n, id) <==> h[n] == Notified(id);
  }

  lemma PendingReadsNext(w: Wording, h: seq<Op>, n: nat, id: string)
    requires n < |h| && Reads(w, h, n)
    ensures id in After(w, h, n + 1).pending <==> PendingAt(w, h, n + 1, id)
  {
    PendingExtend(w, h, n, id);
    if h[n].Answered? {
      AnswerReads(w, h, n, id);
    } else {
      OtherOps(w, h, n, id);
    }
  }

  lemma AnswerReads(w: Wording, h: seq<Op>, n: nat, id: string)
    requires n < |h| && Reads(w, h, n) && h[n].Answered?
    ensures id in After(w, h, n + 1).pending <==>
            (PendingAt(w, h, n, id) || Dispatched(w, h, n, id)) && !Cleared(w, h, n, id)
  {
    var u := h[n].useId;
    var c := Acknowledge(w, After(w, h, n), u, h[n].result);
    StopsRead(w, h, n, u);
    assert c.stops == After(w, h, n).stops;
    AcknowledgeReads(w, h, n, "", id);
    if u in c.stops {
      var task := c.stops[u];
      AcknowledgeReads(w, h, n, task, id);
      assert forall t :: Stopped(h, n, t) ==> t == task;
      assert Cleared(w, h, n, id) <==> Stopped(h, n, task) && MapsTo(w, h, n + 1, n, task, id);
    }
  }

  lemma TableReadsNext(w: Wording, h: seq<Op>, n: nat, t: string, id: string)
    requires n < |h| && Reads(w, h, n)
    ensures InTable(After(w, h, n + 1).tasks, t, id) <==> TableAt(w, h, n + 1, t, id)
  {
    hide IsAsyncLaunch, AnnouncedTask, ParseWakeup, NameAt;
    MapsAck(w, h, n, t, id);
    MapsStop(w, h, n, t, id);
    assert InTable(After(w, h, n).tasks, t, id) <==> TableAt(w, h, n, t, id);
    if h[n].Answered? {
      StopsRead(w, h, n, h[n].useId);
      AcknowledgeReads(w, h, n, t, id);
    } else {
      OtherOps(w, h, n, id);
    }
  }

  /**
    After any history a use is pending iff it was dispatched and no later operation ended
    it: no notification naming it, no error-free stop of a task whose latest
    acknowledgement maps to it.
  */
  lemma PendingIffDispatchedAndNotEnded(w: Wording, h: seq<Op>, id: string)
    ensures id in After(w, h, |h|).pending <==> PendingAt(w, h, |h|, id)
  {
    HistoryReads(w, h, |h|);
  }

  lemma TextsStep(w: Wording, c: Core, op: Op)
    ensures var c' := OpStep(w, c, op);
            && c'.lastText == (if op.Said? then op.text else c.lastText)
            && c'.finalText == (if op.TurnEnded? then c.lastText else c.finalText)
            && c'.wakeup == if !IsWakeupCall()(op) then c.wakeup else
                              var a := ParseWakeup(op.input).value;
                              if a.stop then None else Some(a)
  {
    hide IsAsyncLaunch, AnnouncedTask;
  }

  lemma {:induction false} TextsRead(w: Wording, h: seq<Op>, n: nat)
    requires n <= |h|
    ensures After(w, h, n).lastText == TextAt(h, n)
    ensures var end := Last(h, n, IsTurnEnd());
            After(w, h, n).finalText == if end >= 0 then TextAt(h, end) else ""
  {
    hide OpStep;
    if n > 0 {
      TextsRead(w, h, n - 1);
      TextsStep(w, After(w, h, n - 1), h[n - 1]);
    }
  }

  lemma {:induction false} WakeupReads(w: Wording, h: seq<Op>, n: nat)
    requires n <= |h|
    ensures After(w, h, n).wakeup == WakeupOf(h, n)
  {
    hide OpStep;
    if n > 0 {
      WakeupReads(w, h, n - 1);
      TextsStep(w, After(w, h, n - 1), h[n - 1]);
    }
  }

  predicate TextsAreNotEmpty(h: seq<Op>) {
    forall i :: 0 <= i < |h| ==> (h[i].Said? ==> h[i].text != "")
  }

  /**
    The message surfaced is the last text said before the last turn ended, whenever there
    is such a text: later text of an unfinished turn never replaces it.
  */
  lemma MessageReads(w: Wording, h: seq<Op>)
    requires TextsAreNotEmpty(h)
    ensures FinalMessage(After(w, h, |h|)) == MessageOf(h)
  {
    TextsRead(w, h, |h|);
  }

  // ---- records ----

  function Apply(w: Wording, c: Core, ops: seq<Op>): Core
    decreases |ops|
  {
    if ops == [] then c else Apply(w, OpStep(w, c, ops[0]), ops[1..])
  }

  /** All operations of a transcript. */
  function History(w: Wording, records: seq<Record>): seq<Op> {
    if records == [] then [] else Ops(w, records[0]) + History(w, records[1..])
  }

  function ApplyRecords(w: Wording, c: Core, records: seq<Record>): Core
    decreases |records|
  {
    if records == [] then c else ApplyRecords(w, Apply(w, c, Ops(w, records[0])), records[1..])
  }

  lemma {:induction false} ApplyAppend(w: Wording, c: Core, a: seq<Op>, b: seq<Op>)
    ensures Apply(w, c, a + b) == Apply(w, Apply(w, c, a), b)
    decreases |a|
  {
    if a == [] {
      assert a + b == b;
    } else {
      ApplyAppend(w, OpStep(w, c, a[0]), a[1..], b);
      assert (a + b)[1..] == a[1..] + b;
    }
  }

  lemma {:induction false} ApplyIsAfter(w: Wording, h: seq<Op>, n: nat)
    requires n <= |h|
    ensures Apply(w, After(w, h, n), h[n..]) == After(w, h, |h|)
    decreases |h| - n
  {
    if n < |h| {
      ApplyIsAfter(w, h, n + 1);
      assert h[n..][1..] == h[n + 1..];
    }
  }

  lemma {:induction false} RecordsAreOps(w: Wording, c: Core, records: seq<Record>)
    ensures ApplyRecords(w, c, records) == Apply(w, c, History(w, records))
    decreases |records|
  {
    if records != [] {
      var ops := Ops(w, records[0]);
      RecordsAreOps(w, Apply(w, c, ops), records[1..]);
      ApplyAppend(w, c, ops, History(w, records[1..]));
    }
  }

  lemma {:induction false} UsesAreUses(content: seq<Block>)
    ensures forall i :: 0 <= i < |Uses(content)| ==> Uses(content)[i].Used?
  {
    if content != [] {
      UsesAreUses(content[1..]);
    }
  }

  lemma {:induction false} AnswersAreAnswers(content: seq<Block>)
    ensures forall i :: 0 <= i < |Answers(content)| ==> Answers(content)[i].Answered?
  {
    if content != [] {
      AnswersAreAnswers(content[1..]);
    }
  }

  lemma {:induction false} HistoryTextsAreNotEmpty(w: Wording, records: seq<Record>)
    ensures TextsAreNotEmpty(History(w, records))
  {
    if records != [] {
      HistoryTextsAreNotEmpty(w, records[1..]);
      UsesAreUses(records[0].content);
      AnswersAreAnswers(records[0].content);
    }
  }

  /**
    What a run has gathered from the records it visited: the pending uses, the message and
    the wakeup, each read off the visited transcript.
  */
  lemma VisitedTranscriptDecides(w: Wording, records: seq<Record>)
    ensures var c, h := ApplyRecords(w, FRESH, records), History(w, records);
            && (forall id :: id in c.pending <==> PendingAt(w, h, |h|, id))
            && FinalMessage(c) == MessageOf(h)
            && c.wakeup == WakeupOf(h, |h|)
  {
    var h := History(w, records);
    RecordsAreOps(w, FRESH, records);
    ApplyIsAfter(w, h, 0);
    assert h[0..] == h;
    HistoryReads(w, h, |h|);
    HistoryTextsAreNotEmpty(w, records);
    MessageReads(w, h);
    WakeupReads(w, h, |h|);
  }

  /** Sidechain records say nothing, and neither does a notification without a tool-use id. */
  lemma SilentRecords(w: Wording, r: Record)
    requires Silent(w, r)
    ensures Ops(w, r) == []
  {
  }

  predicate Silent(w: Wording, r: Record) {
    (r.sidechain && r.kind in {"assistant", "user", "system"}) || (r.kind == "attachment" && CompletedUse(w, r) == "")
  }

  /** A transcript without those records. */
  function Loud(w: Wording, records: seq<Record>): seq<Record> {
    if records == [] then [] else (if Silent(w, records[0]) then [] else [records[0]]) + Loud(w, records[1..])
  }

  /** They could be cut out of a transcript anywhere, and nothing would come out differently. */
  lemma {:induction false} SilenceIsInvisible(w: Wording, c: Core, records: seq<Record>)
    ensures ApplyRecords(w, c, Loud(w, records)) == ApplyRecords(w, c, records)
    decreases |records|
  {
    if records != [] {
      var r := records[0];
      SilenceIsInvisible(w, Apply(w, c, Ops(w, r)), records[1..]);
      if Silent(w, r) {
        SilentRecords(w, r);
        assert [] + Loud(w, records[1..]) == Loud(w, records[1..]);
      } else {
        assert Loud(w, records)[0] == r && Loud(w, records)[1..] == Loud(w, records[1..]);
      }
    }
  }
}
