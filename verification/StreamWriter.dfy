/**
  The stream-json reader (internal/agent/claude/stream.go): an io.Writer that cuts the
  bytes written to it at newlines and folds the decoded events into a result.
*/
module StreamWriter {
  import opened Common
  import opened Lines

  datatype Wakeup = Wakeup(delaySeconds: int, prompt: string)

  /** A tool call, with the wakeup its input decodes to when it does. */
  datatype ToolCall = ToolCall(name: string, wakeup: Option<Wakeup>)

  datatype Event =
    | BlockStart(kind: string)
    | TextDelta(text: string)
    | ThinkingDelta(text: string)
    | BlockStop
    | Assistant(calls: seq<ToolCall>)
    | Result(result: string, sessionId: string)
    | Other

  /** The fields of the writer that outlive a line, beside its line buffer. */
  datatype View = View(
    result: string, sessionId: string, wakeup: Option<Wakeup>,
    lastTextBlock: string, finalMessage: string,
    inText: bool, text: string, inThinking: bool, thinking: string)

  const EMPTY := View("", "", None, "", "", false, "", false, "")

  function TrimRightNewlines(s: string): string {
    if s != "" && s[|s| - 1] == '\n' then TrimRightNewlines(s[..|s| - 1]) else s
  }

  function CaptureWakeups(w: Option<Wakeup>, calls: seq<ToolCall>): Option<Wakeup>
    decreases |calls|
  {
    if calls == [] then w else CaptureWakeups(CaptureWakeup(w, calls[0]), calls[1..])
  }

  function CaptureWakeup(w: Option<Wakeup>, call: ToolCall): Option<Wakeup> {
    if call.name == "ScheduleWakeup" && call.wakeup.Some? && call.wakeup.value.delaySeconds > 0 then call.wakeup else w
  }

  /** The text block this event completes, "" when it completes none or an empty one. */
  function CompletedBlock(v: View, e: Event): string {
    if e.BlockStop? && v.inText then TrimRightNewlines(v.text) else ""
  }

  function Handle(v: View, e: Event): View {
    match e
    case BlockStart(kind) =>
      if kind == "text" then v.(inText := true, text := "")
      else if kind == "thinking" then v.(inThinking := true, thinking := "")
      else v
    case TextDelta(t) => if !v.inText || t == "" then v else v.(text := v.text + t)
    case ThinkingDelta(t) => if !v.inThinking || t == "" then v else v.(thinking := v.thinking + t)
    case BlockStop =>
      if v.inText then
        var block := TrimRightNewlines(v.text);
        v.(lastTextBlock := if block != "" then block else v.lastTextBlock, inText := false, text := "")
      else if v.inThinking then v.(inThinking := false, thinking := "")
      else v
    case Assistant(calls) => v.(wakeup := CaptureWakeups(v.wakeup, calls))
    case Result(result, sessionId) =>
      v.(result := result,
         sessionId := if sessionId != "" then sessionId else v.sessionId,
         finalMessage := if v.lastTextBlock != "" then v.lastTextBlock else v.finalMessage,
         lastTextBlock := "")
    case Other => v
  }

  /** One line, if it is not empty and decodes. */
  function ParseLine(decode: Bytes -> Option<Event>, v: View, line: Bytes): View {
    if line == [] then v else match decode(line) case Some(e) => Handle(v, e) case None => v
  }

  function ParseLines(decode: Bytes -> Option<Event>, v: View, lines: seq<Bytes>): View
    decreases |lines|
  {
    if lines == [] then v else ParseLines(decode, ParseLine(decode, v, lines[0]), lines[1..])
  }

  lemma {:induction false} ParseLinesAppend(decode: Bytes -> Option<Event>, v: View, a: seq<Bytes>, b: seq<Bytes>)
    ensures ParseLines(decode, v, a + b) == ParseLines(decode, ParseLines(decode, v, a), b)
    decreases |a|
  {
    if a == [] {
      assert a + b == b;
    } else {
      ParseLinesAppend(decode, ParseLine(decode, v, a[0]), a[1..], b);
      assert (a + b)[1..] == a[1..] + b;
    }
  }

  /** Everything a writer holds. */
  datatype State = State(buf: Bytes, view: View)

  function Written(decode: Bytes -> Option<Event>, s: State, p: Bytes): State {
    State(Remainder(s.buf + p), ParseLines(decode, s.view, Complete(s.buf + p)))
  }

  function WrittenAll(decode: Bytes -> Option<Event>, s: State, chunks: seq<Bytes>): State
    decreases |chunks|
  {
    if chunks == [] then s else WrittenAll(decode, Written(decode, s, chunks[0]), chunks[1..])
  }

  function Concat(chunks: seq<Bytes>): Bytes {
    if chunks == [] then [] else chunks[0] + Concat(chunks[1..])
  }

  lemma WrittenTwice(decode: Bytes -> Option<Event>, s: State, a: Bytes, b: Bytes)
    ensures Written(decode, Written(decode, s, a), b) == Written(decode, s, a + b)
  {
    CutAppend(s.buf + a, b);
    Associative(s.buf, a, b);
    ParseLinesAppend(decode, s.view, Complete(s.buf + a), Complete(Remainder(s.buf + a) + b));
  }

  /**
    However the stream is cut into Write calls, the outcome depends only on the bytes, and
    what is retained is exactly what follows the last newline.
  */
  lemma {:induction false} ChunkingIsInvisible(decode: Bytes -> Option<Event>, s: State, chunks: seq<Bytes>)
    requires NEWLINE !in s.buf
    ensures WrittenAll(decode, s, chunks) == Written(decode, s, Concat(chunks))
    ensures WrittenAll(decode, s, chunks).buf == Remainder(s.buf + Concat(chunks))
    decreases |chunks|
  {
    if chunks == [] {
      assert s.buf + [] == s.buf;
      LineFree(s.buf);
    } else {
      RemainderIsLineFree(s.buf + chunks[0]);
      ChunkingIsInvisible(decode, Written(decode, s, chunks[0]), chunks[1..]);
      WrittenTwice(decode, s, chunks[0], Concat(chunks[1..]));
    }
  }

  /** Two ways of cutting the same bytes cannot be told apart. */
  lemma SameBytesSameOutcome(decode: Bytes -> Option<Event>, a: seq<Bytes>, b: seq<Bytes>)
    requires Concat(a) == Concat(b)
    ensures WrittenAll(decode, State([], EMPTY), a) == WrittenAll(decode, State([], EMPTY), b)
  {
    ChunkingIsInvisible(decode, State([], EMPTY), a);
    ChunkingIsInvisible(decode, State([], EMPTY), b);
  }

  // ---- what the final message is ----

  function After(events: seq<Event>, n: nat): View
    requires n <= |events|
  {
    if n == 0 then EMPTY else Handle(After(events, n - 1), events[n - 1])
  }

  /** The last non-empty text block completed by the first `n` events. */
  function LastBlock(events: seq<Event>, n: nat): string
    requires n <= |events|
  {
    if n == 0 then "" else
      var block := CompletedBlock(After(events, n - 1), events[n - 1]);
      if block != "" then block else LastBlock(events, n - 1)
  }

  /** How many of the first `n` events precede the last result among them; 0 without one. */
  function BeforeLastResult(events: seq<Event>, n: nat): (i: nat)
    requires n <= |events|
    ensures i <= n
  {
    if n == 0 then 0 else if events[n - 1].Result? then n - 1 else BeforeLastResult(events, n - 1)
  }

  lemma HandleTexts(v: View, e: Event)
    ensures var v', block := Handle(v, e), CompletedBlock(v, e);
            && (e.Result? ==> v'.finalMessage == (if v.lastTextBlock != "" then v.lastTextBlock else v.finalMessage)
                              && v'.lastTextBlock == "" && block == "")
            && (!e.Result? ==> v'.finalMessage == v.finalMessage
                               && v'.lastTextBlock == if block != "" then block else v.lastTextBlock)
  {
  }

  lemma {:induction false} BlocksAndResults(events: seq<Event>, n: nat)
    requires n <= |events|
    ensures var v := After(events, n);
            && v.finalMessage == LastBlock(events, BeforeLastResult(events, n))
            && LastBlock(events, n) == if v.lastTextBlock != "" then v.lastTextBlock else v.finalMessage
    decreases n
  {
    if n > 0 {
      BlocksAndResults(events, n - 1);
      HandleTexts(After(events, n - 1), events[n - 1]);
    }
  }

  /**
    The final message is the last non-empty text block completed before the last result. It
    is sticky: a turn without text keeps the message of an earlier one.
  */
  lemma FinalMessageReads(events: seq<Event>)
    ensures After(events, |events|).finalMessage == LastBlock(events, BeforeLastResult(events, |events|))
  {
    BlocksAndResults(events, |events|);
  }

  // ---- what a text block is ----

  /** The text deltas of events i..j-1, one after the other. */
  function Deltas(events: seq<Event>, i: nat, j: nat): string
    requires i <= j <= |events|
  {
    if i == j then "" else Deltas(events, i, j - 1) + (if events[j - 1].TextDelta? then events[j - 1].text else "")
  }

  ghost predicate NoEvent(events: seq<Event>, i: nat, j: nat, e: Event) {
    j <= |events| && forall k :: i <= k < j ==> events[k] != e
  }

  /** Inside a text block, with this much of it. */
  predicate InBlock(v: View, text: string) { v.inText && v.text == text }

  lemma HandleInBlock(v: View, text: string, e: Event)
    requires InBlock(v, text) && e != BlockStart("text") && e != BlockStop
    ensures InBlock(Handle(v, e), text + if e.TextDelta? then e.text else "")
  {
    hide CaptureWakeups, TrimRightNewlines;
    assert text + "" == text;
  }

  lemma {:induction false} BlockGrows(events: seq<Event>, i: nat, j: nat)
    requires i < j <= |events| && events[i] == BlockStart("text")
    requires NoEvent(events, i + 1, j, BlockStart("text")) && NoEvent(events, i + 1, j, BlockStop)
    ensures InBlock(After(events, j), Deltas(events, i + 1, j))
    decreases j
  {
    hide InBlock, Handle;
    if j == i + 1 {
      StartsBlock(After(events, i));
    } else {
      BlockGrows(events, i, j - 1);
      HandleInBlock(After(events, j - 1), Deltas(events, i + 1, j - 1), events[j - 1]);
    }
  }

  lemma StartsBlock(v: View)
    ensures InBlock(Handle(v, BlockStart("text")), "")
  {
  }

  /** The block a stop completes is the deltas since its start, in order, without newlines at the end. */
  lemma BlockReads(events: seq<Event>, i: nat, j: nat)
    requires i < j < |events| && events[i] == BlockStart("text") && events[j] == BlockStop
    requires NoEvent(events, i + 1, j, BlockStart("text")) && NoEvent(events, i + 1, j, BlockStop)
    ensures CompletedBlock(After(events, j), events[j]) == TrimRightNewlines(Deltas(events, i + 1, j))
  {
    BlockGrows(events, i, j);
  }

  lemma {:induction false} NotInBlock(events: seq<Event>, i: nat, j: nat)
    requires i <= j <= |events| && (i == 0 || events[i - 1] == BlockStop)
    requires NoEvent(events, i, j, BlockStart("text"))
    ensures !After(events, j).inText
    decreases j
  {
    hide CaptureWakeups, TrimRightNewlines;
    if i < j {
      NotInBlock(events, i, j - 1);
    }
  }

  /** A stop with no text block started since the last one completes none. */
  lemma NoBlockReads(events: seq<Event>, i: nat, j: nat)
    requires i <= j < |events| && (i == 0 || events[i - 1] == BlockStop)
    requires NoEvent(events, i, j, BlockStart("text"))
    ensures CompletedBlock(After(events, j), events[j]) == ""
  {
    NotInBlock(events, i, j);
  }

  lemma {:induction false} TrimRightReads(s: string)
    ensures var t := TrimRightNewlines(s);
            && t <= s && (t != "" ==> t[|t| - 1] != '\n')
            && forall i :: |t| <= i < |s| ==> s[i] == '\n'
  {
    if s != "" && s[|s| - 1] == '\n' {
      TrimRightReads(s[..|s| - 1]);
    }
  }

  // ---- the same of the bytes written ----

  /** The events on the lines of a stream, empty and malformed lines skipped. */
  function EventsOn(decode: Bytes -> Option<Event>, lines: seq<Bytes>): seq<Event> {
    if lines == [] then [] else
      var last := lines[|lines| - 1];
      EventsOn(decode, lines[..|lines| - 1]) +
      (if last == [] then [] else match decode(last) case Some(e) => [e] case None => [])
  }

  lemma AfterSnoc(events: seq<Event>, e: Event, n: nat)
    requires n <= |events|
    ensures After(events + [e], n) == After(events, n)
    decreases n
  {
    if n > 0 {
      AfterSnoc(events, e, n - 1);
    }
  }

  lemma ParseLinesOne(decode: Bytes -> Option<Event>, v: View, line: Bytes)
    ensures ParseLines(decode, v, [line]) == ParseLine(decode, v, line)
  {
    assert [line][1..] == [];
  }

  lemma {:induction false} ParsedIsAfter(decode: Bytes -> Option<Event>, lines: seq<Bytes>)
    ensures var events := EventsOn(decode, lines);
            ParseLines(decode, EMPTY, lines) == After(events, |events|)
    decreases |lines|
  {
    if lines != [] {
      var rest, last := lines[..|lines| - 1], lines[|lines| - 1];
      ParsedIsAfter(decode, rest);
      assert lines == rest + [last];
      ParseLinesAppend(decode, EMPTY, rest, [last]);
      ParseLinesOne(decode, ParseLines(decode, EMPTY, rest), last);
      var before := EventsOn(decode, rest);
      if last != [] && decode(last).Some? {
        AfterSnoc(before, decode(last).value, |before|);
      } else {
        assert EventsOn(decode, lines) == before;
      }
    }
  }

  /** The final message of a stream is read off the events on its complete lines. */
  lemma WrittenMessageReads(decode: Bytes -> Option<Event>, p: Bytes)
    ensures var events := EventsOn(decode, Complete(p));
            Written(decode, State([], EMPTY), p).view.finalMessage ==
                LastBlock(events, BeforeLastResult(events, |events|))
  {
    assert [] + p == p;
    ParsedIsAfter(decode, Complete(p));
    FinalMessageReads(EventsOn(decode, Complete(p)));
  }

  // ---- what the wakeup, the session and the result are ----

  /** All tool calls of the first n events, in order. */
  function CallsOf(events: seq<Event>, n: nat): seq<ToolCall>
    requires n <= |events|
  {
    if n == 0 then [] else CallsOf(events, n - 1) + (if events[n - 1].Assistant? then events[n - 1].calls else [])
  }

  predicate Schedules(call: ToolCall) {
    call.name == "ScheduleWakeup" && call.wakeup.Some? && call.wakeup.value.delaySeconds > 0
  }

  predicate NamesSession(e: Event) { e.Result? && e.sessionId != "" }

  /** The wakeup is that of the last of these calls to schedule one. */
  ghost predicate LastScheduled(calls: seq<ToolCall>, w: Option<Wakeup>) {
    if w.None? then forall i :: 0 <= i < |calls| ==> !Schedules(calls[i])
    else exists i :: 0 <= i < |calls| && Schedules(calls[i]) && calls[i].wakeup == w
                     && forall j :: i < j < |calls| ==> !Schedules(calls[j])
  }

  lemma ScheduledSnoc(calls: seq<ToolCall>, w: Option<Wakeup>, call: ToolCall)
    requires LastScheduled(calls, w)
    ensures LastScheduled(calls + [call], CaptureWakeup(w, call))
  {
    var all := calls + [call];
    assert all[|calls|] == call && forall i :: 0 <= i < |calls| ==> all[i] == calls[i];
    if !Schedules(call) && w.Some? {
      var i :| 0 <= i < |calls| && Schedules(calls[i]) && calls[i].wakeup == w
               && forall j :: i < j < |calls| ==> !Schedules(calls[j]);
      assert Schedules(all[i]) && all[i].wakeup == w;
    }
  }

  lemma {:induction false} ScheduledAppend(before: seq<ToolCall>, w: Option<Wakeup>, calls: seq<ToolCall>)
    requires LastScheduled(before, w)
    ensures LastScheduled(before + calls, CaptureWakeups(w, calls))
    decreases |calls|
  {
    hide LastScheduled, CaptureWakeup;
    if calls == [] {
      assert before + calls == before;
    } else {
      ScheduledSnoc(before, w, calls[0]);
      ScheduledAppend(before + [calls[0]], CaptureWakeup(w, calls[0]), calls[1..]);
      assert before + [calls[0]] + calls[1..] == before + calls;
    }
  }

  lemma {:induction false} WakeupReads(events: seq<Event>, n: nat)
    requires n <= |events|
    ensures LastScheduled(CallsOf(events, n), After(events, n).wakeup)
  {
    hide LastScheduled, TrimRightNewlines;
    if n == 0 {
      NothingScheduled();
    } else {
      WakeupReads(events, n - 1);
      if events[n - 1].Assistant? {
        ScheduledAppend(CallsOf(events, n - 1), After(events, n - 1).wakeup, events[n - 1].calls);
      } else {
        assert CallsOf(events, n) == CallsOf(events, n - 1);
      }
    }
  }

  lemma NothingScheduled()
    ensures LastScheduled([], None)
  {
  }

  /** The result is the last one, and the session the last one that a result names. */
  ghost predicate LastResults(events: seq<Event>, n: nat, v: View)
    requires n <= |events|
  {
    && (if v.sessionId == "" then forall i :: 0 <= i < n ==> !NamesSession(events[i])
        else exists i :: 0 <= i < n && NamesSession(events[i]) && events[i].sessionId == v.sessionId
                         && forall j :: i < j < n ==> !NamesSession(events[j]))
    && v.result == var i := BeforeLastResult(events, n); if i < n && events[i].Result? then events[i].result else ""
  }

  lemma {:induction false} ResultsRead(events: seq<Event>, n: nat)
    requires n <= |events|
    ensures LastResults(events, n, After(events, n))
  {
    if n > 0 {
      hide LastResults, Handle, BeforeLastResult;
      ResultsRead(events, n - 1);
      var v, v' := After(events, n - 1), After(events, n);
      HandleResults(v, events[n - 1]);
      hide After;
      ResultsNext(events, n - 1, v, v');
    }
  }

  lemma HandleResults(v: View, e: Event)
    ensures Handle(v, e).sessionId == if NamesSession(e) then e.sessionId else v.sessionId
    ensures Handle(v, e).result == if e.Result? then e.result else v.result
  {
  }

  lemma ResultsNext(events: seq<Event>, n: nat, v: View, v': View)
    requires n < |events| && LastResults(events, n, v)
    requires v'.sessionId == if NamesSession(events[n]) then events[n].sessionId else v.sessionId
    requires v'.result == if events[n].Result? then events[n].result else v.result
    ensures LastResults(events, n + 1, v')
  {
    if NamesSession(events[n]) {
      assert events[n].sessionId == v'.sessionId;
    }
  }

  /** Wakeup, session and result of a stream are read off the events on its complete lines. */
  lemma WrittenOutcomeReads(decode: Bytes -> Option<Event>, p: Bytes)
    ensures var events, v := EventsOn(decode, Complete(p)), Written(decode, State([], EMPTY), p).view;
            LastScheduled(CallsOf(events, |events|), v.wakeup) && LastResults(events, |events|, v)
  {
    hide LastScheduled, LastResults;
    assert [] + p == p;
    ParsedIsAfter(decode, Complete(p));
    var events := EventsOn(decode, Complete(p));
    WakeupReads(events, |events|);
    ResultsRead(events, |events|);
  }

  // ---- when the message is the last turn's ----

  /** The last non-empty text block completed by events from..n-1, "" if they complete none. */
  function BlockSince(events: seq<Event>, from: nat, n: nat): string
    requires from <= n <= |events|
  {
    if n == from then "" else
      var block := CompletedBlock(After(events, n - 1), events[n - 1]);
      if block != "" then block else BlockSince(events, from, n - 1)
  }

  /** Where the turn that ended with the result at index `end` began. */
  function TurnStart(events: seq<Event>, end: nat): (i: nat)
    requires end <= |events|
    ensures i <= end
  {
    if end == 0 then 0 else if events[end - 1].Result? then end else TurnStart(events, end - 1)
  }

  lemma {:induction false} BlockSinceReads(events: seq<Event>, from: nat, n: nat)
    requires from <= n <= |events|
    ensures LastBlock(events, n) ==
            if BlockSince(events, from, n) != "" then BlockSince(events, from, n) else LastBlock(events, from)
    decreases n
  {
    if from < n {
      BlockSinceReads(events, from, n - 1);
    }
  }

  /**
    The final message is the text of the last turn that ended exactly if that turn completed
    a non-empty block, or no earlier one did; otherwise it is older.
  */
  lemma MessageIsLastTurnsIff(events: seq<Event>)
    ensures var end := BeforeLastResult(events, |events|);
            var start := TurnStart(events, end);
            var text := BlockSince(events, start, end);
            && After(events, |events|).finalMessage == (if text != "" then text else LastBlock(events, start))
            && (After(events, |events|).finalMessage == text <==> text != "" || LastBlock(events, start) == "")
  {
    var end := BeforeLastResult(events, |events|);
    FinalMessageReads(events);
    BlockSinceReads(events, TurnStart(events, end), end);
  }

  /** Two turns, the second without text: the message is the first one's. */
  lemma SilentTurnKeepsOldMessage(text: string, first: string, second: string)
    requires text != "" && TrimRightNewlines(text) == text
    ensures var events := [BlockStart("text"), TextDelta(text), BlockStop, Result(first, "s"), Result(second, "s")];
            var end := BeforeLastResult(events, |events|);
            && BlockSince(events, TurnStart(events, end), end) == ""
            && After(events, |events|).finalMessage == text
  {
    var events := [BlockStart("text"), TextDelta(text), BlockStop, Result(first, "s"), Result(second, "s")];
    assert "" + text == text;
    assert After(events, 1) == EMPTY.(inText := true, text := "");
    assert After(events, 2) == EMPTY.(inText := true, text := text);
    assert After(events, 3) == EMPTY.(lastTextBlock := text);
    assert After(events, 4).finalMessage == text && After(events, 4).lastTextBlock == "";
    assert BeforeLastResult(events, 5) == 4 && TurnStart(events, 4) == 4;
  }

  // ---- the writer itself ----

  class Writer {
    const decode: Bytes -> Option<Event>
    var lineBuf: Bytes
    var view: View

    function Contents(): State
      reads this
    {
      State(lineBuf, view)
    }

    ghost predicate Valid()
      reads this
    {
      NEWLINE !in lineBuf
    }

    constructor (decode: Bytes -> Option<Event>)
      ensures this.decode == decode && Contents() == State([], EMPTY) && Valid()
    {
      this.decode, lineBuf, view := decode, [], EMPTY;
    }

    /** The loop of processLines: parse every complete line, keep what is left. */
    method ProcessLines()
      modifies this
      ensures Valid()
      ensures Contents() == State(Remainder(old(lineBuf)), ParseLines(decode, old(view), Complete(old(lineBuf))))
    {
      while true
        invariant Remainder(lineBuf) == Remainder(old(lineBuf))
        invariant ParseLines(decode, view, Complete(lineBuf)) == ParseLines(decode, old(view), Complete(old(lineBuf)))
        decreases |lineBuf|
      {
        var i := FirstNewline(lineBuf);
        if i == |lineBuf| {
          CutHeadless(lineBuf);
          RemainderIsLineFree(old(lineBuf));
          return;
        }
        CutHead(lineBuf);
        var line := lineBuf[..i];
        ghost var later := Complete(lineBuf[i + 1..]);
        assert ([line] + later)[1..] == later;
        lineBuf := lineBuf[i + 1..];
        if line != [] {
          var e := decode(line);
          if e.Some? {
            view := Handle(view, e.value);
          }
        }
      }
    }

    /** `n` and `failed` are what writing `p` to the raw log answered. */
    method Write(p: Bytes, n: nat, failed: bool) returns (written: nat, err: bool)
      requires Valid() && n <= |p|
      modifies this
      ensures Valid() && written == n && err == failed
      ensures Contents() == if failed then old(Contents()) else Written(decode, old(Contents()), p[..n])
    {
      if failed {
        return n, true;
      }
      lineBuf := lineBuf + p[..n];
      ProcessLines();
      return n, false;
    }
  }
}
