# Verification of bigband's concurrent cores

bigband runs scheduled coding agents. Its correctness rests on a handful of small loops: following
an agent's transcript while it grows, delivering events to clients that come and go, keeping the
machine's wake-ups in step with the schedule, splitting long messages, restarting extensions,
resuming agents on their own wakeups, and reloading the schedule. This project models those loops
and proves what they promise. `dafny verify dfyconfig.toml` checks all of it.

How it is put together: code that updates state in place is a class or a method here, with the
loops of the source, and each such method is proved equal to a function of the old state; what
the source promises is then proved about that function, over every run. What the outside world
does (file growth, process exits, failing commands, connections breaking, time passing) is a
parameter, usually a script or a function of the attempt number, so every theorem holds for every
behaviour of the world.

| module | what it is |
|---|---|
| Common, Lines, Tail | shared names; newline-cut byte streams; the transcript follower, its offsets and its resumption |
| Session, Records, Provider, Exits, Phases, ClaudePty | a claude session's operations and pending background work; what each record does; the phases of a run; how it ends; a run attempt by attempt; the provider as it runs |
| StreamWriter | the stream-json writer |
| Events, Bus | envelopes, filters and one subscription's buffer; the bus as it runs |
| Selection, Delivery, Reconnect, Order, Lag, Runs, Gaps | delivery as a state machine: one connection, any number of reconnects, publish order, overflowing buffers, and exactly where the guarantees end |
| Daemon | the replay and live loops of the daemon and the client's reconnect loop as they run |
| Wake, Reconciling | the wake reconciler as it runs; many reconciles in a row |
| Utf8, Split | UTF-8 (section 3 of RFC 3629); the Slack message splitter |
| Supervisor, Supervising | restart policy and backoff; the supervise loop |
| Runner, Turns | a job run: events, wakeup loop, deadline; the same turn by turn |
| Scheduler | hot reload of the schedule |

Where the code and its documentation part, the model follows the code:

- A failed stat or read, or an oversize buffer, makes `tailSession` return the raw offset, not the
  resumable one. `Tail.ErrorOffset` and `Tail.OversizeOffset` say exactly when that is sound,
  `Tail.StatErrorMidLine` and `Tail.OversizeLosesRecords` show when not: the length test looks at the whole
  buffer, so records are lost although no line is long.
- The comment on `tailSession` says it stops on malformed JSON; the code skips the line, and so does the model.
- `getFinalMessage` is documented as the text of the most recent turn; the field is sticky, and a turn
  without text keeps an older message (`StreamWriter.MessageIsLastTurnsIff`).
- A client that has handled nothing reconnects live-only and misses what came meanwhile; a replay from a
  whole second can hand out an event older than the first one handled, exactly if two share a second
  (`Gaps.PublishOrderIff`); an event can be lost to its time exactly if it is stamped before the second of an
  earlier one (`Gaps.MissesNothingIff`), and so can what a full buffer drops (`Gaps.LagSkipsAnEvent`; `Lag` says
  what holds all the same). The reconnect backoff is never reset.
- The cancel-failure count of a wake survives the wake being cancelled while the extension is disabled, so an
  entry owned again can be given up after a single failure (`Reconciling.GivenUpAfter`).
- Message limits are in bytes. They hold, and characters stay whole, exactly under the conditions of
  `Split.FitIff` and `Split.ValidIff`. A text of newlines alone above the limit makes no message at all
  (`Split.NoMessageIff`).
- A failure limit of 0 becomes 5, so there is no unlimited restart (`Supervisor.EffectiveRestart`); an exit
  event that announces a restart is no promise of one (`Supervising.RestartComesIff`).
- A failed env resolution is said to fail the run; the agent still takes its turns, and an
  error of the agent masks the failure (`Runner.AgentRunsIff`, `Runner.StatusMeans`).
- A wakeup delay is multiplied out in 64 bits and can wrap to nothing or below (`Runner.DelayIsMeantIff`). The
  run still ends, since a call made after the deadline fails (`Runner.RunEnds`).
- A reload compares jobs by name, expression and enabledness only, so an edited prompt keeps firing the old
  job, and edited defaults the old defaults (`Scheduler.FiresAsConfiguredIff`, `Scheduler.FiresWhatMadeIt`), and
  a job that became a one-off keeps its cron entry.

## Model

| member | source | states |
|---|---|---|
| Lines.CutAppend | internal/agent/claudepty/tail.go:134-144 | cutting a stream piece by piece, keeping the unfinished tail, yields the lines of the whole stream and its tail |
| Lines.CutHead | internal/agent/claude/stream.go:130-148 | taking the first line off a buffer leaves the lines after it, and what was taken ends on a line boundary |
| Lines.FirstNewlineIsFirst | internal/agent/claude/stream.go:132-138 | the scan finds the first newline, or that there is none |
| Tail.OneCall | internal/agent/claudepty/tail.go:35-98 | one call, over any script of polls: the bytes up to the resumable offset end on a line boundary, the visited records are exactly their parse, the visitor was asked to stop only by the last of them, and what is held back holds no line end |
| Tail.ReadsEveryLine | internal/agent/claudepty/tail.go:50-98 | a call not stopped by its visitor has visited every complete line among the bytes it read; when claude died these reach as far as a stat of the turn that found it dead shows |
| Tail.EndsForCause | internal/agent/claudepty/tail.go:50-98 | each call ends for a cause its polls show, and not before: it has read to where the turns before read, and then its context is over, a stat or read fails, nothing is new and claude is dead, the visitor stops, or more than 16 MiB are held back |
| Tail.LineHoldsRecordIff | internal/agent/claudepty/tail.go:80-92 | a line holds a record iff it is not all white space and decodes |
| Tail.ChunkingIsInvisible | internal/agent/claudepty/tail.go:70-98 | two ways of cutting the same bytes into reads cannot be told apart by the caller |
| Tail.CallsAccount | internal/agent/claudepty/tail.go:40-49 | over any number of calls resumed at returned offsets, the final state and visited records are those of one parse of the stretch between the first start and the last offset |
| Tail.ExactlyOnce | internal/agent/claudepty/tail.go:40-98 | the visited records followed by the parse of the rest are the parse of the whole file: none dropped, repeated or cut; every returned offset is a line boundary |
| Tail.ErrorOffset | internal/agent/claudepty/tail.go:54-75 | resuming at the raw offset of a stat or read error is sound exactly when that offset starts a line of the file |
| Tail.StatErrorMidLine | internal/agent/claudepty/tail.go:54-57 | a run in which it does not: a stat error returns an offset inside a line |
| Tail.OversizeOffset | internal/agent/claudepty/tail.go:76-78 | resuming at the raw offset of an oversize buffer is sound exactly when the bytes held back end a line and hold no record |
| Tail.OversizeLosesRecords | internal/agent/claudepty/tail.go:70-78 | a file above the limit that shows at once, its first line a record, is passed over with nothing visited, however short its lines |
| Session.PendingIffDispatchedAndNotEnded | internal/agent/claudepty/provider.go:335-422 | after any history an id is pending iff it was dispatched with no later notification naming it and no later error-free stop of a task whose latest acknowledgement maps to it |
| Session.LastIsLast | internal/agent/claudepty/provider.go:329-443 | the last operation of a kind, as the readings of message and wakeup use it |
| Session.MessageReads | internal/agent/claudepty/provider.go:423-436 | the message surfaced is the last non-empty main-chain text before the last turn end, or the last text if no turn left one |
| Session.WakeupReads | internal/agent/claudepty/provider.go:339-350 | the wakeup is the last well-formed ScheduleWakeup call, or none if that call was a stop |
| Session.VisitedTranscriptDecides | internal/agent/claudepty/provider.go:327-443 | all three, read off the records visited |
| Session.SilenceIsInvisible | internal/agent/claudepty/records.go:93-192 | sidechain assistant, user and system records and notifications without a tool-use id can be cut out of any transcript without changing the outcome |
| Records.IgnoredRecord | internal/agent/claudepty/records.go:93-192 | sidechain records, system records other than a turn's end and unknown kinds change nothing |
| Records.TurnEnd | internal/agent/claudepty/provider.go:423-436 | a turn's end keeps the last text as the message |
| Records.AttachmentRecord | internal/agent/claudepty/records.go:410-427 | a queued command in task-notification mode ends the use its prompt names; any other attachment changes nothing |
| Records.LeavesPendingOnlyIf | internal/agent/claudepty/provider.go:378-422 | a use leaves the pending set at a record only if that is a notification naming it, or a main-chain user record with the error-free result of a stop of the task mapped to it |
| Records.CallsInTurn | internal/agent/claudepty/provider.go:335-377 | the tool calls of a message take effect one after the other |
| Records.ResultsInTurn | internal/agent/claudepty/provider.go:378-413 | so do the results of a user record |
| Records.OneCall | internal/agent/claudepty/provider.go:335-377 | what one tool call changes, in the call's own fields |
| Records.OneResult | internal/agent/claudepty/provider.go:378-413 | what one tool result changes: whether it dispatches, names a task, answers a stop |
| Records.MessageText | internal/agent/claudepty/records.go:432-454 | a message's text is its non-empty texts in order with blank lines between; without any the last text stays |
| Records.OneText | internal/agent/claudepty/records.go:432-454 | a single text is said as it is, and other blocks say nothing |
| Provider.AwaitDrain | internal/agent/claudepty/provider.go:458-482 | ends for every world, with at most one attempt more than bytes consumed, and reports success iff nothing is pending |
| Provider.AwaitTurn | internal/agent/claudepty/provider.go:491-506 | ends for every world, with at most one attempt more than bytes consumed |
| Provider.NewWorkMeansProgress | internal/agent/claudepty/provider.go:198-237 | a drain and synthesis cycle that ends with work pending has advanced the offset |
| Provider.Phase2 | internal/agent/claudepty/provider.go:198-237 | ends for every world; its attempts are bounded by the bytes it consumed |
| Exits.DrainMoved | internal/agent/claudepty/provider.go:458-482 | a drain changes the bookkeeping by exactly the records it visited, which are the parse of the stretch it consumed when every stop was resumable |
| Exits.TurnMoved | internal/agent/claudepty/provider.go:491-506 | the same of a wait for synthesis |
| Exits.DrainReason | internal/agent/claudepty/provider.go:466-481 | a drain that gives up was cut short by the job's context, claude's exit, or an attempt that consumed no complete line |
| Exits.ExitSafety | internal/agent/claudepty/provider.go:177-256 | a run without error leaves work pending only for one of those reasons, shown by its last attempt or guard; otherwise nothing is pending |
| Exits.AttemptsAreBounded | internal/agent/claudepty/provider.go:177-256 | the tail attempts of a whole run are bounded by the transcript it consumed |
| Exits.RunAccounts | internal/agent/claudepty/provider.go:177-256 | a run's bookkeeping is that of the records it visited, over all its attempts |
| Exits.RunReportsTranscript | internal/agent/claudepty/provider.go:546-564 | pending set and the reported message and wakeup of a run are what the visited records say, and these are the parse of the transcript between first and last offset when no read failed |
| Phases.RunOkIff | internal/agent/claudepty/provider.go:174-188 | a run is without error iff its first attempt visited the end of a main-chain turn |
| Phases.RunIsSteps | internal/agent/claudepty/provider.go:174-256 | a run is a chain of attempts, each leading to the next or to the end as its phase, outcome, job context and claude's exit say; what it visits is what they visited, in order |
| Phases.AttemptStopsIff | internal/agent/claudepty/provider.go:423-443 | an attempt stops by itself at the first record after which its phase has what it waits for, and only there: a turn's end, or in a drain that nothing is pending |
| ClaudePty.RunState.constructor | internal/agent/claudepty/provider.go:313-322 | a fresh state has nothing pending, said or dispatched |
| ClaudePty.RunState.VisitUse | internal/agent/claudepty/provider.go:335-377 | the effect of a tool call on every field |
| ClaudePty.RunState.NoteDispatch | internal/agent/claudepty/provider.go:385-397 | an acknowledgement makes a use pending and maps its task |
| ClaudePty.RunState.NoteStop | internal/agent/claudepty/provider.go:398-410 | a stop's answer ends the mapped use only when error-free |
| ClaudePty.RunState.VisitResult | internal/agent/claudepty/provider.go:378-413 | the effect of a tool result on every field |
| ClaudePty.RunState.VisitUses | internal/agent/claudepty/provider.go:335-377 | the loop over tool calls is the calls one after the other |
| ClaudePty.RunState.VisitResults | internal/agent/claudepty/provider.go:378-413 | the loop over tool results is the results one after the other |
| ClaudePty.RunState.Visit | internal/agent/claudepty/provider.go:327-443 | the callback's new state and whether it stops the tail, in each phase |
| ClaudePty.RunState.TakeLines | internal/agent/claudepty/tail.go:80-97 | the inner loop hands over complete lines in order until the visitor stops or none is left |
| ClaudePty.RunState.TailSession | internal/agent/claudepty/tail.go:35-98 | the follower's loop over an appended, partly consumed buffer computes the call that OneCall is about |
| ClaudePty.RunState.AwaitDrain | internal/agent/claudepty/provider.go:458-482 | the retry loop terminates and computes the drain |
| ClaudePty.RunState.AwaitSynthesis | internal/agent/claudepty/provider.go:491-506 | the quiet-window loop terminates and computes the wait |
| ClaudePty.RunState.Defer | internal/agent/claudepty/provider.go:198-237 | the drain and synthesis loop terminates and computes Phase 2 |
| ClaudePty.RunState.Run | internal/agent/claudepty/provider.go:174-256 | the run's report, so that ExitSafety and RunReportsTranscript speak of it |
| StreamWriter.ChunkingIsInvisible | internal/agent/claude/stream.go:97-148 | for every way of cutting a stream into writes the outcome depends on the bytes only, and what is retained is exactly what follows the last newline |
| StreamWriter.SameBytesSameOutcome | internal/agent/claude/stream.go:97-148 | two ways of writing the same bytes give the same result, session, wakeup and message |
| StreamWriter.FinalMessageReads | internal/agent/claude/stream.go:443-451 | the final message is the last non-empty text block completed before the last result |
| StreamWriter.BlockReads | internal/agent/claude/stream.go:237-290 | the block a stop completes is the text deltas since its start, in order, less newlines at the end |
| StreamWriter.NoBlockReads | internal/agent/claude/stream.go:264-290 | a stop without a text block started since the last one completes none |
| StreamWriter.WrittenMessageReads | internal/agent/claude/stream.go:97-148 | and that of the bytes written: the message of a stream is read off the events on its complete lines |
| StreamWriter.WakeupReads | internal/agent/claude/stream.go:381-390 | the wakeup is that of the last ScheduleWakeup call whose input decodes to a positive delay, or none |
| StreamWriter.WrittenOutcomeReads | internal/agent/claude/stream.go:97-148 | wakeup, session (the last a result names) and result (the last) of a stream are read off the events on its complete lines |
| StreamWriter.MessageIsLastTurnsIff | internal/agent/claude/stream.go:121-128 | it is the text of the last ended turn iff that turn completed a non-empty block or no earlier one did, and older otherwise |
| StreamWriter.SilentTurnKeepsOldMessage | internal/agent/claude/stream.go:448-451 | two turns, the second without text: the message is the first one's |
| StreamWriter.Writer.constructor | internal/agent/claude/stream.go:78-95 | a fresh writer holds nothing |
| StreamWriter.Writer.ProcessLines | internal/agent/claude/stream.go:130-148 | every complete line is parsed in order and only the unfinished one is kept |
| StreamWriter.Writer.Write | internal/agent/claude/stream.go:97-107 | a write is accounted for as far as the raw log took it; a failed one changes nothing |
| Events.Matches | pkg/bigbandext/events.go:93-125 | the scans accept exactly the envelopes whose kind and job the lists name, empty lists and "*" naming all |
| Events.SubscriptionBooksBalance | internal/events/events.go:161-199 | in every interleaving, matching events split exactly into those enqueued, in order, and lagDropped many dropped; the buffer never exceeds 1024; lagged is set iff some drop has no later marker |
| Bus.PublishIsActs | internal/events/events.go:161-199 | what one publish does to a subscription is an interleaving the books balance over |
| Bus.PublishReads | internal/events/events.go:166-200 | what a publish comes to for one subscriber: joined below capacity or lost and counted, then received from, then marked if there is room |
| Bus.Subscription.TrySend | internal/events/events.go:170-177 | a send drops exactly when the buffer is full, and is never made on a closed channel |
| Bus.Subscription.Close | internal/events/events.go:136-138 | a channel is closed at most once |
| Bus.EventBus.constructor | internal/events/events.go:118-124 | a new bus is open and empty |
| Bus.EventBus.Publish | internal/events/events.go:145-200 | the log grows by the envelope if it could be written, and every subscription is offered it, then told of its lag |
| Bus.EventBus.OfferAll | internal/events/events.go:166-178 | the first pass, over every subscriber and no other state |
| Bus.EventBus.NudgeAll | internal/events/events.go:182-199 | the second pass, over every subscriber and no other state |
| Bus.EventBus.Subscribe | internal/events/events.go:205-214 | a new, empty subscription joins the others |
| Bus.EventBus.Cancel | internal/events/events.go:216-226 | removes that subscription only and closes its channel; again, or after Close, does nothing |
| Bus.EventBus.Close | internal/events/events.go:127-140 | closes every channel once and forgets them; a second call changes nothing |
| Delivery.ReplayLineKeeps | internal/daemon/daemon.go:623-642 | replaying one line keeps: sent at or after `since` is the matching log so far |
| Delivery.FanOutKeeps | internal/events/events.go:166-178 | fanning out to the buffered channel keeps it |
| Delivery.DrainKeeps | internal/daemon/daemon.go:597-605 | draining one envelope, skipping what was replayed, keeps it |
| Delivery.PlayKeeps | internal/daemon/daemon.go:581-644 | it holds after every run of publish, fan-out, replay, drain, take, disconnect and reconnect |
| Delivery.OneConnection | internal/daemon/daemon.go:581-644 | what a connection sent at or after `since` is exactly the matching log entries up to where it reaches, once each and in publish order, less what the full buffer dropped, and every drop was counted |
| Delivery.DrainedConnectionSentAll | internal/daemon/daemon.go:581-644 | once drained with nothing dropped, that is every matching log entry |
| Reconnect.HandledAtMostOnce | cmd/bigband-slack/start.go:259-281 | over every run, lag and reconnects included, no event id is handled twice |
| Reconnect.FloorReads | cmd/bigband-slack/start.go:250 | a replay is asked for from the whole second a time falls into |
| Reconnect.PlayIsFine | cmd/bigband-slack/start.go:211-283 | if no matching event is stamped before the second of an earlier one and none was dropped, every run keeps the client's handled list, its connection's position and its `since` in step with the log |
| Reconnect.NothingIsSkipped | cmd/bigband-slack/start.go:211-283 | then, from the first handled event on, the client has handled an unbroken stretch of the matching events in publish order, although what is in flight is lost on every disconnect |
| Reconnect.CaughtUpMissesNothing | cmd/bigband-slack/start.go:211-283 | on a caught-up connection that stretch reaches the end of the log |
| Reconnect.NothingHandledSinceConnecting | cmd/bigband-slack/start.go:249-254 | whatever the times, a caught-up client that has handled nothing has missed nothing since it last connected, unless that connection dropped something |
| Order.PlayIsPlaced | cmd/bigband-slack/start.go:249-283 | then, over every run, what is handled from before the first handled event is not older than its second |
| Order.HandledInPublishOrder | cmd/bigband-slack/start.go:249-283 | and if no older matching event falls into that second, everything handled is the unbroken stretch from the first one on, in publish order |
| Lag.PlayFits | cmd/bigband-slack/start.go:211-283 | over every run in which no matching event is stamped before the second of an earlier one or of a lag marker, overflowing buffers included, whatever is neither handled nor dropped lies beyond what was handled and a replay would still reach it |
| Lag.LagLosesOnlyDrops | cmd/bigband-slack/start.go:211-283 | so across reconnects, of the matching events from the first handled one to the last, every one was handled or was dropped by a full buffer |
| Lag.CaughtUpLosesOnlyDrops | cmd/bigband-slack/start.go:211-283 | and on a caught-up connection, of those from the first handled one to the end of the log |
| Lag.LossesAreCounted | internal/events/events.go:170-177 | the events dropped on all connections together are as many as the drops counted |
| Runs.HeardThenReplayed | cmd/bigband-slack/start.go:211-283 | in any log: a client that hears one event live, is away for the rest and comes back has handled that event and exactly the matching ones not older than its second |
| Gaps.NothingHandledNothingReplayed | cmd/bigband-slack/start.go:249-254 | but all that came while it was away is gone, whatever was published |
| Gaps.OlderEventAfterFirst | cmd/bigband-slack/start.go:250 | in any log, an event not older than the second of a later one can be handled after it, the first one handled |
| Gaps.PublishOrderIff | cmd/bigband-slack/start.go:249-283 | with times as above: over all undropped runs of a log everything handled is an unbroken stretch in publish order iff no two matching events share a second |
| Gaps.BackwardsTimeLosesAnEvent | internal/events/events.go:152-161 | in any log, an event stamped before the second of an earlier one can be lost for good, caught up and with no drop |
| Gaps.MissesNothingIff | cmd/bigband-slack/start.go:249-283 | over all undropped runs of a log a caught-up client has every matching event from its first on iff no matching event is stamped before the second of an earlier one |
| Gaps.LagSkipsAnEvent | internal/events/events.go:170-177 | a subscriber that lags by more than its buffer skips an event and handles a later one, with nothing left outstanding |
| Daemon.Encoder.Encode | internal/daemon/daemon.go:598-604 | an envelope is sent whole or not at all |
| Daemon.StreamReplay | internal/daemon/daemon.go:623-644 | everything wanted is sent in file order as far as the connection holds, whether or not the scan then fails; success iff neither failed |
| Daemon.DrainLive | internal/daemon/daemon.go:596-605 | what arrives and was not replayed is passed on in order as far as the connection holds |
| Daemon.HandleSubscribe | internal/daemon/daemon.go:581-606 | a connection carries the replay and then what is new on the channel, as far as it holds |
| Daemon.ReplayAllReads | internal/daemon/daemon.go:623-642 | the file loop is Delivery's replay steps; blank, torn and malformed lines do not count |
| Daemon.DrainAllReads | internal/daemon/daemon.go:597-605 | the live loop is Delivery's drain steps |
| Daemon.CarriedIsDelivered | internal/daemon/daemon.go:581-644 | and the whole connection is the steps of Delivery in sequence: opened, the file replayed if asked for, replay ended, the channel drained until it is empty |
| Daemon.CarriedOnce | internal/daemon/daemon.go:581-605 | a file and a channel without repeats make a connection without repeats |
| Daemon.HandledExactlyOnce | cmd/bigband-slack/start.go:268-275 | whatever arrives in whatever order, each id is handled exactly once |
| Daemon.BackoffReads | cmd/bigband-slack/start.go:212-231 | reconnect waits are 1, 2, 4, 8 and 16 seconds and then always 30 |
| Daemon.SubscribeState.StreamOnce | cmd/bigband-slack/start.go:240-283 | asks for replay from the last handled time floored to a second, and handles what is taken, once each |
| Daemon.AsksFromLatest | cmd/bigband-slack/start.go:249-283 | each connection asks for what happened from the second in which the latest event taken before falls |
| Daemon.SubscribeState.RunSubscribeLoop | cmd/bigband-slack/start.go:211-233 | what is handled depends only on the envelopes taken, not on where connections broke; each connection asks from where the last left off, and there is a next one, after a wait, until it is cancelled |
| Wake.WakeKeyIsInjective | cmd/bigband-wake/daemon.go:589-591 | the text key tells job and wake time apart |
| Wake.SortByWakeAt | cmd/bigband-wake/daemon.go:464-465 | the order, and the same wakes |
| Wake.DistinctReads | cmd/bigband-wake/daemon.go:435-442 | distinct means that no two entries have the same job and wake time |
| Wake.Contains | cmd/bigband-wake/daemon.go:593-600 | found iff some entry has that job and wake time |
| Wake.IndexByKey | cmd/bigband-wake/daemon.go:435-442 | the map has exactly the keys of the list and one of its entries under each |
| Wake.Missing | cmd/bigband-wake/daemon.go:444-454 | one entry for each key owned by one side only, ranging in any order |
| Wake.Reconciler.CancelOne | cmd/bigband-wake/daemon.go:471-487 | kept iff the cancel failed and has failed fewer than three times; the count follows |
| Wake.Reconciler.CancelEach | cmd/bigband-wake/daemon.go:467-488 | exactly the stuck entries are kept, and the counts are those of the cancels tried |
| Wake.Reconciler.KeepWanted | cmd/bigband-wake/daemon.go:489-501 | what was owned and is wanted is kept once each, unchanged |
| Wake.Reconciler.AddEach | cmd/bigband-wake/daemon.go:502-510 | exactly the additions that could be scheduled join, stamped |
| Wake.Reconciler.ReconcileOnce | cmd/bigband-wake/daemon.go:416-517 | the owned keys become (owned and wanted) with stuck cancels and successful additions; keys are distinct and ordered by wake time; a no-op or an unreadable status changes nothing; kept entries are untouched |
| Wake.Reconciler.CancelAll | cmd/bigband-wake/daemon.go:571-584 | exactly the entries whose cancel failed remain, in order |
| Wake.RemainingReads | cmd/bigband-wake/daemon.go:571-584 | what remains is the entries whose cancel failed, each once and in order |
| Reconciling.OneRoundSettlesIff | cmd/bigband-wake/daemon.go:444-513 | one reconcile reaches the wanted keys iff nothing is stuck and nothing fails to be scheduled |
| Reconciling.LeftoversHaveFailed | cmd/bigband-wake/daemon.go:470-488 | what is owned and not wanted after n rounds has failed to cancel in every one of them and is still below three |
| Reconciling.ThreeRoundsSettle | cmd/bigband-wake/daemon.go:416-517 | for fixed wanted keys that can be scheduled, three reconciles reach them however cancels fail, and they stay |
| Reconciling.TwoRoundsNeedNotSettle | cmd/bigband-wake/daemon.go:155 | two need not |
| Reconciling.OwnsOnlyItsOwn | cmd/bigband-wake/daemon.go:444-513 | nothing is ever owned that was not owned at first or wanted at some point |
| Reconciling.ReconcileIsARound | cmd/bigband-wake/daemon.go:416-517 | a reconcile as it runs is a round of these results |
| Reconciling.CancelAllIsARound | cmd/bigband-wake/daemon.go:571-584 | so is cancelling everything while disabled, which moves no failure count |
| Reconciling.CountReads | cmd/bigband-wake/daemon.go:470-488 | over any rounds, a key's failure count is the number of failures its reconcile cancels end with, modulo three |
| Reconciling.GivenUpIff | cmd/bigband-wake/daemon.go:470-488 | an entry whose cancel fails is given up iff that is the third, sixth, ... failure in a row |
| Reconciling.OwnedIff | cmd/bigband-wake/daemon.go:416-517 | over any rounds, exactly when a key is owned after one: kept and wanted, or failed to cancel but not for the third time in a row, or new and schedulable; while disabled, failed to cancel |
| Reconciling.GivenUpAfter | cmd/bigband-wake/daemon.go:470-488 | an entry given up has failed three times since it came to be owned, less what its count had left over |
| Reconciling.ThreeFailuresUnlessCleared | cmd/bigband-wake/daemon.go:416-517 | if it was never cancelled while disabled, nothing was left over: exactly three |
| Reconciling.ClearedEntryIsGivenUpAtOnce | cmd/bigband-wake/daemon.go:571-584 | failed twice, cancelled while disabled and wanted again, an entry is given up at its first failure |
| Reconciling.WakesRead | cmd/bigband-wake/daemon.go:533-558 | a wake is wanted iff it lies ahead, lead before the firing of an enabled scheduled job |
| Reconciling.SettingsRead | cmd/bigband-wake/daemon.go:523-566 | settings out of range: a minute's lead, sixteen wakes, at most thirty-two |
| Reconciling.DesiredWakeSet | cmd/bigband-wake/daemon.go:523-566 | the soonest eligible wakes, in order, as many as the clamped maximum; what is cut is no sooner |
| Utf8.ValidSplit | cmd/bigband-slack/split.go:81-84 | cutting a valid text before a rune start leaves two valid texts |
| Utf8.RuneStartNear | cmd/bigband-slack/split.go:81-84 | a rune start is never more than three bytes back |
| Utf8.ValidAppend | cmd/bigband-slack/split.go:64 | joining valid texts gives a valid one |
| Split.Budget | cmd/bigband-slack/split.go:36-39 | the budget is the limit less the reserve, or the limit where that leaves nothing |
| Split.SplitPointReads | cmd/bigband-slack/split.go:73-89 | the cut lies in 1..budget and is the last blank line past the start, else the last line break, else the last rune start, else the budget |
| Split.SplitPoint | cmd/bigband-slack/split.go:73-89 | the loop finds that cut |
| Split.PiecesPreserve | cmd/bigband-slack/split.go:41-53 | the chunks in order give back the text except for runs of newlines between them and at the ends |
| Split.PiecesFit | cmd/bigband-slack/split.go:41-53 | no chunk is empty or exceeds the budget |
| Split.PiecesCut | cmd/bigband-slack/split.go:41-53 | a text above the budget is cut where preferred; what is before and after the cut, without the newlines around it, is a piece and what is cut next |
| Split.PiecesValid | cmd/bigband-slack/split.go:81-88 | with a budget of four bytes or more, chunks of a valid text are valid |
| Split.SplitForSlack | cmd/bigband-slack/split.go:28-66 | the loop ends for every text and limit and returns the messages the results below are about |
| Split.MarkAll | cmd/bigband-slack/split.go:58-65 | every chunk but the first carries its number and their count |
| Split.MessagesRead | cmd/bigband-slack/split.go:32-65 | a text within the limit is its own message, otherwise messages are the chunks in order |
| Split.MessageSays | cmd/bigband-slack/split.go:58-65 | every message but the first opens with its number and their count in decimal, then has its chunk |
| Split.MessagesValid | cmd/bigband-slack/split.go:28-66 | with a budget of four bytes or more, a valid text makes valid messages |
| Split.MessagesFit | cmd/bigband-slack/split.go:19-22 | with a limit above the reserve, fewer than a hundred messages all fit it |
| Split.FitIff | cmd/bigband-slack/split.go:19-22 | and only then |
| Split.SmallLimitOverflows | cmd/bigband-slack/split.go:36-39 | for every limit up to the reserve, a text whose second message overflows |
| Split.HundredMessagesOverflow | cmd/bigband-slack/split.go:19-22 | for every larger limit, a text of a hundred messages of which the last overflows |
| Split.SmallBudgetBreaks | cmd/bigband-slack/split.go:85-87 | for every budget below four, a valid text whose first message is not |
| Split.NoMessageIff | cmd/bigband-slack/split.go:32-56 | a text makes no message iff it is above the limit and all newlines |
| Split.ValidIff | cmd/bigband-slack/split.go:81-88 | valid texts always make valid messages iff the budget is at least four bytes |
| Supervisor.EffectiveRestart | internal/extensions/manifest.go:140-158 | 0 < initial <= max, a positive failure limit and a set policy, each as configured when it was and its default when not |
| Supervisor.ComputeBackoff | internal/extensions/supervisor.go:526-538 | the doubling loop in 64-bit arithmetic, early return included |
| Supervisor.BackoffIsCapped | internal/extensions/supervisor.go:526-538 | for every failure count it is min(initial * 2^(failures-1), max), with no overflow below 2^62 |
| Supervisor.BackoffSafeIff | internal/extensions/supervisor.go:526-538 | a cap is safe for every initial backoff and failure count iff it is below 2^62 |
| Supervisor.WrapsAtHalf | internal/extensions/supervisor.go:532 | at 2^62 and above, an initial backoff whose second wait is negative |
| Supervisor.BackoffMonotone | internal/extensions/supervisor.go:524-538 | waits of an effective policy never shrink as failures mount and stay in [initial, max] |
| Supervising.ProcState.constructor | internal/extensions/supervisor.go:49-76 | a process never started |
| Supervising.ProcState.StartLoop | internal/extensions/supervisor.go:342-347 | a new loop starts with the counter at zero |
| Supervising.ProcState.Spawn | internal/extensions/supervisor.go:381-421 | one spawn; the operator's Start may reset the counter meanwhile |
| Supervising.ProcState.JudgeExit | internal/extensions/supervisor.go:433-473 | status, counter, restart count and event for each kind of exit |
| Supervising.ProcState.BackOff | internal/extensions/supervisor.go:475-490 | the wait announced, and stopping during it |
| Supervising.ProcState.Run | internal/extensions/supervisor.go:354-492 | the loop over any turns is the run the theorems are about |
| Supervising.RunTells | internal/extensions/supervisor.go:354-492 | over every run the counter is the number of restart-worthy rapid exits since its last reset, each spawn has one exit, and the loop has failed iff its last exit left the counter at the limit |
| Supervising.TurnReads | internal/extensions/supervisor.go:354-490 | each turn of every run adds a spawn, an exit judged by its own policy, exit code and duration, and, if a restart is announced, the wait for the counter then; nothing once over or stopped at the top |
| Supervising.CountStartsAgain | internal/extensions/supervisor.go:433-447 | the counter starts again at a reset and at a healthy exit |
| Supervising.CountGoesUp | internal/extensions/supervisor.go:433-447 | and otherwise goes up by one with every restart-worthy rapid exit |
| Supervising.NothingAfterOver | internal/extensions/supervisor.go:441-473 | an exit that does not restart is the last event of its loop |
| Supervising.RespawnBelowLimit | internal/extensions/supervisor.go:453-467 | a restart happens only with the counter below the limit |
| Supervising.RestartComesIff | internal/extensions/supervisor.go:357-490 | over every run, an announced restart comes iff no stop cuts its backoff short, none is pending after it and the manifest still wants the extension |
| Supervising.BreakerTripsAtLimit | internal/extensions/supervisor.go:450-467 | at no moment have more restart-worthy rapid exits happened since a reset than the highest limit so far, and only a failed loop has reached it |
| Runner.JobRun.AnnounceSession | internal/runner/runner.go:221-233 | a session is announced once, when it is known |
| Runner.JobRun.CallAgent | internal/runner/runner.go:196-202 | a call's result and time; one begun at or after the deadline fails |
| Runner.JobRun.NoteTurn | internal/runner/runner.go:249-259 | session, message and events after a turn |
| Runner.JobRun.SleepUntilWakeup | internal/runner/runner.go:267-292 | an honoured delay is announced and slept through unless cancelled |
| Runner.JobRun.RunAgent | internal/runner/runner.go:196-309 | the wakeup loop, over any number of wakeups, and whether it is over |
| Runner.JobRun.RunJob | internal/runner/runner.go:108-400 | the events a run publishes on every path, and whether it is over |
| Runner.EventsFollowPattern | internal/runner/runner.go:108-400 | started (pre_failed, or worktree_ready? (turn (wakeup turn)* wakeup?)?) completed, with at most one session_started right before a turn; completed carries the last non-empty message and the last turn's session; a run not yet over has just finished a turn |
| Runner.HonouredDelaysFit | internal/runner/runner.go:261-271 | honoured delays add up to less than the timeout |
| Runner.WakeupsAreBounded | internal/runner/runner.go:261-309 | with delays of at least a second there are fewer wakeups than the timeout has seconds |
| Runner.RunEnds | internal/runner/runner.go:196-309 | the wakeup loop ends for every agent whose rounds take time, whatever delays it asks for, wrapped ones included, and however often |
| Runner.TurnsBeginInTime | internal/runner/runner.go:196-202 | no turn follows one begun at or after the deadline, and such a turn ends the run with an error |
| Turns.RunIsItsTurns | internal/runner/runner.go:196-309 | over any horizon: which turns are taken, when each begins, their errors, the session and message, and every event, read off the turns, the clock and the deadline |
| Turns.PublishedIsTurns | internal/runner/runner.go:108-400 | all a run publishes: its opening, each turn with its wakeup, and the completion |
| Turns.OverIff | internal/runner/runner.go:261-309 | a run is over iff one of its turns has an error, asks for no wakeup or for one at or after the deadline, or its sleep was cut short |
| Turns.WakeupRefusedIsLate | internal/runner/runner.go:267-271 | a wakeup asked for by the last turn of a run over without error would have come at the deadline or later |
| Turns.OpeningReads | internal/runner/runner.go:102-183 | the command published as failed is the first that fails; the worktree is announced iff none fails and there is one |
| Turns.SecondsRead | internal/runner/runner.go:283-291 | delays are published in whole seconds, cut towards zero |
| Runner.DelayIsMeantIff | internal/agent/claudepty/provider.go:560-563 | a positive number of seconds is the delay it says iff it is at most 9223372036 |
| Runner.DelayCanVanish | internal/agent/claudepty/provider.go:560-563 | beyond, it can be no delay at all |
| Runner.StatusMeans | internal/runner/runner.go:125-327 | ok, pre_failed, failed, timed out and stopped, each exactly when: an agent error masks a failed env resolution, a cancellation masks the error |
| Runner.AgentRunsIff | internal/runner/runner.go:141-193 | the agent takes turns iff every pre_exec succeeded and it was found, whatever became of the env |
| Scheduler.Scheduler.constructor | internal/scheduler/scheduler.go:37-47 | an empty schedule |
| Scheduler.Scheduler.AddFunc | internal/scheduler/scheduler.go:80-89 | a fresh id fires the job with the config it came with, if the expression is accepted |
| Scheduler.Scheduler.LoadOne | internal/scheduler/scheduler.go:55-92 | the effect of one job of a config on every table |
| Scheduler.Scheduler.RemoveAbsent | internal/scheduler/scheduler.go:94-101 | deleting while ranging in any order removes exactly the absent names and what they held |
| Scheduler.Scheduler.Reload | internal/scheduler/scheduler.go:50-102 | the reload the theorems are about |
| Scheduler.LiveIdsAreEntries | internal/scheduler/scheduler.go:50-102 | over every sequence of reloads live cron ids are held in entries, none twice; exactly those if expressions are accepted |
| Scheduler.ReloadReads | internal/scheduler/scheduler.go:54-101 | after a reload a disabled job has no entry, an enabled scheduled one has its current expression, an enabled one-off keeps what its name held |
| Scheduler.EntriesNameEnabledJobs | internal/scheduler/scheduler.go:94-101 | every entry names an enabled job |
| Scheduler.FiresAsConfiguredIff | internal/scheduler/scheduler.go:72-85 | of whatever a run takes from job and config: a scheduled job fires as configured iff its expression changed or what it fired, old job with old config, comes to the same |
| Scheduler.FiresWhatMadeIt | internal/scheduler/scheduler.go:50-102 | over every sequence of reloads an entry fires the job and config of the load that made it, when its name had no entry by that expression, and every load since kept it |
| Scheduler.FiresIff | internal/scheduler/scheduler.go:72-90 | of any configs, validated or not: an enabled scheduled job fires by its current expression iff its old entry was live, when that had the same expression, and otherwise iff the engine accepts it |
| Scheduler.EditedPromptKeepsFiring | internal/scheduler/scheduler.go:122-125 | an edited prompt, or edited defaults, on an unchanged schedule keep firing the old ones |
| Scheduler.BecomingOneOffKeepsFiring | internal/scheduler/scheduler.go:59-69 | a job that became a one-off keeps firing on its old schedule |
| Scheduler.RefusedExpressionStrands | internal/scheduler/scheduler.go:76-90 | were config validation bypassed, a refused expression would leave an entry that fires nothing, even when put back |
| Scheduler.OneOffsFireOnce | internal/scheduler/scheduler.go:61-69 | a one-off fires at most once per process, as configured at a reload listing it with no run on record |
| Scheduler.OneOffsDoFire | internal/scheduler/scheduler.go:61-69 | after a reload each enabled one-off has fired or has a run on record |

## Left out

- Strings are sequences of characters standing for the bytes of the source's strings.
- Decoding: JSON, YAML, time and regular-expression parsing. Lines decode by a parameter; marker and promise matching are predicates over texts, with the decision table of `isAsyncLaunchResult` around them.
- Operating system effects: spawning and killing processes, signals, locks, file notifications, git, launchctl, pmset and sockets appear only as outcomes.
- Event ids are named by publish order and taken to be unique; the time-based fallback id is not modelled. An envelope that cannot be marshalled is not published in either.
- Delivery takes the events file to be written whole and in order, and scans to be error-free (a torn last line is an
  entry not appended yet: the scan skips it, and it arrives live); `Daemon.StreamReplay` covers failing scans on one connection. The client library's hand-off channel and the socket are one stretch of sent but not yet taken envelopes.
- Times in Delivery are at least one second after the zero time, so that a zero `since` means live-only.
- Blank lines are those of ASCII white space; a line of other Unicode blanks is malformed in the model, and skipped either way.
- A transcript is append-only: truncation and replacement of the file are not modelled, nor bytes written between the last stat and the liveness check.
- Tool-call display, logs, token counts and todo rendering have no effect on what is modelled.
- The cron engine is a table of fresh ids; when entries fire is left to it.
- What a config holds beside its jobs, and what a job holds beside name, expression and enabledness, are one opaque value each.
- Supervisor calls are serialized: overlapping startLoop calls, and Remove or Shutdown of an extension that has no loop, are not modelled.
- The extension's process id, times and error texts, and the started event, which races the exit.
- Runner: jitter, locking, logs, post_exec, the reply file and worktree cleanup.
- The Slack store, the sleep-assertion manager, config validation and the schedule language: single-function claims, or weaker than their comments.
