# Sessions, offline sync and live events of a gaming cafe

A cafe server sells timed sessions on PCs. An agent on every PC runs the sessions locally, also
while the PC is offline, records what happened in a durable outbox, and uploads it later. The
server prices sessions, merges the uploaded events into its own tables, and pushes changes to the
PCs over a server-sent event stream.

This project models those parts and proves what they promise each other:

| module | models |
|---|---|
| `Domain` | events, verdicts, sessions, the server's three tables |
| `Sorting` | the stable sort that both sides use |
| `AckCursor` | the contiguous ack, computed once by the server and once by the agent |
| `Pricing` | the per-minute winner scan, its run-length breakdown and its rounding |
| `Tariff` | what a minute costs, told from the calendar, the clock and the rules |
| `Loading` | which active rules a query with a limit may return, and when that decides about a price |
| `SyncServer` | ingestion of one batch: record, resolve, apply, finalize, reply |
| `Lifecycle` | staff requests, expiry sweep, conflict resolution statement by statement, and whole runs of them |
| `Billing` | what such runs do to prices and logged deltas |
| `Outbox` | the agent's outbox table and counters |
| `SyncUpload` | the agent's uploader with its backoff |
| `Protocol` | agent and server statement by statement, with lost messages and crashes; nothing is lost |
| `Resolutions` | when verdicts are final and effects happen once |
| `Stopping` | when the agent's cursor stops for good |
| `Starvation` | which pending events are sent, and which the server then never hears of |
| `LocalSessions` | the agent's session engine, with crashes and reboots |
| `Countdown` | warnings and expiry between two resets |
| `OnePc` | one PC's part of the server, and that others leave it alone |
| `Convergence` | launcher, outbox, network and server together |
| `Realtime` | the ring of recent entries, echoes and replay |
| `Streams` | one stream from its connection on: replay, re-sent commands, subscription, and what others do meanwhile |
| `Sse` | the stream's text: printer, line reader, parser, resuming |
| `Limiter` | the launcher supervisor's restart limit |

Every operation that changes state is a method, on a class with the original's fields or tables,
proved equal to a specification function on values. The theorems are about those functions and
about runs of them. `Protocol.QuietRoundIsUpload`, `Protocol.StatementsAreApplyBatch` and
`Lifecycle.QuietResolution` tie the step systems back to the methods.

Conventions: instants are integer milliseconds and are parameters, as are fresh ids; a session id
or local ref is the index of its row; amounts are integers and `Math.round` is half-up on
integers; a database transaction is one atomic step.

## Where the code and its documentation differ

The model follows the code. Each item names the lemma with an input or run that shows the
difference, and the one that says exactly when the code does what is expected of it.

- `docs/03-protocols.md:206-207` lets the agent drop an event only after `accepted` or
  `duplicate` and keep a conflicted one. The code prunes by the cursor, and a replay of a conflicted
  event is answered `duplicate`, so after a lost reply the agent drops it while the server still
  holds it for review (`Protocol.LostReplyDropsConflict`). It keeps the event exactly if the server
  did not know it before (`SyncUpload.ConflictKeptExactly`; for a whole batch,
  `SyncUpload.UploadKeepsConflicts`).
- `ApplyBatch` is several statements, and a seq is handed out before its row is inserted. A crash in
  between loses nothing (`Protocol.NoEventIsLost`) but can stop the cursor: between NextSeq and
  INSERT (`Stopping.CrashMakesHole`; an INSERT that fails does the same,
  `Stopping.FailedInsertMakesHole`), between marking a conflict and the delete
  (`Stopping.CrashWhileMarkingWedges`; a run that reaches it is `Stopping.WedgeIsReached`), or between
  the delete and the cursor write (`Stopping.CrashBeforeCursorWedges`). The cursor can still move
  exactly if a reply that moves it is being applied, or the number after it is pending, being
  enqueued, or not handed out yet (`Stopping.StopsForGoodExactly`); one upload moves it exactly if that
  number is in the batch (`SyncUpload.UploadMovesExactly`).
- Behind a full batch above such a hole, younger events never reach the server
  (`Starvation.YoungerStarves`); one crash and 500 tamper alarms suffice
  (`Starvation.StarvationIsReached`). Once the cursor has stopped and the older pending events are
  settled, an event can still reach the server exactly if fewer than 500 are pending before it
  (`Starvation.ReachesExactlyAfter`).
- `docs/03-protocols.md:204-205` promises that side effects never run again and asks for a
  transaction. Resolving a conflict uses none: it reads the event, reads the session, and writes each
  of them. A stop and a retry, or two resolutions at once, apply an extension twice
  (`Resolutions.TwoResolutionsApplyTwice`). Effects happen once exactly if no resolution writes for an
  event that already changed the table (`Resolutions.ExactlyOnceEffect`); it suffices never to begin a
  resolution while another one of the event is unfinished (`Resolutions.ResolvingAloneIsOnce`).
- In the same way a resolution can overwrite a verdict (`Lifecycle.StaleVerdictOverwrites`; exactly
  when: `Resolutions.VerdictsAreFinal`), change a session that was ended meanwhile
  (`Lifecycle.LateWriteChangesEnded`; `Lifecycle.TerminalIsForever`) and undo an extension sold
  meanwhile, which stays charged (`Lifecycle.BoughtMinutesVanish`; `Lifecycle.WriteAddsExactly`).
  Accepting an offline start that conflicted changes no session at all
  (`Lifecycle.ResolutionOutcome`).
- `docs/03-protocols.md:216` answers `SESSION_ALREADY_ENDED` to an extension of a session that was
  ended meanwhile. The server never reads which session an event is about: if another one is active
  on the PC, the extension is accepted and lengthens that one (`Lifecycle.ExtensionHitsOtherSession`).
  An accepted extension or end touches the session of its own start exactly if that one is still
  active (`Lifecycle.TouchesOwnSessionExactly`).
- Resuming a paused session does not look for another active one, and a start ignores paused ones,
  so two sessions can be active on one PC (`Lifecycle.PauseStartResumeCollides`; exactly when:
  `Lifecycle.OneActiveExactly`).
- `docs/02-data-model.md:116` re-prices on every extension. An offline extension does not
  (`Billing.OfflineExtensionGoesUnpaid`). Prices stay right exactly if the unpriced minutes are free
  (`Billing.OneShotExactly`, `Billing.UnpricedIsFreeExactly`); the next online extension settles the
  account (`Billing.ExtensionReprices`).
- The rules are loaded with a limit of 200 and without an order (`apps/server/src/modules/sessions/shared.ts:27-32`).
  The order does not matter (`Pricing.AmountIgnoresRuleOrder`), but with more active rules two loads
  can price the same session differently (`Loading.LargeLoadMatters`); it never matters exactly up to
  200 rules (`Loading.LoadMattersExactly`). For a given table it matters exactly if some minute has two
  rates that can win (`Loading.LoadDecidesExactly`), and which rates can is `Loading.CanCostExactly`.
- `docs/03-protocols.md:214` speaks of an active session that started earlier; the code conflicts
  with any active session (`SyncServer.ConflictMatrix`). `CLOCK_SKEW`
  (`docs/03-protocols.md:219`) is not implemented.
- The agent passes the launcher's minutes on unchecked and the server clamps them to 5 to 1440
  (`Convergence.ClampIsExact`). Both sides agree on a session's minutes exactly if the clamping adds
  up to nothing (`Convergence.MinutesAgreeExactly`).
- The stream client remembers an id at the `id:` line, not when the event is dispatched (section
  9.2.6 of the WHATWG HTML Living Standard), so an event whose block is cut short is never seen
  (`Sse.ResumeIsExact`).
- A connection replays the ring, re-sends its PC's pending commands, and only then subscribes;
  re-sent commands enter the ring without being published. What is published and forwarded before the
  subscription never reaches the client (`Streams.GapIsUnseen`). Nor does a visible command that
  another connection re-sends, even if the stream has long been live (`Streams.ReconnectIsUnseen`), and
  no replay brings back what a client's last id has passed (`Realtime.MissedForGood`). An entry that is
  replayed but forwarded late arrives twice (`Streams.ReplayedIsHeardAgain`), and a re-sent command can
  overtake an older entry (`Streams.CommandOvertakes`). The client gets the whole visible log, in order
  and once, exactly if none of these happens (`Streams.StreamIsCompleteExactly`).
- The echo of an expiry that was set outright carries no minutes; the server would extend by 5
  minutes, the lower clamp (`Convergence.SetExpiryEchoIsFiveMinutes`). The only caller today
  (`desktop/PcAgent/AgentWorker.cs:469`) suppresses the echo.

## Model

| member | source | states |
|---|---|---|
| `AckCursor.AckIsGreatest` | apps/server/src/modules/sync/ack-seq.ts:1-14 | the ack is the greatest n such that every seq in (last, n] has a terminal result, for results in any order and number |
| `AckCursor.AckUnique` | apps/server/src/modules/sync/ack-seq.ts:1-14 | any n that is covered and whose successor is not answered is the ack |
| `AckCursor.UnknownVerdictStops` | apps/server/src/modules/sync/ack-seq.ts:7-12 | a seq with only unknown verdicts is never acked, whatever follows it |
| `AckCursor.AckMonotone` | apps/server/src/modules/sync/ack-seq.ts:5-13 | more results never lower the ack |
| `AckCursor.AckComposes` | apps/server/src/modules/sync/ack-seq.ts:5-13 | acking two seq-ordered batches in turn is acking them together |
| `AckCursor.AgentAgreesWithServer` | desktop/PcAgent.Core/Sync/SyncAck.cs:21-28 | the agent's own cursor rule always gives the server's ack |
| `Pricing.WindowIsCyclic` | apps/server/src/modules/sessions/pricing.ts:33-47 | for all times from 00:00 to 24:00 a rule's window is the cyclic interval of minutes from start to end; equal times mean all day, 24:00 to 00:00 no minute |
| `Pricing.SwappedWindowsPartitionTheDay` | apps/server/src/modules/sessions/pricing.ts:33-47 | a window and its swap cover every minute of the day exactly once |
| `Pricing.PickWinner` | apps/server/src/modules/sessions/pricing.ts:49-70 | the scan returns the first rule that no eligible rule beats by (priority, rate), or none if none is eligible |
| `Pricing.WinnerUnique` | apps/server/src/modules/sessions/pricing.ts:49-70 | that description fits only one rule |
| `Pricing.WinningRateIgnoresOrder` | apps/server/src/modules/sessions/pricing.ts:49-70 | the winning rate depends on which rules there are, not on their order |
| `Pricing.RoundHourIsNearest` | apps/server/src/modules/sessions/pricing.ts:115 | rounding is to the nearest minor unit, halves up |
| `Pricing.RunsDecode` | apps/server/src/modules/sessions/pricing.ts:85-113 | run-length encoding the winners loses nothing and gives non-empty maximal runs |
| `Pricing.RunsEncode` | apps/server/src/modules/sessions/pricing.ts:85-113 | canonical runs are the encoding of what they decode to |
| `Pricing.Flush` | apps/server/src/modules/sessions/pricing.ts:87-98 | closing the current run yields the breakdown and the rate-minutes of all runs so far |
| `Pricing.CountMinute` | apps/server/src/modules/sessions/pricing.ts:104-111 | one minute lengthens the current run or flushes it and opens a new one |
| `Pricing.CountAll` | apps/server/src/modules/sessions/pricing.ts:103-112 | the loop counts exactly the runs of the per-minute winners |
| `Pricing.ComputePrice` | apps/server/src/modules/sessions/pricing.ts:77-116 | the one-pass scan returns the rounded integral of the winning rates and the rendered runs |
| `Pricing.BreakdownExplainsAmount` | apps/server/src/modules/sessions/pricing.ts:77-116 | the breakdown read back minute by minute is the winner sequence, tiles the interval without gap, is maximal, and its rate-minutes round to the amount |
| `Pricing.RateMinutesSplit` | apps/server/src/modules/sessions/pricing.ts:84-115 | rate-minutes are additive when the interval is split |
| `Pricing.SplitPriceIsWithinOne` | apps/server/src/modules/sessions/handlers.ts:38-40 | a whole costs its parts up to one minor unit, and an extension's delta is within one unit of what it adds |
| `Pricing.LongerIsFreeExactly` | apps/server/src/modules/sessions/pricing.ts:84-115 | lengthening leaves the amount unchanged exactly if the added rate-minutes stay within the rounding step |
| `Pricing.AmountMonotone` | apps/server/src/modules/sessions/pricing.ts:84-115 | with non-negative rates a longer session never costs less |
| `Pricing.AmountIgnoresRuleOrder` | apps/server/src/modules/sessions/pricing.ts:49-70 | equal sets of rules give equal amounts, in whatever order they are listed |
| `Loading.CanCostExactly` | apps/server/src/modules/sessions/shared.ts:27-32 | for a given table, a rate can be charged for a minute under some load if and only if an eligible rule with it is beaten by no more rules than a load leaves out, or the minute can be free because no more than that are eligible |
| `Loading.LoadDecidesExactly` | apps/server/src/modules/sessions/shared.ts:27-32 | for a given table, all loads give the same rate-minutes over every interval if and only if every minute has one rate that can win |
| `Loading.LoadMattersExactly` | apps/server/src/modules/sessions/shared.ts:27-32 | for all tables of n rules with ids of their own, any two loads give equal amounts, if and only if n is at most 200 |
| `Loading.LargeLoadMatters` | apps/server/src/modules/sessions/shared.ts:27-32 | for every n above 200 a table of n rules with distinct ids that two loads price differently |
| `Pricing.AmountIsWeekly` | apps/server/src/modules/sessions/pricing.ts:103-105 | prices repeat every seven days |
| `Pricing.FlatPrice` | apps/server/src/modules/sessions/pricing.ts:77-116 | with one rule for all hours, n minutes cost n sixtieths of its rate, rounded |
| `Tariff.ClockFollowsCalendar` | apps/server/src/modules/sessions/pricing.ts:100-105 | the epoch is a Thursday, the weekday is constant from midnight to midnight and then moves on by one, and the minute of the day counts whole minutes since midnight |
| `Tariff.MinuteCost` | apps/server/src/modules/sessions/pricing.ts:49-75 | of the rules in force for the tier, on the UTC weekday, at the time of day, the first one that no other outranks by priority, then rate, prices the minute, under its name or else its id; without any it is free |
| `Tariff.BillNamesMinute` | apps/server/src/modules/sessions/pricing.ts:77-116 | the breakdown read back says exactly that of every minute |
| `Tariff.OneRulePrice` | apps/server/src/modules/sessions/pricing.ts:77-116 | with a single rule exactly the minutes on its weekdays and in its window cost its rate |
| `Tariff.WeekdayPrice` | apps/server/src/modules/sessions/pricing.ts:103-105 | a rule for whole days charges time within a day fully or not at all, by the weekday |
| `SyncServer.LoadActiveSession` | apps/server/src/modules/sync/apply.ts:255-263 | an active session of the PC that started no earlier than any other, or none if there is none |
| `SyncServer.CafeDatabase.RecordOfflineEvent` | apps/server/src/modules/sync/apply.ts:265-306 | a known id or seq is answered duplicate and changes nothing; otherwise one row is recorded |
| `SyncServer.CafeDatabase.AcceptStart` | apps/server/src/modules/sync/apply.ts:18-93 | inserts the clamped, priced session, expired if already over, and its event |
| `SyncServer.CafeDatabase.AcceptExtend` | apps/server/src/modules/sync/apply.ts:95-151 | moves the expiry by the clamped minutes, without pricing |
| `SyncServer.CafeDatabase.AcceptEnd` | apps/server/src/modules/sync/apply.ts:153-200 | ends or cancels, never in the future |
| `SyncServer.CafeDatabase.ApplyDecision` | apps/server/src/modules/sync/apply.ts:225-253 | each decision has its one effect and verdict |
| `SyncServer.CafeDatabase.FinalizeOfflineEvent` | apps/server/src/modules/sync/apply.ts:308-330 | writes verdict, reason and session to the recorded row only |
| `SyncServer.CafeDatabase.ProcessSyncEvent` | apps/server/src/modules/sync/handlers.ts:34-60 | the transaction computes the specified tables and result |
| `SyncServer.CafeDatabase.HandleSyncEvents` | apps/server/src/modules/sync/handlers.ts:62-120 | the batch loop computes the specified tables, results and ack |
| `SyncServer.ConflictMatrix` | apps/server/src/modules/sync/conflicts.ts:20-44 | for every event type and state, which verdict is given, and that only an accepted event touches the tables: one row of its own PC, the latest active one if it is not new, and one logged happening |
| `SyncServer.RecordedRow` | apps/server/src/modules/sync/apply.ts:265-330 | exactly an event with a recorded id, or a number this PC has used, is a duplicate without effect; any other leaves a row with its cafe, PC, number, type, time and payload, and with the state, reason and session of the reply |
| `SyncServer.MinutesAreNearest` | apps/server/src/modules/sync/apply.ts:26-29 | the minutes taken are those between 5 and 1440 nearest to what was asked, an hour for a start that does not say |
| `SyncServer.AcceptedOutcome` | apps/server/src/modules/sync/apply.ts:18-200 | what an accepted start, extension or end does to its row and what it logs, the bill of a start included, and that it does nothing else to the row |
| `SyncServer.ProcessRecords` | apps/server/src/modules/sync/apply.ts:265-330 | a transaction records its event, forgets none and changes no other record |
| `SyncServer.ReplayIsNoOp` | apps/server/src/modules/sync/apply.ts:270-286 | replaying an event straight away, at any time and under any rules, changes nothing and is answered duplicate |
| `Lifecycle.LaterReplayIsNoOp` | apps/server/src/modules/sync/apply.ts:270-286 | the same after any run of transactions and resolutions in between |
| `SyncServer.BatchVerdict` | apps/server/src/modules/sync/apply.ts:270-330 | in a batch of distinct events, a known one is answered duplicate and a new one with the verdict that the server then holds |
| `SyncServer.ResultsFollowEvents` | apps/server/src/modules/sync/handlers.ts:107-117 | every event gets its own terminal result |
| `SyncServer.BatchConfluence` | apps/server/src/modules/sync/handlers.ts:65-117 | any order and repetition of the same events in a batch gives the same tables and the same ack |
| `SyncServer.AckDependsOnSeqs` | apps/server/src/modules/sync/handlers.ts:115-117 | two batches that hold the same seqs get the same ack, whatever the events, the tables and the times |
| `SyncServer.SplitBatch` | apps/server/src/modules/sync/handlers.ts:62-120 | uploading a seq-ordered batch in two parts gives the same tables, verdicts and final ack |
| `Lifecycle.HandleStartSession` | apps/server/src/modules/sessions/start.ts:128-158 | the request computes the specified tables and refusal |
| `Lifecycle.HandleExtendSession` | apps/server/src/modules/sessions/handlers.ts:21-81 | the request computes the specified tables and refusal |
| `Lifecycle.HandleTransition` | apps/server/src/modules/sessions/handlers.ts:83-178 | end, cancel, pause and resume compute the specified tables and refusal |
| `Lifecycle.ExpireDueSessions` | apps/server/src/modules/sessions/expiry.ts:16-55 | the sweep updates all due rows and logs each of them |
| `Lifecycle.HandleResolveSyncConflict` | apps/server/src/modules/sync/handlers.ts:150-212 | run without interruption, the request computes the specified tables and refusal |
| `Lifecycle.QuietResolution` | apps/server/src/modules/sync/handlers.ts:158-212 | the statements of a resolution, run one after the other, are that request |
| `Lifecycle.RetryIsHarmlessExactly` | apps/server/src/modules/sync/handlers.ts:197-211 | retrying a resolution that stopped before its verdict ends like one resolution exactly if it had no minutes to add |
| `Lifecycle.WriteAddsExactly` | apps/server/src/modules/sync/handlers.ts:200-206 | a resolution's write adds its minutes exactly if the session's minutes did not change since it was looked up; otherwise it undoes that change |
| `Lifecycle.BoughtMinutesVanish` | apps/server/src/modules/sync/handlers.ts:172-206 | minutes sold between the look-up and the write vanish from the session, while price and log keep the charge |
| `Lifecycle.StaleVerdictOverwrites` | apps/server/src/modules/sync/handlers.ts:165-170 | two resolutions that both read the conflict leave the second one's verdict over the first one's |
| `Lifecycle.RefusalChangesNothing` | apps/server/src/modules/sessions/handlers.ts:26-34 | a refused request leaves all tables as they were |
| `Lifecycle.StartAdmission` | apps/server/src/modules/sessions/start.ts:30-48 | exactly when a start adds a session, and which one |
| `Lifecycle.StartRefusal` | apps/server/src/modules/sessions/start.ts:30-48 | which refusal a start gets |
| `Lifecycle.ExtendAdmission` | apps/server/src/modules/sessions/handlers.ts:21-81 | when an extension goes through, which refusal it gets otherwise, and what it does to the row, its bill and the log |
| `Lifecycle.TransitionAdmission` | apps/server/src/modules/sessions/handlers.ts:83-178 | when each transition goes through, which refusal it gets otherwise, and what it does to the row and logs |
| `Lifecycle.StartRetryIsNoOp` | apps/server/src/modules/sessions/start.ts:133-136 | a retry with the same key changes nothing, after any run in between |
| `Lifecycle.KeysStayUnique` | apps/server/src/modules/sessions/start.ts:79-89 | in every run no two sessions share an idempotency key |
| `Lifecycle.PauseResumeRoundTrip` | apps/server/src/modules/sessions/handlers.ts:100-136 | resuming undoes pausing, and pausing works exactly on active sessions |
| `Lifecycle.ClosedRefusesAll` | apps/server/src/modules/sessions/handlers.ts:97-121 | after an end or cancellation every transition is refused |
| `Lifecycle.SweepSettles` | apps/server/src/modules/sessions/expiry.ts:17-33 | a sweep expires exactly the active sessions with an expiry before now, ends them now, logs each once with its expiry, and leaves none of them; a second one finds nothing |
| `Lifecycle.ResolutionOutcome` | apps/server/src/modules/sync/handlers.ts:166-212 | which verdict each resolution leaves, and that only an accepted extension touches a session |
| `Lifecycle.ResolutionRefusal` | apps/server/src/modules/sync/handlers.ts:158-206 | which refusal a resolution gets |
| `Lifecycle.TerminalIsForever` | apps/server/src/modules/sessions/handlers.ts:97-99 | in a run no ended, cancelled or expired session ever changes again if and only if no resolution writes to one that was closed since it looked |
| `Lifecycle.LateWriteChangesEnded` | apps/server/src/modules/sync/handlers.ts:172-206 | ending a session between a resolution's look-up and its write changes the ended session |
| `Lifecycle.ScheduleHolds` | apps/server/src/modules/sessions/handlers.ts:41-47 | in every run, resolutions interleaved by statement included, expiry is start plus planned plus extended minutes, except for sessions ingested after they were over |
| `Lifecycle.OneActiveExactly` | apps/server/src/modules/sessions/handlers.ts:103-135 | a run keeps at most one active session per PC throughout if and only if no resume finds another active one |
| `Lifecycle.PauseStartResumeCollides` | apps/server/src/modules/sessions/start.ts:41-46 | pause, start, resume leaves two active sessions on one PC |
| `Lifecycle.TouchesOwnSessionExactly` | apps/server/src/modules/sync/apply.ts:242-263 | after a start and any run without colliding resumes, an accepted extension or end touches the session of that start if and only if it is still active |
| `Lifecycle.ExtensionHitsOtherSession` | apps/server/src/modules/sync/apply.ts:95-118 | the late extension of a session that staff ended is accepted and lengthens the one they started next |
| `Billing.LedgerHolds` | apps/server/src/modules/sessions/handlers.ts:38-62 | in every run the price of an online session is its start price plus all logged deltas |
| `Billing.BillsStayExplained` | apps/server/src/modules/sessions/handlers.ts:38-50 | in every run the stored breakdown of every session covers the time from its start without gap and its rate-minutes, rounded once, are the stored price |
| `Billing.OneShotExactly` | apps/server/src/modules/sessions/handlers.ts:38-49 | with a fixed set of rules, loaded in any order, every session always costs the one-shot price of all its minutes if and only if no unpriced extension in the run adds to that price |
| `Billing.SplittingExtensionsIsFree` | apps/server/src/modules/sessions/handlers.ts:38-40 | in particular with online extensions only |
| `Billing.UnpricedIsFreeExactly` | apps/server/src/modules/sync/apply.ts:110-118 | unpriced minutes are free exactly if their rate-minutes stay within the rounding step of what was paid |
| `Billing.OfflineExtensionGoesUnpaid` | apps/server/src/modules/sync/apply.ts:110-118 | an hour bought online and one added offline: two hours played, one paid |
| `Billing.ExtensionReprices` | apps/server/src/modules/sessions/handlers.ts:38-49 | an online extension settles the one-shot price, also after unpriced offline extensions |
| `Outbox.OutboxService.NextSeq` | desktop/PcAgent.Core/Storage/AgentDatabase.cs:118-127 | advances the persisted counter by one and returns it |
| `Outbox.OutboxService.Enqueue` | desktop/PcAgent.Core/Outbox/OutboxService.cs:26-41 | inserts one pending event under the next seq |
| `Outbox.OutboxService.PendingUpTo` | desktop/PcAgent.Core/Outbox/OutboxService.cs:46-60 | the first pending events in seq order, up to the limit |
| `Outbox.OutboxService.PendingCount` | desktop/PcAgent.Core/Outbox/OutboxService.cs:62-66 | the number of pending events |
| `Outbox.OutboxService.Apply` | desktop/PcAgent.Core/Outbox/OutboxService.cs:72-87 | marks, prunes and moves the cursor, in this order |
| `Outbox.ApplyBatchKeeps` | desktop/PcAgent.Core/Outbox/OutboxService.cs:68-87 | an event stays exactly if it is or was conflicted or lies above the cursor |
| `Outbox.EnqueueKeepsDense` | desktop/PcAgent.Core/Outbox/OutboxService.cs:26-41 | enqueuing keeps the pending seqs exactly (cursor, counter] |
| `Outbox.DenseBatch` | desktop/PcAgent.Core/Outbox/OutboxService.cs:46-60 | the next batch is then the first pending events |
| `Outbox.AnsweredBatchDrains` | desktop/PcAgent.Core/Outbox/OutboxService.cs:72-87 | an answered batch of n leaves exactly the pending events after it, still dense |
| `SyncUpload.ReplyCursorIsAck` | desktop/PcAgent.Core/Sync/SyncEngine.cs:91-93 | the agent's maximum never exceeds the server's ack |
| `SyncUpload.ConsecutiveBatchIsAcked` | desktop/PcAgent.Core/Sync/SyncEngine.cs:80-93 | a batch that follows the cursor without gap is acked to its end |
| `SyncUpload.UploadDrains` | desktop/PcAgent.Core/Sync/SyncEngine.cs:78-101 | one answered upload of an outbox without gaps takes exactly the first min(500, pending) events |
| `SyncUpload.UploadMovesExactly` | desktop/PcAgent.Core/Sync/SyncEngine.cs:91-93 | for every outbox, gaps included, an answered upload moves the cursor exactly if the event after it is in the batch |
| `SyncUpload.NextIsInBatch` | desktop/PcAgent.Core/Outbox/OutboxService.cs:46-60 | the event after the cursor is in the batch exactly if it is pending, when nothing older is |
| `SyncUpload.ConflictKeptExactly` | apps/server/src/modules/sync/apply.ts:270-286 | an event that the server holds conflicted is kept after a reply exactly if the server did not know it before |
| `SyncUpload.UploadKeepsConflicts` | desktop/PcAgent.Core/Sync/SyncEngine.cs:78-101 | the same for each event of an uploaded batch, or the cursor did not reach it |
| `SyncUpload.BackoffBounds` | desktop/PcAgent.Core/Sync/SyncEngine.cs:55 | the hold never shrinks with more failures and stays between 10 s and 5 min |
| `SyncUpload.BackoffDoubles` | desktop/PcAgent.Core/Sync/SyncEngine.cs:55 | the hold is 10 s after the first failure and doubles with each further one up to 5 min |
| `SyncUpload.PassSendsExactly` | desktop/PcAgent.Core/Sync/SyncEngine.cs:63-76 | without gaps a pass makes one call for each 500 pending events, at most four, and fails exactly at the first of them that is not answered, with what was answered before, and nothing else, gone from the outbox |
| `SyncUpload.SyncEngine.UploadBatch` | desktop/PcAgent.Core/Sync/SyncEngine.cs:78-101 | for every outbox, the effect of one call on outbox and server when it is answered, lost, or its reply is lost |
| `SyncUpload.SyncEngine.Drain` | desktop/PcAgent.Core/Sync/SyncEngine.cs:63-76 | for every outbox, what a pass leaves on both sides; it reports drained if and only if it did not fail and nothing is pending |
| `SyncUpload.SyncEngine.SyncOnce` | desktop/PcAgent.Core/Sync/SyncEngine.cs:40-61 | a held or concurrent attempt does nothing; otherwise outbox and server are those of the pass, a failed one counts and holds, any other one resets both |
| `Protocol.StatementsAreApplyBatch` | desktop/PcAgent.Core/Outbox/OutboxService.cs:72-87 | the single statements, run to their end, are ApplyBatch |
| `Protocol.QuietRoundIsUpload` | desktop/PcAgent.Core/Sync/SyncEngine.cs:78-101 | the step system refines to one UploadBatch when nothing is lost or interrupted |
| `Protocol.TakeKeepsInv` | desktop/PcAgent.Core/Outbox/OutboxService.cs:26-41 | every step, from seq allocation to crash, keeps the protocol invariant |
| `Protocol.NoEventIsLost` | desktop/PcAgent.Core/Outbox/OutboxService.cs:15-18 | in every run every event ever inserted is in the outbox or recorded on the server, and all seqs up to the cursor were inserted and recorded |
| `Protocol.TakeGrows` | apps/server/src/modules/sync/handlers.ts:166-212 | every step keeps all records, and only the verdict write of a resolution of that very event changes one |
| `Protocol.LostReplyDropsConflict` | apps/server/src/modules/sync/apply.ts:275-277 | a conflicted event is kept after its first reply and dropped after a replay, while the server still holds it conflicted |
| `Resolutions.OnlyResolutionsJudge` | apps/server/src/modules/sync/handlers.ts:166-212 | over any run a record changes only if a resolution writes a verdict to it |
| `Resolutions.VerdictsAreFinal` | apps/server/src/modules/sync/handlers.ts:165-211 | in a run every verdict other than conflicted is final if and only if no resolution writes its verdict over one given since it read the event |
| `Resolutions.ExactlyOnceEffect` | apps/server/src/modules/sync/handlers.ts:34-60 | over any interleaving of uploads, replays, staff requests and statements of resolutions, each event changes the session table at most once if and only if no resolution writes for an event that changed it before |
| `Resolutions.ResolvingAloneIsOnce` | apps/server/src/modules/sync/handlers.ts:158-165 | it is enough that no resolution of an event is begun while another one of it is unfinished |
| `Resolutions.TwoResolutionsApplyTwice` | apps/server/src/modules/sync/handlers.ts:158-211 | a stop and a retry, or two resolutions that both read the conflict, add the minutes twice |
| `Resolutions.AcceptedLaterAddsMinutes` | apps/server/src/modules/sync/handlers.ts:197-211 | an extension recorded as conflicted keeps its minutes through any run without a verdict on it, and accepting it later adds exactly them to the session that is active then |
| `Stopping.CrashMakesHole` | desktop/PcAgent.Core/Outbox/OutboxService.cs:29-39 | a crash between NextSeq and INSERT leaves a seq without an event |
| `Stopping.FailedInsertMakesHole` | desktop/PcAgent.Core/Outbox/OutboxService.cs:29-39 | so does an INSERT that fails while the agent goes on |
| `Stopping.HoleBlocksCursor` | desktop/PcAgent.Core/Sync/SyncAck.cs:24-28 | no run ever moves the cursor past such a seq |
| `Stopping.CrashBeforeCursorWedges` | desktop/PcAgent.Core/Outbox/OutboxService.cs:81-86 | a crash after the delete and before the cursor write leaves the cursor below pruned events |
| `Stopping.CrashWhileMarkingWedges` | desktop/PcAgent.Core/Outbox/OutboxService.cs:74-83 | a crash before the delete wedges exactly if the event after the cursor has been marked conflicted |
| `Stopping.WedgeIsReached` | desktop/PcAgent.Core/Outbox/OutboxService.cs:74-83 | a seven-step run from a new agent, on any server, to such a wedge |
| `Stopping.WedgedForever` | desktop/PcAgent.Core/Outbox/OutboxService.cs:81-86 | from then on no run advances the cursor |
| `Stopping.StopsForGoodExactly` | desktop/PcAgent.Core/Outbox/OutboxService.cs:26-87 | after any run, in any phase, some further run moves the cursor if and only if a reply that moves it is being applied, or the number after it is pending, being enqueued, or not handed out yet |
| `Starvation.YoungerIsNotSent` | desktop/PcAgent.Core/Outbox/OutboxService.cs:46-60 | an event with 500 older pending ones is not in the next batch |
| `Starvation.SentExactly` | desktop/PcAgent.Core/Outbox/OutboxService.cs:46-60 | a pending event is in the next batch if and only if fewer than the limit are pending before it |
| `Starvation.RowsStayUnique` | desktop/PcAgent.Core/Outbox/OutboxService.cs:26-41 | in every run the outbox holds each event and each number at most once |
| `Starvation.ReachesExactlyAfter` | desktop/PcAgent.Core/Sync/SyncEngine.cs:78-101 | after any run that stopped the cursor, with the older pending events settled, some further run brings a new pending event to the server if and only if fewer than 500 are pending before it |
| `Starvation.YoungerStarves` | desktop/PcAgent.Core/Sync/SyncEngine.cs:78-101 | behind a recorded batch above a hole, a younger event stays in the outbox and never reaches the server in any run |
| `Starvation.NewEventIsUnheard` | desktop/PcAgent.Core/Outbox/OutboxService.cs:26-41 | every event enqueued later is such a younger event |
| `Starvation.StarvationIsReached` | desktop/PcAgent.Core/Sync/SyncEngine.cs:78-101 | a run from a new agent, on any server, after which its next event never reaches the server in any run |
| `LocalSessions.SessionEngine.RecoverOnBoot` | desktop/PcAgent.Core/Sessions/SessionEngine.cs:82-102 | memory is rebuilt from the rows; an overdue session is expired |
| `LocalSessions.SessionEngine.StartSession` | desktop/PcAgent.Core/Sessions/SessionEngine.cs:104-147 | new row, optional event, reset of the countdown; throws while a session runs |
| `LocalSessions.SessionEngine.ExtendSession` | desktop/PcAgent.Core/Sessions/SessionEngine.cs:149-166 | moves the expiry; throws without a session |
| `LocalSessions.SessionEngine.SetExpiresEffMs` | desktop/PcAgent.Core/Sessions/SessionEngine.cs:169-187 | sets the expiry; the same expiry is no reset |
| `LocalSessions.SessionEngine.EndSession` | desktop/PcAgent.Core/Sessions/SessionEngine.cs:189-206 | closes the row and enqueues its end |
| `LocalSessions.SessionEngine.TickOnce` | desktop/PcAgent.Core/Sessions/SessionEngine.cs:209-235 | raises the crossed marks, then turns to expiring, then expires |
| `LocalSessions.SessionEngine.ExpireInternal` | desktop/PcAgent.Core/Sessions/SessionEngine.cs:245-257 | expires the row and always enqueues its end |
| `LocalSessions.SessionEngine.BindServerSessionId` | desktop/PcAgent.Core/Sessions/SessionEngine.cs:71-79 | binds a server id only once |
| `LocalSessions.SessionEngine.SetPaused` | desktop/PcAgent.Core/Sessions/SessionEngine.cs:40 | sets the pause flag and nothing else |
| `LocalSessions.ApplyIsFaithful` | desktop/PcAgent.Core/Sessions/SessionEngine.cs:104-277 | an operation keeps one open row, keeps memory in step with it, and emits at most one event about it |
| `LocalSessions.CallOutcome` | desktop/PcAgent.Core/Sessions/SessionEngine.cs:104-206 | what a start, an extension, an outright expiry and an end do to the rows and the memory, and which event with which payload each sends, a cancellation as such and every other end as an end, unless suppressed |
| `LocalSessions.TickOutcome` | desktop/PcAgent.Core/Sessions/SessionEngine.cs:209-257 | a paused tick does nothing; any other turns the session to expiring for its last minute, lets it lapse in its last second and then always sends an end, and its warnings name session and seconds left |
| `LocalSessions.EmissionIsPending` | desktop/PcAgent.Core/Outbox/OutboxService.cs:26-41 | what an operation sends is the youngest pending event, under the next number, with its type and payload |
| `LocalSessions.FirstBindingStays` | desktop/PcAgent.Core/Sessions/SessionEngine.cs:71-79 | the first server id that a row is bound to stays, and nothing else changes |
| `LocalSessions.MakeKeepsGood` | desktop/PcAgent.Core/Sessions/SessionEngine.cs:82-147 | every operation, crash at any statement, and reboot keeps representation and trace |
| `LocalSessions.EngineStaysGood` | desktop/PcAgent.Core/Sessions/SessionEngine.cs:82-277 | in every run at most one row is open, state and ref name it, and the events form one block `Started? Extended* (Ended or Cancelled)?` per session |
| `Countdown.ResetStartsCountdown` | desktop/PcAgent.Core/Sessions/SessionEngine.cs:104-187 | which calls reset the countdown, to which expiry, and when they throw |
| `Countdown.BootStartsCountdown` | desktop/PcAgent.Core/Sessions/SessionEngine.cs:82-102 | a reboot resumes exactly the sessions that have time left, lets any other open one lapse and sends its end |
| `Countdown.RunsUntilLastSecond` | desktop/PcAgent.Core/Sessions/SessionEngine.cs:209-235 | the session runs exactly until the first tick with less than a second left |
| `Countdown.ExpiringInLastMinute` | desktop/PcAgent.Core/Sessions/SessionEngine.cs:226-229 | from a reset on, a running session is expiring exactly from the tick on that finds at most sixty seconds left |
| `Countdown.EachMarkFiresOnce` | desktop/PcAgent.Core/Sessions/SessionEngine.cs:216-224 | each mark below the time left at the reset fires exactly once, as soon as it is reached |
| `Countdown.ExpiryIsPrompt` | desktop/PcAgent.Core/Sessions/SessionEngine.cs:216-234 | expiry comes less than a second early and at most one tick gap after the last full second began |
| `Convergence.ServerFollows` | apps/server/src/modules/sync/apply.ts:18-200 | reading an orderly log in order gives one session per life, with its minutes and status |
| `OnePc.ProcessByLooks` | apps/server/src/modules/sync/apply.ts:255-330 | what an event does to its PC's sessions and records depends on these only: servers that look alike to the PC stay alike |
| `OnePc.ElsewhereLooksTheSame` | apps/server/src/modules/sessions/handlers.ts:21-178 | transactions and resolutions that concern other PCs leave this PC's sessions and records as they were |
| `Convergence.LocalStepMatches` | desktop/PcAgent.Core/Sessions/SessionEngine.cs:104-257 | each launcher operation, with any minutes, each tick and each reboot keeps the local rows equal to what the emitted events tell |
| `Convergence.ClampIsExact` | apps/server/src/modules/sync/apply.ts:26-29 | the server takes minutes as asked exactly if they are 5 to 1440 |
| `Convergence.SetExpiryEchoIsFiveMinutes` | desktop/PcAgent.Core/Sessions/SessionEngine.cs:169-187 | an echoed outright expiry is read as a 5-minute extension, so the two sides agree if and only if it moved by 5 minutes |
| `Convergence.OthersArePossible` | apps/server/src/modules/sessions/handlers.ts:21-178 | what staff and other agents do about other PCs is among the steps of the network |
| `Convergence.UploadsRefineInOrderReading` | desktop/PcAgent.Core/Sync/SyncEngine.cs:63-101 | lost, late, repeated and interleaved uploads leave the server, as this PC sees it among any others, as one in-order reading of a prefix of the log |
| `Convergence.DrainedServerAgrees` | desktop/PcAgent.Core/Sessions/SessionEngine.cs:104-257 | on any server with any other PCs, the drained server has exactly one session of this PC per local session: active if and only if the local one is open, cancelled if and only if that was cancelled, ended if it was ended or ran out, with its minutes plus what the clamping added; late starts are expired |
| `Convergence.MinutesAgreeExactly` | apps/server/src/modules/sync/apply.ts:26-29 | the minutes of a timely session agree if and only if the clamping added nothing to it, as with minutes of 5 to 1440 |
| `Realtime.ChannelState.AllocateEntry` | apps/server/src/modules/realtime/service.ts:32-45 | the next id, one entry pushed, the oldest dropped above 200 |
| `Realtime.ChannelState.RememberRemoteEntry` | apps/server/src/modules/realtime/service.ts:53-70 | unknown foreign entries are pushed and raise the counter to their id |
| `Realtime.ChannelState.Replay` | apps/server/src/modules/realtime/service.ts:83-93 | the entries newer than the last id that the context may see, in order |
| `Realtime.ChannelStaysSane` | apps/server/src/modules/realtime/service.ts:32-70 | with any local and foreign entries ids stay distinct, at most 200 are kept, `seen` is their id set and the counter bounds them |
| `Realtime.EchoIsHarmless` | apps/server/src/modules/realtime/service.ts:58 | an echo changes nothing if and only if its entry is still in the ring |
| `Realtime.RingMirrorsLog` | apps/server/src/modules/realtime/service.ts:32-70 | with one publisher and prompt echoes the ring is exactly the last min(n, 200) entries of the log |
| `Realtime.ReplayCompletesLog` | apps/server/src/modules/realtime/service.ts:83-93 | prefix plus replay is the whole visible log if and only if nothing visible was evicted in between, in particular from n - 200 on |
| `Realtime.ReplayHoldsExactly` | apps/server/src/modules/realtime/service.ts:77-93 | a replay holds an entry if and only if it is in the ring, newer than the last id, and for this PC or all (PC), an order update (kitchen), or anything (admin) |
| `Realtime.PublishedIsReplayed` | apps/server/src/modules/realtime/service.ts:32-45 | what is published is stored as it is under the next id, and is all that an up-to-date client is replayed |
| `Realtime.ForeignIsReplayed` | apps/server/src/modules/realtime/service.ts:53-70 | a foreign entry with a new id is stored as it is, raises the counter if it is ahead, and is then replayed; one with a known id changes nothing |
| `Realtime.MissedForGood` | apps/server/src/modules/realtime/service.ts:90-92 | no later replay brings an entry that the client's last id has passed |
| `Streams.FitsHolds` | apps/server/src/modules/realtime/routes.ts:62-103 | in every run of a connection, what the client was sent and what waits for it is the replay, the re-sent commands and the visible part of what was forwarded after the subscription |
| `Streams.StreamIsCompleteExactly` | apps/server/src/modules/realtime/routes.ts:62-103 | over every run, once all is quiet, the client has got the whole visible log, in order and once, if and only if every later visible entry was re-sent by its own connection or published and not forwarded before the subscription, none of them was in the replay, and none is older than a re-sent command |
| `Streams.NothingForeignIsSent` | apps/server/src/modules/realtime/routes.ts:62-103 | in every run a PC is sent only entries for itself or for all PCs, the kitchen only order updates, and nobody what was not published or allocated |
| `Streams.ReconnectIsUnseen` | apps/server/src/modules/realtime/routes.ts:75-88 | a live admin stream never gets a command that another connection re-sends, and no replay brings it |
| `Streams.GapIsUnseen` | apps/server/src/modules/realtime/routes.ts:65-94 | what is published and forwarded between replay and subscription is never sent |
| `Streams.ReplayedIsHeardAgain` | apps/server/src/modules/realtime/routes.ts:65-103 | an entry in the replay that is forwarded after the subscription is sent twice |
| `Streams.CommandOvertakes` | apps/server/src/modules/realtime/routes.ts:75-103 | a re-sent command is sent before an entry published earlier, so that the ids fall |
| `Sse.HeaderRoundTrip` | apps/server/src/modules/realtime/routes.ts:30-42 | the server reads back the id it printed |
| `Sse.HeaderValue` | apps/server/src/modules/realtime/routes.ts:30-42 | of a header only a leading number counts, with its sign; without one there is none |
| `Sse.ReadAll` | desktop/PcAgent.Core/Sse/SseClient.cs:65-71 | the line reader recovers exactly the printed lines |
| `Sse.LineEnds` | desktop/PcAgent.Core/Sse/SseClient.cs:71 | a line ends at a line feed, a carriage return, or both, and a rest without a break is a line |
| `Sse.SseClient.ReadStream` | desktop/PcAgent.Core/Sse/SseClient.cs:67-106 | the loop computes the dispatched events and the last id of the line-by-line specification |
| `Sse.FeedMessagePrefix` | desktop/PcAgent.Core/Sse/SseClient.cs:75-101 | after r of a message's lines: the id counts from the first, dispatch happens at the last |
| `Sse.DataLinesJoin` | desktop/PcAgent.Core/Sse/SseClient.cs:75-101 | an event of several data lines is dispatched under its name with all of them; one without data is not, and its name does not reach the next |
| `Sse.WireRoundTrip` | apps/server/src/modules/realtime/service.ts:95-97 | from the printed text, with pings and retry hints in between, the client dispatches exactly the messages, in order, and ends with the last id |
| `Sse.ResumeIsExact` | desktop/PcAgent.Core/Sse/SseClient.cs:53-56 | after a cut and a replay nothing is missed or repeated if and only if the cut was not inside a message |
| `Limiter.LauncherSupervisor.RateLimited` | desktop/PcAgent.Core/Launcher/LauncherSupervisor.cs:92-103 | drops starts older than a minute and tells whether five remain |
| `Limiter.LauncherSupervisor.NoteStart` | desktop/PcAgent.Core/Launcher/LauncherSupervisor.cs:105-111 | appends the start |
| `Limiter.LauncherSupervisor.SuperviseAll` | desktop/PcAgent.Core/Launcher/LauncherSupervisor.cs:30-85 | the loop computes the specified queue and start history |
| `Limiter.LimitHolds` | desktop/PcAgent.Core/Launcher/LauncherSupervisor.cs:92-111 | the queue is the recent suffix of the history, and six successive starts span more than a minute |
| `Limiter.LaunchesExactly` | desktop/PcAgent.Core/Launcher/LauncherSupervisor.cs:34-103 | after every run a launch goes ahead if and only if fewer than five started within the minute before the check |
| `Limiter.AtMostFiveStartsAMinute` | desktop/PcAgent.Core/Launcher/LauncherSupervisor.cs:30-111 | every closed 60-second window of every run holds at most five starts |

## Left out

- HTTP, authentication, audit rows and the publishing inside the transactions; request validation except minutes and origin.
- A sync request whose PC row is gone (`PC_NOT_FOUND`), `reconciliation_batches`, and columns that no decision reads (customer, currency, created_by).
- SQL isolation below serializable: a transaction is one step. Conflict resolution, which has none, is four.
- `Lifecycle.HandleResolveSyncConflict`: the method runs its statements without interruption; what interleaves with them is in the runs of `Lifecycle` and `Resolutions`.
- The expiry sweep is one step, too; stopping between its update and its log rows is not modelled.
- Ties in the order of `loadActiveSession` go to the first row, and the sweep logs in row order; the source leaves both to the database.
- Parsing: a clock time is a minute of the day, a payload field is missing, malformed or a whole number, a foreign entry is an entry or none.
- Floating point in `Math.round` and `Math.pow`, the 32-bit cast of remaining seconds, and `bigint` ranges: integers are unbounded.
- SQLite's durability and ids that collide: an event id and a local ref are fresh; no other PC uses this agent's event ids.
- Binding server ids to local sessions after an upload: `duplicate` after a lost reply carries no session id, so nothing holds in general.
- Cancellation of a running pass or of the supervision loop.
- Adopting a session from the server, remote commands, and the network's delays, jitter and connection states.
- `Convergence.DrainedServerAgrees`: covers launcher sessions of a PC that is new to the server; sessions pushed by the server, staff requests and sweeps that concern this PC, and interrupted enqueues are outside it, since each can make the two sides differ.
- `Protocol.NoEventIsLost`: the counter of a PC is never reset; a wiped agent that reuses seqs is outside it.
- `Countdown.EachMarkFiresOnce`: holds between two resets, on a monotone clock, without a pause and with ticks at most two seconds apart, as the source's two-second mark window needs.
- `LocalSessions.EngineStaysGood`: a database statement that fails ends the agent process; going on after such an exception is not modelled there.
- `Sse.ResumeIsExact`: the replay is taken at one instant; what a connection loses besides is `Streams.StreamIsCompleteExactly`. Cuts fall between lines; a cut inside a line, of which the reader may hand on the first part, is not modelled.
- `Sse.WireRoundTrip`: event names have no line breaks or edge whitespace and data is one line, which is what the server writes.
- `Streams.StreamIsCompleteExactly`: one server process and a broker that forwards in order and loses nothing; the replay is taken while the ring mirrors the log.
- `Starvation.ReachesExactlyAfter`: older pending events that the server has not seen yet, or that a reply under way calls conflicted, may still leave the outbox; with such events the count is not exact.
- Channels of several server processes with clashing counters: only the safety part (`Realtime.ChannelStaysSane`) is stated.
- Orders, menu, payments, game library, deployments, reports and the user interfaces: they would only add easy members.
