# Nosis runtime: verified model

Nosis is an agent runtime. A model is called in turns, its tool calls are executed in
batches, everything that happens is journalled, and several processes and threads share
state on disk. This project models the parts of it whose correctness is a matter of
protocol or of durable state, and proves what they promise for every input, every
interleaving and every crash point that the model admits.

`dafny verify dfyconfig.toml` checks the whole project. There is one module for each
component:

| module | component |
|---|---|
| `JournalFile` | the JSONL journal: append, repair of a torn tail, replay |
| `Session` | events folded into session state, recovery, the live session on top of its journal |
| `Replay` | what a replayed session says, read off the events of its journal |
| `TurnControl` | steering mailbox, cancel and finish, queued turns, the repetition guard |
| `Jobs` | background jobs: one terminal transition, one delivery |
| `ToolBatch` | sequential and concurrent execution of a batch of tool calls |
| `Projection` | raw history grouped into indivisible context units |
| `ContextArchive` | archive cursor, compression slice, user anchors, the built request |
| `Leases` | capability grants shared by many processes through durable records |
| `TextPaging` | artifact writer and line pager |
| `Preview` | truncation of command output |
| `ToolCallStream` | assembly of streamed tool calls |
| `SessionHost` | attach, takeover, replay and detach of interface clients |
| `Scheduler` | occurrences, polls, the schedule log |
| `Memory` | memory documents: printing, parsing, optimistic concurrent writes |
| `Messages`, `Common` | shared vocabulary |

Code that updates state step by step is modelled by classes and loops, whose contracts tie
them to functions on values; the theorems are about those functions. Threads are atomic
steps, one for each lock region. Clocks, identifiers, tool behaviour, token counts, JSON
encoding and cron matching are parameters about which nothing is assumed beyond what the
contracts say.

## Results at a glance

- **Nothing durable is lost.** Whatever sequence of appends and kills a journal goes
  through, it replays to the old events followed, in order, by each batch that was written
  and by the whole records of each batch that was cut (`JournalFile.RunReplay`).
- **Sequence numbers are 1..n** and the archive cursor is within the items in every session that can be reached, through any kills and
  restarts (`Session.JournalsAreProper`, and `Valid` of `Session.LiveSession`).
- **A replayed session says what its journal says**: the status, times and errors of every
  turn, tool call and job are those of the last events about it, and so are the settings and
  the archive (`Replay.JobsTell`, `Replay.TurnsTell`, `Replay.ToolsTell`, `Replay.FieldsTell`).
- **Recovery** closes all stale work, touches nothing else, and has nothing left to do
  when it runs again (`Session.RecoveryClosesStaleWork`, `Session.RecoveryIsIdempotent`).
- **A completed turn is honest**: it appended exactly the acknowledged steers, each id once
  and in order, and no acknowledged or queued cancel was ignored
  (`TurnControl.RunsAreHonest`), and nothing is accepted for a turn once it has finished
  (`TurnControl.NothingAfterFinish`). A turn that is left alone completes
  (`TurnControl.OpenTurnCompletes`).
- **Each job ends once**, with a status that the journal and every update repeat, and its
  result is delivered once or discarded with its turn; a finished turn has neither an
  unfinished job nor an undelivered result (`Jobs.EveryRun`, `Jobs.BodyEnds`).
- **Each started tool call ends once**, on every path, and a batch is visible to the model
  exactly when every call committed its result (`ToolBatch.OutcomesSettle`,
  `ToolBatch.BatchVisible`). How it ended is told by what raised first
  (`ToolBatch.StatusTells`).
- **The archive cursor is always a unit boundary** of the whole history, and projecting
  from it gives the rest of the projection (`ContextArchive.CursorIsBoundary`).
- **User input survives compression**: each message that the user wrote in a selected turn is
  in the built request exactly once (`ContextArchive.MessageRepresentedOnce`).
- **A held lease has its grant**, a grant the sandbox made has a record until it is
  revoked, and a grant that was there before is never revoked (`Leases.EveryRunIsSafe`,
  `Leases.OutsideGrantSurvives`). What is given back is reclaimed, and nothing else
  (`Leases.ReapLeaves`, `Leases.ReleaseReclaims`).
- **Paging an artifact** shows every line once, whole, within the size of a tool result, and
  ends (`TextPaging.PagingShowsEveryLine`, `TextPaging.ArtifactStaysInline`).
- **A view of a session** sees one contiguous stretch of the event stream
  (`SessionHost.EveryViewSeesOneStretch`), and a client that takes over is let in
  (`SessionHost.TakeoverWins`).
- **No occurrence of a schedule fires twice**, unless the schedule is edited, whatever the
  polls, reloads, restarts and deaths in the middle of a poll (`Scheduler.EveryRun`), and one
  that is not too late and has the way free is run (`Scheduler.LaunchDecides`).
- **A stream of tool calls** with indices means what its deltas say, however they are
  interleaved (`ToolCallStream.StreamTells`, `ToolCallStream.InterleavingDoesNotMatter`).

## Where a promise holds only under a condition

Each of these is proved in both directions.

- A write cut inside a multi-byte character leaves a journal that can neither be loaded nor
  appended to: the tail is decoded before the `JSONDecodeError` that the repair expects can
  occur (`JournalFile.RunReplay`, with the example `JournalFile.CutCharacterBlocksJournal`).
  On all other cuts the repair works.
- The slice sent for compression contains every archived message unless the last archived
  unit is a batch without trailing messages in which a call id is used first behind the
  first use of the last call's id; then a result is lost (`ContextArchive.ArchiveSentWhole`,
  `ContextArchive.LateIdLosesResult`). Batches with distinct ids are never affected
  (`ContextArchive.DistinctIdsAreNeverLate`).
- An archived user message of another turn whose text is empty is not in the request; every
  other one is (`ContextArchive.MessageRepresentedOnce`).
- Selecting user anchors raises exactly when the current turn was begun with an empty id: no
  event puts such a turn among the turns (`ContextArchive.SelectUserAnchors`,
  `Session.LiveSession.CurrentTurnIsListed`).
- A grant made from outside is safe from the sandbox exactly when, at that moment, no managed
  lease record covers its path and identity (`Leases.OutsideGrantStays`,
  `Leases.AbsorbedGrantMayGo`).
- All results of a batch are cleaned up exactly when no cleanup raises
  (`ToolBatch.Batch.Execute`).
- A page that shows nothing and sends the reader back to the same offset is given exactly
  when the budget cannot hold the line number and the truncation notice
  (`TextPaging.StuckExactlyWhenTight`).
- The loop that shortens a preview ends exactly when the budget can hold the text or the
  marker for the whole text (`Preview.ReadPreview`, `Preview.EndsExactlyWhenMarkerFits`).
- A replay begins at the cursor asked for exactly when the cursor is still inside the
  buffer and not ahead of the stream (`SessionHost.EveryViewSeesOneStretch`).
- A memory document can be read back exactly when its entries are clean, which all parsed
  and all reconciled ones are (`Memory.RoundTripsExactlyWhenClean`).

## Model

| member | source | states |
|---|---|---|
| `JournalFile.RunReplay` | agent_core/session_store.py:563-646 | over every sequence of open-and-append operations, complete or killed at any byte, loading gives the old events and then, in order, the durable prefix of each batch; loading fails exactly when some kill was inside a character |
| `JournalFile.StepReplay` | agent_core/session_store.py:456-478 | one open-and-append on a readable journal succeeds, and adds exactly the batch or its surviving prefix to the replay |
| `JournalFile.PrepareKeepsReplay` | agent_core/session_store.py:583-612 | the repair succeeds exactly when the tail is decodable; then the file ends with a newline and replays as before; if the repair fails, so does loading |
| `JournalFile.ReplayCutBatch` | agent_core/session_store.py:563-568 | a batch cut at any byte replays to its whole records, or not at all when the cut is inside a character |
| `JournalFile.SurvivorsCountsWholeRecords` | agent_core/session_store.py:563-568 | the first i records survive exactly when all their text but the last newline was written |
| `JournalFile.ReplayConcat` | agent_core/session_store.py:631-646 | a file that ends with a newline can be replayed apart from what follows it: records are never glued together |
| `JournalFile.RenderLawful` | agent_core/session_store.py:563-568 | an undisturbed batch replays to itself |
| `JournalFile.UnreadableStaysUnreadable` | agent_core/session_store.py:583-646 | no later append makes an unreadable journal readable |
| `JournalFile.CutCharacterBlocksJournal` | agent_core/session_store.py:603-612 | an input on which a kill blocks the journal for good, with any durable events in front of it |
| `JournalFile.Journal.FindLineStart` | agent_core/session_store.py:591-601 | the backward scan in chunks of 4096 bytes finds exactly the position behind the last newline |
| `JournalFile.Journal.PrepareAppend` | agent_core/session_store.py:583-612 | the file after the repair, whole tail terminated or torn tail cut off, and untouched when the tail cannot be decoded |
| `JournalFile.Journal.WriteEvents` | agent_core/session_store.py:563-568 | the old bytes stay, the batch follows, one record a line |
| `JournalFile.Journal.ReadRecords` | agent_core/session_store.py:631-646 | the line loop computes the replay, including the unterminated last line and its failures |
| `JournalFile.ReplayTells` | agent_core/session_store.py:631-646 | a file loads exactly when it is UTF-8 and each terminated line is blank or decodes; it yields what its lines say, in order, and a last line without a newline that does not decode is dropped |
| `JournalFile.FileHasLines` | agent_core/session_store.py:631-646 | every file is terminated lines and a tail, so that is said of all files |
| `JournalFile.Utf8Means` | agent_core/session_store.py:603-607 | bytes are decodable exactly when they are the encoding of some sequence of code points (section 3 of RFC 3629) |
| `Session.FoldConcat` | agent_core/session.py:164-333 | replaying a journal in two parts is replaying it at once |
| `Session.DictsFitAlways` | agent_core/session.py:164-333 | after any journal, turns, tools and jobs are filed under their own ids and keys keep their insertion order |
| `Session.AnchorsIndexMessageEvents` | agent_core/session.py:164-190 | after any journal, items are the appended messages in order, and an anchor with an index, a turn and a time is there exactly when the message at that index was written by the user in that turn at that time |
| `Session.RecoveryClosesStaleWork` | agent_core/session.py:335-389 | recovery closes exactly the running turns, started tools and unfinished jobs, keeps every other entry and field, and leaves nothing stale |
| `Session.RecoveryIsIdempotent` | agent_core/session.py:335-389 | a second recovery, with any clock, has no event to emit |
| `Session.QuietNeedsNoRecovery` | agent_core/session.py:335-389 | a session without stale work is not touched |
| `Session.RecoveryNumbers` | agent_core/session.py:335-389 | a journal numbered 1..n stays numbered 1..n with the recovery events behind it |
| `Session.LiveSession.ApplyEvent` | agent_core/session.py:164-333 | the in-place update of all twelve fields is the fold step, for every kind of event |
| `Session.LiveSession.ApplyTurn` | agent_core/session.py:205-222 | the branches for turn events are the fold's step on turns, also for a turn that was never started |
| `Session.LiveSession.ApplyTool` | agent_core/session.py:223-260 | the branches for tool events are the fold's step on tool executions |
| `Session.LiveSession.ApplyJob` | agent_core/session.py:261-318 | the branches for job events are the fold's step on jobs; an event without a turn is ignored |
| `Session.LiveSession.Emit` | agent_core/session.py:615-636 | an event takes the next number, reaches the file before the state, and live state, journal and file stay in step; numbers stay 1..n |
| `Session.LiveSession.Durable` | agent_core/session.py:615-636 | loading the file of a live session gives its very state, and goes on doing so behind further events |
| `Session.LiveSession.Recover` | agent_core/session.py:335-389 | recovery of a live session is the replay of the events it emits, and they are durable |
| `Session.JournalsAreProper` | agent_core/session.py:615-636 | over every sequence of events and recoveries that sessions write, one process after another and each killed at any byte of a write, the journal the next one loads is numbered 1..n and leaves the archive cursor within the items; it loads exactly when no write was cut inside a character |
| `Session.DurableNumbers` | agent_core/session.py:615-636 | what becomes durable of one write continues the numbers of the journal it was made from |
| `Session.DurableCursor` | agent_core/session.py:543-551 | and keeps the archive cursor within the items |
| `Session.LiveSession.CurrentTurnIsListed` | agent_core/session.py:391-403 | the current turn is one of the turns exactly when its id is not empty |
| `Session.LiveSession.ReplayAll` | agent_core/session_store.py:300-304 | loading applies exactly the fold of the records |
| `Session.LiveSession.BeginTurn` | agent_core/session.py:391-399 | a reused turn id never overwrites a turn, every old turn stays as it was, the journal grows by the one event, numbered next |
| `Session.LiveSession.FinishTurn` | agent_core/session.py:419-438 | only the named or current turn is closed, with the one event numbered next; without a turn nothing happens |
| `Session.LiveSession.AddItem` | agent_core/session.py:569-608 | a message is appended, and anchored exactly when a turn runs and the user wrote it; the journal grows by its event, numbered next |
| `Session.LiveSession.SetArchivedSummary` | agent_core/session.py:543-551 | the cursor is clamped to the items, the token anchor is dropped, nothing else of the state moves; the journal grows by its event, numbered next |
| `Session.Open` | agent_core/session_store.py:283-309 | opening succeeds exactly when the journal can be replayed; the session then equals the fold of the durable events and their recovery, has no stale work, and is numbered 1..n with its cursor within the items exactly when the durable events are |
| `Replay.JobsTell` | agent_core/session.py:261-318 | of any journal: a job is listed exactly when an event is about it; its status is that of the last one (submitted, running, or the one an ending event carries), its error, summary, progress, elapsed and completion time are those of its last ending event when no start or submission follows, its start that of the last start behind the last submission |
| `Replay.TurnsTell` | agent_core/session.py:205-222 | of any journal: a turn is listed exactly when an event begins or ends it, and status, error and finish are those of its last event |
| `Replay.TurnsInOrder` | agent_core/session.py:205-222 | turns are listed in the order in which they first came up |
| `Replay.ToolsTell` | agent_core/session.py:223-260 | of any journal: a tool call is started, ended with the status of its last end, or unknown, by its last event; its name, turn and start are those of its last start |
| `Replay.FieldsTell` | agent_core/session.py:191-204 | of any journal: summary and cursor are those of the last archive and `compressions` counts the archives; preset and plan are the last ones set; the token anchor is that of the last answer behind the last archive; the usage is the two sums |
| `Replay.ItemsTell` | agent_core/session.py:164-190 | the items are the messages of the journal, in order |
| `Replay.RecoveryTells` | agent_core/session.py:335-389 | of any journal: recovery turns running turns, started tools and unfinished jobs into interrupted or unknown ones with their reason and time, and changes no other entry and no other field |
| `Replay.LastIsLast` | agent_core/session.py:164-333 | the last event of a kind, as the rows above use it, is one behind which no other of that kind stands |
| `Replay.FirstIsFirst` | agent_core/session.py:164-333 | likewise for the first event of a kind |
| `TurnControl.RunsAreHonest` | agent_core/turn_control.py:28-101 | in every interleaving of steers, cancels, queueing, shutdown and safe points, each completed turn appended exactly the acknowledged steers, each id once and in order, and had no acknowledged or queued cancel |
| `TurnControl.StepKeepsInv` | agent_runtime/turn_runner.py:34-119 | what every step keeps: accepted steers are appended, in hand or in the mailbox, in order, unless the turn is cancelled |
| `TurnControl.SteerKeepsInv` | agent_core/turn_control.py:72-78 | a steer is acknowledged exactly while the turn is neither cancelled nor finished |
| `TurnControl.BeginInv` | agent_runtime/turn_runner.py:68-79 | steers queued before the turn began are all taken over, duplicates dropped |
| `TurnControl.AgentKeepsInv` | agent_core/loop_policy.py:69-107 | each safe point of the agent keeps the same relation, also when a hook rejects a steer |
| `TurnControl.EndedIsHonest` | agent_core/loop_policy.py:80-107 | a turn that ended as completed has nothing accepted left and was not cancelled |
| `TurnControl.NothingAfterFinish` | agent_core/turn_control.py:72-101 | from the finish on, through every interleaving of all threads up to the end of the turn, no steer, cancel or shutdown is accepted for it, and its acknowledgements and what it appended stay as they were |
| `TurnControl.ClosedStep` | agent_core/turn_control.py:72-101 | one step of any thread keeps that |
| `TurnControl.DedupHasEachIdOnce` | agent_core/turn_control.py:28-36 | acceptance keeps one steer for each id and loses no id |
| `TurnControl.DedupKeepsFirst` | agent_core/turn_control.py:28-36 | of steers with the same id the first is kept, with its text, in order of arrival |
| `TurnControl.SteerDoes` | agent_runtime/turn_runner.py:38-45 | in every reachable state: a steer is accepted exactly when its turn is running and neither cancelled nor finished, or is queued and the runner not shut; where it is kept, and that nothing changes otherwise |
| `TurnControl.CancelDoes` | agent_runtime/turn_runner.py:47-53 | in every reachable state: a cancel is acknowledged exactly when its turn is open, closes it, and is noted for a queued turn |
| `TurnControl.ShutdownDoes` | agent_runtime/turn_runner.py:55-58 | a shutdown cancels the running turn unless it is over |
| `TurnControl.BeginDoes` | agent_runtime/turn_runner.py:60-81 | a turn begins with the steers kept for it, one of each id, is cancelled from the start exactly when that was asked for or the runner is shut, and leaves the queue; other turns keep theirs |
| `TurnControl.SteersReachSession` | agent_core/loop_policy.py:69-107 | behind any history: at a safe point of an open turn at which nobody cancels, all that the mailbox holds reaches the session in order |
| `TurnControl.OpenTurnCompletes` | agent_core/loop_policy.py:80-107 | behind any history: an open turn that is left alone completes, with every acknowledged steer in the session |
| `TurnControl.StoppedTurnEnds` | agent_core/loop_policy.py:69-107 | behind any history: a turn that looks for cancellation after one was asked for ends as cancelled, one that fails, or whose steer is rejected, as failed |
| `TurnControl.UserSteeringMailbox.Submit` | agent_core/turn_control.py:28-36 | a repeated id is acknowledged without being queued again; a closed mailbox refuses |
| `TurnControl.UserSteeringMailbox.Drain` | agent_core/turn_control.py:38-42 | everything queued is handed over once |
| `TurnControl.UserSteeringMailbox.DrainOrClose` | agent_core/turn_control.py:44-52 | an empty mailbox closes in the same lock region that finds it empty |
| `TurnControl.UserSteeringMailbox.Close` | agent_core/turn_control.py:54-57 | a closed mailbox is empty and accepts nothing |
| `TurnControl.TurnControl.Steer` | agent_core/turn_control.py:72-78 | refused without effect once the turn is over |
| `TurnControl.TurnControl.DrainSteering` | agent_core/turn_control.py:80-84 | a cancelled turn hands nothing over |
| `TurnControl.TurnControl.Finish` | agent_core/turn_control.py:86-93 | the turn is finished exactly when nothing is left to hand over |
| `TurnControl.TurnControl.Cancel` | agent_core/turn_control.py:95-101 | a finished turn cannot be cancelled; a cancelled one drops its steers |
| `TurnControl.TurnRunner.Enqueue` | agent_runtime/turn_runner.py:34-36 | only the queue changes |
| `TurnControl.TurnRunner.Steer` | agent_runtime/turn_runner.py:38-45 | a steer reaches the running turn, waits for a queued one, and is refused for any other |
| `TurnControl.TurnRunner.Cancel` | agent_runtime/turn_runner.py:47-53 | likewise for a cancel |
| `TurnControl.TurnRunner.Shutdown` | agent_runtime/turn_runner.py:55-58 | the running turn is cancelled and every later one will be |
| `TurnControl.TurnRunner.Begin` | agent_runtime/turn_runner.py:68-81 | fails without effect while a turn runs; otherwise pending steers and cancels move to the new turn |
| `TurnControl.TurnRunner.End` | agent_runtime/turn_runner.py:116-119 | no turn is running afterwards, queued work stays |
| `TurnControl.RepetitionGuard.Check` | agent_core/loop_policy.py:29-41 | calls are admitted exactly when no call is repeated more than the limit in a row over the whole history since the last reset |
| `TurnControl.RepetitionGuard.Reset` | agent_core/loop_policy.py:25-27 | the history starts anew |
| `TurnControl.RunSnoc` | agent_core/loop_policy.py:29-41 | one counter and the previous call are enough to know the longest run |
| `TurnControl.RunsWithinMeans` | agent_core/loop_policy.py:29-41 | the history is within the limit exactly when no more calls than that in a row are the same |
| `Projection.UnitsCover` | agent_core/projection.py:31-80 | units tile the history: contiguous, none empty, none overlapping |
| `Projection.UnitsFrom` | agent_core/projection.py:31-80 | projecting from a unit boundary gives the remaining units |
| `Projection.UnitsGrow` | agent_core/projection.py:31-80 | appending items changes at most the last unit, and no boundary |
| `Projection.StartsUnitGrows` | agent_core/projection.py:31-80 | a boundary stays one, however much is appended |
| `Projection.SuffixProjection` | agent_core/projection.py:31-80 | the projection of the whole history is a prefix of it and the projection from the boundary |
| `Projection.SliceUnits` | agent_core/projection.py:17-34 | projecting a slice with a start index is projecting the history from there |
| `Projection.TrailingExact` | agent_core/projection.py:46-54 | the trailing messages of a batch are exactly the shown non-answers of its span, in order |
| `Projection.ScanBatch` | agent_core/projection.py:37-54 | the inner loop finds the end of the span, the last answer for each call id and the trailing messages |
| `Projection.BuildUnit` | agent_core/projection.py:36-79 | an incomplete batch becomes a unit without messages, a complete one shows results in call order |
| `Projection.ProjectContextUnits` | agent_core/projection.py:17-80 | the loop computes the projection |
| `Projection.BatchUnit` | agent_core/projection.py:36-79 | a message that calls tools and the run behind it are one unit; it shows nothing when some call has no answer, else the calls, the last answer to each in call order, and in order the media, interactions and feedback of the run that answer no call |
| `ContextArchive.CursorIsBoundary` | agent_core/context_manager.py:385-413 | after every run of appends and archives the cursor is a boundary of the projection of the whole history, and projecting from it gives exactly the rest |
| `ContextArchive.NextKeepsBoundary` | agent_core/context_manager.py:204-277 | each append and each archive keeps that, and the cursor never moves back |
| `ContextArchive.ArchiveStep` | agent_core/context_manager.py:385-396 | an archive takes a proper prefix of the units with something visible in it, moves the cursor forward, and leaves exactly `keep_recent_units` visible units |
| `ContextArchive.ArchivableWhen` | agent_core/context_manager.py:385-396 | there is something to archive exactly when more units than that are visible |
| `ContextArchive.ArchiveSettles` | agent_core/context_manager.py:196-277 | after an archive there is nothing to archive until a further unit becomes visible |
| `ContextArchive.FreshRequestBoundary` | agent_core/context_manager.py:204-235 | in a fresh request the boundary message is always found; the slice is the preamble and archived messages, and holds no retained one |
| `ContextArchive.Archive` | agent_core/context_manager.py:204-277 | the session is archived exactly when the request shows the boundary and one of six attempts gives a checkpoint before any raises; then the cursor moves to the end of the archived units, and otherwise nothing but the usage of the calls is recorded; every call that is made is journalled, and no other event but the archive |
| `ContextArchive.Compress` | agent_core/context_manager.py:241-271 | the attempts go on up to the first that does not merely give an invalid answer, six at most, and every call made is journalled with its usage, in order |
| `ContextArchive.RecordCall` | agent_core/context_manager.py:237-240 | a call leaves its usage and nothing else |
| `ContextArchive.ArchiveSentWhole` | agent_core/context_manager.py:212-235 | the slice holds every archived message exactly when the last visible archived unit is not a batch without trailing messages that has a late call id |
| `ContextArchive.UnitSentWhole` | agent_core/context_manager.py:215-218 | the same for one unit |
| `ContextArchive.DistinctIdsAreNeverLate` | agent_core/context_manager.py:215-218 | distinct call ids exclude that case |
| `ContextArchive.LateIdLosesResult` | agent_core/context_manager.py:212-235 | a history on which one result is archived without being sent |
| `ContextArchive.SelectUserAnchors` | agent_core/context_manager.py:320-351 | the selection is whole turns, contiguous up to the current one, with the last two always in it, within the budget beyond them, and maximal; it raises exactly when the current turn is not one of the turns; the cursor is not among what it reads |
| `ContextArchive.SelectedAre` | agent_core/context_manager.py:326-351 | of a turn list exactly its anchors are selected, turn by turn and each turn in item order |
| `ContextArchive.ReplayedIsAnchored` | agent_core/session.py:164-190 | anchors of a replayed session point at user-authored items in increasing order |
| `ContextArchive.RepresentedOnce` | agent_core/context_manager.py:170-194 | each anchored conversation message of a selected turn is in the built request exactly once, as an anchor when archived and live otherwise; the only exception is an archived empty message of another turn |
| `ContextArchive.MessageRepresentedOnce` | agent_core/context_manager.py:170-194 | the same of the messages of any replayed journal: each conversation message the user wrote in a turn of the selected stretch is in the request exactly once, with that exception |
| `ContextArchive.PlainMessageLive` | agent_core/projection.py:71-79 | a message of any role that calls no tools and is neither a tool result nor aside is live exactly once behind the cursor and never in front of it |
| `ContextArchive.LooseMessageLive` | agent_core/projection.py:71-79 | behind a boundary and in no batch, tool results and deliveries are hidden, all else is live exactly once |
| `ContextArchive.BatchMessageLive` | agent_core/projection.py:36-70 | a message of a batch is live as often as the unit of its batch shows it |
| `ContextArchive.ContextInOrder` | agent_core/context_manager.py:398-413 | live messages are shown whole and in order, and each dated message that the user wrote has its turn context right in front of it |
| `ContextArchive.RequestLayout` | agent_core/context_manager.py:170-194 | the stable part is first and the dynamic part last, exactly when there are such, and the live messages stand together in front of the dynamic part |
| `ContextArchive.RequestItems` | agent_core/context_manager.py:369-383 | the messages a request shows are the archived anchored ones of the active turn, in front of the live ones, all with their turn contexts |
| `ContextArchive.RequestAnchors` | agent_core/context_manager.py:353-367 | the archived selected anchors of other turns that have content come in one message in front of all others, which is there exactly when there are such anchors at all |
| `Jobs.EveryRun` | agent_core/jobs.py:159-348 | in every interleaving each terminal update in the journal, pending, delivered or discarded, carries the status its job ended with; each job has one terminal record in the journal exactly when it is terminal, and that update is pending, delivered or discarded, one of them and once; a finished turn has no unfinished job and no update left |
| `Jobs.RunKeepsInv` | agent_core/jobs.py:159-348 | the same as an invariant of every run |
| `Jobs.StepKeepsInv` | agent_core/jobs.py:159-451 | what each lock region keeps |
| `Jobs.BodyEnds` | agent_core/jobs.py:216-236 | a running job whose body returns what can be used is completed; one that raises is cancelled when it was asked to stop or raises that it was, else failed; journal and update carry that status |
| `Jobs.WorkerEnters` | agent_core/jobs.py:188-215 | a worker runs a submitted job unless it was asked to stop, which cancels it |
| `Jobs.CancelDoes` | agent_core/jobs.py:397-402 | a job that no worker has taken is cancelled at once, any other unfinished one is asked to stop |
| `Jobs.SubmitDoes` | agent_core/jobs.py:159-186 | a new job is submitted, with its update and without a terminal record |
| `Jobs.TerminalsAre` | agent_core/jobs.py:327-348 | exactly the terminal updates of the turn are handed over, in order |
| `Jobs.CheckPasses` | agent_core/loop_policy.py:80-107 | in every reachable state the check lets the turn finish exactly when all its jobs are over and none of its results waits |
| `Jobs.JobsOnlyAdvance` | agent_core/jobs.py:188-312 | no step changes a terminal job in any way, takes back a cancellation, moves a job to another turn or lists it again |
| `Jobs.CancelTurnReaches` | agent_core/jobs.py:417-421 | cancelling a turn reaches each of its jobs that is not terminal, and no job or update of another turn |
| `Jobs.DiscardRemovesTurn` | agent_core/jobs.py:448-451 | once its jobs are finished, discarding leaves no job and no update of the turn, and other turns' entries as they were |
| `Jobs.UnfinishedOnlyBySubmit` | agent_core/jobs.py:423-430 | only a submission gives a turn an unfinished job |
| `Jobs.WaitIsStable` | agent_core/jobs.py:423-430 | what the wait for a turn has seen stays true through any steps of other threads that submit nothing for it |
| `Jobs.CancelAndDiscard` | agent_core/jobs.py:448-451 | cancel, wait and discard, with any steps of other threads in between and none that submits for the turn after the wait, leave no job and no update of the turn, and touch no entry of another |
| `Jobs.CheckKeepsInv` | agent_core/loop_policy.py:80-107 | the check before the end of a turn, one lock region, leaves the turn quiet when it finds nothing |
| `Jobs.JobManager.SubmitJob` | agent_core/jobs.py:159-186 | a new job, journalled as submitted |
| `Jobs.JobManager.FinishLocked` | agent_core/jobs.py:277-312 | a job ends with one journal record and one update; that it happens once for each job is what `Jobs.EveryRun` proves of its callers |
| `Jobs.JobManager.CancelJobLocked` | agent_core/jobs.py:397-402 | a pending future is dropped and its job ends at once; a running one is only asked |
| `Jobs.JobManager.CancelTurnJobs` | agent_core/jobs.py:417-421 | the loop over the turn's jobs |
| `Jobs.JobManager.DrainTerminalState` | agent_core/jobs.py:327-348 | terminal updates of the turn, in order, are handed over with their jobs, and whether jobs remain is read in the same region |
| `Jobs.JobManager.DrainTurnUpdates` | agent_core/jobs.py:314-325 | all updates of the turn are handed over, those of other turns stay in order |
| `ToolBatch.OutcomesSettle` | agent_core/tool_batch.py:100-213 | each started call has exactly one start and behind it exactly one end, and a call never reached has neither |
| `ToolBatch.BatchProjection` | agent_core/projection.py:36-70 | with distinct ids and any completion order a batch is one unit; it shows messages exactly when no result is missing, and then results in call order and every aside but deliveries |
| `ToolBatch.BatchVisible` | agent_core/tool_batch.py:100-213 | a batch is visible exactly when every call committed a result and, in a sequential one, nothing raised for a call before the last |
| `ToolBatch.PhaseCounts` | agent_core/tool_batch.py:100-213 | the phase of a call counts its starts and ends |
| `ToolBatch.ReplayedStatus` | agent_core/session.py:223-260 | replaying the batch's journal leaves each ended call with its terminal status and none started, so recovery has nothing to close |
| `ToolBatch.StatusTells` | agent_core/tool_batch.py:221-223 | a call ends as completed exactly when its announcement does not raise and the tool returns a result without an error; as cancelled, or unknown, exactly when what raised first is `AgentCancelled`, or `KeyboardInterrupt`; as failed otherwise |
| `ToolBatch.CallsReached` | agent_core/tool_batch.py:100-213 | a call is started and ended exactly when nothing has stopped the batch in front of it, and committed exactly when moreover it ran and normalising did not raise |
| `ToolBatch.FaultIsFirst` | agent_core/tool_batch.py:100-213 | the fault of a call is what raises first on its behalf |
| `ToolBatch.MediaAre` | agent_core/tool_batch.py:250-274 | one item for the model with all attachments not meant for the user, then one delivery with those that are, each only when there are any |
| `ToolBatch.AttachmentsAre` | agent_core/tool_batch.py:250-265 | attachments keep the order of the results |
| `ToolBatch.MediaVisible` | agent_core/projection.py:46-54 | in the unit of a complete batch media, interactions and feedback are visible and deliveries are not |
| `ToolBatch.FeedbackIs` | agent_core/tool_batch.py:81-91 | feedback of results, and behind each that of its hook when the call was executed, in call order |
| `ToolBatch.HookFaultIs` | agent_core/tool_batch.py:81-91 | the error of the hooks is that of the first executed call whose hook raises |
| `ToolBatch.MediaFaultIs` | agent_core/tool_batch.py:76-91 | which error media give: that of showing to the model before that of delivering to the user; feedback is one item |
| `ToolBatch.Batch.Conclude` | agent_core/tool_batch.py:76-93 | behind calls that all gave a result, media, deliveries and feedback follow; the error is the first that raises |
| `ToolBatch.Batch.ExecuteSequentially` | agent_core/tool_batch.py:100-133 | calls are run up to the first fault; each started one is closed with the status it deserves; the error is that first fault |
| `ToolBatch.Batch.ExecuteConcurrently` | agent_core/tool_batch.py:135-213 | for every completion order and interruption, each submitted call is settled and closed once; an error is the interruption or some call's fault, and there is none only when nothing raised |
| `ToolBatch.Batch.SubmitCalls` | agent_core/tool_batch.py:146-169 | calls are started in model order; the one whose announcement or submission raises is closed, later ones are untouched |
| `ToolBatch.Batch.Settle` | agent_core/tool_batch.py:173-198 | one submitted call is closed and its result committed; the first error stays |
| `ToolBatch.Batch.RunCall` | agent_core/tool_batch.py:113-124 | one round of the sequential loop, and whether it leaves its call open |
| `ToolBatch.Batch.CommitNormalizedResult` | agent_core/tool_batch.py:231-248 | the result is recorded unless normalising raises, and counts as normalised unless reporting raises too |
| `ToolBatch.Batch.CommitMedia` | agent_core/tool_batch.py:250-274 | media for the model come first, deliveries to the user second, both behind all results |
| `ToolBatch.Batch.CommitFeedback` | agent_core/tool_batch.py:81-91 | feedback of results and hooks in call order becomes one item, none when a hook raises |
| `ToolBatch.Batch.Execute` | agent_core/tool_batch.py:41-98 | the whole batch; it raises nothing exactly when nothing raises on behalf of a call, a medium, a hook or a cleanup, and then media, deliveries and feedback stand behind the results; completed results are cleaned up in order of completion whatever raised before, all of them exactly when no cleanup raises, and a cleanup that raises decides the error |
| `ToolBatch.Batch.Cleanup` | agent_core/tool_batch.py:276-281 | the loop stops behind the first cleanup that raises |
| `Leases.EveryRunIsSafe` | agent_core/windows_sandbox.py:770-897 | in every state of every run of many processes with crashes and failed revokes, a held lease has its record and its grant, every grant not from outside is recorded as managed, and every outside grant is still there |
| `Leases.OutsideGrantSurvives` | agent_core/windows_sandbox.py:787-826 | a grant that is known to be from outside, on a path that is not a private temporary root, is never revoked |
| `Leases.OutsideGrantStays` | agent_core/windows_sandbox.py:787-862 | such a grant stays from the moment it is made when no managed record covers its path and identity at that moment |
| `Leases.AbsorbedGrantMayGo` | agent_core/windows_sandbox.py:787-826 | and only then: from every state in which a managed record covers the pair there is a run that revokes it |
| `Leases.HeldUntilReleased` | agent_core/windows_sandbox.py:843-897 | a held lease keeps its record and grant until it is given back or its owner dies |
| `Leases.StepKeepsInv` | agent_core/windows_sandbox.py:770-897 | what each operation keeps, wherever it stops |
| `Leases.ReapReclaims` | agent_core/windows_sandbox.py:787-826 | an undisturbed reap leaves on its path only active leases and only grants that they or an outsider need |
| `Leases.ReapLeaves` | agent_core/windows_sandbox.py:787-826 | exactly what an undisturbed reap leaves: the records of other paths and the active ones of its own, every grant but those of its path that are neither in use nor from outside, and every path but a private temporary root all of whose leases are stale and temporary |
| `Leases.AcquireRecords` | agent_core/windows_sandbox.py:843-886 | a successful acquisition adds, behind the reap, one record with its path, identity, owner and kind, and the grant, and is to revoke it exactly when it is not from outside |
| `Leases.AcquireUndone` | agent_core/windows_sandbox.py:872-885 | a grant that raised and is undone to the end leaves the state of the reap |
| `Leases.ReleaseReclaims` | agent_core/windows_sandbox.py:888-897 | an undisturbed release leaves no record of the lease, and its grant only when another active lease uses it or it is from outside |
| `Leases.ReapPrefix` | agent_core/windows_sandbox.py:787-826 | after any prefix of a reap's effects nothing is broken: records go last |
| `Leases.RollbackKeeps` | agent_core/windows_sandbox.py:872-885 | after any prefix of a roll-back nothing is broken and no other lease has changed |
| `Leases.ManagedFits` | agent_core/windows_sandbox.py:855-862 | a new lease agrees with the active ones on whether the grant is theirs to revoke |
| `Leases.CapabilityLeases.Acquire` | agent_core/windows_sandbox.py:843-886 | every way an acquisition can end is a step of the protocol; behind the reap it succeeds exactly when another lease has the grant or it works; when no effect fails it gets that far and a roll-back is complete; success holds the lease |
| `Leases.CapabilityLeases.AskForGrant` | agent_core/windows_sandbox.py:872-886 | only the first lease of a grant asks the system for it; every way the asking can end is an end of the acquisition |
| `Leases.CapabilityLeases.RollBack` | agent_core/windows_sandbox.py:875-885 | a grant that raised is undone as far as possible, the record last |
| `Leases.CapabilityLeases.Release` | agent_core/windows_sandbox.py:888-897 | giving back an unknown lease does nothing; otherwise it is a step after which the lease is not held, and a whole reap when no effect fails |
| `Leases.CapabilityLeases.Reap` | agent_core/windows_sandbox.py:787-826 | the loops perform a prefix of the reap's plan, all of it exactly when nothing fails |
| `Leases.CapabilityLeases.CleanupStale` | agent_core/windows_sandbox.py:828-841 | no held lease and no outside grant is touched; if nothing fails, no stale record is left on any path |
| `TextPaging.EscapedConcat` | agent_core/tools/budget.py:33-41 | the escaped length is additive |
| `TextPaging.EscapedBounds` | agent_core/tools/budget.py:33-41 | and between one and six for each character |
| `TextPaging.EscapedIsJson` | agent_core/tools/budget.py:33-41 | it is the length of the text as it stands inside a JSON string (section 7 of RFC 8259), from which it is read back |
| `TextPaging.WrapInserts` | agent_core/tools/text.py:45-65 | an artifact is the source with newlines inserted and nothing else |
| `TextPaging.WrapBounds` | agent_core/tools/text.py:45-65 | no line of an artifact is longer than 4096 characters |
| `TextPaging.WrapKeepsBounded` | agent_core/tools/text.py:45-65 | a source is copied unchanged exactly when its lines are short enough |
| `TextPaging.WrapByLine` | agent_core/tools/text.py:45-65 | lines are written one by one, each break kept |
| `TextPaging.WrapOneLine` | agent_core/tools/text.py:50-64 | a line of up to 4096 characters stays, a longer one is broken behind exactly that many |
| `TextPaging.BoundedLine` | agent_core/tools/text.py:13-13 | the bound, line by line |
| `TextPaging.WriteTextArtifact` | agent_core/tools/text.py:45-65 | the loop over bounded reads computes that artifact and its size |
| `TextPaging.WriteChunk` | agent_core/tools/text.py:50-64 | one round writes a full piece or a line end and makes progress |
| `TextPaging.LinesSpellText` | agent_core/tools/text.py:68-166 | lines and newlines put together are the text: none is missed |
| `TextPaging.FittingIsLongest` | agent_core/tools/text.py:169-177 | the trimmed line fits and no longer prefix does |
| `TextPaging.TrimToEscaped` | agent_core/tools/text.py:169-177 | the loop finds it |
| `TextPaging.PageWithinBudget` | agent_core/tools/text.py:68-166 | no page costs more than its budget or has more lines than asked for |
| `TextPaging.PageAdvances` | agent_core/tools/text.py:68-166 | a page goes on exactly when it has not reached the end, right behind what it showed |
| `TextPaging.PageStopsExactly` | agent_core/tools/text.py:84-157 | without the mark of the character limit a page has as many whole lines as asked for, or all that are left; with it the next line does not fit behind fewer whole ones, or the page is one line too long for a page of its own |
| `Common.DecimalValue` | agent_core/tools/text.py:93-93 | line numbers are decimal: read back they are the number, without leading zeros |
| `TextPaging.StuckExactlyWhenTight` | agent_core/tools/text.py:96-105 | when a page makes no progress |
| `TextPaging.PagingShowsEveryLine` | agent_core/tools/text.py:68-166 | following the offsets ends at the end of the text and shows every line once, in order, whole whenever a page of its own can carry it, each page within the budget |
| `TextPaging.ArtifactReadsBack` | agent_core/tools/text.py:45-166 | when the budget can hold 4096 characters of the worst kind and the largest line number, following the offsets through an artifact shows every line of it whole, and ends |
| `TextPaging.ArtifactStaysInline` | agent_core/tools/text.py:11-41 | the same with the real sizes: an envelope and a line prefix of together 7936 characters leave room for it, and every page with its status stays within the 32768 characters of a tool result |
| `TextPaging.ContentCost` | agent_core/tools/text.py:158-166 | a status costs what it is long, and joining it to the lines adds four |
| `TextPaging.AnswerFits` | agent_core/tools/text.py:36-39 | no page of a file of permitted size, with its status, pushes the result over the limit: 256 characters in reserve are enough |
| `TextPaging.ReadTextFile` | agent_core/tools/text.py:19-42 | refuses, of decodable files, exactly those over 50 MiB; otherwise the content is the asked page or the number of lines, and the result stays within the limit |
| `TextPaging.ReadLineBounded` | agent_core/tools/text.py:190-208 | takes one whole line off the file, however long, and keeps its bounded beginning |
| `TextPaging.SkipLines` | agent_core/tools/text.py:180-187 | stands at the requested line, or knows how many lines there are |
| `TextPaging.ReadPage` | agent_core/tools/text.py:84-157 | the loop with its early exits computes the page |
| `TextPaging.ReadTextRange` | agent_core/tools/text.py:68-166 | past the end exactly when the line in front of the offset does not exist |
| `Preview.ReadExcerpt` | agent_core/execution/process.py:413-433 | chunked reading yields the true prefix and suffix of the stream and its size |
| `Preview.RenderIsCut` | agent_core/execution/process.py:45-54 | from these two ends every shorter preview can be rendered |
| `Preview.MarkerCountsDropped` | agent_core/execution/process.py:45-54 | kept ends and dropped middle make up the text, and the marker counts the middle |
| `Preview.CutLengthGrows` | agent_core/execution/process.py:45-54 | keeping more never makes the preview shorter, although the marker may shrink |
| `Preview.ShrinkStaysAbove` | agent_core/execution/process.py:404-410 | a round makes progress and never skips a cut that fits |
| `Preview.EndsExactlyWhenMarkerFits` | agent_core/execution/process.py:404-410 | some cut fits exactly when the marker for the whole text does |
| `Preview.ReadPreview` | agent_core/execution/process.py:395-411 | the loop ends, within the budget, with the whole text or its longest fitting cut; it goes round for ever exactly when the text is too long and the marker for all of it does not fit |
| `Preview.PreviewUnique` | agent_core/execution/process.py:395-411 | that preview is the only one |
| `Preview.PreviewKeepsEnds` | agent_core/execution/process.py:45-54 | it is the beginning, the notice with the number of characters left out, and the end, of equal length or one more in front; longer ends of that kind do not fit |
| `Preview.OneRoundIsNotEnough` | agent_core/execution/process.py:404-410 | an input for which the loop needs a second round because the marker grew |
| `ToolCallStream.FragmentsKept` | agent_core/providers/tool_call_stream.py:29-111 | in an accepted stream every fragment belongs to a call, and each call has exactly its own fragments, in order |
| `ToolCallStream.AddKeepsConsistent` | agent_core/providers/tool_call_stream.py:80-182 | the maps by index and by id stay inverse to the calls |
| `ToolCallStream.ConsistentIsInjective` | agent_core/providers/tool_call_stream.py:113-182 | no two calls share an index or an id |
| `ToolCallStream.OneOwner` | agent_core/providers/tool_call_stream.py:113-155 | a fragment has one owner |
| `ToolCallStream.FinishedIdsDistinct` | agent_core/providers/tool_call_stream.py:49-78 | finished calls have distinct ids |
| `ToolCallStream.CallsSpell` | agent_core/providers/tool_call_stream.py:49-78 | finishing succeeds exactly when each call has an id and a name, and its arguments are the joined fragments |
| `ToolCallStream.SortedIncreasing` | agent_core/providers/tool_call_stream.py:56-60 | the calls come in index order, none lost |
| `ToolCallStream.IndexedStream` | agent_core/providers/tool_call_stream.py:29-182 | a fully indexed stream is accepted exactly when each call's fragments agree among themselves and no two calls share an id, which says nothing about their interleaving |
| `ToolCallStream.InterleavingDoesNotMatter` | agent_core/providers/tool_call_stream.py:29-182 | two interleavings that keep the order within each call give the same result, errors included |
| `ToolCallStream.StreamTells` | agent_core/providers/tool_call_stream.py:29-182 | of an indexed stream, read off its deltas alone: it is accepted exactly when the deltas of an index agree on id and name, indices share no id, all arguments are text, and each index gets an id and a name; the calls come by index with the id and name given and the texts joined in order |
| `ToolCallStream.SoundTells` | agent_core/providers/tool_call_stream.py:80-182 | the part of that which concerns agreement |
| `ToolCallStream.ResolveTells` | agent_core/providers/tool_call_stream.py:113-155 | in terms of the calls there are: a delta goes to the call that its index or id names, to a new one when they name none, to the only one when it has neither; it is refused when they name two, when it has neither and there is not one call, and when it might name the only call by the key that one lacks |
| `ToolCallStream.AbsorbOk` | agent_core/providers/tool_call_stream.py:89-182 | a delta is taken exactly when index, id and name agree with what its call has and its arguments are text; what was given is learned, the rest kept |
| `ToolCallStream.AbsorbText` | agent_core/providers/tool_call_stream.py:105-111 | the text of a delta goes behind the text of its call |
| `ToolCallStream.FinishesWhen` | agent_core/providers/tool_call_stream.py:49-78 | a stream finishes exactly when all calls or none have an index and each has an id and a name |
| `ToolCallStream.FinishesAsArrived` | agent_core/providers/tool_call_stream.py:56-78 | calls without an index come in order of appearance |
| `ToolCallStream.FinishesByIndex` | agent_core/providers/tool_call_stream.py:56-78 | calls with an index come in the order of their indices |
| `ToolCallStream.ToolCallStreamAssembler.ResolveState` | agent_core/providers/tool_call_stream.py:113-155 | which call a fragment goes to, or that its index and id disagree |
| `ToolCallStream.ToolCallStreamAssembler.BindIdentity` | agent_core/providers/tool_call_stream.py:157-182 | identities are learned once and never changed |
| `ToolCallStream.ToolCallStreamAssembler.TakeFunction` | agent_core/providers/tool_call_stream.py:89-111 | a name is learned once, argument text is added at the end |
| `ToolCallStream.ToolCallStreamAssembler.AddDelta` | agent_core/providers/tool_call_stream.py:80-111 | accepts exactly what the specification accepts and keeps the maps consistent |
| `ToolCallStream.ToolCallStreamAssembler.AddBatch` | agent_core/providers/tool_call_stream.py:29-44 | a batch is its fragments one by one, malformed ones refused |
| `ToolCallStream.ToolCallStreamAssembler.FinishStream` | agent_core/providers/tool_call_stream.py:49-78 | the sorted or arrival-ordered calls |
| `SessionHost.EveryViewSeesOneStretch` | interfaces/session_host.py:51-111 | for every interleaving, a view's replay list and its queue up to the end marker are one contiguous stretch of the stream, each event once, complete while it is attached; it begins at the cursor exactly when the buffer reaches back to it |
| `SessionHost.OneSubscriber` | interfaces/session_host.py:51-111 | only the current subscriber's queue grows, by one event or by the end of its view, a queue never loses an item, and a view is attached only when there is no subscriber |
| `SessionHost.ComingBackContinues` | interfaces/session_host.py:51-111 | a client that comes back with the last number it saw continues without gap or repetition |
| `SessionHost.ResumeCursorReplays` | interfaces/bridge/event_stream.py:18-35 | resuming from the advertised cursor replays nothing but an undelivered failure |
| `SessionHost.StepKeepsInv` | interfaces/session_host.py:51-199 | what each lock region keeps |
| `SessionHost.ReplayIsSuffix` | interfaces/session_host.py:80-84 | filtering the buffer by number gives a suffix of the stream |
| `SessionHost.AttachDoes` | interfaces/session_host.py:51-99 | in every reachable state: who is refused, who is let in and with which of the last 512 events, and who has to wait while the view before is told to go, and why |
| `SessionHost.ArriveAndLeaveDo` | interfaces/session_host.py:101-199 | a message gets the next number and reaches the attached view; a view that leaves is gone and no other one |
| `SessionHost.TakeoverWins` | interfaces/session_host.py:51-111 | behind any history: a client that takes over ends the old view, and is let in when that has left and nobody else asked, whatever else happened, with the events behind its cursor that the buffer has |
| `SessionHost.SupersededIsRefused` | interfaces/session_host.py:66-73 | a waiting client is refused once another has claimed the session |
| `SessionHost.EventStream.Publish` | interfaces/bridge/event_stream.py:18-35 | numbers go up by one, and only a failure asks to be replayed |
| `SessionHost.ActiveSession.ReadMessage` | interfaces/session_host.py:163-199 | an event enters the bounded buffer and the subscriber's queue together |
| `SessionHost.ActiveSession.AttachOnce` | interfaces/session_host.py:51-99 | refused, made to wait for the old view, or attached with the replay of that moment |
| `SessionHost.ActiveSession.Replay` | interfaces/session_host.py:80-84 | the buffered events behind the cursor, in order |
| `SessionHost.ActiveSession.DetachQueue` | interfaces/session_host.py:101-111 | only the view that is attached can detach itself |
| `SessionHost.ActiveSession.MarkFinished` | interfaces/session_host.py:202-205 | only the flag changes that tells later views the end at once |
| `SessionHost.ActiveSession.PutEnd` | interfaces/session_host.py:209-211 | the attached view, if there is one, is told the end |
| `Scheduler.EveryRun` | agent_core/scheduler.py:487-555 | over every run of polls, creations, deletions, launches, ends, restarts and deaths between any two appends of a poll: occurrences of a schedule strictly increase and keep to its trigger, no two runs or takings are for the same occurrence, and no schedule has two live runs |
| `Scheduler.StepKeepsInv` | agent_core/scheduler.py:366-555 | what each lock region keeps, through the reload that starts a poll |
| `Scheduler.PollDiesKeeps` | agent_core/scheduler.py:502-519 | a poll that dies between two appends keeps that: schedules already moved on lose their occurrence, the others are as they were |
| `Scheduler.UpdatesCut` | agent_core/scheduler.py:502-519 | the appends of a poll up to any point are those for the schedules in front of it |
| `Scheduler.PollCatchesUp` | agent_core/scheduler.py:316-331 | after a poll, however late, the next interval occurrence is at most 100 ms behind it, a cron one less than a minute, a one-shot not at all |
| `Scheduler.AdvanceMovesOn` | agent_core/scheduler.py:292-331 | moving a due schedule on goes strictly forward, stays on the interval's lattice, and switches a one-shot off |
| `Scheduler.NextCronIsFirst` | agent_core/scheduler.py:303-310 | the cursor loop finds the first matching minute within its horizon |
| `Scheduler.StepPast` | agent_core/scheduler.py:327-331 | the interval arithmetic lands on the first lattice point behind now |
| `Scheduler.FindCron` | agent_core/scheduler.py:303-310 | the loop computes that search |
| `Scheduler.UpdatesApply` | agent_core/scheduler.py:366-394 | reloading the log after a poll gives every due schedule moved on, all others and all runs unchanged |
| `Scheduler.LogShowsLive` | agent_core/scheduler.py:544-555 | the runs that the log calls running are exactly those alive and those lost, and none is lost unless the service died or a runner raised what is not an Exception |
| `Scheduler.PollTakesExactly` | agent_core/scheduler.py:492-501 | in every reachable state: a poll takes one occurrence of each enabled schedule whose time has come, and of no other; it is too late by more than a period and 100 ms for an interval, by more than a minute for cron, and never for a one-shot |
| `Scheduler.LaunchDecides` | agent_core/scheduler.py:520-541 | an occurrence that a poll took becomes a running run when it was not too late, a runner is there and no run of its schedule is alive; without a runner it fails; too late or beside a live run it is skipped; the log says so |
| `Scheduler.PollGoesOn` | agent_core/scheduler.py:502-519 | what a poll makes of each schedule it takes: a one-shot is over; the next occurrence is the first behind the one taken or, when that was too late, the first behind the poll, for an interval on the lattice of the one taken; never behind the end |
| `Scheduler.NextIsFirst` | agent_core/scheduler.py:292-313 | the next occurrence is the first one behind a time, of the one time of a one-shot, the lattice of an interval, the matching minutes of 370 days; none exactly when there is none up to the end |
| `Scheduler.CreateWaits` | agent_core/scheduler.py:396-419 | a new schedule is enabled and waits for its first occurrence behind now, a one-shot and cron for that behind a second ago |
| `Scheduler.FinishSays` | agent_core/scheduler.py:544-555 | a run that returns is recorded as completed, one that raises as failed, and its schedule is free again; no other run changes |
| `Scheduler.DeleteForgets` | agent_core/scheduler.py:473-481 | a deleted schedule is gone, every other is as it was |
| `Scheduler.SchedulerService.Reload` | agent_core/scheduler.py:366-394 | memory is rebuilt from the log alone |
| `Scheduler.SchedulerService.TakeDue` | agent_core/scheduler.py:491-519 | the first lock region of a poll is a poll step of the protocol, and hands over exactly the occurrences it took |
| `Scheduler.SchedulerService.MoveDueOn` | agent_core/scheduler.py:492-519 | every due schedule is moved on in the log before any of its runs is made |
| `Scheduler.SchedulerService.CollectDue` | agent_core/scheduler.py:493-501 | due schedules in order, each with the occurrence it is due for and whether it was missed |
| `Scheduler.SchedulerService.MoveOn` | agent_core/scheduler.py:502-519 | log and memory move on together |
| `Scheduler.SchedulerService.NextRun` | agent_core/scheduler.py:503-516 | missed and punctual occurrences move on by their own rule |
| `Scheduler.SchedulerService.Next` | agent_core/scheduler.py:292-313 | the next occurrence of each kind of trigger, cut off at the end date |
| `Scheduler.SchedulerService.RecordRun` | agent_core/scheduler.py:521-541 | the second lock region is a launch step of the protocol; only a run that starts is alive behind it |
| `Scheduler.SchedulerService.EndRun` | agent_core/scheduler.py:544-555 | the end of a thread is a finish step of the protocol, for each way a runner can end |
| `Scheduler.SchedulerService.CreateSchedule` | agent_core/scheduler.py:396-419 | a create step of the protocol |
| `Scheduler.SchedulerService.DeleteSchedule` | agent_core/scheduler.py:473-481 | a delete step of the protocol, refused exactly for an unknown id |
| `Memory.RoundTripsExactlyWhenClean` | agent_core/memory.py:351-391 | a rendered document parses to itself exactly when its entries are clean single lines |
| `Memory.CleanRoundTrips` | agent_core/memory.py:351-391 | the sufficient half, section by section |
| `Memory.ParsedIsClean` | agent_core/memory.py:351-374 | whatever is parsed is clean |
| `Memory.ReconciledIsClean` | agent_core/memory.py:288-315 | whatever the reconciler accepts is clean and has no repetition; it accepts exactly when no entry is blank |
| `Memory.WriteReadsBack` | agent_core/memory.py:121-148 | after an admitted write, also one that stops between the two files, each file it reached reads as the document written, and every other as before |
| `Memory.NoUpdateLost` | agent_core/memory.py:121-148 | over every sequence of writes by many writers, each of which may stop in front of either file, what is read is the latest document written, and a write with an expected value is admitted only against that value |
| `Memory.WritersArePrintable` | agent_core/memory.py:121-148 | the two sources of written documents satisfy the condition |
| `Memory.AcceptedExactly` | agent_core/memory.py:121-148 | after any history of writers a write is accepted exactly when both files can be read and each one it guards still reads as the document last accepted for it that its writer had read |
| `Memory.FileTells` | agent_core/memory.py:326-374 | a file is accepted exactly when it is blank or begins with its header and each line is blank, the first of its heading, or an entry below a heading; each kind then holds the stripped texts below its heading, in order |
| `Memory.ParseTells` | agent_core/memory.py:351-374 | the same of the lines behind the header, as far as they have been read |
| `Memory.ReconciledGathers` | agent_core/memory.py:288-315 | an accepted answer becomes, for each kind, exactly the normalised texts of its entries, each once, in the order in which they first come up |
| `Memory.NormalizedKeepsWords` | agent_core/memory.py:308-308 | normalising keeps the words in order, with single blanks between them and no other space |
| `Memory.WordsSeparate` | agent_core/memory.py:308-308 | spaces separate words wherever they stand |
| `Memory.StripTakesEnds` | agent_core/memory.py:367-369 | stripping takes the spaces at both ends and nothing else |
| `Memory.SplitLineBy` | agent_core/memory.py:326-349 | a line ends at the first break, and a carriage return takes a line feed behind it along |
| `Memory.PrintedText` | agent_core/memory.py:377-391 | a printed file, line by line |
| `Memory.BulletsAre` | agent_core/memory.py:385-391 | each entry is printed behind a dash and a space |
| `Memory.SplitText` | agent_core/memory.py:326-349 | splitting joined lines gives the lines back |
| `Memory.ParseDocumentLines` | agent_core/memory.py:351-374 | the loop computes the parse and its failures |
| `Memory.DocumentFromEntries` | agent_core/memory.py:288-315 | the loop normalises white space and drops repetitions |
| `Memory.MemoryStore.ParseFile` | agent_core/memory.py:326-349 | a missing file reads as the empty document |
| `Memory.MemoryStore.Store` | agent_core/memory.py:121-148 | a write is admitted exactly when both files can be read and hold what was expected; it then writes the global file and the workspace file in this order, as far as it gets |

## Left out

- Provider adapters, HTTP, MCP transports, token counting and model metadata: thin layers over libraries; token counts are an arbitrary function.
- JSON encoding of events, timestamps and uuids: a codec that is assumed to give one object a line which no proper prefix parses as, and identifiers that are assumed to be fresh.
- Journal metadata, locking between processes, listing, searching, forking and titles of sessions.
- `update_schedule`, and a line of the scheduler log that was torn: the code gives no guarantee there.
- Several service objects that write one scheduler log at the same time: the lock belongs to the object (interfaces/gui/routes/schedules.py:22 makes further ones), so a deletion between the reload and an append of a poll can be undone. One writer at a time is assumed.
- Encoded surrogates in the tail of a journal: the repair decodes more leniently than loading does, so it can repair such a tail, where the model refuses it. No session writes one.
- JournalFile.PrepareKeepsReplay: leaves out the same tails.
- JournalFile.Journal.PrepareAppend: leaves out the same tails.
- ToolBatch.Batch.ExecuteConcurrently: an interruption ends the reports of completed calls early; one that strikes inside the settling of a call, behind `observed.add` and in front of its journal write (agent_core/tool_batch.py:173-185), is not modelled and can leave a started call without an end.
- Submissions of jobs for a turn behind its last check: jobs are submitted by tools that run inside the turn (agent_core/tools/builtin/shell.py:240, agent_core/tools/builtin/subagent.py:89), which is assumed.
- Deletion of a path and revocation of a grant from outside the sandbox: the lease protocol is proved for worlds in which others only create paths and add grants.
- TextPaging.ReadTextFile: the refusal of files that are not UTF-8 is not modelled; text is what decoding delivers.
- Evaluation of cron expressions (a parameter) and cron in zones with repeated hours.
- Failure of `executor.submit`, of journal writes and of update callbacks inside the job manager, and the job's progress reports, snapshots and result files.
- ACL and process-launch code of the sandbox, unreadable lease records, and a record write that fails without the process dying.
- Leases.EveryRunIsSafe: assumes that the identity of every process can be read; a lease whose owner's identity cannot be read counts as stale 24 hours after its last check (agent_core/windows_sandbox.py:770-785), and can then lose its grant while it is held.
- Leases.HeldUntilReleased: makes the same assumption.
- ContextArchive.Archive: whether a request is too large and whether an answer is a checkpoint are parameters of an attempt.
- ToolCallStream.ToolCallStreamAssembler.AddBatch: does not model the state behind a refused fragment, after which the stream is abandoned, the parsing of argument text as JSON, or the wording of refusals.
- SessionHost.ActiveSession.AttachOnce: does not model waiting for the first snapshot, so the model admits more interleavings than the code, or the contents of snapshots.
- Preview.ReadPreview: the choice among text encodings is not modelled.
- JournalFile.Journal.ReadRecords: does not model that text mode also takes a carriage return for a line end; the writer never writes one.
- Reconciliation of memory by a model, prompts, roles, permissions, configuration, plugins, skills, hooks' own behaviour, image handling and all user interfaces: no deep invariant, or easy members only.
