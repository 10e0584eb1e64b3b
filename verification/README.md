# Breakerbox: token accounting, metric tiers, approvals and streams

Breakerbox runs an agent on each host and one hub. This project models the parts whose
correctness is a matter of whole runs, and proves what they promise.

**Token usage** (`Lines`, `TokenStore`, `Codex`, `CodexFacts`, `TokenWatch`, `IncrementalTail`,
`TokenScans`, `TokenPipeline`, `TokenRuns`, `TokenReplay`, `TokenShutdown`). The agent tails growing
transcript files from saved offsets, turns cumulative counters into deltas, suppresses rewrites
that did not grow, batches rows and saves its offsets only with an accepted batch. The hub
upserts by dedup key and keeps the largest output count. `Watcher` and `Service` are the two
objects; `TokenPipeline` puts files, watcher, checkpoint file and hub into one state machine
whose events are appends, reading one line, finishing a scan, a flush tick, a crash and a
shutdown.

**Metric tiers** (`Downsample`, `DownsampleFacts`, `DownsampleOnce`, `DownsampleLossless`,
`DownsampleMeans`, `TextTime`). Rows roll up 1m, 10m, 1h, 1d with no bookkeeping but the newest row of the target
tier, while retention deletes rows of every tier. `Metrics` is the cron pass over mutable
tables, with insert transactions and DELETEs that may fail. `TextTime` justifies the integer
times: it models the stored text layout, the calendar and the SQL truncation.

**Approval and supervision** (`Agent`, `AgentDaemon`, `AgentSteps`, `AppHub`, `Approvals`,
`Decisions`, `Wishes`, `Lifecycle`, `Persistence`, `CrashPolicy`, `Restarts`, `GivingUp`,
`StopWins`, `Convergence`, `Reconciling`, `AgentRuns`). `Agent` is the
daemon as a state machine, `Daemon` the same as the mutable object it is, with its loops over
maps and lists; `AppHub` is the hub's record table and its handlers. `Approvals` closes the
system: hub, messages and an agent that may reboot at any step. `Decisions`, `Wishes` and
`Lifecycle` say what the host's decisions and the users' commands bring about.

**Streams and lookups** (`DockerLogs`, `Sse`, `EventStream`, `Words`, `Attribution`, `Pricing`).
The container log demultiplexer, the event-stream usage parser beside the standard's reading of
such a stream, the attribution of a working directory to an app, and the price lookup.
`Wrappers` holds the optional value.

## What is taken as given

- A file of the pipeline is a byte sequence that only grows. What one scan does with a file that
  was replaced by a shorter one is said in `TokenScans`. A JSON decoder is any
  function from a line to an optional value; an accepted `emit` means the hub has ingested the
  batch. `resolve` and the price of a row are fixed functions.
- Integers are unbounded, prices and averages are reals. Where the source could overflow and
  the proof depends on it, the bound is proved (`Restarts.DelayGrows`).
- Clocks, file sizes, whether a file opens, whether a save succeeds, whether a process starts,
  stops or exits, and what the database accepts are parameters of the events.
- The definition hash is any function; where it matters, any injective one. A message sent
  once may be delivered late, repeatedly, out of order or never. One agent, one hub.
- One step of `Agent` is a section of code under the daemon's mutex, or a few with nothing but
  sends between them. What can be overtaken is split: a command is accepted, then recorded; a
  start is queued, then checked, then recorded when the process exists; a stop is queued, then
  detaches the process, then finishes when it is dead; an exit is observed, then the app looked
  at, then the crash counted, then its timer armed, in whichever cell the crash was counted. On
  the hub a command passes the create hook, and is stamped with the hash its record has when it
  is dispatched. `stopApp`'s cancel-and-detach, the sync and a boot up to its starts are one step
  each.
- A process is identified by a number that is never reused.
- The result of a sync query is any list that the newest-first order and its limit allow.
- Trimming is any function with the properties in `EventStream.Trims`.

## What the proofs found

- The comment on an oversize transcript line says it is counted as consumed; the code hands
  over an empty slice, so the offset falls behind (`TokenWatch.OffsetAtLineEndIff`).
- A shutdown saves offsets without sending what is pending. It keeps what it saves covered
  exactly when every pending row is in the hub already (`TokenShutdown.ShutdownKeepsIff`);
  otherwise rows are lost (`TokenRuns.ShutdownLosesPending`).
- A batch flushed and saved in the middle of a codex scan saves counters of that file that are
  ahead of its offset, and no other step does (`TokenPipeline.SpoiledByMidScanSaveIff`). After a
  crash the lines are read again and billed again under new keys (`Codex.ReplayKeysAreNew`), by
  the amount in `Codex.ReplayBills`; a run ends with 1000 tokens where there were 500
  (`TokenReplay.MidScanSaveBillsTwice`). Claude files are not concerned
  (`TokenPipeline.ClaudeDurableOffset`, `TokenPipeline.ClaudeExactlyOnce`).
- Giving up on a crashing app does not stop a timer that an overlapping start left armed, and
  that timer starts the app again (`GivingUp.AbandonedIff`, `GivingUp.GivenUpYetStarted`,
  `AgentRuns.GivenUpYetRunning`).
- The restart budget is renewed not only by a healthy run but also by a stop, a sync that drops
  the app, and a reboot (`Restarts.CrashLoopBudget`).
- Between counting a crash and arming its timer the mutex is released. A stop or a dropping sync
  of the app in that gap, and only there, lets two of its timers be armed
  (`Restarts.DetachKeepsIff`, `Restarts.OneTimer`, `AgentRuns.TwoTimers`).
- The comment says max_restarts 0 means no restart; the next reconcile starts the app anyway
  (`GivingUp.ReconcileRestartsIff`).
- A stop none of whose saves succeeds is undone by a reboot, and a second stop does not repair
  it, as it finds nothing to save (`StopWins.StopQuietsIff`, `AgentRuns.StoppedYetRunning`).
- A rejection whose save fails is undone by a reboot (`Decisions.UnsavedRejectIsLost`).
- An app whose definition became a container while its process runs is never started
  (`Reconciling.ReconcileConvergesIff`, `AgentRuns.ShadowedContainer`).
- A sync lists at most 500 records, and only those that decode; the agent forgets, and stops,
  every app that is not listed (`Convergence.SyncCompleteIff`).
- Importing a definition the host already holds undecided or rejected does not approve it
  (`Approvals.ImportApprovesIff`).
- A DELETE that keeps failing on a source tier while it succeeds on the target lets a bucket be
  inserted twice (`DownsampleOnce.StuckInsertsTwice`); `DownsampleOnce.AtMostOnce` says how long
  it may fail, and `DownsampleOnce.SourceInsertsIff` when a row left behind makes another record.
- The event-stream parser ends lines at LF only, takes every `data:` line for one event and does
  not wait for the empty line. It agrees with sections 9.2.5 and 9.2.6 of the WHATWG HTML Living
  Standard exactly when no CR stands alone, no event has two data lines that say something, and
  none is left open (`EventStream.AgreesIff`, `EventStream.SameEventsIff`; bodies that are read
  differently: `EventStream.LoneReturn`, `EventStream.TwoDataLines`,
  `EventStream.OpenAtTheEnd`).

## Model

| member | source | states |
|---|---|---|
| Lines.SplitAppend | agent/internal/dockerapp/follow.go:49-75 | Splitting a text at newlines does not depend on where it was cut: the complete lines of a joined text are those of the first part, then those of its remainder joined to the second. |
| Lines.SplitUnique | agent/internal/tokenwatch/watcher.go:200-211 | Lines and remainder are the only decomposition of a text into newline-free pieces. |
| TokenStore.Service.Ingest | hub/internal/tokens/tokens.go:62-111 | One batch in one transaction: all rows upserted, or the table unchanged, and it fails exactly when a record it has to save is refused. |
| TokenStore.IngestMax | hub/internal/tokens/tokens.go:67-105 | Ingesting stores a key exactly when it was there or a row carries it, and its output is the maximum over the rows and what was stored, attained by one of them with that row's cost. |
| TokenStore.IngestStoresARow | hub/internal/tokens/tokens.go:67-105 | When rows of a key agree but for output, the stored record is one of the rows, priced as that row. |
| TokenStore.IngestIsAJoin | hub/internal/tokens/tokens.go:67-105 | Any reordering, repetition or re-batching of agreeing rows gives the same table. |
| TokenStore.OrderIndependentIffAgree | hub/internal/tokens/tokens.go:67-105 | The table is independent of the order of the rows exactly when rows of one key agree on everything the upsert does not merge. |
| TokenStore.DisagreementShows | hub/internal/tokens/tokens.go:73-104 | Rows of one key that disagree can be reordered into a batch that stores a different table. |
| TokenStore.RedeliveryIsNoOp | hub/internal/tokens/tokens.go:59-61 | Delivering rows again, in any order, leaves the table as it is: at-least-once delivery suffices. |
| Codex.Counters.ParseLine | agent/internal/tokenwatch/codex.go:53-109 | One line updates the counters and yields a row as the delta rule says, in place. |
| Codex.ResumeAnywhere | agent/internal/tokenwatch/codex.go:44-51 | Stopping between two lines and resuming with the saved counters yields the same rows and counters. |
| Codex.Conservation | agent/internal/tokenwatch/codex.go:74-107 | From any counters, emitted output tokens add up to the last totals of the maximal runs without a counter drop, less what was counted before; input plus cache reads are never less than that, and equal it exactly when no delta caches more than it consumed. |
| Codex.FileConservation | agent/internal/tokenwatch/codex.go:74-107 | The same for a whole file read from the start. |
| Codex.KeyInjective | agent/internal/tokenwatch/codex.go:96 | A dedup key determines the session and the event number, colons in session ids notwithstanding. |
| Codex.KeysDistinct | agent/internal/tokenwatch/codex.go:77-96 | No two rows of one file share a dedup key, even if the session id changes midway. |
| Codex.ReplayKeysAreNew | agent/internal/tokenwatch/watcher.go:194-197 | Reading lines again with counters that already include them yields rows under keys not used before, so the hub's dedup cannot absorb them. |
| Codex.ReplayBills | agent/internal/tokenwatch/watcher.go:194-197 | Reading lines again with counters that include them bills their output tokens once more, plus what the first reading went on from, less what the second goes on from, which is nothing after a drop of the counters; from wherever the counters stood, so also after a checkpoint in the middle of the file. |
| CodexFacts.StateSays | agent/internal/tokenwatch/codex.go:57-78 | After any lines of a file the counters hold session and directory of the last session_meta, the last model named, and the number of totals reported. |
| CodexFacts.RowSays | agent/internal/tokenwatch/codex.go:74-108 | A total yields a row exactly when input or output moved; each field of it, from the last total or from zero after a counter went back. |
| CodexFacts.CacheConservation | agent/internal/tokenwatch/codex.go:79-106 | Cached tokens billed as cache reads add up to those of the last totals of the runs without a drop, less what was counted before and what was reported while nothing else moved. |
| TokenWatch.Watcher.constructor | agent/internal/tokenwatch/watcher.go:54-65 | A new watcher starts from the saved checkpoints and nothing else. |
| TokenWatch.Watcher.OpenCheckpoint | agent/internal/tokenwatch/watcher.go:153-174 | The checkpoint a scan starts from: backfill limit for new files, reset for shrunken ones; what either means for a scan is said by the rows of TokenScans. |
| TokenWatch.Watcher.ReadLines | agent/internal/tokenwatch/watcher.go:184-193 | The read loop consumes exactly the complete lines of the unread bytes, in order, and returns the distance the offset moves. |
| TokenWatch.Watcher.Tail | agent/internal/tokenwatch/watcher.go:147-198 | One scan of one file, as the fold over the unread complete lines that the run-level results use. |
| TokenWatch.AdvanceLength | agent/internal/tokenwatch/watcher.go:191-211 | The offset moves by the bytes read exactly when no line is oversize, and by less otherwise. |
| TokenWatch.OffsetAtLineEndIff | agent/internal/tokenwatch/watcher.go:200-211 | A scan ends at the last complete line exactly when none of the lines it read is oversize; otherwise it stays short of it. |
| IncrementalTail.TailTwice | agent/internal/tokenwatch/watcher.go:147-198 | Two scans with growth in between are one scan of the grown file, also across a partial line. |
| IncrementalTail.IncrementalIsOnePass | agent/internal/tokenwatch/watcher.go:147-258 | Any number of scans of a growing file yield the rows, counters and offset of one pass over its final content; the offset is a line boundary. |
| TokenScans.OpenRewrittenIff | agent/internal/tokenwatch/watcher.go:153-171 | A file shorter than its offset is opened at 0 with fresh counters, and like a file never seen before exactly when it is within the backfill limit. |
| TokenScans.RewrittenIsNew | agent/internal/tokenwatch/watcher.go:147-198 | Scanning such a file leaves whatever scanning a new file with these bytes leaves. |
| TokenScans.RewrittenIsReadFromStart | agent/internal/tokenwatch/watcher.go:165-198 | Whatever its size, every complete line of it is read from fresh counters, and the offset ends at the last line boundary exactly when no line is oversize. |
| TokenScans.RewrittenCodexRows | agent/internal/tokenwatch/watcher.go:165-258 | For a codex file the rows queued are then those of one reading of its new content, each once, in order. |
| TokenScans.RunKinds | agent/internal/tokenwatch/watcher.go:153-171 | In every run a checkpoint, in memory or saved, has codex counters exactly when its file is a codex file. |
| TokenScans.CodexScan | agent/internal/tokenwatch/watcher.go:241-258 | Reading lines of a codex file queues its rows, each once, in order, behind what was queued before, unless a flush with too many waiting is turned down, and counts the lines that are no JSON. |
| TokenScans.ClaudeScan | agent/internal/tokenwatch/watcher.go:224-258 | Reading lines of a Claude file queues exactly the rows that say more output than every earlier row of their key, as long as the memory of keys is not reset. |
| TokenScans.FlushConserves | agent/internal/tokenwatch/watcher.go:260-277 | A flush keeps the order of what is sent and waiting; turned down with more than 10,000 waiting it gives up the oldest and no more; offsets are saved exactly when nothing waits afterwards and the file can be written; keys are forgotten only after an accepted batch, past 50,000. |
| TokenScans.BacklogIsBounded | agent/internal/tokenwatch/watcher.go:255-276 | In no state of any run do more than 10,000 rows wait. |
| TokenScans.TrimmedIs | agent/internal/tokenwatch/watcher.go:213-218 | A line is taken without the line ends at its end, all of them and nothing else. |
| TokenPipeline.NextKeeps | agent/internal/tokenwatch/watcher.go:147-277 | Every event keeps the invariant, for any choice of files whose saved counters fit at a restart: below each of their read positions every usage row is in the hub or pending with at least its output count, below each saved offset it is in the hub, and no row in hub or queue comes from nowhere. |
| TokenPipeline.FlushKeeps | agent/internal/tokenwatch/watcher.go:260-277 | Whatever the hub and the disk answer, a flush leaves every row in the hub, in the queue, or its key given up. |
| TokenPipeline.StepKeeps | agent/internal/tokenwatch/watcher.go:220-258 | After one line its row is in the hub or queued with at least its output count, and in the hub if the line made a save. |
| TokenPipeline.DurableOffset | agent/internal/tokenwatch/watcher.go:186-198 | In every state of a run the checkpoint file stands past no usage row of a file that the hub does not hold with at least its output count, keys given up excepted, if that file was never restarted from a checkpoint saved in the middle of its own codex scan. |
| TokenPipeline.ClaudeDurableOffset | agent/internal/tokenwatch/watcher.go:186-198 | For a Claude file the same in every run, whatever happens to codex files and restarts. |
| TokenPipeline.ExactlyOnce | agent/internal/tokenwatch/watcher.go:148-300 | After any interleaving of appends, scans, accepted and rejected flushes, crashes and shutdowns that has come to rest, the hub holds for a key not given up what ingesting every row of every file once gives, if the files that can say the key were never restarted from a checkpoint saved in the middle of their own codex scan. |
| TokenPipeline.ClaudeExactlyOnce | agent/internal/tokenwatch/watcher.go:148-300 | For every key that is none of codex the same in every run, with any restarts. |
| TokenPipeline.ExactlyOnceTable | hub/internal/tokens/tokens.go:62-111 | When the backlog stays under its cap, shutdowns find nothing pending and rows agree, the two tables are equal under every such key, and equal if the run is allowed for all files. |
| TokenPipeline.CalmGivesUpNothing | agent/internal/tokenwatch/watcher.go:273-276 | Keys are given up only by the backlog cap or a shutdown with rows pending. |
| TokenPipeline.SpoiledByMidScanSaveIff | agent/internal/tokenwatch/watcher.go:194-277 | A step leaves saved counters of a file that do not belong to its saved offset exactly when it is a line of that file, a codex one, that fills the batch, and the flush is accepted and saved. |
| TokenPipeline.RunKeeps | agent/internal/tokenwatch/watcher.go:148-300 | In every allowed run the invariant holds, and the checkpoint file misfits a file exactly when the last save of the run was of that kind. |
| TokenReplay.MidScanSaveBillsTwice | agent/internal/tokenwatch/watcher.go:186-257 | A concrete run from the initial state, with nothing given up: 500 codex rows of one token, a flush in the middle of the scan, a crash, and the hub holds 1000 records of one token. |
| TokenShutdown.RunPending | agent/internal/tokenwatch/watcher.go:220-258 | In every allowed run each pending row stands in a file, below the position read so far. |
| TokenShutdown.ShutdownKeepsIff | agent/internal/tokenwatch/watcher.go:78-80 | After a shutdown that saves, every row below the saved offsets is in the hub or was given up before exactly when every pending row was in the hub already. |
| TokenRuns.TailIsARun | agent/internal/tokenwatch/watcher.go:147-198 | One call of the tailer is a run of pipeline events: begin, one event per line, finish. |
| TokenRuns.CodexFileConserves | agent/internal/tokenwatch/watcher.go:241-253 | The rows the pipeline attributes to a codex file conserve its totals and have distinct keys. |
| TokenRuns.ShutdownLosesPending | agent/internal/tokenwatch/watcher.go:78-80 | A concrete run with nothing rejected and no limit met after which a read row is in neither hub nor queue. |
| Downsample.BucketBefore | hub/internal/metrics/downsample.go:97-98 | A time lies before a truncated now exactly when its bucket does, and that bucket is then complete. |
| Downsample.BucketNested | hub/internal/metrics/downsample.go:26-31 | Buckets of a coarser tier are unions of buckets of the finer one. |
| Downsample.Metrics.AggregateOne | hub/internal/metrics/downsample.go:97-166 | One aggregation of one collection, its loop over groups included, inserts what the queries say or, on a failed transaction, nothing. |
| Downsample.Metrics.Run | hub/internal/metrics/downsample.go:78-91 | The nested loops over collections and tiers perform one pass on every collection, each with its own failing transactions and DELETEs. |
| DownsampleFacts.GroupsFacts | hub/internal/metrics/downsample.go:131-137 | The grouped query lists each bucket that has a completed source row, once, in bucket order. |
| DownsampleFacts.NewRowsAt | hub/internal/metrics/downsample.go:144-165 | Per key and bucket an aggregation inserts the roll-up of its group, once, unless the watermark has passed it. |
| DownsampleFacts.ExpireIn | hub/internal/metrics/downsample.go:171-177 | Retention deletes exactly the rows of one tier created before the bound. |
| DownsampleOnce.PassKeeps | hub/internal/metrics/downsample.go:78-177 | A pass keeps every inserted bucket barred: a newer record survives, or its whole bucket lies before the oldest source row there can be, because each tier outlives its source by a bucket. |
| DownsampleOnce.AtMostOnce | hub/internal/metrics/downsample.go:26-177 | Over any run of arrivals and passes with any gaps, failing inserts and failing DELETEs, each (key, tier, bucket) is inserted at most once, ever, if samples are late by at most a bound and no tier loses records longer after the last DELETE on its source than that bound leaves. |
| DownsampleOnce.DeletingIsTimely | hub/internal/metrics/downsample.go:26-31 | When no DELETE fails the bound is met for any sample late by at most retain(10m) - width(10m) plus a millisecond. |
| DownsampleOnce.PassIsIdempotent | hub/internal/metrics/downsample.go:93-96 | From any table whatsoever, a second pass at the same time changes nothing. |
| DownsampleOnce.StuckInsertsTwice | hub/internal/metrics/downsample.go:86-88 | A concrete run with one sample, on time: the DELETE on the 1m tier fails while that on the 10m tier succeeds, and the next pass gives its bucket a second record. |
| DownsampleOnce.SourceInsertsIff | hub/internal/metrics/downsample.go:131-165 | A row of a completed bucket of the next tier, for any of the three target tiers, that comes too late or was never deleted makes the next pass insert a record for that bucket exactly when no record of its key as new as the bucket is left. |
| DownsampleLossless.WatermarkIsMark | hub/internal/metrics/downsample.go:100-115 | The watermark of the expiring table stops exactly the buckets before the last pass's cutoff. |
| DownsampleLossless.IncrementalIsOneRollup | hub/internal/metrics/downsample.go:56-177 | If no sample arrives behind the last pass's 10-minute cutoff, the records ever inserted are what one stateless roll-up of everything that ever arrived would insert. |
| DownsampleLossless.DeletedWasCounted | hub/internal/metrics/downsample.go:171-177 | Then every row retention has deleted was counted in exactly one record of the next tier. |
| DownsampleLossless.RecordsMatchSamples | hub/internal/metrics/downsample.go:56-66 | Then coarse counters are the maxima of their 1m samples and coarse gauges lie between the samples' extremes, up to 1d. |
| DownsampleMeans.InsertedAreMeans | hub/internal/metrics/downsample.go:117-165 | Every record any pass inserts, whatever arrived late or failed before: each gauge times the number of rows its bucket has in the next finer tier is the sum of theirs, each counter is their maximum, and the bucket is complete. |
| DownsampleMeans.RecordsAreMeans | hub/internal/metrics/downsample.go:56-165 | In every on-time run a 10m record is the mean of all 1m samples of its ten minutes, and a 1h or 1d record of all the records its bucket ever had in the next finer tier, each weighing the same. |
| DownsampleMeans.LiveIff | hub/internal/metrics/downsample.go:26-31 | After an on-time run the tables hold exactly the rows of the last 2, 10, 30 and 730 days, tier by tier. |
| TextTime.TextOrder | hub/internal/metrics/downsample.go:145-150 | On the stored layout, text order is time order and equal texts are equal times. |
| TextTime.BucketTextIsBucket | hub/internal/metrics/downsample.go:35-46 | The SQL truncation of a stored text is the text of the start of its bucket, for all three widths. |
| TextTime.CutoffSelectsCompleted | hub/internal/metrics/downsample.go:98-133 | The query's text comparison with the formatted cutoff selects exactly the rows of completed buckets. |
| TextTime.SkipIsByTime | hub/internal/metrics/downsample.go:147-149 | Comparing bucket texts to skip finished buckets is comparing bucket times. |
| AgentDaemon.Daemon.CountCrash | agent/internal/daemon/restart.go:67-93 | One crash counted in place: in a new cell or the old one, afresh after a healthy run, and a timer to be armed unless that was one too many for the policy seen before. |
| AgentDaemon.Daemon.Reconcile | agent/internal/daemon/restart.go:138-188 | The loop over all apps issues exactly the starts and stops that converge to the wish, and none against a restart timer. |
| AgentDaemon.Daemon.TakeSpec | agent/internal/daemon/daemon.go:263-302 | One entry of a sync: unchanged definitions keep the local decision, others are decided anew and reported. |
| AgentDaemon.Daemon.ApplyAppSync | agent/internal/daemon/daemon.go:254-325 | Both loops of the full-state sync, and when it is persisted. |
| AgentDaemon.Daemon.Commanded | agent/internal/daemon/daemon.go:345-360 | A command passes exactly when it names the definition this host has and the host has approved it. |
| AgentDaemon.Daemon.Boot | agent/internal/daemon/daemon.go:90-108 | A new process reaps, forgets everything in memory, and starts what the persisted state wants. |
| AgentDaemon.Daemon.Run | agent/internal/daemon/daemon.go:222-395 | Driven through any events that can happen, method by method, the mutable daemon goes through the states of the machine that the run results are about. |
| AgentDaemon.ImpossibleIsNothing | agent/internal/daemon/daemon.go:222-395 | Events that cannot happen do nothing in the machine, so its runs are no others. |
| AgentSteps.StepWork | agent/internal/daemon/daemon.go:222-395 | Every start, stop, spawn and command under way after a step was there before or has one of the listed causes. |
| AgentSteps.StepProc | agent/internal/daemon/apps.go:61-73 | An app gets a process only from finishing one of its starts, and always a new one. |
| AgentSteps.StepApps | agent/internal/daemon/daemon.go:254-325 | Only a sync or a reboot changes which definitions there are; otherwise an approval changes only by a decision of the host about that app, to what it decided, and a wish only by a command for it. |
| AppHub.Hub.OnAppRegister | hub/internal/agenthub/apps.go:12-58 | Registering an imported definition creates an approved, stopped record, once per hash. |
| AppHub.Hub.Save | hub/internal/appsapi/appsapi.go:26-81 | Create and update fill in the schema version and the kind, refuse an invalid definition, an unknown system and an unknown app, compute the hash, and reset the approval when it changed. |
| AppHub.Hub.OnCommand | hub/internal/commands/commands.go:26-59 | A user command needs a known verb and an approved record; what a start or stop records, if the record can be stored, is said by the rows of Wishes. |
| AppHub.Hub.SendAppSync | hub/internal/agenthub/hub.go:242-265 | The sync lists the queried records in order, each as stored, without those whose stored definition does not decode. |
| Wishes.WishIsLastAsked | hub/internal/commands/commands.go:26-59 | Over any sequence of user commands an approved record wants to run exactly when the last start or stop stored for it was a start, or wants what it wanted if there was none; restarts, refused commands and commands for other records change nothing, and nothing else of it changes. |
| Wishes.HubWishIff | hub/internal/commands/commands.go:26-59 | In every run of hub, network and agent a record wants to run exactly when a start of it was accepted and since then neither a stop nor its deletion; saved definitions, decisions, imports and syncs do not touch it. |
| Wishes.AskedReachesAgent | hub/internal/agenthub/hub.go:242-265 | After a sync built from such a table, the agent wants a listed app running exactly in that case. |
| Wishes.SyncedWishIff | hub/internal/agenthub/hub.go:242-265 | The same after any run of the whole system. |
| Lifecycle.NormalSays | hub/internal/appsapi/appsapi.go:34-39 | Defaults are filled in where nothing is set, once. |
| Lifecycle.CreatedSays | hub/internal/appsapi/appsapi.go:40-81 | A new definition becomes one pending, stopped record with its own hash if it is valid and the system known, and changes nothing otherwise. |
| Lifecycle.SavedAndSynced | hub/internal/appsapi/appsapi.go:53-84 | A definition saved over an existing record keeps its wish, keeps its approval only if it is no other definition, and with the next sync is the definition the agent has, running processes untouched. |
| Lifecycle.ImportIsOnce | hub/internal/agenthub/apps.go:15-58 | However often an import is heard of, there is one record for it, and none if it is invalid or its definition has a record already. |
| Lifecycle.ImportReachesAgent | agent/internal/daemon/loops.go:104-115 | A definition imported on the host comes back with the next sync approved and stopped, and the hub is told so. |
| Lifecycle.ApprovedStartRuns | agent/internal/daemon/daemon.go:345-381 | From a definition hub and agent agree on: approved on the host, reported, started by a user, stamped, executed and begun, exactly that definition is spawned, and its process is the app's, alive and remembered. |
| Lifecycle.StopReachesProcess | agent/internal/daemon/apps.go:95-124 | A stop or restart carried out kills exactly the app's process, forgets it with its restart bookkeeping, records the wish, and a restart then asks for a start. |
| Approvals.AgentKeepsTrust | agent/internal/daemon/daemon.go:257-396 | Every step of the agent keeps: apps in memory and on disk carry their own hash and are approved only if cleared, and all it spawns or reports is cleared. |
| Approvals.DecisionOk | hub/internal/agenthub/apps.go:60-74 | A delayed or duplicated approval event cannot approve a record whose definition has changed since. |
| Approvals.StepKeeps | hub/internal/agenthub/hub.go:160-265 | Every step of hub, network and agent keeps the system invariant. |
| Approvals.OnlyApprovedRuns | agent/internal/daemon/loops.go:102-139 | A step spawns a process definition only if the host imported or approved its hash at an earlier step of the run, whatever was sent, delayed, duplicated or dropped. |
| Approvals.HubShowsOnlyApproved | hub/internal/appsapi/appsapi.go:47-82 | A hub record marked approved is a container kind or carries a hash the host imported or approved. |
| Approvals.ImportApprovesIff | agent/internal/daemon/daemon.go:265-292 | An import approves the app that comes back exactly when the host does not already hold that definition undecided or rejected. |
| Decisions.DecidedSays | agent/internal/daemon/loops.go:116-138 | A decision of the host makes the app approved exactly if it was an approval and rejected otherwise, in memory and, if saved, on disk, tells the hub that with the hash it was about, and changes nothing else of any app. |
| Decisions.HubShowsDecision | hub/internal/agenthub/apps.go:60-74 | The hub then shows it for the record if that still has this hash, and changes no other record. |
| Decisions.RejectRefusesIff | agent/internal/daemon/loops.go:127-131 | A rejection keeps the app from being started, as the next row says, exactly when no process of it is being spawned and the rejection reached the disk or the disk did not have it approved. |
| Decisions.RejectHolds | agent/internal/daemon/apps.go:31-33 | After a saved rejection with no spawn under way, over any run of commands, timers, exits, reconciles, reboots and failing saves, no process of the app is spawned and no start touches its containers, until the host approves it or a sync brings it approved. |
| Decisions.RefusalHolds | agent/internal/daemon/apps.go:31-33 | The same from any state in which the app is approved neither in memory nor on disk. |
| Decisions.UnsavedRejectIsLost | agent/internal/daemon/loops.go:127-131 | A rejection whose save failed is gone after a reboot: the app is approved again. |
| Decisions.ApprovalAllows | agent/internal/daemon/apps.go:25-55 | After an approval a start of the app, if it is not running, spawns exactly its definition or brings its containers up. |
| Decisions.GateIff | agent/internal/daemon/daemon.go:345-381 | A command is taken up exactly if its verb is known and it names the definition the host has and has approved; otherwise nothing changes. |
| Decisions.StaleCommandIsNothing | agent/internal/daemon/daemon.go:354-357 | A command stamped with a hash that the last sync replaced changes nothing at all. |
| Persistence.DiskFollows | agent/internal/daemon/daemon.go:321-325 | In every run without failing saves the state file says what the agent thinks, at every moment. |
| Persistence.DiskStays | agent/internal/daemon/daemon.go:321-325 | In a run whose saves all fail it stays as it was. |
| Persistence.BootSays | agent/internal/daemon/daemon.go:90-108 | A new agent process knows the apps of the file, kills only reaped orphans of process apps and every one of those, and asks for a start of exactly the apps wanted and approved. |
| Restarts.DelayGrows | agent/internal/daemon/restart.go:87-90 | The backoff grows with the attempt up to the cap, and the shifted nanoseconds fit an int64. |
| CrashPolicy.Backoff | agent/internal/daemon/restart.go:87-90 | The backoff is a second before the first restart, doubles for the next thirty, and never exceeds the cap. |
| CrashPolicy.CrashOutcome | agent/internal/daemon/restart.go:24-85 | The exit of a wanted app: it is the first crash after a run of at least the minimal uptime and one more otherwise, with the defaults of 15 restarts and one second, and a timer is to be armed exactly when the maximum is not exceeded. |
| CrashPolicy.OtherExit | agent/internal/daemon/restart.go:55-64 | The exit of an app not wanted, or with a maximum of 0 or less, is forgotten. |
| CrashPolicy.FailedStart | agent/internal/daemon/restart.go:108-113 | A restart that fails when it begins goes through the policy as one more crash; any other start that fails leaves no trace. |
| CrashPolicy.FailedSpawn | agent/internal/daemon/restart.go:108-113 | The same when the process cannot be spawned. |
| CrashPolicy.ExitReported | agent/internal/daemon/apps.go:75-91 | The exit of an app's process is reported and the process is no longer the app's, whether or not descendants live on. |
| CrashPolicy.ContainersStop | agent/internal/daemon/apps.go:95-124 | Stopped containers are down, and a restart goes on, exactly when the engine took them down. |
| Restarts.StepKeepsSup | agent/internal/daemon/restart.go:48-129 | Every step keeps: an armed timer belongs to exactly one cell and starts the app of that cell, every pointer leads to a cell of its app, and a cell without a timer is about to get one. |
| Restarts.OneTimer | agent/internal/daemon/restart.go:67-115 | At most one timer of an app is armed at any time, stops, syncs, reboots and overlapping calls included, in every run in which no stop of it and no sync dropping it comes between counting a crash and arming its timer. |
| Restarts.DetachKeepsIff | agent/internal/daemon/restart.go:78-129 | A stop of the app or a sync dropping it keeps "one live cell", from which that follows, exactly when no timer of the app is about to be armed. |
| AgentRuns.TwoTimers | agent/internal/daemon/restart.go:78-115 | A concrete run from the initial state with a restart command in between, after which two timers of the app are armed. |
| Restarts.StopEndsTimers | agent/internal/daemon/restart.go:118-129 | After such a run every stop of the app, and every sync dropping it, leaves no armed timer of it and no bookkeeping. |
| Restarts.CrashLoopBudget | agent/internal/daemon/restart.go:61-116 | Over any run, the restarts scheduled for an app since its last healthy exit are at most max_restarts times one plus the number of stops of it, syncs dropping it and reboots that took effect since then. |
| Restarts.CrashLoopEnds | agent/internal/daemon/restart.go:67-85 | Over any run in which nothing renews the budget and no run of the app is healthy, its restarts are exactly as many as its counted crashes, up to max_restarts, and then none. |
| Restarts.HealthyExitForgives | agent/internal/daemon/restart.go:73-85 | The exit of a run of at least the minimal uptime is counted as the first crash and schedules a restart, whatever came before. |
| GivingUp.StepAbandons | agent/internal/daemon/restart.go:80-85 | An app given up stays down through every step that is no command for it, no sync dropping it and no reboot. |
| GivingUp.StaysAbandoned | agent/internal/daemon/restart.go:138-171 | Over any such run neither timer nor reconcile nor a changed definition spawns it. |
| GivingUp.AbandonedIff | agent/internal/daemon/restart.go:80-99 | A crash ends in that state exactly when it is one too many and no earlier timer is still armed. |
| GivingUp.GivenUpYetStarted | agent/internal/daemon/restart.go:80-108 | With such a timer armed, the app just given up is started again exactly when it is still wanted. |
| AgentRuns.GivenUpYetRunning | agent/internal/daemon/restart.go:80-108 | A concrete run from the initial state reaches that: crash, user start while the timer waits, crash, given up, and the timer runs the app a third time. |
| GivingUp.ReconcileRestartsIff | agent/internal/daemon/restart.go:48-78 | A reconcile after a crash starts the app exactly when no bookkeeping is left, also between looking at the app and counting, and between counting and arming; once the crash is handled to the end, exactly when also max_restarts is 0 or less. |
| StopWins.StepStaysQuiet | agent/internal/daemon/apps.go:95-124 | A stopped app stays stopped through exits, timers, reconciles, reboots and failing saves. |
| StopWins.StopHolds | agent/internal/daemon/restart.go:55-129 | Over any run without a start or restart command for it or a sync that wants it, the app is never spawned and gets no process. |
| StopWins.StopQuietsIff | agent/internal/daemon/daemon.go:362-381 | An executed stop reaches that state exactly when the persisted state no longer says running. |
| AgentRuns.StoppedYetRunning | agent/internal/daemon/daemon.go:362-381 | A concrete run from the initial state: a stop whose saves fail, a second stop that finds nothing to save, a reboot, and the app runs again. |
| StopWins.StopSupersedes | agent/internal/daemon/apps.go:97-104 | A stop takes the process away from its app before waiting for it. |
| StopWins.StartSupersedes | agent/internal/daemon/apps.go:61-63 | So does a newer process of the same app. |
| StopWins.SyncSupersedes | agent/internal/daemon/daemon.go:303-320 | So does a sync that no longer lists the app. |
| StopWins.ExitIgnored | agent/internal/daemon/apps.go:75-91 | Over any later run, the exit of such a process changes nothing but its own watcher. |
| Convergence.SyncLeaves | agent/internal/daemon/daemon.go:257-325 | After a sync with distinct ids the agent has exactly the apps listed, each as listed. |
| Convergence.SyncTwiceIsOnce | agent/internal/daemon/daemon.go:257-325 | Applying the same sync again changes nothing at all. |
| Convergence.SyncDecides | agent/internal/daemon/daemon.go:254-297 | Unchanged definitions keep approval and pid; a changed or new one is approved only if imported here or a container kind. |
| Convergence.SyncApprovesIff | agent/internal/daemon/daemon.go:277-287 | A new definition is approved by the sync itself exactly if it is a container kind or fewer entries before it brought this definition than imports of it are left: each import is used up once. |
| Convergence.SyncTells | agent/internal/daemon/daemon.go:299-301 | The hub is told of exactly the new definitions, each with the approval it got. |
| Convergence.SyncCompleteIff | hub/internal/agenthub/hub.go:242-265 | A sync brings the agent exactly the hub's records if and only if there are no more of them than the query returns and all their definitions decode. |
| Reconciling.ReconcileConvergesIff | agent/internal/daemon/restart.go:138-188 | However the steps of reconcile's goroutines interleave, once all have succeeded a second reconcile does nothing and every approved app without bookkeeping is up exactly when wanted, if and only if no container app to be started is shadowed by a live process; process apps are up exactly when wanted in any case. |
| Reconciling.CanFinish | agent/internal/daemon/restart.go:173-188 | From every point of every such interleaving the actions can all succeed and leave nothing under way. |
| AgentRuns.ShadowedContainer | agent/internal/daemon/apps.go:17-40 | A concrete run from the initial state: a running process app becomes a container app, and reconcile starts it in vain. |
| DockerLogs.Logs | agent/internal/dockerapp/client.go:223-266 | The lines of the joined payloads for a framed stream, the scanner's lines for a terminal stream. |
| DockerLogs.TakeLines | agent/internal/dockerapp/follow.go:61-71 | The loop over the pending text takes off its complete lines, carriage returns trimmed, and leaves the rest. |
| DockerLogs.Follow | agent/internal/dockerapp/follow.go:32-76 | The batches handed to the callback, frame by frame or line by line, until the stream ends or the context is cancelled, which a terminal stream notices only after its first line. |
| DockerLogs.DecodeEncode | agent/internal/dockerapp/client.go:239-250 | Decoding any encoded frames gives back their payloads. |
| DockerLogs.CutFrame | agent/internal/dockerapp/client.go:242-249 | A frame cut short anywhere is not read as a frame. |
| DockerLogs.LogsShowText | agent/internal/dockerapp/client.go:239-265 | For any frames, the last one possibly cut short, the log is exactly the lines of the joined payloads: frame boundaries leave no trace. |
| DockerLogs.FollowShowsLines | agent/internal/dockerapp/follow.go:49-75 | Following delivers the same complete lines in the same order in non-empty batches, and never an unfinished last line. |
| DockerLogs.FollowIsPrefix | agent/internal/dockerapp/follow.go:37-76 | Whenever the context is cancelled, what was delivered are the first lines of what would have been, of a terminal as many as were waited for but at least one. |
| DockerLogs.WrittenLinesShow | agent/internal/dockerapp/client.go:251-264 | The log shows the lines a program wrote, ended by LF or CRLF, and a last line not ended yet as it is. |
| DockerLogs.ScannedIs | agent/internal/dockerapp/client.go:231-238 | A terminal's log is shown up to the first line of a mebibyte or more. |
| DockerLogs.ScannedAllIff | agent/internal/dockerapp/client.go:231-238 | It is shown whole exactly when no line is that long. |
| Sse.Parser.Feed | agent/internal/tokenproxy/parse.go:136-151 | One chunk: its complete lines are consumed in order, the rest is retained. |
| Sse.ChunksDoNotMatter | agent/internal/tokenproxy/parse.go:136-151 | For every way of cutting a body into chunks, the parser ends in the state of one feed of the whole body. |
| Sse.ResultOfStream | agent/internal/tokenproxy/parse.go:136-218 | The row of a response is decided by the events of its complete lines, however it arrived. |
| Sse.Meter | agent/internal/tokenproxy/proxy.go:160-190 | The loop that feeds every read of a streamed response to one parser yields that row, or none. |
| Sse.AnthropicSays | agent/internal/tokenproxy/parse.go:168-187 | The output is that of the last event carrying a count; input, cache creation and cache reads are those fields of the last start that has usage; the name is that of the last start; what no event says is 0; and there is a row exactly when there are a count and a start. |
| Sse.OpenAISays | agent/internal/tokenproxy/parse.go:188-218 | The key is the first id, the model the last one named, the counts those of the last chunk with usage, each in its own field under either naming, and there is a row exactly when there are an id and usage. |
| Sse.StreamEqualsBody | agent/internal/tokenproxy/parse.go:188-210 | An OpenAI stream with one usage chunk yields the row a plain body with that usage yields. |
| Sse.OpenAIRowConserves | agent/internal/tokenproxy/parse.go:97-117 | Every field of the row: cached tokens are split off the prompt, not added, under either naming of the counts, and nothing counts as cache creation. |
| Sse.BufferedIff | agent/internal/tokenproxy/parse.go:28-34 | A plain body is buffered whole exactly when no byte arrives after the cap has been reached. |
| EventStream.SameLinesIff | agent/internal/tokenproxy/parse.go:136-143 | The parser finds the lines of section 9.2.5 of the WHATWG HTML Living Standard exactly when every CR of the body is directly followed by an LF and no complete line has a byte order mark in front. |
| EventStream.SameEventsIff | agent/internal/tokenproxy/parse.go:136-151 | For such a body it reads, for every JSON decoder, the events of section 9.2.6 exactly when every event has at most one data line that says something and none is left open at the end but the end mark. |
| EventStream.AgreesIff | agent/internal/tokenproxy/parse.go:136-151 | It reads the lines and the events of the standard exactly when all three conditions hold. |
| EventStream.LoneReturn | agent/internal/tokenproxy/parse.go:136-143 | A body with lone CRs of which the standard reads an event and the parser nothing. |
| EventStream.TwoDataLines | agent/internal/tokenproxy/parse.go:141-150 | An event of two data lines that the parser reads as two events. |
| EventStream.OpenAtTheEnd | agent/internal/tokenproxy/parse.go:141-150 | An event without an empty line after it that the standard discards and the parser reads. |
| EventStream.AgreesByAccident | agent/internal/tokenproxy/parse.go:136-151 | With lone CRs the events can agree for every decoder while the lines do not, so agreement of the events alone is no condition on line ends. |
| EventStream.TrimSpaceTrims | agent/internal/tokenproxy/parse.go:144 | Trimming of ASCII text has the properties these results ask of trimming. |
| Words.PrefixIffComponents | agent/internal/daemon/tokens.go:32 | Component lists are prefixes exactly when the strings are equal or the shorter one plus a separator is a prefix. |
| Attribution.ResolveAppByCwd | agent/internal/daemon/tokens.go:14-37 | Visiting the apps in any order finds a longest covering directory, or nothing when none covers. |
| Attribution.CoversIffAncestor | agent/internal/daemon/tokens.go:32 | The string test is "same directory or ancestor" by whole components, except that the root covers only itself. |
| Attribution.DeepestAncestor | agent/internal/daemon/tokens.go:14-37 | With distinct clean directories the app found is the deepest ancestor's, and no visiting order finds another. |
| Attribution.NoneIff | agent/internal/daemon/tokens.go:10-13 | Nothing is found exactly when no app directory is the path or a non-root ancestor. |
| Pricing.PricingTable.Parse | hub/internal/tokens/pricing.go:55-73 | The table becomes exactly the decoded entries with an input or output price, unchanged, if there is one; otherwise the old one stays. |
| Pricing.PricingTable.Lookup | hub/internal/tokens/pricing.go:75-90 | The exact entry, else the longest listed name the model extends by a dash and that has a dash itself, else none. |
| Pricing.PricingTable.Cost | hub/internal/tokens/pricing.go:92-103 | A row is priced exactly when such an entry exists, by that entry; otherwise it costs nothing. |
| Pricing.CostPerKind | hub/internal/tokens/pricing.go:98-101 | Each of the four kinds of tokens is charged at its own price. |
| Pricing.CostAdds | hub/internal/tokens/pricing.go:98-101 | Two usages of one model cost together what they cost apart. |
| Pricing.FrontIsFallback | hub/internal/tokens/pricing.go:83-88 | Joining the first components of a model, at least two, gives a name it falls back to. |
| Pricing.FallbackIsFront | hub/internal/tokens/pricing.go:83-88 | Every such name is one of those joins. |
| Pricing.SuffixIsIgnored | hub/internal/tokens/pricing.go:75-76 | A date appended to a name with a dash is priced like the name, unless listed itself. |
| Pricing.OneWordHasNoVariants | hub/internal/tokens/pricing.go:84 | A variant of a name without a dash is never priced by that name. |

## Left out

- TokenPipeline.ExactlyOnce: keys dropped by the 10,000-row backlog cap or by a shutdown with rows pending are excluded, because the code gives them up; lines over the size limit and first scans of files over the backfill limit are excluded, because the offset is then wrong; for codex keys, so are restarts from a checkpoint whose last save was made in the middle of a codex scan, which bill twice.
- TokenPipeline.DurableOffset: the same exclusions, the last one for the file itself only.
- TokenPipeline.ClaudeExactlyOnce: the keys given up and the two limits.
- TokenPipeline.RunKeeps: the same limits on lines and first scans.
- IncrementalTail.IncrementalIsOnePass: lines within the size limit and a first scan within the backfill limit.
- DownsampleOnce.AtMostOnce: a sample may be late by 9 days 23 hours 50 minutes and a millisecond at most, and DELETEs that succeed come soon enough after those on their source tier; beyond that see DownsampleOnce.SourceInsertsIff.
- DownsampleLossless.IncrementalIsOneRollup: nothing fails and no sample arrives behind the last pass's cutoff, since a row that does is never rolled up.
- Restarts.CrashLoopBudget: the budget is a bound on the policies the app has during the run, as the crash count survives a change of definition.
- Reconciling.ReconcileConvergesIff: the actions succeed and nothing else is under way; overlapping starts of one app are not single-instance in the code.
- EventStream.SameEventsIff: event types, ids and reconnection times, which the parser does not read; bytes that are no UTF-8, which a decoder replaces in both readings; after a lone CR agreement is decided for lines and events together only.
- Attribution.DeepestAncestor: directories are clean absolute paths, which is what resolving symbolic links returns; a directory that does not resolve is compared as written.
- Rewrites of a transcript that do not shrink it, and transcript discovery by modification time.
- Row shape and timestamps of Claude lines beyond the row they decode to; JSON decoding in general.
- The spend alert and the warning about unpriced models, which only notify.
- Status, pid, ports and log streams of apps as shown by the hub; command status, which stale record saves can overwrite.
- Definition validation, which is any predicate here, and edits of records by a database administrator.
- The restart-counter and status events of the agent, environment for the metering proxy, and log files.
- Container and compose calls, process trees, signals: they succeed or fail as the events say.
- The offline buffers of metrics and proxy rows, reconnect backoff, enrollment, signatures and sessions.
- The user interfaces, HTTP and WebSocket serving, migrations and notifications.
