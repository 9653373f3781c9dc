# Kronical in Dafny

Kronical is a daemon that watches which window has the focus and whether somebody is at the
keyboard, and turns this into activity records. This project models the parts of it that carry
state or run concurrently, and proves what they keep, over every run and every interleaving.

The model has six parts.

* **The event chain.** `EventAdapter`, `LockDeriver`, `StateEngine` and `RecordBuilder` are the four
  small state machines behind the daemon's stages, each a class over its fields, each proved against
  a step function. `EnvelopeStage`, `HintsStage` and `SnapshotStage` are the receive loops around
  them. `EventChain` composes them: the four places that know whether the screen is locked agree
  after every command, every hint that reaches the builder splits a record, and every envelope
  handled is accounted for. `RawToEnvelopes` says of the raw events alone which envelopes leave adapter
  and deriver, and `Telling` what the envelope stage tells the others over every run of commands.
  `SnapshotShows` says what the snapshot stage shows of that, `TitlesShown` which title it shows, and
  `RawPersistence` what `CompressionStage` lets through to storage.
* **The pipeline.** `Pipeline` is the interleaved step relation of six threads and five FIFO channels,
  with the sending ends each thread holds and both ways a stage can learn of its end, by message and
  by disconnection. `PipelineInvariant` and `PipelineSafety` prove the shutdown protocol for every
  reachable state, `PipelineProgress` that no schedule runs forever and none gets stuck, and
  `PipelineOutcome` what is in storage and in the last snapshot when all threads have exited.
  `PipelineShown` and `PipelinePersisted` say what is shown and stored in terms of the commands that ingest
  delivered. `PipelineLateEvents` builds the runs in which a raw event comes too late.
* **The focus worker.** `FocusWorker` is the loop that reconciles racing app, window and poll events,
  with its coalescing deadline, pending title, strong and weak title cache. `FocusTitles` has the
  decisions as functions and the theorems about attribution. `LruCache` and `LruRecency` are the cache.
* **Aggregation.** `Accumulation`, `WindowGroups`, `TemporalGroups`, `Aggregation` and `AppSummaries`
  follow `aggregate_activities_since` pass by pass; `Retention` shows that pruning the record queue
  does not change what is aggregated. Hash maps are visited in any order, and ties sort in any order.
* **Path simplification.** `DouglasPeucker` is the daemon's mouse path compression and the variant in
  the benchmark, `BottomUp` the benchmark's elimination with a lazily updated heap.
* **Storage.** `Writer` has both background writers, `Backlog` the counter they share with the
  producer.

`Points`, `Mealy`, `Seqs` and `SetSums` hold points, and the generic facts about runs, sequences and sums. Times
are integers in nanoseconds. Every clock reading is a parameter, or comes from a `Clock` object that only promises
not to run backwards. What comes from outside (the operating system's answers, the process table, the
compression engine, the outcome of a database statement) is arbitrary.

What a maintainer may want to know:

* `README.md:119` of the repository promises that raw input is not persisted while the screen is locked. The code
  does not do this: the compression stage looks for input signals behind a lock, and these are exactly the ones
  that the lock deriver has dropped before (`RawPersistence.NothingIsSuppressed`). So with raw events persisted,
  every batch is forwarded whole, and the promise is kept exactly if nobody uses key or mouse while the login
  window is in front (`RawPersistence.SuppressesIff`, over whole runs `PipelinePersisted.RawsAtTheEnd`);
  `RawPersistence.KeyAtLoginIsStored` is an instance.
* An update carries one focus and one title, and the title is applied last. If a title was collected before the
  last focus, and that focus is of a window with the same identifier and another title, the snapshot shows the new
  window by the old one's title, and in no other case anything but the truth (`TitlesShown.ShownTitleIff`).
  Identifiers of zero are allowed by default, so this may even be a window of another application
  (`TitlesShown.TitleOfAnotherApp`).
* The test for scheduling a report wants a window identifier, the test for making one does not if identifiers of
  zero are allowed. So a title change in a window without one is taken over but schedules no report; such a
  window is reported by an app change, a deadline or a poll that takes it over
  (`FocusWorker.FocusWorker.Turn`).
* After a restart the snapshot shows the state of the hydrated transitions, while the engine starts Inactive, until the
  engine first moves (`PipelineShown.EngineShownIff`).
* The daemon's Douglas-Peucker takes the distance to a chord without length to be zero, so a dropped point is
  within epsilon of its kept neighbours exactly if these differ or it is that near to the one point they are
  (`DouglasPeucker.DroppedWithinEpsilonIff`). A path that returns to its first point is reduced to its two
  ends, whatever lies between (`DouglasPeucker.ClosedPathCollapses`); a hundred pixels to the right and back
  are lost with an epsilon of two (`DouglasPeucker.ThereAndBack`).
* When an app change flushes a pending title, the worker has just recorded the app being left as the
  *previous* app, so a title already remembered for that very app counts as another app's and is
  replaced by `-` (`FocusTitles.FlushKeepsOnlyUnknownTitles`). A title held back is remembered so as it is held
  back, hence it is lost unless the cache has forgotten it by then: `FocusWorker.FlushedExactly` is the exact
  condition, and `FocusWorker.HeldTitleIsLost` shows an editor whose first title comes and goes within the two
  seconds, reported as `-`. That the cache has the held title, or nothing, for the current app is kept by every
  turn until a polled title is taken over (`FocusWorker.FocusWorker.Turn`).
* Two apps come to share a remembered title only by the shortcut that lets the login window be called `Login`
  (`FocusTitles.ReconciledIsOwned`, `FocusTitles.ShortcutSharesATitle`). Once they do, each of them may be
  given the title again without it (`FocusTitles.SharedTitleStays`); `FocusTitles.SharedExactly` has the exact
  condition for an answer that another app is remembered with.
* When reconciling leaves a title open and there is nothing to wait for, the validation that follows never
  replaces it: no other app has the title in either cache by then (`FocusTitles.HeldIsKept`).
* The backlog can be read as 2^64 - 1 for a moment, exactly when the writer is done with the one command
  outstanding before the producer has counted it (`Backlog.WrapsOnlyWhenOvertaken`,
  `Backlog.OvertakingRun`).
* The state table in `README.md:123-129` of the repository has no row for two moves the code makes. A tick takes
  Active to Inactive at once exactly if the last signal is older than both thresholds
  (`StateEngine.TickSkipsPassiveIff`, `StateEngine.PassiveIsSkipped`). And a tick moves up exactly if it is the
  first event a fresh engine hears and comes within a threshold of the start: the engine starts Inactive with
  the present as its last signal (`StateEngine.OnlyTheFirstTickMovesUp`, `StateEngine.FreshEngineBecomesActive`).
* A raw event may arrive in storage's channel behind the shutdown command, where nothing reads it, exactly if
  raw events are persisted at all (`PipelineLateEvents.RawEventsComeLateIff`,
  `PipelineLateEvents.RawEventBehindShutdown`); `PipelineSafety.NothingAfterShutdown` says that nothing but raw
  and compact events does.
* DuckDB's writer does not look at how the rows of a batch of compact events fare, while SQLite's stops at the
  first that fails. So DuckDB could keep a row that SQLite does not, exactly if the database took a row after
  one of the same batch had failed (`Writer.SkippingKeepsMoreIff`, `Writer.SqliteKeepsMoreIff`).

## Model

| member | source | states |
|---|---|---|
| StateEngine.DefaultStateEngine.OnSignal | crates/core/src/events/model.rs:180-219 | a signal takes the engine to the state its step function gives, and reports the change exactly when there is one; a repeated lock or unlock, and input while locked, change nothing |
| StateEngine.DefaultStateEngine.OnTick | crates/core/src/events/model.rs:221-233 | the same for a tick; a locked engine ignores it |
| StateEngine.StateIsComputed | crates/core/src/events/model.rs:159-233 | after every event the state is the one computed for that event's time, unless the event was a hint or an unlock of an unlocked engine, which change nothing; locked and the state Locked stay the same thing |
| StateEngine.ChangesAreReal | crates/core/src/events/model.rs:180-233 | at most one change per event, reported exactly when the state moved, from the old state to the new, which differ |
| StateEngine.StateNeverLags | crates/core/src/events/model.rs:159-233 | over every run the state is the one computed for the last event the engine acted on, and nothing has changed before the first |
| StateEngine.ActivityRestartsTheClock | crates/core/src/events/model.rs:180-219 | over every run the time of the last signal is, read off the events alone, that of the last activity signal heard while unlocked, or the start; lock boundaries, hints and ticks do not count |
| StateEngine.StateFromEvents | crates/core/src/events/model.rs:159-233 | so the state after every run of a fresh engine is a function of three things read off the events: whether the screen is locked, the last activity, and the last event that matters |
| StateEngine.ActivityMakesActive | crates/core/src/events/model.rs:204-215 | an activity signal while unlocked leaves the engine Active, from any state, whenever the grace is not negative |
| StateEngine.ReportsChain | crates/core/src/events/model.rs:180-233 | the changes reported over a run chain from the first state to the last, each of them a real move |
| StateEngine.TickingDoesNotMatter | crates/core/src/events/model.rs:221-233 | two histories with the same signals and any ticks between them reach the same engine at the next tick |
| StateEngine.TicksOnlyFade | crates/core/src/events/model.rs:159-233 | between signals, any number of nondecreasing ticks makes at most two changes, chained and each downward from Active over Passive to Inactive, skipping allowed |
| StateEngine.TickMovesUpIff | crates/core/src/events/model.rs:221-233 | a tick moves up exactly if the engine is unlocked and lower than the age of the last signal calls for |
| StateEngine.OnlyTheFirstTickMovesUp | crates/core/src/events/model.rs:150-172 | over runs of a fresh engine on a clock that does not run backwards: exactly if it is the first event heard and comes within one of the thresholds of the start |
| StateEngine.FreshEngineBecomesActive | crates/core/src/events/model.rs:150-158 | an instance with the default thresholds |
| StateEngine.TickSkipsPassiveIff | crates/core/src/events/model.rs:163-170 | a tick takes Active to Inactive exactly if the last signal is older than both thresholds |
| StateEngine.PassiveIsSkipped | crates/core/src/events/model.rs:163-170 | an instance with the default thresholds |
| EventAdapter.EventAdapter.AdaptBatch | crates/core/src/events/adapter.rs:17-193 | a batch leaves the last focus and the envelopes that running the one-event step over it gives, in order |
| LockDeriver.LockDeriver.Derive | crates/core/src/events/derive_signal.rs:14-79 | the same for lock boundaries, dropping what is suppressed while locked |
| RawToEnvelopes.EnvelopesAreTold | crates/core/src/events/adapter.rs:17-193 | over every stream of raw events the envelopes that leave adapter and deriver are those that a reference without their state gives, and the deriver is locked exactly if the last focus is the login window |
| RawToEnvelopes.InputsPass | crates/core/src/events/adapter.rs:21-52 | the keyboard and mouse envelopes are, in order and with kind, id, time and data, exactly the key and mouse events that arrive while the login window is not in front |
| RawToEnvelopes.HintsPass | crates/core/src/events/adapter.rs:53-189 | the hints are a focus hint with the focus for each focus event that differs in app or window from the focus event before it, and a title hint for each that differs in the title only while unlocked, and no other |
| RecordBuilder.RecordBuilder.OnHint | crates/core/src/records.rs:100-154 | a hint leaves builder and completed record as its step function says, for every kind of hint and payload |
| RecordBuilder.RecordBuilder.FinalizeAll | crates/core/src/records.rs:128-130 | the open record, if any, is returned with its end time and no record is open |
| RecordBuilder.SplitsExactly | crates/core/src/records.rs:100-197 | a hint takes a new identifier exactly if it is a focus hint, a state hint for another state, or a title hint for the focused window; then the open record is closed and one in the new state opened, otherwise nothing changes |
| RecordBuilder.HintsCountRecords | crates/core/src/records.rs:156-178 | n hints that all split close n - 1 records, numbered in order from the first free identifier, and leave one open; none if n is 0 |
| RecordBuilder.FinalizeEmitsAll | crates/core/src/records.rs:128-178 | with the final flush exactly n records exist, numbered without gaps |
| RecordBuilder.RecordsFollowHints | crates/core/src/records.rs:100-197 | record i of a stream of splitting hints is the one hint i opened: its number, the state and focus the hints so far lead to, read off the hints alone, the time of its hint, and the time of the next hint or of the final flush |
| RecordBuilder.RecordsAreConsecutive | crates/core/src/records.rs:156-178 | on a clock that does not run backwards each record ends before the next one starts, and all lie within the run |
| EnvelopeStage.EnvelopeStage.HandleEnvelope | src/daemon/pipeline/envelope.rs:67-115 | one envelope leaves engine and pending update, and is followed by the sends, that its step function gives: hints to the hints stage, signals to storage, a pending transition flushed at once, the derived hint after the signal |
| EnvelopeStage.EnvelopeStage.ProcessBatch | src/daemon/pipeline/envelope.rs:54-143 | a batch ends with the compression job, the pending update if there is one, and a publish; an empty batch does nothing; nothing stays pending |
| EnvelopeStage.EnvelopeStage.ProcessTick | src/daemon/pipeline/envelope.rs:144-173 | a tick that moves the engine sends the hint, the transition and a publish, any other tick sends nothing |
| EnvelopeStage.EnvelopeStage.Receive | src/daemon/pipeline/envelope.rs:52-181 | one command of any kind leaves the state and the sends its handler gives; a shutdown tells the snapshot stage first, then the compression stage, and ends the loop |
| Telling.RunFollows | src/daemon/pipeline/envelope.rs:52-181 | over every run of commands: the engine has heard the signals and ticks, every signal is stored, every focus hint forwarded, the snapshot stage has been told of the application and window now in front, every update tells the state its transition leads to, and every transition names its signal, stored with it, or the idle timeout of a tick |
| Telling.UpdatesArePublished | src/daemon/pipeline/envelope.rs:130-171 | a command that tells the snapshot stage anything ends with a publish |
| EventChain.BatchBoundariesDoNotMatter | crates/core/src/events/adapter.rs:17-193 | adapter and lock deriver emit the same envelopes and reach the same state wherever the stream is cut into batches |
| EventChain.LocksAlternate | crates/core/src/events/derive_signal.rs:14-79 | over the whole stream lock start and lock end alternate, between them pass only focus hints of the login window, outside of them none does, and the deriver is locked at the end exactly if the login window was focused last |
| EventChain.EventExpected | crates/core/src/events/adapter.rs:53-189 | the envelopes of one raw event, taken through engine and hints, are each as expected where they arrive, and leave the engine locked exactly if the login window is focused |
| EventChain.HandleSound | src/daemon/pipeline/envelope.rs:52-181 | after every command the focus, the deriver, the engine and the engine's state agree on being locked; all hints sent split a record; the deltas sent add up to the envelopes handled; the updates carry every state hint's move once, in order |
| EventChain.RunSound | src/daemon/pipeline/envelope.rs:52-181 | the same over every run of commands |
| EventChain.GoodHintsChain | src/daemon/pipeline/envelope.rs:99-112 | in a stream of good hints each move starts in the state the one before it reached, and really moves |
| EventChain.FocusRecordsAreLockedExactly | crates/core/src/records.rs:132-178 | over every run of good hints each record that a focus hint opened, closed since or flushed at the end, is about that focus, and Locked exactly if that is the login window |
| HintsStage.HintsStage.Receive | src/daemon/pipeline/hints.rs:25-38 | a hint is stored, and the record it completes, stamped with the run, goes to storage and then to the snapshot stage |
| HintsStage.HintsStage.Disconnected | src/daemon/pipeline/hints.rs:40-51 | the open record is flushed the same way, and the end of the hints is announced last |
| CompressionStage.CompressionStage.FindSuppressed | src/daemon/pipeline/compression.rs:97-109 | the identifiers of the input signals behind the last lock boundary, if it was a lock, of the same batch |
| CompressionStage.CompressionStage.ForwardRawEvents | src/daemon/pipeline/compression.rs:88-125 | focus events, and the input events whose identifiers are not among these, are sent in order |
| CompressionStage.CompressionStage.Process | src/daemon/pipeline/compression.rs:40-73 | a job that is not empty sends these, if raw events are persisted, and then what it was compacted to |
| RawPersistence.NothingIsSuppressed | src/daemon/pipeline/compression.rs:97-109 | of the envelopes of any raw events, wherever a batch of them starts, no identifier is ever suppressed |
| RawPersistence.SuppressesIff | src/daemon/pipeline/compression.rs:88-125 | the raw events forwarded of a batch are all of them, and are those without input at the login window exactly if there is none |
| RawPersistence.KeyAtLoginIsStored | src/daemon/pipeline/compression.rs:111-124 | an instance: a key pressed at the login window, which no envelope tells of, is forwarded |
| RawPersistence.JobsFollow | src/daemon/pipeline/envelope.rs:121-128 | over every run of commands the compression stage is handed each batch that is not empty once, whole, in order, with the envelopes told of it |
| SnapshotStage.SnapshotStage.constructor | src/daemon/pipeline/snapshot_stage.rs:61-102 | hydrated records and transitions are taken over, the last transition gives the state, and a snapshot is published before any message |
| SnapshotStage.SnapshotStage.ApplyUpdateInPlace | src/daemon/pipeline/snapshot_stage.rs:222-260 | counts saturate, focus and state come before the title, which only reaches the same window, and a transition goes to the bus and to storage once; what is known and shown after any run of these is `SnapshotShows.MessageShows` |
| SnapshotStage.SnapshotStage.UpdateRecords | src/daemon/pipeline/snapshot_stage.rs:268-288 | a record is appended and counted |
| SnapshotStage.SnapshotStage.PublishNow | src/daemon/pipeline/snapshot_stage.rs:338-373 | the front of the queue is pruned of all records that ended before the retention window, and what is left is published |
| SnapshotStage.SnapshotStage.MaybeFinalizeNow | src/daemon/pipeline/snapshot_stage.rs:290-335 | it stops exactly if both ends are reported and storage was not yet shut down, and then publishes and sends the shutdown |
| SnapshotStage.SnapshotStage.Receive | src/daemon/pipeline/snapshot_stage.rs:104-192 | one message leaves the state and the sends its handler gives, and the loop stops exactly with the storage shutdown |
| SnapshotStage.SnapshotStage.Disconnected | src/daemon/pipeline/snapshot_stage.rs:194-216 | when all senders are gone the last snapshot and the storage shutdown are sent unless they already were |
| SnapshotShows.MessageShows | src/daemon/pipeline/snapshot_stage.rs:104-192 | every message keeps, as long as all updates tell the state truly, that the last transition is the last on the bus, the state known is the one it led to, the application and window are those last told, every snapshot ever published showed the state of its last transition, and each transition told has gone to storage, stamped with the run |
| SnapshotShows.QuietMessage | src/daemon/pipeline/snapshot_stage.rs:117-190 | exactly a publish and the final shutdown publish, once each, and what is published is the state, focus and transition known then |
| SnapshotShows.GoneShows | src/daemon/pipeline/snapshot_stage.rs:194-216 | the same holds of the last snapshot when all senders are gone |
| TitlesShown.ToldTitlesMatch | crates/core/src/events/adapter.rs:134-148 | over every stream of raw events each title told is about the window then in front |
| TitlesShown.UpdateCollects | src/daemon/pipeline/envelope.rs:64-143 | a batch in which the engine does not move is one update with the last focus and the last title of its envelopes |
| TitlesShown.ShownTitleIff | src/daemon/pipeline/snapshot_stage.rs:234-246 | the focus shown after such an update is the one that the envelopes lead to one by one, exactly unless the title was collected before the last focus, whose window has the same identifier and another title |
| TitlesShown.TitleOfAnotherApp | src/daemon/pipeline/snapshot_stage.rs:240-246 | an instance in which the other window is of another application |
| PipelineSafety.FinalizeExactly | src/daemon/pipeline/snapshot_stage.rs:139-190 | storage is shut down on a message precisely when that message is one of the two marks and both have now been seen, and then the shutdown is all that is sent |
| PipelineSafety.ReachableHolds | src/daemon/pipeline.rs:72-199 | the invariant of the shutdown protocol holds in every state of every interleaving |
| PipelineSafety.NothingAfterShutdown | src/daemon/pipeline/snapshot_stage.rs:290-335 | in every reachable state at most one storage shutdown was ever sent, and behind it there are only raw and compact events of the compression thread, so every record, envelope and transition is ahead of it |
| PipelineSafety.NobodyElseSpeaksToStorage | src/daemon/pipeline/hints.rs:25-51 | once the shutdown is in the queue, the envelope, hints and snapshot threads have stopped and hold no send to storage, then and in every later state, on the message path and on the disconnect path |
| PipelineSafety.EarlyExitsAreNeverTaken | src/daemon/pipeline/envelope.rs:77-142 | in no reachable state does a send find its channel closed, except one of the compression thread to storage, which ends no loop |
| PipelineInvariant.OnlyCompressionIsLost | src/daemon/pipeline/envelope.rs:117-142 | the same from the invariant alone |
| PipelineSafety.StorageNeverDisconnected | src/daemon/pipeline/storage.rs:15-47 | storage always meets its shutdown command before it could see its channel disconnected |
| PipelineProgress.StepLowers | src/daemon/pipeline.rs:106-198 | every step after ingest stopped lowers what is left to do, level by level from upstream to downstream |
| PipelineProgress.PipelineTerminates | src/daemon/pipeline.rs:106-198 | no infinite schedule exists from a reachable state in which ingest has stopped |
| PipelineProgress.NeverStuck | src/daemon/pipeline.rs:55-68 | in every reachable state after ingest stopped, until all threads have exited and dropped everything, some step is possible |
| PipelineLateEvents.ShutdownWithoutCompression | src/daemon/pipeline/snapshot_stage.rs:290-335 | from every state of the invariant in which ingest has stopped, the other threads get storage told to shut down without a step of the compression or storage thread |
| PipelineLateEvents.RawEventBehindShutdown | src/daemon/pipeline/compression.rs:112-125 | if raw events are persisted, there is for each of them a reachable state with that event behind the shutdown command |
| PipelineLateEvents.RawEventsComeLateIff | src/daemon/pipeline/compression.rs:69-76 | a raw event can come behind the shutdown command exactly if raw events are persisted |
| PipelinePersisted.RawsSoFar | src/daemon/pipeline/compression.rs:38-77 | in every reachable state what has reached storage's channel of the raw events is a front part of what the jobs taken so far contain |
| PipelinePersisted.RawsAtTheEnd | src/daemon/pipeline/compression.rs:38-125 | at the end of every run the compression thread has sent each raw event that ingest delivered once and in order, or none if they are not persisted; input while locked is suppressed exactly if there was none; and what reached storage's channel is a front part |
| PipelineOutcome.RecordsAtTheEnd | src/daemon/pipeline/hints.rs:25-51 | at the end of every run storage holds one record per hint, numbered without gaps from the first free identifier, each with the state, focus and times of its hint and the next, stamped with the run; the snapshot stage was given the same records in the same order; and every hint and signal is stored in order |
| PipelineOutcome.LockedRecordsAtTheEnd | src/daemon/pipeline/hints.rs:25-51 | at the end of every run each stored record that a focus hint opened is about that focus, and Locked exactly if that is the login window |
| PipelineOutcome.ShutdownExactlyOnce | src/daemon/pipeline/snapshot_stage.rs:290-335 | at the end of every run storage has been told to shut down exactly once, and has kept exactly what came before |
| PipelineOutcome.TransitionsAtTheEnd | src/daemon/pipeline/snapshot_stage.rs:247-259 | at the end of every run storage and the bus hold each move of the engine exactly once and in order, chained from Inactive to the engine's last state |
| PipelineOutcome.CountsAtTheEnd | src/daemon/pipeline/snapshot_stage.rs:231-232 | the last published snapshot of every run counts as many records as hints, which are all the hints derived, and all signals stored, up to 64-bit saturation |
| PipelineShown.EnvelopeFollows | src/daemon/pipeline/envelope.rs:52-181 | in every reachable state the envelope thread has told the others what the commands it took call for |
| PipelineShown.EngineFollows | src/daemon/pipeline/envelope.rs:52-181 | in every reachable state the engine's state is the function of the signals and ticks of these commands that the engine's law gives |
| PipelineShown.ShownStateIsRight | src/daemon/pipeline/snapshot_stage.rs:104-192 | in every reachable state the state known is the one the last transition on the bus led to, and so it was in every snapshot published |
| PipelineShown.ShownAtTheEnd | src/daemon/pipeline/snapshot_stage.rs:290-335 | the last snapshot of every run shows the application and window of the last focus event delivered, and the engine's state if it ever moved, else the hydrated one |
| PipelineShown.EngineShownIff | src/daemon/pipeline/snapshot_stage.rs:67-84 | the last snapshot shows the engine's state exactly if the engine moved or the hydrated state is Inactive |
| PipelineShown.RawEventsAtTheEnd | src/daemon/pipeline/envelope.rs:52-181 | at the end of every run storage holds each key and mouse event delivered while the login window was not in front, once and in order, with id, time and data, and the hints about the focus are exactly those due to the focus events delivered |
| PipelineShown.TransitionsAreExplained | src/daemon/pipeline/envelope.rs:231-241 | at the end of every run each stored transition names the run, and a signal stored with its time or the idle timeout of a tick at its time |
| LruCache.LruCache.GetCloned | crates/common/src/lru.rs:33-46 | a hit exactly if the key is present and not older than the time to live, then stamped anew; an expired entry is removed; never more entries than the capacity |
| LruCache.LruCache.Put | crates/common/src/lru.rs:48-52 | the entry is inserted and, over capacity, one entry with the least timestamp goes |
| LruCache.LruCache.EvictIfNeeded | crates/common/src/lru.rs:77-89 | among entries with the least timestamp any one may go |
| LruCache.LruCache.AnyEntryMatches | crates/common/src/lru.rs:54-75 | found exactly if some unexpired entry matches, in whatever order entries are visited; only a fruitless search removes expired entries, and then all of them |
| LruRecency.HoldsMostRecent | crates/common/src/lru.rs:33-89 | in every run without time to live on a strictly increasing clock the cache holds exactly the most recently touched distinct keys, as many as fit, with their values |
| LruRecency.HitsAreRecentAndLatest | crates/common/src/lru.rs:33-89 | the next lookup hits exactly if the key is among them, and answers the value put last |
| FocusTitles.SharedExactly | src/daemon/tracker/focus.rs:354-404 | for all caches, reconciling answers with a title another app is remembered with exactly if another app is remembered with the pending title and either the login shortcut applies, or the app is remembered with it too and the previous app does not match |
| FocusTitles.ShortcutSharesATitle | src/daemon/tracker/focus.rs:360-362 | a case in which sharing begins, by the shortcut |
| FocusTitles.SharedTitleStays | src/daemon/tracker/focus.rs:377-379 | a case in which it goes on without the shortcut |
| FocusTitles.FlushKeepsOnlyUnknownTitles | src/daemon/tracker/focus.rs:427-479 | a title flushed by an app change survives exactly if the login shortcut applies or no cache knows it, for this app or another |
| FocusTitles.HeldTitleIsFlushed | src/daemon/tracker/focus.rs:427-540 | while the weak cache has the held title for its app, or nothing, the title survives leaving that app exactly if the login shortcut applies, or if the cache has lost or outlived it and no app is known by it, and gives way to the placeholder otherwise |
| FocusWorker.FlushedExactly | src/daemon/tracker/focus.rs:434-479 | leaving an app with a title held back makes exactly one report, with that title or with the placeholder under the same condition |
| FocusWorker.HeldTitleIsLost | src/daemon/tracker/focus.rs:434-540 | an instance: a title just held back, and nothing else remembered, is reported as the placeholder when its app is left within the time to live |
| FocusTitles.HeldIsKept | src/daemon/tracker/focus.rs:953-965 | a title left open by reconciling is kept by the validation that follows |
| FocusTitles.OpenExactly | src/daemon/tracker/focus.rs:354-404 | reconciling answers the placeholder exactly if the shortcut does not apply and the previous app matches, or another app has the title and this one is not remembered with it; and leaves it open exactly if nobody is known by it |
| FocusTitles.ValidatedIsJustified | src/daemon/tracker/focus.rs:323-352 | an adopted title is the app's own or left in neither cache for another; the placeholder is given for a title only if the strong cache lacks it for the app and another app has it in the strong cache, or had it, unexpired, in the weak one |
| FocusTitles.ReconciledIsOwned | src/daemon/tracker/focus.rs:354-404 | whatever reconciling answers is no title another app is remembered with, but for the shortcut |
| FocusTitles.NoMisattribution | src/daemon/tracker/focus.rs:285-404 | over a log of reports the worker may make, no report gives an app the title that another app was last reported with, as long as the cache still remembered that app, and it does if the apps reported with a title fit it; but for the shortcut |
| FocusWorker.FocusWorker.ValidateTitleWithWeak | src/daemon/tracker/focus.rs:323-352 | the title itself, or the placeholder, as the strong and then the weak cache say at the time they are asked; the title itself only if no other app is left with it or this one is remembered with it, the placeholder only if another app has it |
| FocusWorker.FocusWorker.ReconcileWindowTitle | src/daemon/tracker/focus.rs:354-404 | the decision the function of both caches gives for the readings of the clock it took; the titles of the strong cache stay |
| FocusWorker.FocusWorker.AdoptTitle | src/daemon/tracker/focus.rs:664-675 | a title taken over is remembered weakly first and then exactly the validated one, against the strong cache and the weak cache so changed; it is no other app's |
| FocusWorker.FocusWorker.DecideTitle | src/daemon/tracker/focus.rs:544-599 | the title shown is the one of the reconcile decision, for the readings of the clock it took, and none only if the decision is open and a deadline is armed |
| FocusWorker.FocusWorker.RecordLastAppWindow | src/daemon/tracker/focus.rs:285-296 | a title is remembered for its app unless it is missing or the placeholder |
| FocusWorker.FocusWorker.Emit | src/daemon/tracker/focus.rs:989-1004 | the current state is reported once and its title remembered; no title becomes shared and the log stays faithful to the cache |
| FocusWorker.FocusWorker.ChangeApp | src/daemon/tracker/focus.rs:427-517 | the report for the app left, if any is due, then the new app with an empty title, a fresh deadline, an emit scheduled after the delay of its kind, and a poll awaited |
| FocusWorker.FocusWorker.HandleAppChange | src/daemon/tracker/focus.rs:419-518 | nothing for the app and process already current; otherwise they are current afterwards without a title, the app left is the previous one, a poll is awaited, an emit scheduled, and at most one report made |
| FocusWorker.FocusWorker.SettledWindowChange | src/daemon/tracker/focus.rs:600-622 | while nothing is reconciled, the title becomes the vetted one, fairly as above, and an emit is scheduled after the settle delay if the state is complete |
| FocusWorker.FocusWorker.ReconciledWindowChange | src/daemon/tracker/focus.rs:531-599 | while reconciling without a deadline to wait for, the title is held back exactly if the decision is open and a deadline armed, and otherwise the decided one is shown and reconciling ends |
| FocusWorker.FocusWorker.HoldBack | src/daemon/tracker/focus.rs:533-541 | a title that comes before the deadline is remembered weakly for its app and becomes the pending one, and nothing else changes |
| FocusWorker.FocusWorker.HandleWindowChange | src/daemon/tracker/focus.rs:519-640 | an empty or unchanged title does nothing; while the deadline is open a title is only held back and remembered weakly; otherwise it or the placeholder is shown, nothing else of the state changes but the login window's missing identifier, reconciling ends, and an emit is scheduled if the state is complete |
| FocusWorker.FocusWorker.HandleAppChangeInfo | src/daemon/tracker/focus.rs:641-691 | ignored, without effect, exactly if it is about another app while reconciling; otherwise app, process and window are taken over with a vetted title, and reconciling ends |
| FocusWorker.FocusWorker.HandleWindowChangeInfo | src/daemon/tracker/focus.rs:692-742 | the same guard; app and start time change only with the process, and the title is the vetted one |
| FocusWorker.FocusWorker.Resync | src/daemon/tracker/focus.rs:762-845 | a poll takes over the window exactly if it ends a lock or confirms the app awaited, and otherwise leaves state and mode alone |
| FocusWorker.FocusWorker.NoticeTitleChange | src/daemon/tracker/focus.rs:849-886 | a polled title change follows the process if it is another one, takes the vetted title and the window, and schedules an emit at once if the state is complete |
| FocusWorker.FocusWorker.WatchTitle | src/daemon/tracker/focus.rs:846-888 | the polled title counts as changed exactly if the window was remembered with another one then, and is remembered for the window in any case |
| FocusWorker.FocusWorker.HandlePolled | src/daemon/tracker/focus.rs:751-889 | ignored exactly under the guard; otherwise the window is taken over as by a resync, and the title compared with the one last polled and remembered; a title it adopts is nobody else's |
| FocusWorker.FocusWorker.HandlePollFailed | src/daemon/tracker/focus.rs:890-921 | the login screen is reported exactly for the first lock-like failure while the login window is current |
| FocusWorker.FocusWorker.SettleCoalesce | src/daemon/tracker/focus.rs:927-986 | only a deadline that has passed does anything: then a pending title gives way to the one of the reconcile decision, no deadline is armed and reconciling is over |
| FocusWorker.FocusWorker.EmitIfDue | src/daemon/tracker/focus.rs:988-1006 | exactly a due emit of a complete state is made, once |
| FocusWorker.FocusWorker.Dispatch | src/daemon/tracker/focus.rs:417-925 | each kind of message has its own effect on app, process, title, deadline and scheduled report, and cuts the turn short exactly under the guards of the code; while reconciling only an app change changes the app; and every report stays complete |
| FocusWorker.FocusWorker.FinishTurn | src/daemon/tracker/focus.rs:927-1006 | at the end of a turn no deadline that had passed is still armed and no complete state waits for a report that is due |
| FocusWorker.FocusWorker.Turn | src/daemon/tracker/focus.rs:406-1007 | the same of every turn not cut short; a stop changes nothing; at the end of every turn the weak cache has the title held back for the current app, or nothing, unless a polled title has been taken over since; and unsolicited news of a window without an identifier is neither reported nor scheduled |
| FocusWorker.FocusWorker.Run | src/daemon/tracker/focus.rs:406-1007 | over every sequence of messages, polls and clock readings: the inputs up to the first stop are taken in order, a pending title means an armed deadline and is what the weak cache has for the current app if anything, no remembered title is shared, every report was about an app that owned its title, and every report has an app, a title, a process and, if wanted, a window |
| Accumulation.AddToWindow | crates/core/src/records.rs:242-263 | a clip makes or updates its window's entry exactly if the focus has a title and a window |
| Accumulation.AddRecord | crates/core/src/records.rs:211-264 | a record adds its clip to its app, and nothing if it has no focus or counts less than a second |
| Accumulation.Accumulate | crates/core/src/records.rs:208-265 | the map of apps is the one the accumulation function gives |
| Accumulation.TotalsAreExact | crates/core/src/records.rs:210-265 | an app is present exactly if its clipped records count a second or more, with their sum as its total; the same for each of its windows and the titled records about it |
| Accumulation.CountsWholeSeconds | crates/core/src/records.rs:211-220 | a record counts the whole seconds it lasted within the period, and its clip starts and ends where that stretch does |
| Accumulation.TotalsAreTheTime | crates/core/src/records.rs:210-240 | an app's total is the time its records lasted within the period, less than a second short per record |
| Accumulation.AppIsTheFirst | crates/core/src/records.rs:222-235 | an app has the name, process and start time of the first record that counts for it |
| Accumulation.SeenIsExact | crates/core/src/records.rs:239-262 | app and window are seen from the first start to the last end of their clips, and a window counts its clips |
| Accumulation.WindowsAddUp | crates/core/src/records.rs:238-263 | an app's windows add up to its titled time, which is at most its total |
| Accumulation.TitleIsTheLast | crates/core/src/records.rs:242-263 | a window's entry has the title of the last record that counts for it, whatever it was called before |
| Accumulation.TitledRecordsLoseNothing | crates/core/src/records.rs:242-263 | with equality if every record of the app has a title and a window |
| Accumulation.AppsAddUp | crates/core/src/records.rs:210-240 | all apps together have the counted time of all records |
| Accumulation.NoSecondCountsTwice | crates/core/src/records.rs:156-240 | the records of a stream of hints on a nondecreasing clock, with the one flushed at the end, count for all apps together at most the seconds between since and now |
| WindowGroups.GroupEphemeral | crates/core/src/records.rs:267-306 | in any order of visiting, the groups are the classes of short windows by title that have enough members, with their time and span, and exactly their members leave the windows |
| TemporalGroups.BuildTemporalGroup | crates/core/src/records.rs:382-413 | the group has the members, their saturated total, longest duration and span |
| TemporalGroups.ScanTitle | crates/core/src/records.rs:325-351 | the scan makes a group of each stretch without a gap of more than an hour that has two windows or more, in order, and no other |
| TemporalGroups.RunIsComponent | crates/core/src/records.rs:319-346 | in a descending sequence a stretch without a gap is a connected component of the windows at most an hour apart |
| TemporalGroups.ComponentIsRun | crates/core/src/records.rs:319-346 | and every component is such a stretch |
| Aggregation.SortByLastSeen | crates/core/src/records.rs:324-324 | a descending permutation, ties in any order |
| Aggregation.ScanFindsComponents | crates/core/src/records.rs:308-351 | the groups of a title are exactly its connected components of two windows or more, each once |
| Aggregation.GroupTemporal | crates/core/src/records.rs:308-359 | the same for all titles together, and exactly the grouped windows leave the normal lane |
| Aggregation.Trim | crates/core/src/records.rs:361-374 | all windows if they fit or there is no limit, otherwise as many as allowed, each seen no earlier than any dropped |
| AppSummaries.LanesPartition | crates/core/src/records.rs:267-359 | every window of an app is in exactly one of the normal, ephemeral and temporal lanes, and in one group at most |
| AppSummaries.RestIsIsolated | crates/core/src/records.rs:319-359 | a window left in the normal lane has no other window of its title within an hour, unless that is in an ephemeral group |
| AppSummaries.LanesConserveTime | crates/core/src/records.rs:267-359 | before trimming the three lanes have the time of the app's windows |
| AppSummaries.LanesHoldTitledTime | crates/core/src/records.rs:208-359 | which is the clipped time of its titled records, at most its total |
| AppSummaries.AggregateActivitiesSince | crates/core/src/records.rs:200-380 | one summary per app that counts, latest first, each with lanes and trimmed windows as above |
| Retention.PublishAggregatesAll | src/daemon/pipeline/snapshot_stage.rs:355-373 | at every publish of every run with nondecreasing clock, at the start, on a message and on the way out, the records published are those ever received from the first on that was not over before the window, and aggregate to the same as all of them |
| Retention.LastPublish | src/daemon/pipeline/snapshot_stage.rs:194-216 | the publish on disconnection, made exactly if storage was not shut down before, aggregates all of them too |
| DouglasPeucker.FarthestIsFirstMaximum | src/daemon/compressor.rs:248-258 | the point found is the first with the largest distance, and none if no distance is positive |
| DouglasPeucker.FindFarthest | src/daemon/compressor.rs:248-258 | the scan returns that point and its distance |
| DouglasPeucker.Simplify | src/daemon/compressor.rs:243-269 | the recursion terminates and returns the simplified path |
| DouglasPeucker.KeepsASelection | src/daemon/compressor.rs:260-268 | the result is the path at an increasing selection of indices with both ends |
| DouglasPeucker.DroppedPointsAreNear | src/daemon/compressor.rs:260-268 | every dropped point is not too far from the chord between the two kept points around it |
| DouglasPeucker.KeptPointsAreNeeded | src/daemon/compressor.rs:260-268 | every inner point kept is too far from a chord between two kept points, and farthest from it |
| DouglasPeucker.CollapsesIff | src/daemon/compressor.rs:260-268 | a path is reduced to its ends exactly if none of its points is too far from their chord |
| DouglasPeucker.SimplifyingTwice | src/daemon/compressor.rs:243-269 | simplifying is idempotent |
| DouglasPeucker.TooFarIsTrueDistance | src/daemon/compressor.rs:271-289 | for a chord with length, a point is too far exactly if every point of the line is farther than epsilon from it |
| DouglasPeucker.DroppedWithinEpsilonIff | src/daemon/compressor.rs:243-289 | a dropped point is within epsilon of the line through its kept neighbours exactly if these differ, or if it is that near to the one point they are |
| DouglasPeucker.ClosedPathCollapses | src/daemon/compressor.rs:284-288 | a path that ends where it began is reduced to its ends, for every epsilon that is not negative |
| DouglasPeucker.FarPointOfClosedPathIsLost | src/daemon/compressor.rs:284-288 | and then an inner point is within epsilon of them exactly if it lies that near to the start |
| DouglasPeucker.ThereAndBack | src/daemon/compressor.rs:284-288 | an instance in which a point a hundred pixels away is dropped |
| DouglasPeucker.SegmentIsSound | benchmarks/compressor/mouse_traj.rs:390-419 | selection, nearness and idempotence for the benchmark's recursion, for any distance function and tolerance |
| BottomUp.RemoveKeepsLinks | benchmarks/compressor/mouse_traj.rs:658-660 | taking out an interior point and relinking its neighbours keeps the links exactly between neighbouring live points |
| BottomUp.RemovePoint | benchmarks/compressor/mouse_traj.rs:658-668 | the arrays stay linked, every live interior point keeps an entry with its present error, and one point fewer is live |
| BottomUp.LeastIsCheapest | benchmarks/compressor/mouse_traj.rs:643-658 | a least entry that is up to date and within eps belongs to a point within eps of its neighbours, to which, up to the tolerance, no live point is nearer |
| BottomUp.FarPointsStay | benchmarks/compressor/mouse_traj.rs:643-657 | nothing is eliminated of a path whose points are all farther than eps from their neighbours |
| BottomUp.Visit | benchmarks/compressor/mouse_traj.rs:643-668 | a turn takes out no point, or one within eps of its neighbours at that moment to which up to the tolerance no live point is nearer; it stops with every live interior point farther than the tolerance allows, or lowers live points, stale entries and heap size lexicographically |
| BottomUp.Simplify | benchmarks/compressor/mouse_traj.rs:625-680 | it terminates; points were eliminated in an order in which each was within eps and cheapest when its turn came, the rest is returned in order, with both ends, every inner point with an error above eps less the tolerance; and a path of far points is returned as it is |
| Writer.DuckDbWriter | crates/storage/src/duckdb.rs:183-379 | the table ends up with what each block of a hundred commands wrote after its last rollback, of an unchecked batch every row the database took, nothing stays pending, and the backlog is lowered once per command |
| Writer.KeptExactly | crates/storage/src/duckdb.rs:183-379 | that is, of every command the rows the database took, in order, except those of commands followed by a failed single row in their block of a hundred |
| Writer.SqliteWriter | crates/storage/src/sqlite3.rs:133-311 | the table ends up with the rows that every command got written before its first failure, in order, and the backlog is lowered once per command |
| Writer.LeadingEndsAtFirstFailure | crates/storage/src/sqlite3.rs:225-275 | the rows before the first failure are taken one by one up to a row that failed, or all |
| Writer.NothingLostIff | crates/storage/src/duckdb.rs:355-370 | DuckDB's table holds every command's rows in order exactly if no command failed, and fewer otherwise |
| Writer.SkippingKeepsMoreIff | crates/storage/src/duckdb.rs:277-341 | skipping the failed rows of a batch keeps all rows before the first failure, and more exactly if a row is taken after one that failed |
| Writer.SqliteKeepsMore | crates/storage/src/sqlite3.rs:290-309 | whatever DuckDB keeps of a stream, SQLite keeps too, if no batch has a row taken after one that failed |
| Writer.SqliteKeepsMoreIff | crates/storage/src/sqlite3.rs:225-275 | and only then, for a stream without a rollback |
| Backlog.BacklogIsOutstanding | crates/storage/src/lib.rs:55-63 | in every interleaving the counter is what is queued and in process, less one between send and increment, modulo 2^64 |
| Backlog.DrainedMeansZero | crates/storage/src/sqlite3.rs:142-311 | when the writer has exited the queue is empty and the counter zero |
| Backlog.WrapsOnlyWhenOvertaken | crates/storage/src/sqlite3.rs:314-363 | with fewer than 2^64 - 2 queued, the counter reads 2^64 - 1 exactly if the one command outstanding was processed before it was counted |
| Backlog.OvertakingRun | crates/storage/src/lib.rs:55-63 | a run in which this happens |

## Left out

- Everything at the edges: HTTP, gRPC, event streams, the command line, the terminal UI, configuration, system hooks and SQL text.
- The compression engine: it hands the raw events back unchanged, as in the code, and what it compacts them to is arbitrary, as is the opaque payload of keyboard and mouse events; the stage's statistics.
- No order between raw or compact events and the storage shutdown is claimed, because the code gives none.
- The ingest stage's batching, its 50 ms ticker and its event identifiers: it emits any batches and ticks, then stops by message or by disconnection, which drops what it had pending.
- Panics of a thread, and the panic result of joining the handles.
- Record identifiers, window identifiers and durations are unbounded, where the code has 64-bit and 32-bit numbers that could overflow; only the counters of the snapshot and the total of a temporal group saturate, as in the code.
- The snapshot stage's short history of states, the ring buffers behind the bus, and the formatting of the app tree.
- Hydrated transitions arrive newest first, so the state before the first live transition is the one the oldest of them led to.
- `event_count` and `triggering_events` of records, which stay empty in the code, and window position and size.
- The lower-casing and trimming of titles is a parameter of the aggregation, so the results hold for every normalization.
- FocusWorker.FocusWorker.Dispatch: names only the main effect of each message, because each message's handler states all of its own.
- The receive loops of the ingest and storage stages, and the shutdown branch of the compression stage, are steps of `Pipeline` and not classes, because they keep no state the model has.
- AppSummaries.RestIsIsolated: a window in an ephemeral group may have been seen within the hour, because those windows leave before the scan.
- The worker's log messages, sequence numbers and the fields only they read; polling intervals, so a poll may come at any turn.
- FocusTitles.NoMisattribution: says nothing of an app that the cache has forgotten, because its title may then be reported for another app.
- Rounding, NaN and the 32-bit overflow of the chord's constant in distances: Douglas-Peucker's comparisons are exact on integers, bottom-up takes any real-valued distance.
- DouglasPeucker.DroppedWithinEpsilonIff: a nonnegative epsilon is assumed, as the daemon's is; with a negative one the code's recursion would not end.
- BottomUp.Simplify: no bound from the removed points to the final path, because the algorithm gives none; the fallback for fewer than two survivors is left out because both ends always survive.
- Visvalingam, Reumann-Witkam, radial and streaming simplification, the scroll, keyboard and focus compressors, and string interning.
- Writer.DuckDbWriter: which rows a database takes is an input; that a failed row makes all after it fail until a rollback, as an aborted transaction would, is one of the inputs and not enforced.
- Writer.SqliteKeepsMoreIff: is not stated for streams with a rollback, because equal rows on both sides of one could make up for each other.
- A COMMIT that fails, and the time of the last flush.
- Backlog.BacklogIsOutstanding: one producer, as the storage stage is the only one; the published metrics may lag behind the counter.
