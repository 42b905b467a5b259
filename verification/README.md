# Verification of the agent runtime

Dafny models of the parts of the agent runtime and its daemon that carry state under concurrency or
across crashes, with proofs of what they promise. `dafny verify dfyconfig.toml` checks everything.

There are two kinds of model, tied together:

- **Step relations.** Where goroutines interleave, every section the source runs under one lock (or
  every channel operation) is one step, `Enabled`/`Happen` say when a step may come and what it does,
  and `IsRun` is any sequence of such steps. The theorems quantify over all of them.
- **Classes and loops.** Where the source mutates fields or loops over slices and maps, a class or a
  method does the same in the same order, and its contract equates the new state with the
  specification function the theorems are about. Walks over Go maps take an arbitrary element, so
  nothing rests on an iteration order.

What the world decides (whether a write goes through, what a model call answers, when a timer fires,
which random id is drawn) is a parameter of the step or the method.

## Components

| modules | source | what is proved |
|---|---|---|
| Events, HubModel, HubDelivery, HubTheorems, HubLabels, HubRecord, HubWitness, EventHubImpl | event hub | what publishers and subscribers are told, that what is published is what is received, where every event is kept, when a replay is complete |
| JournalModel, RunJournal, JournalRecords, RunJournalStore, HubJournal | run journal with hub and supervisor | what stands in a run's file, nothing follows its terminal record, no append meets an evicted handle; hub and journal together deliver every event under its own run |
| RunModel, RunInvariant, RunTheorems, RunAnswers, RunWitness, AgentRuns | supervisor, runtime, run | conservation of tokens, slots and gates, the meaning of `done`, why runs are refused and how they end, progress |
| Messages, StoreModel, StoreTree, StoreCompaction, StoreTheorems, StoreRetry, StoreCheckpoint, StorePending, StoreReals, StoreFile, StoreWeave, StoreDisk, StoreWitness, SessionStore | session store | no cycles, when a commit can be retried, what compaction does to every view and to the pending messages; all of it with failed appends and restarts from whatever the file holds |
| Compressor, PersistedCompaction | rolling summary, `/compact` | the persisted compaction equals the in-memory one |
| ToolPairing, ReactLoop, ReactMeaning | ReAct loop and history rewrites | what a run adds to the history; tool calls keep their results through every rewrite |
| RequestModel, RequestRegistry, RequestAnswers, RequestTable | request idempotency | single flight with bounded eviction, what each caller is told |
| PluginOrder, PluginRegistry | plugin ordering | a topological order exists exactly when one is returned, and it is unique |
| Picking, Jsonl, Recovery | append-only files | what a crash leaves, what recovery makes of it |
| ApprovalProtocol, ApprovalPath, Approvals | approvals | an approval is genuine, a decision is delivered once and arrives as it was made |
| CapabilityWait, CapabilityRegistry | client-provided tools | no lost wake-up, balanced wait callbacks |
| ControlLease, LeaseRegistry | control leases | no operation lands after a takeover |

## What the proofs brought to light

Each of these is a property that fails in general. The first member named says exactly when it holds,
or exactly what happens instead; the one after "shown by" is an input or a run in which it fails.

- The cursor window of a reopened hub is derived from the last number of each record, so it agrees with
  the first event kept only when the two coincide (or both are at most 2): `HubTheorems.CursorWindow`,
  shown by `HubWitness.RetainedYetExpired`.
- A delta that joins a bucket opened by another run reads back under that run:
  `HubTheorems.ReplayKeepsRun`, shown by `HubWitness.ForeignDelta`. The hub alone does not prevent it;
  the supervisor's call order does (`RunJournal.OneBucketOwner`, `HubJournal.SystemDelivery`). All that is
  ever wrong is that label: `HubLabels.DeliveryOfContents`.
- Comments in manager.go and supervisor.go say that a cancelled run is never recorded as failed. When
  the body returns an error of its own after the context ended, `run.finished` says cancelled and the
  journal says failed: `RunTheorems.EventMatchesRecord`, shown by `RunWitness.CancelledYetFailed`. The
  model follows the code.
- The comment on scanJSONL says that an over-long line is skipped. The code fails the scan for a line
  of 1 MiB or more, and appends are not limited: `Jsonl.ReadsBack`, shown by `Jsonl.LongLine`. The model
  follows the code.
- A file that lost only its last newline is accepted as it is; the next append joins that line and both
  records are gone: `Jsonl.ReadsBack` and `Recovery.RecoveryExact`, shown by `Jsonl.LostNewline`.
- Store.Compact with a range of the caller's choice drops the summaries behind the range:
  `PersistedCompaction.RangeReplaced`, shown by `StoreWitness.SummaryDropped`. The ranges the
  application passes start at the root, and then there are none: `PersistedCompaction.CompactionRefines`
  holds of every store it reaches.
- A compact id is derived from the last id covered and can be created again; heads above the earlier
  node then show the new one: `StoreTheorems.ReboundHeads`, shown by `StoreWitness.HeadRebound`. No cycle
  arises from it: `StoreTheorems.NoCycles`.
- Commit is documented to be idempotent: known ids are skipped, so that the same messages may be handed
  to it again. After a crash between a message and its head, a message whose record is on file is on no
  active view, and a repetition leaves it out: `StoreRetry.RetryAfterCrash`, shown by
  `StoreRetry.MessageStranded`. No caller in the application repeats a commit after a reopening; what it
  sees is that message on file and not on the view.
- The consolidation cursor that Compact moves is not written to disk. A reopening agrees with memory
  exactly when the cursor stood on no retained message, `StorePending.ReopenAgrees`, and otherwise has
  more pending, `StorePending.PendingAfterReopen`; shown by `StoreWitness.PendingAgain`.
- A compaction that fails at its head record alone has moved the cursor already, and then everything is
  pending: `StorePending.PendingAfterStop`, shown by `StoreWitness.PendingByFailure`.
- Invalidate removes a binding by its connection, so a renewal made during the failing invocation goes
  with it, and its wake-up finds nothing by it: `CapabilityWait.InvalidationDropsRenewal`, shown by
  `CapabilityWait.RenewalLost`.
- Archive as it is exported, with a commit of the caller's choice, can take the mark of an archived
  runtime away: it keeps the mark exactly while every Archive is answered with success,
  `RunTheorems.ArchivedThroughout`, shown by `RunWitness.ArchiveUndone`. The application passes the
  store's own MarkArchived, and there an archived session is archived for good:
  `RunTheorems.ArchivedForever`.
- Comments in commands.go and runcontrol.go say that background runs are refused by what the store says.
  The code asks the runtime alone. startSession makes a runtime for a root slot that the layout migration
  left in place without restoring its mark, and that runtime takes runs on an archived session:
  `RunTheorems.ArchivedIsMarked` and `RunTheorems.MarkedIdle` say that there is no other way, shown by
  `RunWitness.RunOnArchived`. The model follows the code.
- A run refused because its queued record could not be written keeps its handle, cached and open, for
  good; no other run that is over keeps one: `RunJournal.HandleLeftOpen` and `RunJournal.NeverClosed`,
  shown by `RunJournal.RecordRefused`.

## Assumptions

- Each append may fail; a crash may tear the last line. A failed append leaves nothing on file while the
  process lives, except in `StoreDisk`, where it may have left its record (the write went through and the
  sync failed). A write that leaves part of a line in a living process is not modelled.
- Random ids are new. Message ids committed to a store do not start with `s_`, ids drawn for copies are
  fresh, and SetHead is given a known id or none.
- A retained event history opened by a hub holds no event number twice (`HubDelivery.ReadableHistory`);
  `HubLabels.RestartContents` proves that every hub leaves such a history behind.
- `HubTheorems` speaks of runs of the hub in which no delta joins a foreign bucket (`HubModel.OwnedRun`).
  `HubJournal` proves this of the supervisor, and `HubLabels` does without it.
- A provider answers in the assistant role, and every tool call of an answer gets one result.

## Model

| member | source | states |
|---|---|---|
| HubTheorems.Delivery | ai-runtime/agent/event_hub.go:456-733 | in every interleaving of publishers, timer, run boundaries, subscribers, pumps and Close in which no delta joins a foreign bucket, what a subscriber has received is a strictly increasing prefix of the events it is entitled to: those above its cursor that were broadcast, less deltas whose flush failed before its snapshot; with a journal and no failed append that is a prefix of all events above the cursor |
| HubTheorems.CaughtUp | ai-runtime/agent/event_hub.go:624-668 | with no foreign bucket: a registered subscriber whose pump and channel are drained has received every event it is entitled to, across the switch from replay to live |
| HubTheorems.EveryEventKept | ai-runtime/agent/event_hub.go:740-824 | with no foreign bucket: every broadcast event is in exactly one of the journal, a pending bucket and the reported losses; key events are always journaled, a loss is reported as incomplete, and while something is pending the flush timer is armed |
| HubTheorems.CompleteReplay | ai-runtime/agent/event_hub.go:456-605 | with no foreign bucket: on a fresh journaled hub, integrity complete after Subscribe(0) means the replay is the whole broadcast history |
| HubTheorems.CompleteUnlessAppendFailed | ai-runtime/agent/event_hub.go:426-430 | with no foreign bucket: without a failed append the integrity of a fresh hub stays complete and no record is damaged, over every run |
| HubTheorems.Restart | ai-runtime/agent/event_hub.go:271-292 | with no foreign bucket: whatever a hub did, the history it leaves can be opened again, and the new hub knows exactly the events that were neither pending nor lost |
| HubTheorems.CursorWindow | ai-runtime/agent/event_hub.go:271-292 | the cursors a reopened hub refuses as expired are those below the first event kept if and only if the least record end is that event's number or both are at most 2 |
| HubTheorems.ReplayKeepsRun | ai-runtime/agent/event_hub.go:740-759 | a buffered delta reads back with its own run if and only if its bucket was opened by that run |
| HubRecord.HistoryIsPublished | ai-runtime/agent/event_hub.go:344-402 | over every execution the history is the retained one and behind it the events of exactly the accepted Publish calls, in order, each with its own type and payload, its run or the one the last BeginRun named, numbered in the order of the calls |
| HubRecord.PublishAnswers | ai-runtime/agent/event_hub.go:344-402 | Publish says closed exactly when somebody closed the hub, failed exactly for a key event whose record was not written, and then nobody hears of it, its number is used up and the replay is reported incomplete; published otherwise |
| HubRecord.SubscribeAnswers | ai-runtime/agent/event_hub.go:456-605 | Subscribe says closed, expired, failed or subscribed exactly in these cases; a subscription is new, registered, and starts from the cursor asked for and the last number given out |
| HubRecord.ReplayHolds | ai-runtime/agent/event_hub.go:479-584 | the replay of a new subscription holds exactly the events of the log above the cursor, and a damaged record read for it lowers the integrity |
| HubRecord.PublishedIsReceived | ai-runtime/agent/event_hub.go:344-668 | when nothing is reported lost, a registered subscriber with nothing in transit has received exactly what was retained and what was published and accepted above its cursor |
| HubRecord.DeltaGrows | ai-runtime/agent/event_hub.go:740-759 | a delta adds its size to the bucket of its type, which is flushed exactly when that makes 4096 bytes; other buckets stay |
| HubRecord.NothingWaitsLong | ai-runtime/agent/event_hub.go:764-780 | in every state no bucket holds 4096 bytes, and when the timer fires, a run begins or ends or the hub is closed nothing is pending |
| HubRecord.DroppedAreTold | ai-runtime/agent/event_hub.go:674-733 | whoever is no longer registered was disconnected or its pump ended |
| HubRecord.DroppedWhenFull | ai-runtime/agent/event_hub.go:719-733 | an event goes behind what waits for each registered subscriber below it, except one with 256 waiting, which is dropped and told so |
| HubRecord.CancelledLeaves | ai-runtime/agent/event_hub.go:624-668 | a subscriber that cancelled can leave at any time after |
| HubRecord.IntegrityOnlyFalls | ai-runtime/agent/event_hub.go:426-430 | incomplete stays incomplete, and a hub opened on a history never says complete |
| HubRecord.ClosedForGood | ai-runtime/agent/event_hub.go:690-711 | a hub that somebody closed has no registered subscriber, then or later |
| HubLabels.DeliveryOfContents | ai-runtime/agent/event_hub.go:456-733 | whoever publishes under which run, in every interleaving a subscriber has received, up to run labels, a strictly increasing prefix of the events it is entitled to, and of all events above its cursor while nothing is reported lost |
| HubLabels.CaughtUpOnContents | ai-runtime/agent/event_hub.go:624-668 | in every interleaving a drained subscriber has received all of it, up to run labels |
| HubLabels.ContentsKept | ai-runtime/agent/event_hub.go:740-824 | in every interleaving every broadcast event, its run label aside, is in exactly one of journal, bucket and reported losses |
| HubLabels.CompleteContents | ai-runtime/agent/event_hub.go:456-605 | in every interleaving integrity complete after Subscribe(0) means the replay is the whole history, up to run labels |
| HubLabels.CompleteUnlessFailed | ai-runtime/agent/event_hub.go:426-430 | in every interleaving without a failed append integrity stays complete and no record is damaged |
| HubLabels.RestartContents | ai-runtime/agent/event_hub.go:271-292 | whoever published, the history a hub leaves can be opened again, and the new hub knows, up to run labels, exactly the events neither pending nor lost |
| HubLabels.BareInv | ai-runtime/agent/event_hub.go:344-402 | in every interleaving the whole invariant of the hub holds up to run labels |
| HubLabels.BareRun | ai-runtime/agent/event_hub.go:344-402 | the hub never acts on a run label: forgetting the labels commutes with every run, and the result joins no foreign bucket |
| HubWitness.RetainedYetExpired | ai-runtime/agent/event_hub.go:271-292 | three deltas in one batch and a reopening: the cursor after event 1 is refused as expired although event 2 is on record |
| HubWitness.ForeignDelta | ai-runtime/agent/event_hub.go:740-759 | two runs publish deltas of one type: the second delta reads back under the first run and integrity says complete |
| HubDelivery.RunInv | ai-runtime/agent/event_hub.go:344-402 | numbering, conservation of events, armed timer and per-subscriber flow hold after any sequence of steps with no foreign bucket |
| HubDelivery.StepInv | ai-runtime/agent/event_hub.go:719-733 | each single step that joins no foreign bucket keeps that invariant, the drop of a slow subscriber included |
| HubDelivery.TakeNeverDrops | ai-runtime/agent/event_hub.go:624-668 | the duplicate check of the pump never fires: the next live event is always newer than the last one sent |
| Events.ReadExpandsExactly | ai-runtime/agent/event_hub.go:164-177 | selecting records by their last number and then cutting at the cursor yields exactly the events above the cursor of the whole log |
| EventHubImpl.EventHub.constructor | ai-runtime/agent/event_hub.go:271-292 | a hub starts from the history its journal retained |
| EventHubImpl.EventHub.Publish | ai-runtime/agent/event_hub.go:344-402 | journal before broadcast for key events, broadcast before buffering for deltas, a burnt number on a failed key append, refusal after Close; what enters the history and what is answered is HubRecord.HistoryIsPublished and HubRecord.PublishAnswers |
| EventHubImpl.EventHub.FanOut | ai-runtime/agent/event_hub.go:719-733 | the loop over subscribers offers the event to each one above its watermark and drops exactly those whose buffer is full |
| EventHubImpl.EventHub.BufferDelta | ai-runtime/agent/event_hub.go:740-759 | a delta joins its type's bucket, a new bucket arms the timer, and a bucket at 4096 bytes is flushed at once |
| EventHubImpl.EventHub.FlushDeltaType | ai-runtime/agent/event_hub.go:788-824 | a bucket becomes one batch record or a reported loss |
| EventHubImpl.EventHub.FlushAllDelta | ai-runtime/agent/event_hub.go:775-780 | every bucket is flushed and the timer is stopped |
| EventHubImpl.EventHub.FlushDeltaOnTimer | ai-runtime/agent/event_hub.go:764-771 | the timer flushes every bucket unless the hub is closed |
| EventHubImpl.EventHub.BeginRun | ai-runtime/agent/event_hub.go:298-306 | buckets of the previous run are flushed before the current run changes |
| EventHubImpl.EventHub.EndRun | ai-runtime/agent/event_hub.go:312-320 | buckets are flushed before the current run is cleared |
| EventHubImpl.EventHub.ExpandRecord | ai-runtime/agent/event_hub.go:504-578 | one record yields its events above the cursor, and is damaged exactly when a merged record is no valid batch |
| EventHubImpl.EventHub.ExpandReplay | ai-runtime/agent/event_hub.go:487-581 | the expansion loop yields the events above the cursor of all records read and notices any damage |
| EventHubImpl.EventHub.TakeSnapshot | ai-runtime/agent/event_hub.go:479-584 | the snapshot is the sorted replay, and damage lowers the integrity to incomplete |
| EventHubImpl.EventHub.Subscribe | ai-runtime/agent/event_hub.go:456-605 | refusals for a closed hub, a cursor outside the window and a failed read in this order; else flush, snapshot and registration at the current number in one step |
| EventHubImpl.EventHub.RemoveSub | ai-runtime/agent/event_hub.go:674-678 | one subscriber leaves, the others stay |
| EventHubImpl.EventHub.DisconnectSubs | ai-runtime/agent/event_hub.go:700-708 | every registered subscriber is disconnected and none stays registered |
| EventHubImpl.EventHub.Close | ai-runtime/agent/event_hub.go:690-711 | the first Close flushes and disconnects all, a second one changes nothing |
| RunJournal.EventsPrecedeTheEnd | ai-runtime/agent/supervisor.go:415-459 | in every run file, whatever the interleaving of run goroutine, timer, subscribers and Close, nothing follows a terminal state record |
| RunJournal.NothingFollows | ai-runtime/session/journal_store.go:79-117 | once the terminal record of a run was written or tried, its file never changes again |
| RunJournal.NoEvictedHandle | ai-runtime/session/journal_store.go:132-158 | whoever flushes or publishes, the handle looked up is the cached one and is still open at the append |
| RunJournal.OneBucketOwner | ai-runtime/agent/supervisor.go:287-462 | a delta never joins a bucket that another run opened |
| RunJournal.RunInv | ai-runtime/agent/supervisor.go:190-459 | the invariant behind these: cached and open handles match the stage of each run, one active run, buckets only of runs that may still emit |
| JournalRecords.FileIsWritten | ai-runtime/session/journal_store.go:79-158 | in every state the file of a run holds exactly the records written for it, in order: the state that was looked up for, or an event of the run |
| JournalRecords.AcceptedIsRecorded | ai-runtime/agent/supervisor.go:190-276 | every run that got past its acceptance has its queued record first in its file, then and later |
| JournalRecords.WritesForOwner | ai-runtime/agent/event_hub.go:788-824 | the record that comes next is for the run whose event it is, or for the run that opened the bucket |
| RunJournal.HandleLeftOpen | ai-runtime/agent/supervisor.go:190-276 | of the runs that are over, exactly those refused because their queued record was not written keep a handle, cached and open, on an empty file |
| RunJournal.NeverClosed | ai-runtime/session/journal_store.go:79-117 | and they keep it in every later state |
| RunJournal.RecordRefused | ai-runtime/session/journal_store.go:79-117 | a run in which it happens |
| HubJournal.RunAgrees | ai-runtime/agent/supervisor.go:287-462 | hub and journal composed, in every reachable state each bucket is one that the journal's run may still fill |
| HubJournal.HubRuns | ai-runtime/agent/supervisor.go:287-462 | the hub's part of every run under the supervisor is a run of the hub in which no delta joins a foreign bucket |
| HubJournal.SystemDelivery | ai-runtime/agent/event_hub.go:456-733 | under the supervisor, with no further condition, every subscriber has received in strictly increasing order a prefix of what it is entitled to, each event with its own run |
| HubJournal.SystemReceives | ai-runtime/agent/event_hub.go:344-668 | under the supervisor, when nothing is reported lost, a registered subscriber with nothing in transit has received exactly what was retained and what the runs published above its cursor |
| HubJournal.LostToWritesOnly | ai-runtime/agent/event_hub.go:788-824 | under the supervisor an append fails only because a write fails, never for a missing or evicted handle |
| RunJournalStore.RunJournalStore.Handle | ai-runtime/session/journal_store.go:79-117 | a cached handle is reused, a missing file is created or the creation fails, an existing file without a handle is refused |
| RunJournalStore.RunJournalStore.AppendEvent | ai-runtime/session/journal_store.go:132-158 | what an event append leaves in file and handles, its answer without a run, with a refused or failed creation and otherwise, and exactly when it succeeds |
| RunJournalStore.RunJournalStore.AppendState | ai-runtime/session/journal_store.go:79-117 | the same for a state record; a terminal one evicts and closes the handle even when its write failed |
| RunJournalStore.CollectFile | ai-runtime/session/journal_store.go:272-295 | exactly the events of this session in one run file numbered above the cursor, in line order |
| RunJournalStore.ReadHistory | ai-runtime/session/journal_store.go:179-192 | exactly the session's events numbered above the cursor over all run files, in name and line order |
| RunJournalStore.HistoryReadsAll | ai-runtime/session/journal_store.go:179-192 | there are strictly increasing places (file, line) such that the records read are those at these places, and the places are exactly those of the session's events numbered above the cursor, batches included |
| RunJournalStore.SeqRange | ai-runtime/session/journal_store.go:208-230 | least and greatest number on the lines of the session's events, none exactly when there are none; a hub over that history starts from them |
| RunJournalStore.HistoryRange | ai-runtime/session/journal_store.go:208-230 | no range exactly when no event of the session is on any line; otherwise both numbers stand on such lines and bound all of them |
| RunInvariant.RunInv | ai-runtime/agent/supervisor.go:116-462 | over every interleaving of any number of sessions and runs: pending equals the runs that owe a token, slots equals the runs in a slot, each gate its at most one holder, each session names as active exactly the run that occupies it |
| RunInvariant.StepInv | ai-runtime/agent/supervisor.go:287-462 | each step of a run goroutine, on every exit path, keeps that balance |
| RunTheorems.Exclusion | ai-runtime/agent/supervisor.go:116-462 | one active run and one gate holder per session, and the limits on pending and running runs are never exceeded |
| RunAnswers.SubmittedBy | ai-runtime/agent/supervisor.go:116-190 | a run exists exactly when it was submitted to an open host for a session registered then, and keeps that runtime |
| RunAnswers.RegisteredBy | ai-runtime/agent/manager.go:183-220 | a session is found under a name exactly from its registration, to an open host, under a free name and with a runtime not retired, until its removal |
| RunAnswers.RefusedFor | ai-runtime/agent/runtime.go:83-103 | a run refused as too many, archived, retired, active, unbound, without hub or without record was so when it was looked at, in this order |
| RunAnswers.ReservedFor | ai-runtime/agent/runtime.go:83-103 | a run that got its session found it neither archived nor retired, idle and bound |
| RunAnswers.CancelledBy | ai-runtime/agent/manager.go:356-376 | the context of a run is cancelled exactly when somebody cancelled it by its handle, or as its session's active run, after its execution had begun |
| RunAnswers.HostBy | ai-runtime/agent/manager.go:302-350 | the host is closed exactly when somebody closed it, and its runs' contexts end exactly when it cancelled them |
| RunAnswers.RetiredBy | ai-runtime/agent/runtime.go:126-137 | a runtime is retired exactly when somebody retired it while no run was active, and bound as the last BindSession left it |
| RunAnswers.StateShown | ai-runtime/agent/run.go:80-98 | before its end a run shows queued until its body is entered, then running or waiting |
| RunTheorems.GivenBackOnce | ai-runtime/agent/supervisor.go:116-338 | a run that was rejected or has left took each of token, gate and slot at most once and gave back exactly what it took |
| RunTheorems.DoneMeans | ai-runtime/agent/runtime.go:415-467 | done closes at most once, and closed means terminal state, terminal record attempted, session given up and result set with that state |
| RunTheorems.EndedForever | ai-runtime/agent/run.go:80-98 | an ended run keeps its state, result and one closing for good |
| RunTheorems.RetiredStaysIdle | ai-runtime/agent/runtime.go:83-137 | no run is active on a retired runtime, then or later |
| RunTheorems.ArchivedIdle | ai-runtime/agent/runtime.go:83-169 | no run is active on an archived runtime, whoever archived it |
| RunTheorems.ArchivedThroughout | ai-runtime/agent/runtime.go:149-169 | a runtime stays archived through any stretch of an execution if and only if every Archive of it meanwhile is answered with success |
| RunTheorems.ArchivedIsMarked | daemon/internal/plugins/agent/boundsession.go:399-417 | under the application a runtime is read-only if and only if its store says archived, except a runtime registered on such a store without restoring the mark and not archived since |
| RunTheorems.MarkedIdle | ai-runtime/agent/runtime.go:83-169 | under the application no run is active on a session whose store says archived, with that one exception |
| RunWitness.RunOnArchived | daemon/internal/plugins/agent/plugin.go:764-778 | a runtime registered for an archived session without restoring the mark takes a run |
| RunTheorems.ArchivedForever | daemon/internal/plugins/agent/boundsession.go:399-417 | under the application an archived session stays archived and no run is active on it, then or later |
| RunTheorems.EventMatchesRecord | ai-runtime/agent/supervisor.go:412-447 | of every run that ended in any reachable state: what run.finished announced is what was recorded if and only if the run left before its body or its body's answer agrees; for what Session.Run returns the one exception is an error of its own after the context ended, announced as cancelled and recorded as failed |
| RunAnswers.EndsAsAnswered | ai-runtime/agent/supervisor.go:412-459 | what a body returned is announced and recorded so: with the context done, cancelled whatever it returned, and recorded as failed exactly for an error of its own; otherwise announced as returned, and recorded by its error, an unfinished state as completed; error and persistence are kept |
| RunAnswers.CancelledEndsSo | ai-runtime/agent/supervisor.go:406-422 | a run cancelled before its body returned is announced as cancelled and recorded as cancelled even if the body completed, failed only for an error of its own |
| RunAnswers.EndsOneWay | ai-runtime/agent/supervisor.go:287-462 | every run that ended returned from its body, or left before it and is cancelled in announcement, state, error and result |
| RunWitness.CancelledYetFailed | ai-runtime/agent/supervisor.go:412-459 | a whole run of the supervisor in which event and record differ |
| RunWitness.ArchiveUndone | ai-runtime/agent/runtime.go:149-169 | Archive as exported: a commit of the caller's choice that fails takes the mark of an archived runtime away |
| RunTheorems.StepsBounded | ai-runtime/agent/supervisor.go:287-462 | a run takes at most twenty steps of its own, whatever happens around it |
| RunTheorems.Progress | ai-runtime/agent/supervisor.go:287-462 | from any point on, with no further submission, all runs together take at most twenty steps each, and where none can take another all are over and everything is given back |
| RunTheorems.CanFinish | ai-runtime/agent/supervisor.go:287-462 | every execution can be continued by steps of the runs alone to such an end |
| RunTheorems.NoDeadlock | ai-runtime/agent/supervisor.go:287-338 | while a run is unfinished some run can go on: gate before slot admits no cycle of waiting |
| RunTheorems.Quiescent | ai-runtime/agent/supervisor.go:287-462 | where nothing can go on, every run has ended or was rejected and every token, slot, gate and session is free |
| RunTheorems.CancelledCanLeave | ai-runtime/agent/supervisor.go:300-338 | a cancelled run that waits for its gate or a slot can always leave |
| AgentRuns.AgentRun.constructor | ai-runtime/agent/run.go:67-74 | a new run is queued, without result, not cancellable and not done |
| AgentRuns.AgentRun.Transition | ai-runtime/agent/run.go:80-98 | the state changes and done is closed on the first terminal state only |
| AgentRuns.AgentRun.Finish | ai-runtime/agent/run.go:143-148 | the result is there before the state turns terminal |
| AgentRuns.AgentRun.Snapshot | ai-runtime/agent/run.go:101-107 | the present state with the error and persistence of the recorded result |
| AgentRuns.AgentRun.Cancel | ai-runtime/agent/run.go:132-139 | cancellation reaches the context exactly when a cancel function is set |
| AgentRuns.SessionRuntime.constructor | ai-runtime/agent/runtime.go:74-80 | a new runtime is idle, neither archived nor retired, with a free gate |
| AgentRuns.SessionRuntime.ReserveRun | ai-runtime/agent/runtime.go:83-103 | archived, retired, active and unbound refuse in this order; otherwise the run becomes the active one |
| AgentRuns.SessionRuntime.ReleaseRunReservation | ai-runtime/agent/runtime.go:106-115 | only the run's own reservation is taken back |
| AgentRuns.SessionRuntime.Retire | ai-runtime/agent/runtime.go:126-137 | retirement succeeds exactly on an idle runtime and is never undone |
| AgentRuns.SessionRuntime.Archive | ai-runtime/agent/runtime.go:149-169 | an idle session is archived exactly when its commit was answered with success, a marked store's without a write; a failed commit takes the mark back |
| AgentRuns.SessionRuntime.TryGate | ai-runtime/agent/runtime.go:174-181 | the gate is taken exactly when it is free |
| AgentRuns.SessionRuntime.FinalizeRun | ai-runtime/agent/runtime.go:415-467 | the record and the result carry one terminal state, the session is given up, and the run ends with that result |
| StoreTree.EdgeDown | ai-runtime/session/store.go:298-398 | a parent ranks below its child by (birth of the base message, number of `s_` prefixes), re-created compact ids included |
| StoreTree.SummaryEdge | ai-runtime/session/store.go:298-398 | the parent of a summary ranks below the last node it covers, re-created ids included |
| StoreTheorems.NoCycles | ai-runtime/session/store.go:585-614 | after any sequence of commits, compactions (whole or stopped by a failed append), rewinds, checkpoints, cursor moves and crashes, the parent links from every node reach a root and meet no node twice |
| StoreTheorems.RunSound | ai-runtime/session/store.go:250-413 | in every such state the log is well formed, head is known, and a set head is the one a reopening finds |
| StoreTheorems.CommitMeaning | ai-runtime/session/store.go:250-296 | Commit appends to the active view exactly the messages with an id not seen before, in order |
| StoreTheorems.CommitOtherHeads | ai-runtime/session/store.go:250-296 | Commit changes the view of no other head |
| StoreRetry.RetryAtOnce | ai-runtime/session/store.go:250-296 | committing all messages again after a commit stopped at any of them leaves what one commit would have left |
| StoreRetry.CutPoint | ai-runtime/session/store.go:277-293 | a crash cuts a commit between two messages or between a message and its head, nowhere else |
| StoreRetry.RetryAfterCrash | ai-runtime/session/store.go:250-296 | after a crash inside a commit and a reopening, committing the same messages again completes the view if and only if the crash did not come between a message and its head; otherwise exactly that message is missing |
| StoreRetry.MessageStranded | ai-runtime/session/store.go:261-293 | the first message of a session loses its head record to a crash, and a retry leaves the view empty |
| StoreTheorems.CompactionView | ai-runtime/session/store.go:298-398 | the new view is what stood before the range, the summary, and copies of the message nodes after it |
| StoreTheorems.CompactionMeaning | ai-runtime/session/store.go:298-398 | the same up to ids: view before, summary, real messages after |
| StoreTheorems.CompactionRejects | ai-runtime/session/store.go:304-328 | Compact succeeds exactly when both ends are on the active path, the first not behind the second, and no node is there twice; a rejection changes nothing |
| StoreTheorems.OtherHeads | ai-runtime/session/store.go:300-413 | rewinding after a compaction to a head whose path avoids the compact id shows what it showed before |
| StoreTheorems.ReboundHeads | ai-runtime/session/store.go:347-356 | a head above a re-created compact id shows the new prefix and summary followed by what it showed above that id |
| StoreWitness.HeadRebound | ai-runtime/session/store.go:347-413 | commit, compact, rewind to the checkpoint before, compact again: the head of the first compaction shows the summary of the second |
| StoreTheorems.StoppedCompaction | ai-runtime/session/store.go:352-397 | a compaction stopped at any of its appends leaves head and active view as they were and the log sound |
| StoreTheorems.CrashSound | ai-runtime/session/store.go:164-176 | a log cut between any two records opens to a sound store |
| StoreCheckpoint.ReopenFinds | ai-runtime/session/store.go:125-178 | a reopening finds the head and the cursor of the last records that name one, and all records |
| StoreCheckpoint.CursorStays | ai-runtime/session/store.go:501-513 | a cursor that was moved is the one a reopening finds |
| StoreCheckpoint.ShowsOn | ai-runtime/session/store.go:585-614 | a node shows the same through any execution without a crash in which no compaction makes the id of a summary below it again |
| StoreCheckpoint.CheckpointRestores | ai-runtime/session/store.go:401-432 | a checkpoint names the head it was taken at, and through any such execution going back to it shows the view of that moment |
| StoreCheckpoint.CompactRecordsSay | ai-runtime/session/store.go:347-397 | the summary record names its range and text, each copy the message it was made of and its body, and the head record comes last |
| StoreCompaction.ClonesView | ai-runtime/session/store.go:358-379 | the chain of copies extends the compact node's view by the retained messages and leaves every older head alone |
| StorePending.PendingKept | ai-runtime/session/store.go:444-498 | by content, what is pending after Compact is what was pending and not covered; a cursor inside the covered range makes the whole rest pending |
| StorePending.PendingAfterReopen | ai-runtime/session/store.go:776-799 | a store reopened after a compaction has pending exactly what stands before the range behind the cursor on disk, and all that was retained; this ends with every message that was pending and not covered |
| StorePending.ReopenAgrees | ai-runtime/session/store.go:776-799 | where memory and disk had the same cursor, the reopened store has pending what the compacted one has if and only if the cursor stood on no retained message |
| StoreWitness.PendingAgain | ai-runtime/session/store.go:776-799 | commit, consolidate all, compact: nothing is pending, and after a reopening one message is |
| StorePending.PendingAfterStop | ai-runtime/session/store.go:352-397 | what is pending after a compaction stopped at a failed append: what was, or every real message when only the head record is missing and the cursor was to move |
| StoreWitness.PendingByFailure | ai-runtime/session/store.go:352-397 | all messages consolidated, a compaction of the first two fails at its head record: the view is as before and everything is pending |
| StoreFile.FileShows | ai-runtime/session/store.go:585-614 | a file that has every node of the memory log shows, at each head memory knows, what memory shows, whatever else failed appends left in it |
| StoreFile.ReopenShows | ai-runtime/session/store.go:125-178 | a reopening finds the head of memory and shows its view |
| StoreWeave.OnBoth | ai-runtime/session/store.go:714-727 | what is appended to a log may be appended to a longer one with records left behind by failed appends, and births keep their order |
| StoreWeave.LeftBehind | ai-runtime/session/store.go:714-727 | a record left on the file alone keeps that relation |
| StoreWeave.DropWeave | ai-runtime/session/store.go:272-284 | so does taking out a message left behind whose id is written a second time |
| StoreDisk.WorksAlike | ai-runtime/session/store.go:250-432 | every operation does to the store in memory what it does to a sound store that stands for it, and the results stand for each other |
| StoreDisk.DiskSound | ai-runtime/session/store.go:125-432 | over every execution with its file beside it (operations, failed appends whose record is or is not on file, restarts from any prefix of the file) a sound store stands for the one in memory and for the one that any prefix of the file opens to |
| StoreDisk.DiskNoCycles | ai-runtime/session/store.go:585-614 | over all these executions, in memory and in what any prefix of the file opens to, the walk from every node finds all its ancestors up to a root and meets none twice |
| StoreDisk.SamePath | ai-runtime/session/store.go:739-770 | the walks of the source over a store return path and view of the sound store that stands for it |
| SessionStore.WalkIsPath | ai-runtime/session/store.go:585-614 | on a well-formed log neither the visited guard nor an unknown parent ends the walk before the root |
| SessionStore.ActiveIsPath | ai-runtime/session/store.go:739-770 | the guarded walks return the parent chain and its messages |
| SessionStore.BuildActiveView | ai-runtime/session/store.go:585-614 | index, walk, reversal and rendering of any log, well formed or not |
| SessionStore.WalkUp | ai-runtime/session/store.go:740-765 | the walk from head with its visited set, tip first |
| SessionStore.Store.constructor | ai-runtime/session/store.go:125-178 | head and cursor come from the last records that name one, and a log without identity gets one |
| SessionStore.Store.ActiveView | ai-runtime/session/store.go:242-246 | the active view of the store's head |
| SessionStore.Store.ActivePathIDs | ai-runtime/session/store.go:740-765 | the ids from the root to head |
| SessionStore.Store.HasID | ai-runtime/session/store.go:730-737 | whether a message or compact node carries the id |
| SessionStore.Store.Commit | ai-runtime/session/store.go:250-296 | the messages taken until an append failed, the new log, head and cursor, which message failed, and what the file holds |
| SessionStore.Store.Put | ai-runtime/session/store.go:277-293 | a message enters memory when its record and its head are both on file; after one append only the file has it |
| SessionStore.Store.Compact | ai-runtime/session/store.go:300-398 | refused, completed or stopped after any number of appends: the whole new state and file in each case |
| SessionStore.Store.Fold | ai-runtime/session/store.go:330-397 | compact node, copies and head record in this order, each of which may fail; the cursor moves before the head record |
| SessionStore.Store.CloneRetained | ai-runtime/session/store.go:358-379 | the copies chained above the compact node up to the first failed append, and the map from originals to copies |
| SessionStore.Store.RemapCursor | ai-runtime/session/store.go:776-799 | a cursor in the retained part goes to its copy, one at the old head to the new tip, any other stays |
| SessionStore.Store.SetHead | ai-runtime/session/store.go:401-413 | a head record and the new head, or no change when the append failed |
| SessionStore.Store.Checkpoint | ai-runtime/session/store.go:416-432 | a checkpoint of head, refused on an empty store, no change when the append failed |
| SessionStore.Store.MarkArchived | ai-runtime/session/store.go:556-570 | the archived record is appended once; with the record there the answer is yes without a write |
| SessionStore.Store.AdvanceCursor | ai-runtime/session/store.go:501-513 | a cursor record and the new cursor, or no change when the append failed |
| SessionStore.Store.PendingAfterCursor | ai-runtime/session/store.go:444-498 | the real messages behind the cursor, all of them when the cursor is not among them |
| StoreReals.RealsAre | ai-runtime/session/store.go:444-498 | the real messages are those with an id that are no summaries, in order |
| StoreReals.PendingAre | ai-runtime/session/store.go:444-498 | pending are exactly the real messages behind the first one the cursor names, all of them where it names none |
| PersistedCompaction.Detect | ai-runtime/session/store.go:961-1012 | the two passes over old and new view find the folded prefix, or nothing in exactly the refused cases |
| PersistedCompaction.DetectsFold | ai-runtime/session/store.go:961-1012 | applied to the compressor's output, detection recovers exactly the folded prefix and the summary |
| PersistedCompaction.CompactionRefines | ai-runtime/agent/session.go:439-505 | in every store whose compactions came from detected ranges, the view after `/compact` is the compressor's output up to ids, with no condition on the view |
| PersistedCompaction.CompactFoldsPrefix | ai-runtime/agent/session.go:439-505 | `/compact` compacts the path from its root on |
| PersistedCompaction.RunRooted | ai-runtime/session/store.go:298-398 | in every store whose compactions fold from the root on, all summaries are roots |
| PersistedCompaction.RangeReplaced | ai-runtime/session/store.go:298-398 | Compact with an arbitrary range replaces exactly that range by the summary if and only if no summary stands behind it |
| StoreWitness.SummaryDropped | ai-runtime/session/store.go:358-369 | compacting the last message and then the first ones loses the first summary |
| PersistedCompaction.NothingToFold | ai-runtime/agent/session.go:439-505 | where the compressor folds nothing the store is left alone |
| PersistedCompaction.CompactionKeepsPairs | ai-runtime/agent/session.go:439-505 | in every such store a paired view is still paired after `/compact` |
| PersistedCompaction.Session.CompactStore | ai-runtime/agent/session.go:439-505 | compress, detect, compact, reload; on a failed model call or nothing to do store and conversation stay, and a failed append leaves what the stopped compaction leaves |
| Compressor.FindSplit | ai-runtime/middlewares/compressor.go:89-105 | the scan from the back finds the split point |
| Compressor.SplitPoint | ai-runtime/middlewares/compressor.go:89-105 | the greatest cut that folds two messages or more, keeps keepLast and separates no call from its results; 0 exactly when there is none |
| Compressor.LastSafe | ai-runtime/middlewares/compressor.go:89-105 | no safe cut lies between the one chosen and the limit |
| Compressor.Leading | ai-runtime/middlewares/compressor.go:45-83 | the protected head is exactly the leading system messages |
| Compressor.CompressHistory | ai-runtime/middlewares/compressor.go:45-83 | protected head, summary and kept tail; unchanged when nothing can be folded, nothing when the model call fails |
| Compressor.CompressMeaning | ai-runtime/middlewares/compressor.go:45-105 | where some cut behind the protected system messages is possible: those messages, one system message with the summary, and everything from the greatest possible cut on, or nothing when the summary failed; where none is, the history |
| ToolPairing.CompressKeepsPairs | ai-runtime/middlewares/compressor.go:45-105 | compression at any keepLast, with or without protected head, keeps every call with its results |
| ToolPairing.InsertAt | ai-runtime/middlewares/memory.go:109-122 | the block goes before the last user message, or to the end when there is none |
| ToolPairing.InsertSystemBlock | ai-runtime/middlewares/memory.go:109-122 | the loop from the back inserts there and changes nothing else |
| ToolPairing.InsertKeepsPairs | ai-runtime/middlewares/memory.go:109-122 | an inserted memory block keeps every call with its results |
| ToolPairing.StripMemoryBlocks | ai-runtime/agent/session.go:541-550 | the loop removes exactly the memory blocks and keeps the order |
| ToolPairing.StrippedIs | ai-runtime/agent/session.go:541-550 | what is kept is every message that is no memory block, in order |
| ToolPairing.StripKeepsPairs | ai-runtime/agent/session.go:541-550 | stripping keeps every call with its results |
| ToolPairing.InsertThenStrip | ai-runtime/agent/session.go:541-550 | injecting a memory block and stripping is stripping alone |
| ReactLoop.Run | ai-core/agent/agent.go:43-176 | the history of a run up to stamped ids: rewrites before each model call, results after each answer, and the note for a failed, empty or exhausted run |
| ReactMeaning.RunTraced | ai-core/agent/agent.go:60-176 | turn by turn the history is rewritten and grows by the answer and exactly the results of its calls, each with its own text; it closes with the final answer or with the note for exactly the failure, empty answer or exhaustion there was |
| ReactMeaning.RunSays | ai-core/agent/agent.go:43-176 | without rewrites the history is the prompt, the given history, the input, every exchange and the ending |
| ReactMeaning.SaidStays | ai-core/agent/agent.go:60-176 | from a turn on behind which nothing is rewritten everything said stays to the end |
| ReactMeaning.SessionKeeps | ai-runtime/agent/session.go:190-206 | with memory blocks injected at every turn the session keeps its history without blocks, the input, every exchange and the ending |
| ReactMeaning.RewritesTraced | ai-core/agent/agent.go:60-66 | rewrites come one after another; an injection adds one system message before the last user message or at the end, a failed compression changes nothing |
| ReactLoop.RunKeepsPairs | ai-core/agent/agent.go:43-176 | from a paired history every run ends with a paired one under the same system prompt, and it stays paired without the prompt and the memory blocks |
| ReactLoop.LoopKeeps | ai-core/agent/agent.go:60-162 | any number of iterations with any rewrites keeps the prompt at the head and every call with its results |
| ReactLoop.RewriteAll | ai-core/agent/agent.go:60-66 | the middlewares rewrite one after another, and a failed compression leaves the history |
| ReactLoop.AppendResults | ai-core/agent/agent.go:119-160 | the history, and behind it for each call in order a tool message with its id and the text that came back for it |
| ReactLoop.StampMessageIDs | ai-core/agent/stamp.go:11-23 | messages without an id get one, nothing else changes |
| RequestRegistry.SingleFlight | daemon/internal/agentcontrol/idempotency.go:138-226 | in every interleaving the successful starts of a key are its evictions or one more; table and flights are disjoint, and the table is the duplicate-free queue of at most 4096 keys |
| RequestRegistry.SameHandle | daemon/internal/agentcontrol/idempotency.go:138-205 | whoever gets a handle gets one that was started for its key and its input, and before any eviction all callers of a key got the same |
| RequestRegistry.StableBetweenEvictions | daemon/internal/agentcontrol/idempotency.go:210-226 | between two evictions a tracked key keeps its handle and nothing is started for it |
| RequestRegistry.LookDecides | daemon/internal/agentcontrol/idempotency.go:144-166 | a call conflicts exactly when the key is tracked or in flight with other input, and leads exactly when it is neither; the first lock section starts and records nothing |
| RequestAnswers.AnswersTell | daemon/internal/agentcontrol/idempotency.go:138-205 | new means the caller's own start came to this; whoever is told otherwise started nothing and gets the handle, the failure or the abort that the start of another call with the same key and input came to; a conflict starts nothing |
| RequestAnswers.NobodyHangs | daemon/internal/agentcontrol/idempotency.go:138-205 | while a call has not returned it can go on, or the leader it joined can |
| RequestAnswers.TracksTheLast | daemon/internal/agentcontrol/idempotency.go:210-226 | tracked are exactly the keys recorded last, 4096 of them at most, queued in the order in which they were recorded |
| RequestRegistry.RunInv | daemon/internal/agentcontrol/idempotency.go:138-226 | the invariant behind these over any number of concurrent calls |
| RequestTable.Registry.RecordLocked | daemon/internal/agentcontrol/idempotency.go:210-226 | a new key goes to the end of the queue and the oldest go until 4096 are left |
| RequestTable.Registry.TrackedHandle | daemon/internal/agentcontrol/idempotency.go:231-242 | the handle of a tracked key, none for an empty request id |
| RequestTable.Registry.ByRun | daemon/internal/agentcontrol/idempotency.go:249-258 | a handle is found exactly when some tracked request started that run |
| PluginRegistry.OrderDescriptors | daemon/internal/pluginregistry/registry.go:84-140 | success exactly when no name is empty or repeated, no dependency is missing and there is no cycle; otherwise the error of the first descriptor that is wrong, with the names it carries; then an order of all descriptors |
| PluginRegistry.Describe | daemon/internal/pluginregistry/registry.go:84-98 | names are checked in input order, the first empty or repeated one decides, and each descriptor is found under its name |
| PluginRegistry.Link | daemon/internal/pluginregistry/registry.go:100-113 | degrees count the distinct dependencies, dependents list who has them, and the first undescribed dependency of the first descriptor that has one is reported |
| PluginRegistry.SortStrings | daemon/internal/pluginregistry/registry.go:121-121 | distinct names in ascending order, none added or lost |
| PluginRegistry.PlaceAll | daemon/internal/pluginregistry/registry.go:115-135 | the queue places, as long as something can be placed, the least name whose dependencies are placed |
| PluginOrder.OrderedPlaces | daemon/internal/pluginregistry/registry.go:84-140 | the result lists every descriptor once, after everything it depends on |
| PluginOrder.InputOrderIrrelevant | daemon/internal/pluginregistry/registry.go:84-140 | two inputs with the same descriptors give the same result |
| PluginOrder.StopsAtCycles | daemon/internal/pluginregistry/registry.go:136-139 | the order comes out short exactly when the graph has a cycle |
| PluginOrder.GreedyUnique | daemon/internal/pluginregistry/registry.go:121-135 | there is one order in which each name is the least placeable one |
| Jsonl.ScanFile | ai-runtime/session/store.go:906-941 | the records read and the end of the last good line, counted line by line, or a failure for a line that is too long |
| Jsonl.GoodsAre | ai-runtime/session/store.go:906-941 | the records read are those of exactly the lines that decode, in order |
| Jsonl.RepairCutsAt | ai-runtime/session/store.go:883-897 | the offset found is the size of the file without the lines behind the last good one |
| Jsonl.RepairKeepsRecords | ai-runtime/session/store.go:111-123 | truncating there loses no record and doing it twice is doing it once |
| Jsonl.ReadsBack | ai-runtime/session/store.go:714-727 | an append to a repaired file reads back behind all earlier records if and only if the file ends with a newline and the line is below 1 MiB; without the newline the last record is lost too |
| Jsonl.LongLine | ai-runtime/session/store.go:906-941 | a record of 1 MiB is appended and the file cannot be scanned any more |
| Jsonl.LostNewline | ai-runtime/session/store.go:714-727 | without its last newline a file scans as before, and the next append loses both records |
| Jsonl.TornTail | ai-runtime/session/store.go:906-941 | a crash at any byte of a line: opening gives the records before, and the new one when its text is whole; the repaired file takes a further record if and only if the cut was not between text and newline |
| Recovery.OpensAfterCrash | ai-runtime/session/store.go:68-179 | a crash at any byte of any record: the store opens soundly in the state of the records written whole, and its file takes a further record if and only if the crash was not between record and newline |
| Recovery.MarkInterruptedRuns | ai-runtime/session/journal.go:379-461 | every file is repaired and marked until one cannot be scanned, truncated or appended to; the runs reported are exactly those marked, none when it failed |
| Recovery.MarkFile | ai-runtime/session/journal.go:379-461 | one file: repair, look at the last state record, append the mark when it is not terminal; a failed scan, truncation or append is its own outcome |
| Recovery.AttemptIsRecovery | ai-runtime/session/journal.go:379-461 | with all writes going through this is the recovery of the file, and a failed attempt leaves a file of which a later one makes the same |
| Recovery.RecoveryExact | ai-runtime/session/journal.go:379-461 | recovery keeps every record, ends the file in a terminal state and is not repeated by a second scan if and only if the file ends with a newline after repair or the run was finished; otherwise one record is lost |
| Recovery.FindLastState | ai-runtime/session/journal_store.go:246-265 | the last state record of a file |
| ApprovalProtocol.ApprovalIsGenuine | ai-runtime/agent/approval.go:89-186 | in every interleaving of calls, both timers, cancellation, sweeps and decisions, a tool call is answered by a decision of its own interrupt, and an approval is one that some Resolve accepted for an entry of that interrupt |
| ApprovalProtocol.ResolveWinsOnce | ai-runtime/agent/approval.go:166-186 | at most one Resolve per entry succeeds, and its send finds the channel empty |
| ApprovalPath.AcceptedBy | ai-runtime/agent/approval.go:166-186 | a decision is accepted exactly by a Resolve of an entry that is registered and not yet settled, and as it was made |
| ApprovalPath.TableBy | ai-runtime/agent/approval.go:89-136 | a request is in the table exactly from its registration until a sweep removes it |
| ApprovalPath.WaitEnters | ai-runtime/agent/approval.go:89-136 | Wait rejects an interrupt that is known or expired and waits for any other on a new open entry |
| ApprovalPath.GivenUpIsClosed | ai-runtime/agent/approval.go:137-186 | once Wait gave up on an entry nothing is accepted for it |
| ApprovalPath.WaitHandsOn | ai-runtime/agent/approval.go:137-160 | when Wait takes the decision branch it hands on a decision that a Resolve was accepted with for the very entry it waited on |
| ApprovalPath.WaitRejects | ai-runtime/agent/approval.go:137-160 | when it is cancelled or expires it hands on a rejection of its own request |
| ApprovalPath.ReceiveAnswers | ai-runtime/hitl/channel_decision_provider.go:12-55 | the agent drains a decision for another interrupt and answers the call with one for its own, as it is |
| ApprovalPath.DecisionArrives | ai-runtime/agent/approval.go:89-186 | from Wait over the stream to the agent the decision arrives as it was accepted, approval or rejection |
| ApprovalPath.SendFrees | ai-runtime/agent/session.go:252-291 | a decision sent or dropped leaves the stream free for the next interrupt, and a dropped one reaches nobody |
| ApprovalPath.AnsweredOnce | ai-runtime/hitl/channel_decision_provider.go:12-55 | every call that was asked about is answered exactly once or is still waiting |
| ApprovalPath.DecisionGoesThrough | ai-runtime/agent/approval.go:89-186 | a run in which a client's decision, either way, is the answer of the call |
| ApprovalProtocol.RunInv | ai-runtime/agent/approval.go:89-186 | the invariant behind these |
| Approvals.ApprovalManager.Sweep | ai-runtime/agent/approval.go:213-223 | exactly the resolved entries 30 seconds past their expiry leave the table |
| Approvals.ApprovalManager.Register | ai-runtime/agent/approval.go:116-136 | after the sweep a request already there is refused, any other gets a fresh open entry |
| Approvals.ApprovalManager.Resolve | ai-runtime/agent/approval.go:166-186 | unknown, already resolved or delivered; a delivery closes the entry and puts the decision into its empty channel under the entry's own id |
| Approvals.ApprovalManager.PendingOf | ai-runtime/agent/approval.go:228-248 | the open approvals of a session, sorted, with the expired ones removed from the table |
| Approvals.GetDecision | ai-runtime/hitl/channel_decision_provider.go:12-55 | decisions of other interrupts are drained; the answer carries the interrupt's own id and approves only by a decision received for it |
| CapabilityWait.NoLostWakeup | ai-runtime/agent/capability.go:426-496 | a Bind of the tool after the last lookup always leaves the waiter a signal |
| CapabilityWait.WaitsBalanced | ai-runtime/agent/capability.go:426-496 | the wait observer hears true and false in turn and every exit leaves it balanced |
| CapabilityWait.ResultIsBound | ai-runtime/agent/capability.go:268-300 | a result comes from a binding that named the tool and had not expired when chosen |
| CapabilityWait.InvalidationDropsRenewal | ai-runtime/agent/capability.go:238-249 | in every run, a lookup after an invalidation with no binding change in between finds a binding if and only if another connection's serves the tool |
| CapabilityWait.ServedBy | ai-runtime/agent/capability.go:182-249 | a connection serves the tool at a time exactly when its last binding named the tool and lasts until then, and was neither withdrawn since nor the one of a failed invocation |
| CapabilityWait.OutcomeBy | ai-runtime/agent/capability.go:426-496 | a call ends with the result or the error of an invocation by the binding it was made with, or because it gave up |
| CapabilityWait.SignalBy | ai-runtime/agent/capability.go:182-218 | a wake-up waits exactly when the tool was bound since the registered call was last woken |
| CapabilityWait.RenewalLost | ai-runtime/agent/capability.go:426-496 | a run in which a renewal during the failing invocation wakes the call and the lookup finds nothing |
| CapabilityWait.RunInv | ai-runtime/agent/capability.go:426-496 | the invariant behind these over binds, unbinds, expiry and lookups |
| CapabilityRegistry.CapabilityRegistry.Bind | ai-runtime/agent/capability.go:182-218 | the connection's binding is replaced, others stay, and exactly the waiters for one of its tools are signalled |
| CapabilityRegistry.CapabilityRegistry.UnbindConnection | ai-runtime/agent/capability.go:222-233 | the connection leaves every session and nothing else changes |
| CapabilityRegistry.CapabilityRegistry.Invalidate | ai-runtime/agent/capability.go:238-249 | the connection leaves this session, and an empty session leaves the table |
| CapabilityRegistry.CapabilityRegistry.LookupResolved | ai-runtime/agent/capability.go:268-300 | the least connection with an unexpired binding of the tool, none exactly when there is none; only expired bindings are removed |
| CapabilityRegistry.CapabilityRegistry.WaitChan | ai-runtime/agent/capability.go:307-317 | one wait channel per session and tool, the registered one or a fresh one |
| CapabilityRegistry.CapabilityRegistry.DropWaitChan | ai-runtime/agent/capability.go:321-328 | the registration is removed exactly when it is the caller's own channel |
| CapabilityRegistry.ExecuteCapabilityTool | ai-runtime/agent/capability.go:426-496 | the loop ends at the first round that succeeds, is cancelled or is not notified: with the text of that invocation, the context's error, or as unavailable; balanced callbacks, and exactly the failed connections invalidated |
| ControlLease.Fencing | daemon/internal/agentcontrol/lease.go:90-174 | in every interleaving each control operation commits at a moment its client holds the session |
| ControlLease.HeldBy | daemon/internal/agentcontrol/lease.go:90-174 | over every interleaving a session is held by the last client to acquire it, unless that client released it or its disconnection came to it since |
| ControlLease.AdmitsHolder | daemon/internal/agentcontrol/lease.go:138-146 | an operation is let in exactly when its client is that holder, and goes on record under its session and client |
| ControlLease.DisconnectedHoldsNothing | daemon/internal/agentcontrol/lease.go:157-174 | a client that acquired nothing since its release began holds nothing when it ends |
| ControlLease.RunInv | daemon/internal/agentcontrol/lease.go:90-174 | the invariant behind these |
| LeaseRegistry.LeaseRegistry.Lease | daemon/internal/agentcontrol/lease.go:71-83 | one lease per session, created free on first use |
| LeaseRegistry.LeaseRegistry.Acquire | daemon/internal/agentcontrol/lease.go:90-106 | the client holds the session afterwards, and a takeover is reported exactly when another client held it |
| LeaseRegistry.LeaseRegistry.Release | daemon/internal/agentcontrol/lease.go:110-120 | only the holder gives up the session |
| LeaseRegistry.LeaseRegistry.WithControl | daemon/internal/agentcontrol/lease.go:138-146 | the operation takes effect exactly for the holder, who still holds the session when it has, and its answer is passed on; an empty client never holds |
| LeaseRegistry.LeaseRegistry.ReleaseConnection | daemon/internal/agentcontrol/lease.go:157-174 | every session of the client is freed and no other is touched |

## Left out

- HubTheorems.Delivery: requires that no delta joins a foreign bucket; `HubLabels.DeliveryOfContents` does not, and compares events up to their run label, which is all a foreign bucket changes. `HubJournal.SystemDelivery` proves the requirement of the supervisor.
- HubTheorems.CaughtUp: the same; `HubLabels.CaughtUpOnContents` does without.
- HubTheorems.EveryEventKept: the same; `HubLabels.ContentsKept` does without.
- HubTheorems.CompleteReplay: the same; `HubLabels.CompleteContents` does without.
- HubTheorems.CompleteUnlessAppendFailed: the same; `HubLabels.CompleteUnlessFailed` does without.
- HubTheorems.Restart: the same; `HubLabels.RestartContents` does without.
- HubDelivery.RunInv: the same; `HubLabels.BareInv` does without.
- HubDelivery.StepInv: the same, for one step.
- EventHubImpl.EventHub.Subscribe: event times are not modelled; a replayed delta carries the time of its batch.
- RunTheorems.NoDeadlock: a run body that never returns is outside the claim, and so is the order in which the scheduler picks waiters.
- RunTheorems.EventMatchesRecord: its last clause takes errors of provider construction and of the store to be other than an ended context; the first clause covers any result of a body.
- AgentRuns.SessionRuntime.TryGate: waiting for the gate and leaving on a cancelled context are steps of RunModel. Maintenance commands that hold a session's gate themselves (commands.go:105-140) are not part of it.
- RunJournal.RunInv: closing a runtime's events first ends the run once more (runtime.go:360-371), when all buckets are flushed already; that call is not a step of JournalModel.
- RunTheorems.MarkedIdle: the look at the store that refuses prompts, `/compact` and `/rewind` (commands.go:224-226, 707-709, rewind.go:101-103) is not part of the model; it guards no background run.
- StoreTheorems.RunSound: rewinds go to known ids, committed ids do not carry the summary prefix unless already known, ids of copies are new; the store checks none of these.
- SessionStore.Store.Checkpoint: the listing of checkpoints is not modelled.
- PersistedCompaction.CompactionRefines: covers `/compact`; repeated automatic compaction, whose protected system head detection does not see, and the in-memory compaction are not part of this model.
- ReactLoop.Run: messages are stated up to the ids stamped at the end; what a tool, a permission check or an abort writes into a result is a parameter.
- RunJournalStore.ReadHistory: a directory or a file that cannot be read fails the scan; Subscribe's `readOk` stands for that.
- Jsonl.ScanFile: JSON text is a line that decodes to a record or does not; a carriage return before the newline is not counted.
- Recovery.MarkInterruptedRuns: the directory listing and the session filter are its input list.
- RequestTable.Registry.RecordLocked: the class covers table and queue; Submit with its two lock sections is the step relation of RequestModel. Inputs are compared as such, not by their digest.
- Approvals.GetDecision: the sequence of signals holds a timeout somewhere, as the running timer guarantees.
- CapabilityRegistry.ExecuteCapabilityTool: some round ends the loop, as the running timer guarantees; two calls that wait for the same session and tool at once share a channel and are not covered.
- ControlLease.DisconnectedHoldsNothing: one release of a connection at a time.
- SessionManager.StartRun, execute, CancelRun and Close are steps of RunModel, not methods of a class. Close waits only for the runs it saw; that waiting is not modelled.
- A hub's two channels per subscriber carry values in order; back pressure inside the Go runtime is not modelled.
- Record kinds for identity, workspace and archive mark appear only as records that change no view.
- File system, fsync, file locks, layout migration, JSON encoding, legacy ids.
- Providers, transports, prompts, memory scoring, sandbox command tables, configuration and the terminal front end.
- `RecordRun`, which no production path calls.
