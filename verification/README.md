# Release and operations protocols, modelled and proved in Dafny

The release tooling moves data, money holds and cloud configuration under one rule: an action whose
outcome is unknown is never repeated. This project models the parts of it that carry that rule, and
the arithmetic and parsing they rest on, and proves what each promises.

| file | what it models |
|---|---|
| `Outcomes.dfy`, `Sizes.dfy` | options and results, where a raised denial is a `Refused` value; how sets and maps grow |
| `ChannelModel.dfy`, `ChannelInvariant.dfy`, `ChannelSteps.dfy`, `ChannelCommits.dfy`, `ChannelTheorems.dfy` | the create-only object channel as a state machine over any number of channels: its steps, its invariant, and what holds over whole runs |
| `ChannelProgress.dfy`, `ChannelPhases.dfy` | the channel's reads one by one are the reading functions; a run that may start or close can, and a phase goes through |
| `ChannelBudget.dfy`, `ChannelObject.dfy`, `ChannelAdmission.dfy` | the `Channel` object's methods over a store that others may extend between any two calls, under a budget of objects and bytes, and what they read on reachable stores |
| `ChannelSpending.dfy` | the budget over the life of a namespace |
| `CopyFormat.dfy`, `CopyRows.dfy`, `CompareContent.dfy` | the binary COPY format, its streaming reader, and the exact multiset comparison under one budget |
| `OwnerModel.dfy`, `OwnerSafety.dfy`, `OwnerTheorems.dfy`, `OwnerAnswers.dfy` | the owned transfer: parent, anchor and worker, their pipes, the deadline and the process group, and which answer is given when |
| `HoldChecks.dfy`, `HistoricalHolds.dfy` | the checks on one run, usage event and cost liability, and the reconciliation of the three tables |
| `Crc32c.dfy` | the bit-level checksum and the integrity check on secrets |
| `ResourceList.dfy`, `InventoryCollect.dfy` | paginated listing, and the classification of every environment entry |
| `FailureGraph.dfy` | the bounded walk over a cyclic exception graph |
| `ScheduleRestore.dfy` | resumable restoration of schedules |
| `BootstrapJournal.dfy` | the write-ahead bootstrap journal |
| `BreakEven.dfy` | break-even counts and the worst mix |

Protocols are total functions `Step` over events, and their theorems range over every event sequence:
crashes, lost acknowledgements, late effects and other processes are events. Procedures that update
state are methods with their loops, proved against functions on values. Digests are injective: where
the source compares SHA-256 values the model compares the bytes themselves. A disabled event leaves
the state alone.

Five things the proofs showed about the code, kept as it is:

- `attempt_started` is exact about the transfer but not about the start marker: a marker that was made
  and then cannot be synced is left behind by an answer that reports nothing started
  (`OwnerTheorems.MarkerLeftBehind`), and only then (`OwnerTheorems.FalseLeavesMarker`).
- An interrupt between the acceptance of the worker's report and the end of the parent's loop gives a
  cancelled answer that still carries the report's figures (`OwnerTheorems.LateInterruptShows`); no
  other answer but a verified one carries any (`OwnerTheorems.OthersReportNothing`).
- The tallies of a comparison are keyed by the dotted table name, so names that contain a dot can
  overwrite each other's tally (`CompareContent.DottedNamesCollide`, exact conditions in
  `CompareContent.OneTallyPerTable` and `CompareContent.KeysAgreeExactly`).
- A schedule whose start is on record but whose request never took effect stays as it is for ever: no mode
  of a later invocation changes anything, and only a reconciliation that finds the schedule enabled goes on
  (`ScheduleRestore.UnsentPinStays`).
- The reader's verdict is independent of chunk boundaries under the positive `row_bytes` that the limits
  demand (`CopyRows.Rows`); with a bound of zero it would not be (`CopyFormat.BoundMustBePositive`). The
  row bound is never tested on a row without fields (`CopyFormat.RowFits`).

## Model

| member | source | states |
|---|---|---|
| `ChannelTheorems.MutualExclusion` | backend/scripts/native_acquisition_channel.py:184-261 | in every interleaving of any number of channels, crashes, lost acknowledgements and creates that apply late, at most one checkpoint has a claimed run without its run terminal, although the reads of `begin` and its claim are separate steps |
| `ChannelTheorems.OneStartedChannel` | backend/scripts/native_acquisition_channel.py:226-306 | at most one live channel is past its stored claim and not yet past its stored run terminal, whether or not `begin` or `finish` has returned |
| `ChannelTheorems.AtMostOneSend` | backend/scripts/native_acquisition_channel.py:138-147 | over the whole life of the namespace a key reaches the transport at most once, and its intent object is stored |
| `ChannelTheorems.SendFollowsIntent` | backend/scripts/native_acquisition_channel.py:263-269 | a send happens only by the channel whose own intent object is already pinned in the store, and only for a key never sent before |
| `ChannelTheorems.PermanentFailStop` | backend/scripts/native_acquisition_channel.py:237-261 | once the open run's channel is gone without a run terminal on its way, no continuation adds a claim or a send and no `begin` returns |
| `ChannelTheorems.AbandonedForever` | backend/scripts/native_acquisition_channel.py:237-261 | the same, stated from the empty namespace over any history and any continuation |
| `ChannelTheorems.ChainConservation` | backend/scripts/native_acquisition_channel.py:204-224 | along every parent chain `_parent` accepts the phase sets grow strictly from the empty genesis, after and before checkpoints meet, and the recorded requests sum to the phases committed at the tip |
| `ChannelTheorems.ChainMeans` | backend/scripts/native_acquisition_channel.py:204-224 | the walk accepts exactly the lineages of completed runs: each stored as its own run's terminal under this binding, with one to ten requests and its own acknowledgement, linked to the next, from the checkpoint down to nothing, none twice and no more than the bound |
| `ChannelTheorems.ParentAccepted` | backend/scripts/native_acquisition_channel.py:204-224 | conversely the chain left by finished runs is always accepted: neither the visit bound nor the cycle check refuses it |
| `ChannelCommits.CommitAtomicity` | backend/scripts/native_acquisition_channel.py:271-283 | in every reachable store a phase terminal implies its intent and every listed file with the recorded reference, each listed once; the result file always, the raw and retained responses unless it records a refusal, the compiled document exactly for a captured compile phase, and nothing else |
| `ChannelCommits.AcceptedCommits` | backend/scripts/native_acquisition_channel.py:162-181 | the checks `_phase` makes on a commit accept exactly those: this key and intent, each file once, and the files its recorded result calls for |
| `ChannelCommits.PublishedKinds` | backend/scripts/native_acquisition_channel.py:276-280 | `terminal` publishes result, raw, retained and compiled in this order, as far as the state and phase call for them |
| `ChannelInvariant.ExactScanIsCommitted` | backend/scripts/native_acquisition_channel.py:184-197 | the scan of `finish`, made by the owner of the open run, ends with exactly the committed phases |
| `ChannelSteps.ClaimFollowsLast` | backend/scripts/native_acquisition_channel.py:226-261 | a claim that the store accepts continues exactly where the last closed run ended |
| `ChannelSteps.RunCommitsWhatItSent` | backend/scripts/native_acquisition_channel.py:285-297 | when a scan before `finish` shows nothing unknown, the phases added since the claim are exactly the keys the run sent, each once |
| `ChannelSteps.StepKeeps` | backend/scripts/native_acquisition_channel.py:226-306 | every event keeps the protocol invariant over store, claims, channels and transport log |
| `ChannelSteps.Reached` | backend/scripts/native_acquisition_channel.py:226-306 | hence every event sequence from the empty store reaches a state in the invariant |
| `ChannelObject.Store.Create` | backend/scripts/native_acquisition_channel.py:392-400 | create succeeds only on an absent name, never changes another object, and may apply without an acknowledgement |
| `ChannelObject.Channel.Get` | backend/scripts/native_acquisition_channel.py:120-131 | returns the stored object of that name, the very reference asked for and within the budget, or refuses; a missing acknowledged object is refused; alone, exactly then |
| `ChannelObject.Channel.Bounds` | backend/scripts/native_acquisition_channel.py:133-136 | the test passes exactly when the references fit the budget of objects and of bytes |
| `ChannelBudget.WithinLess` | backend/scripts/native_acquisition_channel.py:133-143 | what fits the budget still fits with fewer references, so a refusal on the way is one of the whole |
| `ChannelObject.Channel.Create` | backend/scripts/native_acquisition_channel.py:138-147 | an acknowledged create means the name was absent, the budget covers it and the name is now pinned to these bytes; alone, exactly then |
| `ChannelObject.Channel.Phase` | backend/scripts/native_acquisition_channel.py:153-182 | alone it is exactly the reading of the store, unless the budget does not cover what that touches; among other writers a captured phase stays as read, with its commit in order and exactly its files' bytes, and an absent one was absent at the start |
| `ChannelObject.PhaseIs` | backend/scripts/native_acquisition_channel.py:153-182 | one store's reading of a phase in every case: absent, unfinished with its intent, captured exactly when the commit is in order and every listed file is stored as listed, and then exactly the intent's and those files' bytes |
| `ChannelObject.Channel.Remote` | backend/scripts/native_acquisition_channel.py:184-197 | the view of all keys: the committed phases, the files they list and the unfinished keys, alone exactly the reading of the store if the budget covers it; among other writers each committed phase and its files stay as read, and a key in neither was without intent at the start |
| `ChannelObject.Channel.Parent` | backend/scripts/native_acquisition_channel.py:204-224 | the `while` loop accepts exactly the chains the recursive reading accepts and the budget covers |
| `ChannelObject.Channel.Review` | backend/scripts/native_acquisition_channel.py:237-257 | the reads of `begin` and its comparisons: what they find still holds when they are done, whoever else writes; alone they pass exactly when store and journal meet every demand and the budget covers what was read |
| `ChannelObject.Channel.Begin` | backend/scripts/native_acquisition_channel.py:226-261 | `begin` returns only with its claim newly stored and, whoever else writes, every demand on store, dispatch and local journal met and nothing unknown; alone, exactly when in addition the budget covers its reads and its claim |
| `ChannelObject.Channel.BeforeSend` | backend/scripts/native_acquisition_channel.py:263-269 | returns only on the channel's own journal, when the key is new to the run and its intent object was created with the journal's bytes; alone, exactly when the name was free and the budget covers it |
| `ChannelObject.Channel.Terminal` | backend/scripts/native_acquisition_channel.py:271-283 | publishes from the channel's own journal the files of the result state and then the terminal; the phase then reads back exactly these bytes, of the intent and of exactly the files that the result's state calls for; alone it succeeds exactly when the journal has the files, their names are free and the budget covers them all |
| `ChannelObject.Channel.Finish` | backend/scripts/native_acquisition_channel.py:285-297 | creates the run terminal with the after-checkpoint just read and the number of keys sent, only with something sent, and every key is committed as recorded or had no intent at the start; alone it succeeds exactly when the reading shows nothing unknown, the terminal's name is free and the budget covers reading and terminal |
| `ChannelObject.Channel.Stop` | backend/scripts/native_acquisition_channel.py:299-306 | records the stop of its dispatch in the channel's own journal, once, and leaves any other journal and the store alone |
| `ChannelObject.StoppedJournalBars` | backend/scripts/native_acquisition_channel.py:226-230 | once a channel has stopped on the journal it began with, no `begin` on that journal returns |
| `ChannelAdmission.PhaseNeverDenied` | backend/scripts/native_acquisition_channel.py:153-182 | `_phase` never refuses a reachable store: it reads absent, unknown, or exactly the commit, the intent and each listed file's bytes |
| `ChannelAdmission.HonestDispatchAdmitted` | backend/scripts/native_acquisition_channel.py:226-261 | on a reachable namespace without an open run, a dispatch naming the tip and a matching journal passes everything `begin` demands of store, dispatch and journal; what is left is the budget |
| `ChannelSpending.HonestTouch` | backend/scripts/native_acquisition_channel.py:226-257 | the reads of such a `begin` are, for the budget, exactly the binding, everything of every phase, the run terminals with their acknowledgements, and its own acknowledgement |
| `ChannelSpending.BudgetStaysSpent` | backend/scripts/native_acquisition_channel.py:133-143 | a later honest `begin` reads everything an earlier one had to read but its acknowledgement, so once the budget does not cover that no later `begin` is ever admitted |
| `ChannelProgress.PhaseRead` | backend/scripts/native_acquisition_channel.py:153-182 | the reads of one key, undisturbed, end in what the reading of the phase is, or in its refusal |
| `ChannelProgress.RemoteRead` | backend/scripts/native_acquisition_channel.py:184-197 | an undisturbed scan ends with the view of all keys |
| `ChannelProgress.ParentRead` | backend/scripts/native_acquisition_channel.py:204-224 | an undisturbed walk issues the claim exactly when the parent chain is accepted |
| `ChannelProgress.BeginRead` | backend/scripts/native_acquisition_channel.py:237-261 | an undisturbed `begin` issues its claim exactly when the store passes review, the budget aside |
| `ChannelProgress.FinishRead` | backend/scripts/native_acquisition_channel.py:285-297 | an undisturbed `finish` issues the run terminal of exactly the phases read, unless something is unknown or nothing was sent, the budget aside |
| `ChannelProgress.HonestDispatchStarts` | backend/scripts/native_acquisition_channel.py:226-261 | the budget aside: after any history that left no run open, a dispatch naming the tip has a continuation in which its channel starts |
| `ChannelProgress.FirstRunStarts` | backend/scripts/native_acquisition_channel.py:226-261 | in particular, from the empty namespace: once binding and acknowledgement are stored, a dispatch from nothing starts, the budget aside |
| `ChannelProgress.ReadyIsQuiet` | backend/scripts/native_acquisition_channel.py:271-283 | after any history, when a channel is between two keys of its run every intent in the store has its terminal |
| `ChannelProgress.StartedRunCloses` | backend/scripts/native_acquisition_channel.py:285-297 | the budget aside: after any history, a channel between two keys that has sent something has a continuation in which it finishes and the run is closed |
| `ChannelPhases.PhaseGoesThrough` | backend/scripts/native_acquisition_channel.py:263-283 | the budget aside: after any history, a channel between two keys takes any unclaimed key of the plan through its phase, whatever the transport answers: one send, intent and files stored with exactly these bytes, the commit in order, and the channel ready again |
| `CopyFormat.RoundTrip` | backend/scripts/database_transfer.py:490-547 | encoding rows as the "Binary Format" of COPY (PostgreSQL 17) and parsing gives back exactly their frames |
| `CopyFormat.AcceptedIffEncoded` | backend/scripts/database_transfer.py:490-547 | a stream is accepted if and only if it is the 19-byte header, frames of rows within limits and the trailer |
| `CopyFormat.HeaderBytes` | backend/scripts/database_transfer.py:37-37 | the header is the nineteen bytes written out in the "Binary Format" of COPY with zero flags and extension length |
| `CopyFormat.EmptyTable` | backend/scripts/database_transfer.py:508-518 | the twenty-one bytes PostgreSQL sends for an empty table parse to no rows |
| `CopyFormat.OneRow` | backend/scripts/database_transfer.py:508-543 | and the stream of one row with the one field `A`, byte for byte, to that row: counts and sizes are big-endian |
| `CopyFormat.FirstCount` | backend/scripts/database_transfer.py:514-522 | of a row's first two bytes, 65535 ends the rows and 2049 to 65534 are refused as a count; two zero bytes are a row |
| `CopyFormat.ParseFrame` | backend/scripts/database_transfer.py:513-543 | a frame is recognised whatever follows it, so frames are prefix-free |
| `CopyFormat.RowsUnique` | backend/scripts/database_transfer.py:506-547 | one stream encodes one row sequence, exact in every NULL, empty value and byte |
| `CopyFormat.DecodeEncoded` | backend/scripts/database_transfer.py:513-543 | a row frame determines its fields |
| `CopyFormat.ParseAppend` | backend/scripts/database_transfer.py:511-547 | parsing a prefix and then its unread rest with more bytes is parsing the longer stream |
| `CopyFormat.LongPartialNeverEnds` | backend/scripts/database_transfer.py:544-545 | a row unfinished after more bytes than a row may have is never finished, so the bound after the loop refuses no good stream |
| `CopyFormat.BoundMustBePositive` | backend/scripts/database_transfer.py:544-545 | that holds if and only if the row bound is positive: with a bound of zero a chunk that ends inside the trailer refuses a good stream |
| `CopyRows.ContentBudget.Charge` | backend/scripts/database_transfer.py:180-184 | the charge is taken even when it refuses, and refuses exactly when a balance goes negative |
| `CopyRows.ValidLimits` | backend/scripts/database_transfer.py:158-172 | the limits demanded: up to 512 MiB of content, 16 MiB a row, a million rows, 256 objects, and none of them zero |
| `CopyRows.FrameSize` | backend/scripts/database_transfer.py:523-537 | the loop over one row's fields finds exactly the frame of the recursive parser |
| `CopyRows.Drain` | backend/scripts/database_transfer.py:513-543 | the loop over whole rows yields the parser's rows, one charge each, and the reason of any refusal is read off the buffer |
| `CopyRows.Rows` | backend/scripts/database_transfer.py:490-547 | accepts if and only if every clock reading is in time and the concatenated bytes are a good stream within every limit, then yields the simple parser's rows and spends exactly their bytes and rows; any refusal names a reason that holds of the whole stream, so chunk boundaries never matter; a stream passes only with the nineteen header bytes and is refused for its header only without them |
| `CopyRows.ExplainsExtends` | backend/scripts/database_transfer.py:490-547 | a reason for refusal found on a prefix holds of every continuation; an incomplete copy is no such reason, and an unfinished row over the bound is the subject of `CopyFormat.LongPartialNeverEnds` |
| `CompareContent.RowCounts.Insert` | backend/scripts/database_transfer.py:578-578 | the upsert adds one to the row's multiplicity |
| `CompareContent.RowCounts.Remove` | backend/scripts/database_transfer.py:581-583 | the guarded update succeeds exactly when the row is owed and then takes one away |
| `CompareContent.RowCounts.Unbalanced` | backend/scripts/database_transfer.py:584-585 | a nonzero count remains exactly when the multiset is not empty |
| `CompareContent.CountRowsDown` | backend/scripts/database_transfer.py:579-583 | counting down succeeds exactly for sub-multisets of what was counted up |
| `CompareContent.CompareTable` | backend/scripts/database_transfer.py:569-587 | a table passes if and only if both streams are good, within limits and budget, and equal as multisets whatever their order, and is refused for its rows whenever that alone is wrong; the counts are empty again afterwards and the budget has dropped by exactly both sides' bytes and rows |
| `CompareContent.CompareTables` | backend/scripts/database_transfer.py:566-587 | all data tables pass under the one shared budget if and only if each matches and the totals fit, with exactly the totals spent |
| `CompareContent.OnePastTheBound` | backend/scripts/database_transfer.py:588-596 | reading one element past a bound decides equality of the whole and the bound together |
| `CompareContent.CompareObjects` | backend/scripts/database_transfer.py:588-596 | large objects pass if and only if the identity lists agree within the bound, contents are equal and small enough, and both sides' bytes fit the rest of the budget |
| `CompareContent.CompareContent` | backend/scripts/database_transfer.py:550-597 | returns if and only if catalogues, sequences, tables and large objects agree within every limit; then every relation of kind `r` or `m` has equal rows and a tally, and the tallies are the source's |
| `CompareContent.OtherKindsIgnored` | backend/scripts/database_transfer.py:566-568 | relations of any other kind play no part: what could be copied from them changes neither verdict nor tallies |
| `CompareContent.VerdictIsSymmetric` | backend/scripts/database_transfer.py:550-597 | the verdict does not depend on which database is read first, and each side alone is within the single limits although the budget is shared |
| `CompareContent.SameRowsSameBytes` | backend/scripts/database_transfer.py:572-585 | equal multisets of rows have equal counts and byte totals |
| `CompareContent.OneTallyPerTable` | backend/scripts/database_transfer.py:586-586 | there is one tally per data table if and only if no two dotted names agree |
| `CompareContent.KeysAgreeExactly` | backend/scripts/database_transfer.py:586-586 | two dotted names agree if and only if both parts do, or one schema is the other with a dot and a middle that the other table begins with |
| `CompareContent.PlainNamesApart` | backend/scripts/database_transfer.py:586-586 | distinct tables have one tally each when no schema name contains a dot, or no table name does |
| `CompareContent.LastTallyStands` | backend/scripts/database_transfer.py:586-586 | of the data tables with one dotted name it is the last one's count that is kept |
| `CompareContent.DottedNamesCollide` | backend/scripts/database_transfer.py:586-586 | a catalogue with tables `a.b`.`c` and `a`.`b.c` has two distinct data tables and always a single tally, the second one's |
| `CompareContent.TalliesWithinLimits` | backend/scripts/database_transfer.py:828-842 | a comparison that passes never trips the bounds the owned worker puts on the tallies, even when names collide |
| `OwnerSafety.StepKeeps` | backend/scripts/database_transfer.py:795-1041 | every step of parent, anchor, worker, kernel or clock keeps the protocol invariant |
| `OwnerSafety.Reachable` | backend/scripts/database_transfer.py:795-1041 | hence every interleaving from the launch stays in the invariant |
| `OwnerTheorems.VerifiedReturn` | backend/scripts/database_transfer.py:979-1041 | a verified answer means one admitted worker created the marker, performed one transfer within the limits, exited 0, was heard before the work deadline, and its whole group was gone before the final one; the figures are the transfer's |
| `OwnerTheorems.VerifiedShows` | backend/scripts/database_transfer.py:979-1041 | and such an answer is reached by a run in which nothing goes wrong |
| `OwnerTheorems.OthersReportNothing` | backend/scripts/database_transfer.py:1003-1041 | any other answer is never labelled complete, and it carries zero counts unless it is cancelled by an interrupt that came after a report was accepted and before the loop was left; then it carries that report's figures |
| `OwnerTheorems.LateInterruptShows` | backend/scripts/database_transfer.py:1011-1018 | such a cancelled answer with nonzero counts exists |
| `OwnerTheorems.NoTransferWithoutAdmission` | backend/scripts/database_transfer.py:807-812 | no transfer begins without the admission byte, which is written once, by a parent that has just seen its own live anchor leading a session with the worker in it |
| `OwnerTheorems.FinalAnswers` | backend/scripts/database_transfer.py:1022-1041 | every answer but `reconcile_required` is final: no process of the group is left and nothing touches marker or transfer afterwards |
| `OwnerTheorems.StartedIsExact` | backend/scripts/database_transfer.py:989-1002 | `attempt_started` false means no transfer has begun or ever will; true means one did and the marker is this invocation's |
| `OwnerTheorems.MarkerLeftBehind` | backend/scripts/database_transfer.py:814-827 | but it says nothing of the marker: a failed sync after its creation reports nothing started and leaves it behind |
| `OwnerTheorems.FalseLeavesMarker` | backend/scripts/database_transfer.py:811-827 | exactly when: from a directory without this invocation's marker, an answer with `attempt_started` false leaves the marker behind if and only if the sync after its creation failed in the run |
| `OwnerTheorems.ParentDeath` | backend/scripts/database_transfer.py:877-892 | a parent that dies before admitting the worker, or the anchor's next look at the lifeline after it, ends the matter for ever |
| `OwnerTheorems.ParentAnswers` | backend/scripts/database_transfer.py:989-1041 | past the deadline the parent ends at most eight more program points, whatever the other processes do, and having ended those before it it has returned, unless it was killed |
| `OwnerTheorems.LateAnswer` | backend/scripts/database_transfer.py:1031-1034 | an answer given past the deadline is `reconcile_required` with zero counts whenever there was a group to clean up |
| `OwnerTheorems.HonestReportsAreRead` | backend/scripts/database_transfer.py:1001-1013 | the parent never refuses for its contents a report a worker wrote, in time and with exit 0 |
| `OwnerAnswers.AnswerFollows` | backend/scripts/database_transfer.py:989-1041 | over every event sequence, which answer is given: `reconcile_required` with zero counts when an anchor was forked and its group's end was not seen before the deadline; else cancelled after an interrupt, what the report says when it was accepted and the loop left, and otherwise `reconcile_required` if the admission byte was written and `refused` if not, with the deadline's phase only when the loop ended for it |
| `OwnerAnswers.RefusedExactly` | backend/scripts/database_transfer.py:1013-1041 | an admitted worker without an accepted report is answered `reconcile_required` or cancelled; an answer that vouches for the group is `refused` exactly when no byte was written and no interrupt took effect, or the worker's refusal was accepted and the loop left |
| `OwnerAnswers.InterruptLeaves` | backend/scripts/database_transfer.py:1017-1018 | an interrupt takes effect at every point before cleanup |
| `OwnerAnswers.LoopGoesOn` | backend/scripts/database_transfer.py:979-979 | the loop goes on exactly while two seconds of the deadline are left |
| `OwnerAnswers.AcceptedExactly` | backend/scripts/database_transfer.py:1001-1013 | a complete report is accepted exactly when it is a success within the limits or a refusal with one of the 24 phases and no figures, the worker exited 0 and two seconds are left; anything else ends the loop |
| `OwnerAnswers.LoopWaits` | backend/scripts/database_transfer.py:989-1013 | a missing ready message, report or exit is waited for |
| `OwnerAnswers.LiveGroupIsAdmitted` | backend/scripts/database_transfer.py:989-1000 | over every history, a parent that has read the ready message admits the worker exactly when the anchor is alive and the worker not yet reaped |
| `OwnerAnswers.ReportedExactly` | backend/scripts/database_transfer.py:829-849 | the worker reports a success exactly for a transfer within the limits, with its figures, and any other end as a refusal with its own fixed phase or the first one |
| `OwnerAnswers.StoppedBeforeStart` | backend/scripts/database_transfer.py:811-822 | a directory that is not private, or one that fails, is reported with its phase and nothing started |
| `OwnerAnswers.StoppedByMarker` | backend/scripts/database_transfer.py:814-827 | so is a marker that is already there, and one that cannot be synced |
| `OwnerAnswers.WaitsForAdmission` | backend/scripts/database_transfer.py:807-808 | a worker waits for its admission exactly as long as a parent is there to give it |
| `OwnerAnswers.ReportsComeLast` | backend/scripts/database_transfer.py:828-843 | over every history, no report is made while one of the transfer's commands runs |
| `OwnerAnswers.ReadsWait` | backend/scripts/database_transfer.py:980-988 | over every history, the parent gives up on a pipe exactly when it is empty and nobody is left to write to it |
| `OwnerAnswers.AnchorWatches` | backend/scripts/database_transfer.py:877-888 | an anchor leaves its group alone while a parent holds the lifeline and ends it once none does, and reports the worker's end as good only for exit 0 |
| `OwnerAnswers.AnchorsEnd` | backend/scripts/database_transfer.py:888-893 | an anchor that fails takes its group along |
| `OwnerAnswers.Signals` | backend/scripts/database_transfer.py:896-911 | over every history, the parent's signal to the group succeeds exactly when it is sent and the anchor has made a group, and then nothing of it runs |
| `OwnerAnswers.CleanupFinds` | backend/scripts/database_transfer.py:911-932 | which of its five findings cleanup reports, before and past the deadline |
| `OwnerTheorems.AtMostOneTransfer` | backend/scripts/database_transfer.py:814-828 | over any number of invocations on one directory, interleaved and killed at will, at most one transfer begins and at most one answer is verified; none with a stranger's marker |
| `HistoricalHolds.Index` | backend/scripts/email_password_schema21_step.py:64-73 | accepts exactly bounded, well-formed, distinct ids: a repeated id shows as a smaller dictionary |
| `HistoricalHolds.HistoricalHolds` | backend/scripts/email_password_schema21_step.py:49-170 | returns if and only if the three tables balance: each well formed, every unresolved liability with one run and one event that prove its hold, every other run and event settled; the returned sets are those runs and events, and a refusal's reason is one of the tables |
| `HistoricalHolds.ReconciledMeans` | backend/scripts/email_password_schema21_step.py:77-170 | the row-by-row test accepts exactly the balanced tables |
| `HoldChecks.HoldMeans` | backend/scripts/email_password_schema21_step.py:77-150 | a liability's hold is found exactly when one event and one run are bound to it alone, their states prove a failed attempt of unknown outcome, and their quotes one reserved amount |
| `HoldChecks.StateMeans` | backend/scripts/email_password_schema21_step.py:88-108 | the state check accepts exactly a run that failed once and was waived, an event and a liability of unknown outcome, of one user and group, with no second attempt |
| `HoldChecks.QuoteMeans` | backend/scripts/email_password_schema21_step.py:109-147 | the quote check accepts exactly quotes that name one policy, price and parties, one amount under every ceiling that covers the estimated cost, and stamps in order within the price's validity |
| `HoldChecks.CostMeans` | backend/scripts/monetary_cutover_preflight.py:254-259 | the reserve is the one amount of micros that covers estimate and output limit at their own rates per million and would not if it were one less |
| `HoldChecks.SavedMeans` | backend/scripts/email_password_schema21_step.py:113-114 | the saved price is the policy's first for that provider, model and endpoint |
| `HistoricalHolds.HoldsAreApart` | backend/scripts/email_password_schema21_step.py:77-100 | two unresolved liabilities never share a run or an event, although no check compares two liabilities' runs |
| `HistoricalHolds.HoldConservation` | backend/scripts/email_password_schema21_step.py:77-170 | if it returns, unresolved liabilities, returned runs and returned events are equally many, and the money reserved on all runs is exactly what the unresolved liabilities reserve |
| `HistoricalHolds.ReturnedExactly` | backend/scripts/email_password_schema21_step.py:151-170 | a run is returned exactly when it reserves money, then within its ceiling; an event exactly when its outcome is unknown |
| `Crc32c.PolynomialIsCastagnoli` | backend/scripts/legacy_credential_inventory.py:471-471 | the constant is the Castagnoli polynomial of section 12.1 of RFC 3720 with its bits in reverse |
| `Crc32c.Checksum` | backend/scripts/legacy_credential_inventory.py:466-472 | the nested loops compute the checksum of the recursive definition |
| `Crc32c.CheckValue` | backend/tests/test_legacy_credential_inventory.py:420-421 | the published check value: the digits 123456789 have the checksum E3069283, and nothing has zero |
| `Crc32c.ShiftLinear` | backend/scripts/legacy_credential_inventory.py:470-471 | one turn of the inner loop is linear over exclusive or |
| `Crc32c.ShiftInjective` | backend/scripts/legacy_credential_inventory.py:470-471 | one turn loses nothing |
| `Crc32c.ShiftOnto` | backend/scripts/legacy_credential_inventory.py:470-471 | and reaches every 32-bit state |
| `Crc32c.CrcAffine` | backend/scripts/legacy_credential_inventory.py:466-472 | the checksum of a combination of three equal-length messages is the combination of their checksums |
| `Crc32c.ErrorSeen` | backend/scripts/legacy_credential_inventory.py:466-472 | whether an error goes unseen depends on the error pattern alone |
| `Crc32c.AbsorbIsFeed` | backend/scripts/legacy_credential_inventory.py:466-472 | the loops over bytes feed the register the message's bits, lowest bit of each byte first |
| `Crc32c.WindowMeets` | backend/scripts/legacy_credential_inventory.py:466-472 | after windows of at most 32 bits two states meet exactly when they differed by the windows' difference, first bit lowest |
| `Crc32c.BurstDetected` | backend/scripts/legacy_credential_inventory.py:466-472 | messages of one length whose bits agree outside 32 consecutive ones, at any bit offset, have equal checksums if and only if they are equal |
| `Crc32c.HiddenIsUnseen` | backend/scripts/legacy_credential_inventory.py:466-472 | two messages that differ exactly in the polynomial's own 33 coefficients, at any bit offset, are different and have the same checksum |
| `Crc32c.LongerBurstEscapes` | backend/scripts/legacy_credential_inventory.py:466-472 | 32 is the most: for every message and every bit offset at which 33 bits fit there is a different message with the same checksum |
| `Crc32c.CrcParity` | backend/scripts/legacy_credential_inventory.py:466-472 | the checksum has an odd number of ones exactly when the message has |
| `Crc32c.OddErrorDetected` | backend/scripts/legacy_credential_inventory.py:466-472 | messages of one length that differ in an odd number of bits, however far apart, have different checksums |
| `Crc32c.CloseMessagesDiffer` | backend/scripts/legacy_credential_inventory.py:466-472 | two different equal-length messages that agree outside four consecutive bytes have different checksums |
| `Crc32c.SecretValue` | backend/scripts/legacy_credential_inventory.py:475-513 | succeeds exactly for valid metadata, unchanged afterwards, and for an enabled version an intact, decodable payload, which it returns |
| `Crc32c.AlteredPayloadRefused` | backend/scripts/legacy_credential_inventory.py:505-508 | an intact payload altered within 32 consecutive bits is refused under the same checksum |
| `FailureGraph.Frames` | backend/scripts/document_refresh.py:2071-2095 | the traceback loop keeps the first own frames that both budgets allow and says exactly when it left something out |
| `FailureGraph.FailureDiagnostics` | backend/scripts/document_refresh.py:2043-2111 | on any exception graph, cyclic ones included, at most 8 nodes, 12 frames each and 48 in all; the nodes are exactly the breadth-first discovery order, each keeps as many of its own frames as were left for it, every edge index is valid and right, and truncated is set exactly when some row lost something |
| `FailureGraph.TruncatedExactly` | backend/scripts/document_refresh.py:2095-2111 | nothing is lost if and only if every row is exact; then the nodes are precisely the reachable exceptions |
| `ScheduleRestore.OrderMeans` | backend/operations/schema26_compatible_recovery.py:856-871 | checked pins form a prefix, at most one further pin is started and unchecked, and at most one request per pin was ever sent |
| `ScheduleRestore.Restoration.Verify` | infra/gcp/schema26_schedule_resume.py:47-103 | passes only when every marker reads and every schedule's state agrees with its markers |
| `ScheduleRestore.Restoration.ResourceAction` | infra/gcp/schema25_maintenance.py:286-306 | the intent is durable before the one request, reconciling never sends, success from an unstarted pin means exactly one request, and no other pin is touched |
| `ScheduleRestore.Restoration.Attend` | backend/operations/schema26_compatible_recovery.py:856-871 | the body of the loop for one pin, in each mode; undisturbed, exactly what it records, sends and answers |
| `ScheduleRestore.Restoration.ExecuteSchedules` | backend/operations/schema26_compatible_recovery.py:834-877 | any invocation, cut off anywhere, keeps the order and only extends the journal; reconcile and observe never start or send, observe changes nothing, a pin started and checked by one invocation had its one request sent, a torn record stops everything, and each answer describes the journal exactly; undisturbed, it goes exactly as far as its mode lets it: a resumption restores every pin unless one is started and unchecked, a reconciliation checks that one if it took effect, an observation names it |
| `ScheduleRestore.UnsentPinStays` | backend/operations/schema26_compatible_recovery.py:856-871 | undisturbed, an invocation that meets a started and unchecked pin changes the journal if and only if it reconciles and the schedule came on; otherwise it is denied or names that pin |
| `ScheduleRestore.Restoration.Campaign` | backend/operations/schema26_compatible_recovery.py:834-877 | over any number of invocations in any modes the order is kept and the journal only extended, and a request is only ever sent for a pin that had not been started; without a resume among them nothing is bound, started or sent, with observations alone nothing changes, a torn record stops every one of them, and a restored answer means every pin stays checked |
| `ResourceList.AddRows` | backend/scripts/legacy_credential_inventory.py:346-350 | rows are added exactly when all identities are good and no name repeats on this or an earlier page |
| `ResourceList.List` | backend/scripts/legacy_credential_inventory.py:325-359 | succeeds if and only if the pages lead through distinct tokens to an empty one within all bounds, having asked with each answer's token in turn; the result is exactly the disjoint union of the pages read |
| `InventoryCollect.Enter` | backend/scripts/legacy_credential_inventory.py:594-679 | one entry is added to exactly the place its value decides, its secret read once per version |
| `InventoryCollect.CollectContainer` | backend/scripts/legacy_credential_inventory.py:570-677 | a container passes only when it is well formed, and then all its entries and its mounts are accounted for in order |
| `InventoryCollect.Collect` | backend/scripts/legacy_credential_inventory.py:546-677 | on success the credentials, secret users and unresolved rows are exactly what all entries of all resources amount to, within the bounds on secrets and values; a refusal is for one of its stated causes, too many values or secrets only where some of the entries need more than the bound |
| `InventoryCollect.EntryAccounted` | backend/scripts/legacy_credential_inventory.py:594-686 | when every resource is well formed, the origin of a model or database entry occurs exactly once under the one credential its stripped text makes, or exactly once among the unresolved rows for its one reason, or nowhere because its text is blank; an entry of another name occurs nowhere, or once as an unsupported alias; and a pinned secret version lists the entries that refer to it, once each |
| `InventoryCollect.FateMeans` | backend/scripts/legacy_credential_inventory.py:620-677 | what an entry amounts to, read off its name, its text and its category: kept, blank, unresolved with which reason, or ignored, each exactly |
| `InventoryCollect.MountsAccounted` | backend/scripts/legacy_credential_inventory.py:680-686 | a container with mounts leaves exactly one unresolved row of its own |
| `BootstrapJournal.StepKeeps` | backend/scripts/bootstrap_candidate_native_authority.py:311-374 | every step of every process on one directory keeps the journal invariant |
| `BootstrapJournal.WritesAreOnePlan` | backend/scripts/bootstrap_candidate_native_authority.py:1006-1012 | over every interleaving, failed append and crash the writes issued are the first operations of one process's plan, in order, once each, numbered from 1; none on an occupied directory |
| `BootstrapJournal.IntentsComeFirst` | backend/scripts/bootstrap_candidate_native_authority.py:336-374 | every write is preceded by its own durable intent and by the ack of every earlier write, so nothing follows the first unconfirmed one |
| `BootstrapJournal.UndisturbedFinishes` | backend/scripts/bootstrap_candidate_native_authority.py:336-374 | on an empty directory a process that nothing disturbs issues every operation of its plan between its intent and its ack, in order, and records the result |
| `BootstrapJournal.UnknownIsRecorded` | backend/scripts/bootstrap_candidate_native_authority.py:352-374 | a refused manager check, a failed response or check, and a failed ack all lead to an unknown record, after which the process stops |
| `BootstrapJournal.LaterProcessesStop` | backend/scripts/bootstrap_candidate_native_authority.py:1006-1012 | a process that finds anything on the directory stops, and a stopped one never does anything again |
| `BootstrapJournal.ResultIsComplete` | backend/scripts/bootstrap_candidate_native_authority.py:670-913 | a result on record means the whole plan was issued and every write of it acknowledged |
| `BootstrapJournal.WritesApart` | backend/scripts/bootstrap_candidate_native_authority.py:104-113 | the twelve writes of a plan are pairwise different if and only if the plan passes its own check on databases and keys |
| `BootstrapJournal.SmallProgram` | backend/scripts/bootstrap_candidate_native_authority.py:670-913 | the twelve writes of one small plan, written out in their order |
| `BootstrapJournal.EachWriteOnce` | backend/scripts/bootstrap_candidate_native_authority.py:670-913 | over every interleaving of attempts with valid plans no write is issued twice, at most twelve are, and a result on record means twelve issued and acknowledged |
| `BreakEven.Ceil` | backend/app/billing/cost_policy.py:111-112 | the least integer not below the fraction |
| `BreakEven.Forecasts` | backend/scripts/audit_expense_policy.py:23-57 | one row per pack in order, whose break-even count is reached exactly by the counts with a nonnegative forecast, and whose monthly rows are the forecasts of 10, 50 and 100 packs |
| `BreakEven.ReceiptsAccountedFor` | backend/app/billing/cost_policy.py:119-130 | what a buyer paid splits to the last unit into net receipts, four proportional charges, each rounded up, and two fixed ones |
| `BreakEven.UnitCost` | backend/app/billing/cost_policy.py:115-116 | an analysis unit costs its overhead and its model ceiling at the adverse rate per million, rounded up |
| `BreakEven.FixedExpenses` | backend/scripts/audit_expense_policy.py:24-25 | the fixed expenses are both monthly amounts with the contingency, rounded up once |
| `BreakEven.PackReserve` | backend/scripts/audit_expense_policy.py:32-39 | a pack contributes what the discounted sale leaves after the least whole amount that covers, with the contingency, its credits and bonus spent on searches alone and spent on applications alone, all units included |
| `BreakEven.BreakEvenIsLeast` | backend/scripts/audit_expense_policy.py:38-45 | the count is the least whose forecast is nonnegative; when there is none, no count ever breaks even |
| `BreakEven.WorstMix` | backend/scripts/audit_expense_policy.py:33-37 | no split of the service credits between searches and applications costs more than the bound used, before or after the buffer |
| `BreakEven.WorstMixIsReached` | backend/scripts/audit_expense_policy.py:33-37 | and the bound is attained when the credits divide evenly |
| `BreakEven.BreakEvenForEveryMix` | backend/scripts/audit_expense_policy.py:32-45 | selling the break-even count covers the buffered fixed expenses whatever each buyer does with the pack |

## Left out

- Object channel: the size bounds of a single object, name and digest patterns, `_validate_configuration`, the journal's own identity and file modes, `execute`, `restore` and `inspect`. Names of different families are distinct constructors, so no two collide; one plan and one binding per namespace; nobody but the channels, the administrator's binding and the dispatch acknowledgements writes to the store.
- ChannelProgress.HonestDispatchStarts, ChannelProgress.StartedRunCloses: the state machine has no budget, because a refusal for it is one of the crashes its safety theorems already range over; the object's methods state it exactly.
- The transport behind `before_send` and `terminal` is an environment that sends a key only after `before_send` returned for it. In the state machine a run handles one key at a time, as its one caller does (backend/app/domains/analysis/native_input_acquisition.py:335-372); the object's methods may be called in any order.
- The streaming reader: rows are returned together, not yielded one by one; the comparison consumes the rows before it looks at the refusal, which keeps the order of reasons but not the interleaving of clock readings with the consumer.
- The content comparison: catalogues and sequences are compared as opaque values; reading them from PostgreSQL, and the refusals within, are not modelled. Every table of the source catalogue is taken to be readable on both sides.
- Owned transfer: messages are written and read whole (each is shorter than a pipe's atomic write), pids are not reused, the checks before the admission byte and its writing are one step, an interrupt falls between two steps, the acceptance of a report and the end of the loop being two, and not inside cleanup; streams, umask, file modes and the checks before the first fork are not modelled. The transfer's own work is an outcome chosen by the environment.
- The remote database after an owned transfer is killed, which the source does not certify either.
- Historical holds: which liabilities are already resolved is an input vector of the liabilities' length; JSON columns are absent, invalid or valid records, and the endpoint digest is the endpoint itself.
- Secret values: base64 and UTF-8 decoding are inputs, and the two metadata reads are given.
- Failure diagnostics: the errno, JSON position, HTTP status and fixed code of a row, and how a path is recognised as the repository's own.
- Schedule restoration: what `boundary.verify` checks beyond the schedules, the stock owner's binding, the final table of `verify_schedule_resources` and the comparison of the binding's contents; the two journals' locks serialise invocations.
- Listing: the transport answers with pages; each row's identity check is a flag.
- Inventory: the variable's class, the stripping of values and the two shape checks are parameters, the comparison of a resource with its listing is a flag, and the redaction check, the second enumeration and the time bound are not modelled.
- Bootstrap: what a write's request holds, and the fingerprint and attempt identity that name its objects, are inputs; reads between writes may stop a process at any point; `reconcile` only reads.
- Forecasts: the validated policy is given; `audit` and `ledger_report` are not modelled.
- Migrations, access-control steps, image and source-fingerprint gates, the web application and the command-line parsing would only add equalities with constants.
