# Leibrix control plane: a Dafny model

Leibrix admits datasets as lists of calendar-aligned epochs and elects a leader over etcd. This
project models both parts and proves what they guarantee for every input, every interleaving and
every run. `dafny verify dfyconfig.toml` checks all of it.

**Epoch admission.** `EpochGenerator` turns a time range, a granularity and dimension partitions
into epochs. Instants are integer nanoseconds UTC. The proleptic Gregorian calendar (section 3.2.1
of ISO 8601:2004) is built up from month lengths; Monday-first weeks follow section 3.2.2. For each
unit the calendar boundaries form a numbered grid, and truncation, stepping, tiling, counting and
overlap are all decided on that grid. The 64-bit product used for hours is modelled with its
wrap-around. The epoch list is then merged into the stored list by a read, a merge and a
compare-and-swap on the etcd ModRevision, modelled as steps of many concurrent admissions.

**Leadership.** The etcd side is a machine over leases, election keys, member keys and revisions.
A node runs a campaign goroutine and an observer goroutine that push into a listener's one-slot
leader channel; one more producer fills a bounded membership channel; one consumer serves both.
Worker sessions have many senders, one writer and racing closers; they register with a session
manager whose map the leader callback closes and clears while streams come and go. Every `select`
statement, atomic operation and lock-protected section is one step, and every order of steps is a
run. Where a select has several ready cases, each is a step of its own.

Files, in dependency order: `Sequences`, `Grid`, `Calendar`, `Granularity`, `WrappedHours`, `Slicing`,
`EpochId`, `Dimensions`, `EpochGenerator`, `EpochMatching`, `EpochStore`, `DatasetAdmission` for
admission; `LeaderSink`, `ServingStatus`, `WorkerSessions`, `Election`, `Leadership`,
`RoleAndStatus`, `Session` for leadership. Objects whose
methods update fields are classes (`EpochKey`, `Sink`, `LeaderElection`, `GrpcServer`,
`WorkerSession`); their methods give the effect of an operation that runs undisturbed, and the
machines beside them, which use the same channel and register functions, give all interleavings.

Assumptions about the environment: etcd revisions grow with every write; revoking a lease deletes
all its keys in one revision; a put under a lease that is gone fails; a lease identifier that was
used is not granted again; `Election.Campaign` puts a key, or finds its own, and returns without error
once no older key is left, without looking at its own key again; `Election.Observe` starts
with the leader of that moment and reports leaders in the order in which they led, possibly late,
possibly repeating or skipping some. In `Leadership` node names are distinct and the node has the one
session its `Start` creates; `Election` makes no such assumption. The session manager's map is
concurrent: its loop visits every worker id that stays in the map while it runs, and none twice.
`proto.Equal` is an arbitrary equivalence in `EpochMatching` and equality of values in `EpochStore`.
The iteration order of a Go map is a parameter. The hash in epoch identifiers is an arbitrary function.

## What does not hold, and when it does

- The slicing loop does not end for every granularity. It ends exactly when `Advances` holds:
  value at least 1 or, for hours, a positive wrapped product (`AddMovesForward`,
  `StuckLoopNeverEnds`). It stays on calendar boundaries exactly for values 1 and up, at most
  2,562,047 for hours (`StepAlignedIffSane`).
- Epochs of different admissions can partially overlap. For a fixed granularity with which the loop
  ends they never do exactly when its value is 1 (`NeverOverlapsIffValueOne`): no wrapped product of
  hours divides an hour (`StepDividesHourIffOne`). Larger values also fit together when all
  ranges start in congruent cells (`StoredEpochsNeverOverlap`, `OverlapCanBeStored`).
- `proto/common.proto:114` says duplicate partition values map to the same partition. The generator
  emits duplicate epochs for them. The list is free of duplicates exactly when the dimensions
  separate (`NoDuplicateEpochsIff`, `SetsDistinctIff`).
- The first save of a dataset is an unconditional put, so a successful save can be lost
  (`FirstSavesCanLose`, `FirstRequestsCanLose`). `StepLosesIff` says exactly which step loses epochs,
  and after the key exists and no create is outstanding nothing is lost (`NoLostUpdate`).
- The quota gate compares a count cut to 32 bits; it is exact only below 2^31 (`GateExactIff`).
- `docs/leader-election.md:308` asks that a loss stops leader behaviour at once. A late observation
  can make the node report itself leader again after its lease is gone
  (`StaleObservationRestoresLeader`). With the lease gone and the node not leader, it is leader again
  in some later state exactly when a term of its own is still ahead of the observer, or a campaign
  call is past its put; after a recorded loss, when the campaign is at the top of its loop or has
  stopped, only the observer is left (`LeadsAgainIff`).
- A node can become leader without having led, when its session ends while its campaign waits behind
  another key (`LeaderWithoutHavingLed`). Its key has led within the call exactly when it is still
  there in the first state without older keys (`LeaderHasLedIff`); a node that reports itself leader
  has led unless some campaign call came back after its key was gone (`ViewAlwaysCoherent`).
- Status and role can disagree for good: a candidate without a lease can keep serving
  (`CandidateCanKeepServing`). In settled states in which the last change of the view was broadcast,
  they agree exactly when the newest event is that broadcast or says the same of this node
  (`StatusAgreesIff`), and only a race of the two goroutines makes them differ
  (`DisagreementIsARace`).
- Coalescing is safe for the health status when the newest event has been handled. On an open sink
  that is so exactly when the slot is empty, no leader callback is running and no producer stands
  between removing the newest event and refilling the slot (`NewestHandledIff`,
  `SlowListenerRefinesLossless`). Inside either window the status can be stale
  (`WindowBreaksRefinement`, `CallbackBreaksRefinement`).
- Coalescing is not always safe for closing worker sessions (`SessionsCanOutliveALoss`). A session
  that registers outside a leader callback is closed exactly when an event that does not elect this
  node is handled after that (`ClosedByLossIff`). So it outlives a loss broadcast after it
  registered exactly when none is handled (`OutlivesLossIff`), whatever was handled before
  (`OutlivesLaterLoss`), and also when the loss was never pushed (`OutlivesGivenUpLoss`). When all is
  settled this takes a re-election (`OutlivesOnlyReelection`).
- `docs/leader-election.md:203` says that active sessions are closed on a loss. The session manager
  can forget an open session, which no loss then closes (`ForgottenStaysOpen`): one that registers
  while a loss is being handled (`RegisteredDuringCloseIsForgotten`), or a reconnected one once the
  stream of the session it replaced returns (`ReconnectedIsForgotten`). `StepForgetsIff` says exactly
  which steps do that.
- A `Send` that reports success is not always taken by the writer (`SuccessCanBeStranded`). Once the
  writer has gone, all successful sends have been and will be taken exactly when the outbox is empty
  and either closed, or the closed flag is set and no send stands at its select
  (`ExitLosesNothingIff`).
- Two live sessions under one node name can break the shared lease (`SharedNameBreaksSharedLease`). A
  second session that never registers breaks nothing: the breaking step is exactly a registration
  that takes over the member key of another session's live election key, or a campaign whose member
  key is not under its own lease (`StepBreaksSharedLeaseIff`).
- `docs/leader-election.md:75` says an event is dropped when a listener is slow. That is so for
  membership events; a leader event displaces the one in the slot, and the model follows the code.

## Model

| member | source | states |
|---|---|---|
| Calendar.DayNumberCounts | internal/api/grpc/epoch_generator.go:189-200 | the day that `time.Date` denotes is 0 on 1970-01-01 and one more for the next date, by the calendar's own successor rule |
| Calendar.MonthStartOf | internal/api/grpc/epoch_generator.go:189-200 | month lengths added up from 1970, in both directions, equal the closed form with its leap-year terms |
| Calendar.MonthStartClosedForm | internal/api/grpc/epoch_generator.go:189-200 | every month start is given by a formula without a month table, which fixes the length of every month |
| Calendar.CivilOfDay | internal/api/grpc/epoch_generator.go:189-200 | every day has a valid year, month and day, and they number back to that day |
| Calendar.CivilRoundTrip | internal/api/grpc/epoch_generator.go:189-200 | a valid date is the date of its own day number |
| Calendar.YearOfIsCivilYear | internal/api/grpc/epoch_generator.go:189-200 | counting whole 400-, 100-, 4- and 1-year cycles gives the same year as walking month by month |
| Granularity.AddDays | internal/api/grpc/epoch_generator.go:187-211 | `AddDate` by days shifts by whole days and keeps the clock, whatever months it crosses |
| Granularity.BoundaryIsBoundary | internal/api/grpc/epoch_generator.go:175-200 | the numbered boundaries of a unit are whole hours, midnights, Monday midnights or first-of-month midnights |
| Granularity.BoundaryIsNumbered | internal/api/grpc/epoch_generator.go:175-200 | every such calendar boundary is a numbered one |
| Granularity.TruncateToCell | internal/api/grpc/epoch_generator.go:175-200 | truncation goes to the start of the instant's calendar cell |
| Granularity.TruncateIsGreatestBoundary | internal/api/grpc/epoch_generator.go:175-200 | truncation is the greatest calendar boundary not after the instant |
| Granularity.AddMovesForward | internal/api/grpc/epoch_generator.go:203-217 | a step moves any instant forward if and only if the granularity advances |
| Granularity.StepOnGrid | internal/api/grpc/epoch_generator.go:203-217 | from boundary i a sane step reaches boundary i + value; month steps never suffer day overflow |
| Granularity.StepAlignedIffSane | internal/api/grpc/epoch_generator.go:203-217 | a step from a boundary advances to another boundary if and only if the value is at least 1 and, for hours, at most 2,562,047 |
| WrappedHours.StepDividesHourIffOne | internal/api/grpc/epoch_generator.go:203-217 | among all 32-bit values whose wrapped 64-bit hour product is positive, only 1 gives a step that divides an hour |
| Slicing.StuckLoopNeverEnds | internal/api/grpc/epoch_generator.go:150-167 | when the granularity does not advance, the loop guard holds after any number of iterations |
| Slicing.SlicesTile | internal/api/grpc/epoch_generator.go:150-167 | the intervals are non-empty, contiguous, strictly ordered, start at the truncated start, and only the last reaches the end |
| Slicing.TilingCovers | internal/api/grpc/epoch_generator.go:150-167 | every instant up to the end lies in exactly one interval |
| Slicing.LargerEndAppends | internal/api/grpc/epoch_generator.go:150-167 | enlarging the end only appends intervals |
| Slicing.SlicesClosedForm | internal/api/grpc/epoch_generator.go:150-167 | interval k spans `value` cells from cell i + k * value, so every boundary is a calendar boundary |
| Slicing.RangeClosedForm | internal/api/grpc/epoch_generator.go:144-172 | the count of a range is decided by the cells of start and of end - 1, months included; the first interval contains start |
| Slicing.CountIsCeiling | internal/api/grpc/epoch_generator.go:144-172 | for hours, days and weeks the count is ceil((end - truncated start) / step), for every granularity with which the loop ends, the step of hours being the wrapped product |
| Slicing.SlicesAreCellsMet | internal/api/grpc/epoch_generator.go:144-172 | with value 1 the intervals are exactly the calendar cells that meet the range |
| Slicing.CongruentRangesCompatible | internal/api/grpc/epoch_generator.go:144-172 | two ranges sliced alike from congruent cells never partially overlap |
| Slicing.NeverOverlapsIffValueOne | internal/api/grpc/epoch_generator.go:144-172 | for every granularity with which the loop ends, any two ranges give identical or disjoint intervals if and only if the value is 1 |
| EpochId.GenerateEpochId | internal/api/grpc/epoch_generator.go:222-241 | for any map iteration order the identifier is milliseconds, underscore, hash of the sorted key=value text |
| EpochId.SortStrings | internal/api/grpc/epoch_generator.go:232 | the keys are sorted and a permutation of those collected |
| EpochId.LeqIsLexicographic | internal/api/grpc/epoch_generator.go:232 | the order of the keys is the lexicographic one, ascending: a prefix, or smaller at the first difference |
| EpochId.EpochIdUnique | internal/api/grpc/epoch_generator.go:222-241 | the identifier depends only on the start and the map's contents |
| EpochId.LastColumnAppends | internal/api/grpc/epoch_generator.go:233-237 | in the hashed text a column that sorts last appends its name, an equals sign and its value |
| EpochId.OneColumnId | internal/api/grpc/epoch_generator.go:222-241 | with one column the identifier is milliseconds, underscore and the hash of milliseconds, name, equals sign and value, and nothing else is |
| EpochId.EpochIdDecodes | internal/api/grpc/epoch_generator.go:219-241 | the start in milliseconds is parsed back from the identifier, for every hash |
| Dimensions.CloneDimensionValues | internal/api/grpc/epoch_generator.go:243-253 | the copy equals the map, in any iteration order |
| Dimensions.EffectiveSelects | internal/api/grpc/epoch_generator.go:119-122 | the dimensions used are the request's partitions in order, exactly the skipped ones missing |
| Dimensions.CrossWith | internal/api/grpc/epoch_generator.go:124-131 | the inner loops pair every set so far with every value |
| Dimensions.ExtractDimensionValueSets | internal/api/grpc/epoch_generator.go:113-136 | the loops compute the ordered product of all non-skipped partitions |
| Dimensions.SetsLength | internal/api/grpc/epoch_generator.go:113-136 | the number of sets is the product of the value counts |
| Dimensions.ChoiceAtRank | internal/api/grpc/epoch_generator.go:113-136 | every choice of one value per dimension appears at its mixed-radix rank |
| Dimensions.EveryRankTaken | internal/api/grpc/epoch_generator.go:113-136 | every position of the product belongs to a choice |
| Dimensions.RankInjective | internal/api/grpc/epoch_generator.go:113-136 | different choices stand at different positions |
| Dimensions.ValuationReads | internal/api/grpc/epoch_generator.go:127-129 | a set holds the chosen value in each column, the last dimension of a name winning |
| Dimensions.PickHasSet | internal/api/grpc/epoch_generator.go:113-136 | for every choice of one value per usable partition some set has exactly their columns, each with the value chosen from the last partition of that name |
| Dimensions.SetHasPick | internal/api/grpc/epoch_generator.go:113-136 | every set carries such a choice |
| Dimensions.SetsDistinctIff | internal/api/grpc/epoch_generator.go:113-136 | the sets are pairwise distinct if and only if values are distinct and overridden columns have a single value |
| EpochGenerator.ExtractTimeRange | internal/api/grpc/epoch_generator.go:45-54 | it fails for a missing time partition or bound and otherwise returns the request's own bounds |
| EpochGenerator.TimeRangeIff | internal/api/grpc/epoch_generator.go:45-54 | a range is found if and only if the request's time partition has both bounds; each error if and only if its field is missing |
| EpochGenerator.GranularityIff | internal/api/grpc/epoch_generator.go:60-110 | the granularity is the request's own, or without one what the time partition's column declares, or one day when it declares nothing |
| EpochGenerator.DerivedGranularity | internal/api/grpc/epoch_generator.go:56-110 | a derived granularity is one source partition, or one day, and is always sane |
| EpochGenerator.SliceTimeRange | internal/api/grpc/epoch_generator.go:139-172 | the loop ends, fails exactly for an empty range, and yields the epochs of the sliced range |
| EpochGenerator.GenerateEpochs | internal/api/grpc/epoch_generator.go:23-54 | each error case, and otherwise the epochs of every dimension set over the same range; in terms of the request's fields, every instant and every choice of dimension values has an epoch and every epoch carries a choice |
| EpochGenerator.GeneratedAnswers | internal/api/grpc/epoch_generator.go:23-42 | epochs generated from the request's own partitions answer it: each instant of its range with each choice of dimension values, and no other dimension values |
| EpochGenerator.EpochCount | internal/api/grpc/epoch_generator.go:23-42 | the number of epochs is the cell count over the value times the dimension product |
| EpochGenerator.GeneratedEpoch | internal/api/grpc/epoch_generator.go:33-40 | every epoch carries one dimension set and one interval |
| EpochGenerator.EveryInstantCovered | internal/api/grpc/epoch_generator.go:23-42 | for every instant requested and every dimension set there is exactly one epoch |
| EpochGenerator.NoDuplicateEpochsIff | internal/api/grpc/epoch_generator.go:23-42 | the list is free of duplicates if and only if the dimension sets are distinct |
| EpochGenerator.IdsIncrease | internal/api/grpc/epoch_generator.go:154-166 | within one dimension set the milliseconds read from the identifiers strictly increase, so they are distinct |
| EpochMatching.AreEpochSlicesEqual | internal/api/grpc/management_service.go:212-236 | greedy matching is true if and only if the lists are equal as multisets of equivalence classes |
| EpochMatching.OrderIrrelevant | internal/api/grpc/management_service.go:212-236 | reordering either list does not change any count the outcome depends on |
| EpochMatching.SameBagIsMultisetEquality | internal/api/grpc/management_service.go:212-236 | under equality of values the outcome is multiset equality |
| EpochMatching.ContainsEpoch | internal/api/grpc/management_service.go:239-246 | found if and only if the epoch is in the list |
| EpochStore.MergeEpochs | internal/api/grpc/management_service.go:129-136 | the loop computes the merged list |
| EpochStore.MergedShape | internal/api/grpc/management_service.go:129-136 | the merged list is the new epochs followed by old ones in old order |
| EpochStore.SurvivorsMultiplicity | internal/api/grpc/management_service.go:132-136 | each old epoch that is not new survives with all its copies, no other does |
| EpochStore.MergedIsUnion | internal/api/grpc/management_service.go:129-136 | as a set the merged list is old union new |
| EpochStore.MergedNoDuplicates | internal/api/grpc/management_service.go:129-136 | merging duplicate-free lists gives a duplicate-free list |
| EpochStore.SaveIdempotent | internal/api/grpc/management_service.go:123-140 | saving the same epochs again leaves the stored list as it is, order included |
| EpochStore.SavedListContains | internal/api/grpc/management_service.go:123-140 | after a save exactly the new and the old epochs are stored |
| EpochStore.EpochKey.Txn | internal/api/grpc/management_service.go:138-151 | the transaction writes if and only if the ModRevision is the one read |
| EpochStore.EpochKey.SaveEpochs | internal/api/grpc/management_service.go:105-155 | undisturbed it fails only with etcd; success, or a write that took effect in spite of an error, leaves the new list or the merged list; an equal list is not written again |
| EpochStore.UninterruptedSave | internal/api/grpc/management_service.go:105-155 | the machine's steps of one admission, uninterrupted, have that effect |
| EpochStore.StepKeepsInv | internal/api/grpc/management_service.go:108-154 | a pending commit whose revision is still current has read the current list |
| EpochStore.StepLosesIff | internal/api/grpc/management_service.go:108-154 | a step drops stored epochs if and only if it is the unconditional put of an admission that does not include them |
| EpochStore.SuccessMeansStored | internal/api/grpc/management_service.go:108-154 | a save that reports success has all its epochs in the store at that moment |
| EpochStore.AdmissionEnds | internal/api/grpc/management_service.go:105-155 | an admission makes at most two requests, a failed one ends it, and no other step changes it |
| EpochStore.QuietStoreGrows | internal/api/grpc/management_service.go:108-154 | once the key exists and no create is outstanding, the stored set only grows, in every interleaving |
| EpochStore.NoLostUpdate | internal/api/grpc/management_service.go:108-154 | from then on every successful save keeps all its epochs in every later state |
| EpochStore.FirstSavesCanLose | internal/api/grpc/management_service.go:108-119 | two first saves can both succeed and lose the epochs of one |
| EpochStore.RunKeepsProvenance | internal/api/grpc/management_service.go:105-155 | everything stored was admitted by some request |
| DatasetAdmission.GateExactIff | internal/api/grpc/management_service.go:81-91 | the gate means count > quota for every positive quota if and only if the count fits int32; a quota of 0 or less never rejects |
| DatasetAdmission.AdmitDataset | internal/api/grpc/management_service.go:44-103 | which outcome for which provider and request, a follower answering with the leader's name it knows; acceptance stores epochs that answer the request's own fields, a failed save leaves the store alone or stores them after all, anything else leaves it alone |
| DatasetAdmission.AcceptedWithinQuota | internal/api/grpc/management_service.go:81-102 | an accepted request has cell count over value times dimension product within the quota |
| DatasetAdmission.StoredEpochsNeverOverlap | internal/api/grpc/management_service.go:105-155 | over every run of concurrent saves with one granularity from congruent cells, stored epochs with equal dimensions are identical or disjoint |
| DatasetAdmission.CellRequestsNeverOverlap | internal/api/grpc/management_service.go:92-155 | if every request to a dataset asks for value 1 of the same unit, no two stored epochs with equal dimensions ever partially overlap |
| DatasetAdmission.OverlapCanBeStored | internal/api/grpc/management_service.go:105-155 | for every larger value two requests one cell apart, both saved with success, store overlapping epochs |
| DatasetAdmission.FirstRequestsCanLose | internal/api/grpc/management_service.go:92-119 | two requests for a new dataset can both be saved with success and the epochs of one be lost |
| LeaderSink.Sink.Close | internal/cluster/election.go:484-488 | closing is idempotent and touches only the done flag |
| LeaderSink.Sink.EnqueueLeader | internal/cluster/election.go:490-516 | undisturbed, an open sink ends up holding this event; a closed one is left alone |
| LeaderSink.Sink.EnqueueMembership | internal/cluster/election.go:518-533 | appends if and only if open and not full |
| LeaderSink.LatestPushWins | internal/cluster/election.go:490-516 | in every interleaving on an open sink the newest push is pending, or delivered; it is neither if and only if a call that removed it has not resent yet |
| LeaderSink.NewestHandledIff | internal/cluster/election.go:390-411 | the newest push has been handled, callback included, if and only if the slot is empty, no leader callback runs and no call holds it removed |
| LeaderSink.PushSinceEveryCall | internal/cluster/election.go:490-516 | every completed call, also one that returned false, has seen a push since it began |
| LeaderSink.ClosedSinkRefuses | internal/cluster/election.go:490-495 | a call that begins after the sink was closed never sends and can only return false |
| LeaderSink.DeliveredInPushOrder | internal/cluster/election.go:390-411 | the events the listener is called with are pushed events, in order, each at most once |
| LeaderSink.MembershipConserved | internal/cluster/election.go:518-533 | offered = called back + queued + dropped; the queue holds at most 16; called back and queued are an in-order selection of the offered |
| LeaderSink.DropMeansFullQueue | internal/cluster/election.go:518-533 | an open sink that has dropped a membership event had 16 queued at that moment of the run |
| LeaderSink.LeaderPriority | internal/cluster/election.go:390-411 | while the leader slot stays occupied at most one membership callback starts |
| LeaderSink.StoppedMeansClosed | internal/cluster/election.go:390-411 | in every run the consumer leaves only a closed sink |
| LeaderSink.PendingCanBeHandled | internal/cluster/election.go:390-411 | from every reachable state of an open sink the consumer alone can handle the pending leader event and return to its loop |
| LeaderSink.QueuedCanBeHandled | internal/cluster/election.go:390-411 | with no leader event pending it can handle the first queued membership event |
| LeaderSink.CloseEndsConsumer | internal/cluster/election.go:390-411 | from any state closing lets the consumer leave |
| LeaderSink.EnqueueMembershipCompletes | internal/cluster/election.go:518-533 | every call ends, with the event queued if the sink is open and has room and dropped otherwise |
| ServingStatus.GrpcServer.HandleLeaderEvent | internal/api/grpc/lanuch_grpc_server.go:202-213 | serving exactly for an election of this node; anything else also closes the sessions |
| ServingStatus.HandleAllResult | internal/api/grpc/lanuch_grpc_server.go:202-213 | the last event decides the status; sessions are gone if and only if some event was not an election of this node |
| ServingStatus.SlowListenerRefinesLossless | internal/api/grpc/lanuch_grpc_server.go:178-213 | whenever the newest push has been handled, in the exact terms of NewestHandledIff, the status equals that of handling every pushed event |
| ServingStatus.WindowBreaksRefinement | internal/cluster/election.go:503-515 | while a call holds the newest push removed the status can be stale |
| ServingStatus.CallbackBreaksRefinement | internal/cluster/election.go:390-411 | while the callback runs the slot is empty and the status can be stale |
| ServingStatus.SessionsCanOutliveALoss | internal/api/grpc/lanuch_grpc_server.go:202-213 | a loss displaced by a re-election leaves sessions open that lossless handling closes |
| WorkerSessions.ClosedByLossIff | internal/api/grpc/events/session_manager.go:165-175 | over every run, a session registered outside a leader callback is closed by leader events if and only if one that does not elect this node is handled after that |
| WorkerSessions.LossCallbackCloses | internal/api/grpc/events/session_manager.go:165-175 | the callback for a loss can run to its end, and has then closed every session that was registered |
| WorkerSessions.OutlivesLossIff | internal/api/grpc/lanuch_grpc_server.go:202-213 | it outlives a loss broadcast after it registered, pushed or given up, if and only if none is handled since |
| WorkerSessions.OutlivesOnlyReelection | internal/api/grpc/lanuch_grpc_server.go:202-213 | in a settled state it outlives such a loss only if the newest event elects this node |
| WorkerSessions.OutlivesLaterLoss | internal/api/grpc/control_plane_service.go:99-106 | a session that registered after a handled loss outlives a second, displaced one |
| WorkerSessions.OutlivesGivenUpLoss | internal/cluster/election.go:490-516 | a session outlives a loss whose call gave up although every pushed event elects this node |
| WorkerSessions.StepForgetsIff | internal/api/grpc/events/session_manager.go:29-54 | a step makes the manager forget an open session if and only if it is the clearing of Close or the end of another stream and removes all its worker ids |
| WorkerSessions.ForgottenStaysOpen | internal/api/grpc/events/session_manager.go:165-175 | a forgotten session stays open through all leader events until its own stream acts |
| WorkerSessions.RegisteredDuringCloseIsForgotten | internal/api/grpc/events/session_manager.go:165-175 | a session that registers between the loop and the clearing is forgotten |
| WorkerSessions.ReconnectedIsForgotten | internal/api/grpc/control_plane_service.go:56-63 | a reconnected session is forgotten when the stream of the replaced one returns |
| Election.LeaderIsOldestKey | internal/cluster/cluster_event.go:15-20 | the leader is the live key with the smallest create revision |
| Election.TokensIncrease | internal/cluster/cluster_event.go:11-20 | over every run leaders' tokens never decrease and strictly increase when the term changes |
| Election.ElectionKeyImpliesMemberKey | internal/cluster/election.go:103-137 | with one live session per name, a live election key implies the member key under the same lease |
| Election.RevokeRemovesBoth | internal/cluster/election.go:147-157 | revoking removes both keys in one step; resigning leaves every member key; other nodes' keys stay |
| Election.StepBreaksSharedLeaseIff | internal/cluster/election.go:103-137 | a step breaks that implication if and only if it registers over the member key of another session's live election key, or campaigns without the member key under its own lease |
| Election.SharedNameBreaksSharedLease | internal/cluster/election.go:179-190 | two sessions under one name can break it and end with a leader that is no member |
| Leadership.LeaderElection.IsLeader | internal/cluster/election.go:437-441 | true if and only if the current leader is this node |
| Leadership.LeaderElection.BroadcastLeaderEvent | internal/cluster/election.go:222-236 | the event reaches every registered open sink and nothing else changes |
| Leadership.LeaderElection.BecomeLeader | internal/cluster/election.go:348-353 | role and current leader change together |
| Leadership.LeaderElection.LoseLeadership | internal/cluster/election.go:355-369 | the view is cleared and every open sink gets the loss event with epoch 0 |
| Leadership.LeaderElection.ObserveLeader | internal/cluster/election.go:310-340 | an observed leader sets the view and reaches every open sink with its create revision; an empty response does nothing |
| Leadership.LeaderElection.Watch | internal/cluster/election.go:379-386 | registers a fresh empty sink under an unused id |
| Leadership.LeaderElection.RemoveListener | internal/cluster/election.go:463-474 | removes and closes that sink; repeating does nothing |
| Leadership.ViewAlwaysCoherent | internal/cluster/election.go:259-369 | in every interleaving the role is leader exactly when the current leader is the own name, candidate exactly when none is known, and leader only if the key under the own lease was the winning key in an earlier state or a campaign call came back after its key was gone |
| Leadership.LeaderHasLedIff | internal/cluster/election.go:259-301 | the key of the campaign call that made the node leader was the winning key within that call if and only if it was still live in the first state without an older key |
| Leadership.LeaderWithoutHavingLed | internal/cluster/election.go:276-288 | a node becomes leader although its key was the winning key in no state |
| Leadership.CampaignCanWin | internal/cluster/election.go:259-301 | with a live session and not cancelled, a campaign at the top of its loop can become leader with its key winning, from every reachable state |
| Leadership.StoppedOnlyAfterGivingUp | internal/cluster/election.go:262-271 | a campaign that has left was cancelled and no leader, or gave up its leadership with its view cleared and the listener told of a resignation |
| Leadership.ResigningSince | internal/cluster/election.go:262-271 | a campaign that gives up was found leader by the cancellation |
| Leadership.ShutdownCompletes | internal/cluster/election.go:139-170 | from any state the node can be cancelled, its campaign can leave, not as a leader, and its observer can end |
| Leadership.ObserverCanCatchUp | internal/cluster/election.go:304-346 | from every reachable state a watching observer can report the current leader and go on watching |
| Leadership.FencingOrder | internal/cluster/election.go:304-346 | the elected events a listener is called with report terms that led, with tokens that never decrease and strictly increase when the term changes |
| Leadership.LeadsAgainIff | internal/cluster/election.go:259-346 | with the lease gone and the node not leader, some continuation makes it leader again if and only if a term of its own is ahead of the observer or a campaign call is past its put; otherwise no later state does |
| Leadership.StaleObservationRestoresLeader | internal/cluster/election.go:316-324 | it does happen: the lease is gone, the loss was recorded, and an observation makes the node leader |
| RoleAndStatus.StatusAgreesIff | internal/cluster/election.go:304-369 | in settled states whose last view change was broadcast, health status and role agree if and only if the newest push is that broadcast or says the same of this node |
| RoleAndStatus.DisagreementIsARace | internal/cluster/election.go:304-369 | if they disagree, the newest push is the other goroutine's, whose call was in progress when the last view change was made |
| RoleAndStatus.CandidateCanKeepServing | internal/api/grpc/lanuch_grpc_server.go:202-213 | a settled state in which a candidate without a lease serves |
| Session.WorkerSession.Send | internal/api/grpc/events/session.go:62-77 | exactly when it enqueues, when it fails and when it would block |
| Session.WorkerSession.Close | internal/api/grpc/events/session.go:103-111 | the first close cancels and closes the outbox, later ones change nothing |
| Session.WorkerSession.DrainOutbox | internal/api/grpc/events/session.go:44-59 | writes a prefix of the outbox in order, all of it unless time runs out |
| Session.OutboxKeepsOrder | internal/api/grpc/events/session.go:62-101 | in every interleaving taken plus outbox equals the accepted messages in order; success if and only if enqueued; each once |
| Session.OutboxClosedOnce | internal/api/grpc/events/session.go:103-111 | the outbox is closed at most once and never twice, whatever closers race |
| Session.NoSuccessAfterClose | internal/api/grpc/events/session.go:62-77 | no send that began after the winning close succeeds |
| Session.FailedWriteCloses | internal/api/grpc/events/session.go:94-98 | a writer that left on a write error has closed the session |
| Session.ExitMeansOver | internal/api/grpc/events/session.go:83-101 | the writer leaves only when the context is done, the outbox is closed or the session is closed, by reason |
| Session.OpenSessionWritesOut | internal/api/grpc/events/session.go:83-101 | while the session is open and its context live, the writer alone can take and write the whole outbox if and only if it is empty or no write has failed |
| Session.DoneSessionDrains | internal/api/grpc/events/session.go:44-101 | once the context is done the writer can drain everything and leave |
| Session.ClosedOutboxEndsWriter | internal/api/grpc/events/session.go:83-101 | once the outbox is closed the writer can write what is left and leave |
| Session.DrainedWasEmpty | internal/api/grpc/events/session.go:44-59 | a writer that left by draining had found the outbox empty |
| Session.FailedWriteEndsSession | internal/api/grpc/events/session.go:94-98 | after a failed write the writer takes nothing more, closes the session and leaves |
| Session.SendCompletes | internal/api/grpc/events/session.go:62-77 | a send can end whenever the outbox has room or is closed or the context is done, and fails if the session was closed before its check |
| Session.CloseCompletes | internal/api/grpc/events/session.go:103-111 | a close call can always end, with the session closed |
| Session.ExitLosesNothingIff | internal/api/grpc/events/session.go:44-111 | once the writer has gone, every successful send has been taken, now and in every continuation, if and only if the outbox is empty and no send can enter it any more |
| Session.ClosedExitLosesNothing | internal/api/grpc/events/session.go:83-101 | once the writer left because the outbox was closed and empty, everything ever accepted has been taken |
| Session.SuccessCanBeStranded | internal/api/grpc/events/session.go:44-59 | after a drain exit a successful send's message can stay in the outbox for good |

## Left out

- SliceTimeRange: requires a granularity that advances; for any other the source loops forever, which StuckLoopNeverEnds states.
- GenerateEpochs: the same requirement; the source does not check the value it documents as positive (`proto/common.proto:154`).
- AdmitDataset: is stated for an admission that runs undisturbed; interleaved saves are the subject of `EpochStore`.
- GenerateEpochId: the hash is any function, so nothing is claimed about collisions between dimension sets.
- DrainOutbox: the timeout is a budget of messages, not a clock.
- The range of `time.Time` and of protobuf timestamps: instants are unbounded integers.
- A nil time filter and a unit outside the enumeration, on which the source panics.
- `closeAllListeners`, `Members`, `observeMembers` and `buildMembershipEvent`: single-key reads, decoding and a loop of `close` calls.
- The instant inside a callback at which the status changes: the model counts it when the callback returns.
- The writer loop and the consumer loop as methods: they block, so they appear as steps of the machines only.
- `membership_listener.go`, the event handlers, the dispatcher and the sending methods of the session manager: message building with one-branch properties.
- The leadership check when a worker stream begins: sessions register at any time. Replacing a session and closing it, and unregistering and closing at the end of a stream, are one step each.
- Configuration, start-up order and the embedded etcd server.
- Timing and fairness: lease TTL, retry delay and the scheduler. That a pending event can always be handled, a writer can always go on and a shutdown can always complete is proved; that they do, is not.
- Serving status during shutdown, when the listener may still run after it was removed.
