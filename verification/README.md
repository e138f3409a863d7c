# Verified model of the agent runtime's core protocols

This project models the parts of the runtime whose correctness rests on loops, shared
state or interleavings, and proves what they promise. Everything is stated for all
inputs, all runs or all reachable states. `dafny verify dfyconfig.toml` checks it.

The model follows the program's form. An object whose methods update fields is a class
with those fields, and each method is proved equal to a function on the state; the
properties are then lemmas about that function. Code that awaits is cut at its awaits:
one step is what runs without interruption, and a run is any sequence of enabled steps,
so a statement about runs covers every interleaving.

A method is proved equal to a function, so what the function does is stated once more without
it: AuditSeals, JobEffects, DispatchMeaning, AgentMeaning, TopologyMeaning and TopologyAdded,
and the lemmas of the same kind in the other parts, say in terms of the inputs and the fields
alone what each operation computes.

| part | files |
|---|---|
| streaming multi-pattern scanner | Borders, Scanner |
| sharded audit log and its verifier | AuditRecords, AuditVerifier, AuditLog, AuditSeals |
| optimizer job controller | SerialGate, JobController, JobCalls, JobRuns, JobEffects, JobLosses, JobRemoval, JobExamples |
| route tables, provider registry, dispatcher | Routes, RouteTable, Providers, ProviderRuns, Dispatcher, DispatchRuns, DispatchMeaning |
| leased job scheduler | Recurrence, Scheduler, SchedulerRuns, SchedulerFires, SchedulerLosses |
| wire parsers and mail data | TextSplit, Sse, SmtpWire, SmtpRequests, SmtpGrammar, Mail |
| topology merge | TopologyEdges, Topology, TopologyMerge, TopologyMeaning, TopologyAdded, TopologySeparator |
| turn admission and agent loop | TurnAdmission, TurnRefusal, TurnHistory, Agent, AgentMeaning |
| egress classes | Egress |
| shared | Wrappers, Sequences, Sorting |

What comes from outside is a parameter: the hash (`Hash`, injective only where a lemma
says so), the order of strings (`le`, a total order where needed, in place of
`localeCompare`), the cron evaluation, JSON parsing and printing, the replies of the model
and the outcomes of tools, signals, exits, timers and failed appends. Text is a sequence of
code points.

## What the proofs found

Where the code does not do what one would expect, the code is modelled as it is, the exact
condition is proved over every run or input, and a lemma gives a run or an input that gets
there.

- A route table can be served from the cache with an unhealthy provider in it, because
  `reportHealth` changes the state before it awaits the append and invalidates after it. It
  is served so if and only if the provider was reported unhealthy while healthy and since
  then was neither reported healthy nor had its tables dropped; if the append fails this
  lasts (`RouteCacheSound`, `AnnouncementClosesWindow`; run: `StaleTableServed`). Entry and
  residency of a served candidate are always current.
- A hit looks neither at the asker's posture nor at what the asker's profile binds, its
  ceiling or its availability. A candidate from the cache is one that the live filter would
  let pass if and only if the profile still binds its route, its provider is not stale and
  its residency suits the posture (`AnsweredEligible`; runs: `HitNotRefused`,
  `HitNotResident`). A hit also lacks candidates that the live filter would let pass: exactly
  those that did not pass when the table was built (`HitLacks`), and that a provider has
  recovered does not change it, even after it is announced (run: `HitLacksRecovered`).
- A catalog update writes back the health it read before its own await. The health in force
  is the last one reported if and only if the last update written back since, if there is
  any, had read that health (`ReportInForce`; run: `ReportUndone`). Of overlapping catalog
  updates the one written back last wins, even if it was requested first
  (`LastWriteBackInForce`, `EarlierUpdateWins`).
- `cancel` stops waiting after a timeout, so a child that is still alive can leave both
  indexes. A live child is known to the controller if and only if no cancel of its job has
  stopped waiting for it, and it is never found again (`LiveChildAccounted`; run:
  `UntrackedReached`).
- A child that is ended by a signal has no exit code, and the code asks for nothing else, so
  its job counts as active. When its process group takes no signal any more, the job can
  still be removed if and only if a call is inside its gate, or its deadline has not passed
  and it is not paused or its start call is entering the gate or waits there
  (`RemovableExactly`). Otherwise every call of it fails, every start of the run is refused
  and the job counts against `maximumJobs` for good (`BlockedForGood`). It happens to a
  paused job at once (`PausedJobStuck`), and to one whose child was ended as its slice ended
  when the deadline passes (`ExpiredJobStuck`).
- A fire whose lease was lost leaves the store alone if and only if it was not allowed, or
  the job is a one-shot, or the job is still stored (`FireWithoutLease`). Otherwise it puts a
  recurring job back that is gone, even one that was removed because its authority was
  withdrawn (run: `BlockedJobReturns`).
- A recurring job can be lost, and not only by being refused. Of all interleaved steps
  exactly these lose one, which is otherwise stored or about to be put back: a refused fire
  that holds its lease; the completion by a fire of another job under the same id that holds
  the lease; the last rescheduling, if it finds the id taken by another job; and a refresh
  with another payload while the job is not leased (`KeptExactly`, `KeptThroughout`). The
  third is real: a refresh stores a job of a changed payload under its fixed id while the old
  one is between completion and rescheduling (run: `TakenIdLosesJob`). If nothing else is
  ever brought in under the id, only a refusal loses the job (`OnlyBlockingLoses`).
- The history of a conversation can start with tool messages whose call was cut off. In every
  run it is what is remembered of everything said since the conversation was last dropped,
  and it pairs calls and answers if and only if the fortieth message from the end of all that
  is no tool message (`HistoryPairs`). After a first answer with n calls and a second without
  any it does not if and only if n is at least 39 (`ManyCallsOrphan`).
- An exception between marking a conversation as in flight and the try block leaves the
  conversation refused for good, and nothing else does (`StuckExactly`, `StuckForGood`,
  `NotStuckCanEnd`; run: `SecondMessageRefused`). The calls between the two lines
  (src/runtime/app.ts:540-551) that can throw are the callbacks that the evidence recorder
  calls outside its own capture (src/runtime/evolution-evidence.ts:254-280); as wired
  (src/runtime/app.ts:273-276) they only look things up, so it takes another implementation
  of them.
- Conversations are told apart by gateway, channel and thread joined with colons. Two threads of
  one channel are never mixed, and conversations are apart where gateways and channels have no
  colon (`ThreadsApart`, `ConversationsApart`); with a colon they need not be (`ColonMixes`).
- With distinct requests the n-th mail reply reaches the n-th request if and only if none of
  the first n + 1 requests was rejected (`ReplyReachesRequest`): after a timeout the late
  reply answers the next request (`LateReplyGoesToNextRequest`).
- A final mail reply line that is only the code, which section 4.2 of RFC 5321 allows, is not
  taken as final. A server's replies are cut where the server ended them if and only if every
  last line has the space (`ServerRepliesRead`); else the request waits and takes the next
  reply as part of its own (`BareReply`; input: `BareCodeWaits`).
- The event reader strips white space around an event's name and before its values. Events
  are read back as written if and only if there is none (`WrittenReadBack`; input:
  `SpaceIsLost`).
- Merging the topology twice is merging it once if and only if the first grant edge of each
  key, between nodes of the map, has its key or its id on the map after the first merge,
  which is said of the document, the packages and the grants alone (`MergeIdempotent`). It
  is enough that edges with equal keys have equal ids (`KeysKeepGrants`), and for that, that
  no end point contains the separator of keys (`BarFreeDecides`). With the separator there is
  a document with two packages and one grant that the second merge changes again
  (`BarBreaksIdempotence`).
- The meet of egress classes allows all that every source allows, and nothing else if and only
  if no source clashes with the lowest one: below loopback or lan, a list of hosts must name
  what that class stands for (`MeetAllowsExactly`, `ResolveAllows`; input: `LoopbackEscapes`).
- A Merkle root determines its leaves only for a fixed number of leaves
  (`MerkleNeedsLeafCount`); the cross-link digest covers the lengths, which fixes it.
- Cutting records off the end of a shard goes unnoticed exactly when no cross-link has
  sealed them (`TruncationDetected`).

## Model

| member | source | states |
|---|---|---|
| Borders.Longest | src/hotcore/index.ts:15-42 | the reference: the longest prefix of the pattern within a bound that the text ends with |
| Scanner.PrefixTable | src/hotcore/index.ts:15-30 | every entry is the longest proper border of its prefix; at most two loop iterations per character |
| Scanner.AdvancePattern | src/hotcore/index.ts:32-42 | from the automaton state of a text to the longest pattern prefix the extended text ends with; each fallback is paid for by one character of state |
| Scanner.AfterMatch | src/hotcore/index.ts:87-93 | falling back to the last table entry after a match gives the state of the text, so overlaps are kept |
| Scanner.ScanPattern | src/hotcore/index.ts:82-94 | the loop body for one pattern: a match exactly when the text ends with the pattern, and the invariant and fallback budget are kept |
| Scanner.TypeScriptLinearDfaScanner.constructor | src/hotcore/index.ts:49-62 | a new scanner is in the state of the empty text |
| Scanner.TypeScriptLinearDfaScanner.Create | src/hotcore/index.ts:49-62 | an error exactly if a pattern is empty |
| Scanner.TypeScriptLinearDfaScanner.Push | src/hotcore/index.ts:64-71 | reports exactly the occurrences that end in the chunk; each state is the longest proper prefix the whole text ends with; fallbacks never exceed the characters read |
| Scanner.TypeScriptLinearDfaScanner.Reset | src/hotcore/index.ts:73-76 | back to the state of a new scanner |
| Scanner.TypeScriptLinearDfaScanner.ScanCharacter | src/hotcore/index.ts:78-96 | all automata read the character; the matches are the patterns the text now ends with, by index |
| Scanner.TypeScriptLinearDfaScanner.ScanPatternAt | src/hotcore/index.ts:79-94 | one turn of that loop: one automaton advances, the others stay as they are |
| Scanner.OccurrencesSplit | src/hotcore/index.ts:64-71 | reporting on a then b is reporting on a + b |
| Scanner.ChunkIndependence | src/hotcore/index.ts:64-76 | any history of pushes reports what one push of the whole text does |
| Scanner.ScannerExact | src/hotcore/index.ts:64-96 | the report is exactly the pairs of pattern and end offset at which the text ends with the pattern, in order of offset then pattern index, each once |
| AuditRecords.ChainsAgree | src/audit/shards/index.ts:10-56 | in two valid chains, equal digests mean the same position and the same history |
| AuditRecords.LevelInjective | src/audit/crosslink/index.ts:10-18 | for a fixed length one Merkle level determines the level below |
| AuditRecords.MerkleInjective | src/audit/crosslink/index.ts:7-21 | for a fixed leaf count the root determines every leaf |
| AuditRecords.MerkleNeedsLeafCount | src/audit/crosslink/index.ts:12-16 | without it, not: an odd last leaf equals that leaf repeated |
| AuditVerifier.Verify | src/audit/log.ts:146-159 | no error exactly if all chains and all cross-links are in order; the record errors are those of ShardErrors |
| AuditVerifier.VerifyChain | src/audit/log.ts:148-156 | one error per record that does not fit its predecessor, in order |
| AuditVerifier.VerifyCrossLinks | src/audit/log.ts:161-188 | no error exactly if every cross-link fits the shards and the link before it |
| AuditVerifier.VerifyCrossLink | src/audit/log.ts:163-187 | which of the three errors a link gets, and that a missing head hides the others |
| AuditVerifier.ChainErrorsExact | src/audit/log.ts:150-155 | a record is named exactly if it does not fit |
| AuditVerifier.RecordErrorsExact | src/audit/log.ts:148-156 | the same over all shards: the named records and shards are exactly the bad ones |
| AuditVerifier.LinksAgree | src/audit/log.ts:161-188 | cross-links with equal digests stand at the same position behind equal links |
| AuditVerifier.SealedShardsAgree | src/audit/log.ts:164-174 | a link accepted over two snapshots seals the same records in both |
| AuditVerifier.TamperEvidence | src/audit/log.ts:146-188 | two accepted snapshots whose last links have equal digests have equal links and agree record for record up to every sealed length |
| AuditVerifier.TruncationDetected | src/audit/log.ts:164-170 | cutting accepted shards is accepted if and only if no sealed length is cut |
| AuditLogs.BuildCrossLink | src/audit/log.ts:29-65 | the link over the sorted non-empty shards, chained to the previous link; which entries it has is LinkStepSeals |
| AuditLogs.AuditLog.constructor | src/audit/log.ts:67-78 | an empty log |
| AuditLogs.AuditLog.Append | src/audit/log.ts:80-95 | chains the record to its shard; hands it over at once, or keeps it and flushes at the limit |
| AuditLogs.AuditLog.FlushObservational | src/audit/log.ts:108-112 | the tail is handed over whole and emptied |
| AuditLogs.AuditLog.CrossLinkResume | src/audit/log.ts:116-134 | after the awaited flush: one link over the shards as they are then, and its record |
| AuditLogs.SealSurvivesGrowth | src/audit/log.ts:164-174 | a link stays sealed while shards only grow |
| AuditLogs.LinkOverSealed | src/audit/log.ts:29-65 | a link that was just built passes the verifier |
| AuditLogs.StepKeeps | src/audit/log.ts:80-135 | every step keeps the log acceptable and only grows shards |
| AuditLogs.LogComplete | src/audit/log.ts:80-159 | after any interleaving the verifier accepts the snapshot, whatever the hash |
| AuditLogs.LogConserves | src/audit/log.ts:80-112 | after any interleaving every record is in its shard in order, and was handed over once or is in the tail once, in order |
| AuditSeals.LinkStepSeals | src/audit/log.ts:29-65 | in every run the link built next has an entry (key, length) exactly for each shard with records, with its whole length, keys distinct and in order, at the same place the digest of the last record, and names the link before |
| AuditSeals.LinkProtects | src/audit/log.ts:29-188 | in every run, once a link is built, another accepted snapshot whose last link has the same digest has every record that existed then, unchanged and at its place |
| AuditSeals.AppendGoes | src/audit/log.ts:80-95 | in every run a record goes behind those of the shard of its scope and class and to no other; it is handed over at once if it gates an effect, else it joins the tail, which is handed over when it is full |
| AuditSeals.KeyIs | src/audit/shards/index.ts:5-8 | a shard is named by level, scope and the type of the record up to its first dot |
| AuditSeals.TailBounded | src/audit/log.ts:86-93 | in every run the tail is shorter than the limit, or empty |
| AuditSeals.LinkRecorded | src/audit/log.ts:122-134 | in every run a link leaves one record, which gates an effect and names its root and its digest |
| SerialGates.SerialGate.constructor | darwin/optimizers/jobs/support.ts:25-26 | nobody waits |
| SerialGates.SerialGate.Arrive | darwin/optimizers/jobs/support.ts:29-31 | the use waits for the tail and becomes the tail |
| SerialGates.SerialGate.Begin | darwin/optimizers/jobs/support.ts:32-34 | the operation starts once that promise is resolved |
| SerialGates.SerialGate.End | darwin/optimizers/jobs/support.ts:35-37 | the promise of the use is resolved |
| SerialGates.BeginKeeps | darwin/optimizers/jobs/support.ts:28-38 | when a use begins all earlier ones are over |
| SerialGates.OneAtATime | darwin/optimizers/jobs/support.ts:28-38 | while one runs, earlier ones are over and later ones wait |
| SerialGates.FirstWaiterCanBegin | darwin/optimizers/jobs/support.ts:28-38 | when none runs, the first that waits can begin |
| JobController.Controller.constructor | darwin/optimizers/jobs/controller.ts:37-45 | no jobs |
| JobController.Controller.StartAdmission | darwin/optimizers/jobs/controller.ts:49-57 | which refusal, or admission |
| JobController.Controller.ActiveJobs | darwin/optimizers/jobs/controller.ts:109-113 | counts exactly the runs whose indexed job has no exit code |
| JobController.Controller.StartRegistration | darwin/optimizers/jobs/controller.ts:58-61 | the job enters both indexes |
| JobController.Controller.PauseSection | darwin/optimizers/jobs/controller.ts:71-77 | stops a job without exit code that is not paused; nothing changes if the signal fails |
| JobController.Controller.ResumeSection | darwin/optimizers/jobs/controller.ts:85-90 | continues a paused job without exit code; nothing changes if the signal fails; over runs this is StoppedExactly |
| JobController.Controller.SliceSection | darwin/optimizers/jobs/controller.ts:166-175 | at the end of a slice a job without exit code is stopped and marked |
| JobController.Controller.CleanupSection | darwin/optimizers/jobs/controller.ts:219-223 | the token goes; the run goes only if it still leads to this job |
| JobController.RegisterKeeps | darwin/optimizers/jobs/controller.ts:58-61 | registration keeps the indexes consistent and makes at most one run active |
| JobController.CleanupKeeps | darwin/optimizers/jobs/controller.ts:219-223 | cleaning up a job evicts no other job from either index, in particular no newer job of the run |
| JobCalls.BeginStartKeeps | darwin/optimizers/jobs/controller.ts:48-62 | a call enters the start section only when no other is in it |
| JobCalls.OneInsideGate | darwin/optimizers/jobs/support.ts:28-38 | of two calls at a job's gate with one inside, the other waits and came later |
| JobRuns.OpenedKeeps | darwin/optimizers/jobs/controller.ts:63-107 | opening a job's gate keeps the invariant, for every operation, deadline and failed signal |
| JobRuns.StepKeeps | darwin/optimizers/jobs/controller.ts:47-226 | every step of every call keeps the invariant |
| JobRuns.ControllerSafe | darwin/optimizers/jobs/controller.ts:47-113 | in every reachable state: indexed runs without exit code within maximumJobs, run index within token index, marked paused exactly while stopped |
| JobRuns.OneOperationAtATime | darwin/optimizers/jobs/support.ts:25-39 | in every reachable state: operations on a job exclude each other in arrival order, and one start at a time |
| JobRuns.NothingExcluded | darwin/optimizers/jobs/controller.ts:47-107 | in every reachable state each call has its place and each new call is possible, so the runs leave nothing out |
| JobEffects.StoppedExactly | darwin/optimizers/jobs/controller.ts:66-92 | in every run a step stops a job if and only if a pause of it opens its gate or its slice ends, it has no exit code and the signal is sent, and continues it if and only if a resume of it opens its gate, it has no exit code and the signal is sent |
| JobEffects.IndexedExactly | darwin/optimizers/jobs/controller.ts:58-61 | in every run a step brings a job into an index or takes it out exactly if it registers it, cleans it up, or registers another job of its run |
| JobEffects.AdmittedExactly | darwin/optimizers/jobs/controller.ts:47-62 | in every run a start goes on to spawn if and only if its request decodes, its run has no job without exit code and fewer than maximumJobs runs have one; a spawned job is alive, running and new |
| JobEffects.LooksUpExactly | darwin/optimizers/jobs/controller.ts:66-96 | pause and cancel queue at the job that the run leads to, resume at the job that the token leads to; without one nothing is queued |
| JobEffects.WaitsExactly | darwin/optimizers/jobs/controller.ts:85-160 | what a call goes on to wait for when its gate opens, by its operation, the exit code, the deadline and the signals |
| JobEffects.RaceExactly | darwin/optimizers/jobs/controller.ts:161-176 | after the race the result is read unless the slice ended for a job without exit code |
| JobLosses.LiveJobStays | darwin/optimizers/jobs/controller.ts:219-225 | a live indexed job stays in both indexes until a cancel of it stops waiting |
| JobLosses.UntouchedStays | darwin/optimizers/jobs/controller.ts:58-61 | until its start registers it, a spawned job is in no index and nobody comes to its gate |
| JobLosses.LiveChildAccounted | darwin/optimizers/jobs/controller.ts:47-113 | in every reachable state a live child is in both indexes or about to be if and only if no cancel of it stopped waiting, and else in neither for good |
| JobLosses.AbandonedLost | darwin/optimizers/jobs/controller.ts:94-107 | a job that a cancel stopped waiting for is in no index in every later state, and nobody will put it there |
| JobLosses.CancelTimeoutUntracks | darwin/optimizers/jobs/controller.ts:94-107 | a cancel that times out leaves a live child in neither index |
| JobExamples.UntrackedReached | darwin/optimizers/jobs/controller.ts:94-107 | a run with a live child that the controller has lost |
| JobRemoval.StuckStays | darwin/optimizers/jobs/controller.ts:71-176 | no step without a signal removes an indexed job whose child is gone without exit code, that no call waits for or can still come to wait for |
| JobRemoval.RemovableExactly | darwin/optimizers/jobs/controller.ts:47-226 | in every reachable state such a job can go without a signal if and only if a call is inside its gate, or its deadline has not passed and it is not paused or its start call is entering or waiting |
| JobRemoval.BlockedForGood | darwin/optimizers/jobs/controller.ts:71-113 | otherwise, in every run, it counts as active and no start of its run is admitted |
| JobExamples.PausedJobStuck | darwin/optimizers/jobs/controller.ts:161-175 | a run that gets there: the slice ends and the child of the paused job is ended by a signal |
| JobExamples.ExpiredJobStuck | darwin/optimizers/jobs/controller.ts:149-175 | a run that gets there with a job that is not paused, once its deadline has passed |
| Routes.LiveRouteFilter | src/model/routetable.ts:43-87 | the refusals; the candidates and the trace after each of the five steps |
| Routes.FilterExact | src/model/routetable.ts:54-86 | exactly the bound routes that pass every filter, with multiplicity, sorted by priority then cost, equals in binding order |
| Routes.TraceShrinks | src/model/routetable.ts:35-41 | each trace step is part of the one before |
| Routes.KeyStringExact | src/model/routetable.ts:20-27 | keys are encoded alike exactly if they differ only in the order of capabilities |
| Routes.KeyDeterminesResult | src/model/routetable.ts:43-87 | keys encoded alike are refused alike and have the same survivors at every step |
| Sorting.SortStable | src/model/routetable.ts:82-84 | the sort keeps equal elements in order |
| Sorting.StableSortUnique | src/model/routetable.ts:82-84 | there is only one stable sort |
| RouteTable.RouteTableStore.constructor | src/model/routetable.ts:103-105 | no tables |
| RouteTable.RouteTableStore.Resolve | src/model/routetable.ts:107-134 | the cached table if its stamps match, else a fresh one, indexed under each provider it uses; errors change nothing |
| RouteTable.RouteTableStore.InvalidateProvider | src/model/routetable.ts:136-140 | every table in the provider's index goes, and the index |
| RouteTable.RouteTableStore.Clear | src/model/routetable.ts:142-145 | nothing is left |
| RouteTable.ResolveCovers | src/model/routetable.ts:127-132 | the reverse index covers every candidate of every cached table |
| RouteTable.InvalidationClears | src/model/routetable.ts:136-140 | afterwards no cached table uses the provider; the tables that remain are unchanged and covered |
| Providers.ProviderStateRegistry.constructor | src/model/provider.ts:31-39 | no providers |
| Providers.ProviderStateRegistry.Register | src/model/provider.ts:41-53 | the state is stored under its id |
| Providers.ProviderStateRegistry.ReportHealth | src/model/provider.ts:63-77 | up to the append: the new health is in force; whether it must be announced |
| Providers.ProviderStateRegistry.HealthRecorded | src/model/provider.ts:85 | after the append: the provider's tables are invalidated |
| Providers.ProviderStateRegistry.UpdateCatalog | src/model/provider.ts:88-96 | up to the append: nothing is written; no update if the digest is unchanged |
| Providers.ProviderStateRegistry.CatalogRecorded | src/model/provider.ts:103-111 | after the append: the state that was read is written back with the new catalog, and its tables are invalidated |
| Providers.StepKeeps | src/kernel.ts:73-95 | every step keeps the cache invariant |
| Providers.RouteCacheSound | src/model/routetable.ts:107-140 | in every run each candidate of an answered table is current, and its provider unhealthy if and only if the table is cached and the provider is stale |
| ProviderRuns.StaleTableServed | src/model/provider.ts:68-85 | a run in which resolve serves a cached table with an unhealthy provider |
| Providers.AnnouncementClosesWindow | src/model/provider.ts:78-85 | after the announcement no table serves it unless it is healthy |
| ProviderRuns.ReportInForce | src/model/provider.ts:63-112 | in every run the health in force is the last reported one if and only if the last write-back after it, if there is any, carries that health |
| ProviderRuns.LastWriteBackInForce | src/model/provider.ts:88-112 | in every run the catalog in force is that of the last write-back |
| ProviderRuns.ReportUndone | src/model/provider.ts:92-110 | a run in which a catalog update undoes a health report, and the provider is in the next table built |
| ProviderRuns.EarlierUpdateWins | src/model/provider.ts:92-110 | a run in which the first of two overlapping catalog updates is in force in the end |
| Dispatcher.ModelDispatcher.constructor | src/model/resolver.ts:110-115 | nothing is sticky |
| Dispatcher.ModelDispatcher.Select | src/model/resolver.ts:117-134 | resolves the table for the combined classification, selects within the budget, remembers the selection for the scope only; that the classification is the higher one is HigherClassification |
| Dispatcher.ModelDispatcher.ClearStickiness | src/model/resolver.ts:162-165 | forgets one scope or all |
| Dispatcher.SelectionExact | src/model/resolver.ts:73-105 | affordable and least in priority and cost; the previous selection wins exactly inside a tie, else the first affordable; an error exactly if none is affordable |
| Dispatcher.SelectionIsStable | src/model/resolver.ts:95-99 | selecting again with the selection remembered gives the same route |
| Dispatcher.DispatchCorrect | src/model/resolver.ts:127-133 | over a table built from the context the selection is a bound route that passes every filter, affordable, and best among those |
| DispatchRuns.AnsweredTable | src/model/routetable.ts:107-134 | in every run each answered table, cached or fresh, is sorted and its candidates have the capabilities asked for |
| DispatchRuns.AnsweredEligible | src/model/routetable.ts:107-112 | in every run a candidate of an answered table is one of the live filter if and only if, on a hit, the asker's profile still binds its route, its provider is not stale and its residency suits the posture |
| DispatchRuns.HitLacks | src/model/routetable.ts:107-133 | in every run a hit serves what an earlier resolve built under the same stamps, and lacks of the live filter exactly what did not pass then |
| DispatchRuns.DispatchOverRuns | src/model/resolver.ts:117-134 | in every run the selection is current, capable, affordable and best of the answered table, and one of the live filter exactly then; none exactly if none is affordable |
| DispatchRuns.HitNotRefused | src/model/routetable.ts:107-112 | a run in which a hit serves a table that would be refused if it were built |
| DispatchRuns.HitNotResident | src/model/routetable.ts:107-112 | a run in which a hit serves a candidate whose residency the asker's posture forbids |
| DispatchRuns.HitLacksRecovered | src/model/routetable.ts:107-140 | a run in which a hit lacks the route of a provider that has recovered and was announced |
| DispatchMeaning.ClassificationOrder | src/prompt/index.ts:25-30 | the ranks are those of the order public, internal, confidential, restricted |
| DispatchMeaning.ProfileOrder | src/model/profile.ts:10-46 | the ranks of profiles are those of the order fast, balanced, deep |
| DispatchMeaning.HigherClassification | src/prompt/index.ts:36-46 | the classification used is the declared one or that of the frame, and neither stands above it |
| DispatchMeaning.SelectionMayHold | src/model/resolver.ts:117-133 | under a posture other than standard, what is selected from a fresh table has a residency that is not revoked and may hold what was declared and what the frame holds |
| DispatchMeaning.EligibleMeans | src/model/routetable.ts:54-81 | a candidate is eligible exactly if the first provider of its id is healthy and has its entry, available and capable, and its residency suits the posture |
| DispatchMeaning.BuiltMeans | src/model/routetable.ts:107-126 | a fresh table exists if and only if the profile may be used and some bound route has a candidate that serves; it holds exactly those, by priority and then cost, under the stamps of the asker |
| DispatchMeaning.RefusedMeans | src/model/routetable.ts:47-117 | which of the three errors there is otherwise: above the ceiling, not bound, or none that serves |
| DispatchMeaning.TraceMeans | src/model/routetable.ts:54-86 | the trace of a fresh table names at each of its five steps exactly the candidates that passed so far |
| DispatchMeaning.ServedWhileStamped | src/model/routetable.ts:89-112 | an answered table is served again, as it is, to a key of the same meaning if and only if all five epochs and the digests are the same |
| DispatchMeaning.CostMeans | src/model/resolver.ts:19-30 | a thousand input and output tokens cost the two rates, and cost is additive in tokens |
| DispatchMeaning.AffordableMeans | src/model/resolver.ts:84-87 | with a limit exactly the candidates with known rates whose cost is within it are affordable, without one all are |
| Recurrence.RetryBounded | src/scheduler/index.ts:13-37 | along every chain of outcomes the attempt count stays within the maximum and the job keeps its identity and payload |
| Recurrence.DelayGrows | src/scheduler/index.ts:22-25 | delays do not shrink with the attempt and stay within the cap |
| Recurrence.RetrySeriesBounded | src/scheduler/index.ts:20-35 | at most maximumRetryAttempts consecutive retries |
| Recurrence.RetryDelays | src/scheduler/index.ts:22-30 | each retry is due after its delay, and delays in a series never shrink |
| Recurrence.CronSlotReached | src/scheduler/index.ts:26-35 | among maximumRetryAttempts + 1 consecutive runs one leads to a cron slot with the count at 0 |
| Recurrence.DelayDoubles | src/scheduler/index.ts:22-25 | the first delay is the backoff, each further one twice the one before, up to the cap |
| Recurrence.NextRun | src/scheduler/index.ts:13-37 | a failure with attempts left is retried after its delay with one attempt more; everything else runs at the next cron slot with the count at 0 |
| Scheduler.InMemoryScheduledJobStore.constructor | src/scheduler/index.ts:52-59 | an empty store |
| Scheduler.InMemoryScheduledJobStore.Schedule | src/scheduler/index.ts:61-66 | adds the job, or an error for a duplicate id |
| Scheduler.InMemoryScheduledJobStore.LeaseDue | src/scheduler/index.ts:68-88 | grants exactly the stored jobs that are due, are under no running lease, and have fewer than limit such jobs before them, each once, in order, for one lease period; all other leases stay |
| Scheduler.InMemoryScheduledJobStore.Complete | src/scheduler/index.ts:90-94 | removes job and lease for the owner only |
| Scheduler.InMemoryScheduledJobStore.Release | src/scheduler/index.ts:96-98 | removes the lease for the owner only |
| Scheduler.SettleScheduledJob | src/scheduler/index.ts:39-50 | release, or complete and schedule the next run, with the duplicate error |
| Scheduler.Fire | src/scheduler/index.ts:124-160 | the three outcomes; a settlement that throws after a success is settled again as a failure |
| Scheduler.GrantedAreFirst | src/scheduler/index.ts:73-87 | a job is granted exactly if it is due, not leased, and fewer than limit such jobs come before it |
| Scheduler.GrantStep | src/scheduler/index.ts:74-86 | one turn of the loop, with the leases as they are by then |
| Scheduler.LeasesAreFirst | src/scheduler/index.ts:73-87 | of the leases that are granted: for exactly the stored jobs that are due, under no running lease, and behind fewer than limit such jobs |
| SchedulerRuns.StoreStaysValid | src/scheduler/index.ts:61-98 | in every run ids are distinct and leases refer to stored jobs |
| SchedulerRuns.NonOwnerChangesNothing | src/scheduler/index.ts:90-98 | complete and release by others change nothing |
| SchedulerRuns.LeaseExclusion | src/scheduler/index.ts:68-98 | while time does not go back, two grants of a job without an effective end in between are at least a lease period apart |
| SchedulerRuns.FireKeepsRecurring | src/scheduler/index.ts:124-160 | a fire under its lease keeps a recurring job stored once, unleased, the same but for its next run |
| SchedulerRuns.FireOneShot | src/scheduler/index.ts:124-160 | a one-shot job is removed exactly if its run succeeded |
| SchedulerRuns.FireRefused | src/scheduler/index.ts:130-137 | a fire that is not allowed and holds its lease removes its job and its lease and nothing else |
| SchedulerRuns.FireWithoutLease | src/scheduler/index.ts:124-160 | a fire whose lease was lost leaves the store alone if and only if it was not allowed, the job is a one-shot, or the job is still stored |
| SchedulerRuns.FreeUntilScheduled | src/scheduler/index.ts:48-49 | between completion and rescheduling the id stays free unless someone schedules it |
| SchedulerFires.UninterruptedFire | src/scheduler/index.ts:124-160 | the steps of a fire that nothing comes between are the fire |
| SchedulerFires.ReplacedJobs | src/memory/session-store/index.ts:171-206 | a refresh replaces an unleased job of another payload, adds a missing one, and leaves all others |
| SchedulerFires.StoredJobs | src/scheduler/index.ts:13-160 | in every run of interleaved fires a stored job is the only one of its id, is one that was brought in but for its next run, and has an attempt count within the maximum unless it is still as it was brought in |
| SchedulerFires.FiredWhenDue | src/scheduler/index.ts:68-122 | in every run each fire is of a job that was due at its tick, under a lease of one lease period from then |
| SchedulerLosses.KeptExactly | src/scheduler/index.ts:39-160 | which steps lose a recurring job that is stored as it is or about to be put back, and that no other does |
| SchedulerLosses.KeptThroughout | src/scheduler/index.ts:39-160 | in every run of ticks, refreshes and interleaved fires it is kept throughout if and only if none of those steps happens |
| SchedulerLosses.OnlyBlockingLoses | src/scheduler/index.ts:124-160 | if nothing else is brought in under its id, only a refused fire that holds the lease can lose it |
| SchedulerLosses.TakenIdLosesJob | src/scheduler/index.ts:48-49 | a run without any refusal that loses it: its id is taken between completion and rescheduling |
| SchedulerLosses.BlockedJobReturns | src/scheduler/index.ts:130-149 | a run in which a stale fire puts back a job that was removed as blocked |
| TextSplit.SplitExtends | skills/mcp-client/src/sse.ts:158-160 | splitting chunk by chunk closes the pieces of the whole text, wherever it is cut, separators included |
| TextSplit.JoinSplit | skills/gateway-email/src/smtp.ts:46-55 | single lines joined with CR LF split back into those lines |
| TextSplit.SeparatorsMean | skills/mcp-client/src/sse.ts:7 | a text starts with a separator of blocks exactly if it starts with two line ends, each with or without CR, and with a separator of lines exactly if it starts with one; just that is taken |
| Sse.ParseSseEvent | skills/mcp-client/src/sse.ts:173-185 | the last event line names the event, the data lines are joined; none without data |
| Sse.EventMeans | skills/mcp-client/src/sse.ts:173-185 | a block is an event exactly if some line starts with the data mark, and is called message if no line starts with the event mark |
| Sse.EventNamed | skills/mcp-client/src/sse.ts:176-179 | otherwise the last such line names it, without white space around the name |
| Sse.Pump | skills/mcp-client/src/sse.ts:147-165 | for every cutting, exactly the events of the separator-terminated blocks of the whole text |
| Sse.WholeTextAgrees | skills/mcp-client/src/sse.ts:167-171 | whole-text parsing adds only the block that no separator ended |
| Sse.BlockReadBack | skills/mcp-client/src/sse.ts:173-185 | an event written as fields is parsed back without the white space that is stripped, so as written if and only if there is none (section 9.2 of the WHATWG HTML Standard) |
| Sse.WrittenReadBack | skills/mcp-client/src/sse.ts:147-185 | a written stream of events is read back event for event if and only if no event has white space that is stripped |
| Sse.BlankLineCloses | skills/mcp-client/src/sse.ts:157-164 | a line without line ends is cut off as a block at the blank line behind it, in each of its four forms |
| Sse.SpaceIsLost | skills/mcp-client/src/sse.ts:179-181 | a value that starts with a space loses it |
| SmtpWire.WireState.constructor | skills/gateway-email/src/smtp.ts:59-65 | an empty wire |
| SmtpWire.WireState.Feed | skills/gateway-email/src/smtp.ts:124-134 | cuts complete lines and flushes at final lines |
| SmtpWire.WireState.TakeLine | skills/gateway-email/src/smtp.ts:131-132 | a line joins the pending reply and ends it if it is final |
| SmtpWire.WireState.FlushReply | skills/gateway-email/src/smtp.ts:136-145 | the reply goes to the first waiter or is queued |
| SmtpWire.WireState.NextReply | skills/gateway-email/src/smtp.ts:100-122 | a queued reply, the failure, or a place among the waiters |
| SmtpWire.WireState.Expire | skills/gateway-email/src/smtp.ts:105-109 | a waiter that times out is removed and rejected |
| SmtpWire.WireState.Fail | skills/gateway-email/src/smtp.ts:147-153 | the first failure rejects all waiters in order |
| SmtpWire.FeedSplit | skills/gateway-email/src/smtp.ts:124-134 | feeding a then b is feeding a + b |
| SmtpWire.RepliesConserved | skills/gateway-email/src/smtp.ts:92-153 | in every run no reply is lost, duplicated or reordered, and queued replies and waiters are never both present |
| SmtpWire.RequestsConserved | skills/gateway-email/src/smtp.ts:100-153 | in every run each request is settled once or still waits, in order unless some timed out |
| SmtpWire.FirstFailureRejects | skills/gateway-email/src/smtp.ts:147-153 | in every run the first failure rejects everyone who waits, in order, with its reason |
| SmtpWire.AfterFailure | skills/gateway-email/src/smtp.ts:100-103 | in every run, from then on nobody waits: a request gets a queued reply or is rejected with that reason |
| SmtpRequests.RequestsServed | skills/gateway-email/src/smtp.ts:92-153 | in every run the requests that got a reply, followed by those that wait, are the requests made, in order, without the rejected ones |
| SmtpRequests.ReplyReachesRequest | skills/gateway-email/src/smtp.ts:92-153 | in every run the n-th reply reaches the n-th request if and only if none of the first n + 1 requests was rejected |
| SmtpWire.LateReplyGoesToNextRequest | skills/gateway-email/src/smtp.ts:105-109 | after a timeout the late reply answers the next request |
| SmtpGrammar.ServerRepliesRead | skills/gateway-email/src/smtp.ts:124-145 | in every run the replies of a server (section 4.2 of RFC 5321) are delivered and queued as the server ended them if and only if every last line has the space |
| SmtpGrammar.FinalMeans | skills/gateway-email/src/smtp.ts:132 | a line ends a reply exactly if it starts with three digits and a space |
| SmtpGrammar.BareReply | skills/gateway-email/src/smtp.ts:131-137 | a reply that is only a code leaves its request waiting, which then takes the next reply as part of its own |
| SmtpGrammar.BareCodeWaits | skills/gateway-email/src/smtp.ts:131-137 | the bytes that do it |
| Mail.TransmittedLines | skills/gateway-email/src/smtp.ts:42-55 | the transmission is the header lines, the stuffed body lines and the lone dot |
| Mail.TerminatorIsLast | skills/gateway-email/src/smtp.ts:42-55 | no earlier end-of-data mark among lines that are not the lone dot |
| Mail.MailTransparent | skills/gateway-email/src/smtp.ts:38-56 | for addresses without line ends and every body, the first end-of-data mark is the last, and unstuffing recovers the lines (section 4.5.2 of RFC 5321) |
| Egress.NormalFormOfSet | src/placement/egress.ts:16-19 | the normal form is determined by the set of hosts |
| Egress.FirstKindWins | src/placement/egress.ts:8-40 | the class of an intersection is the one that stands first in none, loopback, lan, declared, any |
| Egress.IntersectIsMeet | src/placement/egress.ts:34-45 | the intersection is the greatest lower bound in the class order refined by hosts |
| Egress.IntersectCommutes | src/placement/egress.ts:34-45 | commutative on all classes |
| Egress.IntersectAssociates | src/placement/egress.ts:34-45 | associative on all classes |
| Egress.IntersectIdempotent | src/placement/egress.ts:34-45 | idempotent exactly on normalised classes |
| Egress.MeetAllIsMeet | src/placement/egress.ts:34-51 | a class is within the meet of a list exactly if it is within each member |
| Egress.MeetAllOrderFree | src/placement/egress.ts:34-51 | the meet of a list depends on its set of members only |
| Egress.ResolveOrderFree | src/placement/egress.ts:47-51 | the resolved class is the meet of the four sources in any order and grouping |
| Egress.MeetAllowsCommon | src/placement/egress.ts:34-88 | the meet allows whatever all sources allow |
| Egress.MeetAllowsExactly | src/placement/egress.ts:34-88 | it allows nothing else if and only if no source clashes with the lowest one |
| Egress.ResolveAllows | src/placement/egress.ts:47-88 | the same of the class resolved from the four sources |
| Egress.LoopbackEscapes | src/placement/egress.ts:34-88 | loopback met with a list of hosts allows what the list refuses |
| TopologyEdges.KeyDecidesId | skills/deep-trace/src/auto-topology-edges.ts:97-105 | edges with equal keys have equal ids if end points lack the separator |
| Topology.SourceIsSuffix | skills/deep-trace/src/auto-topology.ts:72-80 | the shown source is the directory from its agents or else its skills directory on, or made from the name, so nothing of the host path before is published |
| Topology.BuildNode | skills/deep-trace/src/auto-topology.ts:82-105 | id, runtime and domain of a new node |
| Topology.ResolvedLiveness | skills/deep-trace/src/auto-topology.ts:131-141 | the loop computes Liveness |
| Topology.MergeState.constructor | skills/deep-trace/src/auto-topology.ts:238-245 | the base document, its node ids, an empty summary |
| Topology.MergeState.ApplyLiveness | skills/deep-trace/src/auto-topology.ts:145-159 | every node is corrected in place and every correction is in the summary |
| Topology.MergeState.AddNode | skills/deep-trace/src/auto-topology.ts:167-178 | one candidate: skipped if known, else added with its edges pending |
| Topology.MergeState.AddNodes | skills/deep-trace/src/auto-topology.ts:161-180 | the nodes of the candidates are appended, recorded, and their edges pending |
| Topology.MergeState.AddEdges | skills/deep-trace/src/auto-topology.ts:182-207 | pending edges that do not dangle and have a new key and a new id are appended |
| Topology.MergeState.AddMissingDomains | skills/deep-trace/src/auto-topology.ts:209-226 | the domains of added nodes that are not known are appended |
| TopologyMerge.MergeTopology | skills/deep-trace/src/auto-topology.ts:231-277 | the passes together compute Merged; the base is returned verbatim if nothing changed |
| TopologyMerge.LivenessExact | skills/deep-trace/src/auto-topology.ts:128-141 | a node is live exactly if some package that declares it is, and undecided exactly if none declares it |
| TopologyMerge.RunPasses | skills/deep-trace/src/auto-topology.ts:234-260 | the passes, run on a state of their own, give the merged nodes, edges and summary |
| TopologyMerge.BaseNodesKept | skills/deep-trace/src/auto-topology.ts:143-159 | base nodes keep their place and change only in runtime |
| TopologyMerge.AddedNodesFresh | skills/deep-trace/src/auto-topology.ts:161-180 | added nodes follow the base nodes and have new, distinct ids |
| TopologyMerge.DeclaredNodesLive | skills/deep-trace/src/auto-topology.ts:128-180 | every declared node is on the map in the end, with its resolved runtime |
| TopologyMerge.MergedIds | skills/deep-trace/src/auto-topology.ts:238-245 | the id set that edges are checked against is that of the nodes written |
| TopologyMerge.MergedEdges | skills/deep-trace/src/auto-topology.ts:182-207 | base edges are a prefix; every added edge joins two nodes and has a key and an id of its own |
| TopologyMerge.MergedDomains | skills/deep-trace/src/auto-topology.ts:209-226 | old domains stay; every added node's domain is there; no id is added twice |
| TopologyMerge.AddedExact | skills/deep-trace/src/auto-topology.ts:182-207 | exactly the pending edges are added that do not dangle, are first of a new key, and have an id that neither the document nor an earlier such edge has |
| TopologyMerge.PendingCovered | skills/deep-trace/src/auto-topology.ts:194-206 | if keys decide ids no pending edge is lost: it dangles, or its key or its id is on the map |
| TopologyMerge.NothingToLink | skills/deep-trace/src/auto-topology.ts:194-206 | no edge is added if and only if each that is looked at has its id taken |
| TopologyMerge.EdgesIdle | skills/deep-trace/src/auto-topology.ts:182-207 | over merged edges no grant edge is added again if and only if all were kept |
| TopologyMerge.SecondMerge | skills/deep-trace/src/auto-topology.ts:231-265 | merging into a merged document adds and corrects no node, and changes nothing if and only if all grant edges were kept |
| TopologyMerge.MergeIdempotent | skills/deep-trace/src/auto-topology.ts:228-277 | on every text, given JSON round trips, merging is idempotent if and only if the text is no document or all grant edges are kept |
| TopologyMerge.KeysKeepGrants | skills/deep-trace/src/auto-topology.ts:198-202 | all grant edges are kept if keys decide ids among the edges considered |
| TopologyMerge.BarFreeDecides | skills/deep-trace/src/auto-topology-edges.ts:97-105 | keys decide ids if no end point contains the separator |
| TopologyMeaning.DecodedMeans | skills/deep-trace/src/auto-topology.ts:42-61 | what is read from a manifest: its node, its way of dispatch, the objects among its edges, the texts among its egress targets |
| TopologyMeaning.LivenessMeans | skills/deep-trace/src/auto-topology.ts:66-70 | a node reads live exactly if some package that declares it registered and has a binding, and config-gated exactly if others declare it |
| TopologyMeaning.UniformEdgesMean | skills/deep-trace/src/auto-topology-edges.ts:9-54 | which edges a way of dispatch gives: end points and kind |
| TopologyMeaning.UniformTexts | skills/deep-trace/src/auto-topology-edges.ts:9-54 | how they are carried and labelled |
| TopologyMeaning.DeclaredEdgesMean | skills/deep-trace/src/auto-topology-edges.ts:56-72 | the declared edges are those with texts for end points and kind, self standing for the node |
| TopologyMeaning.GrantEdgesMean | skills/deep-trace/src/auto-topology-edges.ts:74-95 | the grant edges lead from the node of the consumer to the node of the last package that provides the facility, where both declare nodes |
| TopologyMeaning.EdgeIdMeans | skills/deep-trace/src/auto-topology-edges.ts:103-105 | the id of an edge has plain characters only, and between plain end points it is made of them and the kind |
| TopologyMeaning.NodeMeans | skills/deep-trace/src/auto-topology.ts:94-101 | id, name, kind and source of a new node |
| TopologyMeaning.ClassesMean | skills/deep-trace/src/auto-topology.ts:86-93 | the three classifications are kept where they are texts |
| TopologyMeaning.ExtrasMean | skills/deep-trace/src/auto-topology.ts:101-104 | a new node has classifications and egress targets exactly if there are any |
| TopologyMeaning.DocumentMeans | skills/deep-trace/src/auto-topology.ts:266-276 | the written document: nodes, edges, domains, the summary, and every other field as it was |
| TopologyAdded.AddedNodesMean | skills/deep-trace/src/auto-topology.ts:161-180 | after the base nodes come exactly the nodes of the first candidates whose id the map lacks |
| TopologyAdded.PendingMeans | skills/deep-trace/src/auto-topology.ts:248-259 | the edges that are considered are exactly those that these candidates derive and those of the grants |
| TopologyAdded.EdgeMeans | skills/deep-trace/src/auto-topology.ts:204 | what an added edge holds |
| TopologyAdded.CorrectionsMean | skills/deep-trace/src/auto-topology.ts:149-158 | exactly the ids of nodes that do not read their liveness are recorded as corrected, with what they get |
| TopologyAdded.WrittenExactly | skills/deep-trace/src/auto-topology.ts:261-276 | the text is written anew exactly if a package introduces a node, a node is misread or an edge is added, and is then the merged document |
| TopologyAdded.DomainsMean | skills/deep-trace/src/auto-topology.ts:209-226 | old domains stay; the domain of every introduced node is there, and only such are added, each with its capitalised title |
| TopologySeparator.BarBreaksIdempotence | skills/deep-trace/src/auto-topology.ts:198-202 | a document, two packages and a grant whose second merge changes the text again |
| Agent.RuntimeAgent.constructor | src/runtime/agent.ts:39-47 | no history |
| Agent.RuntimeAgent.Remember | src/runtime/agent.ts:167-182 | the last messages, redacted, or nothing |
| Agent.RuntimeAgent.TakeTurn | src/runtime/agent.ts:49-97 | requests, answer and history of a turn for every behaviour of model and tools; a turn that throws writes no history |
| Agent.RuntimeAgent.Rounds | src/runtime/agent.ts:71-96 | the loop of a turn |
| Agent.RuntimeAgent.Execute | src/runtime/agent.ts:109-165 | one tool call: unknown tool, result or error, with the notice for repeated calls; what the message says and when it is for the turn only is OutputMeans |
| Agent.RuntimeAgent.ExecuteAll | src/runtime/agent.ts:90-92 | the calls of one answer in order, with one ledger |
| Agent.EveryTurn | src/runtime/agent.ts:49-97 | at most 8 requests, tools offered in all but the eighth, and every tool call answered by one tool message in order |
| Agent.TurnEnding | src/runtime/agent.ts:71-96 | the first round that does not go on is the last; the turn fails exactly if its model or a call fails, else its text is the answer |
| Agent.LimitReached | src/runtime/agent.ts:71-97 | if all eight rounds ask for tools the turn ends with the limit message after eight requests |
| Agent.TurnShape | src/runtime/agent.ts:71-96 | the same from any round on; each request extends the one before |
| Agent.HistoryIsFrame | src/runtime/agent.ts:62-70 | the history only stands in front of a turn |
| Agent.NoticeExact | src/runtime/agent.ts:230-243 | the notice stands from the third identical call of the turn on, and only then |
| AgentMeaning.RepeatKeyExact | src/runtime/agent.ts:230-236 | calls count as identical exactly if tool and arguments are the same |
| AgentMeaning.OutputMeans | src/runtime/agent.ts:109-165 | the message for a call: of an output at most its first 30000 characters behind the mark, for the turn only exactly if the tool says so; of a failure its detail; of an unknown tool a fixed text; with the notice from the third identical call on |
| AgentMeaning.SaidInTurn | src/runtime/agent.ts:71-94 | for every behaviour of model and tools the answer of a round and the messages for its calls stand in the turn in order, each as it should be |
| AgentMeaning.SaidLast | src/runtime/agent.ts:85-89 | the last answer of a turn is its last message and what is said |
| Agent.RememberedBounded | src/runtime/agent.ts:178-181 | at most 40 messages, the last ones, and no content of a tool result meant for the turn |
| AgentMeaning.RememberedMeans | src/runtime/agent.ts:178-181 | the last forty messages are remembered, each as it was said but for the content of those meant for the turn only |
| AgentMeaning.OutputRemembered | src/runtime/agent.ts:148-181 | for every behaviour: of the message for a call nothing is remembered exactly if it is an output of a tool whose results are for the turn only, else what was said |
| AgentMeaning.RetainedMeans | src/runtime/agent.ts:54-182 | a turn that is not retained leaves no history of its conversation, and no turn touches that of another |
| Agent.CutDialogue | src/runtime/agent.ts:180 | a cut leaves calls and answers paired exactly if it is not before a tool message |
| Agent.ManyCallsOrphan | src/runtime/agent.ts:178-181 | after a first answer with n calls and a second without, what is remembered pairs calls and answers if and only if n is below 39 |
| TurnAdmission.ElliottRuntime.constructor | src/runtime/app.ts:163-164 | nothing seen, nothing in flight |
| TurnAdmission.ElliottRuntime.Arrive | src/runtime/app.ts:506-507 | a message id is taken once |
| TurnAdmission.ElliottRuntime.BeginTurn | src/runtime/app.ts:524-558 | refused if the conversation is in flight, else marked, with the history the turn reads |
| TurnAdmission.ElliottRuntime.SucceedTurn | src/runtime/app.ts:553-559 | the history after a turn that ended |
| TurnAdmission.ElliottRuntime.Release | src/runtime/app.ts:572-574 | the mark is removed |
| TurnAdmission.StepKeeps | src/runtime/app.ts:505-575 | every step of every handling keeps the invariant |
| TurnAdmission.AtMostOneTurn | src/runtime/app.ts:505-575 | in every interleaving a message id has one handling and at most one turn, and a conversation at most one running turn |
| TurnAdmission.HistorySequential | src/runtime/app.ts:523-574 | in every interleaving the history is that of the ended turns run one after the other, and a running turn works on exactly it |
| TurnAdmission.SequentialBounded | src/runtime/agent.ts:178-181 | that history never exceeds forty messages |
| TurnAdmission.HistoryClean | src/runtime/agent.ts:167-182 | in every interleaving no history exceeds forty messages or holds output meant for its turn only |
| TurnAdmission.ConversationsApart | src/runtime/app.ts:520-522 | if gateway and channel have no colon, messages are of one conversation exactly if gateway, channel and thread are the same |
| TurnAdmission.ThreadsApart | src/runtime/app.ts:520-522 | within one channel, exactly if the threads are the same, no thread counting as root |
| TurnAdmission.ColonMixes | src/runtime/app.ts:520-522 | with a colon in the channel, two threads of different channels that are one conversation |
| TurnHistory.SequentialRemembers | src/runtime/agent.ts:62-182 | remembering turn by turn is remembering everything said since the conversation was last dropped |
| TurnHistory.HistoryPairs | src/runtime/agent.ts:167-182 | in every interleaving a history, and what a running turn works on, is that, and pairs calls and answers if and only if the fortieth message from its end is no tool message |
| TurnRefusal.InflightExact | src/runtime/app.ts:523-574 | in every reachable state a conversation is marked if and only if a turn of it runs, its answer is being delivered, or a handling of it is stuck |
| TurnRefusal.RefusedExactly | src/runtime/app.ts:523-528 | in every run a message is refused if and only if its conversation is so held |
| TurnRefusal.StuckExactly | src/runtime/app.ts:539-552 | in every run a conversation is stuck if and only if an exception came between its mark and the try block |
| TurnRefusal.StuckForGood | src/runtime/app.ts:523-574 | once stuck it stays marked in every later state |
| TurnRefusal.NotStuckCanEnd | src/runtime/app.ts:552-574 | while it is not stuck, a marked conversation can become free in at most two steps |
| TurnRefusal.SecondMessageRefused | src/runtime/app.ts:523-552 | a run with a stuck first and a refused second message |

## Left out

- The native scanner backend, SHA-256, JSON encoding, cron evaluation and the effect library: foreign code, represented by parameters.
- HTTP servers, gateways, file system, process spawning, sockets and timers: they appear as steps and parameters.
- UTF-16 surrogates, locale collation, NaN and floating-point rounding: text is code points, strings have an arbitrary total order, costs are reals with an infinity.
- Invalid cron expressions and invalid dates: the cron function is total and times are integers.
- The audit committer's durability and its failures: what is handed to it counts as handed over; batches are recorded as one sequence.
- executeAfterDurable: an append followed by a call of the effect.
- Hash images of different kinds are kept apart by their constructor, as their JSON shapes are; collisions across shapes are covered by injectivity.
- The version digest of route tables, the selection record and the cache identity of a dispatch: hashes of values that are modelled.
- The consistency check of catalog and residency at registration: it only rejects input before anything is stored.
- markLapsed and poll: sequences of health reports, each a step of the model.
- realizeEgress and the enforcement of egress: a table over the classes, and packet filters.
- The contents of job files, the decoding of requests and results: whether they succeed is a parameter.
- JobRuns.ControllerSafe: the bound is on indexed jobs without exit code, which is what the code counts; JobLosses says which live children are in no index.
- JobController.Controller.PauseSection: whether a process group that is gone still takes a signal is a parameter; that a child ended by a signal has no exit code is how the runtime of the workers reports it.
- Scheduler.Fire: one uninterrupted fire; SchedulerFires interleaves fires at the awaits of authority, run, completion and rescheduling. The awaits of the audit records inside a fire change no state of the scheduler.
- SchedulerLosses.KeptThroughout: about recurring jobs; a one-shot job goes when a run of it succeeds (FireOneShot). A job that was lost can come back by a stale fire.
- The durable job store: of its operations only the refresh is modelled; it grants leases in the order of run times.
- The mail wire decodes each chunk of bytes on its own, so a character cut between two chunks is lost; the model starts from the decoded chunks.
- Base64 of the subject and the credentials: the encoded subject is a parameter.
- Byte decoding of the event stream and the pending-request map of the MCP client.
- Personas, pinned tool lists, system prompts, observers and telemetry of the agent: they do not touch the message list; whether a call throws is a parameter.
- The wording of the notice for repeated calls: a parameter behind its fixed mark.
- The Slack context appended to the input text: the input is a parameter.
- Event values that contain line ends: a writer has to split them before.
- TurnRefusal.NotStuckCanEnd: that the model, the tools and the gateway answer at some time is not promised.
- Property names such as `__proto__` that JavaScript objects treat specially.
- Emoji filtering, configuration, scaffolding, learning, evolution and the topology UI.
