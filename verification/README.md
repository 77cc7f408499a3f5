# Verified models of the sandbox operator scripts

A Dafny model of the protocols and algorithms in the operator and qualification scripts of the sandbox service, with
proofs of what they promise. `dafny verify dfyconfig.toml` checks the whole project.

* **Gate driver** (`GateState`, `GateInvariant`, `GateDriver`). The crash-resumable driver that provisions servers,
  runs phases of recorded steps and tears everything down. Every command and every save of `state.json` is a tick of an
  environment that may succeed, fail with or without effect, lose the gateway, or kill the process; a killed method
  returns at once, so its postcondition is a statement about that crash point. A new process starts from the saved
  file. What was done is kept as a history; `GoodLog` says of every action what the history before it must show, and
  `WorkOk` that a step is recorded only after all its effects.
  Detached units run on between ticks, whether or not the driver lives: each may write S3 objects or end, until its host
  is deleted. The helper `hz.py` and the provider are part of the environment under one contract: an accepted create
  exists and is in the ledger until its deletion. Phases are not rerun once a teardown has begun. Every method also
  states when it succeeds: if every later command does, and, for a teardown, objects to delete have a recorded host to
  delete them from.
* **Live runs and reports** (`LiveRun`, `Reports`, `Percentiles`, `Density`, `Sampling`, `Decimals`). Worker threads
  owning sandboxes as a machine whose steps are the lock's critical sections and the calls between them, with one
  interrupt anywhere; cleanup and the report made of the run's rows; the report validator and merge over JSON values;
  nearest-rank percentiles, density bins and their verdict; row-weighted sampling.
* **Node benchmark** (`NodeCleanup`, `EventDrain`, `ResidentWorkload`). Cleanup racing late creates, paging through a
  session's events while its status changes, and the guest that rotates a dirty window through its pages. The node is an
  environment under one contract: a create is counted from its start until it is listed or has failed.
* **Analyses** (`IntervalSweep`, `BuildkitProgress`, `Gathering`, `OciLayer`, `Paths`, `ProcessGroups`, `Counters`). The
  interval sweep, the interleaved log fold, the two-pass layer check, process grouping and counter differencing, each
  against a declarative specification.
* **Slot pool** (`SlotPool`). The device slots shared by the threads of one executor.

Python floats are reals, and `round(x, 6)` is round-half-even at six decimals. Regular expressions, hashes, HTTP and
SSH appear only as parsed events or as the outcomes the code branches on. Every lemma turns automatic induction off, so
each proof is what its body says.

Five promises turn out to hold only under a condition, which is proved exact, with a run that breaks the promise:

* Process groups do not depend on the order processes are visited in if and only if, for every process with no label of
  its own, the nearest directly labelled ancestor and the nearest ancestor labelled directly or by a buildkitd cgroup
  give the same label (`ProcessGroups.OrderIndependentIff`, `ProcessGroups.OrderMatters`).
* A successful teardown leaves no host key on the gateway if and only if addresses were still recorded when it started,
  or it had no host to log in to and none was stored (`GateDriver.Gate.TearDown`). The module documentation promises the
  removal without condition. A first teardown that keeps an undrained worker strikes the addresses off, so a retry that
  succeeds leaves a key (`GateDriver.Gate.RetryLeavesKeys`); one failed drain is enough
  (`GateDriver.KeysOutliveTeardown`).
* A successful teardown that does not keep the store leaves no recorded S3 object if no detached unit ran when it
  started, and leaves objects if one did and kept writing (`GateDriver.Gate.TearDown`). Nothing stops a unit before its
  host is deleted, which is after the delete of the objects: killing the driver while the convert unit runs and then
  tearing down is such a run (`GateDriver.ObjectsOutliveTeardown`).
* An `ok` live report means no sandbox of the run exists when the last inventory is read. None can exist later if the
  priming create returned (`LiveRun.RunLive`); if it did not, a run the client cannot tell apart is `ok` and leaks
  (`LiveRun.PrimingLeaks`). The row of the priming create of the warm scenario is not counted, so such a run exists
  (`LiveRun.WarmLeak`). What a client can conclude at all is exactly that creates which returned are decided
  (`LiveRun.DecidedIffReturned`).
* After a clean node cleanup no owned sandbox exists; none can appear if and only if no owned create was sent that the
  node had not counted (`NodeCleanup.Cleanup`, `NodeCleanup.UncountedCreateLeaks`).

## Model

| member | source | states |
|---|---|---|
| GateState.PlanOrdered | scripts/chunk_store_gate.py:460-493 | In the plan of every phase, for every number of workers, a server is created before it is initialised, initialised before it is drained, and known_hosts is recorded before any host is contacted. |
| GateState.WorkersOrdered | scripts/chunk_store_gate.py:695-757 | The same for the steps of the workers phase, with and without a baseline worker, nydusd and benches. |
| GateState.WorkersCovered | scripts/chunk_store_gate.py:695-757 | The workers phase creates, reaches and initialises every worker, and drains exactly the workers, if it benches. |
| GateState.WorkersAre | scripts/chunk_store_gate.py:355-357 | The workers are the canaries 1 to n and the baseline worker if there is one. |
| GateDriver.Gate.RequestServer | scripts/chunk_store_gate.py:428-434 | A server's record is saved before the create; a crash in the save leaves the invariant. |
| GateDriver.Gate.OrderServer | scripts/chunk_store_gate.py:435-439 | A create in the ledger is adopted without a call; success means the ledger has the server. The state file does not change, and a newly accepted create is the first for its role and already recorded, also when the call then fails. |
| GateDriver.Gate.CreateServer | scripts/chunk_store_gate.py:427-444 | Success means the server is recorded with its id and exists at the provider; every crash point in between keeps the invariant. |
| GateDriver.Gate.WaitSsh | scripts/chunk_store_gate.py:446-457 | Retrying a host changes nothing but its stored key, which success leaves stored; it gives up only after all its tries failed. |
| GateDriver.Gate.MakeStagingDir | scripts/chunk_store_gate.py:472-477 | Staging is recorded before it can exist, and success means both. |
| GateDriver.Gate.RecordHosts | scripts/chunk_store_gate.py:479-486 | Success means every planned address is recorded and then forgotten, so the gateway stores no key before any later login. |
| GateDriver.Gate.InstallRuntime | scripts/chunk_store_gate.py:579-598 | The S3 prefix is recorded before a host can hold the key; success means it is recorded. |
| GateDriver.Gate.RegisterWorker | scripts/chunk_store_gate.py:797-798 | The registered mark is saved or, if the process is killed, nothing changed. |
| GateDriver.Gate.InitWorker | scripts/chunk_store_gate.py:792-807 | Unless killed, the worker is saved as registered and not drained and then init is called, in that order, whether the call succeeds or not. |
| GateDriver.Gate.RunJob | scripts/chunk_store_gate.py:401-424 | Success means the detached unit ended; a driver killed while it waits leaves the unit running. |
| GateDriver.Gate.DrainWorker | scripts/chunk_store_gate.py:809-818 | A server is marked drained only after its drain succeeded; failure changes no record. |
| GateDriver.Gate.Execute | scripts/chunk_store_gate.py:371-378 | A step that succeeds has had all its effects, in the history and on file. |
| GateDriver.Gate.RunStep | scripts/chunk_store_gate.py:371-378 | A recorded step is skipped; otherwise it runs to its end and is recorded, and no other phase's record changes. |
| GateDriver.Gate.RunPlan | scripts/chunk_store_gate.py:371-378 | Steps run in plan order, each with what it needs already recorded. |
| GateDriver.Gate.RunSteps | scripts/chunk_store_gate.py:460-493 | A phase body that succeeds has recorded every step of its plan. |
| GateDriver.Gate.DrainServers | scripts/chunk_store_gate.py:849-858 | Every registered, undrained server is tried; afterwards exactly the kept ones are registered and not drained, nothing but drained marks and host keys changed, and a lost gateway stops at once. |
| GateDriver.Gate.ClearFrom | scripts/chunk_store_gate.py:861-877 | Success deletes the objects and strikes the prefix off; without a running unit none is left, with one that keeps writing some are. |
| GateDriver.Gate.ClearStore | scripts/chunk_store_gate.py:861-877 | The converter is tried first and the store node after a failure; S3 counts as settled exactly when it is kept on purpose or its prefix is struck off after a delete. |
| GateDriver.Gate.DeleteCall | scripts/chunk_store_gate.py:882-885 | A server reported deleted, unknown or 404 does not exist at the provider, and is reported so only by a call that reached it or for an unknown name; the call is issued only for a server that is drained if it is registered. |
| GateDriver.Gate.DeleteServers | scripts/chunk_store_gate.py:878-890 | Every server that is not kept is tried, workers before the store node and the converter; records are dropped one by one, only once the server is gone; without failures and kept servers none is left. |
| GateDriver.Gate.SettleServers | scripts/chunk_store_gate.py:846-890 | If nothing failed and nothing was kept, no server record is left, S3 is settled, and the gateway has no host key exactly when it had none and no host was contacted; one failed drain keeps its worker and everything else goes on. |
| GateDriver.Gate.RemoveStaging | scripts/chunk_store_gate.py:891-896 | Staging is removed with every accepted server confirmed deleted and S3 cleared or kept on purpose. |
| GateDriver.Gate.TidyGateway | scripts/chunk_store_gate.py:891-901 | Staging goes exactly when no server is left and S3 is settled; recorded addresses are forgotten and struck off in any case. |
| GateDriver.Gate.TearDown | scripts/chunk_store_gate.py:846-910 | Success leaves no server, staging or known_hosts record, no server and no staging directory; host keys are all gone exactly under a condition on the state at the start; if no unit ran then, recorded S3 objects are gone, and if one keeps writing, objects are left. It succeeds if every command does, and is incomplete if exactly a drain fails. |
| GateDriver.Gate.RunStable | scripts/chunk_store_gate.py:912-930 | A phase before teardown, killed or failing anywhere, keeps the invariant and other phases' records. Without its prerequisite or when done it does nothing; otherwise it starts, and ends done, failed or killed. |
| GateDriver.Gate.RunTeardown | scripts/chunk_store_gate.py:912-930 | The teardown phase has the outcome TearDown states, from any saved state. |
| GateDriver.Gate.RunPhase | scripts/chunk_store_gate.py:912-930 | From any saved state a phase, killed or failing anywhere, keeps the invariant and only extends the history; success of a run-once phase leaves it done, of a teardown nothing recorded and no server or staging; it succeeds if it may start and every command succeeds. |
| GateDriver.Gate.Drive | scripts/chunk_store_gate.py:26-29 | Every sequence of phase processes, killed anywhere, followed by retried teardowns, satisfies the invariant. |
| GateDriver.Gate.RetryLeavesKeys | scripts/chunk_store_gate.py:897-901 | Whenever a teardown had to keep an undrained worker and a retry succeeds, a host key stays on the gateway with no record of it. |
| GateDriver.KeysOutliveTeardown | scripts/chunk_store_gate.py:897-901 | A run with one failing drain in which the first teardown is incomplete, the retry succeeds and a host key stays. |
| GateDriver.ObjectsOutliveTeardown | scripts/chunk_store_gate.py:861-890 | A run killed while its convert unit runs whose teardown then succeeds and leaves S3 objects. |
| GateDriver.ServersRecorded | scripts/chunk_store_gate.py:434-434 | At every crash point a server at the provider has a record in the saved state. |
| GateDriver.CreatedOnce | scripts/chunk_store_gate.py:435-439 | No history accepts two creates for one role. |
| GateDriver.DeletedOnlyAfterDrain | scripts/chunk_store_gate.py:849-858 | Between any save of a worker as registered, or init of it, and a delete-server for it lies a successful drain of it. |
| GateDriver.StagingOutlivesServers | scripts/chunk_store_gate.py:891-891 | Between any accepted create and the removal of staging lies that server's confirmed deletion. |
| GateDriver.StagingOutlivesStore | scripts/chunk_store_gate.py:891-891 | Between a host getting the S3 key and the removal of staging lies a delete of the objects, or the teardown keeps the store on purpose. |
| GateDriver.RecordedWasDone | scripts/chunk_store_gate.py:371-378 | Before any save of a step's record lies an execution of it, and between them each of its effects: hosts reached, units started and ended, keys forgotten, staging made, worker registered, initialised or drained. |
| GateDriver.DrainStepDrained | scripts/chunk_store_gate.py:809-818 | A worker's drain step is recorded only after a successful drain of it. |
| GateDriver.StepsLeaveMarks | scripts/chunk_store_gate.py:371-378 | Until a teardown a recorded step's work is on file and in place: server created, registered or drained, prefix and addresses recorded, staging directory made. |
| GateDriver.WorkersEndDrained | scripts/chunk_store_gate.py:695-757 | Once the workers phase is done every worker exists and is registered, and it is drained exactly if the phase benches. |
| GateDriver.RecordedNeverReruns | scripts/chunk_store_gate.py:373-374 | After a step's record is saved the step never executes again. |
| GateDriver.StartsAfterPrerequisite | scripts/chunk_store_gate.py:913-915 | A phase body starts only after its prerequisite was saved as done. |
| GateDriver.DoneIsStable | scripts/chunk_store_gate.py:917-919 | A run-once phase saved as done stays done, with exactly the steps of its plan recorded, whatever crashes it took. |
| GateInvariant.AcceptOk | scripts/chunk_store_gate.py:435-439 | An accepted create of a recorded server missing from the ledger keeps the invariant, so it is the role's first. |
| GateInvariant.CreatedOk | scripts/chunk_store_gate.py:440-443 | Filling in a server's id keeps the invariant when the ledger has it. |
| GateInvariant.RegisterOk | scripts/chunk_store_gate.py:797-798 | Saving a worker as registered keeps the invariant if it is not drained. |
| GateInvariant.InitOk | scripts/chunk_store_gate.py:797-799 | Calling init of a recorded server keeps the invariant exactly where the server is saved registered and not drained. |
| GateInvariant.DropOk | scripts/chunk_store_gate.py:886-890 | Dropping the record of a server that is gone keeps the invariant. |
| GateInvariant.FinishOk | scripts/chunk_store_gate.py:928-930 | A phase may be saved as done once its whole plan is recorded. |
| NodeCleanup.CounterThenInventory | scripts/benchmark_sandbox_density.py:413-429 | Reading counter 0 and then an inventory without owned ids, with any node steps in between, leaves only creates that were sent and uncounted at the first read; with none of those, no owned sandbox exists or is on its way. |
| NodeCleanup.SettledForever | scripts/benchmark_sandbox_density.py:413-429 | With no owned sandbox listed, counted or sent, none ever appears, whatever the node does. |
| NodeCleanup.NoneLaterIff | scripts/benchmark_sandbox_density.py:413-429 | With none listed, no owned sandbox can appear exactly when no owned create is counted or sent. |
| NodeCleanup.SwappedReadsLeak | scripts/benchmark_sandbox_density.py:413-429 | With the two reads swapped there is a run that reads both clean and leaks, with no uncounted create. |
| NodeCleanup.NoStorageErrorsIffIdle | scripts/benchmark_sandbox_density.py:326-345 | The storage check reports nothing exactly when every required and every present metric is zero. |
| NodeCleanup.Round | scripts/benchmark_sandbox_density.py:402-420 | Exactly a failing inventory or counter read raises, a failing delete does not; after a round that reads counter 0 and no owned id, only creates that were uncounted when it began can be on their way. |
| NodeCleanup.Sample | scripts/benchmark_sandbox_density.py:413-417 | The counter is read before the inventory, with the same conclusion. |
| NodeCleanup.Cleanup | scripts/benchmark_sandbox_density.py:370-440 | Cleanup without an error means no owned sandbox exists, creates are 0 and storage is idle, for every interleaving with the node; none can appear later exactly when no owned create is left uncounted, and those were so at the start. Errors are reported only after the last round and name what was wrong in it; if the node comes to rest with no counted create before the last round, the end is clean unless a read fails. |
| NodeCleanup.UncountedCreateLeaks | scripts/benchmark_sandbox_density.py:370-440 | For any node with an uncounted owned create and none counted, there is a run whose cleanup is clean and after which an owned sandbox appears. |
| EventDrain.Consume | scripts/benchmark_sandbox_density.py:209-250 | A page is taken exactly when it continues the history where reading stopped; otherwise it is a gap. |
| EventDrain.Poll | scripts/benchmark_sandbox_density.py:209-250 | The loop makes polls until one gives a verdict or the deadline passes. |
| EventDrain.EndsInTime | scripts/benchmark_sandbox_density.py:209-250 | Once the session has ended, a node that serves its history gives a verdict within as many polls as there are events. |
| EventDrain.Drain | scripts/benchmark_sandbox_density.py:190-260 | The first poll with a verdict decides, and only without one does the probe time out. For every paging and every moment the session ends, a drained probe holds the in-order concatenation of all events up to one that includes the exit event; with contiguous pages it never reports a gap, and if as many polls follow the end of the session as there are events it succeeds. |
| EventDrain.DrainedIsComplete | scripts/benchmark_sandbox_density.py:209-250 | If the exit event is last, a drained probe holds the whole output. |
| ResidentWorkload.TouchesClosedForm | scripts/benchmark_sandbox_density.py:99-106 | After n page touches page p was touched n div P times, plus one if p < n mod P. |
| ResidentWorkload.TouchesBalanced | scripts/benchmark_sandbox_density.py:99-106 | Any two pages' touch counts differ by at most one. |
| ResidentWorkload.AllTouched | scripts/benchmark_sandbox_density.py:99-106 | A page has been touched exactly when more touches were made than its index, so all are once n touches reach P. |
| ResidentWorkload.Workload.Act | scripts/benchmark_sandbox_density.py:99-106 | One act bumps the dirty window in place at the pages following all earlier acts and counts itself. |
| ResidentWorkload.ActedImage | scripts/benchmark_sandbox_density.py:46-53 | After n acts each page's lead byte has advanced by its touch count and nothing else changed. |
| ResidentWorkload.CheckedActIsExact | scripts/benchmark_sandbox_density.py:277-286 | If the identity check passes after an act, then despite restarts, rollbacks and replays the guest is the one before, acted once. |
| ResidentWorkload.ChecksImplyFaultFreeState | scripts/benchmark_sandbox_density.py:890-918 | If every check passes, n requested acts leave exactly the state of n acts: same nonce, counter and memory. |
| LiveRun.IdInjective | scripts/bench_rl_scale.py:1911-1914 | Different indexes give different ids whatever the run and scenario names are. |
| LiveRun.EveryRun | scripts/bench_rl_scale.py:1965-2038 | Every interleaving of calls, exceptions, late decisions of the service and one interrupt keeps the invariant. |
| LiveRun.EveryReply | scripts/bench_rl_scale.py:1965-2038 | In every interleaving a call has a reply only for a create the service has decided on, and every request has its sender. |
| LiveRun.SentIdsUniqueAndOwned | scripts/bench_rl_scale.py:1968-1983 | In every interleaving create requests carry distinct ids, each owned before it is sent. |
| LiveRun.OwnershipForward | scripts/bench_rl_scale.py:1968-2038 | Between any two moments an id's state only moves requested, created, deleted, and no id is dropped. |
| LiveRun.PeaksAreTrue | scripts/bench_rl_scale.py:2560-2575 | The recorded maxima of in-flight creates and live rollouts are the true peaks over all moments of the run. |
| LiveRun.DeletesCounted | scripts/bench_rl_scale.py:2004-2038 | In every interleaving the calls that are past their delete with a sandbox not recorded as deleted are exactly the counted inline errors, plus at most one ended by the interrupt; a call that is to keep its sandbox never deletes it. |
| LiveRun.DeletedIffDue | scripts/bench_rl_scale.py:2004-2038 | Without inline errors and interrupt a finished call has deleted its sandbox exactly if it was to. |
| LiveRun.NotOkWasHit | scripts/bench_rl_scale.py:1994-2001 | A row that is not ok belongs to a call that an exception or the interrupt hit. |
| LiveRun.ReturnedDecided | scripts/bench_rl_scale.py:1976-1999 | Once every create returned, no create request is undecided. |
| LiveRun.LateTwin | scripts/bench_rl_scale.py:1976-1999 | Every run has a twin with the same threads, rows and ownership table in which no create without a reply is decided. |
| LiveRun.DecidedIffReturned | scripts/bench_rl_scale.py:1976-1999 | All runs a client cannot tell from this one have no undecided create exactly when every create returned. |
| LiveRun.Cleaner.DeleteOne | scripts/bench_rl_scale.py:2016-2038 | Transient answers are retried until the deadline; the last answer decides, and the id becomes deleted exactly when it was success or 404. No other id changes. |
| LiveRun.Cleaner.Sweep | scripts/bench_rl_scale.py:2067-2075 | Uninterrupted, every pending id is tried, and the errors are as many as ids stay undeleted. |
| LiveRun.Cleaner.AwaitAbsent | scripts/bench_rl_scale.py:2076-2089 | With a readable inventory, exactly the owned ids in the last one remain, and some only after all polls were made. |
| LiveRun.Cleaner.Cleanup | scripts/bench_rl_scale.py:2067-2103 | Uninterrupted, cleanup_errors is empty exactly when every owned id is deleted and absent from the last inventory, which was readable; an interrupt leaves an error. |
| LiveRun.Cleaner.Finish | scripts/bench_rl_scale.py:2900-2914 | An ok report was not interrupted, validates, and implies the same; a valid report of a clean, uninterrupted run without errors is ok. |
| LiveRun.LiveReportFacts | scripts/bench_rl_scale.py:1318-1330 | A report made of a run's rows can be finalised, and without failed sections and errors it was not interrupted and no row failed. |
| LiveRun.RunLive | scripts/bench_rl_scale.py:2886-2914 | For every interleaving and every environment of the cleanup, ok implies that every measured row is ok, every id ever sent is deleted and none exists; if the priming create returned none can exist later. A run without failed rows in an environment that answers is ok. |
| LiveRun.PrimingLeaks | scripts/bench_rl_scale.py:2119-2135 | For every run whose priming create did not return and whose rows did, a run the client cannot tell apart is ok and one of its sandboxes can exist later. |
| LiveRun.WarmLeak | scripts/bench_rl_scale.py:2119-2135 | A warm run whose priming create timed out is ok and its sandbox can exist later. |
| Reports.WalkReachesAll | scripts/bench_rl_scale.py:1249-1258 | The recursive walk accepts a value exactly when every summary object at any path outside "samples" is in order. |
| Reports.SummaryAccepted | scripts/bench_rl_scale.py:1232-1246 | Every latency summary passes the summary check. |
| Reports.NewReportValid | scripts/bench_rl_scale.py:488-510 | A new report passes the validator for every scenario. |
| Reports.FinalizeValid | scripts/bench_rl_scale.py:1318-1330 | Finalising keeps a report valid, and its status is "ok" exactly when `ok` is true. |
| Reports.FindSections | scripts/bench_rl_scale.py:1353-1354 | Fails exactly on a null section; at most one input is found exactly when the metric is reported at most once. |
| Reports.MergeSections | scripts/bench_rl_scale.py:1350-1359 | Succeeds exactly when no metric is null or doubly reported; each section is its one reporter's, stamped with the source, or the default. |
| Reports.ErrorFreeIffClean | scripts/bench_rl_scale.py:1360-1364 | The merged error lists are empty exactly when every input is ok with empty error lists. |
| Reports.CollectErrors | scripts/bench_rl_scale.py:1360-1364 | The merged lists are the inputs' errors in order, prefixed with their source, plus one per input that is not ok. |
| Reports.MergedErrorsIff | scripts/bench_rl_scale.py:1360-1364 | An error is in the merged lists exactly when an input has it, prefixed with the input's source, or is not ok. |
| Reports.OriginsDescribed | scripts/bench_rl_scale.py:1341-1348 | The merged report's conditions describe each input in order. |
| Reports.SectionsOk | scripts/bench_rl_scale.py:1350-1359 | Merged sections pass the validator, and one is failing exactly when an input's was. |
| Reports.Merge | scripts/bench_rl_scale.py:1333-1368 | Succeeds exactly for a non-empty list of valid reports with no null or doubly reported metric and comparable finish times; the result is valid, takes each section from one input, describes all inputs, starts with the earliest and finishes with the latest, and is ok exactly when all inputs are clean and none failing. |
| Percentiles.PercentileIsNearestRank | scripts/bench_rl_scale.py:338-344 | The percentile is the least value with at least a share q of the samples at or below it. |
| Percentiles.SummaryIsOrdered | scripts/bench_rl_scale.py:347-360 | A summary is null when empty, else min <= p50 <= p95 <= p99 <= max with the mean between min and max. |
| Percentiles.SummaryMeaning | scripts/bench_rl_scale.py:347-360 | A summary holds the rounded extremes, the rounded mean and the rounded nearest ranks of its samples. |
| Percentiles.SummaryOfPermutation | scripts/bench_rl_scale.py:347-360 | A summary does not depend on the order of its samples. |
| Density.BinByResident | scripts/bench_rl_scale.py:644-666 | Raises exactly on a bad width or resident count; otherwise the bins are those of the samples' keys in order. |
| Density.BinsPartition | scripts/bench_rl_scale.py:644-666 | Every sample lies in exactly one bin, whose bounds contain it. |
| Density.AttemptsConserved | scripts/bench_rl_scale.py:644-666 | The bins' attempts add up to the number of samples. |
| Density.DensityAtLimit | scripts/bench_rl_scale.py:669-693 | The best bin is the last before the first that fails the limit, which is the violation. |
| Density.PassingShare | scripts/bench_rl_scale.py:669-693 | In a bin that passes the limit at least 99% of all attempts succeeded within the limit plus half of the last rounded digit. |
| Density.SharePasses | scripts/bench_rl_scale.py:669-693 | A bin without failed calls in which 99% took at most a limit given to the microsecond passes it. |
| Density.VerdictSound | scripts/bench_rl_scale.py:669-693 | With verdict r no call at a resident count up to r failed, and in every bin up to r at least 99% of the attempts took at most the limit plus half of the last rounded digit; a violation lies above r. |
| Sampling.Accumulate | scripts/bench_rl_scale.py:796-796 | The prefix sums of the row counts. |
| Sampling.BisectRight | scripts/bench_rl_scale.py:799-800 | The number of entries not above x, by halving. |
| Sampling.ExpandAt | scripts/bench_rl_scale.py:782-801 | A row between an entry's prefix sums is that entry's in the run-length expansion. |
| Sampling.ChosenByItsRows | scripts/bench_rl_scale.py:782-801 | Entry i is chosen by exactly its number of rows. |
| Sampling.SampleRows | scripts/bench_rl_scale.py:782-801 | Each draw picks its row's entry in the expansion, in range; distinct draws pick an entry at most as often as it has rows; the two errors exactly when the source raises them. |
| IntervalSweep.Sweep | scripts/build_load_report.py:123-130 | The largest running total and the first prefix that reaches it. |
| IntervalSweep.FirstMaximumEndsItsInstant | scripts/build_load_report.py:126-126 | Because ends sort before starts, the first maximum is the level of its whole instant. |
| IntervalSweep.Peak | scripts/build_load_report.py:123-130 | The maximum over all real instants of the number of half-open intervals containing it, at the earliest such instant. |
| IntervalSweep.Collect | scripts/build_load_report.py:99-121 | valid + missing + duplicate is the number of records, and exactly the valid non-empty intervals contribute points, also per owner. |
| IntervalSweep.Overlap | scripts/build_load_report.py:99-133 | The total and each owner's peak are exact. |
| IntervalSweep.OwnerPeaksBracketTotal | scripts/build_load_report.py:132-133 | Each owner's peak is at most the total peak, which is at most their sum. |
| BuildkitProgress.ParseLines | scripts/analyze_buildkit_progress.py:99-150 | However lines interleave, each vertex is the fold of its own lines. |
| BuildkitProgress.FoldedFlags | scripts/analyze_buildkit_progress.py:110-150 | A vertex's counters and flags are those of its own lines. |
| BuildkitProgress.FoldedStatus | scripts/analyze_buildkit_progress.py:118-126 | The last terminal line gives status and duration, the duration only when it is DONE. |
| BuildkitProgress.FoldedTransfers | scripts/analyze_buildkit_progress.py:132-138 | A layer's bytes are the most any of its lines reports. |
| BuildkitProgress.FoldedOp | scripts/analyze_buildkit_progress.py:141-148 | An operation is recorded with the duration of its last completion. |
| BuildkitProgress.FoldedOpsOnly | scripts/analyze_buildkit_progress.py:141-148 | No other operation is recorded, and none twice. |
| BuildkitProgress.TimingMeaning | scripts/analyze_buildkit_progress.py:157-162 | The timing category follows from a vertex's own lines: materialisation evidence, output, a cached end, or the last header. |
| BuildkitProgress.DistributionMeaning | scripts/analyze_buildkit_progress.py:51-57 | Count, sum, mean, median, nearest-rank p95 and maximum, each characterised by the values alone. |
| BuildkitProgress.Accumulate | scripts/analyze_buildkit_progress.py:151-176 | Status counts, category seconds and operation values are those of all vertices. |
| BuildkitProgress.ParseProgress | scripts/analyze_buildkit_progress.py:95-192 | The report is determined by each vertex's own lines. |
| BuildkitProgress.InterleavingIrrelevant | scripts/analyze_buildkit_progress.py:95-192 | Logs that agree on each vertex's own lines give the same report. |
| BuildkitProgress.RepeatCountsOnce | scripts/analyze_buildkit_progress.py:137-150 | Repeating a seen completion line leaves a vertex alike but for durations, with the same operation counts. |
| BuildkitProgress.RepeatKeepsReport | scripts/analyze_buildkit_progress.py:95-192 | It leaves the report's operation counts, status counts and category seconds. |
| OciLayer.PathPartsNormalises | scripts/inspect_oci_layer.py:55-59 | For every accepted path, splitting, joining and splitting again gives the same parts. |
| OciLayer.RefusesUnsafe | scripts/inspect_oci_layer.py:55-59 | A name is refused exactly when it is longer than 4096, has a NUL, begins with a slash or has ".." between slashes or ends. |
| OciLayer.PartsBelow | scripts/inspect_oci_layer.py:55-59 | A path below another has the other's parts followed by its own. |
| OciLayer.SupportedIsSafe | scripts/inspect_oci_layer.py:62-117 | In a supported layer no name, and no hardlink target, is absolute, climbs or has a NUL. |
| OciLayer.Stream | scripts/inspect_oci_layer.py:62-101 | The streaming pass lists exactly the reasons members have, in member order, so nothing exactly when every member is acceptable alone and paths are unique. |
| OciLayer.Resolve | scripts/inspect_oci_layer.py:102-110 | The second pass lists exactly the dictionary entries without their ancestors as directories or, for a hardlink, without a matching target. |
| OciLayer.ScanArchive | scripts/inspect_oci_layer.py:62-117 | "Supported" exactly when the member list meets the declarative specification; over the member limit it stops. |
| ProcessGroups.WalkIsNearest | scripts/build_load_telemetry.py:126-137 | The ancestor walk ends for every parent map, cycles included, with the nearest labelled ancestor's label. |
| ProcessGroups.UnderBuildkitIff | scripts/build_load_telemetry.py:117-123 | A process is under buildkit exactly when the parts of its cgroup path begin with those of a buildkitd's. |
| ProcessGroups.AssignGroups | scripts/build_load_telemetry.py:100-137 | The in-place loop computes the visits in order. |
| ProcessGroups.WithoutBuildkit | scripts/build_load_telemetry.py:100-137 | With no buildkitd cgroup every process gets its own label or its nearest labelled ancestor's, in every visiting order. |
| ProcessGroups.AgreeingLabelsSettle | scripts/build_load_telemetry.py:100-137 | Where labels agree, every order gives the same groups, which are named. |
| ProcessGroups.OrderIndependentIff | scripts/build_load_telemetry.py:100-137 | The groups are independent of the order exactly when labels agree. |
| ProcessGroups.OrderMatters | scripts/build_load_telemetry.py:100-137 | A process table whose groups depend on the order. |
| Counters.Derive | scripts/build_load_telemetry.py:202-230 | Absent exactly without elapsed time or across boots; otherwise the rates of the non-negative differences and the list of resets. |
| Counters.Summarize | scripts/build_load_telemetry.py:385-431 | Each counter's statistics are those of its rates over the included intervals with a non-negative change, their integral is the sum of those changes, and resets are counted. |
| Counters.StatBounds | scripts/build_load_telemetry.py:420-430 | Mean and p95 lie between min and max, which bound every value. |
| Counters.StatMeaning | scripts/build_load_telemetry.py:421-426 | Mean times covered seconds is the integral, min and max are observed extremes, p95 is a nearest rank. |
| Counters.InsideIffCovered | scripts/build_load_telemetry.py:414-416 | An interval is included exactly when each of its instants is in the window. |
| Counters.SumAccounts | scripts/build_load_telemetry.py:385-429 | The delta is last minus first plus what resets dropped. |
| Counters.TelescopesIffNoReset | scripts/build_load_telemetry.py:385-429 | The delta is last minus first exactly when there is no reset. |
| Counters.ResetsReported | scripts/build_load_telemetry.py:217-223 | A reset in an included interval is reported. |
| SlotPool.Pool.PopNeverEmpty | scripts/chunk_store_gate_remote.py:291-295 | An idle thread of the executor never finds the slot list empty. |
| SlotPool.Pool.Acquire | scripts/chunk_store_gate_remote.py:294-295 | Takes the last free slot; free plus held slots stay a permutation of 0..parallel-1. |
| SlotPool.Pool.Release | scripts/chunk_store_gate_remote.py:301-303 | Returns the slot whether the conversion raised or not; the permutation stays. |
| SlotPool.Pool.Interleave | scripts/chunk_store_gate_remote.py:284-308 | Every interleaving of begins and ends keeps the permutation. |
| SlotPool.Pool.Exclusive | scripts/chunk_store_gate_remote.py:280-281 | Two running conversions have disjoint devices and distinct owners. |

## Left out

- Dry-run mode, sleeps, timestamps in records, argument parsing, command texts and the results a step returns.
- `allocate_ips`, `evaluate`, the reports and Markdown of the gate: small pure functions that would add easy members.
- GateDriver.Gate.RunSteps: a step with several commands is one command here unless the commands change the modelled state, so a crash between two such commands is not told apart.
- GateDriver.Gate.OrderServer: a create that an orphaned `hz.py` has accepted only after a teardown read "unknown server"; here an accepted create is accepted while its driver waits or is killed.
- GateDriver.Gate.RunJob: polling, the restarts of a lost unit and its time limit are one wait that ends well or not. The mirror, holdout and bench units are single commands here and, like the store node's own service, taken not to write objects.
- GateState.WorkersCovered: only the workers phase's plan is characterised; the plans of the other phases are fixed lists.
- GateDriver.Gate.Drive: the driver's arguments other than `--keep-store` are the same in every invocation.
- GateDriver.Gate.RemoveStaging: the check of the staging path's spelling, which a valid run id always passes.
- Relay registrations of a live run, which follow the same ownership pattern, and the scenarios' timings.
- LiveRun.LiveReportFacts: of a scenario's section only its status and its number of failed rows are modelled; what else can fail in it (window failures, calls after the first) is a parameter.
- LiveRun.RunLive: an interrupt during the final report itself, after which no report is returned.
- LiveRun.Cleaner.Sweep: deletes run one after another; in the source they run in parallel on different ids.
- Reports.Merge: a status that is a list or an object, for which the validator raises instead of listing a problem, counts as invalid; list-valued or non-finite finish times count as a TypeError.
- Reports.NewReportValid: explanatory texts of sections are stand-ins; only that they are non-empty matters.
- The family filter, uniform weighting and the random generator of sampling; the draws are a parameter.
- Deadlines, member counts, payload bytes and hashing of the layer inspection.
- Disk identity, gauges, await times and process CPU with reused process ids in the telemetry.
- `gateway_host_profile.py`, `build_load_host_analysis.py` and `live_build_load_benchmark.py`, which repeat the counter and percentile logic, and the backup and traffic scripts.
