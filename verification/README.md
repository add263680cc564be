# Hierophant: a verified model of the scheduler and its stores

The Hierophant hands zero-knowledge proof requests to remote workers (contemplants) and
answers the clients that poll for them. This project models its hardest parts and proves
what they keep, over every sequence of commands, every interleaving and every iteration
order of its hash maps.

* **The worker registry** (`Worker`, `RegistryModel`, `Registry`). One actor owns the live
  workers, a bounded queue of pending requests, the clients waiting for a status answer, the
  completion history and the list of dead workers. `Registry.WorkerRegistry` has one method
  per command, with the loops of the original; each is proved against a relation between the
  states before and after (`RegistryModel`). A hash map is iterated in arbitrary order, so
  those relations admit every order. A run is any sequence of commands interleaved with
  steps of the surroundings: the monotonic clock advances, the wall clock jumps, a worker's
  channel closes. What the registry sends out (proof requests, Magister drops, status
  answers) is logged in the state, and so is how each submission ended.
* **Theorems about all runs of the registry.** `Ledger`, `RegistryInvariant` and
  `RegistryTheorems`: no request is lost or doubled, no capable worker idles while work
  waits, nobody is overtaken. `RepeatedIds`, `Duplicates`: what happens when an id is
  submitted again. `Responders`: status polls. `Reconnect`, `LostInstance`: workers that come
  back under a new address. `SerialWork`, `Alternation`: one proof at a time per process.
  `BoundedWaiting`, `Expiry`: how long a queued request waits. `Sending`, `Dispatch`,
  `Trimming`: on the fields of requests and workers and in numbers, who is sent what, how an
  assignment ends, what the records say, and who is evicted.
* **The gateway** (`Gateway`, `SavedProofs`, with a run in `GatewayRace`). Requests that wait
  for circuit artifacts under a marker, the registry's FIFO command channel, polls that
  interleave with both, and the proofs they save. `LoneWorker` holds the registry's side of the
  runs given here.
* **The rate model** (`RateModel`). Five running sums against the full list of samples.
* **Two ring stores** (`Rings`, `ProofStore`, `ArtifactStore`), each an imperative class over
  arrays, against a plain bounded queue.
* **The edges.** Frames and the exchange with the OpenVM worker process (`Framing`), OpenVM
  jobs under interleaved polls (`OpenVmJobs`), the handlers that run them (`OpenVmRouter`),
  jobs and registry as one system (`OpenVmSystem`, with a run in `OpenVmRace`), artifact URIs
  (`ArtifactUri`), and the client's view of a status (`ProofStatus`).

Times are natural numbers of nanoseconds, read once per command. A channel send fails exactly
when the channel is closed. One-shot responders are numbers used once.

## Findings

Places where the code falls short of what its comments or documentation say. Each has an
exact condition and, where it helps, a concrete run.

* A registration can leave its own stale entry behind. If a worker with a drop endpoint
  reconnects while its old entry and another worker of the same name *without* an endpoint are
  both live, the search for a stale entry may pick the wrong one; the later eviction of the
  forgotten entry then destroys the live instance. Registering alone leads there once three
  workers share a name; runs in which no registration meets that ambiguity are safe
  (`Reconnect.RegistrationIsSafeIff`, `Reconnect.MixedFleetIsSafe`,
  `LostInstance.HazardDropsLiveInstance`).
* A process can be sent a second request while it works on the first: a registration from its
  own address, or from another process of its instance, makes the registry forget what it is
  doing (`Alternation.AlternatesIff`, `Alternation.TwoProofsAtOnce`).
* The configured limit on execution-report time never evicts anybody unless the wall clock has
  run backwards (`Worker.ExecutionReportLimitMattersIff`).
* A half-written artifact stays: uploading it again reports success and keeps the fragment,
  until it is evicted (`ArtifactStore.FragmentStays`; `OkMeansStoredIff` and `RetryKeepsFragment`
  note the single steps). A failed deletion leaves a file that no ring tracks, and such files
  pile up beyond any limit (`ArtifactStore.SaveKeepsContainedIff`, `ArtifactStore.FailedDeletionsPileUp`).
* URIs of private inputs do not parse (`ArtifactUri.RoundTripIff`), although the store
  accepts that type.
* Overlapping polls can fail an OpenVM job that succeeds. Completion is reported before the
  proof is stored, so a poll in between hears that the request is lost, with every worker well
  (`OpenVmJobs.BothVerdictsIff`, `OpenVmSystem.LostOnlyWithReason`,
  `OpenVmRace.OverlapGivesBothVerdicts`).
* The request service has the same race: a poll that looks for the proof before another poll has
  saved it, and asks the registry after that one reported completion, is told the finished
  request is lost (`SavedProofs.FinishedButLost`, `GatewayRace.FinishedRequestIsLost`).
* A proving thread that dies leaves its caller waiting for ever on a connection that stays open,
  and an answer over the size bound reaches the caller as the end of the file
  (`Framing.CallEndsExactly`, `Framing.BlockedIff`).
* Until it is full, a proof store claims to know the all-zero id, as failed
  (`ProofStore.ZeroIdReadsBlankIff`).
* The comment above the fulfillment codes in `src/hierophant/src/proof/status.rs` names other
  codes than the code uses; the model follows the code.

## Model

| member | source | states |
|---|---|---|
| `Worker.ExecutionReportLimitMattersIff` | src/hierophant/src/worker_registry/worker_state.rs:141-205 | the execution-report limit changes an eviction decision if and only if nothing else evicts the worker, it has reported no progress and its last update lies in the future |
| `Trimming.TrimKeepsExactlyTheHealthy` | src/hierophant/src/worker_registry/worker_state.rs:141-205 | a trim keeps exactly the workers below the strike limit, heard from within the window, within the proof timeout and reporting within the progress interval, each given in nanoseconds |
| `Trimming.OnlyTheHealthyStay` | src/hierophant/src/worker_registry/registry.rs:155-203 | after any assignment or poll of any run exactly the healthy workers are left, and every one of them was heard from, is in time and is reporting |
| `Trimming.TrimRecordsTheDead` | src/hierophant/src/worker_registry/registry.rs:155-203 | every evicted worker goes to the dead list as it was, its endpoint is dropped and its request ended, and nobody else is listed |
| `Trimming.StrikeCountsOne` | src/hierophant/src/worker_registry/registry.rs:664-683 | the struck worker counts one strike more and goes or stays by its health with it |
| `Trimming.DropLeavesNobody` | src/hierophant/src/worker_registry/registry.rs:643-662 | dropping the worker of a request leaves nobody at work on it and evicts nobody else that is healthy |
| `Trimming.ReportsRaiseProgress` | src/hierophant/src/worker_registry/registry.rs:461-494 | a report replaces progress only by a higher rank, and refreshes the time exactly then or when it carries none |
| `Registry.WorkerRegistry.constructor` | src/hierophant/src/worker_registry/client.rs:27-53 | a registry starts empty |
| `Registry.WorkerRegistry.TrimWorkers` | src/hierophant/src/worker_registry/registry.rs:155-203 | exactly the workers that should be dropped leave, in some order, each to the dead list, with a drop for its endpoint and an end for its request |
| `Registry.WorkerRegistry.TryAssign` | src/hierophant/src/worker_registry/registry.rs:257-340 | over every map order: an already running request is left alone; otherwise it goes to an idle capable connected worker, to a cold one only after all hot ones failed; every failed try costs exactly one strike |
| `Registry.WorkerRegistry.DrainPending` | src/hierophant/src/worker_registry/registry.rs:345-371 | outdated entries are dropped, the rest tried oldest first, and what finds no worker keeps its order |
| `Registry.WorkerRegistry.HandleAssignProof` | src/hierophant/src/worker_registry/registry.rs:217-252 | trim, try, and queue, absorb or reject what found no worker |
| `Registry.WorkerRegistry.HandleWorkerReady` | src/hierophant/src/worker_registry/registry.rs:373-459 | a superseded entry goes silently, its assignment is carried over within one process, and the queue is drained |
| `Registry.WorkerRegistry.HandleProgress` | src/hierophant/src/worker_registry/registry.rs:461-494 | a higher progress replaces the old one and an absent one refreshes the time only |
| `Registry.WorkerRegistry.HandleProofComplete` | src/hierophant/src/worker_registry/registry.rs:496-538 | the worker of the request becomes idle, the history gains it, the queue is drained |
| `Registry.WorkerRegistry.HandleStatusResponse` | src/hierophant/src/worker_registry/registry.rs:540-564 | bridge, free the worker of a failed proof, then answer all waiters |
| `Registry.WorkerRegistry.BridgeStartupRace` | src/hierophant/src/worker_registry/registry.rs:575-607 | an "unknown" within the grace time of an assignment reads as unexecuted |
| `Registry.WorkerRegistry.FreeWorkerOfFailedProof` | src/hierophant/src/worker_registry/registry.rs:613-641 | an unexecutable report frees the worker and drains the queue |
| `Registry.WorkerRegistry.HandleStatusRequest` | src/hierophant/src/worker_registry/registry.rs:685-747 | a poll is forwarded, answered unexecuted when queued, or answered none |
| `Registry.WorkerRegistry.HandleHeartbeat` | src/hierophant/src/worker_registry/registry.rs:205-215 | an unknown worker is told to hang up, a known one has its heartbeat refreshed |
| `Registry.WorkerRegistry.HandleStrikeWorker` | src/hierophant/src/worker_registry/registry.rs:664-683 | the worker of the request gains a strike, then all are trimmed |
| `Registry.WorkerRegistry.HandleDropWorker` | src/hierophant/src/worker_registry/registry.rs:643-662 | the worker of the request is struck out, then all are trimmed |
| `Registry.WorkerRegistry.Handle` | src/hierophant/src/worker_registry/registry.rs:57-153 | one turn of the event loop is a step of the model |
| `Registry.WorkerRegistry.EventLoop` | src/hierophant/src/worker_registry/registry.rs:57-153 | the event loop over any commands and surroundings is a run of the model, so every theorem about runs holds of it |
| `Ledger.EnlistConserves` | src/hierophant/src/worker_registry/registry.rs:391-456 | a registration carries over or ends the request of every entry it removes, so every submission stays accounted for once |
| `Ledger.ExpiryBalance` | src/hierophant/src/worker_registry/registry.rs:346-356 | purging the queue splits it into what stays and what is recorded as expired |
| `RegistryInvariant.DrainKeeps` | src/hierophant/src/worker_registry/registry.rs:345-371 | a drain establishes work conservation and keeps the books, the queue order and the fairness of sends |
| `RegistryInvariant.StepKeeps` | src/hierophant/src/worker_registry/registry.rs:57-747 | every command and every step of the surroundings keeps the whole invariant |
| `RegistryInvariant.RunInv` | src/hierophant/src/worker_registry/registry.rs:57-747 | the invariant holds in every state of every run |
| `RegistryTheorems.ConservationOfRequests` | src/hierophant/src/worker_registry/registry.rs:155-538 | with no hypothesis on ids: each id was submitted as often as it is queued, running, completed or ended; it is never on two workers nor queued twice |
| `RegistryTheorems.ExactlyOnePlace` | src/hierophant/src/worker_registry/registry.rs:155-538 | with fresh ids every submitted request is in exactly one place at all times, one never submitted in none, and none completes twice |
| `RegistryTheorems.NoWorkerIdlesWhileWorkWaits` | src/hierophant/src/worker_registry/registry.rs:34-39 | in every state of every run no queued request has an idle, capable, connected worker |
| `RegistryTheorems.NobodyIsOvertaken` | src/hierophant/src/worker_registry/registry.rs:231-251 | every send in every run went to an idle capable worker past no older request it could have served; the queue stays capped and in order |
| `Dispatch.SentToAbleWorkers` | src/hierophant/src/worker_registry/worker_state.rs:87-101 | every request ever sent went to an idle worker whose last registration had its virtual machine and the Groth16 or EVM support it needs, past no older request that worker had these for |
| `Dispatch.WaitingMeansNobodyAble` | src/hierophant/src/worker_registry/registry.rs:34-39 | in no state of any run does a queued request stand beside an idle connected worker with what it needs, and at most 64 wait |
| `Dispatch.AssignmentEndsExactly` | src/hierophant/src/worker_registry/registry.rs:217-340 | after trimming, an assignment ends in exactly one of five ways, decided by fields of the workers and the queue, with one strike for everybody tried in vain |
| `Dispatch.CompletionFrees` | src/hierophant/src/worker_registry/worker_state.rs:103-109 | a completion leaves a connected worker idle with no strikes, or already at new work |
| `Dispatch.FailureFrees` | src/hierophant/src/worker_registry/worker_state.rs:111-117 | a reported failure leaves it idle with the strikes it had |
| `Dispatch.RegistrationStartsClean` | src/hierophant/src/worker_registry/registry.rs:405-441 | a registered entry is heard from now and starts with no strikes and hot for nothing |
| `Dispatch.HungUpWorkerIsStruckOut` | src/hierophant/src/worker_registry/registry.rs:685-747 | a poll that finds its worker hung up brings it to the strike limit |
| `Dispatch.HotForLastSent` | src/hierophant/src/worker_registry/worker_state.rs:124-135 | a live entry is hot for exactly the virtual machine of the last request sent to it since it registered |
| `Dispatch.HistoryIsTrue` | src/hierophant/src/worker_registry/registry.rs:496-538 | every line of the history names a request that was sent, its virtual machine and mode, the worker that had it, and the time from sending to completion |
| `Reconnect.EntryIsAsRegistered` | src/hierophant/src/worker_registry/registry.rs:405-436 | every live entry has the name, capabilities, endpoint, nonce and channel of the last registration from its address |
| `Expiry.OnlyTheYoungWait` | src/hierophant/src/worker_registry/registry.rs:345-356 | after every registration and every freed worker, whatever is queued is queued for at most two hours |
| `Expiry.TheYoungAreKept` | src/hierophant/src/worker_registry/registry.rs:345-371 | nobody younger leaves the queue but by being sent, nor moves back |
| `Expiry.QueuedSinceAssigned` | src/hierophant/src/worker_registry/registry.rs:231-251 | every queued request is queued since its assignment |
| `RegistryTheorems.AssignKeepsApart` | src/hierophant/src/worker_registry/registry.rs:221-237 | assigning again a request that is queued cannot start it a second time, because no worker for it is available |
| `RegistryTheorems.RetriesNeverDouble` | src/hierophant/src/worker_registry/registry.rs:264-279 | when an id always names the same request, it is never queued and running at once, however often it is submitted |
| `RepeatedIds.AssignDoublesIff` | src/hierophant/src/worker_registry/registry.rs:221-237 | submitting a queued id doubles it exactly when the new request can be started at once |
| `RepeatedIds.OneIdTwoRequests` | src/hierophant/src/worker_registry/registry.rs:221-223 | a run in which one id names two requests and ends up queued and running |
| `Duplicates.DuplicatesWereRepeated` | src/hierophant/src/worker_registry/registry.rs:231-237 | a submission is absorbed as a duplicate only if its id was submitted before |
| `Responders.EveryPollAnsweredOnce` | src/hierophant/src/worker_registry/registry.rs:540-564 | every responder was answered exactly once or waits in exactly one place |
| `Responders.OneValueForAllWaiters` | src/hierophant/src/worker_registry/registry.rs:566-607 | all waiters get one value; "unknown" becomes a loss exactly when no live worker took the request up within the grace time, and reads as assigned inside it |
| `Responders.FreedBeforeTold` | src/hierophant/src/worker_registry/registry.rs:609-641 | a reported failure frees the worker, ends the request and drains the queue before any waiter is told |
| `Responders.PollFindsLiveRequests` | src/hierophant/src/worker_registry/registry.rs:685-747 | a poll is answered none on the spot exactly when the request is neither queued nor on a connected live worker |
| `Reconnect.ReconnectNeverDestroysLiveInstance` | src/hierophant/src/worker_registry/registry.rs:384-441 | in a fleet with endpoints they stay distinct, a drop never names a live instance, and a registration issues none |
| `Reconnect.RegistrationIsSafeIff` | src/hierophant/src/worker_registry/registry.rs:391-401 | in a mixed fleet every map order keeps endpoints distinct if and only if no worker of that name without endpoint is live beside the stale entry |
| `Reconnect.MixedFleetIsSafe` | src/hierophant/src/worker_registry/registry.rs:384-441 | in every run of a mixed fleet in which no registration meets that ambiguity, endpoints stay distinct and a drop never names a live instance |
| `LostInstance.HazardDropsLiveInstance` | src/hierophant/src/worker_registry/registry.rs:384-441 | a run from an empty registry, by four registrations, a silent heartbeat window and a trim, that drops the endpoint of a live, just reconnected instance |
| `Reconnect.ReconnectCarriesOver` | src/hierophant/src/worker_registry/registry.rs:403-436 | a busy process that reconnects keeps request, start time and progress, under one entry |
| `SerialWork.RunSerial` | src/hierophant/src/worker_registry/registry.rs:300-327 | every request sent out is over or with the process it went to, and of two sent to one process the earlier is over or was taken from it by a registration |
| `Alternation.StepCuts` | src/hierophant/src/worker_registry/registry.rs:403-452 | a step takes a request from its process exactly when it is a registration at a busy worker's address or from another process of a busy instance |
| `Alternation.AlternatesIff` | src/hierophant/src/worker_registry/registry.rs:300-327 | with fresh ids, in every run: of two requests sent to one process the earlier completed, failed or was evicted, if and only if no interrupted process was sent anything from its interruption on |
| `Alternation.OneProofPerProcess` | src/hierophant/src/worker_registry/registry.rs:300-327 | so without such registrations sends alternate with completion, failure or eviction, across any reconnects |
| `Alternation.TwoProofsAtOnce` | src/hierophant/src/worker_registry/registry.rs:438-452 | a run with fresh ids in which one process is sent two requests and nothing completed, failed or was evicted |
| `BoundedWaiting.StepAdvances` | src/hierophant/src/worker_registry/registry.rs:345-371 | no step moves a queued request back, and freeing a connected worker able to serve it moves it forward, whatever is queued ahead of it |
| `BoundedWaiting.PlacedWithinBound` | src/hierophant/src/worker_registry/registry.rs:345-371 | a request with k ahead of it is placed within k + 1 completions or failures on connected workers able to serve it, in any fleet |
| `Gateway.GateRunInv` | src/hierophant/src/api/grpc/prover_network_service.rs:286-300 | in every interleaving a poll in the channel stands behind the assignment it asks about, unless routing failed, and a marker is set exactly while its download task is under way |
| `Gateway.NoSpuriousLoss` | src/hierophant/src/api/grpc/prover_network_service.rs:664-693 | a poll answered none means routing failed, the worker hung up, or the request is over and nowhere else |
| `SavedProofs.FinishedButLost` | src/hierophant/src/api/grpc/prover_network_service.rs:416-556 | a poll answered none about a finished request looked for the proof before the poll that reported completion had saved it, or it was evicted or unreadable |
| `GatewayRace.FinishedRequestIsLost` | src/hierophant/src/api/grpc/prover_network_service.rs:531-556 | a run from the start in which that happens with the worker connected and nobody evicted |
| `SavedProofs.FulfilledWasAccepted` | src/hierophant/src/api/grpc/prover_network_service.rs:416-576 | a client is told its proof is there only after a poll of that request was answered with a proof by the registry and accepted it |
| `RateModel.AffineIffCountsDiffer` | src/contemplant/src/rate_model.rs:50-51 | the numerical test picks the affine branch if and only if two recorded counts differ |
| `RateModel.DenominatorIsPairSpread` | src/contemplant/src/rate_model.rs:50-50 | the denominator is the sum of squared pairwise differences of the counts |
| `RateModel.FitMinimisesError` | src/contemplant/src/rate_model.rs:46-63 | the line read off the five sums minimises the squared error over the whole history, uniquely |
| `RateModel.EstimateIsLeastSquares` | src/contemplant/src/rate_model.rs:41-63 | when two counts differ there is a line of least squares, and the estimate for any count is the value of every such line, cut off at zero |
| `RateModel.RecoversAffineData` | src/contemplant/src/rate_model.rs:41-45 | a fixed cost plus a rate is recovered exactly |
| `RateModel.OrderDoesNotMatter` | src/contemplant/src/rate_model.rs:33-39 | the sums depend on the samples, not on their order |
| `RateModel.NoEstimateIff` | src/contemplant/src/rate_model.rs:55-61 | without differing counts there is no estimate exactly when there are no samples or all counts are zero |
| `RateModel.MeanAtCommonCount` | src/contemplant/src/rate_model.rs:55-61 | and at the common count the estimate is the mean |
| `RateModel.KeyedModel.Record` | src/contemplant/src/rate_model.rs:80-85 | a sample extends the history of its own key and no other |
| `RateModel.ProportionalToCycles` | src/contemplant/src/rate_model.rs:55-61 | from one common count, the estimate for any number of cycles is to the mean of the times as that number is to the count |
| `RateModel.KeyedModel.EstimateSecs` | src/contemplant/src/rate_model.rs:89-94 | the answer lies within half a second of the estimate from the key's whole history, up to the largest 64-bit number |
| `RateModel.KeyedModel.HasHistory` | src/contemplant/src/rate_model.rs:97-102 | true exactly when a sample was recorded under the key |
| `ProofStore.StoreRefinesQueue` | src/contemplant/src/proof_store/store.rs:42-122 | after any commands with non-zero ids every read agrees with a bounded first-in-first-out queue |
| `ProofStore.ResidentIff` | src/contemplant/src/proof_store/store.rs:104-122 | after any commands, overwrites of this entry included, it has stayed readable if and only if no more entries were evicted than were ahead of it, and it moved up by as many places |
| `ProofStore.ReadsExactlyTheLast` | src/contemplant/src/proof_store/store.rs:42-122 | a read gives the latest status of exactly the last K new insertions, and nothing for any other id |
| `ProofStore.UpdateReadsBack` | src/contemplant/src/proof_store/store.rs:77-103 | a stored result is read back, code and bytes, until the id is updated or inserted again |
| `ProofStore.InsertReadsBack` | src/contemplant/src/proof_store/store.rs:104-122 | an inserted status can be read at once, and is what is read until another command concerns the id |
| `ProofStore.HighestProgressIsShown` | src/contemplant/src/proof_store/store.rs:58-76 | between an insert and the result the highest progress reported is shown, the newest among equals |
| `ProofStore.ProofReadsDone` | src/contemplant/src/proof_store/store.rs:88-96 | with a proof the progress reads done, whatever is reported later |
| `ProofStore.ZeroIdReadsBlankIff` | src/contemplant/src/proof_store/client.rs:22-24 | the all-zero id reads as a failed proof if and only if fewer new insertions were made than there are slots |
| `ProofStore.StoredStatusesOk` | src/contemplant/src/proof_store/store.rs:58-103 | for every command sequence of the executors, executed means proof and proof means done |
| `ProofStore.RelayedStatusNeverPanics` | src/hierophant/src/proof/status.rs:41-76 | no status read from a store makes the conversion panic; the client gets the codes 3, 4 or 2 for a proof, a failure and a proof under way, and the stored bytes |
| `ProofStore.ProgressNeverFalls` | src/network-lib/src/lib.rs:290-299 | over any executor commands after its last insert, the rank of a readable id's progress never falls |
| `ProofStore.Store.Get` | src/contemplant/src/proof_store/store.rs:43-57 | the status of the first slot with the id |
| `ProofStore.Store.ProgressUpdate` | src/contemplant/src/proof_store/store.rs:58-76 | the found status takes the higher progress |
| `ProofStore.Store.StatusUpdate` | src/contemplant/src/proof_store/store.rs:77-103 | the found status takes the result, and a proof sets it done |
| `ProofStore.Store.Insert` | src/contemplant/src/proof_store/store.rs:104-141 | overwrite in place, or at the cursor, which then advances |
| `Rings.PushIsBoundedQueue` | src/contemplant/src/proof_store/store.rs:137-141 | overwriting at the cursor is appending to a bounded queue |
| `ArtifactStore.Store.SaveArtifact` | src/hierophant/src/artifact_store/store.rs:122-184 | registered, new artifacts make room in their ring and are written; others are refused or left alone |
| `ArtifactStore.Store.CreateArtifact` | src/hierophant/src/artifact_store/store.rs:113-120 | the new URI becomes valid for upload |
| `ArtifactStore.Store.GetArtifactBytes` | src/hierophant/src/artifact_store/store.rs:186-196 | the bytes on disk; missing and unreadable files are told apart |
| `ArtifactStore.SaveKeepsContainedIff` | src/hierophant/src/artifact_store/store.rs:139-179 | files of a limited class stay within their ring exactly when no tracked file of that class fails to be deleted, whatever happens to the write |
| `ArtifactStore.DiskStaysWithinLimits` | src/hierophant/src/artifact_store/store.rs:139-179 | while deletions of a class work, its files stay within its limit through any operations, failing writes and failures of other classes |
| `ArtifactStore.SaveDisturbsLittle` | src/hierophant/src/artifact_store/store.rs:140-171 | no class evicts another, and bytes never change while a file stays |
| `ArtifactStore.SaveDeletesItsOwnKind` | src/hierophant/src/artifact_store/store.rs:140-171 | saving a proof deletes at most a proof, saving an input at most an input, saving anything else nothing |
| `ArtifactStore.OthersAreNeverDeleted` | src/hierophant/src/artifact_store/store.rs:140-171 | programs and all other artifacts are never deleted, through any operations |
| `ArtifactStore.InputsAndProofsStayWithinLimits` | src/hierophant/src/artifact_store/store.rs:140-171 | inputs and private inputs together stay within one limit and proofs within theirs, each while its deletions work |
| `ArtifactStore.FilesWereUploaded` | src/hierophant/src/artifact_store/store.rs:113-184 | every file was uploaded under a name created before and holds the bytes of that upload or what a failing write left |
| `ArtifactStore.DiskHoldsExactlyTheLast` | src/hierophant/src/artifact_store/store.rs:139-184 | while writes and deletions of a class work, its files are exactly its last newly saved ones, whatever fails for other classes |
| `ArtifactStore.BytesNeverChange` | src/hierophant/src/artifact_store/store.rs:133-184 | through any operations and any failures the bytes of a file never change while it stays |
| `ArtifactStore.FragmentStays` | src/hierophant/src/artifact_store/store.rs:133-137 | no sequence of uploads repairs a half-written file before it is evicted |
| `ArtifactStore.FailedDeletionsPileUp` | src/hierophant/src/artifact_store/store.rs:198-210 | while deletions fail, any number of artifacts stay on disk, whatever the limits |
| `ArtifactStore.OneUntrackedFile` | src/hierophant/src/artifact_store/store.rs:139-171 | a run that leaves a file no ring tracks |
| `ArtifactUri.RoundTripIff` | src/hierophant/src/artifact_store/artifact_uri.rs:43-80 | parsing a printed URI returns it if and only if its type name has no underscore |
| `ArtifactUri.FileNames` | src/hierophant/src/artifact_store/artifact_uri.rs:43-58 | the names under which programs, inputs, private inputs and proofs are stored |
| `ArtifactUri.SpellingsParse` | src/hierophant/src/artifact_store/artifact_uri.rs:61-80 | hyphenated in either case, bare, braced and as a URN, every spelling of a UUID parses to it |
| `ArtifactUri.ParsedIsPrinted` | src/hierophant/src/artifact_store/artifact_uri.rs:61-80 | whatever parses is a type name, an underscore and a UUID text, and printing restores canonical input |
| `ArtifactUri.PrintInjective` | src/hierophant/src/artifact_store/artifact_uri.rs:27-30 | different URIs have different file names |
| `Framing.LengthRoundTrip` | src/openvm-worker-proto/src/lib.rs:117-125 | the four length bytes decode to the length |
| `Framing.FramesRoundTrip` | src/openvm-worker-proto/src/lib.rs:110-132 | any messages within the bound are read back exactly and what follows is untouched |
| `Framing.ExchangeDelivers` | src/openvm-worker/src/main.rs:113-195 | the caller gets at most one size report and exactly the job's terminal answer, and stops reading there |
| `Framing.CallEndsExactly` | src/openvm-worker/src/main.rs:95-195 | a call ends with the job's terminal answer, with an error, or never: which of them, for every request, size report, answer and fate of the proving or verifying thread |
| `Framing.BlockedIff` | src/openvm-worker/src/main.rs:171-192 | the caller waits for ever exactly when the proving thread died after the request and any size report got through |
| `Framing.CallerLearnsTheOutcome` | src/openvm-worker/src/main.rs:116-195 | the caller learns the version, the verdict, the proof bytes or the message of each kind of job, when they fit into a gigabyte |
| `Framing.RefusedAnswer` | src/openvm-worker-proto/src/lib.rs:112-116 | an answer over the bound is refused whole, after any size report, for every kind of job |
| `Framing.Stream.WriteFrame` | src/openvm-worker-proto/src/lib.rs:110-120 | a frame is appended whole or refused |
| `Framing.Stream.ReadFrame` | src/openvm-worker-proto/src/lib.rs:122-132 | one frame is consumed and decoded, or the error reported |
| `Framing.Stream.HandleRequest` | src/openvm-worker/src/main.rs:116-195 | the frames written for a request, event by event |
| `Framing.Stream.ReceiveAnswer` | src/openvm-worker-proto/src/lib.rs:139-153 | size reports are forwarded until a terminal frame or an error |
| `OpenVmJobs.DownloadsAreVerified` | src/hierophant/src/openvm/router.rs:274-373 | under any interleaving a downloadable proof was accepted for its job's mode and configuration and a program stored under its id |
| `OpenVmJobs.JobsAreAsCreated` | src/hierophant/src/openvm/router.rs:134-173 | every job keeps the request, program, configuration and mode its client created it with, for a program and input known then |
| `OpenVmJobs.DownloadIsWhatWasAskedFor` | src/hierophant/src/openvm/router.rs:134-373 | a downloadable proof was accepted for the mode and configuration its job was created with and a program uploaded under the id it named |
| `OpenVmJobs.ProofIsTheAnswer` | src/hierophant/src/openvm/router.rs:232-348 | a downloadable proof is, byte for byte, what the registry answered a poll of that job with as fulfilled |
| `OpenVmJobs.FailureHasCause` | src/hierophant/src/openvm/router.rs:247-327 | a recorded failure has its cause, an unfulfillable answer or a refused proof of that job, and its message says which |
| `OpenVmJobs.RunningIff` | src/hierophant/src/openvm/router.rs:244-279 | a poll is told running exactly when the registry's answer is neither unfulfillable nor fulfilled with a proof |
| `OpenVmJobs.RunPersists` | src/hierophant/src/openvm/router.rs:192-357 | a recorded failure is never cleared, a stored proof never removed, a job's data never changed |
| `OpenVmJobs.VerdictIsFinal` | src/hierophant/src/openvm/router.rs:192-357 | when polls of a job do not overlap, whatever polls of other jobs do, success and failure exclude each other for good |
| `OpenVmJobs.SuccessIsPermanent` | src/hierophant/src/openvm/router.rs:221-230 | and once a proof is stored every later answer is a success |
| `OpenVmJobs.BothVerdictsIff` | src/hierophant/src/openvm/router.rs:192-357 | in every run a job has both verdicts if and only if two of its polls overlapped, one storing a proof and the other recording a failure |
| `OpenVmSystem.SystemRunInv` | src/hierophant/src/worker_registry/client.rs:124-250 | with a FIFO channel between handlers and registry, every answer that reads as a loss is explained by a completion, a recorded end or trouble with the worker |
| `OpenVmSystem.LostOnlyWithReason` | src/hierophant/src/openvm/router.rs:232-265 | unless the request ended otherwise, its worker hung up, or a worker reported it unexecutable or did not know it after the grace time, a poll hears "lost" only after a poll of the same job reported completion |
| `OpenVmSystem.RegistryIsTold` | src/hierophant/src/openvm/router.rs:299-342 | a request whose proof can be downloaded was reported complete, and the worker of an invalid proof was ordered dropped |
| `OpenVmSystem.HandlersRun` | src/hierophant/src/openvm/router.rs:134-357 | what the handlers do in a run of the system is a run of the jobs, so the theorems above hold of it |
| `OpenVmRace.OverlapGivesBothVerdicts` | src/hierophant/src/openvm/router.rs:329-348 | a run of jobs and registry from the start in which a job gets both verdicts although its worker stays connected, nobody is evicted and the proof is accepted |
| `OpenVmRouter.Router.HandleProofCreate` | src/hierophant/src/openvm/router.rs:134-190 | a job is created exactly for a known program, input and proof mode; a failing route is told to the client and leaves the job's entry |
| `OpenVmRouter.ModeNamesParse` | src/hierophant/src/openvm/router.rs:375-386 | the names of the three modes, in any case, and nothing else parse to them; a missing mode means the application proof |
| `OpenVmRouter.Router.HandleProofStatus` | src/hierophant/src/openvm/router.rs:192-357 | whatever other tasks do at its awaits, a poll's steps, dropping the worker of an invalid proof included, extend a run of the model; unknown means no such job, success a stored and vouched proof, failure a recorded one |
| `OpenVmRouter.Router.HandleProofDownload` | src/hierophant/src/openvm/router.rs:359-373 | a download serves the stored proof, accepted by the verifier for its job |

## Left out

- The proving and verifying libraries: the verifier is an arbitrary predicate, the prover's events are arbitrary.
- `Gateway.GateRunInv`: the request service is a relation on values, one action per stretch between two awaits, rather than a class, because its handlers interleave with the registry's own nondeterministic steps.
- Worker entries are values in the registry's map: a handler replaces an entry where the original updates it through a reference.
- Websocket, HTTP, gRPC and socket plumbing, configuration, logging, metrics: no property of their own.
- Serialisation: an arbitrary encoder with a decoder that undoes it.
- `Registry.WorkerRegistry.Handle`: the read-only queries for workers, dead workers, history and queue depth are not modelled, because they only copy a field.
- Clock reads inside one command: the model reads each clock once per command, and whole minutes come from exact division, not from 32-bit floats.
- A worker's channel that closes in the middle of a command: it closes between two commands.
- Blocking on a full bounded channel: a send succeeds or finds the channel closed.
- Floating-point rounding in the rate model: reals stand for doubles.
- `RateModel.FitMinimisesError`: stated over reals, so it says nothing about cancellation in the running sums.
- `Alternation.AlternatesIff`: for fleets in which every process registers under its instance's own drop endpoint; without endpoints the registry identifies workers by name alone.
- `Framing.Stream.WriteFrame`: a peer that disappears in the middle of a write is not modelled; the exchange then ends with a transport error.
- `Framing.Stream.HandleRequest`: likewise, a caller that disappears is not modelled; nobody is left to observe the answer.
- `Framing.Stream.ReceiveAnswer`: the reading loop only; connecting and sending the request are in `Conversation`.
- Restarting and killing the OpenVM worker process, its start-up grace time and death counters: easy members.
- Bonsai sessions: the same job machine as the OpenVM jobs.
- Creating a job and routing it are one action: nobody knows the job's id before the handler returns.
- Normalising program ids, and the worker registry shutting down under its clients.
- GPU residency in the contemplant: start-up loads several backends before the first request.
- Conversion of SP1 proofs, verification keys and artifact compression in the request service: foreign formats.
