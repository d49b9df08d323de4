# Verified model of the gateway and the worker

The gateway hands runs to workers, keeps a bounded event log per run, streams it to
subscribers, and enrols workers by pairing. The worker executes one run at a time per stream,
races it against cancels, and cleans up what it started. This project models those parts in
Dafny and proves what they keep over every interleaving and every history. Run
`dafny verify dfyconfig.toml` in this directory.

## How the model is laid out

| module | models |
|---|---|
| `Sequences` | trimming to the last n, Go's reading of a missing map key |
| `StreamHub` | the per-stream maps of `GatewayServer`, as functions of one locked region each, and the class `Gateway` that executes the regions in place |
| `StreamSystem` | appends, run creation, sweeps and event-stream handlers interleaving; the refinement to one activity log per stream; what a subscriber receives |
| `ControlQueue` | sequence numbers, the capped queue of each worker, flush and poll, and the class `ControlPlane` |
| `DispatchSystem` | dispatches, flushes and polls interleaving; conservation of every envelope |
| `DispatchRuns` | what one dispatch, flush or poll does when nothing interferes, and why a dispatch writes or queues |
| `SerialDispatch` | when polling with `last_seq` loses messages and when it cannot |
| `RunLifecycle` | `handleRunRequest` and any number of `handleCancel` calls as program-counter steps |
| `RunTranscript` | what a run starts and says, told from the outcomes its handler met |
| `TokenStore` | pairing requests, worker records and the token index, with the class `WorkerConfigStore`; each operation may be cut off between two file writes |
| `PairingHistory` | whole histories of the store, crashes included |
| `Allowlist` | the validator, the loader and the decision of the egress proxy |
| `NestedYaml` | the dotted-key update of an ordered mapping |
| `DockerFormat` | the CPU and memory arguments for docker |
| `BindPath` | rebasing a container path onto the host |

A transition system has a datatype of steps, `Enabled`, and a function `Apply`; `Runs` and
`Exec` follow a list of steps, and `Reachable` is what some list reaches from `START`. Fields
called bookkeeping in the comments are written and never read by a step. Each class method is
proved equal to the function that the transition system uses for the same region, so the
results about runs are about those bodies.

The clock, random ids and tokens, and the outcome of writes, docker commands and processes
are parameters. SHA-256 is taken to be injective, and generated ids and tokens to be new.

## What came out false, and exactly when it holds

- A run whose workspace cannot be created sends its completion without the swap that all other
  exits go through, so a cancel can add a second one. Once all is at rest there is exactly one
  completion if and only if the swap was won or the workspace failed, but not both; while the
  connection's context lives, if and only if the workspace was created or no cancel won
  (`CompletionsAtRest`, `CancelledWorkspaceFailureCompletesTwice`, `DeadParentCompletesNever`).
- An allowlist run leaves its network behind when its rules cannot be encoded or written, and
  any run leaves its agent container when waiting for it fails; nothing else is left by a run
  that won the swap (`UncancelledRunCleansUp`, `UnwritableRulesLeakTheNetwork`,
  `FailedWaitLeaksTheAgent`).
- A cancel that looks for the agent container while `docker run` is still under way does not
  find it, and the container stays. What a cancelled run leaves is known exactly: never the
  proxy, the network only if its rules also failed, the agent exactly in this case
  (`CancelledRunLeaves`, `CancelDuringStartLeaksTheAgent`).
- The exit code is cut to 32 bits on the wire, so an event says failure with code 0 exactly when
  docker prints a nonzero multiple of 2^32. No process exits with such a code; the worker takes
  whatever number docker prints (`FlagAndCodeAgree`, `WrappedCodeIsSent`).
- Numbers are issued and queued under two separate locks, so a later message can overtake an
  earlier one, and a poller that passes the last number it received loses the earlier one
  (`OvertakenMessageIsSkipped`). A queue drains without loss for every batch size if and only if
  it is ascending and unseen (`DrainsForEveryBatchSizeIffAscending`), and that is so while
  dispatches and flushes for the same worker do not overlap (`SerialPollsLoseNothing`).
- A request rejected after its approval keeps its token (`RejectedRequestHandsOutItsToken`).
  From then on every poll with its secret and within its time repeats the token, if and only if
  no approval by id has gone through for it and no creation has dropped it since
  (`RejectedHandsOutUntilEnded`). Only such a request can hand a token out twice
  (`HandedOutTwiceWasRejected`, `TokenStaysOnFileIff`).
- An approval keeps another worker's token accepted if and only if it enrolls nobody, can read
  the token index, or is cut off before it writes the index (`ApprovalKeepsOthersIff`); otherwise
  the index is replaced and the other worker is locked out (`UnreadableIndexLocksOthersOut`).
- The memory argument covers the requested bytes exactly up to 2^64 - 2^20; above that the
  rounding sum wraps (`MemoryCoversIff`).
- A run whose completion arrives before its creation is recorded keeps its entry in `runs`
  (`FinishedRunCanKeepItsOwner`; `MarksFollowTheRecord` says when an entry exists).

## Model

| member | source | states |
|---|---|---|
| `StreamHub.Gateway.AppendStreamEvent` | pkg/server/server.go:283-307 | one append: both bounded lists, activity and completion marks, the run's entry, and one non-blocking send per subscriber in any order; shape invariant kept |
| `StreamHub.Gateway.LogEvent` | pkg/server/server.go:286-294 | the nested trimming leaves both lists at their last 2000 entries |
| `StreamHub.Gateway.SendToSubscribers` | pkg/server/server.go:299-306 | every subscriber's channel gets the event unless full, whatever the walk order |
| `StreamHub.Gateway.RecordCreatedRun` | pkg/server/server.go:811-814 | creation records owner and activity and touches nothing else |
| `StreamHub.Gateway.OpenSubscription` | pkg/server/server.go:919-927 | registration and history copy happen in one region |
| `StreamHub.Gateway.CloseSubscription` | pkg/server/server.go:929-937 | the channel goes, and an emptied set goes with it |
| `StreamHub.Gateway.CleanupTick` | pkg/server/server.go:512-545 | two passes over maps in any order equal one declarative filter |
| `StreamHub.TwoPassesRemoveExpired` | pkg/server/server.go:516-545 | the second pass on what the first left completes exactly the expired set |
| `StreamHub.Gateway.StageRows` | pkg/server/server.go:1417-1440 | the stage loop yields the stage table and its early break never fires |
| `StreamHub.StageTableIsExact` | pkg/server/server.go:1423-1440 | one row per status event, in order, with that event's time and the distance to the row before |
| `StreamHub.StatusPositionsExact` | pkg/server/server.go:1423-1432 | the row positions are all the status events and only those |
| `StreamHub.StageDeltasNonNegative` | pkg/server/server.go:1433-1438 | no stage delta is negative on nondecreasing times |
| `StreamHub.StageTableWrittenOut` | pkg/server/server.go:1417-1440 | row by row in primitive terms: which event, its state, its time and whole milliseconds since the row before |
| `StreamSystem.BoundedLogRefinesFullLog` | pkg/server/server.go:286-294 | in every reachable state the log is the last min(n, 2000) of all events since the last sweep, with matching nondecreasing times |
| `StreamSystem.MarksFollowTheRecord` | pkg/server/server.go:288-298 | completion mark, owner and last activity are functions of the stream's full record |
| `StreamSystem.MarksWrittenOut` | pkg/server/server.go:288-298 | in every reachable state a stream is done exactly when a COMPLETED event was logged since its last sweep, with the time of the last one; it has an owner exactly when its run was recorded and no such event followed |
| `StreamSystem.AppendWrittenOut` | pkg/server/server.go:283-307 | one append, field by field: 2000 entries kept, only a COMPLETED event marks done and removes the owner, a subscriber misses it exactly when 64 are waiting |
| `StreamSystem.FinishedRunCanKeepItsOwner` | pkg/server/server.go:809-814 | a finished run can keep its owner entry |
| `StreamSystem.SweepLeavesNothingStale` | pkg/server/server.go:512-545 | a sweep removes exactly the expired ids from all maps, leaves others as they were, and leaves nothing stale |
| `StreamSystem.SweepWrittenOut` | pkg/server/server.go:512-545 | a stream goes exactly when nobody is subscribed and it finished, or if unfinished was last active, at least ten minutes ago |
| `StreamSystem.SweepKeepsSubscribers` | pkg/server/server.go:520-527 | no sweep removes a live subscriber or its stream's log |
| `StreamSystem.NeverSendsOnClosedChannel` | pkg/server/server.go:299-306 | registered channels are open and are exactly those subscribed and not yet unsubscribed; no empty set is stored |
| `StreamSystem.SnapshotThenLive` | pkg/server/server.go:919-966 | over any run, written plus queued equals the snapshot plus the appended events that found room, in order and without duplicates |
| `StreamSystem.NoGapAtTheBoundary` | pkg/server/server.go:921-927 | a subscriber has the stream's whole log if and only if its channel was never full at an append |
| `StreamSystem.LogGrowsRun` | pkg/server/server.go:283-307 | while subscribed, the stream's full log grows by exactly what the channel is offered |
| `ControlQueue.ControlPlane.NextSeq` | pkg/server/server.go:267-272 | the counter steps by one modulo 2^64 and its value is issued |
| `ControlQueue.ControlPlane.EnqueueControl` | pkg/server/server.go:274-281 | the queue is the last 1000 of itself and the new envelope; other queues stay |
| `ControlQueue.EnqueueWrittenOut` | pkg/server/server.go:274-281 | the message goes to the back; of 1000 or more the oldest give way |
| `ControlQueue.ControlPlane.Dispatch` | pkg/server/server.go:309-357 | written when connected and the write succeeds, queued otherwise, the failed write reported |
| `ControlQueue.ControlPlane.FlushWorkerQueue` | pkg/server/server.go:491-506 | a flush that fails at i has written the prefix and restores exactly the suffix from i, in order |
| `ControlQueue.ControlPlane.Poll` | pkg/server/server.go:580-602 | the poll loop returns the first live messages and leaves the rest |
| `ControlQueue.BatchSize` | pkg/server/server.go:580-585 | a size from 1 to 1000 is kept, none or less is 100, more is 1000 |
| `ControlQueue.PollKeepsTheQueue` | pkg/server/server.go:587-601 | returned then remaining is a subsequence of the queue, every other message was at or below the last number, and a poll returns as many as it may |
| `ControlQueue.AscendingQueueDrains` | pkg/server/server.go:587-602 | repeated polls deliver an ascending unseen queue exactly once, in order |
| `ControlQueue.AscendingQueuePolls` | pkg/server/server.go:587-602 | and take the least number of batches that holds it |
| `ControlQueue.DrainsForEveryBatchSizeIffAscending` | pkg/server/server.go:591-600 | exactly the ascending unseen queues drain without loss for every batch size |
| `ControlQueue.EnqueueAllFits` | pkg/server/server.go:500-502 | restoring evicts nothing while there is room |
| `DispatchSystem.EachDispatchInExactlyOnePlace` | pkg/server/server.go:309-357 | under any interleaving the envelope of every dispatch so far is in exactly one position of exactly one place, later ones nowhere, and its number is the count of dispatches cut to 64 bits |
| `DispatchSystem.EachNumberInExactlyOnePlace` | pkg/server/server.go:267-272 | envelopes with the same number are a multiple of 2^64 dispatches apart; until the counter wraps each number is in one place |
| `DispatchSystem.MessagesStayWithTheirWorker` | pkg/server/server.go:491-506 | queues, flushes and deliveries hold only their own worker's messages |
| `DispatchSystem.EvictionOnlyFromAFullQueue` | pkg/server/server.go:274-281 | queues never exceed 1000, and only an enqueue that finds 1000 evicts, the oldest one |
| `DispatchSystem.PollParts` | pkg/server/server.go:591-600 | a poll cuts a queue into live and discarded envelopes, none in both and none in neither |
| `DispatchRuns.DispatchAlone` | pkg/server/server.go:309-357 | from any state a dispatch alone sends its envelope exactly when its worker has a session and the write succeeds, and queues it at the back otherwise; it carries the given stream and command and the next number |
| `DispatchRuns.IssueAndLookUp` | pkg/server/server.go:310-331 | after the lookup only a write is possible if there was a session, and only queueing if there was none |
| `DispatchRuns.DispatchSawWhy` | pkg/server/server.go:318-355 | in every interleaving a dispatch about to write last saw its worker online, and one about to queue last saw it offline or had its write fail |
| `DispatchRuns.FlushAlone` | pkg/server/server.go:491-506 | a flush alone sends the first n of the queue in order and leaves exactly the rest |
| `DispatchRuns.PollAlone` | pkg/server/server.go:580-602 | a poll alone hands out the first messages above the number passed, 100 by default and at most 1000, and changes no other place |
| `SerialDispatch.OvertakenMessageIsSkipped` | pkg/server/server.go:591-594 | a reachable state in which message 1 was discarded and only message 2 received |
| `SerialDispatch.SerialPollsLoseNothing` | pkg/server/server.go:309-357 | without overlapping dispatches and flushes for one worker, whatever the others do, its poller that follows the numbers loses nothing |
| `RunLifecycle.AtMostOneCompletion` | pkg/worker/worker.go:388-910 | at most one completion unless the workspace failed, never more than two |
| `RunLifecycle.CompletionsAtRest` | pkg/worker/worker.go:388-910 | the exact number of completions at rest; exactly one for every run past workspace creation whose parent context lives, and when a failed workspace spoils that |
| `RunLifecycle.CancelledWorkspaceFailureCompletesTwice` | pkg/worker/worker.go:455-459 | the unguarded exit and a cancel both complete |
| `RunLifecycle.DeadParentCompletesNever` | pkg/worker/worker.go:442-444 | a run whose context is dead on entry says nothing |
| `RunLifecycle.UncancelledRunCleansUp` | pkg/worker/worker.go:731-845 | a run that wins the swap has removed proxy, network and agent before it completes, up to two named failures |
| `RunLifecycle.UnwritableRulesLeakTheNetwork` | pkg/worker/worker.go:713-727 | the network survives when the rules cannot be written |
| `RunLifecycle.FailedWaitLeaksTheAgent` | pkg/worker/worker.go:894-903 | the agent container survives when waiting for it fails |
| `RunLifecycle.CancelledRunLeaves` | pkg/worker/worker.go:397-425 | once a cancel has won and all is at rest, what is left is exactly the unremoved network of failed rules and an agent the cancel did not find |
| `RunLifecycle.CancelDuringStartLeaksTheAgent` | pkg/worker/worker.go:404-411 | the agent container survives a cancel that looks for it too early |
| `RunLifecycle.SuccessMeansExitZero` | pkg/worker/worker.go:650-661 | every completion reports success exactly when the run won the swap and waiting returned no error and code 0; flag and code are passed separately on every exit |
| `RunLifecycle.FlagAndCodeAgree` | pkg/worker/worker.go:842-843 | on every completion as sent, flag and 32-bit code agree exactly off the nonzero multiples of 2^32, and always for a process's own codes |
| `RunLifecycle.WrappedCodeIsSent` | pkg/worker/docker_runner.go:266-282 | a reachable completion that says failure with code 0 |
| `RunLifecycle.ExitStep` | pkg/worker/worker.go:489-910 | every step keeps the carried flag and code true to how the process ended |
| `RunLifecycle.WinnerStep` | pkg/worker/worker.go:395-397 | every step keeps one winner of the swap, the silent exits' reason and the completion count |
| `RunLifecycle.ResourceStep` | pkg/worker/worker.go:695-845 | every step keeps what is live a function of the program counter |
| `RunTranscript.AllowlistRunsAreGuarded` | pkg/worker/worker.go:674-844 | in every interleaving an allowlist run has its agent only after its rules were good and written, with network and connected proxy up; other runs never have either; refused rules start nothing |
| `RunTranscript.RunTellsWhatHappened` | pkg/worker/worker.go:430-910 | a run not cancelled says starting, running if its process came up, the one failure it met under its own error and code, and its completion with the right code, in this order |
| `RunTranscript.CancelTells` | pkg/worker/worker.go:412-427 | at rest, the cancelled status and then a completion with code 137 were sent if a cancel won, and no such status otherwise |
| `RunTranscript.CancelFindsRun` | pkg/worker/worker.go:388-397 | a cancel finds the run exactly while its handler is under way and stops it exactly if nobody has won the swap |
| `RunTranscript.StoppedRunStartsNothing` | pkg/worker/worker.go:469-845 | once the context is dead and the handler has moved, no process, network or container comes up any more |
| `RunTranscript.StoppedRunLeavesSilently` | pkg/worker/worker.go:489-910 | the places where a stopped run leaves without sending anything |
| `TokenStore.FindId` | pkg/server/pairing_store.go:162-167 | the first request with the id, or none |
| `TokenStore.FindCode` | pkg/server/pairing_store.go:235-241 | the first request with the code, or none |
| `TokenStore.WorkerConfigStore.CreatePairingRequest` | pkg/server/pairing_store.go:49-93 | only open requests stay, and the new one is last: pending, without token, under the hash of the secret, for 900 seconds; a failed write changes nothing |
| `TokenStore.WorkerConfigStore.PollPairingRequest` | pkg/server/pairing_store.go:97-148 | the poll's answers, and removal on delivery |
| `TokenStore.WorkerConfigStore.ApprovePairingRequest` | pkg/server/pairing_store.go:151-219 | approval by id with its three writes, each of which may be the last |
| `TokenStore.WorkerConfigStore.ApprovePairingRequestByCode` | pkg/server/pairing_store.go:222-292 | approval by code with its three writes |
| `TokenStore.WorkerConfigStore.RejectPairingRequest` | pkg/server/pairing_store.go:295-318 | goes through exactly when the request is on file and the write succeeds; only the first request with the id changes, its status becomes rejected and its token stays |
| `TokenStore.WorkerConfigStore.ListPairingRequests` | pkg/server/pairing_store.go:321-344 | exactly the open requests, newest first, with token and secret hash blanked |
| `TokenStore.WorkerConfigStore.RotateWorkerToken` | pkg/server/worker_config_store.go:117-159 | index first, then record; the old hash alone leaves the index, the new one alone enters it and names the worker, the record changes only its hash and time; exactly when it goes through |
| `TokenStore.WorkerConfigStore.ValidateWorkerToken` | pkg/server/worker_config_store.go:162-191 | valid exactly when the index names a worker whose record carries the token's hash; the one error otherwise |
| `TokenStore.WorkerConfigStore.DeleteWorker` | pkg/server/worker_config_store.go:194-223 | index entry and record go, the first failing silently; no other entry or record goes; exactly when it goes through |
| `PairingHistory.RejectedStaysRejected` | pkg/server/worker_config_store.go:162-191 | a token that exists and is not accepted is never accepted again, crashes included |
| `PairingHistory.RevokedForever` | pkg/server/worker_config_store.go:145-158 | one write of a rotate or delete revokes the old token for good |
| `PairingHistory.InterruptedRotateFailsClosed` | pkg/server/worker_config_store.go:145-158 | a half-done rotate leaves both tokens rejected for good |
| `PairingHistory.OneTokenPerWorker` | pkg/server/worker_config_store.go:173-190 | a worker accepts at most one token in every reachable state |
| `PairingHistory.OtherWorkersUnaffected` | pkg/server/worker_config_store.go:117-223 | rotating or deleting one worker changes no other worker's answer |
| `PairingHistory.ValidateIsLinearScan` | pkg/server/worker_config_store.go:162-191 | without faults the index lookup equals a scan of the records, both ways |
| `PairingHistory.ValidateNeverMisleads` | pkg/server/worker_config_store.go:175-190 | with faults it may miss but never names a wrong worker |
| `PairingHistory.ApprovalKeepsOthersIff` | pkg/server/pairing_store.go:196-212 | an approval keeps another worker's token accepted exactly when it enrolls nobody, reads the index or stops before writing it |
| `PairingHistory.UnreadableIndexLocksOthersOut` | pkg/server/pairing_store.go:202-212 | a reachable store with two workers in which an approval loses the first one's token |
| `PairingHistory.DeliveredOnce` | pkg/server/pairing_store.go:134-141 | a delivering poll removes only its request, and every later poll of that id is not found |
| `PairingHistory.CreatedRequestAnswers` | pkg/server/pairing_store.go:49-148 | after a creation, over any history, every poll of its id: not found once off file, unauthorized with any other secret, expired after 900 seconds, and otherwise the status |
| `PairingHistory.ApprovalByIdEnrolls` | pkg/server/pairing_store.go:151-219 | an approval by id enrols exactly the request on file under it, with its labels, if in time and not approved yet |
| `PairingHistory.ApprovalByCodeEnrolls` | pkg/server/pairing_store.go:222-292 | an approval by code enrols the request on file with that code, if in time and pending |
| `PairingHistory.ApprovedIsDelivered` | pkg/server/pairing_store.go:127-148 | an approved request is delivered to the first poll in time with its secret, and is then off file |
| `PairingHistory.PairingWorks` | pkg/server/pairing_store.go:49-219 | create, approve and poll in time and without faults yield a token that validates to a worker with the created labels |
| `PairingHistory.DeliveredTokenIsTheWorkers` | pkg/server/pairing_store.go:127-147 | a delivered token is for a worker enrolled for that request, in time, and validates to it unless a rotate, a delete or a lost index got to the disk |
| `PairingHistory.TokenStaysOnFileIff` | pkg/server/pairing_store.go:127-147 | a poll hands out a token and keeps it on file exactly when the stored request is rejected, has a token, and the poll has its secret in time |
| `PairingHistory.HandedOutTwiceWasRejected` | pkg/server/pairing_store.go:134-147 | a token handed out by two polls of one history came from a request that was rejected at the first |
| `PairingHistory.RejectedHandsOutUntilEnded` | pkg/server/pairing_store.go:295-318 | after a reject every correct poll repeats the token, up to and not past an approval by id or a creation that drops the request |
| `PairingHistory.RejectedRequestHandsOutItsToken` | pkg/server/pairing_store.go:316-318 | a reachable request that is rejected and still hands its token out |
| `PairingHistory.RequestStates` | pkg/server/pairing_store.go:63-87 | pending without token, approved with one, distinct ids, fixed deadline |
| `PairingHistory.NoEnrollmentAfterDeadline` | pkg/server/pairing_store.go:172-177 | no worker is created for a request past its deadline, by id or by code |
| `PairingHistory.WorkersPerRequest` | pkg/server/pairing_store.go:151-318 | workers created for a request are at most one plus its rejects and its interrupted approvals |
| `PairingHistory.CredentialsStep` | pkg/server/worker_config_store.go:138-157 | every operation, whole or cut short, keeps each hash with one worker |
| `Allowlist.ValidateNetworkAllowlist` | pkg/worker/net_allowlist.go:9-49 | the validator's loop finds the first problem |
| `Allowlist.LoadAllowlist` | cmd/net-policy-proxy/main.go:46-96 | the loader's loop finds the first problem or compiles every rule |
| `Allowlist.ValidatorAgreesWithLoader` | pkg/worker/net_allowlist.go:9-49 | both accept the same rule lists and report the same first problem |
| `Allowlist.AcceptedWrittenOut` | cmd/net-policy-proxy/main.go:46-96 | accepted exactly when every rule is sound, and otherwise the problem named is that of the first unsound rule |
| `Allowlist.ProblemIsReal` | cmd/net-policy-proxy/main.go:55-93 | the problem named is one the rule has, and the first in the order tested |
| `Allowlist.Allowed` | cmd/net-policy-proxy/main.go:99-133 | the decision's loops find a rule that matches whenever there is one |
| `Allowlist.DecisionMeans` | cmd/net-policy-proxy/main.go:99-133 | the decision on compiled rules is the declared meaning of the raw ones |
| `Allowlist.AllowedAddress` | cmd/net-policy-proxy/main.go:135-148 | an address is allowed exactly when some address rule covers it on that port |
| `Allowlist.CoversTopBits` | cmd/net-policy-proxy/main.go:135-148 | a prefix covers exactly the addresses that share its leading bits |
| `Allowlist.CoversLaws` | cmd/net-policy-proxy/main.go:135-148 | 32 bits pin one address, none cover all, and one bit less covers what a prefix and its sibling cover |
| `Allowlist.DecisionWrittenOut` | cmd/net-policy-proxy/main.go:99-133 | a request passes exactly when its name is not empty, its port is a port, and some rule lets it through by port and by name, suffix or leading bits |
| `Allowlist.HostRulesMean` | cmd/net-policy-proxy/main.go:75-84 | compiling host rules keeps their meaning |
| `Allowlist.CidrRulesMean` | cmd/net-policy-proxy/main.go:85-94 | compiling address rules keeps their meaning |
| `Allowlist.DecisionIgnoresOrder` | cmd/net-policy-proxy/main.go:107-117 | two proxies loaded with the same rules in different order decide alike |
| `Allowlist.DecisionIsMonotone` | cmd/net-policy-proxy/main.go:99-133 | a proxy loaded with more rules never allows less |
| `NestedYaml.SetNestedYAML` | cmd/worker/main.go:554-581 | the recursive loop computes the update |
| `NestedYaml.GetSet` | cmd/worker/main.go:554-581 | what was set is read back |
| `NestedYaml.GetElsewhere` | cmd/worker/main.go:559-571 | unrelated paths read as before |
| `NestedYaml.GetBelow` | cmd/worker/main.go:561-563 | nothing is left below the path set |
| `NestedYaml.SetKeepsOrder` | cmd/worker/main.go:559-580 | key order is kept on every level of the path, a new key goes last |
| `NestedYaml.SetTwice` | cmd/worker/main.go:554-581 | a second set on the same path wins with the structure of one |
| `NestedYaml.SetKeepsFrame` | cmd/worker/main.go:554-581 | on every level of the path one item changes, the first of that name or a new last one, and all others stay as they were |
| `DockerFormat.QuotientRoundsBack` | pkg/worker/docker_runner.go:131-134 | rounding the float64 quotient to three places loses nothing |
| `DockerFormat.CPUsReadBack` | pkg/worker/docker_runner.go:131-140 | the text of the rounded float64 quotient is canonical and reads back as exactly cpuMillis/1000 |
| `DockerFormat.MemoryCoversIff` | pkg/worker/docker_runner.go:142-149 | the MiB count covers the bytes exactly up to 2^64 - 2^20 |
| `DockerFormat.MemoryIsLeast` | pkg/worker/docker_runner.go:142-149 | there it is the least count that does, and the text reads back |
| `BindPath.RebaseExact` | pkg/worker/worker.go:352-364 | for any three paths, success exactly at or below the container root with the same remainder under the host root, and which error otherwise |
| `BindPath.RebaseRoundTrip` | pkg/worker/worker.go:352-364 | resolving back with the roots swapped gives the cleaned original |
| `BindPath.CleaningLaws` | pkg/worker/worker.go:352-364 | a name is added, ".." takes it back, "." and empty pieces do nothing, and leading ".." stays only in relative paths |
| `BindPath.CleanedTextGrows` | pkg/worker/worker.go:352-364 | the same for the cleaned text |

## Left out

- HTTP, websocket and event-stream transport, protobuf and JSON encoding: a write is a step that succeeds or fails, and an event counts as written when it is handed to the writer.
- Heap identity of channels: a channel is an id with a buffer and an open flag, so two Go variables for one channel are one id here.
- The session map across overlapping reconnects: `DispatchSystem` keeps only which workers have a session.
- SerialDispatch.SerialPollsLoseNothing: holds until the 64-bit counter wraps, which takes 2^64 dispatches; after that a poller's last number is above the new ones.
- PairingHistory.ApprovalByCodeEnrolls: asks that no other open request has the same code, which the source does not check when it draws one; the first on file is then the one approved.
- RunLifecycle.CompletionsAtRest: an event counts as sent when the handler sends it, because the write error is ignored there too; log lines and assistant text are not modelled.
- RunLifecycle.UncancelledRunCleansUp: says that removals were asked for, because the result of `docker rm` is ignored; a failed `docker run` is taken to have created nothing.
- RunLifecycle.CancelledRunLeaves: the same, and a cancel's reads of the run's fields are taken one at a time in program order; what a run leaves when its connection's context dies without a cancel is not claimed.
- The run and cancel handlers are modelled on values, as steps over one state record, not as a class: their point is the interleaving, which methods of one object would not show.
- Read errors of the worker record and of the request file outside creation: the operation then changes nothing.
- Listing workers, bootstrap, configuration files, diagnostics, console pages, sessions and login: input, output and easy members.
- Allowlist.Allowed: trimming, lower-casing, prefix and address parsing and the resolver are parameters; `ValidatorAgreesWithLoader` asks of lower-casing only that it keeps empty text empty and other text nonempty.
- Allowlist.DecisionWrittenOut: takes parsed and resolved IPv4 addresses to be of 32 bits.
- DockerFormat.CPUsReadBack: float64 division enters as a real that no multiple of 2^-30 beats, which correct rounding gives below 2^23; decimal printing is exact rounding.
- TokenStore.WorkerConfigStore.ListPairingRequests: the library sort is modelled by insertion, so the order among equal creation times is one of those the source allows.
