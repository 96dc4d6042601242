# Verification of remrun's crash-safe protocols

remrun sends a command from a controller to a target machine, guards the target's memory while it
runs, and brings the results back. Its helpers promise to stay truthful when processes are killed,
interrupted or confused by reused process ids. This project models the parts that carry those promises
and proves them. `dafny verify dfyconfig.toml` checks everything; nothing here executes remrun.

## How the model is laid out

| file | models |
|---|---|
| `KnownTree.dfy` | descendant tracking across samples of the process table |
| `Leases.dfy` | whole-MiB rounding, admission policy, lease records, liveness and reaping |
| `Capacity.dfy` | the two-snapshot capacity transaction, the clip of an inferred lease |
| `Ledger.dfy` | reserve, renew, claim, release and quarantine as methods of one ledger object |
| `LedgerRuns.dfy` | what holds over every sequence of ledger operations |
| `GuardedLaunch.dfy` | claim, READY, gate byte and exec proof, under signals and kills |
| `DurableGate.dfy` | the start gate between durable supervisor and observer |
| `DurableStatus.dfy` | status compare-and-set, cleanup callers, removal of a run directory |
| `Files.dfy`, `BoundedLog.dfy` | the durable runner's bounded log over a positioned file |
| `LiveLog.dfy` | UTF-8 and the controller's live log |
| `Attribution.dfy` | nearest-root attribution of processes to jobs |
| `JobQuery.dfy` | the active-job query and launch-time cleanup |
| `Fence.dfy` | the unknown-completion fence, run summaries and candidate failover |
| `DurableFinalize.dfy` | finalizing a durable run over resumes, resolutions and process deaths |
| `DurableFence.dfy` | the fences of a durable run and of other runs, and how an unlocked removal can take one |
| `DurablePullback.dfy` | exactly when a checkpointed durable run can still be pulled back again |
| `Bootstrap.dfy` | bootstrap receipts and marker over attempts and crashes |
| `GitBatch.dfy` | the `git cat-file --batch` parser |
| `Wrappers.dfy` | option and result values |

Code that updates state in place is a class or a method with loops, proved against a specification
function; protocols between processes are state machines whose actions are the atomic steps of one
process, and a run is any sequence of actions. Process tables, memory readings, liveness answers,
target answers, clocks and the moment of every crash are arbitrary inputs. An atomic rename is one
step, and so is a locked read-modify-write. A digest is an injective value.

## Where the code is weaker than its own description

Each point below is a lemma with a concrete run, beside a lemma that says when the promise holds.

* After a claim is clipped, the headroom in the returned report equals the recomputed one exactly when
  the memory already credited does not exceed the clipped capacity; otherwise it can be negative
  (`Capacity.ClipIsSound`, `Capacity.ReportedHeadroomCanBeNegative`). The ledger itself is safe either way.
* In a run whose guard reports `command_started=false`, user argv has not started unless the control
  process's spawn call raised with the forked child in flight, before or after its exec; then the child may
  still exec (`GuardedLaunch.FalseResultIsTruthful`, `GuardedLaunch.SpawnInterruptedInFlight`). With a report
  of `true` it has started exactly when the child was not killed between fork and exec, which the spawn call
  cannot tell from success (`GuardedLaunch.TrueResultIsTruthful`, `GuardedLaunch.ChildKilledBeforeExec`).
* A durable run directory can go while its record is not terminal: exactly when the caller that removes it
  read another caller's failure mark, and the supervisor has since written a record that is not terminal
  and that nobody failed again (`DurableStatus.RemovalIsJustified`, `DurableStatus.RemovedWhilePending`). A
  terminal record without the mark of ambiguity is safe to act on (`DurableStatus.UnambiguousRemovalIsTerminal`).
* Launch-time cleanup reads a POSIX group key that is not a positive number as no group at all, while the
  query calls such a row unknown; and for a Windows job whose keeper is gone only the query has doubts
  (`JobQuery.DeletedIsStale`, `JobQuery.UnkeyedRowsDisagree`).
* `resolve-unknown`, and a resume that recovers a finalized run, compare the hazard file and unlink it
  without a lock. A slow one can take the hazard of the next run. A sent and unsettled command has its hazard
  on disk exactly if this has not happened (`Fence.UnsettledIsFenced`, `Fence.HazardTaken`; for durable runs
  `DurableFence.FenceLiftedOnProof`, `DurableFence.FenceTaken`, `DurableFence.ForeignFenceTaken`). It happens only
  to a run that writes its hazard while another removal stands between comparing and unlinking
  (`Fence.RobbedOnlyUnderAim`, `DurableFence.RobbedOnlyUnderAim`), and not at all if hazards are resolved one
  after another, and only for runs that are over (`Fence.PatientResolutionKeepsFenceAndOutcome`,
  `DurableFence.OneAtATimeRobsNobody`).
* A checkpointed outcome leaves an ordinary run's summary in two ways, and no other. An interrupt or
  exception after the last summary has been written makes the handler turn it into a cancelled one
  (`Fence.InterruptAfterCompletion`). And a copy that `resolve-unknown` read before the checkpoint can be
  written back after it, leaving neither outcome nor hazard (`Fence.StaleResolution`). The summary shows the
  outcome exactly if its contents date from the checkpoint or later and are not such a handler's
  (`Fence.OutcomeStaysOnDisk`). The condition to go by in use is that of
  `Fence.PatientResolutionKeepsFenceAndOutcome`: resolving only runs that are over excludes the second way.
* A proof that nothing started reaches the summary only after the hazard has been cleared. Death between
  the two leaves an unknown summary and no hazard; it is the only way for process death to leave a sent
  command unaccounted for on disk (`Fence.DeathLosesOneProof`, `Fence.DeathAfterRefusal`; for durable runs
  `DurableFence.OnlyAProofIsLost`, `DurableFence.ProofLost`).
* A checkpointed durable run can be pulled back again exactly in the worlds called threatened: a process
  already holds the result; or the target still has the evidence, and the fence stands while the summary no
  longer shows the checkpoint, or a process is past the fence check and will not find a complete summary,
  or another process, a handler or an operator can take it away, or the launching controller or an operator
  can still expose the run (`DurablePullback.PullsAgainIffThreatened`). Three ways in are an interrupt between
  checkpoint and lifting, an overlapping resume, and an operator's stale copy
  (`DurablePullback.InterruptedAfterCheckpoint`, `DurablePullback.OverlappingResume`,
  `DurablePullback.StaleResolution`). Resumes and resolutions that follow one another, with process death as
  the only accident, exclude all of them (`DurableFinalize.DeathsAndResumesAreOrderly`), and a resume that
  checkpoints alone is the last to pull back (`DurablePullback.LoneResumeIsLast`).
* A bootstrap check and a full run agree on readiness except for a receipt that is a symbolic link, which
  only the full run follows (`Bootstrap.CheckAgreesWithRun`).

## Model

| member | source | states |
|---|---|---|
| KnownTree.Closure | src/remrun/_posix_telemetry.py:478-484 | the pass over the children ends in a set that holds its seeds and is closed under child links |
| KnownTree.ClosureIsLeast | src/remrun/_posix_telemetry.py:478-484 | it is inside every closed set that holds the seeds |
| KnownTree.ClosureIsReachability | src/remrun/_posix_telemetry.py:449-489 | a process is in it if and only if a path of child links leads to it from a seed |
| KnownTree.TreeTracker.KnownTree | src/remrun/_posix_telemetry.py:449-489 | in whatever order the rows are visited, the tree holds the live root unless another identity is on record for it, every process of the root's group, every process that still shows its recorded identity, and all that child links reach from these, and nothing else; each member's identity is recorded and no other record changes |
| KnownTree.TreeTracker.OnePass | src/remrun/_posix_telemetry.py:480-484 | one pass adds only reachable processes, keeps what it had, and reports whether anything was added |
| KnownTree.TreeTracker.Spread | src/remrun/_posix_telemetry.py:478-484 | the loop of passes ends in the least closed set that holds the seeds |
| KnownTree.TreeMembers | src/remrun/_posix_telemetry.py:449-489 | a process is in the tree if and only if a path of child links leads to it from a process of one of those three kinds |
| KnownTree.NeverDropped | src/remrun/_posix_telemetry.py:449-489 | over any later samples, a recorded process stays in every tree while the table keeps showing its identity |
| Leases.CeilMib | src/remrun/_posix_telemetry.py:599-600 | the least whole number of MiB, at least one, that covers the bytes |
| Leases.FloorMib | src/remrun/_posix_telemetry.py:603-604 | the greatest whole number of MiB within the bytes, at least one |
| Leases.FloorNonnegativeMib | src/remrun/_posix_telemetry.py:607-612 | the greatest whole number of MiB within the bytes, zero for an exhausted residual |
| Leases.PolicyFromRequest | src/remrun/_posix_telemetry.py:643-705 | an accepted policy has a positive whole-MiB reserve, a whole-MiB command ceiling and a job bound that fit the physical total |
| Leases.PolicyAccepted | src/remrun/_posix_telemetry.py:643-705 | a request gives a policy if and only if its fractions are strict and together at most one, its job bound positive, its time to live between a second and a day, and the rounded reserve and ceiling fit the total |
| Leases.ReserveCovers | src/remrun/_posix_telemetry.py:655-668 | a requested reserve fraction is covered, by less than a MiB more |
| Leases.DefaultReserve | src/remrun/_posix_telemetry.py:655-661 | without one the reserve is 4 GiB up to a total of 16 GiB, 16 GiB from 64 GiB on, and between them a quarter of the total rounded up to whole MiB |
| Leases.CeilingFits | src/remrun/_posix_telemetry.py:674-678 | a requested command fraction is rounded down to whole MiB, and one below a MiB gives a MiB |
| Leases.DefaultCeiling | src/remrun/_posix_telemetry.py:674-678 | without one the command may have what the reserve leaves, in whole MiB |
| Leases.SignatureIgnoresTimeToLive | src/remrun/_posix_telemetry.py:708-720 | two policies are compatible if and only if they differ in nothing but the time to live |
| Leases.ReapStaleLeases | src/remrun/_posix_telemetry.py:869-898 | the loop leaves exactly the leases that are not stale, in order, and says how many it removed; a reservation stays if and only if it has not expired, and an unknown state stays |
| Leases.KeptMembers | src/remrun/_posix_telemetry.py:869-898 | a lease survives reaping if and only if it was there and is not stale, and it survives unaltered |
| Leases.KeptByState | src/remrun/_posix_telemetry.py:827-898 | a claimed or running lease goes if and only if helper, root and group are each unnamed or answered to be gone, a quarantined one if and only if all its survivors are named and answered to be gone and so is its group, a reservation if and only if it has expired, an unknown state never; a failing probe keeps the lease |
| Leases.KeptOfConcatenation | src/remrun/_posix_telemetry.py:869-898 | a pass treats every lease by itself and keeps their order |
| Capacity.ReservedClipIsLargest | src/remrun/_posix_telemetry.py:1481-1536 | for a reservation the clip takes no more than it must: a whole-MiB allowance below the ceiling leaves a safe ledger with a MiB to spare if and only if it is within the clipped one |
| Capacity.ClippedExactlyWhenItCanBe | src/remrun/_posix_telemetry.py:1481-1536 | an inferred reservation is clipped if and only if it is unsafe as it stands, no explicit limit is overrun and some whole-MiB allowance within the ceiling would leave a MiB to spare |
| Capacity.OwnedProcesses | src/remrun/_posix_telemetry.py:901-938 | the processes of a lease by state: none for a reservation, named survivors with their identity and the group for a quarantine, the group and all that child links reach from the exact root or from the root's own group for a claimed or running lease, an error for an unknown state |
| Capacity.SampledProcesses | src/remrun/_posix_telemetry.py:941-970 | a sample holds exactly the owned processes that could be read and showed the same identity afterwards, each with its reading |
| Capacity.CreditGoesToFirst | src/remrun/_posix_telemetry.py:1017-1044 | a process with one identity in both snapshots is credited, by the smaller reading, to the first lease under which it shows that, and to no other |
| Capacity.OnlySteadyIsCredited | src/remrun/_posix_telemetry.py:1017-1044 | a process that does not is credited to none |
| Capacity.PeakIsLarger | src/remrun/_posix_telemetry.py:1026-1032 | the resident peak of a lease is within a bound if and only if its sum in each snapshot is |
| Capacity.ReservedIsUncredited | src/remrun/_posix_telemetry.py:941-970 | a lease that is only reserved is credited nothing in either snapshot |
| Capacity.CreditLease | src/remrun/_posix_telemetry.py:1033-1044 | in any visiting order a lease is credited the smaller of two readings of each process seen in both snapshots and not credited before |
| Capacity.Commitments | src/remrun/_posix_telemetry.py:1045-1068 | the loop computes the sum, over the leases with an explicit limit and the one being sized, of the capacity not used yet, to which no other lease adds anything, and whether some lease uses more than its explicit limit's capacity |
| Capacity.CapacityTransaction | src/remrun/_posix_telemetry.py:980-1090 | the transaction gives the specified report of all five readings, and fails if a reading failed or the physical total moved; the report is safe if and only if each host reading exceeds the reserve plus that sum and no explicit capacity is exceeded |
| Capacity.HeadroomIsTotal | src/remrun/_posix_telemetry.py:1045-1068 | the headroom is the sum of what each lease holds back by itself: its unused capacity if it has an explicit limit or is being sized, otherwise nothing |
| Capacity.SafeExactlyWhenBacked | src/remrun/_posix_telemetry.py:1069-1090 | the same equivalences for the report as specified |
| Capacity.NoDoubleCredit | src/remrun/_posix_telemetry.py:1017-1044 | no process identity is credited to two leases |
| Capacity.SafeForEveryReading | src/remrun/_posix_telemetry.py:980-1090 | if a transaction is safe, each of its three host readings exceeds the reserve plus what either private snapshot alone leaves unused to the leases with an explicit limit and the one being sized |
| Capacity.ResizeMovesOwnHeadroom | src/remrun/_posix_telemetry.py:1093-1130 | resizing the lease being sized changes the total headroom by its own commitment and nothing else |
| Capacity.ExpiryIsNotRead | src/remrun/_posix_telemetry.py:1743-1804 | changing a lease's expiry leaves the report as it is |
| Capacity.ClipIsSound | src/remrun/_posix_telemetry.py:1093-1130 | when a clip declares itself safe, recomputing with the clipped lease on the same readings is safe with at least one MiB to spare, credited memory above the clipped capacity included; the reported headroom is the recomputed one if and only if the credit fits |
| Capacity.AdmittedClaimReportIsExact | src/remrun/_posix_telemetry.py:2072-2136 | for a claim that passes the control-overhead check the report after a clip is exact |
| Capacity.ReportedHeadroomCanBeNegative | src/remrun/_posix_telemetry.py:2091-2136 | a concrete claimed lease whose report after a clip shows negative headroom |
| Ledger.ChooseAllowance | src/remrun/_posix_telemetry.py:1339-1390 | a request is sized if and only if it names a whole-MiB explicit limit within the ceiling, a positive prediction, or neither with live room for the least allowance; each gets its own size and basis |
| Ledger.UnprofiledLiveHeadroom | src/remrun/_posix_telemetry.py:1133-1158 | the sizing transaction succeeds if and only if the readings are usable, and offers the live room of its report, in whole MiB within the ceiling |
| Ledger.LiveRoomIsLargest | src/remrun/_posix_telemetry.py:1133-1158 | that room is the largest whole-MiB allowance which, with its overhead, keeps the reserve and a MiB to spare |
| Ledger.LearnedSizeCovers | src/remrun/_posix_telemetry.py:1379-1390 | a learned size covers the prediction plus a quarter by less than a MiB more, or is the ceiling |
| Ledger.ShrunkOnlyAsNeeded | src/remrun/_posix_telemetry.py:1660-1742 | a renewal shrinks a lease no further than the room beside the others requires |
| Ledger.AdmittedIsGranted | src/remrun/_posix_telemetry.py:1339-1480 | a reservation has the time to live it asked for, twice the helper's memory as overhead in whole MiB, and the basis of its request, clipped or not |
| Ledger.HolderIsFound | src/remrun/_posix_telemetry.py:1625-1660 | a holder finds its reservation if and only if that is in the ledger unexpired, with the sizes of the receipt, and the policy of the request is the one in force; no liveness answer and no other lease can hide it |
| Ledger.ClippedCandidate | src/remrun/_posix_telemetry.py:1481-1536 | a clip of the candidate that comes out safe leaves a safe ledger and a positive whole-MiB size below the old one |
| Ledger.ZeroCeilingIsUnsafe | src/remrun/_posix_telemetry.py:1481-1536 | under a policy with no room for a command, no candidate is safe |
| Ledger.CandidateAdmitted | src/remrun/_posix_telemetry.py:1481-1536 | a candidate declared safe, clipped or not, has a sound size and a ledger backed by the readings |
| Ledger.PrepareReserve | src/remrun/_posix_telemetry.py:1244-1425 | a request passes the checks before the transaction if and only if policy, signature, id, job bound, size and overhead allow it, and asks for exactly the specified lease |
| Ledger.DecideReserve | src/remrun/_posix_telemetry.py:1244-1583 | a reservation is admitted if and only if those checks pass, the readings are usable and the candidate, clipped or not, is safe; the lease is the clipped candidate and may be added to the reaped ledger |
| Ledger.DecideRenew | src/remrun/_posix_telemetry.py:1660-1880 | a renewal is abandoned if and only if a reading fails and kept if and only if the lease, shrunk to the live room beside the others, is backed; a kept lease is never raised |
| Ledger.DecideClaim | src/remrun/_posix_telemetry.py:2047-2170 | a claim is abandoned if and only if a reading fails and kept if and only if the lease is backed and the control process fits its overhead; a kept lease is never raised |
| Ledger.MemoryLedger.Reserve | src/remrun/_posix_telemetry.py:1244-1583 | admits exactly the accepted requests; the new state is the reaped ledger with one lease added, each host reading exceeds the reserve plus the unused capacity of every lease with an explicit limit and of the new one, and a refusal changes nothing beyond reaping |
| Ledger.MemoryLedger.Renew | src/remrun/_posix_telemetry.py:1603-1891 | admits exactly the holder whose own reservation matches its receipt and is still backed; a holder whose reservation has not expired is refused only for another policy or changed memory; only that lease changes, its expiry is moved by the time to live, and the ledger is backed by the readings |
| Ledger.MemoryLedger.Claim | src/remrun/_posix_telemetry.py:1986-2180 | admits exactly the identified helper whose own reservation matches its receipt and is still backed; a holder whose reservation has not expired is refused only for another policy or changed memory; only that lease becomes running, with this helper, root, group and expiry on record, and the ledger is backed by the readings |
| Ledger.MemoryLedger.Release | src/remrun/_posix_telemetry.py:1894-1935 | exactly the holder's lease goes, a reservation at any time and a claimed lease only after complete cleanup |
| Ledger.MemoryLedger.QuarantineLease | src/remrun/_posix_telemetry.py:1938-1983 | answers true if and only if survivors and group are named and the first matching lease is held; that lease records them, the others stay |
| LedgerRuns.StepKeepsSound | src/remrun/_posix_telemetry.py:1244-2180 | every operation keeps the ledger invariant |
| LedgerRuns.RunKeepsSound | src/remrun/_posix_telemetry.py:643-705 | in every run ids are unique, leases are at most `max_jobs`, one sound policy governs while leases exist, every allowance is a positive whole MiB within the ceiling, capacity being allowance plus overhead, and every held lease names its owners |
| LedgerRuns.StepOnLease | src/remrun/_posix_telemetry.py:1244-2180 | every operation reaps a lease as stale, lets its own holder drop or change it, or leaves it alone |
| LedgerRuns.OtherHoldersUntouched | src/remrun/_posix_telemetry.py:1644-1653 | no operation alters or removes a lease it does not hold, except by reaping |
| LedgerRuns.ReleasedByState | src/remrun/_posix_telemetry.py:1894-1935 | a release takes the holder's reservation in any case, its claimed or running lease exactly on complete cleanup of more than a reservation, and apart from reaping no other |
| LedgerRuns.HeldUntilProof | src/remrun/_posix_telemetry.py:827-898 | one step frees a held lease only with proof: cleanup complete by its holder, or positive answers that helper, root and group, or all survivors and the group, are gone |
| LedgerRuns.FreedOnlyOnProof | src/remrun/_posix_telemetry.py:827-898 | in every run, a lease that is held is still held later unless some event in between had that proof; a quarantined one needs all its survivors and its group proved gone |
| LedgerRuns.NeverRaised | src/remrun/_posix_telemetry.py:1603-1891 | in every run, while a lease is not let go its allowance never rises and an explicit limit never moves |
| LedgerRuns.SignatureStays | src/remrun/_posix_telemetry.py:708-720 | while a lease exists the policy signature it was admitted under stays in force |
| GuardedLaunch.RunKeepsInv | src/remrun/_posix_telemetry.py:3499-3642 | every interleaving of helper, control process, user child, signals and kills keeps the protocol invariant |
| GuardedLaunch.StartsOnlyBehindTheGate | src/remrun/_posix_telemetry.py:2764-2840 | user argv starts only after the ledger claim, READY and the gate byte |
| GuardedLaunch.NoProofNoResult | src/remrun/_posix_telemetry.py:3936-3992 | a gate attempt without exec proof emits no result at all |
| GuardedLaunch.HandlerAnswers | src/remrun/_posix_telemetry.py:3956-3992 | the exception handler adds exactly one result, whether exec was confirmed, unless a gate attempt was made without that, and then none |
| GuardedLaunch.UncutEndIsAnswered | src/remrun/_posix_telemetry.py:3619-3992 | a helper that ends without being killed or interrupted twice has emitted a result if and only if it did not attempt the gate, or read that exec succeeded, or reported the failure it read; every result says whether it read that exec succeeded |
| GuardedLaunch.PipeDecides | src/remrun/_posix_telemetry.py:2896-2925 | the helper supervises only on a proof of exec and reports only a proof of failure; anything else on the pipe, and a timeout, goes to the handler |
| GuardedLaunch.GateShuts | src/remrun/_posix_telemetry.py:3910-3992 | once a result is out without a gate attempt, or the helper is gone, the gate is shut unless nothing was spawned, and a control process that waits behind it ends |
| GuardedLaunch.CommandRuns | src/remrun/_posix_telemetry.py:3616-3909 | a concrete run that starts argv, reports it and returns |
| GuardedLaunch.StateIsHistory | src/remrun/_posix_telemetry.py:2790-2812 | what the state records of the spawn, the exec and the kill is what the actions of the run did |
| GuardedLaunch.FalseResultIsTruthful | src/remrun/_posix_telemetry.py:2896-2925 | in a run with a result that says not started, argv has not started unless the spawn call raised with the child in flight |
| GuardedLaunch.TrueResultIsTruthful | src/remrun/_posix_telemetry.py:2813-2830 | in a run with a result that says started, argv has started if and only if the child was not killed between fork and exec |
| GuardedLaunch.SpawnInterruptedInFlight | src/remrun/_posix_telemetry.py:2790-2812 | a concrete run that reports not started and then starts |
| GuardedLaunch.ChildKilledBeforeExec | src/remrun/_posix_telemetry.py:2790-2830 | a concrete run that reports started and never starts |
| DurableGate.RunKeepsInv | src/remrun/_durable_runner.py:649-837 | every interleaving of supervisor and observer keeps the gate invariant |
| DurableGate.UserStartsBehindTheGate | src/remrun/_job_observer.py:2099-2119 | with acceptance, user code runs only if the supervisor wrote the matching gate, after the claim and the MAYBE transition |
| DurableGate.StatusesAreHonest | src/remrun/_durable_runner.py:701-765 | every status written after the gate opened says null or true, and true only after the exec confirmation |
| DurableGate.StatusesAreExact | src/remrun/_durable_runner.py:701-805 | the status after the claim says no, after the MAYBE transition null, after the confirmation true; that of a finished run says true if and only if the confirmation reached the ledger, no if and only if the gate was never opened, and otherwise null |
| DurableGate.SuspendedUntilStart | src/remrun/_job_observer.py:2318-2400 | a Windows command is suspended while the observer prepares and waits, and a started one is not |
| DurableGate.GateFileDecides | src/remrun/_job_observer.py:2099-2119 | the observer waits for a gate file, starts behind a matching one and gives up on a foreign one |
| DurableGate.CommandCompletes | src/remrun/_durable_runner.py:649-805 | a concrete run that starts user code and ends with a terminal record that says so |
| DurableGate.NeverOpeningStays | src/remrun/_durable_runner.py:807-837 | a supervisor on its way out that has not opened the gate never opens it |
| DurableGate.NotStartedIsFinal | src/remrun/_durable_runner.py:807-837 | after a terminal status that says not started, no continuation starts user code |
| DurableStatus.StatusFile.UpdateStatusFields | src/remrun/_durable_runner.py:399-421 | the record becomes the compare-and-set of the latest one: if it is as expected each named field gets its value and the others stay, otherwise nothing changes; the caller gets what the file then holds |
| DurableStatus.CallersChangeLittle | src/remrun/_durable_runner.py:616-646 | one step of a caller changes only receipt and certainty, fails a record that is not terminal, or removes the directory |
| DurableStatus.TerminalStateIsStable | src/remrun/_durable_runner.py:942-993 | from the supervisor's last write on, no interleaving of callers changes a terminal state |
| DurableStatus.FailureNeedsSecondRead | src/remrun/_durable_runner.py:942-984 | a caller fails a record only from a nonterminal one that its own second read showed |
| DurableStatus.DeadSupervisorIsFailed | src/remrun/_durable_runner.py:942-984 | an undisturbed status call that finds no supervisor for a record that is not terminal records the failure, with the ledger's receipt where there is acceptance |
| DurableStatus.LedgerAnswerIsRecorded | src/remrun/_durable_runner.py:604-646 | a newer answer of the ledger reaches the record, with the start certainty that it carries |
| DurableStatus.CleanedDirectoryGoes | src/remrun/_durable_runner.py:1010-1031 | an undisturbed cleanup of a terminal record, with a terminal receipt where there is acceptance, removes the directory |
| DurableStatus.RemovalIsJustified | src/remrun/_durable_runner.py:1010-1031 | a directory goes only after a terminal read and, with acceptance, a terminal receipt; the record that goes is not terminal if and only if the read was a caller's mark and the supervisor has since written a record that is not terminal and not failed again; the receipt is terminal if the supervisor has not written since |
| DurableStatus.UnambiguousRemovalIsTerminal | src/remrun/_durable_runner.py:952-984 | a caller that read a terminal record without the mark of ambiguity removes only a terminal record |
| DurableStatus.SettledStaysSettled | src/remrun/_durable_runner.py:785-837 | after the supervisor's own terminal write the record is terminal in every continuation |
| DurableStatus.RemovedWhilePending | src/remrun/_durable_runner.py:500-523 | a concrete run in which the supervisor has written since and the removed record is pending |
| BoundedLog.Rendered | src/remrun/_durable_runner.py:424-483 | the rendering of a stream has length min(stream, cap) |
| BoundedLog.RenderedShows | src/remrun/_durable_runner.py:424-483 | beyond the cap it has the last 256 KiB of the stream, or half the cap if that is less, before them the marker as far as there is room, and the start of the stream in front |
| BoundedLog.ShownOnce | src/remrun/_durable_runner.py:424-483 | no other file has that layout |
| BoundedLog.BoundedWriter.Write | src/remrun/_durable_runner.py:456-471 | each write extends the stream the writer stands for, whatever chunk crosses the cap |
| BoundedLog.BoundedWriter.RetainTail | src/remrun/_durable_runner.py:449-454 | the tail becomes the last bytes of the old tail and the new data |
| BoundedLog.BoundedWriter.Close | src/remrun/_durable_runner.py:473-483 | the closed file is the rendering of everything written: all of it, or head, marker and tail |
| BoundedLog.Pump | src/remrun/_durable_runner.py:486-497 | for every way of cutting the stream into reads the file has that layout, and `truncated` holds if and only if the stream exceeded the cap |
| Utf8.FitIsLongest | src/remrun/cli.py:163-194 | the fitting characters stay within the limit and one more would not |
| Utf8.CutCharIsDropped | src/remrun/cli.py:163-194 | a character cut short decodes to nothing |
| Utf8.CutKeepsWholeCharacters | src/remrun/cli.py:163-194 | cutting encoded text anywhere and decoding with errors ignored leaves exactly its longest whole-character prefix within the cut |
| Utf8.EncodingOfScalar | src/remrun/cli.py:163-194 | an encoded scalar value has the lead byte, the continuation bytes, the value and the shortest length of section 3 of RFC 3629 |
| LiveLog.RenderedShows | src/remrun/cli.py:147-203 | beyond a positive cap the file has the longest whole-character start that leaves room for the marker, and then the marker; under a cap below the marker only what fits of the short one |
| LiveLog.RenderedWithinCap | src/remrun/cli.py:147-203 | with a positive cap the rendering never exceeds it |
| LiveLog.OverflowIsFinal | src/remrun/cli.py:163-194 | once the text has overflowed, further text leaves the rendering as it is |
| LiveLog.LiveStdoutLog.Append | src/remrun/cli.py:163-194 | after any append the file is the rendering of all the text so far |
| LiveLog.Tee | src/remrun/cli.py:147-203 | for every chunking the file has that layout, and never exceeds a positive cap |
| Attribution.NearestIsUnique | src/remrun/_job_observer.py:1494-1517 | at most one distance is that of the innermost exact root |
| Attribution.NearestIsLedTo | src/remrun/_job_observer.py:1494-1517 | a job is nearest if and only if a path of listed parents, none known to have started after its child, leads to one of its roots and meets no other root before |
| Attribution.LastRecordOwns | src/remrun/_job_observer.py:1523-1532 | of several records with one root pid the last owns it |
| Attribution.NearestRoot | src/remrun/_job_observer.py:1494-1517 | on any table, parent cycles included, the walk ends and returns the innermost exact root reachable without an edge to a younger parent, or nothing |
| Attribution.RootKeysAreListed | src/remrun/_job_observer.py:1523-1532 | every registered root answers for a listed job |
| Attribution.Assign | src/remrun/_job_observer.py:1520-1537 | each listed job gets exactly the processes whose nearest root is its own |
| Attribution.AssignedOnce | src/remrun/_job_observer.py:1520-1537 | no process is assigned to two jobs |
| JobQuery.WitnessAliveNeverStale | src/remrun/_job_observer.py:1740-1784 | a POSIX-group record whose exact witness is in the table is never judged stale |
| JobQuery.VerdictIsEvidence | src/remrun/_job_observer.py:1740-1848 | a record is live exactly if the view shows its process, or its exact witness with others in the group that the witness has not left, or processes in its job object under the exact owner where there must be one; it is stale exactly if the process is dead, or the witness is and nobody but the observer is in the group, or the job object is empty |
| JobQuery.DeletedOnEvidence | src/remrun/_job_observer.py:1098-1153 | cleanup deletes a row exactly if its process is dead, or the witness is and nobody is seen in a positive group, or the job object is empty |
| JobQuery.DeletedIsStale | src/remrun/_job_observer.py:1098-1153 | a legacy, controller-operation or first-generation Windows row that cleanup deletes is stale to the query in the same view; a group row is on POSIX if its key is positive, or a number whose group has no other member, and not otherwise; a second-generation Windows row is if and only if its keeper is alive |
| JobQuery.StaleIsDeleted | src/remrun/_job_observer.py:1740-1784 | a stale row is deleted by cleanup unless its own observer is still seen in its group |
| JobQuery.UnkeyedRowsDisagree | src/remrun/_job_observer.py:1120-1138 | a concrete group row without a numeric key that cleanup deletes and the query calls unknown |
| JobQuery.LiveIsNeverDeleted | src/remrun/_job_observer.py:1098-1153 | cleanup deletes nothing that the query finds live |
| JobQuery.Query | src/remrun/_job_observer.py:1917-2030 | a record is reported running if and only if both views succeeded and each shows it alive; it is reported unknown if and only if the first view failed or shows it neither alive nor ended, or shows it alive and the second failed or shows neither; every record is counted once |
| JobQuery.Conservation | src/remrun/_job_observer.py:1917-2030 | the three fates partition the registry, as multisets and in number |
| JobQuery.CleanupTable | src/remrun/_job_observer.py:1098-1153 | deleting by token leaves exactly the rows that are not proved stale, in order; a table over its bound is refused untouched |
| JobQuery.CleanupKeepsLive | src/remrun/_job_observer.py:1156-1166 | a query over the cleaned table finds the same live records in the same view |
| Fence.RunKeepsInv | src/remrun/cli.py:2250-2302 | every interleaving of controllers, operators, deaths, interrupts and failures keeps the fence invariant |
| Fence.UnsettledIsFenced | src/remrun/cli.py:2250-2302 | a command that may have started, without checkpointed outcome, proof of non-start or operator resolution, has its hazard on disk if and only if no removal meant for another run has taken it; its summary says unknown unless an operator wrote other contents back |
| Fence.FenceBlocks | src/remrun/cli.py:1519-1522 | while a hazard stands and its run is over, no other run is ever sent, and only a command that unlinks the file can lift it |
| Fence.SentBehindOwnHazard | src/remrun/state.py:269-330 | a command is sent behind its own hazard if and only if no operator has lifted or taken that, and never behind another run's |
| Fence.OutcomeStaysOnDisk | src/remrun/cli.py:2396-2422 | after the checkpoint the summary shows the outcome if and only if its contents date from the checkpoint or later and are not a handler's over the last summary; older contents come back only by an operator's hand |
| Fence.RobbedOnlyUnderAim | src/remrun/state.py:314-330 | a run loses its hazard to a removal meant for another run only if that removal stood between comparing and unlinking when the run wrote its hazard |
| Fence.PatientResolutionKeepsFenceAndOutcome | src/remrun/cli.py:4085-4137 | if hazards are resolved one at a time, and only for runs that are over, every unsettled run has its hazard and an unknown summary, and an outcome is lost if and only if a handler rewrote the last summary |
| Fence.DeathLosesOneProof | src/remrun/cli.py:2396-2422 | with process death as the only accident, and such resolution, the disk holds the fence, the outcome or the statement that nothing started, if and only if the run is not, and did not die, between clearing its hazard on a refusal and writing so |
| Fence.DeathAfterRefusal | src/remrun/cli.py:2333-2370 | a concrete run that dies there |
| Fence.UndisturbedDispatch | src/remrun/cli.py:2250-2302 | an undisturbed run is dispatched with its hazard, its lock and an unknown summary on disk |
| Fence.UndisturbedResult | src/remrun/cli.py:2396-2560 | a conclusive result ends with the last summary and neither hazard nor lock |
| Fence.UndisturbedRefusal | src/remrun/cli.py:2333-2370 | a proof of non-start ends with a summary that says so and neither hazard nor lock |
| Fence.UndisturbedLoss | src/remrun/cli.py:2364-2392 | a lost transport ends with an unknown summary, and the hazard stays |
| Fence.EarlyEnds | src/remrun/cli.py:2150-2232 | a run that ends before its fence leaves the hazard file as it is and the lock free |
| Fence.HandlerLeaves | src/remrun/cli.py:1764-1796 | a handler turns a checkpointed outcome into a failed finalization, keeps an unknown completion, and otherwise says cancelled for an interrupt and failed for an error; the hazard stays |
| Fence.InterruptAfterCompletion | src/remrun/cli.py:1764-1779 | a concrete run whose completed summary becomes a cancelled one |
| Fence.StaleResolution | src/remrun/cli.py:4108-4125 | a concrete run whose completed summary becomes an unknown one, with no handler and no hazard |
| Fence.HazardTaken | src/remrun/state.py:314-330 | a concrete run in which the slower of two operators takes the hazard of the next run, which has been sent |
| Fence.AtMostOneSent | src/remrun/cli.py:1601-1763 | in every run a controller process sends at most one of its candidates |
| Fence.Decisive | src/remrun/cli.py:1601-1763 | every candidate before the decisive one ended in an admission refusal or a retryable conflict |
| Fence.TryCandidates | src/remrun/cli.py:1601-1810 | over any candidates and endings every candidate before the last one tried ended in an admission refusal or a retryable conflict, and that one did not unless none was left; its exit code is returned, 5 for an admission refusal, 4 without candidates, and at most that one was sent |
| DurableFinalize.RunKeepsInv | src/remrun/cli.py:3370-3597 | every interleaving of the launching controller, its resumes and its operators keeps the finalization invariant |
| DurableFence.FenceLiftedOnProof | src/remrun/cli.py:3399-3407 | under every interleaving, before a finalization checkpoint, a proof of non-start or a resolution, the fence stands if and only if no removal meant for another run has taken it |
| DurableFence.OnlyAProofIsLost | src/remrun/cli.py:3399-3430 | in an orderly run that was neither resolved nor robbed, the disk holds the fence, the checkpoint or the statement that nothing started, if and only if the fence was not cleared on a proof that is still unwritten |
| DurableFence.ProofLost | src/remrun/cli.py:3844-3860 | a concrete run that dies between clearing and writing |
| DurableFence.ForeignFenceTakenOnlyByUnlinking | src/remrun/cli.py:4024-4042 | nothing done for this run takes another run's fence, except unlinking the file after comparing it, and that always does |
| DurableFence.RobbedOnlyUnderAim | src/remrun/state.py:314-330 | the run loses its fence to a removal meant for another run only if that stood between comparing and unlinking when the fence was written |
| DurableFence.OneAtATimeRobsNobody | src/remrun/cli.py:3991-4137 | resumes and resolutions one after another take no other run's fence, and lose their own to nobody if no other removal was under way when it was written |
| DurableFence.FenceTaken | src/remrun/state.py:314-330 | a concrete run that loses its fence to another run's second operator |
| DurableFence.ForeignFenceTaken | src/remrun/cli.py:4122-4125 | a concrete run whose second operator takes another run's fence |
| DurableFinalize.EvidenceKept | src/remrun/cli.py:3576-3597 | target evidence goes only after a complete or not-started summary was written, which in an orderly run is still on disk |
| DurableFinalize.CheckpointIsFinal | src/remrun/cli.py:3552-3597 | in an orderly run the checkpoint stays in the summary, the next move of any process pulls nothing back, and whoever returns returns its exit code |
| DurableFinalize.DeathsAndResumesAreOrderly | src/remrun/cli.py:3991-4082 | any series of resumes and resolutions one after another, with process death as the only accident, is orderly |
| DurableFinalize.UndisturbedLaunch | src/remrun/cli.py:3370-3398 | the launching controller has its hazard and an unknown summary on disk before the target gets anything |
| DurableFinalize.UndisturbedCheckpoint | src/remrun/cli.py:3431-3580 | a result is pulled back and its exit code checkpointed while the hazard stands |
| DurableFinalize.UndisturbedEnd | src/remrun/cli.py:3552-3597 | from the checkpoint on the hazard is lifted, the summary completed, the evidence removed and that exit code returned |
| DurableFinalize.UndisturbedRecovery | src/remrun/cli.py:4024-4042 | a resume that finds a checkpoint lifts the hazard and completes the summary without pulling back |
| DurableFinalize.UndisturbedResume | src/remrun/cli.py:3991-4082 | a resume of an unfinished run behind its hazard takes the lock and waits for the target |
| DurableFinalize.UndisturbedProof | src/remrun/cli.py:3399-3430 | a proof of non-start lifts the hazard, says that nothing started and returns its code, with the evidence removed or left |
| DurableFinalize.UndisturbedStop | src/remrun/cli.py:3505-3660 | a controller that stops waiting, or whose pull fails, leaves hazard and evidence and says so in the summary |
| DurableFinalize.HandlerLeaves | src/remrun/cli.py:1764-1796 | the handlers of the launching controller leave hazard and evidence, and a summary as for an ordinary run; a resume has none |
| DurablePullback.StaysUnthreatened | src/remrun/cli.py:3991-4137 | a checkpointed world that is not threatened stays so under every continuation |
| DurablePullback.ThreatenedPulls | src/remrun/cli.py:3991-4137 | from every threatened world some continuation pulls back, with the target answering only while its evidence is there |
| DurablePullback.PullsAgainIffThreatened | src/remrun/cli.py:3370-3597 | after any run, a checkpointed durable run can be pulled back again if and only if its world is threatened |
| DurablePullback.LoneResumeIsLast | src/remrun/cli.py:3991-4082 | a resume that has checkpointed, with no other process alive and no operator's copy about, is the last to pull back |
| DurablePullback.InterruptedAfterCheckpoint | src/remrun/cli.py:1764-1796 | a concrete run in which a handler rewrites the checkpoint and a later resume can pull back again |
| DurablePullback.OverlappingResume | src/remrun/cli.py:3991-4082 | a concrete orderly run after which an overlapping resume can pull back again |
| DurablePullback.StaleResolution | src/remrun/cli.py:4108-4125 | a concrete run in which an operator's stale copy replaces the checkpoint, and a later resume can pull back again |
| Bootstrap.CheckAgreesWithRun | src/remrun/_bootstrap.py:267-296 | a check says ready if and only if a full run in that state would without running a step and the receipt is not a symbolic link |
| Bootstrap.ReadyExactly | src/remrun/_bootstrap.py:267-296 | a check says ready if and only if the paths are usable, each lock input is a regular file with its digest, the receipt is a plain complete document of this project, declaration, steps and environment, interpreter and directories exist, and the marker is a plain document of the same |
| Bootstrap.UnsupportedExactly | src/remrun/_bootstrap.py:267-296 | it gives up if and only if the paths are unusable or a receipt it must read is oversized |
| Bootstrap.FirstBad | src/remrun/_bootstrap.py:424-448 | the comparison stops at the first lock input that is not as declared |
| Bootstrap.Target.Run | src/remrun/_bootstrap.py:344-485 | a full run reports completion if and only if all steps exited with zero, the lock inputs are unchanged, the interpreter is usable and the marker is written; receipt and marker say the same, and a run refused, locked out or ready writes nothing |
| Bootstrap.CompletedIsReady | src/remrun/_bootstrap.py:464-485 | after a completed run a check says ready if and only if inputs and environment still hold and the receipt is not oversized |
| Bootstrap.RunKeepsInv | src/remrun/_bootstrap.py:344-485 | every interleaving of attempts and crashes keeps the receipt invariant |
| Bootstrap.ReadyMeansCompleted | src/remrun/_bootstrap.py:344-485 | ready means that the last attempt to write the receipt had the same project, fingerprint and steps, ran every step with exit 0, and found its lock inputs valid before and after |
| Bootstrap.OneInside | src/remrun/_bootstrap.py:355-372 | at most one attempt is past the lock |
| Bootstrap.LockFollowsAttempts | src/remrun/_bootstrap.py:355-372 | in every run exactly the attempt past the lock holds it, however attempts end |
| Bootstrap.VerifyDecides | src/remrun/_bootstrap.py:424-463 | the comparison after the steps passes if and only if every lock input is as declared and paths and interpreter are usable |
| Bootstrap.AttemptCompletes | src/remrun/_bootstrap.py:373-485 | an undisturbed attempt whose steps all exit with zero, with inputs and environment in order after them, leaves a complete receipt and a free lock |
| Bootstrap.AttemptFails | src/remrun/_bootstrap.py:395-423 | a step that does not exit with zero ends the attempt with a failed receipt and a free lock |
| GitBatch.RoundTrip | scripts/public_release_check.py:283-326 | parsing the output printed for any objects gives back the bytes of each |
| GitBatch.RecordLayout | scripts/public_release_check.py:300-322 | a printed record is the object name, the word `blob` between spaces, the decimal length, a newline, the content and a newline, byte for byte |
| GitBatch.AcceptedHeader | scripts/public_release_check.py:304-318 | an accepted record starts with a line of three words, the requested name, `blob` and the length of its content |
| GitBatch.AcceptedIsPrefixFree | scripts/public_release_check.py:300-326 | of two accepted outputs for the same objects neither is a proper prefix of the other |
| GitBatch.TruncatedOrExtendedIsRejected | scripts/public_release_check.py:300-326 | every proper prefix and every proper extension of a printed output is rejected |
| GitBatch.NamedLookup | scripts/public_release_check.py:300-326 | the dictionary maps each requested object to its own bytes |
| GitBatch.ReadRecord | scripts/public_release_check.py:300-322 | one step of the loop reads exactly the record the grammar has at the offset |
| GitBatch.ReadGitBlobs | scripts/public_release_check.py:283-326 | the offset loop returns the dictionary of the parse, or an error exactly when the output is not the records of the requested objects |

## Left out

- Transport, reconciliation, scheduling and the target resource ledger: the models take their answers as inputs; the ledger's start state only moves from NO to MAYBE to YES.
- JSON, base64, SHA-256, fsync and file permissions: encodings are injective, digests opaque, writes atomic.
- Malformed ledger bytes, malformed requests and the checks of payload shapes, which only refuse.
- Leases.ReapStaleLeases: one pass uses one view of the operating system, where the code probes each lease a moment apart.
- Real time: expiry, polling intervals and deadlines are arbitrary choices; no timing bound is claimed. Fractions and times are reals and byte counts integers, so float rounding is not modelled.
- Capacity.CapacityTransaction: the diagnostic fields of the report that nothing decides on (`remaining_backed`, `live_backed` and the per-lease listings) are not part of it.
- Sampling payloads, peaks, GPU probes and the termination of a process tree in the guard loop: telemetry and signals that do not affect what the guard says about the start.
- GuardedLaunch.FalseResultIsTruthful: one launch; the guard's later supervision and cleanup are represented by the release or quarantine it hands to the ledger.
- DurableGate.UserStartsBehindTheGate: runs without target acceptance have no gate and are not modelled.
- LiveLog.LiveStdoutLog.Append: an I/O error that makes the log give up is not modelled, apart from a log that could not be opened.
- BoundedLog.BoundedWriter.Close: failing writes and fsync are not modelled.
- JobQuery.Query: the sort of the answer, CPU, memory and thread figures, and the handling of rows that do not parse are not modelled; records are those that passed validation, with one key each.
- Attribution.Assign: the processes of a job form a set; their order in the list is not modelled.
- Fence.UnsettledIsFenced: durable runs appear in the ordinary fence only as commands that compare and unlink; a run's own clearing is one step, because nobody else can fence while it holds the project lock.
- DurableFence.FenceLiftedOnProof: other runs of the project appear only through the hazards they write, compare and remove.
- DurablePullback.ThreatenedPulls: what the target answers while its evidence is there is arbitrary, and so is whether a copy carries the note of an earlier resolution.
- DurableStatus.RemovalIsJustified: removal by the error path of a launch, which takes away the directory it has just made when the supervisor cannot be spawned, is not a step of the model; nor is a launch under the same run id after a removal, whose new directory a stale remover could take.
- Bootstrap.ReadyMeansCompleted: steps and other programs may change anything on the target except the receipt.
- The Windows guard, the launch order inside a Windows job object, and the handle keeper.
- GitBatch.ReadGitBlobs: blobs stay bytes; their decoding to text and the process that produces the output are not modelled.
- Argument parsing, reporting, `doctor`, `status`, `logs`, `bench` and the controller half of bootstrap: single checks and formatting.
