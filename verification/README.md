# KubeLite: a verified model

KubeLite is a small task engine. A Master counts requests and pushes their payloads onto the Redis
list `task_queue`. Worker containers pop a payload, register it on `processing_queue` under their
host name, execute it, and remove the registration again. Every ten seconds the Master moves what
dead workers left on `processing_queue` back to `task_queue`, measures the cluster, and resizes the
pool of workers. This project models that engine in Dafny 4.11 and proves what it keeps.

`dafny verify dfyconfig.toml` checks the whole project.

## How the model is built

| file | what it holds |
|---|---|
| `Protocol.dfy` | the queue protocol as a transition system: one Redis command per step, everything else interleaves |
| `Tokens.dfy` | one token per accepted task, at-least-once delivery |
| `Ledger.dfy` | the counting laws of every reachable state, queue order |
| `SafeRuns.dfy` | exactly when a task is in two places at once, and bounds on duplicates in the runs in which none is |
| `ExactlyOnce.dfy` | exactly when a task can reach two outcomes |
| `Progress.dfy` | bounds on the recovery loops, what a drain recovers, graceful exit |
| `Examples.dfy` | concrete runs that show where the guarantees end |
| `Recovery.dfy` | the recovery pass on lists: conservation, exactly when failures heal, scale-down |
| `Store.dfy` | the recovery pass, the request handler and a worker's turn as imperative code over mutable lists |
| `Refinement.dfy` | a pass over the listed containers and the runs of the Master alone are the same, in both directions; a worker's turn is a run |
| `Kernels.dfy`, `Powers.dfy` | the n-th prime and the power-of-two test |
| `Metrics.dfy`, `Autoscaler.dfy`, `Docker.dfy`, `Orchestrator.dfy` | statistics, scaling formula, scale up and down, the control loop over any sequence of turns |
| `LoadGenerator.dfy` | the load generator's semaphore, wait group and counters |
| `Lists.dfy` | facts about sequences |

A task is identified by the position at which it was accepted, so two tasks with equal payloads stay
apart in the proofs although the program only compares values: an LRem looks for an entry with the
same worker and the same payload and may take another task's entry. A worker is identified by the
position at which it started. The model allows a kill of any worker, a signal to any worker, a crash
of the Master, a failing LPop or LMove, and a start of a worker at any step unless a lemma says
otherwise. The `log` part of a state is history for the proofs; the program does not store it.

What the protocol gives is at-least-once with an exact account of duplicates. Two stronger properties
are false of the code, and each has the exact condition under which it holds:

- *No task in two places.* A run puts a task in the hands of two workers, or back on `task_queue` while
  a worker has it, if and only if the Master at some point re-queues the entry of a worker that is at
  work on it (`SafeRuns.DoubleRunIff`). `Examples.LateStarterRunsTwice` is such a run: a worker started
  by hand, which the top-level README documents (lines 232-233), is missing in the snapshot of the drain
  under way. Runs without such a re-queue are called *safe*. *Quiet* runs, in which no worker starts
  between the Master's snapshot and the end of its drain, are safe; the Master itself starts workers at
  other times only.
- *Exactly once.* Every task keeps to one outcome, reached or to come, throughout a run, if and only if
  the Master never re-queues an entry whose task has reached its outcome or is still being executed
  (`ExactlyOnce.ExactlyOnceIff`); a task with two outcomes to come can be brought to both by the workers
  alone (`ExactlyOnce.OnceMeansNoRepeat`). `Examples.MoreCompletionsThanRequests` is a quiet run without
  any kill or failing command in which one request is completed twice, because an LRem found nothing
  while the Master held the entry between LPop and RPush.

The drain loop is bounded by what was there, what is accepted meanwhile and what workers missing in the
snapshot register meanwhile (`Progress.DrainBound`); the last part has no bound of its own
(`Examples.DrainUnbounded`).

Where the code and its documentation differ, the model follows the code. The top-level README speaks of an
in-process atomic request counter; the code increments a Redis key. It shows request bodies with
`task_type`; workers read `type` and `value`. A comment on the re-queue branch says that it serves tasks
whose worker crashed before finishing; it also serves finished tasks whose LRem missed.

## Model

| member | source | states |
|---|---|---|
| Protocol.FirstEqual | Worker/worker.go:89 | LRem with count 1 hits the leftmost entry with the same worker and payload, and only such an entry |
| Protocol.FirstEqualByPayload | Worker/worker.go:89 | for accepted tasks, that is the leftmost entry with that worker and the very payload the task was accepted with |
| Tokens.RemoveByValue | Worker/worker.go:40-89 | in every reachable state the LRem removes the first entry with the worker's own name and the payload it has just executed, and nothing when there is none |
| Tokens.AccountedStep | Worker/worker.go:13-97 | every step of the Master, a worker or a client keeps the exact account of one task: tokens plus lost plus retired is one once accepted, zero before |
| Tokens.RemoveTakesFinished | Worker/worker.go:89 | a by-value LRem takes only an entry of its own worker, and only of a task that has already reached an outcome |
| Tokens.SingleToken | Worker/worker.go:16-89 | in every reachable state a task has at most one token across task_queue, unregistered hands and all registration records, and none once lost or retired |
| Tokens.AtLeastOnce | Worker/worker.go:16-89 | every accepted task has reached an outcome, waits, is held, has a record, is being executed, or fell to a kill of a worker between BLPop and RPush, or of a worker and of a Master holding its entry; a crash of the Master alone loses nothing |
| Ledger.DuplicationLedger | Master/orchestrator/processing_queue.go:28-48 | recovered plus records plus records lost with the Master equals missed LRems plus workers killed while registered plus workers now registered |
| Ledger.FlowConservation | Master/controller/request.go:19-31 | accepted plus recovered equals waiting plus held plus executing plus finished plus kills in between; total_request splits into accepted, under way and rejected |
| Ledger.QueueIsFifo | Master/orchestrator/processing_queue.go:44 | what was popped followed by what waits is exactly what was pushed, by requests and recoveries, in order |
| Ledger.FirstStartsInOrder | Master/controller/request.go:26 | first starts follow acceptance order: when a task has been popped, so has every earlier one |
| Ledger.PopAccount | Worker/worker.go:16 | how many BLPops there are beyond the accepted tasks, as an equation that holds in every reachable state, and so exactly when missed LRems and kills do not pay for them |
| Ledger.OutcomeAccount | Worker/worker.go:70-89 | how many outcomes there are beyond the accepted tasks, as an equation that holds in every reachable state, and so exactly when outcomes exceed tasks |
| SafeRuns.OverlapIff | Master/orchestrator/processing_queue.go:41-45 | a step puts a task in two places exactly when it re-queues the entry of a worker at work on it; every other step keeps each running worker's registration |
| SafeRuns.DoubleRunIff | Master/orchestrator/processing_queue.go:41-45 | over every run, a task is ever in two workers' hands, or in one and on task_queue, if and only if the Master ever re-queues such an entry |
| SafeRuns.QuietIsSafe | Master/orchestrator/orchestrator.go:32-37 | runs in which no worker starts between snapshot and end of drain are safe, and their snapshots list every running worker |
| SafeRuns.NeverRequeuesRunning | Master/orchestrator/processing_queue.go:41-45 | in quiet runs the pass puts a running worker's entry on temp_queue and never on task_queue |
| SafeRuns.NoDoubleRun | Worker/worker.go:54-89 | in safe runs no task is in the hands of two workers at the same time, from BLPop to LRem, nor in a hand and on task_queue |
| SafeRuns.PopsBounded | Worker/worker.go:16 | in safe runs BLPops never exceed accepted tasks plus missed LRems plus workers killed while registered |
| SafeRuns.OutcomesBounded | Worker/worker.go:70-89 | in safe runs completions and outcomes never exceed accepted tasks plus missed LRems plus workers killed between outcome and LRem |
| SafeRuns.MissedOnlyInTransit | Worker/worker.go:89 | in safe runs an LRem misses only while its entry is on temp_queue, in the Master's hand, or lost with a Master |
| SafeRuns.RemoveHits | Worker/worker.go:89 | in safe runs an LRem outside a pass, with temp_queue empty and no Master crash behind it, removes an entry |
| ExactlyOnce.OutcomesOfStep | Worker/worker.go:13-97 | the outcomes of a task, reached or to come, change by one only: up when it is accepted or re-queued, down when a worker holding or executing it is killed |
| ExactlyOnce.OnceIff | Master/orchestrator/processing_queue.go:41-45 | a step gives a task a second outcome exactly when it re-queues an entry whose task is finished or still being executed |
| ExactlyOnce.ExactlyOnceIff | Master/orchestrator/processing_queue.go:41-45 | over every run, no task ever has two outcomes, reached or to come, if and only if the Master never makes such a re-queue |
| ExactlyOnce.OutcomesDistinct | Worker/worker.go:70-89 | without such a re-queue all outcomes are of different tasks and completions stay within requests |
| ExactlyOnce.OutcomesReached | Worker/worker.go:13-97 | from every state the workers alone can bring each task to exactly the outcomes it has to come |
| ExactlyOnce.OnceMeansNoRepeat | Worker/worker.go:13-97 | no task has two outcomes to come exactly when no continuation by the workers alone executes a task twice |
| ExactlyOnce.OnceIsSafe | Master/orchestrator/processing_queue.go:41-45 | a run in which every task keeps to one outcome never has a task in two places |
| ExactlyOnce.AtMostOneOutcome | Worker/worker.go:54-95 | in safe runs, as long as no LRem missed and no worker died owing one, no task reaches an outcome twice and completions stay within requests |
| Progress.DrainBound | Master/orchestrator/processing_queue.go:27-46 | in every interleaving the successful LPops of a drain are bounded by entries, entries of absent workers, hands and waiting tasks at its start plus requests accepted and registrations by late starters meanwhile |
| Progress.DrainEnds | Master/orchestrator/processing_queue.go:27-46 | when only snapshot workers register, the last part is gone: the drain stops |
| Progress.DrainRecovers | Master/orchestrator/processing_queue.go:27-46 | in every interleaving, once a drain has emptied processing_queue, every entry that a worker no longer running had there at the snapshot has had its task pushed onto task_queue since |
| Progress.DrainRecoversOnce | Master/orchestrator/processing_queue.go:27-46 | when only snapshot workers register meanwhile, that push is the only one since the snapshot |
| Progress.RestoreBound | Master/orchestrator/processing_queue.go:47-56 | under any interleaving each LMove shortens temp_queue by one, so the restore loop ends after as many moves as entries |
| Progress.ShutdownBound | Worker/main.go:20-28 | once its flag is set a worker takes at most five more steps and completes at most one more BLPop, and only if it was polling |
| Progress.ShutdownNotStuck | Worker/worker.go:19-31 | a flagged worker that has not exited always has a step of its own to take |
| Progress.GracefulExit | Worker/worker.go:89-95 | a worker exits only on the flag, having registered every task it popped and issued the LRem for every task it registered; never two late BLPops |
| Progress.ExitedSteps | Worker/worker.go:16-95 | the same counted in the steps of the run: an exited worker was signalled, its BLPops, RPushes and LRems are equally many, and at most one BLPop came after the signal |
| Progress.BooksAreSteps | Worker/worker.go:13-97 | a worker's counters are the numbers of its own commands in the run, and only the signal sets its flag |
| Progress.SignalStops | Worker/main.go:20-28 | from the signal on a worker takes at most five steps and completes at most one BLPop |
| Progress.SignalBoundReached | Worker/worker.go:16-95 | and both bounds are met by a worker that gets one more task from BLPop |
| Progress.ChecksFollowRemoves | Worker/worker.go:89-95 | a worker looks at its flag once after each LRem and at no other time |
| Progress.KillStops | Worker/worker.go:13-97 | a killed worker takes no further step, and the kill touches no other worker |
| Examples.MoreCompletionsThanRequests | Master/orchestrator/processing_queue.go:28-45 | a quiet run whose steps have no kill and no failing command, with one request and two completions |
| Examples.KillBeforeRegisteringLoses | Worker/worker.go:16-54 | a reachable state in which a kill between BLPop and RPush has lost the accepted task for good |
| Examples.WorkerAndMasterLose | Master/orchestrator/processing_queue.go:28-45 | a reachable state in which a killed worker and a Master that died between LPop and RPush have lost it |
| Examples.LateStarterRunsTwice | Master/orchestrator/orchestrator.go:32-37 | a run whose steps have no kill and no failing command: a worker that starts after the snapshot loses its entry and a second worker works on the same task, with no missed LRem |
| Examples.DrainUnbounded | Master/orchestrator/processing_queue.go:27-46 | a late starter alone can make one drain pop one task any number of times |
| Examples.ChasingHappens | Master/orchestrator/processing_queue.go:27-46 | the starting situation of that endless drain is reachable |
| Recovery.PassIdempotent | Master/orchestrator/processing_queue.go:18-57 | with temp_queue empty, a second pass with the same snapshot changes nothing |
| Recovery.NoFailures | Master/orchestrator/processing_queue.go:27-56 | with no failing command the pass empties temp_queue and leaves old temp_queue followed by the live entries on processing_queue |
| Recovery.PassesConserve | Master/orchestrator/processing_queue.go:28-35 | any sequence of passes, with any snapshots and any failing LPop and LMove, loses and duplicates no payload |
| Recovery.HealsIff | Master/orchestrator/processing_queue.go:28-55 | after any passes with any snapshots and failures, two clean passes leave temp_queue empty, and the same entries and the same tasks as without those passes if and only if none of them popped a surviving entry under a snapshot without its worker |
| Recovery.FailuresHeal | Master/orchestrator/processing_queue.go:28-55 | when workers only leave from snapshot to snapshot, two clean passes end up as if no command had failed, and as if they had been the only passes |
| Recovery.NamedIffListed | Master/orchestrator/processing_queue.go:20-26 | with full-length ids and distinct 12-character prefixes, a worker's host name is found exactly when its container is listed |
| Recovery.ScaleDownRecovers | Master/orchestrator/processing_queue.go:41-48 | after any set of containers goes away, a pass re-queues each of their entries exactly once and in order, and keeps each survivor's entry |
| Store.RedisStore.LiveNames | Master/orchestrator/processing_queue.go:20-26 | the lookup table has every id and every 12-character prefix, each mapped to true |
| Store.RedisStore.Route | Master/orchestrator/processing_queue.go:36-45 | one popped entry: dropped when unreadable, kept on temp_queue when its worker is live, its payload re-queued otherwise |
| Store.RedisStore.Drain | Master/orchestrator/processing_queue.go:27-46 | the first loop pops until the list is empty or an LPop fails, and sorts the popped entries in order |
| Store.RedisStore.Restore | Master/orchestrator/processing_queue.go:47-56 | the second loop appends temp_queue left to right until it is empty or an LMove fails |
| Store.RedisStore.ProcessingToMain | Master/orchestrator/processing_queue.go:18-57 | the in-place pass equals its sequence-level description on all three lists, whichever commands fail |
| Store.RedisStore.Request | Master/controller/request.go:10-33 | counts first, pushes last; 200, 202, 400 and 500 exactly in their cases, and only 202 changes task_queue |
| Store.RedisStore.PollOnce | Worker/worker.go:13-97 | one turn pops the head, counts known types only, and leaves the multiset of processing_queue as it was |
| Refinement.SameValueSameRaw | Worker/worker.go:40-50 | entries are equal as stored exactly when the worker and the payload their tasks were accepted with are equal |
| Refinement.ViewReads | Worker/worker.go:36-54 | what Redis stores in a reachable state: accepted payloads on task_queue, and pairs of host name and accepted payload on the other two lists |
| Refinement.RequestIsARun | Master/controller/request.go:19-31 | a request taken alone counts first and then appends its payload to task_queue, or nothing when it gives up |
| Refinement.CrashKeepsRedis | Master/orchestrator/processing_queue.go:27-56 | a crash of the Master changes nothing that Redis stores; the requests it was handling come to nothing, and the next Master can begin with a pass |
| Refinement.PassIsARun | Master/orchestrator/processing_queue.go:18-57 | every sequence-level pass is a run of the Master's steps alone over the running workers, in which a loop ends with a failing command exactly when a limit says so |
| Refinement.RunIsAPass | Master/orchestrator/processing_queue.go:18-57 | every run of the Master's steps alone, from its snapshot to the end of the pass, is a sequence-level pass, without limits when no command failed |
| Refinement.SamePass | Master/orchestrator/processing_queue.go:20-45 | the program's lookup table of listed container ids makes the same pass as the model's snapshot of running workers |
| Refinement.ProgramPassIsARun | Master/orchestrator/processing_queue.go:18-57 | what `ProcessingToMain` does to the three lists, given the running containers, a run of the Master's steps alone does |
| Refinement.RunIsAProgramPass | Master/orchestrator/processing_queue.go:18-57 | and every run of the Master's steps alone does what `ProcessingToMain` does |
| Refinement.TurnIsARun | Worker/worker.go:16-95 | a worker's atomic steps, taken alone, amount to the list and counter changes of one turn |
| Kernels.Euclid | Worker/tasks/prime.go:9 | beyond every number there is a prime, at most one above the product of the primes so far |
| Kernels.ProductBound | Worker/tasks/prime.go:9-21 | with c primes up to k, twice their product is at most 2^(2^c) |
| Kernels.FindNthPrime | Worker/tasks/prime.go:6-23 | terminates for every n; returns 1 for n <= 0, else a prime with exactly n primes at or below it, at most 2^(2^(n-1)) |
| Kernels.NthPrimeIncreasing | Worker/tasks/prime.go:6-23 | the result grows strictly with n |
| Kernels.EveryPrimeIsHit | Worker/tasks/prime.go:6-23 | every prime is the result for the number of primes up to it |
| Kernels.BitAndBits | Worker/tasks/isPowerOfTwo.go:5 | the arithmetic bitwise-and has a bit exactly where both operands have it |
| Kernels.IsPowerOfTwoCorrect | Worker/tasks/isPowerOfTwo.go:4-6 | for every integer the test holds exactly for the powers of two |
| Metrics.Minus | Master/metrics/cpu.go:65-66 | differences of unsigned counters wrap around at 2^64 |
| Metrics.CpuFormula | Master/metrics/cpu.go:65-71 | over the four counters, a counter behind its previous value having wrapped around once: reading times system time passed is CPU time used times CPUs times 100; no time passed reads 0 |
| Metrics.IdleFormula | Master/metrics/cpu.go:73-89 | over the four counters, idle means a thousand times the CPU time used over all CPUs is under the time passed, or none passed; a usage reading under 0.1 percent exactly when the CPU count is reported, the per-CPU entries count otherwise, and an unreadable body is not idle |
| Metrics.MemoryFormula | Master/metrics/memory.go:56-76 | reading times limit is 100 times usage without cache, floored at zero, where the cgroup v2 key wins and the v1 key stands in for it; at most 100 when usage is within the limit; a zero limit reads 0 |
| Metrics.GetTotalClusterCpu | Master/metrics/cpu.go:29-51 | the loop returns the sum of the readings that worked over the number of all containers |
| Metrics.GetTotalClusterMemory | Master/metrics/memory.go:19-41 | the same for memory |
| Metrics.SumConcat | Master/metrics/cpu.go:38-46 | each reading is in the sum once, wherever it stands |
| Metrics.AverageBetween | Master/metrics/cpu.go:47-50 | average times number of containers is the sum, and the average lies between the smallest and the largest reading, a failed one counting as 0 |
| Autoscaler.DesiredIsLeast | Master/orchestrator/orchestrator.go:146-172 | for every pool size, the empty pool included, and every `k`: `k` is at least the recommendation if and only if `k` is at least one and would bring the load within 70 percent CPU and 75 percent memory and the backlog and rate deficit within five tasks and two requests a second to a worker |
| Autoscaler.GrowsExactlyWhenNeeded | Master/orchestrator/orchestrator.go:147-163 | a non-empty pool is asked to grow exactly when CPU exceeds 70, memory exceeds 75, or a fifth of the backlog plus half the rate deficit exceeds the pool |
| Autoscaler.DesiredMonotone | Master/orchestrator/orchestrator.go:150-172 | more load, backlog or arrivals, or fewer completions, never ask for fewer workers |
| Autoscaler.GetSystemCaps | Master/orchestrator/orchestrator.go:90-100 | each cap is the largest worker count within 80 percent of its resource; unknown memory does not cap |
| Autoscaler.TargetFits | Master/orchestrator/orchestrator.go:74 | every target keeps half a CPU and, when RAM is known, 256 MB per worker within 80 percent of the host |
| Autoscaler.DemandIgnoresSpread | Master/orchestrator/orchestrator.go:150-156 | the worker count cancels: the resource demand depends on the totals only |
| Autoscaler.Converges | Master/orchestrator/orchestrator.go:64-84 | from any size the pool is settled after two ticks, from a non-empty one after one, and never changes again |
| Docker.Daemon.Destroy | Master/orchestrator/destroyContainer.go:11-52 | which containers each loop tries, whichever calls fail, and what is then running and existing |
| Docker.BusyOnlyAfterIdle | Master/orchestrator/destroyContainer.go:20-51 | whatever fails, at most n attempts, and a busy container is tried only after every idle one that answered |
| Docker.CleanRemoval | Master/orchestrator/destroyContainer.go:19-51 | without failures exactly min(n, listed) distinct containers go, idle before busy, in list order within each class |
| Docker.Daemon.Generate | Master/orchestrator/generateContainer.go:14-52 | exactly the containers that Docker created and started among the first n answers are added, past any failure |
| Docker.StartedGrowth | Master/orchestrator/generateContainer.go:22-51 | n creations add at most n running containers, and exactly n when all start |
| Orchestrator.GoalExactly | Master/orchestrator/orchestrator.go:38-74 | the turn's target reaches `k` if and only if the host has room for `k` at half a CPU and 256 MB each and `k - 1` is not enough for the averages, the queue and the two counters read |
| Orchestrator.RatesOfTurn | Master/orchestrator/orchestrator.go:60-61 | ten seconds of either rate are the growth of the counter that was read, the request counter wrapping around once when it is behind and counting 0 when unread |
| Orchestrator.GoalIsSettled | Master/orchestrator/orchestrator.go:38-74 | when every listed worker was measured, the turn's target is the settled size of the load |
| Orchestrator.RatesAddUp | Master/orchestrator/orchestrator.go:60-63 | over any sequence of complete turns the two rates times the period add up to the growth of the counters |
| Orchestrator.Master.Tick | Master/orchestrator/orchestrator.go:31-86 | one turn, while workers may leave or be started by hand: recovery even when a later read fails, counters unchanged by an incomplete turn and the pool changed by others only, else the target, the new counters and the new pool |
| Orchestrator.TurnOutcome | Master/orchestrator/orchestrator.go:78-84 | whoever leaves or is started meanwhile and whatever fails, the turn ends between doing nothing and adding goal minus snapshot, and at the latter when nothing fails; undisturbed, between its old size and the goal |
| Orchestrator.NeverOverCapacity | Master/orchestrator/orchestrator.go:31-86 | over any sequence of turns with any metrics, failures and disappearing workers, the pool never exceeds the larger of its initial size and the host caps, except by workers started by hand |
| Orchestrator.CalmTurnsSettle | Master/orchestrator/orchestrator.go:38-84 | under a constant load the pool of containers is settled after two calm turns, a non-empty one after one, and stays so |
| Orchestrator.ScaleDownThenRecover | Master/orchestrator/orchestrator.go:81-84 | entries of the containers that a turn took down, that left meanwhile or that were gone before are re-queued once each by the next pass, and survivors keep theirs |
| Orchestrator.UnreadCounterSaturates | Master/orchestrator/orchestrator.go:54-60 | an unread request counter wraps into a huge rate and the turn asks for everything the host allows |
| LoadGenerator.ConcurrencyBounded | scripts/heavy_cpu_spike/main.go:143-152 | in every interleaving at most `concurrency` requests are in flight and no counter runs ahead of totalSentCount |
| LoadGenerator.CountersAreSteps | scripts/heavy_cpu_spike/main.go:41-73 | over every run each counter has grown by the number of steps of its own kind, and the loop is stopped by the interrupt alone |
| LoadGenerator.AllAccountedAtExit | scripts/heavy_cpu_spike/main.go:118-156 | when wg.Wait returns the type counters add up to totalSentCount, the semaphore is empty and every request is over |
| LoadGenerator.DeferredNeverBlock | scripts/heavy_cpu_spike/main.go:147-148 | the deferred receive and wg.Done of a goroutine never block |
| LoadGenerator.NeverStuck | scripts/heavy_cpu_spike/main.go:131-156 | the program cannot deadlock |
| LoadGenerator.EndsAfterInterrupt | scripts/heavy_cpu_spike/main.go:124-156 | after the interrupt every interleaving ends within a computed number of steps |

## Left out

- PopsBounded: is stated for safe runs; `Ledger.PopAccount` is the exact equation for all runs.
- OutcomesBounded: is stated for safe runs; `Ledger.OutcomeAccount` is the exact equation for all runs.
- MissedOnlyInTransit: is stated for safe runs, and RemoveHits too; after a double run the entry may also have been re-queued.
- AtMostOneOutcome: gives a condition on two counters of the history; `ExactlyOnce.ExactlyOnceIff` is the exact condition on the steps.
- Tick: its recovery pass runs without interleaving; `Refinement.RunIsAPass` ties such a pass to the step system, where everything interleaves. A worker that goes away while the turn is already scaling is counted as going away right after it.
- PollOnce: is one turn of the endless polling loop; the waiting inside BLPop is not modelled.
- FindNthPrime: integers are unbounded, so a result beyond 63 bits is not cut off.
- Redis, Docker and HTTP clients: each Redis command is one atomic list step. Errors of RPush, Incr and LRem, which the workers ignore, and what the client library does when a blocked BLPop is cancelled are not modelled.
- JSON text: encoding a worker name and payload and decoding it again is assumed to give them back. The branch for a failing encode, which cannot happen for two strings, is not modelled.
- Payload types: in the step system an execution may end in any outcome, which covers every parse; the imperative turn classifies by the parsed type.
- Container identity: ids are unique, never reused, and the host name is the 12-character prefix. A container restarted under its old name is outside the model.
- Floating point: the formula and the averages are over the reals, and conversions of out-of-range reals to 64-bit integers are outside the model.
- Reading host memory, the metrics cache, the metrics endpoint and the CPU burner: plumbing or timing.
- Front end, shell scripts, charts and recorded runs; the other two load scripts are the same loop with another `concurrency`.
