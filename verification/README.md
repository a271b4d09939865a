# Juice plant pipeline: sequential model

This project models the sequential core of a simulated orange-juice plant.
Oranges move through a five-state machine: Fetched, Peeled, Squeezed, Bottled,
Processed. Three pools of workers carry them between bounded FIFO queues. A
line inspector evicts oranges that sit in the wrong queue. The plant derives
yield statistics from queue sizes and two counters.

The source runs every worker and the plant's control loop on its own thread.
The model has no threads. Each queue is a `seq<Orange>`, and each thread
step is one atomic transition of an immutable `Plant` value:

- `OrangeModel` (`orange.dfy`): the `State` enum, `getNext`, the orange
  constructor and `runProcess`. Each exception becomes a `Failure` value.
- `Queues` (`queues.dfy`): `removeIf` as a pure filter over a sequence.
- `WorkerModel` (`worker.dfy`): `processOrange` as a loop method, and one
  iteration of the worker's `run` loop (poll, process, put).
- `PlantModel` (`plant.dfy`): the four queues, the two counters, the
  constructor's crew wiring, `distributeOrange`, the line inspector, one
  iteration of the control loop, one worker step, and the statistics getters.
- `PlantProofs` (`plant_proofs.dfy`): plant-wide properties. These cover the
  crew wiring, the statistics identities, inspector idempotence and order
  preservation, the done-queue counting discrepancy, and an invariant
  (`Healthy`) kept by every step of a correctly wired plant.

Two behaviours of the source shape the model:

- An `IllegalStateException` from `processOrange` escapes `Worker.run`,
  because src/Worker.java:74 catches only `InterruptedException`. The
  thread ends and the polled orange is never put. `WorkerModel.RunOnce`
  returns `Threw` in that case.
- Suppose `orangesRemovedFromQueues` counts every eviction, as its
  description at src/Plant.java:107 says, and no worker iteration throws.
  Then provided = processed + left in queues + removed. A worker iteration
  that throws loses its polled orange without counting it.
  `PlantProofs.WorkerStepKeepsHealthy` proves that cannot happen on a
  healthy plant.
- As written, src/Plant.java:258 breaks the law whenever the inspector
  evicts from the done queue (see Findings).
- `PlantModel.ControlStepAsWritten` is the loop iteration as written, and
  `PlantModel.ControlStep` is the corrected one.
- `PlantProofs.ControlStepConserves` proves the law for the corrected
  iteration, and `PlantProofs.WorkerStepConserves` for every worker
  iteration that does not throw.
- On a healthy plant the as-written and corrected iterations coincide
  (`PlantProofs.ControlStepAsWrittenAgreesWhenHealthy`).

## Model

| member | source | states |
|---|---|---|
| OrangeModel.Ordinal | src/Orange.java:16-33 | every state has an ordinal no greater than the final index, and `values()[ordinal]` gives the state back |
| OrangeModel.OrdinalInjective | src/Orange.java:16-30 | two states with the same ordinal are the same state |
| OrangeModel.TimeToComplete | src/Orange.java:18-36 | every state has a positive simulated duration |
| OrangeModel.GetNext | src/Orange.java:47-54 | succeeds exactly on non-final states, giving the state whose ordinal is one higher; on `Processed` it fails with the final-state error |
| OrangeModel.GetNextIsImmediateSuccessor | src/Orange.java:47-54 | the successor comes later in the order, and no state lies strictly between a state and its successor |
| OrangeModel.NewOrange | src/Orange.java:64-67 | a new orange is `Fetched` (ordinal 0) |
| OrangeModel.RunProcess | src/Orange.java:79-86 | fails with the already-processed error exactly on a `Processed` orange; otherwise the ordinal goes up by exactly one, so no state is skipped and none is repeated |
| OrangeModel.Iterate | src/Orange.java:79-86 | n successful calls of `runProcess` raise the ordinal by exactly n, and the only error a run of calls can raise is the already-processed one |
| OrangeModel.IterateClosedForm | src/Orange.java:79-86 | n calls of `runProcess` succeed exactly when ordinal + n stays within the final index, and then land on the state n ordinals later; otherwise the already-processed error is raised |
| OrangeModel.NewOrangeLifecycle | src/Orange.java:64-86 | from a new orange, k calls reach ordinal k for k up to 4, four calls reach `Processed`, and a fifth call fails |
| Queues.RemoveIf | src/Plant.java:232 | the survivors are exactly the elements not matching the predicate, and no survivor matches it |
| Queues.RemoveIfCount | src/Plant.java:232 | every copy of a surviving element is kept, and every copy of a matching element is removed: as a multiset the result is the input minus the matching elements |
| Queues.RemoveIfAppend | src/Plant.java:232 | the sweep distributes over concatenation, so survivors keep their relative order |
| Queues.RemoveIfNone | src/Plant.java:232 | a queue with nothing to remove is returned unchanged |
| Queues.RemoveIfShrinks | src/Plant.java:232-233 | `removeIf` reports a removal (the queue shrinks) exactly when some element matched |
| Queues.RemoveIfIdempotent | src/Plant.java:232 | sweeping twice with the same predicate is the same as sweeping once |
| WorkerModel.ProcessOutcome | src/Worker.java:85-89 | the outcome of `processOrange` succeeds exactly when the orange is not past `job`, and is then what ordinal(job) - ordinal(start) calls of `runProcess` give; otherwise it is what the first call past `Processed` raises |
| WorkerModel.ProcessOrange | src/Worker.java:85-89 | if the orange is not past `job`, the loop stops at `job` after exactly ordinal(job) - ordinal(start) calls, and an orange already at `job` is unchanged; if it is past `job`, the loop runs to `Processed` and the next call throws; in both cases the result is what that many `runProcess` calls give |
| WorkerModel.RunOnce | src/Worker.java:67-72 | an empty poll changes nothing; otherwise the head leaves the take queue and, unless it was past `job` (then the iteration throws), reappears at state `job` at the end of the give queue, with nothing dropped; a throw carries the already-processed error |
| WorkerModel.RunOnceKeepsStages | src/Worker.java:67-72 | when `job` is the successor of the take queue's state, an iteration never throws and keeps both queues uniform |
| PlantModel.Crew | src/Plant.java:141-161 | 13 workers; each worker's job is what its give queue's inspector expects and the successor of what its take queue's inspector expects, and no worker gives to the queue it takes from |
| PlantModel.NewPlant | src/Plant.java:133-144 | a new plant has four empty queues and both counters at zero |
| PlantModel.Distribute | src/Plant.java:269-283 | a `Fetched` orange is appended to the peel queue and true is returned; any other orange is refused with false and the plant is unchanged |
| PlantModel.Deliver | src/Plant.java:211-214 | when the orange is `Fetched`, it is appended to the peel queue and `orangesProvided` grows by one; otherwise the peel queue and the counter are unchanged; the other queues and the removal counter never change |
| PlantModel.Sweep | src/Plant.java:229-256 | a swept queue holds only oranges at the expected state, exactly the old ones at that state, and never more than before |
| PlantModel.SweepCount | src/Plant.java:229-256 | a swept queue keeps every copy of the expected orange: its length is the number of old oranges at the expected state |
| PlantModel.Tally | src/Plant.java:231-234 | the `if (removedFromQueue)` guard is immaterial: the counter always grows by exactly the drop in queue size |
| PlantModel.Swept | src/Plant.java:229-260 | each of the four queues becomes its own sweep with its own expected state; the counters are untouched |
| PlantModel.InspectAsWritten | src/Plant.java:229-260 | every queue becomes its sweep and ends sorted; the counter gains the evictions from the peel, squeeze and bottle queues and loses the evictions from the done queue |
| PlantModel.Inspect | src/Plant.java:229-260 | corrected inspector: every queue becomes its sweep, keeping exactly its oranges at the expected state, and the counter grows by exactly the number of oranges removed from all four queues |
| PlantModel.ControlStepAsWritten | src/Plant.java:209-218 | one control-loop iteration as written provides exactly one orange; it leaves the same queues as the corrected iteration, with the counter lower by twice the done-queue evictions |
| PlantModel.ControlStep | src/Plant.java:209-218 | corrected control-loop iteration (it uses `Inspect`, not the code's `checkQueues`): provides exactly one orange, and every orange the sweep removes is counted; the peel queue ends as its old sweep with the fresh orange at the end, and every other queue ends as its sweep, so all four are sorted |
| PlantModel.WorkerStep | src/Worker.java:63-78 | an empty poll changes nothing; otherwise the head leaves the worker's take queue and, unless processing threw, is appended at the worker's job state to its give queue; the other two queues and both counters are untouched; only an iteration that puts needs room |
| PlantModel.OrangesBottled | src/Plant.java:301-303 | the bottle count is the largest n with 3n at most the done-queue size |
| PlantModel.OrangesNotBottled | src/Plant.java:319-321 | the remainder is below three, and bottles times three plus the remainder is the done-queue size |
| PlantModel.OrangesLeftInQueue | src/Plant.java:338-340 | left-in-queue plus processed is the number of oranges in all four queues |
| PlantModel.OrangesWasted | src/Plant.java:329-331 | wasted is not-bottled plus left-in-queue plus removed |
| PlantProofs.CrewWiring | src/Plant.java:141-161 | 13 workers: 6 peelers, then 4 squeezers, then 3 bottlers; each worker's job is what its give queue's inspector expects and the successor of what its take queue's inspector expects; no worker gives to the queue it takes from |
| PlantProofs.GettersConserve | src/Plant.java:290-349 | in a healthy plant, provided = processed + left in queue + removed, and removed is zero |
| PlantProofs.StatisticsIdentities | src/Plant.java:301-340 | bottled times three plus not-bottled equals processed; not-bottled is below three; left-in-queue is the sum of the three stage queues; wasted is not-bottled plus left plus removed |
| PlantProofs.SweepKeepsOrder | src/Plant.java:229-256 | the inspector keeps the surviving oranges of a queue in their original relative order |
| PlantProofs.SweepUniform | src/Plant.java:229-256 | a queue whose oranges are all at the expected state is left alone |
| PlantProofs.InspectSortedIsIdentity | src/Plant.java:229-260 | when every queue is sorted, both inspector versions change nothing, counter included |
| PlantProofs.InspectIdempotent | src/Plant.java:229-260 | a second sweep straight after the first removes nothing and leaves the counter unchanged, both as written and corrected |
| PlantProofs.InspectAsWrittenDoneSign | src/Plant.java:255-258 | as written, the queues match the corrected inspector, but the counter is lower by twice the done-queue evictions |
| PlantProofs.InspectAsWrittenUndercounts | src/Plant.java:255-258 | one `Processed` orange in the done queue takes the counter to -1 as written (breaking the count), and to 1 when corrected |
| PlantProofs.ControlStepConserves | src/Plant.java:209-260 | provided = oranges in queues + removed is kept by the corrected inspector and by a control-loop iteration |
| PlantProofs.WorkerStepConserves | src/Worker.java:67-72 | a worker iteration that does not throw keeps provided = oranges in queues + removed |
| PlantProofs.InspectCountsMisplaced | src/Plant.java:229-260 | the corrected inspector's counter grows by exactly the number of oranges at a wrong state, summed over the four queues |
| PlantProofs.ControlStepAsWrittenAgreesWhenHealthy | src/Plant.java:209-260 | on a healthy plant the loop iteration as written equals the corrected one |
| PlantProofs.InjectedOrangeEvicted | src/Plant.java:229-236 | a misrouted orange added to a sorted peel queue is evicted by one sweep, and the counter grows by exactly one |
| PlantProofs.NewPlantHealthy | src/Plant.java:133-162 | a new plant is healthy |
| PlantProofs.ControlStepKeepsHealthy | src/Plant.java:209-260 | in a healthy plant, a control-loop iteration appends one `Fetched` orange, counts it, removes nothing, and keeps the plant healthy |
| PlantProofs.WorkerStepKeepsHealthy | src/Worker.java:63-78 | in a healthy plant, a worker iteration never throws: it moves the head of its take queue, at its job state, to the end of its give queue; the other two queues are unchanged, nothing is lost and the plant stays healthy |

## Left out

- Threads and lifecycle are not modelled: `startPlant`, `stopPlant`, `waitToStop`, `Worker.start`/`stop`/`waitToStop`, thread joins and the `timeToWork` flags. They carry no sequential content; each thread step is an atomic transition instead.
- Blocking and timeouts are not modelled as waits. A `put` onto a full bounded queue blocks in the source. Here, `PlantModel.Distribute` and a `PlantModel.WorkerStep` that reaches `put` are only enabled when the queue has room (capacity 10 for the stage queues). A worker step whose `processOrange` throws needs no room, since it never reaches `put`. A poll that times out is the `Idle` outcome.
- ControlStep: it steps with the corrected inspector, so on a plant whose done queue holds a wrong-state orange its counter differs from the code's. `PlantModel.ControlStepAsWritten` is the iteration as written, and the two are proved equal on healthy plants.
- `InterruptedException` handling is left out. This includes an interrupted `put` in `distributeOrange` returning false for a `Fetched` orange.
- `Orange.doWork` and `Plant.delay` are only `Thread.sleep` calls. `TimeToComplete` records the duration table but has no effect on behaviour.
- TimeToComplete: its contract only says each duration is positive; the exact values are in the table itself.
- `Plant.main` is left out: it only builds several plants, sums their statistics and prints them.
- Thread names (`plantNum`, `threadNum`) and all log lines are left out.
- The counters are unbounded integers. Java's 32-bit `int` overflow of `orangesProvided` is not modelled.
- The inspector reads `size()` and runs `removeIf` as one atomic step. Stale size reads that race with worker threads are not modelled.
- OrangesProvided: a plain field read, like `getState`. Its contract only says it returns the counter. `PlantProofs.GettersConserve` relates it to the other getters.
- OrangesProcessed: a plain read of the done-queue size, like `getState`. Its contract only says that.
- OrangesRemovedFromQueues: a plain field read, like `getState`. Its contract only says it returns the counter.
- An interrupted `put` in `Worker.run` (src/Worker.java:72-74) drops the polled orange in the source. The model does not represent interruption, so it never loses an orange this way.
- `getState` is the field access `o.state`. It is pure by construction, so no contract is stated for it.
- Oranges are compared by state. Java object identity is not modelled, and order preservation is stated through `Queues.RemoveIfAppend`.
- A worker whose `processOrange` throws loses its thread in the source. The model drops the polled orange but keeps the worker in the crew. `PlantProofs.WorkerStepKeepsHealthy` proves this cannot happen in a healthy plant.
- On that failure path, the Java orange object ends at `Processed` before the throw. The model does not keep it, because the source never puts it anywhere.
- The workers are the fixed crew `PlantModel.Crew()` built by the constructor, not a field of each plant. The source never changes the array after construction.

## Findings

| source | as written | input that shows it | evidently intended | confidence | as-written member | corrected member |
|---|---|---|---|---|---|---|
| src/Plant.java:258 | `orangesRemovedFromQueues += doneQueue.size() - qSize` adds the new size minus the old size, so done-queue evictions decrease the removal counter | a plant that has provided one orange, with that orange at `Processed` in the done queue: one sweep evicts it and the counter goes from 0 to -1 | add `qSize - doneQueue.size()`, as the other three branches and the field's description (line 107) do | high; not executed | PlantModel.InspectAsWritten and PlantModel.ControlStepAsWritten (discrepancy shown by PlantProofs.InspectAsWrittenUndercounts) | PlantModel.Inspect (used by PlantModel.ControlStep; PlantProofs.ControlStepConserves) |
