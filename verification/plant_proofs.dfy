/** Properties of the plant as a whole: the constructor's wiring, the line
    inspector's idempotence and counting, the done-queue sign discrepancy,
    and the invariant that a correctly wired plant keeps at every step. */
module PlantProofs {
  import opened Wrappers
  import opened OrangeModel
  import opened Queues
  import opened WorkerModel
  import opened PlantModel

  /** The crew has 13 members, 6 peelers, 4 squeezers and 3 bottlers, and
      each member is wired consistently with the line inspector: its job is
      what its give queue expects, and the successor of what its take queue
      expects. */
  lemma CrewWiring()
    ensures |Crew()| == TotalWorkers == 13
    ensures forall i :: 0 <= i < NumPeelers ==> Crew()[i] == Worker(PeelQueue, SqueezeQueue, Peeled)
    ensures forall i :: NumPeelers <= i < NumPeelers + NumSqueezers ==>
      Crew()[i] == Worker(SqueezeQueue, BottleQueue, Squeezed)
    ensures forall i :: NumPeelers + NumSqueezers <= i < TotalWorkers ==>
      Crew()[i] == Worker(BottleQueue, DoneQueue, Bottled)
    ensures forall i :: 0 <= i < |Crew()| ==>
      && Crew()[i].job == Expected(Crew()[i].giveQueue)
      && GetNext(Expected(Crew()[i].takeQueue)) == Success(Crew()[i].job)
      && Crew()[i].takeQueue != Crew()[i].giveQueue
  {
  }

  /** The getters agree with each other: bottles times three plus the
      remainder is the done-queue size, the remainder is below three, and
      the wasted figure is remainder plus leftovers plus removals. */
  lemma StatisticsIdentities(p: Plant)
    ensures OrangesBottled(p) * 3 + OrangesNotBottled(p) == OrangesProcessed(p)
    ensures 0 <= OrangesNotBottled(p) < 3
    ensures OrangesLeftInQueue(p) == |p.peel| + |p.squeeze| + |p.bottle|
    ensures OrangesWasted(p)
         == OrangesNotBottled(p) + OrangesLeftInQueue(p) + OrangesRemovedFromQueues(p)
  {
  }

  /** The sweep of one queue keeps the survivors in their original order. */
  lemma SweepKeepsOrder(a: seq<Orange>, b: seq<Orange>, s: State)
    ensures Sweep(a + b, s) == Sweep(a, s) + Sweep(b, s)
  {
    RemoveIfAppend(a, b, WrongState(s));
  }

  /** A queue whose oranges are all at the expected state is left alone. */
  lemma SweepUniform(q: seq<Orange>, s: State)
    requires AllAt(q, s)
    ensures Sweep(q, s) == q
  {
    RemoveIfNone(q, WrongState(s));
  }

  /** Every queue holds only oranges at its expected state. */
  predicate Sorted(p: Plant) {
    forall q :: AllAt(Queue(p, q), Expected(q))
  }

  /** `Sorted`, spelled out queue by queue. */
  lemma SortedQueues(p: Plant)
    requires Sorted(p)
    ensures AllAt(p.peel, Fetched) && AllAt(p.squeeze, Peeled)
    ensures AllAt(p.bottle, Squeezed) && AllAt(p.done, Bottled)
  {
    assert AllAt(Queue(p, PeelQueue), Expected(PeelQueue));
    assert AllAt(Queue(p, SqueezeQueue), Expected(SqueezeQueue));
    assert AllAt(Queue(p, BottleQueue), Expected(BottleQueue));
    assert AllAt(Queue(p, DoneQueue), Expected(DoneQueue));
  }

  /** On a plant whose queues are all sorted, both versions of the inspector
      change nothing, counter included. */
  lemma InspectSortedIsIdentity(p: Plant)
    requires Sorted(p)
    ensures Inspect(p) == p
    ensures InspectAsWritten(p) == p
  {
    SortedQueues(p);
    SweepUniform(p.peel, Fetched);
    SweepUniform(p.squeeze, Peeled);
    SweepUniform(p.bottle, Squeezed);
    SweepUniform(p.done, Bottled);
  }

  /** A second sweep straight after the first removes nothing and leaves the
      counter unchanged, in the code as written and as corrected. */
  lemma InspectIdempotent(p: Plant)
    ensures Inspect(Inspect(p)) == Inspect(p)
    ensures InspectAsWritten(InspectAsWritten(p)) == InspectAsWritten(p)
  {
    InspectSortedIsIdentity(Inspect(p));
    InspectSortedIsIdentity(InspectAsWritten(p));
  }

  /** As written, the inspector leaves the same queues as the corrected one,
      but its counter is lower by twice the number of oranges evicted from the
      done queue: those evictions are subtracted instead of added. */
  lemma InspectAsWrittenDoneSign(p: Plant)
    ensures InspectAsWritten(p).(removed := 0) == Inspect(p).(removed := 0)
    ensures InspectAsWritten(p).removed
         == Inspect(p).removed - 2 * (|p.done| - |Inspect(p).done|)
  {
  }

  /** Every orange provided is in a queue or has been counted as removed. */
  predicate Conserved(p: Plant) {
    p.provided == Population(p) + p.removed
  }

  /** The corrected inspector and the control-loop step keep the count. */
  lemma ControlStepConserves(p: Plant)
    requires Conserved(p)
    requires HasRoom(p, PeelQueue)
    ensures Conserved(Inspect(p))
    ensures Conserved(ControlStep(p))
  {
  }

  /** Concrete witness of the discrepancy: one orange that reached
      `Processed` sits in the done queue of an otherwise empty plant that
      has provided it.  The code as written evicts it and sets the counter to
      -1, breaking the count; the corrected inspector sets it to 1. */
  lemma InspectAsWrittenUndercounts()
    ensures var p := Plant([], [], [], [Orange(Processed)], 1, 0);
      && Conserved(p)
      && InspectAsWritten(p).removed == -1
      && !Conserved(InspectAsWritten(p))
      && Inspect(p).removed == 1
      && Conserved(Inspect(p))
  {
  }

  /** A misrouted orange injected at the end of an otherwise sorted peel
      queue is evicted by one sweep, and counted exactly once. */
  lemma InjectedOrangeEvicted(p: Plant, s: State)
    requires Sorted(p)
    requires s != Fetched
    ensures Inspect(p.(peel := p.peel + [Orange(s)])) == p.(removed := p.removed + 1)
  {
    var p' := p.(peel := p.peel + [Orange(s)]);
    SortedQueues(p);
    SweepKeepsOrder(p.peel, [Orange(s)], Fetched);
    SweepUniform(p.peel, Fetched);
    assert Orange(s) !in Sweep([Orange(s)], Fetched);
    assert Sweep(p'.peel, Fetched) == p.peel;
    SweepUniform(p.squeeze, Peeled);
    SweepUniform(p.bottle, Squeezed);
    SweepUniform(p.done, Bottled);
  }

  /** A correctly running plant: every queue sorted, no bounded queue over
      capacity, nothing ever removed, and every provided orange still in
      some queue. */
  predicate Healthy(p: Plant) {
    && Sorted(p)
    && (forall q :: Capacity(q).Some? ==> |Queue(p, q)| <= Capacity(q).value)
    && p.removed == 0
    && p.provided == Population(p)
  }

  lemma NewPlantHealthy()
    ensures Healthy(NewPlant())
  {
  }

  /** In a healthy plant a control-loop iteration appends one fresh orange to
      the peel queue, counts it as provided, and the inspector finds nothing
      to remove. */
  lemma ControlStepKeepsHealthy(p: Plant)
    requires Healthy(p)
    requires HasRoom(p, PeelQueue)
    ensures ControlStep(p) == p.(peel := p.peel + [NewOrange()], provided := p.provided + 1)
    ensures Healthy(ControlStep(p))
  {
    var p' := Deliver(p, NewOrange());
    assert p' == p.(peel := p.peel + [NewOrange()], provided := p.provided + 1);
    assert AllAt(p'.peel, Fetched);
    assert Sorted(p') by {
      forall q ensures AllAt(Queue(p', q), Expected(q)) {
        if q != PeelQueue {
          assert Queue(p', q) == Queue(p, q);
        }
      }
    }
    InspectSortedIsIdentity(p');
  }

  /** In a healthy plant a worker iteration never throws: it takes the head
      of its take queue, appends it at its job state to its give queue,
      leaves the other two queues alone, and keeps the plant healthy. */
  lemma WorkerStepKeepsHealthy(p: Plant, i: nat)
    requires Healthy(p)
    requires i < |Crew()|
    requires WorkerIteration(p, i).Handed? ==> HasRoom(p, Crew()[i].giveQueue)
    ensures !WorkerIteration(p, i).Threw?
    ensures Healthy(WorkerStep(p, i))
    ensures Population(WorkerStep(p, i)) == Population(p)
    ensures forall q :: q != Crew()[i].takeQueue && q != Crew()[i].giveQueue ==>
      Queue(WorkerStep(p, i), q) == Queue(p, q)
    ensures Queue(p, Crew()[i].takeQueue) == [] ==> WorkerStep(p, i) == p
    ensures Queue(p, Crew()[i].takeQueue) != [] ==>
      && Queue(WorkerStep(p, i), Crew()[i].takeQueue) == Queue(p, Crew()[i].takeQueue)[1..]
      && Queue(WorkerStep(p, i), Crew()[i].giveQueue)
         == Queue(p, Crew()[i].giveQueue) + [Orange(Crew()[i].job)]
  {
    var w := Crew()[i];
    var take, give := Queue(p, w.takeQueue), Queue(p, w.giveQueue);
    RunOnceKeepsStages(w.job, take, give, Expected(w.takeQueue));
    var r := WorkerStep(p, i);
    if take != [] {
      assert |Queue(r, w.takeQueue)| + |Queue(r, w.giveQueue)| == |take| + |give|;
    }
  }

  /** On a healthy plant the control-loop iteration as written and the
      corrected one coincide: the done-queue sign never comes into play. */
  lemma ControlStepAsWrittenAgreesWhenHealthy(p: Plant)
    requires Healthy(p)
    requires HasRoom(p, PeelQueue)
    ensures ControlStepAsWritten(p) == ControlStep(p)
  {
    ControlStepKeepsHealthy(p);
    var p' := Deliver(p, NewOrange());
    assert Sorted(p') by {
      forall q ensures AllAt(Queue(p', q), Expected(q)) {
        if q != PeelQueue {
          assert Queue(p', q) == Queue(p, q);
        }
      }
    }
    InspectSortedIsIdentity(p');
  }

  /** The oranges a queue holds at some other state than the one expected. */
  function Misplaced(p: Plant, q: QueueId): nat {
    |Queue(p, q)| - multiset(Queue(p, q))[Orange(Expected(q))]
  }

  /** The corrected inspector's counter grows by exactly the number of
      oranges found at a wrong state, summed over the four queues. */
  lemma InspectCountsMisplaced(p: Plant)
    ensures Inspect(p).removed - p.removed
         == Misplaced(p, PeelQueue) + Misplaced(p, SqueezeQueue)
          + Misplaced(p, BottleQueue) + Misplaced(p, DoneQueue)
  {
    SweepCount(p.peel, Fetched);
    SweepCount(p.squeeze, Peeled);
    SweepCount(p.bottle, Squeezed);
    SweepCount(p.done, Bottled);
    assert Inspect(p).peel == Sweep(p.peel, Fetched);
    assert Inspect(p).squeeze == Sweep(p.squeeze, Peeled);
    assert Inspect(p).bottle == Sweep(p.bottle, Squeezed);
    assert Inspect(p).done == Sweep(p.done, Bottled);
  }

  /** A worker iteration that does not throw moves an orange between two
      queues, so it keeps every provided orange accounted for.  (One that
      throws loses the polled orange without counting it.) */
  lemma WorkerStepConserves(p: Plant, i: nat)
    requires i < |Crew()|
    requires WorkerIteration(p, i).Handed? ==> HasRoom(p, Crew()[i].giveQueue)
    requires Conserved(p)
    requires !WorkerIteration(p, i).Threw?
    ensures Conserved(WorkerStep(p, i))
  {
    var w := Crew()[i];
    var r := WorkerStep(p, i);
    if WorkerIteration(p, i).Handed? {
      assert Queue(r, w.takeQueue) == Queue(p, w.takeQueue)[1..];
      assert Queue(r, w.giveQueue) == Queue(p, w.giveQueue) + [Orange(w.job)];
    }
  }

  /** In a healthy plant the getters satisfy the conservation law: every
      orange provided has been processed or is still left in a queue, and
      none has been removed. */
  lemma GettersConserve(p: Plant)
    requires Healthy(p)
    ensures OrangesProvided(p)
         == OrangesProcessed(p) + OrangesLeftInQueue(p) + OrangesRemovedFromQueues(p)
    ensures OrangesRemovedFromQueues(p) == 0
  {
  }
}
