/** One juice plant (src/Plant.java), without its threads.

    The plant owns four FIFO queues of oranges and two counters.  Its control
    loop provides a fresh orange to the peel queue and then runs the line
    inspector; each worker of the fixed crew moves oranges one stage along.
    Every thread step is modelled as one atomic transition of `Plant`. */
module PlantModel {
  import opened Wrappers
  import opened OrangeModel
  import opened Queues
  import opened WorkerModel

  const OrangesPerBottle: nat := 3
  const NumPeelers: nat := 6
  const NumSqueezers: nat := 4
  const NumBottlers: nat := 3
  const TotalWorkers: nat := NumPeelers + NumSqueezers + NumBottlers
  /** Capacity of each of the three bounded stage queues. */
  const StageCapacity: nat := 10

  datatype QueueId = PeelQueue | SqueezeQueue | BottleQueue | DoneQueue

  /** The state the line inspector expects every orange in `q` to be at. */
  function Expected(q: QueueId): State {
    match q
    case PeelQueue => Fetched
    case SqueezeQueue => Peeled
    case BottleQueue => Squeezed
    case DoneQueue => Bottled
  }

  /** The capacity a queue was created with; the done queue is unbounded. */
  function Capacity(q: QueueId): Option<nat> {
    if q == DoneQueue then None else Some(StageCapacity)
  }

  datatype Plant = Plant(
    peel: seq<Orange>,
    squeeze: seq<Orange>,
    bottle: seq<Orange>,
    done: seq<Orange>,
    provided: int,   // orangesProvided
    removed: int     // orangesRemovedFromQueues
  )

  function Queue(p: Plant, q: QueueId): seq<Orange> {
    match q
    case PeelQueue => p.peel
    case SqueezeQueue => p.squeeze
    case BottleQueue => p.bottle
    case DoneQueue => p.done
  }

  /** `p` with the contents of queue `q` replaced. */
  function WithQueue(p: Plant, q: QueueId, items: seq<Orange>): (r: Plant)
    ensures Queue(r, q) == items
    ensures forall q' :: q' != q ==> Queue(r, q') == Queue(p, q')
    ensures r.provided == p.provided && r.removed == p.removed
  {
    match q
    case PeelQueue => p.(peel := items)
    case SqueezeQueue => p.(squeeze := items)
    case BottleQueue => p.(bottle := items)
    case DoneQueue => p.(done := items)
  }

  /** Whether a `put` onto `q` can complete without blocking. */
  predicate HasRoom(p: Plant, q: QueueId) {
    Capacity(q).None? || |Queue(p, q)| < Capacity(q).value
  }

  /** The constructor's worker array: peelers, then squeezers, then bottlers. */
  function Crew(): (c: seq<Worker<QueueId>>)
    ensures |c| == TotalWorkers
    ensures forall i :: 0 <= i < |c| ==>
      && c[i].job == Expected(c[i].giveQueue)
      && GetNext(Expected(c[i].takeQueue)) == Success(c[i].job)
      && c[i].takeQueue != c[i].giveQueue
  {
    seq(NumPeelers, _ => Worker(PeelQueue, SqueezeQueue, Peeled))
    + seq(NumSqueezers, _ => Worker(SqueezeQueue, BottleQueue, Squeezed))
    + seq(NumBottlers, _ => Worker(BottleQueue, DoneQueue, Bottled))
  }

  /** `new Plant(n)`: empty queues and zeroed counters. */
  function NewPlant(): (p: Plant)
    ensures forall q :: Queue(p, q) == []
    ensures p.provided == 0 && p.removed == 0
  {
    Plant([], [], [], [], 0, 0)
  }

  // ---------------------------------------------------------------------
  // Producer half of the control loop

  /** `distributeOrange`: put a `Fetched` orange at the end of the peel
      queue and report success; refuse any other orange.  The `put` blocks
      while the queue is full, so the step is enabled only when there is room. */
  function Distribute(p: Plant, o: Orange): (r: (bool, Plant))
    requires o.state == Fetched ==> HasRoom(p, PeelQueue)
    ensures r.0 <==> o.state == Fetched
    ensures r.0 ==> r.1 == p.(peel := p.peel + [o])
    ensures !r.0 ==> r.1 == p
  {
    if o.state != Fetched then (false, p) else (true, p.(peel := p.peel + [o]))
  }

  /** The statement `if (distributeOrange(o)) orangesProvided++`. */
  function Deliver(p: Plant, o: Orange): (r: Plant)
    requires o.state == Fetched ==> HasRoom(p, PeelQueue)
    ensures r.provided - p.provided == |r.peel| - |p.peel|
    ensures r.provided - p.provided == (if o.state == Fetched then 1 else 0)
    ensures r.peel == if o.state == Fetched then p.peel + [o] else p.peel
    ensures r.squeeze == p.squeeze && r.bottle == p.bottle && r.done == p.done
    ensures r.removed == p.removed
  {
    var (accepted, p') := Distribute(p, o);
    if accepted then p'.(provided := p'.provided + 1) else p'
  }

  // ---------------------------------------------------------------------
  // Line inspector

  /** The predicate handed to `removeIf` for a queue expecting `expected`. */
  function WrongState(expected: State): Orange -> bool {
    (o: Orange) => o.state != expected
  }

  /** One queue after the inspector's `removeIf`. */
  function Sweep(q: seq<Orange>, expected: State): (r: seq<Orange>)
    ensures AllAt(r, expected)
    ensures forall o :: o in r <==> o in q && o.state == expected
    ensures |r| <= |q|
  {
    RemoveIf(q, WrongState(expected))
  }

  /** A sweep keeps every orange at the expected state, however many copies
      of it the queue holds, and nothing else. */
  lemma SweepCount(q: seq<Orange>, expected: State)
    ensures |Sweep(q, expected)| == multiset(q)[Orange(expected)]
  {
    UniformCount(Sweep(q, expected), expected);
    RemoveIfCount(q, WrongState(expected), Orange(expected));
  }

  /** A queue of oranges all at `s` holds `|q|` copies of `Orange(s)`. */
  lemma {:induction false} UniformCount(q: seq<Orange>, s: State)
    requires AllAt(q, s)
    ensures multiset(q)[Orange(s)] == |q|
    decreases |q|
  {
    if |q| > 0 {
      UniformCount(q[1..], s);
      assert q == [q[0]] + q[1..];
    }
  }

  /** `if (removedFromQueue) counter += before.size() - after.size()`, where
      `removeIf` reported a removal exactly when the queue shrank. */
  function Tally(counter: int, before: seq<Orange>, after: seq<Orange>): (r: int)
    requires |after| <= |before|
    ensures r - counter == |before| - |after|
  {
    if |after| < |before| then counter + (|before| - |after|) else counter
  }

  /** Total number of oranges sitting in the four queues. */
  function Population(p: Plant): nat {
    |p.peel| + |p.squeeze| + |p.bottle| + |p.done|
  }

  /** The four `removeIf` calls of `checkQueues`, counters untouched. */
  function Swept(p: Plant): (r: Plant)
    ensures forall q :: Queue(r, q) == Sweep(Queue(p, q), Expected(q))
    ensures r.provided == p.provided && r.removed == p.removed
  {
    Plant(Sweep(p.peel, Expected(PeelQueue)), Sweep(p.squeeze, Expected(SqueezeQueue)),
          Sweep(p.bottle, Expected(BottleQueue)), Sweep(p.done, Expected(DoneQueue)),
          p.provided, p.removed)
  }

  /** `checkQueues` exactly as written: the done-queue branch adds
      `doneQueue.size() - qSize`, the opposite sign of the other three. */
  function InspectAsWritten(p: Plant): (r: Plant)
    ensures forall q :: Queue(r, q) == Sweep(Queue(p, q), Expected(q))
    ensures forall q :: AllAt(Queue(r, q), Expected(q))
    ensures r.provided == p.provided
    ensures r.removed - p.removed
         == (|p.peel| + |p.squeeze| + |p.bottle| - |r.peel| - |r.squeeze| - |r.bottle|)
          - (|p.done| - |r.done|)
  {
    var s := Swept(p);
    var c1 := Tally(p.removed, p.peel, s.peel);
    var c2 := Tally(c1, p.squeeze, s.squeeze);
    var c3 := Tally(c2, p.bottle, s.bottle);
    var c4 := if |s.done| < |p.done| then c3 + (|s.done| - |p.done|) else c3;
    s.(removed := c4)
  }

  /** `checkQueues` with the done-queue branch counting its removals the same
      way as the other three: every orange that leaves a queue is counted. */
  function Inspect(p: Plant): (r: Plant)
    ensures forall q :: Queue(r, q) == Sweep(Queue(p, q), Expected(q))
    ensures forall q :: AllAt(Queue(r, q), Expected(q))
    ensures forall q, o :: o in Queue(r, q) <==> o in Queue(p, q) && o.state == Expected(q)
    ensures r.provided == p.provided
    ensures r.removed - p.removed == Population(p) - Population(r)
  {
    var s := Swept(p);
    var c1 := Tally(p.removed, p.peel, s.peel);
    var c2 := Tally(c1, p.squeeze, s.squeeze);
    var c3 := Tally(c2, p.bottle, s.bottle);
    var c4 := Tally(c3, p.done, s.done);
    s.(removed := c4)
  }

  /** One iteration of `Plant.run` exactly as written: provide a new orange,
      then run `checkQueues` with its done-queue sign. */
  function ControlStepAsWritten(p: Plant): (r: Plant)
    requires HasRoom(p, PeelQueue)
    ensures r.provided == p.provided + 1
    ensures r.(removed := 0) == ControlStep(p).(removed := 0)
    ensures r.removed == ControlStep(p).removed - 2 * (|p.done| - |r.done|)
  {
    InspectAsWritten(Deliver(p, NewOrange()))
  }

  /** One iteration of `Plant.run` with the corrected inspector: provide a new
      orange, then inspect, counting every eviction as a removal. */
  function ControlStep(p: Plant): (r: Plant)
    requires HasRoom(p, PeelQueue)
    ensures r.provided == p.provided + 1
    ensures r.removed - p.removed == Population(p) + 1 - Population(r)
    ensures r.peel == Sweep(p.peel, Fetched) + [NewOrange()]
    ensures forall q :: q != PeelQueue ==> Queue(r, q) == Sweep(Queue(p, q), Expected(q))
    ensures forall q :: AllAt(Queue(r, q), Expected(q))
  {
    RemoveIfAppend(p.peel, [NewOrange()], WrongState(Fetched));
    RemoveIfNone([NewOrange()], WrongState(Fetched));
    Inspect(Deliver(p, NewOrange()))
  }

  // ---------------------------------------------------------------------
  // Workers

  /** What one iteration of the `run` loop of crew member `i` does to the
      two queues it is wired to. */
  function WorkerIteration(p: Plant, i: nat): Iteration
    requires i < |Crew()|
  {
    RunOnce(Crew()[i].job, Queue(p, Crew()[i].takeQueue), Queue(p, Crew()[i].giveQueue))
  }

  /** One iteration of the `run` loop of crew member `i`, as an atomic step.
      Only an iteration that reaches `put` needs room in the give queue. */
  function WorkerStep(p: Plant, i: nat): (r: Plant)
    requires i < |Crew()|
    requires WorkerIteration(p, i).Handed? ==> HasRoom(p, Crew()[i].giveQueue)
    ensures r.provided == p.provided && r.removed == p.removed
    ensures forall q :: q != Crew()[i].takeQueue && q != Crew()[i].giveQueue ==>
      Queue(r, q) == Queue(p, q)
    ensures WorkerIteration(p, i).Idle? <==> Queue(p, Crew()[i].takeQueue) == []
    ensures WorkerIteration(p, i).Idle? ==> r == p
    ensures !WorkerIteration(p, i).Idle? ==>
      Queue(r, Crew()[i].takeQueue) == Queue(p, Crew()[i].takeQueue)[1..]
    ensures WorkerIteration(p, i).Handed? ==>
      Queue(r, Crew()[i].giveQueue) == Queue(p, Crew()[i].giveQueue) + [Orange(Crew()[i].job)]
    ensures WorkerIteration(p, i).Threw? ==>
      Queue(r, Crew()[i].giveQueue) == Queue(p, Crew()[i].giveQueue)
  {
    var w := Crew()[i];
    match WorkerIteration(p, i)
    case Idle => p
    case Handed(take, give) => WithQueue(WithQueue(p, w.takeQueue, take), w.giveQueue, give)
    case Threw(take, _) => WithQueue(p, w.takeQueue, take)
  }

  // ---------------------------------------------------------------------
  // Statistics getters

  function OrangesProvided(p: Plant): (n: int)
    ensures n == p.provided
  {
    p.provided
  }

  function OrangesProcessed(p: Plant): (n: nat)
    ensures n == |Queue(p, DoneQueue)|
  {
    |p.done|
  }

  /** Number of full bottles: whole groups of three in the done queue. */
  function OrangesBottled(p: Plant): (n: nat)
    ensures n * OrangesPerBottle <= OrangesProcessed(p) < (n + 1) * OrangesPerBottle
  {
    |p.done| / OrangesPerBottle
  }

  /** Oranges in the done queue that do not fill a bottle. */
  function OrangesNotBottled(p: Plant): (n: nat)
    ensures n < OrangesPerBottle
    ensures OrangesBottled(p) * OrangesPerBottle + n == OrangesProcessed(p)
  {
    |p.done| % OrangesPerBottle
  }

  /** Oranges still in the three stage queues: everything queued but done. */
  function OrangesLeftInQueue(p: Plant): (n: nat)
    ensures n + OrangesProcessed(p) == Population(p)
  {
    |p.peel| + |p.squeeze| + |p.bottle|
  }

  function OrangesRemovedFromQueues(p: Plant): (n: int)
    ensures n == p.removed
  {
    p.removed
  }

  /** The remainder that fills no bottle, plus leftovers, plus removals. */
  function OrangesWasted(p: Plant): (n: int)
    ensures n == OrangesNotBottled(p) + OrangesLeftInQueue(p) + OrangesRemovedFromQueues(p)
  {
    |p.done| % OrangesPerBottle + OrangesLeftInQueue(p) + OrangesRemovedFromQueues(p)
  }
}
