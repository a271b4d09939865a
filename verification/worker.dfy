/** A pipeline worker (src/Worker.java), without its thread.

    A worker is wired to a queue it takes oranges from, a queue it gives them
    to, and a `job`: the state it brings each orange to.  `ProcessOrange` is
    the inner loop of the source; `RunOnce` is one iteration of the outer
    `run` loop (poll, process, put) taken as a single atomic step. */
module WorkerModel {
  import opened Wrappers
  import opened OrangeModel

  /** The worker's constructor fields; `Q` names the queues it is wired to. */
  datatype Worker<Q> = Worker(takeQueue: Q, giveQueue: Q, job: State)

  /** What `processOrange(o)` leaves behind: the orange at `job` when it
      started no later than `job`; otherwise the loop runs the orange up to
      `Processed` and the next `runProcess` throws. */
  function ProcessOutcome(o: Orange, job: State): (r: Result<Orange, Error>)
    ensures r.Success? <==> !Before(job, o.state)
    ensures r.Success? ==> Iterate(o, Ordinal(job) - Ordinal(o.state)) == r
    ensures r.Failure? ==>
      && Iterate(o, FinalIndex - Ordinal(o.state)) == Success(Orange(Processed))
      && Iterate(o, FinalIndex - Ordinal(o.state) + 1) == r
  {
    IterateClosedForm(o, FinalIndex - Ordinal(o.state));
    IterateClosedForm(o, FinalIndex - Ordinal(o.state) + 1);
    if Ordinal(o.state) <= Ordinal(job) then
      IterateClosedForm(o, Ordinal(job) - Ordinal(o.state));
      Success(Orange(job))
    else
      Failure(AlreadyProcessed)
  }

  /** `Worker.processOrange`: call `runProcess` until the orange is at `job`.
      `calls` counts the calls of `runProcess` that returned normally. */
  method ProcessOrange(o: Orange, job: State) returns (r: Result<Orange, Error>, calls: nat)
    ensures r == ProcessOutcome(o, job)
    ensures o.state == job ==> r == Success(o) && calls == 0
    ensures Ordinal(o.state) <= Ordinal(job) ==> calls == Ordinal(job) - Ordinal(o.state)
    ensures Ordinal(o.state) > Ordinal(job) ==> calls == FinalIndex - Ordinal(o.state)
    ensures r.Success? ==> r.value.state == job && Iterate(o, calls) == r
    ensures r.Failure? ==>
      Iterate(o, calls) == Success(Orange(Processed)) && Iterate(o, calls + 1) == r
  {
    var cur := o;
    calls := 0;
    while cur.state != job
      invariant Iterate(o, calls) == Success(cur)
      invariant Ordinal(cur.state) == Ordinal(o.state) + calls
      invariant Ordinal(o.state) <= Ordinal(job) ==> Ordinal(cur.state) <= Ordinal(job)
      decreases FinalIndex - Ordinal(cur.state)
    {
      var next := RunProcess(cur);
      if next.Failure? {
        OrdinalInjective(cur.state, Processed);
        return next, calls;
      }
      cur := next.value;
      calls := calls + 1;
    }
    OrdinalInjective(cur.state, job);
    r := Success(cur);
  }

  /** The result of one iteration of the `run` loop. */
  datatype Iteration =
    | Idle                                          // the poll timed out
    | Handed(take: seq<Orange>, give: seq<Orange>)  // processed and put
    | Threw(take: seq<Orange>, error: Error)        // processOrange threw

  /** One iteration of `Worker.run`: poll the head of `take`; if there is
      one, process it up to `job` and put it at the end of `give`. */
  function RunOnce(job: State, take: seq<Orange>, give: seq<Orange>): (r: Iteration)
    ensures r.Idle? <==> take == []
    ensures r.Threw? <==> take != [] && Before(job, take[0].state)
    ensures !r.Idle? ==> r.take == take[1..]
    ensures r.Handed? ==> r.give == give + [Orange(job)]
    ensures r.Threw? ==> r.error == AlreadyProcessed
    ensures r.Handed? ==> |r.take| + |r.give| == |take| + |give|
  {
    if take == [] then
      Idle
    else
      match ProcessOutcome(take[0], job)
      case Success(o) => Handed(take[1..], give + [o])
      case Failure(e) => Threw(take[1..], e)
  }

  /** Every orange in `q` is at state `s`. */
  predicate AllAt(q: seq<Orange>, s: State) {
    forall i :: 0 <= i < |q| ==> q[i].state == s
  }

  /** A worker whose `job` is the successor of what its take queue holds
      keeps both queues uniform: the take queue keeps its state, the give
      queue receives only oranges at `job`, and the iteration never throws. */
  lemma RunOnceKeepsStages(job: State, take: seq<Orange>, give: seq<Orange>, pre: State)
    requires GetNext(pre) == Success(job)
    requires AllAt(take, pre) && AllAt(give, job)
    ensures !RunOnce(job, take, give).Threw?
    ensures RunOnce(job, take, give).Handed? ==>
      AllAt(RunOnce(job, take, give).take, pre) && AllAt(RunOnce(job, take, give).give, job)
  {
  }
}
