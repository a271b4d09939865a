/** The orange and its processing state machine (src/Orange.java).

    An orange is a value holding one `State`.  States are totally ordered by
    their enum ordinal, and `RunProcess` moves an orange exactly one step up
    that order, failing on an orange that is already `Processed`. */
module OrangeModel {
  import opened Wrappers

  /** The five processing states, in declaration (ordinal) order. */
  datatype State = Fetched | Peeled | Squeezed | Bottled | Processed

  /** The two `IllegalStateException`s of the source, one per throw site. */
  datatype Error =
    | AlreadyAtFinalState   // thrown by `State.getNext`
    | AlreadyProcessed      // thrown by `Orange.runProcess`

  /** `State.values()`: every state, indexed by its ordinal. */
  function Values(): seq<State> {
    [Fetched, Peeled, Squeezed, Bottled, Processed]
  }

  /** The ordinal of the last state (`finalIndex`). */
  const FinalIndex: nat := |Values()| - 1

  /** `State.ordinal()`: the position of `s` in `Values()`. */
  function Ordinal(s: State): (i: nat)
    ensures i <= FinalIndex
    ensures Values()[i] == s
  {
    match s
    case Fetched => 0
    case Peeled => 1
    case Squeezed => 2
    case Bottled => 3
    case Processed => 4
  }

  /** The order the pipeline moves oranges along. */
  predicate Before(a: State, b: State) {
    Ordinal(a) < Ordinal(b)
  }

  /** Simulated processing time of each state, in milliseconds.  The model
      attaches no behaviour to it; it only records the table. */
  function TimeToComplete(s: State): (ms: nat)
    ensures ms > 0
  {
    match s
    case Fetched => 15
    case Peeled => 38
    case Squeezed => 29
    case Bottled => 17
    case Processed => 1
  }

  /** `State.getNext`: the state with the next ordinal, or a failure when `s`
      is already at the final index. */
  function GetNext(s: State): (r: Result<State, Error>)
    ensures r.Success? <==> s != Processed
    ensures r.Failure? ==> r.error == AlreadyAtFinalState
    ensures r.Success? ==> Ordinal(r.value) == Ordinal(s) + 1
  {
    var i := Ordinal(s);
    if i >= FinalIndex then Failure(AlreadyAtFinalState) else Success(Values()[i + 1])
  }

  /** An orange: its only field is its current state (`getState`). */
  datatype Orange = Orange(state: State)

  /** `new Orange()`: a freshly fetched orange. */
  function NewOrange(): (o: Orange)
    ensures o.state == Fetched
    ensures Ordinal(o.state) == 0
  {
    Orange(Fetched)
  }

  /** `Orange.runProcess`: refuse a processed orange, otherwise advance it to
      the next state. */
  function RunProcess(o: Orange): (r: Result<Orange, Error>)
    ensures r.Success? <==> o.state != Processed
    ensures r.Failure? ==> r.error == AlreadyProcessed
    ensures r.Success? ==> Ordinal(r.value.state) == Ordinal(o.state) + 1
  {
    if o.state == Processed then
      Failure(AlreadyProcessed)
    else
      match GetNext(o.state)
      case Success(next) => Success(Orange(next))
      case Failure(e) => Failure(e)
  }

  /** The outcome of calling `runProcess` `n` times in a row on `o`, stopping
      at the first exception. */
  function Iterate(o: Orange, n: nat): (r: Result<Orange, Error>)
    ensures r.Success? ==> Ordinal(r.value.state) == Ordinal(o.state) + n
    ensures r.Failure? ==> r.error == AlreadyProcessed
    decreases n
  {
    if n == 0 then
      Success(o)
    else
      match Iterate(o, n - 1)
      case Failure(e) => Failure(e)
      case Success(o') => RunProcess(o')
  }

  /** `getNext` is the immediate successor in the state order: it is later,
      and no state lies strictly between the two. */
  lemma GetNextIsImmediateSuccessor(s: State)
    requires s != Processed
    ensures GetNext(s).Success?
    ensures Before(s, GetNext(s).value)
    ensures forall t :: !(Before(s, t) && Before(t, GetNext(s).value))
  {
  }

  /** Ordinals identify states: the enum has no two states at one index. */
  lemma OrdinalInjective(a: State, b: State)
    requires Ordinal(a) == Ordinal(b)
    ensures a == b
  {
  }

  /** `n` calls of `runProcess` succeed exactly when they do not run past
      `Processed`; they then reach the state `n` ordinals later, and the
      first call that would pass `Processed` is the one that throws. */
  lemma {:induction false} IterateClosedForm(o: Orange, n: nat)
    ensures Iterate(o, n).Success? <==> Ordinal(o.state) + n <= FinalIndex
    ensures Iterate(o, n).Success? ==>
      Iterate(o, n).value.state == Values()[Ordinal(o.state) + n]
    ensures Iterate(o, n).Failure? ==> Iterate(o, n).error == AlreadyProcessed
    decreases n
  {
    if n > 0 {
      IterateClosedForm(o, n - 1);
      match Iterate(o, n - 1)
      case Failure(_) =>
      case Success(o') =>
        assert Ordinal(o'.state) == Ordinal(o.state) + n - 1;
    }
  }

  /** A new orange goes through every state in order: after `k <= 4` calls of
      `runProcess` it is at ordinal `k`, four calls reach `Processed`, and the
      fifth call throws. */
  lemma NewOrangeLifecycle()
    ensures forall k: nat :: k <= FinalIndex ==>
      Iterate(NewOrange(), k) == Success(Orange(Values()[k]))
    ensures Iterate(NewOrange(), 4) == Success(Orange(Processed))
    ensures Iterate(NewOrange(), 5) == Failure(AlreadyProcessed)
  {
    forall k: nat | k <= FinalIndex
      ensures Iterate(NewOrange(), k) == Success(Orange(Values()[k]))
    {
      IterateClosedForm(NewOrange(), k);
    }
    IterateClosedForm(NewOrange(), 5);
  }
}
