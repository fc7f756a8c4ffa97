/** The bookkeeping of one open unit of an execution session: how many of its
    encode tasks were delivered and returned, its first failure, and when it is
    sealed. `Unit` is the value the protocol reasons about; `OpenUnit` is the
    object whose methods run under the unit's own mutex. */
module Tracker {

  /** What one encode task answered. A task the session stopped is `Stopped`;
      only `Failed` is the work itself failing. */
  datatype Outcome = Ok | Stopped | Failed(code: int)

  datatype Unit = Unit(
    expected: nat, delivered: nat, completed: nat,
    failure: Outcome, ended: bool, sealed: bool)
  {
    function Seal(): Unit {
      if sealed || !ended || completed < delivered then this else this.(sealed := true)
    }

    function TaskDelivered(): Unit {
      this.(delivered := delivered + 1)
    }

    function EndDelivery(): Unit {
      this.(ended := true).Seal()
    }

    function TaskReturned(o: Outcome): Unit {
      this.(completed := completed + 1,
            failure := if failure == Ok then o else failure).Seal()
    }

    predicate Committable() {
      sealed && delivered == expected && failure == Ok
    }
  }

  function Opened(expected: nat): Unit {
    Unit(expected, 0, 0, Ok, false, false)
  }

  class OpenUnit {
    const expected: nat
    var delivered: nat
    var completed: nat
    var failure: Outcome
    var ended: bool
    var sealed: bool

    function View(): Unit
      reads this
    {
      Unit(expected, delivered, completed, failure, ended, sealed)
    }

    constructor (tasks: nat)
      ensures View() == Opened(tasks)
    {
      expected := tasks;
      delivered, completed := 0, 0;
      failure, ended, sealed := Ok, false, false;
    }

    method TaskDelivered()
      modifies this
      ensures View() == old(View()).TaskDelivered()
    {
      delivered := delivered + 1;
    }

    method EndDelivery()
      modifies this
      ensures View() == old(View()).EndDelivery()
    {
      ended := true;
      SealLocked();
    }

    method TaskReturned(o: Outcome)
      modifies this
      ensures View() == old(View()).TaskReturned(o)
    {
      completed := completed + 1;
      if o != Ok && failure == Ok {
        failure := o;
      }
      SealLocked();
    }

    method SealLocked()
      modifies this
      ensures View() == old(View()).Seal()
    {
      if sealed || !ended || completed < delivered {
        return;
      }
      sealed := true;
    }

    method Committable() returns (b: bool)
      ensures b == View().Committable()
    {
      b := sealed && delivered == expected && failure == Ok;
    }
  }

  /** The life of one unit as the pool drives it: tasks return in any order and
      at any time relative to the coordinator's counting. */
  datatype Event = Sent | Ended | Back(o: Outcome)

  function Play(u: Unit, es: seq<Event>): Unit {
    if es == [] then u
    else
      var v := Play(u, es[..|es| - 1]);
      match es[|es| - 1]
      case Sent => v.TaskDelivered()
      case Ended => v.EndDelivery()
      case Back(o) => v.TaskReturned(o)
  }

  function Returns(es: seq<Event>): seq<Outcome> {
    if es == [] then []
    else
      var rest := Returns(es[..|es| - 1]);
      match es[|es| - 1]
      case Back(o) => rest + [o]
      case _ => rest
  }

  function Deliveries(es: seq<Event>): nat {
    if es == [] then 0
    else Deliveries(es[..|es| - 1]) + (if es[|es| - 1] == Sent then 1 else 0)
  }

  function FirstError(os: seq<Outcome>): Outcome {
    if os == [] then Ok else if os[0] != Ok then os[0] else FirstError(os[1..])
  }

  lemma FirstErrorAppend(os: seq<Outcome>, o: Outcome)
    ensures FirstError(os + [o]) == if FirstError(os) == Ok then o else FirstError(os)
  {
    if os != [] {
      assert (os + [o])[1..] == os[1..] + [o];
    }
  }

  /** Whatever the interleaving, the counters are the counts of the events, the
      failure is the first one returned, and a unit that delivered nothing after
      its end is sealed exactly when everything delivered has returned. */
  lemma {:induction false} TrackerMeansItsEvents(tasks: nat, es: seq<Event>)
    requires forall i, j :: 0 <= i < j < |es| && es[i] == Ended ==> es[j] != Sent
    ensures var u := Play(Opened(tasks), es);
      && u.expected == tasks
      && u.delivered == Deliveries(es)
      && u.completed == |Returns(es)|
      && u.failure == FirstError(Returns(es))
      && (u.ended <==> Ended in es)
      && (u.sealed <==> Ended in es && |Returns(es)| >= Deliveries(es))
  {
    if es != [] {
      var init := es[..|es| - 1];
      TrackerMeansItsEvents(tasks, init);
      assert es == init + [es[|es| - 1]];
      match es[|es| - 1] {
        case Back(o) => FirstErrorAppend(Returns(init), o);
        case _ =>
      }
    }
  }
}
