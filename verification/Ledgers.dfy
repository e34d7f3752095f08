/** The expected position is a function of which executions were booked, and of
    nothing else: not the route they came by, nor their order, nor how often. */
module Ledgers {
  import opened Models
  import opened RiskCounters
  import opened LogView

  /** Signed quantities of the booked executions with ids below `n`. */
  function BookedSum(booked: map<ExecId, Execution>, n: nat): int {
    if n == 0 then 0
    else BookedSum(booked, n - 1) + (if n - 1 in booked then booked[n - 1].Signed() else 0)
  }

  lemma {:induction false} BookOneMore(booked: map<ExecId, Execution>, x: Execution, n: nat)
    requires x.id !in booked
    ensures BookedSum(booked[x.id := x], n) == BookedSum(booked, n) + (if x.id < n then x.Signed() else 0)
  {
    if n > 0 {
      BookOneMore(booked, x, n - 1);
    }
  }

  lemma {:induction false} NothingBooked(n: nat)
    ensures BookedSum(map[], n) == 0
  {
    if n > 0 {
      NothingBooked(n - 1);
    }
  }

  /** In a lawful log every id is booked once, so the running position is the sum
      over the distinct ids. */
  lemma {:induction false} ExpectedIsBookedSum(config: RiskConfig, log: seq<Record>, n: nat)
    requires Fold(config, log).lawful
    requires forall x :: x in Fold(config, log).ledger.booked ==> x < n
    ensures Fold(config, log).ledger.expected == BookedSum(Fold(config, log).ledger.booked, n)
  {
    if log == [] {
      NothingBooked(n);
    } else {
      var m := |log| - 1;
      PrefixFacts(config, log, m);
      ExpectedIsBookedSum(config, log[..m], n);
      if log[m].event.ExecutionReceived? {
        BookOneMore(Fold(config, log[..m]).ledger.booked, log[m].event.execution, n);
      }
    }
  }

  lemma {:induction false} BoundOf(ids: set<ExecId>) returns (n: nat)
    ensures forall x :: x in ids ==> x < n
    decreases |ids|
  {
    if ids == {} {
      n := 0;
    } else {
      var x :| x in ids;
      var rest := BoundOf(ids - {x});
      n := if x < rest then rest else x + 1;
      forall y | y in ids
        ensures y < n
      {
        assert y == x || y in ids - {x};
      }
    }
  }

  /** Two lawful histories that booked the same executions expect the same position,
      whatever else they went through. */
  lemma PositionIsRouteIndependent(config: RiskConfig, one: seq<Record>, two: seq<Record>)
    requires Fold(config, one).lawful && Fold(config, two).lawful
    requires Fold(config, one).ledger.booked == Fold(config, two).ledger.booked
    ensures Fold(config, one).ledger.expected == Fold(config, two).ledger.expected
  {
    var n := BoundOf(Fold(config, one).ledger.booked.Keys);
    ExpectedIsBookedSum(config, one, n);
    ExpectedIsBookedSum(config, two, n);
  }
}
