/** The controller's replays of the log, each its own loop over the events, and each
    equal to the component of the fold it reads back. */
module Replays {
  import opened Wrappers
  import opened Models
  import opened RiskCounters
  import opened LogView

  method IntentsByRef(log: seq<Record>, ghost config: RiskConfig)
    returns (intents: map<Ref, OrderIntent>, acked: set<Ref>)
    ensures intents == Fold(config, log).orders.intents
    ensures acked == Fold(config, log).orders.acked
  {
    intents, acked := map[], {};
    for k := 0 to |log|
      invariant intents == Fold(config, log[..k]).orders.intents
      invariant acked == Fold(config, log[..k]).orders.acked
    {
      FoldNext(config, log, k);
      OrdersNext(Fold(config, log[..k]), log[k]);
      hide Fold, Apply;
      var e := log[k].event;
      if e.IntentCommitted? {
        intents := intents[e.intent.ref := e.intent];
      } else if e.BrokerAckReceived? {
        if e.ref in intents {
          acked := acked + {e.ref};
        }
      }
    }
    assert log[..|log|] == log;
  }

  /** An intent becomes broker-relevant with its send attempt, and stays so until a
      terminal event or a clean rejection. */
  method OpenIntentsByRef(log: seq<Record>, ghost config: RiskConfig) returns (open: map<Ref, OrderIntent>)
    ensures var ob := Fold(config, log).orders;
      open == map r | r in ob.open && r in ob.intents :: ob.intents[r]
  {
    var intents, _ := IntentsByRef(log, config);
    var openRefs: set<Ref> := {};
    for k := 0 to |log|
      invariant openRefs == Fold(config, log[..k]).orders.open
    {
      FoldNext(config, log, k);
      OrdersNext(Fold(config, log[..k]), log[k]);
      hide Fold, Apply;
      var e := log[k].event;
      if e.SendAttemptStarted? {
        openRefs := openRefs + {e.ref};
      } else if e.Terminal() || (e.SendCallFailed? && e.rejected) {
        openRefs := openRefs - {e.ref};
      }
    }
    assert log[..|log|] == log;
    open := map r | r in openRefs && r in intents :: intents[r];
  }

  /** Rebuilt from the log, not from memory. */
  method ExpectedPosition(log: seq<Record>, ghost config: RiskConfig) returns (position: int)
    ensures position == Fold(config, log).ledger.expected
  {
    position := 0;
    for k := 0 to |log|
      invariant position == Fold(config, log[..k]).ledger.expected
    {
      FoldNext(config, log, k);
      LedgerNext(Fold(config, log[..k]), log[k]);
      hide Fold, Apply;
      if log[k].event.ExecutionReceived? {
        position := position + log[k].event.execution.Signed();
      }
    }
    assert log[..|log|] == log;
  }

  method FilledFor(log: seq<Record>, r: Ref, ghost config: RiskConfig) returns (total: int)
    ensures total == FilledOf(Fold(config, log).ledger, r)
  {
    total := 0;
    for k := 0 to |log|
      invariant total == FilledOf(Fold(config, log[..k]).ledger, r)
    {
      FoldNext(config, log, k);
      LedgerNext(Fold(config, log[..k]), log[k]);
      hide Fold, Apply;
      var e := log[k].event;
      if e.ExecutionReceived? && e.execution.ref == r {
        total := total + e.execution.Filled();
      }
    }
    assert log[..|log|] == log;
  }

  method BookedExecutions(log: seq<Record>, ghost config: RiskConfig) returns (ids: set<ExecId>)
    ensures ids == Fold(config, log).ledger.booked.Keys
  {
    ids := {};
    for k := 0 to |log|
      invariant ids == Fold(config, log[..k]).ledger.booked.Keys
    {
      FoldNext(config, log, k);
      LedgerNext(Fold(config, log[..k]), log[k]);
      hide Fold, Apply;
      if log[k].event.ExecutionReceived? {
        ids := ids + {log[k].event.execution.id};
      }
    }
    assert log[..|log|] == log;
  }

  method LastExecution(log: seq<Record>, ghost config: RiskConfig) returns (ts: Option<Instant>)
    ensures ts == Fold(config, log).ledger.lastExec
  {
    ts := None;
    for k := 0 to |log|
      invariant ts == Fold(config, log[..k]).ledger.lastExec
    {
      FoldNext(config, log, k);
      LedgerNext(Fold(config, log[..k]), log[k]);
      hide Fold, Apply;
      if log[k].event.ExecutionReceived? {
        ts := Some(log[k].ts);
      }
    }
    assert log[..|log|] == log;
  }

  /** A flat position with a live order is still an overnight exposure. */
  method LastEodResidual(log: seq<Record>, ghost config: RiskConfig) returns (residual: int)
    ensures residual == Fold(config, log).gates.residual
  {
    residual := 0;
    for k := 0 to |log|
      invariant residual == Fold(config, log[..k]).gates.residual
    {
      FoldNext(config, log, k);
      LedgerNext(Fold(config, log[..k]), log[k]);
      hide Fold, Apply;
      match log[k].event
      case EodFlattenFailed(q, w) =>
        residual := if q != 0 then q else w;
      case EodFlattenCompleted =>
        residual := 0;
      case _ =>
    }
    assert log[..|log|] == log;
  }
}
