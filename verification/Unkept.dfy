/** For each of the three other rules the controller does not always keep, a log in
    its own record order on which the offline audit reports a send. */
module Unkept {
  import opened Wrappers
  import opened Models
  import opened RiskCounters
  import opened LogView
  import opened Risk
  import opened Sending
  import opened Decisions
  import opened Alarms
  import opened Auditor
  import opened Midnight

  // ---- one order, up to its send attempt --------------------------------------------

  /** At rest, trusted, and with the whole allowance of the day left. */
  predicate MayLaunch(v: View, i: OrderIntent, t: Instant) {
    && v.config == SLOW && InTime(v, t)
    && v.orders.open == {} && v.orders.working == {} && !v.orders.unsettled
    && v.gates.proven && !v.gates.stopDue && !v.gates.armed
    && v.gates.link.CONNECTED? && v.gates.sync.SYNCED? && v.gates.reconciled && v.gates.mode.NORMAL?
    && i.ref !in v.orders.intents && i.ref !in v.orders.attempted
    && i.quantity == 1 && i.limitPrice == Some(PRICE) && t < i.validUntil
    && Roll(v.counters, t) == FRESH.(day := Some(UtcDay(t)))
  }

  function Launched(v: View, i: OrderIntent, t: Instant): View {
    After(v, t, v.gates).(
      orders := v.orders.(intents := v.orders.intents[i.ref := i], attempted := v.orders.attempted + {i.ref},
                          open := {i.ref}, liveSend := Some(i.ref)),
      counters := Count(v.counters, t, 1, PRICE),
      watch := Watch(v.watch.pending + {i.ref}, false, false), count := v.count + 4)
  }

  function Launch(i: OrderIntent, t: Instant): seq<Record> {
    Stamped(t, LaunchNotes(i))
  }

  /** The intent is durable, not yet attempted. */
  function Intended(v: View, i: OrderIntent, t: Instant): View {
    After(v, t, v.gates).(orders := v.orders.(intents := v.orders.intents[i.ref := i]), count := v.count + 2)
  }

  lemma {:induction false} IntentIsLawful(log: seq<Record>, v: View, i: OrderIntent, t: Instant)
    requires Fold(SLOW, log) == v && MayLaunch(v, i, t)
    ensures Fold(SLOW, log + Stamped(t, [IntentCommitted(i), OrderStateChanged(INTENT_COMMITTED)])) == Intended(v, i, t)
  {
    var v1 := After(v, t, v.gates).(orders := v.orders.(intents := v.orders.intents[i.ref := i]));
    OtherRecord(log, v, v1, t, IntentCommitted(i));
    hide Fold, Apply;
    var l1 := log + [Record(t, IntentCommitted(i))];
    SilentRecord(l1, v1, t, OrderStateChanged(INTENT_COMMITTED));
    assert l1 + [Record(t, OrderStateChanged(INTENT_COMMITTED))]
        == log + Stamped(t, [IntentCommitted(i), OrderStateChanged(INTENT_COMMITTED)]);
  }

  lemma {:induction false} LaunchIsLawful(log: seq<Record>, v: View, i: OrderIntent, t: Instant)
    requires Fold(SLOW, log) == v && MayLaunch(v, i, t)
    ensures Fold(SLOW, log + Launch(i, t)) == Launched(v, i, t) && Launched(v, i, t).lawful
  {
    IntentIsLawful(log, v, i, t);
    var l2, v2 := log + Stamped(t, [IntentCommitted(i), OrderStateChanged(INTENT_COMMITTED)]), Intended(v, i, t);
    var v3 := Launched(v, i, t).(count := v2.count + 1);
    OtherRecord(l2, v2, v3, t, SendEvent(i));
    hide Fold, Apply;
    var l3 := l2 + [Record(t, SendEvent(i))];
    SilentRecord(l3, v3, t, OrderStateChanged(PENDING_ACK));
    assert l3 + [Record(t, OrderStateChanged(PENDING_ACK))] == log + Launch(i, t);
  }

  function Arrival(r: Ref): seq<Record> {
    [Record(ArrivalOf(r), TargetReceived(Strategy(r), 1))]
  }

  function Arrived(v: View, r: Ref): View {
    After(v, ArrivalOf(r), v.gates).(decisions := v.decisions + {Strategy(r)})
  }

  lemma {:induction false} ArrivalIsLawful(log: seq<Record>, v: View, r: Ref)
    requires Fold(SLOW, log) == v && InTime(v, ArrivalOf(r)) && Strategy(r) !in v.decisions
    ensures Fold(SLOW, log + Arrival(r)) == Arrived(v, r)
  {
    OtherRecord(log, v, Arrived(v, r), ArrivalOf(r), TargetReceived(Strategy(r), 1));
  }

  /** A check with something to say of one record is not silent. */
  lemma IsReported(check: Check, log: seq<Record>, j: nat)
    requires j < |log| && Verdict(check, Fold(SLOW, log[..j]), log[j]) != []
    ensures Findings(check, SLOW, log) != []
  {
    SilentIff(check, SLOW, log);
  }

  lemma {:induction false} BeforeSend(log: seq<Record>, v: View, i: OrderIntent, t: Instant)
    requires Fold(SLOW, log) == v && MayLaunch(v, i, t)
    ensures var longer := log + Launch(i, t);
      && longer[|log| + 2].event == SendEvent(i)
      && Fold(SLOW, longer[..|log| + 2]) == Intended(v, i, t)
  {
    assert (log + Launch(i, t))[..|log| + 2] == log + Stamped(t, [IntentCommitted(i), OrderStateChanged(INTENT_COMMITTED)]);
    IntentIsLawful(log, v, i, t);
  }

  /** A send with something to say about it. */
  lemma {:induction false} SendIsReported(check: Check, log: seq<Record>, v: View, i: OrderIntent, t: Instant)
    requires Fold(SLOW, log) == v && MayLaunch(v, i, t)
    requires Verdict(check, Intended(v, i, t), Record(t, SendEvent(i))) != []
    ensures var longer := log + Launch(i, t);
      Fold(SLOW, longer).lawful && Findings(check, SLOW, longer) != []
  {
    hide Fold, Verdict, Findings, MayLaunch;
    LaunchIsLawful(log, v, i, t);
    BeforeSend(log, v, i, t);
    var longer := log + Launch(i, t);
    assert longer[|log| + 2] == Record(t, SendEvent(i));
    IsReported(check, longer, |log| + 2);
  }

  // ---- 14: the process dies between the fact and its HALT ---------------------------

  /** A fact nobody can explain, and a new process that finds nothing of it. */
  function FactLost(): seq<Record> {
    Boot() + [Record(BOOTED, ExternalOrderDetected)] + Boot() + Arrival(0) + Launch(Order(0), ArrivalOf(0))
  }

  lemma LostFactIsReported()
    ensures Fold(SLOW, FactLost()).lawful
    ensures Findings(Halted(FACT), SLOW, FactLost()) != [] && !Answered(FACT, FactLost())
  {
    var l1 := Boot() + [Record(BOOTED, ExternalOrderDetected)];
    var l2 := l1 + Boot();
    var l3 := l2 + Arrival(0);
    assert FactLost() == l3 + Launch(Order(0), ArrivalOf(0));
    hide Fold, Boot, Launch, Arrival, FactLost, Findings, Answered, MayLaunch, Intended;
    var v := Midnight.Ready(map[], {}, FRESH, 9, BOOTED);
    BootIsReady();
    FactIsLawful(Boot(), v);
    BootingIsLawful(l1, WithFact(v));
    ArrivalIsLawful(l2, Booted(WithFact(v)), 0);
    var w := Arrived(Booted(WithFact(v)), 0);
    RebootedMayLaunch(w);
    SendIsReported(Halted(FACT), l3, w, Order(0), ArrivalOf(0));
    HaltedIff(FACT, SLOW, FactLost());
  }

  lemma RebootedMayLaunch(w: View)
    requires w == Arrived(Booted(WithFact(Midnight.Ready(map[], {}, FRESH, 9, BOOTED))), 0)
    ensures MayLaunch(w, Order(0), ArrivalOf(0))
    ensures Verdict(Halted(FACT), Intended(w, Order(0), ArrivalOf(0)), Record(ArrivalOf(0), SendEvent(Order(0)))) != []
  {
  }

  function WithFact(v: View): View {
    After(v, BOOTED, v.gates.(stopDue := true)).(watch := v.watch.(fact := true))
  }

  lemma {:induction false} FactIsLawful(log: seq<Record>, v: View)
    requires Fold(SLOW, log) == v && InTime(v, BOOTED)
    ensures Fold(SLOW, log + [Record(BOOTED, ExternalOrderDetected)]) == WithFact(v)
  {
    OtherRecord(log, v, WithFact(v), BOOTED, ExternalOrderDetected);
  }

  // ---- 4: the broker's first word is a rejection --------------------------------------

  /** The call returned, and then the broker rejected the order it never acknowledged. */
  function RejectedLate(): seq<Record> {
    Stamped(ArrivalOf(0), [SendCallReturned(0), OrderRejected(0), OrderStateChanged(IDLE),
                           DecisionMissed(Strategy(0), BROKER_REJECTED)])
  }

  function RefusedFirst(): seq<Record> {
    Boot() + Arrival(0) + Launch(Order(0), ArrivalOf(0)) + RejectedLate() + Arrival(1) + Launch(Order(1), ArrivalOf(1))
  }

  lemma RefusedFirstIsReported()
    ensures Fold(SLOW, RefusedFirst()).lawful
    ensures Findings(NothingAwaited, SLOW, RefusedFirst()) != [] && !HeardOut(RefusedFirst())
  {
    var l2 := Boot() + Arrival(0) + Launch(Order(0), ArrivalOf(0));
    var l3 := l2 + RejectedLate();
    var l4 := l3 + Arrival(1);
    assert RefusedFirst() == l4 + Launch(Order(1), ArrivalOf(1));
    hide Fold, Boot, Launch, Arrival, RejectedLate, RefusedFirst, Findings, HeardOut, MayLaunch, Intended;
    var v := FirstLaunched();
    FirstIsLaunched();
    RejectionIsLawful(l2, v);
    ArrivalIsLawful(l3, WithRejection(v), 1);
    var w := Arrived(WithRejection(v), 1);
    SecondMayLaunch(w);
    SendIsReported(NothingAwaited, l4, w, Order(1), ArrivalOf(1));
    NothingAwaitedIff(SLOW, RefusedFirst());
  }

  function WithRejection(v: View): View {
    After(v, ArrivalOf(0), v.gates).(orders := v.orders.(open := {}, liveSend := None), count := v.count + 4)
  }

  lemma SecondMayLaunch(w: View)
    requires w == Arrived(WithRejection(FirstLaunched()), 1)
    ensures MayLaunch(w, Order(1), ArrivalOf(1))
    ensures Verdict(NothingAwaited, Intended(w, Order(1), ArrivalOf(1)), Record(ArrivalOf(1), SendEvent(Order(1)))) != []
  {
  }

  lemma {:induction false} RejectionIsLawful(log: seq<Record>, v: View)
    requires Fold(SLOW, log) == v && InTime(v, ArrivalOf(0)) && v.orders.open == {0} && 0 in v.orders.intents
    requires v.orders.working == {} && v.orders.cancelling == {}
    ensures Fold(SLOW, log + RejectedLate()) == WithRejection(v)
  {
    var t := ArrivalOf(0);
    var v2 := After(After(v, t, v.gates), t, v.gates).(orders := v.orders.(open := {}, liveSend := None));
    SilentRecord(log, v, t, SendCallReturned(0));
    var l1, v1 := log + [Record(t, SendCallReturned(0))], After(v, t, v.gates);
    OtherRecord(l1, v1, v2, t, OrderRejected(0));
    hide Fold, Apply;
    var l2 := l1 + [Record(t, OrderRejected(0))];
    SilentRecord(l2, v2, t, OrderStateChanged(IDLE));
    var l3, v3 := l2 + [Record(t, OrderStateChanged(IDLE))], After(v2, t, v2.gates);
    SilentRecord(l3, v3, t, DecisionMissed(Strategy(0), BROKER_REJECTED));
    assert l3 + [Record(t, DecisionMissed(Strategy(0), BROKER_REJECTED))] == log + RejectedLate();
  }

  // ---- 18: a cancel call that raises calls for no HALT ---------------------------------

  const RETRY: Instant := ArrivalOf(0) + 20

  /** The same decision, sized again once its first order is gone. */
  function Again(): OrderIntent {
    Order(0).(ref := 1)
  }

  /** Acknowledged and working. */
  function Worked(): seq<Record> {
    Stamped(RETRY, [SendCallReturned(0), BrokerAckReceived(0), OrderWorking(0), OrderStateChanged(WORKING)])
  }

  /** Late, and asked to cancel; the call raises. */
  function CancelRaises(): seq<Record> {
    Stamped(RETRY, [RepriceTriggered(0), CancelRequested(0, REPRICE_TIMEOUT), OrderStateChanged(PENDING_CANCEL),
                    CallbackFailure(true), OrderStateChanged(TERMINAL_UNRECONCILED), SyncStateChanged(UNVERIFIED)])
  }

  /** The broker reports nothing of it any more. */
  function Reconciled(): seq<Record> {
    Stamped(RETRY, [ReconciliationStarted, SyncStateChanged(SYNCING), OrderAbsentConfirmed(0), OrderStateChanged(IDLE),
                    ReconciliationCompleted, SyncStateChanged(SYNCED)])
  }

  function SendAgain(): seq<Record> {
    Boot() + Arrival(0) + Launch(Order(0), ArrivalOf(0)) + Worked() + CancelRaises() + Reconciled() + Launch(Again(), RETRY)
  }

  lemma RaisedCancelIsReported()
    ensures Fold(SLOW, SendAgain()).lawful
    ensures Findings(Halted(FAILURE), SLOW, SendAgain()) != [] && !Answered(FAILURE, SendAgain())
  {
    var l2 := Boot() + Arrival(0) + Launch(Order(0), ArrivalOf(0));
    var l3 := l2 + Worked();
    var l4 := l3 + CancelRaises();
    var l5 := l4 + Reconciled();
    assert SendAgain() == l5 + Launch(Again(), RETRY);
    hide Fold, Boot, Launch, Arrival, Worked, CancelRaises, Reconciled, SendAgain, Findings, Answered, MayLaunch, Intended;
    var v := FirstLaunched();
    FirstIsLaunched();
    WorkedIsLawful(l2, v);
    RaiseIsLawful(l3, WithWorking(v));
    ReconciledIsLawful(l4, WithRaise(WithWorking(v)));
    var w := WithReconciled(WithRaise(WithWorking(v)));
    AgainMayLaunch(w);
    SendIsReported(Halted(FAILURE), l5, w, Again(), RETRY);
    HaltedIff(FAILURE, SLOW, SendAgain());
  }

  /** The first order under way. */
  function FirstLaunched(): View {
    Launched(Arrived(Midnight.Ready(map[], {}, FRESH, 9, BOOTED), 0), Order(0), ArrivalOf(0))
  }

  lemma FirstIsLaunched()
    ensures Fold(SLOW, Boot() + Arrival(0) + Launch(Order(0), ArrivalOf(0))) == FirstLaunched()
  {
    hide Fold, Boot, Launch, Arrival, Order;
    BootIsReady();
    ArrivalIsLawful(Boot(), Fold(SLOW, Boot()), 0);
    FirstMayLaunch();
    LaunchIsLawful(Boot() + Arrival(0), Arrived(Midnight.Ready(map[], {}, FRESH, 9, BOOTED), 0), Order(0), ArrivalOf(0));
  }

  lemma FirstMayLaunch()
    ensures MayLaunch(Arrived(Midnight.Ready(map[], {}, FRESH, 9, BOOTED), 0), Order(0), ArrivalOf(0))
  {
  }

  function WithWorking(v: View): View {
    After(v, RETRY, v.gates).(
      orders := v.orders.(acked := v.orders.acked + {0}, working := v.orders.working + {0}),
      watch := v.watch.(pending := v.watch.pending - {0}), count := v.count + 4)
  }

  lemma {:induction false} WorkedIsLawful(log: seq<Record>, v: View)
    requires Fold(SLOW, log) == v && InTime(v, RETRY) && v.orders.open == {0} && 0 in v.orders.intents
    ensures Fold(SLOW, log + Worked()) == WithWorking(v)
  {
    SilentRecord(log, v, RETRY, SendCallReturned(0));
    var l1, v1 := log + [Record(RETRY, SendCallReturned(0))], After(v, RETRY, v.gates);
    var v2 := After(v1, RETRY, v.gates).(orders := v.orders.(acked := v.orders.acked + {0}),
                                         watch := v.watch.(pending := v.watch.pending - {0}));
    OtherRecord(l1, v1, v2, RETRY, BrokerAckReceived(0));
    var l2 := l1 + [Record(RETRY, BrokerAckReceived(0))];
    var v3 := WithWorking(v).(count := v2.count + 1);
    OtherRecord(l2, v2, v3, RETRY, OrderWorking(0));
    hide Fold, Apply;
    var l3 := l2 + [Record(RETRY, OrderWorking(0))];
    SilentRecord(l3, v3, RETRY, OrderStateChanged(WORKING));
    assert l3 + [Record(RETRY, OrderStateChanged(WORKING))] == log + Worked();
  }

  function WithRaise(v: View): View {
    After(v, RETRY, v.gates.(sync := UNVERIFIED)).(
      orders := v.orders.(cancelling := v.orders.cancelling + {0}), watch := v.watch.(failure := true), count := v.count + 6)
  }

  lemma {:induction false} RaiseIsLawful(log: seq<Record>, v: View)
    requires Fold(SLOW, log) == v && InTime(v, RETRY) && v.orders.open == {0}
    requires v.gates.link.CONNECTED? && v.gates.sync.SYNCED?
    ensures Fold(SLOW, log + CancelRaises()) == WithRaise(v)
  {
    hide Fold, Apply;
    SilentRecord(log, v, RETRY, RepriceTriggered(0));
    var l1, v1 := log + [Record(RETRY, RepriceTriggered(0))], After(v, RETRY, v.gates);
    AskRecord(l1, v1);
    var l2, v2 := l1 + [Record(RETRY, CancelRequested(0, REPRICE_TIMEOUT))], Asked(v1);
    SilentRecord(l2, v2, RETRY, OrderStateChanged(PENDING_CANCEL));
    var l3, v3 := l2 + [Record(RETRY, OrderStateChanged(PENDING_CANCEL))], After(v2, RETRY, v.gates);
    RaiseRecord(l3, v3);
    var l4, v4 := l3 + [Record(RETRY, CallbackFailure(true))], After(v3, RETRY, v.gates).(watch := v.watch.(failure := true));
    SilentRecord(l4, v4, RETRY, OrderStateChanged(TERMINAL_UNRECONCILED));
    var l5, v5 := l4 + [Record(RETRY, OrderStateChanged(TERMINAL_UNRECONCILED))], After(v4, RETRY, v.gates);
    GateRecord(l5, v5, RETRY, SyncStateChanged(UNVERIFIED));
    assert l5 + [Record(RETRY, SyncStateChanged(UNVERIFIED))] == log + CancelRaises();
  }

  function Asked(v: View): View {
    After(v, RETRY, v.gates).(orders := v.orders.(cancelling := v.orders.cancelling + {0}))
  }

  lemma {:induction false} AskRecord(log: seq<Record>, v: View)
    requires Fold(SLOW, log) == v && InTime(v, RETRY) && v.orders.open == {0}
    requires v.gates.link.CONNECTED? && v.gates.sync.SYNCED?
    ensures Fold(SLOW, log + [Record(RETRY, CancelRequested(0, REPRICE_TIMEOUT))]) == Asked(v)
  {
    OtherRecord(log, v, Asked(v), RETRY, CancelRequested(0, REPRICE_TIMEOUT));
  }

  lemma {:induction false} RaiseRecord(log: seq<Record>, v: View)
    requires Fold(SLOW, log) == v && InTime(v, RETRY)
    ensures Fold(SLOW, log + [Record(RETRY, CallbackFailure(true))]) ==
            After(v, RETRY, v.gates).(watch := v.watch.(failure := true))
  {
    OtherRecord(log, v, After(v, RETRY, v.gates).(watch := v.watch.(failure := true)), RETRY, CallbackFailure(true));
  }

  function WithReconciled(v: View): View {
    After(v, RETRY, v.gates.(sync := SYNCED, reconciled := true)).(
      orders := v.orders.(open := {}, working := v.orders.working - {0}, cancelling := {}, liveSend := None,
                          unsettled := false),
      watch := v.watch.(pending := {}), count := v.count + 6)
  }

  lemma {:induction false} ReconciledIsLawful(log: seq<Record>, v: View)
    requires Fold(SLOW, log) == v && InTime(v, RETRY) && v.orders.open == {0} && 0 in v.orders.intents
    ensures Fold(SLOW, log + Reconciled()) == WithReconciled(v)
  {
    hide Fold, Apply;
    SilentRecord(log, v, RETRY, ReconciliationStarted);
    var l1, v1 := log + [Record(RETRY, ReconciliationStarted)], After(v, RETRY, v.gates);
    GateRecord(l1, v1, RETRY, SyncStateChanged(SYNCING));
    var l2, v2 := l1 + [Record(RETRY, SyncStateChanged(SYNCING))], After(v1, RETRY, v1.gates.(sync := SYNCING));
    AbsentRecord(l2, v2);
    var l3, v3 := l2 + [Record(RETRY, OrderAbsentConfirmed(0))], Absent(v2);
    SilentRecord(l3, v3, RETRY, OrderStateChanged(IDLE));
    var l4, v4 := l3 + [Record(RETRY, OrderStateChanged(IDLE))], After(v3, RETRY, v3.gates);
    CompletedRecord(l4, v4, RETRY);
    var l5, v5 := l4 + [Record(RETRY, ReconciliationCompleted)], Completed(v4, RETRY);
    GateRecord(l5, v5, RETRY, SyncStateChanged(SYNCED));
    assert l5 + [Record(RETRY, SyncStateChanged(SYNCED))] == log + Reconciled();
  }

  function Absent(v: View): View {
    After(v, RETRY, v.gates).(
      orders := v.orders.(open := {}, working := v.orders.working - {0}, cancelling := v.orders.cancelling - {0},
                          liveSend := None),
      watch := v.watch.(pending := v.watch.pending - {0}))
  }

  lemma {:induction false} AbsentRecord(log: seq<Record>, v: View)
    requires Fold(SLOW, log) == v && InTime(v, RETRY) && v.orders.open == {0} && 0 in v.orders.intents
    ensures Fold(SLOW, log + [Record(RETRY, OrderAbsentConfirmed(0))]) == Absent(v)
  {
    OtherRecord(log, v, Absent(v), RETRY, OrderAbsentConfirmed(0));
  }

  lemma AgainMayLaunch(w: View)
    requires w == WithReconciled(WithRaise(WithWorking(FirstLaunched())))
    ensures MayLaunch(w, Again(), RETRY) && w.watch.failure
    ensures Verdict(Halted(FAILURE), Intended(w, Again(), RETRY), Record(RETRY, SendEvent(Again()))) != []
  {
  }
}
