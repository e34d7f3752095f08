/** The one rule of the offline audit that the online side does not keep: the
    60-second cap across UTC midnight. The controller counts its minute from midnight
    on, the audit does not; so there is a run, written here record by record in the
    controller's own order, that the audit reports. */
module Midnight {
  import opened Wrappers
  import opened Models
  import opened RiskCounters
  import opened LogView
  import opened HaltFolds
  import opened Witnesses
  import opened Brokers
  import opened Risk
  import opened Protocol
  import opened States
  import opened Sending
  import opened Decisions
  import opened Auditor

  /** One order a minute. */
  const SLOW: RiskConfig :=
    RiskConfig(true, 10, 20, 1000.0, 100, 1000.0, 10, 1, true, 5.0, 10.0, 50.0, 0.1, 1000.0)

  /** Two basis points over a quote of one, the opening collar. */
  const PRICE: real := 1.0002

  const BOOTED: Instant := DAY - 20

  /** Two targets, ten seconds before midnight and ten seconds after. */
  function ArrivalOf(r: Ref): Instant {
    if r == 0 then DAY - 10 else DAY + 10
  }

  /** A process starts, connects, and reconciles an empty account. */
  function Boot(): seq<Record> {
    Stamped(BOOTED, [RiskConfigLoaded, RiskSelfTestPassed, ProcessStarted, ProcessStateRestored(NORMAL),
                     LinkStateChanged(CONNECTED), ReconciliationStarted, SyncStateChanged(SYNCING),
                     ReconciliationCompleted, SyncStateChanged(SYNCED)])
  }

  /** A target arrives, its order is sent, and the broker cleanly refuses it. */
  function Refused(r: Ref): seq<Record> {
    Stamped(ArrivalOf(r),
            [TargetReceived(Strategy(r), 1),
             IntentCommitted(Order(r)), OrderStateChanged(INTENT_COMMITTED),
             SendEvent(Order(r)), OrderStateChanged(PENDING_ACK),
             SendCallFailed(r, true), OrderStateChanged(IDLE),
             DecisionMissed(Strategy(r), BROKER_REJECTED)])
  }

  function Before(r: Ref): seq<Record> {
    if r == 0 then Boot() else Boot() + Refused(0)
  }

  function MidnightLog(): seq<Record> {
    Boot() + Refused(0) + Refused(1)
  }

  // ---- what the process believes when each target arrives --------------------

  function Believed(r: Ref): Memory {
    Memory(CONNECTED, SYNCED, NORMAL, false, IDLE, None, 0, 0, {}, CountedBefore(r),
           Some(Quote(1.0, 1.0, ArrivalOf(r))), 0, false)
  }

  function Wanting(r: Ref): Plan {
    Plan(Some(TargetPosition(1, Strategy(r), ArrivalOf(r) + 60)), None, 0, None)
  }

  function Order(r: Ref): OrderIntent {
    OrderIntent(r, Strategy(r), BUY, 1, Some(PRICE), 1, 0, 0, ArrivalOf(r) + 60, 0, None)
  }

  function CountedBefore(r: Ref): Counters {
    if r == 0 then FRESH else Count(FRESH, ArrivalOf(0), 1, PRICE)
  }

  /** The world then: the second time, one order has been sent and pinned. */
  function Around(r: Ref): World {
    World(0, Before(r), Fold(SLOW, Before(r)), false,
          if r == 0 then None else Some(WitnessRecord(0, 13, SendEvent(Order(0)))), None,
          Book(map[], [], 0), if r == 0 then [] else [0], [], r, ArrivalOf(r), 0)
  }

  /** What the contracts of receiving and sending say the log gains from a new target
      whose order the broker cleanly refuses. */
  function Written(r: Ref): seq<Record> {
    Stamped(ArrivalOf(r), [TargetReceived(Strategy(r), 1)])
    + Stamped(ArrivalOf(r), LaunchNotes(Order(r)) + FateNotes(Order(r), None, false, IDLE))
  }

  lemma RefusedIsWritten(r: Ref)
    ensures Refused(r) == Written(r)
  {
  }

  /** The invariants hold, the decision point wants exactly this order, the risk
      engine admits it, and what the log says next is what sending it writes. */
  ghost predicate Willing(r: Ref) {
    && Durable(Around(r)) && Inv(Believed(r), Around(r))
    && Strategy(r) !in Around(r).view.decisions
    && Decide(Believed(r), Wanting(r), ArrivalOf(r)) == SendOrder(1)
    && Order(r) == Proposal(Believed(r), Wanting(r), r, 1)
    && Admitted(SLOW, Believed(r), ArrivalOf(r), Order(r))
    && Before(r) + Written(r) <= MidnightLog()
  }

  // ---- the fold, a record at a time ---------------------------------------------

  /** `v` after a record that moves the gates to `g` and nothing else. */
  function After(v: View, ts: Instant, g: Gates): View {
    v.(gates := g, count := v.count + 1, lastTs := Some(ts))
  }

  predicate InTime(v: View, ts: Instant) {
    v.lawful && (v.lastTs.Some? ==> v.lastTs.value <= ts)
  }

  lemma GateRecord(log: seq<Record>, v: View, ts: Instant, e: Event)
    requires Fold(SLOW, log) == v && InTime(v, ts) && GateOnly(e) && LawfulEvent(v, ts, e)
    requires ApplyWatch(v.watch, e) == v.watch
    ensures Fold(SLOW, log + [Record(ts, e)]) == After(v, ts, ApplyGates(v.gates, v.count + 1, e))
  {
    FoldSnoc(SLOW, log, Record(ts, e));
    GateOnlyEffect(v, Record(ts, e));
  }

  lemma SilentRecord(log: seq<Record>, v: View, ts: Instant, e: Event)
    requires Fold(SLOW, log) == v && InTime(v, ts) && Silent(e) && !e.CallbackFailure?
    ensures Fold(SLOW, log + [Record(ts, e)]) == After(v, ts, v.gates)
  {
    NoGateChange(v.gates, v.count + 1, e);
    QuietEffect(v, Record(ts, e));
    GateRecord(log, v, ts, e);
  }

  /** A record that moves the order book or the claims. */
  lemma OtherRecord(log: seq<Record>, v: View, w: View, ts: Instant, e: Event)
    requires Fold(SLOW, log) == v && Apply(v, Record(ts, e)) == w
    ensures Fold(SLOW, log + [Record(ts, e)]) == w
  {
    FoldSnoc(SLOW, log, Record(ts, e));
  }

  /** Trusted, reconciled, NORMAL, with nothing open. */
  function Ready(intents: map<Ref, OrderIntent>, decisions: set<DecisionId>, c: Counters, count: nat, ts: Instant): View {
    View(SLOW, OrderBook(intents, intents.Keys, {}, {}, None, {}, {}, false), Ledger(map[], map[], 0, None),
         Gates(CONNECTED, SYNCED, NORMAL, NORMAL, false, true, true, None, 0, true, true, false), c,
         Watch({}, false, false), decisions, count, Some(ts), 0, true)
  }

  lemma BootIsReady()
    ensures Fold(SLOW, Boot()) == Ready(map[], {}, FRESH, 9, BOOTED)
  {
    assert [] + Boot() == Boot();
    BootingIsLawful([], EmptyView(SLOW));
  }

  /** `v` once a process has started on it, connected, and reconciled an empty broker. */
  function Booted(v: View): View {
    After(v, BOOTED, Gates(CONNECTED, SYNCED, NORMAL, NORMAL, false, true, true, v.gates.halt, v.gates.residual, true, true,
                           false)).(
      orders := v.orders.(cancelling := {}, unsettled := false), watch := v.watch.(pending := {}), count := v.count + 9)
  }

  lemma BootingIsLawful(log: seq<Record>, v: View)
    requires Fold(SLOW, log) == v && InTime(v, BOOTED) && v.gates.residual == 0
    ensures Fold(SLOW, log + Boot()) == Booted(v)
  {
    assert (log + Started()) + Resynced() == log + Boot();
    hide Started, Resynced, Boot, Apply;
    StartIsLawful(log, v);
    ResyncIsLawful(log + Started(), Fold(SLOW, log + Started()));
  }

  function Started(): seq<Record> {
    Stamped(BOOTED, [RiskConfigLoaded, RiskSelfTestPassed, ProcessStarted, ProcessStateRestored(NORMAL),
                     LinkStateChanged(CONNECTED)])
  }

  lemma StartIsLawful(log: seq<Record>, v: View)
    requires Fold(SLOW, log) == v && InTime(v, BOOTED) && v.gates.residual == 0
    ensures Fold(SLOW, log + Started()) ==
            After(v, BOOTED, Gates(CONNECTED, v.gates.sync, NORMAL, NORMAL, false, true, false, v.gates.halt, 0, true, true,
                                   false))
              .(count := v.count + 5)
  {
    hide Fold, Apply;
    GateRecord(log, v, BOOTED, RiskConfigLoaded);
    var l1, v1 := log + [Record(BOOTED, RiskConfigLoaded)], After(v, BOOTED, v.gates.(loaded := true));
    GateRecord(l1, v1, BOOTED, RiskSelfTestPassed);
    var l2, v2 := l1 + [Record(BOOTED, RiskSelfTestPassed)], After(v1, BOOTED, v1.gates.(proven := true));
    GateRecord(l2, v2, BOOTED, ProcessStarted);
    var l3 := l2 + [Record(BOOTED, ProcessStarted)];
    var v3 := After(v2, BOOTED, v2.gates.(started := true, reconciled := false, bootMode := NORMAL, armed := false,
                                          stopDue := false));
    GateRecord(l3, v3, BOOTED, ProcessStateRestored(NORMAL));
    var l4, v4 := l3 + [Record(BOOTED, ProcessStateRestored(NORMAL))], After(v3, BOOTED, v3.gates.(mode := NORMAL));
    GateRecord(l4, v4, BOOTED, LinkStateChanged(CONNECTED));
    assert l4 + [Record(BOOTED, LinkStateChanged(CONNECTED))] == log + Started();
  }

  function Resynced(): seq<Record> {
    Stamped(BOOTED, [ReconciliationStarted, SyncStateChanged(SYNCING), ReconciliationCompleted, SyncStateChanged(SYNCED)])
  }

  lemma ResyncIsLawful(log: seq<Record>, v: View)
    requires Fold(SLOW, log) == v && InTime(v, BOOTED)
    ensures Fold(SLOW, log + Resynced()) ==
            After(v, BOOTED, v.gates.(sync := SYNCED, reconciled := true)).(
              orders := v.orders.(cancelling := {}, unsettled := false), watch := v.watch.(pending := {}),
              count := v.count + 4)
  {
    hide Fold, Apply;
    SilentRecord(log, v, BOOTED, ReconciliationStarted);
    var l1, v1 := log + [Record(BOOTED, ReconciliationStarted)], After(v, BOOTED, v.gates);
    GateRecord(l1, v1, BOOTED, SyncStateChanged(SYNCING));
    var l2, v2 := l1 + [Record(BOOTED, SyncStateChanged(SYNCING))], After(v1, BOOTED, v1.gates.(sync := SYNCING));
    CompletedRecord(l2, v2, BOOTED);
    var l3, v3 := l2 + [Record(BOOTED, ReconciliationCompleted)], Completed(v2, BOOTED);
    GateRecord(l3, v3, BOOTED, SyncStateChanged(SYNCED));
    assert l3 + [Record(BOOTED, SyncStateChanged(SYNCED))] == log + Resynced();
  }

  function Completed(v: View, t: Instant): View {
    After(v, t, v.gates.(reconciled := true)).(
      orders := v.orders.(cancelling := {}, unsettled := false), watch := v.watch.(pending := {}))
  }

  lemma CompletedRecord(log: seq<Record>, v: View, t: Instant)
    requires Fold(SLOW, log) == v && InTime(v, t)
    ensures Fold(SLOW, log + [Record(t, ReconciliationCompleted)]) == Completed(v, t)
  {
    OtherRecord(log, v, Completed(v, t), t, ReconciliationCompleted);
  }

  /** A refused order, in three parts. */
  function Claimed(r: Ref): seq<Record> {
    Stamped(ArrivalOf(r), [TargetReceived(Strategy(r), 1), IntentCommitted(Order(r)), OrderStateChanged(INTENT_COMMITTED)])
  }

  function Attempted(r: Ref): seq<Record> {
    Stamped(ArrivalOf(r), [SendEvent(Order(r)), OrderStateChanged(PENDING_ACK)])
  }

  function Dropped(r: Ref): seq<Record> {
    Stamped(ArrivalOf(r), [SendCallFailed(r, true), OrderStateChanged(IDLE), DecisionMissed(Strategy(r), BROKER_REJECTED)])
  }

  /** `v` with the order's decision claimed and its intent durable. */
  function WithIntent(v: View, r: Ref): View {
    After(v, ArrivalOf(r), v.gates).(
      orders := v.orders.(intents := v.orders.intents[r := Order(r)]),
      decisions := v.decisions + {Strategy(r)}, count := v.count + 3)
  }

  /** And its attempt counted. */
  function WithAttempt(v: View, r: Ref): View {
    After(v, ArrivalOf(r), v.gates).(
      orders := v.orders.(attempted := v.orders.attempted + {r}, open := {r}, liveSend := Some(r)),
      counters := Count(v.counters, ArrivalOf(r), 1, PRICE),
      watch := Watch(v.watch.pending + {r}, false, false), count := v.count + 2)
  }

  predicate MaySend(v: View, r: Ref) {
    && v.orders.open == {} && v.orders.working == {} && !v.orders.unsettled && v.config == SLOW
    && v.gates.proven && !v.gates.stopDue && !v.gates.armed
    && v.gates.link.CONNECTED? && v.gates.sync.SYNCED? && v.gates.reconciled && v.gates.mode.NORMAL?
    && r !in v.orders.attempted
    && Roll(v.counters, ArrivalOf(r)) == FRESH.(day := Some(UtcDay(ArrivalOf(r))))
  }

  lemma ClaimIsLawful(log: seq<Record>, v: View, r: Ref)
    requires Fold(SLOW, log) == v && InTime(v, ArrivalOf(r)) && MaySend(v, r)
    requires r !in v.orders.intents && Strategy(r) !in v.decisions
    ensures Fold(SLOW, log + Claimed(r)) == WithIntent(v, r)
  {
    var t := ArrivalOf(r);
    var v1 := After(v, t, v.gates).(decisions := v.decisions + {Strategy(r)});
    OtherRecord(log, v, v1, t, TargetReceived(Strategy(r), 1));
    var l1 := log + [Record(t, TargetReceived(Strategy(r), 1))];
    var v2 := After(v1, t, v1.gates).(orders := v1.orders.(intents := v.orders.intents[r := Order(r)]));
    OtherRecord(l1, v1, v2, t, IntentCommitted(Order(r)));
    var l2 := l1 + [Record(t, IntentCommitted(Order(r)))];
    SilentRecord(l2, v2, t, OrderStateChanged(INTENT_COMMITTED));
    hide Fold;
    assert l2 + [Record(t, OrderStateChanged(INTENT_COMMITTED))] == log + Claimed(r);
  }

  lemma AttemptIsLawful(log: seq<Record>, v: View, r: Ref)
    requires Fold(SLOW, log) == v && InTime(v, ArrivalOf(r)) && MaySend(v, r)
    requires r in v.orders.intents && v.orders.intents[r] == Order(r)
    ensures Fold(SLOW, log + Attempted(r)) == WithAttempt(v, r)
  {
    var t := ArrivalOf(r);
    var sent := WithAttempt(v, r);
    var v1 := After(v, t, v.gates).(orders := sent.orders, counters := sent.counters, watch := sent.watch);
    OtherRecord(log, v, v1, t, SendEvent(Order(r)));
    var l1 := log + [Record(t, SendEvent(Order(r)))];
    SilentRecord(l1, v1, t, OrderStateChanged(PENDING_ACK));
    hide Fold;
    assert l1 + [Record(t, OrderStateChanged(PENDING_ACK))] == log + Attempted(r);
  }

  lemma DropIsLawful(log: seq<Record>, v: View, r: Ref)
    requires Fold(SLOW, log) == v && InTime(v, ArrivalOf(r)) && v.orders.open == {r} && r in v.orders.intents
    requires v.orders.working == {} && v.orders.cancelling == {}
    ensures Fold(SLOW, log + Dropped(r)) ==
            After(v, ArrivalOf(r), v.gates).(
              orders := v.orders.(open := {}, liveSend := None),
              watch := v.watch.(pending := v.watch.pending - {r}), count := v.count + 3)
  {
    var t := ArrivalOf(r);
    var v1 := After(v, t, v.gates).(orders := v.orders.(open := {}, liveSend := None),
                                    watch := v.watch.(pending := v.watch.pending - {r}));
    OtherRecord(log, v, v1, t, SendCallFailed(r, true));
    var l1 := log + [Record(t, SendCallFailed(r, true))];
    SilentRecord(l1, v1, t, OrderStateChanged(IDLE));
    var l2, v2 := l1 + [Record(t, OrderStateChanged(IDLE))], After(v1, t, v1.gates);
    SilentRecord(l2, v2, t, DecisionMissed(Strategy(r), BROKER_REJECTED));
    hide Fold;
    assert l2 + [Record(t, DecisionMissed(Strategy(r), BROKER_REJECTED))] == log + Dropped(r);
  }

  /** One refused order later everything is ready again, with one attempt counted. */
  lemma RefusedIsReady(log: seq<Record>, intents: map<Ref, OrderIntent>, ds: set<DecisionId>, c: Counters, n: nat,
                       last: Instant, r: Ref)
    requires Fold(SLOW, log) == Ready(intents, ds, c, n, last) && last <= ArrivalOf(r)
    requires r !in intents && Strategy(r) !in ds
    requires Roll(c, ArrivalOf(r)) == FRESH.(day := Some(UtcDay(ArrivalOf(r))))
    ensures Fold(SLOW, log + Refused(r)) ==
            Ready(intents[r := Order(r)], ds + {Strategy(r)}, Count(c, ArrivalOf(r), 1, PRICE), n + 8, ArrivalOf(r))
  {
    assert log + Refused(r) == ((log + Claimed(r)) + Attempted(r)) + Dropped(r);
    assert intents[r := Order(r)].Keys == intents.Keys + {r};
    hide Fold, Claimed, Attempted, Dropped, Refused, Roll, Count, Order;
    var v := Ready(intents, ds, c, n, last);
    ClaimIsLawful(log, v, r);
    AttemptIsLawful(log + Claimed(r), WithIntent(v, r), r);
    DropIsLawful((log + Claimed(r)) + Attempted(r), WithAttempt(WithIntent(v, r), r), r);
  }

  lemma FoldBefore(r: Ref)
    requires r <= 1
    ensures Fold(SLOW, Before(r)) ==
            Ready(if r == 0 then map[] else map[0 := Order(0)], if r == 0 then {} else {Strategy(0)}, CountedBefore(r),
                  if r == 0 then 9 else 17, if r == 0 then BOOTED else ArrivalOf(0))
  {
    hide Fold, Boot, Refused;
    BootIsReady();
    if r == 1 {
      RefusedIsReady(Boot(), map[], {}, FRESH, 9, BOOTED, 0);
    }
  }

  lemma MidnightLogIsLawful()
    ensures Fold(SLOW, MidnightLog()).lawful
  {
    hide Fold, Boot, Refused;
    FoldBefore(1);
    RefusedIsReady(Before(1), map[0 := Order(0)], {Strategy(0)}, CountedBefore(1), 17, ArrivalOf(0), 1);
  }

  /** The decision point wants exactly this order. */
  lemma OrderIsWanted(r: Ref)
    requires r <= 1
    ensures Decide(Believed(r), Wanting(r), ArrivalOf(r)) == SendOrder(1)
    ensures Order(r) == Proposal(Believed(r), Wanting(r), r, 1)
  {
    hide CountedBefore;
    assert LimitPrice(Some(Quote(1.0, 1.0, ArrivalOf(r))), BUY, 0, false) == Some(PRICE) by {
      assert CollarBps(0, false) == 2.0;
    }
  }

  /** And every limit admits it: the minute starts afresh with the day. */
  lemma OrderIsAdmitted(r: Ref)
    requires r <= 1
    ensures Admitted(SLOW, Believed(r), ArrivalOf(r), Order(r))
  {
    var c := Roll(CountedBefore(r), ArrivalOf(r));
    assert c == FRESH.(day := Some(UtcDay(ArrivalOf(r))));
    hide CountedBefore, Roll;
    QuoteIsFine(r);
    assert Notional(PRICE, 1) == PRICE;
  }

  lemma QuoteIsFine(r: Ref)
    ensures QuoteAcceptable(SLOW, ArrivalOf(r), Order(r), Believed(r).quote, false)
    ensures SurvivesOvernight(SLOW, 1, Believed(r).quote)
  {
    var q := Quote(1.0, 1.0, ArrivalOf(r));
    assert q.Mid() == 1.0 && q.Spread() == 0.0;
  }

  lemma WorldIsDurable(r: Ref)
    requires r <= 1
    ensures Durable(Around(r)) && Strategy(r) !in Around(r).view.decisions
  {
    assert SLOW.Valid();
    ViewIsSound(r);
    WitnessKept(r);
    hide Fold, Boot, Refused, Before, Order, WitnessPromise, EvidenceHolds, EverPlaced, CountedBefore, RiskConfig.Valid,
         BookShape;
  }

  lemma ViewIsSound(r: Ref)
    requires r <= 1
    ensures var v := Fold(SLOW, Before(r));
      && v.lawful && BookShape(v.orders) && v.lastTs.Some? && v.lastTs.value <= ArrivalOf(r)
      && (forall i :: i in v.orders.intents ==> i < r) && Strategy(r) !in v.decisions
  {
    hide Fold, Boot, Refused, Before, CountedBefore;
    FoldBefore(r);
  }

  lemma WitnessKept(r: Ref)
    requires r <= 1
    ensures WitnessPromise(0, Before(r), Around(r).rec, EverPlaced(Around(r)))
    ensures EvidenceHolds(0, Before(r), Around(r).rec)
  {
    AttemptIsPinned();
    hide Fold, Boot, Refused, Before, Order, CountedBefore;
    assert EverPlaced(Around(r)) == if r == 0 then {} else {0};
  }

  lemma AttemptIsPinned()
    ensures |Before(1)| == 17 && Before(1)[12].event == SendEvent(Order(0)) && SendLogged(Before(1)[..13], 0)
  {
    var log := Before(1);
    assert log[..13][12] == log[12];
  }

  lemma BeliefIsSound(r: Ref)
    requires r <= 1
    ensures Inv(Believed(r), Around(r))
  {
    hide Fold, Boot, Refused, Order, Before;
    FoldBefore(r);
  }

  /** Both times the controller would send, and what sending writes is this log; the
      offline check reports it. */
  lemma MidnightBurstIsReported()
    ensures SLOW.Valid() && Fold(SLOW, MidnightLog()).lawful
    ensures Willing(0) && Willing(1)
    ensures !QuietMidnights(SLOW, MidnightLog())
    ensures CapFindings(SLOW, MidnightLog()) != []
  {
    var log := MidnightLog();
    assert Before(0) + Refused(0) <= log && Before(1) + Refused(1) <= log;
    RefusedIsWritten(0);
    RefusedIsWritten(1);
    BurstIsCounted();
    MidnightLogIsLawful();
    hide Fold, Boot, Refused, Written, Before, MidnightLog, Around, Believed, Wanting, Order, CapFindings,
         QuietMidnights, Decide, Admitted;
    OrderIsWanted(0);
    OrderIsWanted(1);
    OrderIsAdmitted(0);
    OrderIsAdmitted(1);
    WorldIsDurable(0);
    WorldIsDurable(1);
    BeliefIsSound(0);
    BeliefIsSound(1);
    CapsCleanIff(SLOW, log);
  }

  /** The second send finds the first inside its minute, on the other side of midnight. */
  lemma BurstIsCounted()
    ensures !QuietMidnights(SLOW, MidnightLog())
  {
    var log := MidnightLog()[..21];
    assert log[12] == MidnightLog()[12] && log[20] == MidnightLog()[20];
    RecentIncludes(log, 12, 0, ArrivalOf(1));
    RecentIncludes(log, 20, 1, ArrivalOf(1));
    assert !QuietWindow(SLOW, log);
    QuietPrefix(MidnightLog(), 21);
  }

  lemma {:induction false} QuietPrefix(log: seq<Record>, n: nat)
    requires n <= |log|
    ensures QuietMidnights(SLOW, log) ==> QuietMidnights(SLOW, log[..n])
    decreases |log|
  {
    if n == |log| {
      assert log[..n] == log;
    } else {
      assert log[..|log| - 1][..n] == log[..n];
      QuietPrefix(log[..|log| - 1], n);
    }
  }

  lemma {:induction false} RecentIncludes(log: seq<Record>, k: nat, day: int, now: Instant)
    requires k < |log| && IsSendOn(log[k], day) && now - log[k].ts < 60
    ensures RecentOn(log, day, now) >= 1
  {
    if k < |log| - 1 {
      RecentIncludes(log[..|log| - 1], k, day, now);
    }
  }
}
