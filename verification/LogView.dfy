/** What the journal means. Current state is a fold over the append-only log:
    `Fold` computes everything the controller, the auditor and the risk engine
    ever read back from it, one record at a time, and `Lawful` says which record
    the online controller may append in which state. */
module LogView {
  import opened Wrappers
  import opened Models
  import opened RiskCounters

  /** Order lifecycle facts. */
  datatype OrderBook = OrderBook(
    intents: map<Ref, OrderIntent>,
    attempted: set<Ref>,       // SEND_ATTEMPT_STARTED seen
    open: set<Ref>,            // attempted and not yet resolved
    acked: set<Ref>,
    liveSend: Option<Ref>,     // the auditor's live intent of the leg
    cancelling: set<Ref>,      // the auditor's outstanding cancels
    working: set<Ref>,         // the auditor's working orders
    unsettled: bool)           // an order was cancelled, and no reconciliation completed since

  /** Execution facts. */
  datatype Ledger = Ledger(
    booked: map<ExecId, Execution>,
    filled: map<Ref, int>,
    expected: int,
    lastExec: Option<Instant>)

  /** Link, sync, mode, HALT and residual facts. */
  datatype Gates = Gates(
    link: LinkState,
    sync: SyncState,
    mode: OperatingMode,
    bootMode: OperatingMode,   // the mode fold that restarts with each process
    armed: bool,               // this process started with a recorded residual
    started: bool,             // some process start was recorded
    reconciled: bool,          // a reconciliation completed since then
    halt: Option<nat>,         // sequence number of the active HALT
    residual: int,
    loaded: bool,              // a risk configuration was recorded
    proven: bool,              // and its self-test after it
    stopDue: bool)             // this process met a fact it must halt on, and has not yet

  /** What some offline checks keep, and nothing online depends on. */
  datatype Watch = Watch(
    pending: set<Ref>,         // sent, and neither acknowledged, resolved nor reconciled since
    fact: bool,                // an external fact without a HALT or a send after it
    failure: bool)             // a callback failure without a HALT or a send after it

  datatype View = View(
    config: RiskConfig,
    orders: OrderBook,
    ledger: Ledger,
    gates: Gates,
    counters: Counters,
    watch: Watch,
    decisions: set<DecisionId>,
    count: nat,
    lastTs: Option<Instant>,
    acks: nat,                 // how many HALT acknowledgements were recorded
    lawful: bool)              // every record so far was lawful

  function EmptyView(config: RiskConfig): View {
    View(config,
         OrderBook(map[], {}, {}, {}, None, {}, {}, false),
         Ledger(map[], map[], 0, None),
         Gates(DISCONNECTED, UNVERIFIED, NORMAL, NORMAL, false, false, false, None, 0, false, false, false),
         FRESH, Watch({}, false, false), {}, 0, None, 0, true)
  }

  function FilledOf(lg: Ledger, ref: Ref): int {
    if ref in lg.filled then lg.filled[ref] else 0
  }

  function ApplyOrders(ob: OrderBook, e: Event): OrderBook {
    match e
    case IntentCommitted(i) => ob.(intents := ob.intents[i.ref := i])
    case SendAttemptStarted(r, _, _) =>
      ob.(attempted := ob.attempted + {r}, open := ob.open + {r}, liveSend := Some(r))
    case SendCallFailed(r, rejected) =>
      if rejected
      then ob.(open := ob.open - {r}, liveSend := if r in ob.intents then None else ob.liveSend)
      else ob
    case BrokerAckReceived(r) => if r in ob.intents then ob.(acked := ob.acked + {r}) else ob
    case OrderWorking(r) => if r in ob.intents then ob.(working := ob.working + {r}) else ob
    case CancelRequested(r, _) => ob.(cancelling := ob.cancelling + {r})
    case OrderFilled(r) => Resolve(ob, r)
    case OrderCancelled(r) => Resolve(ob, r).(unsettled := true)
    case OrderRejected(r) => Resolve(ob, r)
    case OrderAbsentConfirmed(r) => Resolve(ob, r)
    case ReconciliationCompleted => ob.(cancelling := {}, unsettled := false)
    case _ => ob
  }

  function Resolve(ob: OrderBook, r: Ref): OrderBook {
    ob.(open := ob.open - {r},
        liveSend := if r in ob.intents then None else ob.liveSend,
        cancelling := ob.cancelling - {r}, working := ob.working - {r})
  }

  function ApplyLedger(lg: Ledger, ts: Instant, e: Event): Ledger {
    if e.ExecutionReceived? then
      var x := e.execution;
      Ledger(lg.booked[x.id := x],
             lg.filled[x.ref := FilledOf(lg, x.ref) + x.Filled()],
             lg.expected + x.Signed(),
             Some(ts))
    else lg
  }

  /** A HALT or a further cause becomes the active HALT; only an acknowledgement
      of exactly that sequence number clears it. */
  function ApplyHalt(active: Option<nat>, seqNo: nat, e: Event): Option<nat> {
    if e.Halts() then Some(seqNo)
    else if e.HaltAcknowledged? && active == Some(e.haltSeq) then None
    else active
  }

  /** The active HALT of a log. */
  function ActiveHalt(log: seq<Record>): Option<nat> {
    if log == [] then None
    else ApplyHalt(ActiveHalt(log[..|log| - 1]), |log|, log[|log| - 1].event)
  }

  function ApplyGates(g: Gates, seqNo: nat, e: Event): Gates {
    match e
    case LinkStateChanged(to) => g.(link := to)
    case SyncStateChanged(to) => g.(sync := to)
    case OperatingModeChanged(to) =>
      g.(mode := to, bootMode := to, halt := ApplyHalt(g.halt, seqNo, e), stopDue := g.stopDue && !e.Halts())
    case HaltCauseAdded => g.(halt := ApplyHalt(g.halt, seqNo, e), stopDue := false)
    case ExternalOrderDetected => g.(stopDue := true)
    case CallbackFailure(inCancel) => g.(stopDue := g.stopDue || !inCancel)
    case RiskConfigLoaded => g.(loaded := true)
    case RiskSelfTestPassed => g.(proven := g.proven || g.loaded)
    case HaltAcknowledged(_) => g.(halt := ApplyHalt(g.halt, seqNo, e))
    case ReconciliationCompleted => g.(reconciled := true)
    case ProcessStarted =>
      g.(started := true, reconciled := false, bootMode := NORMAL, armed := g.residual != 0, stopDue := false)
    case ProcessStateRestored(m) => g.(mode := m, bootMode := m)
    case EodFlattenFailed(q, w) => g.(residual := if q != 0 then q else w)
    case EodFlattenCompleted => g.(residual := 0)
    case IntentCommitted(_) =>
      g.(armed := g.armed && (g.bootMode.FLATTEN_ONLY? || g.bootMode.HALTED?))
    case _ => g
  }

  /** The counter a restart rebuilds: each attempt once, sized by its intent. */
  function ApplyCounters(c: Counters, ob: OrderBook, ts: Instant, e: Event): Counters {
    if e.SendAttemptStarted? && e.ref !in ob.attempted then
      if e.ref in ob.intents
      then Count(c, ts, ob.intents[e.ref].quantity, PriceOrZero(ob.intents[e.ref].limitPrice))
      else Count(c, ts, e.sendQuantity, PriceOrZero(e.price))
    else c
  }

  function ApplyWatch(a: Watch, e: Event): Watch {
    match e
    case SendAttemptStarted(r, _, _) => Watch(a.pending + {r}, false, false)
    case SendCallFailed(r, rejected) => if rejected then a.(pending := a.pending - {r}) else a
    case BrokerAckReceived(r) => a.(pending := a.pending - {r})
    case OrderFilled(r) => a.(pending := a.pending - {r})
    case OrderAbsentConfirmed(r) => a.(pending := a.pending - {r})
    case ReconciliationCompleted => a.(pending := {})
    case ExternalOrderDetected => a.(fact := true)
    case CallbackFailure(_) => a.(failure := true)
    case OperatingModeChanged(to) => if to.HALTED? then a.(fact := false, failure := false) else a
    case HaltCauseAdded => a.(fact := false, failure := false)
    case _ => a
  }

  function Apply(v: View, r: Record): View {
    View(v.config,
         ApplyOrders(v.orders, r.event),
         ApplyLedger(v.ledger, r.ts, r.event),
         ApplyGates(v.gates, v.count + 1, r.event),
         ApplyCounters(v.counters, v.orders, r.ts, r.event),
         ApplyWatch(v.watch, r.event),
         if r.event.TargetReceived? then v.decisions + {r.event.decision} else v.decisions,
         v.count + 1,
         Some(r.ts),
         if r.event.HaltAcknowledged? then v.acks + 1 else v.acks,
         v.lawful && Lawful(v, r))
  }

  function Fold(config: RiskConfig, log: seq<Record>): (v: View)
    ensures v.config == config && v.count == |log|
  {
    if log == [] then EmptyView(config)
    else Apply(Fold(config, log[..|log| - 1]), log[|log| - 1])
  }

  // ---- what may be appended when ----------------------------------------

  /** A send is lawful only at rest: trusted link and sync, a reconciliation in
      this process and after the last cancelled order, no order open and no cancel
      outstanding, no HALT due, a mode that allows it, and every runaway cap respected. */
  predicate LawfulSend(v: View, ts: Instant, e: Event)
    requires e.SendAttemptStarted?
  {
    && e.ref in v.orders.intents
    && e.ref !in v.orders.attempted
    && v.orders.open == {} && !v.orders.unsettled && !v.gates.stopDue
    && v.gates.link.CONNECTED?
    && v.gates.sync.SYNCED?
    && v.gates.reconciled
    && var i := v.orders.intents[e.ref];
    && e.sendQuantity == i.quantity
    && e.price == i.limitPrice
    && !v.gates.mode.HALTED?
    && (IsClosing(i.target, i.positionSnapshot) || v.gates.mode.NORMAL?)
    && (v.gates.mode.FLATTEN_ONLY? ==> i.target == 0)
    && WithinCaps(v.config, v.counters, ts, i.quantity, PriceOrZero(i.limitPrice))
  }

  /** An intent is lawful only when fresh, unexpired and with nothing working. */
  predicate LawfulIntent(v: View, ts: Instant, i: OrderIntent) {
    && i.ref !in v.orders.intents
    && v.gates.proven
    && v.orders.working == {}
    && ts < i.validUntil
    && (v.gates.armed ==> v.gates.bootMode.FLATTEN_ONLY? || v.gates.bootMode.HALTED?)
  }

  /** Time does not run backwards, and the event is one the state allows. */
  predicate Lawful(v: View, r: Record) {
    && (v.lastTs.Some? ==> v.lastTs.value <= r.ts)
    && LawfulEvent(v, r.ts, r.event)
  }

  predicate LawfulEvent(v: View, ts: Instant, e: Event) {
    match e
    case IntentCommitted(i) => LawfulIntent(v, ts, i)
    case SendAttemptStarted(_, _, _) => LawfulSend(v, ts, e)
    case SendCallFailed(ref, rejected) =>
      rejected ==> ref in v.orders.open && ref !in v.orders.cancelling && ref !in v.orders.working
    case OrderWorking(ref) => ref in v.orders.open
    case CancelRequested(ref, _) =>
      ref in v.orders.open && v.gates.link.CONNECTED? && v.gates.sync.SYNCED?
    case OrderFilled(ref) => ref in v.orders.open
    case OrderCancelled(ref) => ref in v.orders.open
    case OrderRejected(ref) => ref in v.orders.open
    case OrderAbsentConfirmed(ref) => ref in v.orders.open
    case ExecutionReceived(x) => x.id !in v.ledger.booked
    case TargetReceived(d, _) => d !in v.decisions
    case OperatingModeChanged(to) => v.gates.halt.Some? ==> to.HALTED?
    case ProcessStarted => v.gates.proven
    case _ => true
  }

  /** Events that touch neither the order book, nor the ledger, nor the counters,
      nor the HALT, and are lawful in every state. */
  predicate Quiet(e: Event) {
    match e
    case TargetRejected(_) => true
    case TargetSuperseded(_, _) => true
    case TargetDeferred(_, _) => true
    case DecisionMissed(_, _) => true
    case SendCallReturned(_) => true
    case CancelRejected(_) => true
    case RepriceTriggered(_) => true
    case PartialExpired(_) => true
    case ExecutionReversal(_) => true
    case ExecutionCorrected(_) => true
    case FeeReceived(_) => true
    case EodFlattenStarted(_) => true
    case EodFlattenCompleted => true
    case EodFlattenFailed(_, _) => true
    case ReconciliationStarted => true
    case ReconciliationFailed => true
    case BrokerFactAdopted(_) => true
    case LinkStateChanged(_) => true
    case SyncStateChanged(_) => true
    case OrderStateChanged(_) => true
    case CallbackFailure(inCancel) => inCancel
    case InvariantViolated => true
    case RiskRejected(_) => true
    case _ => false
  }

  /** Events that move the gates and nothing else. */
  predicate GateOnly(e: Event) {
    || Quiet(e) || e.OperatingModeChanged? || e.HaltCauseAdded? || e.ProcessStarted? || e.ProcessStateRestored?
    || e.RiskConfigLoaded? || e.RiskSelfTestPassed? || e.ExternalOrderDetected? || e.CallbackFailure?
  }

  lemma GateOnlyEffect(v: View, r: Record)
    requires GateOnly(r.event)
    ensures var w := Apply(v, r);
      && w.orders == v.orders && w.ledger == v.ledger && w.counters == v.counters
      && w.decisions == v.decisions && w.acks == v.acks
      && w.gates == ApplyGates(v.gates, v.count + 1, r.event)
  {
  }

  lemma QuietEffect(v: View, r: Record)
    requires Quiet(r.event)
    ensures GateOnly(r.event) && LawfulEvent(v, r.ts, r.event)
  {
  }

  /** Most quiet events move no gate at all. */
  predicate Silent(e: Event) {
    || e.TargetRejected? || e.TargetSuperseded? || e.TargetDeferred? || e.DecisionMissed?
    || e.SendCallReturned? || e.CancelRejected? || e.RepriceTriggered? || e.PartialExpired?
    || e.ExecutionReversal? || e.ExecutionCorrected? || e.FeeReceived?
    || e.EodFlattenStarted? || e.ReconciliationStarted? || e.ReconciliationFailed? || e.BrokerFactAdopted?
    || e.OrderStateChanged? || (e.CallbackFailure? && e.inCancel) || e.InvariantViolated? || e.RiskRejected?
  }

  lemma NoGateChange(g: Gates, seqNo: nat, e: Event)
    requires Silent(e)
    ensures Quiet(e) && ApplyGates(g, seqNo, e) == g
  {
  }

  lemma SyncChange(g: Gates, seqNo: nat, to: SyncState)
    ensures Quiet(SyncStateChanged(to)) && ApplyGates(g, seqNo, SyncStateChanged(to)) == g.(sync := to)
  {
  }

  lemma CompletedChange(g: Gates, seqNo: nat)
    ensures Quiet(EodFlattenCompleted) && ApplyGates(g, seqNo, EodFlattenCompleted) == g.(residual := 0)
  {
  }

  lemma FailedChange(g: Gates, seqNo: nat, residual: int, working: int)
    ensures var e := EodFlattenFailed(residual, working);
      Quiet(e) && ApplyGates(g, seqNo, e) == g.(residual := if residual != 0 then residual else working)
  {
  }

  /** A mode change is lawful unless it would leave an active HALT. */
  lemma ModeChange(v: View, ts: Instant, to: OperatingMode)
    requires v.gates.halt.Some? ==> to.HALTED?
    ensures var e, g := OperatingModeChanged(to), v.gates;
      && GateOnly(e) && LawfulEvent(v, ts, e) && (to.HALTED? ==> e.Halts())
      && ApplyGates(g, v.count + 1, e)
         == g.(mode := to, bootMode := to, halt := if to.HALTED? then Some(v.count + 1) else g.halt,
               stopDue := g.stopDue && !to.HALTED?)
  {
  }

  lemma CauseChange(v: View, ts: Instant)
    ensures GateOnly(HaltCauseAdded) && LawfulEvent(v, ts, HaltCauseAdded) && HaltCauseAdded.Halts()
    ensures ApplyGates(v.gates, v.count + 1, HaltCauseAdded) == v.gates.(halt := Some(v.count + 1), stopDue := false)
  {
  }

  /** A fact or failure the controller must halt on is lawful in every state. */
  predicate StopsDue(e: Event) {
    e.ExternalOrderDetected? || (e.CallbackFailure? && !e.inCancel)
  }

  lemma DueChange(v: View, ts: Instant, e: Event)
    requires StopsDue(e)
    ensures GateOnly(e) && LawfulEvent(v, ts, e)
    ensures ApplyGates(v.gates, v.count + 1, e) == v.gates.(stopDue := true)
  {
  }

  lemma LinkChange(g: Gates, seqNo: nat, to: LinkState)
    ensures Quiet(LinkStateChanged(to)) && ApplyGates(g, seqNo, LinkStateChanged(to)) == g.(link := to)
  {
  }

  /** Events that move the order book and nothing else. */
  predicate OrderOnly(e: Event) {
    || e.SendCallFailed? || e.BrokerAckReceived? || e.OrderWorking? || e.CancelRequested? || e.Terminal()
  }

  lemma OrderOnlyEffect(v: View, r: Record)
    requires OrderOnly(r.event)
    ensures var w := Apply(v, r);
      && w.orders == ApplyOrders(v.orders, r.event)
      && w.ledger == v.ledger && w.gates == v.gates && w.counters == v.counters && w.acks == v.acks
  {
  }

  // ---- what a lawful log keeps ------------------------------------------

  /** The order-book invariant of every lawful log. */
  predicate BookShape(ob: OrderBook) {
    && ob.cancelling <= ob.open
    && ob.working <= ob.open
    && (ob.liveSend.Some? ==> ob.liveSend.value in ob.open)
    && ob.open <= ob.attempted
    && ob.attempted <= ob.intents.Keys
    && (forall r, s :: r in ob.open && s in ob.open ==> r == s)
    && (forall r :: r in ob.intents ==> ob.intents[r].ref == r)
  }

  lemma BookShapeStep(v: View, r: Record)
    requires BookShape(v.orders) && Lawful(v, r)
    ensures BookShape(Apply(v, r).orders)
  {
  }

  /** A lawful record keeps the book in shape and ids below the id source. */
  lemma LawfulStepKeeps(v: View, r: Record, next: nat)
    requires BookShape(v.orders) && v.lawful && Lawful(v, r)
    requires forall i :: i in v.orders.intents ==> i < next
    requires r.event.IntentCommitted? ==> r.event.intent.ref < next
    ensures var w := Apply(v, r);
      && w.config == v.config && BookShape(w.orders) && w.lawful && w.lastTs == Some(r.ts)
      && (forall i :: i in w.orders.intents ==> i < next)
  {
    BookShapeStep(v, r);
  }

  lemma {:induction false} LawfulLogShape(config: RiskConfig, log: seq<Record>)
    requires Fold(config, log).lawful
    ensures BookShape(Fold(config, log).orders)
  {
    if log != [] {
      LawfulLogShape(config, log[..|log| - 1]);
      BookShapeStep(Fold(config, log[..|log| - 1]), log[|log| - 1]);
    }
  }

  // ---- prefixes: what tail loss can and cannot take away ----------------

  lemma FoldSnoc(config: RiskConfig, log: seq<Record>, r: Record)
    ensures Fold(config, log + [r]) == Apply(Fold(config, log), r)
  {
    assert (log + [r])[..|log + [r]| - 1] == log;
  }

  /** `v` is a later view than `p`: nothing attempted, intended or booked is
      forgotten, no decision is unclaimed, and no order that was already attempted reopens. */
  predicate Later(p: View, v: View) {
    && p.orders.attempted <= v.orders.attempted
    && p.decisions <= v.decisions
    && (forall r :: r in p.orders.intents ==> r in v.orders.intents && v.orders.intents[r] == p.orders.intents[r])
    && (forall x :: x in p.ledger.booked ==> x in v.ledger.booked && v.ledger.booked[x] == p.ledger.booked[x])
    && (forall r :: r in p.orders.attempted && r in v.orders.open ==> r in p.orders.open)
  }

  lemma StaysAttempted(p: View, v: View, r: Ref)
    requires Later(p, v) && r in p.orders.attempted
    ensures r in v.orders.attempted
  {
  }

  lemma StaysClosed(p: View, v: View, r: Ref)
    requires Later(p, v) && r in p.orders.attempted && r !in p.orders.open
    ensures r !in v.orders.open
  {
  }

  lemma StaysBooked(p: View, v: View, e: Execution)
    requires Later(p, v) && e.id in p.ledger.booked && p.ledger.booked[e.id] == e
    ensures e.id in v.ledger.booked && v.ledger.booked[e.id] == e
  {
  }

  lemma ExecutionIsBooked(lg: Ledger, ts: Instant, e: Execution)
    ensures var b := ApplyLedger(lg, ts, ExecutionReceived(e)).booked;
      e.id in b && b[e.id] == e
  {
  }

  lemma LaterStep(p: View, v: View, r: Record)
    requires Later(p, v) && Lawful(v, r)
    ensures Later(p, Apply(v, r))
  {
    if r.event.ExecutionReceived? {
      assert r.event.execution.id !in v.ledger.booked;
    }
  }

  lemma {:induction false} PrefixFacts(config: RiskConfig, log: seq<Record>, n: nat)
    requires n <= |log| && Fold(config, log).lawful
    ensures Fold(config, log[..n]).lawful
    ensures Later(Fold(config, log[..n]), Fold(config, log))
  {
    if n == |log| {
      assert log[..n] == log;
    } else {
      var m := |log| - 1;
      assert log[..m][..n] == log[..n];
      PrefixFacts(config, log[..m], n);
      LaterStep(Fold(config, log[..n]), Fold(config, log[..m]), log[m]);
    }
  }

  lemma FoldNext(config: RiskConfig, log: seq<Record>, k: nat)
    requires k < |log|
    ensures Fold(config, log[..k + 1]) == Apply(Fold(config, log[..k]), log[k])
  {
    assert log[..k + 1][..k] == log[..k];
  }

  /** What one record does to the orders a replay reads back. */
  lemma OrdersNext(v: View, r: Record)
    ensures var ob, ob', e := v.orders, Apply(v, r).orders, r.event;
      && ob'.intents == (if e.IntentCommitted? then ob.intents[e.intent.ref := e.intent] else ob.intents)
      && ob'.acked == (if e.BrokerAckReceived? && e.ref in ob.intents then ob.acked + {e.ref} else ob.acked)
      && ob'.open == (if e.SendAttemptStarted? then ob.open + {e.ref}
                      else if e.Terminal() || (e.SendCallFailed? && e.rejected) then ob.open - {e.ref} else ob.open)
  {
    hide Lawful, ApplyLedger, ApplyGates, ApplyCounters, ApplyWatch;
  }

  /** And to the ledger, the claims and the residual. */
  lemma LedgerNext(v: View, r: Record)
    ensures Apply(v, r).ledger == ApplyLedger(v.ledger, r.ts, r.event)
    ensures Apply(v, r).decisions == if r.event.TargetReceived? then v.decisions + {r.event.decision} else v.decisions
    ensures Apply(v, r).gates.residual ==
            match r.event
            case EodFlattenFailed(q, w) => if q != 0 then q else w
            case EodFlattenCompleted => 0
            case _ => v.gates.residual
  {
    hide Lawful, ApplyOrders, ApplyLedger, ApplyCounters, ApplyWatch;
  }

  lemma HaltOfGates(v: View, r: Record)
    ensures Apply(v, r).gates.halt == ApplyHalt(v.gates.halt, v.count + 1, r.event)
  {
    assert Apply(v, r).gates == ApplyGates(v.gates, v.count + 1, r.event);
    hide Apply;
    match r.event
    case OperatingModeChanged(_) =>
    case HaltCauseAdded =>
    case HaltAcknowledged(_) =>
    case _ =>
  }

  lemma {:induction false} HaltIsFold(config: RiskConfig, log: seq<Record>)
    ensures Fold(config, log).gates.halt == ActiveHalt(log)
  {
    if log != [] {
      var v, r := Fold(config, log[..|log| - 1]), log[|log| - 1];
      HaltOfGates(v, r);
      hide Apply, ApplyHalt;
      HaltIsFold(config, log[..|log| - 1]);
    }
  }

  /** Attempted refs are exactly those with a send attempt somewhere in the log. */
  lemma {:induction false} AttemptedIffLogged(config: RiskConfig, log: seq<Record>, r: Ref)
    ensures r in Fold(config, log).orders.attempted <==>
            exists k :: 0 <= k < |log| && log[k].event.SendAttemptStarted? && log[k].event.ref == r
  {
    if log != [] {
      var m := |log| - 1;
      AttemptedIffLogged(config, log[..m], r);
      if r in Fold(config, log).orders.attempted && r !in Fold(config, log[..m]).orders.attempted {
        assert log[m].event.SendAttemptStarted? && log[m].event.ref == r;
      }
      if k :| 0 <= k < |log| && log[k].event.SendAttemptStarted? && log[k].event.ref == r {
        if k < m {
          assert log[..m][k] == log[k];
        }
      }
    }
  }
}
