/** The state of the system as two values: what one process believes, and the world
    that outlives it. Everything an operation keeps, and everything the environment
    may do, is a relation between such values, so it means the same thing on either
    side of a restart. */
module States {
  import opened Wrappers
  import opened Models
  import opened RiskCounters
  import opened LogView
  import opened HaltFolds
  import opened Witnesses
  import opened Fences
  import opened Brokers
  import opened Risk
  import opened Protocol

  /** What the controller's invariants read of its own memory. */
  datatype Memory = Memory(
    link: LinkState,
    sync: SyncState,
    mode: OperatingMode,
    fatal: bool,
    os: OrderState,
    live: Option<OrderIntent>,
    position: int,
    working: int,
    booked: set<ExecId>,
    counters: Counters,
    quote: Option<Quote>,
    violations: nat,
    broken: bool)              // the journal's failure has been noticed

  /** What a new process knows before it has replayed the log: nothing but its counters. */
  function BlankMemory(counters: Counters): Memory {
    Memory(DISCONNECTED, UNVERIFIED, NORMAL, false, IDLE, None, 0, 0, {}, counters, None, 0, false)
  }

  /** Storage, witness, fence, broker and clock. */
  datatype World = World(
    id: nat,
    log: seq<Record>,
    view: View,
    failed: bool,              // this process's journal has latched a failure
    rec: Option<WitnessRecord>,
    fence: Option<FenceRecord>,
    book: Book,
    placed: seq<Ref>,
    cancels: seq<Ref>,
    nextId: nat,
    now: Instant,
    unfenced: nat)             // fence writes that failed

  // ---- the world --------------------------------------------------------

  /** Every order ever passed to the broker, whatever became of it. */
  function EverPlaced(w: World): set<Ref> {
    w.book.orders.Keys + set r | r in w.placed
  }

  /** What no crash, restart or tail loss can break. */
  ghost predicate Lasting(w: World) {
    && w.view == Fold(w.view.config, w.log)
    && w.view.config.Valid()
    && w.view.lawful
    && BookShape(w.view.orders)
    && (w.view.lastTs.Some? ==> w.view.lastTs.value <= w.now)
    && (forall r :: r in w.view.orders.intents ==> r < w.nextId)
    && (forall r :: r in w.book.orders ==> r < w.nextId)
    && WitnessPromise(w.id, w.log, w.rec, EverPlaced(w))
  }

  /** And the evidence the witness pins is still there. */
  ghost predicate Durable(w: World) {
    Lasting(w) && EvidenceHolds(w.id, w.log, w.rec)
  }

  /** A stop no restart can lose: a fence stands, or whatever tail the storage
      loses without the startup check noticing, an active HALT remains. */
  ghost predicate StopHeld(w: World) {
    w.fence.Some? || StopPinned(w.log, WitnessSeq(w.rec))
  }

  /** Every order at the broker is an attempted intent of the log, and one that
      can still fill is open there. */
  ghost predicate OrdersKnown(b: Book, ob: OrderBook) {
    forall r :: r in b.orders ==>
      && r in ob.attempted
      && r in ob.intents
      && ob.intents[r] == b.orders[r].intent
      && (IsOpen(b, r) ==> r in ob.open)
  }

  /** Exposure is bounded and the log knows where it came from. */
  ghost predicate ExposureKnown(w: World) {
    && Sound(w.book, w.view.config.maxPositionShares)
    && OrdersKnown(w.book, w.view.orders)
    && LedgerTrue(w.view.ledger, w.book.executions)
  }

  // ---- memory against the log -------------------------------------------

  function OpenOf(live: Option<OrderIntent>): set<Ref> {
    if live.Some? then {live.value.ref} else {}
  }

  /** Memory may trust link and sync only if the log says so too. */
  predicate GateLink(link: LinkState, sync: SyncState, g: Gates) {
    && (link.CONNECTED? ==> g.link.CONNECTED?)
    && (sync.SYNCED? ==> g.sync.SYNCED? && g.reconciled)
  }

  /** The mode in memory is the log's mode unless this process fenced itself, and
      an active HALT, a fence or a recorded residual is never weakened. */
  predicate ModeAgrees(mode: OperatingMode, fatal: bool, fenced: bool, g: Gates) {
    && (!fatal ==> mode == g.mode)
    && (fatal || fenced || g.halt.Some? ==> mode.HALTED?)
    && g.bootMode == g.mode
    && (g.armed ==> mode.FLATTEN_ONLY? || mode.HALTED?)
  }

  /** The order in memory is an open order of the log. */
  predicate LegShape(os: OrderState, live: Option<OrderIntent>, ob: OrderBook) {
    && !os.INTENT_COMMITTED?
    && (live.Some? ==> live.value.ref in ob.open && live.value.ref in ob.intents
                       && ob.intents[live.value.ref] == live.value)
    && (os.IDLE? ==> live.None?)
    && (live.None? ==> os.IDLE? || os.TERMINAL_UNRECONCILED?)
  }

  /** While SYNCED the belief is exact: the position is the ledger's, the log's
      open orders are exactly the one in memory, and at rest nothing is working. */
  predicate Trust(m: Memory, v: View) {
    m.sync.SYNCED? ==>
      && !m.os.Untrustworthy()
      && !v.orders.unsettled
      && m.position == v.ledger.expected
      && v.orders.open == OpenOf(m.live)
      && (m.live.None? ==> m.working == 0)
  }

  /** Live counters and the counters a restart would rebuild agree today. */
  predicate CountersAgree(c: Counters, logged: Counters, now: Instant) {
    && Roll(c, now) == Roll(logged, now)
    && (c.day.Some? ==> c.day.value <= UtcDay(now))
    && (logged.day.Some? ==> logged.day.value <= UtcDay(now))
  }

  /** The log is exactly one attempt ahead, the order's in flight: the process died
      between making its attempt durable and counting it. */
  predicate OneAhead(m: Memory, logged: Counters, now: Instant) {
    && m.live.Some?
    && CountersAgree(Count(m.counters, now, m.live.value.quantity, PriceOrZero(m.live.value.limitPrice)), logged, now)
  }

  /** What a restart rebuilds: the live counters, or one attempt more. */
  predicate Counted(m: Memory, w: World) {
    CountersAgree(m.counters, w.view.counters, w.now) || OneAhead(m, w.view.counters, w.now)
  }

  /** Everything but the shape of the leg and what SYNCED promises. */
  predicate Core(m: Memory, w: World) {
    && !m.broken
    && w.view.gates.proven && !w.view.gates.stopDue
    && GateLink(m.link, m.sync, w.view.gates)
    && ModeAgrees(m.mode, m.fatal, w.fence.Some?, w.view.gates)
    && m.booked == w.view.ledger.booked.Keys
    && CountersAgree(m.counters, w.view.counters, w.now)
    && (m.quote.Some? ==> m.quote.value.Valid())
  }

  /** What holds between any two operations, whatever the broker reports. */
  predicate Inv(m: Memory, w: World) {
    && Core(m, w)
    && LegShape(m.os, m.live, w.view.orders)
    && Trust(m, w.view)
  }

  /** While SYNCED, only the live order can have executions not yet booked. */
  predicate OnlyLivePending(m: Memory, w: World) {
    m.sync.SYNCED? ==>
      forall i :: 0 <= i < |w.book.executions| && i !in w.view.ledger.booked ==>
        m.live.Some? && w.book.executions[i].ref == m.live.value.ref
  }

  /** What also holds while the broker's reports have been truthful. */
  ghost predicate Exposed(m: Memory, w: World) {
    ExposureKnown(w) && OnlyLivePending(m, w)
  }

  // ---- truthful reports ---------------------------------------------------

  /** A truthful snapshot: if stable, its orders that are ours are exactly the open
      ones and its executions that are ours are exactly what happened. */
  ghost predicate HonestReply(reply: SnapshotReply, w: World) {
    reply.Got? && reply.snap.stable ==>
      var s, b, ob := reply.snap, w.book, w.view.orders;
      && (forall k :: 0 <= k < |s.openOrders| && s.openOrders[k].ref in ob.intents ==>
            && IsOpen(b, s.openOrders[k].ref)
            && s.openOrders[k].signedRemaining == b.orders[s.openOrders[k].ref].SignedRemaining())
      && (forall r :: IsOpen(b, r) ==> r in RefsOf(s.openOrders))
      && (forall k :: 0 <= k < |s.executions| && s.executions[k].ref in ob.intents ==>
            s.executions[k].id < |b.executions| && b.executions[s.executions[k].id] == s.executions[k])
      && (forall i :: 0 <= i < |b.executions| ==> b.executions[i] in s.executions)
  }

  /** And nobody else traded the account: it reports our orders and fills only,
      and the position they add up to. */
  ghost predicate UndisturbedReply(reply: SnapshotReply, w: World) {
    && reply.Got? && reply.snap.stable
    && HonestReply(reply, w)
    && (forall k :: 0 <= k < |reply.snap.openOrders| ==> reply.snap.openOrders[k].ref in w.view.orders.intents)
    && (forall k :: 0 <= k < |reply.snap.executions| ==> reply.snap.executions[k].ref in w.view.orders.intents)
    && reply.snap.position == w.book.position
  }

  predicate HonestExecution(x: Execution, w: World) {
    x.id < |w.book.executions| && w.book.executions[x.id] == x
  }

  predicate HonestCancel(r: Ref, w: World) {
    !IsOpen(w.book, r)
  }

  predicate HonestRejection(r: Ref, w: World) {
    !IsOpen(w.book, r) && forall i :: 0 <= i < |w.book.executions| ==> w.book.executions[i].ref != r
  }

  /** Every fill of the order is in the ledger. */
  predicate AllBooked(w: World, r: Ref) {
    forall i :: 0 <= i < |w.book.executions| && w.book.executions[i].ref == r ==> i in w.view.ledger.booked
  }

  lemma RejectionLeavesNothing(w: World, r: Ref)
    requires HonestRejection(r, w)
    ensures HonestCancel(r, w) && AllBooked(w, r)
  {
  }

  /** A call into the controller: from the strategy, the supervisor, or the broker. */
  datatype Input =
    | SubmitTarget(target: TargetPosition)
    | ManualFlatten(reason: FlattenReason)
    | StopRequested
    | HandlerRaised
    | ReconcileWith(reply: SnapshotReply)
    | TickDue
    | QuoteArrived(quote: Quote)
    | Connected(epoch: nat)
    | Disconnected
    | DataLost
    | DataRestored
    | Acked(ref: Ref)
    | Working(ref: Ref)
    | Executed(execution: Execution)
    | FeeCharged(exec: ExecId)
    | Cancelled(ref: Ref, reply: SnapshotReply)
    | CancelRefused(ref: Ref, reply: SnapshotReply)
    | Rejected(ref: Ref)
  {
    /** What the broker says of an order or an execution. */
    predicate IsReport() {
      Acked? || Working? || Executed? || FeeCharged?
    }

    /** That an order ended, or that its cancel was refused. */
    predicate IsEnding() {
      Cancelled? || CancelRefused? || Rejected?
    }
  }

  /** What the broker says is true now; it may come late, twice, or in any order. */
  ghost predicate Truthful(input: Input, w: World) {
    match input
    case ReconcileWith(reply) => HonestReply(reply, w)
    case Executed(e) => HonestExecution(e, w)
    case Cancelled(r, reply) => HonestCancel(r, w) && HonestReply(reply, w)
    case CancelRefused(_, reply) => HonestReply(reply, w)
    case Rejected(r) => HonestRejection(r, w)
    case _ => true
  }

  // ---- steps --------------------------------------------------------------

  /** Only the log moved, and no stop was lost. */
  ghost predicate Wrote(w: World, x: World) {
    && x == w.(log := x.log, view := x.view, failed := x.failed)
    && x.view.config == w.view.config
    && w.log <= x.log
    && (StopHeld(w) ==> StopHeld(x))
  }

  /** A write that touches no order, execution or counter. */
  ghost predicate GateStep(w: World, x: World) {
    && Wrote(w, x)
    && x.view.orders == w.view.orders
    && x.view.ledger == w.view.ledger
    && x.view.counters == w.view.counters
  }

  /** A write that moves no HALT and no mode either. */
  ghost predicate QuietStep(w: World, x: World) {
    && GateStep(w, x)
    && var g := x.view.gates;
       g == w.view.gates.(link := g.link, sync := g.sync, residual := g.residual)
  }

  /** A write of a mode or HALT event, with its witness and perhaps a fence. */
  ghost predicate ModeStep(w: World, x: World) {
    && x == w.(log := x.log, view := x.view, failed := x.failed, rec := x.rec, fence := x.fence, unfenced := x.unfenced)
    && x.view.config == w.view.config
    && w.log <= x.log
    && x.view.orders == w.view.orders
    && x.view.ledger == w.view.ledger
    && x.view.counters == w.view.counters
    && w.unfenced <= x.unfenced
    && (StopHeld(w) ==> StopHeld(x))
    && (w.fence.Some? ==> x.fence == w.fence)
    && var g := x.view.gates;
       g == w.view.gates.(mode := g.mode, bootMode := g.bootMode, halt := g.halt, stopDue := g.stopDue && w.view.gates.stopDue)
  }

  /** The log only grows, a stop stays, a fence is never cleared, and a HALTED
      controller stays HALTED and writes nothing to the broker. */
  ghost predicate Kept(m: Memory, w: World, n: Memory, x: World) {
    && w.log <= x.log && w.unfenced <= x.unfenced
    && (StopHeld(w) ==> StopHeld(x))
    && (w.fence.Some? ==> x.fence == w.fence)
    && (m.mode.HALTED? ==> n.mode.HALTED? && x.placed == w.placed && x.cancels == w.cancels)
    && n.violations == m.violations
    && x.now == w.now
    && x.id == w.id
    && x.view.config == w.view.config
  }

  /** A write of one order event, and quiet ones around it. */
  ghost predicate OrderStep(w: World, x: World, e: Event) {
    && Wrote(w, x)
    && (x.view.orders == w.view.orders || x.view.orders == ApplyOrders(w.view.orders, e))
    && x.view.ledger == w.view.ledger
    && x.view.counters == w.view.counters
    && var g := x.view.gates;
       g == w.view.gates.(link := g.link, sync := g.sync, residual := g.residual)
  }

  /** What every operation promises of the process and the log, got through or not. */
  ghost predicate Progress(m: Memory, w: World, n: Memory, x: World, done: bool) {
    && Kept(m, w, n, x)
    && x.failed == !done
    && Counted(n, x)
    && (done ==> Inv(n, x))
  }

  /** What it leaves of the exposure, if the broker has been truthful so far. */
  ghost predicate Safe(n: Memory, x: World, done: bool) {
    ExposureKnown(x) && (done ==> Exposed(n, x))
  }

  /** An operation that needs no further truth from the broker. */
  ghost predicate Outcome(m: Memory, w: World, n: Memory, x: World, done: bool) {
    Progress(m, w, n, x, done) && (Exposed(m, w) ==> Safe(n, x, done))
  }

  /** A process that fenced itself. */
  predicate Fenced(m: Memory) {
    m.broken && m.fatal && m.mode.HALTED? && m.sync.UNVERIFIED? && m.link.DEGRADED?
  }

  /** A running process is either sound or fenced. */
  predicate Live(m: Memory, w: World) {
    if w.failed then Fenced(m) else Inv(m, w)
  }

  // ---- what the steps keep ------------------------------------------------

  /** The log only grows, so nothing in it is forgotten. */
  lemma NothingForgotten(m: Memory, w: World, n: Memory, x: World)
    requires Kept(m, w, n, x) && Lasting(w) && Lasting(x)
    ensures Later(w.view, x.view)
  {
    hide EvidenceHolds, WitnessPromise, StopHeld, BookShape;
    assert x.log[..|w.log|] == w.log;
    PrefixFacts(x.view.config, x.log, |w.log|);
  }

  lemma DecisionsStay(m: Memory, w: World, n: Memory, x: World, done: bool)
    requires Outcome(m, w, n, x, done) && Lasting(w) && Lasting(x)
    ensures w.view.decisions <= x.view.decisions
  {
    hide Lasting, StopHeld;
    NothingForgotten(m, w, n, x);
  }

  lemma OutcomeFacts(m: Memory, w: World, n: Memory, x: World, done: bool)
    requires Outcome(m, w, n, x, done)
    ensures (m.mode.HALTED? ==> n.mode.HALTED?) && w.log <= x.log
  {
  }

  lemma ProgressFacts(m: Memory, w: World, n: Memory, x: World, done: bool)
    requires Progress(m, w, n, x, done) && Lasting(w) && Lasting(x)
    ensures w.log <= x.log && Later(w.view, x.view)
  {
    hide Lasting, StopHeld;
    NothingForgotten(m, w, n, x);
  }

  lemma QuietRefl(w: World)
    ensures QuietStep(w, w)
  {
  }

  lemma QuietIsGate(w: World, x: World)
    requires QuietStep(w, x)
    ensures GateStep(w, x)
  {
  }

  lemma QuietAgrees(mode: OperatingMode, fatal: bool, fenced: bool, w: World, x: World)
    requires QuietStep(w, x) && ModeAgrees(mode, fatal, fenced, w.view.gates)
    ensures ModeAgrees(mode, fatal, fenced, x.view.gates)
  {
  }

  lemma QuietFacts(w: World, x: World)
    requires QuietStep(w, x)
    ensures x.view.orders == w.view.orders && x.view.ledger == w.view.ledger
    ensures x.placed == w.placed && x.cancels == w.cancels && x.book == w.book && x.nextId == w.nextId
    ensures w.log <= x.log && x.view.config == w.view.config
  {
  }

  lemma QuietGateStep(w: World, x: World, e: Event)
    requires Quiet(e) && GateStep(w, x)
    requires x.view == w.view || x.view.gates == ApplyGates(w.view.gates, w.view.count + 1, e)
    ensures QuietStep(w, x)
  {
  }

  lemma QuietTrans(w: World, x: World, y: World)
    requires QuietStep(w, x) && QuietStep(x, y)
    ensures QuietStep(w, y)
  {
  }

  /** A lawful record, on disk or not, leaves the world durable and its stops held. */
  lemma AppendKeeps(w: World, x: World, r: Record)
    requires Durable(w) && LawfulEvent(w.view, w.now, r.event) && r.ts == w.now && !r.event.HaltAcknowledged?
    requires r.event.IntentCommitted? ==> r.event.intent.ref < w.nextId
    requires x == w.(log := x.log, view := x.view, failed := x.failed)
    requires (x.log == w.log && x.view == w.view) || (x.log == w.log + [r] && x.view == Apply(w.view, r))
    ensures Durable(x) && Wrote(w, x)
  {
    hide Fold, Apply, LawfulEvent, BookShape;
    if x.log != w.log {
      FoldSnoc(w.view.config, w.log, r);
      LawfulStepKeeps(w.view, r, w.nextId);
      CoversGrowth(w.log, x.log, w.rec, EverPlaced(w));
      if w.fence.None? && StopHeld(w) {
        StopSurvivesGrowth(w.log, x.log, WitnessSeq(w.rec));
      }
    }
  }

  /** A request that was refused or lost leaves the world as it was. */
  lemma UnwrittenKeeps(w: World, x: World)
    requires Durable(w) && x == w.(failed := x.failed)
    ensures Durable(x) && Wrote(w, x)
  {
  }

  /** A first claim of a decision is lawful and moves nothing but the claims. */
  lemma DecisionEffect(v: View, r: Record)
    requires r.event.TargetReceived?
    ensures var x := Apply(v, r);
      && x.orders == v.orders && x.ledger == v.ledger && x.counters == v.counters && x.gates == v.gates
      && x.decisions == v.decisions + {r.event.decision}
    ensures r.event.decision !in v.decisions ==> LawfulEvent(v, r.ts, r.event)
  {
  }

  /** Pinning an event that is at least as late keeps everything durable. */
  lemma PinKeeps(w: World, x: World, seqNo: nat)
    requires Durable(w) && 1 <= seqNo <= |w.log| && WitnessSeq(w.rec) <= seqNo
    requires Witnessed(w.log[seqNo - 1].event)
    requires x == w.(rec := Some(WitnessRecord(w.id, seqNo, w.log[seqNo - 1].event)))
    ensures Durable(x) && (StopHeld(w) ==> StopHeld(x))
  {
    CoversRepin(w.log, w.rec, EverPlaced(w), x.rec.value);
  }

  lemma WitnessWithin(w: World)
    requires Durable(w)
    ensures WitnessSeq(w.rec) <= |w.log|
  {
  }

  /** A fence changes nothing else, and is itself a stop. */
  lemma FenceKeeps(w: World, x: World)
    requires x == w.(fence := x.fence, unfenced := x.unfenced) && (w.fence.Some? ==> x.fence == w.fence)
    ensures (Durable(w) ==> Durable(x)) && (StopHeld(w) ==> StopHeld(x)) && (x.fence.Some? ==> StopHeld(x))
  {
  }

  /** A HALT that is active and pinned by the last event of the log is held. */
  lemma PinnedHaltIsHeld(w: World)
    requires Durable(w) && w.view.gates.halt.Some? && WitnessSeq(w.rec) == |w.log|
    ensures StopHeld(w)
  {
    HaltIsFold(w.view.config, w.log);
    assert w.log[..|w.log|] == w.log;
  }

  lemma ModeFacts(w: World, x: World)
    requires ModeStep(w, x)
    ensures x.view.gates.residual == w.view.gates.residual
    ensures x.view.config == w.view.config && x.view.orders == w.view.orders && w.log <= x.log
    ensures x == w.(log := x.log, view := x.view, failed := x.failed, rec := x.rec, fence := x.fence, unfenced := x.unfenced)
  {
  }

  lemma ModeRefl(w: World)
    ensures ModeStep(w, w)
  {
  }

  /** A mode or HALT event, then its witness and perhaps a fence. */
  lemma GateThenPin(w: World, x: World, y: World, e: Event)
    requires e.OperatingModeChanged? || e.HaltCauseAdded?
    requires GateStep(w, x)
    requires x.view == w.view || x.view.gates == ApplyGates(w.view.gates, w.view.count + 1, e)
    requires y == x.(rec := y.rec, fence := y.fence, unfenced := y.unfenced)
    requires (StopHeld(x) ==> StopHeld(y)) && (x.fence.Some? ==> y.fence == x.fence) && x.unfenced <= y.unfenced
    ensures ModeStep(w, y)
  {
  }

  /** Counting the same attempt keeps live and logged counters in agreement. */
  lemma CountingAgrees(c: Counters, logged: Counters, now: Instant, quantity: nat, price: real)
    requires CountersAgree(c, logged, now)
    ensures Count(c, now, quantity, price) == Count(logged, now, quantity, price)
    ensures CountersAgree(Count(c, now, quantity, price), Count(logged, now, quantity, price), now)
  {
  }

  // ---- steps in a row ------------------------------------------------------

  lemma OrderThenQuiet(w: World, x: World, y: World, e: Event)
    requires OrderStep(w, x, e) && QuietStep(x, y)
    ensures OrderStep(w, y, e)
    ensures x.view.orders == ApplyOrders(w.view.orders, e) ==> y.view.orders == ApplyOrders(w.view.orders, e)
  {
  }

  lemma ComposeSafe(m: Memory, w: World, n: Memory, x: World, o: Memory, y: World, done: bool)
    requires Progress(m, w, n, x, true) && Progress(n, x, o, y, done)
    requires Exposed(m, w) ==> Safe(o, y, done)
    ensures Outcome(m, w, o, y, done)
  {
  }

  lemma ThenOutcome(m: Memory, w: World, n: Memory, x: World, o: Memory, y: World, done: bool)
    requires Progress(m, w, n, x, true) && Outcome(n, x, o, y, done)
    ensures Progress(m, w, o, y, done)
    ensures Safe(n, x, true) ==> Safe(o, y, done)
  {
  }

  lemma ProgressTrans(m: Memory, w: World, n: Memory, x: World, o: Memory, y: World, done: bool)
    requires Progress(m, w, n, x, true) && Progress(n, x, o, y, done)
    ensures Progress(m, w, o, y, done)
  {
  }

  lemma ProgressRefl(m: Memory, w: World)
    requires Inv(m, w) && !w.failed
    ensures Progress(m, w, m, w, true)
  {
  }

  lemma PartsOutcome(m: Memory, w: World, n: Memory, x: World, done: bool)
    requires Progress(m, w, n, x, done) && (Exposed(m, w) ==> Safe(n, x, done))
    ensures Outcome(m, w, n, x, done)
  {
  }

  lemma OutcomeParts(m: Memory, w: World, n: Memory, x: World, done: bool)
    requires Outcome(m, w, n, x, done)
    ensures Progress(m, w, n, x, done)
    ensures Exposed(m, w) ==> Safe(n, x, done)
    ensures ExposureKnown(w) && !m.sync.SYNCED? ==> Safe(n, x, done)
  {
  }

  lemma SafeNow(m: Memory, w: World)
    ensures ExposureKnown(w) && !m.sync.SYNCED? ==> Safe(m, w, true)
  {
  }

  lemma OutcomeTrans(m: Memory, w: World, n: Memory, x: World, o: Memory, y: World, done: bool)
    requires Outcome(m, w, n, x, true) && Outcome(n, x, o, y, done)
    ensures Outcome(m, w, o, y, done)
  {
  }

  lemma OutcomeRefl(m: Memory, w: World)
    requires Inv(m, w) && !w.failed
    ensures Outcome(m, w, m, w, true)
  {
  }

  /** A quiet write, with memory moving only in ways that claim no more trust. */
  lemma QuietOutcome(m: Memory, w: World, n: Memory, x: World, done: bool)
    requires Inv(m, w) && QuietStep(w, x) && x.failed == !done
    requires n == m.(link := n.link, sync := n.sync, os := n.os, quote := n.quote)
    requires done ==> GateLink(n.link, n.sync, x.view.gates)
    requires done && n.os != m.os ==>
               && !n.os.INTENT_COMMITTED?
               && (n.os.IDLE? ==> n.live.None?)
               && (n.live.None? ==> n.os.IDLE? || n.os.TERMINAL_UNRECONCILED?)
    requires done && n.sync.SYNCED? ==> m.sync.SYNCED? && !n.os.Untrustworthy()
    requires n.quote == m.quote || (n.quote.Some? ==> n.quote.value.Valid())
    ensures Outcome(m, w, n, x, done) && (done ==> Inv(n, x))
  {
  }

  lemma StillOutcome(m: Memory, w: World, x: World, done: bool)
    requires Inv(m, w) && QuietStep(w, x) && x.failed == !done
    requires x.view.gates == w.view.gates
    ensures Outcome(m, w, m, x, done) && (done ==> Inv(m, x))
  {
    QuietOutcome(m, w, m, x, done);
  }

  /** Link and sync stay: the residual may move. */
  lemma ResidualOutcome(m: Memory, w: World, x: World, done: bool)
    requires Inv(m, w) && QuietStep(w, x) && x.failed == !done
    requires x.view.gates == w.view.gates.(residual := x.view.gates.residual)
    ensures Outcome(m, w, m, x, done) && (done ==> Inv(m, x))
  {
  }

  /** A mode may change as long as a HALT is not left. */
  lemma ModeOutcome(m: Memory, w: World, n: Memory, x: World, done: bool)
    requires Inv(m, w) && ModeStep(w, x) && x.failed == !done
    requires n == m.(mode := n.mode) && (m.mode.HALTED? ==> n.mode.HALTED?)
    requires done ==> ModeAgrees(n.mode, n.fatal, x.fence.Some?, x.view.gates)
    ensures Outcome(m, w, n, x, done) && (done ==> Inv(n, x))
  {
  }

  /** A fact that calls for a HALT, what is no longer trusted because of it, and the
      HALT itself, as far as the journal allowed. */
  lemma QuarantineOutcome(m: Memory, w: World, x: World, y: World, n: Memory, z: World, done: bool)
    requires Inv(m, w) && GateStep(w, x) && QuietStep(x, y) && ModeStep(y, z) && z.failed == !done
    requires x.view.gates == w.view.gates || x.view.gates == w.view.gates.(stopDue := true)
    requires n == m.(sync := n.sync, mode := n.mode) && (n.sync == m.sync || n.sync.UNVERIFIED?)
    requires m.mode.HALTED? ==> n.mode.HALTED?
    requires done ==>
               && GateLink(n.link, n.sync, y.view.gates)
               && ModeAgrees(n.mode, n.fatal, z.fence.Some?, z.view.gates)
               && !z.view.gates.stopDue
    ensures Outcome(m, w, n, z, done) && (done ==> Inv(n, z))
  {
  }

  lemma NoOrderMoved(w: World, x: World, e: Event)
    requires OrderStep(w, x, e) && ApplyOrders(w.view.orders, e) == w.view.orders
    ensures QuietStep(w, x)
  {
  }

  /** The events that end an order. */
  predicate Resolving(e: Event) {
    e.Terminal() || (e.SendCallFailed? && e.rejected)
  }

  /** The events that end a given order. */
  predicate Ends(e: Event, r: Ref) {
    || e == OrderFilled(r) || e == OrderCancelled(r) || e == OrderRejected(r) || e == OrderAbsentConfirmed(r)
    || e == SendCallFailed(r, true)
  }

  lemma EndsIsResolving(e: Event, r: Ref)
    requires Ends(e, r)
    ensures OrderOnly(e) && Resolving(e) && e.ref == r
  {
  }

  lemma NotBroken(m: Memory, w: World)
    requires Inv(m, w)
    ensures !m.broken
  {
  }

  /** What was logged stays where it was. */
  lemma StillLogged(w: World, x: World)
    requires QuietStep(w, x)
    ensures |w.log| <= |x.log| && forall k :: 0 <= k < |w.log| ==> x.log[k] == w.log[k]
  {
  }

  lemma LiveIsAttempted(m: Memory, w: World)
    requires Inv(m, w)
    ensures m.live.Some? && BookShape(w.view.orders) ==> m.live.value.ref in w.view.orders.attempted
  {
  }

  lemma InvFacts(m: Memory, w: World)
    requires Inv(m, w)
    ensures GateLink(m.link, m.sync, w.view.gates)
    ensures ModeAgrees(m.mode, m.fatal, w.fence.Some?, w.view.gates)
    ensures m.booked == w.view.ledger.booked.Keys
    ensures m.sync.SYNCED? ==> !m.os.Untrustworthy()
    ensures m.os.IDLE? ==> m.live.None?
    ensures m.live.None? ==> m.os.IDLE? || m.os.TERMINAL_UNRECONCILED?
    ensures m.live.Some? ==> m.live.value.ref in w.view.orders.open && m.live.value.ref in w.view.orders.intents
  {
  }

  /** The live order is resolved in the log and cleared from memory. */
  lemma ResolveInv(m: Memory, w: World, n: Memory, x: World, e: Event, done: bool)
    requires Inv(m, w) && m.live.Some? && OrderStep(w, x, e) && x.failed == !done
    requires Resolving(e)
    requires e.ref == m.live.value.ref
    requires n == m.(live := n.live, working := n.working, os := n.os, sync := n.sync)
    requires done ==>
               && x.view.orders == ApplyOrders(w.view.orders, e)
               && n.live.None? && n.working == 0
               && (n.os.IDLE? || (n.os.TERMINAL_UNRECONCILED? && !n.sync.SYNCED?))
               && (n.sync.SYNCED? ==> m.sync.SYNCED? && !e.OrderCancelled?)
               && GateLink(n.link, n.sync, x.view.gates)
    ensures Progress(m, w, n, x, done)
  {
  }

  /** The log may close an order that can no longer fill. */
  lemma ResolveKnown(w: World, x: World, e: Event)
    requires ExposureKnown(w) && OrderStep(w, x, e) && Resolving(e) && HonestCancel(e.ref, w)
    ensures ExposureKnown(x)
  {
    assert x.view.orders.intents == w.view.orders.intents && x.view.orders.attempted == w.view.orders.attempted;
    forall r | IsOpen(x.book, r)
      ensures r in x.view.orders.open
    {
      assert r != e.ref && r in w.view.orders.open;
    }
  }

  /** It is safe to forget an order that can no longer fill, once what it did is
      booked or nothing is trusted until the next snapshot. */
  lemma ResolveSafe(m: Memory, w: World, n: Memory, x: World, e: Event, done: bool)
    requires Exposed(m, w) && m.live.Some? && OrderStep(w, x, e)
    requires Resolving(e)
    requires e.ref == m.live.value.ref && HonestCancel(e.ref, w)
    requires done && n.sync.SYNCED? ==> m.sync.SYNCED? && AllBooked(w, e.ref)
    ensures Safe(n, x, done)
  {
    hide ExposureKnown, ApplyOrders, Resolving;
    ResolveKnown(w, x, e);
  }

  lemma ResolveOutcome(m: Memory, w: World, n: Memory, x: World, e: Event, next: OrderState, done: bool)
    requires Inv(m, w) && m.live.Some? && OrderStep(w, x, e) && x.failed == !done
    requires Ends(e, m.live.value.ref) && (next.IDLE? || next.TERMINAL_UNRECONCILED?)
    requires e.OrderCancelled? ==> next.TERMINAL_UNRECONCILED?
    requires n == m.(live := n.live, working := n.working, os := n.os, sync := n.sync)
    requires done ==>
               && x.view.orders == ApplyOrders(w.view.orders, e)
               && n.live.None? && n.working == 0 && n.os == next
               && n.sync == (if next.TERMINAL_UNRECONCILED? && !m.os.TERMINAL_UNRECONCILED? then UNVERIFIED else m.sync)
               && GateLink(n.link, n.sync, x.view.gates)
    ensures Progress(m, w, n, x, done) && (done ==> Inv(n, x))
    ensures Exposed(m, w) && HonestCancel(m.live.value.ref, w) && (next.IDLE? ==> AllBooked(w, m.live.value.ref))
            ==> Safe(n, x, done)
  {
    hide ApplyOrders, Exposed, Safe, OrderStep;
    EndsIsResolving(e, m.live.value.ref);
    InvFacts(m, w);
    ResolveInv(m, w, n, x, e, done);
    if Exposed(m, w) && HonestCancel(e.ref, w) && (next.IDLE? ==> AllBooked(w, e.ref)) {
      ResolveSafe(m, w, n, x, e, done);
    }
  }

  // ---- fail closed ---------------------------------------------------------

  /** An operation the journal cut short, then the fence. */
  lemma FencedKeeps(m: Memory, w: World, n: Memory, x: World, o: Memory, y: World)
    requires Progress(m, w, n, x, false)
    requires o == n.(broken := true, fatal := true, link := DEGRADED, sync := UNVERIFIED, mode := HALTED)
    requires y == x.(fence := y.fence, unfenced := y.unfenced)
    requires (x.fence.Some? ==> y.fence == x.fence) && (StopHeld(x) ==> StopHeld(y))
    requires x.unfenced <= y.unfenced
    ensures Live(o, y) && Kept(m, w, o, y)
    ensures Safe(n, x, false) ==> Exposed(o, y)
  {
  }

  lemma FencedStays(m: Memory, w: World, o: Memory, y: World)
    requires w.failed && Fenced(m)
    requires o == m.(broken := true, fatal := true, link := DEGRADED, sync := UNVERIFIED, mode := HALTED)
    requires y == w.(fence := y.fence, unfenced := y.unfenced)
    requires (w.fence.Some? ==> y.fence == w.fence) && (StopHeld(w) ==> StopHeld(y))
    requires w.unfenced <= y.unfenced
    ensures Live(o, y) && Kept(m, w, o, y)
    ensures Exposed(m, w) ==> Exposed(o, y)
  {
  }
}
