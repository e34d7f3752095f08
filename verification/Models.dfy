/** The vocabulary of the platform: the four dimensions of the state vector, the
    value objects, and the journal's event types.

    One strategy trades one symbol, so there is one leg and no key for it. An
    intent id and the order reference built from it by an injective digest are one
    identity here, `Ref`. Instants are whole seconds; prices are exact reals. */
module Models {
  import opened Wrappers

  type Ref = nat
  type ExecId = nat
  type Instant = int

  const DAY: int := 86400

  // ---- the state vector ------------------------------------------------

  datatype LinkState = CONNECTED | DEGRADED | DISCONNECTED

  datatype SyncState = UNVERIFIED | SYNCING | SYNCED

  datatype OperatingMode = NORMAL | STOP_NEW | FLATTEN_ONLY | HALTED

  datatype OrderState =
    | IDLE
    | INTENT_COMMITTED
    | SUBMISSION_UNCERTAIN
    | PENDING_ACK
    | WORKING
    | PENDING_CANCEL
    | TERMINAL_UNRECONCILED
  {
    /** States in which the belief about the broker is not trustworthy. */
    predicate Untrustworthy() {
      SUBMISSION_UNCERTAIN? || TERMINAL_UNRECONCILED?
    }

    predicate BlocksNewOrder() {
      !IDLE?
    }
  }

  datatype Side = BUY | SELL

  datatype FlattenReason = EOD_FLATTEN | RISK_FLATTEN | MANUAL_FLATTEN | RECOVERY_FLATTEN

  datatype MissReason =
    | MISS_DISCONNECTED | MISS_NOT_SYNCED | RISK_BLOCKED | EXPIRED
    | MODE_BLOCKED | ORDER_STATE_BLOCKED | REPRICE_EXHAUSTED | BROKER_REJECTED

  datatype CancelReason = TARGET_CHANGED | TARGET_EXPIRED | REPRICE_TIMEOUT

  // ---- value objects ---------------------------------------------------

  /** A strategy names its decisions; a flatten derives its own name. */
  datatype DecisionId = Strategy(id: nat) | Flatten(reason: FlattenReason, at: Instant)

  datatype TargetPosition = TargetPosition(quantity: int, decision: DecisionId, validUntil: Instant) {
    predicate IsExpired(now: Instant) {
      now >= validUntil
    }
  }

  /** Top of book; its constructor rejects what `Valid` excludes. */
  datatype Quote = Quote(bid: real, ask: real, ts: Instant) {
    predicate Valid() {
      0.0 < bid <= ask
    }

    function Mid(): real {
      (bid + ask) / 2.0
    }

    function Spread(): real {
      ask - bid
    }
  }

  datatype OrderIntent = OrderIntent(
    ref: Ref,
    decision: DecisionId,
    side: Side,
    quantity: nat,
    limitPrice: Option<real>,
    target: int,
    positionSnapshot: int,
    workingSnapshot: int,
    validUntil: Instant,
    attempt: nat,
    flattenReason: Option<FlattenReason>)
  {
    function Signed(): int {
      var q: int := quantity;
      if side.BUY? then q else -q
    }
  }

  /** One fill. A correction arrives as new ids that name the original. */
  datatype Execution = Execution(
    id: ExecId,
    ref: Ref,
    side: Side,
    quantity: nat,
    isReversal: bool,
    corrects: Option<ExecId>)
  {
    function Signed(): int {
      var q: int := quantity;
      if side.BUY? == isReversal then -q else q
    }

    /** What this execution adds to the filled quantity of its order. */
    function Filled(): int {
      var q: int := quantity;
      if isReversal then -q else q
    }
  }

  /** A target no further from zero than the position and on the same side. */
  predicate IsClosing(target: int, position: int) {
    && Abs(target) <= Abs(position)
    && (target == 0 || target * position >= 0)
  }

  function Abs(x: int): nat {
    if x < 0 then -x else x
  }

  // ---- journal events --------------------------------------------------

  datatype Event =
    // target lifecycle
    | TargetReceived(decision: DecisionId, quantity: int)
    | TargetRejected(decision: DecisionId)
    | TargetSuperseded(decision: DecisionId, superseded: DecisionId)
    | TargetDeferred(decision: DecisionId, why: MissReason)
    | DecisionMissed(decision: DecisionId, why: MissReason)
    // order lifecycle
    | IntentCommitted(intent: OrderIntent)
    | SendAttemptStarted(ref: Ref, sendQuantity: nat, price: Option<real>)
    | SendCallReturned(ref: Ref)
    | SendCallFailed(ref: Ref, rejected: bool)
    | BrokerAckReceived(ref: Ref)
    | OrderWorking(ref: Ref)
    | CancelRequested(ref: Ref, cancelWhy: CancelReason)
    | CancelRejected(ref: Ref)
    | OrderCancelled(ref: Ref)
    | OrderRejected(ref: Ref)
    | OrderFilled(ref: Ref)
    | OrderAbsentConfirmed(ref: Ref)
    | RepriceTriggered(attempt: nat)
    | PartialExpired(ref: Ref)
    // execution ledger
    | ExecutionReceived(execution: Execution)
    | ExecutionReversal(exec: ExecId)
    | ExecutionCorrected(exec: ExecId)
    | FeeReceived(exec: ExecId)
    // end of day
    | EodFlattenStarted(position: int)
    | EodFlattenCompleted
    | EodFlattenFailed(residual: int, workingSigned: int)
    // sync and lifecycle
    | ReconciliationStarted
    | ReconciliationCompleted
    | ReconciliationFailed
    | BrokerFactAdopted(adopted: nat)
    | LinkStateChanged(link: LinkState)
    | SyncStateChanged(sync: SyncState)
    | OperatingModeChanged(mode: OperatingMode)
    | OrderStateChanged(orderState: OrderState)
    // safety
    | CallbackFailure(inCancel: bool)
    | InvariantViolated
    | HaltCauseAdded
    | HaltAcknowledged(haltSeq: nat)
    | RiskRejected(ref: Ref)
    | RiskConfigLoaded
    | RiskSelfTestPassed
    | ExternalOrderDetected
    | ProcessStarted
    | ProcessStateRestored(restoredMode: OperatingMode)
  {
    /** The four events that resolve an order. */
    predicate Terminal() {
      OrderFilled? || OrderCancelled? || OrderRejected? || OrderAbsentConfirmed?
    }

    /** The events that start or deepen a HALT. */
    predicate Halts() {
      (OperatingModeChanged? && mode.HALTED?) || HaltCauseAdded?
    }
  }

  /** One row of the journal; its sequence number is its index plus one. */
  datatype Record = Record(ts: Instant, event: Event)
}
