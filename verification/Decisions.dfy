/** The single decision point as a function, and what each decision does. */
module Decisions {
  import opened Wrappers
  import opened Models
  import opened RiskCounters
  import opened LogView
  import opened Brokers
  import opened Risk
  import opened Protocol
  import opened States
  import opened Sending

  /** What the leg wants, beside what it believes. */
  datatype Plan = Plan(
    desired: Option<TargetPosition>,
    deferred: Option<Deferral>,
    attempt: nat,
    flattenReason: Option<FlattenReason>)

  datatype Action =
    | Nothing                                             // no target, or it is being worked already
    | Discard(why: MissReason)                            // the decision produced no order
    | Hold(block: MissReason, state: Option<OrderState>)  // blocked for now
    | CancelFirst                                         // never a second order beside a working one
    | AtTarget
    | SendOrder(delta: int)

  /** Why a broker write is refused, if it is. Closing is allowed where opening is not. */
  function WriteGate(m: Memory, closing: bool): Option<MissReason> {
    if !m.link.CONNECTED? then Some(MISS_DISCONNECTED)
    else if !m.sync.SYNCED? then Some(MISS_NOT_SYNCED)
    else if m.mode.HALTED? then Some(MODE_BLOCKED)
    else if !closing && !m.mode.NORMAL? then Some(MODE_BLOCKED)
    else None
  }

  lemma OpenGateIsWider(m: Memory, closing: bool)
    ensures WriteGate(m, closing).None? ==> WriteGate(m, true).None?
    ensures WriteGate(m, closing).None? ==>
              m.link.CONNECTED? && m.sync.SYNCED? && !m.mode.HALTED? && (closing || m.mode.NORMAL?)
  {
  }

  function Decide(m: Memory, p: Plan, now: Instant): Action {
    if p.desired.None? then Nothing
    else
      var target := p.desired.value;
      var gate := WriteGate(m, IsClosing(target.quantity, m.position));
      if target.IsExpired(now) then Discard(EXPIRED)
      else if gate.Some? then Hold(gate.value, None)
      else if m.mode.FLATTEN_ONLY? && target.quantity != 0 then Discard(MODE_BLOCKED)
      else if m.os.WORKING? then
        if m.live.None? || m.live.value.target == target.quantity then Nothing else CancelFirst
      else if m.os.BlocksNewOrder() then Hold(ORDER_STATE_BLOCKED, Some(m.os))
      else
        var delta := target.quantity - m.position - m.working;
        if delta == 0 then AtTarget
        else if p.attempt >= MAX_ATTEMPTS then Discard(REPRICE_EXHAUSTED)
        else SendOrder(delta)
  }

  /** At rest with the gate open, only the gap and the ladder decide. */
  lemma DecideAtRest(m: Memory, p: Plan, now: Instant)
    requires p.desired.Some? && !p.desired.value.IsExpired(now) && m.os.IDLE?
    requires WriteGate(m, IsClosing(p.desired.value.quantity, m.position)).None?
    requires m.mode.FLATTEN_ONLY? ==> p.desired.value.quantity == 0
    ensures var delta := p.desired.value.quantity - m.position - m.working;
      Decide(m, p, now) == if delta == 0 then AtTarget
                           else if p.attempt >= MAX_ATTEMPTS then Discard(REPRICE_EXHAUSTED)
                           else SendOrder(delta)
  {
  }

  /** An order is sent only for a valid target, at rest, trusted, allowed by the mode,
      within the ladder, and for exactly the gap to the target. */
  lemma SendIsJustified(m: Memory, p: Plan, now: Instant)
    requires Decide(m, p, now).SendOrder?
    ensures p.desired.Some? && now < p.desired.value.validUntil
    ensures m.os.IDLE? && m.link.CONNECTED? && m.sync.SYNCED? && !m.mode.HALTED? && p.attempt < MAX_ATTEMPTS
    ensures m.mode.NORMAL? || IsClosing(p.desired.value.quantity, m.position)
    ensures m.mode.FLATTEN_ONLY? ==> p.desired.value.quantity == 0
    ensures m.position + m.working + Decide(m, p, now).delta == p.desired.value.quantity
  {
  }

  /** Outside NORMAL an order never takes the position further from zero. */
  lemma RestrictedModesOnlyReduce(m: Memory, p: Plan, now: Instant)
    requires Decide(m, p, now).SendOrder? && !m.mode.NORMAL? && m.working == 0
    ensures Abs(m.position + Decide(m, p, now).delta) <= Abs(m.position)
    ensures (m.position + Decide(m, p, now).delta) * m.position >= 0
  {
    SendIsJustified(m, p, now);
    var target := p.desired.value.quantity;
    assert m.position + Decide(m, p, now).delta == target;
    if target == 0 {
      assert target * m.position == 0;
    }
  }

  function Stamped(now: Instant, events: seq<Event>): (log: seq<Record>)
    ensures |log| == |events| && forall k :: 0 <= k < |log| ==> log[k] == Record(now, events[k])
  {
    seq(|events|, k requires 0 <= k < |events| => Record(now, events[k]))
  }

  // ---- what a change of state writes ------------------------------------------

  function SyncNotes(was: SyncState, to: SyncState): seq<Event> {
    if was == to then [] else [SyncStateChanged(to)]
  }

  function LinkNotes(was: LinkState, to: LinkState): seq<Event> {
    if was == to then [] else [LinkStateChanged(to)]
  }

  /** Entering an untrustworthy state also takes SYNCED away. */
  function OrderStateNotes(was: OrderState, to: OrderState, sync: SyncState): seq<Event> {
    if was == to then []
    else [OrderStateChanged(to)] + if to.Untrustworthy() then SyncNotes(sync, UNVERIFIED) else []
  }

  lemma StampedTwice(log: seq<Record>, now: Instant, first: seq<Event>, second: seq<Event>)
    ensures log + Stamped(now, first) + Stamped(now, second) == log + Stamped(now, first + second)
    ensures log + Stamped(now, first) <= log + Stamped(now, first + second)
  {
  }

  /** Up to its send attempt every order leaves the same four records. */
  function LaunchNotes(i: OrderIntent): seq<Event> {
    [IntentCommitted(i), OrderStateChanged(INTENT_COMMITTED), SendEvent(i), OrderStateChanged(PENDING_ACK)]
  }

  /** And then those of its fate: not sent, refused, unknown, or under way. */
  function FateNotes(i: OrderIntent, deferred: Option<Deferral>, unsent: bool, os: OrderState): seq<Event> {
    if unsent then
      [OrderStateChanged(IDLE)]
      + (if deferred == Some(Deferral(MODE_BLOCKED, None)) then [] else [TargetDeferred(i.decision, MODE_BLOCKED)])
    else if os.IDLE? then
      [SendCallFailed(i.ref, true), OrderStateChanged(IDLE), DecisionMissed(i.decision, BROKER_REJECTED)]
    else if os.SUBMISSION_UNCERTAIN? then
      [SendCallFailed(i.ref, false), OrderStateChanged(SUBMISSION_UNCERTAIN), SyncStateChanged(UNVERIFIED)]
    else [SendCallReturned(i.ref)]
  }

  function EndEvents(e: Event, note: Option<Event>): seq<Event> {
    if note.Some? then [e, note.value] else [e]
  }

  // ---- what each decision does --------------------------------------------

  /** Nothing reaches the broker. */
  predicate NothingSent(w: World, x: World) {
    x.placed == w.placed && x.cancels == w.cancels && x.book == w.book
  }

  /** The order for a gap of `delta`, sized and priced by what the leg believes. */
  function Proposal(m: Memory, p: Plan, ref: Ref, delta: int): OrderIntent
    requires p.desired.Some?
  {
    var t, side := p.desired.value, if delta > 0 then BUY else SELL;
    var price := LimitPrice(m.quote, side, p.attempt, IsClosing(t.quantity, m.position));
    OrderIntent(ref, t.decision, side, Abs(delta), price, t.quantity, m.position, m.working, t.validUntil,
                p.attempt, p.flattenReason)
  }

  /** The risk engine's verdict on an order, at the counters of the day. */
  predicate Admitted(config: RiskConfig, m: Memory, now: Instant, i: OrderIntent) {
    Admissible(config, Roll(m.counters, now), now, i, m.position, m.quote, IsClosing(i.target, m.position))
  }

  /** No order was created before, and at most this one now: nothing was sent because
      the attempt could not be pinned, or it was sent once and its fate recorded. */
  predicate Concluded(i: OrderIntent, w: World, n: Memory, x: World, dropped: bool) {
    && InLog(i, x.view.orders)
    && x.cancels == w.cancels
    && (x.placed == w.placed || x.placed == w.placed + [i.ref])
    && if x.placed == w.placed then
         n.os.IDLE? && n.live.None? && n.mode.HALTED? && n.fatal && x.book == w.book
       else if n.os.IDLE? then
         n.live.None? && dropped && x.book == w.book
       else if n.os.SUBMISSION_UNCERTAIN? then
         n.live == Some(i) && !n.sync.SYNCED? && (x.book == w.book || x.book == WithOrder(w.book, i))
       else
         n.os.PENDING_ACK? && n.live == Some(i) && n.working == i.Signed() && x.book == WithOrder(w.book, i)
  }

  /** What became of an order depends on the world before it only through the broker. */
  lemma ConcludedSince(i: OrderIntent, w: World, x: World, n: Memory, y: World, dropped: bool)
    requires x.placed == w.placed && x.cancels == w.cancels && x.book == w.book
    ensures Concluded(i, x, n, y, dropped) ==> Concluded(i, w, n, y, dropped)
  {
  }

  predicate InLog(i: OrderIntent, ob: OrderBook) {
    i.ref in ob.intents && ob.intents[i.ref] == i && i.ref in ob.attempted
  }

  /** An admitted order was durably attempted and then sent; a refused one was
      recorded as a missed decision. */
  predicate Sent(delta: int, m: Memory, p: Plan, w: World, n: Memory, q: Plan, x: World)
    requires p.desired.Some?
  {
    var i := Proposal(m, p, w.nextId, delta);
    if Admitted(w.view.config, m, w.now, i) then Concluded(i, w, n, x, q.desired.None?)
    else
      n == m.(counters := n.counters) && NothingSent(w, x) && q.desired.None?
  }

  /** The records of a send, one by one, whatever became of it. */
  predicate SendNoted(delta: int, m: Memory, p: Plan, w: World, n: Memory, x: World)
    requires p.desired.Some?
  {
    var i := Proposal(m, p, w.nextId, delta);
    x.log == w.log + Stamped(w.now,
      if Admitted(w.view.config, m, w.now, i) then LaunchNotes(i) + FateNotes(i, p.deferred, x.placed == w.placed, n.os)
      else [RiskRejected(i.ref), DecisionMissed(i.decision, RISK_BLOCKED)])
  }

  /** The live order was asked to cancel, durably first; if the request could not be
      pinned or the call failed, the order is unreconciled. */
  predicate CancelAsked(m: Memory, w: World, n: Memory, x: World) {
    && m.live.Some? && n.live == m.live
    && x.view.orders == w.view.orders.(cancelling := w.view.orders.cancelling + {m.live.value.ref})
    && AskedOrDistrusted(m, w, n, x)
  }

  /** The broker was asked once, or the order is unreconciled. */
  predicate AskedOrDistrusted(m: Memory, w: World, n: Memory, x: World)
    requires m.live.Some?
  {
    && n.live == m.live && x.placed == w.placed
    && (n.os.PENDING_CANCEL? ==> x.cancels == w.cancels + [m.live.value.ref])
    && (!n.os.PENDING_CANCEL? ==> n.os.TERMINAL_UNRECONCILED? && !n.sync.SYNCED?)
  }

  /** The order timers, first due first. */
  datatype Timer = NoneDue | AckOverdue | TargetDead | FillOverdue | CancelOverdue

  function DueTimer(m: Memory, sentAt: Option<Instant>, cancelAt: Option<Instant>, now: Instant): Timer {
    if m.os.PENDING_ACK? && sentAt.Some? && now - sentAt.value >= ACK_TIMEOUT then AckOverdue
    else if m.os.WORKING? && m.live.Some? && now >= m.live.value.validUntil then TargetDead
    else if m.os.WORKING? && sentAt.Some? && now - sentAt.value >= ORDER_TIMEOUT then FillOverdue
    else if m.os.PENDING_CANCEL? && cancelAt.Some? && now - cancelAt.value >= CANCEL_TIMEOUT then CancelOverdue
    else NoneDue
  }

  /** No timer ever sends: an order that is late is distrusted, or asked to cancel. */
  predicate TimerActed(t: Timer, m: Memory, w: World, n: Memory, x: World) {
    match t
    case NoneDue => n == m && x == w
    case AckOverdue => n == m.(os := SUBMISSION_UNCERTAIN, sync := n.sync) && !n.sync.SYNCED? && NothingSent(w, x)
    case CancelOverdue => n == m.(os := TERMINAL_UNRECONCILED, sync := n.sync) && !n.sync.SYNCED? && NothingSent(w, x)
    case _ =>
      if m.live.Some? && WriteGate(m, true).None? then CancelAsked(m, w, n, x) else n == m && NothingSent(w, x)
  }

  /** The state an action leads to. */
  predicate Acted(a: Action, m: Memory, p: Plan, w: World, n: Memory, q: Plan, x: World) {
    match a
    case Nothing => n == m && q == p && NothingSent(w, x)
    case AtTarget => n == m && q == p.(deferred := None) && NothingSent(w, x)
    case Discard(why) =>
      n == m && NothingSent(w, x) && q == Plan(None, None, if why.REPRICE_EXHAUSTED? then 0 else p.attempt, p.flattenReason)
    case Hold(block, state) => n == m && NothingSent(w, x) && q == p.(deferred := Some(Deferral(block, state)))
    case CancelFirst => q == p && CancelAsked(m, w, n, x)
    case SendOrder(delta) =>
      p.desired.Some? && q.flattenReason == p.flattenReason && q.attempt == p.attempt && Sent(delta, m, p, w, n, q, x)
  }

  /** What the log says of it. */
  predicate Noted(a: Action, m: Memory, p: Plan, w: World, n: Memory, x: World) {
    match a
    case Nothing => x.log == w.log
    case AtTarget => x.log == w.log
    case Discard(why) => p.desired.Some? && x.log == w.log + [Record(w.now, DecisionMissed(p.desired.value.decision, why))]
    case Hold(block, state) =>
      && p.desired.Some?
      && x.log == (if p.deferred == Some(Deferral(block, state)) then w.log
                   else w.log + [Record(w.now, TargetDeferred(p.desired.value.decision, block))])
    case CancelFirst => true
    case SendOrder(delta) => p.desired.Some? && SendNoted(delta, m, p, w, n, x)
  }

  /** The records before a decision do not change those of it. */
  lemma NotedAfterNotes(a: Action, m: Memory, p: Plan, w: World, x: World, n: Memory, y: World)
    requires Noted(a, m, p, x, n, y)
    requires x == w.(log := x.log, view := x.view, failed := x.failed) && x.view.config == w.view.config
    ensures Noted(a, m, p, w.(log := x.log), n, y)
  {
  }

  lemma ActedThenNotes(a: Action, m: Memory, p: Plan, w: World, n: Memory, q: Plan, x: World, y: World)
    requires Acted(a, m, p, w, n, q, x)
    requires y == x.(log := y.log, view := y.view, failed := y.failed) && y.view.orders == x.view.orders
    ensures Acted(a, m, p, w, n, q, y)
  {
  }

  /** While the account is not trusted nothing is decided but to wait or drop. */
  lemma ActedUntrusted(m: Memory, p: Plan, w: World, n: Memory, q: Plan, x: World)
    requires !m.sync.SYNCED?
    ensures !Decide(m, p, w.now).SendOrder? && !Decide(m, p, w.now).CancelFirst?
    ensures Acted(Decide(m, p, w.now), m, p, w, n, q, x) ==> n == m && NothingSent(w, x)
  {
  }

  /** A moment inside an operation, with what the timers read. */
  datatype Stage = Stage(m: Memory, p: Plan, w: World, sentAt: Option<Instant>, cancelAt: Option<Instant>)

  /** A waiting target had its turn. */
  predicate Turned(a: Stage, b: Stage) {
    if a.m.os.IDLE? && a.p.desired.Some? then
      var action := Decide(a.m, a.p, a.w.now);
      Acted(action, a.m, a.p, a.w, b.m, b.p, b.w) && Noted(action, a.m, a.p, a.w, b.m, b.w)
    else b == a
  }

  /** Then the first timer due, if any, acted. */
  predicate Ticked(b: Stage, c: Stage) {
    TimerActed(DueTimer(b.m, b.sentAt, b.cancelAt, b.w.now), b.m, b.w, c.m, c.w) && c.p == b.p
  }

  /** What an action does depends on the log only through what it adds to it. */
  lemma ActedAfterNotes(a: Action, m: Memory, p: Plan, w: World, x: World, n: Memory, q: Plan, y: World)
    requires Acted(a, m, p, x, n, q, y)
    requires x == w.(log := x.log, view := x.view, failed := x.failed, rec := x.rec, fence := x.fence, unfenced := x.unfenced)
    requires x.view.config == w.view.config && x.view.orders == w.view.orders
    ensures Acted(a, m, p, w, n, q, y)
  {
  }
}
