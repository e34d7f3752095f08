/** Why a send is lawful and safe, one durable step at a time. */
module Sending {
  import opened Wrappers
  import opened Models
  import opened RiskCounters
  import opened LogView
  import opened Witnesses
  import opened Brokers
  import opened Risk
  import opened Protocol
  import opened States

  /** What `_evaluate` and the risk engine establish before an intent is committed. */
  ghost predicate Sendable(m: Memory, w: World, i: OrderIntent) {
    && Inv(m, w)
    && w.view.config.Valid()
    && BookShape(w.view.orders)
    && m.os.IDLE?
    && m.link.CONNECTED?
    && m.sync.SYNCED?
    && !m.mode.HALTED?
    && (IsClosing(i.target, m.position) || m.mode.NORMAL?)
    && (m.mode.FLATTEN_ONLY? ==> i.target == 0)
    && i.positionSnapshot == m.position
    && i.ref !in w.view.orders.intents
    && i.ref !in w.book.orders
    && w.now < i.validUntil
    && 0 < i.quantity
    && m.position + i.Signed() == i.target
    && Abs(i.target) <= w.view.config.maxPositionShares
    && WithinCaps(w.view.config, w.view.counters, w.now, i.quantity, PriceOrZero(i.limitPrice))
  }

  function SendEvent(i: OrderIntent): Event {
    SendAttemptStarted(i.ref, i.quantity, i.limitPrice)
  }

  /** The intent is durable and nothing else has happened. */
  ghost predicate Ready(m: Memory, w: World, i: OrderIntent) {
    && Core(m, w)
    && m.os.INTENT_COMMITTED?
    && m.live == Some(i)
    && m.link.CONNECTED?
    && m.sync.SYNCED?
    && m.position == w.view.ledger.expected
    && m.working == 0
    && i.ref in w.view.orders.intents && w.view.orders.intents[i.ref] == i
    && BookShape(w.view.orders)
    && LawfulSend(w.view, w.now, SendEvent(i))
  }

  /** The attempt is durable and counted; the order is the only one in flight. */
  ghost predicate InFlight(m: Memory, w: World, i: OrderIntent) {
    && Inv(m, w)
    && m.os.PENDING_ACK?
    && m.live == Some(i)
    && m.link.CONNECTED?
    && m.sync.SYNCED?
    && m.working == 0
    && i.ref in w.view.orders.intents && w.view.orders.intents[i.ref] == i
    && w.view.orders.open == {i.ref} && w.view.orders.cancelling == {} && w.view.orders.working == {}
    && i.ref in w.view.orders.attempted
  }

  lemma InFlightFacts(m: Memory, w: World, i: OrderIntent)
    requires InFlight(m, w, i)
    ensures m.os.PENDING_ACK? && m.live == Some(i) && m.sync.SYNCED? && m.link.CONNECTED? && m.working == 0
    ensures i.ref in w.view.orders.intents && w.view.orders.intents[i.ref] == i && i.ref in w.view.orders.attempted
  {
  }

  /** The end of an order does not make the log forget it. */
  lemma EndedIsRemembered(ob: OrderBook, r: Ref)
    ensures var ended := ApplyOrders(ob, SendCallFailed(r, true));
      ended.intents == ob.intents && ended.attempted == ob.attempted && r !in ended.open
  {
  }

  /** At rest and SYNCED under truthful reports: nothing at the broker can still
      fill, every execution is booked, and the position in memory is the broker's. */
  lemma AtRest(m: Memory, w: World)
    requires Lasting(w) && Inv(m, w) && Exposed(m, w) && m.sync.SYNCED? && m.live.None?
    ensures forall r :: !IsOpen(w.book, r)
    ensures forall i :: 0 <= i < |w.book.executions| ==> i in w.view.ledger.booked
    ensures w.book.position == m.position
  {
    var xs, lg := w.book.executions, w.view.ledger;
    ExpectedIsClaimedSum(w.view.config, w.log, xs, 0);
    ClaimAll(xs, lg.booked.Keys);
  }

  /** A fresh id and a rolled counter change nothing that matters. */
  lemma ProposalKeeps(m: Memory, w: World, n: Memory, x: World)
    requires Durable(w) && Inv(m, w) && !w.failed
    requires n == m.(counters := Roll(m.counters, w.now)) && x == w.(nextId := w.nextId + 1)
    ensures Durable(x) && Lasting(x) && Inv(n, x) && Outcome(m, w, n, x, true)
  {
  }

  /** What the risk engine admits, sized for its target, is sendable. */
  lemma ProposalIsSendable(m: Memory, w: World, n: Memory, x: World, i: OrderIntent, closing: bool)
    requires Durable(w) && Inv(m, w)
    requires n == m.(counters := Roll(m.counters, w.now)) && x == w.(nextId := w.nextId + 1)
    requires m.os.IDLE? && m.link.CONNECTED? && m.sync.SYNCED? && !m.mode.HALTED?
    requires closing == IsClosing(i.target, m.position) && (closing || m.mode.NORMAL?)
    requires m.mode.FLATTEN_ONLY? ==> i.target == 0
    requires i.ref == w.nextId && i.positionSnapshot == m.position && w.now < i.validUntil
    requires m.position + i.Signed() + m.working == i.target
    requires Admissible(w.view.config, n.counters, w.now, i, m.position, m.quote, closing)
    ensures Sendable(n, x, i)
  {
    AdmissibleWithinCaps(w.view.config, m.counters, w.now, i, m.position, m.quote, closing);
    assert Inv(n, x) by {
      ProposalKeeps(m, w.(failed := false), n, x.(failed := false));
    }
  }

  /** The world moved by the intent and quiet writes only. */
  ghost predicate IntentStep(w: World, x: World, i: OrderIntent) {
    && Wrote(w, x)
    && x.view.ledger == w.view.ledger
    && x.view.counters == w.view.counters
    && (x.view.orders == w.view.orders || x.view.orders == ApplyOrders(w.view.orders, IntentCommitted(i)))
    && var g := x.view.gates;
       g == w.view.gates.(link := g.link, sync := g.sync, residual := g.residual)
  }

  lemma IntentWritten(m: Memory, w: World, x: World, i: OrderIntent)
    requires Sendable(m, w, i) && Wrote(w, x)
    requires x.view == w.view || x.view == Apply(w.view, Record(w.now, IntentCommitted(i)))
    ensures IntentStep(w, x, i) && x.view.gates == w.view.gates
    ensures x.view == Apply(w.view, Record(w.now, IntentCommitted(i))) ==>
              x.view.orders == ApplyOrders(w.view.orders, IntentCommitted(i))
  {
    IntentIsLawful(m, w, i);
    hide Apply, Sendable, ApplyOrders;
  }

  lemma IntentThenQuiet(w: World, x: World, y: World, i: OrderIntent)
    requires IntentStep(w, x, i) && QuietStep(x, y)
    ensures IntentStep(w, y, i) && y.view.orders == x.view.orders
  {
  }

  /** The intent of a sendable order may be committed, and moves nothing but the
      set of intents. */
  lemma IntentIsLawful(m: Memory, w: World, i: OrderIntent)
    requires Sendable(m, w, i)
    ensures LawfulEvent(w.view, w.now, IntentCommitted(i)) && m.os.IDLE?
    ensures GateLink(m.link, m.sync, w.view.gates)
    ensures var v := Apply(w.view, Record(w.now, IntentCommitted(i)));
      && v.config == w.view.config && v.gates == w.view.gates && v.ledger == w.view.ledger && v.counters == w.view.counters
      && v.orders == ApplyOrders(w.view.orders, IntentCommitted(i))
  {
  }

  /** Committing it touches no order already known. */
  lemma IntentKeepsExposure(m: Memory, w: World, x: World, i: OrderIntent)
    requires Sendable(m, w, i) && IntentStep(w, x, i)
    ensures Counted(m, x)
    ensures ExposureKnown(w) ==> ExposureKnown(x)
  {
  }

  /** A durable intent makes its one send attempt lawful. */
  lemma IntentMakesReady(m: Memory, w: World, n: Memory, x: World, i: OrderIntent)
    requires Sendable(m, w, i) && IntentStep(w, x, i) && Durable(x)
    requires n == m.(live := Some(i), os := INTENT_COMMITTED)
    requires x.view.orders == ApplyOrders(w.view.orders, IntentCommitted(i))
    requires GateLink(n.link, n.sync, x.view.gates)
    ensures Ready(n, x, i)
  {
    assert w.view.orders.open == {};
  }

  /** The world moved by the send attempt and quiet writes only. */
  ghost predicate AttemptStep(w: World, x: World, i: OrderIntent) {
    && Wrote(w, x)
    && x.view.ledger == w.view.ledger
    && ((x.view.orders == w.view.orders && x.view.counters == w.view.counters)
        || (x.view.orders == ApplyOrders(w.view.orders, SendEvent(i))
            && x.view.counters == Count(w.view.counters, w.now, i.quantity, PriceOrZero(i.limitPrice))))
    && var g := x.view.gates;
       g == w.view.gates.(link := g.link, sync := g.sync, residual := g.residual)
  }

  /** A ready order may be attempted, and the attempt makes it the only open one. */
  lemma AttemptIsLawful(m: Memory, w: World, i: OrderIntent)
    requires Ready(m, w, i) && Durable(w)
    ensures LawfulEvent(w.view, w.now, SendEvent(i)) && SendEvent(i) == SendAttemptStarted(i.ref, i.quantity, i.limitPrice)
    ensures m.link.CONNECTED? && m.sync.SYNCED? && m.live == Some(i) && m.os.INTENT_COMMITTED?
    ensures GateLink(m.link, m.sync, w.view.gates) && WitnessSeq(w.rec) <= |w.log|
    ensures var v := Apply(w.view, Record(w.now, SendEvent(i)));
      && v.config == w.view.config && v.gates == w.view.gates && v.ledger == w.view.ledger
      && v.orders == ApplyOrders(w.view.orders, SendEvent(i))
      && v.counters == Count(w.view.counters, w.now, i.quantity, PriceOrZero(i.limitPrice))
  {
  }

  lemma AttemptWritten(m: Memory, w: World, x: World, i: OrderIntent)
    requires Ready(m, w, i) && Durable(w) && Wrote(w, x)
    requires x.view == w.view || x.view == Apply(w.view, Record(w.now, SendEvent(i)))
    ensures AttemptStep(w, x, i) && x.view.gates == w.view.gates
    ensures x.view == Apply(w.view, Record(w.now, SendEvent(i))) ==>
              && x.view.orders == ApplyOrders(w.view.orders, SendEvent(i))
              && x.view.counters == Count(w.view.counters, w.now, i.quantity, PriceOrZero(i.limitPrice))
  {
    hide Apply, Ready, Durable, ApplyOrders, Count, SendEvent;
    AttemptIsLawful(m, w, i);
  }

  lemma AttemptThenQuiet(w: World, x: World, y: World, i: OrderIntent)
    requires AttemptStep(w, x, i) && QuietStep(x, y)
    ensures AttemptStep(w, y, i) && y.view.orders == x.view.orders && y.view.counters == x.view.counters
    ensures |x.log| <= |y.log| && forall k :: 0 <= k < |x.log| ==> y.log[k] == x.log[k]
  {
  }

  /** Between the attempt and its count, a restart would count exactly one more. */
  lemma AttemptKeepsExposure(m: Memory, w: World, x: World, i: OrderIntent)
    requires Ready(m, w, i) && AttemptStep(w, x, i)
    ensures Counted(m, x)
    ensures ExposureKnown(w) ==> ExposureKnown(x)
  {
    var q, p := i.quantity, PriceOrZero(i.limitPrice);
    CountingAgrees(m.counters, w.view.counters, w.now, q, p);
    assert CountersAgree(Count(m.counters, w.now, q, p), Count(w.view.counters, w.now, q, p), w.now);
  }

  lemma AttemptInFlight(m: Memory, w: World, n: Memory, x: World, i: OrderIntent)
    requires Ready(m, w, i) && AttemptStep(w, x, i)
    requires x.view.orders == ApplyOrders(w.view.orders, SendEvent(i))
    requires x.view.counters == Count(w.view.counters, w.now, i.quantity, PriceOrZero(i.limitPrice))
    requires n == m.(os := PENDING_ACK, counters := Count(m.counters, w.now, i.quantity, PriceOrZero(i.limitPrice)))
    requires GateLink(n.link, n.sync, x.view.gates)
    ensures InFlight(n, x, i)
  {
    CountingAgrees(m.counters, w.view.counters, w.now, i.quantity, PriceOrZero(i.limitPrice));
  }

  /** From a sendable order to one in flight, or as far as the journal allowed:
      nothing has reached the broker. */
  ghost predicate Launched(m: Memory, w: World, n: Memory, x: World, done: bool) {
    && Progress(m, w, n, x, done)
    && x == w.(log := x.log, view := x.view, failed := x.failed, rec := x.rec, fence := x.fence, unfenced := x.unfenced)
    && x.view.ledger == w.view.ledger
    && (ExposureKnown(w) ==> ExposureKnown(x))
  }

  lemma IntentLaunch(m: Memory, w: World, n: Memory, x: World, i: OrderIntent)
    requires Sendable(m, w, i) && IntentStep(w, x, i) && x.failed
    requires n == m.(live := n.live, os := n.os, sync := n.sync)
    ensures Launched(m, w, n, x, false)
  {
    IntentKeepsExposure(m, w, x, i);
  }

  lemma AttemptLaunch(m: Memory, w: World, n: Memory, x: World, o: Memory, y: World, i: OrderIntent, done: bool)
    requires Sendable(m, w, i) && IntentStep(w, x, i)
    requires n == m.(live := Some(i), os := INTENT_COMMITTED)
    requires Ready(n, x, i) && AttemptStep(x, y, i) && y.failed == !done
    requires o == n.(os := o.os, sync := o.sync, counters := o.counters)
    requires !done ==> o.counters == n.counters
    requires done ==> InFlight(o, y, i)
    ensures Launched(m, w, o, y, done)
  {
    IntentKeepsExposure(m, w, x, i);
    AttemptKeepsExposure(n, x, y, i);
  }

  lemma LaunchFailed(m: Memory, w: World, n: Memory, x: World)
    requires Launched(m, w, n, x, false)
    ensures Outcome(m, w, n, x, false)
  {
  }

  /** The broker at rest before a send, and what placing the order may do to it. */
  ghost predicate MayPlace(w: World, x: World, i: OrderIntent) {
    && x == w.(book := x.book, placed := w.placed + [i.ref])
    && (x.book == w.book || x.book == WithOrder(w.book, i))
  }

  /** Nothing has happened at the broker since the send began, except perhaps the
      order itself, which is safe there. */
  lemma PlacingIsSafe(m: Memory, w: World, n: Memory, x: World, y: World, i: OrderIntent)
    requires Sendable(m, w, i) && Lasting(w) && Exposed(m, w)
    requires InFlight(n, x, i) && ExposureKnown(x)
    requires x.book == w.book && x.view.ledger == w.view.ledger && x.view.config == w.view.config
    requires MayPlace(x, y, i)
    ensures Exposed(n, y)
    ensures y.book == x.book ==> HonestRejection(i.ref, y)
  {
    AtRest(m, w);
    PlacingKeepsSound(w.book, w.view.config.maxPositionShares, i);
    forall k | 0 <= k < |w.book.executions|
      ensures w.book.executions[k].ref != i.ref
    {
      assert ExecutionSound(w.book, k);
    }
  }

  /** The process that could not pin its attempt forgets the order and stays fenced. */
  lemma FencedSend(m: Memory, w: World, n: Memory, x: World, i: OrderIntent, done: bool)
    requires InFlight(m, w, i) && QuietStep(w.(rec := x.rec, fence := x.fence, unfenced := x.unfenced), x) && x.failed == !done
    requires StopHeld(w) ==> StopHeld(w.(rec := x.rec, fence := x.fence, unfenced := x.unfenced))
    requires (w.fence.Some? ==> x.fence == w.fence) && w.unfenced <= x.unfenced
    requires n == m.(fatal := true, link := DEGRADED, sync := UNVERIFIED, mode := HALTED, os := n.os, live := n.live)
    requires done ==> n.os.IDLE? && n.live.None?
    ensures Progress(m, w, n, x, done)
    ensures ExposureKnown(w) ==> Safe(n, x, done)
  {
  }

  /** A send whose fate is unknown is trusted no further. */
  lemma UncertainSend(m: Memory, w: World, n: Memory, x: World, i: OrderIntent, done: bool)
    requires InFlight(m, w, i) && QuietStep(w, x) && x.failed == !done
    requires n == m.(os := n.os, sync := n.sync)
    requires n.sync == m.sync || n.sync == UNVERIFIED
    requires done ==> n.os.SUBMISSION_UNCERTAIN? && n.sync == UNVERIFIED && GateLink(n.link, n.sync, x.view.gates)
    ensures Outcome(m, w, n, x, done) && (done ==> Inv(n, x))
  {
  }

  lemma AcceptedSend(m: Memory, w: World, i: OrderIntent, working: int, x: World, done: bool)
    requires InFlight(m, w, i) && QuietStep(w, x) && x.failed == !done
    requires done ==> GateLink(m.link, m.sync, x.view.gates)
    ensures Outcome(m, w, m.(working := working), x, done)
  {
  }

  lemma AttemptIsWitnessed(i: OrderIntent)
    ensures Witnessed(SendEvent(i))
  {
  }

  lemma PinLaunched(m: Memory, w: World, n: Memory, x: World, y: World, i: OrderIntent)
    requires Launched(m, w, n, x, true) && InFlight(n, x, i)
    requires y == x.(rec := y.rec) && (StopHeld(x) ==> StopHeld(y))
    ensures Launched(m, w, n, y, true) && InFlight(n, y, i)
  {
  }

  lemma PlaceLaunched(m: Memory, w: World, n: Memory, x: World, y: World, i: OrderIntent)
    requires Sendable(m, w, i) && Lasting(w)
    requires Launched(m, w, n, x, true) && InFlight(n, x, i) && MayPlace(x, y, i)
    ensures Progress(m, w, n, y, true) && InFlight(n, y, i)
    ensures Exposed(m, w) ==> Exposed(n, y) && (y.book == x.book ==> HonestRejection(i.ref, y))
  {
    if Exposed(m, w) {
      PlacingIsSafe(m, w, n, x, y, i);
    }
  }

  lemma ComposeLaunch(m: Memory, w: World, n: Memory, x: World, o: Memory, y: World, done: bool)
    requires Launched(m, w, n, x, true) && Progress(n, x, o, y, done)
    requires ExposureKnown(x) ==> Safe(o, y, done)
    ensures Outcome(m, w, o, y, done)
  {
  }

  lemma PlaceKeepsDurable(w: World, x: World, seqNo: nat, i: OrderIntent)
    requires Durable(w) && MayPlace(w, x, i) && i.ref < w.nextId
    requires 1 <= seqNo <= |w.log| && WitnessSeq(w.rec) == seqNo && w.log[seqNo - 1].event == SendEvent(i)
    ensures Durable(x)
  {
    var pinned := w.log[..seqNo];
    assert pinned[seqNo - 1] == w.log[seqNo - 1];
    assert SendLogged(pinned, i.ref);
  }

  /** A clean refusal of the order in flight may be recorded. */
  lemma RejectionIsLawful(m: Memory, w: World, i: OrderIntent)
    requires InFlight(m, w, i)
    ensures LawfulEvent(w.view, w.now, SendCallFailed(i.ref, true)) && Ends(SendCallFailed(i.ref, true), i.ref)
    ensures Inv(m, w) && m.live == Some(i) && m.os.PENDING_ACK? && m.sync.SYNCED? && m.working == 0
    ensures GateLink(m.link, m.sync, w.view.gates)
  {
  }

  /** An uncertain send moves no order: it stays open until the broker is asked. */
  lemma UncertainIsQuiet(w: World, r: Ref)
    ensures LawfulEvent(w.view, w.now, SendCallFailed(r, false)) && OrderOnly(SendCallFailed(r, false))
    ensures ApplyOrders(w.view.orders, SendCallFailed(r, false)) == w.view.orders
  {
  }
}
