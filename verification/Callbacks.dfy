/** Why each broker callback keeps the invariants: whatever it reports, in whatever
    order and however often, and what it may be trusted with when it is true. */
module Callbacks {
  import opened Wrappers
  import opened Models
  import opened RiskCounters
  import opened LogView
  import opened Brokers
  import opened States
  import opened Resync

  /** An acknowledgement or a working report of the live order moves no trust. */
  lemma ReportOutcome(m: Memory, w: World, n: Memory, x: World, e: Event, done: bool)
    requires Inv(m, w) && m.live.Some? && OrderStep(w, x, e) && x.failed == !done
    requires (e.BrokerAckReceived? || e.OrderWorking?) && e.ref == m.live.value.ref
    requires n == m.(os := n.os)
    requires n.os == m.os
          || ((m.os.PENDING_ACK? || m.os.SUBMISSION_UNCERTAIN?) && (n.os.PENDING_ACK? || n.os.WORKING?))
    requires done ==> GateLink(n.link, n.sync, x.view.gates)
    ensures Outcome(m, w, n, x, done) && (done ==> Inv(n, x))
  {
  }

  lemma ReportMarks(ob: OrderBook, r: Ref)
    requires r in ob.intents
    ensures r in ApplyOrders(ob, BrokerAckReceived(r)).acked && r in ApplyOrders(ob, OrderWorking(r)).working
  {
  }

  /** The world moved by one execution and quiet writes. */
  ghost predicate ExecutionStep(w: World, x: World, e: Execution) {
    && Wrote(w, x)
    && x.view.orders == w.view.orders
    && x.view.counters == w.view.counters
    && (x.view.ledger == w.view.ledger
        || (e.id !in w.view.ledger.booked && x.view.ledger == ApplyLedger(w.view.ledger, w.now, ExecutionReceived(e))))
    && var g := x.view.gates;
       g == w.view.gates.(link := g.link, sync := g.sync, residual := g.residual)
  }

  lemma LedgerThenAny(w: World, x: World, y: World, e: Execution)
    requires LedgerStep(w, x, e) && QuietStep(x, y)
    ensures ExecutionStep(w, y, e) && y.view.ledger == x.view.ledger
  {
  }

  lemma ExecutionKeepsOrders(w: World, x: World, e: Execution)
    requires ExecutionStep(w, x, e)
    ensures x.view.orders == w.view.orders
  {
  }

  lemma LedgerIsExecution(w: World, x: World, e: Execution)
    requires LedgerStep(w, x, e)
    ensures ExecutionStep(w, x, e) && x.view.gates == w.view.gates
  {
  }

  /** A fill of the live order moves position and ledger together; any other fill
      takes trust away until the next snapshot. */
  lemma ExecutionProgress(m: Memory, w: World, n: Memory, x: World, e: Execution, done: bool)
    requires Inv(m, w) && ExecutionStep(w, x, e) && x.failed == !done
    requires n == m.(booked := n.booked, position := n.position, working := n.working, os := n.os, sync := n.sync)
    requires done ==>
               && n.booked == x.view.ledger.booked.Keys
               && GateLink(n.link, n.sync, x.view.gates)
               && ((n.os == m.os && n.sync == m.sync && m.live.Some? && m.live.value.ref == e.ref
                    && x.view.ledger == ApplyLedger(w.view.ledger, w.now, ExecutionReceived(e))
                    && n.position == m.position + e.Signed())
                   || (n.os.TERMINAL_UNRECONCILED? && !n.sync.SYNCED?)
                   || (n == m && x.view.ledger == w.view.ledger))
    ensures Progress(m, w, n, x, done) && (done ==> Inv(n, x))
  {
  }

  lemma ExecutionSafe(m: Memory, w: World, n: Memory, x: World, e: Execution, done: bool)
    requires Exposed(m, w) && ExecutionStep(w, x, e) && HonestExecution(e, w)
    requires n.sync.SYNCED? ==> m.sync.SYNCED?
    requires n.live == m.live
    ensures Safe(n, x, done)
  {
  }

  /** An order whose booked fills reach its size is over, and all of it is booked. */
  lemma FullyFilledIsOver(w: World, i: OrderIntent)
    requires ExposureKnown(w) && Lasting(w)
    requires i.ref in w.view.orders.intents && w.view.orders.intents[i.ref] == i
    requires FilledOf(w.view.ledger, i.ref) >= i.quantity
    ensures HonestCancel(i.ref, w) && AllBooked(w, i.ref)
  {
    var xs, ids := w.book.executions, w.view.ledger.booked.Keys;
    forall k | 0 <= k < |xs|
      ensures !xs[k].isReversal && 0 < xs[k].quantity && xs[k].ref in w.book.orders
    {
      assert ExecutionSound(w.book, k);
    }
    ExpectedIsClaimedSum(w.view.config, w.log, xs, i.ref);
    ClaimsWithinFills(xs, ids, i.ref);
    if i.ref in w.book.orders {
      assert OrderSound(w.book, i.ref, w.view.config.maxPositionShares);
      assert w.book.orders[i.ref].intent == i;
    }
  }

  /** While an order is live, what is believed to be working is only bookkeeping. */
  lemma WorkingIsFree(m: Memory, w: World, working: int)
    requires Inv(m, w) && m.live.Some? && !w.failed
    ensures var n := m.(working := working);
      && Inv(n, w) && Outcome(m, w, n, w, true) && Progress(m, w, n, w, true)
      && (Exposed(m, w) <==> Exposed(n, w))
  {
  }

  lemma FullFillFacts(m: Memory, w: World, i: OrderIntent)
    requires Inv(m, w) && Lasting(w) && Exposed(m, w) && m.live == Some(i)
    requires FilledOf(w.view.ledger, i.ref) >= i.quantity
    ensures HonestCancel(i.ref, w) && AllBooked(w, i.ref)
  {
    FullyFilledIsOver(w, i);
  }

  lemma FilledIsLawful(w: World, r: Ref)
    requires r in w.view.orders.open
    ensures LawfulEvent(w.view, w.now, OrderFilled(r)) && Ends(OrderFilled(r), r)
  {
  }

  lemma EndIsLawful(w: World, r: Ref)
    requires r in w.view.orders.open
    ensures LawfulEvent(w.view, w.now, OrderCancelled(r)) && Ends(OrderCancelled(r), r)
    ensures LawfulEvent(w.view, w.now, OrderRejected(r)) && Ends(OrderRejected(r), r)
  {
  }

  lemma EndIsFinal(ob: OrderBook, r: Ref)
    ensures var done := ApplyOrders(ob, OrderFilled(r));
      r !in done.open && done.attempted == ob.attempted
    ensures ApplyOrders(ob, OrderCancelled(r)) == ApplyOrders(ob, OrderFilled(r)).(unsettled := true)
    ensures ApplyOrders(ob, OrderRejected(r)) == ApplyOrders(ob, OrderFilled(r))
    ensures r in ob.open && BookShape(ob) ==> r in ApplyOrders(ob, OrderFilled(r)).attempted
  {
  }

  lemma EndKeepsIntents(ob: OrderBook, r: Ref)
    ensures ApplyOrders(ob, OrderCancelled(r)).intents == ob.intents
  {
  }

  lemma SafeIsExposed(n: Memory, x: World)
    ensures Safe(n, x, true) <==> Exposed(n, x)
  {
  }
}
