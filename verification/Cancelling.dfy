/** Why a cancel request is lawful and safe. The order stays live until the broker
    says otherwise: a cancel may be lost, refused, or beaten by a fill. */
module Cancelling {
  import opened Wrappers
  import opened Models
  import opened LogView
  import opened Witnesses
  import opened Brokers
  import opened Protocol
  import opened States

  lemma CancelIsLawful(m: Memory, w: World, why: CancelReason)
    requires Inv(m, w) && Durable(w) && m.live.Some? && m.link.CONNECTED? && m.sync.SYNCED?
    ensures var e := CancelRequested(m.live.value.ref, why);
      && LawfulEvent(w.view, w.now, e) && OrderOnly(e) && Witnessed(e)
    ensures WitnessSeq(w.rec) <= |w.log| && GateLink(m.link, m.sync, w.view.gates)
  {
  }

  lemma CancelMarks(ob: OrderBook, r: Ref, why: CancelReason)
    ensures ApplyOrders(ob, CancelRequested(r, why)) == ob.(cancelling := ob.cancelling + {r})
  {
  }

  /** The request is durable; the order is as live as before. */
  lemma CancelRecorded(m: Memory, w: World, n: Memory, x: World, e: Event, done: bool)
    requires Inv(m, w) && m.live.Some? && OrderStep(w, x, e) && e.CancelRequested? && x.failed == !done
    requires n == m.(os := n.os) && (n.os == m.os || n.os.PENDING_CANCEL?)
    requires done ==> GateLink(n.link, n.sync, x.view.gates)
    ensures Outcome(m, w, n, x, done) && (done ==> Inv(n, x))
  {
  }

  /** Pinned, or fenced. */
  lemma CancelPinned(m: Memory, w: World, n: Memory, x: World)
    requires Inv(m, w) && !w.failed
    requires x == w.(rec := x.rec, fence := x.fence, unfenced := x.unfenced)
    requires (StopHeld(w) ==> StopHeld(x)) && (w.fence.Some? ==> x.fence == w.fence) && w.unfenced <= x.unfenced
    requires (n == m && x.fence == w.fence)
          || n == m.(fatal := true, link := DEGRADED, sync := UNVERIFIED, mode := HALTED)
    ensures Outcome(m, w, n, x, true) && Inv(n, x)
  {
  }

  /** The call itself: at most the order leaves the broker's open ones. */
  lemma CancelCalled(m: Memory, w: World, x: World, r: Ref)
    requires Inv(m, w) && !w.failed && !m.mode.HALTED? && Durable(w)
    requires x == w.(book := x.book, cancels := x.cancels)
    requires x.book == w.book || (IsOpen(w.book, r) && x.book == WithStatus(w.book, r, CANCELLED))
    ensures Durable(x) && Inv(m, x) && Outcome(m, w, m, x, true)
  {
    hide Sound, WitnessPromise, EvidenceHolds, GateLink, ModeAgrees;
    if x.book != w.book {
      assert x.book.orders.Keys == w.book.orders.Keys;
      assert EverPlaced(x) == EverPlaced(w);
      if Exposed(m, w) {
        EndingKeepsSound(w.book, w.view.config.maxPositionShares, r, CANCELLED);
      }
    }
  }
}
