/** Why a reconciliation may restore trust. The broker is the authority and the log
    the explanation: nothing unexplained is adopted, everything absent is confirmed
    absent, and only then is the account SYNCED. */
module Resync {
  import opened Wrappers
  import opened Models
  import opened RiskCounters
  import opened LogView
  import opened Brokers
  import opened Protocol
  import opened States

  // ---- adopting executions -------------------------------------------------

  /** A write of one execution, if its id was not booked yet. */
  ghost predicate LedgerStep(w: World, x: World, e: Execution) {
    && Wrote(w, x)
    && x.view.orders == w.view.orders
    && x.view.counters == w.view.counters
    && (x.view.ledger == w.view.ledger
        || (e.id !in w.view.ledger.booked && x.view.ledger == ApplyLedger(w.view.ledger, w.now, ExecutionReceived(e))))
    && x.view.gates == w.view.gates
  }

  lemma LedgerThenQuiet(w: World, x: World, y: World, e: Execution)
    requires LedgerStep(w, x, e) && QuietStep(x, y) && y.view.gates == x.view.gates
    ensures LedgerStep(w, y, e) && y.view.ledger == x.view.ledger
  {
  }

  /** A first claim of an execution is lawful and moves nothing but the ledger. */
  lemma ExecutionEffect(v: View, r: Record)
    requires r.event.ExecutionReceived?
    ensures var x := Apply(v, r);
      && x.orders == v.orders && x.counters == v.counters && x.gates == v.gates
      && x.ledger == ApplyLedger(v.ledger, r.ts, r.event)
    ensures r.event.execution.id !in v.ledger.booked ==> LawfulEvent(v, r.ts, r.event)
  {
  }

  /** Adoption while nothing is trusted. */
  lemma AdoptOutcome(m: Memory, w: World, n: Memory, x: World, e: Execution, done: bool)
    requires Inv(m, w) && !m.sync.SYNCED? && LedgerStep(w, x, e) && x.failed == !done
    requires n == m.(booked := n.booked)
    requires done ==> n.booked == x.view.ledger.booked.Keys
    ensures Progress(m, w, n, x, done)
    ensures ExposureKnown(w) && HonestExecution(e, w) ==> Safe(n, x, done)
  {
  }

  /** The ledger once every execution of a report is in it, each once. */
  function AdoptAll(lg: Ledger, now: Instant, execs: seq<Execution>): Ledger {
    if execs == [] then lg
    else
      var rest, e := AdoptAll(lg, now, execs[..|execs| - 1]), execs[|execs| - 1];
      if e.id in rest.booked then rest else ApplyLedger(rest, now, ExecutionReceived(e))
  }

  lemma AdoptNone(lg: Ledger, now: Instant, execs: seq<Execution>)
    ensures AdoptAll(lg, now, execs[..0]) == lg && execs[..|execs|] == execs
  {
  }

  lemma AdoptNext(lg: Ledger, now: Instant, execs: seq<Execution>, k: nat)
    requires k < |execs|
    ensures var l, e := AdoptAll(lg, now, execs[..k]), execs[k];
      AdoptAll(lg, now, execs[..k + 1]) == if e.id in l.booked then l else ApplyLedger(l, now, ExecutionReceived(e))
  {
    assert execs[..k + 1][..k] == execs[..k];
  }

  /** Adoption books exactly what is reported and was missing. */
  lemma {:induction false} AdoptedIsReported(lg: Ledger, now: Instant, execs: seq<Execution>)
    ensures AdoptAll(lg, now, execs).booked.Keys == lg.booked.Keys + set k | 0 <= k < |execs| :: execs[k].id
    ensures forall x :: x in lg.booked ==>
              x in AdoptAll(lg, now, execs).booked && AdoptAll(lg, now, execs).booked[x] == lg.booked[x]
  {
    if execs != [] {
      var m := |execs| - 1;
      AdoptedIsReported(lg, now, execs[..m]);
      assert (set k | 0 <= k < |execs| :: execs[k].id) == (set k | 0 <= k < m :: execs[..m][k].id) + {execs[m].id};
    }
  }

  /** Adopting a report twice changes nothing more. */
  lemma {:induction false} AdoptionIsIdempotent(lg: Ledger, now: Instant, execs: seq<Execution>, later: Instant, n: nat)
    requires n <= |execs|
    ensures AdoptAll(AdoptAll(lg, now, execs), later, execs[..n]) == AdoptAll(lg, now, execs)
  {
    AdoptedIsReported(lg, now, execs);
    if n > 0 {
      AdoptionIsIdempotent(lg, now, execs, later, n - 1);
      AdoptNext(AdoptAll(lg, now, execs), later, execs, n - 1);
    }
  }

  /** Every execution is booked already or really happened. */
  predicate TrueExecutions(execs: seq<Execution>, w: World) {
    forall k :: 0 <= k < |execs| ==> execs[k].id in w.view.ledger.booked || HonestExecution(execs[k], w)
  }

  lemma TrueAt(execs: seq<Execution>, w: World, k: nat)
    requires k < |execs| && execs[k].id !in w.view.ledger.booked
    ensures TrueExecutions(execs, w) ==> HonestExecution(execs[k], w)
  {
  }

  /** The world after any number of adoptions. */
  ghost predicate Adopted(w: World, x: World) {
    && Wrote(w, x)
    && x.view.orders == w.view.orders
    && x.view.gates == w.view.gates
    && w.view.ledger.booked.Keys <= x.view.ledger.booked.Keys
  }

  lemma AdoptedRefl(w: World)
    ensures Adopted(w, w)
  {
  }

  lemma AdoptedQuiet(w: World, x: World, y: World)
    requires Adopted(w, x) && QuietStep(x, y) && y.view.gates == x.view.gates
    ensures Adopted(w, y)
  {
  }

  /** One more adoption. */
  lemma AdoptStep(m: Memory, w: World, n: Memory, x: World, o: Memory, y: World, e: Execution, done: bool)
    requires Progress(m, w, n, x, true) && Adopted(w, x) && !n.sync.SYNCED?
    requires LedgerStep(x, y, e) && y.failed == !done
    requires o == n.(booked := o.booked)
    requires done ==> o.booked == y.view.ledger.booked.Keys
    ensures Progress(m, w, o, y, done) && (done ==> Inv(o, y)) && Adopted(w, y)
    ensures ExposureKnown(x) && HonestExecution(e, w) ==> Safe(o, y, done) && ExposureKnown(y)
  {
    AdoptOutcome(n, x, o, y, e, done);
    ProgressTrans(m, w, n, x, o, y, done);
  }

  /** After adoption the orders are what they were, and explained as before. */
  lemma AdoptedFacts(snap: Snapshot, w: World, n: Memory, x: World, open: set<Ref>)
    requires Adopted(w, x) && Inv(n, x)
    requires Explained(snap, w.view.ledger.booked.Keys, open, w.view.orders.intents.Keys)
    ensures x.view.orders == w.view.orders && x.book == w.book
    ensures n.booked == x.view.ledger.booked.Keys
    ensures RefsOf(snap.openOrders) <= open
  {
  }

  // ---- settling orders -----------------------------------------------------

  /** Between adoption and completion: orders have only been confirmed, none that
      the broker still reports has been closed. */
  ghost predicate Amid(reply: SnapshotReply, w: World, x: World)
    requires reply.Got?
  {
    && Wrote(w, x)
    && x.view.ledger == w.view.ledger
    && x.view.counters == w.view.counters
    && x.view.orders.intents == w.view.orders.intents
    && x.view.orders.open <= w.view.orders.open
    && w.view.orders.open * RefsOf(reply.snap.openOrders) <= x.view.orders.open
    && (ExposureKnown(w) && HonestReply(reply, w) && reply.snap.stable ==> ExposureKnown(x))
    && var g := x.view.gates;
       g == w.view.gates.(link := g.link, sync := g.sync, residual := g.residual)
  }

  lemma AmidRefl(reply: SnapshotReply, w: World)
    requires reply.Got?
    ensures Amid(reply, w, w)
  {
  }

  lemma AmidQuiet(reply: SnapshotReply, w: World, x: World, y: World)
    requires reply.Got? && Amid(reply, w, x) && QuietStep(x, y)
    ensures Amid(reply, w, y) && y.view.orders == x.view.orders
  {
  }

  /** An open order the broker no longer reports may be closed. */
  lemma AmidAbsent(reply: SnapshotReply, w: World, x: World, y: World, e: Event)
    requires reply.Got? && Amid(reply, w, x) && OrderStep(x, y, e)
    requires Resolving(e) && e.ref !in RefsOf(reply.snap.openOrders)
    ensures Amid(reply, w, y) && y.view.ledger == x.view.ledger
    ensures y.view.orders == ApplyOrders(x.view.orders, e) ==> y.view.orders.open == x.view.orders.open - {e.ref}
  {
    if ExposureKnown(w) && HonestReply(reply, w) && reply.snap.stable {
      assert HonestCancel(e.ref, x);
      ResolveKnown(x, y, e);
    }
  }

  /** From `from` on the log only ends orders, each as filled exactly if its booked
      fills reach its size. */
  predicate EndedAsFilled(log: seq<Record>, from: nat, v: View) {
    from <= |log| && forall k :: from <= k < |log| ==> EndedRight(log[k].event, v)
  }

  predicate EndedRight(e: Event, v: View) {
    && (e.OrderFilled? || e.OrderAbsentConfirmed?)
    && e.ref in v.orders.intents
    && (e.OrderFilled? <==> FilledOf(v.ledger, e.ref) >= v.orders.intents[e.ref].quantity)
  }

  /** Confirming what the broker reports closes nothing. */
  lemma AmidConfirmed(reply: SnapshotReply, w: World, x: World, y: World, e: Event)
    requires reply.Got? && Amid(reply, w, x) && OrderStep(x, y, e)
    requires e.BrokerAckReceived? || e.OrderWorking?
    ensures Amid(reply, w, y) && y.view.orders.open == x.view.orders.open
  {
  }

  lemma RefsAreReported(reports: seq<OrderReport>)
    ensures forall k :: 0 <= k < |reports| ==> reports[k].ref in RefsOf(reports)
    ensures RefsOf(reports) == {} <==> reports == []
  {
    if reports != [] {
      assert reports[0].ref in RefsOf(reports);
    }
  }

  /** Nothing the broker still reports has been closed. */
  lemma AmidKeepsReported(reply: SnapshotReply, w: World, x: World)
    requires reply.Got? && Amid(reply, w, x) && RefsOf(reply.snap.openOrders) <= w.view.orders.open
    ensures RefsOf(reply.snap.openOrders) <= x.view.orders.open
    ensures x.view.ledger == w.view.ledger && x.view.gates.reconciled == w.view.gates.reconciled
    ensures x.view.orders.intents == w.view.orders.intents
  {
  }

  /** The reconciliation got no further: nothing is trusted, nothing was lost. */
  lemma AmidFailed(reply: SnapshotReply, m: Memory, w: World, n: Memory, x: World)
    requires reply.Got? && Inv(m, w) && Amid(reply, w, x) && x.failed
    requires n == m.(live := n.live, position := n.position, working := n.working, os := n.os, sync := n.sync)
    ensures Progress(m, w, n, x, false)
    ensures ExposureKnown(w) && HonestReply(reply, w) && reply.snap.stable ==> Safe(n, x, false)
  {
  }

  /** What the snapshot has settled just before trust is restored. */
  predicate Settled(m: Memory, w: World) {
    && Inv(m, w)
    && !m.os.Untrustworthy()
    && m.position == w.view.ledger.expected
    && w.view.orders.open == OpenOf(m.live)
    && (m.live.None? ==> m.working == 0)
  }

  /** Everything the snapshot reports is ours. */
  predicate Explained(snap: Snapshot, booked: set<ExecId>, open: set<Ref>, intents: set<Ref>) {
    && (forall k :: 0 <= k < |snap.openOrders| ==> snap.openOrders[k].ref in open)
    && (forall k :: 0 <= k < |snap.executions| ==> snap.executions[k].id in booked || snap.executions[k].ref in intents)
  }

  /** Exactly when a snapshot restores trust: it is stable, everything in it is ours,
      and its position is the ledger's once its executions are in it. */
  predicate Reconciles(reply: SnapshotReply, v: View, now: Instant) {
    && reply.Got? && reply.snap.stable
    && Explained(reply.snap, v.ledger.booked.Keys, v.orders.open, v.orders.intents.Keys)
    && reply.snap.position == AdoptAll(v.ledger, now, reply.snap.executions).expected
  }

  /** What the leg believes once trust is restored: what the snapshot says. */
  predicate Restores(reply: SnapshotReply, m: Memory)
    requires reply.Got?
  {
    var orders := reply.snap.openOrders;
    && m.position == reply.snap.position
    && if orders == [] then m.live.None? && m.os.IDLE? && m.working == 0
       else
         var last := orders[|orders| - 1];
         m.live.Some? && m.live.value.ref == last.ref && m.os.WORKING? && m.working == last.signedRemaining
  }

  lemma AmidSettled(reply: SnapshotReply, m: Memory, w: World, n: Memory, x: World)
    requires reply.Got? && Inv(m, w) && Amid(reply, w, x) && !x.failed && BookShape(x.view.orders)
    requires n == m.(live := n.live, position := n.position, working := n.working, os := n.os)
    requires m.sync.SYNCING? && GateLink(n.link, n.sync, x.view.gates)
    requires Restores(reply, n) && reply.snap.position == w.view.ledger.expected
    requires RefsOf(reply.snap.openOrders) <= w.view.orders.open
    requires x.view.orders.open <= RefsOf(reply.snap.openOrders)
    requires n.live.Some? ==>
               && n.live.value.ref in RefsOf(reply.snap.openOrders)
               && n.live.value.ref in w.view.orders.intents && w.view.orders.intents[n.live.value.ref] == n.live.value
    ensures Inv(n, x) && Settled(n, x) && Progress(m, w, n, x, true)
    ensures x.view.orders.open == RefsOf(reply.snap.openOrders)
    ensures ExposureKnown(w) && HonestReply(reply, w) && reply.snap.stable ==> Safe(n, x, true)
  {
    AmidKeepsReported(reply, w, x);
  }

  /** Every execution at the broker is in the ledger. */
  predicate AllAdopted(w: World) {
    forall i :: 0 <= i < |w.book.executions| ==> i in w.view.ledger.booked
  }

  /** A write that completes the flatten leaves everything settled. */
  lemma SettledThenQuiet(m: Memory, w: World, n: Memory, x: World, y: World, done: bool)
    requires Progress(m, w, n, x, true) && Settled(n, x) && QuietStep(x, y)
    requires Outcome(n, x, n, y, done) && (done ==> Inv(n, y))
    ensures Progress(m, w, n, y, done)
    ensures done ==> Settled(n, y)
    ensures Safe(n, x, true) ==> Safe(n, y, done)
    ensures y.book == x.book && y.view.ledger == x.view.ledger && y.view.orders == x.view.orders
  {
  }

  lemma SafeIsKnown(n: Memory, x: World, done: bool)
    requires Safe(n, x, done)
    ensures ExposureKnown(x)
  {
  }

  lemma AllAdoptedFrame(w: World, x: World)
    requires AllAdopted(w) && x.book == w.book && x.view.ledger == w.view.ledger
    ensures AllAdopted(x)
  {
  }

  /** The world after completion is logged, and perhaps SYNCED. */
  ghost predicate FinishStep(w: World, x: World) {
    && Wrote(w, x)
    && x.view.ledger == w.view.ledger
    && x.view.counters == w.view.counters
    && (x.view.orders == w.view.orders || x.view.orders == ApplyOrders(w.view.orders, ReconciliationCompleted))
    && var g := x.view.gates;
       g == w.view.gates.(link := g.link, sync := g.sync, residual := g.residual, reconciled := g.reconciled)
  }

  lemma CompletionEffect(m: Memory, w: World)
    requires Settled(m, w) && m.sync.SYNCING?
    ensures LawfulEvent(w.view, w.now, ReconciliationCompleted) && GateLink(m.link, m.sync, w.view.gates)
    ensures var v := Apply(w.view, Record(w.now, ReconciliationCompleted));
      && v.config == w.view.config && v.ledger == w.view.ledger && v.counters == w.view.counters
      && v.orders == ApplyOrders(w.view.orders, ReconciliationCompleted)
      && v.gates == w.view.gates.(reconciled := true)
      && GateLink(m.link, m.sync, v.gates)
  {
  }

  lemma FinishQuiet(w: World, x: World, y: World)
    requires FinishStep(w, x) && QuietStep(x, y)
    ensures FinishStep(w, y) && y.view.orders == x.view.orders
  {
  }

  /** Completion: outstanding cancels are settled, and the account is SYNCED. */
  lemma FinishOutcome(m: Memory, w: World, n: Memory, x: World, done: bool)
    requires Settled(m, w) && m.sync.SYNCING? && FinishStep(w, x) && x.failed == !done
    requires n == m.(sync := n.sync)
    requires done ==> GateLink(n.link, n.sync, x.view.gates)
    requires done ==> x.view.orders == ApplyOrders(w.view.orders, ReconciliationCompleted)
    ensures Progress(m, w, n, x, done)
    ensures done ==> Inv(n, x) && x.view.orders.open == w.view.orders.open
    ensures ExposureKnown(w) && AllAdopted(w) ==> Safe(n, x, done)
  {
  }

  // ---- truthful snapshots --------------------------------------------------

  /** What is explained and truthfully reported really happened. */
  lemma ExplainedAreTrue(reply: SnapshotReply, w: World, open: set<Ref>)
    requires reply.Got? && reply.snap.stable && HonestReply(reply, w)
    requires Explained(reply.snap, w.view.ledger.booked.Keys, open, w.view.orders.intents.Keys)
    ensures TrueExecutions(reply.snap.executions, w)
  {
  }

  /** A complete snapshot, all of it booked, leaves no execution out. */
  lemma CompleteIsAllAdopted(reply: SnapshotReply, w: World, x: World)
    requires reply.Got? && reply.snap.stable && HonestReply(reply, w) && ExposureKnown(x) && x.book == w.book
    requires forall k :: 0 <= k < |reply.snap.executions| ==> reply.snap.executions[k].id in x.view.ledger.booked
    ensures AllAdopted(x)
  {
    forall i | 0 <= i < |x.book.executions|
      ensures i in x.view.ledger.booked
    {
      assert ExecutionSound(x.book, i);
      assert x.book.executions[i] in reply.snap.executions;
    }
  }

  /** With every execution booked, the ledger's position is the broker's. */
  lemma BookedPositionIsTrue(w: World)
    requires Lasting(w) && ExposureKnown(w) && AllAdopted(w)
    ensures w.view.ledger.expected == w.book.position
  {
    ExpectedIsClaimedSum(w.view.config, w.log, w.book.executions, 0);
    ClaimAll(w.book.executions, w.view.ledger.booked.Keys);
  }

  /** An account nobody else touched never looks external. */
  lemma UndisturbedIsExplained(reply: SnapshotReply, w: World, booked: set<ExecId>)
    requires ExposureKnown(w) && UndisturbedReply(reply, w)
    ensures Explained(reply.snap, booked, w.view.orders.open, w.view.orders.intents.Keys)
  {
  }

  /** Truth about the broker stays truth while only the log grows. */
  lemma HonestFrame(reply: SnapshotReply, w: World, x: World)
    requires x.book == w.book && x.view.orders.intents == w.view.orders.intents
    ensures HonestReply(reply, w) <==> HonestReply(reply, x)
    ensures UndisturbedReply(reply, w) <==> UndisturbedReply(reply, x)
  {
  }

  /** What a quiet beginning leaves to go by. */
  lemma QuietFrame(reply: SnapshotReply, w: World, n: Memory, x: World)
    requires QuietStep(w, x)
    ensures HonestReply(reply, w) <==> HonestReply(reply, x)
    ensures UndisturbedReply(reply, w) <==> UndisturbedReply(reply, x)
    ensures Safe(n, x, true) ==> ExposureKnown(x)
  {
  }

  lemma OpenAreIntents(w: World)
    requires Lasting(w)
    ensures w.view.orders.open <= w.view.orders.intents.Keys
    ensures w.view == Fold(w.view.config, w.log)
  {
  }
}
