/** What a restart may and may not forget. */
module Restarts {
  import opened Wrappers
  import opened Models
  import opened RiskCounters
  import opened LogView
  import opened HaltFolds
  import opened Witnesses
  import opened Brokers
  import opened Risk
  import opened Protocol
  import opened States

  lemma HaltOfView(w: World)
    requires Lasting(w)
    ensures w.view.gates.halt == ActiveHalt(w.log)
  {
    HaltIsFold(w.view.config, w.log);
  }

  /** A quote changes nothing but itself. */
  lemma QuoteOutcome(m: Memory, w: World, n: Memory)
    requires Inv(m, w) && !w.failed
    requires n == m.(quote := n.quote) && (n.quote.Some? ==> n.quote.value.Valid())
    ensures Outcome(m, w, n, w, true) && Inv(n, w)
  {
  }

  lemma AckRefl(m: Memory, w: World)
    requires Inv(m, w)
    ensures Counted(m, w) && (Exposed(m, w) ==> Safe(m, w, true))
  {
  }

  lemma AckApplies(v: View, r: Record)
    requires r.event.HaltAcknowledged?
    ensures var w := Apply(v, r);
      && w.config == v.config && w.orders == v.orders && w.ledger == v.ledger && w.counters == v.counters
      && w.count == v.count + 1 && w.lastTs == Some(r.ts)
      && w.gates == v.gates.(halt := if v.gates.halt == Some(r.event.haltSeq) then None else v.gates.halt)
      && w.lawful == (v.lawful && (v.lastTs.Some? ==> v.lastTs.value <= r.ts))
  {
  }

  /** An acknowledgement in the log moves the HALT and nothing else. */
  lemma AckEffect(w: World, x: World, r: Record)
    requires Lasting(w) && r.event.HaltAcknowledged? && r.ts == w.now
    requires x == w.(log := x.log, view := x.view, failed := x.failed)
    requires (x.log == w.log && x.view == w.view) || (x.log == w.log + [r] && x.view == Apply(w.view, r))
    ensures Lasting(x)
    ensures EvidenceHolds(x.id, x.log, x.rec) <==> EvidenceHolds(w.id, w.log, w.rec)
    ensures x.view.config == w.view.config && x.view.orders == w.view.orders
    ensures x.view.ledger == w.view.ledger && x.view.counters == w.view.counters
    ensures x.view.gates == w.view.gates.(halt := x.view.gates.halt)
    ensures x.view.gates.halt == w.view.gates.halt || x.view.gates.halt.None?
    ensures x.view.count != w.view.count <==> x.log != w.log
    ensures x.log != w.log && w.view.gates.halt == Some(r.event.haltSeq) ==> x.view.gates.halt.None?
  {
    hide Apply, Fold, WitnessPromise, EvidenceHolds;
    if x.log != w.log {
      AckApplies(w.view, r);
      FoldSnoc(w.view.config, w.log, r);
      PromiseSurvivesUnwitnessed(w.id, w.log, w.rec, EverPlaced(w), r);
    }
  }

  /** It clears nothing in memory: the process that recorded it stays as it is. */
  lemma AckKeeps(m: Memory, w: World, x: World, r: Record, done: bool)
    requires Durable(w) && Inv(m, w) && r.event.HaltAcknowledged? && r.ts == w.now
    requires x == w.(log := x.log, view := x.view, failed := !done)
    requires (x.log == w.log && x.view == w.view) || (x.log == w.log + [r] && x.view == Apply(w.view, r))
    ensures Durable(x) && Counted(m, x) && (done ==> Inv(m, x))
    ensures Exposed(m, w) ==> Safe(m, x, done)
    ensures x.log != w.log && w.view.gates.halt == Some(r.event.haltSeq) ==> x.view.gates.halt.None?
    ensures x.log != w.log <==> x.view != w.view
    ensures EvidenceHolds(x.id, x.log, x.rec) <==> EvidenceHolds(w.id, w.log, w.rec)
  {
    hide Lasting, Apply, EvidenceHolds;
    AckEffect(w, x, r);
  }

  /** An acknowledgement the journal cut short, then the fence. */
  lemma AckFenced(n: Memory, x: World, o: Memory, y: World)
    requires x.failed && y == x.(fence := y.fence, unfenced := y.unfenced)
    requires o == n.(broken := true, fatal := true, link := DEGRADED, sync := UNVERIFIED, mode := HALTED)
    ensures Live(o, y) && (Safe(n, x, false) ==> Exposed(o, y))
  {
  }

  /** What a fresh process knows once it has replayed the log. */
  predicate Reloaded(m: Memory, w: World) {
    var v := w.view;
    && m.link.DISCONNECTED? && m.sync.UNVERIFIED? && !m.fatal && !m.broken && m.violations == 0
    && m.os.IDLE? && m.live.None? && m.working == 0 && m.quote.None?
    && m.position == v.ledger.expected
    && m.booked == v.ledger.booked.Keys
    && m.counters == v.counters
    && (m.mode.HALTED? <==> v.gates.halt.Some?)
    && (v.gates.residual != 0 ==> !m.mode.NORMAL?)
    && (m.mode.NORMAL? || m.mode.FLATTEN_ONLY? || m.mode.HALTED?)
  }

  lemma RestoredEffect(w: World, m: Memory)
    requires Durable(w) && Reloaded(m, w)
    ensures var e := ProcessStateRestored(m.mode);
      && LawfulEvent(w.view, w.now, e)
      && var v := Apply(w.view, Record(w.now, e));
         && v.orders == w.view.orders && v.ledger == w.view.ledger && v.counters == w.view.counters
         && v.gates == w.view.gates.(mode := m.mode, bootMode := m.mode)
  {
    GateOnlyEffect(w.view, Record(w.now, ProcessStateRestored(m.mode)));
    hide Apply, Fold, Lasting, EvidenceHolds;
  }

  /** The counters read back from the log belong to no later day than today. */
  lemma CountersAreCurrent(w: World)
    requires Lasting(w)
    ensures CountersAgree(w.view.counters, w.view.counters, w.now)
  {
    CountersTally(w.view.config, w.log);
  }

  lemma RestoredKeeps(w: World, m: Memory, x: World, done: bool)
    requires Durable(w) && Reloaded(m, w) && w.fence.None? && Wrote(w, x) && x.failed == !done
    requires w.view.gates.armed ==> w.view.gates.residual != 0
    requires w.view.gates.proven && !w.view.gates.stopDue
    requires x.view == w.view || x.view == Apply(w.view, Record(w.now, ProcessStateRestored(m.mode)))
    requires done ==> x.view == Apply(w.view, Record(w.now, ProcessStateRestored(m.mode)))
    ensures done ==> Inv(m, x)
    ensures ExposureKnown(w) ==> Safe(m, x, done)
  {
    RestoredEffect(w, m);
    CountersAreCurrent(w);
  }

  // ---- what happens outside the process -------------------------------------

  /** A stop stands, or the startup check will refuse. */
  ghost predicate Barred(w: World) {
    StopHeld(w) || !EvidenceHolds(w.id, w.log, w.rec)
  }

  /** While the broker has been truthful: bounded at the broker, whatever became of
      the log; and known to the log as long as its evidence is there. */
  ghost predicate Bounded(w: World) {
    && Sound(w.book, w.view.config.maxPositionShares)
    && (EvidenceHolds(w.id, w.log, w.rec) ==> ExposureKnown(w))
  }

  lemma WroteTrans(w: World, x: World, y: World)
    requires Wrote(w, x) && Wrote(x, y)
    ensures Wrote(w, y)
  {
  }

  lemma QuietIsWrite(w: World, x: World)
    requires QuietStep(w, x)
    ensures Wrote(w, x) && x.view.ledger == w.view.ledger
    ensures ExposureKnown(w) ==> ExposureKnown(x)
  {
  }

  lemma LimitsEffect(v: View, ts: Instant)
    ensures GateOnly(RiskConfigLoaded) && LawfulEvent(v, ts, RiskConfigLoaded)
    ensures GateOnly(RiskSelfTestPassed) && LawfulEvent(v, ts, RiskSelfTestPassed)
    ensures ApplyGates(v.gates, v.count + 1, RiskConfigLoaded) == v.gates.(loaded := true)
    ensures ApplyGates(v.gates, v.count + 1, RiskSelfTestPassed) == v.gates.(proven := v.gates.proven || v.gates.loaded)
  {
  }

  /** A process start forgets the mode of the last process, but not its residual. */
  lemma StartEffect(v: View, ts: Instant)
    requires v.gates.proven
    ensures GateOnly(ProcessStarted) && LawfulEvent(v, ts, ProcessStarted)
    ensures ApplyGates(v.gates, v.count + 1, ProcessStarted)
         == v.gates.(started := true, reconciled := false, bootMode := NORMAL, armed := v.gates.residual != 0,
                       stopDue := false)
  {
  }

  lemma SafeWhileDown(m: Memory, w: World)
    ensures ExposureKnown(w) ==> Safe(m, w, false)
  {
  }

  lemma GateKeepsExposure(w: World, x: World)
    requires GateStep(w, x)
    ensures Wrote(w, x) && x.view.ledger == w.view.ledger
    ensures ExposureKnown(w) ==> ExposureKnown(x)
  {
  }

  /** Losing the tail of the log while the process is down: what is left is lawful,
      and if the startup check does not notice, everything placed is still known and
      every stop still stands. */
  lemma TailLost(w: World, x: World, n: nat)
    requires Lasting(w) && n <= |w.log|
    requires x == w.(log := w.log[..n], view := Fold(w.view.config, w.log[..n]), failed := x.failed)
    ensures Lasting(x)
    ensures Barred(w) ==> Barred(x)
    ensures Bounded(w) ==> Bounded(x)
  {
    PrefixFacts(w.view.config, w.log, n);
    PromiseSurvivesTailLoss(w.id, w.log, w.rec, EverPlaced(w), n);
    LawfulLogShape(w.view.config, x.log);
    LastTsIs(w.view.config, x.log);
    LawfulTimes(w.view.config, w.log, n);
    LastTsIs(w.view.config, w.log);
    if EvidenceHolds(x.id, x.log, x.rec) {
      if StopHeld(w) && w.fence.None? {
        StopSurvivesTailLoss(w.log, WitnessSeq(w.rec), n);
      }
      if Bounded(w) {
        TailKnown(w, x);
      }
    }
  }

  /** Timestamps of a lawful log do not decrease. */
  lemma {:induction false} LawfulTimes(config: RiskConfig, log: seq<Record>, n: nat)
    requires n <= |log| && Fold(config, log).lawful
    ensures forall k :: 0 <= k < n ==> log[k].ts <= log[|log| - 1].ts
    decreases |log|
  {
    if n > 0 {
      var m := |log| - 1;
      LastTsIs(config, log[..m]);
      LawfulTimes(config, log[..m], if n == |log| then m else n);
    }
  }

  lemma TailKnown(w: World, x: World)
    requires Lasting(w) && Lasting(x) && ExposureKnown(w)
    requires x.book == w.book && x.placed == w.placed && x.id == w.id && x.rec == w.rec && x.view.config == w.view.config
    requires Later(x.view, w.view) && EvidenceHolds(x.id, x.log, x.rec)
    ensures ExposureKnown(x)
  {
    CheckedLogKnowsEveryOrder(x.view.config, x.id, x.log, x.rec, EverPlaced(x));
  }

  /** An acknowledgement by the operator tool, on disk or not. */
  lemma AckWhileDown(w: World, x: World, r: Record)
    requires Lasting(w) && r.event.HaltAcknowledged? && r.ts == w.now
    requires x == w.(log := x.log, view := x.view, failed := x.failed)
    requires (x.log == w.log && x.view == w.view) || (x.log == w.log + [r] && x.view == Apply(w.view, r))
    ensures Lasting(x)
    ensures EvidenceHolds(x.id, x.log, x.rec) <==> EvidenceHolds(w.id, w.log, w.rec)
    ensures x.log != w.log <==> x.view != w.view
    ensures x.view.orders == w.view.orders && x.view.ledger == w.view.ledger
    ensures x.log != w.log && w.view.gates.halt == Some(r.event.haltSeq) ==> x.view.gates.halt.None?
    ensures Bounded(w) ==> Bounded(x)
  {
    hide Lasting, Apply, EvidenceHolds;
    AckEffect(w, x, r);
  }

  /** What depends on which orders the broker has, not on what became of them. */
  lemma SameOrders(m: Memory, w: World, x: World)
    requires x == w.(book := x.book) && x.book.orders.Keys == w.book.orders.Keys
    ensures (Lasting(w) ==> Lasting(x)) && (Durable(w) ==> Durable(x))
    ensures Barred(w) ==> Barred(x)
    ensures Live(m, w) ==> Live(m, x)
  {
  }

  /** A fill at the broker: still inside the limit, and while SYNCED it can only be a
      fill of the live order. */
  lemma BrokerFilled(m: Memory, w: World, x: World, r: Ref, quantity: nat)
    requires IsOpen(w.book, r) && 0 < quantity <= w.book.orders[r].Remaining()
    requires x == w.(book := WithFill(w.book, r, quantity))
    ensures (Lasting(w) ==> Lasting(x)) && (Durable(w) ==> Durable(x))
    ensures Barred(w) ==> Barred(x)
    ensures Bounded(w) ==> Bounded(x)
    ensures Live(m, w) ==> Live(m, x)
    ensures Live(m, w) && Exposed(m, w) ==> Exposed(m, x)
  {
    hide Lasting, EvidenceHolds, Sound;
    assert x.book.orders.Keys == w.book.orders.Keys;
    SameOrders(m, w, x);
    if Sound(w.book, w.view.config.maxPositionShares) {
      FillKeepsSound(w.book, w.view.config.maxPositionShares, r, quantity);
    }
  }

  lemma BrokerEnded(m: Memory, w: World, x: World, r: Ref, status: OrderStatus)
    requires IsOpen(w.book, r) && (status.REJECTED? || status.CANCELLED?)
    requires status.REJECTED? ==> w.book.orders[r].filled == 0
    requires x == w.(book := WithStatus(w.book, r, status))
    ensures (Lasting(w) ==> Lasting(x)) && (Durable(w) ==> Durable(x))
    ensures Barred(w) ==> Barred(x)
    ensures Bounded(w) ==> Bounded(x)
    ensures Live(m, w) ==> Live(m, x)
    ensures Live(m, w) && Exposed(m, w) ==> Exposed(m, x)
  {
    hide Lasting, EvidenceHolds, Sound;
    assert x.book.orders.Keys == w.book.orders.Keys;
    SameOrders(m, w, x);
    if Sound(w.book, w.view.config.maxPositionShares) {
      EndingKeepsSound(w.book, w.view.config.maxPositionShares, r, status);
    }
  }

  lemma TimePassed(m: Memory, w: World, x: World)
    requires x == w.(now := x.now) && w.now <= x.now
    ensures (Lasting(w) ==> Lasting(x)) && (Durable(w) ==> Durable(x))
    ensures Barred(w) ==> Barred(x)
    ensures Bounded(w) ==> Bounded(x)
    ensures Live(m, w) ==> Live(m, x)
    ensures Exposed(m, w) ==> Exposed(m, x)
  {
  }

  /** A running process under a stop is HALTED. */
  lemma StoppedIsHalted(m: Memory, w: World)
    requires Durable(w) && Live(m, w) && StopHeld(w)
    ensures m.mode.HALTED?
  {
    HaltOfView(w);
    assert w.log[..|w.log|] == w.log;
  }

  lemma ExposedIsBounded(m: Memory, w: World)
    requires Exposed(m, w)
    ensures Bounded(w)
  {
  }
}
