/** The controller: the only normal broker writer. It commits an event before every
    broker write, and rebuilds itself from the log and a broker snapshot.

    `M()` and `W()` are its memory and the world as values; every method says how it
    moves them. `Valid` and `Inv` hold between any two operations, whatever the
    broker reports; `Exposed` holds while the broker's reports have been truthful. */
module Controllers {
  import opened Wrappers
  import opened Models
  import opened RiskCounters
  import opened LogView
  import opened HaltFolds
  import opened Journals
  import opened Witnesses
  import opened Fences
  import opened Brokers
  import opened Risk
  import opened Replays
  import opened Protocol
  import opened States
  import opened Sending
  import opened Cancelling
  import opened Resync
  import opened Callbacks
  import opened Restarts
  import opened Decisions

  class Controller {
    const journal: Journal
    const broker: Broker
    const risk: RiskEngine
    const fence: FatalFence
    const evidence: JournalWitness
    const ids: IdSource
    const clock: Clock
    const calendar: Calendar

    var linkState: LinkState
    var syncState: SyncState
    var operatingMode: OperatingMode

    // the one leg
    var orderState: OrderState
    var desired: Option<TargetPosition>
    var live: Option<OrderIntent>
    var attempt: nat
    var sentAt: Option<Instant>
    var cancelAt: Option<Instant>
    var cancelReason: Option<CancelReason>
    var position: int
    var workingSigned: int
    var flattenReason: Option<FlattenReason>
    var deferred: Option<Deferral>

    var quote: Option<Quote>
    var epoch: nat
    var bookedExecs: set<ExecId>
    var feesPending: set<ExecId>
    var violations: nat
    var journalFailure: bool
    var fatal: bool
    var fenceWriteFailed: bool
    var residualRecorded: set<int>

    ghost function M(): Memory
      reads `linkState, `syncState, `operatingMode, `fatal, `orderState, `live, `position, `workingSigned,
            `bookedExecs, `quote, `violations, `journalFailure, risk
    {
      Memory(linkState, syncState, operatingMode, fatal, orderState, live, position, workingSigned,
             bookedExecs, risk.counters, quote, violations, journalFailure)
    }

    /** What the leg wants, beside what it believes. */
    ghost function P(): Plan
      reads `desired, `deferred, `attempt, `flattenReason
    {
      Plan(desired, deferred, attempt, flattenReason)
    }

    ghost function W(): World
      reads journal, evidence, fence, broker, ids, clock
    {
      World(journal.id, journal.events, journal.view, journal.failed, evidence.record, fence.cell,
            broker.Books(), broker.placeCalls, broker.cancelCalls, ids.next, clock.now, fence.failures)
    }

    ghost predicate Valid()
      reads journal, evidence, fence, broker, ids, clock
    {
      journal.Valid() && journal.config == risk.config && Durable(W())
    }

    lemma ValidIsDurable()
      requires Valid()
      ensures Durable(W()) && Lasting(W()) && BookShape(journal.view.orders)
    {
    }

    lemma OneConfig()
      requires Valid()
      ensures journal.view.config == risk.config
    {
    }

    ghost predicate Stopped()
      reads journal, evidence, fence, broker, ids, clock
    {
      StopHeld(W())
    }

    /** A new process knows nothing: disconnected, unverified, NORMAL until the log
        has been replayed. */
    constructor (journal: Journal, broker: Broker, risk: RiskEngine, fence: FatalFence, evidence: JournalWitness,
                 ids: IdSource, clock: Clock, calendar: Calendar)
      ensures this.journal == journal && this.broker == broker && this.risk == risk && this.fence == fence
      ensures this.evidence == evidence && this.ids == ids && this.clock == clock && this.calendar == calendar
      ensures M() == BlankMemory(risk.counters)
      ensures desired == None
    {
      this.journal, this.broker, this.risk, this.fence := journal, broker, risk, fence;
      this.evidence, this.ids, this.clock, this.calendar := evidence, ids, clock, calendar;
      linkState, syncState, operatingMode := DISCONNECTED, UNVERIFIED, NORMAL;
      orderState, desired, live, attempt := IDLE, None, None, 0;
      sentAt, cancelAt, cancelReason := None, None, None;
      position, workingSigned, flattenReason, deferred := 0, 0, None, None;
      quote, epoch, bookedExecs, feesPending := None, 0, {}, {};
      violations, journalFailure, fatal, fenceWriteFailed := 0, false, false, false;
      residualRecorded := {};
    }

    // ---- commits -------------------------------------------------------

    /** Durably append one lawful event; its sequence number is the log's length. */
    method Commit(e: Event) returns (r: Io<nat>)
      requires Valid() && !journal.failed
      requires !e.TargetReceived? && !e.ExecutionReceived? && !e.HaltAcknowledged?
      requires LawfulEvent(journal.view, clock.now, e)
      requires e.IntentCommitted? ==> e.intent.ref < ids.next
      modifies journal
      ensures M() == old(M())
      ensures Valid() && Wrote(old(W()), W()) && journal.failed == r.Unavailable?
      ensures journal.view == old(journal.view) || journal.view == Apply(old(journal.view), Record(clock.now, e))
      ensures r.Done? ==>
                && journal.view == Apply(old(journal.view), Record(clock.now, e))
                && journal.events == old(journal.events) + [Record(clock.now, e)]
                && r.value == |journal.events| == old(journal.view).count + 1
    {
      hide Wrote, WitnessPromise, EvidenceHolds, BookShape, Fold, StopHeld, LawfulEvent, Apply;
      ghost var w := W();
      var answer := journal.Submit(Append(Record(clock.now, e)));
      AppendKeeps(w, W(), Record(clock.now, e));
      if answer.Unavailable? {
        return Unavailable;
      }
      return Done(|journal.events|);
    }

    /** Commit an event that moves the gates and nothing else. */
    method CommitGate(e: Event) returns (r: Io<nat>)
      requires Valid() && !journal.failed && GateOnly(e)
      requires LawfulEvent(journal.view, clock.now, e)
      modifies journal
      ensures M() == old(M())
      ensures Valid() && GateStep(old(W()), W()) && journal.failed == r.Unavailable?
      ensures journal.view.decisions == old(journal.view).decisions
      ensures journal.view == old(journal.view)
           || journal.view.gates == ApplyGates(old(journal.view).gates, old(journal.view).count + 1, e)
      ensures r.Done? ==>
                && journal.view.gates == ApplyGates(old(journal.view).gates, old(journal.view).count + 1, e)
                && journal.events == old(journal.events) + [Record(clock.now, e)]
                && r.value == |journal.events| == old(journal.view).count + 1
    {
      hide Valid, StopHeld, ApplyGates, ApplyOrders, ApplyLedger, ApplyCounters, ApplyWatch;
      GateOnlyEffect(journal.view, Record(clock.now, e));
      r := Commit(e);
    }

    /** Commit an event that is lawful in every state. */
    method Note(e: Event) returns (r: Io<()>)
      requires Valid() && !journal.failed && Quiet(e)
      modifies journal
      ensures M() == old(M())
      ensures Valid() && QuietStep(old(W()), W()) && journal.failed == r.Unavailable?
      ensures journal.view.decisions == old(journal.view).decisions
      ensures journal.view == old(journal.view)
           || journal.view.gates == ApplyGates(old(journal.view).gates, old(journal.view).count + 1, e)
      ensures r.Done? ==> journal.view.gates == ApplyGates(old(journal.view).gates, old(journal.view).count + 1, e)
      ensures r.Done? ==> journal.events == old(journal.events) + [Record(clock.now, e)]
    {
      hide Valid, GateStep, Quiet, LawfulEvent, ApplyGates;
      ghost var w := W();
      QuietEffect(journal.view, Record(clock.now, e));
      var s := CommitGate(e);
      QuietGateStep(w, W(), e);
      return if s.Done? then Done(()) else Unavailable;
    }

    /** Commit an event that is lawful in every state and moves no gate. */
    method Silently(e: Event) returns (r: Io<()>)
      requires Valid() && !journal.failed && Silent(e)
      modifies journal
      ensures M() == old(M())
      ensures Valid() && QuietStep(old(W()), W()) && journal.failed == r.Unavailable?
      ensures journal.view.decisions == old(journal.view).decisions
      ensures journal.view.gates == old(journal.view).gates
      ensures r.Done? ==> journal.events == old(journal.events) + [Record(clock.now, e)]
    {
      hide Valid, QuietStep, Silent, Quiet, ApplyGates;
      NoGateChange(journal.view.gates, journal.view.count + 1, e);
      r := Note(e);
    }

    /** Commit an event that moves the order book and nothing else. */
    method CommitOrder(e: Event) returns (r: Io<nat>)
      requires Valid() && !journal.failed && OrderOnly(e)
      requires LawfulEvent(journal.view, clock.now, e)
      modifies journal
      ensures M() == old(M())
      ensures Valid() && OrderStep(old(W()), W(), e) && journal.failed == r.Unavailable?
      ensures journal.view.gates == old(journal.view).gates
      ensures r.Done? ==> journal.view.orders == ApplyOrders(old(journal.view).orders, e)
      ensures r.Done? ==> journal.events == old(journal.events) + [Record(clock.now, e)] && r.value == |journal.events|
    {
      hide Valid, Wrote, ApplyOrders, Apply, LawfulEvent;
      OrderOnlyEffect(journal.view, Record(clock.now, e));
      r := Commit(e);
    }

    // ---- the state vector ----------------------------------------------

    /** Memory trusts link and sync only if the log says so too. */
    ghost predicate Linked()
      reads `linkState, `syncState, journal
    {
      GateLink(linkState, syncState, journal.view.gates)
    }

    method SetSync(new': SyncState) returns (r: Io<()>)
      requires Valid() && !journal.failed
      modifies `syncState, journal
      ensures Valid() && QuietStep(old(W()), W()) && journal.failed == r.Unavailable?
      ensures M() == old(M()).(sync := new')
      ensures r.Done? ==>
                journal.events == old(journal.events) + Stamped(clock.now, SyncNotes(old(syncState), new'))
      ensures r.Done? && old(Linked()) && (new'.SYNCED? ==> old(journal.view.gates.reconciled)) ==> Linked()
    {
      hide Valid, W, QuietStep, Quiet, ApplyGates;
      QuietRefl(W());
      SyncChange(journal.view.gates, journal.view.count + 1, new');
      if syncState == new' {
        return Done(());
      }
      syncState := new';
      r := Note(SyncStateChanged(new'));
    }

    method SetLink(new': LinkState) returns (r: Io<()>)
      requires Valid() && !journal.failed
      modifies `linkState, journal
      ensures Valid() && QuietStep(old(W()), W()) && journal.failed == r.Unavailable?
      ensures M() == old(M()).(link := new')
      ensures r.Done? ==>
                journal.events == old(journal.events) + Stamped(clock.now, LinkNotes(old(linkState), new'))
      ensures r.Done? && old(Linked()) ==> Linked()
    {
      hide Valid, W, QuietStep, Quiet, ApplyGates;
      QuietRefl(W());
      LinkChange(journal.view.gates, journal.view.count + 1, new');
      if linkState == new' {
        return Done(());
      }
      linkState := new';
      r := Note(LinkStateChanged(new'));
    }

    /** Entering an untrustworthy order state takes SYNCED away. */
    method SetOrderState(new': OrderState) returns (r: Io<()>)
      requires Valid() && !journal.failed
      modifies `orderState, `syncState, journal
      ensures Valid() && QuietStep(old(W()), W()) && journal.failed == r.Unavailable?
      ensures M() == old(M()).(os := new', sync := syncState)
      ensures r.Done? ==>
                journal.events == old(journal.events)
                                  + Stamped(clock.now, OrderStateNotes(old(orderState), new', old(syncState)))
      ensures syncState == old(syncState) || (syncState == UNVERIFIED && new'.Untrustworthy())
      ensures r.Done? ==> syncState == if new' != old(orderState) && new'.Untrustworthy() then UNVERIFIED else old(syncState)
      ensures r.Done? && old(Linked()) ==> Linked()
    {
      hide Valid, W, QuietStep;
      ghost var w := W();
      QuietRefl(w);
      if orderState == new' {
        return Done(());
      }
      orderState := new';
      r := Silently(OrderStateChanged(new'));
      if r.Done? && new'.Untrustworthy() {
        ghost var x := W();
        r := SetSync(UNVERIFIED);
        QuietTrans(w, x, W());
      }
    }

    // ---- stops: witness, fence, HALT -----------------------------------

    /** Pin a committed event out of band. */
    method Pin(seqNo: nat) returns (ok: bool)
      requires Valid() && !journal.failed
      requires 1 <= seqNo <= |journal.events| && WitnessSeq(evidence.record) <= seqNo
      requires Witnessed(journal.events[seqNo - 1].event)
      modifies evidence
      ensures M() == old(M())
      ensures Valid() && (old(Stopped()) ==> Stopped())
      ensures ok ==> WitnessSeq(evidence.record) == seqNo
    {
      hide Durable, StopHeld, Witnessed;
      ghost var w := W();
      ok := evidence.Record(journal, seqNo);
      if evidence.record != old(evidence.record) {
        PinKeeps(w, W(), seqNo);
      }
    }

    /** A stop is held, or this very operation tried to fence the next process, and the
        write failed. */
    twostate predicate StoppedOrReported()
      reads journal, evidence, fence, broker, ids, clock
    {
      Stopped() || fence.failures > old(fence.failures)
    }

    method RaiseDurableFence(detail: string)
      modifies `fenceWriteFailed, fence
      ensures M() == old(M())
      ensures (old(Valid()) ==> Valid()) && (old(Stopped()) ==> Stopped())
      ensures W() == old(W()).(fence := fence.cell, unfenced := fence.failures)
      ensures old(fence.cell).Some? ==> fence.cell == old(fence.cell)
      ensures fence.cell.Some? ==> Stopped()
      ensures StoppedOrReported() && old(fence.failures) <= fence.failures
      ensures fenceWriteFailed == (old(fenceWriteFailed) || fence.failures > old(fence.failures))
    {
      hide Durable, StopHeld;
      ghost var w := W();
      var ok := fence.Raise(detail);
      FenceKeeps(w, W());
      if !ok {
        fenceWriteFailed := true;
      }
    }

    /** Fence this process and, out of band, the next one. */
    method FailClosedRuntime(detail: string)
      modifies `fatal, `linkState, `syncState, `operatingMode, `fenceWriteFailed, fence
      ensures (old(Valid()) ==> Valid()) && (old(Stopped()) ==> Stopped())
      ensures M() == old(M()).(fatal := true, link := DEGRADED, sync := UNVERIFIED, mode := HALTED)
      ensures W() == old(W()).(fence := fence.cell, unfenced := fence.failures)
      ensures old(fence.cell).Some? ==> fence.cell == old(fence.cell)
      ensures StoppedOrReported() && old(fence.failures) <= fence.failures
    {
      hide Valid, Stopped, W;
      fatal := true;
      linkState := DEGRADED;
      syncState := UNVERIFIED;
      operatingMode := HALTED;
      assert M() == old(M()).(fatal := true, link := DEGRADED, sync := UNVERIFIED, mode := HALTED);
      RaiseDurableFence(detail);
    }

    method FailClosedJournal()
      modifies `journalFailure, `fatal, `linkState, `syncState, `operatingMode, `fenceWriteFailed, fence
      ensures (old(Valid()) ==> Valid()) && (old(Stopped()) ==> Stopped())
      ensures M() == old(M()).(broken := true, fatal := true, link := DEGRADED, sync := UNVERIFIED, mode := HALTED)
      ensures W() == old(W()).(fence := fence.cell, unfenced := fence.failures)
      ensures old(fence.cell).Some? ==> fence.cell == old(fence.cell)
      ensures StoppedOrReported() && old(fence.failures) <= fence.failures
    {
      hide Valid, Stopped, W;
      journalFailure := true;
      FailClosedRuntime("journal unavailable; no further broker writes");
    }

    /** Before a broker write: pin the authorising event, or fence and refuse. */
    method WitnessOrFence(seqNo: nat) returns (ok: bool)
      requires Valid() && !journal.failed
      requires 1 <= seqNo <= |journal.events| && WitnessSeq(evidence.record) <= seqNo
      requires Witnessed(journal.events[seqNo - 1].event)
      modifies evidence, `fatal, `linkState, `syncState, `operatingMode, `fenceWriteFailed, fence
      ensures Valid() && (old(Stopped()) ==> Stopped())
      ensures old(fence.cell).Some? ==> fence.cell == old(fence.cell)
      ensures old(fence.failures) <= fence.failures
      ensures ok ==> WitnessSeq(evidence.record) == seqNo && M() == old(M())
      ensures ok ==> fence.cell == old(fence.cell) && fence.failures == old(fence.failures)
      ensures !ok ==> M() == old(M()).(fatal := true, link := DEGRADED, sync := UNVERIFIED, mode := HALTED)
    {
      hide Valid, Stopped, Witnessed, W;
      ok := Pin(seqNo);
      if !ok {
        FailClosedRuntime("journal witness unavailable before a broker write");
      }
    }

    /** After a HALT: never undone, but if it cannot be pinned the next process is
        fenced; only when neither can be written is the stop not held. */
    method WitnessSafetyCritical(seqNo: nat)
      requires Valid() && !journal.failed
      requires 1 <= seqNo == |journal.events| && Witnessed(journal.events[seqNo - 1].event)
      requires journal.view.gates.halt.Some?
      modifies evidence, `fenceWriteFailed, fence
      ensures M() == old(M())
      ensures Valid() && (old(Stopped()) ==> Stopped())
      ensures W() == old(W()).(rec := evidence.record, fence := fence.cell, unfenced := fence.failures)
      ensures old(fence.cell).Some? ==> fence.cell == old(fence.cell)
      ensures StoppedOrReported() && old(fence.failures) <= fence.failures
    {
      hide Durable, StopHeld, Witnessed;
      WitnessWithin(W());
      var ok := Pin(seqNo);
      ghost var w := W();
      if ok {
        PinnedHaltIsHeld(w);
      } else {
        RaiseDurableFence("safety-critical witness update failed");
      }
    }

    /** The mode in memory agrees with the log. */
    ghost predicate Agreed()
      reads `operatingMode, `fatal, fence, journal
    {
      ModeAgrees(operatingMode, fatal, fence.cell.Some?, journal.view.gates)
    }

    /** HALTED may be entered from anywhere, FLATTEN_ONLY only from a mode that is
        not HALTED. */
    method SetMode(new': OperatingMode) returns (r: Io<()>)
      requires Valid() && !journal.failed
      requires new'.HALTED? || (new'.FLATTEN_ONLY? && Agreed() && !operatingMode.HALTED?)
      modifies `operatingMode, `fenceWriteFailed, journal, evidence, fence
      ensures Valid() && ModeStep(old(W()), W()) && journal.failed == r.Unavailable?
      ensures journal.view.decisions == old(journal.view).decisions
      ensures M() == old(M()).(mode := new')
      ensures new' == old(operatingMode) ==> W() == old(W())
      ensures r.Done? && old(Agreed()) ==> Agreed()
      ensures r.Done? && new'.HALTED? && !old(operatingMode).HALTED? ==>
                && journal.view.gates.halt == Some(|journal.events|) && !journal.view.gates.stopDue
                && StoppedOrReported()
    {
      hide Valid, StopHeld, ModeStep, GateStep, ApplyGates, GateOnly, LawfulEvent;
      ghost var w := W();
      ModeRefl(w);
      if operatingMode == new' {
        return Done(());
      }
      operatingMode := new';
      ModeChange(journal.view, clock.now, new');
      ghost var e := OperatingModeChanged(new');
      var s := CommitGate(OperatingModeChanged(new'));
      ghost var x := W();
      if s.Done? && new'.HALTED? {
        WitnessSafetyCritical(s.value);
      }
      GateThenPin(w, x, W(), e);
      return if s.Done? then Done(()) else Unavailable;
    }

    /** A further cause advances the acknowledgement token of a HALT that already stands. */
    method Halt() returns (r: Io<()>)
      requires Valid() && !journal.failed
      modifies `operatingMode, `fenceWriteFailed, journal, evidence, fence
      ensures Valid() && ModeStep(old(W()), W()) && journal.failed == r.Unavailable?
      ensures M() == old(M()).(mode := HALTED)
      ensures r.Done? && old(Agreed()) ==> Agreed()
      ensures r.Done? ==>
                && journal.view.gates.halt == Some(|journal.events|) && !journal.view.gates.stopDue
                && StoppedOrReported()
    {
      hide Valid, StopHeld, ModeStep, GateStep, ApplyGates, GateOnly, LawfulEvent;
      if operatingMode.HALTED? {
        ghost var w := W();
        CauseChange(journal.view, clock.now);
        var s := CommitGate(HaltCauseAdded);
        ghost var x := W();
        if s.Done? {
          WitnessSafetyCritical(s.value);
        }
        GateThenPin(w, x, W(), HaltCauseAdded);
        return if s.Done? then Done(()) else Unavailable;
      }
      r := SetMode(HALTED);
    }

    /** A runtime assertion: a violated one is journalled, halts, and raises. */
    method Require(cond: bool) returns (r: Io<()>)
      requires Valid() && !journal.failed
      modifies `violations, `operatingMode, `fenceWriteFailed, journal, evidence, fence
      ensures Valid()
      ensures cond ==> r.Done? && unchanged(`violations, `operatingMode, `fenceWriteFailed, journal, evidence, fence)
      ensures !cond ==> r.Unavailable? && violations == old(violations) + 1
      ensures !cond && !journal.failed ==> operatingMode == HALTED
    {
      hide Durable, StopHeld, ModeStep, QuietStep, ApplyGates;
      if !cond {
        violations := violations + 1;
        var noted := Silently(InvariantViolated);
        if noted.Done? {
          var _ := Halt();
        }
        return Unavailable;
      }
      return Done(());
    }

    /** The single gate every broker write passes through. */
    method CanWrite(closing: bool) returns (ok: bool, miss: MissReason)
      modifies `journalFailure, `fatal, `linkState, `syncState, `operatingMode, `fenceWriteFailed, fence
      ensures ok <==> !journalFailure && !journal.failed && linkState.CONNECTED? && syncState.SYNCED?
                      && !operatingMode.HALTED? && (closing || operatingMode.NORMAL?)
      ensures !old(journalFailure) && !journal.failed ==>
                && M() == old(M()) && W() == old(W())
                && WriteGate(M(), closing) == if ok then None else Some(miss)
      ensures old(Valid()) ==> Valid()
    {
      hide Valid;
      if journalFailure || journal.failed {
        FailClosedJournal();
        return false, MODE_BLOCKED;
      }
      if !linkState.CONNECTED? {
        return false, MISS_DISCONNECTED;
      }
      if !syncState.SYNCED? {
        return false, MISS_NOT_SYNCED;
      }
      if operatingMode.HALTED? {
        return false, MODE_BLOCKED;
      }
      if !closing && !operatingMode.NORMAL? {
        return false, MODE_BLOCKED;
      }
      return true, MODE_BLOCKED;
    }

    // ---- records without effect on trust -------------------------------

    method Miss(target: TargetPosition, why: MissReason) returns (r: Io<()>)
      requires Valid() && !journal.failed
      modifies journal
      ensures M() == old(M())
      ensures Valid() && QuietStep(old(W()), W()) && journal.failed == r.Unavailable?
      ensures journal.view.gates == old(journal.view).gates
      ensures r.Done? ==> journal.events == old(journal.events) + [Record(clock.now, DecisionMissed(target.decision, why))]
    {
      hide Valid, QuietStep, ApplyGates;
      r := Silently(DecisionMissed(target.decision, why));
    }

    /** A temporary block is recorded once, not counted as a miss. */
    method Defer(why: MissReason, state: Option<OrderState>) returns (r: Io<()>)
      requires Valid() && !journal.failed
      modifies `deferred, journal
      ensures M() == old(M())
      ensures Valid() && QuietStep(old(W()), W()) && journal.failed == r.Unavailable?
      ensures journal.view.gates == old(journal.view).gates
      ensures desired.Some? ==> deferred == Some(Deferral(why, state))
      ensures desired.None? || old(deferred) == Some(Deferral(why, state)) ==> deferred == old(deferred) && W() == old(W())
      ensures r.Done? && desired.Some? && old(deferred) != deferred ==>
                journal.events == old(journal.events) + [Record(clock.now, TargetDeferred(desired.value.decision, why))]
    {
      hide Valid, QuietStep, ApplyGates;
      QuietRefl(W());
      if desired.None? {
        return Done(());
      }
      if deferred == Some(Deferral(why, state)) {
        return Done(());
      }
      deferred := Some(Deferral(why, state));
      r := Silently(TargetDeferred(desired.value.decision, why));
    }

    // ---- ending an order -------------------------------------------------

    /** What this operation wrote to the log begins with `events`. */
    twostate predicate LoggedFirst(new events: seq<Event>)
      reads journal, clock
    {
      old(journal.events) + Stamped(clock.now, events) <= journal.events
    }

    /** The end of an order, and what it leaves to be remembered, in the log. */
    method CommitEnd(e: Event, note: Option<Event>) returns (r: Io<()>)
      requires Valid() && !journal.failed && OrderOnly(e) && LawfulEvent(journal.view, clock.now, e)
      requires note.Some? ==> Silent(note.value)
      modifies journal
      ensures M() == old(M()) && journal.failed == r.Unavailable?
      ensures Valid() && OrderStep(old(W()), W(), e) && journal.view.gates == old(journal.view).gates
      ensures r.Done? ==> journal.view.orders == ApplyOrders(old(journal.view).orders, e)
      ensures r.Done? ==> journal.events == old(journal.events) + Stamped(clock.now, EndEvents(e, note))
    {
      hide Valid, OrderOnly, LawfulEvent, Silent, OrderStep, QuietStep, ApplyOrders;
      ghost var w := W();
      var s := CommitOrder(e);
      r := if s.Done? then Done(()) else Unavailable;
      if r.Done? && note.Some? {
        ghost var x := W();
        r := Silently(note.value);
        OrderThenQuiet(w, x, W(), e);
      }
    }

    /** The live order ends: in the log, then in memory. */
    method Resolve(e: Event, note: Option<Event>, next: OrderState) returns (r: Io<()>)
      requires Valid() && !journal.failed && Inv(M(), W())
      requires live.Some? && Ends(e, live.value.ref) && LawfulEvent(journal.view, clock.now, e)
      requires note.Some? ==> Silent(note.value)
      requires next.IDLE? || next.TERMINAL_UNRECONCILED?
      requires e.OrderCancelled? ==> next.TERMINAL_UNRECONCILED?
      modifies `live, `workingSigned, `orderState, `syncState, journal
      ensures Valid() && journal.failed == r.Unavailable? && Progress(old(M()), old(W()), M(), W(), r.Done?)
      ensures old(Exposed(M(), W()) && HonestCancel(live.value.ref, W())
                  && (next.IDLE? ==> AllBooked(W(), live.value.ref)))
              ==> Safe(M(), W(), r.Done?)
      ensures r.Done? ==> Inv(M(), W()) && M() == old(M()).(live := None, working := 0, os := next, sync := syncState)
      ensures r.Done? && next.IDLE? ==> syncState == old(syncState)
      ensures r.Done? ==> journal.view.orders == ApplyOrders(old(journal.view).orders, e)
      ensures r.Done? ==>
                journal.events == old(journal.events)
                                  + Stamped(clock.now,
                                            EndEvents(e, note) + OrderStateNotes(old(orderState), next, old(syncState)))
    {
      hide Valid, Inv, Ends, Resolving, Silent, OrderStep, QuietStep, GateLink, ApplyOrders, LawfulEvent,
           Exposed, Safe, Progress, HonestCancel, AllBooked, OrderOnly;
      ghost var m, w := M(), W();
      InvFacts(m, w);
      EndsIsResolving(e, live.value.ref);
      r := CommitEnd(e, note);
      if r.Done? {
        ghost var x := W();
        ClearLive();
        r := SetOrderState(next);
        OrderThenQuiet(w, x, W(), e);
        StampedTwice(w.log, clock.now, EndEvents(e, note), OrderStateNotes(m.os, next, m.sync));
      }
      ResolveOutcome(m, w, M(), W(), e, next, r.Done?);
    }

    method ClearLive()
      modifies `live, `workingSigned
      ensures M() == old(M()).(live := None, working := 0) && W() == old(W()) && (old(Valid()) ==> Valid())
    {
      hide Valid, W;
      live, workingSigned := None, 0;
    }

    // ---- sending: durable before send, at most once ---------------------

    /** 1. The intent is durable before anything else happens. */
    method CommitIntent(intent: OrderIntent) returns (r: Io<()>)
      requires Valid() && !journal.failed && Sendable(M(), W(), intent) && intent.ref < ids.next
      modifies `live, `orderState, `syncState, journal
      ensures Valid() && IntentStep(old(W()), W(), intent) && journal.failed == r.Unavailable?
      ensures M() == old(M()).(live := live, os := orderState, sync := syncState)
      ensures r.Done? ==> M() == old(M()).(live := Some(intent), os := INTENT_COMMITTED) && Ready(M(), W(), intent)
      ensures r.Done? ==>
                journal.events == old(journal.events)
                                  + Stamped(clock.now, [IntentCommitted(intent), OrderStateChanged(INTENT_COMMITTED)])
    {
      hide Valid, Sendable, Ready, QuietStep, GateLink, ApplyOrders, LawfulEvent, Apply, Wrote, IntentStep;
      ghost var m, w := M(), W();
      IntentIsLawful(m, w, intent);
      var s := Commit(IntentCommitted(intent));
      ghost var x := W();
      IntentWritten(m, w, x, intent);
      if s.Unavailable? {
        return Unavailable;
      }
      HoldIntent(intent);
      r := SetOrderState(INTENT_COMMITTED);
      IntentThenQuiet(w, x, W(), intent);
      if r.Done? {
        ValidIsDurable();
        IntentMakesReady(m, w, M(), W(), intent);
      }
    }

    method HoldIntent(intent: OrderIntent)
      modifies `live
      ensures M() == old(M()).(live := Some(intent)) && W() == old(W()) && (old(Valid()) ==> Valid())
    {
      hide Valid, W;
      live := Some(intent);
    }

    /** 2. The attempt is durable before the call, and counted whatever becomes of it. */
    method StartSend(intent: OrderIntent, price: Option<real>) returns (r: Io<nat>)
      requires Valid() && !journal.failed && Ready(M(), W(), intent) && price == intent.limitPrice
      modifies `orderState, `syncState, `violations, `operatingMode, `fenceWriteFailed, journal, risk, evidence, fence
      ensures Valid() && AttemptStep(old(W()), W(), intent) && journal.failed == r.Unavailable?
      ensures M() == old(M()).(os := orderState, sync := syncState, counters := risk.counters)
      ensures r.Unavailable? ==> risk.counters == old(risk.counters)
      ensures r.Done? ==>
                && InFlight(M(), W(), intent)
                && 1 <= r.value <= |journal.events| && WitnessSeq(evidence.record) <= r.value
                && journal.events[r.value - 1].event == SendEvent(intent)
                && journal.events == old(journal.events) + Stamped(clock.now, [SendEvent(intent), OrderStateChanged(PENDING_ACK)])
    {
      hide Valid, Ready, InFlight, QuietStep, GateLink, ApplyOrders, LawfulEvent, LawfulSend, Apply, Count, SendEvent,
           Durable, Lasting, WithinCaps, Wrote, AttemptStep;
      ghost var m, w := M(), W();
      ValidIsDurable();
      AttemptIsLawful(m, w, intent);
      var s := Commit(SendAttemptStarted(intent.ref, intent.quantity, price));
      ghost var x := W();
      AttemptWritten(m, w, x, intent);
      if s.Unavailable? {
        return Unavailable;
      }
      var t := SetOrderState(PENDING_ACK);
      AttemptThenQuiet(w, x, W(), intent);
      if t.Unavailable? {
        return Unavailable;
      }
      var checked := Require(linkState.CONNECTED? && syncState.SYNCED?);
      assert checked.Done?;
      risk.RecordSent(clock.now, intent, PriceOrZero(price));
      AttemptInFlight(m, w, M(), W(), intent);
      return Done(s.value);
    }

    /** 3. The broker write, authorised by a pinned send attempt. */
    method Place(intent: OrderIntent, ghost seqNo: nat) returns (p: Placement)
      requires Valid() && intent.ref < ids.next
      requires 1 <= seqNo <= |journal.events| && WitnessSeq(evidence.record) == seqNo
      requires journal.events[seqNo - 1].event == SendEvent(intent)
      modifies broker
      ensures Valid() && MayPlace(old(W()), W(), intent) && M() == old(M())
      ensures broker.cancelCalls == old(broker.cancelCalls)
      ensures broker.placeCalls == old(broker.placeCalls) + [intent.ref]
      ensures p.Accepted? ==> broker.Books() == WithOrder(old(broker.Books()), intent)
      ensures p.Rejected? ==> broker.Books() == old(broker.Books())
      ensures broker.Books() == old(broker.Books()) || broker.Books() == WithOrder(old(broker.Books()), intent)
    {
      hide Durable, SendEvent, M;
      ghost var w := W();
      p := broker.PlaceOrder(intent);
      PlaceKeepsDurable(w, W(), seqNo, intent);
    }

    /** 4. A clean refusal: no order exists, and the decision is spent. */
    method RecordRejected(intent: OrderIntent) returns (r: Io<()>)
      requires Valid() && !journal.failed && InFlight(M(), W(), intent) && desired.Some?
      modifies `live, `workingSigned, `orderState, `syncState, `desired, journal
      ensures Valid() && Progress(old(M()), old(W()), M(), W(), r.Done?)
      ensures journal.failed == r.Unavailable?
      ensures old(Exposed(M(), W())) && HonestRejection(intent.ref, old(W())) ==> Safe(M(), W(), r.Done?)
      ensures r.Done? ==> orderState.IDLE? && live.None? && desired.None? && InLog(intent, journal.view.orders)
      ensures r.Done? ==> intent.ref !in journal.view.orders.open
      ensures r.Done? ==>
                journal.events == old(journal.events) + Stamped(clock.now,
                  [SendCallFailed(intent.ref, true), OrderStateChanged(IDLE),
                   DecisionMissed(old(desired).value.decision, BROKER_REJECTED)])
    {
      hide Valid, InFlight, Inv, QuietStep, GateLink, ApplyOrders, LawfulEvent, Exposed, Safe, Outcome,
           HonestRejection, HonestCancel, AllBooked;
      ghost var m, w := M(), W();
      RejectionIsLawful(m, w, intent);
      InFlightFacts(m, w, intent);
      EndedIsRemembered(w.view.orders, intent.ref);
      if HonestRejection(intent.ref, w) {
        RejectionLeavesNothing(w, intent.ref);
      }
      r := Resolve(SendCallFailed(intent.ref, true), None, IDLE);
      if r.Done? {
        ghost var n, x := M(), W();
        r := SpendDecision();
        ThenOutcome(m, w, n, x, n, W(), r.Done?);
      }
    }

    method SpendDecision() returns (r: Io<()>)
      requires Valid() && !journal.failed && Inv(M(), W()) && desired.Some?
      modifies `desired, journal
      ensures Valid() && journal.failed == r.Unavailable? && Outcome(old(M()), old(W()), M(), W(), r.Done?)
      ensures M() == old(M()) && journal.view.orders == old(journal.view).orders
      ensures r.Done? ==>
                && desired.None?
                && journal.events == old(journal.events) + [Record(clock.now, DecisionMissed(old(desired).value.decision,
                                                                                             BROKER_REJECTED))]
    {
      hide Valid, Inv, Outcome, QuietStep;
      ghost var n, x := M(), W();
      r := Miss(desired.value, BROKER_REJECTED);
      if r.Done? {
        desired := None;
      }
      QuietFacts(x, W());
      StillOutcome(n, x, W(), r.Done?);
    }

    /** We do not know whether the order exists; it is never retried. */
    method RecordUncertain(intent: OrderIntent) returns (r: Io<()>)
      requires Valid() && !journal.failed && InFlight(M(), W(), intent)
      modifies `orderState, `syncState, journal
      ensures Valid() && Outcome(old(M()), old(W()), M(), W(), r.Done?)
      ensures journal.failed == r.Unavailable?
      ensures r.Done? ==> orderState == SUBMISSION_UNCERTAIN && syncState == UNVERIFIED && InLog(intent, journal.view.orders)
      ensures r.Done? ==>
                journal.events == old(journal.events) + Stamped(clock.now,
                  [SendCallFailed(intent.ref, false), OrderStateChanged(SUBMISSION_UNCERTAIN), SyncStateChanged(UNVERIFIED)])
    {
      hide Valid, InFlight, Inv, QuietStep, OrderStep, GateLink, ApplyOrders, LawfulEvent, Outcome;
      ghost var m, w := M(), W();
      RejectionIsLawful(m, w, intent);
      InFlightFacts(m, w, intent);
      UncertainIsQuiet(w, intent.ref);
      var s := CommitOrder(SendCallFailed(intent.ref, false));
      r := Unavailable;
      ghost var x := W();
      NoOrderMoved(w, x, SendCallFailed(intent.ref, false));
      if s.Done? {
        r := SetOrderState(SUBMISSION_UNCERTAIN);
        QuietTrans(w, x, W());
        QuietFacts(w, W());
      }
      UncertainSend(m, w, M(), W(), intent, r.Done?);
    }

    /** The call returned: from here on the quantity is working. */
    method RecordAccepted(intent: OrderIntent) returns (r: Io<()>)
      requires Valid() && !journal.failed && InFlight(M(), W(), intent)
      modifies `orderState, `syncState, `sentAt, `workingSigned, `deferred, journal
      ensures Valid() && Outcome(old(M()), old(W()), M(), W(), r.Done?)
      ensures journal.failed == r.Unavailable?
      ensures r.Done? ==> workingSigned == intent.Signed() && sentAt == Some(clock.now) && deferred.None?
      ensures r.Done? ==> InLog(intent, journal.view.orders)
      ensures r.Done? ==> journal.events == old(journal.events) + Stamped(clock.now, [SendCallReturned(intent.ref)])
      ensures orderState == old(orderState) && syncState == old(syncState)
    {
      hide Valid, InFlight, Inv, QuietStep, GateLink, Outcome, Resolving, LawfulEvent;
      ghost var m, w := M(), W();
      RejectionIsLawful(m, w, intent);
      InFlightFacts(m, w, intent);
      r := Silently(SendCallReturned(intent.ref));
      ghost var x := W();
      if r.Done? {
        r := SetOrderState(PENDING_ACK);
        QuietTrans(w, x, W());
        QuietFacts(w, W());
      }
      AcceptedSend(m, w, intent, m.working, W(), r.Done?);
      if r.Done? {
        StartManaging(intent);
        AcceptedSend(m, w, intent, workingSigned, W(), true);
      }
    }

    method StartManaging(intent: OrderIntent)
      modifies `sentAt, `workingSigned, `deferred
      ensures sentAt == Some(clock.now) && deferred.None?
      ensures M() == old(M()).(working := intent.Signed()) && W() == old(W()) && (old(Valid()) ==> Valid())
    {
      hide Valid, W;
      sentAt := Some(clock.now);
      workingSigned := intent.Signed();
      deferred := None;
    }

    /** The attempt could not be pinned: nothing was sent, and nothing will be. */
    method AbandonSend(intent: OrderIntent, ghost m: Memory, ghost w: World) returns (r: Io<()>)
      requires Valid() && !journal.failed && InFlight(m, w, intent)
      requires W() == w.(rec := evidence.record, fence := fence.cell, unfenced := fence.failures)
      requires (StopHeld(w) ==> Stopped()) && (w.fence.Some? ==> fence.cell == w.fence) && w.unfenced <= fence.failures
      requires M() == m.(fatal := true, link := DEGRADED, sync := UNVERIFIED, mode := HALTED)
      requires desired.Some? && desired.value.decision == intent.decision
      modifies `live, `orderState, `syncState, `deferred, journal
      ensures Valid() && Progress(m, w, M(), W(), r.Done?)
      ensures journal.failed == r.Unavailable?
      ensures ExposureKnown(w) ==> Safe(M(), W(), r.Done?)
      ensures r.Done? ==> orderState.IDLE? && live.None? && InLog(intent, journal.view.orders)
      ensures r.Done? ==>
                journal.events == old(journal.events) + Stamped(clock.now, FateNotes(intent, old(deferred), true, IDLE))
      ensures fatal && operatingMode.HALTED?
    {
      hide Valid, InFlight, Inv, QuietStep, GateLink, ExposureKnown, Safe, Progress, StopHeld;
      ghost var x := W();
      InFlightFacts(m, w, intent);
      r := Forget();
      if r.Done? {
        QuietFacts(x, W());
      }
      FencedSend(m, w, M(), W(), intent, r.Done?);
    }

    /** Back to idle without the order, and its target deferred. */
    method Forget() returns (r: Io<()>)
      requires Valid() && !journal.failed && desired.Some? && !orderState.IDLE?
      modifies `live, `orderState, `syncState, `deferred, journal
      ensures Valid() && QuietStep(old(W()), W()) && journal.failed == r.Unavailable?
      ensures M() == old(M()).(live := live, os := IDLE)
      ensures r.Done? ==> live.None?
      ensures r.Done? ==>
                var kept := old(deferred) == Some(Deferral(MODE_BLOCKED, None));
                journal.events == old(journal.events)
                                  + Stamped(clock.now, [OrderStateChanged(IDLE)]
                                                       + if kept then [] else [TargetDeferred(desired.value.decision, MODE_BLOCKED)])
    {
      hide Valid, QuietStep, GateLink;
      ghost var x := W();
      r := SetOrderState(IDLE);
      ghost var y := W();
      if r.Done? {
        DropLive();
        ghost var kept := deferred == Some(Deferral(MODE_BLOCKED, None));
        r := Defer(MODE_BLOCKED, None);
        StampedTwice(x.log, clock.now, [OrderStateChanged(IDLE)],
                     if kept then [] else [TargetDeferred(desired.value.decision, MODE_BLOCKED)]);
        QuietTrans(x, y, W());
      }
    }

    method DropLive()
      modifies `live
      ensures M() == old(M()).(live := None) && W() == old(W()) && (old(Valid()) ==> Valid())
    {
      hide Valid, W;
      live := None;
    }

    /** Steps 1 and 2. On return the order is in flight, or nothing was sent. */
    method Launch(intent: OrderIntent, price: Option<real>) returns (r: Io<nat>)
      requires Valid() && !journal.failed && Sendable(M(), W(), intent) && intent.ref < ids.next
      requires price == intent.limitPrice
      modifies `live, `orderState, `syncState, `violations, `operatingMode, `fenceWriteFailed,
               journal, risk, evidence, fence
      ensures Valid() && journal.failed == r.Unavailable?
      ensures Launched(old(M()), old(W()), M(), W(), r.Done?)
      ensures r.Done? ==>
                && InFlight(M(), W(), intent)
                && 1 <= r.value <= |journal.events| && WitnessSeq(evidence.record) <= r.value
                && journal.events[r.value - 1].event == SendEvent(intent)
                && journal.events == old(journal.events) + Stamped(clock.now, LaunchNotes(intent))
    {
      hide Valid, Sendable, Ready, InFlight, IntentStep, AttemptStep, SendEvent, Launched;
      ghost var m, w := M(), W();
      var s := CommitIntent(intent);
      ghost var n, x := M(), W();
      if s.Unavailable? {
        IntentLaunch(m, w, n, x, intent);
        return Unavailable;
      }
      r := StartSend(intent, price);
      AttemptLaunch(m, w, n, x, M(), W(), intent, r.Done?);
    }

    /** Steps 3 and 4: pin the attempt, make the call, record what came back. */
    method Transmit(intent: OrderIntent, seqNo: nat, ghost m: Memory, ghost w: World) returns (r: Io<bool>)
      requires Valid() && !journal.failed && InFlight(M(), W(), intent) && intent.ref < ids.next && desired.Some?
      requires desired.value.decision == intent.decision
      requires 1 <= seqNo <= |journal.events| && WitnessSeq(evidence.record) <= seqNo
      requires journal.events[seqNo - 1].event == SendEvent(intent)
      requires Sendable(m, w, intent) && Lasting(w) && Launched(m, w, M(), W(), true)
      modifies `live, `workingSigned, `orderState, `syncState, `sentAt, `deferred, `desired,
               `fatal, `linkState, `operatingMode, `fenceWriteFailed, journal, evidence, fence, broker
      ensures Valid() && journal.failed == r.Unavailable? && Outcome(m, w, M(), W(), r.Done?)
      ensures r.Done? ==> Inv(M(), W())
      ensures broker.cancelCalls == old(broker.cancelCalls)
      ensures broker.placeCalls == old(broker.placeCalls) || broker.placeCalls == old(broker.placeCalls) + [intent.ref]
      ensures r.Done? ==> Concluded(intent, old(W()), M(), W(), desired.None?)
      ensures r.Done? ==>
                journal.events == old(journal.events) + Stamped(clock.now,
                  FateNotes(intent, old(deferred), broker.placeCalls == old(broker.placeCalls), orderState))
      ensures r.Done? && r.value ==> orderState.PENDING_ACK? && sentAt == Some(clock.now)
    {
      hide Valid, Sendable, Lasting, InFlight, Launched, SendEvent, Inv, Kept, Safe, Exposed,
           HonestRejection, ExposureKnown, MayPlace, StopHeld, WithOrder, InLog;
      ghost var n, x := M(), W();
      InFlightFacts(n, x, intent);
      AttemptIsWitnessed(intent);
      var pinned := WitnessOrFence(seqNo);
      if !pinned {
        var s := AbandonSend(intent, n, x);
        ComposeLaunch(m, w, n, x, M(), W(), s.Done?);
        return if s.Done? then Done(false) else Unavailable;
      }
      ghost var y := W();
      PinLaunched(m, w, n, x, y, intent);
      r := Deliver(intent, seqNo, m, w);
    }

    /** The pinned attempt is made, and what came back is recorded. */
    method Deliver(intent: OrderIntent, ghost seqNo: nat, ghost m: Memory, ghost w: World) returns (r: Io<bool>)
      requires Valid() && !journal.failed && InFlight(M(), W(), intent) && intent.ref < ids.next && desired.Some?
      requires desired.value.decision == intent.decision
      requires 1 <= seqNo <= |journal.events| && WitnessSeq(evidence.record) == seqNo
      requires journal.events[seqNo - 1].event == SendEvent(intent)
      requires Sendable(m, w, intent) && Lasting(w) && Launched(m, w, M(), W(), true)
      modifies `live, `workingSigned, `orderState, `syncState, `sentAt, `deferred, `desired, journal, broker
      ensures Valid() && journal.failed == r.Unavailable? && Outcome(m, w, M(), W(), r.Done?)
      ensures r.Done? ==> Inv(M(), W())
      ensures broker.cancelCalls == old(broker.cancelCalls)
      ensures broker.placeCalls == old(broker.placeCalls) + [intent.ref]
      ensures r.Done? ==> Concluded(intent, old(W()), M(), W(), desired.None?)
      ensures r.Done? ==>
                journal.events == old(journal.events) + Stamped(clock.now,
                  FateNotes(intent, old(deferred), broker.placeCalls == old(broker.placeCalls), orderState))
      ensures r.Done? && r.value ==> orderState.PENDING_ACK? && sentAt == Some(clock.now)
    {
      hide Valid, Sendable, Lasting, InFlight, Launched, SendEvent, Inv, Kept, Safe, Exposed,
           HonestRejection, ExposureKnown, MayPlace, StopHeld, WithOrder, InLog;
      ghost var n, y := M(), W();
      InFlightFacts(n, y, intent);
      var p := Place(intent, seqNo);
      ghost var z := W();
      PlaceLaunched(m, w, n, y, z, intent);
      var s;
      match p {
        case Rejected => s := RecordRejected(intent);
        case Uncertain => s := RecordUncertain(intent);
        case Accepted => s := RecordAccepted(intent);
      }
      ComposeSafe(m, w, n, z, M(), W(), s.Done?);
      return if s.Done? then Done(p.Accepted?) else Unavailable;
    }

    /** What `Evaluate` has established when it decides to send. */
    predicate MaySend(delta: int, closing: bool)
      reads this, clock
    {
      && orderState.IDLE?
      && linkState.CONNECTED?
      && syncState.SYNCED?
      && !operatingMode.HALTED?
      && (closing || operatingMode.NORMAL?)
      && desired.Some?
      && closing == IsClosing(desired.value.quantity, position)
      && (operatingMode.FLATTEN_ONLY? ==> desired.value.quantity == 0)
      && !desired.value.IsExpired(clock.now)
      && delta == desired.value.quantity - position - workingSigned
      && delta != 0
    }

    /** The order that closes the gap to the target, and the risk engine's verdict. */
    method Propose(delta: int, closing: bool) returns (intent: OrderIntent, rejected: Option<RiskCheck>)
      requires Valid() && !journal.failed && Inv(M(), W()) && MaySend(delta, closing)
      modifies ids, risk
      ensures Valid() && Outcome(old(M()), old(W()), M(), W(), true) && Inv(M(), W()) && Lasting(W())
      ensures W() == old(W()).(nextId := old(ids.next) + 1) && ids.next == old(ids.next) + 1
      ensures intent == Proposal(old(M()), P(), old(ids.next), delta)
      ensures rejected.None? <==> Admitted(risk.config, old(M()), clock.now, intent)
      ensures rejected.None? ==> Sendable(M(), W(), intent)
      ensures M() == old(M()).(counters := risk.counters)
    {
      hide Durable, Inv, Outcome, Sendable, Admissible, Roll, CollarBps;
      ghost var m, w := M(), W();
      var side := if delta > 0 then BUY else SELL;
      var ref := ids.Fresh();
      intent := OrderIntent(ref, desired.value.decision, side, Abs(delta), LimitPrice(quote, side, attempt, closing),
                            desired.value.quantity, position, workingSigned, desired.value.validUntil, attempt, flattenReason);
      rejected := risk.Check(clock.now, intent, position, quote, closing);
      ProposalKeeps(m, w, M(), W());
      if rejected.None? {
        ProposalIsSendable(m, w, M(), W(), intent, closing);
      }
    }

    /** Send one order for the gap between position and target. */
    method Send(delta: int, closing: bool) returns (r: Io<bool>)
      requires Valid() && !journal.failed && Inv(M(), W()) && MaySend(delta, closing)
      modifies `desired, `deferred, `live, `workingSigned, `orderState, `syncState, `sentAt, `fatal, `linkState,
               `operatingMode, `violations, `fenceWriteFailed, journal, risk, evidence, fence, broker, ids
      ensures Valid() && journal.failed == r.Unavailable? && Outcome(old(M()), old(W()), M(), W(), r.Done?)
      ensures r.Done? ==> Inv(M(), W())
      ensures broker.cancelCalls == old(broker.cancelCalls)
      ensures broker.placeCalls == old(broker.placeCalls) || broker.placeCalls == old(broker.placeCalls) + [old(ids.next)]
      ensures r.Done? ==>
                && Sent(delta, old(M()), old(P()), old(W()), M(), P(), W())
                && SendNoted(delta, old(M()), old(P()), old(W()), M(), W())
      ensures r.Done? && r.value ==> orderState.PENDING_ACK? && sentAt == Some(clock.now)
    {
      hide Valid, Inv, Outcome, Sendable, QuietStep, Lasting, IsClosing, CollarBps, Concluded;
      ghost var m, w := M(), W();
      OneConfig();
      var target := desired.value;
      var intent, rejected := Propose(delta, closing);
      ghost var n, x := M(), W();
      if rejected.Some? {
        var s := Refuse(target, intent.ref);
        StillOutcome(n, x, W(), s.Done?);
        OutcomeTrans(m, w, n, x, n, W(), s.Done?);
        return if s.Done? then Done(false) else Unavailable;
      }
      r := Attempt(intent);
      ConcludedSince(intent, w, x, M(), W(), desired.None?);
      OutcomeTrans(m, w, n, x, M(), W(), r.Done?);
    }

    /** An admitted order: durable, attempted, pinned, sent. */
    method Attempt(intent: OrderIntent) returns (r: Io<bool>)
      requires Valid() && !journal.failed && Sendable(M(), W(), intent) && intent.ref < ids.next && desired.Some?
      requires desired.value.decision == intent.decision
      requires intent.limitPrice.None? ==> quote.None?
      modifies `desired, `deferred, `live, `workingSigned, `orderState, `syncState, `sentAt, `fatal, `linkState,
               `operatingMode, `violations, `fenceWriteFailed, journal, risk, evidence, fence, broker
      ensures Valid() && journal.failed == r.Unavailable? && Outcome(old(M()), old(W()), M(), W(), r.Done?)
      ensures r.Done? ==> Inv(M(), W()) && Concluded(intent, old(W()), M(), W(), desired.None?)
      ensures r.Done? ==>
                journal.events == old(journal.events) + Stamped(clock.now,
                  LaunchNotes(intent) + FateNotes(intent, old(deferred), broker.placeCalls == old(broker.placeCalls), orderState))
      ensures broker.cancelCalls == old(broker.cancelCalls)
      ensures broker.placeCalls == old(broker.placeCalls) || broker.placeCalls == old(broker.placeCalls) + [intent.ref]
      ensures r.Done? && r.value ==> orderState.PENDING_ACK? && sentAt == Some(clock.now)
    {
      hide Valid, Durable, Inv, Outcome, Sendable, Launched, InFlight, Lasting, SendEvent, Concluded;
      ghost var n, x, held := M(), W(), deferred;
      ValidIsDurable();
      var seqNo := Launch(intent, AccountingPrice(intent.limitPrice, quote));
      if seqNo.Unavailable? {
        LaunchFailed(n, x, M(), W());
        return Unavailable;
      }
      ghost var y := W();
      r := Transmit(intent, seqNo.value, n, x);
      ConcludedSince(intent, x, y, M(), W(), desired.None?);
      StampedTwice(x.log, clock.now, LaunchNotes(intent), FateNotes(intent, held, y.placed == W().placed, orderState));
    }

    /** The risk engine refused: the decision is recorded as missed and dropped. */
    method Refuse(target: TargetPosition, ref: Ref) returns (r: Io<()>)
      requires Valid() && !journal.failed
      modifies `desired, `deferred, journal
      ensures Valid() && QuietStep(old(W()), W()) && journal.failed == r.Unavailable?
      ensures M() == old(M()) && journal.view.gates == old(journal.view).gates
      ensures r.Done? ==>
                && desired.None?
                && journal.events == old(journal.events) + [Record(clock.now, RiskRejected(ref)),
                                                            Record(clock.now, DecisionMissed(target.decision, RISK_BLOCKED))]
    {
      hide Valid, QuietStep;
      ghost var w := W();
      r := Silently(RiskRejected(ref));
      if r.Done? {
        ghost var x := W();
        r := Miss(target, RISK_BLOCKED);
        QuietTrans(w, x, W());
        if r.Done? {
          desired, deferred := None, None;
        }
      }
    }

    // ---- cancelling ----------------------------------------------------

    /** Make the request durable before it is made. */
    method RecordCancel(why: CancelReason) returns (r: Io<nat>)
      requires Valid() && !journal.failed && Inv(M(), W()) && live.Some? && linkState.CONNECTED? && syncState.SYNCED?
      modifies `orderState, `syncState, `cancelAt, `cancelReason, journal
      ensures Valid() && journal.failed == r.Unavailable? && Outcome(old(M()), old(W()), M(), W(), r.Done?)
      ensures r.Done? ==>
                && Inv(M(), W()) && M() == old(M()).(os := PENDING_CANCEL)
                && cancelAt == Some(clock.now) && cancelReason == Some(why)
                && 1 <= r.value <= |journal.events| && WitnessSeq(evidence.record) <= r.value
                && journal.events[r.value - 1].event == CancelRequested(live.value.ref, why)
                && journal.view.orders == ApplyOrders(old(journal.view).orders, CancelRequested(live.value.ref, why))
    {
      hide Valid, Durable, Lasting, Inv, Outcome, OrderStep, QuietStep, GateLink, LawfulEvent, OrderOnly, ApplyOrders;
      ghost var m, w := M(), W();
      ghost var e := CancelRequested(live.value.ref, why);
      ValidIsDurable();
      CancelIsLawful(m, w, why);
      r := CommitOrder(CancelRequested(live.value.ref, why));
      if r.Done? {
        ghost var x := W();
        var s := SetOrderState(PENDING_CANCEL);
        OrderThenQuiet(w, x, W(), e);
        StillLogged(x, W());
        r := if s.Done? then r else Unavailable;
      }
      CancelRecorded(m, w, M(), W(), e, r.Done?);
      if r.Done? {
        RememberCancel(why);
      }
    }

    method RememberCancel(why: CancelReason)
      modifies `cancelAt, `cancelReason
      ensures cancelAt == Some(clock.now) && cancelReason == Some(why)
      ensures M() == old(M()) && W() == old(W()) && (old(Valid()) ==> Valid())
    {
      hide Valid, W;
      cancelAt, cancelReason := Some(clock.now), Some(why);
    }

    /** What became of the live order is no longer known. */
    method Distrust(next: OrderState) returns (r: Io<()>)
      requires Valid() && !journal.failed && Inv(M(), W()) && live.Some? && next.Untrustworthy()
      modifies `orderState, `syncState, journal
      ensures Valid() && journal.failed == r.Unavailable? && Outcome(old(M()), old(W()), M(), W(), r.Done?)
      ensures QuietStep(old(W()), W())
      ensures r.Done? ==> Inv(M(), W()) && !syncState.SYNCED?
      ensures r.Done? ==> M() == old(M()).(os := next, sync := syncState)
    {
      hide Valid, Inv, Outcome, QuietStep, GateLink;
      ghost var m, w := M(), W();
      InvFacts(m, w);
      r := SetOrderState(next);
      QuietOutcome(m, w, M(), W(), r.Done?);
    }

    /** The cancel gate: a live order, and trust enough to reduce. */
    ghost predicate MayCancel()
      reads `linkState, `syncState, `operatingMode, `fatal, `orderState, `live, `position, `workingSigned,
            `bookedExecs, `quote, `violations, `journalFailure, risk
    {
      live.Some? && WriteGate(M(), true).None?
    }

    /** Ask the broker to cancel the live order. The request is a broker write like
        any other: gated, durable first, pinned, and never repeated. */
    method RequestCancel(why: CancelReason) returns (r: Io<bool>)
      requires Valid() && !journal.failed && Inv(M(), W())
      modifies `orderState, `syncState, `cancelAt, `cancelReason, `journalFailure, `fatal, `linkState, `operatingMode,
               `violations, `fenceWriteFailed, journal, evidence, fence, broker
      ensures Valid() && journal.failed == r.Unavailable? && Outcome(old(M()), old(W()), M(), W(), r.Done?)
      ensures r.Done? ==> Inv(M(), W())
      ensures broker.placeCalls == old(broker.placeCalls)
      ensures broker.cancelCalls == old(broker.cancelCalls)
           || (old(live).Some? && broker.cancelCalls == old(broker.cancelCalls) + [old(live).value.ref])
      ensures r.Done? && old(MayCancel()) ==> CancelAsked(old(M()), old(W()), M(), W())
      ensures r.Done? && !old(MayCancel()) ==> M() == old(M()) && W() == old(W()) && cancelAt == old(cancelAt)
      ensures r.Done? ==> r.value == (old(MayCancel()) && orderState.PENDING_CANCEL?)
      ensures r == Done(true) ==> cancelAt == Some(clock.now) && cancelReason == Some(why)
    {
      hide Valid, Inv, Outcome, OrderStep, QuietStep, GateLink, LawfulEvent, StopHeld;
      ghost var m, w := M(), W();
      OutcomeRefl(m, w);
      if live.None? {
        return Done(false);
      }
      NotBroken(m, w);
      var ok, _ := CanWrite(true);
      if !ok {
        return Done(false);
      }
      var checked := Require(linkState.CONNECTED? && syncState.SYNCED?);
      assert checked.Done?;
      r := RecordAndCancel(why);
    }

    /** The request in the log, then at the broker. */
    method RecordAndCancel(why: CancelReason) returns (r: Io<bool>)
      requires Valid() && !journal.failed && Inv(M(), W()) && MayCancel()
      modifies `orderState, `syncState, `cancelAt, `cancelReason, `fatal, `linkState, `operatingMode,
               `fenceWriteFailed, journal, evidence, fence, broker
      ensures Valid() && journal.failed == r.Unavailable? && Outcome(old(M()), old(W()), M(), W(), r.Done?)
      ensures r.Done? ==> Inv(M(), W())
      ensures broker.placeCalls == old(broker.placeCalls)
      ensures broker.cancelCalls == old(broker.cancelCalls)
           || broker.cancelCalls == old(broker.cancelCalls) + [old(live).value.ref]
      ensures r.Done? ==> CancelAsked(old(M()), old(W()), M(), W()) && r.value == orderState.PENDING_CANCEL?
      ensures r == Done(true) ==> cancelAt == Some(clock.now) && cancelReason == Some(why)
    {
      hide Valid, Inv, Outcome, ApplyOrders, WriteGate;
      OpenGateIsWider(M(), true);
      ghost var m, w := M(), W();
      var seqNo := RecordCancel(why);
      if seqNo.Unavailable? {
        return Unavailable;
      }
      CancelMarks(w.view.orders, live.value.ref, why);
      r := CallCancel(live.value.ref, seqNo.value, m, w);
    }

    method AskToCancel(ref: Ref) returns (raised: bool)
      requires Valid() && !journal.failed && Inv(M(), W()) && !operatingMode.HALTED?
      modifies broker
      ensures Valid() && M() == old(M()) && Inv(M(), W()) && Outcome(old(M()), old(W()), M(), W(), true)
      ensures broker.placeCalls == old(broker.placeCalls) && broker.cancelCalls == old(broker.cancelCalls) + [ref]
    {
      hide Durable, Inv, Outcome;
      ghost var m, w := M(), W();
      raised := broker.CancelOrder(ref);
      CancelCalled(m, w, W(), ref);
    }

    /** Pin the request and make the call. */
    method CallCancel(ref: Ref, seqNo: nat, ghost m: Memory, ghost w: World) returns (r: Io<bool>)
      requires Valid() && !journal.failed && Inv(M(), W()) && !operatingMode.HALTED?
      requires live.Some? && live.value.ref == ref && Outcome(m, w, M(), W(), true)
      requires 1 <= seqNo <= |journal.events| && WitnessSeq(evidence.record) <= seqNo
      requires journal.events[seqNo - 1].event.CancelRequested?
      modifies `fatal, `linkState, `syncState, `operatingMode, `orderState, `fenceWriteFailed, journal, evidence, fence, broker
      ensures Valid() && journal.failed == r.Unavailable? && Outcome(m, w, M(), W(), r.Done?)
      ensures r.Done? ==> Inv(M(), W())
      ensures broker.placeCalls == old(broker.placeCalls)
      ensures broker.cancelCalls == old(broker.cancelCalls) || broker.cancelCalls == old(broker.cancelCalls) + [ref]
      ensures r.Done? && r.value ==> M() == old(M()) && broker.cancelCalls == old(broker.cancelCalls) + [ref]
      ensures r.Done? && !r.value ==> orderState.TERMINAL_UNRECONCILED? && !syncState.SYNCED?
      ensures r.Done? ==> journal.view.orders == old(journal.view).orders
    {
      hide Valid, Durable, Inv, Outcome, OrderStep, QuietStep, GateLink, LawfulEvent, StopHeld;
      ghost var n, x := M(), W();
      var ok := WitnessOrFence(seqNo);
      ghost var o, y := M(), W();
      CancelPinned(n, x, o, y);
      OutcomeTrans(m, w, n, x, o, y, true);
      var s: Io<()> := Done(());
      var raised := false;
      if ok {
        raised := AskToCancel(ref);
        OutcomeTrans(m, w, o, y, o, W(), true);
        if raised {
          ghost var z := W();
          s := Silently(CallbackFailure(true));
          StillOutcome(o, z, W(), s.Done?);
          QuietFacts(z, W());
          OutcomeTrans(m, w, o, z, o, W(), s.Done?);
        }
      }
      if s.Done? && (!ok || raised) {
        ghost var p, z := M(), W();
        s := Distrust(TERMINAL_UNRECONCILED);
        QuietFacts(z, W());
        OutcomeTrans(m, w, p, z, M(), W(), s.Done?);
      }
      return if s.Done? then Done(ok && !raised) else Unavailable;
    }

    // ---- the single decision point --------------------------------------

    /** The decision produced no order: record it as missed and drop it. */
    method Drop(why: MissReason) returns (r: Io<()>)
      requires Valid() && !journal.failed && Inv(M(), W()) && desired.Some?
      modifies `desired, `deferred, journal
      ensures Valid() && journal.failed == r.Unavailable? && Outcome(old(M()), old(W()), M(), W(), r.Done?)
      ensures M() == old(M()) && (r.Done? ==> Inv(M(), W()) && desired.None? && deferred.None?)
      ensures r.Done? ==> journal.view.orders == old(journal.view).orders
      ensures r.Done? ==>
                journal.events == old(journal.events) + [Record(clock.now, DecisionMissed(old(desired).value.decision, why))]
    {
      hide Valid, Inv, Outcome, QuietStep;
      ghost var m, w := M(), W();
      r := Miss(desired.value, why);
      StillOutcome(m, w, W(), r.Done?);
      QuietFacts(w, W());
      if r.Done? {
        desired, deferred := None, None;
      }
    }

    /** A temporary block keeps the decision. */
    method Wait(why: MissReason, state: Option<OrderState>) returns (r: Io<()>)
      requires Valid() && !journal.failed && Inv(M(), W())
      modifies `deferred, journal
      ensures Valid() && journal.failed == r.Unavailable? && Outcome(old(M()), old(W()), M(), W(), r.Done?)
      ensures M() == old(M()) && (r.Done? ==> Inv(M(), W()))
      ensures desired.Some? ==> deferred == Some(Deferral(why, state))
      ensures r.Done? && desired.Some? ==>
                journal.events == if old(deferred) == deferred then old(journal.events)
                                  else old(journal.events) + [Record(clock.now, TargetDeferred(desired.value.decision, why))]
    {
      hide Valid, Inv, Outcome, QuietStep;
      ghost var m, w := M(), W();
      r := Defer(why, state);
      StillOutcome(m, w, W(), r.Done?);
    }

    /** WORKING and the target changed: cancel first, never a second order. */
    method MaybeCancelForNewTarget() returns (r: Io<bool>)
      requires Valid() && !journal.failed && Inv(M(), W())
      modifies `orderState, `syncState, `cancelAt, `cancelReason, `journalFailure, `fatal, `linkState, `operatingMode,
               `violations, `fenceWriteFailed, journal, evidence, fence, broker
      ensures Valid() && journal.failed == r.Unavailable? && Outcome(old(M()), old(W()), M(), W(), r.Done?)
      ensures r.Done? ==> Inv(M(), W())
      ensures broker.placeCalls == old(broker.placeCalls)
      ensures broker.cancelCalls != old(broker.cancelCalls) ==>
                old(live).Some? && desired.Some? && old(live).value.target != desired.value.quantity
      ensures r.Done? ==>
                if old(MayCancel()) && desired.Some? && old(live).value.target != desired.value.quantity
                then CancelAsked(old(M()), old(W()), M(), W())
                else M() == old(M()) && W() == old(W())
    {
      hide Valid, Inv, Outcome;
      OutcomeRefl(M(), W());
      if live.None? || desired.None? {
        return Done(false);
      }
      if live.value.target == desired.value.quantity {
        return Done(false);
      }
      r := RequestCancel(TARGET_CHANGED);
    }

    /** What was done is what the decision function says, and nothing was sent or
        cancelled that it does not. */
    twostate predicate Decided(done: bool)
      reads this, journal, risk, evidence, fence, broker, ids, clock
    {
      var action := Decide(old(M()), old(P()), clock.now);
      && (done ==>
            && Acted(action, old(M()), old(P()), old(W()), M(), P(), W())
            && Noted(action, old(M()), old(P()), old(W()), M(), W()))
      && (broker.placeCalls == old(broker.placeCalls)
          || (action.SendOrder? && broker.placeCalls == old(broker.placeCalls) + [old(ids.next)]))
      && (broker.cancelCalls != old(broker.cancelCalls) ==> action.CancelFirst?)
    }

    /** Decide whether to act on the latest target. An order is sent only for a
        target that is still valid, with nothing in flight, on a trusted link and
        account, in a mode that allows it, and within the reprice ladder. */
    method Evaluate() returns (r: Io<bool>)
      requires Valid() && !journal.failed && Inv(M(), W())
      modifies `desired, `deferred, `attempt, `live, `workingSigned, `orderState, `syncState, `sentAt, `cancelAt,
               `cancelReason, `fatal, `linkState, `operatingMode, `violations, `journalFailure, `fenceWriteFailed,
               journal, risk, evidence, fence, broker, ids
      ensures Valid() && journal.failed == r.Unavailable? && Outcome(old(M()), old(W()), M(), W(), r.Done?)
      ensures r.Done? ==> Inv(M(), W())
      ensures Decided(r.Done?)
    {
      hide Valid, Inv, Outcome, QuietStep, IsClosing, Sent, SendNoted, CancelAsked, WriteGate;
      OutcomeRefl(M(), W());
      if desired.None? {
        return Done(false);
      }
      if desired.value.IsExpired(clock.now) {
        var _ :- Drop(EXPIRED);
        return Done(false);
      }
      var closing := IsClosing(desired.value.quantity, position);
      NotBroken(M(), W());
      var ok, miss := CanWrite(closing);
      if !ok {
        var _ :- Wait(miss, None);
        return Done(false);
      }
      if operatingMode.FLATTEN_ONLY? && desired.value.quantity != 0 {
        var _ :- Drop(MODE_BLOCKED);
        return Done(false);
      }
      r := Pursue(closing);
    }

    /** The target may be acted on: cancel what contradicts it, or send what is missing. */
    method Pursue(closing: bool) returns (r: Io<bool>)
      requires Valid() && !journal.failed && Inv(M(), W()) && desired.Some? && !desired.value.IsExpired(clock.now)
      requires closing == IsClosing(desired.value.quantity, position) && WriteGate(M(), closing).None?
      requires operatingMode.FLATTEN_ONLY? ==> desired.value.quantity == 0
      modifies `desired, `deferred, `attempt, `live, `workingSigned, `orderState, `syncState, `sentAt, `cancelAt,
               `cancelReason, `fatal, `linkState, `operatingMode, `violations, `journalFailure, `fenceWriteFailed,
               journal, risk, evidence, fence, broker, ids
      ensures Valid() && journal.failed == r.Unavailable? && Outcome(old(M()), old(W()), M(), W(), r.Done?)
      ensures r.Done? ==> Inv(M(), W())
      ensures Decided(r.Done?)
    {
      hide Valid, Inv, Outcome, QuietStep, IsClosing, Sent, SendNoted, CancelAsked, WriteGate;
      OutcomeRefl(M(), W());
      OpenGateIsWider(M(), closing);
      if orderState.BlocksNewOrder() {
        if orderState.WORKING? {
          r := MaybeCancelForNewTarget();
          return;
        }
        var _ :- Wait(ORDER_STATE_BLOCKED, Some(orderState));
        return Done(false);
      }
      r := CloseGap(closing);
    }

    /** At rest: send what is missing, unless the ladder is exhausted. */
    method CloseGap(closing: bool) returns (r: Io<bool>)
      requires Valid() && !journal.failed && Inv(M(), W()) && desired.Some? && !desired.value.IsExpired(clock.now)
      requires closing == IsClosing(desired.value.quantity, position) && WriteGate(M(), closing).None?
      requires operatingMode.FLATTEN_ONLY? ==> desired.value.quantity == 0
      requires orderState.IDLE?
      modifies `desired, `deferred, `attempt, `live, `workingSigned, `orderState, `syncState, `sentAt, `cancelAt,
               `cancelReason, `fatal, `linkState, `operatingMode, `violations, `journalFailure, `fenceWriteFailed,
               journal, risk, evidence, fence, broker, ids
      ensures Valid() && journal.failed == r.Unavailable? && Outcome(old(M()), old(W()), M(), W(), r.Done?)
      ensures r.Done? ==> Inv(M(), W())
      ensures Decided(r.Done?)
    {
      hide Valid, Inv, Outcome, QuietStep, IsClosing, Sent, SendNoted, CancelAsked, WriteGate, Decide;
      OutcomeRefl(M(), W());
      OpenGateIsWider(M(), closing);
      DecideAtRest(M(), P(), clock.now);
      var delta := desired.value.quantity - position - workingSigned;
      if delta == 0 {
        deferred := None;
        return Done(false);
      }
      if attempt >= MAX_ATTEMPTS {
        var _ :- Drop(REPRICE_EXHAUSTED);
        attempt := 0;
        return Done(false);
      }
      r := Send(delta, closing);
    }

    // ---- the strategy-facing entrance ------------------------------------

    /** Claim the decision id; only a first claim is recorded. */
    method AcceptDecision(target: TargetPosition) returns (r: Io<Answer>)
      requires Valid() && !journal.failed
      modifies journal
      ensures M() == old(M()) && journal.failed == r.Unavailable?
      ensures Valid() && QuietStep(old(W()), W()) && journal.view.gates == old(journal.view).gates
      ensures r.Done? ==> (r.value.Appended? <==> target.decision !in old(journal.view).decisions)
      ensures r.Done? ==> journal.view.decisions == old(journal.view).decisions + {target.decision}
      ensures r.Done? ==>
                journal.events == if r.value.Appended?
                                  then old(journal.events)
                                       + [Record(clock.now, TargetReceived(target.decision, target.quantity))]
                                  else old(journal.events)
    {
      hide WitnessPromise, EvidenceHolds, BookShape, Fold, StopHeld, Durable, Wrote,
           ApplyOrders, ApplyLedger, ApplyGates, ApplyCounters, ApplyWatch;
      ghost var w := W();
      var event := TargetReceived(target.decision, target.quantity);
      var entry := Record(clock.now, event);
      DecisionEffect(journal.view, entry);
      r := journal.Submit(Request.AcceptDecision(entry));
      if journal.events == old(journal.events) && journal.view == w.view {
        UnwrittenKeeps(w, W());
      } else {
        AppendKeeps(w, W(), entry);
      }
    }

    /** What the log says of a target on arrival: a repeated decision id is refused
        whatever it asks for, a first one is claimed and may be late or replace another. */
    ghost function ArrivalNotes(target: TargetPosition): seq<Event>
      reads journal, clock, `desired
    {
      if target.decision in journal.view.decisions then [TargetRejected(target.decision)]
      else
        [TargetReceived(target.decision, target.quantity)] +
        (if target.IsExpired(clock.now) then [DecisionMissed(target.decision, EXPIRED)]
         else if desired.Some? && desired.value.decision != target.decision
              then [TargetSuperseded(target.decision, desired.value.decision)]
         else [])
    }

    /** Record what became of the decision so far: a fresh, valid one goes on. */
    method ReceiveTarget(target: TargetPosition) returns (r: Io<bool>)
      requires Valid() && !journal.failed && Inv(M(), W())
      modifies journal
      ensures Valid() && journal.failed == r.Unavailable? && Outcome(old(M()), old(W()), M(), W(), r.Done?)
      ensures M() == old(M()) && (r.Done? ==> Inv(M(), W()))
      ensures r.Done? ==> (r.value <==> old(IsNew(target))) && target.decision in journal.view.decisions
      ensures r.Done? ==> journal.events == old(journal.events) + Stamped(clock.now, old(ArrivalNotes(target)))
      ensures W() == old(W()).(log := journal.events, view := journal.view, failed := journal.failed)
      ensures journal.view.config == old(journal.view).config && journal.view.orders == old(journal.view).orders
      ensures old(journal.events) <= journal.events
    {
      hide Valid, Durable, Lasting, Inv, Outcome, QuietStep;
      ghost var m, w := M(), W();
      var answer := AcceptDecision(target);
      ghost var x := W();
      ValidIsDurable();
      QuietFacts(w, x);
      StillOutcome(m, w, x, answer.Done?);
      if answer.Unavailable? {
        return Unavailable;
      }
      QuietRefl(x);
      var noted: Io<()> := Done(());
      if !answer.value.Appended? {
        noted := Silently(TargetRejected(target.decision));
      } else if target.IsExpired(clock.now) {
        noted := Miss(target, EXPIRED);
      } else if desired.Some? && desired.value.decision != target.decision {
        noted := Silently(TargetSuperseded(target.decision, desired.value.decision));
      }
      ValidIsDurable();
      QuietFacts(x, W());
      StillOutcome(m, x, W(), noted.Done?);
      DecisionsStay(m, x, m, W(), noted.Done?);
      OutcomeTrans(m, w, m, x, m, W(), noted.Done?);
      return if noted.Done? then Done(answer.value.Appended? && !target.IsExpired(clock.now)) else Unavailable;
    }

    ghost predicate IsNew(target: TargetPosition)
      reads journal, clock
    {
      target.decision !in journal.view.decisions && !target.IsExpired(clock.now)
    }

    /** The plan once a new target has replaced the old one. */
    ghost function Replanned(target: TargetPosition): Plan
      reads `desired, `deferred, `attempt, `flattenReason, `orderState
    {
      Plan(Some(target), None, if orderState.IDLE? then 0 else attempt, flattenReason)
    }

    /** Give the strategy's latest target to the one decision point. Old targets are
        replaced, and every decision id stays recorded for ever. */
    method SubmitTarget(target: TargetPosition) returns (r: Io<bool>)
      requires Valid() && !journal.failed && Inv(M(), W())
      modifies `desired, `deferred, `attempt, `live, `workingSigned, `orderState, `syncState, `sentAt, `cancelAt,
               `cancelReason, `fatal, `linkState, `operatingMode, `violations, `journalFailure, `fenceWriteFailed,
               journal, risk, evidence, fence, broker, ids
      ensures Valid() && journal.failed == r.Unavailable? && Outcome(old(M()), old(W()), M(), W(), r.Done?)
      ensures r.Done? ==> Inv(M(), W()) && target.decision in journal.view.decisions
      ensures r.Done? && old(IsNew(target)) ==>
                var p := old(Replanned(target));
                Acted(Decide(old(M()), p, clock.now), old(M()), p, old(W()), M(), P(), W())
      ensures r.Done? && old(IsNew(target)) ==>
                var p := old(Replanned(target));
                Noted(Decide(old(M()), p, clock.now), old(M()), p,
                      old(W()).(log := old(journal.events) + Stamped(clock.now, old(ArrivalNotes(target)))), M(), W())
      ensures !old(IsNew(target)) ==> M() == old(M()) && P() == old(P()) && NothingSent(old(W()), W())
      ensures broker.placeCalls == old(broker.placeCalls) || broker.placeCalls == old(broker.placeCalls) + [old(ids.next)]
    {
      hide Valid, Durable, Lasting, Inv, Outcome, Progress, Kept, Safe, IsClosing, Acted, Decide, Noted, Later;
      ghost var m, w := M(), W();
      r := ReceiveTarget(target);
      if r.Unavailable? || !r.value {
        return;
      }
      ghost var x, a := W(), Decide(m, Replanned(target), clock.now);
      StoreTarget(target);
      ghost var p := P();
      ValidIsDurable();
      r := Evaluate();
      ValidIsDurable();
      DecisionsStay(m, x, M(), W(), r.Done?);
      if r.Done? {
        ActedAfterNotes(a, m, p, w, x, M(), P(), W());
        NotedAfterNotes(a, m, p, w, x, M(), W());
      }
      OutcomeTrans(m, w, m, x, M(), W(), r.Done?);
    }

    method StoreTarget(target: TargetPosition)
      modifies `desired, `deferred, `attempt
      ensures P() == old(Replanned(target))
      ensures M() == old(M()) && W() == old(W()) && (old(Valid()) ==> Valid())
    {
      hide Valid, W;
      desired, deferred := Some(target), None;
      if orderState.IDLE? {
        attempt := 0;
      }
    }

    // ---- timers ----------------------------------------------------------

    /** Close the durable flatten lifecycle once broker exposure is flat. */
    method MaybeCompleteFlatten() returns (r: Io<bool>)
      requires Valid() && !journal.failed && Inv(M(), W())
      modifies `flattenReason, journal
      ensures Valid() && journal.failed == r.Unavailable? && Outcome(old(M()), old(W()), M(), W(), r.Done?)
      ensures M() == old(M()) && QuietStep(old(W()), W()) && (r.Done? ==> Inv(M(), W()))
      ensures r.Done? ==>
                (r.value <==> old(flattenReason).Some? && position == 0 && workingSigned == 0 && orderState.IDLE?)
                && flattenReason == (if r.value then None else old(flattenReason))
      ensures r == Done(true) && old(flattenReason) == Some(EOD_FLATTEN) ==> journal.view.gates.residual == 0
    {
      hide Valid, Inv, Outcome, QuietStep, Quiet, ApplyGates, GateLink;
      ghost var m, w := M(), W();
      OutcomeRefl(m, w);
      QuietRefl(w);
      InvFacts(m, w);
      if flattenReason.None? || position != 0 || workingSigned != 0 || !orderState.IDLE? {
        return Done(false);
      }
      if flattenReason == Some(EOD_FLATTEN) {
        CompletedChange(journal.view.gates, journal.view.count + 1);
        var noted := Note(EodFlattenCompleted);
        ResidualOutcome(m, w, W(), noted.Done?);
        if noted.Unavailable? {
          return Unavailable;
        }
      }
      flattenReason := None;
      return Done(true);
    }

    /** Past the hard deadline with something left, and not yet written down. */
    ghost predicate ResidualDue()
      reads `position, `orderState, `residualRecorded, clock
    {
      var plan := calendar(clock.now);
      && plan.trading && clock.now >= plan.flattenHard
      && (position != 0 || !orderState.IDLE?)
      && plan.session !in residualRecorded
    }

    /** Inside the flatten window with something to flatten, and not yet doing it. */
    ghost predicate FlattenDue()
      reads `position, `orderState, `operatingMode, `flattenReason, clock
    {
      var plan := calendar(clock.now);
      && plan.trading && plan.flattenStart <= clock.now < plan.close
      && !operatingMode.HALTED?
      && (position != 0 || !orderState.IDLE?)
      && flattenReason != Some(EOD_FLATTEN)
    }

    /** At the hard deadline, write down once per session what was not flattened;
        a stronger mode is never weakened by it. */
    method RecordEodResidual() returns (r: Io<()>)
      requires Valid() && !journal.failed && Inv(M(), W())
      modifies `residualRecorded, `operatingMode, `fenceWriteFailed, journal, evidence, fence
      ensures Valid() && journal.failed == r.Unavailable? && Outcome(old(M()), old(W()), M(), W(), r.Done?)
      ensures r.Done? ==> Inv(M(), W())
      ensures r.Done? && old(ResidualDue()) ==>
                && residualRecorded == old(residualRecorded) + {calendar(clock.now).session}
                && M() == old(M()).(mode := if old(operatingMode).HALTED? then HALTED else FLATTEN_ONLY)
                && journal.view.gates.residual == (if position != 0 then position else workingSigned)
      ensures old(residualRecorded) <= residualRecorded
      ensures !old(ResidualDue()) ==> residualRecorded == old(residualRecorded) && M() == old(M()) && W() == old(W())
      ensures W() == old(W()).(log := journal.events, view := journal.view, failed := journal.failed,
                               rec := evidence.record, fence := fence.cell, unfenced := fence.failures)
      ensures journal.view.config == old(journal.view).config && journal.view.orders == old(journal.view).orders
      ensures journal.view.decisions == old(journal.view).decisions
    {
      hide Valid, Inv, Outcome;
      OutcomeRefl(M(), W());
      var plan := calendar(clock.now);
      if !plan.trading || clock.now < plan.flattenHard {
        return Done(());
      }
      if position == 0 && orderState.IDLE? {
        return Done(());
      }
      if plan.session in residualRecorded {
        return Done(());
      }
      r := WriteResidual(plan.session);
    }

    method WriteResidual(session: int) returns (r: Io<()>)
      requires Valid() && !journal.failed && Inv(M(), W())
      modifies `residualRecorded, `operatingMode, `fenceWriteFailed, journal, evidence, fence
      ensures Valid() && journal.failed == r.Unavailable? && Outcome(old(M()), old(W()), M(), W(), r.Done?)
      ensures old(residualRecorded) <= residualRecorded
      ensures r.Done? ==>
                && Inv(M(), W())
                && residualRecorded == old(residualRecorded) + {session}
                && M() == old(M()).(mode := if old(operatingMode).HALTED? then HALTED else FLATTEN_ONLY)
                && journal.view.gates.residual == (if position != 0 then position else workingSigned)
      ensures journal.view.config == old(journal.view).config && journal.view.orders == old(journal.view).orders
      ensures journal.view.decisions == old(journal.view).decisions
    {
      hide Valid, Inv, Outcome;
      ghost var m, w := M(), W();
      r := LogResidual(session);
      if r.Done? && !operatingMode.HALTED? {
        ghost var x := W();
        r := EnterFlattenOnly();
        OutcomeTrans(m, w, m, x, M(), W(), r.Done?);
      }
    }

    method LogResidual(session: int) returns (r: Io<()>)
      requires Valid() && !journal.failed && Inv(M(), W())
      modifies `residualRecorded, journal
      ensures Valid() && journal.failed == r.Unavailable? && Outcome(old(M()), old(W()), M(), W(), r.Done?)
      ensures residualRecorded == old(residualRecorded) + {session} && M() == old(M())
      ensures r.Done? ==> Inv(M(), W()) && journal.view.gates.residual == if position != 0 then position else workingSigned
      ensures journal.view.config == old(journal.view).config && journal.view.orders == old(journal.view).orders
      ensures journal.view.decisions == old(journal.view).decisions
    {
      hide Valid, Inv, Outcome, QuietStep, Quiet, ApplyGates;
      ghost var m, w := M(), W();
      residualRecorded := residualRecorded + {session};
      assert M() == m && W() == w;
      FailedChange(journal.view.gates, journal.view.count + 1, position, workingSigned);
      r := Note(EodFlattenFailed(position, workingSigned));
      QuietFacts(w, W());
      ResidualOutcome(m, w, W(), r.Done?);
    }

    method EnterFlattenOnly() returns (r: Io<()>)
      requires Valid() && !journal.failed && Inv(M(), W()) && !operatingMode.HALTED?
      modifies `operatingMode, `fenceWriteFailed, journal, evidence, fence
      ensures Valid() && journal.failed == r.Unavailable? && Outcome(old(M()), old(W()), M(), W(), r.Done?)
      ensures r.Done? ==> Inv(M(), W()) && operatingMode.FLATTEN_ONLY?
      ensures journal.view.gates.residual == old(journal.view).gates.residual
      ensures journal.view.config == old(journal.view).config && journal.view.orders == old(journal.view).orders
      ensures journal.view.decisions == old(journal.view).decisions
    {
      hide Valid, Inv, Outcome, ModeStep, ModeAgrees;
      ghost var m, w := M(), W();
      InvFacts(m, w);
      r := SetMode(FLATTEN_ONLY);
      ModeFacts(w, W());
      ModeOutcome(m, w, M(), W(), r.Done?);
    }

    function ZeroTarget(reason: FlattenReason): TargetPosition
      reads clock
    {
      TargetPosition(0, Flatten(reason, clock.now), clock.now + FLATTEN_VALIDITY)
    }

    /** Ask for flat. The zero target is stored before any order is asked to cancel. */
    method FlattenNow(reason: FlattenReason) returns (r: Io<bool>)
      requires Valid() && !journal.failed && Inv(M(), W())
      modifies `desired, `deferred, `attempt, `live, `workingSigned, `orderState, `syncState, `sentAt, `cancelAt,
               `cancelReason, `fatal, `linkState, `operatingMode, `violations, `journalFailure, `fenceWriteFailed,
               `flattenReason, journal, risk, evidence, fence, broker, ids
      ensures Valid() && journal.failed == r.Unavailable? && Outcome(old(M()), old(W()), M(), W(), r.Done?)
      ensures r.Done? ==> Inv(M(), W())
      ensures flattenReason == Some(reason)
      ensures r.Done? ==> Flatten(reason, clock.now) in journal.view.decisions
      ensures r.Done? && old(IsNew(ZeroTarget(reason))) ==>
                var p := old(Replanned(ZeroTarget(reason))).(flattenReason := Some(reason));
                Acted(Decide(old(M()), p, clock.now), old(M()), p, old(W()), M(), P(), W())
      ensures !old(IsNew(ZeroTarget(reason))) ==> M() == old(M()) && NothingSent(old(W()), W())
    {
      hide Valid, Inv, Outcome, Acted, Decide;
      flattenReason := Some(reason);
      assert M() == old(M()) && W() == old(W());
      r := SubmitTarget(ZeroTarget(reason));
    }

    /** The end-of-day steps: the residual record first and unconditionally, then,
        inside the flatten window and unless HALTED, one flatten. */
    method CheckEod() returns (r: Io<()>)
      requires Valid() && !journal.failed && Inv(M(), W())
      modifies `desired, `deferred, `attempt, `live, `workingSigned, `orderState, `syncState, `sentAt, `cancelAt,
               `cancelReason, `fatal, `linkState, `operatingMode, `violations, `journalFailure, `fenceWriteFailed,
               `flattenReason, `residualRecorded, journal, risk, evidence, fence, broker, ids
      ensures Valid() && journal.failed == r.Unavailable? && Outcome(old(M()), old(W()), M(), W(), r.Done?)
      ensures r.Done? ==> Inv(M(), W())
      ensures r.Done? && old(ResidualDue()) ==> calendar(clock.now).session in residualRecorded
      ensures old(residualRecorded) <= residualRecorded
      ensures r.Done? && old(FlattenDue()) ==> EodFlattened()
      ensures !old(FlattenDue()) ==> P() == old(P())
      ensures r.Done? && !old(FlattenDue()) ==>
                && NothingSent(old(W()), W())
                && M() == old(M()).(mode := if old(ResidualDue()) && !old(operatingMode).HALTED? then FLATTEN_ONLY
                                            else old(operatingMode))
      ensures r.Done? && !old(FlattenDue()) && !old(ResidualDue()) ==> W() == old(W())
    {
      hide Valid, Inv, Outcome, QuietStep, Acted, Decide;
      ghost var m, w := M(), W();
      r := RecordEodResidual();
      if r.Unavailable? {
        return;
      }
      ghost var n, x, p := M(), W(), Replanned(ZeroTarget(EOD_FLATTEN)).(flattenReason := Some(EOD_FLATTEN));
      ghost var due := FlattenDue();
      r := StartIfDue();
      if due && r.Done? && Flatten(EOD_FLATTEN, clock.now) !in w.view.decisions {
        ghost var o := m.(mode := FLATTEN_ONLY);
        ActedAfterNotes(Decide(o, p, clock.now), o, p, w, x, M(), P(), W());
      }
      OutcomeTrans(m, w, n, x, M(), W(), r.Done?);
    }

    /** Inside the flatten window, once, and unless HALTED. */
    method StartIfDue() returns (r: Io<()>)
      requires Valid() && !journal.failed && Inv(M(), W())
      modifies `desired, `deferred, `attempt, `live, `workingSigned, `orderState, `syncState, `sentAt, `cancelAt,
               `cancelReason, `fatal, `linkState, `operatingMode, `violations, `journalFailure, `fenceWriteFailed,
               `flattenReason, journal, risk, evidence, fence, broker, ids
      ensures Valid() && journal.failed == r.Unavailable? && Outcome(old(M()), old(W()), M(), W(), r.Done?)
      ensures r.Done? ==> Inv(M(), W())
      ensures r.Done? && old(FlattenDue()) ==> EodFlattened()
      ensures !old(FlattenDue()) ==> M() == old(M()) && P() == old(P()) && W() == old(W())
    {
      hide Valid, Inv, Outcome, Acted, Decide, NothingSent;
      OutcomeRefl(M(), W());
      var plan := calendar(clock.now);
      if !plan.trading || !(plan.flattenStart <= clock.now < plan.close) || operatingMode.HALTED? {
        return Done(());
      }
      if (position == 0 && orderState.IDLE?) || flattenReason == Some(EOD_FLATTEN) {
        return Done(());
      }
      r := StartEodFlatten();
    }

    /** One zero target, decided under FLATTEN_ONLY. */
    twostate predicate EodFlattened()
      reads this, journal, risk, evidence, fence, broker, ids, clock
    {
      var zero := ZeroTarget(EOD_FLATTEN);
      var m := old(M()).(mode := FLATTEN_ONLY);
      var p := old(Replanned(zero)).(flattenReason := Some(EOD_FLATTEN));
      && flattenReason == Some(EOD_FLATTEN)
      && zero.decision in journal.view.decisions
      && if zero.decision in old(journal.view).decisions then M() == m && NothingSent(old(W()), W())
         else Acted(Decide(m, p, clock.now), m, p, old(W()), M(), P(), W())
    }

    method StartEodFlatten() returns (r: Io<()>)
      requires Valid() && !journal.failed && Inv(M(), W()) && !operatingMode.HALTED?
      modifies `desired, `deferred, `attempt, `live, `workingSigned, `orderState, `syncState, `sentAt, `cancelAt,
               `cancelReason, `fatal, `linkState, `operatingMode, `violations, `journalFailure, `fenceWriteFailed,
               `flattenReason, journal, risk, evidence, fence, broker, ids
      ensures Valid() && journal.failed == r.Unavailable? && Outcome(old(M()), old(W()), M(), W(), r.Done?)
      ensures r.Done? ==> Inv(M(), W()) && EodFlattened()
    {
      hide Valid, Inv, Outcome, Acted, Decide;
      ghost var m, w := M(), W();
      r := EnterEodFlatten();
      ghost var o, y := M(), W();
      if r.Unavailable? {
        return;
      }
      ghost var p := Replanned(ZeroTarget(EOD_FLATTEN));
      var flat := FlattenNow(EOD_FLATTEN);
      if flat.Done? && Flatten(EOD_FLATTEN, clock.now) !in w.view.decisions {
        ActedAfterNotes(Decide(o, p, clock.now), o, p, w, y, M(), P(), W());
      }
      OutcomeTrans(m, w, o, y, M(), W(), flat.Done?);
      r := if flat.Done? then Done(()) else Unavailable;
    }

    /** From here on only flattening is allowed. */
    method EnterEodFlatten() returns (r: Io<()>)
      requires Valid() && !journal.failed && Inv(M(), W()) && !operatingMode.HALTED?
      modifies `flattenReason, `operatingMode, `fenceWriteFailed, journal, evidence, fence
      ensures Valid() && journal.failed == r.Unavailable? && Outcome(old(M()), old(W()), M(), W(), r.Done?)
      ensures r.Done? ==>
                && Inv(M(), W())
                && M() == old(M()).(mode := FLATTEN_ONLY)
                && flattenReason == Some(EOD_FLATTEN)
      ensures journal.view.config == old(journal.view).config && journal.view.orders == old(journal.view).orders
      ensures journal.view.decisions == old(journal.view).decisions
    {
      hide Valid, Inv, Outcome, QuietStep;
      ghost var m, w := M(), W();
      r := Silently(EodFlattenStarted(position));
      ghost var x := W();
      StillOutcome(m, w, x, r.Done?);
      QuietFacts(w, x);
      if r.Unavailable? {
        return;
      }
      flattenReason := Some(EOD_FLATTEN);
      r := EnterFlattenOnly();
      OutcomeTrans(m, w, m, x, M(), W(), r.Done?);
    }

    /** The order did not fill in time: one rung of the ladder, then cancel. */
    method Reprice() returns (r: Io<()>)
      requires Valid() && !journal.failed && Inv(M(), W())
      modifies `orderState, `syncState, `cancelAt, `cancelReason, `journalFailure, `fatal, `linkState, `operatingMode,
               `violations, `fenceWriteFailed, journal, evidence, fence, broker
      ensures Valid() && journal.failed == r.Unavailable? && Outcome(old(M()), old(W()), M(), W(), r.Done?)
      ensures r.Done? ==> Inv(M(), W())
      ensures broker.placeCalls == old(broker.placeCalls)
      ensures r.Done? ==>
                if old(MayCancel()) then CancelAsked(old(M()), old(W()), M(), W())
                else M() == old(M()) && NothingSent(old(W()), W())
      ensures r.Done? && !old(orderState).PENDING_CANCEL? && orderState.PENDING_CANCEL? ==>
                cancelAt == Some(clock.now) && cancelReason == Some(REPRICE_TIMEOUT)
    {
      hide Valid, Inv, Outcome, QuietStep;
      ghost var m, w := M(), W();
      r := Silently(RepriceTriggered(attempt));
      ghost var x := W();
      StillOutcome(m, w, x, r.Done?);
      if r.Done? {
        QuietFacts(w, x);
        var s := RequestCancel(REPRICE_TIMEOUT);
        OutcomeTrans(m, w, m, x, M(), W(), s.Done?);
        r := if s.Done? then Done(()) else Unavailable;
      }
    }

    /** The order timers. An unacknowledged, overdue or uncancelled order is never
        sent again: it is distrusted, or asked to cancel. */
    method TickOrder() returns (r: Io<()>)
      requires Valid() && !journal.failed && Inv(M(), W())
      modifies `orderState, `syncState, `cancelAt, `cancelReason, `journalFailure, `fatal, `linkState, `operatingMode,
               `violations, `fenceWriteFailed, journal, evidence, fence, broker
      ensures Valid() && journal.failed == r.Unavailable? && Outcome(old(M()), old(W()), M(), W(), r.Done?)
      ensures r.Done? ==> Inv(M(), W())
      ensures broker.placeCalls == old(broker.placeCalls)
      ensures r.Done? ==> TimerActed(old(Timer()), old(M()), old(W()), M(), W())
      ensures r.Done? && old(orderState).WORKING? && orderState.PENDING_CANCEL? ==>
                && cancelAt == Some(clock.now)
                && cancelReason == Some(if clock.now >= live.value.validUntil then TARGET_EXPIRED else REPRICE_TIMEOUT)
    {
      hide Valid, Inv, Outcome, QuietStep, CancelAsked, WriteGate;
      ghost var m, w := M(), W();
      OutcomeRefl(m, w);
      InvFacts(m, w);
      r := Done(());
      if orderState.PENDING_ACK? && sentAt.Some? {
        if clock.now - sentAt.value >= ACK_TIMEOUT {
          r := Distrust(SUBMISSION_UNCERTAIN);
          QuietFacts(w, W());
          return;
        }
      }
      if orderState.WORKING? && live.Some? {
        if clock.now >= live.value.validUntil {
          var s := RequestCancel(TARGET_EXPIRED);
          return if s.Done? then Done(()) else Unavailable;
        }
      }
      r := TickLate();
    }

    /** The order is neither unacknowledged for too long nor past its target's end. */
    method TickLate() returns (r: Io<()>)
      requires Valid() && !journal.failed && Inv(M(), W()) && !Timer().AckOverdue? && !Timer().TargetDead?
      modifies `orderState, `syncState, `cancelAt, `cancelReason, `journalFailure, `fatal, `linkState, `operatingMode,
               `violations, `fenceWriteFailed, journal, evidence, fence, broker
      ensures Valid() && journal.failed == r.Unavailable? && Outcome(old(M()), old(W()), M(), W(), r.Done?)
      ensures r.Done? ==> Inv(M(), W())
      ensures broker.placeCalls == old(broker.placeCalls)
      ensures r.Done? ==> TimerActed(old(Timer()), old(M()), old(W()), M(), W())
      ensures r.Done? && old(orderState).WORKING? && orderState.PENDING_CANCEL? ==>
                cancelAt == Some(clock.now) && cancelReason == Some(REPRICE_TIMEOUT)
    {
      hide Valid, Inv, Outcome, QuietStep, CancelAsked, WriteGate;
      ghost var m, w := M(), W();
      OutcomeRefl(m, w);
      r := Done(());
      if orderState.WORKING? && sentAt.Some? {
        if clock.now - sentAt.value >= ORDER_TIMEOUT {
          r := Reprice();
          if r.Unavailable? {
            return;
          }
        }
      }
      ghost var n, x := M(), W();
      r := TickCancel();
      OutcomeTrans(m, w, n, x, M(), W(), r.Done?);
    }

    /** A cancel that was not confirmed in time leaves the order unreconciled. */
    method TickCancel() returns (r: Io<()>)
      requires Valid() && !journal.failed && Inv(M(), W())
      modifies `orderState, `syncState, journal
      ensures Valid() && journal.failed == r.Unavailable? && Outcome(old(M()), old(W()), M(), W(), r.Done?)
      ensures r.Done? ==> Inv(M(), W())
      ensures !old(CancelIsOverdue()) ==> M() == old(M()) && W() == old(W())
      ensures r.Done? && old(CancelIsOverdue()) ==>
                M() == old(M()).(os := TERMINAL_UNRECONCILED, sync := syncState) && !syncState.SYNCED?
      ensures NothingSent(old(W()), W())
    {
      hide Valid, Inv, Outcome, QuietStep;
      ghost var n, x := M(), W();
      OutcomeRefl(n, x);
      InvFacts(n, x);
      r := Done(());
      if orderState.PENDING_CANCEL? && cancelAt.Some? {
        if clock.now - cancelAt.value >= CANCEL_TIMEOUT {
          r := Distrust(TERMINAL_UNRECONCILED);
          QuietFacts(x, W());
        }
      }
    }

    predicate CancelIsOverdue()
      reads `orderState, `cancelAt, clock
    {
      orderState.PENDING_CANCEL? && cancelAt.Some? && clock.now - cancelAt.value >= CANCEL_TIMEOUT
    }

    ghost function Timer(): Timer
      reads `linkState, `syncState, `operatingMode, `fatal, `orderState, `live, `position, `workingSigned,
            `bookedExecs, `quote, `violations, `journalFailure, `sentAt, `cancelAt, risk, clock
    {
      DueTimer(M(), sentAt, cancelAt, clock.now)
    }

    /** With a position left, past the hard deadline the session's residual is on
        record, and inside the window a flatten is under way or all is stopped. */
    ghost predicate EodUpToDate()
      reads `position, `residualRecorded, `operatingMode, `flattenReason, clock
    {
      var plan := calendar(clock.now);
      plan.trading && position != 0 ==>
        && (clock.now >= plan.flattenHard ==> plan.session in residualRecorded)
        && (plan.flattenStart <= clock.now < plan.close && !operatingMode.HALTED? ==> flattenReason == Some(EOD_FLATTEN))
    }

    ghost function Stands(): Stage
      reads this, journal, risk, evidence, fence, broker, ids, clock
    {
      Stage(M(), P(), W(), sentAt, cancelAt)
    }

    /** Called periodically: evaluate a waiting target, run the order timers, then
        the end-of-day steps. */
    method Tick() returns (r: Io<()>, ghost turn: Stage, ghost late: Stage)
      requires Valid() && !journal.failed && Inv(M(), W())
      modifies `desired, `deferred, `attempt, `live, `workingSigned, `orderState, `syncState, `sentAt, `cancelAt,
               `cancelReason, `fatal, `linkState, `operatingMode, `violations, `journalFailure, `fenceWriteFailed,
               `flattenReason, `residualRecorded, journal, risk, evidence, fence, broker, ids
      ensures Valid() && journal.failed == r.Unavailable? && Outcome(old(M()), old(W()), M(), W(), r.Done?)
      ensures r.Done? ==> Inv(M(), W()) && EodUpToDate()
      ensures r.Done? ==> Turned(old(Stands()), turn) && Ticked(turn, late)
      ensures r.Done? && !late.m.sync.SYNCED? ==> orderState == late.m.os && syncState == late.m.sync
    {
      hide Valid, Inv, Outcome, Acted, Noted, Decide, Ticked;
      ghost var m, w := M(), W();
      OutcomeRefl(m, w);
      turn, late := Stands(), Stands();
      r := Done(());
      if orderState.IDLE? && desired.Some? {
        var s := Evaluate();
        r := if s.Done? then Done(()) else Unavailable;
      }
      if r.Done? {
        turn := Stands();
        r, late := TickTimers();
        OutcomeTrans(m, w, turn.m, turn.w, M(), W(), r.Done?);
      }
    }

    method TickTimers() returns (r: Io<()>, ghost late: Stage)
      requires Valid() && !journal.failed && Inv(M(), W())
      modifies `desired, `deferred, `attempt, `live, `workingSigned, `orderState, `syncState, `sentAt, `cancelAt,
               `cancelReason, `fatal, `linkState, `operatingMode, `violations, `journalFailure, `fenceWriteFailed,
               `flattenReason, `residualRecorded, journal, risk, evidence, fence, broker, ids
      ensures Valid() && journal.failed == r.Unavailable? && Outcome(old(M()), old(W()), M(), W(), r.Done?)
      ensures r.Done? ==> Inv(M(), W()) && EodUpToDate() && Ticked(old(Stands()), late)
      ensures r.Done? && !late.m.sync.SYNCED? ==> orderState == late.m.os && syncState == late.m.sync
    {
      hide Valid, Inv, Outcome, Acted, Decide, CancelAsked, WriteGate, TimerActed;
      ghost var m, w := M(), W();
      r := TickOrder();
      late := Stands();
      if r.Unavailable? {
        return;
      }
      r := BringEodUpToDate();
      OutcomeTrans(m, w, late.m, late.w, M(), W(), r.Done?);
    }

    /** The end-of-day steps, which move no untrusted order. */
    method BringEodUpToDate() returns (r: Io<()>)
      requires Valid() && !journal.failed && Inv(M(), W())
      modifies `desired, `deferred, `attempt, `live, `workingSigned, `orderState, `syncState, `sentAt, `cancelAt,
               `cancelReason, `fatal, `linkState, `operatingMode, `violations, `journalFailure, `fenceWriteFailed,
               `flattenReason, `residualRecorded, journal, risk, evidence, fence, broker, ids
      ensures Valid() && journal.failed == r.Unavailable? && Outcome(old(M()), old(W()), M(), W(), r.Done?)
      ensures r.Done? ==> Inv(M(), W()) && EodUpToDate()
      ensures r.Done? && !old(syncState).SYNCED? ==> orderState == old(orderState) && syncState == old(syncState)
    {
      hide Valid, Inv, Outcome, Acted, Decide;
      ghost var n, x := M(), W();
      ghost var p := Replanned(ZeroTarget(EOD_FLATTEN)).(flattenReason := Some(EOD_FLATTEN));
      r := CheckEod();
      if !n.sync.SYNCED? {
        ActedUntrusted(n.(mode := FLATTEN_ONLY), p, x, M(), P(), W());
      }
      OutcomeFacts(n, x, M(), W(), r.Done?);
    }

    // ---- reconciliation: the broker is the authority, the log the explanation ----

    /** Claim the execution id and write the ledger event in one transaction. */
    method ClaimExecution(e: Execution) returns (r: Io<Answer>)
      requires Valid() && !journal.failed
      modifies journal
      ensures M() == old(M()) && journal.failed == r.Unavailable?
      ensures Valid() && LedgerStep(old(W()), W(), e)
      ensures r.Done? ==> (r.value.Appended? <==> e.id !in old(journal.view).ledger.booked)
      ensures r.Done? && r.value.Appended? ==>
                journal.view.ledger == ApplyLedger(old(journal.view).ledger, clock.now, ExecutionReceived(e))
      ensures r.Done? && !r.value.Appended? ==> journal.view.ledger == old(journal.view).ledger
    {
      hide WitnessPromise, EvidenceHolds, BookShape, Fold, StopHeld, Durable, Wrote,
           ApplyOrders, ApplyLedger, ApplyGates, ApplyCounters, ApplyWatch;
      ghost var w := W();
      var event := ExecutionReceived(e);
      var entry := Record(clock.now, event);
      ExecutionEffect(journal.view, entry);
      r := journal.Submit(Request.BookExecution(entry));
      if journal.events == old(journal.events) && journal.view == w.view {
        UnwrittenKeeps(w, W());
      } else {
        AppendKeeps(w, W(), entry);
      }
    }

    /** Book an execution exactly once, by whatever route it arrives. */
    method BookExecution(e: Execution) returns (r: Io<bool>)
      requires Valid() && !journal.failed
      modifies `bookedExecs, `feesPending, journal
      ensures Valid() && LedgerStep(old(W()), W(), e) && journal.failed == r.Unavailable?
      ensures M() == old(M()).(booked := bookedExecs)
      ensures r.Done? ==> (r.value <==> e.id !in old(journal.view).ledger.booked)
      ensures r.Done? && old(bookedExecs) == old(journal.view).ledger.booked.Keys ==>
                bookedExecs == journal.view.ledger.booked.Keys && e.id in bookedExecs
      ensures r.Done? && r.value ==>
                && journal.view.ledger == ApplyLedger(old(journal.view).ledger, clock.now, ExecutionReceived(e))
                && bookedExecs == old(bookedExecs) + {e.id}
      ensures r.Done? && !r.value ==>
                journal.view.ledger == old(journal.view).ledger && bookedExecs == old(bookedExecs)
    {
      hide Valid, LedgerStep, QuietStep;
      ghost var w := W();
      var answer := ClaimExecution(e);
      if answer.Unavailable? {
        return Unavailable;
      }
      if !answer.value.Appended? {
        return Done(false);
      }
      bookedExecs := bookedExecs + {e.id};
      ghost var x := W();
      if e.isReversal || e.corrects.Some? {
        var noted := Silently(if e.isReversal then ExecutionReversal(e.id) else ExecutionCorrected(e.id));
        LedgerThenQuiet(w, x, W(), e);
        if noted.Unavailable? {
          return Unavailable;
        }
      }
      feesPending := feesPending + {e.id};
      return Done(true);
    }

    method AdoptOne(execs: seq<Execution>, k: nat, ghost m: Memory, ghost w: World) returns (r: Io<bool>)
      requires Valid() && !journal.failed && Inv(M(), W()) && !syncState.SYNCED?
      requires k < |execs| && execs[k].id !in bookedExecs
      requires Progress(m, w, M(), W(), true) && Adopted(w, W()) && w.view.ledger.booked.Keys <= bookedExecs
      modifies `bookedExecs, `feesPending, journal
      ensures Valid() && journal.failed == r.Unavailable? && Progress(m, w, M(), W(), r.Done?)
      ensures M() == old(M()).(booked := bookedExecs)
      ensures ExposureKnown(old(W())) && TrueExecutions(execs, w) ==> Safe(M(), W(), r.Done?) && ExposureKnown(W())
      ensures r.Done? ==> Inv(M(), W()) && Adopted(w, W()) && bookedExecs == old(bookedExecs) + {execs[k].id}
      ensures r.Done? ==>
                journal.view.ledger == ApplyLedger(old(journal.view).ledger, clock.now, ExecutionReceived(execs[k]))
    {
      hide Valid, Inv, Progress, Safe, LedgerStep, QuietStep, ExposureKnown, HonestExecution, Adopted, TrueExecutions,
           ApplyLedger;
      ghost var n, x := M(), W();
      InvFacts(n, x);
      TrueAt(execs, w, k);
      r := BookExecution(execs[k]);
      AdoptStep(m, w, n, x, M(), W(), execs[k], r.Done?);
    }

    /** Adopt broker-proven executions the journal is missing. */
    method AdoptExecutions(execs: seq<Execution>) returns (r: Io<()>)
      requires Valid() && !journal.failed && Inv(M(), W()) && !syncState.SYNCED?
      modifies `bookedExecs, `feesPending, journal
      ensures Valid() && journal.failed == r.Unavailable? && Progress(old(M()), old(W()), M(), W(), r.Done?)
      ensures ExposureKnown(old(W())) && TrueExecutions(execs, old(W())) ==> Safe(M(), W(), r.Done?)
      ensures M() == old(M()).(booked := bookedExecs)
      ensures r.Done? ==> Inv(M(), W()) && Adopted(old(W()), W()) && forall k :: 0 <= k < |execs| ==> execs[k].id in bookedExecs
      ensures r.Done? ==> journal.view.ledger == AdoptAll(old(journal.view).ledger, clock.now, execs)
    {
      hide Valid, Inv, Progress, Safe, LedgerStep, QuietStep, ExposureKnown, HonestExecution, Adopted, TrueExecutions,
           AdoptAll, ApplyLedger;
      ghost var m, w := M(), W();
      ghost var true' := ExposureKnown(w) && TrueExecutions(execs, w);
      ProgressRefl(m, w);
      AdoptedRefl(w);
      InvFacts(m, w);
      AdoptNone(w.view.ledger, clock.now, execs);
      var adopted := 0;
      var k := 0;
      while k < |execs|
        invariant 0 <= k <= |execs|
        invariant Valid() && !journal.failed && Inv(M(), W()) && Progress(m, w, M(), W(), true)
        invariant Adopted(w, W()) && M() == m.(booked := bookedExecs) && m.booked <= bookedExecs
        invariant true' ==> ExposureKnown(W())
        invariant forall j :: 0 <= j < k ==> execs[j].id in bookedExecs
        invariant journal.view.ledger == AdoptAll(w.view.ledger, clock.now, execs[..k])
      {
        AdoptNext(w.view.ledger, clock.now, execs, k);
        InvFacts(M(), W());
        if execs[k].id !in bookedExecs {
          var booked := AdoptOne(execs, k, m, w);
          if booked.Unavailable? {
            return Unavailable;
          }
          adopted := adopted + if booked.value then 1 else 0;
        }
        k := k + 1;
      }
      ghost var n, x := M(), W();
      SafeNow(n, x);
      r := NoteAdopted(adopted);
      AdoptedQuiet(w, x, W());
      ThenOutcome(m, w, n, x, n, W(), r.Done?);
    }

    method NoteAdopted(adopted: nat) returns (r: Io<()>)
      requires Valid() && !journal.failed && Inv(M(), W())
      modifies journal
      ensures Valid() && journal.failed == r.Unavailable? && Outcome(old(M()), old(W()), M(), W(), r.Done?)
      ensures M() == old(M()) && QuietStep(old(W()), W()) && (r.Done? ==> Inv(M(), W()))
      ensures journal.view.gates == old(journal.view).gates && journal.view.ledger == old(journal.view).ledger
      ensures r.Done? ==>
                journal.events == old(journal.events) +
                  if adopted > 0 then [Record(clock.now, BrokerFactAdopted(adopted))] else []
    {
      hide Valid, Inv, Outcome, QuietStep;
      ghost var n, x := M(), W();
      QuietRefl(x);
      OutcomeRefl(n, x);
      r := Done(());
      if adopted > 0 {
        r := Silently(BrokerFactAdopted(adopted));
        QuietFacts(x, W());
        StillOutcome(n, x, W(), r.Done?);
      }
    }

    /** Broker-proven absence is a durable terminal fact. */
    method ConfirmAbsent(reply: SnapshotReply, openIntents: map<Ref, OrderIntent>, ghost w: World) returns (r: Io<()>)
      requires Valid() && !journal.failed && reply.Got? && Amid(reply, w, W())
      requires openIntents.Keys == journal.view.orders.open
      requires forall i :: i in openIntents ==>
                 i in journal.view.orders.intents && openIntents[i] == journal.view.orders.intents[i]
      modifies journal
      ensures M() == old(M()) && Valid() && journal.failed == r.Unavailable? && Amid(reply, w, W())
      ensures r.Done? ==> journal.view.orders.open <= RefsOf(reply.snap.openOrders) && (old(Linked()) ==> Linked())
      ensures r.Done? ==> EndedAsFilled(journal.events, |old(journal.events)|, old(journal.view))
    {
      hide Valid, OrderStep, Amid, RefsOf, ApplyOrders, Fold, FilledOf;
      var brokerRefs := RefsOf(reply.snap.openOrders);
      var todo := openIntents.Keys - brokerRefs;
      while todo != {}
        invariant Valid() && !journal.failed && M() == old(M()) && Amid(reply, w, W())
        invariant todo <= journal.view.orders.open <= todo + brokerRefs && todo !! brokerRefs
        invariant old(Linked()) ==> Linked()
        invariant todo <= openIntents.Keys
        invariant journal.view.ledger == old(journal.view).ledger
        invariant EndedAsFilled(journal.events, |old(journal.events)|, old(journal.view))
        decreases todo
      {
        var ref :| ref in todo;
        var filled := Filled(ref);
        var e := if filled >= openIntents[ref].quantity then OrderFilled(ref) else OrderAbsentConfirmed(ref);
        ghost var x := W();
        var s := CommitOrder(e);
        AmidAbsent(reply, w, x, W(), e);
        if s.Unavailable? {
          return Unavailable;
        }
        todo := todo - {ref};
      }
      return Done(());
    }

    /** The broker reports an order we sent: acknowledge it if nothing did before. */
    method ConfirmOpen(reply: SnapshotReply, ref: Ref, ghost w: World) returns (r: Io<()>)
      requires Valid() && !journal.failed && reply.Got? && Amid(reply, w, W()) && ref in journal.view.orders.open
      modifies journal
      ensures M() == old(M()) && Valid() && journal.failed == r.Unavailable? && Amid(reply, w, W())
      ensures r.Done? ==> journal.view.orders.open == old(journal.view).orders.open && (old(Linked()) ==> Linked())
      ensures r.Done? ==> LoggedFirst([BrokerAckReceived(ref), OrderWorking(ref)])
    {
      hide Valid, OrderStep, Amid, RefsOf, ApplyOrders;
      ghost var x := W();
      var s := CommitOrder(BrokerAckReceived(ref));
      ghost var y := W();
      AmidConfirmed(reply, w, x, y, BrokerAckReceived(ref));
      if s.Done? {
        s := CommitOrder(OrderWorking(ref));
        AmidConfirmed(reply, w, y, W(), OrderWorking(ref));
      }
      return if s.Done? then Done(()) else Unavailable;
    }

    /** Rehydrate every broker-open order from its durable intent. */
    method Rehydrate(reply: SnapshotReply, openIntents: map<Ref, OrderIntent>, acked: set<Ref>, ghost w: World)
      returns (r: Io<()>)
      requires Valid() && !journal.failed && reply.Got? && Amid(reply, w, W())
      requires forall k :: 0 <= k < |reply.snap.openOrders| ==>
                 reply.snap.openOrders[k].ref in openIntents && reply.snap.openOrders[k].ref in journal.view.orders.open
      modifies `live, `position, `workingSigned, `attempt, `sentAt, `orderState, `syncState, journal
      ensures Valid() && journal.failed == r.Unavailable? && Amid(reply, w, W())
      ensures M() == old(M()).(live := live, position := position, working := workingSigned, os := orderState)
      ensures r.Done? ==> journal.view.orders.open == old(journal.view).orders.open && (old(Linked()) ==> Linked())
      ensures r.Done? && reply.snap.openOrders == [] ==> M() == old(M())
      ensures r.Done? && reply.snap.openOrders != [] ==>
                var last := reply.snap.openOrders[|reply.snap.openOrders| - 1];
                && last.ref in openIntents && live == Some(openIntents[last.ref]) && orderState.WORKING?
                && position == reply.snap.position && workingSigned == last.signedRemaining
                && attempt == live.value.attempt && sentAt == Some(clock.now)
    {
      hide Valid, QuietStep, Amid, RefsOf;
      ghost var m := M();
      var orders := reply.snap.openOrders;
      var known := acked;
      var k := 0;
      while k < |orders|
        invariant 0 <= k <= |orders|
        invariant Valid() && !journal.failed && Amid(reply, w, W())
        invariant M() == m.(live := live, position := position, working := workingSigned, os := orderState)
        invariant journal.view.orders.open == old(journal.view).orders.open && (old(Linked()) ==> Linked())
        invariant k == 0 ==> M() == m
        invariant k > 0 ==>
          && live == Some(openIntents[orders[k - 1].ref]) && orderState.WORKING?
          && position == reply.snap.position && workingSigned == orders[k - 1].signedRemaining
          && attempt == live.value.attempt && sentAt == Some(clock.now)
      {
        var ref := orders[k].ref;
        if ref !in known {
          var s := ConfirmOpen(reply, ref, w);
          if s.Unavailable? {
            return Unavailable;
          }
          known := known + {ref};
        }
        r := Readopt(reply, openIntents[ref], orders[k].signedRemaining, w);
        if r.Unavailable? {
          return;
        }
        k := k + 1;
      }
      return Done(());
    }

    /** One leg for one open order: merely restoring the quantity would let a new
        target place a second order beside it. */
    method Readopt(reply: SnapshotReply, intent: OrderIntent, remaining: int, ghost w: World) returns (r: Io<()>)
      requires Valid() && !journal.failed && reply.Got? && Amid(reply, w, W())
      modifies `live, `position, `workingSigned, `attempt, `sentAt, `orderState, `syncState, journal
      ensures Valid() && journal.failed == r.Unavailable? && Amid(reply, w, W())
      ensures journal.view.orders == old(journal.view).orders
      ensures M() == old(M()).(live := Some(intent), position := reply.snap.position, working := remaining, os := WORKING)
      ensures attempt == intent.attempt && sentAt == Some(clock.now)
      ensures r.Done? && old(Linked()) ==> Linked()
    {
      hide Valid, QuietStep, Amid, RefsOf;
      AdoptLeg(intent, reply.snap.position, remaining);
      ghost var x := W();
      r := SetOrderState(WORKING);
      AmidQuiet(reply, w, x, W());
    }

    method AdoptLeg(intent: OrderIntent, reported: int, remaining: int)
      modifies `live, `position, `workingSigned, `attempt, `sentAt
      ensures M() == old(M()).(live := Some(intent), position := reported, working := remaining)
      ensures attempt == intent.attempt && sentAt == Some(clock.now)
      ensures W() == old(W()) && (old(Valid()) ==> Valid())
    {
      hide Valid, W;
      HoldIntent(intent);
      position, workingSigned := reported, remaining;
      attempt, sentAt := intent.attempt, Some(clock.now);
    }

    /** A remembered order the broker no longer reports is resolved. */
    method ResolveRemembered(reply: SnapshotReply, ghost w: World) returns (r: Io<()>)
      requires Valid() && !journal.failed && reply.Got? && Amid(reply, w, W())
      modifies `live, `position, `workingSigned, `orderState, `syncState, journal
      ensures Valid() && journal.failed == r.Unavailable? && Amid(reply, w, W())
      ensures journal.view.orders == old(journal.view).orders
      ensures M() == old(M()).(live := live, position := reply.snap.position, working := workingSigned, os := orderState)
      ensures r.Done? && old(Linked()) ==> Linked()
      ensures old(live).Some? && old(live).value.ref in RefsOf(reply.snap.openOrders) ==>
                live == old(live) && orderState == old(orderState) && workingSigned == old(workingSigned)
      ensures r.Done? && !(old(live).Some? && old(live).value.ref in RefsOf(reply.snap.openOrders)) ==>
                && live.None? && workingSigned == 0
                && orderState == (if old(live).Some? || old(orderState).Untrustworthy() then IDLE else old(orderState))
    {
      hide Valid, QuietStep, Amid, RefsOf, GateLink;
      ghost var x := W();
      position := reply.snap.position;
      r := Done(());
      var gone := live.Some? && live.value.ref !in RefsOf(reply.snap.openOrders);
      if gone || live.None? {
        var unclear := gone || orderState.Untrustworthy();
        live, workingSigned := None, 0;
        if unclear {
          r := SetOrderState(IDLE);
          AmidQuiet(reply, w, x, W());
        }
      }
    }

    /** The leg becomes what the snapshot says, whatever it was. */
    method RestoreLeg(reply: SnapshotReply, openIntents: map<Ref, OrderIntent>, acked: set<Ref>, ghost w: World)
      returns (r: Io<()>)
      requires Valid() && !journal.failed && reply.Got? && Amid(reply, w, W())
      requires forall k :: 0 <= k < |reply.snap.openOrders| ==>
                 reply.snap.openOrders[k].ref in openIntents && reply.snap.openOrders[k].ref in journal.view.orders.open
      requires forall i :: i in openIntents ==> openIntents[i].ref == i
      requires live.None? ==> orderState.IDLE? || orderState.TERMINAL_UNRECONCILED?
      modifies `live, `position, `workingSigned, `attempt, `sentAt, `orderState, `syncState, journal
      ensures Valid() && journal.failed == r.Unavailable? && Amid(reply, w, W())
      ensures M() == old(M()).(live := live, position := position, working := workingSigned, os := orderState)
      ensures r.Done? ==> journal.view.orders.open == old(journal.view).orders.open && (old(Linked()) ==> Linked())
      ensures r.Done? ==>
                && Restores(reply, M())
                && (live.Some? ==> live.value.ref in openIntents && openIntents[live.value.ref] == live.value)
                && (live.Some? ==> live.value.ref in RefsOf(reply.snap.openOrders))
    {
      hide Valid, W, Amid, RefsOf, GateLink;
      RefsAreReported(reply.snap.openOrders);
      r := Rehydrate(reply, openIntents, acked, w);
      if r.Done? {
        r := ResolveRemembered(reply, w);
      }
    }

    /** Make the log's open orders and the leg exactly what the broker reports. */
    method Settle(reply: SnapshotReply, openIntents: map<Ref, OrderIntent>, acked: set<Ref>) returns (r: Io<()>)
      requires Valid() && !journal.failed && Inv(M(), W()) && syncState.SYNCING?
      requires reply.Got? && reply.snap.position == journal.view.ledger.expected
      requires openIntents.Keys == journal.view.orders.open
      requires forall i :: i in openIntents ==>
                 i in journal.view.orders.intents && openIntents[i] == journal.view.orders.intents[i]
      requires RefsOf(reply.snap.openOrders) <= openIntents.Keys
      modifies `live, `position, `workingSigned, `attempt, `sentAt, `orderState, `syncState, journal
      ensures Valid() && journal.failed == r.Unavailable? && Progress(old(M()), old(W()), M(), W(), r.Done?)
      ensures ExposureKnown(old(W())) && HonestReply(reply, old(W())) && reply.snap.stable ==> Safe(M(), W(), r.Done?)
      ensures r.Done? ==>
                && Inv(M(), W()) && Settled(M(), W()) && syncState.SYNCING? && Restores(reply, M())
                && journal.view.orders.open == RefsOf(reply.snap.openOrders)
                && journal.view.ledger == old(journal.view).ledger
                && journal.view.gates.reconciled == old(journal.view).gates.reconciled
    {
      hide Valid, Inv, Progress, Safe, Amid, HonestReply, Exposed, ExposureKnown, GateLink, Settled, Durable,
           Lasting, RefsOf, Restores;
      ghost var m, w := M(), W();
      AmidRefl(reply, w);
      InvFacts(m, w);
      ValidIsDurable();
      RefsAreReported(reply.snap.openOrders);
      r := ConfirmAbsent(reply, openIntents, w);
      if r.Done? {
        AmidKeepsReported(reply, w, W());
        r := RestoreLeg(reply, openIntents, acked, w);
      }
      if r.Unavailable? {
        AmidFailed(reply, m, w, M(), W());
        return;
      }
      AmidKeepsReported(reply, w, W());
      ValidIsDurable();
      AmidSettled(reply, m, w, M(), W());
    }

    method BeginResync() returns (r: Io<()>)
      requires Valid() && !journal.failed && Inv(M(), W())
      modifies `syncState, journal
      ensures Valid() && journal.failed == r.Unavailable? && Outcome(old(M()), old(W()), M(), W(), r.Done?)
      ensures QuietStep(old(W()), W())
      ensures r.Done? ==> Inv(M(), W()) && syncState.SYNCING?
    {
      hide Valid, Inv, Outcome, QuietStep, GateLink;
      ghost var m, w := M(), W();
      InvFacts(m, w);
      r := Silently(ReconciliationStarted);
      if r.Done? {
        ghost var x := W();
        r := SetSync(SYNCING);
        QuietTrans(w, x, W());
      }
      QuietOutcome(m, w, M(), W(), r.Done?);
    }

    /** Nothing is trusted after a reconciliation that did not complete. */
    method FailResync() returns (r: Io<()>)
      requires Valid() && !journal.failed && Inv(M(), W())
      modifies `syncState, journal
      ensures Valid() && journal.failed == r.Unavailable? && Outcome(old(M()), old(W()), M(), W(), r.Done?)
      ensures QuietStep(old(W()), W())
      ensures r.Done? ==> Inv(M(), W()) && syncState.UNVERIFIED?
    {
      hide Valid, Inv, Outcome, QuietStep, GateLink;
      ghost var m, w := M(), W();
      InvFacts(m, w);
      r := Silently(ReconciliationFailed);
      if r.Done? {
        ghost var x := W();
        r := SetSync(UNVERIFIED);
        QuietTrans(w, x, W());
      }
      QuietOutcome(m, w, M(), W(), r.Done?);
    }

    /** A fact nobody can explain: stop, durably, and out of band too. */
    method StopOn() returns (r: Io<()>)
      requires Valid() && !journal.failed && Inv(M(), W())
      modifies `operatingMode, `fenceWriteFailed, journal, evidence, fence
      ensures Valid() && journal.failed == r.Unavailable? && Outcome(old(M()), old(W()), M(), W(), r.Done?)
      ensures broker.placeCalls == old(broker.placeCalls)
      ensures r.Done? ==> Inv(M(), W()) && operatingMode.HALTED? && StoppedOrReported()
    {
      hide Valid, Inv, Outcome, ModeStep, ModeAgrees, StopHeld;
      ghost var m, w := M(), W();
      InvFacts(m, w);
      r := Halt();
      ModeOutcome(m, w, M(), W(), r.Done?);
    }

    /** An unexplained position or order: fail the reconciliation and stop. */
    method RefuseAndStop(external: bool) returns (r: Io<()>)
      requires Valid() && !journal.failed && Inv(M(), W())
      modifies `syncState, `operatingMode, `fenceWriteFailed, journal, evidence, fence
      ensures Valid() && journal.failed == r.Unavailable? && Outcome(old(M()), old(W()), M(), W(), r.Done?)
      ensures r.Done? ==> Inv(M(), W()) && operatingMode.HALTED? && StoppedOrReported() && !syncState.SYNCED?
    {
      r := Quarantine(if external then Some(ExternalOrderDetected) else None, Some(ReconciliationFailed), true);
    }

    /** Halt on a fact, a failure, or a reconciliation that cannot succeed: in the log
        first, then distrusted, then stopped, in that order and with no send between. */
    method Quarantine(due: Option<Event>, noted: Option<Event>, distrust: bool) returns (r: Io<()>)
      requires Valid() && !journal.failed && Inv(M(), W())
      requires (due.Some? ==> StopsDue(due.value)) && (noted.Some? ==> Silent(noted.value))
      modifies `syncState, `operatingMode, `fenceWriteFailed, journal, evidence, fence
      ensures Valid() && journal.failed == r.Unavailable? && Outcome(old(M()), old(W()), M(), W(), r.Done?)
      ensures r.Done? ==>
                && Inv(M(), W()) && StoppedOrReported()
                && M() == old(M()).(sync := if distrust then UNVERIFIED else old(syncState), mode := HALTED)
      ensures due.Some? && r.Done? ==> LoggedFirst([due.value])
    {
      hide Valid, Inv, Outcome, GateStep, QuietStep, ModeStep, GateLink, ModeAgrees, StopHeld, Stopped, LawfulEvent, ApplyGates;
      ghost var m, w := M(), W();
      InvFacts(m, w);
      r := NoteDue(due);
      ghost var x := W();
      if r.Done? {
        r := Untrust(noted, distrust);
      } else {
        QuietRefl(x);
      }
      ghost var y := W();
      if r.Done? {
        r := Halt();
      } else {
        ModeRefl(y);
      }
      ModeFacts(y, W());
      QuarantineOutcome(m, w, x, y, M(), W(), r.Done?);
    }

    method NoteDue(due: Option<Event>) returns (r: Io<()>)
      requires Valid() && !journal.failed && (due.Some? ==> StopsDue(due.value))
      modifies journal
      ensures M() == old(M()) && Valid() && GateStep(old(W()), W()) && journal.failed == r.Unavailable?
      ensures journal.view.gates == old(journal.view).gates || journal.view.gates == old(journal.view).gates.(stopDue := true)
      ensures (old(Linked()) ==> Linked()) && (old(Agreed()) ==> Agreed())
      ensures r.Done? && due.Some? ==> journal.events == old(journal.events) + [Record(clock.now, due.value)]
    {
      hide Valid, GateStep, LawfulEvent, ApplyGates, QuietStep;
      QuietRefl(W());
      QuietIsGate(W(), W());
      if due.None? {
        return Done(());
      }
      DueChange(journal.view, clock.now, due.value);
      var s := CommitGate(due.value);
      return if s.Done? then Done(()) else Unavailable;
    }

    method Untrust(noted: Option<Event>, distrust: bool) returns (r: Io<()>)
      requires Valid() && !journal.failed && (noted.Some? ==> Silent(noted.value))
      modifies `syncState, journal
      ensures Valid() && QuietStep(old(W()), W()) && journal.failed == r.Unavailable?
      ensures M() == old(M()).(sync := syncState) && (syncState == old(syncState) || syncState.UNVERIFIED?)
      ensures r.Done? ==> syncState == if distrust then UNVERIFIED else old(syncState)
      ensures r.Done? && old(Linked()) ==> Linked()
      ensures old(journal.events) <= journal.events
      ensures old(Agreed()) ==> Agreed()
    {
      hide Valid, QuietStep, ModeAgrees, GateLink;
      ghost var w := W();
      QuietRefl(w);
      r := Done(());
      if noted.Some? {
        r := Silently(noted.value);
      }
      if r.Done? && distrust {
        ghost var x := W();
        r := SetSync(UNVERIFIED);
        QuietTrans(w, x, W());
      }
      QuietFacts(w, W());
      if old(Agreed()) {
        QuietAgrees(operatingMode, fatal, fence.cell.Some?, w, W());
      }
    }

    /** Orders not in our open intents, or unbooked executions of no intent of ours. */
    method ExternalFacts(snap: Snapshot, openIntents: map<Ref, OrderIntent>, intents: map<Ref, OrderIntent>)
      returns (external: bool)
      ensures external <==> !Explained(snap, bookedExecs, openIntents.Keys, intents.Keys)
    {
      external := false;
      for k := 0 to |snap.openOrders|
        invariant external <==> exists j :: 0 <= j < k && snap.openOrders[j].ref !in openIntents
      {
        external := external || snap.openOrders[k].ref !in openIntents;
      }
      ghost var orders := external;
      for k := 0 to |snap.executions|
        invariant external <==> (orders || exists j ::
                    0 <= j < k && snap.executions[j].id !in bookedExecs && snap.executions[j].ref !in intents)
      {
        var ex := snap.executions[k];
        external := external || (ex.id !in bookedExecs && ex.ref !in intents);
      }
    }

    /** The snapshot explains everything: trust is restored. */
    method FinishResync() returns (r: Io<()>)
      requires Valid() && !journal.failed && Settled(M(), W()) && syncState.SYNCING?
      modifies `syncState, journal
      ensures Valid() && journal.failed == r.Unavailable? && Progress(old(M()), old(W()), M(), W(), r.Done?)
      ensures ExposureKnown(old(W())) && AllAdopted(old(W())) ==> Safe(M(), W(), r.Done?)
      ensures r.Done? ==>
                && Inv(M(), W()) && M() == old(M()).(sync := SYNCED)
                && journal.view.orders.open == old(journal.view).orders.open
    {
      hide Valid, Settled, Progress, Safe, QuietStep, GateLink, ApplyOrders, ApplyLedger, ApplyGates, ApplyCounters, ApplyWatch,
           ExposureKnown, AllAdopted;
      ghost var m, w := M(), W();
      CompletionEffect(m, w);
      var s := Commit(ReconciliationCompleted);
      r := Unavailable;
      if s.Done? {
        ghost var x := W();
        r := SetSync(SYNCED);
        FinishQuiet(w, x, W());
      }
      FinishOutcome(m, w, M(), W(), r.Done?);
    }

    /** The snapshot agrees with the ledger: settle the orders and finish. */
    method CompleteResync(reply: SnapshotReply, openIntents: map<Ref, OrderIntent>, acked: set<Ref>) returns (r: Io<()>)
      requires Valid() && !journal.failed && Inv(M(), W()) && syncState.SYNCING?
      requires reply.Got? && reply.snap.position == journal.view.ledger.expected
      requires openIntents.Keys == journal.view.orders.open
      requires forall i :: i in openIntents ==>
                 i in journal.view.orders.intents && openIntents[i] == journal.view.orders.intents[i]
      requires RefsOf(reply.snap.openOrders) <= openIntents.Keys
      modifies `live, `position, `workingSigned, `attempt, `sentAt, `orderState, `syncState, `flattenReason, journal
      ensures Valid() && journal.failed == r.Unavailable? && Progress(old(M()), old(W()), M(), W(), r.Done?)
      ensures ExposureKnown(old(W())) && HonestReply(reply, old(W())) && reply.snap.stable && AllAdopted(old(W()))
              ==> Safe(M(), W(), r.Done?)
      ensures r.Done? ==>
                && Inv(M(), W()) && syncState.SYNCED? && Restores(reply, M())
                && journal.view.orders.open == RefsOf(reply.snap.openOrders)
    {
      hide Valid, Inv, Progress, Safe, HonestReply, ExposureKnown, Settled, AllAdopted, RefsOf, QuietStep;
      ghost var m, w := M(), W();
      r := Settle(reply, openIntents, acked);
      ghost var n, x := M(), W();
      if r.Unavailable? {
        return;
      }
      var flat := MaybeCompleteFlatten();
      ghost var y := W();
      SettledThenQuiet(m, w, n, x, y, flat.Done?);
      if flat.Unavailable? {
        return Unavailable;
      }
      r := FinishResync();
      ProgressTrans(m, w, n, y, M(), W(), r.Done?);
      if Safe(n, y, true) && AllAdopted(w) {
        SafeIsKnown(n, y, true);
        AllAdoptedFrame(w, y);
      }
    }

    /** From an explained snapshot to SYNCED, or to a stop if positions disagree. */
    method Resynchronise(reply: SnapshotReply, openIntents: map<Ref, OrderIntent>, acked: set<Ref>) returns (r: Io<bool>)
      requires Valid() && !journal.failed && Inv(M(), W()) && syncState.SYNCING?
      requires reply.Got? && reply.snap.stable
      requires openIntents.Keys == journal.view.orders.open
      requires forall i :: i in openIntents ==>
                 i in journal.view.orders.intents && openIntents[i] == journal.view.orders.intents[i]
      requires Explained(reply.snap, bookedExecs, openIntents.Keys, journal.view.orders.intents.Keys)
      modifies `live, `position, `workingSigned, `attempt, `sentAt, `orderState, `syncState, `flattenReason, `bookedExecs,
               `feesPending, `operatingMode, `fenceWriteFailed, journal, evidence, fence
      ensures Valid() && journal.failed == r.Unavailable? && Progress(old(M()), old(W()), M(), W(), r.Done?)
      ensures ExposureKnown(old(W())) && HonestReply(reply, old(W())) ==> Safe(M(), W(), r.Done?)
      ensures r.Done? ==> Inv(M(), W())
      ensures r.Done? ==>
                (r.value <==> reply.snap.position
                              == AdoptAll(old(journal.view).ledger, clock.now, reply.snap.executions).expected)
      ensures r == Done(true) ==>
                && syncState.SYNCED? && Restores(reply, M())
                && journal.view.orders.open == RefsOf(reply.snap.openOrders)
      ensures r == Done(false) ==> operatingMode.HALTED? && !syncState.SYNCED? && StoppedOrReported()
      ensures ExposureKnown(old(W())) && UndisturbedReply(reply, old(W())) && r.Done? ==> r.value
    {
      hide Valid, Inv, Progress, Safe, HonestReply, ExposureKnown, Adopted, Durable, Lasting, Stopped, StopHeld,
           Explained, AllAdopted, TrueExecutions, RefsOf, Outcome, AdoptAll, Restores;
      ghost var m, w := M(), W();
      ghost var honest := ExposureKnown(w) && HonestReply(reply, w);
      InvFacts(m, w);
      if honest {
        ExplainedAreTrue(reply, w, openIntents.Keys);
      }
      r := Unavailable;
      var adopt := AdoptExecutions(reply.snap.executions);
      ghost var n, x := M(), W();
      if adopt.Done? {
        AdoptedFacts(reply.snap, w, n, x, openIntents.Keys);
        if honest {
          SafeIsKnown(n, x, true);
          CompleteIsAllAdopted(reply, w, x);
          ValidIsDurable();
          BookedPositionIsTrue(x);
          HonestFrame(reply, w, x);
        }
        r := CompareAndComplete(reply, openIntents, acked);
        ProgressTrans(m, w, n, x, M(), W(), r.Done?);
      }
    }

    /** Positions must agree before anything else is believed. */
    method CompareAndComplete(reply: SnapshotReply, openIntents: map<Ref, OrderIntent>, acked: set<Ref>) returns (r: Io<bool>)
      requires Valid() && !journal.failed && Inv(M(), W()) && syncState.SYNCING? && reply.Got?
      requires openIntents.Keys == journal.view.orders.open
      requires forall i :: i in openIntents ==>
                 i in journal.view.orders.intents && openIntents[i] == journal.view.orders.intents[i]
      requires RefsOf(reply.snap.openOrders) <= openIntents.Keys
      modifies `live, `position, `workingSigned, `attempt, `sentAt, `orderState, `syncState, `flattenReason,
               `operatingMode, `fenceWriteFailed, journal, evidence, fence
      ensures Valid() && journal.failed == r.Unavailable? && Progress(old(M()), old(W()), M(), W(), r.Done?)
      ensures ExposureKnown(old(W())) && HonestReply(reply, old(W())) && reply.snap.stable && AllAdopted(old(W()))
              ==> Safe(M(), W(), r.Done?)
      ensures r.Done? ==> Inv(M(), W()) && (r.value <==> reply.snap.position == old(journal.view).ledger.expected)
      ensures r == Done(true) ==>
                && syncState.SYNCED? && Restores(reply, M())
                && journal.view.orders.open == RefsOf(reply.snap.openOrders)
      ensures r == Done(false) ==> operatingMode.HALTED? && !syncState.SYNCED? && StoppedOrReported()
    {
      hide Durable, Inv, Progress, Safe, HonestReply, ExposureKnown, Stopped, StopHeld, AllAdopted,
           RefsOf, Outcome, Fold, Restores;
      ghost var m, w := M(), W();
      var expected := ExpectedPosition(journal.events, risk.config);
      if expected != reply.snap.position {
        var stop := RefuseAndStop(false);
        OutcomeParts(m, w, M(), W(), stop.Done?);
        return if stop.Done? then Done(false) else Unavailable;
      }
      var s := CompleteResync(reply, openIntents, acked);
      return if s.Done? then Done(true) else Unavailable;
    }

    /** Take a broker snapshot and reconcile with it; then, if asked, give the latest
        target its turn. A failed reconciliation trusts nothing. */
    method Reconcile(reply: SnapshotReply, evaluateTargets: bool) returns (r: Io<bool>)
      requires Valid() && !journal.failed && Inv(M(), W())
      modifies this, journal, risk, evidence, fence, broker, ids
      ensures Valid() && journal.failed == r.Unavailable? && Progress(old(M()), old(W()), M(), W(), r.Done?)
      ensures old(Exposed(M(), W())) && HonestReply(reply, old(W())) ==> Safe(M(), W(), r.Done?)
      ensures r.Done? ==> Inv(M(), W())
      ensures r == Done(false) ==> !syncState.SYNCED? && broker.placeCalls == old(broker.placeCalls)
      ensures r.Done? ==> (r.value <==> Reconciles(reply, old(journal.view), clock.now))
      ensures broker.placeCalls != old(broker.placeCalls) || broker.cancelCalls != old(broker.cancelCalls) ==>
                evaluateTargets && Reconciles(reply, old(journal.view), clock.now)
      ensures r == Done(true) && (!evaluateTargets || old(desired).None?) ==>
                syncState.SYNCED? && Restores(reply, M()) && journal.view.orders.open == RefsOf(reply.snap.openOrders)
                && broker.placeCalls == old(broker.placeCalls)
      ensures old(Exposed(M(), W())) && UndisturbedReply(reply, old(W())) && r.Done? ==> r.value
    {
      hide Valid, Inv, Progress, Safe, HonestReply, Exposed, RefsOf, Outcome, UndisturbedReply,
           ExposureKnown, Reconciles, Restores;
      ghost var m, w := M(), W();
      r := Resync(reply);
      if r == Done(true) && evaluateTargets && desired.Some? {
        ghost var n, x := M(), W();
        var s := Evaluate();
        ThenOutcome(m, w, n, x, M(), W(), s.Done?);
        r := if s.Done? then Done(true) else Unavailable;
      }
    }

    /** The reconciliation itself, without acting on its result. */
    method Resync(reply: SnapshotReply) returns (r: Io<bool>)
      requires Valid() && !journal.failed && Inv(M(), W())
      modifies `live, `position, `workingSigned, `attempt, `sentAt, `orderState, `syncState, `flattenReason, `bookedExecs,
               `feesPending, `operatingMode, `fenceWriteFailed, journal, evidence, fence
      ensures Valid() && journal.failed == r.Unavailable? && Progress(old(M()), old(W()), M(), W(), r.Done?)
      ensures old(Exposed(M(), W())) && HonestReply(reply, old(W())) ==> Safe(M(), W(), r.Done?)
      ensures r.Done? ==> Inv(M(), W())
      ensures r == Done(false) ==> !syncState.SYNCED?
      ensures r.Done? ==> (r.value <==> Reconciles(reply, old(journal.view), clock.now))
      ensures r == Done(true) ==>
                reply.Got? && reply.snap.stable && syncState.SYNCED? && Restores(reply, M())
                && journal.view.orders.open == RefsOf(reply.snap.openOrders)
      ensures old(Exposed(M(), W())) && UndisturbedReply(reply, old(W())) && r.Done? ==> r.value
    {
      hide Valid, Inv, Progress, Safe, HonestReply, Exposed, RefsOf, Outcome, QuietStep, Stopped,
           Explained, AdoptAll, Restores;
      ghost var m, w := M(), W();
      var s := BeginResync();
      ghost var n, x := M(), W();
      OutcomeParts(m, w, n, x, s.Done?);
      if s.Unavailable? {
        return Unavailable;
      }
      if reply.SnapshotRaised? || !reply.snap.stable {
        var f := FailResync();
        OutcomeTrans(m, w, n, x, M(), W(), f.Done?);
        OutcomeParts(m, w, M(), W(), f.Done?);
        return if f.Done? then Done(false) else Unavailable;
      }
      QuietFrame(reply, w, n, x);
      QuietFacts(w, x);
      r := Explain(reply);
      ProgressTrans(m, w, n, x, M(), W(), r.Done?);
    }

    /** Exact attribution only: an order or fill nobody here sent stops everything. */
    method Explain(reply: SnapshotReply) returns (r: Io<bool>)
      requires Valid() && !journal.failed && Inv(M(), W()) && syncState.SYNCING? && reply.Got? && reply.snap.stable
      modifies `live, `position, `workingSigned, `attempt, `sentAt, `orderState, `syncState, `flattenReason, `bookedExecs,
               `feesPending, `operatingMode, `fenceWriteFailed, journal, evidence, fence
      ensures Valid() && journal.failed == r.Unavailable? && Progress(old(M()), old(W()), M(), W(), r.Done?)
      ensures ExposureKnown(old(W())) && HonestReply(reply, old(W())) ==> Safe(M(), W(), r.Done?)
      ensures r.Done? ==> Inv(M(), W())
      ensures r == Done(false) ==> operatingMode.HALTED? && !syncState.SYNCED? && StoppedOrReported()
      ensures r.Done? ==> (r.value <==> Reconciles(reply, old(journal.view), clock.now))
      ensures r == Done(true) ==>
                && syncState.SYNCED? && Restores(reply, M())
                && journal.view.orders.open == RefsOf(reply.snap.openOrders)
      ensures ExposureKnown(old(W())) && UndisturbedReply(reply, old(W())) && r.Done? ==> r.value
    {
      hide Inv, Progress, Safe, HonestReply, RefsOf, Outcome, Stopped, StopHeld, Explained, ExposureKnown, UndisturbedReply,
           Lasting, EvidenceHolds, Fold, Restores, AdoptAll;
      ghost var m, w := M(), W();
      ValidIsDurable();
      OpenAreIntents(w);
      InvFacts(m, w);
      var intents, acked := IntentsByRef(journal.events, risk.config);
      var openIntents := OpenIntentsByRef(journal.events, risk.config);
      assert openIntents.Keys == journal.view.orders.open;
      var external := ExternalFacts(reply.snap, openIntents, intents);
      if external {
        if ExposureKnown(w) && UndisturbedReply(reply, w) {
          UndisturbedIsExplained(reply, w, bookedExecs);
        }
        r := Disown();
        return;
      }
      r := Resynchronise(reply, openIntents, acked);
    }

    /** Something at the broker is not ours. */
    method Disown() returns (r: Io<bool>)
      requires Valid() && !journal.failed && Inv(M(), W()) && !syncState.SYNCED?
      modifies `syncState, `operatingMode, `fenceWriteFailed, journal, evidence, fence
      ensures Valid() && journal.failed == r.Unavailable? && Progress(old(M()), old(W()), M(), W(), r.Done?)
      ensures ExposureKnown(old(W())) ==> Safe(M(), W(), r.Done?)
      ensures r.Done? ==> r == Done(false) && Inv(M(), W())
      ensures r.Done? ==> operatingMode.HALTED? && !syncState.SYNCED? && StoppedOrReported()
    {
      hide Valid, Inv, Progress, Safe, Outcome, Stopped, ExposureKnown;
      ghost var m, w := M(), W();
      var stop := RefuseAndStop(true);
      OutcomeParts(m, w, M(), W(), stop.Done?);
      r := if stop.Done? then Done(false) else Unavailable;
    }

    // ---- broker callbacks: all fail-closed --------------------------------

    /** A callback about an order this log never intended stops everything. */
    method KnownBrokerIntent(ref: Ref) returns (r: Io<bool>)
      requires Valid() && !journal.failed && Inv(M(), W())
      modifies `syncState, `operatingMode, `fenceWriteFailed, journal, evidence, fence
      ensures Valid() && journal.failed == r.Unavailable? && Outcome(old(M()), old(W()), M(), W(), r.Done?)
      ensures r.Done? ==> Inv(M(), W()) && (r.value <==> ref in old(journal.view).orders.intents)
      ensures r == Done(true) ==> M() == old(M()) && W() == old(W())
      ensures r == Done(false) ==> operatingMode.HALTED? && !syncState.SYNCED? && StoppedOrReported()
    {
      hide Durable, Inv, Outcome, Stopped, Fold;
      ghost var m, w := M(), W();
      OutcomeRefl(m, w);
      var intents, _ := IntentsByRef(journal.events, risk.config);
      if ref in intents {
        return Done(true);
      }
      var s := RefuseFact();
      return if s.Done? then Done(false) else Unavailable;
    }

    /** Record the unexplained fact, trust nothing, and stop. */
    method RefuseFact() returns (r: Io<()>)
      requires Valid() && !journal.failed && Inv(M(), W())
      modifies `syncState, `operatingMode, `fenceWriteFailed, journal, evidence, fence
      ensures Valid() && journal.failed == r.Unavailable? && Outcome(old(M()), old(W()), M(), W(), r.Done?)
      ensures r.Done? ==> Inv(M(), W()) && operatingMode.HALTED? && !syncState.SYNCED? && StoppedOrReported()
    {
      r := Quarantine(Some(ExternalOrderDetected), None, true);
    }

    ghost predicate IsLive(ref: Ref)
      reads `live
    {
      live.Some? && live.value.ref == ref
    }

    /** Log a report about the live order and move its state. */
    method Report(e: Event, next: OrderState) returns (r: Io<()>)
      requires Valid() && !journal.failed && Inv(M(), W())
      requires (e.BrokerAckReceived? && next.PENDING_ACK?) || (e.OrderWorking? && next.WORKING?)
      requires live.Some? && live.value.ref == e.ref
      modifies `orderState, `syncState, journal
      ensures Valid() && journal.failed == r.Unavailable? && Outcome(old(M()), old(W()), M(), W(), r.Done?)
      ensures r.Done? ==> Inv(M(), W()) && syncState == old(syncState)
      ensures r.Done? ==> orderState == if old(orderState).PENDING_ACK? || old(orderState).SUBMISSION_UNCERTAIN? then next
                                        else old(orderState)
      ensures r.Done? ==> journal.view.orders == ApplyOrders(old(journal.view).orders, e)
    {
      hide Valid, Inv, Outcome, OrderStep, QuietStep, GateLink, ApplyOrders;
      ghost var m, w := M(), W();
      InvFacts(m, w);
      var s := CommitOrder(e);
      r := if s.Done? then Done(()) else Unavailable;
      if r.Done? && (orderState.PENDING_ACK? || orderState.SUBMISSION_UNCERTAIN?) {
        ghost var x := W();
        r := SetOrderState(next);
        OrderThenQuiet(w, x, W(), e);
      }
      ReportOutcome(m, w, M(), W(), e, r.Done?);
    }

    method OnAck(ref: Ref) returns (r: Io<()>)
      requires Valid() && !journal.failed && Inv(M(), W())
      modifies this, journal, evidence, fence
      ensures Valid() && journal.failed == r.Unavailable? && Outcome(old(M()), old(W()), M(), W(), r.Done?)
      ensures r.Done? ==> Inv(M(), W())
      ensures r.Done? && ref !in old(journal.view).orders.intents ==>
                operatingMode.HALTED? && !syncState.SYNCED? && StoppedOrReported()
      ensures r.Done? && ref in old(journal.view).orders.intents && !old(IsLive(ref)) ==> M() == old(M()) && W() == old(W())
      ensures r.Done? && ref in old(journal.view).orders.intents && old(IsLive(ref)) ==>
                && ref in journal.view.orders.acked
                && journal.view.orders == ApplyOrders(old(journal.view).orders, BrokerAckReceived(ref))
                && orderState == (if old(orderState).SUBMISSION_UNCERTAIN? then PENDING_ACK else old(orderState))
    {
      hide Valid, Inv, Outcome, ApplyOrders, Stopped;
      ghost var m, w := M(), W();
      var known := KnownBrokerIntent(ref);
      if known.Unavailable? {
        return Unavailable;
      }
      if !known.value || live.None? || live.value.ref != ref {
        return Done(());
      }
      ReportMarks(w.view.orders, ref);
      r := Report(BrokerAckReceived(ref), PENDING_ACK);
    }

    /** One order callback never restores SYNCED; only reconciliation does. */
    method OnWorking(ref: Ref) returns (r: Io<()>)
      requires Valid() && !journal.failed && Inv(M(), W())
      modifies this, journal, evidence, fence, broker
      ensures Valid() && journal.failed == r.Unavailable? && Outcome(old(M()), old(W()), M(), W(), r.Done?)
      ensures r.Done? ==> Inv(M(), W()) && (syncState.SYNCED? ==> old(syncState).SYNCED?)
      ensures broker.placeCalls == old(broker.placeCalls)
      ensures r.Done? && ref !in old(journal.view).orders.intents ==>
                operatingMode.HALTED? && !syncState.SYNCED? && StoppedOrReported()
      ensures r.Done? && ref in old(journal.view).orders.intents && !old(IsLive(ref)) ==> M() == old(M()) && W() == old(W())
      ensures r.Done? && ref in old(journal.view).orders.intents && old(IsLive(ref)) ==>
                && ref in journal.view.orders.working
                && !orderState.PENDING_ACK? && !orderState.SUBMISSION_UNCERTAIN?
      ensures r.Done? && ref in old(journal.view).orders.intents && old(IsLive(ref)) && old(orderState).PENDING_ACK?
              && old(syncState).SYNCED? ==>
                var m := old(M()).(os := WORKING);
                if desired.Some? && old(live).value.target != desired.value.quantity && WriteGate(m, true).None?
                then ref in journal.view.orders.cancelling && AskedOrDistrusted(m, old(W()), M(), W())
                else M() == m && NothingSent(old(W()), W())
    {
      hide Valid, Inv, Outcome, ApplyOrders, Stopped;
      ghost var m, w := M(), W();
      var known := KnownBrokerIntent(ref);
      if known.Unavailable? {
        return Unavailable;
      }
      if !known.value || live.None? || live.value.ref != ref {
        return Done(());
      }
      r := TakeWorking(ref);
    }

    /** The live order works; a target that changed meanwhile cancels it. */
    method TakeWorking(ref: Ref) returns (r: Io<()>)
      requires Valid() && !journal.failed && Inv(M(), W()) && IsLive(ref)
      modifies this, journal, evidence, fence, broker
      ensures Valid() && journal.failed == r.Unavailable? && Outcome(old(M()), old(W()), M(), W(), r.Done?)
      ensures r.Done? ==> Inv(M(), W()) && (syncState.SYNCED? ==> old(syncState).SYNCED?)
      ensures broker.placeCalls == old(broker.placeCalls)
      ensures r.Done? ==>
                ref in journal.view.orders.working && !orderState.PENDING_ACK? && !orderState.SUBMISSION_UNCERTAIN?
      ensures r.Done? && old(orderState).PENDING_ACK? && old(syncState).SYNCED? ==>
                var m := old(M()).(os := WORKING);
                if desired.Some? && old(live).value.target != desired.value.quantity && WriteGate(m, true).None?
                then ref in journal.view.orders.cancelling && AskedOrDistrusted(m, old(W()), M(), W())
                else M() == m && NothingSent(old(W()), W())
    {
      hide Valid, Inv, Outcome, ApplyOrders, WriteGate;
      ghost var m, w := M(), W();
      InvFacts(m, w);
      ReportMarks(w.view.orders, ref);
      var pending := orderState.PENDING_ACK? || orderState.SUBMISSION_UNCERTAIN?;
      r := Report(OrderWorking(ref), WORKING);
      if r.Done? && pending && syncState.SYNCED? {
        ghost var n, x := M(), W();
        var s := MaybeCancelForNewTarget();
        OutcomeTrans(m, w, n, x, M(), W(), s.Done?);
        r := if s.Done? then Done(()) else Unavailable;
      }
    }

    method OnFee(exec: ExecId) returns (r: Io<()>)
      requires Valid() && !journal.failed && Inv(M(), W())
      modifies this, journal, evidence, fence
      ensures Valid() && journal.failed == r.Unavailable? && Outcome(old(M()), old(W()), M(), W(), r.Done?)
      ensures r.Done? ==> Inv(M(), W())
      ensures exec in old(bookedExecs) ==> M() == old(M())
      ensures r.Done? && exec in old(bookedExecs) ==>
                journal.events == old(journal.events) + [Record(clock.now, FeeReceived(exec))]
      ensures r.Done? && exec !in old(bookedExecs) ==>
                operatingMode.HALTED? && !syncState.SYNCED? && StoppedOrReported()
    {
      hide Valid, Inv, Outcome, QuietStep, Stopped;
      ghost var m, w := M(), W();
      if exec !in bookedExecs {
        r := RefuseFact();
        return;
      }
      feesPending := feesPending - {exec};
      r := Silently(FeeReceived(exec));
      StillOutcome(m, w, W(), r.Done?);
    }

    /** An order finished: give the latest target its turn. */
    method AfterTerminal() returns (r: Io<()>)
      requires Valid() && !journal.failed && Inv(M(), W())
      modifies `desired, `deferred, `attempt, `live, `workingSigned, `orderState, `syncState, `sentAt, `cancelAt,
               `cancelReason, `fatal, `linkState, `operatingMode, `violations, `journalFailure, `fenceWriteFailed,
               `flattenReason, journal, risk, evidence, fence, broker, ids
      ensures Valid() && journal.failed == r.Unavailable? && Outcome(old(M()), old(W()), M(), W(), r.Done?)
      ensures r.Done? ==> Inv(M(), W()) && Reevaluated()
      ensures old(orderState).IDLE? ==> broker.cancelCalls == old(broker.cancelCalls)
    {
      hide Valid, Inv, Outcome, QuietStep, Acted, Noted, Decide;
      ghost var m, w := M(), W();
      r := TakeTurn();
      ghost var n, q, x := M(), P(), W();
      if r.Done? {
        var flat := MaybeCompleteFlatten();
        QuietFacts(x, W());
        OutcomeTrans(m, w, n, x, M(), W(), flat.Done?);
        r := if flat.Done? then Done(()) else Unavailable;
        ghost var p := old(P());
        if p.desired.None? || !p.desired.value.IsExpired(clock.now) {
          ActedThenNotes(Decide(m, p, clock.now), m, p, w, n, q, x, W());
        }
      }
    }

    /** The decision point had its turn, unless the target had expired; and a flatten
        that is done is closed. */
    twostate predicate Reevaluated()
      reads this, journal, risk, evidence, fence, broker, ids, clock
    {
      && TurnTaken(P().(flattenReason := old(flattenReason)))
      && flattenReason == if position == 0 && workingSigned == 0 && orderState.IDLE? then None else old(flattenReason)
    }

    twostate predicate TurnTaken(new q: Plan)
      reads this, journal, risk, evidence, fence, broker, ids, clock
    {
      if old(desired).Some? && old(desired).value.IsExpired(clock.now)
      then
        && M() == old(M()) && NothingSent(old(W()), W()) && q == old(P()).(desired := None)
        && LoggedFirst([DecisionMissed(old(desired).value.decision, EXPIRED)])
      else Acted(Decide(old(M()), old(P()), clock.now), old(M()), old(P()), old(W()), M(), q, W())
    }

    method TakeTurn() returns (r: Io<()>)
      requires Valid() && !journal.failed && Inv(M(), W())
      modifies `desired, `deferred, `attempt, `live, `workingSigned, `orderState, `syncState, `sentAt, `cancelAt,
               `cancelReason, `fatal, `linkState, `operatingMode, `violations, `journalFailure, `fenceWriteFailed,
               journal, risk, evidence, fence, broker, ids
      ensures Valid() && journal.failed == r.Unavailable? && Outcome(old(M()), old(W()), M(), W(), r.Done?)
      ensures r.Done? ==> Inv(M(), W()) && TurnTaken(P())
      ensures old(orderState).IDLE? ==> broker.cancelCalls == old(broker.cancelCalls)
    {
      hide Valid, Inv, Outcome, QuietStep, Noted;
      ghost var m, w := M(), W();
      OutcomeRefl(m, w);
      r := Done(());
      if desired.Some? {
        if desired.value.IsExpired(clock.now) {
          r := Miss(desired.value, EXPIRED);
          StillOutcome(m, w, W(), r.Done?);
          if r.Done? {
            desired := None;
          }
        } else {
          var s := Evaluate();
          r := if s.Done? then Done(()) else Unavailable;
        }
      }
    }

    /** A fill. The live order's fills move belief and ledger together; a late fill
        of an order already gone is booked, and trust waits for a snapshot. */
    method OnExecution(e: Execution) returns (r: Io<()>)
      requires Valid() && !journal.failed && Inv(M(), W())
      modifies this, journal, risk, evidence, fence, broker, ids
      ensures Valid() && journal.failed == r.Unavailable? && Progress(old(M()), old(W()), M(), W(), r.Done?)
      ensures old(Exposed(M(), W())) && HonestExecution(e, old(W())) ==> Safe(M(), W(), r.Done?)
      ensures r.Done? ==> Inv(M(), W())
      ensures r.Done? && e.ref !in old(journal.view).orders.intents ==>
                operatingMode.HALTED? && !syncState.SYNCED? && StoppedOrReported()
      ensures r.Done? && e.ref in old(journal.view).orders.intents ==>
                if e.id in old(bookedExecs) then M() == old(M()) && NothingSent(old(W()), W())
                else ExecutionTaken(e)
    {
      hide Valid, Inv, Progress, Outcome, Safe, Exposed, HonestExecution, ApplyLedger, FilledOf, Stopped;
      ghost var m, w := M(), W();
      var known := KnownBrokerIntent(e.ref);
      OutcomeParts(m, w, M(), W(), known.Done?);
      if known.Unavailable? {
        return Unavailable;
      }
      if !known.value {
        return Done(());
      }
      r := TakeExecution(e);
    }

    method TakeExecution(e: Execution) returns (r: Io<()>)
      requires Valid() && !journal.failed && Inv(M(), W())
      modifies this, journal, risk, evidence, fence, broker, ids
      ensures Valid() && journal.failed == r.Unavailable? && Progress(old(M()), old(W()), M(), W(), r.Done?)
      ensures old(Exposed(M(), W())) && HonestExecution(e, old(W())) ==> Safe(M(), W(), r.Done?)
      ensures r.Done? ==> Inv(M(), W())
      ensures r.Done? ==>
                if e.id in old(bookedExecs) then M() == old(M()) && NothingSent(old(W()), W())
                else ExecutionTaken(e)
    {
      hide Valid, Inv, Progress, Outcome, Safe, Exposed, HonestExecution, ApplyLedger, FilledOf, Stopped;
      ghost var m, w := M(), W();
      InvFacts(m, w);
      var mine := live.Some? && live.value.ref == e.ref;
      var booked := BookFill(e);
      ghost var n, x := M(), W();
      if booked.Unavailable? || !booked.value {
        return if booked.Done? then Done(()) else Unavailable;
      }
      ExecutionIsBooked(w.view.ledger, clock.now, e);
      if mine {
        r := SettleFill(e);
        ThenOutcome(m, w, n, x, M(), W(), r.Done?);
        return;
      }
      return Done(());
    }

    /** A new execution is in the ledger and in the position; what it leaves of the
        live order is settled, and an execution of any other order ends trust. */
    twostate predicate ExecutionTaken(e: Execution)
      reads this, journal, risk, evidence, fence, broker, ids, clock
    {
      && e.id in journal.view.ledger.booked && journal.view.ledger.booked[e.id] == e
      && position == old(position) + e.Signed()
      && if old(IsLive(e.ref)) then FillSettled(ApplyLedger(old(journal.view).ledger, clock.now, ExecutionReceived(e)))
         else orderState.TERMINAL_UNRECONCILED? && !syncState.SYNCED? && NothingSent(old(W()), W())
    }

    /** The live order after a fill that is in the ledger, and stays there. */
    method SettleFill(e: Execution) returns (r: Io<()>)
      requires Valid() && !journal.failed && Inv(M(), W()) && live.Some?
      requires e.id in journal.view.ledger.booked && journal.view.ledger.booked[e.id] == e
      modifies `desired, `deferred, `attempt, `live, `workingSigned, `orderState, `syncState, `sentAt, `cancelAt,
               `cancelReason, `fatal, `linkState, `operatingMode, `violations, `journalFailure, `fenceWriteFailed,
               `flattenReason, journal, risk, evidence, fence, broker, ids
      ensures Valid() && journal.failed == r.Unavailable? && Outcome(old(M()), old(W()), M(), W(), r.Done?)
      ensures r.Done? ==> Inv(M(), W()) && FillSettled(old(journal.view).ledger)
      ensures r.Done? ==> e.id in journal.view.ledger.booked && journal.view.ledger.booked[e.id] == e
    {
      hide Valid, Durable, Lasting, Inv, Outcome, Later, FillSettled;
      ghost var n, x := M(), W();
      ValidIsDurable();
      r := AfterFill();
      ValidIsDurable();
      OutcomeParts(n, x, M(), W(), r.Done?);
      ProgressFacts(n, x, M(), W(), r.Done?);
      StaysBooked(x.view, journal.view, e);
    }

    /** Book a fill and take its position; a fill of no live order ends trust. */
    method BookFill(e: Execution) returns (r: Io<bool>)
      requires Valid() && !journal.failed && Inv(M(), W())
      modifies `bookedExecs, `feesPending, `position, `orderState, `syncState, journal
      ensures Valid() && journal.failed == r.Unavailable? && Progress(old(M()), old(W()), M(), W(), r.Done?)
      ensures old(Exposed(M(), W())) && HonestExecution(e, old(W())) ==> Safe(M(), W(), r.Done?)
      ensures r.Done? ==> Inv(M(), W()) && (r.value <==> e.id !in old(bookedExecs))
      ensures r.Done? && !r.value ==> M() == old(M()) && journal.view.ledger == old(journal.view).ledger
      ensures journal.view.orders == old(journal.view).orders
      ensures r.Done? && r.value ==>
                && live == old(live)
                && position == old(position) + e.Signed()
                && journal.view.ledger == ApplyLedger(old(journal.view).ledger, clock.now, ExecutionReceived(e))
                && (if IsLive(e.ref) then orderState == old(orderState) && syncState == old(syncState)
                    else orderState.TERMINAL_UNRECONCILED? && !syncState.SYNCED?)
    {
      hide Valid, Inv, Progress, Safe, Exposed, HonestExecution, LedgerStep, ExecutionStep, QuietStep, GateLink, ApplyLedger;
      ghost var m, w := M(), W();
      InvFacts(m, w);
      r := BookExecution(e);
      ghost var x := W();
      LedgerIsExecution(w, x, e);
      if r.Done? && r.value {
        var s := TakePosition(e);
        LedgerThenAny(w, x, W(), e);
        r := if s.Done? then r else Unavailable;
      }
      ExecutionKeepsOrders(w, W(), e);
      ExecutionProgress(m, w, M(), W(), e, r.Done?);
      if Exposed(m, w) && HonestExecution(e, w) {
        ExecutionSafe(m, w, M(), W(), e, r.Done?);
      }
      if r.Done? {
        InvFacts(M(), W());
      }
    }

    /** The position moves; an execution of no live order ends trust. */
    method TakePosition(e: Execution) returns (s: Io<()>)
      requires Valid() && !journal.failed
      modifies `position, `orderState, `syncState, journal
      ensures Valid() && QuietStep(old(W()), W()) && journal.failed == s.Unavailable?
      ensures M() == old(M()).(position := old(position) + e.Signed(), os := orderState, sync := syncState)
      ensures if IsLive(e.ref) then orderState == old(orderState) && syncState == old(syncState) && W() == old(W())
              else s.Done? ==> orderState.TERMINAL_UNRECONCILED?
                               && (syncState.SYNCED? ==> old(orderState).TERMINAL_UNRECONCILED? && old(syncState).SYNCED?)
      ensures syncState == old(syncState) || syncState.UNVERIFIED?
      ensures s.Done? && old(Linked()) ==> Linked()
    {
      hide Valid, W, QuietStep, GateLink;
      ghost var m := M();
      QuietRefl(W());
      position := position + e.Signed();
      assert M() == m.(position := position);
      s := Done(());
      if live.None? || live.value.ref != e.ref {
        s := SetOrderState(TERMINAL_UNRECONCILED);
      }
    }

    /** What the log says was filled of an order. */
    method Filled(ref: Ref) returns (filled: int)
      requires Valid()
      ensures filled == FilledOf(journal.view.ledger, ref)
    {
      filled := FilledFor(journal.events, ref, risk.config);
    }

    /** A part of the live order is working; or, fully filled, it is over, and trusted
        only if no cancel was racing it. */
    twostate predicate FillSettled(new lg: Ledger)
      requires old(live).Some?
      reads this, journal, risk, evidence, fence, broker, ids, clock
    {
      var i := old(live).value;
      var remaining := i.quantity - FilledOf(lg, i.ref);
      if remaining > 0 then
        && live == old(live) && orderState == old(orderState)
        && workingSigned == (if i.side.BUY? then remaining else -remaining)
      else
        && i.ref !in journal.view.orders.open
        && (old(orderState).PENDING_CANCEL? ==>
              live.None? && orderState.TERMINAL_UNRECONCILED? && !syncState.SYNCED? && NothingSent(old(W()), W()))
    }

    /** What is left of the live order after a fill. */
    method AfterFill() returns (r: Io<()>)
      requires Valid() && !journal.failed && Inv(M(), W()) && live.Some?
      modifies `desired, `deferred, `attempt, `live, `workingSigned, `orderState, `syncState, `sentAt, `cancelAt,
               `cancelReason, `fatal, `linkState, `operatingMode, `violations, `journalFailure, `fenceWriteFailed,
               `flattenReason, journal, risk, evidence, fence, broker, ids
      ensures Valid() && journal.failed == r.Unavailable? && Outcome(old(M()), old(W()), M(), W(), r.Done?)
      ensures r.Done? ==> Inv(M(), W()) && FillSettled(old(journal.view).ledger)
    {
      hide Valid, Inv, Outcome, FilledOf;
      ghost var m, w := M(), W();
      var filled := Filled(live.value.ref);
      var remaining := live.value.quantity - filled;
      workingSigned := if remaining <= 0 then 0 else if live.value.side.BUY? then remaining else -remaining;
      WorkingIsFree(m, w, workingSigned);
      r := Done(());
      if remaining <= 0 {
        ghost var n := M();
        r := EndFilled();
        OutcomeTrans(m, w, n, w, M(), W(), r.Done?);
      }
    }

    /** A full fill ends the live order; one that raced our cancel ends it without
        trust: a reversal must not be sized from a position we are guessing at. */
    method EndFilled() returns (r: Io<()>)
      requires Valid() && !journal.failed && Inv(M(), W()) && live.Some?
      requires FilledOf(journal.view.ledger, live.value.ref) >= live.value.quantity
      modifies `desired, `deferred, `attempt, `live, `workingSigned, `orderState, `syncState, `sentAt, `cancelAt,
               `cancelReason, `fatal, `linkState, `operatingMode, `violations, `journalFailure, `fenceWriteFailed,
               `flattenReason, journal, risk, evidence, fence, broker, ids
      ensures Valid() && journal.failed == r.Unavailable? && Outcome(old(M()), old(W()), M(), W(), r.Done?)
      ensures r.Done? ==> Inv(M(), W()) && LoggedFirst([OrderFilled(old(live).value.ref)])
      ensures r.Done? ==> old(live).value.ref !in journal.view.orders.open
      ensures r.Done? && old(orderState).PENDING_CANCEL? ==>
                live.None? && orderState.TERMINAL_UNRECONCILED? && !syncState.SYNCED? && NothingSent(old(W()), W())
    {
      hide Valid, Lasting, Inv, Outcome, Durable, Later, Reevaluated;
      ghost var m, w, i := M(), W(), live.value;
      var racing := orderState.PENDING_CANCEL?;
      r := CloseFilled(racing);
      ghost var o, y := M(), W();
      if r.Done? && !racing {
        attempt := 0;
        assert M() == o && W() == y;
        ValidIsDurable();
        r := AfterTerminal();
        ValidIsDurable();
        OutcomeParts(o, y, M(), W(), r.Done?);
        ProgressFacts(o, y, M(), W(), r.Done?);
        StaysClosed(y.view, journal.view, i.ref);
        OutcomeTrans(m, w, o, y, M(), W(), r.Done?);
      }
    }

    method CloseFilled(racing: bool) returns (r: Io<()>)
      requires Valid() && !journal.failed && Inv(M(), W()) && live.Some?
      requires FilledOf(journal.view.ledger, live.value.ref) >= live.value.quantity
      modifies `live, `workingSigned, `orderState, `syncState, journal
      ensures Valid() && journal.failed == r.Unavailable? && Outcome(old(M()), old(W()), M(), W(), r.Done?)
      ensures r.Done? ==> Inv(M(), W()) && LoggedFirst([OrderFilled(old(live).value.ref)])
      ensures r.Done? ==>
                && old(live).value.ref !in journal.view.orders.open && old(live).value.ref in journal.view.orders.attempted
                && live.None? && orderState == (if racing then TERMINAL_UNRECONCILED else IDLE)
                && (racing ==> !syncState.SYNCED?)
    {
      hide Valid, Durable, Lasting, Inv, Outcome, Progress, Safe, Exposed, HonestCancel, AllBooked, FilledOf,
           ApplyOrders, LawfulEvent;
      ghost var m, w, i := M(), W(), live.value;
      InvFacts(m, w);
      ValidIsDurable();
      if Exposed(m, w) {
        FullFillFacts(m, w, i);
      }
      FilledIsLawful(w, i.ref);
      EndIsFinal(w.view.orders, i.ref);
      r := Resolve(OrderFilled(live.value.ref), None, if racing then TERMINAL_UNRECONCILED else IDLE);
      PartsOutcome(m, w, M(), W(), r.Done?);
      if r.Done? {
        InvFacts(M(), W());
      }
    }

    /** A confirmed cancel ends the live order but sizes nothing: the broker may have
        filled in the race, so a fresh snapshot comes first. Only a reprice climbs a
        rung of the ladder. */
    method OnCancelled(ref: Ref, reply: SnapshotReply) returns (r: Io<()>)
      requires Valid() && !journal.failed && Inv(M(), W())
      modifies this, journal, risk, evidence, fence, broker, ids
      ensures Valid() && journal.failed == r.Unavailable? && Progress(old(M()), old(W()), M(), W(), r.Done?)
      ensures old(Exposed(M(), W())) && HonestCancel(ref, old(W())) && HonestReply(reply, old(W())) ==> Safe(M(), W(), r.Done?)
      ensures r.Done? ==> Inv(M(), W())
      ensures r.Done? && ref !in old(journal.view).orders.intents ==>
                operatingMode.HALTED? && !syncState.SYNCED? && StoppedOrReported()
      ensures r.Done? && ref in old(journal.view).orders.intents && !old(IsLive(ref)) ==> M() == old(M()) && W() == old(W())
      ensures r.Done? && ref in old(journal.view).orders.intents && old(IsLive(ref)) ==>
                ref !in journal.view.orders.open && LoggedFirst(old(CancelEvents(live.value)))
      ensures broker.placeCalls != old(broker.placeCalls) || broker.cancelCalls != old(broker.cancelCalls) ==>
                old(IsLive(ref)) && reply.Got? && reply.snap.stable
    {
      hide Valid, Durable, Lasting, Inv, Progress, Outcome, Safe, HonestCancel, HonestReply, UndisturbedReply, RefsOf,
           Stopped, Later, ApplyOrders, Explained, FilledOf;
      ghost var m, w := M(), W();
      var known := KnownBrokerIntent(ref);
      OutcomeParts(m, w, M(), W(), known.Done?);
      if known.Unavailable? {
        return Unavailable;
      }
      if !known.value || live.None? || live.value.ref != ref {
        return Done(());
      }
      r := SettleCancel(ref, reply);
    }

    /** The order ends, then a fresh snapshot is taken before anything else is sized. */
    method SettleCancel(ref: Ref, reply: SnapshotReply) returns (r: Io<()>)
      requires Valid() && !journal.failed && Inv(M(), W()) && IsLive(ref)
      modifies this, journal, risk, evidence, fence, broker, ids
      ensures Valid() && journal.failed == r.Unavailable? && Progress(old(M()), old(W()), M(), W(), r.Done?)
      ensures old(Exposed(M(), W())) && HonestCancel(ref, old(W())) && HonestReply(reply, old(W())) ==> Safe(M(), W(), r.Done?)
      ensures r.Done? ==> Inv(M(), W())
      ensures r.Done? ==> ref !in journal.view.orders.open && LoggedFirst(old(CancelEvents(live.value)))
      ensures broker.placeCalls != old(broker.placeCalls) || broker.cancelCalls != old(broker.cancelCalls) ==>
                reply.Got? && reply.snap.stable
    {
      hide Valid, Durable, Lasting, Inv, Progress, Outcome, Safe, HonestCancel, HonestReply, UndisturbedReply, RefsOf,
           Stopped, Later, ApplyOrders, Explained, FilledOf;
      ghost var m, w := M(), W();
      ghost var ends, moves := CancelEvents(live.value), OrderStateNotes(orderState, TERMINAL_UNRECONCILED, syncState);
      r := EndCancelled();
      StampedTwice(w.log, clock.now, ends, moves);
      ghost var n, x := M(), W();
      if r.Done? {
        ForgetCancel();
        HonestFrame(reply, w, x);
        SafeIsExposed(n, x);
        ghost var o := M();
        ValidIsDurable();
        var s := Reconcile(reply, true);
        ValidIsDurable();
        ProgressFacts(o, x, M(), W(), s.Done?);
        StaysClosed(x.view, journal.view, ref);
        ProgressTrans(m, w, n, x, M(), W(), s.Done?);
        r := if s.Done? then Done(()) else Unavailable;
      }
    }

    /** Repricing is the only cancellation that consumes a rung of the ladder. */
    method ForgetCancel()
      modifies `attempt, `cancelAt, `cancelReason
      ensures attempt == if old(cancelReason) == Some(REPRICE_TIMEOUT) then old(attempt) + 1 else 0
      ensures cancelAt.None? && cancelReason.None?
      ensures M() == old(M()) && W() == old(W()) && (old(Valid()) ==> Valid())
    {
      hide Valid, W;
      attempt := if cancelReason == Some(REPRICE_TIMEOUT) then attempt + 1 else 0;
      cancelAt, cancelReason := None, None;
    }

    /** A cancel that leaves a partial fill after the target's end says so. */
    ghost function CancelEvents(i: OrderIntent): seq<Event>
      reads journal, clock
    {
      var filled := FilledOf(journal.view.ledger, i.ref);
      [OrderCancelled(i.ref)] + if 0 < filled < i.quantity && clock.now >= i.validUntil then [PartialExpired(i.ref)] else []
    }

    /** The live order was cancelled, perhaps after a partial fill. */
    method EndCancelled() returns (r: Io<()>)
      requires Valid() && !journal.failed && Inv(M(), W()) && live.Some?
      modifies `live, `workingSigned, `orderState, `syncState, journal
      ensures Valid() && journal.failed == r.Unavailable? && Progress(old(M()), old(W()), M(), W(), r.Done?)
      ensures old(Exposed(M(), W())) && HonestCancel(old(live).value.ref, old(W())) ==> Safe(M(), W(), r.Done?)
      ensures r.Done? ==> Inv(M(), W()) && live.None? && orderState.TERMINAL_UNRECONCILED?
      ensures r.Done? ==>
                && journal.view.orders == ApplyOrders(old(journal.view).orders, OrderCancelled(old(live).value.ref))
                && journal.view.orders.intents == old(journal.view).orders.intents
                && old(live).value.ref !in journal.view.orders.open && old(live).value.ref in journal.view.orders.attempted
                && journal.events == old(journal.events) + Stamped(clock.now,
                     old(CancelEvents(live.value) + OrderStateNotes(orderState, TERMINAL_UNRECONCILED, syncState)))
    {
      hide Valid, Durable, Lasting, Inv, Progress, Safe, Exposed, HonestCancel, FilledOf, LawfulEvent, AllBooked,
           ApplyOrders, Ends;
      ghost var w := W();
      InvFacts(M(), w);
      var ref := live.value.ref;
      EndIsLawful(w, ref);
      EndKeepsIntents(w.view.orders, ref);
      EndIsFinal(w.view.orders, ref);
      ValidIsDurable();
      var filled := Filled(ref);
      var partial := 0 < filled < live.value.quantity && clock.now >= live.value.validUntil;
      var note := if partial then Some(PartialExpired(ref)) else None;
      assert EndEvents(OrderCancelled(ref), note) == CancelEvents(live.value);
      hide CancelEvents, EndEvents, Stamped;
      r := Resolve(OrderCancelled(ref), note, TERMINAL_UNRECONCILED);
    }

    /** A refused cancel ends nothing: the order may still be working or may have
        filled. It is never retried; an order that stays live needs a human. */
    method OnCancelRejected(ref: Ref, reply: SnapshotReply) returns (r: Io<()>)
      requires Valid() && !journal.failed && Inv(M(), W())
      modifies this, journal, risk, evidence, fence, broker, ids
      ensures Valid() && journal.failed == r.Unavailable? && Progress(old(M()), old(W()), M(), W(), r.Done?)
      ensures old(Exposed(M(), W())) && HonestReply(reply, old(W())) ==> Safe(M(), W(), r.Done?)
      ensures r.Done? ==> Inv(M(), W())
      ensures r.Done? && ref !in old(journal.view).orders.intents ==>
                operatingMode.HALTED? && !syncState.SYNCED? && StoppedOrReported()
      ensures r.Done? && ref in old(journal.view).orders.intents && !old(IsLive(ref)) ==> M() == old(M()) && W() == old(W())
      ensures broker.cancelCalls == old(broker.cancelCalls)
      ensures r.Done? && ref in old(journal.view).orders.intents && old(IsLive(ref)) ==>
                && LoggedFirst([CancelRejected(ref)])
                && (operatingMode.HALTED? || !syncState.SYNCED? || ref !in journal.view.orders.open)
    {
      hide Valid, Inv, Progress, Outcome, Safe, HonestReply, UndisturbedReply, RefsOf, QuietStep, Exposed, Stopped;
      ghost var m, w := M(), W();
      var known := KnownBrokerIntent(ref);
      OutcomeParts(m, w, M(), W(), known.Done?);
      if known.Unavailable? {
        return Unavailable;
      }
      if !known.value || live.None? || live.value.ref != ref {
        return Done(());
      }
      r := RecheckCancel(ref, reply);
    }

    method RecheckCancel(ref: Ref, reply: SnapshotReply) returns (r: Io<()>)
      requires Valid() && !journal.failed && Inv(M(), W()) && IsLive(ref)
      modifies this, journal, risk, evidence, fence, broker, ids
      ensures Valid() && journal.failed == r.Unavailable? && Progress(old(M()), old(W()), M(), W(), r.Done?)
      ensures old(Exposed(M(), W())) && HonestReply(reply, old(W())) ==> Safe(M(), W(), r.Done?)
      ensures r.Done? ==> Inv(M(), W()) && LoggedFirst([CancelRejected(ref)])
      ensures broker.cancelCalls == old(broker.cancelCalls)
      ensures r.Done? ==> operatingMode.HALTED? || !syncState.SYNCED? || ref !in journal.view.orders.open
    {
      hide Valid, Inv, Progress, Outcome, Safe, HonestReply, UndisturbedReply, RefsOf, QuietStep, Exposed, Stopped;
      ghost var m, w := M(), W();
      LiveIsAttempted(m, w);
      ValidIsDurable();
      r := DistrustCancel(ref);
      ghost var n, x := M(), W();
      OutcomeParts(m, w, n, x, r.Done?);
      if r.Done? {
        QuietFrame(reply, w, n, x);
        QuietFacts(w, x);
        SafeIsExposed(n, x);
        r := ResolveCancel(ref, reply);
        ProgressTrans(m, w, n, x, M(), W(), r.Done?);
      }
    }

    /** Only a snapshot tells what a refused cancel left behind. */
    method ResolveCancel(ref: Ref, reply: SnapshotReply) returns (r: Io<()>)
      requires Valid() && !journal.failed && Inv(M(), W()) && ref in journal.view.orders.attempted
      modifies this, journal, risk, evidence, fence, broker, ids
      ensures Valid() && journal.failed == r.Unavailable? && Progress(old(M()), old(W()), M(), W(), r.Done?)
      ensures old(Exposed(M(), W())) && HonestReply(reply, old(W())) ==> Safe(M(), W(), r.Done?)
      ensures r.Done? ==> Inv(M(), W())
      ensures broker.cancelCalls == old(broker.cancelCalls) && old(journal.events) <= journal.events
      ensures r.Done? ==> operatingMode.HALTED? || !syncState.SYNCED? || ref !in journal.view.orders.open
    {
      hide Valid, Durable, Lasting, Inv, Progress, Outcome, Safe, HonestReply, UndisturbedReply, RefsOf, QuietStep,
           Exposed, Stopped, Later, Reevaluated, Reconciles;
      ghost var m, w := M(), W();
      ValidIsDurable();
      RefsAreReported(if reply.Got? then reply.snap.openOrders else []);
      var s := Reconcile(reply, false);
      ghost var o, y := M(), W();
      ValidIsDurable();
      ProgressFacts(m, w, o, y, s.Done?);
      if s.Unavailable? {
        return Unavailable;
      }
      if !s.value {
        return Done(());
      }
      InvFacts(o, y);
      if orderState.IDLE? {
        r := AfterTerminal();
        ValidIsDurable();
        OutcomeParts(o, y, M(), W(), r.Done?);
        ProgressFacts(o, y, M(), W(), r.Done?);
        StaysAttempted(w.view, y.view, ref);
        StaysClosed(y.view, journal.view, ref);
      } else {
        r := StopOn();
        OutcomeFacts(o, y, M(), W(), r.Done?);
      }
      ThenOutcome(m, w, o, y, M(), W(), r.Done?);
    }

    method DistrustCancel(ref: Ref) returns (r: Io<()>)
      requires Valid() && !journal.failed && Inv(M(), W()) && live.Some?
      modifies `orderState, `syncState, `cancelAt, `cancelReason, journal
      ensures Valid() && journal.failed == r.Unavailable? && Outcome(old(M()), old(W()), M(), W(), r.Done?)
      ensures QuietStep(old(W()), W()) && (r.Done? ==> Inv(M(), W()) && LoggedFirst([CancelRejected(ref)]))
    {
      hide Valid, Inv, Outcome, QuietStep;
      ghost var m, w := M(), W();
      r := Silently(CancelRejected(ref));
      ghost var x := W();
      StillOutcome(m, w, x, r.Done?);
      if r.Done? {
        cancelAt, cancelReason := None, None;
        r := Distrust(TERMINAL_UNRECONCILED);
        OutcomeTrans(m, w, m, x, M(), W(), r.Done?);
        QuietFacts(x, W());
        QuietTrans(w, x, W());
      }
    }

    /** The broker rejected the order: nothing of it exists. */
    method OnRejected(ref: Ref) returns (r: Io<()>)
      requires Valid() && !journal.failed && Inv(M(), W())
      modifies this, journal, evidence, fence
      ensures Valid() && journal.failed == r.Unavailable? && Progress(old(M()), old(W()), M(), W(), r.Done?)
      ensures old(Exposed(M(), W())) && HonestRejection(ref, old(W())) ==> Safe(M(), W(), r.Done?)
      ensures r.Done? ==> Inv(M(), W())
      ensures r.Done? && ref !in old(journal.view).orders.intents ==>
                operatingMode.HALTED? && !syncState.SYNCED? && StoppedOrReported()
      ensures r.Done? && ref in old(journal.view).orders.intents && !old(IsLive(ref)) ==> M() == old(M()) && W() == old(W())
      ensures r.Done? && ref in old(journal.view).orders.intents && old(IsLive(ref)) ==>
                && live.None? && orderState.IDLE? && attempt == old(attempt) + 1 && desired.None?
                && ref !in journal.view.orders.open
                && journal.view.orders == ApplyOrders(old(journal.view).orders, OrderRejected(ref))
                && LoggedFirst([OrderRejected(ref)])
                && (old(desired).Some? ==>
                      journal.events[|journal.events| - 1].event
                      == DecisionMissed(old(desired).value.decision, BROKER_REJECTED))
    {
      hide Valid, Inv, Progress, Outcome, Safe, Exposed, HonestRejection, ApplyOrders, Stopped;
      ghost var m, w := M(), W();
      var known := KnownBrokerIntent(ref);
      OutcomeParts(m, w, M(), W(), known.Done?);
      if known.Unavailable? {
        return Unavailable;
      }
      if !known.value || live.None? || live.value.ref != ref {
        return Done(());
      }
      EndIsFinal(w.view.orders, ref);
      r := RejectLive();
    }

    method RejectLive() returns (r: Io<()>)
      requires Valid() && !journal.failed && Inv(M(), W()) && live.Some?
      modifies `live, `workingSigned, `orderState, `syncState, `attempt, `desired, `deferred, journal
      ensures Valid() && journal.failed == r.Unavailable? && Progress(old(M()), old(W()), M(), W(), r.Done?)
      ensures old(Exposed(M(), W())) && HonestRejection(old(live).value.ref, old(W())) ==> Safe(M(), W(), r.Done?)
      ensures r.Done? ==> Inv(M(), W())
      ensures r.Done? ==>
                && live.None? && orderState.IDLE? && attempt == old(attempt) + 1 && desired.None?
                && journal.view.orders == ApplyOrders(old(journal.view).orders, OrderRejected(old(live).value.ref))
                && LoggedFirst([OrderRejected(old(live).value.ref)])
                && (old(desired).Some? ==>
                      journal.events[|journal.events| - 1].event
                      == DecisionMissed(old(desired).value.decision, BROKER_REJECTED))
    {
      hide Valid, Inv, Progress, Outcome, Safe, Exposed, HonestRejection, ApplyOrders;
      ghost var m, w := M(), W();
      r := EndRejected();
      if r.Done? {
        ghost var n, x := M(), W();
        OutcomeRefl(n, x);
        if desired.Some? {
          r := Drop(BROKER_REJECTED);
        }
        ThenOutcome(m, w, n, x, M(), W(), r.Done?);
      }
    }

    method EndRejected() returns (r: Io<()>)
      requires Valid() && !journal.failed && Inv(M(), W()) && live.Some?
      modifies `live, `workingSigned, `orderState, `syncState, `attempt, journal
      ensures Valid() && journal.failed == r.Unavailable? && Progress(old(M()), old(W()), M(), W(), r.Done?)
      ensures old(Exposed(M(), W())) && HonestRejection(old(live).value.ref, old(W())) ==> Safe(M(), W(), r.Done?)
      ensures r.Done? ==> Inv(M(), W()) && live.None? && orderState.IDLE? && attempt == old(attempt) + 1
      ensures r.Done? ==>
                && LoggedFirst([OrderRejected(old(live).value.ref)])
                && journal.view.orders == ApplyOrders(old(journal.view).orders, OrderRejected(old(live).value.ref))
    {
      hide Valid, Inv, Progress, Safe, Exposed, HonestRejection, HonestCancel, AllBooked, LawfulEvent, ApplyOrders, Ends;
      ghost var m, w := M(), W();
      var ref := live.value.ref;
      InvFacts(m, w);
      EndIsLawful(w, ref);
      if HonestRejection(ref, w) {
        RejectionLeavesNothing(w, ref);
      }
      r := Resolve(OrderRejected(ref), None, IDLE);
      if r.Done? {
        attempt := attempt + 1;
      }
    }

    // ---- connection and market data ---------------------------------------

    /** Whatever happens to the link, the account must be reconciled again. */
    method LinkTo(link: LinkState) returns (r: Io<()>)
      requires Valid() && !journal.failed && Inv(M(), W())
      modifies `linkState, `syncState, journal
      ensures Valid() && journal.failed == r.Unavailable? && Outcome(old(M()), old(W()), M(), W(), r.Done?)
      ensures r.Done? ==> Inv(M(), W()) && linkState == link && syncState.UNVERIFIED?
    {
      hide Valid, Inv, Outcome, QuietStep, GateLink;
      ghost var m, w := M(), W();
      InvFacts(m, w);
      r := SetLink(link);
      if r.Done? {
        ghost var x := W();
        r := SetSync(UNVERIFIED);
        QuietTrans(w, x, W());
      }
      QuietOutcome(m, w, M(), W(), r.Done?);
    }

    method OnConnected(connectionEpoch: nat) returns (r: Io<()>)
      requires Valid() && !journal.failed && Inv(M(), W())
      modifies `epoch, `linkState, `syncState, journal
      ensures Valid() && journal.failed == r.Unavailable? && Outcome(old(M()), old(W()), M(), W(), r.Done?)
      ensures r.Done? ==> Inv(M(), W()) && epoch == connectionEpoch && linkState.CONNECTED? && syncState.UNVERIFIED?
    {
      hide Valid, Inv, Outcome;
      epoch := connectionEpoch;
      r := LinkTo(CONNECTED);
    }

    method OnDisconnected() returns (r: Io<()>)
      requires Valid() && !journal.failed && Inv(M(), W())
      modifies `linkState, `syncState, journal
      ensures Valid() && journal.failed == r.Unavailable? && Outcome(old(M()), old(W()), M(), W(), r.Done?)
      ensures r.Done? ==> Inv(M(), W()) && linkState.DISCONNECTED? && syncState.UNVERIFIED?
    {
      hide Valid, Inv, Outcome;
      r := LinkTo(DISCONNECTED);
    }

    method OnMarketDataLost() returns (r: Io<()>)
      requires Valid() && !journal.failed && Inv(M(), W())
      modifies `quote, `linkState, `syncState, journal
      ensures Valid() && journal.failed == r.Unavailable? && Outcome(old(M()), old(W()), M(), W(), r.Done?)
      ensures r.Done? ==> Inv(M(), W()) && quote.None? && linkState.DEGRADED? && syncState.UNVERIFIED?
    {
      hide Valid, Inv, Outcome;
      ghost var m, w := M(), W();
      quote := None;
      ghost var n := M();
      QuoteOutcome(m, w, n);
      r := LinkTo(DEGRADED);
      OutcomeTrans(m, w, n, w, M(), W(), r.Done?);
    }

    /** Called only after every required subscription is back. */
    method OnMarketDataRestored() returns (r: Io<()>)
      requires Valid() && !journal.failed && Inv(M(), W())
      modifies `linkState, `syncState, journal
      ensures Valid() && journal.failed == r.Unavailable? && Outcome(old(M()), old(W()), M(), W(), r.Done?)
      ensures r.Done? ==> Inv(M(), W()) && linkState.CONNECTED? && syncState.UNVERIFIED?
    {
      hide Valid, Inv, Outcome;
      r := LinkTo(CONNECTED);
    }

    /** One quote is not proof that all subscriptions are back. */
    method OnQuote(q: Quote)
      requires Valid() && !journal.failed && Inv(M(), W()) && q.Valid()
      modifies `quote
      ensures Valid() && Outcome(old(M()), old(W()), M(), W(), true) && Inv(M(), W())
      ensures quote == Some(q)
    {
      hide Valid, Inv, Outcome;
      ghost var m, w := M(), W();
      quote := Some(q);
      QuoteOutcome(m, w, M());
    }

    // ---- stops and restarts -----------------------------------------------

    /** An acknowledgement of the exact active HALT. It resumes nothing here: only
        the next process may come up without it. */
    method AcknowledgeHalt(operator: string, resolution: string) returns (r: Io<Option<nat>>)
      requires Valid() && !journal.failed && Inv(M(), W())
      modifies journal
      ensures Valid() && journal.failed == r.Unavailable? && M() == old(M())
      ensures W() == old(W()).(log := journal.events, view := journal.view, failed := journal.failed)
      ensures Counted(M(), W()) && (r.Done? ==> Inv(M(), W()))
      ensures old(Exposed(M(), W())) ==> Safe(M(), W(), r.Done?)
      ensures operator == "" || resolution == "" || old(journal.view).gates.halt.None? ==> r == Done(None) && W() == old(W())
      ensures r.Done? && r.value.Some? ==> old(journal.view).gates.halt == r.value && journal.view.gates.halt.None?
      ensures journal.events != old(journal.events) ==>
                operator != "" && resolution != "" && old(journal.view).gates.halt.Some? && journal.view.gates.halt.None?
      ensures journal.events == old(journal.events) ==> W() == old(W()).(failed := journal.failed)
      ensures old(EvidenceHolds(journal.id, journal.events, evidence.record))
              <==> EvidenceHolds(journal.id, journal.events, evidence.record)
    {
      hide WitnessPromise, EvidenceHolds, BookShape, Fold, Durable, Lasting, Inv, Exposed, Safe, Counted,
           Apply, Wrote;
      ghost var m, w := M(), W();
      ValidIsDurable();
      AckRefl(m, w);
      var halt := FindUnacknowledgedHalt(journal.events);
      HaltOfView(w);
      if operator == "" || resolution == "" || halt.None? {
        return Done(None);
      }
      var entry := Record(clock.now, HaltAcknowledged(halt.value.seqNo));
      var answer := journal.Submit(AckHalt(halt.value.seqNo, entry));
      AckKeeps(m, w, W(), entry, answer.Done?);
      return if answer.Done? then Done(Some(halt.value.seqNo)) else Unavailable;
    }

    /** A new process takes back from the log what it may not forget: positions,
        counters, a residual, and above all a HALT nobody acknowledged. */
    method Restore() returns (r: Io<()>)
      requires Valid() && !journal.failed && fence.cell.None?
      requires M() == BlankMemory(risk.counters)
      requires journal.view.gates.armed ==> journal.view.gates.residual != 0
      requires journal.view.gates.proven && !journal.view.gates.stopDue
      modifies `position, `bookedExecs, `operatingMode, risk, journal
      ensures Valid() && journal.failed == r.Unavailable?
      ensures Wrote(old(W()), W())
      ensures ExposureKnown(old(W())) ==> Safe(M(), W(), r.Done?)
      ensures risk.counters == old(journal.view).counters
      ensures r.Done? ==>
                && Inv(M(), W())
                && position == old(journal.view).ledger.expected
                && (operatingMode.HALTED? <==> old(journal.view).gates.halt.Some?)
                && (old(journal.view).gates.residual != 0 ==> !operatingMode.NORMAL?)
                && (operatingMode.NORMAL? || operatingMode.FLATTEN_ONLY? || operatingMode.HALTED?)
    {
      hide Valid, Durable, Lasting, Inv, ExposureKnown, Safe, Wrote, ApplyGates, ApplyOrders, ApplyLedger, ApplyCounters,
           ApplyWatch;
      ghost var w := W();
      ValidIsDurable();
      Reload();
      ghost var m := M();
      RestoredEffect(w, m);
      var s := Commit(ProcessStateRestored(operatingMode));
      r := if s.Done? then Done(()) else Unavailable;
      RestoredKeeps(w, m, W(), r.Done?);
    }

    /** The part of the restart that only reads. */
    method Reload()
      requires Valid() && fence.cell.None?
      requires M() == BlankMemory(risk.counters)
      modifies `position, `bookedExecs, `operatingMode, risk
      ensures Valid() && W() == old(W())
      ensures Reloaded(M(), W())
    {
      hide Durable, Fold;
      risk.RestoreFromEvents(journal.events);
      var expected := ExpectedPosition(journal.events, risk.config);
      var booked := BookedExecutions(journal.events, risk.config);
      var mode := RestoredMode(expected);
      position, bookedExecs, operatingMode := expected, booked, mode;
    }

    /** NORMAL, unless a residual or an unrecorded overnight carry says flatten, or an
        unacknowledged HALT, which outranks both. */
    method RestoredMode(expected: int) returns (mode: OperatingMode)
      requires Valid()
      ensures mode.HALTED? <==> journal.view.gates.halt.Some?
      ensures journal.view.gates.residual != 0 ==> !mode.NORMAL?
      ensures mode.NORMAL? || mode.FLATTEN_ONLY? || mode.HALTED?
      ensures mode.NORMAL? && expected != 0 ==>
                var last := journal.view.ledger.lastExec;
                last.Some? && EtDay(last.value) >= EtDay(clock.now)
    {
      hide Durable, Fold;
      ValidIsDurable();
      HaltOfView(W());
      var residual := LastEodResidual(journal.events, risk.config);
      var last := LastExecution(journal.events, risk.config);
      var halt := FindUnacknowledgedHalt(journal.events);
      var overnight := expected != 0 && (last.None? || EtDay(last.value) < EtDay(clock.now));
      mode := if halt.Some? then HALTED else if residual != 0 || overnight then FLATTEN_ONLY else NORMAL;
    }

    /** The start of a process: limits loaded and proven, the start recorded, and the
        log replayed before anything touches the broker. */
    method Begin() returns (r: Io<()>)
      requires Valid() && !journal.failed && fence.cell.None?
      requires M() == BlankMemory(risk.counters)
      modifies `position, `bookedExecs, `operatingMode, risk, journal
      ensures Valid() && journal.failed == r.Unavailable? && Wrote(old(W()), W())
      ensures ExposureKnown(old(W())) ==> Safe(M(), W(), r.Done?)
      ensures r.Done? ==>
                && Inv(M(), W()) && !syncState.SYNCED?
                && position == old(journal.view).ledger.expected
                && (operatingMode.HALTED? <==> old(journal.view).gates.halt.Some?)
                && (old(journal.view).gates.residual != 0 ==> !operatingMode.NORMAL?)
                && (old(journal.view).gates.halt.None? && old(journal.view).gates.residual != 0 ==> operatingMode.FLATTEN_ONLY?)
    {
      hide Valid, Inv, ExposureKnown, Safe, GateStep, Wrote, ApplyGates, GateOnly, LawfulEvent;
      ghost var w := W();
      r := RecordStart();
      ghost var x := W();
      if r.Done? {
        r := Restore();
        WroteTrans(w, x, W());
      } else {
        SafeWhileDown(M(), x);
      }
    }

    method RecordStart() returns (r: Io<()>)
      requires Valid() && !journal.failed
      modifies journal
      ensures M() == old(M()) && Valid() && journal.failed == r.Unavailable? && Wrote(old(W()), W())
      ensures ExposureKnown(old(W())) ==> ExposureKnown(W())
      ensures r.Done? ==>
                && journal.view.ledger == old(journal.view).ledger
                && journal.view.gates.halt == old(journal.view).gates.halt
                && journal.view.gates.residual == old(journal.view).gates.residual
                && (journal.view.gates.armed ==> journal.view.gates.residual != 0)
                && journal.view.gates.proven && !journal.view.gates.stopDue
    {
      hide Valid, ExposureKnown, GateStep, Wrote, ApplyGates, GateOnly, LawfulEvent;
      ghost var w := W();
      r := RecordLimits();
      ghost var y := W();
      if r.Done? {
        StartEffect(journal.view, clock.now);
        r := CommitPlain(ProcessStarted);
        WroteTrans(w, y, W());
      }
    }

    /** The limits are recorded, and proven to reject, before the process counts as
        started. */
    method RecordLimits() returns (r: Io<()>)
      requires Valid() && !journal.failed
      modifies journal
      ensures M() == old(M()) && Valid() && journal.failed == r.Unavailable? && Wrote(old(W()), W())
      ensures ExposureKnown(old(W())) ==> ExposureKnown(W())
      ensures r.Done? ==>
                && journal.view.ledger == old(journal.view).ledger
                && journal.view.gates == old(journal.view).gates.(loaded := true, proven := true)
    {
      hide Valid, ExposureKnown, Wrote, ApplyGates, GateOnly, LawfulEvent;
      ghost var w := W();
      LimitsEffect(journal.view, clock.now);
      r := CommitPlain(RiskConfigLoaded);
      ghost var x := W();
      if r.Done? {
        LimitsEffect(journal.view, clock.now);
        r := CommitPlain(RiskSelfTestPassed);
        WroteTrans(w, x, W());
      }
    }

    method CommitPlain(e: Event) returns (r: Io<()>)
      requires Valid() && !journal.failed && GateOnly(e) && LawfulEvent(journal.view, clock.now, e)
      modifies journal
      ensures M() == old(M()) && Valid() && journal.failed == r.Unavailable? && Wrote(old(W()), W())
      ensures ExposureKnown(old(W())) ==> ExposureKnown(W())
      ensures r.Done? ==>
                && journal.view.ledger == old(journal.view).ledger
                && journal.view.gates == ApplyGates(old(journal.view).gates, old(journal.view).count + 1, e)
    {
      hide Valid, ExposureKnown, GateStep, Wrote, ApplyGates, GateOnly, LawfulEvent;
      ghost var w := W();
      var s := CommitGate(e);
      GateKeepsExposure(w, W());
      return if s.Done? then Done(()) else Unavailable;
    }

    // ---- every entry point, guarded ----------------------------------------

    /** What each call leaves behind, at least. A report about an order this log never
        intended always ends in a stop. */
    twostate predicate Handled(input: Input)
      reads this, journal, risk, evidence, fence, broker, ids, clock
    {
      match input
      case SubmitTarget(target) => target.decision in journal.view.decisions
      case ManualFlatten(reason) => Flatten(reason, clock.now) in journal.view.decisions && flattenReason == Some(reason)
      case StopRequested => operatingMode.HALTED? && StoppedOrReported()
      case HandlerRaised => operatingMode.HALTED? && StoppedOrReported() && LoggedFirst([CallbackFailure(false)])
      case ReconcileWith(reply) => Reconciles(reply, old(journal.view), clock.now) || !syncState.SYNCED?
      case TickDue => EodUpToDate()
      case QuoteArrived(q) => quote == if q.Valid() then Some(q) else old(quote)
      case Connected(connectionEpoch) => epoch == connectionEpoch && linkState.CONNECTED? && syncState.UNVERIFIED?
      case Disconnected => linkState.DISCONNECTED? && syncState.UNVERIFIED?
      case DataLost => quote.None? && linkState.DEGRADED? && syncState.UNVERIFIED?
      case DataRestored => linkState.CONNECTED? && syncState.UNVERIFIED?
      case FeeCharged(exec) => exec in old(bookedExecs) || (operatingMode.HALTED? && !syncState.SYNCED?)
      case Acked(ref) => KnownOrStopped(ref) && (old(IsLive(ref)) ==> ref in journal.view.orders.acked)
      case Working(ref) => KnownOrStopped(ref) && (old(IsLive(ref)) ==> ref in journal.view.orders.working)
      case Executed(e) => KnownOrStopped(e.ref) && (e.ref in old(journal.view).orders.intents ==> e.id in bookedExecs)
      case Cancelled(ref, _) => KnownOrStopped(ref) && (old(IsLive(ref)) ==> ref !in journal.view.orders.open)
      case CancelRefused(ref, _) =>
        && KnownOrStopped(ref)
        && (old(IsLive(ref)) ==> operatingMode.HALTED? || !syncState.SYNCED? || ref !in journal.view.orders.open)
      case Rejected(ref) => KnownOrStopped(ref) && (old(IsLive(ref)) ==> ref !in journal.view.orders.open && desired.None?)
    }

    twostate predicate KnownOrStopped(ref: Ref)
      reads `operatingMode, `syncState, journal
    {
      ref in old(journal.view).orders.intents || (operatingMode.HALTED? && !syncState.SYNCED?)
    }

    /** One call from the strategy, the supervisor, or the broker. */
    method Handle(input: Input) returns (r: Io<()>)
      requires Valid() && !journal.failed && Inv(M(), W())
      modifies this, journal, risk, evidence, fence, broker, ids
      ensures Valid() && journal.failed == r.Unavailable? && Progress(old(M()), old(W()), M(), W(), r.Done?)
      ensures old(Exposed(M(), W())) && Truthful(input, old(W())) ==> Safe(M(), W(), r.Done?)
      ensures r.Done? ==> Inv(M(), W()) && Handled(input)
    {
      hide Valid, Inv, Progress, Safe, Exposed, Truthful, Handled;
      if input.IsReport() {
        r := HandleReport(input);
      } else if input.IsEnding() {
        r := HandleEnd(input);
      } else {
        r := HandleCommand(input);
      }
    }

    /** One call from the strategy or the supervisor. */
    method HandleCommand(input: Input) returns (r: Io<()>)
      requires Valid() && !journal.failed && Inv(M(), W()) && !input.IsReport() && !input.IsEnding()
      modifies this, journal, risk, evidence, fence, broker, ids
      ensures Valid() && journal.failed == r.Unavailable? && Progress(old(M()), old(W()), M(), W(), r.Done?)
      ensures old(Exposed(M(), W())) && Truthful(input, old(W())) ==> Safe(M(), W(), r.Done?)
      ensures r.Done? ==> Inv(M(), W()) && Handled(input)
    {
      hide Valid, Inv, Progress, Safe, Exposed, HonestReply, HonestExecution, HonestCancel, HonestRejection,
           UndisturbedReply;
      ghost var m, w := M(), W();
      var acted: Io<bool> := Done(false);
      r := Done(());
      match input {
        case SubmitTarget(target) => acted := SubmitTarget(target);
        case ManualFlatten(reason) => acted := FlattenNow(reason);
        case StopRequested => r := StopOn();
        case HandlerRaised => r := Quarantine(Some(CallbackFailure(false)), None, false);
        case ReconcileWith(reply) => acted := Reconcile(reply, true);
        case TickDue => var s, _, _ := Tick(); r := s;
        case QuoteArrived(q) => if q.Valid() { OnQuote(q); } else { OutcomeRefl(m, w); }
        case Connected(connectionEpoch) => r := OnConnected(connectionEpoch);
        case Disconnected => r := OnDisconnected();
        case DataLost => r := OnMarketDataLost();
        case DataRestored => r := OnMarketDataRestored();
      }
      if acted.Unavailable? {
        r := Unavailable;
      }
    }

    /** One report from the broker, which may be late, repeated, or out of order. */
    method HandleReport(input: Input) returns (r: Io<()>)
      requires Valid() && !journal.failed && Inv(M(), W()) && input.IsReport()
      modifies this, journal, risk, evidence, fence, broker, ids
      ensures Valid() && journal.failed == r.Unavailable? && Progress(old(M()), old(W()), M(), W(), r.Done?)
      ensures old(Exposed(M(), W())) && Truthful(input, old(W())) ==> Safe(M(), W(), r.Done?)
      ensures r.Done? ==> Inv(M(), W()) && Handled(input)
    {
      hide Valid, Inv, Progress, Safe, Exposed, HonestReply, HonestExecution, HonestCancel, HonestRejection,
           UndisturbedReply, Stopped, FillSettled, NothingSent, LoggedFirst, CancelEvents, ApplyOrders,
           ApplyLedger, FilledOf, GateLink, ModeAgrees;
      InvFacts(M(), W());
      match input {
        case Acked(ref) => r := OnAck(ref);
        case Working(ref) => r := OnWorking(ref);
        case Executed(e) => r := OnExecution(e);
        case FeeCharged(exec) => r := OnFee(exec);
      }
      if r.Done? {
        InvFacts(M(), W());
      }
    }

    /** A report that an order ended, or did not. */
    method HandleEnd(input: Input) returns (r: Io<()>)
      requires Valid() && !journal.failed && Inv(M(), W())
      requires input.IsEnding()
      modifies this, journal, risk, evidence, fence, broker, ids
      ensures Valid() && journal.failed == r.Unavailable? && Progress(old(M()), old(W()), M(), W(), r.Done?)
      ensures old(Exposed(M(), W())) && Truthful(input, old(W())) ==> Safe(M(), W(), r.Done?)
      ensures r.Done? ==> Inv(M(), W()) && Handled(input)
    {
      hide Valid, Inv, Progress, Safe, Exposed, HonestReply, HonestExecution, HonestCancel, HonestRejection,
           UndisturbedReply, Stopped, FillSettled, NothingSent, LoggedFirst, CancelEvents, ApplyOrders,
           ApplyLedger, FilledOf, GateLink, ModeAgrees;
      InvFacts(M(), W());
      match input {
        case Cancelled(ref, reply) => r := OnCancelled(ref, reply);
        case CancelRefused(ref, reply) => r := OnCancelRejected(ref, reply);
        case Rejected(ref) => r := OnRejected(ref);
      }
    }

    /** The operator acknowledges through the running process. It resumes nothing here,
        and a fence keeps the stop. */
    method GuardedAcknowledge(operator: string, resolution: string)
      requires Valid() && Live(M(), W())
      modifies this, journal, fence
      ensures Valid() && Live(M(), W()) && violations == old(violations)
      ensures old(operatingMode).HALTED? ==> operatingMode.HALTED?
      ensures old(fence.cell).Some? ==> fence.cell == old(fence.cell)
      ensures old(Exposed(M(), W())) ==> Exposed(M(), W())
      ensures EvidenceHolds(journal.id, old(journal.events), evidence.record)
              <==> EvidenceHolds(journal.id, journal.events, evidence.record)
      ensures journal.events != old(journal.events) ==>
                operator != "" && resolution != "" && old(journal.view).gates.halt.Some? && journal.view.gates.halt.None?
      ensures journal.events == old(journal.events) && old(Stopped()) ==> Stopped()
    {
      hide Valid, Inv, Counted, Exposed, ExposureKnown, Safe, EvidenceHolds;
      ghost var m, w := M(), W();
      if !journal.failed {
        var r := AcknowledgeHalt(operator, resolution);
        ghost var n, x := M(), W();
        if r.Done? {
          SafeIsExposed(n, x);
          return;
        }
        FailClosedJournal();
        AckFenced(n, x, M(), W());
      } else {
        FailClosedJournal();
        FencedStays(m, w, M(), W());
      }
    }

    /** A journal that cannot be written ends all broker writes of this process and
        fences the next one. */
    method Guarded(input: Input)
      requires Valid() && Live(M(), W())
      modifies this, journal, risk, evidence, fence, broker, ids
      ensures Valid() && Live(M(), W()) && Kept(old(M()), old(W()), M(), W())
      ensures old(Exposed(M(), W())) && Truthful(input, old(W())) ==> Exposed(M(), W())
      ensures journal.failed || input.StopRequested? ==> operatingMode.HALTED? && StoppedOrReported()
      ensures !journal.failed ==> Handled(input)
    {
      hide Valid, Inv, Counted, Exposed, ExposureKnown, Safe, Truthful, StopHeld;
      ghost var m, w := M(), W();
      if !journal.failed {
        var r := Handle(input);
        ghost var n, x := M(), W();
        if r.Done? {
          SafeIsExposed(n, x);
          return;
        }
        FailClosedJournal();
        FencedKeeps(m, w, n, x, M(), W());
      } else {
        FailClosedJournal();
        FencedStays(m, w, M(), W());
      }
    }
  }
}
