/** The host: one process at a time over storage, fence, witness and broker that
    outlive it. `Run` takes any script of inputs, callbacks, broker activity, crashes,
    tail losses and restarts; what it ensures is what the system promises. */
module Hosts {
  import opened Wrappers
  import opened Models
  import opened RiskCounters
  import opened LogView
  import opened HaltFolds
  import opened Journals
  import opened Witnesses
  import opened Fences
  import opened Brokers
  import opened Risk
  import opened Protocol
  import opened States
  import opened Restarts
  import opened Controllers
  import opened Auditor

  datatype Step =
    | Call(input: Input)
    | BrokerFills(ref: Ref, quantity: nat)
    | BrokerEnds(ref: Ref, rejects: bool)
    | TimePasses(seconds: nat)
    | Crash
    | StorageLosesTail(keep: nat)
    | Start
    | AcknowledgeHalt(operator: string, resolution: string)
    | AcknowledgeFence(operator: string, resolution: string)
    | RetireFence(reconciled: bool)

  /** A stop that stands goes on standing, and nothing is written to the broker. */
  ghost predicate Respects(w: World, x: World) {
    Barred(w) ==> Barred(x) && x.placed == w.placed && x.cancels == w.cancels
  }

  /** The two locks are independent. An attributed acknowledgement that clears the
      active HALT lifts a stop only if no fence stands; an acknowledged and reconciled
      fence that is retired lifts one only if no pinned HALT remains; and neither does
      if the startup check will refuse anyway. */
  ghost predicate Lifts(step: Step, w: World, x: World) {
    && EvidenceHolds(w.id, w.log, w.rec)
    && match step
       case AcknowledgeHalt(operator, resolution) =>
         && operator != "" && resolution != ""
         && w.fence.None? && x.fence.None?
         && w.view.gates.halt.Some? && x.view.gates.halt.None?
       case RetireFence(reconciled) =>
         && reconciled && w.fence.Some? && w.fence.value.Acknowledged? && x.fence.None?
         && !StopPinned(w.log, WitnessSeq(w.rec))
       case _ => false
  }

  datatype StartResult = Started | AlreadyRunning | RefusedFenced | RefusedEvidence | StorageFailed

  /** What a guarded call is to the host. */
  lemma GuardedHost(m: Memory, w: World, n: Memory, x: World)
    requires Durable(w) && Live(m, w) && Durable(x) && Live(n, x) && Kept(m, w, n, x)
    ensures Lasting(x) && n.violations == m.violations
    ensures Barred(w) ==> Barred(x) && x.placed == w.placed && x.cancels == w.cancels
    ensures Exposed(n, x) ==> Bounded(x)
  {
    if StopHeld(w) {
      StoppedIsHalted(m, w);
    }
    if Exposed(n, x) {
      ExposedIsBounded(n, x);
    }
  }

  lemma DurableIsLasting(w: World)
    requires Durable(w)
    ensures Lasting(w)
  {
  }

  lemma CheckedIsDurable(w: World)
    requires Lasting(w) && EvidenceHolds(w.id, w.log, w.rec)
    ensures Durable(w)
  {
  }

  lemma Reopened(w: World, x: World)
    requires x == w.(failed := x.failed)
    ensures Lasting(w) ==> Lasting(x)
    ensures Bounded(w) ==> Bounded(x)
    ensures Barred(w) ==> Barred(x)
  {
  }

  /** A refused start fences the next one and touches nothing else. */
  lemma RefusedKeeps(w: World, x: World)
    requires x == w.(fence := x.fence, unfenced := x.unfenced) && w.fence.None?
    ensures Lasting(w) ==> Lasting(x)
    ensures Bounded(w) ==> Bounded(x)
    ensures Barred(w) || !EvidenceHolds(w.id, w.log, w.rec) || x.fence.Some? ==> Barred(x)
  {
  }

  /** What a process that began, or died beginning, is to the host. */
  lemma BegunHost(w: World, m: Memory, x: World, done: bool)
    requires Durable(w) && Durable(x) && w.fence.None? && Wrote(w, x) && x.failed == !done
    requires done ==> Inv(m, x) && !m.sync.SYNCED?
    requires ExposureKnown(w) ==> Safe(m, x, done)
    requires done ==> (m.mode.HALTED? <==> w.view.gates.halt.Some?)
    ensures Lasting(x) && (done ==> Live(m, x))
    ensures Bounded(w) ==> Bounded(x) && (done ==> Exposed(m, x))
    ensures Barred(w) ==> Barred(x) && (done ==> m.mode.HALTED?)
  {
    HaltOfView(w);
    assert w.log[..|w.log|] == w.log;
  }

  /** What the operator does to the fence is out of the process's sight. */
  lemma FenceEdited(m: Memory, w: World, x: World)
    requires x == w.(fence := x.fence) && (x.fence.Some? ==> w.fence.Some?)
    ensures (Lasting(w) ==> Lasting(x)) && (Durable(w) ==> Durable(x))
    ensures Bounded(w) ==> Bounded(x)
    ensures x.fence.Some? && Barred(w) ==> Barred(x)
    ensures x.fence == w.fence ==> x == w
    ensures w.fence.None? && Barred(w) ==> Barred(x)
    ensures Live(m, w) ==> Live(m, x)
    ensures Exposed(m, w) ==> Exposed(m, x)
  {
  }

  /** What an acknowledgement does to a stop, by whichever door it came. */
  lemma AckRespects(operator: string, resolution: string, w: World, x: World)
    requires Lasting(x) && (w.fence.Some? ==> x.fence == w.fence) && x.id == w.id && x.rec == w.rec
    requires x.placed == w.placed && x.cancels == w.cancels
    requires EvidenceHolds(x.id, x.log, x.rec) <==> EvidenceHolds(w.id, w.log, w.rec)
    requires x.log != w.log ==>
               operator != "" && resolution != "" && w.view.gates.halt.Some? && x.view.gates.halt.None?
    requires x.log == w.log ==> x.view == w.view
    ensures var step := AcknowledgeHalt(operator, resolution);
      if Lifts(step, w, x) then !Barred(x) else Respects(w, x)
  {
    hide Lasting;
    if Lifts(AcknowledgeHalt(operator, resolution), w, x) {
      AckUnbars(x);
    }
  }

  lemma AckUnbars(x: World)
    requires Lasting(x) && x.fence.None? && x.view.gates.halt.None? && EvidenceHolds(x.id, x.log, x.rec)
    ensures !Barred(x)
  {
    HaltOfView(x);
    assert x.log[..|x.log|] == x.log;
  }

  lemma RetireRespects(reconciled: bool, w: World, x: World)
    requires x == w.(fence := x.fence)
    requires x.fence != w.fence ==> reconciled && w.fence.Some? && w.fence.value.Acknowledged? && x.fence.None?
    ensures if Lifts(RetireFence(reconciled), w, x) then !Barred(x) else Respects(w, x)
  {
  }

  /** The world, and the memory of the running process if there is one. */
  datatype Moment = Moment(world: World, process: Option<Memory>)

  /** No runtime assertion of the process was ever violated, its memory is sound or it
      fenced itself, and under a stop it is HALTED. */
  ghost predicate Running(t: Moment) {
    t.process.Some? ==>
      && t.process.value.violations == 0
      && Live(t.process.value, t.world)
      && (StopHeld(t.world) ==> t.process.value.mode.HALTED?)
  }

  /** A requested stop is held out of band, unless the fence was tried too and its
      write failed. */
  ghost predicate StopHonoured(step: Step, before: Moment, after: Moment) {
    step == Call(StopRequested) && before.process.Some? ==>
      && after.process.Some? && after.process.value.mode.HALTED?
      && (StopHeld(after.world) || before.world.unfenced < after.world.unfenced)
  }

  /** A stop outlasts any number of steps that do not lift it. */
  lemma {:induction false} RespectedThroughout(script: seq<Step>, trace: seq<Moment>, i: nat, j: nat)
    requires |trace| == |script| + 1 && i <= j <= |script|
    requires forall k :: i <= k < j ==>
               Lifts(script[k], trace[k].world, trace[k + 1].world) || Respects(trace[k].world, trace[k + 1].world)
    requires forall k :: i <= k < j ==> !Lifts(script[k], trace[k].world, trace[k + 1].world)
    ensures Respects(trace[i].world, trace[j].world)
  {
    if i < j {
      RespectedThroughout(script, trace, i, j - 1);
      assert Lifts(script[j - 1], trace[j - 1].world, trace[j].world) || Respects(trace[j - 1].world, trace[j].world);
    }
  }

  /** After any boot that is not refused, the surviving log still knows every order
      ever passed to the broker, so none of them can look external. */
  ghost predicate PlacedAreKnown(w: World) {
    EvidenceHolds(w.id, w.log, w.rec) ==>
      forall r :: r in w.placed ==> r in w.view.orders.attempted && r in w.view.orders.intents
  }

  /** The log is one the controller may write, and it accounts for what was sent. */
  ghost predicate Accounted(config: RiskConfig, w: World) {
    w.view == Fold(config, w.log) && w.view.lawful && PlacedAreKnown(w)
  }

  lemma PlacedStayKnown(w: World)
    requires Lasting(w)
    ensures PlacedAreKnown(w)
  {
    if EvidenceHolds(w.id, w.log, w.rec) {
      CheckedLogKnowsEveryOrder(w.view.config, w.id, w.log, w.rec, EverPlaced(w));
    }
  }

  /** At most one order can still fill, and the position is inside the limit. */
  ghost predicate ExposureBounded(b: Book, limit: int) {
    && (forall r, s :: IsOpen(b, r) && IsOpen(b, s) ==> r == s)
    && Abs(b.position) <= limit
  }

  class Host {
    const journal: Journal
    const broker: Broker
    const fence: FatalFence
    const evidence: JournalWitness
    const ids: IdSource
    const clock: Clock
    const calendar: Calendar
    const config: RiskConfig

    var process: Controller?
    ghost var honest: bool             // every broker report delivered so far was true

    ghost function W(): World
      reads journal, evidence, fence, broker, ids, clock
    {
      World(journal.id, journal.events, journal.view, journal.failed, evidence.record, fence.cell,
            broker.Books(), broker.placeCalls, broker.cancelCalls, ids.next, clock.now, fence.failures)
    }

    ghost function Now(): Moment
      reads this, journal, evidence, fence, broker, ids, clock, process, if process == null then {} else {process.risk}
    {
      Moment(W(), if process == null then None else Some(process.M()))
    }

    predicate Wired(c: Controller)
    {
      && c.journal == journal && c.broker == broker && c.fence == fence && c.evidence == evidence
      && c.ids == ids && c.clock == clock && c.risk.config == config
    }

    /** The process and the world as they stand. */
    ghost predicate Sane(c: Controller)
      reads c, c.risk, journal, evidence, fence, broker, ids, clock
    {
      Wired(c) && Durable(W()) && Live(c.M(), W()) && c.M().violations == 0
    }

    ghost predicate Valid()
      reads this, journal, evidence, fence, broker, ids, clock, process, if process == null then {} else {process.risk}
    {
      && journal.Valid() && journal.config == config
      && Lasting(W())
      && (process != null ==> Sane(process))
      && (honest ==> Bounded(W()) && (process != null ==> Exposed(process.M(), W())))
    }

    /** An account that starts flat, with nothing on disk. */
    constructor (journalId: nat, config: RiskConfig, calendar: Calendar, now: Instant)
      requires config.Valid()
      ensures Valid() && honest && process == null && fresh(journal) && fresh(broker)
      ensures this.config == config && journal.events == [] && broker.position == 0 && fence.cell.None?
      ensures fresh(journal) && fresh(broker) && fresh(fence) && fresh(evidence) && fresh(ids) && fresh(clock)
    {
      journal := new Journal(journalId, config);
      broker := new Broker();
      fence := new FatalFence();
      evidence := new JournalWitness();
      ids := new IdSource();
      clock := new Clock(now);
      this.calendar, this.config := calendar, config;
      process, honest := null, true;
    }

    twostate predicate StopRespected()
      reads journal, evidence, fence, broker, ids, clock
    {
      Respects(old(W()), W())
    }

    /** Deliver one input to the running process, if there is one. */
    method CallProcess(input: Input)
      requires Valid()
      modifies `honest, process, if process == null then {} else {process.risk}, journal, evidence, fence, broker, ids
      ensures Valid() && StopRespected()
      ensures honest == (old(honest) && (process != null ==> Truthful(input, old(W()))))
      ensures process != null && input.StopRequested? ==>
                process.operatingMode.HALTED? && (StopHeld(W()) || old(fence.failures) < fence.failures)
    {
      hide Durable, Lasting, Live, Truthful, Exposed, Bounded, StopHeld, EvidenceHolds, Barred, Kept;
      if process != null {
        ghost var c := process;
        ghost var m, w := c.M(), W();
        honest := honest && Truthful(input, w);
        assert c.M() == m && W() == w && Exposed(m, w) == old(Exposed(c.M(), W()));
        PassOn(input);
        GuardedHost(m, w, c.M(), W());
      }
    }

    /** What the controller promises of one call, seen from outside. */
    method PassOn(input: Input)
      requires process != null && Wired(process) && Durable(W()) && Live(process.M(), W())
      requires journal.Valid() && journal.config == config
      modifies process, process.risk, journal, evidence, fence, broker, ids
      ensures process.risk == old(process.risk) && journal.Valid()
      ensures Durable(W()) && Live(process.M(), W()) && Kept(old(process.M()), old(W()), process.M(), W())
      ensures old(Exposed(process.M(), W())) && Truthful(input, old(W())) ==> Exposed(process.M(), W())
      ensures input.StopRequested? ==>
                process.operatingMode.HALTED? && (StopHeld(W()) || old(fence.failures) < fence.failures)
    {
      hide Durable, Lasting, Live, Truthful, Exposed, StopHeld, Kept, Controller.Handled;
      assert process.W() == W() && process.Valid();
      process.Guarded(input);
      assert process.W() == W() && process.Valid();
    }

    /** The broker acts on its own. */
    method BrokerActs(step: Step)
      requires Valid() && (step.BrokerFills? || step.BrokerEnds?)
      modifies broker
      ensures Valid() && StopRespected() && honest == old(honest)
    {
      hide Durable, Lasting, Live, Exposed, Bounded, Barred, WithFill, WithStatus;
      ghost var m, w := if process == null then BlankMemory(FRESH) else process.M(), W();
      match step {
        case BrokerFills(ref, quantity) =>
          broker.Fill(ref, quantity);
          if W().book != w.book {
            BrokerFilled(m, w, W(), ref, quantity);
          }
        case BrokerEnds(ref, rejects) =>
          broker.End(ref, rejects);
          if W().book != w.book {
            BrokerEnded(m, w, W(), ref, if rejects then REJECTED else CANCELLED);
          }
      }
    }

    /** The clock moves on, never back. */
    method TimePasses(seconds: nat)
      requires Valid()
      modifies clock
      ensures Valid() && StopRespected() && honest == old(honest) && clock.now == old(clock.now) + seconds
    {
      hide Durable, Lasting, Live, Exposed, Bounded, Barred;
      ghost var m, w := if process == null then BlankMemory(FRESH) else process.M(), W();
      clock.Advance(seconds);
      TimePassed(m, w, W());
    }

    /** While the process is down, storage may lose the end of the log. */
    method StorageLosesTail(keep: nat)
      requires Valid()
      modifies journal
      ensures Valid() && StopRespected() && honest == old(honest)
      ensures process != null ==> unchanged(journal)
    {
      hide Durable, Lasting, Live, Exposed, Bounded, StopHeld, EvidenceHolds, Barred;
      if process == null {
        ghost var w := W();
        var n := if keep <= |journal.events| then keep else |journal.events|;
        journal.LoseTail(n);
        TailLost(w, W(), n);
      }
    }

    /** The operator acknowledges the active HALT: through the running process, or with
        the tool, which owns the journal only while no process does. */
    method AcknowledgeHalt(operator: string, resolution: string)
      requires Valid()
      modifies process, journal, fence
      ensures Valid() && honest == old(honest) && unchanged(broker)
      ensures process != null && old(process.operatingMode).HALTED? ==> process.operatingMode.HALTED?
      ensures journal.events != old(journal.events) ==>
                operator != "" && resolution != "" && old(journal.view).gates.halt.Some? && journal.view.gates.halt.None?
      ensures old(fence.cell).Some? || journal.events == old(journal.events) ==> StopRespected()
      ensures var step := Step.AcknowledgeHalt(operator, resolution);
        if Lifts(step, old(W()), W()) then !Barred(W()) else StopRespected()
    {
      hide Durable, Lasting, Live, Exposed, Bounded, Barred, EvidenceHolds, Fold;
      if process == null {
        AcknowledgeWithTool(operator, resolution);
      } else {
        AcknowledgeInProcess(operator, resolution);
      }
    }

    method AcknowledgeWithTool(operator: string, resolution: string)
      requires Valid() && process == null
      modifies journal
      ensures Valid() && honest == old(honest)
      ensures journal.events != old(journal.events) ==>
                && operator != "" && resolution != ""
                && old(journal.view).gates.halt.Some? && journal.view.gates.halt.None?
                && journal.view.orders == old(journal.view).orders && journal.view.ledger == old(journal.view).ledger
      ensures old(fence.cell).Some? || journal.events == old(journal.events) ==> StopRespected()
      ensures var step := Step.AcknowledgeHalt(operator, resolution);
        if Lifts(step, old(W()), W()) then !Barred(W()) else StopRespected()
    {
      hide Durable, Lasting, Live, Exposed, Bounded, StopHeld, EvidenceHolds, Fold, Apply, Barred;
      ghost var w := W();
      if operator == "" || resolution == "" {
        AckRespects(operator, resolution, w, w);
        return;
      }
      HaltOfView(w);
      journal.Reopen();
      var halt := FindUnacknowledgedHalt(journal.events);
      if halt.Some? {
        var entry := Record(clock.now, Event.HaltAcknowledged(halt.value.seqNo));
        var _ := journal.Submit(AckHalt(halt.value.seqNo, entry));
        AckWhileDown(w, W(), entry);
      } else {
        Reopened(w, W());
      }
      AckRespects(operator, resolution, w, W());
    }

    method AcknowledgeInProcess(operator: string, resolution: string)
      requires Valid() && process != null
      modifies process, journal, fence
      ensures Valid() && honest == old(honest)
      ensures old(process.operatingMode).HALTED? ==> process.operatingMode.HALTED?
      ensures journal.events != old(journal.events) ==>
                operator != "" && resolution != "" && old(journal.view).gates.halt.Some? && journal.view.gates.halt.None?
      ensures old(fence.cell).Some? || journal.events == old(journal.events) ==> StopRespected()
      ensures var step := Step.AcknowledgeHalt(operator, resolution);
        if Lifts(step, old(W()), W()) then !Barred(W()) else StopRespected()
    {
      hide Durable, Lasting, Live, Exposed, Bounded, EvidenceHolds, Fold;
      ghost var c, w := process, W();
      assert c.W() == w && c.Valid();
      process.GuardedAcknowledge(operator, resolution);
      assert c.W() == W() && c.Valid();
      DurableIsLasting(W());
      if Exposed(c.M(), W()) {
        ExposedIsBounded(c.M(), W());
      }
      AckRespects(operator, resolution, w, W());
    }

    /** The gates, in order: fence, ownership, witness. */
    method PassGates() returns (refused: Option<StartResult>)
      requires Valid() && process == null
      modifies journal, fence
      ensures Valid() && StopRespected() && honest == old(honest)
      ensures journal.events == old(journal.events) && journal.view == old(journal.view)
      ensures refused.None? ==>
                && !journal.failed && W() == old(W()).(failed := false)
                && fence.cell.None? && EvidenceHolds(journal.id, journal.events, evidence.record)
                && PlacedAreKnown(W())
      ensures old(fence.cell).Some? <==> refused == Some(RefusedFenced)
      ensures old(fence.cell).None? && !EvidenceHolds(journal.id, journal.events, evidence.record)
              ==> refused == Some(RefusedEvidence)
      ensures refused == Some(RefusedEvidence) ==> fence.cell.Some? || fence.failures > old(fence.failures)
      ensures refused.Some? ==> refused.value.RefusedFenced? || refused.value.RefusedEvidence?
    {
      hide Durable, Lasting, Live, Exposed, Bounded, Barred, EvidenceHolds, PlacedAreKnown;
      ghost var w := W();
      var clear := fence.RequireClear();
      if !clear {
        return Some(RefusedFenced);
      }
      journal.Reopen();
      ghost var x := W();
      Reopened(w, x);
      PlacedStayKnown(x);
      var verdict := evidence.Verify(journal);
      if !verdict.Clean? {
        var _ := fence.Raise("journal witness violation");
        RefusedKeeps(x, W());
        return Some(RefusedEvidence);
      }
      return None;
    }

    /** Only past the gates is a controller built. */
    method Start() returns (result: StartResult)
      requires Valid()
      modifies this, journal, fence
      ensures Valid() && StopRespected() && honest == old(honest) && unchanged(broker)
      ensures result.Started? ==>
                && old(process) == null && process != null && fresh(process) && fresh(process.risk)
                && old(fence.cell).None? && EvidenceHolds(journal.id, old(journal.events), evidence.record)
                && !process.syncState.SYNCED?
                && process.position == old(journal.view).ledger.expected
                && (process.operatingMode.HALTED? <==> old(journal.view).gates.halt.Some?)
                && (old(journal.view).gates.residual != 0 ==> !process.operatingMode.NORMAL?)
      ensures result.Started? ==>
                forall r :: r in broker.placeCalls ==>
                  r in old(journal.view).orders.attempted && r in old(journal.view).orders.intents
      ensures result.Started? && old(Barred(W())) ==> process.operatingMode.HALTED?
      ensures old(process) == null && old(fence.cell).Some? ==> result.RefusedFenced?
      ensures old(process) == null && old(fence.cell).None?
              && !EvidenceHolds(journal.id, old(journal.events), evidence.record) ==>
                result.RefusedEvidence?
      ensures result.RefusedEvidence? ==> fence.cell.Some? || fence.failures > old(fence.failures)
      ensures !result.Started? ==> process == old(process)
    {
      hide Durable, Lasting, Live, Exposed, Bounded, Barred, EvidenceHolds;
      if process != null {
        return AlreadyRunning;
      }
      var refused := PassGates();
      if refused.Some? {
        return refused.value;
      }
      var c, started := Launch();
      if started {
        process := c;
        result := Started;
      } else {
        result := StorageFailed;
      }
    }

    /** Build the controller and let it begin; it dies with a journal that cannot. */
    method Launch() returns (c: Controller, started: bool)
      requires Valid() && process == null && !journal.failed && fence.cell.None?
      requires EvidenceHolds(journal.id, journal.events, evidence.record)
      modifies journal
      ensures fresh(c) && fresh(c.risk) && Wired(c) && c.M().violations == 0
      ensures journal.Valid() && Lasting(W()) && (started ==> Sane(c))
      ensures honest ==> Bounded(W()) && (started ==> Exposed(c.M(), W()))
      ensures StopRespected() && (started && old(Barred(W())) ==> c.operatingMode.HALTED?)
      ensures started ==>
                && !c.syncState.SYNCED?
                && c.position == old(journal.view).ledger.expected
                && (c.operatingMode.HALTED? <==> old(journal.view).gates.halt.Some?)
                && (old(journal.view).gates.residual != 0 ==> !c.operatingMode.NORMAL?)
    {
      hide Lasting, Durable, Live, Exposed, Bounded, EvidenceHolds, Barred, Inv, Wrote, Safe;
      ghost var w := W();
      CheckedIsDurable(w);
      var risk := new RiskEngine(config);
      c := new Controller(journal, broker, risk, fence, evidence, ids, clock, calendar);
      assert c.W() == w && c.Valid();
      var r := c.Begin();
      ghost var x := W();
      assert c.W() == x && c.Valid();
      started := r.Done?;
      BegunHost(w, c.M(), x, started);
    }

    /** Power, kernel, operator: the process is gone, and its memory with it. */
    method Crash()
      requires Valid()
      modifies `process
      ensures Valid() && StopRespected() && honest == old(honest) && process == null
    {
      hide Durable, Lasting, Live, Exposed, Bounded, Barred;
      process := null;
    }

    method AcknowledgeFence(operator: string, resolution: string)
      requires Valid()
      modifies fence
      ensures Valid() && StopRespected() && honest == old(honest)
      ensures fence.cell.Some? <==> old(fence.cell).Some?
    {
      hide Durable, Lasting, Live, Exposed, Bounded, Barred, EvidenceHolds;
      ghost var m, w := if process == null then BlankMemory(FRESH) else process.M(), W();
      var _ := fence.Acknowledge(operator, resolution);
      FenceEdited(m, w, W());
    }

    /** Only an acknowledged fence, and only after reconciling the account, is lifted. */
    method RetireFence(reconciled: bool)
      requires Valid()
      modifies fence
      ensures Valid() && honest == old(honest)
      ensures old(fence.cell).Some? && fence.cell.None? ==> old(fence.cell).value.Acknowledged? && reconciled
      ensures old(fence.cell).None? || old(StopPinned(journal.events, WitnessSeq(evidence.record))) ==> StopRespected()
      ensures if Lifts(Step.RetireFence(reconciled), old(W()), W()) then !Barred(W()) else StopRespected()
    {
      hide Durable, Lasting, Live, Exposed, Bounded, Barred, EvidenceHolds;
      ghost var m, w := if process == null then BlankMemory(FRESH) else process.M(), W();
      var _ := fence.Retire(reconciled);
      FenceEdited(m, w, W());
      RetireRespects(reconciled, w, W());
    }

    /** What validity means outside. */
    lemma Promises()
      requires Valid()
      ensures Accounted(config, W())
      ensures honest ==> ExposureBounded(W().book, config.maxPositionShares)
      ensures Running(Now())
    {
      PlacedStayKnown(W());
      if process != null && StopHeld(W()) {
        StoppedIsHalted(process.M(), W());
      }
    }

    /** One step of a run. */
    method Take(step: Step)
      requires Valid()
      modifies this, process, if process == null then {} else {process.risk}, journal, evidence, fence, broker, ids, clock
      ensures Valid() && if Lifts(step, old(W()), W()) then !Barred(W()) else StopRespected()
      ensures honest == (old(honest) && (step.Call? && old(process) != null ==> Truthful(step.input, old(W()))))
      ensures StopHonoured(step, old(Now()), Now())
      ensures process == null || process == old(process) || (fresh(process) && fresh(process.risk))
    {
      hide Valid, StopRespected, Truthful, Barred, EvidenceHolds;
      match step {
        case Call(input) => CallProcess(input);
        case BrokerFills(_, _) => BrokerActs(step);
        case BrokerEnds(_, _) => BrokerActs(step);
        case TimePasses(seconds) => TimePasses(seconds);
        case Crash => Crash();
        case StorageLosesTail(keep) => StorageLosesTail(keep);
        case Start => var _ := Start();
        case AcknowledgeHalt(operator, resolution) => AcknowledgeHalt(operator, resolution);
        case AcknowledgeFence(operator, resolution) => AcknowledgeFence(operator, resolution);
        case RetireFence(reconciled) => RetireFence(reconciled);
      }
    }

    /** Every run, of any length, with anything in it. At every moment of it the log is
        one the offline audit accepts, and unless the startup check would refuse it, it
        knows every order ever sent; no assertion of the running process ever failed;
        while the broker's reports are true, at most one order can still fill and the
        position is inside the limit. A stop that is asked for is held or reported as
        not held, and from whenever one stands, it stands until a step lifts it, with
        nothing sent meanwhile. */
    method Run(script: seq<Step>) returns (ghost trace: seq<Moment>)
      requires Valid()
      modifies this, process, if process == null then {} else {process.risk}, journal, evidence, fence, broker, ids, clock
      ensures Valid()
      ensures |trace| == |script| + 1 && trace[0] == old(Now()) && trace[|script|] == Now()
      ensures forall k :: 0 <= k <= |script| ==> Accounted(config, trace[k].world) && Running(trace[k])
      ensures honest ==> forall k :: 0 <= k <= |script| ==> ExposureBounded(trace[k].world.book, config.maxPositionShares)
      ensures forall k :: 0 <= k < |script| ==> StopHonoured(script[k], trace[k], trace[k + 1])
      ensures forall i, j :: 0 <= i <= j <= |script|
                && (forall k :: i <= k < j ==> !Lifts(script[k], trace[k].world, trace[k + 1].world))
                ==> Respects(trace[i].world, trace[j].world)
    {
      hide Valid, W, Truthful, Barred, EvidenceHolds, Respects, Lifts, Accounted, ExposureBounded, Running, StopHonoured;
      trace := [Now()];
      Promises();
      var k := 0;
      while k < |script|
        invariant 0 <= k <= |script|
        invariant Valid()
        invariant |trace| == k + 1 && trace[0] == old(Now()) && trace[k] == Now()
        invariant forall n :: 0 <= n <= k ==> Accounted(config, trace[n].world) && Running(trace[n])
        invariant honest ==> forall n :: 0 <= n <= k ==> ExposureBounded(trace[n].world.book, config.maxPositionShares)
        invariant forall n :: 0 <= n < k ==> StopHonoured(script[n], trace[n], trace[n + 1])
        invariant forall n :: 0 <= n < k ==>
                    Lifts(script[n], trace[n].world, trace[n + 1].world) || Respects(trace[n].world, trace[n + 1].world)
        invariant process == null || process == old(process) || (fresh(process) && fresh(process.risk))
      {
        Take(script[k]);
        Promises();
        trace := trace + [Now()];
        k := k + 1;
      }
      forall i, j | 0 <= i <= j <= |script|
                  && forall n :: i <= n < j ==> !Lifts(script[n], trace[n].world, trace[n + 1].world)
        ensures Respects(trace[i].world, trace[j].world)
      {
        RespectedThroughout(script, trace, i, j);
      }
    }

    /** Run, then audit offline: exactly what can be reported of any run. */
    method RunThenAudit(script: seq<Step>) returns (findings: seq<Finding>)
      requires Valid()
      modifies this, process, if process == null then {} else {process.risk}, journal, evidence, fence, broker, ids, clock
      ensures Valid()
      ensures findings == [] <==> NothingToReport(config, journal.events)
    {
      hide Valid, Fold, NothingToReport, StopRespected, Respects, Lifts, ExposureBounded, PlacedAreKnown, Running,
           StopHonoured;
      ConfigIsValid();
      ghost var trace := Run(script);
      assert Accounted(config, trace[|script|].world);
      var auditor := new JournalAuditor(journal.events, config);
      findings := auditor.Audit();
    }

    lemma ConfigIsValid()
      requires Valid()
      ensures config.Valid()
    {
    }
  }
}
