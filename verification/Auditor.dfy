/** The offline audit: each check is its own loop over the log with its own little
    state, written apart from the controller. What each reports is exactly the records
    that break its rule, and on every log the controller can write it reports nothing. */
module Auditor {
  import opened Wrappers
  import opened Models
  import opened RiskCounters
  import opened LogView
  import opened HaltFolds
  import opened Risk
  import opened Alarms

  datatype Finding = Finding(rule: nat, seqNo: nat)

  datatype Check =
    | DecisionOnce | DurableBeforeSend | OneLiveIntent | NoSendWhileCancelling | TrustedWrites | ModeGate
    | FlattenAlone | ReconciledFirst | NotExpired | ExecutionOnce | ResidualBoots | SelfTested
    | NothingAwaited | Halted(alarm: Alarm)
  {
    /** The checks that are silent on every log the controller may write. */
    predicate AlwaysKept() {
      !NothingAwaited? && !Halted?
    }
  }

  /** What a check has to say about a record, given everything before it. */
  function Verdict(check: Check, v: View, r: Record): seq<Finding> {
    match check
    case DecisionOnce => DecisionTwice(v, r)
    case DurableBeforeSend => SendUncommitted(v, r)
    case OneLiveIntent => SecondLiveIntent(v, r)
    case NoSendWhileCancelling => SendDuringCancel(v, r)
    case TrustedWrites => UntrustedWrite(v, r)
    case ModeGate => ModeBreach(v, r)
    case FlattenAlone => FlattenBeside(v, r)
    case ReconciledFirst => SendUnreconciled(v, r)
    case NotExpired => IntentExpired(v, r)
    case ExecutionOnce => ExecutionTwice(v, r)
    case ResidualBoots => ResidualOpened(v, r)
    case SelfTested => Unproven(v, r)
    case NothingAwaited => SendWhileAwaiting(v, r)
    case Halted(alarm) => SendBeforeHalt(alarm, v, r)
  }

  /** Everything a check reports about a log, in order. */
  function Findings(check: Check, config: RiskConfig, log: seq<Record>): seq<Finding> {
    if log == [] then []
    else
      var m := |log| - 1;
      Findings(check, config, log[..m]) + Verdict(check, Fold(config, log[..m]), log[m])
  }

  lemma Step(check: Check, config: RiskConfig, log: seq<Record>, k: nat)
    requires k < |log|
    ensures Fold(config, log[..k + 1]) == Apply(Fold(config, log[..k]), log[k])
    ensures Findings(check, config, log[..k + 1])
         == Findings(check, config, log[..k]) + Verdict(check, Fold(config, log[..k]), log[k])
    ensures Fold(config, log[..k]).count == k
  {
    assert log[..k + 1][..k] == log[..k];
  }

  /** What a record does to the gates, one gate at a time. */
  lemma GatesPointwise(g: Gates, seqNo: nat, e: Event)
    ensures var h := ApplyGates(g, seqNo, e);
      && h.link == (if e.LinkStateChanged? then e.link else g.link)
      && h.sync == (if e.SyncStateChanged? then e.sync else g.sync)
      && h.mode == (if e.OperatingModeChanged? then e.mode else if e.ProcessStateRestored? then e.restoredMode else g.mode)
      && h.started == (g.started || e.ProcessStarted?)
      && h.reconciled == (e.ReconciliationCompleted? || (g.reconciled && !e.ProcessStarted?))
  {
  }

  lemma ResidualPointwise(g: Gates, seqNo: nat, e: Event)
    ensures var h := ApplyGates(g, seqNo, e);
      && h.bootMode == (if e.OperatingModeChanged? then e.mode else if e.ProcessStateRestored? then e.restoredMode
                        else if e.ProcessStarted? then NORMAL else g.bootMode)
      && h.residual == (if e.EodFlattenFailed? then (if e.residual != 0 then e.residual else e.workingSigned)
                        else if e.EodFlattenCompleted? then 0 else g.residual)
      && h.armed == (if e.ProcessStarted? then g.residual != 0
                     else g.armed && (e.IntentCommitted? ==> g.bootMode.FLATTEN_ONLY? || g.bootMode.HALTED?))
  {
  }

  /** What a record does to the order book, as the checks see it. */
  lemma OrdersPointwise(ob: OrderBook, e: Event)
    ensures var o := ApplyOrders(ob, e);
      && o.intents == (if e.IntentCommitted? then ob.intents[e.intent.ref := e.intent] else ob.intents)
      && o.cancelling == (if e.CancelRequested? then ob.cancelling + {e.ref}
                          else if e.Terminal() then ob.cancelling - {e.ref}
                          else if e.ReconciliationCompleted? then {} else ob.cancelling)
      && o.working == (if e.OrderWorking? && e.ref in ob.intents then ob.working + {e.ref}
                       else if e.Terminal() then ob.working - {e.ref} else ob.working)
      && o.liveSend == (if e.SendAttemptStarted? then Some(e.ref)
                        else if (e.Terminal() || (e.SendCallFailed? && e.rejected)) && e.ref in ob.intents then None
                        else ob.liveSend)
  {
  }

  /** What one record means to the check of flatten intents. */
  lemma FlattenStep(config: RiskConfig, log: seq<Record>, k: nat)
    requires k < |log|
    ensures var ob, ob', e := Fold(config, log[..k]).orders, Fold(config, log[..k + 1]).orders, log[k].event;
      && ob'.intents.Keys == (if e.IntentCommitted? then ob.intents.Keys + {e.intent.ref} else ob.intents.Keys)
      && ob'.working == (if e.OrderWorking? && e.ref in ob.intents.Keys then ob.working + {e.ref}
                         else if e.Terminal() then ob.working - {e.ref} else ob.working)
      && Findings(FlattenAlone, config, log[..k + 1]) == Findings(FlattenAlone, config, log[..k]) +
           (if e.IntentCommitted? && e.intent.target == 0 && ob.working - {e.intent.ref} != {} then [Finding(9, k + 1)] else [])
  {
    Step(FlattenAlone, config, log, k);
    OrdersPointwise(Fold(config, log[..k]).orders, log[k].event);
    hide Fold, Findings, Lawful, ApplyOrders, ApplyLedger, ApplyGates, ApplyCounters, ApplyWatch;
  }

  /** What one record means to the check of the mode gate. */
  lemma ModeStep(config: RiskConfig, log: seq<Record>, k: nat)
    requires k < |log|
    ensures var v, w, e := Fold(config, log[..k]), Fold(config, log[..k + 1]), log[k].event;
      && w.gates.mode == (if e.OperatingModeChanged? then e.mode else if e.ProcessStateRestored? then e.restoredMode
                          else v.gates.mode)
      && w.orders.intents == (if e.IntentCommitted? then v.orders.intents[e.intent.ref := e.intent] else v.orders.intents)
      && v.count == k
      && Findings(ModeGate, config, log[..k + 1]) == Findings(ModeGate, config, log[..k]) + ModeBreach(v, log[k])
  {
    Step(ModeGate, config, log, k);
    OrdersPointwise(Fold(config, log[..k]).orders, log[k].event);
    GatesPointwise(Fold(config, log[..k]).gates, k + 1, log[k].event);
    hide Fold, Findings, Lawful, ApplyOrders, ApplyLedger, ApplyGates, ApplyCounters, ApplyWatch;
  }

  /** What one record means to the checks of what is awaited and what must halt. */
  lemma WatchStep(check: Check, config: RiskConfig, log: seq<Record>, k: nat)
    requires k < |log|
    ensures var v, w, e := Fold(config, log[..k]), Fold(config, log[..k + 1]), log[k].event;
      && w.watch == ApplyWatch(v.watch, e) && v.count == k
      && w.gates.loaded == (v.gates.loaded || e.RiskConfigLoaded?)
      && w.gates.proven == (v.gates.proven || (e.RiskSelfTestPassed? && v.gates.loaded))
      && Findings(check, config, log[..k + 1]) == Findings(check, config, log[..k]) + Verdict(check, v, log[k])
  {
    Step(check, config, log, k);
    WatchPointwise(Fold(config, log[..k]), log[k]);
    hide Fold, Apply, ApplyWatch, Verdict, Findings;
  }

  lemma SelfTestStep(config: RiskConfig, log: seq<Record>, k: nat)
    requires k < |log|
    ensures var v, w, e := Fold(config, log[..k]), Fold(config, log[..k + 1]), log[k].event;
      && w.gates.loaded == (v.gates.loaded || e.RiskConfigLoaded?)
      && w.gates.proven == (v.gates.proven || (e.RiskSelfTestPassed? && v.gates.loaded))
      && Findings(SelfTested, config, log[..k + 1]) == Findings(SelfTested, config, log[..k]) +
           (if (e.ProcessStarted? || e.IntentCommitted?) && !v.gates.proven then [Finding(21, k + 1)] else [])
  {
    ghost var v, e := Fold(config, log[..k]), log[k].event;
    assert Unproven(v, log[k]) ==
           (if (e.ProcessStarted? || e.IntentCommitted?) && !v.gates.proven then [Finding(21, v.count + 1)] else []);
    WatchStep(SelfTested, config, log, k);
    hide Fold, Findings, ApplyWatch, Apply, Unproven;
  }

  lemma AwaitStep(config: RiskConfig, log: seq<Record>, k: nat)
    requires k < |log|
    ensures var v, w, e := Fold(config, log[..k]), Fold(config, log[..k + 1]), log[k].event;
      && w.watch.pending ==
           (if e.SendAttemptStarted? then v.watch.pending + {e.ref}
            else if e.OrderFilled? || e.OrderAbsentConfirmed? || e.BrokerAckReceived? || (e.SendCallFailed? && e.rejected)
            then v.watch.pending - {e.ref}
            else if e.ReconciliationCompleted? then {} else v.watch.pending)
      && Findings(NothingAwaited, config, log[..k + 1]) == Findings(NothingAwaited, config, log[..k]) +
           (if e.SendAttemptStarted? && v.watch.pending != {} then [Finding(4, k + 1)] else [])
  {
    WatchStep(NothingAwaited, config, log, k);
    AwaitPointwise(Fold(config, log[..k]).watch, log[k].event);
    hide Fold, Findings, ApplyWatch, Apply;
  }

  lemma AwaitPointwise(a: Watch, e: Event)
    ensures ApplyWatch(a, e).pending ==
            (if e.SendAttemptStarted? then a.pending + {e.ref}
             else if e.OrderFilled? || e.OrderAbsentConfirmed? || e.BrokerAckReceived? || (e.SendCallFailed? && e.rejected)
             then a.pending - {e.ref}
             else if e.ReconciliationCompleted? then {} else a.pending)
  {
  }

  lemma HaltStep(alarm: Alarm, config: RiskConfig, log: seq<Record>, k: nat)
    requires k < |log|
    ensures var v, w, e := Fold(config, log[..k]), Fold(config, log[..k + 1]), log[k].event;
      && Flag(alarm, w) == (Raises(alarm, e) || (Flag(alarm, v) && !e.Halts() && !e.SendAttemptStarted?))
      && Findings(Halted(alarm), config, log[..k + 1]) == Findings(Halted(alarm), config, log[..k]) +
           (if e.SendAttemptStarted? && Flag(alarm, v) then [Finding(if alarm.FACT? then 14 else 18, k + 1)] else [])
  {
    Step(Halted(alarm), config, log, k);
    FlagNext(alarm, Fold(config, log[..k]), log[k]);
    hide Fold, Findings, Flag, Apply;
  }

  lemma WatchPointwise(v: View, r: Record)
    ensures var w, e := Apply(v, r), r.event;
      && w.watch == ApplyWatch(v.watch, e)
      && w.gates.loaded == (v.gates.loaded || e.RiskConfigLoaded?)
      && w.gates.proven == (v.gates.proven || (e.RiskSelfTestPassed? && v.gates.loaded))
  {
    assert Apply(v, r).gates == ApplyGates(v.gates, v.count + 1, r.event);
    hide Apply, ApplyWatch;
    match r.event
    case RiskConfigLoaded =>
    case RiskSelfTestPassed =>
    case _ =>
  }

  // ---- the rules -------------------------------------------------------

  /** 1: each decision id accepted at most once. */
  function DecisionTwice(v: View, r: Record): seq<Finding> {
    if r.event.TargetReceived? && r.event.decision in v.decisions then [Finding(1, v.count + 1)] else []
  }

  /** 2: every send attempt follows its committed intent. */
  function SendUncommitted(v: View, r: Record): seq<Finding> {
    if r.event.SendAttemptStarted? && r.event.ref !in v.orders.intents then [Finding(2, v.count + 1)] else []
  }

  /** 3: at most one unterminated intent. */
  function SecondLiveIntent(v: View, r: Record): seq<Finding> {
    if r.event.SendAttemptStarted? && v.orders.liveSend.Some? && v.orders.liveSend.value != r.event.ref
    then [Finding(3, v.count + 1)] else []
  }

  /** 5: no send while a cancel is outstanding. */
  function SendDuringCancel(v: View, r: Record): seq<Finding> {
    if r.event.SendAttemptStarted? && v.orders.cancelling != {} then [Finding(5, v.count + 1)] else []
  }

  /** 6: no broker write on an untrusted link or account. */
  function UntrustedWrite(v: View, r: Record): seq<Finding> {
    if (r.event.SendAttemptStarted? || r.event.CancelRequested?) && !(v.gates.link.CONNECTED? && v.gates.sync.SYNCED?)
    then [Finding(6, v.count + 1)] else []
  }

  /** 7 and 8: opening requires NORMAL, FLATTEN_ONLY permits target zero only, and
      HALTED permits nothing. */
  function ModeBreach(v: View, r: Record): seq<Finding> {
    if !r.event.SendAttemptStarted? then []
    else
      var known := r.event.ref in v.orders.intents;
      var target := if known then v.orders.intents[r.event.ref].target else 0;
      var position := if known then v.orders.intents[r.event.ref].positionSnapshot else 0;
      (if !IsClosing(target, position) && !v.gates.mode.NORMAL? then [Finding(7, v.count + 1)] else [])
      + (if v.gates.mode.FLATTEN_ONLY? && target != 0 then [Finding(8, v.count + 1)] else [])
      + (if v.gates.mode.HALTED? then [Finding(7, v.count + 1)] else [])
  }

  /** 9: no flatten intent while another order is working. */
  function FlattenBeside(v: View, r: Record): seq<Finding> {
    if r.event.IntentCommitted? && r.event.intent.target == 0 && v.orders.working - {r.event.intent.ref} != {}
    then [Finding(9, v.count + 1)] else []
  }

  /** 10: after a process start, no send before a completed reconciliation. */
  function SendUnreconciled(v: View, r: Record): seq<Finding> {
    if r.event.SendAttemptStarted? && v.gates.started && !v.gates.reconciled then [Finding(10, v.count + 1)] else []
  }

  /** 11: no intent at or after its expiry. */
  function IntentExpired(v: View, r: Record): seq<Finding> {
    if r.event.IntentCommitted? && r.ts >= r.event.intent.validUntil then [Finding(11, v.count + 1)] else []
  }

  /** 12: each execution id booked at most once. */
  function ExecutionTwice(v: View, r: Record): seq<Finding> {
    if r.event.ExecutionReceived? && r.event.execution.id in v.ledger.booked then [Finding(12, v.count + 1)] else []
  }

  /** 15: a recorded residual boots into FLATTEN_ONLY or HALTED. */
  function ResidualOpened(v: View, r: Record): seq<Finding> {
    if r.event.IntentCommitted? && v.gates.armed && !v.gates.bootMode.FLATTEN_ONLY? && !v.gates.bootMode.HALTED?
    then [Finding(15, v.count + 1)] else []
  }

  /** 21: a configuration is proven before a process counts as started or an intent
      uses it. */
  function Unproven(v: View, r: Record): seq<Finding> {
    if (r.event.ProcessStarted? || r.event.IntentCommitted?) && !v.gates.proven then [Finding(21, v.count + 1)] else []
  }

  /** 4: no send while an earlier one is awaited. */
  function SendWhileAwaiting(v: View, r: Record): seq<Finding> {
    if r.event.SendAttemptStarted? && v.watch.pending != {} then [Finding(4, v.count + 1)] else []
  }

  /** 14 and 18: no send between an external fact, or a failed callback, and a HALT. */
  function SendBeforeHalt(a: Alarm, v: View, r: Record): seq<Finding> {
    if r.event.SendAttemptStarted? && Flag(a, v) then [Finding(if a.FACT? then 14 else 18, v.count + 1)] else []
  }

  function CountOf(m: map<int, nat>, day: int): nat {
    if day in m then m[day] else 0
  }

  function AmountOf(m: map<int, real>, day: int): real {
    if day in m then m[day] else 0.0
  }

  class JournalAuditor {
    const events: seq<Record>
    const config: RiskConfig

    constructor (events: seq<Record>, config: RiskConfig)
      ensures this.events == events && this.config == config
    {
      this.events, this.config := events, config;
    }

    method CheckDecisionOnce() returns (out: seq<Finding>)
      ensures out == Findings(DecisionOnce, config, events)
    {
      out := [];
      assert events[..0] == [];
      var seen: set<DecisionId> := {};
      for k := 0 to |events|
        invariant seen == Fold(config, events[..k]).decisions
        invariant out == Findings(DecisionOnce, config, events[..k])
      {
        hide Fold, Findings, Lawful, IsClosing, ApplyOrders, ApplyLedger, ApplyGates, ApplyCounters, ApplyWatch;
        Step(DecisionOnce, config, events, k);
        var e := events[k].event;
        if e.TargetReceived? {
          if e.decision in seen {
            out := out + [Finding(1, k + 1)];
          }
          seen := seen + {e.decision};
        }
      }
      assert events[..|events|] == events;
    }

    method CheckDurableBeforeSend() returns (out: seq<Finding>)
      ensures out == Findings(DurableBeforeSend, config, events)
    {
      out := [];
      assert events[..0] == [];
      var committed: set<Ref> := {};
      for k := 0 to |events|
        invariant committed == Fold(config, events[..k]).orders.intents.Keys
        invariant out == Findings(DurableBeforeSend, config, events[..k])
      {
        hide Fold, Findings, Lawful, IsClosing, ApplyOrders, ApplyLedger, ApplyGates, ApplyCounters, ApplyWatch;
        Step(DurableBeforeSend, config, events, k);
        OrdersPointwise(Fold(config, events[..k]).orders, events[k].event);
        var e := events[k].event;
        if e.IntentCommitted? {
          committed := committed + {e.intent.ref};
        } else if e.SendAttemptStarted? {
          if e.ref !in committed {
            out := out + [Finding(2, k + 1)];
          }
        }
      }
      assert events[..|events|] == events;
    }

    method CheckOneLiveIntent() returns (out: seq<Finding>)
      ensures out == Findings(OneLiveIntent, config, events)
    {
      out := [];
      assert events[..0] == [];
      var live: Option<Ref> := None;
      var byRef: set<Ref> := {};
      for k := 0 to |events|
        invariant live == Fold(config, events[..k]).orders.liveSend
        invariant byRef == Fold(config, events[..k]).orders.intents.Keys
        invariant out == Findings(OneLiveIntent, config, events[..k])
      {
        hide Fold, Findings, Lawful, IsClosing, ApplyOrders, ApplyLedger, ApplyGates, ApplyCounters, ApplyWatch;
        Step(OneLiveIntent, config, events, k);
        OrdersPointwise(Fold(config, events[..k]).orders, events[k].event);
        var e := events[k].event;
        if e.IntentCommitted? {
          byRef := byRef + {e.intent.ref};
        }
        if e.SendAttemptStarted? {
          if live.Some? && live.value != e.ref {
            out := out + [Finding(3, k + 1)];
          }
          live := Some(e.ref);
        } else if e.Terminal() || (e.SendCallFailed? && e.rejected) {
          if e.ref in byRef {
            live := None;
          }
        }
      }
      assert events[..|events|] == events;
    }

    method CheckNoSendWhileCancelling() returns (out: seq<Finding>)
      ensures out == Findings(NoSendWhileCancelling, config, events)
    {
      out := [];
      assert events[..0] == [];
      var pending: set<Ref> := {};
      for k := 0 to |events|
        invariant pending == Fold(config, events[..k]).orders.cancelling
        invariant out == Findings(NoSendWhileCancelling, config, events[..k])
      {
        hide Fold, Findings, Lawful, IsClosing, ApplyOrders, ApplyLedger, ApplyGates, ApplyCounters, ApplyWatch;
        Step(NoSendWhileCancelling, config, events, k);
        OrdersPointwise(Fold(config, events[..k]).orders, events[k].event);
        var e := events[k].event;
        if e.CancelRequested? {
          pending := pending + {e.ref};
        } else if e.Terminal() {
          pending := pending - {e.ref};
        } else if e.ReconciliationCompleted? {
          pending := {};
        } else if e.SendAttemptStarted? && pending != {} {
          out := out + [Finding(5, k + 1)];
        }
      }
      assert events[..|events|] == events;
    }

    method CheckTrustedWrites() returns (out: seq<Finding>)
      ensures out == Findings(TrustedWrites, config, events)
    {
      out := [];
      assert events[..0] == [];
      var link, sync := DISCONNECTED, UNVERIFIED;
      for k := 0 to |events|
        invariant link == Fold(config, events[..k]).gates.link && sync == Fold(config, events[..k]).gates.sync
        invariant out == Findings(TrustedWrites, config, events[..k])
      {
        hide Fold, Findings, Lawful, IsClosing, ApplyOrders, ApplyLedger, ApplyGates, ApplyCounters, ApplyWatch;
        Step(TrustedWrites, config, events, k);
        GatesPointwise(Fold(config, events[..k]).gates, k + 1, events[k].event);
        var e := events[k].event;
        if e.LinkStateChanged? {
          link := e.link;
        } else if e.SyncStateChanged? {
          sync := e.sync;
        } else if e.SendAttemptStarted? || e.CancelRequested? {
          if link != CONNECTED || sync != SYNCED {
            out := out + [Finding(6, k + 1)];
          }
        }
      }
      assert events[..|events|] == events;
    }

    method CheckModeGate() returns (out: seq<Finding>)
      ensures out == Findings(ModeGate, config, events)
    {
      out := [];
      assert events[..0] == [];
      var mode := NORMAL;
      var intents: map<Ref, OrderIntent> := map[];
      for k := 0 to |events|
        invariant mode == Fold(config, events[..k]).gates.mode
        invariant intents == Fold(config, events[..k]).orders.intents
        invariant out == Findings(ModeGate, config, events[..k])
      {
        ModeStep(config, events, k);
        hide Fold, Findings, Apply, Verdict, IsClosing;
        var e := events[k].event;
        if e.OperatingModeChanged? {
          mode := e.mode;
        } else if e.ProcessStateRestored? {
          mode := e.restoredMode;
        } else if e.IntentCommitted? {
          intents := intents[e.intent.ref := e.intent];
        } else if e.SendAttemptStarted? {
          var target := if e.ref in intents then intents[e.ref].target else 0;
          var position := if e.ref in intents then intents[e.ref].positionSnapshot else 0;
          var opening := if !IsClosing(target, position) && mode != NORMAL then [Finding(7, k + 1)] else [];
          var nonzero := if mode == FLATTEN_ONLY && target != 0 then [Finding(8, k + 1)] else [];
          var halted := if mode == HALTED then [Finding(7, k + 1)] else [];
          out := out + (opening + nonzero + halted);
        }
      }
      assert events[..|events|] == events;
    }

    method CheckFlattenAlone() returns (out: seq<Finding>)
      ensures out == Findings(FlattenAlone, config, events)
    {
      out := [];
      assert events[..0] == [];
      var working: set<Ref> := {};
      var byRef: set<Ref> := {};
      for k := 0 to |events|
        invariant working == Fold(config, events[..k]).orders.working
        invariant byRef == Fold(config, events[..k]).orders.intents.Keys
        invariant out == Findings(FlattenAlone, config, events[..k])
      {
        FlattenStep(config, events, k);
        hide Fold, Findings, Apply, Verdict, FlattenBeside;
        var e := events[k].event;
        if e.IntentCommitted? {
          byRef := byRef + {e.intent.ref};
        }
        if e.OrderWorking? {
          if e.ref in byRef {
            working := working + {e.ref};
          }
        } else if e.Terminal() {
          working := working - {e.ref};
        } else if e.IntentCommitted? {
          if e.intent.target == 0 && working - {e.intent.ref} != {} {
            out := out + [Finding(9, k + 1)];
          }
        }
      }
      assert events[..|events|] == events;
    }

    method CheckReconciledFirst() returns (out: seq<Finding>)
      ensures out == Findings(ReconciledFirst, config, events)
    {
      out := [];
      assert events[..0] == [];
      var armed, reconciled := false, false;
      for k := 0 to |events|
        invariant armed == Fold(config, events[..k]).gates.started
        invariant reconciled == Fold(config, events[..k]).gates.reconciled
        invariant out == Findings(ReconciledFirst, config, events[..k])
      {
        hide Fold, Findings, Lawful, IsClosing, ApplyOrders, ApplyLedger, ApplyGates, ApplyCounters, ApplyWatch;
        Step(ReconciledFirst, config, events, k);
        GatesPointwise(Fold(config, events[..k]).gates, k + 1, events[k].event);
        var e := events[k].event;
        if e.ProcessStarted? {
          armed, reconciled := true, false;
        } else if e.ReconciliationCompleted? {
          reconciled := true;
        } else if e.SendAttemptStarted? && armed && !reconciled {
          out := out + [Finding(10, k + 1)];
        }
      }
      assert events[..|events|] == events;
    }

    method CheckNotExpired() returns (out: seq<Finding>)
      ensures out == Findings(NotExpired, config, events)
    {
      out := [];
      assert events[..0] == [];
      for k := 0 to |events|
        invariant out == Findings(NotExpired, config, events[..k])
      {
        hide Fold, Findings, Lawful, IsClosing, ApplyOrders, ApplyLedger, ApplyGates, ApplyCounters, ApplyWatch;
        Step(NotExpired, config, events, k);
        var e := events[k].event;
        if e.IntentCommitted? {
          if events[k].ts >= e.intent.validUntil {
            out := out + [Finding(11, k + 1)];
          }
        }
      }
      assert events[..|events|] == events;
    }

    method CheckExecutionOnce() returns (out: seq<Finding>)
      ensures out == Findings(ExecutionOnce, config, events)
    {
      out := [];
      assert events[..0] == [];
      var seen: set<ExecId> := {};
      for k := 0 to |events|
        invariant seen == Fold(config, events[..k]).ledger.booked.Keys
        invariant out == Findings(ExecutionOnce, config, events[..k])
      {
        hide Fold, Findings, Lawful, IsClosing, ApplyOrders, ApplyGates, ApplyCounters, ApplyWatch;
        Step(ExecutionOnce, config, events, k);
        var e := events[k].event;
        if e.ExecutionReceived? {
          if e.execution.id in seen {
            out := out + [Finding(12, k + 1)];
          }
          seen := seen + {e.execution.id};
        }
      }
      assert events[..|events|] == events;
    }

    method CheckResidualBoots() returns (out: seq<Finding>)
      ensures out == Findings(ResidualBoots, config, events)
    {
      out := [];
      assert events[..0] == [];
      var residual := 0;
      var armed := false;
      var mode := NORMAL;
      for k := 0 to |events|
        invariant residual == Fold(config, events[..k]).gates.residual
        invariant armed == Fold(config, events[..k]).gates.armed
        invariant mode == Fold(config, events[..k]).gates.bootMode
        invariant out == Findings(ResidualBoots, config, events[..k])
      {
        hide Fold, Findings, Lawful, IsClosing, ApplyOrders, ApplyLedger, ApplyGates, ApplyCounters, ApplyWatch;
        Step(ResidualBoots, config, events, k);
        ResidualPointwise(Fold(config, events[..k]).gates, k + 1, events[k].event);
        var e := events[k].event;
        if e.EodFlattenFailed? {
          residual := if e.residual != 0 then e.residual else e.workingSigned;
        } else if e.EodFlattenCompleted? {
          residual := 0;
        } else if e.ProcessStarted? {
          armed := residual != 0;
          mode := NORMAL;
        } else if e.OperatingModeChanged? {
          mode := e.mode;
        } else if e.ProcessStateRestored? {
          mode := e.restoredMode;
        } else if e.IntentCommitted? && armed {
          if mode != FLATTEN_ONLY && mode != HALTED {
            out := out + [Finding(15, k + 1)];
            armed := false;
          }
        }
      }
      assert events[..|events|] == events;
    }

    method CheckSelfTested() returns (out: seq<Finding>)
      ensures out == Findings(SelfTested, config, events)
    {
      out := [];
      assert events[..0] == [];
      var loaded, proven := false, false;
      for k := 0 to |events|
        invariant loaded == Fold(config, events[..k]).gates.loaded && proven == Fold(config, events[..k]).gates.proven
        invariant out == Findings(SelfTested, config, events[..k])
      {
        SelfTestStep(config, events, k);
        hide Fold, Findings;
        var e := events[k].event;
        if e.RiskConfigLoaded? {
          loaded := true;
        } else if e.RiskSelfTestPassed? {
          if loaded {
            proven := true;
          }
        } else if e.ProcessStarted? && !proven {
          out := out + [Finding(21, k + 1)];
        } else if e.IntentCommitted? {
          if !proven {
            out := out + [Finding(21, k + 1)];
          }
        }
      }
      assert events[..|events|] == events;
    }

    method CheckNothingAwaited() returns (out: seq<Finding>)
      ensures out == Findings(NothingAwaited, config, events)
    {
      out := [];
      assert events[..0] == [];
      var pending: set<Ref> := {};
      for k := 0 to |events|
        invariant pending == Fold(config, events[..k]).watch.pending
        invariant out == Findings(NothingAwaited, config, events[..k])
      {
        AwaitStep(config, events, k);
        hide Fold, Findings;
        var e := events[k].event;
        if e.SendAttemptStarted? {
          if pending != {} {
            out := out + [Finding(4, k + 1)];
          }
          pending := pending + {e.ref};
        } else if e.OrderFilled? || e.OrderAbsentConfirmed? || e.BrokerAckReceived? {
          pending := pending - {e.ref};
        } else if e.SendCallFailed? {
          if e.rejected {
            pending := pending - {e.ref};
          }
        } else if e.ReconciliationCompleted? {
          pending := {};
        }
      }
      assert events[..|events|] == events;
    }

    /** Two checks of one shape: an alarm arms, a HALT disarms, and a send is reported
        and disarms too. */
    method CheckHalted(alarm: Alarm) returns (out: seq<Finding>)
      ensures out == Findings(Halted(alarm), config, events)
    {
      out := [];
      assert events[..0] == [];
      var armed := false;
      for k := 0 to |events|
        invariant armed == Flag(alarm, Fold(config, events[..k]))
        invariant out == Findings(Halted(alarm), config, events[..k])
      {
        HaltStep(alarm, config, events, k);
        hide Fold, Findings, Flag;
        var e := events[k].event;
        if Raises(alarm, e) {
          armed := true;
        } else if armed {
          if (e.OperatingModeChanged? && e.mode == HALTED) || e.HaltCauseAdded? {
            armed := false;
          } else if e.SendAttemptStarted? {
            out := out + [Finding(if alarm.FACT? then 14 else 18, k + 1)];
            armed := false;
          }
        }
      }
      assert events[..|events|] == events;
    }

    /** 16: the caps, recomputed from the send attempts alone. */
    method CheckRunawayCaps() returns (out: seq<Finding>)
      ensures out == CapFindings(config, events)
    {
      out := [];
      assert events[..0] == [];
      var orders: map<int, nat> := map[];
      var shares: map<int, nat> := map[];
      var notional: map<int, real> := map[];
      var stamps: seq<Instant> := [];
      for k := 0 to |events|
        invariant Tallies(orders, shares, notional, stamps, events[..k])
        invariant out == CapFindings(config, events[..k])
      {
        hide Tallies, CapFindings, CapVerdict, UtcDay, Notional, PriceOrZero, CountOf, AmountOf;
        TallyStep(config, events, k, orders, shares, notional, stamps);
        var e, ts := events[k].event, events[k].ts;
        if e.SendAttemptStarted? {
          var day := UtcDay(ts);
          orders := orders[day := CountOf(orders, day) + 1];
          shares := shares[day := CountOf(shares, day) + e.sendQuantity];
          notional := notional[day := AmountOf(notional, day) + Notional(PriceOrZero(e.price), e.sendQuantity)];
          stamps := stamps + [ts];
          var window := CountRecent(stamps, ts);
          out := out + ((if orders[day] > config.maxOrdersPerDay then [Finding(16, k + 1)] else [])
                      + (if shares[day] > config.maxDailyShares then [Finding(16, k + 1)] else [])
                      + (if notional[day] > config.maxDailyNotional then [Finding(16, k + 1)] else [])
                      + (if window > config.maxOrdersPerMinute then [Finding(16, k + 1)] else []));
          VerdictFromTallies(config, events, k, orders, shares, notional, stamps);
        }
      }
      assert events[..|events|] == events;
    }

    /** Every check. On a log the controller can write they report nothing exactly if no
        burst of orders straddles UTC midnight, no order was sent after a rejection that
        was the first word of its predecessor, and no alarm was left behind. */
    method Audit() returns (out: seq<Finding>)
      ensures Fold(config, events).lawful && config.Valid() ==> (out == [] <==> NothingToReport(config, events))
      ensures out == [] ==> forall check :: Findings(check, config, events) == []
      ensures out == [] ==> NeverLeftHalt(events) && CapFindings(config, events) == []
    {
      hide Fold, Findings, CapFindings, QuietMidnights, NeverLeftHalt, HaltFindings, RiskConfig.Valid, HeardOut, Answered;
      var always := AuditAlways();
      var i4 := CheckNothingAwaited();
      var i14 := CheckHalted(FACT);
      var i18 := CheckHalted(FAILURE);
      var i16 := CheckRunawayCaps();
      var i22 := CheckHaltSurvives();
      out := always + i4 + i14 + i18 + i16 + i22;
      if Fold(config, events).lawful && config.Valid() {
        NothingAwaitedIff(config, events);
        HaltedIff(FACT, config, events);
        HaltedIff(FAILURE, config, events);
        LawfulNeverLeaves(config, events);
        CapsCleanIff(config, events);
      }
      if out == [] {
        forall check: Check
          ensures Findings(check, config, events) == []
        {
          if check.Halted? {
            match check.alarm
            case FACT =>
            case FAILURE =>
          }
        }
      }
    }

    /** The checks that no log of the controller can fail. */
    method AuditAlways() returns (out: seq<Finding>)
      ensures out == [] <==> forall check: Check :: check.AlwaysKept() ==> Findings(check, config, events) == []
      ensures Fold(config, events).lawful ==> out == []
    {
      hide Fold, Findings;
      var i1 := CheckDecisionOnce();
      var i2 := CheckDurableBeforeSend();
      var i3 := CheckOneLiveIntent();
      var i5 := CheckNoSendWhileCancelling();
      var i10 := CheckReconciledFirst();
      var i11 := CheckNotExpired();
      var i12 := CheckExecutionOnce();
      var i6 := CheckTrustedWrites();
      var i7 := CheckModeGate();
      var i9 := CheckFlattenAlone();
      var i15 := CheckResidualBoots();
      var i21 := CheckSelfTested();
      out := i1 + i2 + i3 + i5 + i10 + i11 + i12 + i6 + i7 + i9 + i15 + i21;
      if out == [] {
        forall check: Check | check.AlwaysKept()
          ensures Findings(check, config, events) == []
        {
          match check
          case DecisionOnce =>
          case DurableBeforeSend =>
          case OneLiveIntent =>
          case NoSendWhileCancelling =>
          case TrustedWrites =>
          case ModeGate =>
          case FlattenAlone =>
          case ReconciledFirst =>
          case NotExpired =>
          case ExecutionOnce =>
          case ResidualBoots =>
          case SelfTested =>
        }
      }
      if Fold(config, events).lawful {
        forall check: Check | check.AlwaysKept()
          ensures Findings(check, config, events) == []
        {
          LawfulLogIsClean(check, config, events);
        }
      }
    }

    /** 22: only an acknowledgement leaves a HALT. */
    method CheckHaltSurvives() returns (out: seq<Finding>)
      ensures out == HaltFindings(events)
      ensures out == [] <==> NeverLeftHalt(events)
    {
      out := [];
      var halt: Option<nat> := None;
      for k := 0 to |events|
        invariant halt == AuditedHalt(events[..k])
        invariant out == HaltFindings(events[..k])
      {
        assert events[..k + 1][..k] == events[..k];
        var e := events[k].event;
        if e.OperatingModeChanged? && e.mode == HALTED {
          halt := Some(k + 1);
        } else if e.HaltCauseAdded? {
          halt := Some(k + 1);
        } else if e.HaltAcknowledged? {
          if halt == Some(e.haltSeq) {
            halt := None;
          }
        } else if halt.Some? {
          if e.OperatingModeChanged? && e.mode != HALTED {
            out := out + [Finding(22, k + 1)];
            halt := None;
          }
        }
      }
      assert events[..|events|] == events;
      HaltFindingsIff(events);
    }
  }

  function HaltFindings(log: seq<Record>): seq<Finding> {
    if log == [] then []
    else
      var m := |log| - 1;
      HaltFindings(log[..m])
      + (if LeavesHalt(AuditedHalt(log[..m]), log[m].event) then [Finding(22, |log|)] else [])
  }

  lemma {:induction false} HaltFindingsIff(log: seq<Record>)
    ensures HaltFindings(log) == [] <==> NeverLeftHalt(log)
  {
    hide AuditedHalt, LeavesHalt;
    if log != [] {
      HaltFindingsIff(log[..|log| - 1]);
      NeverLeftSnoc(log);
    }
  }

  lemma NeverLeftSnoc(log: seq<Record>)
    requires log != []
    ensures var m := |log| - 1;
      NeverLeftHalt(log) <==> NeverLeftHalt(log[..m]) && !LeavesHalt(AuditedHalt(log[..m]), log[m].event)
  {
    hide AuditedHalt, LeavesHalt;
    var m := |log| - 1;
    forall k | 0 <= k < m
      ensures log[..m][..k] == log[..k] && log[..m][k] == log[k]
    {
    }
  }

  // ---- what the controller writes passes -----------------------------------

  /** No check has anything to say about a record the controller may append. */
  lemma LawfulRecordIsClean(check: Check, v: View, r: Record)
    requires BookShape(v.orders) && Lawful(v, r) && check.AlwaysKept()
    ensures Verdict(check, v, r) == []
  {
  }

  /** And so none has anything to say about a log of such records. */
  lemma {:induction false} LawfulLogIsClean(check: Check, config: RiskConfig, log: seq<Record>)
    requires Fold(config, log).lawful && check.AlwaysKept()
    ensures Findings(check, config, log) == []
  {
    if log != [] {
      var m := |log| - 1;
      LawfulLogIsClean(check, config, log[..m]);
      LawfulLogShape(config, log[..m]);
      LawfulRecordIsClean(check, Fold(config, log[..m]), log[m]);
    }
  }

  // ---- 4, 14, 18: when exactly they are silent ------------------------------

  /** A check is silent exactly if it has nothing to say of any record. */
  lemma {:induction false} SilentIff(check: Check, config: RiskConfig, log: seq<Record>)
    ensures Findings(check, config, log) == []
            <==> forall j :: 0 <= j < |log| ==> Verdict(check, Fold(config, log[..j]), log[j]) == []
  {
    hide Verdict, Fold;
    if log != [] {
      var m := |log| - 1;
      SilentIff(check, config, log[..m]);
      forall j | 0 <= j < m
        ensures log[..m][..j] == log[..j] && log[..m][j] == log[j]
      {
      }
    }
  }

  lemma NothingAwaitedIff(config: RiskConfig, log: seq<Record>)
    requires Fold(config, log).lawful
    ensures Findings(NothingAwaited, config, log) == [] <==> HeardOut(log)
  {
    hide Fold, HeardOut, Findings;
    SilentIff(NothingAwaited, config, log);
    NeverAwaitingIff(config, log);
  }

  lemma HaltedIff(alarm: Alarm, config: RiskConfig, log: seq<Record>)
    requires Fold(config, log).lawful
    ensures Findings(Halted(alarm), config, log) == [] <==> Answered(alarm, log)
  {
    hide Fold, Answered, Findings, Flag;
    SilentIff(Halted(alarm), config, log);
    NeverFlaggedIff(alarm, config, log);
  }

  /** The condition under which the whole audit passes. */
  ghost predicate NothingToReport(config: RiskConfig, log: seq<Record>) {
    QuietMidnights(config, log) && HeardOut(log) && Answered(FACT, log) && Answered(FAILURE, log)
  }

  // ---- 16: the runaway caps -------------------------------------------------

  /** Sends less than 60 seconds before `now`, whatever their day. */
  function RecentAll(log: seq<Record>, now: Instant): nat {
    if log == [] then 0
    else RecentAll(log[..|log| - 1], now) +
         (if log[|log| - 1].event.SendAttemptStarted? && now - log[|log| - 1].ts < 60 then 1 else 0)
  }

  predicate MinuteBreach(config: RiskConfig, log: seq<Record>)
    requires log != []
  {
    RecentAll(log, log[|log| - 1].ts) > config.maxOrdersPerMinute
  }

  /** What the check keeps by day, and its stamps, against the log so far. */
  ghost predicate Tallies(orders: map<int, nat>, shares: map<int, nat>, notional: map<int, real>,
                          stamps: seq<Instant>, log: seq<Record>)
  {
    && (forall d :: CountOf(orders, d) == SendsOn(log, d))
    && (forall d :: CountOf(shares, d) == SharesOn(log, d))
    && (forall d :: AmountOf(notional, d) == NotionalOn(log, d))
    && (forall t :: Recent(stamps, t) == RecentAll(log, t))
  }

  lemma TallyStep(config: RiskConfig, log: seq<Record>, k: nat, orders: map<int, nat>, shares: map<int, nat>,
                  notional: map<int, real>, stamps: seq<Instant>)
    requires k < |log| && Tallies(orders, shares, notional, stamps, log[..k])
    ensures CapFindings(config, log[..k + 1]) == CapFindings(config, log[..k]) + CapVerdict(config, log[..k + 1])
    ensures var e, day := log[k].event, UtcDay(log[k].ts);
      if e.SendAttemptStarted?
      then Tallies(orders[day := CountOf(orders, day) + 1],
                   shares[day := CountOf(shares, day) + e.sendQuantity],
                   notional[day := AmountOf(notional, day) + Notional(PriceOrZero(e.price), e.sendQuantity)],
                   stamps + [log[k].ts], log[..k + 1])
      else Tallies(orders, shares, notional, stamps, log[..k + 1])
           && CapFindings(config, log[..k + 1]) == CapFindings(config, log[..k])
  {
    assert log[..k + 1][..k] == log[..k];
    assert (stamps + [log[k].ts])[..|stamps|] == stamps;
    var old', new' := log[..k], log[..k + 1];
    assert CapFindings(config, old') + [] == CapFindings(config, old');
    if !log[k].event.SendAttemptStarted? {
      assert new'[|new'| - 1] == log[k];
      assert CapVerdict(config, new') == [];
    } else {
      var e, day := log[k].event, UtcDay(log[k].ts);
      var orders', shares' := orders[day := CountOf(orders, day) + 1], shares[day := CountOf(shares, day) + e.sendQuantity];
      var notional' := notional[day := AmountOf(notional, day) + Notional(PriceOrZero(e.price), e.sendQuantity)];
      forall d
        ensures CountOf(orders', d) == SendsOn(new', d)
        ensures CountOf(shares', d) == SharesOn(new', d)
        ensures AmountOf(notional', d) == NotionalOn(new', d)
      {
        assert CountOf(orders, d) == SendsOn(old', d) && CountOf(shares, d) == SharesOn(old', d);
        assert AmountOf(notional, d) == NotionalOn(old', d);
      }
      forall t
        ensures Recent(stamps + [log[k].ts], t) == RecentAll(new', t)
      {
        assert Recent(stamps, t) == RecentAll(old', t);
      }
    }
  }

  lemma VerdictFromTallies(config: RiskConfig, log: seq<Record>, k: nat, orders: map<int, nat>, shares: map<int, nat>,
                           notional: map<int, real>, stamps: seq<Instant>)
    requires k < |log| && log[k].event.SendAttemptStarted?
    requires Tallies(orders, shares, notional, stamps, log[..k + 1])
    requires var day := UtcDay(log[k].ts); day in orders && day in shares && day in notional
    ensures var day := UtcDay(log[k].ts);
      CapVerdict(config, log[..k + 1]) ==
        (if orders[day] > config.maxOrdersPerDay then [Finding(16, k + 1)] else [])
        + (if shares[day] > config.maxDailyShares then [Finding(16, k + 1)] else [])
        + (if notional[day] > config.maxDailyNotional then [Finding(16, k + 1)] else [])
        + (if Recent(stamps, log[k].ts) > config.maxOrdersPerMinute then [Finding(16, k + 1)] else [])
  {
    var day := UtcDay(log[k].ts);
    assert CountOf(orders, day) == SendsOn(log[..k + 1], day);
    assert CountOf(shares, day) == SharesOn(log[..k + 1], day);
    assert AmountOf(notional, day) == NotionalOn(log[..k + 1], day);
    assert Recent(stamps, log[k].ts) == RecentAll(log[..k + 1], log[k].ts);
    assert log[..k + 1][|log[..k + 1]| - 1] == log[k];
  }

  /** One finding for each cap a send attempt exceeds. */
  function CapVerdict(config: RiskConfig, log: seq<Record>): seq<Finding>
    requires log != []
  {
    if !log[|log| - 1].event.SendAttemptStarted? then []
    else
      var day := UtcDay(log[|log| - 1].ts);
      (if SendsOn(log, day) > config.maxOrdersPerDay then [Finding(16, |log|)] else [])
      + (if SharesOn(log, day) > config.maxDailyShares then [Finding(16, |log|)] else [])
      + (if NotionalOn(log, day) > config.maxDailyNotional then [Finding(16, |log|)] else [])
      + (if MinuteBreach(config, log) then [Finding(16, |log|)] else [])
  }

  function CapFindings(config: RiskConfig, log: seq<Record>): seq<Finding> {
    if log == [] then [] else CapFindings(config, log[..|log| - 1]) + CapVerdict(config, log)
  }

  /** Timestamps of a lawful log do not decrease, and a send's window reaches back
      no further than the previous day. */
  lemma {:induction false} WindowSpansTwoDays(config: RiskConfig, log: seq<Record>, now: Instant)
    requires Fold(config, log).lawful && (log == [] || log[|log| - 1].ts <= now)
    ensures RecentAll(log, now) == RecentOn(log, UtcDay(now), now) + RecentOn(log, UtcDay(now) - 1, now)
  {
    if log != [] {
      var m := |log| - 1;
      LastTsIs(config, log[..m]);
      WindowSpansTwoDays(config, log[..m], now);
      if now - log[m].ts < 60 {
        assert UtcDay(log[m].ts) == UtcDay(now) || UtcDay(log[m].ts) == UtcDay(now) - 1;
      }
    }
  }

  /** Seconds since the last UTC midnight. */
  function SinceMidnight(ts: Instant): nat {
    ts % DAY
  }

  /** The last record is a send in the first minute of a UTC day, with another send
      less than 60 seconds before it on the day before. */
  predicate StraddlesMidnight(log: seq<Record>)
    requires log != []
  {
    var last := log[|log| - 1];
    && last.event.SendAttemptStarted?
    && SinceMidnight(last.ts) < 60
    && RecentOn(log, UtcDay(last.ts) - 1, last.ts) > 0
  }

  /** A burst across midnight keeps within the cap, both sides counted together. */
  predicate QuietWindow(config: RiskConfig, log: seq<Record>)
    requires log != []
  {
    StraddlesMidnight(log) ==>
      var ts := log[|log| - 1].ts;
      RecentOn(log, UtcDay(ts), ts) + RecentOn(log, UtcDay(ts) - 1, ts) <= config.maxOrdersPerMinute
  }

  /** The condition under which the check passes. */
  predicate QuietMidnights(config: RiskConfig, log: seq<Record>) {
    log == [] || (QuietMidnights(config, log[..|log| - 1]) && QuietWindow(config, log))
  }

  /** A minute after midnight, yesterday's sends are out of the window. */
  lemma {:induction false} NothingFromYesterday(log: seq<Record>, now: Instant)
    requires SinceMidnight(now) >= 60
    ensures RecentOn(log, UtcDay(now) - 1, now) == 0
  {
    if log != [] {
      NothingFromYesterday(log[..|log| - 1], now);
    }
  }

  /** A send of a lawful log breaches the minute cap only across midnight. */
  lemma BreachIsAcrossMidnight(config: RiskConfig, log: seq<Record>)
    requires log != [] && Fold(config, log).lawful && config.Valid()
    requires log[|log| - 1].event.SendAttemptStarted?
    ensures MinuteBreach(config, log) <==> !QuietWindow(config, log)
  {
    hide Fold, RiskConfig.Valid;
    var ts := log[|log| - 1].ts;
    WindowSpansTwoDays(config, log, ts);
    MinuteCapHolds(config, log, UtcDay(ts), ts);
    WindowIsRecent(config, log, UtcDay(ts), ts);
    if SinceMidnight(ts) >= 60 {
      NothingFromYesterday(log, ts);
    }
  }

  /** On a lawful log the daily caps are never exceeded, and the minute cap exactly
      by a burst that straddles midnight. */
  lemma {:induction false} CapsCleanIff(config: RiskConfig, log: seq<Record>)
    requires Fold(config, log).lawful && config.Valid()
    ensures CapFindings(config, log) == [] <==> QuietMidnights(config, log)
  {
    if log != [] {
      var m := |log| - 1;
      CapsCleanIff(config, log[..m]);
      DailyCapsHold(config, log, UtcDay(log[m].ts));
      if log[m].event.SendAttemptStarted? {
        BreachIsAcrossMidnight(config, log);
      }
      hide Fold, RecentOn, RecentAll, SendsOn, SharesOn, NotionalOn, MinuteBreach;
      assert CapVerdict(config, log) == [] <==> QuietWindow(config, log);
    }
  }

  /** On a log whose sends all fall on one UTC day the check is silent. */
  lemma {:induction false} SingleDayIsClean(config: RiskConfig, log: seq<Record>, day: int)
    requires Fold(config, log).lawful && config.Valid()
    requires forall k :: 0 <= k < |log| && log[k].event.SendAttemptStarted? ==> UtcDay(log[k].ts) == day
    ensures QuietMidnights(config, log) && CapFindings(config, log) == []
  {
    CapsCleanIff(config, log);
    if log != [] {
      PrefixFacts(config, log, |log| - 1);
      hide Fold, CapFindings, QuietWindow, RiskConfig.Valid, UtcDay;
      SingleDayIsClean(config, log[..|log| - 1], day);
      SingleDayIsQuiet(config, log, day);
    }
  }

  lemma SingleDayIsQuiet(config: RiskConfig, log: seq<Record>, day: int)
    requires log != [] && Fold(config, log).lawful && config.Valid()
    requires forall k :: 0 <= k < |log| && log[k].event.SendAttemptStarted? ==> UtcDay(log[k].ts) == day
    ensures QuietWindow(config, log)
  {
    hide Fold;
    NoSendsOn(log, day - 1, log[|log| - 1].ts);
  }

  lemma {:induction false} NoSendsOn(log: seq<Record>, day: int, now: Instant)
    requires forall k :: 0 <= k < |log| && log[k].event.SendAttemptStarted? ==> UtcDay(log[k].ts) != day
    ensures RecentOn(log, day, now) == 0
  {
    if log != [] {
      NoSendsOn(log[..|log| - 1], day, now);
    }
  }

  /** At the time of the last record, the window is everything recent. */
  lemma {:induction false} WindowIsRecent(config: RiskConfig, log: seq<Record>, day: int, t: Instant)
    requires Fold(config, log).lawful && (log == [] || log[|log| - 1].ts <= t)
    ensures WindowOn(log, day, t) == RecentOn(log, day, t)
  {
    if log != [] {
      LastTsIs(config, log[..|log| - 1]);
      WindowIsRecent(config, log[..|log| - 1], day, t);
    }
  }
}
