/** Three rules of the offline audit that the controller does not always keep, each
    because a record the rule waits for may lawfully not come. When exactly they are
    kept is a condition on the log that names what went missing. */
module Alarms {
  import opened Wrappers
  import opened Models
  import opened RiskCounters
  import opened LogView

  // ---- 4: no send while an earlier one awaits its acknowledgement -----------------

  /** What ends the wait. The records of a cancel or a rejection carry no intent id,
      so the check does not see them. */
  predicate Discharges(e: Event, r: Ref) {
    || e == BrokerAckReceived(r) || e == OrderFilled(r) || e == OrderAbsentConfirmed(r)
    || e == SendCallFailed(r, true) || e.ReconciliationCompleted?
  }

  predicate IsSendOf(e: Event, r: Ref) {
    e.SendAttemptStarted? && e.ref == r
  }

  predicate Outstanding(log: seq<Record>, s: nat, r: Ref) {
    s < |log| && IsSendOf(log[s].event, r) && forall k :: s < k < |log| ==> !Discharges(log[k].event, r)
  }

  lemma {:induction false} PendingIffOutstanding(config: RiskConfig, log: seq<Record>, r: Ref)
    ensures r in Fold(config, log).watch.pending <==> exists s: nat :: Outstanding(log, s, r)
  {
    if log != [] {
      var m := |log| - 1;
      var before := log[..m];
      PendingIffOutstanding(config, before, r);
      PendingNext(Fold(config, before), log[m], r);
      hide Discharges, Apply;
      if s: nat :| Outstanding(before, s, r) {
        if !Discharges(log[m].event, r) {
          assert log[s] == before[s];
          forall k | s < k < |log|
            ensures !Discharges(log[k].event, r)
          {
            assert k < m ==> log[k] == before[k];
          }
          assert Outstanding(log, s, r);
        }
      }
      if IsSendOf(log[m].event, r) {
        assert Outstanding(log, m, r);
      }
      if s: nat :| Outstanding(log, s, r) && s < m {
        assert before[s] == log[s] && log[m] == log[m];
        forall k | s < k < m
          ensures !Discharges(before[k].event, r)
        {
          assert before[k] == log[k];
        }
        assert Outstanding(before, s, r);
      }
    }
  }

  lemma PendingNext(v: View, r: Record, ref: Ref)
    ensures ref in Apply(v, r).watch.pending <==>
            IsSendOf(r.event, ref) || (ref in v.watch.pending && !Discharges(r.event, ref))
  {
    hide Lawful, ApplyOrders, ApplyLedger, ApplyGates, ApplyCounters;
  }

  /** The broker rejected an order before acknowledging it, and no reconciliation has
      completed since it was sent. */
  predicate Unheard(log: seq<Record>, s: nat, i: nat) {
    && s < i < |log|
    && log[s].event.SendAttemptStarted? && log[i].event == OrderRejected(log[s].event.ref)
    && forall k :: s < k < |log| ==> log[k].event != BrokerAckReceived(log[s].event.ref) && !log[k].event.ReconciliationCompleted?
  }

  ghost predicate RefusedUnheard(log: seq<Record>) {
    exists s: nat, i: nat :: Unheard(log, s, i)
  }

  predicate Closes(e: Event, r: Ref) {
    (e.Terminal() && e.ref == r) || e == SendCallFailed(r, true)
  }

  lemma {:induction false} ClosedAfter(config: RiskConfig, log: seq<Record>, s: nat, r: Ref) returns (i: nat)
    requires s < |log| && IsSendOf(log[s].event, r) && r !in Fold(config, log).orders.open
    ensures s < i < |log| && Closes(log[i].event, r)
  {
    var m := |log| - 1;
    OrdersNext(Fold(config, log[..m]), log[m]);
    if Closes(log[m].event, r) && s < m {
      i := m;
    } else {
      i := ClosedAfter(config, log[..m], s, r);
    }
  }

  lemma {:induction false} CancelLasts(config: RiskConfig, log: seq<Record>, i: nat)
    requires i < |log| && log[i].event.OrderCancelled?
    requires forall k :: i < k < |log| ==> !log[k].event.ReconciliationCompleted?
    ensures Fold(config, log).orders.unsettled
  {
    var m := |log| - 1;
    UnsettledNext(Fold(config, log[..m]), log[m]);
    hide Apply;
    if i < m {
      CancelLasts(config, log[..m], i);
    }
  }

  lemma UnsettledNext(v: View, r: Record)
    ensures Apply(v, r).orders.unsettled ==
            (r.event.OrderCancelled? || (v.orders.unsettled && !r.event.ReconciliationCompleted?))
  {
    hide Lawful, ApplyLedger, ApplyGates, ApplyCounters, ApplyWatch;
  }

  /** What closes an order is lawful only while it is open. */
  lemma ClosingNeedsOpen(v: View, r: Record, ref: Ref)
    requires Lawful(v, r) && Closes(r.event, ref)
    ensures ref in v.orders.open
  {
  }

  /** An order is closed at most once. */
  lemma ClosedOnce(config: RiskConfig, log: seq<Record>, s: nat, k: nat, m: nat, r: Ref)
    requires Fold(config, log).lawful
    requires s < k < m < |log| && IsSendOf(log[s].event, r) && Closes(log[k].event, r)
    ensures !Closes(log[m].event, r)
  {
    RecordWasLawful(config, log, m);
    hide Fold, Apply, Closes, Lawful;
    StillClosed(config, log, s, k, m, r);
    if Closes(log[m].event, r) {
      ClosingNeedsOpen(Fold(config, log[..m]), log[m], r);
    }
  }

  lemma StillClosed(config: RiskConfig, log: seq<Record>, s: nat, k: nat, m: nat, r: Ref)
    requires Fold(config, log).lawful
    requires s < k < m <= |log| && IsSendOf(log[s].event, r) && Closes(log[k].event, r)
    ensures r !in Fold(config, log[..m]).orders.open
  {
    FoldNext(config, log, k);
    OrdersNext(Fold(config, log[..k]), log[k]);
    hide Fold, Apply;
    PrefixFacts(config, log, m);
    PrefixFacts(config, log[..m], k + 1);
    assert log[..m][..k + 1] == log[..k + 1];
    AttemptedIffLogged(config, log[..k + 1], r);
    assert log[..k + 1][s] == log[s];
    StaysClosed(Fold(config, log[..k + 1]), Fold(config, log[..m]), r);
  }

  lemma RecordWasLawful(config: RiskConfig, log: seq<Record>, j: nat)
    requires Fold(config, log).lawful && j < |log|
    ensures Fold(config, log[..j]).lawful && Lawful(Fold(config, log[..j]), log[j])
  {
    PrefixFacts(config, log, j + 1);
    PrefixFacts(config, log, j);
    FoldNext(config, log, j);
    hide Fold, Lawful;
  }

  /** With nothing open and every cancel settled, as before any lawful send, something
      is still awaited exactly if a rejected order was never heard of otherwise. */
  lemma AwaitedIffUnheard(config: RiskConfig, log: seq<Record>)
    requires var v := Fold(config, log); v.lawful && v.orders.open == {} && !v.orders.unsettled
    ensures Fold(config, log).watch.pending != {} <==> RefusedUnheard(log)
  {
    if r :| r in Fold(config, log).watch.pending {
      PendingIffOutstanding(config, log, r);
      var s: nat :| Outstanding(log, s, r);
      var i := ClosedAfter(config, log, s, r);
      if log[i].event.OrderCancelled? {
        if forall k :: i < k < |log| ==> !log[k].event.ReconciliationCompleted? {
          CancelLasts(config, log, i);
        }
      }
      assert !Discharges(log[i].event, r);
      assert Unheard(log, s, i);
    }
    if s: nat, i: nat :| Unheard(log, s, i) {
      var r := log[s].event.ref;
      forall k | s < k < |log|
        ensures !Discharges(log[k].event, r)
      {
        if k < i {
          if Closes(log[k].event, r) {
            ClosedOnce(config, log, s, k, i, r);
          }
        } else if i < k {
          ClosedOnce(config, log, s, i, k, r);
        }
      }
      assert Outstanding(log, s, r);
      PendingIffOutstanding(config, log, r);
    }
  }

  /** The condition under which the check passes. */
  ghost predicate HeardOut(log: seq<Record>) {
    forall j :: 0 <= j < |log| && log[j].event.SendAttemptStarted? ==> !RefusedUnheard(log[..j])
  }

  predicate NeverAwaiting(config: RiskConfig, log: seq<Record>) {
    forall j :: 0 <= j < |log| && log[j].event.SendAttemptStarted? ==> Fold(config, log[..j]).watch.pending == {}
  }

  lemma NeverAwaitingIff(config: RiskConfig, log: seq<Record>)
    requires Fold(config, log).lawful
    ensures NeverAwaiting(config, log) <==> HeardOut(log)
  {
    forall j | 0 <= j < |log| && log[j].event.SendAttemptStarted?
      ensures Fold(config, log[..j]).watch.pending == {} <==> !RefusedUnheard(log[..j])
    {
      SendWasLawful(config, log, j);
      AwaitedIffUnheard(config, log[..j]);
    }
  }

  lemma SendWasLawful(config: RiskConfig, log: seq<Record>, j: nat)
    requires Fold(config, log).lawful && j < |log| && log[j].event.SendAttemptStarted?
    ensures var v := Fold(config, log[..j]); v.lawful && LawfulSend(v, log[j].ts, log[j].event)
  {
    RecordWasLawful(config, log, j);
    hide Fold;
  }

  // ---- 14 and 18: a HALT between an alarm and the next send -----------------------

  datatype Alarm = FACT | FAILURE

  predicate Raises(a: Alarm, e: Event) {
    if a.FACT? then e.ExternalOrderDetected? else e.CallbackFailure?
  }

  function Flag(a: Alarm, v: View): bool {
    if a.FACT? then v.watch.fact else v.watch.failure
  }

  predicate NoHaltAfter(log: seq<Record>, i: nat) {
    forall k :: i < k < |log| ==> !log[k].event.Halts()
  }

  predicate Ringing(a: Alarm, log: seq<Record>, i: nat) {
    i < |log| && Raises(a, log[i].event) && NoHaltAfter(log, i)
  }

  ghost predicate Unanswered(a: Alarm, log: seq<Record>) {
    exists i: nat :: Ringing(a, log, i)
  }

  predicate RestartedAfter(log: seq<Record>, i: nat) {
    exists k :: i < k < |log| && log[k].event.ProcessStarted?
  }

  /** What lets an alarm go unanswered: a cancel call that raised, which calls for no
      HALT, or a process that died before the HALT it owed was on disk. */
  ghost predicate LeftBehind(a: Alarm, log: seq<Record>) {
    exists i: nat :: Ringing(a, log, i) && (!StopsDue(log[i].event) || RestartedAfter(log, i))
  }

  /** Inside one process the HALT that is due stays due. */
  lemma {:induction false} DueLasts(config: RiskConfig, log: seq<Record>, i: nat)
    requires i < |log| && StopsDue(log[i].event) && NoHaltAfter(log, i) && !RestartedAfter(log, i)
    ensures Fold(config, log).gates.stopDue
  {
    var m := |log| - 1;
    DueNext(Fold(config, log[..m]), log[m]);
    hide Apply;
    if i < m {
      assert !log[m].event.Halts() && !log[m].event.ProcessStarted?;
      forall k | i < k < m
        ensures !log[..m][k].event.Halts() && !log[..m][k].event.ProcessStarted?
      {
        assert log[..m][k] == log[k];
      }
      DueLasts(config, log[..m], i);
    }
  }

  lemma DueNext(v: View, r: Record)
    ensures Apply(v, r).gates.stopDue ==
            (StopsDue(r.event) || (v.gates.stopDue && !r.event.Halts() && !r.event.ProcessStarted?))
  {
    assert Apply(v, r).gates == ApplyGates(v.gates, v.count + 1, r.event);
    hide Apply;
    match r.event
    case OperatingModeChanged(_) =>
    case HaltCauseAdded =>
    case ExternalOrderDetected =>
    case CallbackFailure(_) =>
    case ProcessStarted =>
    case _ =>
  }

  /** Where no HALT is due, as before any lawful send, an alarm is unanswered exactly
      if it was left behind. */
  lemma UnansweredIffLeft(a: Alarm, config: RiskConfig, log: seq<Record>)
    requires !Fold(config, log).gates.stopDue
    ensures Unanswered(a, log) <==> LeftBehind(a, log)
  {
    if i: nat :| Ringing(a, log, i) {
      if StopsDue(log[i].event) && !RestartedAfter(log, i) {
        DueLasts(config, log, i);
      }
    }
  }

  predicate NeverFlagged(a: Alarm, config: RiskConfig, log: seq<Record>) {
    forall j :: 0 <= j < |log| && log[j].event.SendAttemptStarted? ==> !Flag(a, Fold(config, log[..j]))
  }

  lemma FlagNext(a: Alarm, v: View, r: Record)
    ensures Flag(a, Apply(v, r)) ==
            (Raises(a, r.event) || (Flag(a, v) && !r.event.Halts() && !r.event.SendAttemptStarted?))
  {
    assert Apply(v, r).watch == ApplyWatch(v.watch, r.event);
    hide Apply;
  }

  /** As long as nothing was reported, the check's flag is the unanswered alarm. */
  lemma {:induction false} FlagIff(a: Alarm, config: RiskConfig, log: seq<Record>)
    requires NeverFlagged(a, config, log)
    ensures Flag(a, Fold(config, log)) <==> Unanswered(a, log)
  {
    if log != [] {
      var m := |log| - 1;
      var before := log[..m];
      assert NeverFlagged(a, config, before) by {
        forall j | 0 <= j < m && before[j].event.SendAttemptStarted?
          ensures !Flag(a, Fold(config, before[..j]))
        {
          assert before[..j] == log[..j] && before[j] == log[j];
        }
      }
      assert log[m].event.SendAttemptStarted? ==> !Flag(a, Fold(config, before));
      FlagIff(a, config, before);
      FlagNext(a, Fold(config, before), log[m]);
      UnansweredNext(a, log);
    }
  }

  lemma UnansweredNext(a: Alarm, log: seq<Record>)
    requires log != []
    ensures var m := |log| - 1;
      Unanswered(a, log) <==> Raises(a, log[m].event) || (Unanswered(a, log[..m]) && !log[m].event.Halts())
  {
    var m := |log| - 1;
    if Raises(a, log[m].event) {
      assert Ringing(a, log, m);
    }
    if i: nat :| Ringing(a, log[..m], i) {
      if !log[m].event.Halts() {
        assert Ringing(a, log, i) by {
          forall k | i < k < |log|
            ensures !log[k].event.Halts()
          {
            assert k < m ==> log[k] == log[..m][k];
          }
        }
      }
    }
    if i: nat :| Ringing(a, log, i) && i < m {
      assert Ringing(a, log[..m], i) by {
        forall k | i < k < m
          ensures !log[..m][k].event.Halts()
        {
          assert log[..m][k] == log[k];
        }
      }
    }
  }

  /** The condition under which the check passes. */
  ghost predicate Answered(a: Alarm, log: seq<Record>) {
    forall j :: 0 <= j < |log| && log[j].event.SendAttemptStarted? ==> !LeftBehind(a, log[..j])
  }

  lemma {:induction false} NeverFlaggedIff(a: Alarm, config: RiskConfig, log: seq<Record>)
    requires Fold(config, log).lawful
    ensures NeverFlagged(a, config, log) <==> Answered(a, log)
  {
    if log != [] {
      var m := |log| - 1;
      PrefixFacts(config, log, m);
      NeverFlaggedIff(a, config, log[..m]);
      if log[m].event.SendAttemptStarted? {
        SendWasLawful(config, log, m);
        UnansweredIffLeft(a, config, log[..m]);
        if NeverFlagged(a, config, log[..m]) {
          FlagIff(a, config, log[..m]);
        }
      }
      LastSend(a, config, log);
    }
  }

  lemma LastSend(a: Alarm, config: RiskConfig, log: seq<Record>)
    requires log != []
    ensures var before, last := log[..|log| - 1], log[|log| - 1];
      && (NeverFlagged(a, config, log) <==>
            NeverFlagged(a, config, before) && (last.event.SendAttemptStarted? ==> !Flag(a, Fold(config, before))))
      && (Answered(a, log) <==>
            Answered(a, before) && (last.event.SendAttemptStarted? ==> !LeftBehind(a, before)))
  {
    hide Fold, Flag, LeftBehind;
    var m := |log| - 1;
    forall j | 0 <= j < m
      ensures log[..m][..j] == log[..j] && log[..m][j] == log[j]
    {
    }
  }
}
