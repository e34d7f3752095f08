/** Three separately written folds over the log look for the active HALT, and an
    offline check folds it a fourth way. They agree, and an acknowledgement is a
    compare-and-set against the exact cause the operator read. */
module HaltFolds {
  import opened Wrappers
  import opened Models
  import opened LogView
  import RiskCounters

  /** The HALT an operator is shown: its latest cause and where it began. */
  datatype HaltInfo = HaltInfo(seqNo: nat, startedSeq: nat)

  function SeqOf(h: Option<HaltInfo>): Option<nat> {
    if h.Some? then Some(h.value.seqNo) else None
  }

  /** The online fold and the operator tool's fold are the same loop. */
  method FindUnacknowledgedHalt(log: seq<Record>) returns (halt: Option<HaltInfo>)
    ensures SeqOf(halt) == ActiveHalt(log)
    ensures halt.Some? ==> 1 <= halt.value.startedSeq <= halt.value.seqNo <= |log|
    ensures halt.Some? ==> log[halt.value.seqNo - 1].event.Halts()
    ensures halt.Some? ==> forall k :: halt.value.startedSeq <= k <= |log| ==> ActiveHalt(log[..k]).Some?
  {
    halt := None;
    for k := 0 to |log|
      invariant SeqOf(halt) == ActiveHalt(log[..k])
      invariant halt.Some? ==> 1 <= halt.value.startedSeq <= halt.value.seqNo <= k
      invariant halt.Some? ==> log[halt.value.seqNo - 1].event.Halts()
      invariant halt.Some? ==> forall j :: halt.value.startedSeq <= j <= k ==> ActiveHalt(log[..j]).Some?
    {
      assert log[..k + 1][..k] == log[..k];
      var e := log[k].event;
      if e.OperatingModeChanged? && e.mode.HALTED? {
        halt := Some(HaltInfo(k + 1, k + 1));
      } else if e.HaltCauseAdded? {
        var started := if halt.Some? then halt.value.startedSeq else k + 1;
        halt := Some(HaltInfo(k + 1, started));
      } else if e.HaltAcknowledged? {
        if halt.Some? && e.haltSeq == halt.value.seqNo {
          halt := None;
        }
      }
    }
    assert log[..|log|] == log;
  }

  /** The writer's own fold, over the three relevant event types only. */
  method ActiveHaltSeq(log: seq<Record>) returns (active: Option<nat>)
    ensures active == ActiveHalt(log)
  {
    active := None;
    for k := 0 to |log|
      invariant active == ActiveHalt(log[..k])
    {
      assert log[..k + 1][..k] == log[..k];
      match log[k].event
      case OperatingModeChanged(to) =>
        if to == HALTED {
          active := Some(k + 1);
        }
      case HaltCauseAdded =>
        active := Some(k + 1);
      case HaltAcknowledged(acked) =>
        if active == Some(acked) {
          active := None;
        }
      case _ =>
    }
    assert log[..|log|] == log;
  }

  // ---- the offline fold ------------------------------------------------

  /** The offline check forgets the HALT once it has reported the mode leaving it. */
  function ApplyAudited(halt: Option<nat>, seqNo: nat, e: Event): Option<nat> {
    if e.Halts() || e.HaltAcknowledged? then ApplyHalt(halt, seqNo, e)
    else if LeavesHalt(halt, e) then None
    else halt
  }

  predicate LeavesHalt(halt: Option<nat>, e: Event) {
    halt.Some? && e.OperatingModeChanged? && !e.mode.HALTED?
  }

  function AuditedHalt(log: seq<Record>): Option<nat> {
    if log == [] then None
    else ApplyAudited(AuditedHalt(log[..|log| - 1]), |log|, log[|log| - 1].event)
  }

  predicate NeverLeftHalt(log: seq<Record>) {
    forall k :: 0 <= k < |log| ==> !LeavesHalt(AuditedHalt(log[..k]), log[k].event)
  }

  /** On a log without findings the offline fold is the online one. */
  lemma {:induction false} AuditedAgrees(log: seq<Record>)
    requires NeverLeftHalt(log)
    ensures AuditedHalt(log) == ActiveHalt(log)
  {
    if log != [] {
      var m := |log| - 1;
      forall k | 0 <= k < m
        ensures !LeavesHalt(AuditedHalt(log[..m][..k]), log[..m][k].event)
      {
        assert log[..m][..k] == log[..k];
      }
      AuditedAgrees(log[..m]);
      assert !LeavesHalt(AuditedHalt(log[..m]), log[m].event);
    }
  }

  /** The two part company on exactly the logs the offline check reports: a mode
      change out of HALTED makes it forget a HALT the restart still honours. */
  lemma {:induction false} LawfulNeverLeaves(config: RiskCounters.RiskConfig, log: seq<Record>)
    requires Fold(config, log).lawful
    ensures NeverLeftHalt(log)
    ensures AuditedHalt(log) == ActiveHalt(log)
  {
    if log != [] {
      var m := |log| - 1;
      LawfulNeverLeaves(config, log[..m]);
      HaltIsFold(config, log[..m]);
      forall k | 0 <= k < |log|
        ensures !LeavesHalt(AuditedHalt(log[..k]), log[k].event)
      {
        if k < m {
          assert log[..m][..k] == log[..k] && log[..m][k] == log[k];
        }
      }
      AuditedAgrees(log);
    }
  }

  // ---- acknowledgement -------------------------------------------------

  /** The active HALT is the latest halting event of the log. */
  lemma {:induction false} ActiveIsLatestCause(log: seq<Record>)
    ensures var h := ActiveHalt(log); h.Some? ==>
      && 1 <= h.value <= |log|
      && log[h.value - 1].event.Halts()
      && (forall k :: h.value <= k < |log| ==> !log[k].event.Halts() && log[k].event != HaltAcknowledged(h.value))
  {
    if log != [] {
      var m := |log| - 1;
      ActiveIsLatestCause(log[..m]);
      if ActiveHalt(log).Some? && !log[m].event.Halts() {
        forall k | ActiveHalt(log).value <= k < |log|
          ensures !log[k].event.Halts() && log[k].event != HaltAcknowledged(ActiveHalt(log).value)
        {
          if k < m {
            assert log[..m][k] == log[k];
          }
        }
      }
    }
  }

  /** Until another cause is committed, the active HALT is the one there was, or none. */
  lemma {:induction false} NoOtherCause(before: seq<Record>, after: seq<Record>, h: nat)
    requires before <= after && ActiveHalt(before) == Some(h)
    requires forall k :: |before| <= k < |after| ==> !after[k].event.Halts()
    ensures ActiveHalt(after).None? || ActiveHalt(after) == Some(h)
    decreases |after|
  {
    if |before| < |after| {
      NoOtherCause(before, after[..|after| - 1], h);
    } else {
      assert before == after;
    }
  }

  /** The operator read HALT `h` from `read`; by the time the acknowledgement is written
      the log is `now`. It clears the HALT exactly if no cause was committed in between:
      a later cause always survives an acknowledgement of an earlier one. */
  lemma AcknowledgementIsExact(read: seq<Record>, now: seq<Record>, ts: Instant, h: nat)
    requires read <= now && ActiveHalt(read) == Some(h) && ActiveHalt(now).Some?
    ensures var acked := ActiveHalt(now + [Record(ts, HaltAcknowledged(h))]);
      if exists k :: |read| <= k < |now| && now[k].event.Halts() then acked == ActiveHalt(now) else acked.None?
  {
    var longer := now + [Record(ts, HaltAcknowledged(h))];
    assert longer[..|longer| - 1] == now;
    ActiveIsLatestCause(read);
    ActiveIsLatestCause(now);
    if !exists k :: |read| <= k < |now| && now[k].event.Halts() {
      NoOtherCause(read, now, h);
    }
  }

  // ---- a stop that survives tail loss -----------------------------------

  predicate NoAcks(log: seq<Record>, start: nat) {
    forall k :: start <= k < |log| ==> !log[k].event.HaltAcknowledged?
  }

  /** Every prefix at least `pinned` long still holds an active HALT. */
  predicate StopPinned(log: seq<Record>, pinned: nat) {
    forall n :: pinned <= n <= |log| ==> ActiveHalt(log[..n]).Some?
  }

  /** While nobody acknowledges, appending keeps a pinned stop pinned. */
  lemma {:induction false} StopSurvivesGrowth(before: seq<Record>, after: seq<Record>, pinned: nat)
    requires pinned <= |before| && before <= after
    requires StopPinned(before, pinned) && NoAcks(after, |before|)
    ensures StopPinned(after, pinned)
  {
    forall n | pinned <= n <= |after|
      ensures ActiveHalt(after[..n]).Some?
    {
      if n <= |before| {
        assert after[..n] == before[..n];
      } else {
        assert before[..|before|] == before;
        StopAt(before, after, n);
      }
    }
  }

  lemma {:induction false} StopAt(before: seq<Record>, after: seq<Record>, n: nat)
    requires before <= after && |before| <= n <= |after|
    requires ActiveHalt(before).Some? && NoAcks(after, |before|)
    ensures ActiveHalt(after[..n]).Some?
  {
    if n == |before| {
      assert after[..n] == before;
    } else {
      StopAt(before, after, n - 1);
      assert after[..n][..n - 1] == after[..n - 1];
    }
  }

  /** Tail loss that leaves the pinned part leaves the stop. */
  lemma StopSurvivesTailLoss(log: seq<Record>, pinned: nat, n: nat)
    requires pinned <= n <= |log| && StopPinned(log, pinned)
    ensures StopPinned(log[..n], pinned) && ActiveHalt(log[..n]).Some?
  {
    forall k | pinned <= k <= n
      ensures ActiveHalt(log[..n][..k]).Some?
    {
      assert log[..n][..k] == log[..k];
    }
  }
}
