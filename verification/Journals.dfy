/** The append-only journal behind its single writer. A commit returns only when
    its event is on disk; the first storage failure latches, and after it nothing
    is ever acknowledged again in this process. */
module Journals {
  import opened Wrappers
  import opened Models
  import opened RiskCounters
  import opened LogView

  datatype Request =
    | Append(record: Record)
    | AcceptDecision(record: Record)     // with a claim on the decision id
    | BookExecution(record: Record)      // with a claim on the execution id
    | AckHalt(expected: nat, record: Record)
  {
    predicate WellFormed() {
      && (AcceptDecision? <==> record.event.TargetReceived?)
      && (BookExecution? <==> record.event.ExecutionReceived?)
      && (AckHalt? <==> record.event.HaltAcknowledged?)
      && (AckHalt? ==> record.event.haltSeq == expected)
    }
  }

  datatype Answer = Appended | Duplicate | Conflict

  /** What storage does with one request. A write that times out or dies with its
      writer may still reach the disk; it is then on disk but unacknowledged. */
  datatype Fate = Written | StorageError(landed: bool) | TimedOut(landed: bool) | WriterDied(landed: bool)

  class Journal {
    const id: nat
    var events: seq<Record>
    var decisions: set<DecisionId>     // claim table of decision ids
    var bookings: set<ExecId>          // claim table of execution ids
    var failed: bool
    var writerAlive: bool
    ghost const config: RiskConfig
    ghost var view: View
    ghost var acked: seq<Record>       // what callers were told is durable

    ghost predicate Valid()
      reads this
    {
      && view == Fold(config, events)
      && decisions == view.decisions
      && bookings == view.ledger.booked.Keys
      && acked <= events
      && |events| <= |acked| + 1
      && (events != acked ==> failed)
    }

    constructor (id: nat, ghost config: RiskConfig)
      ensures Valid() && !failed && events == [] && this.config == config && this.id == id
    {
      this.id := id;
      this.config := config;
      events, decisions, bookings := [], {}, {};
      failed, writerAlive := false, true;
      view, acked := EmptyView(config), [];
    }

    /** What the transaction of a request decides against the tables. */
    function Verdict(req: Request): Answer
      reads this
    {
      match req
      case Append(_) => Appended
      case AcceptDecision(r) =>
        if r.event.TargetReceived? && r.event.decision in decisions then Duplicate else Appended
      case BookExecution(r) =>
        if r.event.ExecutionReceived? && r.event.execution.id in bookings then Duplicate else Appended
      case AckHalt(expected, _) =>
        if ActiveHalt(events) == Some(expected) then Appended else Conflict
    }

    function Written(req: Request): seq<Record>
      reads this
    {
      if Verdict(req).Appended? then [req.record] else []
    }

    /** The writer's side of one request: claim and event in one transaction. */
    method Transact(req: Request) returns (answer: Answer)
      requires Valid() && req.WellFormed() && events == acked
      modifies this`events, this`decisions, this`bookings, this`view
      ensures answer == old(Verdict(req))
      ensures events == old(events) + old(Written(req))
      ensures view == if answer.Appended? then Apply(old(view), req.record) else old(view)
      ensures view == Fold(config, events) && decisions == view.decisions && bookings == view.ledger.booked.Keys
    {
      answer := Verdict(req);
      if answer.Appended? {
        FoldSnoc(config, events, req.record);
        events := events + [req.record];
        view := Apply(view, req.record);
        if req.AcceptDecision? {
          decisions := decisions + {req.record.event.decision};
        } else if req.BookExecution? {
          bookings := bookings + {req.record.event.execution.id};
        }
      }
    }

    /** The caller's side: refused once failed; otherwise enqueue, wait, and treat
        anything but an answer in time as the end of this journal. */
    method Submit(req: Request) returns (res: Io<Answer>)
      requires Valid() && req.WellFormed()
      modifies this
      ensures Valid()
      ensures old(failed) ==> res.Unavailable? && events == old(events) && acked == old(acked) && failed
      ensures res.Done? ==>
                && !failed
                && res.value == old(Verdict(req))
                && acked == events == old(events) + old(Written(req))
      ensures res.Unavailable? ==>
                && failed
                && acked == old(acked)
                && (events == old(events) || (!old(failed) && events == old(events) + old(Written(req))))
      ensures view == old(view) || (!old(failed) && old(Verdict(req)).Appended? && view == Apply(old(view), req.record))
      ensures res.Done? && res.value.Appended? ==> view == Apply(old(view), req.record)
      ensures res.Done? && !res.value.Appended? ==> view == old(view)
    {
      if failed {
        return Unavailable;
      }
      if !writerAlive {
        failed := true;
        return Unavailable;
      }
      FoldSnoc(config, events, req.record);
      var fate: Fate := *;
      match fate
      case Written =>
        var answer := Transact(req);
        acked := events;
        return Done(answer);
      case StorageError(landed) =>
        if landed {
          var _ := Transact(req);
        }
        failed := true;
        return Unavailable;
      case TimedOut(landed) =>
        if landed {
          var _ := Transact(req);
        }
        failed := true;
        return Unavailable;
      case WriterDied(landed) =>
        if landed {
          var _ := Transact(req);
        }
        failed, writerAlive := true, false;
        return Unavailable;
    }

    /** A new process opens the file: whatever is on disk is what happened. */
    method Reopen()
      requires Valid()
      modifies this`failed, this`writerAlive, this`acked
      ensures Valid() && !failed && acked == events
    {
      failed, writerAlive := false, true;
      acked := events;
    }

    /** Storage recovery while the process is down: a shorter log, still consistent. */
    method LoseTail(n: nat)
      requires Valid() && n <= |events|
      modifies this
      ensures Valid() && !failed && events == old(events)[..n]
    {
      events := events[..n];
      decisions, bookings := {}, {};
      for k := 0 to n
        invariant events == old(events)[..n]
        invariant decisions == Fold(config, events[..k]).decisions
        invariant bookings == Fold(config, events[..k]).ledger.booked.Keys
      {
        FoldNext(config, events, k);
        LedgerNext(Fold(config, events[..k]), events[k]);
        hide Fold, Apply;
        var e := events[k].event;
        if e.TargetReceived? {
          decisions := decisions + {e.decision};
        } else if e.ExecutionReceived? {
          bookings := bookings + {e.execution.id};
        }
      }
      assert events[..n] == events;
      view := Fold(config, events);
      failed, writerAlive := false, true;
      acked := events;
    }
  }

  /** The claim tables hold exactly the ids present in the log. */
  lemma {:induction false} ClaimsAreLogged(config: RiskConfig, log: seq<Record>)
    ensures forall d :: d in Fold(config, log).decisions <==>
              exists k :: 0 <= k < |log| && log[k].event.TargetReceived? && log[k].event.decision == d
    ensures forall x :: x in Fold(config, log).ledger.booked <==>
              exists k :: 0 <= k < |log| && log[k].event.ExecutionReceived? && log[k].event.execution.id == x
  {
    if log != [] {
      var m := |log| - 1;
      ClaimsAreLogged(config, log[..m]);
      var v, p := Fold(config, log), Fold(config, log[..m]);
      forall d
        ensures d in v.decisions <==>
          exists k :: 0 <= k < |log| && log[k].event.TargetReceived? && log[k].event.decision == d
      {
        if d in p.decisions {
          var k :| 0 <= k < m && log[..m][k].event.TargetReceived? && log[..m][k].event.decision == d;
          assert log[k].event.TargetReceived? && log[k].event.decision == d;
        } else if d in v.decisions {
          assert log[m].event.TargetReceived? && log[m].event.decision == d;
        }
        if k :| 0 <= k < |log| && log[k].event.TargetReceived? && log[k].event.decision == d {
          if k < m {
            assert log[..m][k] == log[k];
          }
        }
      }
      forall x
        ensures x in v.ledger.booked <==>
          exists k :: 0 <= k < |log| && log[k].event.ExecutionReceived? && log[k].event.execution.id == x
      {
        if x in p.ledger.booked {
          var k :| 0 <= k < m && log[..m][k].event.ExecutionReceived? && log[..m][k].event.execution.id == x;
          assert log[k].event.ExecutionReceived? && log[k].event.execution.id == x;
        } else if x in v.ledger.booked {
          assert log[m].event.ExecutionReceived? && log[m].event.execution.id == x;
        }
        if k :| 0 <= k < |log| && log[k].event.ExecutionReceived? && log[k].event.execution.id == x {
          if k < m {
            assert log[..m][k] == log[k];
          }
        }
      }
    }
  }
}
