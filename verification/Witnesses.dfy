/** The out-of-band witness: one durable record, off the journal's volume, of the
    event that authorised the latest broker write or HALT. Digests are injective
    and leave the timestamp out, so a record carries the event itself. */
module Witnesses {
  import opened Wrappers
  import opened Models
  import opened LogView
  import opened Journals
  import RiskCounters

  datatype WitnessRecord = WitnessRecord(journalId: nat, seqNo: nat, event: Event)

  datatype Verdict = Clean | Unreadable | ForeignJournal | TailMissing | EvidenceDiffers

  /** The evidence the record pins is present and says the same thing. */
  predicate EvidenceHolds(id: nat, log: seq<Record>, rec: Option<WitnessRecord>) {
    rec.Some? ==>
      && rec.value.journalId == id
      && 1 <= rec.value.seqNo <= |log|
      && log[rec.value.seqNo - 1].event == rec.value.event
  }

  class JournalWitness {
    var record: Option<WitnessRecord>

    constructor ()
      ensures record == None
    {
      record := None;
    }

    /** Pin the event at `seqNo`. A failed durable write may or may not have
        replaced the record; the caller is told it failed. */
    method Record(journal: Journal, seqNo: nat) returns (ok: bool)
      modifies this
      ensures ok ==> 1 <= seqNo <= |journal.events|
      ensures ok ==> record == Some(WitnessRecord(journal.id, seqNo, journal.events[seqNo - 1].event))
      ensures record == old(record) ||
              (1 <= seqNo <= |journal.events| &&
               record == Some(WitnessRecord(journal.id, seqNo, journal.events[seqNo - 1].event)))
    {
      if !(1 <= seqNo <= |journal.events|) {
        return false;
      }
      var written: bool, reported: bool := *, *;
      if written || reported {
        record := Some(WitnessRecord(journal.id, seqNo, journal.events[seqNo - 1].event));
      }
      return reported;
    }

    /** The startup check, before the broker is built. A record that cannot be read
        counts as evidence lost, never as none. */
    method Verify(journal: Journal) returns (v: Verdict)
      ensures v.Clean? ==> EvidenceHolds(journal.id, journal.events, record)
      ensures EvidenceHolds(journal.id, journal.events, record) ==> v.Clean? || v.Unreadable?
      ensures v.TailMissing? ==> record.Some? && |journal.events| < record.value.seqNo
    {
      var readable: bool := *;
      if !readable {
        return Unreadable;
      }
      if record.None? {
        return Clean;
      }
      var rec := record.value;
      if rec.journalId != journal.id {
        return ForeignJournal;
      }
      if |journal.events| < rec.seqNo {
        return TailMissing;
      }
      if rec.seqNo == 0 || journal.events[rec.seqNo - 1].event != rec.event {
        return EvidenceDiffers;
      }
      return Clean;
    }
  }

  /** Which events a witness ever pins. */
  predicate Witnessed(e: Event) {
    e.SendAttemptStarted? || e.CancelRequested? || e.Halts()
  }

  predicate SendLogged(log: seq<Record>, r: Ref) {
    exists k :: 0 <= k < |log| && log[k].event.SendAttemptStarted? && log[k].event.ref == r
  }

  /** Every ref in `placed` was attempted inside the pinned part of the log. */
  predicate Covers(log: seq<Record>, rec: Option<WitnessRecord>, placed: set<Ref>) {
    if rec.None? then placed == {}
    else rec.value.seqNo <= |log| && forall r :: r in placed ==> SendLogged(log[..rec.value.seqNo], r)
  }

  /** The durable promise of the witness. */
  predicate WitnessPromise(id: nat, log: seq<Record>, rec: Option<WitnessRecord>, placed: set<Ref>) {
    && (rec.Some? ==> 1 <= rec.value.seqNo && Witnessed(rec.value.event))
    && (EvidenceHolds(id, log, rec) ==> Covers(log, rec, placed))
  }

  lemma CoversGrowth(log: seq<Record>, longer: seq<Record>, rec: Option<WitnessRecord>, placed: set<Ref>)
    requires log <= longer && Covers(log, rec, placed)
    ensures Covers(longer, rec, placed)
  {
    if rec.Some? {
      assert longer[..rec.value.seqNo] == log[..rec.value.seqNo];
    }
  }

  /** Losing the tail keeps the promise: either the check now refuses, or every
      placed order still has its send attempt in the surviving log. */
  lemma PromiseSurvivesTailLoss(id: nat, log: seq<Record>, rec: Option<WitnessRecord>, placed: set<Ref>, n: nat)
    requires n <= |log| && WitnessPromise(id, log, rec, placed)
    ensures WitnessPromise(id, log[..n], rec, placed)
    ensures EvidenceHolds(id, log[..n], rec) ==> EvidenceHolds(id, log, rec)
  {
    if EvidenceHolds(id, log[..n], rec) && rec.Some? {
      assert log[..n][..rec.value.seqNo] == log[..rec.value.seqNo];
    }
  }

  /** An acknowledgement written by the operator tool cannot forge lost evidence. */
  lemma PromiseSurvivesUnwitnessed(id: nat, log: seq<Record>, rec: Option<WitnessRecord>, placed: set<Ref>, r: Record)
    requires WitnessPromise(id, log, rec, placed) && !Witnessed(r.event)
    ensures WitnessPromise(id, log + [r], rec, placed)
    ensures EvidenceHolds(id, log + [r], rec) <==> EvidenceHolds(id, log, rec)
  {
    if EvidenceHolds(id, log + [r], rec) && rec.Some? {
      assert rec.value.seqNo != |log| + 1;
      CoversGrowth(log, log + [r], rec, placed);
    }
  }

  /** Pinning a later event covers the same orders and any order attempted by then. */
  lemma CoversRepin(log: seq<Record>, rec: Option<WitnessRecord>, placed: set<Ref>, next: WitnessRecord)
    requires Covers(log, rec, placed)
    requires next.seqNo <= |log| && (rec.Some? ==> rec.value.seqNo <= next.seqNo)
    ensures Covers(log, Some(next), placed)
  {
    if rec.Some? {
      forall r | r in placed
        ensures SendLogged(log[..next.seqNo], r)
      {
        var k :| 0 <= k < rec.value.seqNo && log[..rec.value.seqNo][k].event.SendAttemptStarted?
                 && log[..rec.value.seqNo][k].event.ref == r;
        assert log[..next.seqNo][k] == log[..rec.value.seqNo][k];
      }
    }
  }

  /** When the startup check passes, every order ever placed is known to the log. */
  lemma CheckedLogKnowsEveryOrder(config: RiskCounters.RiskConfig, id: nat, log: seq<Record>,
                                  rec: Option<WitnessRecord>, placed: set<Ref>)
    requires WitnessPromise(id, log, rec, placed) && EvidenceHolds(id, log, rec)
    requires Fold(config, log).lawful
    ensures placed <= Fold(config, log).orders.attempted
    ensures placed <= Fold(config, log).orders.intents.Keys
  {
    LawfulLogShape(config, log);
    forall r | r in placed
      ensures r in Fold(config, log).orders.attempted
    {
      var k :| 0 <= k < rec.value.seqNo && log[..rec.value.seqNo][k].event.SendAttemptStarted?
               && log[..rec.value.seqNo][k].event.ref == r;
      assert log[k].event.SendAttemptStarted? && log[k].event.ref == r;
      AttemptedIffLogged(config, log, r);
    }
  }
}
