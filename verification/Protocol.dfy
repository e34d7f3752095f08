/** What the controller is configured with, what the broker may tell it, and the
    relations between its memory, the log and the broker that every operation keeps.
    All of them are predicates over values, so they can be used on either side of a
    restart. */
module Protocol {

  import opened Wrappers
  import opened Models
  import opened RiskCounters
  import opened LogView
  import opened HaltFolds
  import opened Journals
  import opened Witnesses
  import opened Fences
  import opened Brokers
  import opened Risk

  // ---- configuration and inputs ----------------------------------------

  const MAX_ATTEMPTS: nat := 3
  const INITIAL_COLLAR_BPS: real := 2.0
  const COLLAR_STEP_BPS: real := 3.0
  const CLOSING_COLLAR_MULTIPLIER: real := 4.0
  const ACK_TIMEOUT: int := 10
  const ORDER_TIMEOUT: int := 20
  const CANCEL_TIMEOUT: int := 10
  const FLATTEN_VALIDITY: int := 600
  const ET_OFFSET: int := 18000

  /** The deadlines of the session an instant belongs to. */
  datatype SessionPlan = SessionPlan(session: int, trading: bool, flattenStart: Instant, flattenHard: Instant, close: Instant)

  type Calendar = Instant -> SessionPlan

  datatype OrderReport = OrderReport(ref: Ref, signedRemaining: int)

  datatype Snapshot = Snapshot(stable: bool, openOrders: seq<OrderReport>, executions: seq<Execution>, position: int)

  datatype SnapshotReply = SnapshotRaised | Got(snap: Snapshot)

  datatype Deferral = Deferral(why: MissReason, state: Option<OrderState>)

  class Clock {
    var now: Instant

    constructor (start: Instant)
      ensures now == start
    {
      now := start;
    }

    method Advance(seconds: nat)
      modifies this
      ensures now == old(now) + seconds
    {
      now := now + seconds;
    }
  }

  /** Intent ids never repeat, not even across restarts or lost tails. */
  class IdSource {
    var next: nat

    constructor ()
      ensures next == 0
    {
      next := 0;
    }

    method Fresh() returns (id: nat)
      modifies this
      ensures id == old(next) && next == old(next) + 1
    {
      id := next;
      next := next + 1;
    }
  }

  function CollarBps(attempt: nat, closing: bool): real {
    (INITIAL_COLLAR_BPS + COLLAR_STEP_BPS * (attempt as real)) *
    (if closing then CLOSING_COLLAR_MULTIPLIER else 1.0)
  }

  function LimitPrice(quote: Option<Quote>, side: Side, attempt: nat, closing: bool): Option<real> {
    if quote.None? then None
    else
      var collar := CollarBps(attempt, closing) / 10000.0;
      Some(if side.BUY? then quote.value.ask * (1.0 + collar) else quote.value.bid * (1.0 - collar))
  }

  /** What an attempt is charged at: its limit, else the mid, else nothing. */
  function AccountingPrice(limit: Option<real>, quote: Option<Quote>): Option<real> {
    if limit.Some? then limit
    else if quote.Some? then Some(quote.value.Mid())
    else None
  }

  /** The session date, in the exchange's zone, of an instant. */
  function EtDay(t: Instant): int {
    (t - ET_OFFSET) / DAY
  }

  function RefsOf(reports: seq<OrderReport>): set<Ref> {
    set k | 0 <= k < |reports| :: reports[k].ref
  }

  function WitnessSeq(rec: Option<WitnessRecord>): nat {
    if rec.Some? then rec.value.seqNo else 0
  }
}
