/** The pre-trade risk engine. Its runaway counters are a cache of the log: a
    restart rebuilds them, and what they bound is a property of every lawful log. */
module Risk {
  import opened Wrappers
  import opened Models
  import opened RiskCounters
  import opened LogView

  datatype RiskCheck =
    | WHITELIST | QUANTITY | MAX_ORDER_SHARES | MAX_POSITION_SHARES | ALLOW_SHORT
    | MAX_ORDERS_PER_DAY | MAX_ORDERS_PER_MINUTE | MAX_DAILY_SHARES
    | QUOTE_STALE | MAX_SPREAD_BPS | LIMIT_COLLAR | NO_QUOTE
    | MAX_ORDER_NOTIONAL | MAX_DAILY_NOTIONAL | OVERNIGHT_STRESS

  /** The price an order is charged at: its limit, else the mid, else nothing. */
  function ChargedPrice(intent: OrderIntent, quote: Option<Quote>): real {
    if intent.limitPrice.Some? && intent.limitPrice.value != 0.0 then intent.limitPrice.value
    else if quote.Some? then quote.value.Mid()
    else 0.0
  }

  predicate QuoteAcceptable(config: RiskConfig, now: Instant, intent: OrderIntent,
                            quote: Option<Quote>, closing: bool)
  {
    if quote.None? then closing
    else
      var q := quote.value;
      && (((now - q.ts) as real) <= config.maxQuoteAgeSeconds || closing)
      && (q.Mid() > 0.0 ==>
            && (q.Spread() / q.Mid() * 10000.0 <= config.maxSpreadBps || closing)
            && (intent.limitPrice.Some? ==>
                  var dev := intent.limitPrice.value - q.Mid();
                  (if dev < 0.0 then -dev else dev) / q.Mid() * 10000.0
                  <= config.maxLimitDeviationBps * (if closing then 3.0 else 1.0)))
  }

  predicate SurvivesOvernight(config: RiskConfig, resulting: int, quote: Option<Quote>) {
    resulting != 0 && quote.Some? ==>
      (Abs(resulting) as real) * quote.value.Mid() * config.overnightGapStressPct <= config.maxOvernightLoss
  }

  /** Every limit at once, given counters already rolled to today. */
  predicate Admissible(config: RiskConfig, c: Counters, now: Instant, intent: OrderIntent,
                       position: int, quote: Option<Quote>, closing: bool)
  {
    var resulting := position + intent.Signed();
    var charged := Notional(ChargedPrice(intent, quote), intent.quantity);
    && config.legWhitelisted
    && 0 < intent.quantity <= config.maxOrderShares
    && Abs(resulting) <= config.maxPositionShares
    && (resulting >= 0 || config.allowShort)
    && c.orders + 1 <= config.maxOrdersPerDay
    && Recent(c.stamps, now) + 1 <= config.maxOrdersPerMinute
    && c.shares + intent.quantity <= config.maxDailyShares
    && QuoteAcceptable(config, now, intent, quote, closing)
    && charged <= config.maxOrderNotional
    && c.notional + charged <= config.maxDailyNotional
    && SurvivesOvernight(config, resulting, quote)
  }

  class RiskEngine {
    const config: RiskConfig
    var counters: Counters

    constructor (config: RiskConfig)
      ensures this.config == config && counters == FRESH
    {
      this.config := config;
      counters := FRESH;
    }

    /** Rejection names a limit that is really exceeded; acceptance means none is. */
    method Check(now: Instant, intent: OrderIntent, position: int, quote: Option<Quote>, closing: bool)
      returns (rejected: Option<RiskCheck>)
      modifies this
      ensures counters == Roll(old(counters), now)
      ensures rejected.None? <==> Admissible(config, counters, now, intent, position, quote, closing)
      ensures rejected == Some(MAX_POSITION_SHARES) ==> Abs(position + intent.Signed()) > config.maxPositionShares
      ensures rejected == Some(MAX_ORDERS_PER_DAY) ==> counters.orders >= config.maxOrdersPerDay
      ensures rejected == Some(MAX_ORDERS_PER_MINUTE) ==> Recent(counters.stamps, now) >= config.maxOrdersPerMinute
      ensures rejected == Some(NO_QUOTE) ==> quote.None? && !closing
    {
      counters := Roll(counters, now);
      if !config.legWhitelisted { return Some(WHITELIST); }
      if intent.quantity <= 0 { return Some(QUANTITY); }
      if intent.quantity > config.maxOrderShares { return Some(MAX_ORDER_SHARES); }
      var resulting := position + intent.Signed();
      if Abs(resulting) > config.maxPositionShares { return Some(MAX_POSITION_SHARES); }
      if resulting < 0 && !config.allowShort { return Some(ALLOW_SHORT); }

      if counters.orders + 1 > config.maxOrdersPerDay { return Some(MAX_ORDERS_PER_DAY); }
      var recent := CountRecent(counters.stamps, now);
      if recent + 1 > config.maxOrdersPerMinute { return Some(MAX_ORDERS_PER_MINUTE); }
      if counters.shares + intent.quantity > config.maxDailyShares { return Some(MAX_DAILY_SHARES); }

      if quote.Some? {
        var q := quote.value;
        if ((now - q.ts) as real) > config.maxQuoteAgeSeconds && !closing { return Some(QUOTE_STALE); }
        if q.Mid() > 0.0 {
          if q.Spread() / q.Mid() * 10000.0 > config.maxSpreadBps && !closing { return Some(MAX_SPREAD_BPS); }
          if intent.limitPrice.Some? {
            var dev := intent.limitPrice.value - q.Mid();
            var devBps := (if dev < 0.0 then -dev else dev) / q.Mid() * 10000.0;
            if devBps > config.maxLimitDeviationBps * (if closing then 3.0 else 1.0) { return Some(LIMIT_COLLAR); }
          }
        }
      } else if !closing {
        return Some(NO_QUOTE);
      }
      var charged := Notional(ChargedPrice(intent, quote), intent.quantity);
      if charged > config.maxOrderNotional { return Some(MAX_ORDER_NOTIONAL); }
      if counters.notional + charged > config.maxDailyNotional { return Some(MAX_DAILY_NOTIONAL); }
      if resulting != 0 && quote.Some? {
        var loss := (Abs(resulting) as real) * quote.value.Mid() * config.overnightGapStressPct;
        if loss > config.maxOvernightLoss { return Some(OVERNIGHT_STRESS); }
      }
      return None;
    }

    /** Every submission attempt counts, clean rejections included. */
    method RecordSent(now: Instant, intent: OrderIntent, price: real)
      modifies this
      ensures counters == Count(old(counters), now, intent.quantity, price)
    {
      counters := Roll(counters, now);
      counters := Counters(counters.day, counters.orders + 1, counters.shares + intent.quantity,
                           counters.notional + Notional(price, intent.quantity), counters.stamps + [now]);
    }

    /** A restart reads the counters back from the log: each attempt exactly once. */
    method RestoreFromEvents(log: seq<Record>)
      modifies this
      ensures counters == Fold(config, log).counters
    {
      var intents: map<Ref, OrderIntent> := map[];
      var seenSent: set<Ref> := {};
      counters := FRESH;
      for k := 0 to |log|
        invariant intents == Fold(config, log[..k]).orders.intents
        invariant seenSent == Fold(config, log[..k]).orders.attempted
        invariant counters == Fold(config, log[..k]).counters
      {
        assert log[..k + 1][..k] == log[..k];
        var e := log[k].event;
        if e.IntentCommitted? {
          intents := intents[e.intent.ref := e.intent];
        } else if e.SendAttemptStarted? {
          if e.ref !in seenSent {
            seenSent := seenSent + {e.ref};
            var ts := log[k].ts;
            counters := Roll(counters, ts);
            var qty := if e.ref in intents then intents[e.ref].quantity else e.sendQuantity;
            var px := PriceOrZero(if e.ref in intents then intents[e.ref].limitPrice else e.price);
            counters := Counters(counters.day, counters.orders + 1, counters.shares + qty,
                                 counters.notional + Notional(px, qty), counters.stamps + [ts]);
          } else {
            assert seenSent + {e.ref} == seenSent;
          }
        }
      }
      assert log[..|log|] == log;
    }
  }

  method CountRecent(stamps: seq<Instant>, now: Instant) returns (n: nat)
    ensures n == Recent(stamps, now)
  {
    n := 0;
    for k := 0 to |stamps|
      invariant n == Recent(stamps[..k], now)
    {
      assert stamps[..k + 1][..k] == stamps[..k];
      if now - stamps[k] < 60 {
        n := n + 1;
      }
    }
    assert stamps[..|stamps|] == stamps;
  }

  /** A validated configuration can always execute a full reversal in one order. */
  lemma ReversalIsExecutable(config: RiskConfig, position: int, target: int)
    requires config.Valid()
    requires Abs(position) <= config.maxPositionShares && Abs(target) <= config.maxPositionShares
    ensures Abs(target - position) <= config.maxOrderShares
  {
  }

  /** Accepting an order leaves room for what the auditor will charge it:
      the recorded price never exceeds the checked one. */
  lemma AdmissibleWithinCaps(config: RiskConfig, c: Counters, now: Instant, intent: OrderIntent,
                             position: int, quote: Option<Quote>, closing: bool)
    requires Admissible(config, Roll(c, now), now, intent, position, quote, closing)
    requires quote.Some? ==> quote.value.Valid()
    ensures WithinCaps(config, c, now, intent.quantity, PriceOrZero(intent.limitPrice))
  {
    if intent.limitPrice == Some(0.0) || intent.limitPrice.None? {
      var q := intent.quantity as real;
      assert Notional(0.0, intent.quantity) == 0.0;
      assert ChargedPrice(intent, quote) * q >= 0.0;
    }
  }

  // ---- the caps as a property of the log --------------------------------

  predicate IsSendOn(r: Record, day: int) {
    r.event.SendAttemptStarted? && UtcDay(r.ts) == day
  }

  function SendsOn(log: seq<Record>, day: int): nat {
    if log == [] then 0
    else SendsOn(log[..|log| - 1], day) + (if IsSendOn(log[|log| - 1], day) then 1 else 0)
  }

  function SharesOn(log: seq<Record>, day: int): nat {
    if log == [] then 0
    else SharesOn(log[..|log| - 1], day) +
         (if IsSendOn(log[|log| - 1], day) then log[|log| - 1].event.sendQuantity else 0)
  }

  function NotionalOn(log: seq<Record>, day: int): real {
    if log == [] then 0.0
    else NotionalOn(log[..|log| - 1], day) +
         (if IsSendOn(log[|log| - 1], day)
          then Notional(PriceOrZero(log[|log| - 1].event.price), log[|log| - 1].event.sendQuantity)
          else 0.0)
  }

  /** Sends of one UTC day less than 60 seconds before `t`, and not after it. */
  function WindowOn(log: seq<Record>, day: int, t: Instant): nat {
    if log == [] then 0
    else WindowOn(log[..|log| - 1], day, t) +
         (if IsSendOn(log[|log| - 1], day) && t - 60 < log[|log| - 1].ts <= t then 1 else 0)
  }

  /** The counters of a lawful log are the tallies of its last trading day. */
  lemma {:induction false} CountersTally(config: RiskConfig, log: seq<Record>)
    requires Fold(config, log).lawful
    ensures var v := Fold(config, log);
      && (v.lastTs.Some? <==> log != [])
      && (v.counters.day.Some? ==>
           && UtcDay(v.lastTs.value) >= v.counters.day.value
           && v.counters.orders == SendsOn(log, v.counters.day.value)
           && v.counters.shares == SharesOn(log, v.counters.day.value)
           && v.counters.notional == NotionalOn(log, v.counters.day.value))
    ensures forall d :: (Fold(config, log).counters.day.None? || d > Fold(config, log).counters.day.value) ==>
                          SendsOn(log, d) == 0 && SharesOn(log, d) == 0 && NotionalOn(log, d) == 0.0
  {
    if log != [] {
      CountersTally(config, log[..|log| - 1]);
      LastTsIs(config, log[..|log| - 1]);
    }
  }

  lemma LastTsIs(config: RiskConfig, log: seq<Record>)
    ensures Fold(config, log).lastTs == if log == [] then None else Some(log[|log| - 1].ts)
  {
  }

  /** Daily caps hold for every UTC day of a lawful log, restarts included. */
  lemma {:induction false} DailyCapsHold(config: RiskConfig, log: seq<Record>, day: int)
    requires Fold(config, log).lawful && config.Valid()
    ensures SendsOn(log, day) <= config.maxOrdersPerDay
    ensures SharesOn(log, day) <= config.maxDailyShares
    ensures NotionalOn(log, day) <= config.maxDailyNotional
  {
    if log != [] {
      var m := |log| - 1;
      DailyCapsHold(config, log[..m], day);
      CountersTally(config, log[..m]);
    }
  }

  /** Sends of one UTC day less than 60 seconds before `now`. */
  function RecentOn(log: seq<Record>, day: int, now: Instant): nat {
    if log == [] then 0
    else RecentOn(log[..|log| - 1], day, now) +
         (if IsSendOn(log[|log| - 1], day) && now - log[|log| - 1].ts < 60 then 1 else 0)
  }

  /** The only record of a lawful log that moves the counters is a send attempt. */
  lemma CountersStep(config: RiskConfig, log: seq<Record>)
    requires log != [] && Fold(config, log).lawful
    ensures var c, c' := Fold(config, log[..|log| - 1]).counters, Fold(config, log).counters;
      var last := log[|log| - 1];
      c' == if last.event.SendAttemptStarted?
            then Count(c, last.ts, last.event.sendQuantity, PriceOrZero(last.event.price)) else c
  {
  }

  lemma RecentSnoc(c: Counters, t: Instant, quantity: nat, price: real, now: Instant)
    ensures Recent(Count(c, t, quantity, price).stamps, now)
         == Recent(Roll(c, t).stamps, now) + (if now - t < 60 then 1 else 0)
  {
    var stamps := Roll(c, t).stamps + [t];
    assert stamps[..|stamps| - 1] == Roll(c, t).stamps;
  }

  lemma {:induction false} RecentTally(config: RiskConfig, log: seq<Record>, day: int, now: Instant)
    requires Fold(config, log).lawful
    ensures Fold(config, log).counters.day == Some(day) ==>
              Recent(Fold(config, log).counters.stamps, now) == RecentOn(log, day, now)
    ensures (Fold(config, log).counters.day.None? || day > Fold(config, log).counters.day.value) ==>
              RecentOn(log, day, now) == 0
  {
    if log != [] {
      RecentTally(config, log[..|log| - 1], day, now);
      RecentStep(config, log, day, now);
    }
  }

  lemma RecentStep(config: RiskConfig, log: seq<Record>, day: int, now: Instant)
    requires log != [] && Fold(config, log).lawful
    requires var c, n := Fold(config, log[..|log| - 1]).counters, RecentOn(log[..|log| - 1], day, now);
      && (c.day == Some(day) ==> Recent(c.stamps, now) == n)
      && (c.day.None? || day > c.day.value ==> n == 0)
    ensures var c, n := Fold(config, log).counters, RecentOn(log, day, now);
      && (c.day == Some(day) ==> Recent(c.stamps, now) == n)
      && (c.day.None? || day > c.day.value ==> n == 0)
  {
    CountersStep(config, log);
    DayNotEarlier(config, log);
    assert Recent([], now) == 0;
    assert RecentOn(log, day, now) == RecentOn(log[..|log| - 1], day, now) +
      (if IsSendOn(log[|log| - 1], day) && now - log[|log| - 1].ts < 60 then 1 else 0);
    hide Fold, WithinCaps, Notional, UtcDay, Recent, RecentOn;
    var c, last := Fold(config, log[..|log| - 1]).counters, log[|log| - 1];
    if last.event.SendAttemptStarted? {
      RecentSnoc(c, last.ts, last.event.sendQuantity, PriceOrZero(last.event.price), now);
    }
  }

  /** A send never belongs to a day before the one the counters were on. */
  lemma DayNotEarlier(config: RiskConfig, log: seq<Record>)
    requires log != [] && Fold(config, log).lawful
    ensures var c := Fold(config, log[..|log| - 1]).counters;
      c.day.Some? ==> c.day.value <= UtcDay(log[|log| - 1].ts)
  {
    var m := |log| - 1;
    CountersTally(config, log[..m]);
    LastTsIs(config, log[..m]);
    if Fold(config, log[..m]).counters.day.Some? {
      assert log[m - 1].ts <= log[m].ts;
    }
  }

  lemma {:induction false} WindowWithinRecent(log: seq<Record>, day: int, t: Instant, now: Instant)
    requires now <= t
    ensures WindowOn(log, day, t) <= RecentOn(log, day, now)
  {
    if log != [] {
      WindowWithinRecent(log[..|log| - 1], day, t, now);
    }
  }

  /** Any 60-second window inside one UTC day of a lawful log holds at most
      `maxOrdersPerMinute` attempts. */
  lemma {:induction false} MinuteCapHolds(config: RiskConfig, log: seq<Record>, day: int, t: Instant)
    requires Fold(config, log).lawful && config.Valid()
    ensures WindowOn(log, day, t) <= config.maxOrdersPerMinute
  {
    if log != [] {
      var m := |log| - 1;
      MinuteCapHolds(config, log[..m], day, t);
      if IsSendOn(log[m], day) && t - 60 < log[m].ts <= t {
        WindowWithinRecent(log[..m], day, t, log[m].ts);
        RecentTally(config, log[..m], day, log[m].ts);
        CountersTally(config, log[..m]);
        assert Recent(Roll(Fold(config, log[..m]).counters, log[m].ts).stamps, log[m].ts)
            == RecentOn(log[..m], day, log[m].ts);
      }
    }
  }
}
