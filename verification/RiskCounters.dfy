/** Risk limits and the daily runaway counters that a restart rebuilds. */
module RiskCounters {
  import opened Wrappers
  import opened Models

  const HARD_MAX_POSITION_SHARES: int := 100
  const HARD_MAX_ORDER_SHARES: int := 200
  const HARD_MAX_ORDER_NOTIONAL: real := 200000.0
  const HARD_MAX_DAILY_SHARES: int := 2000
  const HARD_MAX_DAILY_NOTIONAL: real := 1000000.0
  const HARD_MAX_ORDERS_PER_DAY: int := 200
  const HARD_MAX_ORDERS_PER_MINUTE: int := 10

  datatype RiskConfig = RiskConfig(
    legWhitelisted: bool,
    maxPositionShares: int,
    maxOrderShares: int,
    maxOrderNotional: real,
    maxDailyShares: int,
    maxDailyNotional: real,
    maxOrdersPerDay: int,
    maxOrdersPerMinute: int,
    allowShort: bool,
    maxQuoteAgeSeconds: real,
    maxSpreadBps: real,
    maxLimitDeviationBps: real,
    overnightGapStressPct: real,
    maxOvernightLoss: real)
  {
    /** What the constructor's validation accepts. */
    predicate Valid() {
      && 0 < maxPositionShares <= HARD_MAX_POSITION_SHARES
      && 0 < maxOrderShares <= HARD_MAX_ORDER_SHARES
      && 2 * maxPositionShares <= maxOrderShares
      && 0.0 < maxOrderNotional <= HARD_MAX_ORDER_NOTIONAL
      && 0 < maxDailyShares <= HARD_MAX_DAILY_SHARES
      && 0.0 < maxDailyNotional <= HARD_MAX_DAILY_NOTIONAL
      && 0 < maxOrdersPerDay <= HARD_MAX_ORDERS_PER_DAY
      && 0 < maxOrdersPerMinute <= HARD_MAX_ORDERS_PER_MINUTE
      && legWhitelisted
      && maxQuoteAgeSeconds > 0.0
      && maxSpreadBps > 0.0
      && maxLimitDeviationBps > 0.0
      && 0.0 < overnightGapStressPct <= 1.0
      && maxOvernightLoss > 0.0
    }
  }

  /** The UTC day of an instant. */
  function UtcDay(t: Instant): int {
    t / DAY
  }

  datatype Counters = Counters(
    day: Option<int>,
    orders: nat,
    shares: nat,
    notional: real,
    stamps: seq<Instant>)

  const FRESH: Counters := Counters(None, 0, 0, 0.0, [])

  /** A new UTC day starts from zero; the same day keeps its counts. */
  function Roll(c: Counters, now: Instant): Counters {
    if c.day == Some(UtcDay(now)) then c else FRESH.(day := Some(UtcDay(now)))
  }

  function Notional(price: real, quantity: nat): real {
    price * (quantity as real)
  }

  function PriceOrZero(price: Option<real>): real {
    if price.Some? then price.value else 0.0
  }

  /** One more submission attempt at `now`. */
  function Count(c: Counters, now: Instant, quantity: nat, price: real): Counters {
    var r := Roll(c, now);
    Counters(r.day, r.orders + 1, r.shares + quantity,
             r.notional + Notional(price, quantity), r.stamps + [now])
  }

  /** How many of the stamps lie less than 60 seconds before `now`. */
  function Recent(stamps: seq<Instant>, now: Instant): nat {
    if stamps == [] then 0
    else Recent(stamps[..|stamps| - 1], now) + (if now - stamps[|stamps| - 1] < 60 then 1 else 0)
  }

  /** One more attempt at `now` stays inside every runaway cap. */
  predicate WithinCaps(config: RiskConfig, c: Counters, now: Instant, quantity: nat, price: real) {
    var r := Roll(c, now);
    && r.orders + 1 <= config.maxOrdersPerDay
    && Recent(r.stamps, now) + 1 <= config.maxOrdersPerMinute
    && r.shares + quantity <= config.maxDailyShares
    && r.notional + Notional(price, quantity) <= config.maxDailyNotional
  }
}
