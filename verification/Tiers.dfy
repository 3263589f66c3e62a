/** Subscription tiers, billing intervals and the document quota each combination grants. */
module Tiers {
  import opened Options

  datatype Tier = FREE | SOLO | LITE | STARTER | GROWTH | BUSINESS | ENTERPRISE

  datatype Interval = MONTHLY | YEARLY

  const YEARLY_POOL_MONTHS: nat := 12

  /** Documents a month; None is unlimited. */
  function DocumentQuota(tier: Tier): Option<nat> {
    match tier
    case FREE => Some(5)
    case SOLO => Some(20)
    case LITE => Some(50)
    case STARTER => Some(200)
    case GROWTH => Some(1000)
    case BUSINESS => Some(4000)
    case ENTERPRISE => None
  }

  predicate IntervalAllowed(tier: Tier, interval: Interval) {
    match tier
    case FREE => interval == MONTHLY
    case SOLO => interval == YEARLY
    case _ => true
  }

  function IntervalMonths(interval: Interval): nat {
    if interval.YEARLY? then 12 else 1
  }

  /** Length of a quota period; FREE never pools a year whatever interval it is asked for. */
  function PeriodMonths(tier: Tier, interval: Interval): nat {
    if tier == FREE then 1 else if interval.YEARLY? then YEARLY_POOL_MONTHS else 1
  }

  function CapForTier(tier: Tier, interval: Interval): Option<nat> {
    match DocumentQuota(tier)
    case None => None
    case Some(quota) => Some(quota * PeriodMonths(tier, interval))
  }

  /** Documents granted for a number of months, tier by tier; None is unlimited. */
  function Pool(tier: Tier, months: nat): Option<nat> {
    match tier
    case FREE => Some(5 * months)
    case SOLO => Some(20 * months)
    case LITE => Some(50 * months)
    case STARTER => Some(200 * months)
    case GROWTH => Some(1000 * months)
    case BUSINESS => Some(4000 * months)
    case ENTERPRISE => None
  }

  /** Months a quota row is good for: a year's pool for the paid tiers by the year, else one. */
  function PooledMonths(tier: Tier, interval: Interval): nat {
    if tier != FREE && interval == YEARLY then 12 else 1
  }

  /** The interval a quota row records: the one actually granted. */
  function EffectiveInterval(tier: Tier, interval: Interval): Interval {
    if PeriodMonths(tier, interval) == YEARLY_POOL_MONTHS then YEARLY else MONTHLY
  }

  /** A cap is the tier's documents for the months the row is good for. */
  lemma CapIsPool(tier: Tier, interval: Interval)
    ensures CapForTier(tier, interval) == Pool(tier, PooledMonths(tier, interval)) && PeriodMonths(tier, interval) == PooledMonths(tier, interval)
    ensures EffectiveInterval(tier, interval) == if PooledMonths(tier, interval) == 12 then YEARLY else MONTHLY
  {
  }

  /** FREE is sold to nobody but monthly, SOLO by the year only, the rest both ways. */
  lemma IntervalsSold(tier: Tier, interval: Interval)
    ensures IntervalAllowed(tier, interval) <==> !(tier == FREE && interval == YEARLY) && !(tier == SOLO && interval == MONTHLY)
  {
  }
}
