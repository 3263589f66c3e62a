/** When a tenant's request goes through, and what it leaves: exact charges, the payment that is
    opened, and the rows that change at once. */
module BillingRequests {
  import opened Options
  import opened Tiers
  import opened Proration
  import opened Billing
  import opened BillingEffects
  import opened BillingRuns
  import Calendar

  // ---- Vocabulary -----------------------------------------------------------------------------

  /** Only this changed: one new payment, to be paid. */
  predicate Opens(db: Db, db': Db, sid: Id, purpose: Purpose, amount: nat) {
    db' == db.(pays := db.pays[db.nextId := Payment(sid, purpose, amount, PENDING, None, None, false)], nextId := db.nextId + 1)
  }

  /** A payment of this amount, whatever it is, was opened. */
  predicate OpensNearest(db: Db, db': Db, sid: Id, purpose: Purpose, num: int, den: int) {
    && db.nextId in db'.pays && db'.pays[db.nextId].amount > 0
    && Nearest(db'.pays[db.nextId].amount, num, den)
    && Opens(db, db', sid, purpose, db'.pays[db.nextId].amount)
  }

  /** What is still to come of a period. */
  function ToCome(p: Period, now: int): int {
    if now <= p.start then p.end - p.start else if now <= p.end then p.end - now else 0
  }

  /** Somebody still has to pay, or a verified change still has to land. */
  predicate Unsettled(p: Payment, sid: Id) {
    p.subscription == sid && p.period.None? && (p.status == PENDING || p.status == REPORTED || p.status == VERIFIED)
  }

  predicate TierChangeUnsettled(db: Db, sid: Id) {
    exists pid :: pid in db.pays && Unsettled(db.pays[pid], sid) && db.pays[pid].purpose.TIER_CHANGE?
  }

  predicate IntervalChangeUnsettled(db: Db, sid: Id) {
    exists pid :: pid in db.pays && Unsettled(db.pays[pid], sid) && db.pays[pid].purpose.TIER_CHANGE? && db.pays[pid].purpose.switch != KeepInterval
  }

  predicate SeatChangeUnsettled(db: Db, sid: Id) {
    exists pid :: pid in db.pays && Unsettled(db.pays[pid], sid) && db.pays[pid].purpose.SEAT_CHANGE?
  }

  lemma UnsettledIsInFlight(db: Db, sid: Id)
    ensures TierChangeUnsettled(db, sid) <==> TierChangeInFlight(db, sid)
    ensures IntervalChangeUnsettled(db, sid) <==> IntervalChangeInFlight(db, sid)
    ensures SeatChangeUnsettled(db, sid) <==> SeatChangeInFlight(db, sid)
  {
    forall pid | pid in db.pays
      ensures Unsettled(db.pays[pid], sid) <==> db.pays[pid].subscription == sid && InFlight(db.pays[pid])
    {
    }
  }

  /** What is sold: nothing for FREE, SOLO by the year only. */
  predicate Sold(tier: Tier, interval: Interval) {
    tier != FREE && (tier == SOLO ==> interval == YEARLY)
  }

  // ---- Subscribing ----------------------------------------------------------------------------

  /** Subscribing goes through exactly for what is sold, for a tenant that is there and has no
      subscription that is ACTIVE or still to be paid, and leaves that and its first payment, of the
      price for the interval. */
  lemma SubscribeOutcome(db: Db, t: Id, tier: Tier, interval: Interval, prices: Prices, now: int)
    ensures
      var r := CreateSubscription(db, t, tier, interval, prices, now);
      && (r.Ok? <==>
            && Sold(tier, interval) && t in db.tenants
            && forall sid :: sid in db.subs && db.subs[sid].tenant == t ==> db.subs[sid].status in {CANCELLED, EXPIRED})
      && (r == Err(InvalidTier) <==> tier == FREE)
      && (r == Err(IntervalNotAvailable) <==> tier == SOLO && interval == MONTHLY)
      && (r == Err(NotFound) <==> Sold(tier, interval) && t !in db.tenants)
      && (r.Ok? ==>
            var s := Subscription(t, tier, interval, PENDING_PAYMENT, None, None, None, 0, None);
            Opens(db.(subs := db.subs[db.nextId := s], nextId := db.nextId + 1), r.value, db.nextId, INITIAL, prices.tier(tier, interval, now)))
  {
  }

  // ---- Changing the tier ----------------------------------------------------------------------

  /** A tier change goes through exactly for what is sold and is not what the tenant has, when
      nothing is scheduled and no tier or seat change is unsettled. */
  lemma TierChangeGoesThrough(db: Db, sid: Id, tier: Tier, interval: Option<Interval>, prices: Prices, now: int)
    requires IsActiveIn(db, sid)
    ensures
      var s := db.subs[sid];
      var target := interval.GetOr(s.interval);
      var r := RequestTierChange(db, Some(sid), tier, interval, prices, now);
      && (r.Ok? <==>
            && Sold(tier, target) && (tier != s.tier || target != s.interval) && s.pendingTier.None?
            && !TierChangeUnsettled(db, sid) && !SeatChangeUnsettled(db, sid))
      && (r == Err(InvalidTier) <==> tier == FREE)
      && (r == Err(IntervalNotAvailable) <==> tier == SOLO && target == MONTHLY)
      && (r == Err(NoOp) <==> Sold(tier, target) && tier == s.tier && target == s.interval)
      && (r == Err(CancellationPending) ==> s.pendingTier == Some(FREE))
      && (r == Err(SeatChangePending) ==> SeatChangeUnsettled(db, sid) && !TierChangeUnsettled(db, sid))
  {
    hide DecideTierChange, MoveToInterval, SetCap, TierChangeInFlight, SeatChangeInFlight, TierChangeUnsettled, SeatChangeUnsettled;
    UnsettledIsInFlight(db, sid);
  }

  /** The kinds of tier change, by the monthly prices and the interval. */
  predicate IsDowngrade(s: Subscription, tier: Tier, interval: Interval, prices: Prices, now: int) {
    interval == s.interval && prices.tier(tier, MONTHLY, now) < prices.tier(s.tier, MONTHLY, now)
  }

  predicate IsUpgrade(s: Subscription, tier: Tier, interval: Interval, prices: Prices, now: int) {
    interval == s.interval && prices.tier(s.tier, MONTHLY, now) < prices.tier(tier, MONTHLY, now)
  }

  predicate IsMoveToYearly(s: Subscription, tier: Tier, interval: Interval, prices: Prices, now: int) {
    s.interval == MONTHLY && interval == YEARLY && 12 * prices.tier(s.tier, MONTHLY, now) < prices.tier(tier, YEARLY, now)
  }

  /** The tier, and with it the tenant's tier and the size of its quota, without a new period. */
  predicate Upgraded(db: Db, db': Db, sid: Id, tier: Tier)
    requires SubLinked(db, sid)
  {
    var s := db.subs[sid];
    && db' == db.(subs := db'.subs, tenants := db'.tenants, quotas := db'.quotas)
    && db'.subs == db.subs[sid := s.(tier := tier, pendingTier := None, pendingInterval := None)]
    && db'.tenants == db.tenants[s.tenant := Tenant(tier, db.tenants[s.tenant].status)]
    && db'.quotas == db.quotas[s.tenant := Rows(db', s.tenant)] && Sized(Rows(db, s.tenant), Rows(db', s.tenant), tier, s.interval)
  }

  lemma UpgradeOutcome(db: Db, sid: Id, tier: Tier, interval: Option<Interval>, prices: Prices, now: int)
    requires IsActiveIn(db, sid) && db.subs[sid].period.value.start < db.subs[sid].period.value.end
    requires IsUpgrade(db.subs[sid], tier, interval.GetOr(db.subs[sid].interval), prices, now)
    requires RequestTierChange(db, Some(sid), tier, interval, prices, now).Ok?
    ensures
      var s := db.subs[sid];
      var p := s.period.value;
      var db' := RequestTierChange(db, Some(sid), tier, interval, prices, now).value;
      var num := (prices.tier(tier, s.interval, now) - prices.tier(s.tier, s.interval, now)) * ToCome(p, now);
      if 2 * num < p.end - p.start then Upgraded(db, db', sid, tier)
      else OpensNearest(db, db', sid, TIER_CHANGE(tier, KeepInterval), num, p.end - p.start)
  {
    hide RoundDiv, Remaining, Nearest, Resize, Sized, TierChangeError;
    var s := db.subs[sid];
    ResizeSizes(Rows(db, s.tenant), tier, s.interval);
    var p := s.period.value;
    var d := prices.tier(tier, s.interval, now) - prices.tier(s.tier, s.interval, now);
    LeftOf(p.start, p.end, now);
    RoundDivNearest(d * ToCome(p, now), p.end - p.start);
  }

  lemma MoveToYearlyOutcome(db: Db, sid: Id, tier: Tier, interval: Option<Interval>, prices: Prices, now: int)
    requires IsActiveIn(db, sid) && db.subs[sid].period.value.start < db.subs[sid].period.value.end
    requires IsMoveToYearly(db.subs[sid], tier, interval.GetOr(db.subs[sid].interval), prices, now)
    requires RequestTierChange(db, Some(sid), tier, interval, prices, now).Ok?
    ensures
      var s := db.subs[sid];
      var p := s.period.value;
      var db' := RequestTierChange(db, Some(sid), tier, interval, prices, now).value;
      var seats := if s.pendingSeats.Some? then s.pendingSeats.value else s.extraSeats;
      var full := prices.tier(tier, YEARLY, now) + seats * prices.seat(YEARLY, now);
      OpensNearest(db, db', sid, TIER_CHANGE(tier, AtOnce(YEARLY)),
                   full * (p.end - p.start) - prices.tier(s.tier, MONTHLY, now) * ToCome(p, now), p.end - p.start)
  {
    hide RoundDiv, Remaining, Nearest, TierChangeError, MoveToInterval;
    var s := db.subs[sid];
    var p := s.period.value;
    var yearly, monthly := prices.tier(tier, YEARLY, now), prices.tier(s.tier, MONTHLY, now);
    var extra := SeatsAtPeriodEnd(s) * prices.seat(YEARLY, now);
    YearlyMoveAlwaysCharges(yearly, extra, monthly, p.start, p.end, now);
    LeftOf(p.start, p.end, now);
    RoundDivNearest((yearly + extra) * (p.end - p.start) - monthly * ToCome(p, now), p.end - p.start);
  }

  /** A tier change that goes through is scheduled for the period's end without a payment if it is a
      downgrade. An upgrade costs the difference for what is left of the period, to the nearest cent,
      and is granted at once exactly when that is under half a cent. The move to a dearer year costs
      the year less what is left of the month. Anything else is paid in full at the prices of the
      period's end, and waits for it. */
  lemma TierChangeOutcome(db: Db, sid: Id, tier: Tier, interval: Option<Interval>, prices: Prices, now: int)
    requires IsActiveIn(db, sid) && db.subs[sid].period.value.start < db.subs[sid].period.value.end
    requires RequestTierChange(db, Some(sid), tier, interval, prices, now).Ok?
    ensures
      var s := db.subs[sid];
      var p := s.period.value;
      var target := interval.GetOr(s.interval);
      var db' := RequestTierChange(db, Some(sid), tier, interval, prices, now).value;
      var seats := if s.pendingSeats.Some? then s.pendingSeats.value else s.extraSeats;
      if IsDowngrade(s, tier, target, prices, now) then
        db' == db.(subs := db.subs[sid := s.(pendingTier := Some(tier), pendingInterval := None)])
      else if IsUpgrade(s, tier, target, prices, now) then
        var num := (prices.tier(tier, s.interval, now) - prices.tier(s.tier, s.interval, now)) * ToCome(p, now);
        if 2 * num < p.end - p.start then Upgraded(db, db', sid, tier)
        else OpensNearest(db, db', sid, TIER_CHANGE(tier, KeepInterval), num, p.end - p.start)
      else if IsMoveToYearly(s, tier, target, prices, now) then
        var full := prices.tier(tier, YEARLY, now) + seats * prices.seat(YEARLY, now);
        OpensNearest(db, db', sid, TIER_CHANGE(tier, AtOnce(YEARLY)),
                     full * (p.end - p.start) - prices.tier(s.tier, MONTHLY, now) * ToCome(p, now), p.end - p.start)
      else
        Opens(db, db', sid, TIER_CHANGE(tier, AtPeriodEnd(target)), prices.tier(tier, target, p.end) + seats * prices.seat(target, p.end))
  {
    hide TierChangeError, MoveToInterval, SetCap, SameIntervalCharge, CrossIntervalCharge, OpensNearest, Upgraded, ToCome;
    var s := db.subs[sid];
    var target := interval.GetOr(s.interval);
    if IsUpgrade(s, tier, target, prices, now) {
      UpgradeOutcome(db, sid, tier, interval, prices, now);
    } else if IsMoveToYearly(s, tier, target, prices, now) {
      MoveToYearlyOutcome(db, sid, tier, interval, prices, now);
    }
  }

  // ---- Changing the seats ---------------------------------------------------------------------

  /** A seat change goes through exactly when it changes the seats, no cancellation, seat change or
      change of interval is scheduled, and no seat change or change of interval is unsettled. */
  lemma SeatChangeGoesThrough(db: Db, sid: Id, seats: nat, prices: Prices, now: int)
    requires IsActiveIn(db, sid)
    ensures
      var s := db.subs[sid];
      var r := RequestSeatChange(db, Some(sid), seats, prices, now);
      && (r.Ok? <==>
            && seats != s.extraSeats && s.pendingTier != Some(FREE) && s.pendingSeats.None? && s.pendingInterval.None?
            && !SeatChangeUnsettled(db, sid) && !IntervalChangeUnsettled(db, sid))
      && (r == Err(NoOp) <==> seats == s.extraSeats)
  {
    hide SeatCharge, SeatChangeInFlight, IntervalChangeInFlight, SeatChangeUnsettled, IntervalChangeUnsettled;
    UnsettledIsInFlight(db, sid);
  }

  /** Fewer seats wait for the period's end and cost nothing; more seats cost their price for what is
      left of the period, to the nearest cent, and are there at once exactly when that is under half
      a cent. */
  lemma SeatChangeOutcome(db: Db, sid: Id, seats: nat, prices: Prices, now: int)
    requires IsActiveIn(db, sid) && db.subs[sid].period.value.start < db.subs[sid].period.value.end
    requires RequestSeatChange(db, Some(sid), seats, prices, now).Ok?
    ensures
      var s := db.subs[sid];
      var p := s.period.value;
      var db' := RequestSeatChange(db, Some(sid), seats, prices, now).value;
      var num := (seats - s.extraSeats) * prices.seat(s.interval, now) * ToCome(p, now);
      if seats < s.extraSeats then db' == db.(subs := db.subs[sid := s.(pendingSeats := Some(seats))])
      else if 2 * num < p.end - p.start then db' == db.(subs := db.subs[sid := s.(extraSeats := seats, pendingSeats := None)])
      else OpensNearest(db, db', sid, SEAT_CHANGE(seats), num, p.end - p.start)
  {
    hide RoundDiv, Remaining, Nearest, SeatChangeError;
    var s := db.subs[sid];
    var p := s.period.value;
    LeftOf(p.start, p.end, now);
    RoundDivNearest((seats - s.extraSeats) * prices.seat(s.interval, now) * ToCome(p, now), p.end - p.start);
  }

  /** Without an ACTIVE subscription there is nothing to change. */
  lemma NothingToChange(db: Db, tier: Tier, interval: Option<Interval>, seats: nat, prices: Prices, now: int)
    ensures tier != FREE ==> RequestTierChange(db, None, tier, interval, prices, now) == Err(NoActiveSubscription)
    ensures RequestSeatChange(db, None, seats, prices, now) == Err(NoActiveSubscription)
    ensures ScheduleCancellation(db, None) == Err(NoActiveSubscription)
  {
  }

  // ---- Cancelling -----------------------------------------------------------------------------

  /** A cancellation goes through exactly when nothing is scheduled and no tier or seat change is
      unsettled, and only schedules FREE: the subscription stays ACTIVE until its period ends. */
  lemma CancellationOutcome(db: Db, sid: Id)
    requires IsActiveIn(db, sid)
    ensures
      var s := db.subs[sid];
      var r := ScheduleCancellation(db, Some(sid));
      && (r.Ok? <==> s.pendingTier.None? && !TierChangeUnsettled(db, sid) && !SeatChangeUnsettled(db, sid))
      && (r.Ok? ==> r.value == db.(subs := db.subs[sid := s.(pendingTier := Some(FREE), pendingInterval := None)]))
  {
    hide TierChangeInFlight, SeatChangeInFlight, TierChangeUnsettled, SeatChangeUnsettled;
    UnsettledIsInFlight(db, sid);
  }
}
