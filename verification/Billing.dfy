/** The rows of the billing tables and what each billing operation does to them.

    Every function below is one operation, taken as one step: it reads the rows, and returns the
    tables with all of the operation's writes done. Instants are milliseconds, money is cents. */
module Billing {
  import opened Options
  import opened Tiers
  import opened Proration
  import Calendar

  type Id = nat

  const RENEWAL_REMINDER_DAYS := 7
  const RENEWAL_GRACE_DAYS := 7
  const SUSPENSION_WARNING_DAYS := 5

  datatype Period = Period(start: int, end: int)

  datatype SubStatus = PENDING_PAYMENT | ACTIVE | CANCELLED | EXPIRED

  datatype TenantStatus = PENDING_VERIFICATION | VERIFIED_TENANT | PAST_DUE | SUSPENDED

  datatype Tenant = Tenant(tier: Tier, status: TenantStatus)

  /** A quota period; exactly one row a tenant is current. */
  datatype QuotaRow = QuotaRow(period: Period, cap: Option<nat>, interval: Interval, count: nat, isCurrent: bool)

  datatype Subscription = Subscription(
    tenant: Id,
    tier: Tier,
    interval: Interval,
    status: SubStatus,
    period: Option<Period>,
    pendingTier: Option<Tier>,
    pendingInterval: Option<Interval>,
    extraSeats: nat,
    pendingSeats: Option<nat>)

  /** How a tier change treats the billing interval: `KeepInterval` has no target interval,
      `AtPeriodEnd` waits for the period to end, `AtOnce` is the prorated move to yearly. */
  datatype Switch = KeepInterval | AtPeriodEnd(interval: Interval) | AtOnce(interval: Interval)

  datatype Purpose =
    | INITIAL
    | RENEWAL
    | TIER_CHANGE(target: Tier, switch: Switch)
    | SEAT_CHANGE(seats: nat)

  datatype PaymentStatus = PENDING | REPORTED | VERIFIED | REJECTED | REFUNDED | PAYMENT_CANCELLED

  /** What a verified payment is about to change, kept on the payment for its refund. */
  datatype Snapshot = Snapshot(
    tier: Tier,
    interval: Interval,
    period: Option<Period>,
    status: SubStatus,
    tenantTier: Tier,
    extraSeats: nat)

  datatype Payment = Payment(
    subscription: Id,
    purpose: Purpose,
    amount: nat,
    status: PaymentStatus,
    period: Option<Period>,
    appliedFrom: Option<Snapshot>,
    invoiced: bool)

  /** The tables, with the time of the last past-due warning sent for each subscription. Ids are
      handed out in order. */
  datatype Db = Db(
    tenants: map<Id, Tenant>,
    subs: map<Id, Subscription>,
    pays: map<Id, Payment>,
    quotas: map<Id, seq<QuotaRow>>,
    warned: map<Id, int>,
    nextId: Id)

  /** Published prices as of an instant, in cents. */
  datatype Prices = Prices(tier: (Tier, Interval, int) -> nat, seat: (Interval, int) -> nat)

  datatype Error =
    | NotFound
    | InvalidTier
    | IntervalNotAvailable
    | SubscriptionInFlight
    | NoActiveSubscription
    | NoOp
    | CancellationPending
    | TierChangePending
    | SeatChangePending
    | AlreadyVerified
    | NotCancellable
    | NotRefundable

  // ---- Subscription rows --------------------------------------------------------------------

  predicate Live(s: Subscription) {
    s.status != CANCELLED && s.status != EXPIRED
  }

  function PeriodFrom(start: int, interval: Interval): Period {
    Period(start, Calendar.AddMonths(start, IntervalMonths(interval)))
  }

  /** Where the current period ends; `new Date(null)`, the epoch, when it has none. */
  function PeriodEnd(s: Subscription): int {
    if s.period.Some? then s.period.value.end else 0
  }

  function SetTier(s: Subscription, tier: Tier, interval: Option<Interval>): Subscription {
    s.(tier := tier, interval := interval.GetOr(s.interval), pendingTier := None, pendingInterval := None)
  }

  function SetSeats(s: Subscription, seats: nat): Subscription {
    s.(extraSeats := seats, pendingSeats := None)
  }

  function Schedule(s: Subscription, tier: Tier, interval: Option<Interval>): Subscription {
    s.(pendingTier := Some(tier), pendingInterval := interval)
  }

  function Activate(s: Subscription, period: Period): Subscription {
    s.(status := ACTIVE, period := Some(period))
  }

  function SeatsAtPeriodEnd(s: Subscription): nat {
    s.pendingSeats.GetOr(s.extraSeats)
  }

  // ---- Quota rows ---------------------------------------------------------------------------

  predicate HasCurrent(rows: seq<QuotaRow>) {
    exists i :: 0 <= i < |rows| && rows[i].isCurrent
  }

  /** Resizes the current period in place; the documents already counted stay counted. */
  function Resize(rows: seq<QuotaRow>, tier: Tier, interval: Interval): (r: seq<QuotaRow>)
    ensures |r| == |rows|
  {
    seq(|rows|, i requires 0 <= i < |rows| =>
      var q := rows[i];
      if q.isCurrent
      then q.(cap := CapForTier(tier, interval), interval := EffectiveInterval(tier, interval),
              period := Period(q.period.start, Calendar.AddMonths(q.period.start, PeriodMonths(tier, interval))))
      else q)
  }

  /** Closes the current period and opens the next one with nothing counted. */
  function Rollover(rows: seq<QuotaRow>, period: Period, cap: Option<nat>, interval: Interval): (r: seq<QuotaRow>)
    ensures |r| == |rows| + 1
  {
    seq(|rows|, i requires 0 <= i < |rows| => rows[i].(isCurrent := false)) + [QuotaRow(period, cap, interval, 0, true)]
  }

  /** Opens a quota period with the boundaries of a subscription period that just started. */
  function SyncRows(rows: seq<QuotaRow>, period: Period, tier: Tier, interval: Interval): seq<QuotaRow> {
    if HasCurrent(rows)
    then Rollover(rows, period, CapForTier(tier, interval), EffectiveInterval(tier, interval))
    else rows
  }

  /** Corrects the recorded boundaries of the current period; the count is left alone. */
  function Realign(rows: seq<QuotaRow>, period: Period, tier: Tier, interval: Interval): (r: seq<QuotaRow>)
    ensures |r| == |rows|
  {
    seq(|rows|, i requires 0 <= i < |rows| =>
      if rows[i].isCurrent
      then rows[i].(period := period, cap := CapForTier(tier, interval), interval := EffectiveInterval(tier, interval))
      else rows[i])
  }

  function Rows(db: Db, t: Id): seq<QuotaRow> {
    if t in db.quotas then db.quotas[t] else []
  }

  function SetCap(db: Db, t: Id, tier: Tier, interval: Interval): Db {
    db.(quotas := db.quotas[t := Resize(Rows(db, t), tier, interval)])
  }

  function SyncPeriod(db: Db, t: Id, period: Period, tier: Tier, interval: Interval): Db {
    db.(quotas := db.quotas[t := SyncRows(Rows(db, t), period, tier, interval)])
  }

  function PutSub(db: Db, id: Id, s: Subscription): Db {
    db.(subs := db.subs[id := s])
  }

  function PutPayment(db: Db, id: Id, p: Payment): Db {
    db.(pays := db.pays[id := p])
  }

  function SetTenantTier(db: Db, t: Id, tier: Tier): Db {
    if t in db.tenants then db.(tenants := db.tenants[t := db.tenants[t].(tier := tier)]) else db
  }

  function SetTenantStatus(db: Db, t: Id, status: TenantStatus): Db {
    if t in db.tenants then db.(tenants := db.tenants[t := db.tenants[t].(status := status)]) else db
  }

  function NewPayment(db: Db, subscription: Id, purpose: Purpose, amount: nat): Db {
    db.(pays := db.pays[db.nextId := Payment(subscription, purpose, amount, PENDING, None, None, false)],
        nextId := db.nextId + 1)
  }

  // ---- Queries ------------------------------------------------------------------------------

  /** The foreign keys of the schema, one payment or subscription at a time. */
  predicate SubLinked(db: Db, sid: Id) {
    sid in db.subs && db.subs[sid].tenant in db.tenants
  }

  predicate Linked(db: Db, pid: Id) {
    pid in db.pays && SubLinked(db, db.pays[pid].subscription)
  }

  predicate HasLiveSubscription(db: Db, t: Id) {
    exists sid :: sid in db.subs && db.subs[sid].tenant == t && Live(db.subs[sid])
  }

  /** A payment not yet applied, rejected or refunded. */
  predicate InFlight(p: Payment) {
    p.period == None && p.status in {PENDING, REPORTED, VERIFIED}
  }

  predicate TierChangeInFlight(db: Db, sid: Id) {
    exists pid :: pid in db.pays && db.pays[pid].subscription == sid && db.pays[pid].purpose.TIER_CHANGE? && InFlight(db.pays[pid])
  }

  predicate IntervalChangeInFlight(db: Db, sid: Id) {
    exists pid ::
      && pid in db.pays && db.pays[pid].subscription == sid && InFlight(db.pays[pid])
      && db.pays[pid].purpose.TIER_CHANGE? && !db.pays[pid].purpose.switch.KeepInterval?
  }

  predicate SeatChangeInFlight(db: Db, sid: Id) {
    exists pid :: pid in db.pays && db.pays[pid].subscription == sid && db.pays[pid].purpose.SEAT_CHANGE? && InFlight(db.pays[pid])
  }

  predicate RenewalInFlight(db: Db, sid: Id) {
    exists pid :: pid in db.pays && db.pays[pid].subscription == sid && db.pays[pid].purpose.RENEWAL? && InFlight(db.pays[pid])
  }

  // ---- Requests -----------------------------------------------------------------------------

  function CreateSubscription(db: Db, t: Id, tier: Tier, interval: Interval, prices: Prices, now: int): Result<Db, Error> {
    if tier == FREE then Err(InvalidTier)
    else if !IntervalAllowed(tier, interval) then Err(IntervalNotAvailable)
    else if t !in db.tenants then Err(NotFound)
    else if HasLiveSubscription(db, t) then Err(SubscriptionInFlight)
    else
      var sid := db.nextId;
      var s := Subscription(t, tier, interval, PENDING_PAYMENT, None, None, None, 0, None);
      Ok(NewPayment(PutSub(db, sid, s).(nextId := sid + 1), sid, INITIAL, prices.tier(tier, interval, now)))
  }

  /** What a tier-change request leads to: nothing to pay and nothing yet, an immediate free
      change, or a payment of an amount with a purpose. */
  datatype TierDecision =
    | ScheduleFree
    | ApplyFree
    | MoveToYearlyFree
    | Charge(amount: nat, switch: Switch)

  function DecideTierChange(s: Subscription, tier: Tier, interval: Interval, prices: Prices, now: int): TierDecision
    requires s.period.Some?
  {
    var period := s.period.value;
    var targetMonthly := prices.tier(tier, MONTHLY, now);
    var currentMonthly := prices.tier(s.tier, MONTHLY, now);
    var changed := interval != s.interval;
    if targetMonthly < currentMonthly && !changed then ScheduleFree
    else if currentMonthly < targetMonthly && !changed then
      var charge := SameIntervalCharge(prices.tier(tier, s.interval, now), prices.tier(s.tier, s.interval, now), period.start, period.end, now);
      if charge <= 0 then ApplyFree else Charge(charge, KeepInterval)
    else if changed && s.interval == MONTHLY && interval == YEARLY && 12 * currentMonthly < prices.tier(tier, YEARLY, now) then
      var full := prices.tier(tier, YEARLY, now) + SeatsAtPeriodEnd(s) * prices.seat(YEARLY, now);
      var charge := CrossIntervalCharge(full, currentMonthly, period.start, period.end, now);
      if charge <= 0 then MoveToYearlyFree else Charge(charge, AtOnce(interval))
    else
      Charge(prices.tier(tier, interval, period.end) + SeatsAtPeriodEnd(s) * prices.seat(interval, period.end), AtPeriodEnd(interval))
  }

  function TierChangeError(db: Db, sid: Id, tier: Tier, interval: Interval): Option<Error>
    requires sid in db.subs
  {
    var s := db.subs[sid];
    if !IntervalAllowed(tier, interval) then Some(IntervalNotAvailable)
    else if tier == s.tier && interval == s.interval then Some(NoOp)
    else if s.pendingTier == Some(FREE) then Some(CancellationPending)
    else if s.pendingTier.Some? then Some(TierChangePending)
    else if TierChangeInFlight(db, sid) then Some(TierChangePending)
    else if SeatChangeInFlight(db, sid) then Some(SeatChangePending)
    else None
  }

  /** `sid` is the tenant's ACTIVE subscription, if it has one. */
  function RequestTierChange(db: Db, sid: Option<Id>, tier: Tier, interval: Option<Interval>, prices: Prices, now: int): Result<Db, Error>
    requires sid.Some? ==> SubLinked(db, sid.value) && db.subs[sid.value].period.Some?
  {
    if tier == FREE then Err(InvalidTier)
    else if sid.None? then Err(NoActiveSubscription)
    else
      var s := db.subs[sid.value];
      var target := interval.GetOr(s.interval);
      var error := TierChangeError(db, sid.value, tier, target);
      if error.Some? then Err(error.value)
      else
        match DecideTierChange(s, tier, target, prices, now)
        case ScheduleFree => Ok(PutSub(db, sid.value, Schedule(s, tier, None)))
        case ApplyFree =>
          Ok(SetCap(SetTenantTier(PutSub(db, sid.value, SetTier(s, tier, None)), s.tenant, tier), s.tenant, tier, s.interval))
        case MoveToYearlyFree => Ok(MoveToInterval(db, sid.value, tier, target, now))
        case Charge(amount, switch) => Ok(NewPayment(db, sid.value, TIER_CHANGE(tier, switch), amount))
  }

  function SeatChangeError(db: Db, sid: Id, seats: nat): Option<Error>
    requires sid in db.subs
  {
    var s := db.subs[sid];
    if seats == s.extraSeats then Some(NoOp)
    else if s.pendingTier == Some(FREE) then Some(CancellationPending)
    else if s.pendingSeats.Some? then Some(SeatChangePending)
    else if SeatChangeInFlight(db, sid) then Some(SeatChangePending)
    else if s.pendingInterval.Some? then Some(TierChangePending)
    else if IntervalChangeInFlight(db, sid) then Some(TierChangePending)
    else None
  }

  function RequestSeatChange(db: Db, sid: Option<Id>, seats: nat, prices: Prices, now: int): Result<Db, Error>
    requires sid.Some? ==> SubLinked(db, sid.value) && db.subs[sid.value].period.Some?
  {
    if sid.None? then Err(NoActiveSubscription)
    else
      var s := db.subs[sid.value];
      var error := SeatChangeError(db, sid.value, seats);
      if error.Some? then Err(error.value)
      else if seats < s.extraSeats then Ok(PutSub(db, sid.value, s.(pendingSeats := Some(seats))))
      else
        var period := s.period.value;
        var charge := SeatCharge(seats - s.extraSeats, prices.seat(s.interval, now), period.start, period.end, now);
        if charge <= 0 then Ok(PutSub(db, sid.value, SetSeats(s, seats)))
        else Ok(NewPayment(db, sid.value, SEAT_CHANGE(seats), charge))
  }

  function ScheduleCancellation(db: Db, sid: Option<Id>): Result<Db, Error>
    requires sid.Some? ==> sid.value in db.subs
  {
    if sid.None? then Err(NoActiveSubscription)
    else
      var s := db.subs[sid.value];
      if s.pendingTier == Some(FREE) then Err(CancellationPending)
      else if s.pendingTier.Some? || TierChangeInFlight(db, sid.value) then Err(TierChangePending)
      else if SeatChangeInFlight(db, sid.value) then Err(SeatChangePending)
      else Ok(PutSub(db, sid.value, Schedule(s, FREE, None)))
  }

  function SubmitProof(db: Db, pid: Id): Result<Db, Error> {
    if pid !in db.pays then Err(NotFound)
    else if db.pays[pid].status == VERIFIED then Err(AlreadyVerified)
    else Ok(PutPayment(db, pid, db.pays[pid].(status := REPORTED)))
  }

  function CancelPayment(db: Db, pid: Id): Result<Db, Error> {
    if pid !in db.pays then Err(NotFound)
    else
      var p := db.pays[pid];
      if p.status != PENDING || p.purpose.RENEWAL? then Err(NotCancellable)
      else
        var db1 := PutPayment(db, pid, p.(status := PAYMENT_CANCELLED));
        if p.purpose.INITIAL? && p.subscription in db.subs && db.subs[p.subscription].status == PENDING_PAYMENT
        then Ok(PutSub(db1, p.subscription, db.subs[p.subscription].(status := CANCELLED)))
        else Ok(db1)
  }

  // ---- Applying a payment -------------------------------------------------------------------

  function TakeSnapshot(s: Subscription, tenant: Tenant): Snapshot {
    Snapshot(s.tier, s.interval, s.period, s.status, tenant.tier, s.extraSeats)
  }

  /** A new tier, a new interval and a new period from now. */
  function MoveToInterval(db: Db, sid: Id, tier: Tier, interval: Interval, now: int): Db
    requires SubLinked(db, sid)
  {
    var s := db.subs[sid];
    var period := PeriodFrom(now, interval);
    SyncPeriod(SetTenantTier(PutSub(db, sid, Activate(SetTier(s, tier, Some(interval)), period)), s.tenant, tier),
               s.tenant, period, tier, interval)
  }

  function ApplyInitial(db: Db, pid: Id, now: int): Db
    requires Linked(db, pid)
  {
    var p := db.pays[pid];
    var s := db.subs[p.subscription];
    var period := PeriodFrom(now, s.interval);
    var db1 := PutSub(PutPayment(db, pid, p.(period := Some(period))), p.subscription, Activate(s, period));
    var db2 := SyncPeriod(SetTenantTier(db1, s.tenant, s.tier), s.tenant, period, s.tier, s.interval);
    if db.tenants[s.tenant].status == PAST_DUE then SetTenantStatus(db2, s.tenant, VERIFIED_TENANT) else db2
  }

  function ApplyRenewal(db: Db, pid: Id): Db
    requires Linked(db, pid)
  {
    var p := db.pays[pid];
    var s := db.subs[p.subscription];
    var period := PeriodFrom(PeriodEnd(s), s.interval);
    var db1 := PutSub(PutPayment(db, pid, p.(period := Some(period))), p.subscription, Activate(s, period));
    SyncPeriod(db1, s.tenant, period, s.tier, s.interval)
  }

  function ApplyTierChange(db: Db, pid: Id, now: int): Db
    requires Linked(db, pid) && db.pays[pid].purpose.TIER_CHANGE?
  {
    var p := db.pays[pid];
    var sid := p.subscription;
    var s := db.subs[sid];
    match p.purpose.switch
    case AtPeriodEnd(interval) => PutSub(db, sid, Schedule(s, p.purpose.target, Some(interval)))
    case AtOnce(interval) =>
      PutPayment(MoveToInterval(db, sid, p.purpose.target, interval, now), pid, p.(period := Some(PeriodFrom(now, interval))))
    case KeepInterval =>
      var db1 := PutPayment(PutSub(db, sid, SetTier(s, p.purpose.target, None)), pid, p.(period := s.period));
      SetCap(SetTenantTier(db1, s.tenant, p.purpose.target), s.tenant, p.purpose.target, s.interval)
  }

  function ApplySeatChange(db: Db, pid: Id): Db
    requires Linked(db, pid) && db.pays[pid].purpose.SEAT_CHANGE?
  {
    var p := db.pays[pid];
    var s := db.subs[p.subscription];
    PutPayment(PutSub(db, p.subscription, SetSeats(s, p.purpose.seats)), pid, p.(period := s.period))
  }

  /** The one place a verified payment becomes access. */
  function ApplyVerified(db: Db, pid: Id, now: int): Db
    requires Linked(db, pid)
  {
    var p := db.pays[pid];
    var s := db.subs[p.subscription];
    var db1 := PutPayment(db, pid, p.(appliedFrom := Some(TakeSnapshot(s, db.tenants[s.tenant]))));
    match p.purpose
    case SEAT_CHANGE(_) => ApplySeatChange(db1, pid)
    case TIER_CHANGE(_, _) => ApplyTierChange(db1, pid, now)
    case RENEWAL => ApplyRenewal(db1, pid)
    case INITIAL => ApplyInitial(db1, pid, now)
  }

  function Review(db: Db, pid: Id, verified: bool, now: int): Result<Db, Error>
    requires pid in db.pays ==> Linked(db, pid)
  {
    if pid !in db.pays then Err(NotFound)
    else if !verified then Ok(PutPayment(db, pid, db.pays[pid].(status := REJECTED)))
    else Ok(ApplyVerified(PutPayment(db, pid, db.pays[pid].(status := VERIFIED)), pid, now))
  }

  /** Undoes an applied payment from its snapshot. */
  function Refund(db: Db, pid: Id): Result<Db, Error>
    requires pid in db.pays ==> Linked(db, pid)
  {
    if pid !in db.pays then Err(NotFound)
    else if db.pays[pid].status != VERIFIED || db.pays[pid].appliedFrom.None? then Err(NotRefundable)
    else
      var p := db.pays[pid];
      var from := p.appliedFrom.value;
      var s := SetTier(db.subs[p.subscription], from.tier, Some(from.interval));
      var s1 := if p.purpose.SEAT_CHANGE? then SetSeats(s, from.extraSeats) else s;
      var s2 := s1.(status := if p.purpose.INITIAL? then CANCELLED else from.status, period := from.period);
      var db1 := PutPayment(PutSub(db, p.subscription, s2), pid, p.(status := REFUNDED));
      Ok(SetCap(SetTenantTier(db1, s.tenant, from.tenantTier), s.tenant, from.tenantTier, from.interval))
  }

  /** A verified payment of the subscription that paid for a period. */
  predicate PaidPeriod(db: Db, sid: Id, pid: Id) {
    pid in db.pays && db.pays[pid].subscription == sid && db.pays[pid].status == VERIFIED && db.pays[pid].period.Some?
  }

  /** The newest such payment below an id. */
  function NewestPaidPeriod(db: Db, sid: Id, below: nat): Option<Id> {
    if below == 0 then None
    else if PaidPeriod(db, sid, below - 1) then Some(below - 1)
    else NewestPaidPeriod(db, sid, below - 1)
  }

  function Restamp(db: Db, sid: Id, period: Period): Db {
    var funding := NewestPaidPeriod(db, sid, db.nextId);
    if funding.Some? && funding.value in db.pays
    then PutPayment(db, funding.value, db.pays[funding.value].(period := Some(period)))
    else db
  }

  /** Promotion restarts the paid period, on the row, on the payment behind it and for the quota. */
  function ResetPeriodOnPromotion(db: Db, sid: Id, now: int): Db
    requires SubLinked(db, sid)
  {
    var s := db.subs[sid];
    if s.status != ACTIVE then db
    else
      var period := PeriodFrom(now, s.interval);
      SyncPeriod(Restamp(PutSub(db, sid, Activate(s, period)), sid, period), s.tenant, period, s.tier, s.interval)
  }

  // ---- Scheduled jobs -----------------------------------------------------------------------

  /** The five passes of the daily subscription job, in their order. */
  datatype Job = SeatDecreases | TierChanges | Reminders | Warnings | Expiries

  predicate EndedBy(s: Subscription, t: int) {
    s.status == ACTIVE && s.period.Some? && s.period.value.end <= t
  }

  predicate EndsAfter(s: Subscription, t: int) {
    s.period.Some? && t < s.period.value.end
  }

  /** A warning already sent in the current cycle. */
  predicate WarnedThisCycle(db: Db, sid: Id) {
    sid in db.warned && sid in db.subs && !EndsAfter(db.subs[sid], db.warned[sid])
  }

  /** The WHERE clause of each pass's query. */
  predicate Due(job: Job, db: Db, sid: Id, now: int) {
    && sid in db.subs
    && var s := db.subs[sid];
       match job
       case SeatDecreases => EndedBy(s, now) && s.pendingSeats.Some?
       case TierChanges => EndedBy(s, now) && s.pendingTier.Some?
       case Reminders =>
         && s.status == ACTIVE && s.pendingTier.None? && EndsAfter(s, now)
         && EndedBy(s, now + Calendar.Days(RENEWAL_REMINDER_DAYS)) && !RenewalInFlight(db, sid)
       case Warnings =>
         && EndedBy(s, now - Calendar.Days(SUSPENSION_WARNING_DAYS)) && s.pendingTier.None?
         && EndsAfter(s, now - Calendar.Days(RENEWAL_GRACE_DAYS)) && !WarnedThisCycle(db, sid)
       case Expiries => EndedBy(s, now - Calendar.Days(RENEWAL_GRACE_DAYS))
  }

  /** A query result: every due row with its id, once, in any order. */
  ghost predicate Selects(due: seq<(Id, Subscription)>, job: Job, db: Db, now: int) {
    && (forall i :: 0 <= i < |due| ==> Due(job, db, due[i].0, now) && due[i].1 == db.subs[due[i].0])
    && (forall i, j :: 0 <= i < j < |due| ==> due[i].0 != due[j].0)
    && (forall sid :: Due(job, db, sid, now) ==> exists i :: 0 <= i < |due| && due[i].0 == sid)
  }

  /** The newest verified, invoiced and unstamped tier-change payment below an id. */
  function Funding(db: Db, sid: Id, below: nat): Option<Id> {
    if below == 0 then None
    else
      var pid := below - 1;
      if && pid in db.pays && db.pays[pid].subscription == sid && db.pays[pid].purpose.TIER_CHANGE?
         && db.pays[pid].status == VERIFIED && db.pays[pid].invoiced && db.pays[pid].period.None?
      then Some(pid)
      else Funding(db, sid, pid)
  }

  function StampFunding(db: Db, sid: Id, period: Period): Db {
    var funding := Funding(db, sid, db.nextId);
    if funding.Some? && funding.value in db.pays
    then PutPayment(db, funding.value, db.pays[funding.value].(period := Some(period)))
    else db
  }

  function DropToFree(s: Subscription): Subscription {
    var s1 := SetTier(s, FREE, None).(status := CANCELLED);
    if s.extraSeats > 0 then SetSeats(s1, 0) else s1
  }

  /** The period a scheduled change opens: from the end of the old one, never from now. */
  function NextPeriod(s: Subscription): Period {
    PeriodFrom(PeriodEnd(s), s.pendingInterval.GetOr(s.interval))
  }

  function RollForward(s: Subscription): Subscription
    requires s.pendingTier.Some?
  {
    Activate(SetTier(s, s.pendingTier.value, s.pendingInterval), NextPeriod(s))
  }

  function LandTier(db: Db, sid: Id, s: Subscription): Db {
    match s.pendingTier
    case None => db
    case Some(FREE) =>
      SetCap(SetTenantTier(PutSub(db, sid, DropToFree(s)), s.tenant, FREE), s.tenant, FREE, MONTHLY)
    case Some(tier) =>
      var period := NextPeriod(s);
      var db1 := SetTenantTier(PutSub(db, sid, RollForward(s)), s.tenant, tier);
      var db2 := SyncPeriod(db1, s.tenant, period, tier, s.pendingInterval.GetOr(s.interval));
      if s.pendingInterval.Some? then StampFunding(db2, sid, period) else db2
  }

  function ExpiredRow(s: Subscription): Subscription {
    var s1 := if s.extraSeats > 0 then SetSeats(s, 0) else s;
    s1.(status := EXPIRED)
  }

  function Expire(db: Db, sid: Id, s: Subscription): Db {
    var db1 := SetCap(SetTenantTier(db, s.tenant, FREE), s.tenant, FREE, MONTHLY);
    var db2 := PutSub(db1, sid, ExpiredRow(s));
    if s.tenant in db.tenants && db.tenants[s.tenant].status in {SUSPENDED, PAST_DUE} then db2
    else SetTenantStatus(db2, s.tenant, PAST_DUE)
  }

  function Remind(db: Db, sid: Id, s: Subscription, prices: Prices): Db {
    var end := PeriodEnd(s);
    NewPayment(db, sid, RENEWAL, prices.tier(s.tier, s.interval, end) + SeatsAtPeriodEnd(s) * prices.seat(s.interval, end))
  }

  /** One row of one pass, from the row as the query read it. */
  function Land(job: Job, db: Db, row: (Id, Subscription), prices: Prices, now: int): Db {
    var (sid, s) := row;
    match job
    case SeatDecreases => PutSub(db, sid, SetSeats(s, s.pendingSeats.GetOr(0)))
    case TierChanges => LandTier(db, sid, s)
    case Reminders => Remind(db, sid, s, prices)
    case Warnings => db.(warned := db.warned[sid := now])
    case Expiries => Expire(db, sid, s)
  }

  function ForEach(job: Job, db: Db, due: seq<(Id, Subscription)>, prices: Prices, now: int): Db {
    if due == [] then db
    else Land(job, ForEach(job, db, due[..|due| - 1], prices, now), due[|due| - 1], prices, now)
  }

  // ---- Quota jobs ---------------------------------------------------------------------------

  function Current(rows: seq<QuotaRow>): (q: QuotaRow)
    requires HasCurrent(rows)
    ensures q in rows && q.isCurrent
  {
    if rows[0].isCurrent then rows[0] else Current(rows[1..])
  }

  /** The next quota period of a due row: from its old end, at its own interval, with the cap of
      the tenant's present tier. */
  function RollRows(rows: seq<QuotaRow>, q: QuotaRow, tier: Tier): seq<QuotaRow> {
    Rollover(rows, Period(q.period.end, Calendar.AddMonths(q.period.end, PeriodMonths(tier, q.interval))),
             CapForTier(tier, q.interval), q.interval)
  }

  /** A tenant's rows after the quota reset: a current period that has ended rolls over. */
  function ResetRows(tenants: map<Id, Tenant>, t: Id, rows: seq<QuotaRow>, now: int): seq<QuotaRow> {
    if t in tenants && HasCurrent(rows) && Current(rows).period.end <= now then RollRows(rows, Current(rows), tenants[t].tier) else rows
  }

  function ResetDuePeriods(db: Db, now: int): Db {
    db.(quotas := map t | t in db.quotas :: ResetRows(db.tenants, t, db.quotas[t], now))
  }

  /** A tenant's current quota row out of step with an ACTIVE subscription. */
  predicate Misaligned(db: Db, s: Subscription) {
    && s.status == ACTIVE && s.period.Some?
    && HasCurrent(Rows(db, s.tenant)) && Current(Rows(db, s.tenant)).period != s.period.value
  }

  /** The rows of the misalignment query: each such subscription once, in any order. */
  ghost predicate SelectsMisaligned(due: seq<Subscription>, db: Db) {
    && (forall i :: 0 <= i < |due| ==> Misaligned(db, due[i]) && exists sid :: sid in db.subs && db.subs[sid] == due[i])
    && (forall sid :: sid in db.subs && Misaligned(db, db.subs[sid]) ==> db.subs[sid] in due)
  }

  function Resync(db: Db, due: seq<Subscription>): Db {
    if due == [] then db
    else
      var s := due[|due| - 1];
      var db1 := Resync(db, due[..|due| - 1]);
      if s.period.Some?
      then db1.(quotas := db1.quotas[s.tenant := Realign(Rows(db1, s.tenant), s.period.value, s.tier, s.interval)])
      else db1
  }
}
