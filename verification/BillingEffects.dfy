/** The billing tables row by row: what each review, refund, job and promotion makes of every
    subscription, payment, tenant and quota row, written out against the rows before it. */
module BillingEffects {
  import opened Options
  import opened Tiers
  import opened Billing
  import opened BillingInvariant
  import opened BillingJobs
  import opened BillingQuota
  import opened BillingRuns
  import Calendar

  // ---- Quota rows -----------------------------------------------------------------------------

  /** One more row, current, for a period, with nothing counted; the others are closed and keep what
      they counted. */
  predicate Opened(rows: seq<QuotaRow>, rows': seq<QuotaRow>, period: Period, tier: Tier, interval: Interval) {
    var months := PooledMonths(tier, interval);
    && |rows'| == |rows| + 1
    && rows'[|rows|] == QuotaRow(period, Pool(tier, months), if months == 12 then YEARLY else MONTHLY, 0, true)
    && forall i :: 0 <= i < |rows| ==> rows'[i] == QuotaRow(rows[i].period, rows[i].cap, rows[i].interval, rows[i].count, false)
  }

  /** The current row is good for the months of a tier and interval from its start on, and keeps what
      it counted; the others are as they were. */
  predicate Sized(rows: seq<QuotaRow>, rows': seq<QuotaRow>, tier: Tier, interval: Interval) {
    var months := PooledMonths(tier, interval);
    && |rows'| == |rows|
    && (forall i :: 0 <= i < |rows| && !rows[i].isCurrent ==> rows'[i] == rows[i])
    && forall i :: 0 <= i < |rows| && rows[i].isCurrent ==>
         && rows'[i].period.start == rows[i].period.start && rows'[i].period.end == Calendar.AddMonths(rows[i].period.start, months)
         && rows'[i].cap == Pool(tier, months) && rows'[i].interval == (if months == 12 then YEARLY else MONTHLY)
         && rows'[i].count == rows[i].count && rows'[i].isCurrent
  }

  lemma SyncOpens(rows: seq<QuotaRow>, period: Period, tier: Tier, interval: Interval)
    requires HasCurrent(rows)
    ensures Opened(rows, SyncRows(rows, period, tier, interval), period, tier, interval)
  {
    CapIsPool(tier, interval);
  }

  lemma ResizeSizes(rows: seq<QuotaRow>, tier: Tier, interval: Interval)
    ensures Sized(rows, Resize(rows, tier, interval), tier, interval)
  {
    hide Calendar.AddMonths;
    CapIsPool(tier, interval);
  }

  // ---- Subscriptions --------------------------------------------------------------------------

  /** A subscription once a payment of it is verified. */
  function PaidSub(s: Subscription, purpose: Purpose, now: int): Subscription {
    match purpose
    case INITIAL => s.(status := ACTIVE, period := Some(PeriodFrom(now, s.interval)))
    case RENEWAL => s.(status := ACTIVE, period := Some(PeriodFrom(if s.period.Some? then s.period.value.end else 0, s.interval)))
    case SEAT_CHANGE(seats) => s.(extraSeats := seats, pendingSeats := None)
    case TIER_CHANGE(tier, KeepInterval) => s.(tier := tier, pendingTier := None, pendingInterval := None)
    case TIER_CHANGE(tier, AtPeriodEnd(interval)) => s.(pendingTier := Some(tier), pendingInterval := Some(interval))
    case TIER_CHANGE(tier, AtOnce(interval)) =>
      s.(tier := tier, interval := interval, pendingTier := None, pendingInterval := None,
         status := ACTIVE, period := Some(PeriodFrom(now, interval)))
  }

  /** And once it is refunded. */
  function RefundedSub(s: Subscription, purpose: Purpose, from: Snapshot): Subscription {
    Subscription(
      s.tenant, from.tier, from.interval, if purpose == INITIAL then CANCELLED else from.status, from.period, None, None,
      if purpose.SEAT_CHANGE? then from.extraSeats else s.extraSeats, if purpose.SEAT_CHANGE? then None else s.pendingSeats)
  }

  /** A due subscription once its pass has taken it. */
  function LandedSub(job: Job, s: Subscription): Subscription {
    match job
    case SeatDecreases => if s.pendingSeats.Some? then s.(extraSeats := s.pendingSeats.value, pendingSeats := None) else s.(extraSeats := 0)
    case TierChanges =>
      (match s.pendingTier
       case None => s
       case Some(FREE) =>
         s.(tier := FREE, pendingTier := None, pendingInterval := None, status := CANCELLED,
            extraSeats := 0, pendingSeats := if s.extraSeats > 0 then None else s.pendingSeats)
       case Some(tier) =>
         var interval := if s.pendingInterval.Some? then s.pendingInterval.value else s.interval;
         s.(tier := tier, interval := interval, pendingTier := None, pendingInterval := None, status := ACTIVE,
            period := Some(PeriodFrom(if s.period.Some? then s.period.value.end else 0, interval))))
    case Reminders => s
    case Warnings => s
    case Expiries => s.(status := EXPIRED, extraSeats := 0, pendingSeats := if s.extraSeats > 0 then None else s.pendingSeats)
  }

  predicate IsRequest(step: Step) {
    step.Subscribe? || step.ChangeTier? || step.ChangeSeats? || step.CancelAtPeriodEnd?
  }

  /** What a step that is no request makes of a subscription. */
  function SubAfter(db: Db, step: Step, now: int, sid: Id): Subscription
    requires sid in db.subs
  {
    var s := db.subs[sid];
    match step
    case Verify(pid) => if pid in db.pays && db.pays[pid].subscription == sid then PaidSub(s, db.pays[pid].purpose, now) else s
    case Reverse(pid) =>
      if pid in db.pays && db.pays[pid].subscription == sid && db.pays[pid].status == VERIFIED && db.pays[pid].appliedFrom.Some?
      then RefundedSub(s, db.pays[pid].purpose, db.pays[pid].appliedFrom.value)
      else s
    case Withdraw(pid) =>
      if pid in db.pays && db.pays[pid].subscription == sid && db.pays[pid].purpose == INITIAL && db.pays[pid].status == PENDING
         && s.status == PENDING_PAYMENT
      then s.(status := CANCELLED)
      else s
    case RunPass(job) => if Due(job, db, sid, now) then LandedSub(job, s) else s
    case Promote(r) => if r == sid && s.status == ACTIVE then s.(period := Some(PeriodFrom(now, s.interval))) else s
    case _ => s
  }

  lemma PaysOtherSub(db: Db, pid: Id, now: int, sid: Id)
    requires Linked(db, pid) && sid in db.subs && db.pays[pid].subscription != sid
    ensures
      var after := Review(db, pid, true, now).value;
      sid in after.subs && after.subs[sid] == db.subs[sid]
  {
    hide Resize, SyncRows, PeriodFrom, SetTier, SetSeats, Activate, Schedule;
  }

  lemma PaysThisSub(db: Db, pid: Id, now: int)
    requires Linked(db, pid)
    ensures
      var sid := db.pays[pid].subscription;
      var after := Review(db, pid, true, now).value;
      sid in after.subs && after.subs[sid] == PaidSub(db.subs[sid], db.pays[pid].purpose, now)
  {
    hide Resize, SyncRows, PeriodFrom;
  }

  lemma PaysSub(db: Db, pid: Id, now: int, sid: Id)
    requires Linked(db, pid) && sid in db.subs
    ensures
      var after := Review(db, pid, true, now).value;
      sid in after.subs && after.subs[sid] == SubAfter(db, Verify(pid), now, sid)
  {
    hide Review, PaidSub;
    if db.pays[pid].subscription == sid {
      PaysThisSub(db, pid, now);
    } else {
      PaysOtherSub(db, pid, now, sid);
    }
  }

  lemma RefundsSub(db: Db, pid: Id, now: int, sid: Id)
    requires Linked(db, pid) && sid in db.subs
    ensures
      var after := Committed(db, Refund(db, pid));
      sid in after.subs && after.subs[sid] == SubAfter(db, Reverse(pid), now, sid)
  {
    hide Resize;
  }

  lemma LandedIs(job: Job, s: Subscription)
    ensures Landed(job, s) == LandedSub(job, s)
  {
    hide PeriodFrom;
  }

  /** Every step that is no request does this to every subscription, and nothing else. */
  lemma StepSubs(db: Db, step: Step, prices: Prices, now: int, db': Db, sid: Id)
    requires Inv(db) && Next(db, step, prices, now, db') && !IsRequest(step) && sid in db.subs
    ensures sid in db'.subs && db'.subs[sid] == SubAfter(db, step, now, sid)
  {
    hide Inv, Pass, QuotaJob, Review, Refund, ReviewSafe, RefundSafe, Due, Landed, LandedSub, PeriodFrom, SyncRows;
    match step {
      case Verify(pid) => PaysSub(db, pid, now, sid); ReviewAnswers(db, pid, true, now);
      case Reject(pid) => ReviewAnswers(db, pid, false, now);
      case Reverse(pid) => RefundsSub(db, pid, now, sid);
      case RunPass(job) =>
        PassSubs(job, db, db', prices, now);
        LandedIs(job, db.subs[sid]);
      case RunQuotaJob => QuotaJobAligns(db, db', now);
      case _ =>
    }
  }

  lemma ReviewAnswers(db: Db, pid: Id, verified: bool, now: int)
    requires Linked(db, pid)
    ensures Review(db, pid, verified, now).Ok?
    ensures !verified ==> Review(db, pid, false, now).value == db.(pays := db.pays[pid := db.pays[pid].(status := REJECTED)])
  {
    hide ApplyVerified;
  }


  // ---- Payments -------------------------------------------------------------------------------

  /** The period a payment is stamped with when it is verified. */
  function StampOf(p: Payment, s: Subscription, now: int): Option<Period> {
    match p.purpose
    case INITIAL => Some(PeriodFrom(now, s.interval))
    case RENEWAL => Some(PeriodFrom(if s.period.Some? then s.period.value.end else 0, s.interval))
    case SEAT_CHANGE(_) => s.period
    case TIER_CHANGE(_, KeepInterval) => s.period
    case TIER_CHANGE(_, AtPeriodEnd(_)) => p.period
    case TIER_CHANGE(_, AtOnce(interval)) => Some(PeriodFrom(now, interval))
  }

  /** What a review, a refund or an edit makes of a payment. What it is for and its amount never
      change. */
  function PaymentAfter(db: Db, step: Step, now: int, pid: Id): Payment
    requires pid in db.pays && SubLinked(db, db.pays[pid].subscription)
  {
    var p := db.pays[pid];
    var s := db.subs[p.subscription];
    match step
    case Proof(q) => if q == pid && p.status != VERIFIED then p.(status := REPORTED) else p
    case Withdraw(q) => if q == pid && p.status == PENDING && p.purpose != RENEWAL then p.(status := PAYMENT_CANCELLED) else p
    case Invoice(q) => if q == pid then p.(invoiced := true) else p
    case Reject(q) => if q == pid then p.(status := REJECTED) else p
    case Reverse(q) => if q == pid && p.status == VERIFIED && p.appliedFrom.Some? then p.(status := REFUNDED) else p
    case Verify(q) =>
      if q != pid then p
      else
        var from := Snapshot(s.tier, s.interval, s.period, s.status, db.tenants[s.tenant].tier, s.extraSeats);
        Payment(p.subscription, p.purpose, p.amount, VERIFIED, StampOf(p, s, now), Some(from), p.invoiced)
    case _ => p
  }

  lemma PaysOtherPayment(db: Db, q: Id, now: int, pid: Id)
    requires Linked(db, q) && pid in db.pays && pid != q
    ensures
      var after := Review(db, q, true, now).value;
      after.pays.Keys == db.pays.Keys && after.pays[pid] == db.pays[pid]
  {
    hide Resize, SyncRows, PeriodFrom, SetTier, SetSeats, Activate, Schedule, TakeSnapshot;
  }

  lemma PaysThisPayment(db: Db, q: Id, now: int)
    requires Linked(db, q)
    ensures
      var after := Review(db, q, true, now).value;
      q in after.pays && after.pays[q] == PaymentAfter(db, Verify(q), now, q)
  {
    hide Resize, SyncRows, PeriodFrom, SetTier, SetSeats, Activate, Schedule;
  }

  lemma PaysPayment(db: Db, q: Id, now: int, pid: Id)
    requires Linked(db, q) && Linked(db, pid)
    ensures
      var after := Review(db, q, true, now).value;
      after.pays.Keys == db.pays.Keys && after.pays[pid] == PaymentAfter(db, Verify(q), now, pid)
  {
    hide Review, StampOf;
    if pid == q {
      PaysThisPayment(db, q, now);
      ReviewKeepsPays(db, q, now);
    } else {
      PaysOtherPayment(db, q, now, pid);
    }
  }

  lemma ReviewKeepsPays(db: Db, q: Id, now: int)
    requires Linked(db, q)
    ensures Review(db, q, true, now).value.pays.Keys == db.pays.Keys
  {
    hide Resize, SyncRows, PeriodFrom, SetTier, SetSeats, Activate, Schedule, TakeSnapshot;
  }

  lemma RefundsPayment(db: Db, q: Id, now: int, pid: Id)
    requires Linked(db, q) && Linked(db, pid)
    ensures
      var after := Committed(db, Refund(db, q));
      after.pays.Keys == db.pays.Keys && after.pays[pid] == PaymentAfter(db, Reverse(q), now, pid)
  {
    hide Resize;
  }

  /** Steps that open or stamp payments beside those they name. */
  predicate TouchesPayments(step: Step) {
    IsRequest(step) || step.RunPass? || step.Promote?
  }

  lemma EveryPaymentLinked(db: Db, pid: Id)
    requires Inv(db) && pid in db.pays
    ensures Linked(db, pid)
  {
    hide QuotaOk, SnapshotOk, SubRowOk;
    PaymentIsOk(db, pid);
    assert SubOk(db, db.pays[pid].subscription);
  }

  lemma EditsPayment(db: Db, q: Id, now: int, pid: Id)
    requires Linked(db, pid)
    ensures
      var proof := Committed(db, SubmitProof(db, q));
      proof.pays.Keys == db.pays.Keys && proof.pays[pid] == PaymentAfter(db, Proof(q), now, pid)
    ensures
      var withdrawn := Committed(db, CancelPayment(db, q));
      withdrawn.pays.Keys == db.pays.Keys && withdrawn.pays[pid] == PaymentAfter(db, Withdraw(q), now, pid)
  {
  }

  /** Every other step does this to every payment and opens none. */
  lemma StepPayments(db: Db, step: Step, prices: Prices, now: int, db': Db, pid: Id)
    requires Inv(db) && Next(db, step, prices, now, db') && !TouchesPayments(step) && pid in db.pays
    ensures SubLinked(db, db.pays[pid].subscription)
    ensures db'.pays.Keys == db.pays.Keys && db'.pays[pid] == PaymentAfter(db, step, now, pid)
  {
    hide Inv, QuotaJob, Review, Refund, SubmitProof, CancelPayment, ReviewSafe, RefundSafe, StampOf;
    EveryPaymentLinked(db, pid);
    match step {
      case Verify(q) => PaysPayment(db, q, now, pid); ReviewAnswers(db, q, true, now);
      case Reject(q) => ReviewAnswers(db, q, false, now);
      case Reverse(q) => RefundsPayment(db, q, now, pid);
      case Proof(q) => EditsPayment(db, q, now, pid);
      case Withdraw(q) => EditsPayment(db, q, now, pid);
      case RunQuotaJob => QuotaJobKeepsPays(db, db', now);
      case _ =>
    }
  }

  lemma QuotaJobKeepsPays(db: Db, db': Db, now: int)
    requires Inv(db) && QuotaJob(db, db', now)
    ensures db' == db.(quotas := db'.quotas)
  {
    hide Inv, Misaligned, ResetDuePeriods, Resync, Aligned;
    var mid := ResetDuePeriods(db, now);
    var due :| SelectsMisaligned(due, mid) && db' == Resync(mid, due);
    ResetKeepsInv(db, now);
    ResetTouchesQuotas(db, now);
    MisalignedActive(due, mid);
    ResyncRows(mid, due);
  }

  // ---- Tenants and their quota rows -----------------------------------------------------------

  /** A tenant with its quota rows. */
  datatype Account = Account(tenant: Tenant, rows: seq<QuotaRow>)

  function AccountOf(db: Db, t: Id): Account
    requires t in db.tenants
  {
    Account(db.tenants[t], Rows(db, t))
  }

  /** A verified payment of `s` makes this of its tenant: a first payment also ends being past due. */
  predicate PaidAccount(a: Account, a': Account, s: Subscription, purpose: Purpose, now: int) {
    match purpose
    case INITIAL =>
      && a'.tenant == Tenant(s.tier, if a.tenant.status == PAST_DUE then VERIFIED_TENANT else a.tenant.status)
      && Opened(a.rows, a'.rows, PeriodFrom(now, s.interval), s.tier, s.interval)
    case RENEWAL =>
      a'.tenant == a.tenant && Opened(a.rows, a'.rows, PeriodFrom(if s.period.Some? then s.period.value.end else 0, s.interval), s.tier, s.interval)
    case SEAT_CHANGE(_) => a' == a
    case TIER_CHANGE(tier, KeepInterval) => a'.tenant == Tenant(tier, a.tenant.status) && Sized(a.rows, a'.rows, tier, s.interval)
    case TIER_CHANGE(_, AtPeriodEnd(_)) => a' == a
    case TIER_CHANGE(tier, AtOnce(interval)) =>
      a'.tenant == Tenant(tier, a.tenant.status) && Opened(a.rows, a'.rows, PeriodFrom(now, interval), tier, interval)
  }

  /** A due subscription that a pass takes makes this of its tenant. */
  predicate LandedAccount(job: Job, a: Account, a': Account, s: Subscription) {
    match job
    case TierChanges =>
      (match s.pendingTier
       case None => a' == a
       case Some(FREE) => a'.tenant == Tenant(FREE, a.tenant.status) && Sized(a.rows, a'.rows, FREE, MONTHLY)
       case Some(tier) =>
         var interval := if s.pendingInterval.Some? then s.pendingInterval.value else s.interval;
         && a'.tenant == Tenant(tier, a.tenant.status)
         && Opened(a.rows, a'.rows, PeriodFrom(if s.period.Some? then s.period.value.end else 0, interval), tier, interval))
    case Expiries =>
      && a'.tenant == Tenant(FREE, if a.tenant.status == SUSPENDED then SUSPENDED else PAST_DUE)
      && Sized(a.rows, a'.rows, FREE, MONTHLY)
    case _ => a' == a
  }

  lemma PaysAccount(db: Db, pid: Id, now: int, t: Id)
    requires Inv(db) && Linked(db, pid) && t in db.tenants
    ensures
      var s := db.subs[db.pays[pid].subscription];
      var after := Review(db, pid, true, now).value;
      && t in after.tenants
      && (if s.tenant == t then PaidAccount(AccountOf(db, t), AccountOf(after, t), s, db.pays[pid].purpose, now) else AccountOf(after, t) == AccountOf(db, t))
  {
    hide Resize, SyncRows, PeriodFrom, QuotaOk, SubRowOk, PaymentOk, Opened, Sized;
    var p := db.pays[pid];
    var s := db.subs[p.subscription];
    var rows := Rows(db, s.tenant);
    QuotaHasCurrent(db.tenants[s.tenant].tier, rows);
    match p.purpose {
      case INITIAL => SyncOpens(rows, PeriodFrom(now, s.interval), s.tier, s.interval);
      case RENEWAL => SyncOpens(rows, PeriodFrom(PeriodEnd(s), s.interval), s.tier, s.interval);
      case SEAT_CHANGE(_) =>
      case TIER_CHANGE(tier, KeepInterval) => ResizeSizes(rows, tier, s.interval);
      case TIER_CHANGE(_, AtPeriodEnd(_)) =>
      case TIER_CHANGE(tier, AtOnce(interval)) => SyncOpens(rows, PeriodFrom(now, interval), tier, interval);
    }
  }

  /** A refund puts the tenant back on the tier it had, and sizes its current quota row for that. */
  lemma RefundsAccount(db: Db, pid: Id, t: Id)
    requires Linked(db, pid) && t in db.tenants && db.pays[pid].status == VERIFIED && db.pays[pid].appliedFrom.Some?
    ensures
      var s := db.subs[db.pays[pid].subscription];
      var from := db.pays[pid].appliedFrom.value;
      var after := Refund(db, pid).value;
      && Refund(db, pid).Ok? && t in after.tenants
      && (if s.tenant != t then AccountOf(after, t) == AccountOf(db, t)
          else
            && AccountOf(after, t).tenant == Tenant(from.tenantTier, db.tenants[t].status)
            && Sized(Rows(db, t), AccountOf(after, t).rows, from.tenantTier, from.interval))
  {
    hide Resize, Sized;
    var from := db.pays[pid].appliedFrom.value;
    ResizeSizes(Rows(db, db.subs[db.pays[pid].subscription].tenant), from.tenantTier, from.interval);
  }

  lemma LandsAccount(job: Job, db: Db, row: (Id, Subscription), prices: Prices, now: int, t: Id)
    requires t in db.tenants && row.1.tenant in db.tenants && HasCurrent(Rows(db, row.1.tenant))
    ensures
      var after := Land(job, db, row, prices, now);
      && t in after.tenants
      && (if row.1.tenant == t then LandedAccount(job, AccountOf(db, t), AccountOf(after, t), row.1) else AccountOf(after, t) == AccountOf(db, t))
  {
    hide Resize, SyncRows, PeriodFrom, Opened, Sized, StampFunding, ExpiredRow, DropToFree, RollForward;
    var s := row.1;
    var rows := Rows(db, s.tenant);
    ResizeSizes(rows, FREE, MONTHLY);
    if job == TierChanges && s.pendingTier.Some? && s.pendingTier != Some(FREE) {
      var tier, interval := s.pendingTier.value, s.pendingInterval.GetOr(s.interval);
      SyncOpens(rows, NextPeriod(s), tier, interval);
      var db1 := SetTenantTier(PutSub(db, row.0, RollForward(s)), s.tenant, tier);
      StampKeeps(SyncPeriod(db1, s.tenant, NextPeriod(s), tier, interval), row.0, NextPeriod(s));
    }
  }

  lemma {:induction false} ForEachAccounts(job: Job, db: Db, due: seq<(Id, Subscription)>, prices: Prices, now: int, t: Id)
    requires Inv(db) && RowsOf(due, db) && (forall i :: 0 <= i < |due| ==> due[i].1.status == ACTIVE) && t in db.tenants
    ensures
      var after := ForEach(job, db, due, prices, now);
      && t in after.tenants
      && (forall i :: 0 <= i < |due| && due[i].1.tenant == t ==> LandedAccount(job, AccountOf(db, t), AccountOf(after, t), due[i].1))
      && ((forall i :: 0 <= i < |due| ==> due[i].1.tenant != t) ==> AccountOf(after, t) == AccountOf(db, t))
  {
    hide Inv, Land, Landed, LandedAccount;
    if due != [] {
      var init, last := due[..|due| - 1], due[|due| - 1];
      var mid := ForEach(job, db, init, prices, now);
      ForEachAccounts(job, db, init, prices, now, t);
      ForEachSubs(job, db, init, prices, now);
      ForEachKeepsInv(job, db, init, prices, now);
      TenantHasCurrent(db, mid, last.0);
      LandsAccount(job, mid, last, prices, now, t);
      forall i | 0 <= i < |init|
        ensures init[i].1.tenant != last.1.tenant
      {
        assert due[i] == init[i];
        OneAlive(db, init[i].0, last.0);
      }
    }
  }

  lemma OneAlive(db: Db, r: Id, s: Id)
    requires Inv(db) && r in db.subs && s in db.subs && r != s && Live(db.subs[r]) && Live(db.subs[s])
    ensures db.subs[r].tenant != db.subs[s].tenant
  {
  }

  lemma TenantHasCurrent(db: Db, mid: Db, sid: Id)
    requires Inv(db) && Inv(mid) && mid.tenants.Keys == db.tenants.Keys && sid in db.subs
    ensures db.subs[sid].tenant in mid.tenants && HasCurrent(Rows(mid, db.subs[sid].tenant))
  {
    hide QuotaOk, SubRowOk, PaymentsOk;
    assert SubOk(db, sid);
    QuotaHasCurrent(mid.tenants[db.subs[sid].tenant].tier, Rows(mid, db.subs[sid].tenant));
  }

  /** A pass makes of a tenant what landing its due subscription makes, and nothing when none is due;
      there is never more than one. */
  lemma PassAccounts(job: Job, db: Db, db': Db, prices: Prices, now: int, t: Id)
    requires Inv(db) && Pass(job, db, db', prices, now) && t in db.tenants
    ensures t in db'.tenants
    ensures forall sid :: Due(job, db, sid, now) && db.subs[sid].tenant == t ==>
      LandedAccount(job, AccountOf(db, t), AccountOf(db', t), db.subs[sid])
    ensures (forall sid :: Due(job, db, sid, now) ==> db.subs[sid].tenant != t) ==> AccountOf(db', t) == AccountOf(db, t)
  {
    hide Inv, ForEach, Due, LandedAccount;
    var due: seq<(Id, Subscription)> :| Selects(due, job, db, now) && db' == ForEach(job, db, due, prices, now);
    DueHasRow(due, job, db, now);
    ForEachAccounts(job, db, due, prices, now, t);
    forall sid | Due(job, db, sid, now)
      ensures exists i :: 0 <= i < |due| && due[i].0 == sid && due[i].1 == db.subs[sid]
    {
      var i :| 0 <= i < |due| && due[i].0 == sid;
    }
  }

  // ---- The quota job --------------------------------------------------------------------------

  /** The current row takes on a period, with the size of a tier and interval, and keeps its count. */
  predicate Realigned(rows: seq<QuotaRow>, rows': seq<QuotaRow>, period: Period, tier: Tier, interval: Interval) {
    var months := PooledMonths(tier, interval);
    && |rows'| == |rows|
    && (forall i :: 0 <= i < |rows| && !rows[i].isCurrent ==> rows'[i] == rows[i])
    && forall i :: 0 <= i < |rows| && rows[i].isCurrent ==>
         rows'[i] == QuotaRow(period, Pool(tier, months), if months == 12 then YEARLY else MONTHLY, rows[i].count, true)
  }

  /** A period that has ended is followed by one as long as its row's interval says. */
  predicate RolledOver(rows: seq<QuotaRow>, rows': seq<QuotaRow>, tier: Tier, now: int)
    requires HasCurrent(rows)
  {
    var q := Current(rows);
    if q.period.end <= now
    then Opened(rows, rows', Period(q.period.end, Calendar.AddMonths(q.period.end, PooledMonths(tier, q.interval))), tier, q.interval)
    else rows' == rows
  }

  lemma ResetRolls(db: Db, now: int, t: Id)
    requires Inv(db) && t in db.tenants
    ensures HasCurrent(Rows(db, t)) && RolledOver(Rows(db, t), Rows(ResetDuePeriods(db, now), t), db.tenants[t].tier, now)
  {
    hide Inv, Opened;
    TenantQuotaOk(db, t);
    CurrentMonthly(db.tenants[t].tier, Rows(db, t));
    RowsRoll(Rows(db, t), db.tenants[t].tier, now);
    ResetRowsOf(db, now, t);
  }

  lemma TenantQuotaOk(db: Db, t: Id)
    requires Inv(db) && t in db.tenants
    ensures QuotaOk(db.tenants[t].tier, Rows(db, t))
  {
  }

  lemma ResetRowsOf(db: Db, now: int, t: Id)
    requires t in db.tenants && HasCurrent(Rows(db, t))
    ensures
      var rows := Rows(db, t);
      Rows(ResetDuePeriods(db, now), t) == if Current(rows).period.end <= now then RollRows(rows, Current(rows), db.tenants[t].tier) else rows
  {
    hide RollRows, Current;
  }

  lemma RowsRoll(rows: seq<QuotaRow>, tier: Tier, now: int)
    requires HasCurrent(rows) && (tier == FREE ==> Current(rows).interval == MONTHLY)
    ensures RolledOver(rows, if Current(rows).period.end <= now then RollRows(rows, Current(rows), tier) else rows, tier, now)
  {
    hide Calendar.AddMonths, Current;
    CapIsPool(tier, Current(rows).interval);
  }

  lemma CurrentMonthly(tier: Tier, rows: seq<QuotaRow>)
    requires QuotaOk(tier, rows)
    ensures HasCurrent(rows) && (tier == FREE ==> Current(rows).interval == MONTHLY)
  {
    hide Calendar.AddMonths;
    var i :| 0 <= i < |rows| && OnlyCurrent(rows, i) && RowOk(tier, rows[i]);
    CurrentIs(rows, i);
  }

  lemma {:induction false} ResyncAccounts(db: Db, due: seq<Subscription>, t: Id)
    requires Inv(db) && FromDb(due, db) && forall s :: s in due ==> s.period.Some?
    ensures forall s :: s in due && s.tenant == t ==> Realigned(Rows(db, t), Rows(Resync(db, due), t), s.period.value, s.tier, s.interval)
    ensures (forall s :: s in due ==> s.tenant != t) ==> Rows(Resync(db, due), t) == Rows(db, t)
  {
    hide Inv, Realign;
    if due != [] {
      var init, last := due[..|due| - 1], due[|due| - 1];
      assert forall s :: s in init ==> s in due;
      ResyncAccounts(db, init, t);
      var mid := Resync(db, init);
      RealignIs(Rows(mid, last.tenant), last.period.value, last.tier, last.interval);
      forall s | s in due && s.tenant == t
        ensures Realigned(Rows(db, t), Rows(Resync(db, due), t), s.period.value, s.tier, s.interval)
      {
        if last.tenant == t {
          OneActive(db, due, s, last);
        } else {
          assert s in init;
        }
      }
    }
  }

  lemma RealignIs(rows: seq<QuotaRow>, period: Period, tier: Tier, interval: Interval)
    ensures Realigned(rows, Realign(rows, period, tier, interval), period, tier, interval)
  {
    CapIsPool(tier, interval);
  }

  lemma OneActive(db: Db, due: seq<Subscription>, r: Subscription, s: Subscription)
    requires Inv(db) && FromDb(due, db) && r in due && s in due && r.tenant == s.tenant
    ensures r == s
  {
    hide QuotaOk, SubsOk, PaymentsOk;
    assert (exists sid :: sid in db.subs && db.subs[sid] == r) && exists sid :: sid in db.subs && db.subs[sid] == s;
    SameRow(db, r, s);
  }

  /** The same rows, or rows that take on the period of the tenant's ACTIVE subscription. */
  predicate Follows(db: Db, t: Id, rows: seq<QuotaRow>, rows': seq<QuotaRow>) {
    || rows' == rows
    || exists sid :: && sid in db.subs && db.subs[sid].tenant == t && db.subs[sid].status == ACTIVE && db.subs[sid].period.Some?
                     && Realigned(rows, rows', db.subs[sid].period.value, db.subs[sid].tier, db.subs[sid].interval)
  }

  /** The quota job changes quota rows alone: each tenant's ended period rolls over, and then its
      current row takes on the period of its ACTIVE subscription where it differs. */
  lemma QuotaJobAccounts(db: Db, db': Db, now: int, t: Id)
    requires Inv(db) && QuotaJob(db, db', now) && t in db.tenants
    ensures db' == db.(quotas := db'.quotas) && HasCurrent(Rows(db, t))
    ensures exists mid: seq<QuotaRow> :: RolledOver(Rows(db, t), mid, db.tenants[t].tier, now) && Follows(db, t, mid, Rows(db', t))
  {
    hide Inv, Misaligned, ResetDuePeriods, Resync, Realigned, RolledOver;
    QuotaJobKeepsPays(db, db', now);
    ResetRolls(db, now, t);
    var mid := ResetDuePeriods(db, now);
    var due :| SelectsMisaligned(due, mid) && db' == Resync(mid, due);
    ResetKeepsInv(db, now);
    ResetTouchesQuotas(db, now);
    MisalignedActive(due, mid);
    MisalignedHasPeriod(due, mid);
    ResyncAccounts(mid, due, t);
    assert RolledOver(Rows(db, t), Rows(mid, t), db.tenants[t].tier, now);
    if s: Subscription :| s in due && s.tenant == t {
      var sid :| sid in mid.subs && mid.subs[sid] == s;
      assert sid in db.subs && db.subs[sid] == s;
    }
  }

  lemma MisalignedHasPeriod(due: seq<Subscription>, db: Db)
    requires SelectsMisaligned(due, db)
    ensures forall s :: s in due ==> s.period.Some? && s.status == ACTIVE
    ensures forall s :: s in due ==> exists sid :: sid in db.subs && db.subs[sid] == s
  {
  }

  /** What a step that is no request and no quota job makes of a tenant and its quota rows. */
  ghost predicate AccountAfter(db: Db, step: Step, now: int, t: Id, a: Account, a': Account)
    requires forall pid :: pid in db.pays ==> db.pays[pid].subscription in db.subs
  {
    match step
    case Verify(pid) =>
      if pid in db.pays && db.subs[db.pays[pid].subscription].tenant == t
      then PaidAccount(a, a', db.subs[db.pays[pid].subscription], db.pays[pid].purpose, now)
      else a' == a
    case Reverse(pid) =>
      if pid in db.pays && db.subs[db.pays[pid].subscription].tenant == t && db.pays[pid].status == VERIFIED && db.pays[pid].appliedFrom.Some?
      then
        var from := db.pays[pid].appliedFrom.value;
        a'.tenant == Tenant(from.tenantTier, a.tenant.status) && Sized(a.rows, a'.rows, from.tenantTier, from.interval)
      else a' == a
    case RunPass(job) =>
      && (forall sid :: Due(job, db, sid, now) && db.subs[sid].tenant == t ==> LandedAccount(job, a, a', db.subs[sid]))
      && ((forall sid :: Due(job, db, sid, now) ==> db.subs[sid].tenant != t) ==> a' == a)
    case Promote(sid) =>
      if sid in db.subs && db.subs[sid].tenant == t && db.subs[sid].status == ACTIVE
      then a'.tenant == a.tenant && Opened(a.rows, a'.rows, PeriodFrom(now, db.subs[sid].interval), db.subs[sid].tier, db.subs[sid].interval)
      else a' == a
    case _ => a' == a
  }

  lemma PromotesAccount(db: Db, sid: Id, now: int, t: Id)
    requires Inv(db) && SubLinked(db, sid) && t in db.tenants
    ensures
      var after := ResetPeriodOnPromotion(db, sid, now);
      && t in after.tenants
      && (if db.subs[sid].tenant == t && db.subs[sid].status == ACTIVE
          then
            && AccountOf(after, t).tenant == db.tenants[t]
            && Opened(Rows(db, t), Rows(after, t), PeriodFrom(now, db.subs[sid].interval), db.subs[sid].tier, db.subs[sid].interval)
          else AccountOf(after, t) == AccountOf(db, t))
  {
    hide SyncRows, PeriodFrom, Restamp, Opened, QuotaOk;
    var s := db.subs[sid];
    var period := PeriodFrom(now, s.interval);
    QuotaHasCurrent(db.tenants[s.tenant].tier, Rows(db, s.tenant));
    SyncOpens(Rows(db, s.tenant), period, s.tier, s.interval);
    RestampKeeps(PutSub(db, sid, Activate(s, period)), sid, period);
  }

  lemma EditsKeepAccounts(db: Db, pid: Id, now: int)
    ensures Committed(db, SubmitProof(db, pid)).tenants == db.tenants && Committed(db, SubmitProof(db, pid)).quotas == db.quotas
    ensures Committed(db, CancelPayment(db, pid)).tenants == db.tenants && Committed(db, CancelPayment(db, pid)).quotas == db.quotas
  {
  }

  lemma PaymentsHaveSubs(db: Db)
    requires Inv(db)
    ensures forall pid :: pid in db.pays ==> db.pays[pid].subscription in db.subs
  {
    hide QuotaOk, SubRowOk, SnapshotOk;
  }

  /** Every step that is no request and no quota job does this to every tenant: its tier, its status
      and its quota rows. */
  lemma StepAccounts(db: Db, step: Step, prices: Prices, now: int, db': Db, t: Id)
    requires Inv(db) && Next(db, step, prices, now, db') && !IsRequest(step) && !step.RunQuotaJob? && t in db.tenants
    ensures t in db'.tenants && (forall pid :: pid in db.pays ==> db.pays[pid].subscription in db.subs)
    ensures AccountAfter(db, step, now, t, AccountOf(db, t), AccountOf(db', t))
  {
    hide Inv, Pass, Review, Refund, ReviewSafe, RefundSafe, Due, PaidAccount, LandedAccount, Opened, Sized, ResetPeriodOnPromotion, PeriodFrom,
         SubmitProof, CancelPayment;
    PaymentsHaveSubs(db);
    match step {
      case Verify(pid) => PaysAccount(db, pid, now, t); ReviewAnswers(db, pid, true, now);
      case Reject(pid) => ReviewAnswers(db, pid, false, now);
      case Reverse(pid) => ReversesAccount(db, pid, now, t);
      case RunPass(job) => PassAccounts(job, db, db', prices, now, t);
      case Promote(sid) => PromotesAccount(db, sid, now, t);
      case Proof(pid) => EditsKeepAccounts(db, pid, now);
      case Withdraw(pid) => EditsKeepAccounts(db, pid, now);
      case Invoice(_) =>
    }
  }

  lemma ReversesAccount(db: Db, pid: Id, now: int, t: Id)
    requires Linked(db, pid) && t in db.tenants && forall q :: q in db.pays ==> db.pays[q].subscription in db.subs
    ensures
      var after := Committed(db, Refund(db, pid));
      t in after.tenants && AccountAfter(db, Reverse(pid), now, t, AccountOf(db, t), AccountOf(after, t))
  {
    hide Sized;
    if db.pays[pid].status == VERIFIED && db.pays[pid].appliedFrom.Some? {
      RefundsAccount(db, pid, t);
    }
  }
}
