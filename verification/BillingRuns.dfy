/** Whole runs of the billing machine: the invariant, and the periods a subscription goes
    through. */
module BillingRuns {
  import opened Options
  import opened Tiers
  import opened Proration
  import opened Billing
  import opened BillingInvariant
  import opened BillingJobs
  import opened BillingQuota
  import Calendar

  datatype Step =
    | Subscribe(t: Id, tier: Tier, interval: Interval)
    | ChangeTier(sid: Id, tier: Tier, target: Option<Interval>)
    | ChangeSeats(sid: Id, seats: nat)
    | CancelAtPeriodEnd(sid: Id)
    | Proof(pid: Id)
    | Withdraw(pid: Id)
    | Invoice(pid: Id)
    | Reject(pid: Id)
    | Verify(pid: Id)
    | Reverse(pid: Id)
    | RunPass(job: Job)
    | RunQuotaJob
    | Promote(sid: Id)

  /** A request that is refused leaves the tables as they were. */
  function Committed(db: Db, r: Result<Db, Error>): Db {
    if r.Ok? then r.value else db
  }

  /** One step at one instant. Payments are verified and reversed only where they do not collide
      with another subscription of the tenant. */
  ghost predicate Next(db: Db, step: Step, prices: Prices, now: int, db': Db) {
    match step
    case Subscribe(t, tier, interval) => db' == Committed(db, CreateSubscription(db, t, tier, interval, prices, now))
    case ChangeTier(sid, tier, target) =>
      IsActiveIn(db, sid) && db' == Committed(db, RequestTierChange(db, Some(sid), tier, target, prices, now))
    case ChangeSeats(sid, seats) =>
      IsActiveIn(db, sid) && db' == Committed(db, RequestSeatChange(db, Some(sid), seats, prices, now))
    case CancelAtPeriodEnd(sid) => IsActiveIn(db, sid) && db' == Committed(db, ScheduleCancellation(db, Some(sid)))
    case Proof(pid) => db' == Committed(db, SubmitProof(db, pid))
    case Withdraw(pid) => db' == Committed(db, CancelPayment(db, pid))
    case Invoice(pid) => pid in db.pays && db' == PutPayment(db, pid, db.pays[pid].(invoiced := true))
    case Reject(pid) => Linked(db, pid) && db' == Committed(db, Review(db, pid, false, now))
    case Verify(pid) => Linked(db, pid) && ReviewSafe(db, pid) && db' == Committed(db, Review(db, pid, true, now))
    case Reverse(pid) => Linked(db, pid) && (Refundable(db, pid) ==> RefundSafe(db, pid)) && db' == Committed(db, Refund(db, pid))
    case RunPass(job) => Pass(job, db, db', prices, now)
    case RunQuotaJob => QuotaJob(db, db', now)
    case Promote(sid) => SubLinked(db, sid) && db' == ResetPeriodOnPromotion(db, sid, now)
  }

  predicate IsActiveIn(db: Db, sid: Id) {
    SubLinked(db, sid) && db.subs[sid].status == ACTIVE && db.subs[sid].period.Some?
  }

  // ---- Requests keep the invariant ------------------------------------------------------------

  lemma CreateKeepsInv(db: Db, t: Id, tier: Tier, interval: Interval, prices: Prices, now: int)
    requires Inv(db)
    ensures Inv(Committed(db, CreateSubscription(db, t, tier, interval, prices, now)))
  {
    hide QuotaOk, SnapshotOk;
    var r := CreateSubscription(db, t, tier, interval, prices, now);
    if r.Ok? {
      var after := r.value;
      var sid := db.nextId;
      assert sid !in db.subs && sid + 1 !in db.pays;
      forall r | r in after.subs
        ensures r < after.nextId && SubOk(after, r)
      {
        assert r in db.subs ==> SubOk(db, r);
      }
      forall pid | pid in after.pays
        ensures pid < after.nextId && PaymentOk(after, after.pays[pid])
      {
        assert pid in db.pays ==> PaymentOk(db, db.pays[pid]);
      }
    }
  }

  /** Only what is scheduled changes. */
  lemma PendingKeepsInv(db: Db, sid: Id, tier: Tier)
    requires Inv(db) && sid in db.subs
    ensures Inv(PutSub(db, sid, Schedule(db.subs[sid], tier, None)))
  {
    hide QuotaOk, PaymentsOk, WholePeriod;
    var after := PutSub(db, sid, Schedule(db.subs[sid], tier, None));
    assert SubOk(db, sid);
    PaymentsStay(db, after);
    OthersAgree(db, sid);
    if Live(db.subs[sid]) {
      ActiveIsAlone(db, sid);
    }
    InvAfter(db, after, sid);
  }

  lemma FreeUpgradeKeepsInv(db: Db, sid: Id, tier: Tier)
    requires Inv(db) && IsActiveIn(db, sid) && tier != FREE
    ensures
      var s := db.subs[sid];
      Inv(SetCap(SetTenantTier(PutSub(db, sid, SetTier(s, tier, None)), s.tenant, tier), s.tenant, tier, s.interval))
  {
    hide QuotaOk, PaymentsOk, WholePeriod, Resize;
    var s := db.subs[sid];
    var after := SetCap(SetTenantTier(PutSub(db, sid, SetTier(s, tier, None)), s.tenant, tier), s.tenant, tier, s.interval);
    assert SubOk(db, sid);
    PaymentsStay(db, after);
    ActiveIsAlone(db, sid);
    NoOtherOnTier(db, sid, tier);
    ResizeKeepsQuota(db.tenants[s.tenant].tier, Rows(db, s.tenant), tier, s.interval);
    InvAfter(db, after, sid);
  }

  lemma MoveKeepsInv(db: Db, sid: Id, tier: Tier, interval: Interval, now: int)
    requires Inv(db) && IsActiveIn(db, sid) && tier != FREE
    ensures Inv(MoveToInterval(db, sid, tier, interval, now))
  {
    hide QuotaOk, PaymentsOk, SyncRows, Calendar.AddMonths;
    var s := db.subs[sid];
    var after := MoveToInterval(db, sid, tier, interval, now);
    assert SubOk(db, sid);
    PaymentsStay(db, after);
    ActiveIsAlone(db, sid);
    NoOtherOnTier(db, sid, tier);
    QuotaHasCurrent(db.tenants[s.tenant].tier, Rows(db, s.tenant));
    SyncKeepsQuota(Rows(db, s.tenant), PeriodFrom(now, interval), tier, interval);
    InvAfter(db, after, sid);
  }

  lemma ChangeTierKeepsInv(db: Db, sid: Id, tier: Tier, target: Option<Interval>, prices: Prices, now: int)
    requires Inv(db) && IsActiveIn(db, sid)
    ensures Inv(Committed(db, RequestTierChange(db, Some(sid), tier, target, prices, now)))
  {
    hide Inv, DecideTierChange, TierChangeError, MoveToInterval, SetCap, Schedule;
    if tier != FREE {
      var s := db.subs[sid];
      var interval := target.GetOr(s.interval);
      match DecideTierChange(s, tier, interval, prices, now) {
        case ScheduleFree => PendingKeepsInv(db, sid, tier);
        case ApplyFree => FreeUpgradeKeepsInv(db, sid, tier);
        case MoveToYearlyFree => MoveKeepsInv(db, sid, tier, interval, now);
        case Charge(amount, switch) => NewPaymentKeepsInv(db, sid, TIER_CHANGE(tier, switch), amount);
      }
    }
  }

  lemma ChangeSeatsKeepsInv(db: Db, sid: Id, seats: nat, prices: Prices, now: int)
    requires Inv(db) && IsActiveIn(db, sid)
    ensures Inv(Committed(db, RequestSeatChange(db, Some(sid), seats, prices, now)))
  {
    hide Inv, SeatChangeError, SeatCharge;
    var s := db.subs[sid];
    SeatsKeepInv(db, sid, s.(pendingSeats := Some(seats)));
    SeatsKeepInv(db, sid, SetSeats(s, seats));
    var charge := SeatCharge(seats - s.extraSeats, prices.seat(s.interval, now), s.period.value.start, s.period.value.end, now);
    if charge > 0 {
      NewPaymentKeepsInv(db, sid, SEAT_CHANGE(seats), charge);
    }
  }

  /** A payment's own status or invoice mark changes. */
  lemma MarkKeepsInv(db: Db, pid: Id, status: PaymentStatus, invoiced: bool)
    requires Inv(db) && pid in db.pays
    ensures Inv(PutPayment(db, pid, db.pays[pid].(status := status, invoiced := invoiced)))
  {
    hide QuotaOk, SubRowOk, SnapshotOk;
    var after := PutPayment(db, pid, db.pays[pid].(status := status, invoiced := invoiced));
    forall r | r in after.subs
      ensures SubOk(after, r)
    {
      assert SubOk(db, r);
    }
    forall q | q in after.pays
      ensures q < after.nextId && PaymentOk(after, after.pays[q])
    {
      assert PaymentOk(db, db.pays[q]);
    }
  }

  lemma WithdrawKeepsInv(db: Db, pid: Id)
    requires Inv(db)
    ensures Inv(Committed(db, CancelPayment(db, pid)))
  {
    hide QuotaOk, PaymentsOk, SnapshotOk, WholePeriod;
    var r := CancelPayment(db, pid);
    if r.Ok? {
      var p := db.pays[pid];
      var sid := p.subscription;
      MarkKeepsInv(db, pid, PAYMENT_CANCELLED, p.invoiced);
      var db1 := PutPayment(db, pid, p.(status := PAYMENT_CANCELLED));
      if p.purpose.INITIAL? && sid in db.subs && db.subs[sid].status == PENDING_PAYMENT {
        assert SubOk(db1, sid);
        PaymentsStay(db1, r.value);
        OthersAgree(db1, sid);
        InvAfter(db1, r.value, sid);
      }
    }
  }

  lemma RestampKeeps(db: Db, sid: Id, period: Period)
    ensures
      var after := Restamp(db, sid, period);
      && after == db.(pays := after.pays) && after.pays.Keys == db.pays.Keys
      && (forall pid :: pid in db.pays ==> after.pays[pid] == db.pays[pid].(period := after.pays[pid].period))
  {
    hide NewestPaidPeriod;
  }

  lemma PromotionMoves(db: Db, sid: Id, now: int)
    requires PaymentsOk(db) && SubLinked(db, sid) && db.subs[sid].status == ACTIVE
    ensures
      var s := db.subs[sid];
      var after := ResetPeriodOnPromotion(db, sid, now);
      var period := PeriodFrom(now, s.interval);
      && Moved(db, after, sid) && PaymentsOk(after) && after.tenants == db.tenants
      && after.subs[sid] == Activate(s, period) && Rows(after, s.tenant) == SyncRows(Rows(db, s.tenant), period, s.tier, s.interval)
  {
    hide SyncRows, PeriodFrom, PaymentsOk, Restamp;
    var s := db.subs[sid];
    RestampKeeps(PutSub(db, sid, Activate(s, PeriodFrom(now, s.interval))), sid, PeriodFrom(now, s.interval));
    PaymentsStay(db, ResetPeriodOnPromotion(db, sid, now));
  }

  lemma PromotionKeepsInv(db: Db, sid: Id, now: int)
    requires Inv(db) && SubLinked(db, sid)
    ensures Inv(ResetPeriodOnPromotion(db, sid, now))
  {
    hide QuotaOk, PaymentsOk, SyncRows, Calendar.AddMonths;
    var s := db.subs[sid];
    if s.status == ACTIVE {
      var after := ResetPeriodOnPromotion(db, sid, now);
      assert SubOk(db, sid);
      PromotionMoves(db, sid, now);
      hide ResetPeriodOnPromotion;
      ActiveIsAlone(db, sid);
      OthersAgree(db, sid);
      QuotaHasCurrent(db.tenants[s.tenant].tier, Rows(db, s.tenant));
      SyncKeepsQuota(Rows(db, s.tenant), PeriodFrom(now, s.interval), s.tier, s.interval);
      InvAfter(db, after, sid);
    }
  }

  /** Every step keeps the invariant. */
  lemma StepKeepsInv(db: Db, step: Step, prices: Prices, now: int, db': Db)
    requires Inv(db) && Next(db, step, prices, now, db')
    ensures Inv(db')
  {
    hide Inv, Pass, QuotaJob, ReviewSafe, RefundSafe, CreateSubscription, RequestTierChange, RequestSeatChange, ResetPeriodOnPromotion;
    match step {
      case Subscribe(t, tier, interval) => CreateKeepsInv(db, t, tier, interval, prices, now);
      case ChangeTier(sid, tier, target) => ChangeTierKeepsInv(db, sid, tier, target, prices, now);
      case ChangeSeats(sid, seats) => ChangeSeatsKeepsInv(db, sid, seats, prices, now);
      case CancelAtPeriodEnd(sid) => PendingKeepsInv(db, sid, FREE);
      case Proof(pid) =>
        if pid in db.pays {
          MarkKeepsInv(db, pid, REPORTED, db.pays[pid].invoiced);
        }
      case Withdraw(pid) => WithdrawKeepsInv(db, pid);
      case Invoice(pid) => MarkKeepsInv(db, pid, db.pays[pid].status, true);
      case Reject(pid) => MarkKeepsInv(db, pid, REJECTED, db.pays[pid].invoiced);
      case Verify(pid) => ReviewKeepsInv(db, pid, now);
      case Reverse(pid) =>
        if Refundable(db, pid) {
          RefundKeepsInv(db, pid);
        }
      case RunPass(job) => PassKeepsInv(job, db, db', prices, now);
      case RunQuotaJob => QuotaJobAligns(db, db', now);
      case Promote(sid) => PromotionKeepsInv(db, sid, now);
    }
  }

  /** Verifying a payment of a live subscription is always safe, a renewal's when it is ACTIVE. */
  lemma LiveReviewIsSafe(db: Db, pid: Id)
    requires Inv(db) && Linked(db, pid) && Live(db.subs[db.pays[pid].subscription])
    requires db.pays[pid].purpose.RENEWAL? ==> db.subs[db.pays[pid].subscription].status == ACTIVE
    ensures ReviewSafe(db, pid)
  {
    hide QuotaOk, PaymentsOk;
    var sid := db.pays[pid].subscription;
    assert SubOk(db, sid);
    ActiveIsAlone(db, sid);
    if db.pays[pid].purpose.TIER_CHANGE? {
      NoOtherOnTier(db, sid, db.pays[pid].purpose.target);
    }
  }

  /** A system of newly registered tenants: FREE, with one monthly quota period each. */
  predicate Fresh(db: Db) {
    && db.subs == map[] && db.pays == map[]
    && forall t :: t in db.tenants ==>
         && db.tenants[t].tier == FREE && |Rows(db, t)| == 1 && Rows(db, t)[0].isCurrent && Rows(db, t)[0].interval == MONTHLY
         && Rows(db, t)[0].cap == CapForTier(FREE, MONTHLY)
         && Rows(db, t)[0].period.end == Calendar.AddMonths(Rows(db, t)[0].period.start, PeriodMonths(FREE, MONTHLY))
  }

  lemma FreshMeetsInv(db: Db)
    requires Fresh(db)
    ensures Inv(db)
  {
    hide Calendar.AddMonths;
    forall t | t in db.tenants
      ensures QuotaOk(db.tenants[t].tier, Rows(db, t))
    {
      assert OnlyCurrent(Rows(db, t), 0) && RowOk(FREE, Rows(db, t)[0]);
    }
  }

  // ---- Runs -----------------------------------------------------------------------------------

  datatype Event = Event(step: Step, prices: Prices, now: int)

  ghost predicate Run(states: seq<Db>, events: seq<Event>) {
    && |states| == |events| + 1
    && forall i :: 0 <= i < |events| ==> Next(states[i], events[i].step, events[i].prices, events[i].now, states[i + 1])
  }

  lemma {:induction false} RunKeepsInv(states: seq<Db>, events: seq<Event>, n: nat)
    requires Run(states, events) && Inv(states[0]) && n < |states|
    ensures Inv(states[n])
  {
    hide Inv, Next;
    if n > 0 {
      RunKeepsInv(states, events, n - 1);
      var e := events[n - 1];
      assert Next(states[n - 1], e.step, e.prices, e.now, states[n - 1 + 1]);
      StepKeepsInv(states[n - 1], e.step, e.prices, e.now, states[n]);
    }
  }
}
