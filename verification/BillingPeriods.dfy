/** The billing periods a subscription goes through along a run tile time. */
module BillingPeriods {
  import opened Options
  import opened Tiers
  import opened Proration
  import opened Billing
  import opened BillingInvariant
  import opened BillingJobs
  import opened BillingQuota
  import opened BillingRuns
  import Calendar

  /** A step that neither starts `sid`'s clock afresh nor turns it back: no first payment, no
      prorated move to yearly and no promotion for it, no refund of one of its payments, and its
      renewals verified while it is ACTIVE. Everything else is allowed, and anything for other subscriptions. */
  predicate KeepsClock(db: Db, step: Step, sid: Id) {
    match step
    case Verify(pid) =>
      Linked(db, pid) && db.pays[pid].subscription == sid ==>
        (match db.pays[pid].purpose
         case INITIAL => false
         case RENEWAL => db.subs[sid].status == ACTIVE
         case TIER_CHANGE(_, switch) => !switch.AtOnce?
         case SEAT_CHANGE(_) => true)
    case Reverse(pid) => !(Linked(db, pid) && db.pays[pid].subscription == sid)
    case Promote(r) => r != sid
    case _ => true
  }

  /** `q` opens where `p` closes and is one whole month or year. */
  predicate Follows(p: Period, q: Period) {
    q == PeriodFrom(p.end, MONTHLY) || q == PeriodFrom(p.end, YEARLY)
  }

  /** One step leaves the period of a subscription alone or moves it on by one. */
  predicate Advances(s: Subscription, s': Subscription) {
    && s'.period.Some?
    && (s'.period == s.period || (s.period.Some? && Follows(s.period.value, s'.period.value)))
  }

  lemma LandedAdvances(job: Job, s: Subscription)
    requires s.period.Some?
    ensures Advances(s, Landed(job, s))
  {
    hide Calendar.AddMonths;
  }

  lemma ReviewAdvances(db: Db, pid: Id, now: int, sid: Id)
    requires Linked(db, pid) && sid in db.subs && db.subs[sid].period.Some? && KeepsClock(db, Verify(pid), sid)
    ensures
      var after := Review(db, pid, true, now).value;
      sid in after.subs && Advances(db.subs[sid], after.subs[sid])
  {
    hide Calendar.AddMonths, Resize, SyncRows, TakeSnapshot;
    if db.pays[pid].subscription != sid {
      hide ApplyVerified;
      ApplyWrites(PutPayment(db, pid, db.pays[pid].(status := VERIFIED)), pid, now);
    }
  }

  /** The free branch of the move to yearly is never taken: the move always costs something. */
  lemma YearlyMoveIsNeverFree(s: Subscription, tier: Tier, interval: Interval, prices: Prices, now: int)
    requires s.period.Some?
    ensures !DecideTierChange(s, tier, interval, prices, now).MoveToYearlyFree?
  {
    hide CrossIntervalCharge, SameIntervalCharge;
    var currentMonthly := prices.tier(s.tier, MONTHLY, now);
    var yearly := prices.tier(tier, YEARLY, now);
    if 12 * currentMonthly < yearly {
      YearlyMoveAlwaysCharges(yearly, SeatsAtPeriodEnd(s) * prices.seat(YEARLY, now), currentMonthly, s.period.value.start, s.period.value.end, now);
    }
  }

  lemma ChangeTierKeepsPeriods(db: Db, sid: Id, tier: Tier, target: Option<Interval>, prices: Prices, now: int, r: Id)
    requires IsActiveIn(db, sid) && r in db.subs
    ensures
      var after := Committed(db, RequestTierChange(db, Some(sid), tier, target, prices, now));
      r in after.subs && after.subs[r].period == db.subs[r].period
  {
    hide DecideTierChange, TierChangeError, Resize;
    if tier != FREE {
      YearlyMoveIsNeverFree(db.subs[sid], tier, target.GetOr(db.subs[sid].interval), prices, now);
    }
  }

  lemma StepAdvances(db: Db, step: Step, prices: Prices, now: int, db': Db, sid: Id)
    requires Inv(db) && Next(db, step, prices, now, db')
    requires sid in db.subs && db.subs[sid].period.Some? && KeepsClock(db, step, sid)
    ensures sid in db'.subs && Advances(db.subs[sid], db'.subs[sid])
  {
    hide Inv, Pass, QuotaJob, ReviewSafe, RefundSafe, Review, Landed, RequestTierChange, ResetPeriodOnPromotion, Follows;
    match step {
      case Subscribe(t, tier, interval) => IdsAreUsed(db);
      case ChangeTier(r, tier, target) => ChangeTierKeepsPeriods(db, r, tier, target, prices, now, sid);
      case ChangeSeats(r, seats) =>
      case CancelAtPeriodEnd(r) =>
      case Proof(pid) =>
      case Withdraw(pid) =>
      case Invoice(pid) =>
      case Reject(pid) => RejectKeepsSubs(db, pid, now);
      case Verify(pid) => ReviewAdvances(db, pid, now, sid); VerifyCommits(db, pid, now);
      case Reverse(pid) => ReverseKeepsOthers(db, pid, sid);
      case RunPass(job) =>
        PassSubs(job, db, db', prices, now);
        LandedAdvances(job, db.subs[sid]);
      case RunQuotaJob => QuotaJobAligns(db, db', now);
      case Promote(r) => PromotionKeepsOthers(db, r, now, sid);
    }
  }

  lemma PromotionKeepsOthers(db: Db, r: Id, now: int, sid: Id)
    requires SubLinked(db, r) && sid in db.subs && sid != r
    ensures
      var after := ResetPeriodOnPromotion(db, r, now);
      sid in after.subs && after.subs[sid] == db.subs[sid]
  {
    hide SyncRows, PeriodFrom;
  }

  lemma IdsAreUsed(db: Db)
    requires Inv(db)
    ensures db.nextId !in db.subs
  {
    hide QuotaOk, SubRowOk, SnapshotOk;
  }

  lemma RejectKeepsSubs(db: Db, pid: Id, now: int)
    requires Linked(db, pid)
    ensures Committed(db, Review(db, pid, false, now)).subs == db.subs
  {
  }

  lemma VerifyCommits(db: Db, pid: Id, now: int)
    requires Linked(db, pid)
    ensures Review(db, pid, true, now).Ok?
  {
  }

  lemma ReverseKeepsOthers(db: Db, pid: Id, sid: Id)
    requires Linked(db, pid) && sid in db.subs && db.pays[pid].subscription != sid
    ensures
      var after := Committed(db, Refund(db, pid));
      sid in after.subs && after.subs[sid] == db.subs[sid]
  {
    hide Resize;
  }

  // ---- The list of periods along a run ----------------------------------------------------------

  function PeriodOf(db: Db, sid: Id): Period {
    if sid in db.subs && db.subs[sid].period.Some? then db.subs[sid].period.value else Period(0, 0)
  }

  /** The distinct periods of a subscription, oldest first. */
  function Periods(states: seq<Db>, sid: Id): seq<Period> {
    if states == [] then []
    else
      var before := Periods(states[..|states| - 1], sid);
      var p := PeriodOf(states[|states| - 1], sid);
      if before != [] && before[|before| - 1] == p then before else before + [p]
  }

  predicate Tiles(ps: seq<Period>) {
    forall i :: 0 <= i < |ps| - 1 ==> Follows(ps[i], ps[i + 1])
  }

  ghost predicate ClockKept(states: seq<Db>, events: seq<Event>, sid: Id)
    requires Run(states, events)
  {
    forall i :: 0 <= i < |events| ==> KeepsClock(states[i], events[i].step, sid)
  }

  /** Along every run, with any delay of reviews and jobs, the periods of a subscription tile
      time: each one opens at the instant the one before closes. */
  lemma {:induction false} PeriodsTile(states: seq<Db>, events: seq<Event>, sid: Id, n: nat)
    requires Run(states, events) && Inv(states[0]) && ClockKept(states, events, sid) && n < |states|
    requires sid in states[0].subs && states[0].subs[sid].period.Some?
    ensures sid in states[n].subs && states[n].subs[sid].period.Some?
    ensures
      var ps := Periods(states[..n + 1], sid);
      ps != [] && ps[0] == PeriodOf(states[0], sid) && ps[|ps| - 1] == PeriodOf(states[n], sid) && Tiles(ps)
  {
    hide Inv, Next, KeepsClock, Follows;
    var upTo := states[..n + 1];
    if n == 0 {
      assert upTo[..0] == [];
      assert Periods(upTo, sid) == [PeriodOf(states[0], sid)];
    } else {
      PeriodsTile(states, events, sid, n - 1);
      assert upTo[..n] == states[..n - 1 + 1];
      var e := events[n - 1];
      assert Next(states[n - 1], e.step, e.prices, e.now, states[n - 1 + 1]) && KeepsClock(states[n - 1], e.step, sid);
      RunKeepsInv(states, events, n - 1);
      StepAdvances(states[n - 1], e.step, e.prices, e.now, states[n], sid);
    }
  }

  // ---- What tiling means ------------------------------------------------------------------------

  predicate Covers(p: Period, t: int) {
    p.start <= t < p.end
  }

  lemma FollowsSpan(p: Period, q: Period)
    requires Follows(p, q)
    ensures q.start == p.end
    ensures q == PeriodFrom(p.end, MONTHLY) ==> Calendar.Days(28) <= q.end - q.start <= Calendar.Days(31)
    ensures q == PeriodFrom(p.end, YEARLY) ==> q.end - q.start in {Calendar.Days(365), Calendar.Days(366)}
    ensures q.start < q.end
  {
    hide Calendar.AddMonths;
    Calendar.OneMonthSpan(p.end);
    Calendar.OneYearSpan(p.end);
  }

  /** Every instant from the first period's start to the last one's end lies in exactly one
      period. */
  lemma {:induction false} TilesCoverOnce(ps: seq<Period>, t: int) returns (i: nat)
    requires ps != [] && Tiles(ps) && ps[0].start <= t < ps[|ps| - 1].end && ps[0].start <= ps[0].end
    ensures i < |ps| && Covers(ps[i], t)
    ensures forall j :: 0 <= j < |ps| && j != i ==> !Covers(ps[j], t)
  {
    hide Follows;
    if |ps| == 1 {
      i := 0;
    } else {
      var n := |ps| - 1;
      var init := ps[..n];
      FollowsSpan(ps[n - 1], ps[n]);
      TilesRise(ps, n);
      if t < ps[n].start {
        i := TilesCoverOnce(init, t);
        forall j | 0 <= j < |ps| && j != i
          ensures !Covers(ps[j], t)
        {
          assert j < n ==> ps[j] == init[j];
        }
      } else {
        i := n;
      }
    }
  }

  lemma {:induction false} TilesRise(ps: seq<Period>, n: nat)
    requires Tiles(ps) && n < |ps| && ps[0].start <= ps[0].end
    ensures forall j :: 0 <= j < n ==> ps[j].end <= ps[n].start
    ensures ps[n].start <= ps[n].end
  {
    hide Follows;
    if n > 0 {
      TilesRise(ps, n - 1);
      assert Follows(ps[n - 1], ps[n - 1 + 1]);
      FollowsSpan(ps[n - 1], ps[n]);
    }
  }

  predicate AllMonthly(ps: seq<Period>) {
    forall i :: 0 <= i < |ps| ==> ps[i] == PeriodFrom(ps[i].start, MONTHLY)
  }

  /** Along an all-monthly chain the day of the month never rises and never falls below the 28th,
      or the first day when that is earlier. */
  lemma {:induction false} MonthlyPeriodsDrift(ps: seq<Period>, n: nat)
    requires Tiles(ps) && AllMonthly(ps) && n < |ps|
    ensures ps[n].start == Calendar.MonthlySteps(ps[0].start, n)
    ensures Calendar.Min(Calendar.DayOfMonth(ps[0].start), 28) <= Calendar.DayOfMonth(ps[n].start) <= Calendar.DayOfMonth(ps[0].start)
    ensures n > 0 ==> Calendar.DayOfMonth(ps[n].start) <= Calendar.DayOfMonth(ps[n - 1].start)
  {
    hide Calendar.AddMonths, Calendar.DayOfMonth, Follows;
    Calendar.MonthlyChain(ps[0].start, n);
    if n > 0 {
      MonthlyPeriodsDrift(ps, n - 1);
      assert Follows(ps[n - 1], ps[n - 1 + 1]);
      FollowsSpan(ps[n - 1], ps[n]);
    }
  }
}
