/** The scheduled jobs: what each pass does to every row, whatever order its rows come in, and
    what a whole tick leaves behind. */
module BillingJobs {
  import opened Options
  import opened Tiers
  import opened Billing
  import opened BillingInvariant
  import Calendar

  /** A subscription row after one pass takes it. */
  function Landed(job: Job, s: Subscription): Subscription {
    match job
    case SeatDecreases => SetSeats(s, s.pendingSeats.GetOr(0))
    case TierChanges =>
      if s.pendingTier.None? then s else if s.pendingTier == Some(FREE) then DropToFree(s) else RollForward(s)
    case Reminders => s
    case Warnings => s
    case Expiries => ExpiredRow(s)
  }

  predicate Listed(due: seq<(Id, Subscription)>, sid: Id) {
    exists i :: 0 <= i < |due| && due[i].0 == sid
  }

  /** Rows read from `db`, each at most once. */
  predicate RowsOf(due: seq<(Id, Subscription)>, db: Db) {
    && (forall i :: 0 <= i < |due| ==> due[i].0 in db.subs && due[i].1 == db.subs[due[i].0])
    && (forall i, j :: 0 <= i < j < |due| ==> due[i].0 != due[j].0)
  }

  lemma LandSubs(job: Job, db: Db, row: (Id, Subscription), prices: Prices, now: int)
    requires row.0 in db.subs && db.subs[row.0] == row.1
    ensures Land(job, db, row, prices, now).subs == db.subs[row.0 := Landed(job, row.1)]
    ensures Land(job, db, row, prices, now).tenants.Keys == db.tenants.Keys
  {
    hide Resize, SyncRows, PeriodFrom, LandTier, SetSeats;
    match job {
      case TierChanges => LandTierSubs(db, row.0, row.1);
      case SeatDecreases =>
      case Reminders =>
      case Warnings =>
      case Expiries =>
    }
  }

  lemma LandTierSubs(db: Db, sid: Id, s: Subscription)
    requires sid in db.subs && db.subs[sid] == s
    ensures LandTier(db, sid, s).subs == db.subs[sid := Landed(TierChanges, s)]
    ensures LandTier(db, sid, s).tenants.Keys == db.tenants.Keys
  {
    hide Resize, SyncRows, NextPeriod, StampFunding, SetTier, DropToFree, RollForward;
    if s.pendingTier.Some? && s.pendingTier != Some(FREE) {
      var tier := s.pendingTier.value;
      var period := NextPeriod(s);
      var db1 := SetTenantTier(PutSub(db, sid, RollForward(s)), s.tenant, tier);
      StampKeeps(SyncPeriod(db1, s.tenant, period, tier, s.pendingInterval.GetOr(s.interval)), sid, period);
    }
  }

  lemma StampKeeps(db: Db, sid: Id, period: Period)
    ensures
      var after := StampFunding(db, sid, period);
      && after == db.(pays := after.pays) && after.pays.Keys == db.pays.Keys
      && (forall pid :: pid in db.pays ==> after.pays[pid] == db.pays[pid].(period := after.pays[pid].period))
  {
    hide Funding;
  }

  /** After a pass each listed row is landed once and every other row is as it was. */
  lemma {:induction false} ForEachSubs(job: Job, db: Db, due: seq<(Id, Subscription)>, prices: Prices, now: int)
    requires RowsOf(due, db)
    ensures
      var after := ForEach(job, db, due, prices, now);
      && after.subs.Keys == db.subs.Keys && after.tenants.Keys == db.tenants.Keys
      && (forall sid :: sid in db.subs ==> after.subs[sid] == if Listed(due, sid) then Landed(job, db.subs[sid]) else db.subs[sid])
  {
    hide Land, Landed;
    if due != [] {
      var init, last := due[..|due| - 1], due[|due| - 1];
      ForEachSubs(job, db, init, prices, now);
      var mid := ForEach(job, db, init, prices, now);
      assert !Listed(init, last.0);
      LandSubs(job, mid, last, prices, now);
      forall sid
        ensures Listed(due, sid) <==> Listed(init, sid) || sid == last.0
      {
        if Listed(init, sid) {
          var i :| 0 <= i < |init| && init[i].0 == sid;
          assert due[i].0 == sid;
        }
      }
    }
  }

  // ---- Every pass keeps the invariant ---------------------------------------------------------

  lemma SeatsKeepInv(db: Db, sid: Id, s': Subscription)
    requires Inv(db) && sid in db.subs
    requires s' == db.subs[sid].(extraSeats := s'.extraSeats, pendingSeats := s'.pendingSeats)
    ensures Inv(PutSub(db, sid, s'))
  {
    hide QuotaOk, PaymentsOk, WholePeriod;
    assert SubOk(db, sid);
    PaymentsStay(db, PutSub(db, sid, s'));
    InvAfter(db, PutSub(db, sid, s'), sid);
    if Live(db.subs[sid]) {
      ActiveIsAlone(db, sid);
    }
    OthersAgree(db, sid);
  }

  lemma OthersAgree(db: Db, sid: Id)
    requires Inv(db) && sid in db.subs
    ensures SubLinked(db, sid) && OthersOnTier(db, sid, db.tenants[db.subs[sid].tenant].tier)
  {
    hide QuotaOk, PaymentsOk;
    assert SubOk(db, sid);
    forall r | r in db.subs && r != sid && db.subs[r].tenant == db.subs[sid].tenant && db.subs[r].status == ACTIVE
      ensures db.subs[r].tier == db.tenants[db.subs[sid].tenant].tier
    {
      assert SubOk(db, r);
    }
  }

  lemma PaymentsStay(db: Db, db': Db)
    requires PaymentsOk(db) && db'.subs.Keys == db.subs.Keys && db'.nextId == db.nextId
    requires db'.pays.Keys == db.pays.Keys
    requires forall pid :: pid in db.pays ==> db'.pays[pid] == db.pays[pid].(period := db'.pays[pid].period)
    ensures PaymentsOk(db')
  {
    hide SnapshotOk;
    forall pid | pid in db'.pays
      ensures pid < db'.nextId && PaymentOk(db', db'.pays[pid])
    {
      assert PaymentOk(db, db.pays[pid]);
    }
  }

  lemma DropMoves(db: Db, sid: Id)
    requires PaymentsOk(db) && SubLinked(db, sid) && db.subs[sid].pendingTier == Some(FREE)
    ensures
      var s := db.subs[sid];
      var after := LandTier(db, sid, s);
      && Moved(db, after, sid) && PaymentsOk(after)
      && after.subs[sid] == DropToFree(s) && after.tenants[s.tenant].tier == FREE
      && Rows(after, s.tenant) == Resize(Rows(db, s.tenant), FREE, MONTHLY)
  {
    hide Resize, PaymentsOk;
    PaymentsStay(db, LandTier(db, sid, db.subs[sid]));
  }

  lemma LandTierKeepsInv(db: Db, sid: Id)
    requires Inv(db) && sid in db.subs && db.subs[sid].status == ACTIVE
    ensures Inv(LandTier(db, sid, db.subs[sid]))
  {
    hide Calendar.AddMonths, QuotaOk, PaymentsOk, Resize, SyncRows;
    var s := db.subs[sid];
    assert SubOk(db, sid);
    ActiveIsAlone(db, sid);
    match s.pendingTier {
      case None =>
      case Some(tier) =>
        NoOtherOnTier(db, sid, tier);
        if tier == FREE {
          DropKeepsInv(db, sid);
        } else {
          RollKeepsInv(db, sid);
        }
    }
  }

  lemma DropKeepsInv(db: Db, sid: Id)
    requires Inv(db) && SubLinked(db, sid) && SubOk(db, sid) && db.subs[sid].status == ACTIVE && db.subs[sid].pendingTier == Some(FREE)
    requires OthersOnTier(db, sid, FREE) && NoOtherLive(db, sid)
    ensures Inv(LandTier(db, sid, db.subs[sid]))
  {
    hide LandTier, QuotaOk, PaymentsOk, Resize;
    var t := db.subs[sid].tenant;
    DropMoves(db, sid);
    ResizeKeepsQuota(db.tenants[t].tier, Rows(db, t), FREE, MONTHLY);
    InvAfter(db, LandTier(db, sid, db.subs[sid]), sid);
  }

  lemma RollKeepsInv(db: Db, sid: Id)
    requires Inv(db) && SubLinked(db, sid) && SubOk(db, sid) && db.subs[sid].status == ACTIVE
    requires db.subs[sid].pendingTier.Some? && db.subs[sid].pendingTier != Some(FREE)
    requires OthersOnTier(db, sid, db.subs[sid].pendingTier.value) && NoOtherLive(db, sid)
    ensures Inv(LandTier(db, sid, db.subs[sid]))
  {
    hide LandTier, Calendar.AddMonths, QuotaOk, PaymentsOk, SyncRows;
    var s := db.subs[sid];
    var t := s.tenant;
    LandTierMoves(db, sid);
    QuotaHasCurrent(db.tenants[t].tier, Rows(db, t));
    SyncKeepsQuota(Rows(db, t), NextPeriod(s), s.pendingTier.value, s.pendingInterval.GetOr(s.interval));
    InvAfter(db, LandTier(db, sid, s), sid);
  }

  lemma LandTierMoves(db: Db, sid: Id)
    requires PaymentsOk(db) && SubLinked(db, sid) && db.subs[sid].pendingTier.Some? && db.subs[sid].pendingTier != Some(FREE)
    ensures
      var s := db.subs[sid];
      var after := LandTier(db, sid, s);
      && Moved(db, after, sid) && PaymentsOk(after)
      && after.subs[sid] == RollForward(s) && after.tenants[s.tenant].tier == s.pendingTier.value
      && Rows(after, s.tenant) == SyncRows(Rows(db, s.tenant), NextPeriod(s), s.pendingTier.value, s.pendingInterval.GetOr(s.interval))
  {
    hide SyncRows, NextPeriod, PaymentsOk, StampFunding;
    var s := db.subs[sid];
    var tier := s.pendingTier.value;
    var db1 := SetTenantTier(PutSub(db, sid, RollForward(s)), s.tenant, tier);
    var db2 := SyncPeriod(db1, s.tenant, NextPeriod(s), tier, s.pendingInterval.GetOr(s.interval));
    StampKeeps(db2, sid, NextPeriod(s));
    PaymentsStay(db, LandTier(db, sid, s));
  }

  lemma ExpireMoves(db: Db, sid: Id)
    requires PaymentsOk(db) && SubLinked(db, sid)
    ensures
      var s := db.subs[sid];
      var after := Expire(db, sid, s);
      && Moved(db, after, sid) && PaymentsOk(after)
      && after.subs[sid] == ExpiredRow(s) && after.tenants[s.tenant].tier == FREE
      && Rows(after, s.tenant) == Resize(Rows(db, s.tenant), FREE, MONTHLY)
  {
    hide Resize, PaymentsOk;
    PaymentsStay(db, Expire(db, sid, db.subs[sid]));
  }

  lemma ExpireKeepsInv(db: Db, sid: Id)
    requires Inv(db) && sid in db.subs && db.subs[sid].status == ACTIVE
    ensures Inv(Expire(db, sid, db.subs[sid]))
  {
    hide Expire, QuotaOk, PaymentsOk, Resize;
    var s := db.subs[sid];
    assert SubOk(db, sid);
    ActiveIsAlone(db, sid);
    NoOtherOnTier(db, sid, FREE);
    ExpireMoves(db, sid);
    ResizeKeepsQuota(db.tenants[s.tenant].tier, Rows(db, s.tenant), FREE, MONTHLY);
    InvAfter(db, Expire(db, sid, s), sid);
  }

  lemma NewPaymentKeepsInv(db: Db, sid: Id, purpose: Purpose, amount: nat)
    requires Inv(db) && sid in db.subs && (purpose.TIER_CHANGE? ==> purpose.target != FREE)
    ensures Inv(NewPayment(db, sid, purpose, amount))
  {
    hide QuotaOk, SnapshotOk, SubRowOk;
    var after := NewPayment(db, sid, purpose, amount);
    forall r | r in after.subs
      ensures SubOk(after, r)
    {
      assert SubOk(db, r);
    }
    forall pid | pid in after.pays
      ensures pid < after.nextId && PaymentOk(after, after.pays[pid])
    {
      assert pid in db.pays ==> PaymentOk(db, db.pays[pid]);
    }
  }

  lemma LandKeepsInv(job: Job, db: Db, sid: Id, prices: Prices, now: int)
    requires Inv(db) && sid in db.subs && db.subs[sid].status == ACTIVE
    ensures Inv(Land(job, db, (sid, db.subs[sid]), prices, now))
  {
    hide QuotaOk, PaymentsOk, SubRowOk, LandTier, Expire;
    match job {
      case SeatDecreases => SeatsKeepInv(db, sid, SetSeats(db.subs[sid], db.subs[sid].pendingSeats.GetOr(0)));
      case TierChanges => LandTierKeepsInv(db, sid);
      case Reminders => NewPaymentKeepsInv(db, sid, RENEWAL, prices.tier(db.subs[sid].tier, db.subs[sid].interval, PeriodEnd(db.subs[sid])) + SeatsAtPeriodEnd(db.subs[sid]) * prices.seat(db.subs[sid].interval, PeriodEnd(db.subs[sid])));
      case Warnings =>
        WarningKeepsInv(db, sid, now);
      case Expiries => ExpireKeepsInv(db, sid);
    }
  }

  lemma WarningKeepsInv(db: Db, sid: Id, now: int)
    requires Inv(db)
    ensures Inv(db.(warned := db.warned[sid := now]))
  {
    hide QuotaOk, SubRowOk, SnapshotOk;
    var after := db.(warned := db.warned[sid := now]);
    forall r | r in after.subs
      ensures SubOk(after, r)
    {
      assert SubOk(db, r);
    }
    forall pid | pid in after.pays
      ensures pid < after.nextId && PaymentOk(after, after.pays[pid])
    {
      assert PaymentOk(db, db.pays[pid]);
    }
  }

  lemma {:induction false} ForEachKeepsInv(job: Job, db: Db, due: seq<(Id, Subscription)>, prices: Prices, now: int)
    requires Inv(db) && RowsOf(due, db) && (forall i :: 0 <= i < |due| ==> due[i].1.status == ACTIVE)
    ensures Inv(ForEach(job, db, due, prices, now))
  {
    hide Inv, Land, Landed;
    if due != [] {
      var init, last := due[..|due| - 1], due[|due| - 1];
      ForEachKeepsInv(job, db, init, prices, now);
      ForEachSubs(job, db, init, prices, now);
      assert !Listed(init, last.0);
      LandKeepsInv(job, ForEach(job, db, init, prices, now), last.0, prices, now);
    }
  }

  // ---- A pass, row by row ---------------------------------------------------------------------

  /** One pass: its query's rows, in some order, each landed. */
  ghost predicate Pass(job: Job, db: Db, db': Db, prices: Prices, now: int) {
    exists due :: Selects(due, job, db, now) && db' == ForEach(job, db, due, prices, now)
  }

  lemma PassSubs(job: Job, db: Db, db': Db, prices: Prices, now: int)
    requires Pass(job, db, db', prices, now)
    ensures db'.subs.Keys == db.subs.Keys
    ensures forall sid :: sid in db.subs ==> db'.subs[sid] == if Due(job, db, sid, now) then Landed(job, db.subs[sid]) else db.subs[sid]
  {
    hide Landed, ForEach, Due;
    var due :| Selects(due, job, db, now) && db' == ForEach(job, db, due, prices, now);
    DueHasRow(due, job, db, now);
    ForEachSubs(job, db, due, prices, now);
  }

  lemma DueHasRow(due: seq<(Id, Subscription)>, job: Job, db: Db, now: int)
    requires Selects(due, job, db, now)
    ensures RowsOf(due, db)
    ensures forall i :: 0 <= i < |due| ==> due[i].1.status == ACTIVE
    ensures forall sid :: Listed(due, sid) <==> Due(job, db, sid, now)
  {
    forall i | 0 <= i < |due|
      ensures due[i].0 in db.subs && due[i].1.status == ACTIVE
    {
      assert Due(job, db, due[i].0, now);
    }
  }

  lemma PassKeepsInv(job: Job, db: Db, db': Db, prices: Prices, now: int)
    requires Inv(db) && Pass(job, db, db', prices, now)
    ensures Inv(db')
  {
    hide Inv, ForEach, Due;
    var due :| Selects(due, job, db, now) && db' == ForEach(job, db, due, prices, now);
    DueHasRow(due, job, db, now);
    ForEachKeepsInv(job, db, due, prices, now);
  }

  // ---- The daily tick -------------------------------------------------------------------------

  const ORDER: seq<Job> := [SeatDecreases, TierChanges, Reminders, Warnings, Expiries]

  /** Seats, then tiers, then renewals: the tables before, between and after the five passes. */
  ghost predicate Tick(states: seq<Db>, prices: Prices, now: int) {
    && |states| == 6
    && forall i :: 0 <= i < 5 ==> Pass(ORDER[i], states[i], states[i + 1], prices, now)
  }

  lemma TickSubs(states: seq<Db>, prices: Prices, now: int, sid: Id)
    requires Tick(states, prices, now)
    ensures forall i :: 0 <= i < 6 ==> states[i].subs.Keys == states[0].subs.Keys
    ensures sid in states[0].subs ==> forall i :: 0 <= i < 5 ==>
      states[i + 1].subs[sid] == if Due(ORDER[i], states[i], sid, now) then Landed(ORDER[i], states[i].subs[sid]) else states[i].subs[sid]
  {
    hide Pass, Due, Landed;
    forall i | 0 <= i < 5
      ensures states[i + 1].subs.Keys == states[i].subs.Keys
      ensures sid in states[i].subs ==>
        states[i + 1].subs[sid] == if Due(ORDER[i], states[i], sid, now) then Landed(ORDER[i], states[i].subs[sid]) else states[i].subs[sid]
    {
      PassSubs(ORDER[i], states[i], states[i + 1], prices, now);
    }
    assert states[1].subs.Keys == states[0].subs.Keys && states[2].subs.Keys == states[1].subs.Keys;
    assert states[3].subs.Keys == states[2].subs.Keys && states[4].subs.Keys == states[3].subs.Keys;
    assert states[5].subs.Keys == states[4].subs.Keys;
  }

  /** One row through a tick, the passes that leave it alone folded away. */
  lemma TickRow(states: seq<Db>, prices: Prices, now: int, sid: Id)
    requires Tick(states, prices, now) && sid in states[0].subs
    ensures forall i :: 0 <= i < 6 ==> sid in states[i].subs
    ensures states[1].subs[sid] == if Due(SeatDecreases, states[0], sid, now) then Landed(SeatDecreases, states[0].subs[sid]) else states[0].subs[sid]
    ensures states[2].subs[sid] == if Due(TierChanges, states[1], sid, now) then Landed(TierChanges, states[1].subs[sid]) else states[1].subs[sid]
    ensures states[4].subs[sid] == states[3].subs[sid] == states[2].subs[sid]
    ensures states[5].subs[sid] == if Due(Expiries, states[4], sid, now) then Landed(Expiries, states[4].subs[sid]) else states[4].subs[sid]
  {
    hide Pass, Due;
    TickSubs(states, prices, now, sid);
    assert states[0 + 1].subs[sid] == states[1].subs[sid] && ORDER[0] == SeatDecreases;
    assert states[1 + 1].subs[sid] == states[2].subs[sid] && ORDER[1] == TierChanges;
    assert states[2 + 1].subs[sid] == states[3].subs[sid] && ORDER[2] == Reminders;
    assert states[3 + 1].subs[sid] == states[4].subs[sid] && ORDER[3] == Warnings;
    assert states[4 + 1].subs[sid] == states[5].subs[sid] && ORDER[4] == Expiries;
  }

  /** After a tick no ACTIVE subscription whose period has ended keeps a scheduled change. */
  lemma TickLeavesNothingDue(states: seq<Db>, prices: Prices, now: int, sid: Id)
    requires Tick(states, prices, now) && sid in states[0].subs
    ensures sid in states[5].subs
    ensures EndedBy(states[5].subs[sid], now) ==> states[5].subs[sid].pendingTier.None? && states[5].subs[sid].pendingSeats.None?
  {
    hide Pass, PeriodFrom;
    TickRow(states, prices, now, sid);
  }

  /** A subscription the tick rolls forward is neither warned nor expired in it when its old
      period ended less than 33 days ago: the new one ends at least 28 days later, five days
      short of the first warning. */
  lemma RolledForwardIsLeftAlone(states: seq<Db>, prices: Prices, now: int, sid: Id)
    requires Tick(states, prices, now) && sid in states[0].subs
    requires Due(TierChanges, states[1], sid, now) && states[1].subs[sid].pendingTier != Some(FREE)
    requires now - Calendar.Days(33) < PeriodEnd(states[1].subs[sid])
    ensures !Due(Warnings, states[3], sid, now) && !Due(Expiries, states[4], sid, now)
    ensures sid in states[5].subs && states[5].subs[sid] == RollForward(states[1].subs[sid])
  {
    hide Pass, Calendar.AddMonths;
    TickRow(states, prices, now, sid);
    var s := states[1].subs[sid];
    Calendar.AddMonthsLater(PeriodEnd(s), IntervalMonths(s.pendingInterval.GetOr(s.interval)));
  }

  lemma LandKeepsWarned(job: Job, db: Db, row: (Id, Subscription), prices: Prices, now: int)
    requires job != Warnings
    ensures Land(job, db, row, prices, now).warned == db.warned
  {
    hide Resize, SyncRows, PeriodFrom, LandTier, SetSeats, ExpiredRow;
    if job == TierChanges {
      LandTierKeepsWarned(db, row.0, row.1);
    }
  }

  lemma LandTierKeepsWarned(db: Db, sid: Id, s: Subscription)
    ensures LandTier(db, sid, s).warned == db.warned
  {
    hide Resize, SyncRows, NextPeriod, StampFunding, DropToFree, RollForward;
    if s.pendingTier.Some? && s.pendingTier != Some(FREE) {
      var tier := s.pendingTier.value;
      var db1 := SetTenantTier(PutSub(db, sid, RollForward(s)), s.tenant, tier);
      StampKeeps(SyncPeriod(db1, s.tenant, NextPeriod(s), tier, s.pendingInterval.GetOr(s.interval)), sid, NextPeriod(s));
    }
  }

  lemma {:induction false} ForEachKeepsWarned(job: Job, db: Db, due: seq<(Id, Subscription)>, prices: Prices, now: int)
    requires job != Warnings
    ensures ForEach(job, db, due, prices, now).warned == db.warned
  {
    hide Land;
    if due != [] {
      var init, last := due[..|due| - 1], due[|due| - 1];
      ForEachKeepsWarned(job, db, init, prices, now);
      LandKeepsWarned(job, ForEach(job, db, init, prices, now), last, prices, now);
    }
  }

  lemma PassKeepsWarned(job: Job, db: Db, db': Db, prices: Prices, now: int)
    requires job != Warnings && Pass(job, db, db', prices, now)
    ensures db'.warned == db.warned
  {
    hide ForEach, Selects;
    var due :| Selects(due, job, db, now) && db' == ForEach(job, db, due, prices, now);
    ForEachKeepsWarned(job, db, due, prices, now);
  }

  lemma TickKeepsWarned(states: seq<Db>, prices: Prices, now: int)
    requires Tick(states, prices, now)
    ensures states[3].warned == states[0].warned
  {
    hide Pass;
    PassKeepsWarned(ORDER[0], states[0], states[0 + 1], prices, now);
    PassKeepsWarned(ORDER[1], states[1], states[1 + 1], prices, now);
    PassKeepsWarned(ORDER[2], states[2], states[2 + 1], prices, now);
  }

  lemma RolledOnThe33rd(s: Subscription, k: int)
    requires Calendar.MonthLength(k) == 28
    requires s.status == ACTIVE && s.interval == MONTHLY && s.pendingTier == Some(LITE) && s.pendingInterval.None?
    requires s.period.Some? && s.period.value.end == Calendar.Days(Calendar.MonthStart(k))
    ensures
      var now := Calendar.Days(Calendar.MonthStart(k) + 33);
      var after := RollForward(s);
      && EndedBy(s, now) && after.status == ACTIVE && after.pendingTier.None?
      && after.period == Some(Period(s.period.value.end, Calendar.Days(Calendar.MonthStart(k) + 28)))
      && EndedBy(after, now - Calendar.Days(SUSPENSION_WARNING_DAYS)) && EndsAfter(after, now - Calendar.Days(RENEWAL_GRACE_DAYS))
  {
    hide Calendar.MonthStart, Calendar.MonthOf, Calendar.MonthLength;
    var start := Calendar.Days(Calendar.MonthStart(k));
    Calendar.MonthStartStep(k);
    Calendar.MonthStartStep(k + 1);
    Calendar.MonthIsUnique(start, k);
  }

  /** 33 days is the exact bound: a tick on the 33rd day after a period that ended on the first of a
      28-day month rolls it forward and warns about the new period in its next passes, unless a
      warning was sent for that period already. */
  lemma ThirtyThreeDaysIsExact(states: seq<Db>, prices: Prices, now: int, sid: Id, k: int)
    requires Tick(states, prices, now) && sid in states[0].subs && sid in states[1].subs
    requires Calendar.MonthLength(k) == 28 && now == Calendar.Days(Calendar.MonthStart(k) + 33)
    requires
      var s := states[1].subs[sid];
      && s.status == ACTIVE && s.interval == MONTHLY && s.pendingTier == Some(LITE) && s.pendingInterval.None?
      && s.period.Some? && s.period.value.end == Calendar.Days(Calendar.MonthStart(k))
    ensures Due(TierChanges, states[1], sid, now) && sid in states[3].subs && states[3].subs[sid] == RollForward(states[1].subs[sid])
    ensures Due(Warnings, states[3], sid, now) <==>
      sid !in states[0].warned || states[0].warned[sid] < Calendar.Days(Calendar.MonthStart(k) + 28)
  {
    hide Pass, RollForward, Calendar.MonthStart;
    TickRow(states, prices, now, sid);
    TickKeepsWarned(states, prices, now);
    RolledOnThe33rd(states[1].subs[sid], k);
  }

  /** In the other order the tier pass moves the period's end out of the seat pass's sight: the
      scheduled decrease stays pending for the whole new period. */
  lemma TiersFirstSkipsSeats(db: Db, db1: Db, db2: Db, prices: Prices, now: int, sid: Id)
    requires Pass(TierChanges, db, db1, prices, now) && Pass(SeatDecreases, db1, db2, prices, now)
    requires Due(TierChanges, db, sid, now) && db.subs[sid].pendingTier != Some(FREE) && db.subs[sid].pendingSeats.Some?
    requires now < NextPeriod(db.subs[sid]).end
    ensures sid in db2.subs && db2.subs[sid].pendingSeats == db.subs[sid].pendingSeats && db2.subs[sid].extraSeats == db.subs[sid].extraSeats
  {
    hide Pass, PeriodFrom;
    PassSubs(TierChanges, db, db1, prices, now);
    PassSubs(SeatDecreases, db1, db2, prices, now);
  }

  // ---- The payment behind a landed change -----------------------------------------------------

  predicate Funds(db: Db, sid: Id, pid: Id) {
    && pid in db.pays && db.pays[pid].subscription == sid && db.pays[pid].purpose.TIER_CHANGE?
    && db.pays[pid].status == VERIFIED && db.pays[pid].invoiced && db.pays[pid].period.None?
  }

  lemma {:induction false} FundingFinds(db: Db, sid: Id, below: nat)
    ensures Funding(db, sid, below).Some? ==> Funding(db, sid, below).value < below && Funds(db, sid, Funding(db, sid, below).value)
    ensures Funding(db, sid, below).None? ==> forall pid: Id :: pid < below ==> !Funds(db, sid, pid)
  {
    if below > 0 {
      FundingFinds(db, sid, below - 1);
    }
  }

  lemma LandTierPays(db: Db, sid: Id, s: Subscription)
    requires s.pendingTier.Some? && s.pendingTier != Some(FREE) && s.pendingInterval.Some?
    ensures LandTier(db, sid, s).pays == StampFunding(db, sid, NextPeriod(s)).pays
  {
    hide SyncRows, NextPeriod, RollForward;
    var tier := s.pendingTier.value;
    var db1 := SetTenantTier(PutSub(db, sid, RollForward(s)), s.tenant, tier);
    var db2 := SyncPeriod(db1, s.tenant, NextPeriod(s), tier, s.pendingInterval.value);
    SameFunding(db, db2, sid, db.nextId);
  }

  lemma {:induction false} SameFunding(db: Db, db': Db, sid: Id, below: nat)
    requires db'.pays == db.pays
    ensures Funding(db', sid, below) == Funding(db, sid, below)
  {
    if below > 0 {
      SameFunding(db, db', sid, below - 1);
    }
  }

  /** When a deferred interval change lands, the payment that bought it is stamped with its period
      exactly when its invoice was linked by then; unstamped, it stays in flight, and the next tier
      change is refused as one already pending. */
  lemma LandedPaymentStaysInFlight(db: Db, sid: Id, pid: Id)
    requires sid in db.subs && pid < db.nextId && pid in db.pays
    requires
      var s := db.subs[sid];
      s.pendingTier.Some? && s.pendingTier != Some(FREE) && s.pendingInterval.Some?
    requires
      var p := db.pays[pid];
      p.subscription == sid && p.purpose.TIER_CHANGE? && p.status == VERIFIED && p.period.None?
    requires forall q :: q in db.pays && q != pid && db.pays[q].subscription == sid && db.pays[q].purpose.TIER_CHANGE? ==> !InFlight(db.pays[q])
    ensures
      var after := LandTier(db, sid, db.subs[sid]);
      && (TierChangeInFlight(after, sid) <==> !db.pays[pid].invoiced)
      && pid in after.pays && (after.pays[pid].period == Some(NextPeriod(db.subs[sid])) <==> db.pays[pid].invoiced)
  {
    hide LandTier, NextPeriod;
    var s := db.subs[sid];
    LandTierPays(db, sid, s);
    FundingFinds(db, sid, db.nextId);
    var after := LandTier(db, sid, s);
    if db.pays[pid].invoiced {
      assert Funds(db, sid, pid);
      assert Funding(db, sid, db.nextId) == Some(pid);
    } else {
      assert Funding(db, sid, db.nextId) == None;
      assert InFlight(after.pays[pid]);
    }
  }
}
