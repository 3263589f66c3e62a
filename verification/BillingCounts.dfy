/** What the billing tables count and when their jobs act: documents counted and granted over whole
    runs, the days of the daily job, and the payments its passes open and stamp. */
module BillingCounts {
  import opened Options
  import opened Tiers
  import opened Billing
  import opened BillingInvariant
  import opened BillingJobs
  import opened BillingQuota
  import opened BillingRuns
  import opened BillingEffects
  import Calendar

  // ---- What the quota rows have counted -------------------------------------------------------

  /** No count changes, closed rows stay as they are, and what is new has counted nothing. */
  predicate KeepsCounts(rows: seq<QuotaRow>, rows': seq<QuotaRow>) {
    && |rows| <= |rows'|
    && (forall i :: 0 <= i < |rows| ==> rows'[i].count == rows[i].count && (!rows[i].isCurrent ==> rows'[i] == rows[i]))
    && forall i :: |rows| <= i < |rows'| ==> rows'[i].count == 0
  }

  lemma OpenedKeeps(rows: seq<QuotaRow>, rows': seq<QuotaRow>, period: Period, tier: Tier, interval: Interval)
    requires Opened(rows, rows', period, tier, interval)
    ensures KeepsCounts(rows, rows')
  {
  }

  lemma SizedKeeps(rows: seq<QuotaRow>, rows': seq<QuotaRow>, tier: Tier, interval: Interval)
    requires Sized(rows, rows', tier, interval)
    ensures KeepsCounts(rows, rows')
  {
  }

  lemma RealignedKeeps(rows: seq<QuotaRow>, rows': seq<QuotaRow>, period: Period, tier: Tier, interval: Interval)
    requires Realigned(rows, rows', period, tier, interval)
    ensures KeepsCounts(rows, rows')
  {
  }

  lemma PaidKeeps(a: Account, a': Account, s: Subscription, purpose: Purpose, now: int)
    requires PaidAccount(a, a', s, purpose, now)
    ensures KeepsCounts(a.rows, a'.rows)
  {
    hide PeriodFrom;
  }

  lemma LandedKeeps(job: Job, a: Account, a': Account, s: Subscription)
    requires LandedAccount(job, a, a', s)
    ensures KeepsCounts(a.rows, a'.rows)
  {
    hide PeriodFrom, Calendar.AddMonths;
  }

  lemma FollowsKeeps(db: Db, t: Id, rows: seq<QuotaRow>, rows': seq<QuotaRow>)
    requires Follows(db, t, rows, rows')
    ensures KeepsCounts(rows, rows')
  {
    hide KeepsCounts, Realigned;
    NothingCounted(rows);
    if rows' != rows {
      var sid :| sid in db.subs && db.subs[sid].tenant == t && db.subs[sid].status == ACTIVE && db.subs[sid].period.Some?
                 && Realigned(rows, rows', db.subs[sid].period.value, db.subs[sid].tier, db.subs[sid].interval);
      RealignedKeeps(rows, rows', db.subs[sid].period.value, db.subs[sid].tier, db.subs[sid].interval);
    }
  }

  lemma RolledKeeps(rows: seq<QuotaRow>, rows': seq<QuotaRow>, tier: Tier, now: int)
    requires HasCurrent(rows) && RolledOver(rows, rows', tier, now)
    ensures KeepsCounts(rows, rows')
  {
    hide KeepsCounts, Opened, Current;
    NothingCounted(rows);
    var q := Current(rows);
    if q.period.end <= now {
      OpenedKeeps(rows, rows', Period(q.period.end, Calendar.AddMonths(q.period.end, PooledMonths(tier, q.interval))), tier, q.interval);
    }
  }

  lemma JobKeepsCounts(db: Db, db': Db, now: int, t: Id)
    requires Inv(db) && QuotaJob(db, db', now) && t in db.tenants
    ensures t in db'.tenants && KeepsCounts(Rows(db, t), Rows(db', t))
  {
    hide Inv, QuotaJob, Follows, RolledOver, KeepsCounts;
    QuotaJobAccounts(db, db', now, t);
    var mid :| RolledOver(Rows(db, t), mid, db.tenants[t].tier, now) && Follows(db, t, mid, Rows(db', t));
    RolledKeeps(Rows(db, t), mid, db.tenants[t].tier, now);
    FollowsKeeps(db, t, mid, Rows(db', t));
    CountsCarry(Rows(db, t), mid, Rows(db', t));
  }

  lemma SizingKeeps(rows: seq<QuotaRow>, tier: Tier, interval: Interval)
    ensures KeepsCounts(rows, Resize(rows, tier, interval))
  {
    hide KeepsCounts, Sized, Resize;
    ResizeSizes(rows, tier, interval);
    SizedKeeps(rows, Resize(rows, tier, interval), tier, interval);
  }

  lemma SyncingKeeps(rows: seq<QuotaRow>, period: Period, tier: Tier, interval: Interval)
    requires HasCurrent(rows)
    ensures KeepsCounts(rows, SyncRows(rows, period, tier, interval))
  {
    hide KeepsCounts, Opened, SyncRows;
    SyncOpens(rows, period, tier, interval);
    OpenedKeeps(rows, SyncRows(rows, period, tier, interval), period, tier, interval);
  }

  lemma MovingKeeps(db: Db, sid: Id, tier: Tier, interval: Interval, now: int, t: Id)
    requires SubLinked(db, sid) && HasCurrent(Rows(db, db.subs[sid].tenant)) && t in db.tenants
    ensures
      var after := MoveToInterval(db, sid, tier, interval, now);
      t in after.tenants && KeepsCounts(Rows(db, t), Rows(after, t))
  {
    hide KeepsCounts, SyncRows, PeriodFrom;
    NothingCounted(Rows(db, t));
    SyncingKeeps(Rows(db, db.subs[sid].tenant), PeriodFrom(now, interval), tier, interval);
  }

  lemma TierRequestKeepsCounts(db: Db, sid: Id, tier: Tier, interval: Option<Interval>, prices: Prices, now: int, t: Id)
    requires Inv(db) && IsActiveIn(db, sid) && t in db.tenants
    ensures
      var after := Committed(db, RequestTierChange(db, Some(sid), tier, interval, prices, now));
      t in after.tenants && KeepsCounts(Rows(db, t), Rows(after, t))
  {
    hide Inv, DecideTierChange, TierChangeError, MoveToInterval, Resize, KeepsCounts;
    NothingCounted(Rows(db, t));
    var s := db.subs[sid];
    TenantHasCurrent(db, db, sid);
    SizingKeeps(Rows(db, s.tenant), tier, s.interval);
    MovingKeeps(db, sid, tier, interval.GetOr(s.interval), now, t);
  }

  lemma RequestKeepsCounts(db: Db, step: Step, prices: Prices, now: int, db': Db, t: Id)
    requires Inv(db) && Next(db, step, prices, now, db') && IsRequest(step) && t in db.tenants
    ensures t in db'.tenants && KeepsCounts(Rows(db, t), Rows(db', t))
  {
    hide Inv, RequestTierChange, SeatChangeError, KeepsCounts;
    NothingCounted(Rows(db, t));
    if step.ChangeTier? {
      TierRequestKeepsCounts(db, step.sid, step.tier, step.target, prices, now, t);
    }
  }

  lemma DueIsThere(job: Job, db: Db, now: int)
    ensures forall sid :: Due(job, db, sid, now) ==> sid in db.subs
  {
  }

  /** No billing step ever changes what a quota row has counted, reopens or edits a closed one, or
      opens one that has counted something. */
  lemma StepKeepsCounts(db: Db, step: Step, prices: Prices, now: int, db': Db, t: Id)
    requires Inv(db) && Next(db, step, prices, now, db') && t in db.tenants
    ensures t in db'.tenants && KeepsCounts(Rows(db, t), Rows(db', t))
  {
    hide Inv, Next, PaidAccount, LandedAccount, Opened, Sized, KeepsCounts, Due, PeriodFrom;
    NothingCounted(Rows(db, t));
    if IsRequest(step) {
      RequestKeepsCounts(db, step, prices, now, db', t);
    } else if step.RunQuotaJob? {
      JobOf(db, step, prices, now, db');
      JobKeepsCounts(db, db', now, t);
    } else {
      StepAccounts(db, step, prices, now, db', t);
      var a, a' := AccountOf(db, t), AccountOf(db', t);
      match step {
        case Verify(pid) =>
          if a' != a {
            PaidKeeps(a, a', db.subs[db.pays[pid].subscription], db.pays[pid].purpose, now);
          }
        case Reverse(pid) =>
          if a' != a {
            SizedKeeps(a.rows, a'.rows, db.pays[pid].appliedFrom.value.tenantTier, db.pays[pid].appliedFrom.value.interval);
          }
        case RunPass(job) =>
          if a' != a {
            DueIsThere(job, db, now);
            var sid :| Due(job, db, sid, now) && db.subs[sid].tenant == t;
            LandedKeeps(job, a, a', db.subs[sid]);
          }
        case Promote(sid) =>
          if a' != a {
            OpenedKeeps(a.rows, a'.rows, PeriodFrom(now, db.subs[sid].interval), db.subs[sid].tier, db.subs[sid].interval);
          }
        case _ =>
      }
    }
  }

  lemma NothingCounted(rows: seq<QuotaRow>)
    ensures KeepsCounts(rows, rows)
  {
  }

  lemma JobOf(db: Db, step: Step, prices: Prices, now: int, db': Db)
    requires Next(db, step, prices, now, db') && step.RunQuotaJob?
    ensures QuotaJob(db, db', now)
  {
  }

  lemma CountsCarry(a: seq<QuotaRow>, b: seq<QuotaRow>, c: seq<QuotaRow>)
    requires KeepsCounts(a, b) && KeepsCounts(b, c)
    ensures KeepsCounts(a, c)
  {
  }

  function Counted(rows: seq<QuotaRow>): nat {
    if rows == [] then 0 else Counted(rows[..|rows| - 1]) + rows[|rows| - 1].count
  }

  lemma {:induction false} SameCounted(rows: seq<QuotaRow>, rows': seq<QuotaRow>)
    requires KeepsCounts(rows, rows')
    ensures Counted(rows') == Counted(rows)
    decreases |rows'|
  {
    if |rows'| > |rows| {
      SameCounted(rows, rows'[..|rows'| - 1]);
    } else if rows != [] {
      SameCounted(rows[..|rows| - 1], rows'[..|rows'| - 1]);
    }
  }

  /** Over every run of the billing machine the documents a tenant's quota rows have counted stay
      exactly those, row by row and in all. */
  lemma {:induction false} RunKeepsCounts(states: seq<Db>, events: seq<Event>, n: nat, t: Id)
    requires Run(states, events) && Inv(states[0]) && n < |states| && t in states[0].tenants
    ensures t in states[n].tenants && KeepsCounts(Rows(states[0], t), Rows(states[n], t))
    ensures Counted(Rows(states[n], t)) == Counted(Rows(states[0], t))
  {
    hide Inv, Next, KeepsCounts;
    NothingCounted(Rows(states[0], t));
    if n > 0 {
      RunKeepsCounts(states, events, n - 1, t);
      RunKeepsInv(states, events, n - 1);
      var e := events[n - 1];
      assert Next(states[n - 1], e.step, e.prices, e.now, states[n - 1 + 1]);
      StepKeepsCounts(states[n - 1], e.step, e.prices, e.now, states[n], t);
      CountsCarry(Rows(states[0], t), Rows(states[n - 1], t), Rows(states[n], t));
    }
    SameCounted(Rows(states[0], t), Rows(states[n], t));
  }

  /** In every state of every run a tenant has one current quota row: it lasts one month or, for a
      paid tier by the year, twelve, and its cap is the tier's documents for as many. */
  lemma RunPools(states: seq<Db>, events: seq<Event>, n: nat, t: Id)
    requires Run(states, events) && Inv(states[0]) && n < |states| && t in states[n].tenants
    ensures
      var tier, rows := states[n].tenants[t].tier, Rows(states[n], t);
      exists i :: 0 <= i < |rows| && OnlyCurrent(rows, i) &&
        var months := if rows[i].interval == YEARLY then 12 else 1;
        && rows[i].period.end == Calendar.AddMonths(rows[i].period.start, months) && rows[i].cap == Pool(tier, months)
        && (tier == FREE ==> months == 1)
  {
    hide SubsOk, PaymentsOk, OneLive, Next, Calendar.AddMonths;
    RunKeepsInv(states, events, n);
    var tier, rows := states[n].tenants[t].tier, Rows(states[n], t);
    var i :| 0 <= i < |rows| && OnlyCurrent(rows, i) && RowOk(tier, rows[i]);
    CapIsPool(tier, rows[i].interval);
  }

  // ---- The jobs' calendar ---------------------------------------------------------------------

  predicate UnsettledRenewal(p: Payment, sid: Id) {
    p.subscription == sid && p.purpose == RENEWAL && p.period.None? && (p.status == PENDING || p.status == REPORTED || p.status == VERIFIED)
  }

  /** When each pass takes an ACTIVE subscription, by how long its period is over: a landing from the
      moment it ends, a reminder in the seven days before, a warning on the sixth and seventh day
      after, once, and its expiry from the seventh day on. */
  lemma DueWindows(db: Db, sid: Id, now: int)
    requires sid in db.subs && db.subs[sid].period.Some?
    ensures
      var s := db.subs[sid];
      var over := now - s.period.value.end;
      var day := 86_400_000;
      var active := s.status == ACTIVE;
      && (Due(SeatDecreases, db, sid, now) <==> active && over >= 0 && s.pendingSeats.Some?)
      && (Due(TierChanges, db, sid, now) <==> active && over >= 0 && s.pendingTier.Some?)
      && (Due(Reminders, db, sid, now) <==>
            && active && -7 * day <= over < 0 && s.pendingTier.None?
            && forall pid :: pid in db.pays ==> !UnsettledRenewal(db.pays[pid], sid))
      && (Due(Warnings, db, sid, now) <==>
            active && 5 * day <= over < 7 * day && s.pendingTier.None? && (sid in db.warned ==> db.warned[sid] < s.period.value.end))
      && (Due(Expiries, db, sid, now) <==> active && over >= 7 * day)
  {
    assert RenewalInFlight(db, sid) <==> exists pid :: pid in db.pays && UnsettledRenewal(db.pays[pid], sid);
  }

  // ---- What the passes do to payments ---------------------------------------------------------

  /** The renewal a reminder opens: at the prices of the period's end, for the seats it will have. */
  function RenewalOf(row: (Id, Subscription), prices: Prices): Payment {
    var (sid, s) := row;
    var end := if s.period.Some? then s.period.value.end else 0;
    var seats := if s.pendingSeats.Some? then s.pendingSeats.value else s.extraSeats;
    Payment(sid, RENEWAL, prices.tier(s.tier, s.interval, end) + seats * prices.seat(s.interval, end), PENDING, None, None, false)
  }

  lemma {:induction false} ForEachReminds(db: Db, due: seq<(Id, Subscription)>, prices: Prices, now: int)
    ensures
      var after := ForEach(Reminders, db, due, prices, now);
      && after == db.(pays := after.pays, nextId := db.nextId + |due|)
      && (forall i :: 0 <= i < |due| ==> db.nextId + i in after.pays && after.pays[db.nextId + i] == RenewalOf(due[i], prices))
      && (forall pid: Id :: pid in after.pays <==> pid in db.pays || db.nextId <= pid < db.nextId + |due|)
      && (forall pid: Id :: pid in db.pays && pid < db.nextId ==> after.pays[pid] == db.pays[pid])
  {
    hide RenewalOf;
    if due != [] {
      var init, last := due[..|due| - 1], due[|due| - 1];
      ForEachReminds(db, init, prices, now);
      RemindOpens(ForEach(Reminders, db, init, prices, now), last, prices, now);
    }
  }

  lemma RemindOpens(db: Db, row: (Id, Subscription), prices: Prices, now: int)
    ensures Land(Reminders, db, row, prices, now) == db.(pays := db.pays[db.nextId := RenewalOf(row, prices)], nextId := db.nextId + 1)
  {
  }

  /** The reminder pass opens exactly one renewal for each due subscription, at the prices of its
      period's end, and changes nothing else. */
  lemma RemindersOpenRenewals(db: Db, db': Db, prices: Prices, now: int)
    requires Inv(db) && Pass(Reminders, db, db', prices, now)
    ensures exists due ::
      && Selects(due, Reminders, db, now)
      && db' == db.(pays := db'.pays, nextId := db.nextId + |due|)
      && (forall i :: 0 <= i < |due| ==> db.nextId + i in db'.pays && db'.pays[db.nextId + i] == RenewalOf(due[i], prices))
      && (forall pid: Id :: pid in db'.pays <==> pid in db.pays || db.nextId <= pid < db.nextId + |due|)
      && (forall pid :: pid in db.pays ==> db'.pays[pid] == db.pays[pid])
  {
    hide ForEach, RenewalOf, Due, QuotaOk, SubRowOk, PaymentOk;
    var due: seq<(Id, Subscription)> :| Selects(due, Reminders, db, now) && db' == ForEach(Reminders, db, due, prices, now);
    ForEachReminds(db, due, prices, now);
  }

  /** Seat decreases, warnings and expiries leave every payment as it is, and only a warning notes
      that it was sent. */
  lemma {:induction false} QuietPasses(job: Job, db: Db, due: seq<(Id, Subscription)>, prices: Prices, now: int)
    requires job in {SeatDecreases, Warnings, Expiries}
    ensures
      var after := ForEach(job, db, due, prices, now);
      && after.pays == db.pays
      && (forall sid :: sid in after.warned <==> sid in db.warned || (job == Warnings && Listed(due, sid)))
      && (forall sid :: sid in after.warned ==> after.warned[sid] == if job == Warnings && Listed(due, sid) then now else db.warned[sid])
  {
    hide Resize, SetSeats, ExpiredRow, Listed;
    if due == [] {
      NoneListed();
    } else {
      var init, last := due[..|due| - 1], due[|due| - 1];
      QuietPasses(job, db, init, prices, now);
      forall sid
        ensures Listed(due, sid) <==> Listed(init, sid) || sid == last.0
      {
        OneMoreListed(due, sid);
      }
    }
  }

  lemma NoneListed()
    ensures forall sid :: !Listed([], sid)
  {
  }

  lemma OneMoreListed(due: seq<(Id, Subscription)>, sid: Id)
    requires due != []
    ensures Listed(due, sid) <==> Listed(due[..|due| - 1], sid) || sid == due[|due| - 1].0
  {
    if Listed(due[..|due| - 1], sid) {
      var i :| 0 <= i < |due[..|due| - 1]| && due[..|due| - 1][i].0 == sid;
      assert due[i].0 == sid;
    }
  }

  /** Landing tier changes stamps payments and does nothing else to them: only the funding payment of
      a due change of interval, verified and invoiced, with the period that opens. */
  lemma {:induction false} TierPassStamps(db: Db, due: seq<(Id, Subscription)>, prices: Prices, now: int, pid: Id)
    requires pid in db.pays && RowsOf(due, db)
    ensures
      var after := ForEach(TierChanges, db, due, prices, now);
      var p := db.pays[pid];
      && pid in after.pays && after.nextId == db.nextId && after.pays.Keys == db.pays.Keys
      && (after.pays[pid] == p
          || (&& p.purpose.TIER_CHANGE? && p.status == VERIFIED && p.invoiced && p.period.None?
              && Listed(due, p.subscription) && p.subscription in db.subs && db.subs[p.subscription].pendingInterval.Some?
              && after.pays[pid] == p.(period := Some(NextPeriod(db.subs[p.subscription])))))
  {
    hide LandTier, NextPeriod, Listed;
    if due != [] {
      var init, last := due[..|due| - 1], due[|due| - 1];
      TierPassStamps(db, init, prices, now, pid);
      LandStamps(ForEach(TierChanges, db, init, prices, now), last.0, last.1, pid);
      OneMoreListed(due, db.pays[pid].subscription);
    }
  }

  lemma LandStamps(db: Db, sid: Id, s: Subscription, pid: Id)
    requires pid in db.pays
    ensures
      var after := LandTier(db, sid, s);
      var p := db.pays[pid];
      && after.pays.Keys == db.pays.Keys && after.nextId == db.nextId
      && (after.pays[pid] == p
          || (&& p.subscription == sid && p.purpose.TIER_CHANGE? && p.status == VERIFIED && p.invoiced && p.period.None? && s.pendingInterval.Some?
              && after.pays[pid] == p.(period := Some(NextPeriod(s)))))
  {
    hide Resize, SyncRows, NextPeriod, DropToFree, RollForward, Funding;
    if s.pendingTier.Some? && s.pendingTier != Some(FREE) {
      var tier := s.pendingTier.value;
      var db1 := SetTenantTier(PutSub(db, sid, RollForward(s)), s.tenant, tier);
      FundingFinds(SyncPeriod(db1, s.tenant, NextPeriod(s), tier, s.pendingInterval.GetOr(s.interval)), sid, db.nextId);
    }
  }
}
