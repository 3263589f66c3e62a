/** The daily quota job, and the reset at promotion. */
module BillingQuota {
  import opened Options
  import opened Tiers
  import opened Billing
  import opened BillingInvariant
  import Calendar

  lemma {:induction false} CurrentIs(rows: seq<QuotaRow>, i: nat)
    requires i < |rows| && OnlyCurrent(rows, i)
    ensures HasCurrent(rows) && Current(rows) == rows[i]
  {
    assert rows[i].isCurrent;
    if rows[0].isCurrent {
      assert i == 0;
    } else {
      forall j | 0 <= j < |rows[1..]|
        ensures rows[1..][j].isCurrent <==> j == i - 1
      {
        assert rows[1..][j] == rows[j + 1];
      }
      CurrentIs(rows[1..], i - 1);
    }
  }

  /** The current quota row's period is the subscription's. */
  predicate Aligned(db: Db, s: Subscription) {
    s.period.Some? && HasCurrent(Rows(db, s.tenant)) && Current(Rows(db, s.tenant)).period == s.period.value
  }

  lemma RollKeepsQuota(tier: Tier, rows: seq<QuotaRow>)
    requires QuotaOk(tier, rows)
    ensures HasCurrent(rows) && QuotaOk(tier, RollRows(rows, Current(rows), tier))
  {
    hide Calendar.AddMonths;
    var i :| 0 <= i < |rows| && OnlyCurrent(rows, i) && RowOk(tier, rows[i]);
    CurrentIs(rows, i);
    var after := RollRows(rows, Current(rows), tier);
    assert OnlyCurrent(after, |rows|) && RowOk(tier, after[|rows|]);
  }

  /** Only quota rows differ, and they still agree with their tenants. */
  lemma QuotasOnly(db: Db, db': Db)
    requires Inv(db) && db' == db.(quotas := db'.quotas) && TenantsOk(db')
    ensures Inv(db')
  {
    hide QuotaOk, SubRowOk, SnapshotOk;
    forall sid | sid in db'.subs
      ensures SubOk(db', sid)
    {
      assert SubOk(db, sid);
    }
    forall pid | pid in db'.pays
      ensures pid < db'.nextId && PaymentOk(db', db'.pays[pid])
    {
      assert PaymentOk(db, db.pays[pid]);
    }
  }

  lemma ResetKeepsInv(db: Db, now: int)
    requires Inv(db)
    ensures Inv(ResetDuePeriods(db, now))
  {
    hide QuotaOk, RollRows, SubsOk, PaymentsOk;
    var after := ResetDuePeriods(db, now);
    forall t | t in after.tenants
      ensures QuotaOk(after.tenants[t].tier, Rows(after, t))
    {
      QuotaHasCurrent(db.tenants[t].tier, Rows(db, t));
      RollKeepsQuota(db.tenants[t].tier, Rows(db, t));
    }
    QuotasOnly(db, after);
  }

  lemma RealignKeepsQuota(rows: seq<QuotaRow>, s: Subscription)
    requires QuotaOk(s.tier, rows) && s.tier != FREE && WholePeriod(s.period, s.interval)
    ensures
      var after := Realign(rows, s.period.value, s.tier, s.interval);
      QuotaOk(s.tier, after) && HasCurrent(after) && Current(after).period == s.period.value
  {
    hide Calendar.AddMonths;
    var i :| 0 <= i < |rows| && OnlyCurrent(rows, i) && RowOk(s.tier, rows[i]);
    var after := Realign(rows, s.period.value, s.tier, s.interval);
    assert OnlyCurrent(after, i) && RowOk(s.tier, after[i]);
    CurrentIs(after, i);
  }

  predicate FromDb(due: seq<Subscription>, db: Db) {
    forall i :: 0 <= i < |due| ==> due[i].status == ACTIVE && exists sid :: sid in db.subs && db.subs[sid] == due[i]
  }

  lemma ActiveRow(db: Db, s: Subscription)
    requires SubsOk(db) && s.status == ACTIVE && exists sid :: sid in db.subs && db.subs[sid] == s
    ensures s.tenant in db.tenants && s.tier == db.tenants[s.tenant].tier && s.tier != FREE && WholePeriod(s.period, s.interval)
  {
    var sid :| sid in db.subs && db.subs[sid] == s;
    assert SubOk(db, sid);
  }

  lemma SameRow(db: Db, r: Subscription, s: Subscription)
    requires OneLive(db) && r.status == s.status == ACTIVE && r.tenant == s.tenant
    requires (exists sid :: sid in db.subs && db.subs[sid] == r) && exists sid :: sid in db.subs && db.subs[sid] == s
    ensures r == s
  {
  }

  lemma {:induction false} ResyncRows(db: Db, due: seq<Subscription>)
    requires Inv(db) && FromDb(due, db)
    ensures Resync(db, due) == db.(quotas := Resync(db, due).quotas) && TenantsOk(Resync(db, due))
    ensures forall s :: s in due ==> Aligned(Resync(db, due), s)
    ensures forall t :: (forall s :: s in due ==> s.tenant != t) ==> Rows(Resync(db, due), t) == Rows(db, t)
  {
    hide QuotaOk, SubsOk, PaymentsOk, Realign, WholePeriod, OneLive;
    if due != [] {
      var init, s := due[..|due| - 1], due[|due| - 1];
      var mid, after := Resync(db, init), Resync(db, due);
      ResyncRows(db, init);
      ActiveRow(db, s);
      assert WholePeriod(s.period, s.interval) ==> s.period.Some? by {
        WholeIsSome(s);
      }
      RealignKeepsQuota(Rows(mid, s.tenant), s);
      assert forall t :: t != s.tenant ==> Rows(after, t) == Rows(mid, t);
      forall r | r in due
        ensures Aligned(after, r)
      {
        if r.tenant == s.tenant {
          SameRow(db, r, s);
        } else {
          assert r in init;
        }
      }
      assert forall r :: r in init ==> r in due;
    }
  }

  lemma WholeIsSome(s: Subscription)
    ensures WholePeriod(s.period, s.interval) ==> s.period.Some?
  {
  }

  /** The quota job: due periods roll over, then misaligned ones are corrected. */
  ghost predicate QuotaJob(db: Db, db': Db, now: int) {
    exists due :: SelectsMisaligned(due, ResetDuePeriods(db, now)) && db' == Resync(ResetDuePeriods(db, now), due)
  }

  lemma ResyncedActive(db: Db, due: seq<Subscription>, sid: Id)
    requires Inv(db) && SelectsMisaligned(due, db) && sid in db.subs && db.subs[sid].status == ACTIVE
    requires FromDb(due, db)
    ensures Aligned(Resync(db, due), db.subs[sid])
  {
    hide Resync, QuotaOk, SubsOk, PaymentsOk, OneLive, WholePeriod, Current, HasCurrent;
    var s := db.subs[sid];
    ResyncRows(db, due);
    if s !in due {
      assert !Misaligned(db, s);
      WholeIsSome(s);
      ActiveRow(db, s);
      QuotaHasCurrent(db.tenants[s.tenant].tier, Rows(db, s.tenant));
      forall r | r in due
        ensures r.tenant != s.tenant
      {
        if r.tenant == s.tenant {
          SameRow(db, r, s);
        }
      }
    }
  }

  /** The quota job keeps the invariant and leaves every ACTIVE subscription's tenant with a
      current quota period equal to the billing period. */
  lemma QuotaJobAligns(db: Db, db': Db, now: int)
    requires Inv(db) && QuotaJob(db, db', now)
    ensures Inv(db') && db'.subs == db.subs && db'.tenants == db.tenants
    ensures forall sid :: sid in db'.subs && db'.subs[sid].status == ACTIVE ==> Aligned(db', db'.subs[sid])
  {
    hide Inv, Misaligned, ResetDuePeriods, Resync, Aligned;
    var mid := ResetDuePeriods(db, now);
    var due :| SelectsMisaligned(due, mid) && db' == Resync(mid, due);
    ResetKeepsInv(db, now);
    ResetTouchesQuotas(db, now);
    MisalignedActive(due, mid);
    ResyncRows(mid, due);
    QuotasOnly(mid, db');
    forall sid | sid in mid.subs && mid.subs[sid].status == ACTIVE
      ensures Aligned(db', mid.subs[sid])
    {
      ResyncedActive(mid, due, sid);
    }
  }

  lemma ResetTouchesQuotas(db: Db, now: int)
    ensures ResetDuePeriods(db, now) == db.(quotas := ResetDuePeriods(db, now).quotas)
  {
  }

  lemma MisalignedActive(due: seq<Subscription>, db: Db)
    requires SelectsMisaligned(due, db)
    ensures FromDb(due, db)
  {
  }

  lemma {:induction false} NewestPaidPeriodIs(db: Db, sid: Id, below: nat)
    ensures
      match NewestPaidPeriod(db, sid, below)
      case Some(pid) => pid < below && PaidPeriod(db, sid, pid) && forall q: Id :: pid < q < below ==> !PaidPeriod(db, sid, q)
      case None => forall q: Id :: q < below ==> !PaidPeriod(db, sid, q)
  {
    if below > 0 {
      NewestPaidPeriodIs(db, sid, below - 1);
    }
  }

  lemma {:induction false} SamePaidPeriods(db: Db, db': Db, sid: Id, below: nat)
    requires db'.pays == db.pays
    ensures NewestPaidPeriod(db', sid, below) == NewestPaidPeriod(db, sid, below)
  {
    if below > 0 {
      SamePaidPeriods(db, db', sid, below - 1);
    }
  }

  /** Promotion opens a whole period from now, for billing and quota alike, whatever period and
      interval the sandbox subscription had been left with, and moves the newest payment that paid
      for a period, and no other, to it. */
  lemma PromotionStartsClean(db: Db, sid: Id, now: int)
    requires SubLinked(db, sid) && db.subs[sid].status == ACTIVE
    requires db.subs[sid].tier == db.tenants[db.subs[sid].tenant].tier != FREE
    requires db.subs[sid].pendingInterval.None? && HasCurrent(Rows(db, db.subs[sid].tenant))
    requires forall pid :: pid in db.pays ==> pid < db.nextId
    ensures
      var after := ResetPeriodOnPromotion(db, sid, now);
      var t := db.subs[sid].tenant;
      && SubOk(after, sid) && Aligned(after, after.subs[sid]) && after.subs[sid].period.value.start == now
      && QuotaOk(after.tenants[t].tier, Rows(after, t)) && Current(Rows(after, t)).count == 0
      && after.pays.Keys == db.pays.Keys
      && forall pid :: pid in db.pays ==> (after.pays[pid] ==
           if PaidPeriod(db, sid, pid) && (forall q: Id :: q > pid ==> !PaidPeriod(db, sid, q))
           then db.pays[pid].(period := after.subs[sid].period)
           else db.pays[pid])
  {
    hide Calendar.AddMonths;
    var s := db.subs[sid];
    var rows := Rows(db, s.tenant);
    var period := PeriodFrom(now, s.interval);
    var after := ResetPeriodOnPromotion(db, sid, now);
    SamePaidPeriods(db, PutSub(db, sid, Activate(s, period)), sid, db.nextId);
    NewestPaidPeriodIs(db, sid, db.nextId);
    SyncKeepsQuota(rows, period, s.tier, s.interval);
    assert OnlyCurrent(Rows(after, s.tenant), |rows|);
    CurrentIs(Rows(after, s.tenant), |rows|);
  }
}
