/** What every billing operation keeps, and exactly when a review or a refund keeps it. */
module BillingInvariant {
  import opened Options
  import opened Tiers
  import opened Billing
  import Calendar

  // ---- The invariant ------------------------------------------------------------------------

  predicate OnlyCurrent(rows: seq<QuotaRow>, i: nat)
    requires i < |rows|
  {
    forall j :: 0 <= j < |rows| ==> (rows[j].isCurrent <==> j == i)
  }

  /** A quota row agrees with the tenant's tier: its cap, its length, and no yearly pool on FREE. */
  predicate RowOk(tier: Tier, q: QuotaRow) {
    && q.cap == CapForTier(tier, q.interval)
    && q.period.end == Calendar.AddMonths(q.period.start, PeriodMonths(tier, q.interval))
    && (tier == FREE ==> q.interval == MONTHLY)
  }

  predicate QuotaOk(tier: Tier, rows: seq<QuotaRow>) {
    exists i :: 0 <= i < |rows| && OnlyCurrent(rows, i) && RowOk(tier, rows[i])
  }

  predicate WholePeriod(period: Option<Period>, interval: Interval) {
    period.Some? && period.value == PeriodFrom(period.value.start, interval)
  }

  /** A subscription row beside the tier of its tenant. */
  predicate SubRowOk(s: Subscription, tenantTier: Tier) {
    && (s.pendingInterval.Some? ==> s.pendingTier.Some? && s.pendingTier != Some(FREE))
    && (Live(s) ==> s.tier != FREE)
    && (s.status == ACTIVE ==> s.tier == tenantTier && WholePeriod(s.period, s.interval))
  }

  predicate SubOk(db: Db, sid: Id)
    requires sid in db.subs
  {
    SubLinked(db, sid) && SubRowOk(db.subs[sid], db.tenants[db.subs[sid].tenant].tier)
  }

  predicate SnapshotOk(from: Snapshot) {
    && (from.status in {ACTIVE, PENDING_PAYMENT} ==> from.tier != FREE)
    && (from.status == ACTIVE ==> from.tier == from.tenantTier && WholePeriod(from.period, from.interval))
  }

  predicate PaymentOk(db: Db, p: Payment) {
    && p.subscription in db.subs
    && (p.purpose.TIER_CHANGE? ==> p.purpose.target != FREE)
    && (p.appliedFrom.Some? ==> SnapshotOk(p.appliedFrom.value))
  }

  predicate PaymentsOk(db: Db) {
    && (forall pid :: pid in db.pays ==> pid < db.nextId && PaymentOk(db, db.pays[pid]))
    && (forall sid :: sid in db.subs ==> sid < db.nextId)
  }

  predicate TenantsOk(db: Db) {
    forall t :: t in db.tenants ==> QuotaOk(db.tenants[t].tier, Rows(db, t))
  }

  predicate SubsOk(db: Db) {
    forall sid :: sid in db.subs ==> SubOk(db, sid)
  }

  predicate OneLive(db: Db) {
    forall r, s :: r in db.subs && s in db.subs && db.subs[r].tenant == db.subs[s].tenant && Live(db.subs[r]) && Live(db.subs[s]) ==> r == s
  }

  predicate Inv(db: Db) {
    TenantsOk(db) && SubsOk(db) && OneLive(db) && PaymentsOk(db)
  }

  // ---- One subscription, its tenant and its quota rows change ---------------------------------

  predicate SameTenants(db: Db, db': Db, t: Id) {
    && db'.tenants.Keys == db.tenants.Keys
    && (forall u :: u in db.tenants && u != t ==> db'.tenants[u].tier == db.tenants[u].tier)
    && (forall u :: u in db.tenants && u != t ==> Rows(db', u) == Rows(db, u))
  }

  /** Between `db` and `db'` only subscription `sid`, its tenant and that tenant's quota rows
      changed. */
  predicate Moved(db: Db, db': Db, sid: Id) {
    && SubLinked(db, sid)
    && sid in db'.subs && db'.subs == db.subs[sid := db'.subs[sid]]
    && db'.subs[sid].tenant == db.subs[sid].tenant
    && SameTenants(db, db', db.subs[sid].tenant)
  }

  predicate NoOtherLive(db: Db, sid: Id)
    requires sid in db.subs
  {
    forall r :: r in db.subs && r != sid && db.subs[r].tenant == db.subs[sid].tenant ==> !Live(db.subs[r])
  }

  predicate OthersOnTier(db: Db, sid: Id, tier: Tier)
    requires sid in db.subs
  {
    forall r :: r in db.subs && r != sid && db.subs[r].tenant == db.subs[sid].tenant && db.subs[r].status == ACTIVE ==> db.subs[r].tier == tier
  }

  lemma OtherTier(s: Subscription, was: Tier, tier: Tier)
    requires SubRowOk(s, was)
    ensures SubRowOk(s, tier) <==> (s.status == ACTIVE ==> s.tier == tier)
  {
  }

  lemma SubsAfter(db: Db, db': Db, sid: Id)
    requires SubsOk(db) && Moved(db, db', sid)
    ensures
      var tier := db'.tenants[db.subs[sid].tenant].tier;
      SubsOk(db') <==> SubRowOk(db'.subs[sid], tier) && OthersOnTier(db, sid, tier)
  {
    hide SubRowOk;
    var t := db.subs[sid].tenant;
    var tier := db'.tenants[t].tier;
    forall r | r in db.subs
      ensures r != sid && db.subs[r].tenant != t ==> SubOk(db', r)
      ensures r != sid && db.subs[r].tenant == t ==> (SubOk(db', r) <==> (db.subs[r].status == ACTIVE ==> db.subs[r].tier == tier))
    {
      assert SubOk(db, r);
      OtherTier(db.subs[r], db.tenants[db.subs[r].tenant].tier, tier);
    }
    assert SubOk(db', sid) <==> SubRowOk(db'.subs[sid], tier);
  }

  lemma LiveAfter(db: Db, db': Db, sid: Id)
    requires OneLive(db) && Moved(db, db', sid)
    ensures OneLive(db') <==> (Live(db'.subs[sid]) ==> NoOtherLive(db, sid))
  {
    forall r | r in db.subs && r != sid
      ensures r in db'.subs && db'.subs[r] == db.subs[r]
    {
    }
    if OneLive(db') && Live(db'.subs[sid]) {
      forall r | r in db.subs && r != sid && db.subs[r].tenant == db.subs[sid].tenant
        ensures !Live(db.subs[r])
      {
        assert db'.subs[r].tenant == db'.subs[sid].tenant;
      }
    }
  }

  /** The invariant after such a change, decided by the changed rows alone. */
  lemma InvAfter(db: Db, db': Db, sid: Id)
    requires Inv(db) && Moved(db, db', sid) && PaymentsOk(db')
    requires QuotaOk(db'.tenants[db.subs[sid].tenant].tier, Rows(db', db.subs[sid].tenant))
    ensures
      var tier := db'.tenants[db.subs[sid].tenant].tier;
      Inv(db') <==>
      && SubRowOk(db'.subs[sid], tier)
      && OthersOnTier(db, sid, tier)
      && (Live(db'.subs[sid]) ==> NoOtherLive(db, sid))
  {
    hide QuotaOk, SubRowOk;
    SubsAfter(db, db', sid);
    LiveAfter(db, db', sid);
  }

  // ---- Quota rows ---------------------------------------------------------------------------

  lemma ResizeKeepsQuota(was: Tier, rows: seq<QuotaRow>, tier: Tier, interval: Interval)
    requires QuotaOk(was, rows)
    ensures QuotaOk(tier, Resize(rows, tier, interval))
  {
    hide Calendar.AddMonths;
    var i :| 0 <= i < |rows| && OnlyCurrent(rows, i) && RowOk(was, rows[i]);
    var after := Resize(rows, tier, interval);
    assert OnlyCurrent(after, i) && RowOk(tier, after[i]);
  }

  lemma SyncKeepsQuota(rows: seq<QuotaRow>, period: Period, tier: Tier, interval: Interval)
    requires HasCurrent(rows) && period == PeriodFrom(period.start, interval)
    ensures QuotaOk(tier, SyncRows(rows, period, tier, interval)) <== tier != FREE || interval == MONTHLY
  {
    hide Calendar.AddMonths;
    var after := SyncRows(rows, period, tier, interval);
    assert OnlyCurrent(after, |rows|);
  }

  lemma QuotaHasCurrent(tier: Tier, rows: seq<QuotaRow>)
    requires QuotaOk(tier, rows)
    ensures HasCurrent(rows)
  {
  }

  // ---- Payments -----------------------------------------------------------------------------

  /** The state a payment's subscription would be left in, and what that needs of the tenant's
      other subscriptions and of its own. Nothing the source checks; everything it needs. */
  predicate ReviewSafe(db: Db, pid: Id)
    requires Linked(db, pid)
  {
    var sid := db.pays[pid].subscription;
    var s := db.subs[sid];
    match db.pays[pid].purpose
    case INITIAL => s.tier != FREE && NoOtherLive(db, sid)
    case RENEWAL => s.tier != FREE && s.tier == db.tenants[s.tenant].tier && NoOtherLive(db, sid)
    case TIER_CHANGE(target, KeepInterval) => OthersOnTier(db, sid, target)
    case TIER_CHANGE(_, AtOnce(_)) => NoOtherLive(db, sid)
    case TIER_CHANGE(_, AtPeriodEnd(_)) => true
    case SEAT_CHANGE(_) => true
  }

  lemma SnapshotIsOk(db: Db, sid: Id)
    requires sid in db.subs && SubOk(db, sid)
    ensures SnapshotOk(TakeSnapshot(db.subs[sid], db.tenants[db.subs[sid].tenant]))
  {
  }

  lemma NoOtherOnTier(db: Db, sid: Id, tier: Tier)
    requires sid in db.subs && NoOtherLive(db, sid)
    ensures OthersOnTier(db, sid, tier)
  {
  }

  /** In a state that meets the invariant, the tenant of an ACTIVE subscription has no other
      subscription to disturb. */
  lemma ActiveIsAlone(db: Db, sid: Id)
    requires Inv(db) && sid in db.subs && Live(db.subs[sid])
    ensures NoOtherLive(db, sid)
  {
  }

  lemma PaymentIsOk(db: Db, pid: Id)
    requires Inv(db) && pid in db.pays
    ensures pid < db.nextId && PaymentOk(db, db.pays[pid])
  {
  }

  /** Applying a payment writes that payment, its subscription, its tenant and the tenant's quota
      rows, and nothing else. */
  predicate WritesPayment(db: Db, db': Db, pid: Id)
    requires pid in db.pays
  {
    && pid in db'.pays && db'.pays == db.pays[pid := db'.pays[pid]]
    && db'.pays[pid].subscription == db.pays[pid].subscription
    && db'.pays[pid].purpose == db.pays[pid].purpose
    && db'.nextId == db.nextId
  }

  predicate Applied(db: Db, after: Db, pid: Id)
    requires Linked(db, pid)
  {
    var sid := db.pays[pid].subscription;
    && Moved(db, after, sid)
    && WritesPayment(db, after, pid)
    && after.pays[pid].status == db.pays[pid].status
    && after.pays[pid].appliedFrom == Some(TakeSnapshot(db.subs[sid], db.tenants[db.subs[sid].tenant]))
  }

  function Snapshotted(db: Db, pid: Id): Db
    requires Linked(db, pid)
  {
    var p := db.pays[pid];
    var s := db.subs[p.subscription];
    PutPayment(db, pid, p.(appliedFrom := Some(TakeSnapshot(s, db.tenants[s.tenant]))))
  }

  lemma ApplyTierWrites(db: Db, pid: Id, now: int)
    requires Linked(db, pid) && db.pays[pid].purpose.TIER_CHANGE?
    ensures Applied(db, ApplyTierChange(Snapshotted(db, pid), pid, now), pid)
  {
    hide PeriodFrom, Resize, SyncRows, TakeSnapshot;
  }

  lemma ApplyInitialWrites(db: Db, pid: Id, now: int)
    requires Linked(db, pid)
    ensures Applied(db, ApplyInitial(Snapshotted(db, pid), pid, now), pid)
  {
    hide PeriodFrom, SyncRows, TakeSnapshot;
  }

  lemma ApplyRenewalWrites(db: Db, pid: Id)
    requires Linked(db, pid)
    ensures Applied(db, ApplyRenewal(Snapshotted(db, pid), pid), pid)
  {
    hide PeriodFrom, SyncRows, TakeSnapshot;
  }

  lemma ApplyWrites(db: Db, pid: Id, now: int)
    requires Linked(db, pid)
    ensures Applied(db, ApplyVerified(db, pid, now), pid)
  {
    hide ApplyTierChange, ApplyInitial, ApplyRenewal, TakeSnapshot;
    match db.pays[pid].purpose {
      case TIER_CHANGE(_, _) => ApplyTierWrites(db, pid, now);
      case INITIAL => ApplyInitialWrites(db, pid, now);
      case RENEWAL => ApplyRenewalWrites(db, pid);
      case SEAT_CHANGE(_) =>
    }
  }

  lemma WrittenPaymentsOk(db: Db, db': Db, pid: Id)
    requires PaymentsOk(db) && pid in db.pays && WritesPayment(db, db', pid)
    requires db'.subs.Keys == db.subs.Keys
    requires db'.pays[pid].appliedFrom.Some? ==> SnapshotOk(db'.pays[pid].appliedFrom.value)
    ensures PaymentsOk(db')
  {
    hide SnapshotOk;
    forall q | q in db'.pays
      ensures q < db'.nextId && PaymentOk(db', db'.pays[q])
    {
      assert q in db.pays && PaymentOk(db, db.pays[q]) && PaymentOk(db, db.pays[pid]);
    }
  }

  lemma ReviewMoves(db: Db, pid: Id, now: int)
    requires Inv(db) && Linked(db, pid)
    ensures
      var after := Review(db, pid, true, now).value;
      PaymentsOk(after) && Moved(db, after, db.pays[pid].subscription)
  {
    hide ApplyVerified, SnapshotOk, TakeSnapshot, SubRowOk, QuotaOk, PaymentsOk, TenantsOk;
    var sid := db.pays[pid].subscription;
    var db1 := PutPayment(db, pid, db.pays[pid].(status := VERIFIED));
    assert SubOk(db, sid);
    SnapshotIsOk(db, sid);
    ApplyWrites(db1, pid, now);
    WrittenPaymentsOk(db, ApplyVerified(db1, pid, now), pid);
  }

  lemma FreeIsNotLive(db: Db, sid: Id)
    requires SubsOk(db) && sid in db.subs && Live(db.subs[sid])
    ensures db.subs[sid].tier != FREE
  {
    assert SubOk(db, sid);
  }

  lemma ActiveMatches(db: Db, sid: Id)
    requires SubsOk(db) && sid in db.subs && db.subs[sid].status == ACTIVE
    ensures SubLinked(db, sid) && db.subs[sid].tier == db.tenants[db.subs[sid].tenant].tier
  {
    assert SubOk(db, sid);
  }

  lemma InitialKeepsInv(db: Db, pid: Id, now: int)
    requires Inv(db) && Linked(db, pid) && db.pays[pid].purpose.INITIAL?
    ensures Inv(Review(db, pid, true, now).value) <==> ReviewSafe(db, pid)
  {
    hide Calendar.AddMonths, QuotaOk, PaymentsOk;
    var sid := db.pays[pid].subscription;
    var s := db.subs[sid];
    var after := Review(db, pid, true, now).value;
    ReviewMoves(db, pid, now);
    if s.tier == FREE {
      if SubsOk(after) {
        FreeIsNotLive(after, sid);
      }
    } else {
      assert SubOk(db, sid);
      QuotaHasCurrent(db.tenants[s.tenant].tier, Rows(db, s.tenant));
      SyncKeepsQuota(Rows(db, s.tenant), PeriodFrom(now, s.interval), s.tier, s.interval);
      InvAfter(db, after, sid);
    }
  }

  lemma RenewalKeepsInv(db: Db, pid: Id, now: int)
    requires Inv(db) && Linked(db, pid) && db.pays[pid].purpose.RENEWAL?
    ensures Inv(Review(db, pid, true, now).value) <==> ReviewSafe(db, pid)
  {
    hide Calendar.AddMonths, QuotaOk, PaymentsOk;
    var sid := db.pays[pid].subscription;
    var s := db.subs[sid];
    var after := Review(db, pid, true, now).value;
    ReviewMoves(db, pid, now);
    if s.tier == FREE {
      if SubsOk(after) {
        FreeIsNotLive(after, sid);
      }
    } else if s.tier != db.tenants[s.tenant].tier {
      if SubsOk(after) {
        ActiveMatches(after, sid);
      }
    } else {
      assert SubOk(db, sid);
      QuotaHasCurrent(db.tenants[s.tenant].tier, Rows(db, s.tenant));
      SyncKeepsQuota(Rows(db, s.tenant), PeriodFrom(PeriodEnd(s), s.interval), s.tier, s.interval);
      InvAfter(db, after, sid);
    }
  }

  lemma PeriodFromStarts(start: int, interval: Interval)
    ensures PeriodFrom(start, interval).start == start
  {
  }

  /** What verifying a tier change leaves of its subscription, its tenant's tier and quota rows. */
  predicate TierOutcome(db: Db, after: Db, pid: Id, now: int)
    requires Linked(db, pid) && db.pays[pid].purpose.TIER_CHANGE? && Moved(db, after, db.pays[pid].subscription)
  {
    var sid := db.pays[pid].subscription;
    var s := db.subs[sid];
    var target := db.pays[pid].purpose.target;
    match db.pays[pid].purpose.switch
    case AtPeriodEnd(interval) =>
      && after.subs[sid] == Schedule(s, target, Some(interval))
      && after.tenants[s.tenant].tier == db.tenants[s.tenant].tier && Rows(after, s.tenant) == Rows(db, s.tenant)
    case AtOnce(interval) =>
      && after.subs[sid] == Activate(SetTier(s, target, Some(interval)), PeriodFrom(now, interval))
      && after.tenants[s.tenant].tier == target
      && Rows(after, s.tenant) == SyncRows(Rows(db, s.tenant), PeriodFrom(now, interval), target, interval)
    case KeepInterval =>
      && after.subs[sid] == SetTier(s, target, None) && after.tenants[s.tenant].tier == target
      && Rows(after, s.tenant) == Resize(Rows(db, s.tenant), target, s.interval)
  }

  lemma TierReviewed(db: Db, pid: Id, now: int)
    requires Linked(db, pid) && db.pays[pid].purpose.TIER_CHANGE? && Moved(db, Review(db, pid, true, now).value, db.pays[pid].subscription)
    ensures Review(db, pid, true, now).Ok? && TierOutcome(db, Review(db, pid, true, now).value, pid, now)
  {
    hide PeriodFrom, Resize, SyncRows, TakeSnapshot;
  }

  lemma ReviewVerifies(db: Db, pid: Id, now: int)
    requires Linked(db, pid)
    ensures Review(db, pid, true, now).Ok?
  {
  }

  lemma TierChangeKeepsInv(db: Db, pid: Id, now: int)
    requires Inv(db) && Linked(db, pid) && db.pays[pid].purpose.TIER_CHANGE?
    ensures Inv(Review(db, pid, true, now).value) <==> ReviewSafe(db, pid)
  {
    hide Review, QuotaOk, PaymentsOk, PeriodFrom, Resize, SyncRows, SnapshotOk;
    var p := db.pays[pid];
    var sid := p.subscription;
    var s := db.subs[sid];
    var target := p.purpose.target;
    ReviewVerifies(db, pid, now);
    ReviewMoves(db, pid, now);
    TierReviewed(db, pid, now);
    PaymentIsOk(db, pid);
    assert SubOk(db, sid);
    match p.purpose.switch {
      case AtPeriodEnd(interval) =>
      case AtOnce(interval) =>
        PeriodFromStarts(now, interval);
        QuotaHasCurrent(db.tenants[s.tenant].tier, Rows(db, s.tenant));
        SyncKeepsQuota(Rows(db, s.tenant), PeriodFrom(now, interval), target, interval);
      case KeepInterval =>
        ResizeKeepsQuota(db.tenants[s.tenant].tier, Rows(db, s.tenant), target, s.interval);
    }
    InvAfter(db, Review(db, pid, true, now).value, sid);
  }

  lemma SeatChangeKeepsInv(db: Db, pid: Id, now: int)
    requires Inv(db) && Linked(db, pid) && db.pays[pid].purpose.SEAT_CHANGE?
    ensures Inv(Review(db, pid, true, now).value) && ReviewSafe(db, pid)
  {
    hide Calendar.AddMonths, QuotaOk, PaymentsOk;
    ReviewMoves(db, pid, now);
    assert SubOk(db, db.pays[pid].subscription);
    InvAfter(db, Review(db, pid, true, now).value, db.pays[pid].subscription);
  }

  /** Verifying a payment keeps the invariant exactly when `ReviewSafe` holds beforehand. */
  lemma ReviewKeepsInv(db: Db, pid: Id, now: int)
    requires Inv(db) && Linked(db, pid)
    ensures Inv(Review(db, pid, true, now).value) <==> ReviewSafe(db, pid)
  {
    hide Inv, ReviewSafe, Review;
    match db.pays[pid].purpose {
      case INITIAL => InitialKeepsInv(db, pid, now);
      case RENEWAL => RenewalKeepsInv(db, pid, now);
      case TIER_CHANGE(_, _) => TierChangeKeepsInv(db, pid, now);
      case SEAT_CHANGE(_) => SeatChangeKeepsInv(db, pid, now);
    }
  }

  // ---- Refunds ------------------------------------------------------------------------------

  predicate Refundable(db: Db, pid: Id) {
    Linked(db, pid) && db.pays[pid].status == VERIFIED && db.pays[pid].appliedFrom.Some?
  }

  /** The rows a refund restores do not collide with another subscription of the tenant. */
  predicate RefundSafe(db: Db, pid: Id)
    requires Refundable(db, pid)
  {
    var p := db.pays[pid];
    var from := p.appliedFrom.value;
    && OthersOnTier(db, p.subscription, from.tenantTier)
    && (!p.purpose.INITIAL? && from.status in {ACTIVE, PENDING_PAYMENT} ==> NoOtherLive(db, p.subscription))
  }

  lemma RefundMoves(db: Db, pid: Id)
    requires PaymentsOk(db) && Refundable(db, pid)
    ensures
      var after := Refund(db, pid).value;
      Moved(db, after, db.pays[pid].subscription) && PaymentsOk(after)
  {
    hide Resize, SnapshotOk, PaymentsOk;
    var after := Refund(db, pid).value;
    assert WritesPayment(db, after, pid);
    assert PaymentOk(db, db.pays[pid]) by {
      PaymentsEach(db, pid);
    }
    WrittenPaymentsOk(db, after, pid);
  }

  lemma PaymentsEach(db: Db, pid: Id)
    requires PaymentsOk(db) && pid in db.pays
    ensures PaymentOk(db, db.pays[pid])
  {
  }

  /** Refunding a payment keeps the invariant exactly when `RefundSafe` holds beforehand. */
  lemma RefundKeepsInv(db: Db, pid: Id)
    requires Inv(db) && Refundable(db, pid)
    ensures Inv(Refund(db, pid).value) <==> RefundSafe(db, pid)
  {
    hide Calendar.AddMonths, QuotaOk, PaymentsOk;
    var p := db.pays[pid];
    var from := p.appliedFrom.value;
    var s := db.subs[p.subscription];
    RefundMoves(db, pid);
    PaymentIsOk(db, pid);
    assert SubOk(db, p.subscription);
    ResizeKeepsQuota(db.tenants[s.tenant].tier, Rows(db, s.tenant), from.tenantTier, from.interval);
    InvAfter(db, Refund(db, pid).value, p.subscription);
  }
}
