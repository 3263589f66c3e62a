/** The billing service as it runs: tables changed in place, one write after another, by the
    operations the rest of the billing modules specify as single steps. */
module BillingService {
  import opened Options
  import opened Tiers
  import opened Proration
  import opened Billing
  import opened BillingInvariant
  import opened BillingJobs
  import opened BillingQuota
  import Calendar

  class Service {
    var tenants: map<Id, Tenant>
    var subs: map<Id, Subscription>
    var pays: map<Id, Payment>
    var quotas: map<Id, seq<QuotaRow>>
    var warned: map<Id, int>
    var nextId: Id

    function State(): Db
      reads this
    {
      Db(tenants, subs, pays, quotas, warned, nextId)
    }

    // ---- Quota and tenant writes --------------------------------------------------------------

    method SetCap(t: Id, tier: Tier, interval: Interval)
      modifies this`quotas
      ensures State() == Billing.SetCap(old(State()), t, tier, interval)
    {
      var rows := if t in quotas then quotas[t] else [];
      quotas := quotas[t := Resize(rows, tier, interval)];
    }

    method SyncPeriod(t: Id, period: Period, tier: Tier, interval: Interval)
      modifies this`quotas
      ensures State() == Billing.SyncPeriod(old(State()), t, period, tier, interval)
    {
      var rows := if t in quotas then quotas[t] else [];
      if HasCurrent(rows) {
        rows := Rollover(rows, period, CapForTier(tier, interval), EffectiveInterval(tier, interval));
      }
      quotas := quotas[t := rows];
    }

    method UpdateTier(t: Id, tier: Tier)
      modifies this`tenants
      ensures State() == SetTenantTier(old(State()), t, tier)
    {
      if t in tenants {
        tenants := tenants[t := tenants[t].(tier := tier)];
      }
    }

    method CreatePayment(sid: Id, purpose: Purpose, amount: nat)
      modifies this`pays, this`nextId
      ensures State() == NewPayment(old(State()), sid, purpose, amount)
    {
      pays := pays[nextId := Payment(sid, purpose, amount, PENDING, None, None, false)];
      nextId := nextId + 1;
    }

    // ---- Applying a verified payment ----------------------------------------------------------

    method ApplyInitialPayment(pid: Id, now: int)
      requires Linked(State(), pid)
      modifies this
      ensures State() == ApplyInitial(old(State()), pid, now)
    {
      var sid := pays[pid].subscription;
      var s := subs[sid];
      var tenant := tenants[s.tenant];
      var period := PeriodFrom(now, s.interval);
      subs := subs[sid := Activate(s, period)];
      pays := pays[pid := pays[pid].(period := Some(period))];
      UpdateTier(s.tenant, s.tier);
      SyncPeriod(s.tenant, period, s.tier, s.interval);
      if tenant.status == PAST_DUE {
        tenants := tenants[s.tenant := tenants[s.tenant].(status := VERIFIED_TENANT)];
      }
    }

    method ApplyImmediateIntervalUpgrade(sid: Id, tier: Tier, interval: Interval, now: int) returns (period: Period)
      requires SubLinked(State(), sid)
      modifies this
      ensures State() == MoveToInterval(old(State()), sid, tier, interval, now) && period == PeriodFrom(now, interval)
    {
      hide PeriodFrom, SyncRows;
      var s := subs[sid];
      var t := s.tenant;
      period := PeriodFrom(now, interval);
      subs := subs[sid := SetTier(subs[sid], tier, Some(interval))];
      subs := subs[sid := Activate(subs[sid], period)];
      assert subs == old(subs)[sid := Activate(SetTier(s, tier, Some(interval)), period)];
      UpdateTier(t, tier);
      SyncPeriod(t, period, tier, interval);
    }

    method ApplyTierChangePayment(pid: Id, now: int)
      requires Linked(State(), pid) && pays[pid].purpose.TIER_CHANGE?
      modifies this
      ensures State() == ApplyTierChange(old(State()), pid, now)
    {
      var p := pays[pid];
      var sid := p.subscription;
      var s := subs[sid];
      match p.purpose.switch {
        case AtPeriodEnd(interval) =>
          subs := subs[sid := Schedule(s, p.purpose.target, Some(interval))];
        case AtOnce(interval) =>
          var period := ApplyImmediateIntervalUpgrade(sid, p.purpose.target, interval, now);
          pays := pays[pid := p.(period := Some(period))];
        case KeepInterval =>
          subs := subs[sid := SetTier(s, p.purpose.target, None)];
          UpdateTier(s.tenant, p.purpose.target);
          SetCap(s.tenant, p.purpose.target, s.interval);
          pays := pays[pid := p.(period := s.period)];
      }
    }

    method ApplySeatChangePayment(pid: Id)
      requires Linked(State(), pid) && pays[pid].purpose.SEAT_CHANGE?
      modifies this
      ensures State() == ApplySeatChange(old(State()), pid)
    {
      var p := pays[pid];
      var s := subs[p.subscription];
      subs := subs[p.subscription := SetSeats(s, p.purpose.seats)];
      pays := pays[pid := p.(period := s.period)];
    }

    method ApplyRenewalPayment(pid: Id)
      requires Linked(State(), pid)
      modifies this
      ensures State() == ApplyRenewal(old(State()), pid)
    {
      hide PeriodFrom, PeriodEnd, SyncRows;
      var sid := pays[pid].subscription;
      var s := subs[sid];
      var period := PeriodFrom(PeriodEnd(s), s.interval);
      subs := subs[sid := Activate(s, period)];
      pays := pays[pid := pays[pid].(period := Some(period))];
      SyncPeriod(s.tenant, period, s.tier, s.interval);
    }

    method ApplyVerifiedPayment(pid: Id, now: int)
      requires Linked(State(), pid)
      modifies this
      ensures State() == ApplyVerified(old(State()), pid, now)
    {
      var p := pays[pid];
      var s := subs[p.subscription];
      pays := pays[pid := p.(appliedFrom := Some(TakeSnapshot(s, tenants[s.tenant])))];
      match p.purpose {
        case SEAT_CHANGE(_) => ApplySeatChangePayment(pid);
        case TIER_CHANGE(_, _) => ApplyTierChangePayment(pid, now);
        case RENEWAL => ApplyRenewalPayment(pid);
        case INITIAL => ApplyInitialPayment(pid, now);
      }
    }

    method ReviewPayment(pid: Id, verified: bool, now: int) returns (error: Option<Error>)
      requires pid in pays ==> Linked(State(), pid)
      modifies this
      ensures
        match Review(old(State()), pid, verified, now)
        case Ok(after) => error == None && State() == after
        case Err(e) => error == Some(e) && State() == old(State())
    {
      if pid !in pays {
        return Some(NotFound);
      }
      pays := pays[pid := pays[pid].(status := if verified then VERIFIED else REJECTED)];
      if verified {
        ApplyVerifiedPayment(pid, now);
      }
      return None;
    }

    method RefundPayment(pid: Id) returns (error: Option<Error>)
      requires pid in pays ==> Linked(State(), pid)
      modifies this
      ensures
        match Refund(old(State()), pid)
        case Ok(after) => error == None && State() == after
        case Err(e) => error == Some(e) && State() == old(State())
    {
      hide Resize;
      if pid !in pays {
        return Some(NotFound);
      }
      var p := pays[pid];
      if p.status != VERIFIED || p.appliedFrom.None? {
        return Some(NotRefundable);
      }
      var sid := p.subscription;
      var t := subs[sid].tenant;
      var from := p.appliedFrom.value;
      subs := subs[sid := SetTier(subs[sid], from.tier, Some(from.interval))];
      if p.purpose.SEAT_CHANGE? {
        subs := subs[sid := SetSeats(subs[sid], from.extraSeats)];
      }
      if p.purpose.INITIAL? {
        subs := subs[sid := subs[sid].(status := CANCELLED, period := from.period)];
      } else {
        subs := subs[sid := subs[sid].(status := from.status, period := from.period)];
      }
      UpdateTier(t, from.tenantTier);
      SetCap(t, from.tenantTier, from.interval);
      pays := pays[pid := p.(status := REFUNDED)];
      return None;
    }

    // ---- Requests -----------------------------------------------------------------------------

    method CreateSubscription(t: Id, tier: Tier, interval: Interval, prices: Prices, now: int) returns (error: Option<Error>)
      modifies this`subs, this`pays, this`nextId
      ensures
        match Billing.CreateSubscription(old(State()), t, tier, interval, prices, now)
        case Ok(after) => error == None && State() == after
        case Err(e) => error == Some(e) && State() == old(State())
    {
      if tier == FREE { return Some(InvalidTier); }
      if !IntervalAllowed(tier, interval) { return Some(IntervalNotAvailable); }
      if t !in tenants { return Some(NotFound); }
      if HasLiveSubscription(State(), t) { return Some(SubscriptionInFlight); }
      var price := prices.tier(tier, interval, now);
      var sid := nextId;
      subs := subs[sid := Subscription(t, tier, interval, PENDING_PAYMENT, None, None, None, 0, None)];
      nextId := nextId + 1;
      CreatePayment(sid, INITIAL, price);
      return None;
    }

    /** `found` is the tenant's ACTIVE subscription, if it has one. */
    method RequestTierChange(found: Option<Id>, tier: Tier, interval: Option<Interval>, prices: Prices, now: int) returns (error: Option<Error>)
      requires found.Some? ==> SubLinked(State(), found.value) && subs[found.value].period.Some?
      modifies this
      ensures
        match Billing.RequestTierChange(old(State()), found, tier, interval, prices, now)
        case Ok(after) => error == None && State() == after
        case Err(e) => error == Some(e) && State() == old(State())
    {
      hide DecideTierChange, TierChangeError, Billing.SetCap, MoveToInterval;
      if tier == FREE { return Some(InvalidTier); }
      if found.None? { return Some(NoActiveSubscription); }
      var sid := found.value;
      var s := subs[sid];
      var target := interval.GetOr(s.interval);
      error := TierChangeError(State(), sid, tier, target);
      if error.Some? { return; }
      match DecideTierChange(s, tier, target, prices, now) {
        case ScheduleFree =>
          subs := subs[sid := Schedule(s, tier, None)];
        case ApplyFree =>
          subs := subs[sid := SetTier(s, tier, None)];
          UpdateTier(s.tenant, tier);
          SetCap(s.tenant, tier, s.interval);
        case MoveToYearlyFree =>
          var _ := ApplyImmediateIntervalUpgrade(sid, tier, target, now);
        case Charge(amount, switch) =>
          CreatePayment(sid, TIER_CHANGE(tier, switch), amount);
      }
    }

    method RequestSeatChange(found: Option<Id>, seats: nat, prices: Prices, now: int) returns (error: Option<Error>)
      requires found.Some? ==> SubLinked(State(), found.value) && subs[found.value].period.Some?
      modifies this`subs, this`pays, this`nextId
      ensures
        match Billing.RequestSeatChange(old(State()), found, seats, prices, now)
        case Ok(after) => error == None && State() == after
        case Err(e) => error == Some(e) && State() == old(State())
    {
      hide SeatChangeError, SeatCharge;
      if found.None? { return Some(NoActiveSubscription); }
      var sid := found.value;
      var s := subs[sid];
      error := SeatChangeError(State(), sid, seats);
      if error.Some? { return; }
      if seats < s.extraSeats {
        subs := subs[sid := s.(pendingSeats := Some(seats))];
        return None;
      }
      var period := s.period.value;
      var charge := SeatCharge(seats - s.extraSeats, prices.seat(s.interval, now), period.start, period.end, now);
      if charge <= 0 {
        subs := subs[sid := SetSeats(s, seats)];
      } else {
        CreatePayment(sid, SEAT_CHANGE(seats), charge);
      }
      return None;
    }

    method ScheduleCancellation(found: Option<Id>) returns (error: Option<Error>)
      requires found.Some? ==> found.value in subs
      modifies this`subs
      ensures
        match Billing.ScheduleCancellation(old(State()), found)
        case Ok(after) => error == None && State() == after
        case Err(e) => error == Some(e) && State() == old(State())
    {
      if found.None? { return Some(NoActiveSubscription); }
      var sid := found.value;
      var s := subs[sid];
      if s.pendingTier == Some(FREE) { return Some(CancellationPending); }
      if s.pendingTier.Some? || TierChangeInFlight(State(), sid) { return Some(TierChangePending); }
      if SeatChangeInFlight(State(), sid) { return Some(SeatChangePending); }
      subs := subs[sid := Schedule(s, FREE, None)];
      return None;
    }

    method SubmitPaymentProof(pid: Id) returns (error: Option<Error>)
      modifies this`pays
      ensures
        match SubmitProof(old(State()), pid)
        case Ok(after) => error == None && State() == after
        case Err(e) => error == Some(e) && State() == old(State())
    {
      if pid !in pays { return Some(NotFound); }
      if pays[pid].status == VERIFIED { return Some(AlreadyVerified); }
      pays := pays[pid := pays[pid].(status := REPORTED)];
      return None;
    }

    method CancelPayment(pid: Id) returns (error: Option<Error>)
      modifies this`pays, this`subs
      ensures
        match Billing.CancelPayment(old(State()), pid)
        case Ok(after) => error == None && State() == after
        case Err(e) => error == Some(e) && State() == old(State())
    {
      if pid !in pays { return Some(NotFound); }
      var p := pays[pid];
      if p.status != PENDING || p.purpose.RENEWAL? { return Some(NotCancellable); }
      pays := pays[pid := p.(status := PAYMENT_CANCELLED)];
      if p.purpose.INITIAL? && p.subscription in subs && subs[p.subscription].status == PENDING_PAYMENT {
        subs := subs[p.subscription := subs[p.subscription].(status := CANCELLED)];
      }
      return None;
    }

    // ---- The subscription job -----------------------------------------------------------------

    /** Runs one pass's query: the order of the rows is whatever the map yields. */
    method FindDue(job: Job, now: int) returns (due: seq<(Id, Subscription)>)
      ensures Selects(due, job, State(), now)
    {
      due := [];
      var ids := subs.Keys;
      while ids != {}
        invariant ids <= subs.Keys
        invariant forall i :: 0 <= i < |due| ==> Due(job, State(), due[i].0, now) && due[i].1 == subs[due[i].0] && due[i].0 !in ids
        invariant forall i, j :: 0 <= i < j < |due| ==> due[i].0 != due[j].0
        invariant forall sid :: Due(job, State(), sid, now) && sid !in ids ==> exists i :: 0 <= i < |due| && due[i].0 == sid
        decreases ids
      {
        var sid :| sid in ids;
        ids := ids - {sid};
        if Due(job, State(), sid, now) {
          ghost var before := due;
          due := due + [(sid, subs[sid])];
          assert due[|due| - 1].0 == sid;
          assert forall i :: 0 <= i < |before| ==> due[i] == before[i];
        }
      }
    }

    method ApplyScheduledSeatChanges(now: int, ghost prices: Prices) returns (due: seq<(Id, Subscription)>)
      modifies this`subs
      ensures Selects(due, SeatDecreases, old(State()), now)
      ensures State() == ForEach(SeatDecreases, old(State()), due, prices, now)
    {
      due := FindDue(SeatDecreases, now);
      ghost var before := State();
      DueHasRow(due, SeatDecreases, before, now);
      for i := 0 to |due|
        invariant State() == ForEach(SeatDecreases, before, due[..i], prices, now)
      {
        StillAsRead(SeatDecreases, before, due, i, prices, now);
        var (sid, s) := due[i];
        subs := subs[sid := SetSeats(subs[sid], s.pendingSeats.GetOr(0))];
        assert due[..i + 1][..i] == due[..i];
      }
      assert due[..|due|] == due;
    }

    method ApplyScheduledTierChanges(now: int, ghost prices: Prices) returns (due: seq<(Id, Subscription)>)
      modifies this
      ensures Selects(due, TierChanges, old(State()), now)
      ensures State() == ForEach(TierChanges, old(State()), due, prices, now)
    {
      due := FindDue(TierChanges, now);
      ghost var before := State();
      DueHasRow(due, TierChanges, before, now);
      for i := 0 to |due|
        invariant State() == ForEach(TierChanges, before, due[..i], prices, now)
      {
        StillAsRead(TierChanges, before, due, i, prices, now);
        var (sid, s) := due[i];
        ApplyScheduledTierChange(sid, s);
        assert due[..i + 1][..i] == due[..i];
      }
      assert due[..|due|] == due;
    }

    method ApplyScheduledTierChange(sid: Id, s: Subscription)
      requires sid in subs && subs[sid] == s && s.pendingTier.Some?
      modifies this
      ensures State() == LandTier(old(State()), sid, s)
    {
      if s.pendingTier == Some(FREE) {
        DropSubscription(sid, s);
      } else {
        RollSubscription(sid, s);
        if s.pendingInterval.Some? {
          StampFundingPayment(sid, NextPeriod(s));
        }
      }
    }

    method DropSubscription(sid: Id, s: Subscription)
      requires sid in subs && subs[sid] == s
      modifies this
      ensures State() == Billing.SetCap(SetTenantTier(PutSub(old(State()), sid, DropToFree(s)), s.tenant, FREE), s.tenant, FREE, MONTHLY)
    {
      hide Resize;
      subs := subs[sid := SetTier(subs[sid], FREE, None)];
      subs := subs[sid := subs[sid].(status := CANCELLED)];
      UpdateTier(s.tenant, FREE);
      SetCap(s.tenant, FREE, MONTHLY);
      if s.extraSeats > 0 {
        subs := subs[sid := SetSeats(subs[sid], 0)];
      }
      assert subs == old(subs)[sid := DropToFree(s)];
    }

    method RollSubscription(sid: Id, s: Subscription)
      requires sid in subs && subs[sid] == s && s.pendingTier.Some?
      modifies this
      ensures
        var tier := s.pendingTier.value;
        State() == Billing.SyncPeriod(SetTenantTier(PutSub(old(State()), sid, RollForward(s)), s.tenant, tier),
                                      s.tenant, NextPeriod(s), tier, s.pendingInterval.GetOr(s.interval))
    {
      hide PeriodFrom, PeriodEnd, SyncRows;
      var tier := s.pendingTier.value;
      var interval := s.pendingInterval.GetOr(s.interval);
      var period := PeriodFrom(PeriodEnd(s), interval);
      subs := subs[sid := SetTier(subs[sid], tier, s.pendingInterval)];
      subs := subs[sid := Activate(subs[sid], period)];
      assert subs == old(subs)[sid := RollForward(s)];
      UpdateTier(s.tenant, tier);
      SyncPeriod(s.tenant, period, tier, interval);
    }

    method StampFundingPayment(sid: Id, period: Period)
      modifies this`pays
      ensures State() == StampFunding(old(State()), sid, period)
    {
      var funding := Funding(State(), sid, nextId);
      if funding.Some? && funding.value in pays {
        pays := pays[funding.value := pays[funding.value].(period := Some(period))];
      }
    }

    method CreateRenewalReminder(sid: Id, s: Subscription, prices: Prices)
      modifies this`pays, this`nextId
      ensures State() == Remind(old(State()), sid, s, prices)
    {
      var end := PeriodEnd(s);
      var renewalPrice := prices.tier(s.tier, s.interval, end);
      var seats := SeatsAtPeriodEnd(s);
      CreatePayment(sid, RENEWAL, renewalPrice + seats * prices.seat(s.interval, end));
    }

    method SendReminders(now: int, prices: Prices) returns (due: seq<(Id, Subscription)>)
      modifies this`pays, this`nextId
      ensures Selects(due, Reminders, old(State()), now) && State() == ForEach(Reminders, old(State()), due, prices, now)
    {
      hide Remind, Selects;
      due := FindDue(Reminders, now);
      ghost var before := State();
      for i := 0 to |due|
        invariant State() == ForEach(Reminders, before, due[..i], prices, now)
      {
        var (sid, s) := due[i];
        CreateRenewalReminder(sid, s, prices);
        assert due[..i + 1][..i] == due[..i];
      }
      assert due[..|due|] == due;
    }

    method SendWarnings(now: int, ghost prices: Prices) returns (due: seq<(Id, Subscription)>)
      modifies this`warned
      ensures Selects(due, Warnings, old(State()), now) && State() == ForEach(Warnings, old(State()), due, prices, now)
    {
      due := FindDue(Warnings, now);
      ghost var before := State();
      for i := 0 to |due|
        invariant State() == ForEach(Warnings, before, due[..i], prices, now)
      {
        warned := warned[due[i].0 := now];
        assert due[..i + 1][..i] == due[..i];
      }
      assert due[..|due|] == due;
    }

    method ExpireOverdue(now: int, ghost prices: Prices) returns (due: seq<(Id, Subscription)>)
      modifies this
      ensures Selects(due, Expiries, old(State()), now) && State() == ForEach(Expiries, old(State()), due, prices, now)
    {
      due := FindDue(Expiries, now);
      ghost var before := State();
      DueHasRow(due, Expiries, before, now);
      for i := 0 to |due|
        invariant State() == ForEach(Expiries, before, due[..i], prices, now)
      {
        StillAsRead(Expiries, before, due, i, prices, now);
        ExpireSubscription(due[i].0, due[i].1);
        assert due[..i + 1][..i] == due[..i];
      }
      assert due[..|due|] == due;
    }

    method ProcessDueRenewals(now: int, prices: Prices)
        returns (reminded: seq<(Id, Subscription)>, warnedRows: seq<(Id, Subscription)>, expired: seq<(Id, Subscription)>,
                 ghost mid: Db, ghost late: Db)
      modifies this
      ensures Selects(reminded, Reminders, old(State()), now) && mid == ForEach(Reminders, old(State()), reminded, prices, now)
      ensures Selects(warnedRows, Warnings, mid, now) && late == ForEach(Warnings, mid, warnedRows, prices, now)
      ensures Selects(expired, Expiries, late, now) && State() == ForEach(Expiries, late, expired, prices, now)
    {
      reminded := SendReminders(now, prices);
      mid := State();
      warnedRows := SendWarnings(now, prices);
      late := State();
      expired := ExpireOverdue(now, prices);
    }

    method ExpireSubscription(sid: Id, s: Subscription)
      requires sid in subs && subs[sid] == s
      modifies this
      ensures State() == Expire(old(State()), sid, s)
    {
      UpdateTier(s.tenant, FREE);
      SetCap(s.tenant, FREE, MONTHLY);
      if s.extraSeats > 0 {
        subs := subs[sid := SetSeats(subs[sid], 0)];
      }
      subs := subs[sid := subs[sid].(status := EXPIRED)];
      if s.tenant in tenants && tenants[s.tenant].status != SUSPENDED && tenants[s.tenant].status != PAST_DUE {
        tenants := tenants[s.tenant := tenants[s.tenant].(status := PAST_DUE)];
      }
    }

    /** Seats, then tiers, then renewals. */
    method RunSubscriptionJobs(now: int, prices: Prices) returns (ghost states: seq<Db>)
      modifies this
      ensures Tick(states, prices, now) && states[0] == old(State()) && states[5] == State()
    {
      hide ForEach, Selects;
      ghost var s0 := State();
      var seats := ApplyScheduledSeatChanges(now, prices);
      ghost var s1 := State();
      var tiers := ApplyScheduledTierChanges(now, prices);
      ghost var s2 := State();
      var reminded, warnedRows, expired, s3, s4 := ProcessDueRenewals(now, prices);
      states := [s0, s1, s2, s3, s4, State()];
      assert Pass(SeatDecreases, s0, s1, prices, now);
      assert Pass(TierChanges, s1, s2, prices, now);
      assert Pass(Reminders, s2, s3, prices, now);
      assert Pass(Warnings, s3, s4, prices, now);
      assert Pass(Expiries, s4, State(), prices, now);
    }

    // ---- The quota job ------------------------------------------------------------------------

    method ResetDueQuotaPeriods(now: int)
      modifies this`quotas
      ensures State() == ResetDuePeriods(old(State()), now)
    {
      hide ResetRows;
      ghost var before := quotas;
      var ids := quotas.Keys;
      while ids != {}
        invariant ids <= before.Keys && quotas.Keys == before.Keys
        invariant forall t :: t in ids ==> quotas[t] == before[t]
        invariant forall t :: t in before && t !in ids ==> quotas[t] == ResetRows(tenants, t, before[t], now)
        decreases ids
      {
        var t :| t in ids;
        ids := ids - {t};
        var rows := ResetQuotaPeriod(t, quotas[t], now);
        quotas := quotas[t := rows];
      }
      assert quotas == ResetDuePeriods(old(State()), now).quotas;
    }

    method ResetQuotaPeriod(t: Id, rows: seq<QuotaRow>, now: int) returns (after: seq<QuotaRow>)
      ensures after == ResetRows(tenants, t, rows, now)
    {
      after := rows;
      if t in tenants && HasCurrent(rows) && Current(rows).period.end <= now {
        after := RollRows(rows, Current(rows), tenants[t].tier);
      }
    }

    method ResyncFromSubscriptions() returns (due: seq<Subscription>)
      modifies this`quotas
      ensures SelectsMisaligned(due, old(State())) && State() == Resync(old(State()), due)
    {
      due := FindMisaligned();
      ghost var before := State();
      for i := 0 to |due|
        invariant State() == Resync(before, due[..i])
      {
        var s := due[i];
        assert Misaligned(before, s);
        var rows := if s.tenant in quotas then quotas[s.tenant] else [];
        quotas := quotas[s.tenant := Realign(rows, s.period.value, s.tier, s.interval)];
        assert due[..i + 1][..i] == due[..i];
      }
      assert due[..|due|] == due;
    }

    method FindMisaligned() returns (due: seq<Subscription>)
      ensures SelectsMisaligned(due, State())
    {
      due := [];
      var ids := subs.Keys;
      while ids != {}
        invariant ids <= subs.Keys
        invariant forall i :: 0 <= i < |due| ==> Misaligned(State(), due[i]) && exists sid :: sid in subs && subs[sid] == due[i]
        invariant forall sid :: sid in subs && sid !in ids && Misaligned(State(), subs[sid]) ==> subs[sid] in due
        decreases ids
      {
        var sid :| sid in ids;
        ids := ids - {sid};
        if Misaligned(State(), subs[sid]) {
          due := due + [subs[sid]];
        }
      }
    }

    method RunQuotaJobs(now: int)
      modifies this`quotas
      ensures QuotaJob(old(State()), State(), now)
    {
      ResetDueQuotaPeriods(now);
      var due := ResyncFromSubscriptions();
    }
  }

  /** Landing earlier rows of a pass leaves a later row as the query read it. */
  lemma StillAsRead(job: Job, before: Db, due: seq<(Id, Subscription)>, i: nat, prices: Prices, now: int)
    requires RowsOf(due, before) && i < |due|
    ensures
      var db := ForEach(job, before, due[..i], prices, now);
      due[i].0 in db.subs && db.subs[due[i].0] == due[i].1
  {
    hide ForEach, Landed;
    ForEachSubs(job, before, due[..i], prices, now);
    assert !Listed(due[..i], due[i].0);
  }
}
