/** Refunds in last-in-first-out order undo applied payments. */
module BillingRefunds {
  import opened Options
  import opened Tiers
  import opened Billing
  import opened BillingInvariant
  import opened BillingRuns
  import Calendar

  /** Payments to verify, each with the time of its review. */
  type Reviews = seq<(Id, int)>

  function ApplyAll(db: Db, ps: Reviews): Db
    decreases |ps|
  {
    if ps == [] then db
    else if !Linked(db, ps[0].0) then db
    else ApplyAll(Committed(db, Review(db, ps[0].0, true, ps[0].1)), ps[1..])
  }

  /** The same payments refunded, last one first. */
  function RefundAll(db: Db, ps: Reviews): Db
    decreases |ps|
  {
    if ps == [] then db
    else
      var db1 := RefundAll(db, ps[1..]);
      if Linked(db1, ps[0].0) then Committed(db1, Refund(db1, ps[0].0)) else db1
  }

  predicate Distinct(ps: Reviews) {
    forall i, j :: 0 <= i < j < |ps| ==> ps[i].0 != ps[j].0
  }

  predicate Includes(ps: Reviews, pid: Id) {
    exists i :: 0 <= i < |ps| && ps[i].0 == pid
  }

  predicate IsPaymentOf(db: Db, pid: Id, sid: Id) {
    Linked(db, pid) && db.pays[pid].subscription == sid
  }

  /** Payments of one subscription, none of them twice, a first payment only in first place. */
  predicate Chain(db: Db, ps: Reviews, sid: Id) {
    && Distinct(ps)
    && (forall i :: 0 <= i < |ps| ==> IsPaymentOf(db, ps[i].0, sid))
    && (forall i :: 0 < i < |ps| ==> !db.pays[ps[i].0].purpose.INITIAL?)
  }

  predicate HasSeatChange(db: Db, ps: Reviews) {
    exists i :: 0 <= i < |ps| && ps[i].0 in db.pays && db.pays[ps[i].0].purpose.SEAT_CHANGE?
  }

  /** What a tenant is entitled to through a subscription. */
  function Entitlement(db: Db, sid: Id): Snapshot
    requires SubLinked(db, sid)
  {
    TakeSnapshot(db.subs[sid], db.tenants[db.subs[sid].tenant])
  }

  /** `after` was reached from `db` by applying or refunding payments `ps` of `sid`. */
  predicate Touches(db: Db, after: Db, ps: Reviews, sid: Id) {
    && SubLinked(db, sid) && SubLinked(after, sid) && after.subs[sid].tenant == db.subs[sid].tenant
    && after.subs.Keys == db.subs.Keys && after.tenants.Keys == db.tenants.Keys && after.pays.Keys == db.pays.Keys
    && (forall pid :: pid in db.pays ==> after.pays[pid].subscription == db.pays[pid].subscription && after.pays[pid].purpose == db.pays[pid].purpose)
    && (forall pid :: pid in db.pays && !Includes(ps, pid) ==> after.pays[pid] == db.pays[pid])
  }

  /** One application: the snapshot taken, and what it leaves alone. */
  lemma ApplyOne(db: Db, pid: Id, now: int, sid: Id)
    requires IsPaymentOf(db, pid, sid)
    ensures
      var after := Committed(db, Review(db, pid, true, now));
      && Touches(db, after, [(pid, now)], sid)
      && after.pays[pid].status == VERIFIED && after.pays[pid].appliedFrom == Some(Entitlement(db, sid))
      && (!db.pays[pid].purpose.SEAT_CHANGE? ==>
            after.subs[sid].extraSeats == db.subs[sid].extraSeats && after.subs[sid].pendingSeats == db.subs[sid].pendingSeats)
      && (db.pays[pid].purpose.SEAT_CHANGE? ==> after.subs[sid].pendingSeats == None)
  {
    hide TakeSnapshot, ApplyVerified;
    var db1 := PutPayment(db, pid, db.pays[pid].(status := VERIFIED));
    var after := ApplyVerified(db1, pid, now);
    ApplyWrites(db1, pid, now);
    ApplySeats(db1, pid, now);
    assert after.subs.Keys == db.subs.Keys;
    assert after.pays.Keys == db.pays.Keys;
    assert Includes([(pid, now)], pid) by {
      assert [(pid, now)][0].0 == pid;
    }
  }

  lemma ApplySeats(db: Db, pid: Id, now: int)
    requires Linked(db, pid)
    ensures
      var s, after := db.subs[db.pays[pid].subscription], ApplyVerified(db, pid, now).subs[db.pays[pid].subscription];
      && (!db.pays[pid].purpose.SEAT_CHANGE? ==> after.extraSeats == s.extraSeats && after.pendingSeats == s.pendingSeats)
      && (db.pays[pid].purpose.SEAT_CHANGE? ==> after.pendingSeats == None)
  {
    hide TakeSnapshot, Resize, SyncRows, PeriodFrom;
  }

  /** One refund: everything the snapshot holds, the seats only for a seat change. */
  lemma RefundOne(db: Db, pid: Id, now: int, sid: Id)
    requires IsPaymentOf(db, pid, sid) && db.pays[pid].status == VERIFIED && db.pays[pid].appliedFrom.Some?
    ensures
      var p := db.pays[pid];
      var from := p.appliedFrom.value;
      var after := Committed(db, Refund(db, pid));
      && Touches(db, after, [(pid, now)], sid)
      && Entitlement(after, sid) == from.(
           status := if p.purpose.INITIAL? then CANCELLED else from.status,
           extraSeats := if p.purpose.SEAT_CHANGE? then from.extraSeats else db.subs[sid].extraSeats)
      && after.subs[sid].pendingTier == None && after.subs[sid].pendingInterval == None
      && after.subs[sid].pendingSeats == if p.purpose.SEAT_CHANGE? then None else db.subs[sid].pendingSeats
  {
    hide Resize;
    var after := Committed(db, Refund(db, pid));
    assert Includes([(pid, now)], pid) by {
      assert [(pid, now)][0].0 == pid;
    }
    assert after.subs.Keys == db.subs.Keys;
    assert after.pays.Keys == db.pays.Keys;
  }

  lemma ChainTail(db: Db, after: Db, ps: Reviews, sid: Id)
    requires ps != [] && Chain(db, ps, sid) && Touches(db, after, [ps[0]], sid)
    ensures Chain(after, ps[1..], sid) && !Includes(ps[1..], ps[0].0)
    ensures HasSeatChange(db, ps) <==> db.pays[ps[0].0].purpose.SEAT_CHANGE? || HasSeatChange(after, ps[1..])
  {
    var rest := ps[1..];
    forall i | 0 <= i < |rest|
      ensures IsPaymentOf(after, rest[i].0, sid) && after.pays[rest[i].0].purpose == db.pays[ps[i + 1].0].purpose
    {
      assert rest[i] == ps[i + 1] && IsPaymentOf(db, ps[i + 1].0, sid);
    }
    assert IsPaymentOf(db, ps[0].0, sid);
    if HasSeatChange(db, ps) && !db.pays[ps[0].0].purpose.SEAT_CHANGE? {
      var i :| 0 <= i < |ps| && ps[i].0 in db.pays && db.pays[ps[i].0].purpose.SEAT_CHANGE?;
      assert rest[i - 1] == ps[i];
    }
    if HasSeatChange(after, rest) {
      var i :| 0 <= i < |rest| && rest[i].0 in after.pays && after.pays[rest[i].0].purpose.SEAT_CHANGE?;
      assert rest[i] == ps[i + 1];
    }
  }

  /** After any number of payments is applied and refunded again in reverse order, the tenant has
      the tier, interval, period, status, tenant tier and seats it had before; a first payment
      ends CANCELLED instead of payable. Scheduled tier changes are gone, a scheduled seat
      decrease only when a seat change is among the payments. */
  lemma {:induction false} RefundsUndoApplications(db: Db, ps: Reviews, sid: Id)
    requires SubLinked(db, sid) && Chain(db, ps, sid)
    ensures
      var after := RefundAll(ApplyAll(db, ps), ps);
      && Touches(db, after, ps, sid)
      && Entitlement(after, sid) == (
           if ps != [] && db.pays[ps[0].0].purpose.INITIAL?
           then Entitlement(db, sid).(status := CANCELLED)
           else Entitlement(db, sid))
      && (ps != [] ==> after.subs[sid].pendingTier == None && after.subs[sid].pendingInterval == None)
      && after.subs[sid].pendingSeats == if HasSeatChange(db, ps) then None else db.subs[sid].pendingSeats
    decreases |ps|
  {
    hide Review, Refund, HasSeatChange, TakeSnapshot;
    if ps == [] {
      NoSeatChange(db);
    } else {
      var pid, now, rest := ps[0].0, ps[0].1, ps[1..];
      assert IsPaymentOf(db, pid, sid);
      assert ps[0] == (pid, now);
      var one := Committed(db, Review(db, pid, true, now));
      ApplyOne(db, pid, now, sid);
      ChainTail(db, one, ps, sid);
      RefundsUndoApplications(one, rest, sid);
      var back := RefundAll(ApplyAll(one, rest), rest);
      assert back.pays[pid] == one.pays[pid];
      if rest != [] {
        assert rest[0] == ps[1] && IsPaymentOf(one, rest[0].0, sid);
      }
      RefundOne(back, pid, now, sid);
      TouchesBoth(db, one, back, RefundAll(ApplyAll(db, ps), ps), ps, sid);
      SeatsCarry(db, one, back, pid, sid);
    }
  }

  lemma SeatsCarry(db: Db, one: Db, back: Db, pid: Id, sid: Id)
    requires SubLinked(db, sid) && SubLinked(one, sid) && SubLinked(back, sid)
    requires Entitlement(back, sid) == Entitlement(one, sid)
    ensures back.subs[sid].extraSeats == one.subs[sid].extraSeats
    ensures Entitlement(db, sid).extraSeats == db.subs[sid].extraSeats
  {
  }

  lemma NoSeatChange(db: Db)
    ensures !HasSeatChange(db, [])
  {
  }

  lemma TouchesBoth(db: Db, one: Db, back: Db, after: Db, ps: Reviews, sid: Id)
    requires ps != [] && Touches(db, one, [ps[0]], sid) && Touches(one, back, ps[1..], sid) && Touches(back, after, [ps[0]], sid)
    ensures Touches(db, after, ps, sid)
  {
    forall pid | !Includes(ps, pid)
      ensures !Includes([ps[0]], pid) && !Includes(ps[1..], pid)
    {
      assert forall i :: 0 <= i < |ps[1..]| ==> ps[1..][i] == ps[i + 1];
      assert ps[0].0 != pid;
    }
  }

  /** The subscription row itself is back exactly when nothing had been scheduled on it. */
  lemma RowIsRestored(db: Db, ps: Reviews, sid: Id)
    requires SubLinked(db, sid) && Chain(db, ps, sid) && ps != [] && !db.pays[ps[0].0].purpose.INITIAL?
    ensures
      var s, after := db.subs[sid], RefundAll(ApplyAll(db, ps), ps);
      sid in after.subs && after.subs[sid] == s <==>
      s.pendingTier == None && s.pendingInterval == None && (HasSeatChange(db, ps) ==> s.pendingSeats == None)
  {
    hide ApplyAll, RefundAll, HasSeatChange;
    RefundsUndoApplications(db, ps, sid);
  }
}
