/** The card payment service as code over its tables, each method proved equal to the step the runs
    are made of. */
module CardService {
  import opened Options
  import opened Cards
  import CardsLedger

  /** A world once the call that led to it has ended: its recovery write done, or failed as well. */
  function Ended(w: World, recovers: bool): World {
    var w1 :=
      if w.recoveries == [] then w
      else if recovers then Recover(w, |w.recoveries| - 1)
      else WithoutRecovery(w, |w.recoveries| - 1);
    w1.(approvals := {})
  }

  /** What a call that began with nothing under way leaves behind when it fails. */
  lemma RecoveryLeft(w: World, a: AttemptId, owned: bool, vendorId: Option<int>, answer: Answer, fault: Fault)
    requires w.recoveries == []
    ensures
      var (w', outcome) := Cards.ResolveOutcome(w, a, owned, vendorId, answer, fault);
      && |w'.attempts| == |w.attempts|
      && w'.recoveries == if outcome.Err? && a < |w.attempts| && vendorId.Some? then [Recovery(a, vendorId.value)] else []
  {
  }

  lemma EndedIs(w: World, recovers: bool)
    ensures w.recoveries == [] ==> Ended(w, recovers) == w.(approvals := {})
    ensures |w.recoveries| == 1 && !recovers ==> Ended(w, recovers) == w.(recoveries := [], approvals := {})
    ensures |w.recoveries| == 1 && recovers ==> Ended(w, recovers) == Recover(w, 0).(approvals := {}) && Recover(w, 0).recoveries == []
  {
  }

  class Service {
    var payments: seq<Payment>
    var attempts: seq<Attempt>
    var now: int

    /** The tables, with no other call under way. */
    function State(): World
      reads this
    {
      World(payments, attempts, [], [], {}, now)
    }

    constructor (w: World)
      ensures State() == World(w.payments, w.attempts, [], [], {}, w.now)
    {
      payments, attempts, now := w.payments, w.attempts, w.now;
    }

    method CountPendingByPaymentId(p: PaymentId) returns (count: nat)
      ensures count == CountPending(attempts, p)
    {
      count := 0;
      for i := 0 to |attempts|
        invariant count == CountPending(attempts[..i], p)
      {
        assert attempts[..i + 1][..i] == attempts[..i];
        if attempts[i].payment == p && attempts[i].status == PENDING {
          count := count + 1;
        }
      }
      assert attempts[..|attempts|] == attempts;
    }

    method CreateSession(p: PaymentId) returns (r: Result<AttemptId, Error>)
      modifies `attempts
      ensures
        match old(Cards.CreateSession(State(), p))
        case Ok(w) => State() == w && r == Ok(old(|attempts|))
        case Err(e) => State() == old(State()) && r == Err(e)
    {
      if p >= |payments| { return Err(NotFound); }
      if payments[p].status == VERIFIED || payments[p].status == REFUNDED { return Err(AlreadySettled); }
      if payments[p].totalCents < MIN_CHARGE_CENTS { return Err(BelowMinimum); }
      var livePending := CountPendingByPaymentId(p);
      if livePending >= MAX_PENDING_ATTEMPTS_PER_PAYMENT { return Err(TooManyAttempts); }
      r := Ok(|attempts|);
      attempts := attempts + [Attempt(p, payments[p].totalCents, PENDING, None, now, None, None)];
    }

    /** Claim, ask, store, commit; a fault leaves the tables as they were before or after the commit. */
    method ClaimAndStore(a: AttemptId, owned: bool, vendorId: Option<int>, answer: Answer, fault: Fault) returns (r: Result<Status, Error>)
      modifies `attempts
      ensures
        var (w, outcome) := old(Cards.ResolveOutcome(State(), a, owned, vendorId, answer, fault));
        r == outcome && State() == w.(recoveries := [], approvals := {})
    {
      if a >= |attempts| { return Err(NotFound); }
      var attempt := attempts[a];
      if !owned { return Err(NotFoundForTenant); }
      if fault.BeforeCommit? { return Err(ConfirmFailed); }
      if attempt.status != PENDING { return if fault.AfterCommit? then Err(ConfirmFailed) else Ok(attempt.status); }
      if answer.Unreachable? {
        attempts := attempts[a := attempt.(vendorId := vendorId)];
        return Err(ConfirmFailed);
      }
      var status := APPROVED;
      if !answer.approved {
        status := CANCELLED;
      } else if answer.cents != attempt.cents {
        status := ERROR;
      } else if attempt.payment < |payments| && payments[attempt.payment].status == VERIFIED {
        status := DUPLICATE;
      }
      attempts := attempts[a := attempt.(status := status, vendorId := answer.transactionId, confirmedAt := Some(now))];
      return if fault.AfterCommit? then Err(ConfirmFailed) else Ok(status);
    }

    /** Phase one with its recovery write, which `recovers` says succeeds or not. */
    method ResolveOutcome(a: AttemptId, owned: bool, vendorId: Option<int>, answer: Answer, fault: Fault, recovers: bool)
      returns (r: Result<Status, Error>)
      modifies `attempts
      ensures
        var (w, outcome) := old(Cards.ResolveOutcome(State(), a, owned, vendorId, answer, fault));
        State() == Ended(w, recovers) && r == outcome
    {
      ghost var w := Cards.ResolveOutcome(State(), a, owned, vendorId, answer, fault).0;
      RecoveryLeft(State(), a, owned, vendorId, answer, fault);
      EndedIs(w, recovers);
      r := ClaimAndStore(a, owned, vendorId, answer, fault);
      hide Cards.ResolveOutcome, Ended;
      if r.Err? && a < |attempts| && vendorId.Some? && recovers {
        attempts := attempts[a := attempts[a].(status := PENDING, vendorId := vendorId)];
      }
    }

    method ApplyApprovedTransaction(a: AttemptId, status: Status)
      requires a < |attempts| && attempts[a].payment < |payments|
      modifies `payments, `attempts
      ensures State() == old(Apply(State(), a, status))
    {
      var p := attempts[a].payment;
      if payments[p].status == VERIFIED {
        attempts := attempts[a := attempts[a].(status := status, appliedAt := Some(now))];
        return;
      }
      payments := payments[p := payments[p].(status := VERIFIED)];
      payments := payments[p := payments[p].(applies := payments[p].applies + 1)];
      attempts := attempts[a := attempts[a].(status := status, appliedAt := Some(now))];
    }

    /** A return page: phase one, and phase two unless the process stops in between. */
    method ConfirmTransaction(a: AttemptId, owned: bool, vendorId: Option<int>, answer: Answer, fault: Fault, recovers: bool, crash: bool)
      returns (r: Result<Status, Error>)
      requires Sound(State())
      modifies `payments, `attempts
      ensures
        var (w, outcome) := old(Cards.ResolveOutcome(State(), a, owned, vendorId, answer, fault));
        && r == outcome
        && State() == Ended(if outcome == Ok(APPROVED) && !crash then Next(w, Finish(a)) else w, recovers)
    {
      r := ResolveOutcome(a, owned, vendorId, answer, fault, recovers);
      if r == Ok(APPROVED) && !crash {
        ApplyApprovedTransaction(a, APPROVED);
      }
    }

    /** Sweep 1: attempts whose outcome was never learned. */
    method SettleStale(stale: seq<AttemptId>, answers: AttemptId -> Answer) returns (resolved: nat)
      requires forall i :: 0 <= i < |stale| ==> stale[i] < |attempts|
      modifies `attempts
      ensures (State(), resolved) == old(SettleAll(State(), stale, answers))
    {
      ghost var start := State();
      resolved := 0;
      for i := 0 to |stale|
        invariant SettleAll(start, stale[..i], answers) == (State(), resolved)
      {
        assert stale[..i + 1][..i] == stale[..i];
        CardsLedger.SettleAllFrame(start, stale[..i], answers);
        var attempt := attempts[stale[i]];
        if attempt.vendorId.None? {
          attempts := attempts[stale[i] := attempt.(status := EXPIRED, confirmedAt := Some(now))];
          resolved := resolved + 1;
        } else {
          var answer := answers(stale[i]);
          if answer.Body? {
            var approved := answer.approved && answer.cents == attempt.cents;
            attempts := attempts[stale[i] := attempt.(
              status := if approved then APPROVED else EXPIRED,
              vendorId := if answer.transactionId.Some? then answer.transactionId else attempt.vendorId,
              confirmedAt := Some(now))];
            resolved := resolved + 1;
          }
        }
      }
      assert stale[..|stale|] == stale;
    }

    /** Sweep 2: captured but never applied. */
    method ApplyUnapplied(unapplied: seq<AttemptId>, fails: set<AttemptId>) returns (applied: nat)
      requires Sound(State()) && forall i :: 0 <= i < |unapplied| ==> unapplied[i] < |attempts|
      modifies `payments, `attempts
      ensures (State(), applied) == old(ApplyAll(State(), unapplied, fails))
    {
      hide Apply;
      ghost var start := State();
      applied := 0;
      for i := 0 to |unapplied|
        invariant ApplyAll(start, unapplied[..i], fails) == (State(), applied)
      {
        assert unapplied[..i + 1][..i] == unapplied[..i];
        CardsLedger.ApplyAllFrame(start, unapplied[..i], fails);
        if unapplied[i] !in fails {
          ApplyApprovedTransaction(unapplied[i], attempts[unapplied[i]].status);
          applied := applied + 1;
        }
      }
      assert unapplied[..|unapplied|] == unapplied;
    }

    /** Both sweeps, over what their queries found, with the counts they report. */
    method ReconcileStaleTransactions(stale: seq<AttemptId>, answers: AttemptId -> Answer, unapplied: seq<AttemptId>, fails: set<AttemptId>)
      returns (resolved: nat, applied: nat)
      requires Sound(State())
      requires forall i :: 0 <= i < |stale| ==> stale[i] < |attempts|
      requires forall i :: 0 <= i < |unapplied| ==> unapplied[i] < |attempts|
      modifies `payments, `attempts
      ensures
        var (w, n) := old(SettleAll(State(), stale, answers));
        (State(), resolved, applied) == (ApplyAll(w, unapplied, fails).0, n, ApplyAll(w, unapplied, fails).1)
    {
      CardsLedger.SettleAllFrame(State(), stale, answers);
      resolved := SettleStale(stale, answers);
      applied := ApplyUnapplied(unapplied, fails);
    }
  }
}
