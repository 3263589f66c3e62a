/** What any mix of confirmations, replays, crashes between the phases, sweeps, reviews and refunds
    keeps of payments and card attempts. */
module CardsLedger {
  import opened Options
  import opened Cards

  // ---- Shape ----------------------------------------------------------------------------------

  lemma {:induction false} SettleAllFrame(w: World, rows: seq<AttemptId>, answers: AttemptId -> Answer)
    ensures
      var w' := SettleAll(w, rows, answers).0;
      && w'.payments == w.payments && w'.approvals == w.approvals && w'.copies == w.copies && w'.now == w.now && |w'.attempts| == |w.attempts|
      && (forall a :: 0 <= a < |w.attempts| ==> w'.attempts[a].payment == w.attempts[a].payment && w'.attempts[a].appliedAt == w.attempts[a].appliedAt)
      && forall a: AttemptId :: a < |w.attempts| && a !in rows ==> w'.attempts[a] == w.attempts[a]
  {
    if rows != [] {
      SettleAllFrame(w, rows[..|rows| - 1], answers);
    }
  }

  lemma {:induction false} ApplyAllFrame(w: World, rows: seq<AttemptId>, fails: set<AttemptId>)
    ensures
      var w' := ApplyAll(w, rows, fails).0;
      && |w'.payments| == |w.payments| && w'.approvals == w.approvals && w'.copies == w.copies && w'.now == w.now && |w'.attempts| == |w.attempts|
      && (forall a :: 0 <= a < |w.attempts| ==>
            w'.attempts[a].payment == w.attempts[a].payment && w'.attempts[a].status == w.attempts[a].status)
      && (forall a: AttemptId :: a < |w.attempts| && a !in rows ==> w'.attempts[a] == w.attempts[a])
      && forall p :: 0 <= p < |w.payments| ==> w'.payments[p] == w.payments[p] || w'.payments[p] == Applied(w.payments[p])
  {
    if rows != [] {
      ApplyAllFrame(w, rows[..|rows| - 1], fails);
    }
  }

  lemma StepFrame(w: World, step: Step)
    requires Sound(w)
    ensures Sound(Next(w, step)) && |w.payments| <= |Next(w, step).payments| && |w.attempts| <= |Next(w, step).attempts|
    ensures forall a :: 0 <= a < |w.attempts| ==> Next(w, step).attempts[a].payment == w.attempts[a].payment
  {
    hide CountPending, SettleAll, ApplyAll;
    match step {
      case Sweep1(rows, answers) => SettleAllFrame(w, rows, answers);
      case Sweep2(rows, fails) => ApplyAllFrame(w, rows, fails);
      case _ =>
    }
  }

  // ---- Applied at most once -------------------------------------------------------------------

  /** Applications and refunds alternate: one more application than refunds while VERIFIED. */
  predicate Balanced(p: Payment) {
    p.applies == p.refunds + if p.status == VERIFIED then 1 else 0
  }

  ghost predicate AllBalanced(w: World) {
    forall p :: 0 <= p < |w.payments| ==> Balanced(w.payments[p])
  }

  lemma {:induction false} ApplyAllBalanced(w: World, rows: seq<AttemptId>, fails: set<AttemptId>)
    requires AllBalanced(w)
    ensures AllBalanced(ApplyAll(w, rows, fails).0)
  {
    if rows != [] {
      ApplyAllBalanced(w, rows[..|rows| - 1], fails);
    }
  }

  /** A review of a payment that is VERIFIED already. */
  predicate ReviewsVerified(w: World, step: Step) {
    step.Review? && step.p < |w.payments| && w.payments[step.p].status == VERIFIED
  }

  /** Every step keeps the balance, except exactly a review of a VERIFIED payment. */
  lemma StepKeepsBalance(w: World, step: Step)
    requires AllBalanced(w)
    ensures AllBalanced(Next(w, step)) <==> !ReviewsVerified(w, step)
  {
    hide CountPending;
    match step {
      case Sweep1(rows, answers) => SettleAllFrame(w, rows, answers);
      case Sweep2(rows, fails) => ApplyAllBalanced(w, rows, fails);
      case Review(p, verified) =>
        if p < |w.payments| {
          assert Balanced(w.payments[p]);
          assert Next(w, step).payments[p] == Reviewed(w.payments[p], verified);
        }
      case _ =>
    }
  }

  /** Whatever is stamped as applied has its payment VERIFIED, or refunded since. */
  ghost predicate Credited(w: World) {
    forall a :: 0 <= a < |w.attempts| && w.attempts[a].appliedAt.Some? ==>
      w.attempts[a].payment < |w.payments|
      && (w.payments[w.attempts[a].payment].status == VERIFIED || w.payments[w.attempts[a].payment].refunds > 0)
  }

  lemma {:induction false} ApplyAllCredited(w: World, rows: seq<AttemptId>, fails: set<AttemptId>)
    requires Sound(w) && Credited(w)
    ensures Sound(ApplyAll(w, rows, fails).0) && Credited(ApplyAll(w, rows, fails).0)
  {
    if rows != [] {
      ApplyAllCredited(w, rows[..|rows| - 1], fails);
      ApplyAllFrame(w, rows[..|rows| - 1], fails);
    }
  }

  lemma StepKeepsCredited(w: World, step: Step)
    requires Sound(w) && Credited(w) && !ReviewsVerified(w, step)
    ensures Credited(Next(w, step))
  {
    hide CountPending;
    match step {
      case Sweep1(rows, answers) => SettleAllFrame(w, rows, answers);
      case Sweep2(rows, fails) => ApplyAllCredited(w, rows, fails);
      case _ =>
    }
  }

  predicate NeverReviewsVerified(w: World, steps: seq<Step>)
    decreases |steps|
  {
    steps == [] || (!ReviewsVerified(w, steps[0]) && NeverReviewsVerified(Next(w, steps[0]), steps[1..]))
  }

  /** Along every run whose reviews are of payments not VERIFIED yet, a payment is applied at most
      once more than it is refunded, whoever confirms, replays or sweeps, and however often. */
  lemma {:induction false} AppliedAtMostOnce(w: World, steps: seq<Step>)
    requires Sound(w) && AllBalanced(w) && Credited(w) && NeverReviewsVerified(w, steps)
    ensures Sound(After(w, steps)) && AllBalanced(After(w, steps)) && Credited(After(w, steps))
    decreases |steps|
  {
    hide Next, ReviewsVerified, AllBalanced, Credited, Sound;
    if steps != [] {
      StepFrame(w, steps[0]);
      StepKeepsBalance(w, steps[0]);
      StepKeepsCredited(w, steps[0]);
      AppliedAtMostOnce(Next(w, steps[0]), steps[1..]);
    }
  }

  // ---- Who can grant --------------------------------------------------------------------------

  lemma {:induction false} ApplyAllGrants(w: World, rows: seq<AttemptId>, fails: set<AttemptId>, p: PaymentId)
    requires p < |w.payments|
    ensures
      var w' := ApplyAll(w, rows, fails).0;
      |w'.payments| == |w.payments|
      && (w'.payments[p] != w.payments[p] ==>
            w.payments[p].status != VERIFIED && exists a :: a in rows && a < |w.attempts| && w.attempts[a].payment == p)
  {
    if rows != [] {
      var prefix := rows[..|rows| - 1];
      ApplyAllGrants(w, prefix, fails, p);
      ApplyAllFrame(w, prefix, fails);
      var w' := ApplyAll(w, rows, fails).0;
      var a := rows[|rows| - 1];
      if w'.payments[p] != w.payments[p] {
        if ApplyAll(w, prefix, fails).0.payments[p] != w.payments[p] {
          var b :| b in prefix && b < |w.attempts| && w.attempts[b].payment == p;
          assert b in rows;
        } else {
          assert a in rows && w.attempts[a].payment == p;
        }
      }
    }
  }

  /** Only an operator's review, or the second phase or a sweep of an attempt answered or read as
      APPROVED, ever applies a payment: a CANCELLED, ERROR, DUPLICATE, EXPIRED or PENDING attempt
      grants nothing. */
  lemma OnlyApprovedGrants(w: World, step: Step, p: PaymentId)
    requires Enabled(w, step) && p < |w.payments|
    ensures |w.payments| <= |Next(w, step).payments|
    ensures Next(w, step).payments[p].applies != w.payments[p].applies ==>
      || (step == Review(p, true))
      || (w.payments[p].status != VERIFIED
          && exists a :: 0 <= a < |w.attempts| && w.attempts[a].payment == p
                         && ((step == Finish(a) && a in w.approvals) || (step.Sweep2? && a in step.rows && w.attempts[a].status == APPROVED)))
    ensures forall a: AttemptId :: a in Next(w, step).approvals && a !in w.approvals ==>
      a < |Next(w, step).attempts| && Next(w, step).attempts[a].status == APPROVED
  {
    hide CountPending;
    match step {
      case Sweep1(rows, answers) => SettleAllFrame(w, rows, answers);
      case Sweep2(rows, fails) =>
        ApplyAllFrame(w, rows, fails);
        ApplyAllGrants(w, rows, fails, p);
        if Next(w, step).payments[p].applies != w.payments[p].applies {
          var a :| a in rows && a < |w.attempts| && w.attempts[a].payment == p;
          assert Unapplied(w, a);
        }
      case _ =>
    }
  }

  // ---- When an outcome is final ---------------------------------------------------------------

  /** A recovery write of this attempt. */
  predicate Recovers(w: World, step: Step, a: AttemptId) {
    step.WriteRecovery? && step.i < |w.recoveries| && w.recoveries[step.i].attempt == a
  }

  /** A sweep that read this attempt while it was PENDING settles it now, as something else. */
  predicate SettlesOtherwise(w: World, step: Step, a: AttemptId) {
    && step.SettleTaken? && step.i < |w.copies| && w.copies[step.i].attempt == a && a < |w.attempts|
    && Settles(w.copies[step.i].vendorId, step.answer)
    && SettledAs(w.attempts[a], w.copies[step.i].vendorId, step.answer) != w.attempts[a].status
  }

  /** A second phase under way writes APPROVED over what has been stored since. */
  predicate ApprovesOtherwise(w: World, step: Step, a: AttemptId) {
    step == Finish(a) && a < |w.attempts| && w.attempts[a].payment < |w.payments| && w.attempts[a].status != APPROVED
  }

  /** An outcome once stored stays, through every replay, sweep and application, except exactly
      through a write decided before: a recovery write of its attempt, which puts PENDING over it and
      keeps the stamp, a sweep's write from an older copy, or the stamp of an older approval. */
  lemma OutcomeIsFinal(w: World, step: Step, a: AttemptId)
    requires Enabled(w, step) && a < |w.attempts| && w.attempts[a].status != PENDING
    ensures a < |Next(w, step).attempts|
    ensures Next(w, step).attempts[a].status != w.attempts[a].status <==>
      Recovers(w, step, a) || SettlesOtherwise(w, step, a) || ApprovesOtherwise(w, step, a)
    ensures Recovers(w, step, a) ==> Next(w, step).attempts[a].status == PENDING && Next(w, step).attempts[a].appliedAt == w.attempts[a].appliedAt
  {
    hide CountPending;
    match step {
      case Sweep1(rows, answers) =>
        SettleAllFrame(w, rows, answers);
        assert !Stale(w, a);
      case Sweep2(rows, fails) => ApplyAllFrame(w, rows, fails);
      case _ =>
    }
  }

  /** A confirmation that claims this attempt and fails, with Payphone's id at hand. */
  predicate FailsAfterClaim(w: World, step: Step, a: AttemptId) {
    && step.Confirm? && step.a == a && a < |w.attempts| && step.vendorId.Some?
    && (!step.owned || !step.fault.NoFault? || (w.attempts[a].status == PENDING && step.answer.Unreachable?))
  }

  function Recoveries(rs: seq<Recovery>, a: AttemptId): nat {
    if rs == [] then 0
    else Recoveries(rs[..|rs| - 1], a) + if rs[|rs| - 1].attempt == a then 1 else 0
  }

  lemma RecoveriesPlus(rs: seq<Recovery>, r: Recovery, a: AttemptId)
    ensures Recoveries(rs + [r], a) == Recoveries(rs, a) + if r.attempt == a then 1 else 0
  {
    assert (rs + [r])[..|rs|] == rs;
  }

  lemma {:induction false} RecoveriesWithout(rs: seq<Recovery>, i: nat, a: AttemptId)
    requires i < |rs|
    ensures Recoveries(rs[..i] + rs[i + 1..], a) == Recoveries(rs, a) - if rs[i].attempt == a then 1 else 0
  {
    var init, last := rs[..|rs| - 1], rs[|rs| - 1];
    if i == |rs| - 1 {
      assert rs[..i] + rs[i + 1..] == init;
    } else {
      RecoveriesWithout(init, i, a);
      assert rs[..i] + rs[i + 1..] == (init[..i] + init[i + 1..]) + [last];
      RecoveriesPlus(init[..i] + init[i + 1..], last, a);
    }
  }

  lemma {:induction false} NoneOf(rs: seq<Recovery>, a: AttemptId, i: nat)
    requires Recoveries(rs, a) == 0 && i < |rs|
    ensures rs[i].attempt != a
  {
    if i < |rs| - 1 {
      NoneOf(rs[..|rs| - 1], a, i);
    }
  }

  /** A recovery write of an attempt becomes due exactly when a confirmation fails after claiming it:
      on ownership, at Payphone, or by itself, before or after its commit, whatever the attempt
      holds. */
  lemma RecoveriesAreDue(w: World, step: Step, a: AttemptId)
    requires Enabled(w, step)
    ensures Recoveries(Next(w, step).recoveries, a) > Recoveries(w.recoveries, a) <==> FailsAfterClaim(w, step, a)
  {
    hide CountPending, Recoveries;
    match step {
      case Confirm(o, _, vendorId, _, _) =>
        if vendorId.Some? {
          RecoveriesPlus(w.recoveries, Recovery(o, vendorId.value), a);
        }
      case WriteRecovery(i) => RecoveriesWithout(w.recoveries, i, a);
      case LoseRecovery(i) => RecoveriesWithout(w.recoveries, i, a);
      case Sweep1(rows, answers) => SweepsKeepRecoveries(w, rows, answers, {});
      case Sweep2(rows, fails) => SweepsKeepRecoveries(w, rows, _ => Unreachable, fails);
      case _ =>
    }
  }

  lemma {:induction false} SweepsKeepRecoveries(w: World, rows: seq<AttemptId>, answers: AttemptId -> Answer, fails: set<AttemptId>)
    ensures SettleAll(w, rows, answers).0.recoveries == w.recoveries && ApplyAll(w, rows, fails).0.recoveries == w.recoveries
  {
    if rows != [] {
      SweepsKeepRecoveries(w, rows[..|rows| - 1], answers, fails);
    }
  }

  predicate FailsAfterClaimInRun(w: World, steps: seq<Step>, a: AttemptId)
    decreases |steps|
  {
    steps != [] && (FailsAfterClaim(w, steps[0], a) || FailsAfterClaimInRun(Next(w, steps[0]), steps[1..], a))
  }

  /** Nothing decided before is still to be written over this attempt. */
  predicate Settled(w: World, a: AttemptId) {
    && a < |w.attempts| && w.attempts[a].status != PENDING
    && Recoveries(w.recoveries, a) == 0
    && (forall i :: 0 <= i < |w.copies| ==> w.copies[i].attempt != a)
    && (a in w.approvals ==> w.attempts[a].status == APPROVED)
  }

  lemma StepKeepsSettled(w: World, step: Step, a: AttemptId)
    requires Enabled(w, step) && Settled(w, a) && !FailsAfterClaim(w, step, a)
    ensures Settled(Next(w, step), a) && Next(w, step).attempts[a].status == w.attempts[a].status
  {
    hide CountPending, Recoveries;
    RecoveriesAreDue(w, step, a);
    OutcomeIsFinal(w, step, a);
    match step {
      case WriteRecovery(i) => NoneOf(w.recoveries, a, i);
      case Sweep1(rows, answers) => SettleAllFrame(w, rows, answers);
      case Sweep2(rows, fails) => ApplyAllFrame(w, rows, fails);
      case _ =>
    }
  }

  /** So over every run in which no confirmation fails after claiming an attempt that is settled, its
      stored outcome stays, however often it is replayed and swept. */
  lemma {:induction false} OutcomesStayInRuns(w: World, steps: seq<Step>, a: AttemptId)
    requires Runs(w, steps) && Settled(w, a) && !FailsAfterClaimInRun(w, steps, a)
    ensures Settled(After(w, steps), a) && After(w, steps).attempts[a].status == w.attempts[a].status
    decreases |steps|
  {
    hide Next, Enabled, FailsAfterClaim, Settled;
    if steps != [] {
      StepKeepsSettled(w, steps[0], a);
      OutcomesStayInRuns(Next(w, steps[0]), steps[1..], a);
    }
  }

  /** And after any confirmation that failed so, the write takes back whatever outcome is stored,
      even of an owned replay of an applied attempt. */
  lemma AFailedReplayTakesTheOutcomeBack(w: World, step: Step, a: AttemptId)
    requires FailsAfterClaim(w, step, a) && w.attempts[a].status != PENDING
    ensures
      var failed := Next(w, step);
      var due := WriteRecovery(|w.recoveries|);
      && Enabled(failed, due) && a < |failed.attempts| && failed.attempts[a].status == w.attempts[a].status
      && a < |Next(failed, due).attempts| && Next(failed, due).attempts[a].status == PENDING
      && Next(failed, due).attempts[a].appliedAt == w.attempts[a].appliedAt
  {
  }

  /** When phase one stores an outcome: what it is, exactly. */
  lemma OutcomeExactly(w: World, a: AttemptId, vendorId: Option<int>, answer: Answer)
    requires a < |w.attempts| && w.attempts[a].status == PENDING && w.attempts[a].payment < |w.payments| && answer.Body?
    ensures
      var attempt := w.attempts[a];
      var paid := w.payments[attempt.payment].status == VERIFIED;
      var (w', r) := ResolveOutcome(w, a, true, vendorId, answer, NoFault);
      && a < |w'.attempts| && r == Ok(w'.attempts[a].status)
      && (r.value == CANCELLED <==> !answer.approved)
      && (r.value == ERROR <==> answer.approved && answer.cents != attempt.cents)
      && (r.value == DUPLICATE <==> answer.approved && answer.cents == attempt.cents && paid)
      && (r.value == APPROVED <==> answer.approved && answer.cents == attempt.cents && !paid)
      && w'.payments == w.payments
  {
  }

  // ---- The sweeps -----------------------------------------------------------------------------

  lemma {:induction false} SettledRows(w: World, rows: seq<AttemptId>, answers: AttemptId -> Answer, a: AttemptId)
    requires forall i, j :: 0 <= i < j < |rows| ==> rows[i] != rows[j]
    requires a in rows && a < |w.attempts|
    ensures |SettleAll(w, rows, answers).0.attempts| == |w.attempts|
    ensures SettleAll(w, rows, answers).0.attempts[a] == Settle(w, a, w.attempts[a].vendorId, answers(a)).attempts[a]
  {
    var prefix := rows[..|rows| - 1];
    SettleAllFrame(w, prefix, answers);
    SettleAllFrame(w, rows, answers);
    if a != rows[|rows| - 1] {
      assert a in prefix;
      SettledRows(w, prefix, answers, a);
    } else {
      assert a !in prefix;
    }
  }

  /** After sweep 1 a stale attempt is PENDING exactly when Payphone had told its id and could not
      be reached; the others are APPROVED or EXPIRED, and without an id always EXPIRED. */
  lemma Sweep1Resolves(w: World, rows: seq<AttemptId>, answers: AttemptId -> Answer, a: AttemptId)
    requires Enabled(w, Sweep1(rows, answers)) && Stale(w, a)
    ensures
      var w' := Next(w, Sweep1(rows, answers));
      && a < |w'.attempts|
      && (w'.attempts[a].status == PENDING <==> w.attempts[a].vendorId.Some? && answers(a).Unreachable?)
      && (w'.attempts[a].status == APPROVED <==>
            w.attempts[a].vendorId.Some? && answers(a).Body? && answers(a).approved && answers(a).cents == w.attempts[a].cents)
      && w'.attempts[a].status in {PENDING, APPROVED, EXPIRED}
  {
    SettleAllFrame(w, rows, answers);
    SettledRows(w, rows, answers, a);
  }

  lemma {:induction false} AppliedRows(w: World, rows: seq<AttemptId>, a: AttemptId)
    requires Sound(w) && a in rows && forall b :: b in rows ==> b < |w.attempts|
    ensures
      var w' := ApplyAll(w, rows, {}).0;
      a < |w'.attempts| && w'.attempts[a].appliedAt.Some? && w.attempts[a].payment < |w'.payments| && w'.payments[w.attempts[a].payment].status == VERIFIED
  {
    var prefix := rows[..|rows| - 1];
    ApplyAllFrame(w, prefix, {});
    if a in prefix {
      assert forall b :: b in prefix ==> b in rows;
      AppliedRows(w, prefix, a);
    } else {
      assert a == rows[|rows| - 1];
    }
  }

  lemma {:induction false} StampsStay(w: World, rows: seq<AttemptId>, fails: set<AttemptId>, a: AttemptId)
    requires a < |w.attempts| && w.attempts[a].appliedAt.Some?
    ensures |ApplyAll(w, rows, fails).0.attempts| == |w.attempts|
    ensures ApplyAll(w, rows, fails).0.attempts[a].appliedAt.Some?
  {
    ApplyAllFrame(w, rows, fails);
    if rows != [] {
      ApplyAllFrame(w, rows[..|rows| - 1], fails);
      StampsStay(w, rows[..|rows| - 1], fails, a);
    }
  }

  /** A completed reconciliation leaves every APPROVED attempt stamped, and its payment VERIFIED
      unless it was refunded. */
  lemma ReconciliationCompletes(w: World, first: seq<AttemptId>, answers: AttemptId -> Answer, second: seq<AttemptId>, a: AttemptId)
    requires Sound(w) && Credited(w) && Enabled(w, Sweep1(first, answers))
    requires Enabled(Next(w, Sweep1(first, answers)), Sweep2(second, {}))
    ensures
      var w' := Next(Next(w, Sweep1(first, answers)), Sweep2(second, {}));
      a < |w'.attempts| && w'.attempts[a].status == APPROVED ==>
        && w'.attempts[a].appliedAt.Some? && w'.attempts[a].payment < |w'.payments|
        && (w'.payments[w'.attempts[a].payment].status == VERIFIED || w'.payments[w'.attempts[a].payment].refunds > 0)
  {
    var w1 := Next(w, Sweep1(first, answers));
    var w' := Next(w1, Sweep2(second, {}));
    StepFrame(w, Sweep1(first, answers));
    StepKeepsCredited(w, Sweep1(first, answers));
    StepKeepsCredited(w1, Sweep2(second, {}));
    ApplyAllFrame(w1, second, {});
    if a < |w'.attempts| && w'.attempts[a].status == APPROVED {
      if Unapplied(w1, a) {
        assert forall b :: b in second ==> Unapplied(w1, b);
        AppliedRows(w1, second, a);
      } else {
        StampsStay(w1, second, {}, a);
      }
    }
  }

  // ---- What the code does not prevent ---------------------------------------------------------

  const NOTHING: World := World([], [], [], [], {}, 0)

  const PAID: Answer := Body(true, 11500, None)

  const DUE: Payment := Payment(PAYMENT_PENDING, 11500, 1500, false, 0, 0)

  function Charge(status: Status, vendorId: Option<int>, confirmedAt: Option<int>, appliedAt: Option<int>): Attempt {
    Attempt(0, 11500, status, vendorId, 0, confirmedAt, appliedAt)
  }

  const FRESH: Attempt := Charge(PENDING, None, None, None)
  const CAPTURED: Attempt := Charge(APPROVED, None, Some(0), None)
  const STAMPED: Attempt := Charge(APPROVED, None, Some(0), Some(0))

  /** Runs to show: two sessions of one payment confirmed before either is applied; a replay after a
      refund; a replay of an applied attempt whose look-up throws; a sweep that reads an attempt just
      before its return page arrives. */
  datatype Script = TwoTabs | RefundAndReplay | FailedReplay | LateSweep

  function Steps(script: Script): seq<Step> {
    match script
    case TwoTabs =>
      [OpenPayment(11500, 1500, false), Session(0), Session(0), Confirm(0, true, Some(7), PAID, NoFault), Confirm(1, true, Some(8), PAID, NoFault), Finish(0), Finish(1)]
    case RefundAndReplay =>
      [OpenPayment(11500, 1500, false), Session(0), Confirm(0, true, Some(7), PAID, NoFault), Finish(0), Refund(0), Confirm(0, true, Some(7), Unreachable, NoFault), Finish(0)]
    case FailedReplay =>
      [OpenPayment(11500, 1500, false), Session(0), Confirm(0, true, Some(7), PAID, NoFault), Finish(0), Confirm(0, true, Some(7), Unreachable, BeforeCommit), WriteRecovery(0)]
    case LateSweep =>
      [OpenPayment(11500, 1500, false), Session(0), Wait(STALE_PENDING_MS), TakeStale(0), Confirm(0, true, Some(7), PAID, NoFault), SettleTaken(0, Unreachable)]
  }

  function At(script: Script, k: nat): World {
    if k == 0 then NOTHING
    else if k == 1 then World([DUE], [], [], [], {}, 0)
    else if k == 2 then World([DUE], [FRESH], [], [], {}, 0)
    else
      match script
      case TwoTabs =>
        if k == 3 then World([DUE], [FRESH, FRESH], [], [], {}, 0)
        else if k == 4 then World([DUE], [CAPTURED, FRESH], [], [], {0}, 0)
        else if k == 5 then World([DUE], [CAPTURED, CAPTURED], [], [], {0, 1}, 0)
        else if k == 6 then World([Applied(DUE)], [STAMPED, CAPTURED], [], [], {0, 1}, 0)
        else World([Applied(DUE)], [STAMPED, STAMPED], [], [], {0, 1}, 0)
      case RefundAndReplay =>
        if k == 3 then World([DUE], [CAPTURED], [], [], {0}, 0)
        else if k == 4 then World([Applied(DUE)], [STAMPED], [], [], {0}, 0)
        else if k <= 6 then World([Refunded(Applied(DUE))], [STAMPED], [], [], {0}, 0)
        else World([Applied(Refunded(Applied(DUE)))], [STAMPED], [], [], {0}, 0)
      case FailedReplay =>
        if k == 3 then World([DUE], [CAPTURED], [], [], {0}, 0)
        else if k == 4 then World([Applied(DUE)], [STAMPED], [], [], {0}, 0)
        else if k == 5 then World([Applied(DUE)], [STAMPED], [Recovery(0, 7)], [], {0}, 0)
        else World([Applied(DUE)], [Charge(PENDING, Some(7), Some(0), Some(0))], [], [], {0}, 0)
      case LateSweep =>
        var late := STALE_PENDING_MS;
        if k == 3 then World([DUE], [FRESH], [], [], {}, late)
        else if k == 4 then World([DUE], [FRESH], [], [Copy(0, None)], {}, late)
        else if k == 5 then World([DUE], [Charge(APPROVED, None, Some(late), None)], [], [Copy(0, None)], {0}, late)
        else World([DUE], [Charge(EXPIRED, None, Some(late), None)], [], [], {0}, late)
  }

  lemma PendingOnes()
    ensures CountPending([], 0) == 0 && CountPending([FRESH], 0) == 1
  {
    assert [FRESH][..0] == [];
  }

  lemma Sessions()
    ensures CreateSession(At(TwoTabs, 1), 0) == Ok(At(TwoTabs, 2)) && CreateSession(At(TwoTabs, 2), 0) == Ok(At(TwoTabs, 3))
  {
    PendingOnes();
    hide CountPending;
    assert [] + [FRESH] == [FRESH];
    assert [FRESH] + [FRESH] == [FRESH, FRESH];
  }

  lemma FirstTwo(script: Script, k: nat)
    requires k < 2
    ensures |Steps(script)| > 2
    ensures Enabled(At(script, k), Steps(script)[k]) && Next(At(script, k), Steps(script)[k]) == At(script, k + 1)
  {
    hide CreateSession, SettleAll, ApplyAll;
    Sessions();
  }

  lemma TwoTabsAt(k: nat)
    requires 2 <= k < |Steps(TwoTabs)|
    ensures Enabled(At(TwoTabs, k), Steps(TwoTabs)[k]) && Next(At(TwoTabs, k), Steps(TwoTabs)[k]) == At(TwoTabs, k + 1)
  {
    hide CountPending, SettleAll, ApplyAll, CreateSession;
    Sessions();
  }

  lemma RefundAndReplayAt(k: nat)
    requires 2 <= k < |Steps(RefundAndReplay)|
    ensures Enabled(At(RefundAndReplay, k), Steps(RefundAndReplay)[k]) && Next(At(RefundAndReplay, k), Steps(RefundAndReplay)[k]) == At(RefundAndReplay, k + 1)
  {
    hide CountPending, SettleAll, ApplyAll, CreateSession;
  }

  lemma FailedReplayAt(k: nat)
    requires 2 <= k < |Steps(FailedReplay)|
    ensures Enabled(At(FailedReplay, k), Steps(FailedReplay)[k]) && Next(At(FailedReplay, k), Steps(FailedReplay)[k]) == At(FailedReplay, k + 1)
  {
    hide CountPending, SettleAll, ApplyAll, CreateSession;
  }

  lemma LateSweepAt(k: nat)
    requires 2 <= k < |Steps(LateSweep)|
    ensures Enabled(At(LateSweep, k), Steps(LateSweep)[k]) && Next(At(LateSweep, k), Steps(LateSweep)[k]) == At(LateSweep, k + 1)
  {
    hide CountPending, SettleAll, ApplyAll, CreateSession;
  }

  lemma StepsAt(script: Script, k: nat)
    requires k < |Steps(script)|
    ensures Enabled(At(script, k), Steps(script)[k]) && Next(At(script, k), Steps(script)[k]) == At(script, k + 1)
  {
    hide Next, Enabled, At, Steps;
    if k < 2 {
      FirstTwo(script, k);
    } else {
      match script {
        case TwoTabs => TwoTabsAt(k);
        case RefundAndReplay => RefundAndReplayAt(k);
        case FailedReplay => FailedReplayAt(k);
        case LateSweep => LateSweepAt(k);
      }
    }
  }

  lemma {:induction false} ScriptRuns(script: Script, k: nat)
    requires k <= |Steps(script)|
    ensures Runs(At(script, k), Steps(script)[k..]) && After(At(script, k), Steps(script)[k..]) == At(script, |Steps(script)|)
    decreases |Steps(script)| - k
  {
    hide Next, Enabled, At, Steps;
    var rest := Steps(script)[k..];
    if k < |Steps(script)| {
      StepsAt(script, k);
      ScriptRuns(script, k + 1);
      assert rest[1..] == Steps(script)[k + 1..];
    }
  }

  lemma {:induction false} ScriptEnds(script: Script)
    ensures Runs(NOTHING, Steps(script)) && After(NOTHING, Steps(script)) == At(script, |Steps(script)|)
  {
    hide Steps, Runs, After;
    ScriptRuns(script, 0);
    assert Steps(script)[0..] == Steps(script);
  }

  /** Both charges are captured and stamped and the payment is applied once, but neither attempt is
      flagged DUPLICATE: that is flagged exactly when the payment is VERIFIED already (see
      OutcomeExactly). */
  lemma TwoTabsGoUnflagged()
    ensures Runs(NOTHING, Steps(TwoTabs))
    ensures
      var w := After(NOTHING, Steps(TwoTabs));
      && |w.attempts| == 2 && |w.payments| == 1 && w.payments[0].applies == 1
      && (forall a :: 0 <= a < 2 ==> w.attempts[a].status == APPROVED && w.attempts[a].appliedAt.Some? && w.attempts[a].payment == 0)
  {
    hide Runs, After;
    ScriptEnds(TwoTabs);
  }

  /** Replaying after a refund applies the payment again (see SecondPhaseGrantsExactly). */
  lemma AReplayAppliesAfterARefund()
    ensures Runs(NOTHING, Steps(RefundAndReplay))
    ensures
      var w := After(NOTHING, Steps(RefundAndReplay));
      |w.payments| == 1 && w.payments[0].applies == 2 && w.payments[0].refunds == 1 && w.payments[0].status == VERIFIED
  {
    hide Runs, After;
    ScriptEnds(RefundAndReplay);
  }

  /** The owner's replay of an APPROVED, applied attempt ends with the attempt PENDING again when
      the replay's look-up throws. */
  lemma AFailedReplayUndoesApproval()
    ensures Runs(NOTHING, Steps(FailedReplay))
    ensures
      var w := After(NOTHING, Steps(FailedReplay));
      |w.attempts| == 1 && w.attempts[0].status == PENDING && w.attempts[0].appliedAt.Some? && |w.payments| == 1 && w.payments[0].status == VERIFIED
  {
    hide Runs, After;
    ScriptEnds(FailedReplay);
  }

  /** A sweep that read a PENDING attempt before its return page arrived expires it afterwards. If
      the confirmation's second phase never runs, the captured charge stays unapplied: neither sweep
      looks at an EXPIRED attempt. */
  lemma ALateSweepExpiresACharge()
    ensures Runs(NOTHING, Steps(LateSweep))
    ensures
      var w := After(NOTHING, Steps(LateSweep));
      && At(LateSweep, 5).attempts == [Charge(APPROVED, None, Some(w.now), None)]
      && |w.attempts| == 1 && w.attempts[0].status == EXPIRED && w.attempts[0].appliedAt.None?
      && |w.payments| == 1 && w.payments[0].status == PAYMENT_PENDING && !Stale(w, 0) && !Unapplied(w, 0)
  {
    hide Runs, After;
    ScriptEnds(LateSweep);
  }

  /** The second phase grants exactly when the payment is not VERIFIED, and stamps always. */
  lemma SecondPhaseGrantsExactly(w: World, a: AttemptId, status: Status)
    requires a < |w.attempts| && w.attempts[a].payment < |w.payments|
    ensures
      var p := w.attempts[a].payment;
      var w' := Apply(w, a, status);
      && p < |w'.payments| && a < |w'.attempts| && w'.attempts[a].appliedAt == Some(w.now) && w'.payments[p].status == VERIFIED
      && (w'.payments[p].applies == w.payments[p].applies + 1 <==> w.payments[p].status != VERIFIED)
      && (w'.payments[p].applies == w.payments[p].applies <==> w.payments[p].status == VERIFIED)
  {
  }
}
