/** Card attempts and their payments column by column: what each step makes of them, when a session is
    opened, and what no run ever changes. */
module CardAttempts {
  import opened Options
  import opened Cards
  import opened CardsLedger

  // ---- Sessions -------------------------------------------------------------------------------

  /** The attempts on a payment whose outcome is open. */
  function PendingOf(attempts: seq<Attempt>, p: PaymentId): set<AttemptId> {
    set a: AttemptId | a < |attempts| && attempts[a].payment == p && attempts[a].status == PENDING
  }

  lemma {:induction false} PendingAreCounted(attempts: seq<Attempt>, p: PaymentId)
    ensures CountPending(attempts, p) == |PendingOf(attempts, p)|
  {
    if attempts != [] {
      var n := |attempts| - 1;
      PendingAreCounted(attempts[..n], p);
      if attempts[n].payment == p && attempts[n].status == PENDING {
        assert PendingOf(attempts, p) == PendingOf(attempts[..n], p) + {n};
      } else {
        assert PendingOf(attempts, p) == PendingOf(attempts[..n], p);
      }
    } else {
      assert PendingOf(attempts, p) == {};
    }
  }

  /** A session is opened exactly for a payment that is neither VERIFIED nor REFUNDED, of at least a
      dollar, with fewer than ten open attempts, and leaves one more: for the payment's whole total. */
  lemma SessionOutcome(w: World, p: PaymentId)
    ensures
      var r := CreateSession(w, p);
      && (r.Ok? <==>
            && p < |w.payments| && w.payments[p].status !in {VERIFIED, REFUNDED}
            && w.payments[p].totalCents >= 100 && |PendingOf(w.attempts, p)| < 10)
      && (r == Err(NotFound) <==> p >= |w.payments|)
      && (r == Err(AlreadySettled) <==> p < |w.payments| && w.payments[p].status in {VERIFIED, REFUNDED})
      && (r == Err(TooManyAttempts) ==> |PendingOf(w.attempts, p)| >= 10)
      && (r.Ok? ==> r.value == w.(attempts := w.attempts + [Attempt(p, w.payments[p].totalCents, PENDING, None, w.now, None, None)]))
  {
    hide CountPending;
    PendingAreCounted(w.attempts, p);
  }

  /** An attempt is stale from ten minutes after its session was opened, while it is open; it is
      unapplied while it is APPROVED and not stamped. */
  lemma SweepWindows(w: World, a: AttemptId)
    requires a < |w.attempts|
    ensures Stale(w, a) <==> w.attempts[a].status == PENDING && w.now >= w.attempts[a].createdAt + 10 * 60 * 1000
    ensures Unapplied(w, a) <==> w.attempts[a].status == APPROVED && w.attempts[a].appliedAt == None
  {
  }

  // ---- One attempt, one step ------------------------------------------------------------------

  /** An open attempt once Payphone has answered the return page. */
  function Confirmed(w: World, attempt: Attempt, answer: Answer): Attempt
    requires answer.Body? && attempt.payment < |w.payments|
  {
    var status :=
      if !answer.approved then CANCELLED
      else if answer.cents != attempt.cents then ERROR
      else if w.payments[attempt.payment].status == VERIFIED then DUPLICATE
      else APPROVED;
    Attempt(attempt.payment, attempt.cents, status, answer.transactionId, attempt.createdAt, Some(w.now), attempt.appliedAt)
  }

  /** A stale attempt that a sweep read with this id, once it has asked again. */
  function Asked(w: World, attempt: Attempt, vendorId: Option<int>, answer: Answer): Attempt {
    match (vendorId, answer)
    case (None, _) => attempt.(status := EXPIRED, confirmedAt := Some(w.now))
    case (Some(_), Unreachable) => attempt
    case (Some(id), Body(approved, cents, transactionId)) =>
      attempt.(
        status := if approved && cents == attempt.cents then APPROVED else EXPIRED,
        vendorId := if transactionId.Some? then transactionId else Some(id),
        confirmedAt := Some(w.now))
  }

  function AttemptAfter(w: World, step: Step, a: AttemptId): Attempt
    requires a < |w.attempts| && w.attempts[a].payment < |w.payments|
  {
    var attempt := w.attempts[a];
    match step
    case Confirm(o, owned, vendorId, answer, fault) =>
      if o != a || !owned || fault == BeforeCommit || attempt.status != PENDING then attempt
      else if answer.Unreachable? then attempt.(vendorId := vendorId)
      else Confirmed(w, attempt, answer)
    case WriteRecovery(i) =>
      if i < |w.recoveries| && w.recoveries[i].attempt == a
      then attempt.(status := PENDING, vendorId := Some(w.recoveries[i].vendorId))
      else attempt
    case SettleTaken(i, answer) =>
      if i < |w.copies| && w.copies[i].attempt == a then Asked(w, attempt, w.copies[i].vendorId, answer) else attempt
    case Finish(o) => if o == a then attempt.(status := APPROVED, appliedAt := Some(w.now)) else attempt
    case Sweep1(rows, answers) => if a in rows then Asked(w, attempt, attempt.vendorId, answers(a)) else attempt
    case Sweep2(rows, fails) => if a in rows && a !in fails then attempt.(appliedAt := Some(w.now)) else attempt
    case _ => attempt
  }

  lemma {:induction false} AppliedRow(w: World, rows: seq<AttemptId>, fails: set<AttemptId>, a: AttemptId)
    requires Sound(w) && a < |w.attempts|
    ensures
      var w' := ApplyAll(w, rows, fails).0;
      && |w'.attempts| == |w.attempts| && w'.now == w.now
      && w'.attempts[a] == if a in rows && a !in fails then w.attempts[a].(appliedAt := Some(w.now)) else w.attempts[a]
  {
    ApplyAllFrame(w, rows, fails);
    if rows != [] {
      var init := rows[..|rows| - 1];
      ApplyAllFrame(w, init, fails);
      AppliedRow(w, init, fails, a);
      assert a in rows <==> a in init || a == rows[|rows| - 1];
    }
  }

  lemma ConfirmDoes(w: World, o: AttemptId, owned: bool, vendorId: Option<int>, answer: Answer, fault: Fault, a: AttemptId)
    requires Sound(w) && a < |w.attempts|
    ensures
      var w' := ResolveOutcome(w, o, owned, vendorId, answer, fault).0;
      |w'.attempts| == |w.attempts| && w'.attempts[a] == AttemptAfter(w, Confirm(o, owned, vendorId, answer, fault), a)
  {
  }

  lemma FinishDoes(w: World, o: AttemptId, a: AttemptId)
    requires Sound(w) && a < |w.attempts|
    ensures
      var w' := Next(w, Finish(o));
      |w'.attempts| == |w.attempts| && w'.attempts[a] == AttemptAfter(w, Finish(o), a)
  {
  }

  lemma SettleDoes(w: World, o: AttemptId, vendorId: Option<int>, answer: Answer, a: AttemptId)
    requires Sound(w) && a < |w.attempts|
    ensures
      var w' := Settle(w, o, vendorId, answer);
      |w'.attempts| == |w.attempts| && w'.attempts[a] == if o == a then Asked(w, w.attempts[a], vendorId, answer) else w.attempts[a]
  {
  }

  /** Every step does exactly this to every attempt that is there; only a session adds one. */
  lemma StepAttempts(w: World, step: Step, a: AttemptId)
    requires Sound(w) && Enabled(w, step) && a < |w.attempts|
    ensures a < |Next(w, step).attempts| && Next(w, step).attempts[a] == AttemptAfter(w, step, a)
    ensures |Next(w, step).attempts| > |w.attempts| ==> step.Session?
  {
    hide CreateSession, ResolveOutcome, SettleAll, ApplyAll, Apply, Confirmed, Asked;
    match step {
      case Session(p) => SessionAdds(w, p);
      case Confirm(o, owned, vendorId, answer, fault) => ConfirmDoes(w, o, owned, vendorId, answer, fault, a);
      case Finish(o) => FinishDoes(w, o, a);
      case SettleTaken(i, answer) => SettleDoes(w, w.copies[i].attempt, w.copies[i].vendorId, answer, a);
      case Sweep1(rows, answers) =>
        SettleAllFrame(w, rows, answers);
        if a in rows {
          SettledRows(w, rows, answers, a);
          SettleDoes(w, a, w.attempts[a].vendorId, answers(a), a);
        }
      case Sweep2(rows, fails) =>
        ApplyAllFrame(w, rows, fails);
        AppliedRow(w, rows, fails, a);
      case _ =>
    }
  }

  lemma SessionAdds(w: World, p: PaymentId)
    ensures
      var r := CreateSession(w, p);
      r.Ok? ==> p < |w.payments| && r.value == w.(attempts := w.attempts + [Attempt(p, w.payments[p].totalCents, PENDING, None, w.now, None, None)])
  {
    SessionOutcome(w, p);
  }

  // ---- One payment, one step ------------------------------------------------------------------

  /** Granted unless it is VERIFIED already. */
  function Granted(payment: Payment): Payment {
    if payment.status == VERIFIED then payment else payment.(status := VERIFIED, applies := payment.applies + 1)
  }

  /** A sweep or phase two grants some attempt's payment. */
  predicate Grants(w: World, step: Step, p: PaymentId) {
    match step
    case Finish(a) => a < |w.attempts| && w.attempts[a].payment == p
    case Sweep2(rows, fails) => exists a :: a in rows && a !in fails && a < |w.attempts| && w.attempts[a].payment == p
    case _ => false
  }

  function CardPaymentAfter(w: World, step: Step, p: PaymentId): Payment
    requires p < |w.payments|
  {
    var payment := w.payments[p];
    match step
    case SubmitProof(q) => if q == p && payment.status != VERIFIED then payment.(status := REPORTED) else payment
    case Review(q, verified) =>
      if q != p then payment
      else if verified then payment.(status := VERIFIED, applies := payment.applies + 1)
      else payment.(status := REJECTED)
    case CancelPayment(q) =>
      if q == p && payment.status == PAYMENT_PENDING && !payment.renewal then payment.(status := PAYMENT_CANCELLED) else payment
    case Refund(q) =>
      if q == p && payment.status == VERIFIED then payment.(status := REFUNDED, refunds := payment.refunds + 1) else payment
    case _ => if Grants(w, step, p) then Granted(payment) else payment
  }

  lemma {:induction false} SweptPayment(w: World, rows: seq<AttemptId>, fails: set<AttemptId>, p: PaymentId)
    requires Sound(w) && p < |w.payments|
    ensures
      var w' := ApplyAll(w, rows, fails).0;
      |w'.payments| == |w.payments| && w'.payments[p] == if Grants(w, Sweep2(rows, fails), p) then Granted(w.payments[p]) else w.payments[p]
  {
    hide Grants;
    ApplyAllFrame(w, rows, fails);
    if rows == [] {
      NoneGranted(w, fails, p);
    } else {
      var init, last := rows[..|rows| - 1], rows[|rows| - 1];
      ApplyAllFrame(w, init, fails);
      SweptPayment(w, init, fails, p);
      GrantsMore(w, rows, fails, p);
    }
  }

  lemma NoneGranted(w: World, fails: set<AttemptId>, p: PaymentId)
    ensures !Grants(w, Sweep2([], fails), p)
  {
  }

  lemma GrantsMore(w: World, rows: seq<AttemptId>, fails: set<AttemptId>, p: PaymentId)
    requires rows != []
    ensures
      var last := rows[|rows| - 1];
      Grants(w, Sweep2(rows, fails), p) <==>
        Grants(w, Sweep2(rows[..|rows| - 1], fails), p) || (last !in fails && last < |w.attempts| && w.attempts[last].payment == p)
  {
    var init, last := rows[..|rows| - 1], rows[|rows| - 1];
    assert forall a: AttemptId :: a in rows <==> a in init || a == last;
    if Grants(w, Sweep2(init, fails), p) {
      var a :| a in init && a !in fails && a < |w.attempts| && w.attempts[a].payment == p;
      assert a in rows;
    }
    if last !in fails && last < |w.attempts| && w.attempts[last].payment == p {
      assert last in rows;
    }
  }

  /** Every step does exactly this to every payment that is there. */
  lemma StepPayments(w: World, step: Step, p: PaymentId)
    requires Sound(w) && Enabled(w, step) && p < |w.payments|
    ensures p < |Next(w, step).payments| && Next(w, step).payments[p] == CardPaymentAfter(w, step, p)
  {
    hide CreateSession;
    match step {
      case Session(q) => SessionAdds(w, q);
      case Sweep1(rows, answers) => SettleAllFrame(w, rows, answers);
      case Sweep2(rows, fails) => SweptPayment(w, rows, fails, p);
      case _ =>
    }
  }

  // ---- What no run changes --------------------------------------------------------------------

  /** What a payment is for. */
  function Terms(payment: Payment): (nat, nat, bool) {
    (payment.totalCents, payment.ivaCents, payment.renewal)
  }

  predicate SameTerms(w: World, w': World, p: PaymentId) {
    p < |w.payments| ==> p < |w'.payments| && Terms(w'.payments[p]) == Terms(w.payments[p])
  }

  /** Every attempt asks for its payment's whole total. */
  ghost predicate AsksTheTotal(w: World) {
    forall a :: 0 <= a < |w.attempts| ==> w.attempts[a].payment < |w.payments| && w.attempts[a].cents == w.payments[w.attempts[a].payment].totalCents
  }

  lemma StepKeepsTerms(w: World, step: Step)
    requires Enabled(w, step) && AsksTheTotal(w)
    ensures AsksTheTotal(Next(w, step)) && Sound(Next(w, step))
    ensures forall p :: SameTerms(w, Next(w, step), p)
  {
    hide Next, CreateSession;
    var w' := Next(w, step);
    forall p: PaymentId
      ensures SameTerms(w, w', p)
    {
      if p < |w.payments| {
        StepPayments(w, step, p);
      }
    }
    forall a | 0 <= a < |w'.attempts|
      ensures w'.attempts[a].payment < |w'.payments| && w'.attempts[a].cents == w'.payments[w'.attempts[a].payment].totalCents
    {
      if a < |w.attempts| {
        StepAttempts(w, step, a);
        KeepsCents(w, step, a);
        StepPayments(w, step, w.attempts[a].payment);
      } else {
        NewAttempt(w, step, a);
      }
    }
  }

  lemma KeepsCents(w: World, step: Step, a: AttemptId)
    requires a < |w.attempts| && w.attempts[a].payment < |w.payments|
    ensures AttemptAfter(w, step, a).cents == w.attempts[a].cents && AttemptAfter(w, step, a).payment == w.attempts[a].payment
    ensures AttemptAfter(w, step, a).createdAt == w.attempts[a].createdAt
  {
  }

  lemma NewAttempt(w: World, step: Step, a: AttemptId)
    requires Sound(w) && Enabled(w, step) && |w.attempts| <= a < |Next(w, step).attempts|
    ensures
      var w' := Next(w, step);
      && step.Session? && a == |w.attempts| && w'.payments == w.payments && step.p < |w.payments|
      && w'.attempts[a] == Attempt(step.p, w.payments[step.p].totalCents, PENDING, None, w.now, None, None)
  {
    hide CreateSession;
    match step {
      case Session(p) => SessionAdds(w, p);
      case Sweep1(rows, answers) => SettleAllFrame(w, rows, answers);
      case Sweep2(rows, fails) => ApplyAllFrame(w, rows, fails);
      case _ =>
    }
  }

  /** In every run each attempt asks for exactly its payment's total, and no payment's amounts ever
      change: what is captured is what was owed. */
  lemma {:induction false} ChargesAreOwed(w: World, steps: seq<Step>)
    requires Runs(w, steps) && AsksTheTotal(w)
    ensures AsksTheTotal(After(w, steps))
    ensures forall p :: SameTerms(w, After(w, steps), p)
    decreases |steps|
  {
    hide Next, Enabled, Terms, AsksTheTotal;
    if steps != [] {
      StepKeepsTerms(w, steps[0]);
      ChargesAreOwed(Next(w, steps[0]), steps[1..]);
      forall p
        ensures SameTerms(w, After(w, steps), p)
      {
        assert SameTerms(w, Next(w, steps[0]), p) && SameTerms(Next(w, steps[0]), After(w, steps), p);
      }
    }
  }

  // ---- What the sweeps report -----------------------------------------------------------------

  predicate Distinct(rows: seq<AttemptId>) {
    forall i, j :: 0 <= i < j < |rows| ==> rows[i] != rows[j]
  }

  lemma SplitRows(rows: seq<AttemptId>)
    requires Distinct(rows) && rows != []
    ensures
      var init, last := rows[..|rows| - 1], rows[|rows| - 1];
      && Distinct(init) && last !in init && last in rows
      && forall a: AttemptId :: a in rows <==> a in init || a == last
  {
  }

  function Settled1(w: World, rows: seq<AttemptId>, answers: AttemptId -> Answer): set<AttemptId> {
    set a | a in rows && a < |w.attempts| && (w.attempts[a].vendorId.None? || answers(a).Body?)
  }

  /** Sweep 1 reports the attempts it settled. */
  lemma {:induction false} Sweep1Reports(w: World, rows: seq<AttemptId>, answers: AttemptId -> Answer)
    requires Distinct(rows) && forall a: AttemptId :: a in rows ==> a < |w.attempts|
    ensures SettleAll(w, rows, answers).1 == |Settled1(w, rows, answers)|
  {
    hide Distinct;
    if rows == [] {
      assert Settled1(w, rows, answers) == {};
    } else {
      var init, last := rows[..|rows| - 1], rows[|rows| - 1];
      SplitRows(rows);
      Sweep1Reports(w, init, answers);
      SettleAllFrame(w, init, answers);
      var settles := w.attempts[last].vendorId.None? || answers(last).Body?;
      assert Settled1(w, rows, answers) == if settles then Settled1(w, init, answers) + {last} else Settled1(w, init, answers);
    }
  }

  /** Sweep 2 reports the attempts whose application did not fail. */
  lemma {:induction false} Sweep2Reports(w: World, rows: seq<AttemptId>, fails: set<AttemptId>)
    requires Sound(w) && Distinct(rows) && forall a: AttemptId :: a in rows ==> a < |w.attempts|
    ensures ApplyAll(w, rows, fails).1 == |(set a | a in rows) - fails|
  {
    hide Distinct, Apply;
    var all := set a | a in rows;
    if rows == [] {
      assert all - fails == {};
    } else {
      var init, last := rows[..|rows| - 1], rows[|rows| - 1];
      SplitRows(rows);
      Sweep2Reports(w, init, fails);
      ApplyAllFrame(w, init, fails);
      var before := set a | a in init;
      assert all - fails == if last in fails then before - fails else (before - fails) + {last};
    }
  }
}
