/** Card payments through Payphone: attempts on a payment, confirmed in two phases with a crash
    possible in between, and swept up by two reconciliation passes. */
module Cards {
  import opened Options

  type PaymentId = nat
  type AttemptId = nat

  datatype PaymentStatus = PAYMENT_PENDING | REPORTED | VERIFIED | REJECTED | PAYMENT_CANCELLED | REFUNDED

  /** A payment, and how often it has been applied to its subscription and refunded. */
  datatype Payment = Payment(status: PaymentStatus, totalCents: nat, ivaCents: nat, renewal: bool, applies: nat, refunds: nat)

  datatype Status = PENDING | APPROVED | CANCELLED | EXPIRED | DUPLICATE | ERROR

  datatype Attempt = Attempt(
    payment: PaymentId,
    cents: int,
    status: Status,
    vendorId: Option<int>,
    createdAt: int,
    confirmedAt: Option<int>,
    appliedAt: Option<int>)

  /** A recovery write still to come: a confirmation failed after it had claimed its attempt. */
  datatype Recovery = Recovery(attempt: AttemptId, vendorId: int)

  /** An attempt as a running sweep 1 read it, not settled yet. */
  datatype Copy = Copy(attempt: AttemptId, vendorId: Option<int>)

  /** The tables, what is still to be written by whoever is under way, and the clock. `approvals` are
      the attempts that a confirmation or sweep 2 has in hand as APPROVED, for phase two. */
  datatype World = World(
    payments: seq<Payment>,
    attempts: seq<Attempt>,
    recoveries: seq<Recovery>,
    copies: seq<Copy>,
    approvals: set<AttemptId>,
    now: int)

  /** What asking Payphone yields: no answer, or a body. */
  datatype Answer = Unreachable | Body(approved: bool, cents: int, transactionId: Option<int>)

  /** Where a claimed confirmation fails by itself: nowhere, before its transaction commits (a look-up,
      a write or the commit throws), or after. */
  datatype Fault = NoFault | BeforeCommit | AfterCommit

  const MIN_CHARGE_CENTS := 100
  const MAX_PENDING_ATTEMPTS_PER_PAYMENT := 10
  const STALE_PENDING_MS := 600_000

  ghost predicate Sound(w: World) {
    forall a :: 0 <= a < |w.attempts| ==> w.attempts[a].payment < |w.payments|
  }

  function PutAttempt(w: World, a: AttemptId, attempt: Attempt): World {
    if a < |w.attempts| then w.(attempts := w.attempts[a := attempt]) else w
  }

  function PutPayment(w: World, p: PaymentId, payment: Payment): World {
    if p < |w.payments| then w.(payments := w.payments[p := payment]) else w
  }

  // ---- Sessions -------------------------------------------------------------------------------

  datatype Error = NotFound | AlreadySettled | BelowMinimum | TooManyAttempts | NotFoundForTenant | ConfirmFailed | NotAllowed

  function CountPending(attempts: seq<Attempt>, p: PaymentId): nat {
    if attempts == [] then 0
    else
      var last := attempts[|attempts| - 1];
      CountPending(attempts[..|attempts| - 1], p) + if last.payment == p && last.status == PENDING then 1 else 0
  }

  function CreateSession(w: World, p: PaymentId): Result<World, Error> {
    if p >= |w.payments| then Err(NotFound)
    else if w.payments[p].status == VERIFIED || w.payments[p].status == REFUNDED then Err(AlreadySettled)
    else if w.payments[p].totalCents < MIN_CHARGE_CENTS then Err(BelowMinimum)
    else if CountPending(w.attempts, p) >= MAX_PENDING_ATTEMPTS_PER_PAYMENT then Err(TooManyAttempts)
    else Ok(w.(attempts := w.attempts + [Attempt(p, w.payments[p].totalCents, PENDING, None, w.now, None, None)]))
  }

  // ---- Phase one ------------------------------------------------------------------------------

  /** The status a body leads to when a payer's return page confirms. */
  function Outcome(w: World, attempt: Attempt, approved: bool, cents: int): Status {
    if !approved then CANCELLED
    else if cents != attempt.cents then ERROR
    else if attempt.payment < |w.payments| && w.payments[attempt.payment].status == VERIFIED then DUPLICATE
    else APPROVED
  }

  /** Whatever fails once the attempt is claimed leaves a recovery write behind, if the return page
      gave Payphone's id. */
  function LeaveRecovery(w: World, a: AttemptId, vendorId: Option<int>): World {
    if vendorId.None? then w else w.(recoveries := w.recoveries + [Recovery(a, vendorId.value)])
  }

  /** What is answered APPROVED goes on to phase two. */
  function Answered(w: World, a: AttemptId, status: Status): (World, Result<Status, Error>) {
    (if status == APPROVED then w.(approvals := w.approvals + {a}) else w, Ok(status))
  }

  /** Claim, ask Payphone, store, commit. The result is the stored outcome, or why there is none. */
  function ResolveOutcome(w: World, a: AttemptId, owned: bool, vendorId: Option<int>, answer: Answer, fault: Fault): (World, Result<Status, Error>) {
    if a >= |w.attempts| then (w, Err(NotFound))
    else
      var attempt := w.attempts[a];
      if !owned then (LeaveRecovery(w, a, vendorId), Err(NotFoundForTenant))
      else if fault.BeforeCommit? then (LeaveRecovery(w, a, vendorId), Err(ConfirmFailed))
      else if attempt.status != PENDING then
        if fault.AfterCommit? then (LeaveRecovery(w, a, vendorId), Err(ConfirmFailed)) else Answered(w, a, attempt.status)
      else
        match answer
        case Unreachable => (LeaveRecovery(PutAttempt(w, a, attempt.(vendorId := vendorId)), a, vendorId), Err(ConfirmFailed))
        case Body(approved, cents, transactionId) =>
          var status := Outcome(w, attempt, approved, cents);
          var w1 := PutAttempt(w, a, attempt.(status := status, vendorId := transactionId, confirmedAt := Some(w.now)));
          if fault.AfterCommit? then (LeaveRecovery(w1, a, vendorId), Err(ConfirmFailed)) else Answered(w1, a, status)
  }

  function WithoutRecovery(w: World, i: nat): World
    requires i < |w.recoveries|
  {
    w.(recoveries := w.recoveries[..i] + w.recoveries[i + 1..])
  }

  /** The recovery write: PENDING and Payphone's id, whatever the attempt holds by then. */
  function Recover(w: World, i: nat): World
    requires i < |w.recoveries|
  {
    var r := w.recoveries[i];
    var w1 := WithoutRecovery(w, i);
    if r.attempt < |w.attempts| then PutAttempt(w1, r.attempt, w.attempts[r.attempt].(status := PENDING, vendorId := Some(r.vendorId))) else w1
  }

  // ---- Phase two ------------------------------------------------------------------------------

  /** A payment becomes VERIFIED and is applied to its subscription. */
  function Applied(payment: Payment): Payment {
    payment.(status := VERIFIED, applies := payment.applies + 1)
  }

  /** The stamp is written together with the status the caller has in hand. */
  function Stamp(w: World, a: AttemptId, status: Status): World
    requires a < |w.attempts|
  {
    PutAttempt(w, a, w.attempts[a].(status := status, appliedAt := Some(w.now)))
  }

  /** Applies an approved attempt's payment, unless it is VERIFIED already, and stamps the attempt. */
  function Apply(w: World, a: AttemptId, status: Status): World
    requires a < |w.attempts| && w.attempts[a].payment < |w.payments|
  {
    var p := w.attempts[a].payment;
    if w.payments[p].status == VERIFIED then Stamp(w, a, status)
    else Stamp(PutPayment(w, p, Applied(w.payments[p])), a, status)
  }

  // ---- The sweeps -----------------------------------------------------------------------------

  predicate Stale(w: World, a: AttemptId) {
    a < |w.attempts| && w.attempts[a].status == PENDING && w.attempts[a].createdAt <= w.now - STALE_PENDING_MS
  }

  predicate Unapplied(w: World, a: AttemptId) {
    a < |w.attempts| && w.attempts[a].status == APPROVED && w.attempts[a].appliedAt.None?
  }

  /** Whether asking again settles an attempt read with this id, and as what: expired when Payphone
      never told us its id. */
  predicate Settles(vendorId: Option<int>, answer: Answer) {
    vendorId.None? || answer.Body?
  }

  function SettledAs(attempt: Attempt, vendorId: Option<int>, answer: Answer): Status
    requires Settles(vendorId, answer)
  {
    if vendorId.Some? && answer.approved && answer.cents == attempt.cents then APPROVED else EXPIRED
  }

  /** The write of a sweep that read the attempt with this id. */
  function Settle(w: World, a: AttemptId, vendorId: Option<int>, answer: Answer): World {
    if a >= |w.attempts| || !Settles(vendorId, answer) then w
    else
      var attempt := w.attempts[a];
      PutAttempt(w, a, attempt.(
        status := SettledAs(attempt, vendorId, answer),
        vendorId := if vendorId.None? then attempt.vendorId else if answer.transactionId.Some? then answer.transactionId else vendorId,
        confirmedAt := Some(w.now)))
  }

  /** Sweep 1 over the stale attempts it found, with how many it resolved. */
  function SettleAll(w: World, rows: seq<AttemptId>, answers: AttemptId -> Answer): (World, nat) {
    if rows == [] then (w, 0)
    else
      var (w1, n) := SettleAll(w, rows[..|rows| - 1], answers);
      var a := rows[|rows| - 1];
      if a >= |w1.attempts| then (w1, n)
      else (Settle(w1, a, w1.attempts[a].vendorId, answers(a)), n + if Settles(w1.attempts[a].vendorId, answers(a)) then 1 else 0)
  }

  /** Sweep 2 over the approved attempts it found unapplied; those whose application fails are left. */
  function ApplyAll(w: World, rows: seq<AttemptId>, fails: set<AttemptId>): (World, nat) {
    if rows == [] then (w, 0)
    else
      var (w1, n) := ApplyAll(w, rows[..|rows| - 1], fails);
      var a := rows[|rows| - 1];
      if a !in fails && a < |w1.attempts| && w1.attempts[a].payment < |w1.payments| then (Apply(w1, a, w1.attempts[a].status), n + 1) else (w1, n)
  }

  /** A query's result: each matching row once, in some order. */
  ghost predicate Lists(rows: seq<AttemptId>, matches: AttemptId -> bool) {
    && (forall i, j :: 0 <= i < j < |rows| ==> rows[i] != rows[j])
    && forall a: AttemptId :: a in rows <==> matches(a)
  }

  // ---- Steps ----------------------------------------------------------------------------------

  /** A sweep is a step for each row it reads and for each it writes, mixed with anything; Sweep1 and
      Sweep2 are the same sweeps undisturbed. */
  datatype Step =
    | OpenPayment(totalCents: nat, ivaCents: nat, renewal: bool)
    | Session(p: PaymentId)
    | Confirm(a: AttemptId, owned: bool, vendorId: Option<int>, answer: Answer, fault: Fault)
    | WriteRecovery(i: nat)
    | LoseRecovery(i: nat)
    | Finish(a: AttemptId)
    | TakeStale(a: AttemptId)
    | SettleTaken(i: nat, answer: Answer)
    | TakeUnapplied(a: AttemptId)
    | Sweep1(rows: seq<AttemptId>, answers: AttemptId -> Answer)
    | Sweep2(rows: seq<AttemptId>, fails: set<AttemptId>)
    | SubmitProof(p: PaymentId)
    | Review(p: PaymentId, verified: bool)
    | CancelPayment(p: PaymentId)
    | Refund(p: PaymentId)
    | Wait(ms: nat)

  ghost predicate Enabled(w: World, step: Step) {
    match step
    case Finish(a) => a in w.approvals
    case TakeStale(a) => Stale(w, a)
    case SettleTaken(i, _) => i < |w.copies|
    case TakeUnapplied(a) => Unapplied(w, a)
    case Sweep1(rows, _) => Lists(rows, (a: AttemptId) => Stale(w, a))
    case Sweep2(rows, _) => Lists(rows, (a: AttemptId) => Unapplied(w, a))
    case Review(p, _) => p < |w.payments|
    case WriteRecovery(i) => i < |w.recoveries|
    case LoseRecovery(i) => i < |w.recoveries|
    case _ => true
  }

  /** A payment after an operator's or a tenant's step on it; refused steps leave it. */
  function Submitted(payment: Payment): Payment {
    if payment.status == VERIFIED then payment else payment.(status := REPORTED)
  }

  function Reviewed(payment: Payment, verified: bool): Payment {
    if verified then Applied(payment) else payment.(status := REJECTED)
  }

  function Cancelled(payment: Payment): Payment {
    if payment.status == PAYMENT_PENDING && !payment.renewal then payment.(status := PAYMENT_CANCELLED) else payment
  }

  function Refunded(payment: Payment): Payment {
    if payment.status == VERIFIED then payment.(status := REFUNDED, refunds := payment.refunds + 1) else payment
  }

  function OnPayment(w: World, step: Step): Option<(PaymentId, Payment)> {
    match step
    case SubmitProof(p) => if p < |w.payments| then Some((p, Submitted(w.payments[p]))) else None
    case Review(p, verified) => if p < |w.payments| then Some((p, Reviewed(w.payments[p], verified))) else None
    case CancelPayment(p) => if p < |w.payments| then Some((p, Cancelled(w.payments[p]))) else None
    case Refund(p) => if p < |w.payments| then Some((p, Refunded(w.payments[p]))) else None
    case _ => None
  }

  function Next(w: World, step: Step): World {
    match step
    case OpenPayment(total, iva, renewal) => w.(payments := w.payments + [Payment(PAYMENT_PENDING, total, iva, renewal, 0, 0)])
    case Session(p) => (match CreateSession(w, p) case Ok(w1) => w1 case Err(_) => w)
    case Confirm(a, owned, vendorId, answer, fault) => ResolveOutcome(w, a, owned, vendorId, answer, fault).0
    case WriteRecovery(i) => if i < |w.recoveries| then Recover(w, i) else w
    case LoseRecovery(i) => if i < |w.recoveries| then WithoutRecovery(w, i) else w
    case Finish(a) => if a < |w.attempts| && w.attempts[a].payment < |w.payments| then Apply(w, a, APPROVED) else w
    case TakeStale(a) => if a < |w.attempts| then w.(copies := w.copies + [Copy(a, w.attempts[a].vendorId)]) else w
    case SettleTaken(i, answer) =>
      if i < |w.copies| then
        Settle(w, w.copies[i].attempt, w.copies[i].vendorId, answer).(copies := w.copies[..i] + w.copies[i + 1..])
      else w
    case TakeUnapplied(a) => w.(approvals := w.approvals + {a})
    case Sweep1(rows, answers) => SettleAll(w, rows, answers).0
    case Sweep2(rows, fails) => ApplyAll(w, rows, fails).0
    case Wait(ms) => w.(now := w.now + ms)
    case _ =>
      match OnPayment(w, step)
      case Some((p, payment)) => PutPayment(w, p, payment)
      case None => w
  }

  ghost predicate Runs(w: World, steps: seq<Step>)
    decreases |steps|
  {
    steps == [] || (Enabled(w, steps[0]) && Runs(Next(w, steps[0]), steps[1..]))
  }

  function After(w: World, steps: seq<Step>): World
    decreases |steps|
  {
    if steps == [] then w else After(Next(w, steps[0]), steps[1..])
  }
}
