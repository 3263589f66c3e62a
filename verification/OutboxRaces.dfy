/** The runs that show what marks and failure records cost when they come late. */
module OutboxRaces {
  import opened Options
  import opened Outbox
  import opened OutboxRows
  import opened OutboxCoverage
  import opened OutboxBudget

  /** A mark that comes late reopens a DONE or FAILED row exactly when no open row has its key. */
  lemma LateMarkReopens(w: World, e: EffectId)
    requires e in w.effects && !Open(w, e)
    ensures
      var w' := MarkDispatched(w, e);
      && e in w'.effects && (Open(w', e) <==> !KeyTaken(w, e))
      && w'.effects[e].attempts == w.effects[e].attempts
  {
    hide KeyTaken;
  }

  /** A failure recorded late is counted exactly when nothing was counted since its delivery and the
      unique index lets the row be written, whatever the row's status is by then. */
  lemma LateNoteCounts(w: World, i: nat, cfg: Config)
    requires i < |w.notes| && !w.notes[i].benign && w.notes[i].effect in w.effects
    ensures
      var n := w.notes[i];
      var f, w' := w.effects[n.effect], Record(w, i, cfg);
      && n.effect in w'.effects
      && (w'.effects[n.effect].attempts == f.attempts + 1 <==>
            n.attempts == f.attempts && Written(w, n.effect, RecordedRow(f, n, cfg)))
  {
    hide KeyTaken;
    RecordRow(w, i, cfg, w.notes[i].effect);
  }

  // ---- A late record takes a row out of FAILED ------------------------------------------------

  /** Document 0 asked to be sent, and its row after some counted failures. */
  ghost predicate Failing(w: World, attempts: nat, notes: seq<Note>, cfg: Config) {
    && 0 in w.docs && w.docs[0].status == PENDING_SEND && w.notes == notes && 0 in w.effects
    && (forall e :: e in w.effects ==> e == 0)
    && w.effects[0] == Effect(SRI_SEND, 0, if attempts < cfg.maxAttempts then PENDING else FAILED, attempts, 0, None)
  }

  /** No reset, no mark, no lost record: deliveries, records and what the queue does. */
  predicate Plain(step: Step) {
    !step.Retry? && !step.Mark? && !step.LoseNote? && !step.Dispatch? && !step.Sweep?
  }

  predicate AllPlain(steps: seq<Step>) {
    forall i :: 0 <= i < |steps| ==> Plain(steps[i])
  }

  /** Some plain run from the empty system ends in such a state, its row's handler having failed so
      often. */
  ghost predicate Reached(attempts: nat, notes: seq<Note>, failures: nat, cfg: Config) {
    exists steps ::
      && Runs(EMPTY, steps, cfg) && AllPlain(steps) && Failing(After(EMPTY, steps, cfg), attempts, notes, cfg)
      && Failures(EMPTY, steps, cfg, 0) == failures
  }

  lemma {:induction false} FailuresPlus(w: World, steps: seq<Step>, step: Step, cfg: Config, e: EffectId)
    requires Runs(w, steps, cfg) && Enabled(After(w, steps, cfg), step, cfg)
    ensures Runs(w, steps + [step], cfg)
    ensures Failures(w, steps + [step], cfg, e) == Failures(w, steps, cfg, e) + if Fails(After(w, steps, cfg), step, e) then 1 else 0
    decreases |steps|
  {
    hide Perform, Enabled, Fails;
    OneMore(w, steps, step, cfg);
    if steps == [] {
      assert (steps + [step])[1..] == [];
    } else {
      assert (steps + [step])[1..] == steps[1..] + [step];
      FailuresPlus(Perform(w, steps[0], cfg), steps[1..], step, cfg, e);
    }
  }

  /** One more plain step from a reached state. */
  lemma Onward(steps: seq<Step>, step: Step, cfg: Config)
    requires Runs(EMPTY, steps, cfg) && AllPlain(steps) && Plain(step) && Enabled(After(EMPTY, steps, cfg), step, cfg)
    ensures Runs(EMPTY, steps + [step], cfg) && AllPlain(steps + [step])
    ensures After(EMPTY, steps + [step], cfg) == Perform(After(EMPTY, steps, cfg), step, cfg)
    ensures Failures(EMPTY, steps + [step], cfg, 0) == Failures(EMPTY, steps, cfg, 0) + if Fails(After(EMPTY, steps, cfg), step, 0) then 1 else 0
  {
    hide Perform, Enabled, Fails;
    OneMore(EMPTY, steps, step, cfg);
    FailuresPlus(EMPTY, steps, step, cfg, 0);
  }

  const SEND_FAILS: (SendAnswer, AuthorizeAnswer) := (SendFailure, StillProcessing)

  lemma StartAt(cfg: Config)
    requires ValidConfig(cfg)
    ensures
      var w1 := Perform(EMPTY, CreateDoc(0, "key", 1, "xml"), cfg);
      Failing(Perform(w1, RequestSend(0), cfg), 0, [], cfg)
  {
  }

  lemma Starts(cfg: Config)
    requires ValidConfig(cfg)
    ensures Reached(0, [], 0, cfg)
  {
    hide Perform, Failing;
    StartAt(cfg);
    Onward([], CreateDoc(0, "key", 1, "xml"), cfg);
    Onward([] + [CreateDoc(0, "key", 1, "xml")], RequestSend(0), cfg);
    assert Runs(EMPTY, [] + [CreateDoc(0, "key", 1, "xml")] + [RequestSend(0)], cfg);
  }

  lemma PublishedAt(w: World, attempts: nat, notes: seq<Note>, cfg: Config)
    requires Failing(w, attempts, notes, cfg)
    ensures
      var w' := Perform(w, Publish(0), cfg);
      Enabled(w, Publish(0), cfg) && Failing(w', attempts, notes, cfg) && 0 in w'.queue
  {
  }

  lemma UnrecordedAt(w: World, attempts: nat, notes: seq<Note>, cfg: Config)
    requires Failing(w, attempts, notes, cfg) && 0 in w.queue && attempts < cfg.maxAttempts
    ensures
      var step := Receive(0, SEND_FAILS.0, SEND_FAILS.1);
      Enabled(w, step, cfg) && Fails(w, step, 0) && Failing(Perform(w, step, cfg), attempts, notes + [Note(0, attempts, PENDING, false)], cfg)
  {
  }

  lemma RecordedAt(w: World, attempts: nat, notes: seq<Note>, cfg: Config)
    requires Failing(w, attempts, notes, cfg) && 0 in w.queue && attempts < cfg.maxAttempts
    ensures
      var step := ReceiveAndRecord(0, SEND_FAILS.0, SEND_FAILS.1);
      Enabled(w, step, cfg) && Fails(w, step, 0) && Failing(Perform(w, step, cfg), attempts + 1, notes, cfg)
  {
    var failed := Deliver(w, 0, SEND_FAILS.0, SEND_FAILS.1);
    var n := Note(0, attempts, PENDING, false);
    assert failed.notes == notes + [n] && failed.notes[|notes|] == n;
    assert failed.notes[..|notes|] + failed.notes[|notes| + 1..] == notes;
  }

  lemma FailsUnrecorded(attempts: nat, notes: seq<Note>, failures: nat, cfg: Config)
    requires Reached(attempts, notes, failures, cfg) && attempts < cfg.maxAttempts
    ensures Reached(attempts, notes + [Note(0, attempts, PENDING, false)], failures + 1, cfg)
  {
    hide Perform, Failing, Fails, Enabled, Runs, After, Failures;
    var steps :| Runs(EMPTY, steps, cfg) && AllPlain(steps) && Failing(After(EMPTY, steps, cfg), attempts, notes, cfg) && Failures(EMPTY, steps, cfg, 0) == failures;
    PublishedAt(After(EMPTY, steps, cfg), attempts, notes, cfg);
    Onward(steps, Publish(0), cfg);
    PublishFailsNothing(After(EMPTY, steps, cfg));
    var more := steps + [Publish(0)];
    var step := Receive(0, SEND_FAILS.0, SEND_FAILS.1);
    UnrecordedAt(After(EMPTY, more, cfg), attempts, notes, cfg);
    Onward(more, step, cfg);
    assert Runs(EMPTY, more + [step], cfg);
  }

  lemma FailsRecorded(attempts: nat, notes: seq<Note>, failures: nat, cfg: Config)
    requires Reached(attempts, notes, failures, cfg) && attempts < cfg.maxAttempts
    ensures Reached(attempts + 1, notes, failures + 1, cfg)
  {
    hide Perform, Failing, Fails, Enabled, Runs, After, Failures;
    var steps :| Runs(EMPTY, steps, cfg) && AllPlain(steps) && Failing(After(EMPTY, steps, cfg), attempts, notes, cfg) && Failures(EMPTY, steps, cfg, 0) == failures;
    PublishedAt(After(EMPTY, steps, cfg), attempts, notes, cfg);
    Onward(steps, Publish(0), cfg);
    PublishFailsNothing(After(EMPTY, steps, cfg));
    var more := steps + [Publish(0)];
    var step := ReceiveAndRecord(0, SEND_FAILS.0, SEND_FAILS.1);
    RecordedAt(After(EMPTY, more, cfg), attempts, notes, cfg);
    Onward(more, step, cfg);
    assert Runs(EMPTY, more + [step], cfg);
  }

  lemma PublishFailsNothing(w: World)
    ensures !Fails(w, Publish(0), 0)
  {
  }

  lemma {:induction false} FailsToTheEnd(attempts: nat, notes: seq<Note>, failures: nat, cfg: Config)
    requires attempts <= cfg.maxAttempts && Reached(attempts, notes, failures, cfg)
    ensures Reached(cfg.maxAttempts, notes, failures + cfg.maxAttempts - attempts, cfg)
    decreases cfg.maxAttempts - attempts
  {
    hide Reached;
    if attempts < cfg.maxAttempts {
      FailsRecorded(attempts, notes, failures, cfg);
      FailsToTheEnd(attempts + 1, notes, failures + 1, cfg);
    }
  }

  lemma LateRecordAt(w: World, cfg: Config)
    requires 2 <= cfg.maxAttempts && Failing(w, cfg.maxAttempts, [Note(0, 0, PENDING, false)], cfg)
    ensures Enabled(w, RecordNote(0), cfg) && Failing(Perform(w, RecordNote(0), cfg), 1, [], cfg)
  {
  }

  /** With two attempts or more: the record of a first failure, held back until later ones have used
      up the budget, takes the row from FAILED back to open with one attempt counted, without a
      reset and without any mark. */
  lemma ALateNoteRevivesAFailedRow(cfg: Config)
    requires 2 <= cfg.maxAttempts
    ensures
      exists steps ::
        && Runs(EMPTY, steps + [RecordNote(0)], cfg) && AllPlain(steps)
        && Runs(EMPTY, steps, cfg)
        && var before, after := After(EMPTY, steps, cfg), After(EMPTY, steps + [RecordNote(0)], cfg);
           && 0 in before.effects && before.effects[0].status == FAILED
           && 0 in after.effects && after.effects[0].status == PENDING && after.effects[0].attempts == 1
  {
    hide Perform, Enabled, Runs, After, Failures, Fails;
    Starts(cfg);
    FailsUnrecorded(0, [], 0, cfg);
    assert [] + [Note(0, 0, PENDING, false)] == [Note(0, 0, PENDING, false)];
    FailsToTheEnd(0, [Note(0, 0, PENDING, false)], 1, cfg);
    var steps :|
      && Runs(EMPTY, steps, cfg) && AllPlain(steps)
      && Failing(After(EMPTY, steps, cfg), cfg.maxAttempts, [Note(0, 0, PENDING, false)], cfg)
      && Failures(EMPTY, steps, cfg, 0) == 1 + cfg.maxAttempts;
    LateRecordAt(After(EMPTY, steps, cfg), cfg);
    Onward(steps, RecordNote(0), cfg);
  }

  function Repeated(n: nat): (notes: seq<Note>)
    ensures |notes| == n
  {
    seq(n, _ => Note(0, 0, PENDING, false))
  }

  /** Nor is there any bound on a handler's failures while records are outstanding: for every number
      some run without reset, mark or lost record has the handler of a row fail that often. */
  lemma {:induction false} LateNotesLiftTheBound(n: nat, cfg: Config)
    requires ValidConfig(cfg)
    ensures Reached(0, Repeated(n), n, cfg)
  {
    hide Reached;
    if n == 0 {
      Starts(cfg);
      assert Repeated(0) == [];
    } else {
      LateNotesLiftTheBound(n - 1, cfg);
      FailsUnrecorded(0, Repeated(n - 1), n - 1, cfg);
      assert Repeated(n) == Repeated(n - 1) + [Note(0, 0, PENDING, false)];
    }
  }

  // ---- A late note strands a document ---------------------------------------------------------

  const ACCEPTED: SendAnswer := Reception(true, false)

  /** Row 0 sends document 0, and row 1 is to ask for its authorization. SRI refuses it, and the mark
      of the message that asked comes only then. A duplicate of that message finds the reopened row
      and an overtaken document; before this is recorded the document is corrected, asked to be
      sent and received again, which finds row 1 by its key. Then the note makes row 1 DONE. */
  function Script(k: nat): Step
    requires k < 14
  {
    match k
    case 0 => CreateDoc(0, "key", 1, "xml")
    case 1 => RequestSend(0)
    case 2 => Dispatch(0)
    case 3 => Receive(0, ACCEPTED, StillProcessing)
    case 4 => Publish(1)
    case 5 => Duplicate(1)
    case 6 => Receive(1, SendFailure, NoAutorizado)
    case 7 => Mark(1)
    case 8 => Receive(1, SendFailure, StillProcessing)
    case 9 => Correct(0, "corrected")
    case 10 => RequestSend(0)
    case 11 => Dispatch(2)
    case 12 => Receive(2, ACCEPTED, StillProcessing)
    case _ => RecordNote(0)
  }

  /** What the script needs to know of a state: document 0, the rows, the notes and the queue. */
  datatype Facts = Facts(status: Status, rows: seq<Effect>, notes: seq<Note>, queue: multiset<EffectId>, marks: multiset<EffectId>)

  ghost predicate At(w: World, facts: Facts) {
    && 0 in w.docs && w.docs[0].status == facts.status && w.notes == facts.notes && w.nextId == |facts.rows| && w.now == 0
    && (forall e: EffectId :: e in w.effects <==> e < |facts.rows|)
    && (forall e: EffectId :: e < |facts.rows| ==> w.effects[e] == facts.rows[e])
    && w.queue == facts.queue && w.marks == facts.marks
  }

  function Send(status: EffectStatus, dispatchedAt: Option<int>): Effect {
    Effect(SRI_SEND, 0, status, 0, 0, dispatchedAt)
  }

  function Ask(status: EffectStatus, dispatchedAt: Option<int>): Effect {
    Effect(SRI_AUTHORIZE, 0, status, 0, 0, dispatchedAt)
  }

  const OVERTAKEN: Note := Note(1, 0, DISPATCHED, true)

  function Expected(k: nat): Facts
    requires 1 <= k <= 14
  {
    var sent := Send(DONE, Some(0));
    var sending := Send(DISPATCHED, Some(0));
    var asked := Ask(DISPATCHED, Some(0));
    match k
    case 1 => Facts(SIGNED, [], [], multiset{}, multiset{})
    case 2 => Facts(PENDING_SEND, [Send(PENDING, None)], [], multiset{}, multiset{})
    case 3 => Facts(PENDING_SEND, [sending], [], multiset{0}, multiset{})
    case 4 => Facts(RECEIVED, [sent, Ask(PENDING, None)], [], multiset{}, multiset{})
    case 5 => Facts(RECEIVED, [sent, Ask(PENDING, None)], [], multiset{1}, multiset{1})
    case 6 => Facts(RECEIVED, [sent, Ask(PENDING, None)], [], multiset{1, 1}, multiset{1})
    case 7 => Facts(NOT_AUTHORIZED, [sent, Ask(DONE, None)], [], multiset{1}, multiset{1})
    case 8 => Facts(NOT_AUTHORIZED, [sent, asked], [], multiset{1}, multiset{})
    case 9 => Facts(NOT_AUTHORIZED, [sent, asked], [OVERTAKEN], multiset{}, multiset{})
    case 10 => Facts(SIGNED, [sent, asked], [OVERTAKEN], multiset{}, multiset{})
    case 11 => Facts(PENDING_SEND, [sent, asked, Send(PENDING, None)], [OVERTAKEN], multiset{}, multiset{})
    case 12 => Facts(PENDING_SEND, [sent, asked, sending], [OVERTAKEN], multiset{2}, multiset{})
    case 13 => Facts(RECEIVED, [sent, asked, sent], [OVERTAKEN], multiset{}, multiset{})
    case _ => Facts(RECEIVED, [sent, Ask(DONE, Some(0)), sent], [], multiset{}, multiset{})
  }

  lemma FirstStep(cfg: Config)
    ensures Enabled(EMPTY, Script(0), cfg) && At(Perform(EMPTY, Script(0), cfg), Expected(1))
  {
  }

  lemma QueueSendAt(w: World, k: nat, cfg: Config)
    requires (k == 1 || k == 10) && At(w, Expected(k))
    ensures Enabled(w, Script(k), cfg) && At(Perform(w, Script(k), cfg), Expected(k + 1))
  {
    hide OpenAuthorize;
  }

  lemma DispatchAt(w: World, k: nat, cfg: Config)
    requires (k == 2 || k == 11) && At(w, Expected(k))
    ensures Enabled(w, Script(k), cfg) && At(Perform(w, Script(k), cfg), Expected(k + 1))
  {
  }

  lemma FirstReceptionAt(w: World, cfg: Config)
    requires At(w, Expected(3))
    ensures Enabled(w, Script(3), cfg) && At(Perform(w, Script(3), cfg), Expected(4))
  {
    assert OpenAuthorize(w, 0, 1) == OpenAuthorize(w, 0, 0) == None;
    var w0 := w.(queue := w.queue - multiset{0});
    SameRowsFound(w, PutDoc(w0, 0, w.docs[0].(status := RECEIVED), Sent(PENDING_SEND, RECEIVED)), 0, 1);
  }

  lemma PublishAt(w: World, cfg: Config)
    requires At(w, Expected(4))
    ensures Enabled(w, Script(4), cfg) && At(Perform(w, Script(4), cfg), Expected(5))
  {
    assert 1 in w.effects;
  }

  lemma DuplicateAt(w: World, cfg: Config)
    requires At(w, Expected(5))
    ensures Enabled(w, Script(5), cfg) && At(Perform(w, Script(5), cfg), Expected(6))
  {
    assert multiset{1} + multiset{1} == multiset{1, 1};
  }

  lemma RefusalAt(w: World, cfg: Config)
    requires At(w, Expected(6))
    ensures Enabled(w, Script(6), cfg) && At(Perform(w, Script(6), cfg), Expected(7))
  {
    hide OpenAuthorize, KeyTaken, Reconcile, Process, Enqueue, MarkDispatched, QueueSend;
  }

  lemma LateMarkAt(w: World, cfg: Config)
    requires At(w, Expected(7))
    ensures Enabled(w, Script(7), cfg) && At(Perform(w, Script(7), cfg), Expected(8))
  {
    hide OpenAuthorize, Reconcile, Process, Enqueue, QueueSend, Record;
  }

  lemma OvertakenAt(w: World, cfg: Config)
    requires At(w, Expected(8))
    ensures Enabled(w, Script(8), cfg) && At(Perform(w, Script(8), cfg), Expected(9))
  {
    hide OpenAuthorize, Reconcile, Process, Enqueue, QueueSend, Record;
  }

  lemma CorrectionAt(w: World, cfg: Config)
    requires At(w, Expected(9))
    ensures Enabled(w, Script(9), cfg) && At(Perform(w, Script(9), cfg), Expected(10))
  {
    hide OpenAuthorize, Reconcile, Process, Enqueue, QueueSend, Record;
  }

  lemma SecondReceptionAt(w: World, cfg: Config)
    requires At(w, Expected(12))
    ensures Enabled(w, Script(12), cfg) && At(Perform(w, Script(12), cfg), Expected(13))
  {
    assert OpenAuthorize(w, 0, 3) == OpenAuthorize(w, 0, 2) == Some(1);
    var w0 := w.(queue := w.queue - multiset{2});
    SameRowsFound(w, PutDoc(w0, 0, w.docs[0].(status := RECEIVED), Sent(PENDING_SEND, RECEIVED)), 0, 3);
  }

  lemma LateNoteAt(w: World, cfg: Config)
    requires At(w, Expected(13))
    ensures Enabled(w, Script(13), cfg) && At(Perform(w, Script(13), cfg), Expected(14))
  {
  }

  lemma {:induction false} ScriptRuns(k: nat, cfg: Config)
    requires 1 <= k <= 14
    ensures exists steps :: Runs(EMPTY, steps, cfg) && At(After(EMPTY, steps, cfg), Expected(k))
  {
    hide Perform, At, Expected, Script;
    if k == 1 {
      FirstStep(cfg);
      OneMore(EMPTY, [], Script(0), cfg);
    } else {
      ScriptRuns(k - 1, cfg);
      var steps :| Runs(EMPTY, steps, cfg) && At(After(EMPTY, steps, cfg), Expected(k - 1));
      var w := After(EMPTY, steps, cfg);
      match k - 1 {
        case 1 => QueueSendAt(w, 1, cfg);
        case 2 => DispatchAt(w, 2, cfg);
        case 3 => FirstReceptionAt(w, cfg);
        case 4 => PublishAt(w, cfg);
        case 5 => DuplicateAt(w, cfg);
        case 6 => RefusalAt(w, cfg);
        case 7 => LateMarkAt(w, cfg);
        case 8 => OvertakenAt(w, cfg);
        case 9 => CorrectionAt(w, cfg);
        case 10 => QueueSendAt(w, 10, cfg);
        case 11 => DispatchAt(w, 11, cfg);
        case 12 => SecondReceptionAt(w, cfg);
        case _ => LateNoteAt(w, cfg);
      }
      OneMore(EMPTY, steps, Script(k - 1), cfg);
    }
  }

  /** So a RECEIVED document can be reached for which no row will ask: that there is always one
      fails of the code, because a failure is recorded after the claiming transaction has ended. */
  lemma {:induction false} ALateNoteStrandsADocument(cfg: Config)
    ensures
      exists steps ::
        && Runs(EMPTY, steps, cfg)
        && var w := After(EMPTY, steps, cfg);
           0 in w.docs && w.docs[0].status == RECEIVED && forall e :: e in w.effects ==> w.effects[e].status == DONE
  {
    hide Runs, After;
    ScriptRuns(14, cfg);
  }
}
