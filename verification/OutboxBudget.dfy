/** The retry budget of outbox rows at the finest interleaving: what each step does to a row and to
    the outstanding failure records, exactly which steps break the budget, lose count of a failure,
    or take a row out of FAILED or DONE. */
module OutboxBudget {
  import opened Options
  import opened Outbox
  import opened OutboxRows
  import opened OutboxCoverage
  import OutboxDocuments

  // ---- One step, one row ----------------------------------------------------------------------

  lemma WriteRowAt(w: World, e: EffectId, f: Effect, o: EffectId)
    requires o in w.effects
    ensures o in WriteRow(w, e, f).effects
    ensures WriteRow(w, e, f).effects[o] == w.effects[o] || (e == o && WriteRow(w, e, f).effects[o] == f)
    ensures e == o && (!IsOpen(f) || !KeyTaken(w, e)) ==> WriteRow(w, e, f).effects[o] == f
  {
  }

  lemma OpenIsNotTaken(w: World, e: EffectId)
    requires OneOpen(w) && Open(w, e)
    ensures !KeyTaken(w, e)
  {
    forall o | o in w.effects && IsOpen(w.effects[o]) && w.effects[o].kind == SRI_AUTHORIZE && w.effects[o].doc == w.effects[e].doc
      ensures w.effects[e].kind == SRI_AUTHORIZE ==> o == e
    {
      if w.effects[e].kind == SRI_AUTHORIZE {
        assert AuthorizesOpen(w, o, w.effects[e].doc) && AuthorizesOpen(w, e, w.effects[e].doc);
      }
    }
  }

  lemma HandleRow(w: World, f: Effect, send: SendAnswer, authorize: AuthorizeAnswer)
    requires Sound(w)
    ensures forall o :: o in w.effects ==> o in Handle(w, f, send, authorize).0.effects && Handle(w, f, send, authorize).0.effects[o] == w.effects[o]
  {
    HandleKeeps(w, f, send, authorize);
  }

  /** Two rows cannot both be open, so a delivered row may be written back. */
  lemma HandleLeavesKey(w: World, e: EffectId, send: SendAnswer, authorize: AuthorizeAnswer)
    requires Sound(w) && Open(w, e)
    ensures !KeyTaken(Handle(w, w.effects[e], send, authorize).0, e)
  {
    hide Handle, KeyTaken;
    HandleKeeps(w, w.effects[e], send, authorize);
    OpenIsNotTaken(Handle(w, w.effects[e], send, authorize).0, e);
  }

  /** The row a prompt delivery leaves, by its handler's outcome. */
  function Settled(f: Effect, outcome: Outcome, cfg: Config): Effect {
    match outcome
    case Finished => f.(status := DONE)
    case Requeue => f
    case Benign => f.(status := DONE)
    case Transient => f.(status := if f.attempts + 1 >= cfg.maxAttempts then FAILED else f.status, attempts := f.attempts + 1)
  }

  lemma RecordAt(w: World, n: Note, cfg: Config)
    requires n.effect in w.effects && !KeyTaken(w, n.effect)
    ensures
      var w2 := w.(notes := w.notes + [n]);
      Record(w2, |w.notes|, cfg).effects == w.effects[n.effect := RecordedRow(w.effects[n.effect], n, cfg)]
  {
    hide KeyTaken;
    var w2 := w.(notes := w.notes + [n]);
    SameKeyTaken(w, WithoutNote(w2, |w.notes|), n.effect);
  }

  lemma ProcessSettles(w: World, e: EffectId, send: SendAnswer, authorize: AuthorizeAnswer, cfg: Config)
    requires Sound(w) && Open(w, e)
    ensures
      var (w1, outcome) := Handle(w.(queue := w.queue - multiset{e}), w.effects[e], send, authorize);
      e in w1.effects && w1.effects[e] == w.effects[e]
      && Process(w, e, send, authorize, cfg).effects == w1.effects[e := Settled(w.effects[e], outcome, cfg)]
  {
    hide Handle, KeyTaken, Sound, Record;
    var w0 := w.(queue := w.queue - multiset{e});
    var f := w.effects[e];
    OutsideKeeps(w, w0);
    HandleRow(w0, f, send, authorize);
    HandleLeavesKey(w0, e, send, authorize);
    OutboxDocuments.HandleMoves(w0, f, send, authorize, 0);
    var (w1, outcome) := Handle(w0, f, send, authorize);
    if outcome == Benign {
      RecordAt(w1, Note(e, f.attempts, f.status, true), cfg);
    } else if outcome == Transient {
      RecordAt(w1, Note(e, f.attempts, f.status, false), cfg);
    }
  }

  lemma SameKeyTaken(w: World, w': World, e: EffectId)
    requires w'.effects == w.effects && e in w.effects
    ensures KeyTaken(w', e) == KeyTaken(w, e)
  {
  }

  lemma QueueSendRow(w: World, d: DocId, o: EffectId)
    requires Sound(w) && o in w.effects
    ensures o in QueueSend(w, d).effects && QueueSend(w, d).effects[o] == w.effects[o]
  {
    hide Enqueue, PutDoc, Sound;
    if MayMove(w, d, PENDING_SEND) {
      var doc := w.docs[d].(status := PENDING_SEND);
      PutKeeps(w, d, doc, StatusChanged(w.docs[d].status, PENDING_SEND));
      EnqueueKeeps(PutDoc(w, d, doc, StatusChanged(w.docs[d].status, PENDING_SEND)), SRI_SEND, d);
    }
  }

  lemma PutKeeps(w: World, d: DocId, doc: Document, event: Event)
    requires Sound(w) && d in w.docs
    ensures Sound(PutDoc(w, d, doc, event)) && PutDoc(w, d, doc, event).effects == w.effects && d in PutDoc(w, d, doc, event).docs
  {
    OutsideKeeps(w, PutDoc(w, d, doc, event));
  }

  function Marked(f: Effect, now: int): Effect {
    f.(status := DISPATCHED, dispatchedAt := Some(now))
  }

  /** Whether a write of a row is let through by the unique index. */
  predicate Written(w: World, e: EffectId, f: Effect)
    requires e in w.effects
  {
    !(IsOpen(f) && KeyTaken(w, e))
  }

  function OutcomeOf(w: World, e: EffectId, send: SendAnswer, authorize: AuthorizeAnswer): Outcome
    requires e in w.effects
  {
    Handle(w.(queue := w.queue - multiset{e}), w.effects[e], send, authorize).1
  }

  /** What a step makes of a row that is there. */
  predicate RowAfter(w: World, step: Step, cfg: Config, o: EffectId, f': Effect)
    requires o in w.effects && Enabled(w, step, cfg)
  {
    var f := w.effects[o];
    match step
    case Mark(e) => f' == if e == o && !KeyTaken(w, o) then Marked(f, w.now) else f
    case Dispatch(e) => f' == if e == o then Marked(f, w.now) else f
    case Sweep(_, _) => f' == f || (IsOpen(f) && f' == Marked(f, w.now))
    case Retry(e) =>
      f' == if e == o && f.status == FAILED && !KeyTaken(w, o) then f.(status := PENDING, attempts := 0, dispatchedAt := None) else f
    case RecordNote(i) =>
      var g := RecordedRow(f, w.notes[i], cfg);
      f' == if w.notes[i].effect == o && Written(w, o, g) then g else f
    case Receive(e, send, authorize) =>
      f' == if e == o && IsOpen(f) && OutcomeOf(w, o, send, authorize) == Finished then f.(status := DONE) else f
    case ReceiveAndRecord(e, send, authorize) =>
      f' == if e == o && IsOpen(f) then Settled(f, OutcomeOf(w, o, send, authorize), cfg) else f
    case _ => f' == f
  }

  /** What a step makes of the outstanding failure records. */
  function NotesAfter(w: World, step: Step, cfg: Config): seq<Note>
    requires Enabled(w, step, cfg)
  {
    match step
    case Receive(e, send, authorize) =>
      if !Open(w, e) then w.notes
      else
        var f := w.effects[e];
        var outcome := OutcomeOf(w, e, send, authorize);
        if outcome == Benign || outcome == Transient then w.notes + [Note(e, f.attempts, f.status, outcome == Benign)] else w.notes
    case RecordNote(i) => w.notes[..i] + w.notes[i + 1..]
    case LoseNote(i) => w.notes[..i] + w.notes[i + 1..]
    case _ => w.notes
  }

  lemma {:induction false} ReconcileRow(w: World, rows: seq<EffectId>, published: set<EffectId>, o: EffectId)
    requires o in w.effects && forall i :: 0 <= i < |rows| ==> Open(w, rows[i])
    ensures
      var f, w' := w.effects[o], Reconcile(w, rows, published);
      o in w'.effects && w'.now == w.now && (w'.effects[o] == f || (IsOpen(f) && w'.effects[o] == Marked(f, w.now)))
  {
    hide KeyTaken;
    if rows != [] {
      var init := rows[..|rows| - 1];
      ReconcileRow(w, init, published, o);
      OutboxDocuments.ReconcileRows(w, rows, published);
      var w1 := Reconcile(w, init, published);
      var e := rows[|rows| - 1];
      assert Open(w, e);
      if e in w1.effects {
        WriteRowAt(w1.(queue := w1.queue + multiset{e}), e, Marked(w1.effects[e], w1.now), o);
      }
    }
  }

  lemma ProcessRow(w: World, e: EffectId, send: SendAnswer, authorize: AuthorizeAnswer, cfg: Config, o: EffectId)
    requires Sound(w) && o in w.effects
    ensures
      var f, w' := w.effects[o], Process(w, e, send, authorize, cfg);
      o in w'.effects && w'.effects[o] == if e == o && IsOpen(f) then Settled(f, OutcomeOf(w, o, send, authorize), cfg) else f
  {
    hide Handle, Sound, Record;
    if Open(w, e) {
      var w0 := w.(queue := w.queue - multiset{e});
      OutsideKeeps(w, w0);
      HandleRow(w0, w.effects[e], send, authorize);
      ProcessSettles(w, e, send, authorize, cfg);
    }
  }

  lemma DeliverRow(w: World, e: EffectId, send: SendAnswer, authorize: AuthorizeAnswer, o: EffectId)
    requires Sound(w) && o in w.effects
    ensures
      var f, w' := w.effects[o], Deliver(w, e, send, authorize);
      && o in w'.effects
      && w'.effects[o] == if e == o && IsOpen(f) && OutcomeOf(w, o, send, authorize) == Finished then f.(status := DONE) else f
  {
    hide Handle, Sound;
    if Open(w, e) {
      var w0 := w.(queue := w.queue - multiset{e});
      OutsideKeeps(w, w0);
      HandleRow(w0, w.effects[e], send, authorize);
    }
  }

  lemma RecordRow(w: World, i: nat, cfg: Config, o: EffectId)
    requires i < |w.notes| && o in w.effects
    ensures
      var g := RecordedRow(w.effects[o], w.notes[i], cfg);
      var w' := Record(w, i, cfg);
      o in w'.effects && w'.effects[o] == if w.notes[i].effect == o && Written(w, o, g) then g else w.effects[o]
  {
    hide KeyTaken;
    SameKeyTaken(w, WithoutNote(w, i), o);
  }

  lemma MarkRow(w: World, w1: World, e: EffectId, o: EffectId)
    requires o in w.effects && w1.effects == w.effects && w1.now == w.now
    ensures
      var w' := MarkDispatched(w1, e);
      o in w'.effects && w'.effects[o] == if e == o && !KeyTaken(w, o) then Marked(w.effects[o], w.now) else w.effects[o]
  {
    hide KeyTaken;
    SameKeyTaken(w, w1, o);
  }

  lemma StepRow(w: World, step: Step, cfg: Config, o: EffectId)
    requires Sound(w) && Enabled(w, step, cfg) && o in w.effects
    ensures o in Perform(w, step, cfg).effects && RowAfter(w, step, cfg, o, Perform(w, step, cfg).effects[o])
  {
    hide Process, Deliver, Reconcile, KeyTaken, OutcomeOf, Enqueue, QueueSend, MarkDispatched, Sound, Record, Stale, Settled, RecordedRow, Written;
    match step {
      case RequestSend(d) => QueueSendRow(w, d, o);
      case RequestAuthorization(d) => if d in w.docs { EnqueueKeeps(w, SRI_AUTHORIZE, d); }
      case Receive(e, send, authorize) => DeliverRow(w, e, send, authorize, o);
      case ReceiveAndRecord(e, send, authorize) => ProcessRow(w, e, send, authorize, cfg, o);
      case RecordNote(i) => RecordRow(w, i, cfg, o);
      case Sweep(rows, published) =>
        StaleAreOpen(w, rows, cfg);
        ReconcileRow(w, rows, published, o);
      case Mark(e) => MarkRow(w, w.(marks := w.marks - multiset{e}), e, o);
      case Dispatch(e) =>
        MarkRow(w, w.(queue := w.queue + multiset{e}), e, o);
        SoundOpen(w, e);
      case Retry(e) => RetryRow(w, e, o);
      case _ =>
    }
  }

  lemma StaleAreOpen(w: World, rows: seq<EffectId>, cfg: Config)
    requires forall i :: 0 <= i < |rows| ==> Stale(w, rows[i], cfg)
    ensures forall i :: 0 <= i < |rows| ==> Open(w, rows[i])
  {
  }

  lemma SoundOpen(w: World, e: EffectId)
    requires Sound(w) && Open(w, e)
    ensures !KeyTaken(w, e)
  {
    OpenIsNotTaken(w, e);
  }

  lemma RetryRow(w: World, e: EffectId, o: EffectId)
    requires o in w.effects
    ensures
      var f, w' := w.effects[o], ResetForRetry(w, e);
      && o in w'.effects
      && w'.effects[o] == if e == o && f.status == FAILED && !KeyTaken(w, o) then f.(status := PENDING, attempts := 0, dispatchedAt := None) else f
  {
    hide KeyTaken;
  }

  lemma ProcessKeepsNotes(w: World, e: EffectId, send: SendAnswer, authorize: AuthorizeAnswer, cfg: Config)
    ensures Process(w, e, send, authorize, cfg).notes == w.notes
  {
    ProcessNotes(w, e, send, authorize, cfg);
  }

  lemma DeliverNotes(w: World, e: EffectId, send: SendAnswer, authorize: AuthorizeAnswer, cfg: Config)
    requires e in w.queue
    ensures Deliver(w, e, send, authorize).notes == NotesAfter(w, Receive(e, send, authorize), cfg)
  {
    hide Handle;
    if Open(w, e) {
      OutboxDocuments.HandleMoves(w.(queue := w.queue - multiset{e}), w.effects[e], send, authorize, 0);
    }
  }

  lemma RecordNotes(w: World, i: nat, cfg: Config)
    requires i < |w.notes|
    ensures Record(w, i, cfg).notes == w.notes[..i] + w.notes[i + 1..]
  {
    hide WriteRow;
    var w1 := WithoutNote(w, i);
    if w.notes[i].effect in w1.effects {
      OutboxDocuments.WriteRowRows(w1, w.notes[i].effect, RecordedRow(w1.effects[w.notes[i].effect], w.notes[i], cfg));
    }
  }

  lemma StepNotes(w: World, step: Step, cfg: Config)
    requires Enabled(w, step, cfg)
    ensures Perform(w, step, cfg).notes == NotesAfter(w, step, cfg)
  {
    hide Process, Deliver, Reconcile, OutcomeOf, Enqueue, MarkDispatched, ResetForRetry, Record, Stale;
    match step {
      case RequestSend(d) =>
        if MayMove(w, d, PENDING_SEND) {
          var doc := w.docs[d];
          OutboxDocuments.EnqueueRows(PutDoc(w, d, doc.(status := PENDING_SEND), StatusChanged(doc.status, PENDING_SEND)), SRI_SEND, d);
        }
      case RequestAuthorization(d) => OutboxDocuments.EnqueueRows(w, SRI_AUTHORIZE, d);
      case Mark(e) => OutboxDocuments.MarkRows(w.(marks := w.marks - multiset{e}), e);
      case Dispatch(e) => OutboxDocuments.MarkRows(w.(queue := w.queue + multiset{e}), e);
      case Receive(e, send, authorize) => DeliverNotes(w, e, send, authorize, cfg);
      case ReceiveAndRecord(e, send, authorize) => ProcessKeepsNotes(w, e, send, authorize, cfg);
      case RecordNote(i) => RecordNotes(w, i, cfg);
      case Sweep(rows, published) => OutboxDocuments.ReconcileRows(w, rows, published);
      case Retry(e) => OutboxDocuments.RetryRows(w, e);
      case _ =>
    }
  }

  // ---- New rows -------------------------------------------------------------------------------

  /** A row as it is inserted. */
  predicate JustMade(f: Effect, now: int) {
    f == Effect(f.kind, f.doc, PENDING, 0, now, None)
  }

  /** New rows start now, not yet dispatched, with the whole budget. */
  lemma NewRow(w: World, step: Step, cfg: Config, o: EffectId)
    requires Sound(w) && Enabled(w, step, cfg) && o !in w.effects && o in Perform(w, step, cfg).effects
    ensures JustMade(Perform(w, step, cfg).effects[o], w.now)
  {
    hide OpenAuthorize, Process, Reconcile, Deliver, Record, WriteRow;
    match step {
      case Receive(e, send, authorize) => DeliverNew(w, e, send, authorize, o);
      case ReceiveAndRecord(e, send, authorize) => ProcessNew(w, e, send, authorize, cfg, o);
      case Sweep(rows, published) => ReconcileKeeps(w, rows, published);
      case _ => WritesAddNone(w, step, cfg);
    }
  }

  /** Marks, resets and records add no row. */
  lemma WritesAddNone(w: World, step: Step, cfg: Config)
    requires Enabled(w, step, cfg)
    ensures step.Mark? || step.Dispatch? || step.Retry? || step.RecordNote? ==> Perform(w, step, cfg).effects.Keys == w.effects.Keys
  {
    hide KeyTaken, Process, Reconcile, Deliver, Enqueue;
  }

  lemma DeliverNew(w: World, e: EffectId, send: SendAnswer, authorize: AuthorizeAnswer, o: EffectId)
    requires o !in w.effects && o in Deliver(w, e, send, authorize).effects
    ensures JustMade(Deliver(w, e, send, authorize).effects[o], w.now)
  {
    hide Handle;
    if Open(w, e) {
      HandleNew(w.(queue := w.queue - multiset{e}), w.effects[e], send, authorize, o);
    }
  }

  lemma ProcessNew(w: World, e: EffectId, send: SendAnswer, authorize: AuthorizeAnswer, cfg: Config, o: EffectId)
    requires Sound(w) && o !in w.effects && o in Process(w, e, send, authorize, cfg).effects
    ensures JustMade(Process(w, e, send, authorize, cfg).effects[o], w.now)
  {
    hide OpenAuthorize, Record, Process;
    if Open(w, e) {
      ProcessSettles(w, e, send, authorize, cfg);
      HandleNew(w.(queue := w.queue - multiset{e}), w.effects[e], send, authorize, o);
    } else {
      ProcessSkips(w, e, send, authorize, cfg);
    }
  }

  lemma ProcessSkips(w: World, e: EffectId, send: SendAnswer, authorize: AuthorizeAnswer, cfg: Config)
    requires !Open(w, e)
    ensures Process(w, e, send, authorize, cfg).effects == w.effects
  {
  }

  lemma HandleNew(w: World, f: Effect, send: SendAnswer, authorize: AuthorizeAnswer, o: EffectId)
    requires o !in w.effects && o in Handle(w, f, send, authorize).0.effects
    ensures JustMade(Handle(w, f, send, authorize).0.effects[o], w.now)
  {
    hide OpenAuthorize;
  }

  // ---- The budget -----------------------------------------------------------------------------

  /** FAILED rows have used exactly all of their attempts, every other row has some left. */
  predicate WithinBudget(f: Effect, cfg: Config) {
    if f.status == FAILED then f.attempts == cfg.maxAttempts else f.attempts < cfg.maxAttempts
  }

  /** Every row is within the budget, and every outstanding record was taken from a row that was. */
  ghost predicate BudgetOk(w: World, cfg: Config) {
    && (forall e :: e in w.effects ==> WithinBudget(w.effects[e], cfg))
    && forall i :: 0 <= i < |w.notes| ==> w.notes[i].attempts < cfg.maxAttempts
  }

  /** A mark that comes when its row is FAILED and no open row has its key. */
  predicate MarksFailed(w: World, step: Step) {
    step.Mark? && step.e in w.effects && w.effects[step.e].status == FAILED && !KeyTaken(w, step.e)
  }

  lemma RowKeepsBudget(w: World, step: Step, cfg: Config, o: EffectId, f': Effect)
    requires Sound(w) && BudgetOk(w, cfg) && ValidConfig(cfg) && Enabled(w, step, cfg) && o in w.effects && RowAfter(w, step, cfg, o, f')
    ensures WithinBudget(f', cfg) <==> !(step == Mark(o) && MarksFailed(w, step))
  {
    hide KeyTaken, OutcomeOf, RowsOk, OneOpen, Stale;
    assert WithinBudget(w.effects[o], cfg);
  }

  lemma NotesKeepBudget(w: World, step: Step, cfg: Config)
    requires BudgetOk(w, cfg) && Enabled(w, step, cfg)
    ensures forall i :: 0 <= i < |NotesAfter(w, step, cfg)| ==> NotesAfter(w, step, cfg)[i].attempts < cfg.maxAttempts
  {
    hide OutcomeOf, Stale;
    if step.Receive? && Open(w, step.e) {
      assert WithinBudget(w.effects[step.e], cfg);
    }
  }

  /** Every step keeps the budget, late failure records and lost ones included, except exactly a
      mark that reopens a FAILED row. */
  lemma StepKeepsBudget(w: World, step: Step, cfg: Config)
    requires Sound(w) && BudgetOk(w, cfg) && ValidConfig(cfg) && Enabled(w, step, cfg)
    ensures BudgetOk(Perform(w, step, cfg), cfg) <==> !MarksFailed(w, step)
  {
    hide Perform, Sound, RowAfter, WithinBudget, Enabled, NotesAfter, MarksFailed;
    var w' := Perform(w, step, cfg);
    StepNotes(w, step, cfg);
    NotesKeepBudget(w, step, cfg);
    forall e | e in w.effects
      ensures e in w'.effects && (WithinBudget(w'.effects[e], cfg) <==> !(step == Mark(e) && MarksFailed(w, step)))
    {
      StepRow(w, step, cfg, e);
      RowKeepsBudget(w, step, cfg, e, w'.effects[e]);
    }
    forall e | e in w'.effects && e !in w.effects
      ensures WithinBudget(w'.effects[e], cfg)
    {
      NewRow(w, step, cfg, e);
      FullBudget(w'.effects[e], cfg);
    }
    if MarksFailed(w, step) {
      MarkIsOfARow(w, step);
      assert step.e in w'.effects && !WithinBudget(w'.effects[step.e], cfg);
    }
  }

  lemma FullBudget(f: Effect, cfg: Config)
    requires f.status == PENDING && f.attempts == 0 && ValidConfig(cfg)
    ensures WithinBudget(f, cfg)
  {
  }

  lemma MarkIsOfARow(w: World, step: Step)
    requires MarksFailed(w, step)
    ensures step.Mark? && step.e in w.effects
  {
  }

  ghost predicate AlwaysWithinBudget(w: World, steps: seq<Step>, cfg: Config)
    requires Runs(w, steps, cfg)
    decreases |steps|
  {
    BudgetOk(w, cfg) && (steps == [] || AlwaysWithinBudget(Perform(w, steps[0], cfg), steps[1..], cfg))
  }

  predicate MarksFailedInRun(w: World, steps: seq<Step>, cfg: Config)
    requires Runs(w, steps, cfg)
    decreases |steps|
  {
    steps != [] && (MarksFailed(w, steps[0]) || MarksFailedInRun(Perform(w, steps[0], cfg), steps[1..], cfg))
  }

  /** Over whole runs, from the empty system or any state within budget: every row stays within
      budget all along exactly when no mark reopens a FAILED row. */
  lemma {:induction false} WithinBudgetExactly(w: World, steps: seq<Step>, cfg: Config)
    requires Sound(w) && BudgetOk(w, cfg) && ValidConfig(cfg) && Runs(w, steps, cfg)
    ensures AlwaysWithinBudget(w, steps, cfg) <==> !MarksFailedInRun(w, steps, cfg)
    decreases |steps|
  {
    hide Perform, Enabled, Sound, BudgetOk, MarksFailed;
    if steps != [] {
      StepKeepsSound(w, steps[0], cfg);
      StepKeepsBudget(w, steps[0], cfg);
      if BudgetOk(Perform(w, steps[0], cfg), cfg) {
        WithinBudgetExactly(Perform(w, steps[0], cfg), steps[1..], cfg);
      } else {
        OverBudget(Perform(w, steps[0], cfg), steps[1..], cfg);
      }
    }
  }

  lemma OverBudget(w: World, steps: seq<Step>, cfg: Config)
    requires Runs(w, steps, cfg) && !BudgetOk(w, cfg)
    ensures !AlwaysWithinBudget(w, steps, cfg)
  {
  }

  // ---- Leaving FAILED and DONE ----------------------------------------------------------------

  /** A late record that writes another status than FAILED over its row. */
  predicate RecordsOverFailed(w: World, n: Note, cfg: Config)
    requires n.effect in w.effects
  {
    n.benign || (n.attempts + 1 < cfg.maxAttempts && !KeyTaken(w, n.effect))
  }

  /** A FAILED row leaves FAILED exactly by its own reset or a late mark, when no open row has its
      key, or by a late record: a benign one, or one that counts less than the maximum, when no
      open row has its key. */
  lemma FailedIsLeftExactly(w: World, step: Step, cfg: Config, e: EffectId)
    requires Sound(w) && Enabled(w, step, cfg) && e in w.effects && w.effects[e].status == FAILED
    ensures e in Perform(w, step, cfg).effects
    ensures Perform(w, step, cfg).effects[e].status != FAILED <==>
      || ((step == Retry(e) || step == Mark(e)) && !KeyTaken(w, e))
      || (step.RecordNote? && w.notes[step.i].effect == e && RecordsOverFailed(w, w.notes[step.i], cfg))
  {
    hide Perform, KeyTaken, OutcomeOf, RowsOk, OneOpen, Stale;
    StepRow(w, step, cfg, e);
  }

  /** A DONE row leaves DONE exactly by a late mark, when no open row has its key, or by a late
      record of a failure, when no open row has its key or the failure was the last one allowed. */
  lemma DoneIsLeftExactly(w: World, step: Step, cfg: Config, e: EffectId)
    requires Sound(w) && Enabled(w, step, cfg) && e in w.effects && w.effects[e].status == DONE
    ensures e in Perform(w, step, cfg).effects
    ensures Perform(w, step, cfg).effects[e].status != DONE <==>
      || (step == Mark(e) && !KeyTaken(w, e))
      || (step.RecordNote? && w.notes[step.i].effect == e && !w.notes[step.i].benign
          && (w.notes[step.i].attempts + 1 >= cfg.maxAttempts || !KeyTaken(w, e)))
  {
    hide Perform, KeyTaken, OutcomeOf, RowsOk, OneOpen, Stale;
    StepRow(w, step, cfg, e);
  }

  // ---- Counting failures ----------------------------------------------------------------------

  /** The step runs this row's handler and the handler fails. */
  predicate Fails(w: World, step: Step, e: EffectId) {
    IsDelivery(step) && step.e == e && Open(w, e) && OutcomeOf(w, e, step.send, step.authorize) == Transient
  }

  /** Outstanding records of a row's failures. */
  function Outstanding(notes: seq<Note>, e: EffectId): nat {
    if notes == [] then 0
    else
      var last := notes[|notes| - 1];
      Outstanding(notes[..|notes| - 1], e) + if last.effect == e && !last.benign then 1 else 0
  }

  /** Failures a row has counted, with those still to be recorded. */
  function Tally(w: World, e: EffectId): nat
    requires e in w.effects
  {
    w.effects[e].attempts + Outstanding(w.notes, e)
  }

  /** A step that loses count of a row's failures: a record whose attempts are no longer the row's
      or that the unique index refuses, a lost record of a failure, a reset. */
  predicate Miscounts(w: World, step: Step, cfg: Config, e: EffectId)
    requires e in w.effects && Enabled(w, step, cfg)
  {
    var f := w.effects[e];
    match step
    case RecordNote(i) => w.notes[i].effect == e && (w.notes[i].attempts != f.attempts || !Written(w, e, RecordedRow(f, w.notes[i], cfg)))
    case LoseNote(i) => w.notes[i].effect == e && !w.notes[i].benign
    case Retry(o) => o == e && f.status == FAILED && f.attempts != 0 && !KeyTaken(w, e)
    case _ => false
  }

  lemma OutstandingPlus(notes: seq<Note>, n: Note, e: EffectId)
    ensures Outstanding(notes + [n], e) == Outstanding(notes, e) + if n.effect == e && !n.benign then 1 else 0
  {
    assert (notes + [n])[..|notes|] == notes;
  }

  lemma {:induction false} OutstandingWithout(notes: seq<Note>, i: nat, e: EffectId)
    requires i < |notes|
    ensures Outstanding(notes[..i] + notes[i + 1..], e) == Outstanding(notes, e) - if notes[i].effect == e && !notes[i].benign then 1 else 0
  {
    var init, last := notes[..|notes| - 1], notes[|notes| - 1];
    if i == |notes| - 1 {
      assert notes[..i] + notes[i + 1..] == init;
    } else {
      OutstandingWithout(init, i, e);
      assert notes[..i] + notes[i + 1..] == (init[..i] + init[i + 1..]) + [last];
      OutstandingPlus(init[..i] + init[i + 1..], last, e);
    }
  }

  lemma NotesTally(w: World, step: Step, cfg: Config, e: EffectId)
    requires Enabled(w, step, cfg)
    ensures Outstanding(NotesAfter(w, step, cfg), e) ==
      match step
      case Receive(o, _, _) => Outstanding(w.notes, e) + if Fails(w, step, e) then 1 else 0
      case RecordNote(i) => Outstanding(w.notes, e) - if w.notes[i].effect == e && !w.notes[i].benign then 1 else 0
      case LoseNote(i) => Outstanding(w.notes, e) - if w.notes[i].effect == e && !w.notes[i].benign then 1 else 0
      case _ => Outstanding(w.notes, e)
  {
    hide OutcomeOf, Stale, Outstanding;
    match step {
      case Receive(o, send, authorize) =>
        if Open(w, o) {
          OutstandingPlus(w.notes, Note(o, w.effects[o].attempts, w.effects[o].status, OutcomeOf(w, o, send, authorize) == Benign), e);
        }
      case RecordNote(i) => OutstandingWithout(w.notes, i, e);
      case LoseNote(i) => OutstandingWithout(w.notes, i, e);
      case _ =>
    }
  }

  /** A step counts a row's failures, the one it meets included, exactly when it does not miscount. */
  lemma StepTallies(w: World, step: Step, cfg: Config, e: EffectId)
    requires Sound(w) && Enabled(w, step, cfg) && e in w.effects
    ensures e in Perform(w, step, cfg).effects
    ensures Tally(Perform(w, step, cfg), e) == Tally(w, e) + (if Fails(w, step, e) then 1 else 0) <==> !Miscounts(w, step, cfg, e)
  {
    hide Perform, KeyTaken, OutcomeOf, Sound, Stale, Outstanding, NotesAfter;
    StepRow(w, step, cfg, e);
    StepNotes(w, step, cfg);
    NotesTally(w, step, cfg, e);
  }

  /** Times a row's handler fails in a run. */
  function Failures(w: World, steps: seq<Step>, cfg: Config, e: EffectId): nat
    requires Runs(w, steps, cfg)
    decreases |steps|
  {
    if steps == [] then 0
    else (if Fails(w, steps[0], e) then 1 else 0) + Failures(Perform(w, steps[0], cfg), steps[1..], cfg, e)
  }

  /** In every state of a run the row has counted, or is still to be told of, each failure so far. */
  predicate CountsAll(w: World, steps: seq<Step>, cfg: Config, e: EffectId, tally: nat)
    requires Runs(w, steps, cfg)
    decreases |steps|
  {
    && e in w.effects && Tally(w, e) == tally
    && (steps == [] || CountsAll(Perform(w, steps[0], cfg), steps[1..], cfg, e, tally + if Fails(w, steps[0], e) then 1 else 0))
  }

  predicate MiscountsInRun(w: World, steps: seq<Step>, cfg: Config, e: EffectId)
    requires Runs(w, steps, cfg)
    decreases |steps|
  {
    && e in w.effects && steps != []
    && (Miscounts(w, steps[0], cfg, e) || MiscountsInRun(Perform(w, steps[0], cfg), steps[1..], cfg, e))
  }

  /** Over whole runs: each failure of a row is counted, all along, exactly when each record that is
      written still holds the row's attempts, none is refused or lost, and the row is not reset. */
  lemma {:induction false} FailuresAreCountedExactly(w: World, steps: seq<Step>, cfg: Config, e: EffectId)
    requires Sound(w) && Runs(w, steps, cfg) && e in w.effects
    ensures CountsAll(w, steps, cfg, e, Tally(w, e)) <==> !MiscountsInRun(w, steps, cfg, e)
    ensures e in After(w, steps, cfg).effects && Sound(After(w, steps, cfg))
    ensures !MiscountsInRun(w, steps, cfg, e) ==> Tally(After(w, steps, cfg), e) == Tally(w, e) + Failures(w, steps, cfg, e)
    decreases |steps|
  {
    hide Perform, Enabled, Sound, Fails, Tally, Miscounts;
    if steps != [] {
      var next := Perform(w, steps[0], cfg);
      StepKeepsSound(w, steps[0], cfg);
      StepTallies(w, steps[0], cfg, e);
      FailuresAreCountedExactly(next, steps[1..], cfg, e);
    }
  }

  lemma {:induction false} BudgetAfter(w: World, steps: seq<Step>, cfg: Config)
    requires Runs(w, steps, cfg) && AlwaysWithinBudget(w, steps, cfg)
    ensures BudgetOk(After(w, steps, cfg), cfg)
    decreases |steps|
  {
    if steps != [] {
      BudgetAfter(Perform(w, steps[0], cfg), steps[1..], cfg);
    }
  }

  /** So in every run, late records included, that neither miscounts a row's failures nor reopens a
      FAILED row by a mark: once every record is written the row has counted each failure of its
      handler, and there were at most as many as it had attempts left. */
  lemma FailuresAreBounded(w: World, steps: seq<Step>, cfg: Config, e: EffectId)
    requires Sound(w) && BudgetOk(w, cfg) && ValidConfig(cfg) && Runs(w, steps, cfg) && e in w.effects
    requires !MarksFailedInRun(w, steps, cfg) && !MiscountsInRun(w, steps, cfg, e)
    requires Outstanding(w.notes, e) == 0 && Outstanding(After(w, steps, cfg).notes, e) == 0
    ensures
      var w' := After(w, steps, cfg);
      e in w'.effects && w'.effects[e].attempts == w.effects[e].attempts + Failures(w, steps, cfg, e) <= cfg.maxAttempts
  {
    hide Perform, Enabled, Sound;
    FailuresAreCountedExactly(w, steps, cfg, e);
    WithinBudgetExactly(w, steps, cfg);
    BudgetAfter(w, steps, cfg);
    assert WithinBudget(After(w, steps, cfg).effects[e], cfg);
  }

  // ---- Failures recorded at once --------------------------------------------------------------

  /** Steps whose marks and failure records are not separated from what they follow. */
  predicate Prompt(step: Step) {
    !step.Mark? && !step.Receive? && !step.RecordNote? && !step.LoseNote?
  }

  /** When neither marks nor records come late nothing is asked of the run but that the row is not
      reset. */
  lemma {:induction false} PromptRunsCount(w: World, steps: seq<Step>, cfg: Config, e: EffectId)
    requires Sound(w) && Runs(w, steps, cfg) && e in w.effects && Retry(e) !in steps
    requires forall i :: 0 <= i < |steps| ==> Prompt(steps[i])
    ensures !MarksFailedInRun(w, steps, cfg) && !MiscountsInRun(w, steps, cfg, e) && After(w, steps, cfg).notes == w.notes
    decreases |steps|
  {
    hide Perform, Enabled, Sound;
    if steps != [] {
      assert Prompt(steps[0]) && steps[0] in steps;
      StepKeepsSound(w, steps[0], cfg);
      StepRow(w, steps[0], cfg, e);
      StepNotes(w, steps[0], cfg);
      PromptRunsCount(Perform(w, steps[0], cfg), steps[1..], cfg, e);
    }
  }
}
