/** What any run keeps of the outbox rows, at the finest interleaving: one open row per dedup key,
    and for every document SRI still owes an answer a row that will ask for it. */
module OutboxRows {
  import opened Options
  import opened Outbox
  import OutboxDocuments

  // ---- The table ------------------------------------------------------------------------------

  ghost predicate RowsOk(w: World) {
    forall e :: e in w.effects ==> e < w.nextId && w.effects[e].doc in w.docs
  }

  ghost predicate NotesOk(w: World) {
    forall i :: 0 <= i < |w.notes| ==> w.notes[i].effect in w.effects && w.notes[i].status in {PENDING, DISPATCHED}
  }

  predicate AuthorizesOpen(w: World, e: EffectId, d: DocId) {
    Open(w, e) && w.effects[e].kind == SRI_AUTHORIZE && w.effects[e].doc == d
  }

  /** At most one open row has a given dedup key. */
  ghost predicate OneOpen(w: World) {
    forall a, b, d :: AuthorizesOpen(w, a, d) && AuthorizesOpen(w, b, d) ==> a == b
  }

  ghost predicate Sound(w: World) {
    RowsOk(w) && NotesOk(w) && OneOpen(w)
  }

  lemma WriteRowKeeps(w: World, e: EffectId, f: Effect)
    requires Sound(w) && (e in w.effects ==> f.kind == w.effects[e].kind && f.doc == w.effects[e].doc)
    ensures Sound(WriteRow(w, e, f))
  {
    var w' := WriteRow(w, e, f);
    forall a, b, d | AuthorizesOpen(w', a, d) && AuthorizesOpen(w', b, d)
      ensures a == b
    {
      if a != e && b != e {
        assert AuthorizesOpen(w, a, d) && AuthorizesOpen(w, b, d);
      }
    }
  }

  lemma CloseRowKeeps(w: World, e: EffectId)
    requires Sound(w) && e in w.effects
    ensures Sound(w.(effects := w.effects[e := w.effects[e].(status := DONE)]))
  {
    var w' := w.(effects := w.effects[e := w.effects[e].(status := DONE)]);
    forall a, b, d | AuthorizesOpen(w', a, d) && AuthorizesOpen(w', b, d)
      ensures a == b
    {
      assert AuthorizesOpen(w, a, d) && AuthorizesOpen(w, b, d);
    }
  }

  lemma EnqueueKeeps(w: World, kind: Kind, d: DocId)
    requires Sound(w) && d in w.docs
    ensures Sound(Enqueue(w, kind, d))
    ensures forall e :: e in w.effects ==> e in Enqueue(w, kind, d).effects && Enqueue(w, kind, d).effects[e] == w.effects[e]
  {
    var w' := Enqueue(w, kind, d);
    forall a, b, o | AuthorizesOpen(w', a, o) && AuthorizesOpen(w', b, o)
      ensures a == b
    {
      if a != w.nextId {
        assert AuthorizesOpen(w, a, o);
      }
      if b != w.nextId {
        assert AuthorizesOpen(w, b, o);
      }
    }
  }

  /** Changing documents, logs, messages, marks or the clock keeps the table as it is. */
  lemma OutsideKeeps(w: World, w': World)
    requires Sound(w) && w.docs.Keys <= w'.docs.Keys && w'.effects == w.effects && w'.nextId == w.nextId && w'.notes == w.notes
    ensures Sound(w')
  {
    forall a, b, d | AuthorizesOpen(w', a, d) && AuthorizesOpen(w', b, d)
      ensures a == b
    {
      assert AuthorizesOpen(w, a, d) && AuthorizesOpen(w, b, d);
    }
  }

  lemma NoteKeeps(w: World, n: Note)
    requires Sound(w) && n.effect in w.effects && n.status in {PENDING, DISPATCHED}
    ensures Sound(w.(notes := w.notes + [n]))
  {
    var w' := w.(notes := w.notes + [n]);
    forall a, b, d | AuthorizesOpen(w', a, d) && AuthorizesOpen(w', b, d)
      ensures a == b
    {
      assert AuthorizesOpen(w, a, d) && AuthorizesOpen(w, b, d);
    }
  }

  lemma WithoutNoteKeeps(w: World, i: nat)
    requires Sound(w) && i < |w.notes|
    ensures Sound(WithoutNote(w, i))
  {
    var w' := WithoutNote(w, i);
    forall a, b, d | AuthorizesOpen(w', a, d) && AuthorizesOpen(w', b, d)
      ensures a == b
    {
      assert AuthorizesOpen(w, a, d) && AuthorizesOpen(w, b, d);
    }
  }

  lemma RecordKeeps(w: World, i: nat, cfg: Config)
    requires Sound(w) && i < |w.notes|
    ensures Sound(Record(w, i, cfg))
  {
    hide Sound, WriteRow, WithoutNote;
    WithoutNoteKeeps(w, i);
    var w1 := WithoutNote(w, i);
    if w.notes[i].effect in w1.effects {
      WriteRowKeeps(w1, w.notes[i].effect, RecordedRow(w1.effects[w.notes[i].effect], w.notes[i], cfg));
    }
  }

  lemma {:induction false} ReconcileKeeps(w: World, rows: seq<EffectId>, published: set<EffectId>)
    requires Sound(w)
    ensures Sound(Reconcile(w, rows, published))
    ensures Reconcile(w, rows, published).effects.Keys == w.effects.Keys
  {
    hide Sound, WriteRow;
    if rows != [] {
      ReconcileKeeps(w, rows[..|rows| - 1], published);
      var w1 := Reconcile(w, rows[..|rows| - 1], published);
      MarkKeeps(w1, w1.(queue := w1.queue + multiset{rows[|rows| - 1]}), rows[|rows| - 1]);
    }
  }

  lemma MarkKeeps(w: World, w1: World, e: EffectId)
    requires Sound(w) && w1.docs == w.docs && w1.effects == w.effects && w1.nextId == w.nextId && w1.notes == w.notes
    ensures Sound(MarkDispatched(w1, e)) && MarkDispatched(w1, e).effects.Keys == w.effects.Keys
  {
    hide Sound, KeyTaken;
    OutsideKeeps(w, w1);
    if e in w.effects {
      WriteRowKeeps(w1, e, w.effects[e].(status := DISPATCHED, dispatchedAt := Some(w1.now)));
    }
  }

  lemma HandleKeeps(w: World, f: Effect, send: SendAnswer, authorize: AuthorizeAnswer)
    requires Sound(w)
    ensures Sound(Handle(w, f, send, authorize).0)
    ensures forall e :: e in w.effects ==> e in Handle(w, f, send, authorize).0.effects && Handle(w, f, send, authorize).0.effects[e] == w.effects[e]
  {
    hide Sound, Enqueue;
    var d := f.doc;
    if d in w.docs {
      var w' := Handle(w, f, send, authorize).0;
      if f.kind == SRI_SEND && MayMove(w, d, RECEIVED) && send.Reception? && (send.recibida || send.processing) {
        var w1 := PutDoc(w, d, w.docs[d].(status := RECEIVED), Sent(w.docs[d].status, RECEIVED));
        OutsideKeeps(w, w1);
        EnqueueKeeps(w1, SRI_AUTHORIZE, d);
      } else {
        OutsideKeeps(w, w');
      }
    }
  }

  lemma DeliverKeeps(w: World, e: EffectId, send: SendAnswer, authorize: AuthorizeAnswer)
    requires Sound(w)
    ensures Sound(Deliver(w, e, send, authorize))
  {
    hide Sound, Handle;
    var w0 := w.(queue := w.queue - multiset{e});
    OutsideKeeps(w, w0);
    if Open(w, e) {
      var f := w.effects[e];
      HandleKeeps(w0, f, send, authorize);
      var (w1, outcome) := Handle(w0, f, send, authorize);
      CloseRowKeeps(w1, e);
      NoteKeeps(w1, Note(e, f.attempts, f.status, true));
      NoteKeeps(w1, Note(e, f.attempts, f.status, false));
    }
  }

  lemma ProcessKeeps(w: World, e: EffectId, send: SendAnswer, authorize: AuthorizeAnswer, cfg: Config)
    requires Sound(w)
    ensures Sound(Process(w, e, send, authorize, cfg))
  {
    hide Sound, Deliver, Record;
    DeliverKeeps(w, e, send, authorize);
    var w1 := Deliver(w, e, send, authorize);
    if |w.notes| < |w1.notes| {
      RecordKeeps(w1, |w.notes|, cfg);
    }
  }

  lemma RetryKeeps(w: World, e: EffectId)
    requires Sound(w)
    ensures Sound(ResetForRetry(w, e))
  {
    hide Sound, WriteRow;
    if e in w.effects {
      WriteRowKeeps(w, e, w.effects[e].(status := PENDING, attempts := 0, dispatchedAt := None));
    }
  }

  lemma QueueSendKeeps(w: World, d: DocId)
    requires Sound(w)
    ensures Sound(QueueSend(w, d))
  {
    hide Sound, Enqueue;
    if MayMove(w, d, PENDING_SEND) {
      var w1 := PutDoc(w, d, w.docs[d].(status := PENDING_SEND), StatusChanged(w.docs[d].status, PENDING_SEND));
      OutsideKeeps(w, w1);
      EnqueueKeeps(w1, SRI_SEND, d);
    }
  }

  /** Every step keeps one open row per dedup key, rows of known documents, and notes of known rows. */
  lemma StepKeepsSound(w: World, step: Step, cfg: Config)
    requires Sound(w) && Enabled(w, step, cfg)
    ensures Sound(Perform(w, step, cfg))
  {
    hide Sound, Deliver, Process, Record, Reconcile, QueueSend, MarkDispatched, ResetForRetry, Enqueue, WithoutNote;
    match step {
      case RequestSend(d) => QueueSendKeeps(w, d);
      case RequestAuthorization(d) => if d in w.docs { EnqueueKeeps(w, SRI_AUTHORIZE, d); }
      case Mark(e) => MarkKeeps(w, w.(marks := w.marks - multiset{e}), e);
      case Dispatch(e) => MarkKeeps(w, w.(queue := w.queue + multiset{e}), e);
      case Receive(e, send, authorize) => DeliverKeeps(w, e, send, authorize);
      case ReceiveAndRecord(e, send, authorize) => ProcessKeeps(w, e, send, authorize, cfg);
      case RecordNote(i) => RecordKeeps(w, i, cfg);
      case LoseNote(i) => WithoutNoteKeeps(w, i);
      case Sweep(rows, published) => ReconcileKeeps(w, rows, published);
      case Retry(e) => RetryKeeps(w, e);
      case _ => OutsideKeeps(w, Perform(w, step, cfg));
    }
  }

  // ---- Rows that will ask ---------------------------------------------------------------------

  ghost predicate Doomed(w: World, e: EffectId) {
    exists i :: 0 <= i < |w.notes| && w.notes[i].effect == e && w.notes[i].benign
  }

  /** A row of a document that is not DONE and that no outstanding note will make DONE. */
  ghost predicate Live(w: World, e: EffectId, kind: Kind, d: DocId) {
    e in w.effects && w.effects[e].kind == kind && w.effects[e].doc == d && w.effects[e].status != DONE && !Doomed(w, e)
  }

  ghost predicate Covered(w: World, kind: Kind, d: DocId) {
    exists e :: Live(w, e, kind, d)
  }

  /** Every document that awaits an answer of this kind has such a row. */
  ghost predicate AllCovered(w: World, kind: Kind) {
    forall d :: d in w.docs && w.docs[d].status == OutboxDocuments.Awaited(kind) ==> Covered(w, kind, d)
  }

  lemma WriteRowLive(w: World, e: EffectId, f: Effect, o: EffectId, kind: Kind, d: DocId)
    requires Live(w, o, kind, d) && (e in w.effects ==> f.kind == w.effects[e].kind && f.doc == w.effects[e].doc)
    requires e == o ==> f.status != DONE
    ensures Live(WriteRow(w, e, f), o, kind, d)
  {
    hide KeyTaken, IsOpen;
    assert WriteRow(w, e, f).notes == w.notes;
  }

  lemma MarkLive(w: World, w1: World, e: EffectId, o: EffectId, kind: Kind, d: DocId)
    requires Live(w, o, kind, d) && w1.effects == w.effects && w1.notes == w.notes
    ensures Live(MarkDispatched(w1, e), o, kind, d)
  {
    hide WriteRow;
    assert !Doomed(w1, o);
    if e in w.effects {
      WriteRowLive(w1, e, w.effects[e].(status := DISPATCHED, dispatchedAt := Some(w1.now)), o, kind, d);
    }
  }

  lemma {:induction false} ReconcileLive(w: World, rows: seq<EffectId>, published: set<EffectId>, o: EffectId, kind: Kind, d: DocId)
    requires Live(w, o, kind, d)
    ensures Live(Reconcile(w, rows, published), o, kind, d)
  {
    hide Live, MarkDispatched;
    if rows != [] {
      ReconcileLive(w, rows[..|rows| - 1], published, o, kind, d);
      var w1 := Reconcile(w, rows[..|rows| - 1], published);
      MarkLive(w1, w1.(queue := w1.queue + multiset{rows[|rows| - 1]}), rows[|rows| - 1], o, kind, d);
    }
  }

  lemma WithoutNoteLive(w: World, i: nat, o: EffectId, kind: Kind, d: DocId)
    requires Live(w, o, kind, d) && i < |w.notes|
    ensures Live(WithoutNote(w, i), o, kind, d)
  {
  }

  lemma RecordLive(w: World, i: nat, cfg: Config, o: EffectId, kind: Kind, d: DocId)
    requires NotesOk(w) && Live(w, o, kind, d) && i < |w.notes|
    ensures Live(Record(w, i, cfg), o, kind, d)
  {
    hide WriteRow;
    WithoutNoteLive(w, i, o, kind, d);
    var w1 := WithoutNote(w, i);
    var n := w.notes[i];
    assert n.effect == o ==> !n.benign;
    if n.effect in w1.effects {
      WriteRowLive(w1, n.effect, RecordedRow(w1.effects[n.effect], n, cfg), o, kind, d);
    }
  }

  lemma EnqueueLive(w: World, k: Kind, o: DocId, e: EffectId, kind: Kind, d: DocId)
    requires RowsOk(w) && Live(w, e, kind, d)
    ensures Live(Enqueue(w, k, o), e, kind, d)
  {
    hide OpenAuthorize;
    assert Enqueue(w, k, o).notes == w.notes;
  }

  lemma OutsideLive(w: World, w': World, e: EffectId, kind: Kind, d: DocId)
    requires Live(w, e, kind, d) && w'.effects == w.effects && w'.notes == w.notes
    ensures Live(w', e, kind, d)
  {
    assert !Doomed(w', e);
  }

  /** A handler changes no row that is there, and answers benignly only for an overtaken document. */
  lemma HandleLive(w: World, f: Effect, send: SendAnswer, authorize: AuthorizeAnswer, o: EffectId, kind: Kind, d: DocId)
    requires RowsOk(w) && Live(w, o, kind, d)
    ensures Live(Handle(w, f, send, authorize).0, o, kind, d)
  {
    hide Live, Enqueue, RowsOk;
    if f.doc in w.docs {
      if f.kind == SRI_SEND && MayMove(w, f.doc, RECEIVED) && send.Reception? && (send.recibida || send.processing) {
        var w1 := PutDoc(w, f.doc, w.docs[f.doc].(status := RECEIVED), Sent(w.docs[f.doc].status, RECEIVED));
        OutsideLive(w, w1, o, kind, d);
        RowsOkPut(w, f.doc, w.docs[f.doc].(status := RECEIVED), Sent(w.docs[f.doc].status, RECEIVED));
        EnqueueLive(w1, SRI_AUTHORIZE, f.doc, o, kind, d);
      } else {
        OutsideLive(w, Handle(w, f, send, authorize).0, o, kind, d);
      }
    }
  }

  lemma RowsOkPut(w: World, d: DocId, doc: Document, event: Event)
    requires RowsOk(w)
    ensures RowsOk(PutDoc(w, d, doc, event))
  {
  }

  /** What a handler's outcome says of the document it worked on. */
  lemma OutcomeMeans(w: World, f: Effect, send: SendAnswer, authorize: AuthorizeAnswer)
    requires f.doc in w.docs
    ensures
      var (w', outcome) := Handle(w, f, send, authorize);
      && f.doc in w'.docs
      && (outcome == Benign <==> w.docs[f.doc].status != OutboxDocuments.Awaited(f.kind))
      && (outcome == Finished ==> w'.docs[f.doc].status != OutboxDocuments.Awaited(f.kind))
  {
    hide Enqueue;
    OutboxDocuments.EnqueueRows(PutDoc(w, f.doc, w.docs[f.doc].(status := RECEIVED), Sent(w.docs[f.doc].status, RECEIVED)), SRI_AUTHORIZE, f.doc);
  }

  lemma NoteLive(w: World, n: Note, o: EffectId, kind: Kind, d: DocId)
    requires Live(w, o, kind, d) && (n.effect == o ==> !n.benign)
    ensures Live(w.(notes := w.notes + [n]), o, kind, d)
  {
  }

  lemma DeliverLive(w: World, e: EffectId, send: SendAnswer, authorize: AuthorizeAnswer, o: EffectId, kind: Kind, d: DocId)
    requires RowsOk(w) && Live(w, o, kind, d) && d in w.docs && w.docs[d].status == OutboxDocuments.Awaited(kind)
    ensures
      var w' := Deliver(w, e, send, authorize);
      Live(w', o, kind, d) || (d in w'.docs && w'.docs[d].status != OutboxDocuments.Awaited(kind))
  {
    hide Handle, OutboxDocuments.Awaited;
    var w0 := w.(queue := w.queue - multiset{e});
    OutsideLive(w, w0, o, kind, d);
    if Open(w, e) {
      var f := w.effects[e];
      HandleLive(w0, f, send, authorize, o, kind, d);
      OutcomeMeans(w0, f, send, authorize);
      var (w1, outcome) := Handle(w0, f, send, authorize);
      if outcome == Benign {
        NoteLive(w1, Note(e, f.attempts, f.status, true), o, kind, d);
      } else if outcome == Transient {
        NoteLive(w1, Note(e, f.attempts, f.status, false), o, kind, d);
      } else if outcome == Finished && e != o {
        CloseLive(w1, e, f, o, kind, d);
      }
    }
  }

  lemma CloseLive(w: World, e: EffectId, f: Effect, o: EffectId, kind: Kind, d: DocId)
    requires Live(w, o, kind, d) && e != o
    ensures Live(w.(effects := w.effects[e := f.(status := DONE)]), o, kind, d)
  {
    assert !Doomed(w.(effects := w.effects[e := f.(status := DONE)]), o);
  }

  lemma ProcessLive(w: World, e: EffectId, send: SendAnswer, authorize: AuthorizeAnswer, cfg: Config, o: EffectId, kind: Kind, d: DocId)
    requires Sound(w) && Live(w, o, kind, d) && d in w.docs && w.docs[d].status == OutboxDocuments.Awaited(kind)
    ensures
      var w' := Process(w, e, send, authorize, cfg);
      Live(w', o, kind, d) || (d in w'.docs && w'.docs[d].status != OutboxDocuments.Awaited(kind))
  {
    hide Deliver, Record, Live, RowsOk, NotesOk, OneOpen, OutboxDocuments.Awaited;
    DeliverLive(w, e, send, authorize, o, kind, d);
    DeliverKeeps(w, e, send, authorize);
    var w1 := Deliver(w, e, send, authorize);
    if |w.notes| < |w1.notes| {
      OutboxDocuments.RecordKeepsDocs(w1, |w.notes|, cfg);
      if Live(w1, o, kind, d) {
        RecordLive(w1, |w.notes|, cfg, o, kind, d);
      }
    }
  }

  lemma RetryLive(w: World, e: EffectId, o: EffectId, kind: Kind, d: DocId)
    requires Live(w, o, kind, d)
    ensures Live(ResetForRetry(w, e), o, kind, d)
  {
    hide WriteRow;
    if e in w.effects {
      WriteRowLive(w, e, w.effects[e].(status := PENDING, attempts := 0, dispatchedAt := None), o, kind, d);
    }
  }

  lemma QueueSendLive(w: World, o: DocId, e: EffectId, kind: Kind, d: DocId)
    requires RowsOk(w) && Live(w, e, kind, d)
    ensures Live(QueueSend(w, o), e, kind, d)
  {
    hide Live, Enqueue, RowsOk;
    if MayMove(w, o, PENDING_SEND) {
      var doc := w.docs[o].(status := PENDING_SEND);
      RowsOkPut(w, o, doc, StatusChanged(w.docs[o].status, PENDING_SEND));
      OutsideLive(w, PutDoc(w, o, doc, StatusChanged(w.docs[o].status, PENDING_SEND)), e, kind, d);
      EnqueueLive(PutDoc(w, o, doc, StatusChanged(w.docs[o].status, PENDING_SEND)), SRI_SEND, o, e, kind, d);
    }
  }

  /** While a document awaits an answer, no step at all takes away a live row that would ask for
      it: not a late mark, not a late note, not any delivery. */
  lemma LiveStays(w: World, step: Step, cfg: Config, e: EffectId, kind: Kind, d: DocId)
    requires Sound(w) && Enabled(w, step, cfg)
    requires Live(w, e, kind, d) && d in w.docs && w.docs[d].status == OutboxDocuments.Awaited(kind)
    ensures
      var w' := Perform(w, step, cfg);
      Live(w', e, kind, d) || (d in w'.docs && w'.docs[d].status != OutboxDocuments.Awaited(kind))
  {
    hide Live, RowsOk, NotesOk, OneOpen, Deliver, Process, Record, Reconcile, QueueSend, MarkDispatched, ResetForRetry, Enqueue, WithoutNote;
    match step {
      case RequestSend(o) => QueueSendLive(w, o, e, kind, d);
      case RequestAuthorization(o) => EnqueueLive(w, SRI_AUTHORIZE, o, e, kind, d);
      case Mark(m) => MarkLive(w, w.(marks := w.marks - multiset{m}), m, e, kind, d);
      case Dispatch(m) => MarkLive(w, w.(queue := w.queue + multiset{m}), m, e, kind, d);
      case Receive(m, send, authorize) => DeliverLive(w, m, send, authorize, e, kind, d);
      case ReceiveAndRecord(m, send, authorize) => ProcessLive(w, m, send, authorize, cfg, e, kind, d);
      case RecordNote(i) => RecordLive(w, i, cfg, e, kind, d);
      case LoseNote(i) => WithoutNoteLive(w, i, e, kind, d);
      case Sweep(rows, published) => ReconcileLive(w, rows, published, e, kind, d);
      case Retry(m) => RetryLive(w, m, e, kind, d);
      case _ => OutsideLive(w, Perform(w, step, cfg), e, kind, d);
    }
  }
}
