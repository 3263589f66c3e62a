/** No document is left waiting without a row that will ask for its answer, and from every such
    state some retry, sweep and delivery lead out. */
module OutboxCoverage {
  import opened Options
  import opened Outbox
  import opened OutboxRows
  import OutboxDocuments

  // ---- Entering a waiting status --------------------------------------------------------------

  /** Delivering this row now moves its document from PENDING_SEND to RECEIVED. */
  predicate Accepts(w: World, e: EffectId, send: SendAnswer) {
    && Open(w, e) && w.effects[e].kind == SRI_SEND && MayMove(w, w.effects[e].doc, RECEIVED)
    && send.Reception? && (send.recibida || send.processing)
  }

  lemma HandleEnters(w: World, f: Effect, send: SendAnswer, authorize: AuthorizeAnswer, d: DocId)
    requires d in Handle(w, f, send, authorize).0.docs
    ensures
      var w' := Handle(w, f, send, authorize).0;
      && d in w.docs
      && (w'.docs[d].status == PENDING_SEND ==> w.docs[d].status == PENDING_SEND)
      && (w'.docs[d].status == RECEIVED && w.docs[d].status != RECEIVED ==>
            f.doc == d && f.kind == SRI_SEND && MayMove(w, d, RECEIVED) && send.Reception? && (send.recibida || send.processing))
  {
    hide Enqueue;
    if f.doc in w.docs {
      OutboxDocuments.EnqueueRows(PutDoc(w, f.doc, w.docs[f.doc].(status := RECEIVED), Sent(w.docs[f.doc].status, RECEIVED)), SRI_AUTHORIZE, f.doc);
    }
  }

  lemma DeliverEnters(w: World, e: EffectId, send: SendAnswer, authorize: AuthorizeAnswer, d: DocId)
    requires d in Deliver(w, e, send, authorize).docs
    ensures
      var w' := Deliver(w, e, send, authorize);
      && d in w.docs
      && (w'.docs[d].status == PENDING_SEND ==> w.docs[d].status == PENDING_SEND)
      && (w'.docs[d].status == RECEIVED && w.docs[d].status != RECEIVED ==> Accepts(w, e, send) && w.effects[e].doc == d)
  {
    hide Handle;
    if Open(w, e) {
      HandleEnters(w.(queue := w.queue - multiset{e}), w.effects[e], send, authorize, d);
    }
  }

  predicate IsDelivery(step: Step) {
    step.Receive? || step.ReceiveAndRecord?
  }

  /** PENDING_SEND is entered by asking to send and RECEIVED by an accepting delivery, only. */
  lemma StepEnters(w: World, step: Step, cfg: Config, d: DocId)
    requires Enabled(w, step, cfg) && d in Perform(w, step, cfg).docs
    ensures
      var s := Perform(w, step, cfg).docs[d].status;
      && (s == PENDING_SEND && !(d in w.docs && w.docs[d].status == PENDING_SEND) ==> step == RequestSend(d) && MayMove(w, d, PENDING_SEND))
      && (s == RECEIVED && !(d in w.docs && w.docs[d].status == RECEIVED) ==>
            IsDelivery(step) && Accepts(w, step.e, step.send) && w.effects[step.e].doc == d)
  {
    hide Deliver, Process, Record, Reconcile, MarkDispatched, ResetForRetry, Enqueue, WithoutNote, QueueAuthorization;
    match step {
      case RequestSend(o) =>
        if MayMove(w, o, PENDING_SEND) {
          var doc := w.docs[o];
          OutboxDocuments.EnqueueRows(PutDoc(w, o, doc.(status := PENDING_SEND), StatusChanged(doc.status, PENDING_SEND)), SRI_SEND, o);
        }
      case CreateDoc(_, _, _, _) =>
      case Correct(_, _) =>
      case Void(_) =>
      case Receive(e, send, authorize) => DeliverEnters(w, e, send, authorize, d);
      case ReceiveAndRecord(e, send, authorize) =>
        OutboxDocuments.ProcessKeepsDocs(w, e, send, authorize, cfg);
        DeliverEnters(w, e, send, authorize, d);
      case _ => OutboxDocuments.RowStepsKeepDocs(w, step, cfg);
    }
  }

  // ---- Documents waiting to be sent -----------------------------------------------------------

  lemma NewRowIsLive(w: World, kind: Kind, d: DocId)
    requires Sound(w) && (kind == SRI_SEND || OpenAuthorize(w, d, w.nextId).None?)
    ensures Live(Enqueue(w, kind, d), w.nextId, kind, d)
  {
    var w' := Enqueue(w, kind, d);
    assert w'.notes == w.notes;
    assert !Doomed(w', w.nextId);
  }

  lemma QueueSendCovers(w: World, d: DocId)
    requires Sound(w) && MayMove(w, d, PENDING_SEND)
    ensures Covered(QueueSend(w, d), SRI_SEND, d)
  {
    hide Enqueue, Sound, Live;
    var w1 := PutDoc(w, d, w.docs[d].(status := PENDING_SEND), StatusChanged(w.docs[d].status, PENDING_SEND));
    OutsideKeeps(w, w1);
    NewRowIsLive(w1, SRI_SEND, d);
  }

  lemma StepKeepsSendCovered(w: World, step: Step, cfg: Config)
    requires Sound(w) && Enabled(w, step, cfg) && AllCovered(w, SRI_SEND)
    ensures AllCovered(Perform(w, step, cfg), SRI_SEND)
  {
    hide Perform, Sound, Live, QueueSend;
    var w' := Perform(w, step, cfg);
    forall d | d in w'.docs && w'.docs[d].status == PENDING_SEND
      ensures Covered(w', SRI_SEND, d)
    {
      StepEnters(w, step, cfg, d);
      if d in w.docs && w.docs[d].status == PENDING_SEND {
        var e :| Live(w, e, SRI_SEND, d);
        LiveStays(w, step, cfg, e, SRI_SEND, d);
      } else {
        QueueSendCovers(w, d);
        RequestSendIs(w, cfg, d);
      }
    }
  }

  lemma RequestSendIs(w: World, cfg: Config, d: DocId)
    ensures Enabled(w, RequestSend(d), cfg) && Perform(w, RequestSend(d), cfg) == QueueSend(w, d)
  {
  }

  /** Along every run, however late marks and notes come, a PENDING_SEND document has a send row
      that is not DONE and that no outstanding note can make DONE. */
  lemma {:induction false} SendAlwaysCovered(w: World, steps: seq<Step>, cfg: Config)
    requires Sound(w) && AllCovered(w, SRI_SEND) && Runs(w, steps, cfg)
    ensures Sound(After(w, steps, cfg)) && AllCovered(After(w, steps, cfg), SRI_SEND)
    decreases |steps|
  {
    hide Perform, Enabled, Sound, AllCovered;
    if steps != [] {
      StepKeepsSound(w, steps[0], cfg);
      StepKeepsSendCovered(w, steps[0], cfg);
      SendAlwaysCovered(Perform(w, steps[0], cfg), steps[1..], cfg);
    }
  }

  // ---- Documents waiting to be authorized -----------------------------------------------------

  /** Every row of a document that is not DONE has a benign note outstanding, the row its dedup key
      finds among them. */
  ghost predicate OnlyDoomedRows(w: World, d: DocId) {
    && OpenAuthorize(w, d, w.nextId).Some?
    && forall e :: e in w.effects && w.effects[e].kind == SRI_AUTHORIZE && w.effects[e].doc == d && w.effects[e].status != DONE ==> Doomed(w, e)
  }

  /** A delivery that moves its document to RECEIVED while the row its dedup key finds, and any other
      that is not DONE, is about to be made DONE by an outstanding note. */
  ghost predicate HitsDoomed(w: World, step: Step) {
    IsDelivery(step) && Accepts(w, step.e, step.send) && OnlyDoomedRows(w, w.effects[step.e].doc)
  }

  lemma OnlyDoomedIsUncovered(w: World, d: DocId)
    ensures OnlyDoomedRows(w, d) <==> OpenAuthorize(w, d, w.nextId).Some? && !Covered(w, SRI_AUTHORIZE, d)
  {
    hide OpenAuthorize, Doomed;
    if !OnlyDoomedRows(w, d) && OpenAuthorize(w, d, w.nextId).Some? {
      var e :| e in w.effects && w.effects[e].kind == SRI_AUTHORIZE && w.effects[e].doc == d && w.effects[e].status != DONE && !Doomed(w, e);
      assert Live(w, e, SRI_AUTHORIZE, d);
    }
  }

  lemma AcceptedRow(w: World, e: EffectId, send: SendAnswer, authorize: AuthorizeAnswer)
    requires Accepts(w, e, send)
    ensures
      var d := w.effects[e].doc;
      var w' := Deliver(w, e, send, authorize);
      && d in w'.docs && w'.docs[d].status == RECEIVED && w'.notes == w.notes
      && w'.effects == Enqueue(w, SRI_AUTHORIZE, d).effects[e := w.effects[e].(status := DONE)]
  {
    var d := w.effects[e].doc;
    var w0 := w.(queue := w.queue - multiset{e});
    var w1 := PutDoc(w0, d, w.docs[d].(status := RECEIVED), Sent(w.docs[d].status, RECEIVED));
    SameRowsFound(w, w1, d, w.nextId);
  }

  lemma {:induction false} SameRowsFound(w: World, w1: World, d: DocId, below: nat)
    requires w1.effects == w.effects
    ensures OpenAuthorize(w1, d, below) == OpenAuthorize(w, d, below)
  {
    if below > 0 {
      SameRowsFound(w, w1, d, below - 1);
    }
  }

  lemma AcceptedCovered(w: World, e: EffectId, send: SendAnswer, authorize: AuthorizeAnswer)
    requires Sound(w) && Accepts(w, e, send)
    ensures
      var d := w.effects[e].doc;
      Covered(Deliver(w, e, send, authorize), SRI_AUTHORIZE, d) <==> OpenAuthorize(w, d, w.nextId).None? || Covered(w, SRI_AUTHORIZE, d)
  {
    hide Deliver, OpenAuthorize, Sound;
    var d := w.effects[e].doc;
    var w' := Deliver(w, e, send, authorize);
    AcceptedRow(w, e, send, authorize);
    if OpenAuthorize(w, d, w.nextId).None? {
      NewRowIsLive(w, SRI_AUTHORIZE, d);
      SameDoomed(w, w');
      SoundId(w, e);
      assert Live(w', w.nextId, SRI_AUTHORIZE, d);
    } else {
      SameDoomed(w, w');
      assert forall o: EffectId :: Live(w', o, SRI_AUTHORIZE, d) <==> Live(w, o, SRI_AUTHORIZE, d);
    }
  }

  lemma SoundId(w: World, e: EffectId)
    requires Sound(w) && e in w.effects
    ensures e < w.nextId
  {
  }

  lemma SameDoomed(w: World, w': World)
    requires w'.notes == w.notes
    ensures forall o: EffectId :: Doomed(w', o) <==> Doomed(w, o)
  {
  }

  lemma DeliveryIs(w: World, step: Step, cfg: Config)
    requires Enabled(w, step, cfg) && IsDelivery(step) && Accepts(w, step.e, step.send)
    ensures Perform(w, step, cfg) == Deliver(w, step.e, step.send, step.authorize)
  {
    hide Deliver, Record;
    AcceptedRow(w, step.e, step.send, step.authorize);
  }

  /** A RECEIVED document keeps a live authorization row across a step exactly when the step is
      not one that hits a doomed row. */
  lemma StepKeepsAuthorizeCovered(w: World, step: Step, cfg: Config)
    requires Sound(w) && Enabled(w, step, cfg) && AllCovered(w, SRI_AUTHORIZE)
    ensures AllCovered(Perform(w, step, cfg), SRI_AUTHORIZE) <==> !HitsDoomed(w, step)
  {
    hide Perform, Sound, Live, Deliver, OpenAuthorize, OnlyDoomedRows;
    var w' := Perform(w, step, cfg);
    if IsDelivery(step) && Accepts(w, step.e, step.send) {
      OnlyDoomedIsUncovered(w, w.effects[step.e].doc);
      AcceptedRow(w, step.e, step.send, step.authorize);
      AcceptedCovered(w, step.e, step.send, step.authorize);
      DeliveryIs(w, step, cfg);
    }
    if !HitsDoomed(w, step) {
      forall d | d in w'.docs && w'.docs[d].status == RECEIVED
        ensures Covered(w', SRI_AUTHORIZE, d)
      {
        StepEnters(w, step, cfg, d);
        if d in w.docs && w.docs[d].status == RECEIVED {
          var e :| Live(w, e, SRI_AUTHORIZE, d);
          LiveStays(w, step, cfg, e, SRI_AUTHORIZE, d);
        }
      }
    }
  }

  /** Every state of a run is covered. */
  ghost predicate AlwaysCovered(w: World, steps: seq<Step>, cfg: Config)
    requires Runs(w, steps, cfg)
    decreases |steps|
  {
    AllCovered(w, SRI_AUTHORIZE) && (steps == [] || AlwaysCovered(Perform(w, steps[0], cfg), steps[1..], cfg))
  }

  /** Some delivery of a run hits a doomed row. */
  ghost predicate HitsDoomedInRun(w: World, steps: seq<Step>, cfg: Config)
    requires Runs(w, steps, cfg)
    decreases |steps|
  {
    steps != [] && (HitsDoomed(w, steps[0]) || HitsDoomedInRun(Perform(w, steps[0], cfg), steps[1..], cfg))
  }

  /** Over whole runs: RECEIVED documents are covered all along exactly when no delivery hits a
      doomed row. */
  lemma {:induction false} AuthorizeCoveredExactly(w: World, steps: seq<Step>, cfg: Config)
    requires Sound(w) && AllCovered(w, SRI_AUTHORIZE) && Runs(w, steps, cfg)
    ensures AlwaysCovered(w, steps, cfg) <==> !HitsDoomedInRun(w, steps, cfg)
    decreases |steps|
  {
    hide Perform, Enabled, Sound, AllCovered, HitsDoomed;
    if steps != [] {
      StepKeepsSound(w, steps[0], cfg);
      StepKeepsAuthorizeCovered(w, steps[0], cfg);
      if AllCovered(Perform(w, steps[0], cfg), SRI_AUTHORIZE) {
        AuthorizeCoveredExactly(Perform(w, steps[0], cfg), steps[1..], cfg);
      } else {
        Uncovered(Perform(w, steps[0], cfg), steps[1..], cfg);
      }
    }
  }

  lemma Uncovered(w: World, steps: seq<Step>, cfg: Config)
    requires Runs(w, steps, cfg) && !AllCovered(w, SRI_AUTHORIZE)
    ensures !AlwaysCovered(w, steps, cfg)
  {
  }

  // ---- Failures recorded at once --------------------------------------------------------------

  lemma PromptNotes(w: World, step: Step, cfg: Config)
    requires Sound(w) && Enabled(w, step, cfg) && w.notes == [] && !step.Receive?
    ensures Perform(w, step, cfg).notes == []
  {
    hide Deliver, Reconcile, MarkDispatched, ResetForRetry, Enqueue, WriteRow;
    match step {
      case RequestSend(d) =>
        if MayMove(w, d, PENDING_SEND) {
          var doc := w.docs[d];
          OutboxDocuments.EnqueueRows(PutDoc(w, d, doc.(status := PENDING_SEND), StatusChanged(doc.status, PENDING_SEND)), SRI_SEND, d);
        }
      case RequestAuthorization(d) => OutboxDocuments.EnqueueRows(w, SRI_AUTHORIZE, d);
      case Mark(e) => OutboxDocuments.MarkRows(w.(marks := w.marks - multiset{e}), e);
      case Dispatch(e) => OutboxDocuments.MarkRows(w.(queue := w.queue + multiset{e}), e);
      case ReceiveAndRecord(e, send, authorize) => ProcessNotes(w, e, send, authorize, cfg);
      case Sweep(rows, published) => OutboxDocuments.ReconcileRows(w, rows, published);
      case Retry(e) => OutboxDocuments.RetryRows(w, e);
      case _ =>
    }
  }

  lemma ProcessNotes(w: World, e: EffectId, send: SendAnswer, authorize: AuthorizeAnswer, cfg: Config)
    ensures Process(w, e, send, authorize, cfg).notes == w.notes
  {
    hide Handle, WriteRow;
    if Open(w, e) {
      OutboxDocuments.HandleMoves(w.(queue := w.queue - multiset{e}), w.effects[e], send, authorize, 0);
    }
    var w1 := Deliver(w, e, send, authorize);
    if |w.notes| < |w1.notes| {
      var w2 := WithoutNote(w1, |w.notes|);
      var n := w1.notes[|w.notes|];
      if n.effect in w2.effects {
        OutboxDocuments.WriteRowRows(w2, n.effect, RecordedRow(w2.effects[n.effect], n, cfg));
      }
    }
  }

  /** When every failure is recorded in the delivery that met it, marks may still come late and
      messages may be duplicated, lost and reordered: no RECEIVED document is ever uncovered. */
  lemma {:induction false} PromptRunsStayCovered(w: World, steps: seq<Step>, cfg: Config)
    requires Sound(w) && AllCovered(w, SRI_SEND) && AllCovered(w, SRI_AUTHORIZE) && w.notes == []
    requires Runs(w, steps, cfg) && forall i :: 0 <= i < |steps| ==> !steps[i].Receive?
    ensures
      var w' := After(w, steps, cfg);
      Sound(w') && AllCovered(w', SRI_SEND) && AllCovered(w', SRI_AUTHORIZE)
    decreases |steps|
  {
    hide Perform, Enabled, Sound, AllCovered;
    if steps != [] {
      StepKeepsSound(w, steps[0], cfg);
      StepKeepsSendCovered(w, steps[0], cfg);
      PromptNotes(w, steps[0], cfg);
      if HitsDoomed(w, steps[0]) {
        OnlyDoomedIsUncovered(w, w.effects[steps[0].e].doc);
        FoundIsLive(w, w.effects[steps[0].e].doc);
      }
      StepKeepsAuthorizeCovered(w, steps[0], cfg);
      PromptRunsStayCovered(Perform(w, steps[0], cfg), steps[1..], cfg);
    }
  }

  lemma FoundIsLive(w: World, d: DocId)
    requires w.notes == [] && OpenAuthorize(w, d, w.nextId).Some?
    ensures Covered(w, SRI_AUTHORIZE, d)
  {
    assert Live(w, OpenAuthorize(w, d, w.nextId).value, SRI_AUTHORIZE, d);
  }

  // ---- The way out ----------------------------------------------------------------------------

  /** Long enough for the sweep to find a row stale. */
  function WaitFor(w: World, e: EffectId, cfg: Config): nat
    requires e in w.effects
  {
    var f := w.effects[e];
    var since := if f.dispatchedAt.Some? then f.dispatchedAt.value else f.createdAt;
    var late := since + cfg.checkDelay + cfg.authorizeStale + cfg.effectStale + 1 - w.now;
    if late < 0 then 0 else late
  }

  /** Where an answer takes a waiting document; None when SRI gave none. */
  function Answered(kind: Kind, send: SendAnswer, authorize: AuthorizeAnswer): Option<Status> {
    if kind == SRI_SEND then
      match send
      case SendFailure => None
      case Reception(recibida, processing) => Some(if recibida || processing then RECEIVED else RETURNED)
    else
      match authorize
      case Autorizado(_) => Some(AUTHORIZED)
      case NoAutorizado => Some(NOT_AUTHORIZED)
      case _ => None
  }

  function SweepAndDeliver(w: World, e: EffectId, cfg: Config, send: SendAnswer, authorize: AuthorizeAnswer): seq<Step>
    requires e in w.effects
  {
    [Wait(WaitFor(w, e, cfg)), Sweep([e], {e}), ReceiveAndRecord(e, send, authorize)]
  }

  lemma WaitMakesStale(w: World, e: EffectId, cfg: Config)
    requires Open(w, e)
    ensures Stale(w.(now := w.now + WaitFor(w, e, cfg)), e, cfg)
  {
  }

  lemma SweepDelivers(w: World, e: EffectId)
    requires Open(w, e)
    ensures
      var w' := Reconcile(w, [e], {e});
      && e in w'.queue && Open(w', e) && w'.docs == w.docs && w'.notes == w.notes
      && w'.effects[e].kind == w.effects[e].kind && w'.effects[e].doc == w.effects[e].doc
  {
    hide KeyTaken;
    assert [e][..0] == [];
    assert Reconcile(w, [], {e}) == w;
    OutboxDocuments.ReconcileRows(w, [e], {e});
    OutboxDocuments.WriteRowRows(w.(queue := w.queue + multiset{e}), e, w.effects[e].(status := DISPATCHED, dispatchedAt := Some(w.now)));
  }

  lemma DeliveryAnswers(w: World, e: EffectId, cfg: Config, send: SendAnswer, authorize: AuthorizeAnswer)
    requires Open(w, e) && w.effects[e].doc in w.docs
    requires w.docs[w.effects[e].doc].status == OutboxDocuments.Awaited(w.effects[e].kind)
    requires Answered(w.effects[e].kind, send, authorize).Some?
    ensures
      var d := w.effects[e].doc;
      var w' := Process(w, e, send, authorize, cfg);
      d in w'.docs && Some(w'.docs[d].status) == Answered(w.effects[e].kind, send, authorize)
  {
    hide Enqueue, Record;
    var d := w.effects[e].doc;
    var w0 := w.(queue := w.queue - multiset{e});
    OutboxDocuments.ProcessKeepsDocs(w, e, send, authorize, cfg);
    OutboxDocuments.EnqueueRows(PutDoc(w0, d, w.docs[d].(status := RECEIVED), Sent(w.docs[d].status, RECEIVED)), SRI_AUTHORIZE, d);
  }

  lemma {:induction false} Three(w: World, a: Step, b: Step, c: Step, cfg: Config)
    requires Enabled(w, a, cfg) && Enabled(Perform(w, a, cfg), b, cfg) && Enabled(Perform(Perform(w, a, cfg), b, cfg), c, cfg)
    ensures Runs(w, [a, b, c], cfg) && After(w, [a, b, c], cfg) == Perform(Perform(Perform(w, a, cfg), b, cfg), c, cfg)
  {
    hide Perform, Enabled;
    assert [a, b, c][1..] == [b, c] && [b, c][1..] == [c] && [c][1..] == [];
    var w2 := Perform(Perform(w, a, cfg), b, cfg);
    assert Runs(Perform(w2, c, cfg), [], cfg);
    assert Runs(w2, [c], cfg) && After(w2, [c], cfg) == Perform(w2, c, cfg);
  }

  lemma OpenRowLeadsOut(w: World, e: EffectId, cfg: Config, send: SendAnswer, authorize: AuthorizeAnswer)
    requires Open(w, e) && w.effects[e].doc in w.docs
    requires w.docs[w.effects[e].doc].status == OutboxDocuments.Awaited(w.effects[e].kind)
    requires Answered(w.effects[e].kind, send, authorize).Some?
    ensures
      var steps := SweepAndDeliver(w, e, cfg, send, authorize);
      var d := w.effects[e].doc;
      && Runs(w, steps, cfg) && d in After(w, steps, cfg).docs
      && Some(After(w, steps, cfg).docs[d].status) == Answered(w.effects[e].kind, send, authorize)
  {
    hide Process, Reconcile, Answered, Stale, WaitFor;
    var w1 := w.(now := w.now + WaitFor(w, e, cfg));
    var w2 := Reconcile(w1, [e], {e});
    WaitMakesStale(w, e, cfg);
    SweepDelivers(w1, e);
    DeliveryAnswers(w2, e, cfg, send, authorize);
    Three(w, Wait(WaitFor(w, e, cfg)), Sweep([e], {e}), ReceiveAndRecord(e, send, authorize), cfg);
  }

  /** The steps that lead a waiting document out through a row: a manual retry if it is FAILED, then
      the sweep and one delivery. */
  function WayOut(w: World, e: EffectId, cfg: Config, send: SendAnswer, authorize: AuthorizeAnswer): seq<Step>
    requires e in w.effects
  {
    if Open(w, e) then SweepAndDeliver(w, e, cfg, send, authorize)
    else
      var w1 := ResetForRetry(w, e);
      [Retry(e)] + SweepAndDeliver(w1, e, cfg, send, authorize)
  }

  lemma RetryReopens(w: World, e: EffectId)
    requires e in w.effects && w.effects[e].status == FAILED && !KeyTaken(w, e)
    ensures
      var w' := ResetForRetry(w, e);
      Open(w', e) && w'.docs == w.docs && w'.effects[e].kind == w.effects[e].kind && w'.effects[e].doc == w.effects[e].doc
  {
  }

  lemma RowLeadsOut(w: World, e: EffectId, cfg: Config, send: SendAnswer, authorize: AuthorizeAnswer)
    requires e in w.effects && w.effects[e].status != DONE && (Open(w, e) || !KeyTaken(w, e)) && w.effects[e].doc in w.docs
    requires w.docs[w.effects[e].doc].status == OutboxDocuments.Awaited(w.effects[e].kind)
    requires Answered(w.effects[e].kind, send, authorize).Some?
    ensures
      var steps := WayOut(w, e, cfg, send, authorize);
      var d := w.effects[e].doc;
      && Runs(w, steps, cfg) && d in After(w, steps, cfg).docs
      && Some(After(w, steps, cfg).docs[d].status) == Answered(w.effects[e].kind, send, authorize)
  {
    hide KeyTaken, ResetForRetry, Answered, SweepAndDeliver;
    if Open(w, e) {
      OpenRowLeadsOut(w, e, cfg, send, authorize);
    } else {
      RetryReopens(w, e);
      var w1 := ResetForRetry(w, e);
      OpenRowLeadsOut(w1, e, cfg, send, authorize);
      var rest := SweepAndDeliver(w1, e, cfg, send, authorize);
      assert ([Retry(e)] + rest)[1..] == rest;
    }
  }

  /** Some steps of retry, sweep and delivery alone give a waiting document this answer. */
  ghost predicate LeadsTo(w: World, d: DocId, cfg: Config, answer: Option<Status>) {
    exists steps: seq<Step> ::
      && Runs(w, steps, cfg) && d in After(w, steps, cfg).docs && Some(After(w, steps, cfg).docs[d].status) == answer
      && forall i :: 0 <= i < |steps| ==> steps[i].Retry? || steps[i].Wait? || steps[i].Sweep? || steps[i].ReceiveAndRecord?
  }

  /** A covered waiting document is no dead end: whatever answer SRI is to give, a retry if the row
      is FAILED, one sweep and one delivery take the document where that answer takes it. */
  lemma NoDeadEnd(w: World, kind: Kind, d: DocId, cfg: Config, send: SendAnswer, authorize: AuthorizeAnswer)
    requires d in w.docs && w.docs[d].status == OutboxDocuments.Awaited(kind) && Covered(w, kind, d)
    requires Answered(kind, send, authorize).Some?
    ensures LeadsTo(w, d, cfg, Answered(kind, send, authorize))
  {
    hide Answered, ResetForRetry, Runs, After;
    var e :| Live(w, e, kind, d);
    if !Open(w, e) && KeyTaken(w, e) {
      e :| e in w.effects && IsOpen(w.effects[e]) && w.effects[e].kind == SRI_AUTHORIZE && w.effects[e].doc == d;
    }
    RowLeadsOut(w, e, cfg, send, authorize);
    assert Runs(w, WayOut(w, e, cfg, send, authorize), cfg);
  }

  // ---- From the empty system ------------------------------------------------------------------

  lemma EmptyIsCovered()
    ensures Sound(EMPTY) && AllCovered(EMPTY, SRI_SEND) && AllCovered(EMPTY, SRI_AUTHORIZE)
  {
  }

  /** In every run a PENDING_SEND document is covered and can be led out. */
  lemma PendingSendIsNeverStuck(steps: seq<Step>, cfg: Config, d: DocId, send: SendAnswer)
    requires Runs(EMPTY, steps, cfg) && d in After(EMPTY, steps, cfg).docs
    requires After(EMPTY, steps, cfg).docs[d].status == PENDING_SEND && send.Reception?
    ensures Covered(After(EMPTY, steps, cfg), SRI_SEND, d)
    ensures LeadsTo(After(EMPTY, steps, cfg), d, cfg, Answered(SRI_SEND, send, StillProcessing))
  {
    hide LeadsTo, Covered;
    EmptyIsCovered();
    SendAlwaysCovered(EMPTY, steps, cfg);
    NoDeadEnd(After(EMPTY, steps, cfg), SRI_SEND, d, cfg, send, StillProcessing);
  }

  /** In every run that records failures at once a RECEIVED document is covered and can be led out. */
  lemma ReceivedIsNeverStuck(steps: seq<Step>, cfg: Config, d: DocId, authorize: AuthorizeAnswer)
    requires Runs(EMPTY, steps, cfg) && d in After(EMPTY, steps, cfg).docs
    requires forall i :: 0 <= i < |steps| ==> !steps[i].Receive?
    requires After(EMPTY, steps, cfg).docs[d].status == RECEIVED && (authorize.Autorizado? || authorize.NoAutorizado?)
    ensures Covered(After(EMPTY, steps, cfg), SRI_AUTHORIZE, d)
    ensures LeadsTo(After(EMPTY, steps, cfg), d, cfg, Answered(SRI_AUTHORIZE, SendFailure, authorize))
  {
    hide LeadsTo, Covered;
    EmptyIsCovered();
    PromptRunsStayCovered(EMPTY, steps, cfg);
    NoDeadEnd(After(EMPTY, steps, cfg), SRI_AUTHORIZE, d, cfg, SendFailure, authorize);
  }

  // ---- A late note can strand a document ------------------------------------------------------

  lemma {:induction false} OneMore(w: World, steps: seq<Step>, step: Step, cfg: Config)
    requires Runs(w, steps, cfg) && Enabled(After(w, steps, cfg), step, cfg)
    ensures Runs(w, steps + [step], cfg) && After(w, steps + [step], cfg) == Perform(After(w, steps, cfg), step, cfg)
    decreases |steps|
  {
    hide Perform, Enabled;
    if steps == [] {
      assert (steps + [step])[1..] == [];
    } else {
      assert (steps + [step])[1..] == steps[1..] + [step];
      OneMore(Perform(w, steps[0], cfg), steps[1..], step, cfg);
    }
  }
}
