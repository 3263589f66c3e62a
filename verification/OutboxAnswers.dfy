/** A document column by column: what each step makes of it and of its log, from the requests and the
    answers alone, and, over whole runs, whose answer its authorization is. */
module OutboxAnswers {
  import opened Options
  import opened Outbox
  import opened OutboxDocuments

  // ---- One document, one step -----------------------------------------------------------------

  /** What SRI returned, or what was there when it returned nothing. */
  function Returned<T>(answer: Option<T>, kept: Option<T>): Option<T> {
    if answer.Some? then answer else kept
  }

  /** A document and the events logged for it. */
  datatype Change = Change(doc: Document, events: seq<Event>)

  /** A message of this kind asks SRI about the document, if the document waits for that. */
  function Asked(doc: Document, kind: Kind, send: SendAnswer, authorize: AuthorizeAnswer): Change {
    match (kind, doc.status)
    case (SRI_SEND, PENDING_SEND) =>
      (match send
       case SendFailure => Change(doc, [SendError(PENDING_SEND)])
       case Reception(true, _) => Change(doc.(status := RECEIVED), [Sent(PENDING_SEND, RECEIVED)])
       case Reception(false, true) => Change(doc.(status := RECEIVED), [Sent(PENDING_SEND, RECEIVED)])
       case Reception(false, false) => Change(doc.(status := RETURNED), [Sent(PENDING_SEND, RETURNED)]))
    case (SRI_AUTHORIZE, RECEIVED) =>
      (match authorize
       case AuthorizeFailure => Change(doc, [AuthorizeError(RECEIVED)])
       case StillProcessing => Change(doc, [])
       case NoAutorizado => Change(doc.(status := NOT_AUTHORIZED), [StatusChanged(RECEIVED, NOT_AUTHORIZED)])
       case Autorizado(Authorization(number, date, xml)) =>
         var kept := doc.authorization;
         Change(
           Document(AUTHORIZED, doc.accessKey, doc.sequential, doc.signedXml,
                    Authorization(Returned(number, kept.number), Returned(date, kept.date), Returned(xml, kept.xml))),
           [StatusChanged(RECEIVED, AUTHORIZED)]))
    case _ => Change(doc, [])
  }

  /** Message `e` is delivered for an open row of the document. */
  predicate Reaches(w: World, e: EffectId, d: DocId) {
    e in w.effects && IsOpen(w.effects[e]) && w.effects[e].doc == d
  }

  /** What a step makes of a document that is there. */
  function ChangeBy(w: World, step: Step, d: DocId): Change
    requires d in w.docs
  {
    var doc := w.docs[d];
    match step
    case RequestSend(o) =>
      if o == d && doc.status == SIGNED then Change(doc.(status := PENDING_SEND), [StatusChanged(SIGNED, PENDING_SEND)]) else Change(doc, [])
    case Correct(o, xml) =>
      if o == d && doc.status in {RETURNED, NOT_AUTHORIZED}
      then Change(Document(SIGNED, doc.accessKey, doc.sequential, xml, doc.authorization), [Rebuilt(doc.status)])
      else Change(doc, [])
    case Void(o) =>
      if o == d && doc.status == AUTHORIZED
      then Change(Document(VOIDED, doc.accessKey, doc.sequential, doc.signedXml, doc.authorization), [Voided])
      else Change(doc, [])
    case Receive(e, send, authorize) => if Reaches(w, e, d) then Asked(doc, w.effects[e].kind, send, authorize) else Change(doc, [])
    case ReceiveAndRecord(e, send, authorize) => if Reaches(w, e, d) then Asked(doc, w.effects[e].kind, send, authorize) else Change(doc, [])
    case _ => Change(doc, [])
  }

  /** From `w` to `w'` this happened to the document. */
  predicate Becomes(w: World, w': World, d: DocId, change: Change) {
    d in w'.docs && w'.docs[d] == change.doc && Log(w', d) == Log(w, d) + change.events
  }

  lemma Untouched(w: World, w': World, d: DocId)
    requires d in w.docs && w'.docs == w.docs && w'.logs == w.logs
    ensures Becomes(w, w', d, Change(w.docs[d], []))
  {
    assert Log(w, d) + [] == Log(w, d);
  }

  lemma PutBecomes(w: World, o: DocId, doc: Document, event: Event, d: DocId)
    requires d in w.docs
    ensures Becomes(w, PutDoc(w, o, doc, event), d, if o == d then Change(doc, [event]) else Change(w.docs[d], []))
  {
    assert Log(w, d) + [] == Log(w, d);
  }

  lemma AppendBecomes(w: World, o: DocId, event: Event, d: DocId)
    requires d in w.docs
    ensures Becomes(w, Append(w, o, event), d, Change(w.docs[d], if o == d then [event] else []))
  {
    assert Log(w, d) + [] == Log(w, d);
  }

  lemma RowsAfter(w: World, w1: World, w2: World, d: DocId, change: Change)
    requires Becomes(w, w1, d, change) && w2.docs == w1.docs && w2.logs == w1.logs
    ensures Becomes(w, w2, d, change)
  {
  }

  lemma FromTheSame(w: World, w0: World, w1: World, w2: World, d: DocId, change: Change)
    requires w0.docs == w.docs && w0.logs == w.logs && Becomes(w0, w1, d, change) && w2.docs == w1.docs && w2.logs == w1.logs
    ensures Becomes(w, w2, d, change)
  {
  }

  lemma SendBecomes(w: World, o: DocId, answer: SendAnswer, d: DocId)
    requires d in w.docs
    ensures Becomes(w, SendToSri(w, o, answer).0, d, if o == d then Asked(w.docs[d], SRI_SEND, answer, StillProcessing) else Change(w.docs[d], []))
  {
    hide Enqueue, Becomes, PutDoc, Append;
    if MayMove(w, o, RECEIVED) {
      var doc := w.docs[o];
      match answer {
        case SendFailure => AppendBecomes(w, o, SendError(doc.status), d);
        case Reception(recibida, processing) =>
          var to := if recibida || processing then RECEIVED else RETURNED;
          var w1 := PutDoc(w, o, doc.(status := to), Sent(doc.status, to));
          PutBecomes(w, o, doc.(status := to), Sent(doc.status, to), d);
          EnqueueRows(w1, SRI_AUTHORIZE, o);
          if to == RECEIVED {
            RowsAfter(w, w1, Enqueue(w1, SRI_AUTHORIZE, o), d, if o == d then Change(doc.(status := to), [Sent(doc.status, to)]) else Change(w.docs[d], []));
          }
      }
    } else {
      Untouched(w, w, d);
    }
  }

  lemma CheckBecomes(w: World, o: DocId, answer: AuthorizeAnswer, d: DocId)
    requires d in w.docs
    ensures Becomes(w, CheckAuthorization(w, o, answer).0, d, if o == d then Asked(w.docs[d], SRI_AUTHORIZE, SendFailure, answer) else Change(w.docs[d], []))
  {
    hide Becomes, PutDoc, Append;
    Untouched(w, w, d);
    if MayMove(w, o, AUTHORIZED) {
      var doc := w.docs[o];
      match answer {
        case AuthorizeFailure => AppendBecomes(w, o, AuthorizeError(doc.status), d);
        case StillProcessing =>
        case Autorizado(a) => PutBecomes(w, o, WithAuthorization(doc, a).(status := AUTHORIZED), StatusChanged(doc.status, AUTHORIZED), d);
        case NoAutorizado => PutBecomes(w, o, doc.(status := NOT_AUTHORIZED), StatusChanged(doc.status, NOT_AUTHORIZED), d);
      }
    }
  }

  lemma OnlyItsAnswer(doc: Document, send: SendAnswer, authorize: AuthorizeAnswer)
    ensures Asked(doc, SRI_SEND, send, authorize) == Asked(doc, SRI_SEND, send, StillProcessing)
    ensures Asked(doc, SRI_AUTHORIZE, send, authorize) == Asked(doc, SRI_AUTHORIZE, SendFailure, authorize)
  {
  }

  lemma HandleBecomes(w: World, f: Effect, send: SendAnswer, authorize: AuthorizeAnswer, d: DocId)
    requires d in w.docs
    ensures Becomes(w, Handle(w, f, send, authorize).0, d, if f.doc == d then Asked(w.docs[d], f.kind, send, authorize) else Change(w.docs[d], []))
  {
    hide SendToSri, CheckAuthorization, Asked, Becomes;
    OnlyItsAnswer(w.docs[d], send, authorize);
    if f.kind == SRI_SEND {
      SendBecomes(w, f.doc, send, d);
    } else {
      CheckBecomes(w, f.doc, authorize, d);
    }
  }

  lemma DeliverBecomes(w: World, e: EffectId, send: SendAnswer, authorize: AuthorizeAnswer, d: DocId)
    requires d in w.docs
    ensures Becomes(w, Deliver(w, e, send, authorize), d, ChangeBy(w, Receive(e, send, authorize), d))
  {
    hide Handle, Asked, Becomes;
    var w0 := w.(queue := w.queue - multiset{e});
    if Open(w, e) {
      var f := w.effects[e];
      HandleBecomes(w0, f, send, authorize, d);
      FromTheSame(w, w0, Handle(w0, f, send, authorize).0, Deliver(w, e, send, authorize), d, ChangeBy(w, Receive(e, send, authorize), d));
    } else {
      Untouched(w, w0, d);
    }
  }

  lemma ProcessBecomes(w: World, e: EffectId, send: SendAnswer, authorize: AuthorizeAnswer, cfg: Config, d: DocId)
    requires d in w.docs
    ensures Becomes(w, Process(w, e, send, authorize, cfg), d, ChangeBy(w, ReceiveAndRecord(e, send, authorize), d))
  {
    hide Deliver, Record, Becomes;
    DeliverBecomes(w, e, send, authorize, d);
    var w1 := Deliver(w, e, send, authorize);
    if |w.notes| < |w1.notes| {
      RecordKeepsDocs(w1, |w.notes|, cfg);
      RowsAfter(w, w1, Record(w1, |w.notes|, cfg), d, ChangeBy(w, Receive(e, send, authorize), d));
    }
  }

  lemma QueueBecomes(w: World, o: DocId, d: DocId)
    requires d in w.docs
    ensures Becomes(w, QueueSend(w, o), d, ChangeBy(w, RequestSend(o), d))
  {
    hide Enqueue, Becomes, PutDoc;
    Untouched(w, w, d);
    if MayMove(w, o, PENDING_SEND) {
      var doc := w.docs[o].(status := PENDING_SEND);
      var event := StatusChanged(w.docs[o].status, PENDING_SEND);
      PutBecomes(w, o, doc, event, d);
      EnqueueRows(PutDoc(w, o, doc, event), SRI_SEND, o);
      RowsAfter(w, PutDoc(w, o, doc, event), QueueSend(w, o), d, ChangeBy(w, RequestSend(o), d));
    }
  }

  lemma EditBecomes(w: World, o: DocId, xml: string, d: DocId)
    requires d in w.docs
    ensures Becomes(w, Rebuild(w, o, xml), d, ChangeBy(w, Correct(o, xml), d))
    ensures Becomes(w, VoidDocument(w, o), d, ChangeBy(w, Void(o), d))
  {
    hide Becomes, PutDoc;
    Untouched(w, w, d);
    if o in w.docs {
      var doc := w.docs[o];
      PutBecomes(w, o, doc.(status := SIGNED, signedXml := xml), Rebuilt(doc.status), d);
      PutBecomes(w, o, doc.(status := VOIDED), Voided, d);
    }
  }

  /** Every step does to every document and its log exactly what the request or the answer says:
      its columns one by one, those of an authorization as SRI returned them, and nothing else. */
  lemma StepBecomes(w: World, step: Step, cfg: Config, d: DocId)
    requires Enabled(w, step, cfg) && d in w.docs
    ensures Becomes(w, Perform(w, step, cfg), d, ChangeBy(w, step, d))
  {
    hide Deliver, Process, Reconcile, WriteRow, QueueSend, QueueAuthorization, Rebuild, VoidDocument, Record, Becomes;
    match step {
      case CreateDoc(_, _, _, _) => CreateBecomes(w, step, cfg, d);
      case RequestSend(o) => QueueBecomes(w, o, d);
      case Correct(o, xml) => EditBecomes(w, o, xml, d);
      case Void(o) => EditBecomes(w, o, "", d);
      case Receive(e, send, authorize) => DeliverBecomes(w, e, send, authorize, d);
      case ReceiveAndRecord(e, send, authorize) => ProcessBecomes(w, e, send, authorize, cfg, d);
      case _ =>
        RowStepsKeepDocs(w, step, cfg);
        Untouched(w, Perform(w, step, cfg), d);
    }
  }

  lemma CreateBecomes(w: World, step: Step, cfg: Config, d: DocId)
    requires step.CreateDoc? && Enabled(w, step, cfg) && d in w.docs
    ensures Becomes(w, Perform(w, step, cfg), d, Change(w.docs[d], []))
  {
    assert Log(w, d) + [] == Log(w, d);
  }

  /** A document appears only by its creation: SIGNED, with what it was created from, unauthorized,
      and its log begins there. */
  lemma CreatedAsAsked(w: World, step: Step, cfg: Config, d: DocId)
    requires Enabled(w, step, cfg) && d !in w.docs && d in Perform(w, step, cfg).docs
    ensures step.CreateDoc? && step.d == d
    ensures
      Perform(w, step, cfg).docs[d] == Document(SIGNED, step.accessKey, step.sequential, step.xml, Authorization(None, None, None))
      && Log(Perform(w, step, cfg), d) == [Created]
  {
    if !step.CreateDoc? {
      hide Perform;
      OnlyCreationAdds(w, step, cfg);
    }
  }

  // ---- The row behind it ----------------------------------------------------------------------

  /** How a handler ends: overtaken when the document does not wait for it, to be asked again while SRI
      is processing, failed when it or SRI fails, and finished otherwise. */
  lemma OutcomesExactly(w: World, f: Effect, send: SendAnswer, authorize: AuthorizeAnswer)
    ensures
      var outcome := Handle(w, f, send, authorize).1;
      var there := f.doc in w.docs;
      var waits := there && w.docs[f.doc].status == if f.kind == SRI_SEND then PENDING_SEND else RECEIVED;
      var fails := if f.kind == SRI_SEND then send == SendFailure else authorize == AuthorizeFailure;
      && (outcome == Transient <==> !there || (waits && fails))
      && (outcome == Benign <==> there && !waits)
      && (outcome == Requeue <==> waits && f.kind == SRI_AUTHORIZE && authorize == StillProcessing)
      && (outcome == Finished <==> waits && !fails && !(f.kind == SRI_AUTHORIZE && authorize == StillProcessing))
  {
    hide Enqueue;
  }

  /** Since when an open row is stale: an authorization row some time after it was made, or was last
      dispatched; a send row at once until it is dispatched, and then some time after that. */
  lemma StaleSince(w: World, e: EffectId, cfg: Config)
    requires Open(w, e)
    ensures
      var f := w.effects[e];
      Stale(w, e, cfg) <==>
        match (f.kind, f.dispatchedAt)
        case (SRI_AUTHORIZE, None) => w.now > f.createdAt + cfg.checkDelay
        case (SRI_AUTHORIZE, Some(at)) => w.now > at + cfg.authorizeStale
        case (SRI_SEND, None) => true
        case (SRI_SEND, Some(at)) => w.now > at + cfg.effectStale
  {
  }

  /** Asking to send a SIGNED document opens a send row for it; asking about a RECEIVED one opens an
      authorization row unless one is open; otherwise nothing is opened. */
  lemma RequestsOpenRows(w: World, d: DocId, cfg: Config)
    requires forall e :: e in w.effects ==> e < w.nextId
    ensures
      var w' := Perform(w, RequestSend(d), cfg);
      w'.effects == if d in w.docs && w.docs[d].status == SIGNED then w.effects[w.nextId := Effect(SRI_SEND, d, PENDING, 0, w.now, None)] else w.effects
    ensures
      var w' := Perform(w, RequestAuthorization(d), cfg);
      var asked := exists e :: e in w.effects && IsOpen(w.effects[e]) && w.effects[e].kind == SRI_AUTHORIZE && w.effects[e].doc == d;
      w'.effects ==
        if d in w.docs && w.docs[d].status == RECEIVED && !asked then w.effects[w.nextId := Effect(SRI_AUTHORIZE, d, PENDING, 0, w.now, None)]
        else w.effects
  {
    var r := OpenAuthorize(w, d, w.nextId);
    hide OpenAuthorize;
    if r.None? {
      forall e | e in w.effects && IsOpen(w.effects[e]) && w.effects[e].kind == SRI_AUTHORIZE
        ensures w.effects[e].doc != d
      {
        assert Open(w, e);
      }
    }
  }

  /** A step of document 0 along an edge, its row being row 0. */
  function StepAlong(from: Status, to: Status): Step {
    match from
    case SIGNED => RequestSend(0)
    case PENDING_SEND => Receive(0, Reception(to == RECEIVED, false), StillProcessing)
    case RECEIVED => Receive(0, SendFailure, if to == AUTHORIZED then Autorizado(UNAUTHORIZED) else NoAutorizado)
    case AUTHORIZED => Void(0)
    case _ => Correct(0, "")
  }

  function EdgeWorld(from: Status): World {
    var kind := if from == PENDING_SEND then SRI_SEND else SRI_AUTHORIZE;
    World(map[0 := Document(from, "", 0, "", UNAUTHORIZED)], map[], map[0 := Effect(kind, 0, PENDING, 0, 0, None)],
          multiset{0}, multiset{}, [], 1, 0)
  }

  /** Every edge of the state machine is taken by some step: with StepMoves, they are exactly the moves
      that steps make. */
  lemma EveryEdgeIsTaken(from: Status, to: Status, cfg: Config)
    requires CanTransition(from, to)
    ensures exists w: World, step: Step ::
      && Enabled(w, step, cfg) && 0 in w.docs && w.docs[0].status == from
      && 0 in Perform(w, step, cfg).docs && Perform(w, step, cfg).docs[0].status == to
  {
    hide Perform, Enabled, EdgeWorld, StepAlong, ChangeBy;
    var w, step := EdgeWorld(from), StepAlong(from, to);
    AlongMoves(from, to, cfg);
    StepBecomes(w, step, cfg, 0);
    assert Perform(w, step, cfg).docs[0].status == to;
  }

  lemma AlongMoves(from: Status, to: Status, cfg: Config)
    requires CanTransition(from, to)
    ensures
      var w := EdgeWorld(from);
      && Enabled(w, StepAlong(from, to), cfg) && 0 in w.docs && w.docs[0].status == from
      && ChangeBy(w, StepAlong(from, to), 0).doc.status == to
  {
  }

  // ---- Whose answer it is ---------------------------------------------------------------------

  /** The step delivers SRI's authorization of a document that waits for it. */
  function AnswerOf(w: World, step: Step, d: DocId): Option<Authorization> {
    if && (step.Receive? || step.ReceiveAndRecord?) && Reaches(w, step.e, d) && w.effects[step.e].kind == SRI_AUTHORIZE
       && d in w.docs && w.docs[d].status == RECEIVED && step.authorize.Autorizado?
    then Some(step.authorize.authorization)
    else None
  }

  /** The first such answer in a run. */
  function AnswerIn(w: World, steps: seq<Step>, cfg: Config, d: DocId): Option<Authorization>
    requires Runs(w, steps, cfg)
    decreases |steps|
  {
    if steps == [] then None
    else if AnswerOf(w, steps[0], d).Some? then AnswerOf(w, steps[0], d)
    else AnswerIn(Perform(w, steps[0], cfg), steps[1..], cfg, d)
  }

  predicate IsAuthorized(doc: Document) {
    doc.status == AUTHORIZED || doc.status == VOIDED
  }

  /** Either authorized, or with nothing of an authorization. */
  predicate Plain(w: World, d: DocId) {
    d in w.docs && !IsAuthorized(w.docs[d]) ==> w.docs[d].authorization == Authorization(None, None, None)
  }

  lemma StepAnswers(w: World, step: Step, cfg: Config, d: DocId)
    requires Enabled(w, step, cfg) && d in w.docs && Plain(w, d)
    ensures
      var doc' := ChangeBy(w, step, d).doc;
      if IsAuthorized(w.docs[d]) then IsAuthorized(doc') && doc'.authorization == w.docs[d].authorization
      else if AnswerOf(w, step, d).Some? then IsAuthorized(doc') && doc'.authorization == AnswerOf(w, step, d).value
      else !IsAuthorized(doc') && doc'.authorization == Authorization(None, None, None)
  {
  }

  lemma {:induction false} AnswersStay(w: World, steps: seq<Step>, cfg: Config, d: DocId)
    requires Runs(w, steps, cfg) && Plain(w, d) && d in After(w, steps, cfg).docs
    ensures
      var doc' := After(w, steps, cfg).docs[d];
      if d in w.docs && IsAuthorized(w.docs[d]) then IsAuthorized(doc') && doc'.authorization == w.docs[d].authorization
      else
        && (IsAuthorized(doc') <==> AnswerIn(w, steps, cfg, d).Some?)
        && doc'.authorization == AnswerIn(w, steps, cfg, d).GetOr(Authorization(None, None, None))
    decreases |steps|
  {
    hide Perform, Enabled, ChangeBy, AnswerOf, IsAuthorized;
    if steps != [] {
      var w1 := Perform(w, steps[0], cfg);
      if d in w.docs {
        StepBecomes(w, steps[0], cfg, d);
        StepAnswers(w, steps[0], cfg, d);
      } else {
        NoAnswerYet(w, steps[0], d);
        if d in w1.docs {
          CreatedAsAsked(w, steps[0], cfg, d);
          SignedIsNot(w1.docs[d]);
        }
      }
      AnswersStay(w1, steps[1..], cfg, d);
    }
  }

  lemma NoAnswerYet(w: World, step: Step, d: DocId)
    requires d !in w.docs
    ensures AnswerOf(w, step, d) == None
  {
  }

  lemma SignedIsNot(doc: Document)
    requires doc.status == SIGNED
    ensures !IsAuthorized(doc)
  {
  }

  /** In every run from the empty system a document is AUTHORIZED or VOIDED exactly when SRI's
      authorization of it was delivered while it waited, and then holds exactly what the first such
      answer returned, part by part; before that it holds nothing of one. */
  lemma AuthorizationIsTheAnswer(steps: seq<Step>, cfg: Config, d: DocId)
    requires Runs(EMPTY, steps, cfg) && d in After(EMPTY, steps, cfg).docs
    ensures
      var doc := After(EMPTY, steps, cfg).docs[d];
      match AnswerIn(EMPTY, steps, cfg, d)
      case Some(Authorization(number, date, xml)) =>
        && doc.status in {AUTHORIZED, VOIDED}
        && doc.authorization.number == number && doc.authorization.date == date && doc.authorization.xml == xml
      case None => doc.status !in {AUTHORIZED, VOIDED} && doc.authorization == Authorization(None, None, None)
  {
    hide Runs, After, AnswerIn;
    AnswersStay(EMPTY, steps, cfg, d);
  }
}
