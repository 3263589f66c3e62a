/** What any run does to a document and its event log. Every statement here holds for the finest
    interleaving: late marks, late notes, duplicated, lost and reordered messages. */
module OutboxDocuments {
  import opened Options
  import opened Outbox

  // ---- One step, one document -----------------------------------------------------------------

  /** The edge an event records, and whether its kind is the one the code writes for it. */
  predicate Records(event: Event, from: Status, to: Status) {
    match event
    case Created => false
    case StatusChanged(f, t) => f == from && t == to && (from == SIGNED || from == RECEIVED) && CanTransition(from, to)
    case Sent(f, t) => f == from && t == to && from == PENDING_SEND && CanTransition(from, to)
    case Rebuilt(f) => f == from && to == SIGNED && CanTransition(from, to)
    case Voided => from == AUTHORIZED && to == VOIDED
    case SendError(during) => during == from == to == PENDING_SEND
    case AuthorizeError(during) => during == from == to == RECEIVED
  }

  /** A document and its log change together: nothing, or one event recording one legal edge (an
      error records the status it leaves alone). The access key and the sequential stay, the
      signed text changes only on the way back to SIGNED, the authorization only on the way into
      AUTHORIZED. */
  predicate Moves(doc: Document, log: seq<Event>, doc': Document, log': seq<Event>) {
    && doc'.accessKey == doc.accessKey && doc'.sequential == doc.sequential
    && (doc'.signedXml != doc.signedXml ==> doc'.status == SIGNED)
    && (doc'.authorization != doc.authorization ==> doc.status == RECEIVED && doc'.status == AUTHORIZED)
    && ((doc' == doc && log' == log)
        || (|log'| == |log| + 1 && log' == log + [log'[|log|]] && Records(log'[|log|], doc.status, doc'.status)))
  }

  predicate DocMoves(w: World, w': World, d: DocId) {
    d in w.docs ==> d in w'.docs && Moves(w.docs[d], Log(w, d), w'.docs[d], Log(w', d))
  }

  lemma OnlyRowsMove(w: World, w': World, d: DocId)
    requires w'.docs == w.docs && w'.logs == w.logs
    ensures DocMoves(w, w', d)
  {
  }

  lemma {:induction false} ReconcileRows(w: World, rows: seq<EffectId>, published: set<EffectId>)
    ensures Reconcile(w, rows, published).docs == w.docs && Reconcile(w, rows, published).logs == w.logs
    ensures Reconcile(w, rows, published).notes == w.notes && Reconcile(w, rows, published).nextId == w.nextId
    ensures Reconcile(w, rows, published).now == w.now
  {
    if rows != [] {
      ReconcileRows(w, rows[..|rows| - 1], published);
    }
  }

  lemma EnqueueRows(w: World, kind: Kind, d: DocId)
    ensures Enqueue(w, kind, d).docs == w.docs && Enqueue(w, kind, d).logs == w.logs && Enqueue(w, kind, d).notes == w.notes
  {
    hide OpenAuthorize;
  }

  lemma WriteRowRows(w: World, e: EffectId, f: Effect)
    ensures WriteRow(w, e, f).docs == w.docs && WriteRow(w, e, f).logs == w.logs && WriteRow(w, e, f).notes == w.notes
    ensures WriteRow(w, e, f).nextId == w.nextId && WriteRow(w, e, f).now == w.now && WriteRow(w, e, f).queue == w.queue
  {
    hide KeyTaken, IsOpen;
  }

  /** Writing one document with the event that records its edge. */
  lemma PutMoves(w: World, d: DocId, doc: Document, event: Event, o: DocId)
    requires d in w.docs && Records(event, w.docs[d].status, doc.status)
    requires doc.accessKey == w.docs[d].accessKey && doc.sequential == w.docs[d].sequential
    requires doc.signedXml != w.docs[d].signedXml ==> doc.status == SIGNED
    requires doc.authorization != w.docs[d].authorization ==> w.docs[d].status == RECEIVED && doc.status == AUTHORIZED
    ensures DocMoves(w, PutDoc(w, d, doc, event), o) && PutDoc(w, d, doc, event).notes == w.notes
  {
    hide Records;
  }

  lemma AppendMoves(w: World, d: DocId, event: Event, o: DocId)
    requires d in w.docs && Records(event, w.docs[d].status, w.docs[d].status)
    ensures DocMoves(w, Append(w, d, event), o) && Append(w, d, event).notes == w.notes
  {
    hide Records;
  }

  lemma SendMoves(w: World, d: DocId, answer: SendAnswer, o: DocId)
    ensures DocMoves(w, SendToSri(w, d, answer).0, o) && SendToSri(w, d, answer).0.notes == w.notes
  {
    hide Enqueue, Moves, PutDoc, Append;
    OnlyRowsMove(w, w, o);
    if MayMove(w, d, RECEIVED) {
      var doc := w.docs[d];
      match answer {
        case SendFailure => AppendMoves(w, d, SendError(doc.status), o);
        case Reception(recibida, processing) =>
          var to := if recibida || processing then RECEIVED else RETURNED;
          PutMoves(w, d, doc.(status := to), Sent(doc.status, to), o);
          EnqueueRows(PutDoc(w, d, doc.(status := to), Sent(doc.status, to)), SRI_AUTHORIZE, d);
      }
    }
  }

  lemma CheckMoves(w: World, d: DocId, answer: AuthorizeAnswer, o: DocId)
    ensures DocMoves(w, CheckAuthorization(w, d, answer).0, o) && CheckAuthorization(w, d, answer).0.notes == w.notes
  {
    hide Enqueue, Moves, PutDoc, Append;
    OnlyRowsMove(w, w, o);
    if MayMove(w, d, AUTHORIZED) {
      var doc := w.docs[d];
      match answer {
        case AuthorizeFailure => AppendMoves(w, d, AuthorizeError(doc.status), o);
        case StillProcessing =>
        case Autorizado(a) =>
          var doc' := WithAuthorization(doc, a).(status := AUTHORIZED);
          PutMoves(w, d, doc', StatusChanged(doc.status, AUTHORIZED), o);
        case NoAutorizado =>
          var doc' := doc.(status := NOT_AUTHORIZED);
          PutMoves(w, d, doc', StatusChanged(doc.status, NOT_AUTHORIZED), o);
      }
    }
  }

  lemma HandleMoves(w: World, f: Effect, send: SendAnswer, authorize: AuthorizeAnswer, d: DocId)
    ensures DocMoves(w, Handle(w, f, send, authorize).0, d)
    ensures Handle(w, f, send, authorize).0.notes == w.notes
  {
    hide DocMoves, SendToSri, CheckAuthorization;
    SendMoves(w, f.doc, send, d);
    CheckMoves(w, f.doc, authorize, d);
  }

  lemma DeliverMoves(w: World, e: EffectId, send: SendAnswer, authorize: AuthorizeAnswer, d: DocId)
    ensures DocMoves(w, Deliver(w, e, send, authorize), d)
  {
    hide Moves, Handle;
    if Open(w, e) {
      HandleMoves(w.(queue := w.queue - multiset{e}), w.effects[e], send, authorize, d);
    }
    OnlyRowsMove(w, w.(queue := w.queue - multiset{e}), d);
  }

  lemma RecordKeepsDocs(w: World, i: nat, cfg: Config)
    requires i < |w.notes|
    ensures Record(w, i, cfg).docs == w.docs && Record(w, i, cfg).logs == w.logs
  {
    hide WriteRow;
    var n := w.notes[i];
    var w1 := WithoutNote(w, i);
    if n.effect in w1.effects {
      WriteRowRows(w1, n.effect, RecordedRow(w1.effects[n.effect], n, cfg));
    }
  }

  lemma ProcessMoves(w: World, e: EffectId, send: SendAnswer, authorize: AuthorizeAnswer, cfg: Config, d: DocId)
    ensures DocMoves(w, Process(w, e, send, authorize, cfg), d)
  {
    hide Moves, Deliver, Record;
    DeliverMoves(w, e, send, authorize, d);
    var w1 := Deliver(w, e, send, authorize);
    if |w.notes| < |w1.notes| {
      RecordKeepsDocs(w1, |w.notes|, cfg);
    }
  }

  lemma CreateMoves(w: World, step: Step, cfg: Config, o: DocId)
    requires step.CreateDoc? && Enabled(w, step, cfg)
    ensures DocMoves(w, Perform(w, step, cfg), o)
  {
    hide Records;
  }

  lemma QueueSendMoves(w: World, d: DocId, o: DocId)
    ensures DocMoves(w, QueueSend(w, d), o)
  {
    hide Enqueue, Moves, PutDoc;
    OnlyRowsMove(w, w, o);
    if MayMove(w, d, PENDING_SEND) {
      var doc := w.docs[d];
      PutMoves(w, d, doc.(status := PENDING_SEND), StatusChanged(doc.status, PENDING_SEND), o);
      EnqueueRows(PutDoc(w, d, doc.(status := PENDING_SEND), StatusChanged(doc.status, PENDING_SEND)), SRI_SEND, d);
    }
  }

  lemma QueueAuthorizationRows(w: World, d: DocId)
    ensures QueueAuthorization(w, d).docs == w.docs && QueueAuthorization(w, d).logs == w.logs
  {
    hide Enqueue;
    EnqueueRows(w, SRI_AUTHORIZE, d);
  }

  lemma RebuildMoves(w: World, d: DocId, xml: string, o: DocId)
    ensures DocMoves(w, Rebuild(w, d, xml), o)
  {
    hide Moves, PutDoc;
    OnlyRowsMove(w, w, o);
    if MayMove(w, d, SIGNED) {
      PutMoves(w, d, w.docs[d].(status := SIGNED, signedXml := xml), Rebuilt(w.docs[d].status), o);
    }
  }

  lemma VoidMoves(w: World, d: DocId, o: DocId)
    ensures DocMoves(w, VoidDocument(w, d), o)
  {
    hide Moves, PutDoc;
    OnlyRowsMove(w, w, o);
    if d in w.docs && w.docs[d].status == AUTHORIZED {
      PutMoves(w, d, w.docs[d].(status := VOIDED), Voided, o);
    }
  }

  /** Steps that only touch the queue and the outbox rows. */
  predicate RowStep(step: Step) {
    step.Publish? || step.Mark? || step.LoseMark? || step.Dispatch? || step.Duplicate? || step.Drop? || step.LoseNote? ||
    step.Sweep? || step.Retry? || step.Wait? || step.RecordNote? || step.RequestAuthorization?
  }

  lemma RowStepsKeepDocs(w: World, step: Step, cfg: Config)
    requires Enabled(w, step, cfg) && RowStep(step)
    ensures Perform(w, step, cfg).docs == w.docs && Perform(w, step, cfg).logs == w.logs
  {
    hide Reconcile, WriteRow, Record, QueueAuthorization;
    match step {
      case Mark(e) => MarkRows(w.(marks := w.marks - multiset{e}), e);
      case Dispatch(e) => MarkRows(w.(queue := w.queue + multiset{e}), e);
      case Sweep(rows, published) => ReconcileRows(w, rows, published);
      case Retry(e) => RetryRows(w, e);
      case RecordNote(i) => RecordKeepsDocs(w, i, cfg);
      case RequestAuthorization(d) => QueueAuthorizationRows(w, d);
      case _ =>
    }
  }

  lemma MarkRows(w: World, e: EffectId)
    ensures MarkDispatched(w, e).docs == w.docs && MarkDispatched(w, e).logs == w.logs && MarkDispatched(w, e).notes == w.notes
  {
    hide WriteRow;
    if e in w.effects {
      WriteRowRows(w, e, w.effects[e].(status := DISPATCHED, dispatchedAt := Some(w.now)));
    }
  }

  lemma RetryRows(w: World, e: EffectId)
    ensures ResetForRetry(w, e).docs == w.docs && ResetForRetry(w, e).logs == w.logs && ResetForRetry(w, e).notes == w.notes
  {
    hide WriteRow;
    if e in w.effects {
      WriteRowRows(w, e, w.effects[e].(status := PENDING, attempts := 0, dispatchedAt := None));
    }
  }

  /** Every step moves every document by at most one legal edge, and logs it. */
  lemma StepMoves(w: World, step: Step, cfg: Config, d: DocId)
    requires Enabled(w, step, cfg)
    ensures DocMoves(w, Perform(w, step, cfg), d)
  {
    hide Deliver, Process, Reconcile, Moves, WriteRow, QueueSend, QueueAuthorization, Rebuild, VoidDocument, Record;
    match step {
      case CreateDoc(_, _, _, _) => CreateMoves(w, step, cfg, d);
      case RequestSend(o) => QueueSendMoves(w, o, d);
      case Correct(o, xml) => RebuildMoves(w, o, xml, d);
      case Void(o) => VoidMoves(w, o, d);
      case Receive(e, send, authorize) => DeliverMoves(w, e, send, authorize, d);
      case ReceiveAndRecord(e, send, authorize) => ProcessMoves(w, e, send, authorize, cfg, d);
      case _ => RowStepsKeepDocs(w, step, cfg);
    }
    if Perform(w, step, cfg).docs == w.docs && Perform(w, step, cfg).logs == w.logs {
      OnlyRowsMove(w, Perform(w, step, cfg), d);
    }
  }

  // ---- The log replays ------------------------------------------------------------------------

  /** The status a log leads to, along edges the state machine allows; None when it does not. */
  function Replay(log: seq<Event>): Option<Status> {
    if log == [] then None
    else if |log| == 1 then if log[0] == Created then Some(SIGNED) else None
    else
      var last := log[|log| - 1];
      match Replay(log[..|log| - 1])
      case None => None
      case Some(s) => Advance(s, last)
  }

  function Advance(s: Status, event: Event): Option<Status> {
    var to :=
      match event
      case StatusChanged(_, t) => t
      case Sent(_, t) => t
      case Rebuilt(_) => SIGNED
      case Voided => VOIDED
      case _ => s;
    if Records(event, s, to) then Some(to) else None
  }

  predicate LogsReplay(w: World) {
    forall d :: d in w.docs ==> Replay(Log(w, d)) == Some(w.docs[d].status)
  }

  lemma AdvanceRecords(event: Event, from: Status, to: Status)
    requires Records(event, from, to)
    ensures Advance(from, event) == Some(to)
  {
  }

  lemma MovesReplay(doc: Document, log: seq<Event>, doc': Document, log': seq<Event>)
    requires Moves(doc, log, doc', log') && Replay(log) == Some(doc.status)
    ensures Replay(log') == Some(doc'.status)
  {
    hide Records, Advance;
    if |log'| == |log| + 1 {
      assert log'[..|log|] == log;
      AdvanceRecords(log'[|log|], doc.status, doc'.status);
    }
  }

  lemma StepKeepsLogs(w: World, step: Step, cfg: Config)
    requires Enabled(w, step, cfg) && LogsReplay(w)
    ensures LogsReplay(Perform(w, step, cfg))
  {
    hide Moves, Replay;
    var w' := Perform(w, step, cfg);
    forall d | d in w'.docs
      ensures Replay(Log(w', d)) == Some(w'.docs[d].status)
    {
      if d in w.docs {
        StepMoves(w, step, cfg, d);
        MovesReplay(w.docs[d], Log(w, d), w'.docs[d], Log(w', d));
      } else {
        NewDocument(w, step, cfg, d);
      }
    }
  }

  lemma OnlyCreationAdds(w: World, step: Step, cfg: Config)
    requires Enabled(w, step, cfg) && !step.CreateDoc?
    ensures Perform(w, step, cfg).docs.Keys == w.docs.Keys
  {
    hide Process, Reconcile, Enqueue, WriteRow, Record, Deliver;
    match step {
      case RequestSend(d) =>
        if MayMove(w, d, PENDING_SEND) {
          var doc := w.docs[d];
          EnqueueRows(PutDoc(w, d, doc.(status := PENDING_SEND), StatusChanged(doc.status, PENDING_SEND)), SRI_SEND, d);
        }
      case Correct(_, _) =>
      case Void(_) =>
      case Receive(e, send, authorize) => DeliverAddsNone(w, e, send, authorize);
      case ReceiveAndRecord(e, send, authorize) => ProcessAddsNone(w, e, send, authorize, cfg);
      case _ => RowStepsKeepDocs(w, step, cfg);
    }
  }

  lemma SendAddsNone(w: World, d: DocId, answer: SendAnswer)
    ensures SendToSri(w, d, answer).0.docs.Keys == w.docs.Keys
  {
    hide Enqueue;
    if d in w.docs {
      EnqueueRows(PutDoc(w, d, w.docs[d].(status := RECEIVED), Sent(w.docs[d].status, RECEIVED)), SRI_AUTHORIZE, d);
    }
  }

  lemma CheckAddsNone(w: World, d: DocId, answer: AuthorizeAnswer)
    ensures CheckAuthorization(w, d, answer).0.docs.Keys == w.docs.Keys
  {
    hide WithAuthorization;
  }

  lemma DeliverAddsNone(w: World, e: EffectId, send: SendAnswer, authorize: AuthorizeAnswer)
    ensures Deliver(w, e, send, authorize).docs.Keys == w.docs.Keys
  {
    hide SendToSri, CheckAuthorization;
    if Open(w, e) {
      var d := w.effects[e].doc;
      SendAddsNone(w.(queue := w.queue - multiset{e}), d, send);
      CheckAddsNone(w.(queue := w.queue - multiset{e}), d, authorize);
    }
  }

  lemma ProcessAddsNone(w: World, e: EffectId, send: SendAnswer, authorize: AuthorizeAnswer, cfg: Config)
    ensures Process(w, e, send, authorize, cfg).docs.Keys == w.docs.Keys
  {
    hide Deliver, Record;
    DeliverAddsNone(w, e, send, authorize);
    var w1 := Deliver(w, e, send, authorize);
    if |w.notes| < |w1.notes| {
      RecordKeepsDocs(w1, |w.notes|, cfg);
    }
  }

  lemma NewDocument(w: World, step: Step, cfg: Config, d: DocId)
    requires Enabled(w, step, cfg) && d !in w.docs && d in Perform(w, step, cfg).docs
    ensures Replay(Log(Perform(w, step, cfg), d)) == Some(Perform(w, step, cfg).docs[d].status)
    ensures Perform(w, step, cfg).docs[d].status == SIGNED && Perform(w, step, cfg).docs[d].authorization == UNAUTHORIZED
  {
    if !step.CreateDoc? {
      hide Perform;
      OnlyCreationAdds(w, step, cfg);
    }
  }

  // ---- What a replaying log counts ------------------------------------------------------------

  predicate EntersPending(event: Event) {
    event == StatusChanged(SIGNED, PENDING_SEND)
  }

  predicate EntersAuthorized(event: Event) {
    event == StatusChanged(RECEIVED, AUTHORIZED)
  }

  function Queued(log: seq<Event>): nat {
    if log == [] then 0 else Queued(log[..|log| - 1]) + if EntersPending(log[|log| - 1]) then 1 else 0
  }

  function SentCount(log: seq<Event>): nat {
    if log == [] then 0 else SentCount(log[..|log| - 1]) + if log[|log| - 1].Sent? then 1 else 0
  }

  function AuthorizedCount(log: seq<Event>): nat {
    if log == [] then 0 else AuthorizedCount(log[..|log| - 1]) + if EntersAuthorized(log[|log| - 1]) then 1 else 0
  }

  /** In a log that replays every entry to PENDING_SEND is answered by exactly one SENT, the
      present one excepted, and AUTHORIZED is entered once or never. */
  lemma {:induction false} LogCounts(log: seq<Event>)
    requires Replay(log).Some?
    ensures Queued(log) == SentCount(log) + if Replay(log) == Some(PENDING_SEND) then 1 else 0
    ensures AuthorizedCount(log) == if Replay(log).value in {AUTHORIZED, VOIDED} then 1 else 0
  {
    var init := log[..|log| - 1];
    if |log| == 1 {
      assert init == [];
    } else {
      LogCounts(init);
    }
  }

  // ---- Whole runs -----------------------------------------------------------------------------

  lemma {:induction false} RunKeepsLogs(w: World, steps: seq<Step>, cfg: Config)
    requires Runs(w, steps, cfg) && LogsReplay(w)
    ensures LogsReplay(After(w, steps, cfg))
    decreases |steps|
  {
    hide LogsReplay, Perform, Enabled;
    if steps != [] {
      StepKeepsLogs(w, steps[0], cfg);
      RunKeepsLogs(Perform(w, steps[0], cfg), steps[1..], cfg);
    }
  }

  /** From the empty system, along every run, each log replays to its document's status, with one
      SENT for each earlier entry to PENDING_SEND. */
  lemma EveryLogReplays(steps: seq<Step>, cfg: Config, d: DocId)
    requires Runs(EMPTY, steps, cfg) && d in After(EMPTY, steps, cfg).docs
    ensures
      var w := After(EMPTY, steps, cfg);
      var log := Log(w, d);
      && Replay(log) == Some(w.docs[d].status)
      && Queued(log) == SentCount(log) + (if w.docs[d].status == PENDING_SEND then 1 else 0)
      && AuthorizedCount(log) <= 1
  {
    RunKeepsLogs(EMPTY, steps, cfg);
    LogCounts(Log(After(EMPTY, steps, cfg), d));
  }

  /** Along every run a document keeps its access key and sequential; once AUTHORIZED it keeps its
      authorization and can only be voided. */
  lemma {:induction false} IdentityIsPermanent(w: World, steps: seq<Step>, cfg: Config, d: DocId)
    requires Runs(w, steps, cfg) && d in w.docs
    ensures
      var w' := After(w, steps, cfg);
      && d in w'.docs && w'.docs[d].accessKey == w.docs[d].accessKey && w'.docs[d].sequential == w.docs[d].sequential
      && (w.docs[d].status in {AUTHORIZED, VOIDED} ==>
            w'.docs[d].status in {AUTHORIZED, VOIDED} && w'.docs[d].authorization == w.docs[d].authorization)
    decreases |steps|
  {
    hide Perform, Enabled;
    if steps != [] {
      StepMoves(w, steps[0], cfg, d);
      IdentityIsPermanent(Perform(w, steps[0], cfg), steps[1..], cfg, d);
    }
  }

  predicate AuthorizationsHold(w: World) {
    forall d :: d in w.docs && w.docs[d].authorization != UNAUTHORIZED ==> w.docs[d].status in {AUTHORIZED, VOIDED}
  }

  /** An authorization is written by the one entry into AUTHORIZED and by nothing else, so at most
      once. */
  lemma {:induction false} AuthorizedOnlyOnce(w: World, steps: seq<Step>, cfg: Config)
    requires Runs(w, steps, cfg) && AuthorizationsHold(w)
    ensures AuthorizationsHold(After(w, steps, cfg))
    decreases |steps|
  {
    hide Perform, Enabled;
    if steps != [] {
      var w' := Perform(w, steps[0], cfg);
      forall d | d in w'.docs && w'.docs[d].authorization != UNAUTHORIZED
        ensures w'.docs[d].status in {AUTHORIZED, VOIDED}
      {
        if d in w.docs {
          StepMoves(w, steps[0], cfg, d);
        } else {
          NewDocument(w, steps[0], cfg, d);
        }
      }
      AuthorizedOnlyOnce(w', steps[1..], cfg);
    }
  }

  // ---- Redelivery -----------------------------------------------------------------------------

  /** The status in which a message of a kind has work to do. */
  function Awaited(kind: Kind): Status {
    if kind == SRI_SEND then PENDING_SEND else RECEIVED
  }

  /** Nobody asks for anything of this document itself, and the messages delivered for it are of one
      kind; other documents do as they please. */
  predicate OnlyRedelivers(w: World, step: Step, kind: Kind, d: DocId) {
    match step
    case Receive(e, _, _) => e in w.effects && w.effects[e].doc == d ==> w.effects[e].kind == kind
    case ReceiveAndRecord(e, _, _) => e in w.effects && w.effects[e].doc == d ==> w.effects[e].kind == kind
    case RequestSend(o) => o != d
    case Correct(o, _) => o != d
    case Void(o) => o != d
    case _ => true
  }

  /** A document and its log are as they were. */
  predicate SameDoc(w: World, w': World, d: DocId) {
    d in w.docs && d in w'.docs && w'.docs[d] == w.docs[d] && Log(w', d) == Log(w, d)
  }

  predicate RedeliveryRun(w: World, steps: seq<Step>, cfg: Config, kind: Kind, d: DocId)
    decreases |steps|
  {
    steps == [] ||
    (Enabled(w, steps[0], cfg) && OnlyRedelivers(w, steps[0], kind, d) && RedeliveryRun(Perform(w, steps[0], cfg), steps[1..], cfg, kind, d))
  }

  lemma RedeliveryKeepsDoc(w: World, step: Step, cfg: Config, kind: Kind, d: DocId)
    requires Enabled(w, step, cfg) && OnlyRedelivers(w, step, kind, d)
    requires d in w.docs && w.docs[d].status != Awaited(kind)
    ensures SameDoc(w, Perform(w, step, cfg), d)
  {
    hide Reconcile, WriteRow, Record, QueueAuthorization, QueueSend, Deliver, Process, SameDoc;
    match step {
      case CreateDoc(_, _, _, _) => CreateKeepsOthers(w, step, cfg, d);
      case RequestSend(o) => QueueSendKeepsOthers(w, o, d);
      case Correct(o, xml) => RebuildKeepsOthers(w, o, xml, d);
      case Void(o) => VoidKeepsOthers(w, o, d);
      case Receive(e, send, authorize) => DeliveryKeepsDoc(w, e, send, authorize, kind, d);
      case ReceiveAndRecord(e, send, authorize) =>
        DeliveryKeepsDoc(w, e, send, authorize, kind, d);
        ProcessKeepsDocs(w, e, send, authorize, cfg);
        SameDocCarries(w, Deliver(w, e, send, authorize), Perform(w, step, cfg), d);
      case _ =>
        RowStepsKeepDocs(w, step, cfg);
        SameDocsSame(w, Perform(w, step, cfg), d);
    }
  }

  lemma SameDocsSame(w: World, w': World, d: DocId)
    requires d in w.docs && w'.docs == w.docs && w'.logs == w.logs
    ensures SameDoc(w, w', d)
  {
  }

  lemma SameDocCarries(w: World, w1: World, w': World, d: DocId)
    requires SameDoc(w, w1, d) && w'.docs == w1.docs && w'.logs == w1.logs
    ensures SameDoc(w, w', d)
  {
  }

  lemma CreateKeepsOthers(w: World, step: Step, cfg: Config, d: DocId)
    requires step.CreateDoc? && Enabled(w, step, cfg) && d in w.docs
    ensures SameDoc(w, Perform(w, step, cfg), d)
  {
  }

  lemma PutKeepsOthers(w: World, o: DocId, doc: Document, event: Event, d: DocId)
    requires d in w.docs && o != d
    ensures SameDoc(w, PutDoc(w, o, doc, event), d)
  {
  }

  lemma QueueSendKeepsOthers(w: World, o: DocId, d: DocId)
    requires d in w.docs && o != d
    ensures SameDoc(w, QueueSend(w, o), d)
  {
    hide Enqueue, PutDoc;
    if MayMove(w, o, PENDING_SEND) {
      var doc := w.docs[o].(status := PENDING_SEND);
      PutKeepsOthers(w, o, doc, StatusChanged(w.docs[o].status, PENDING_SEND), d);
      EnqueueRows(PutDoc(w, o, doc, StatusChanged(w.docs[o].status, PENDING_SEND)), SRI_SEND, o);
    }
  }

  lemma RebuildKeepsOthers(w: World, o: DocId, xml: string, d: DocId)
    requires d in w.docs && o != d
    ensures SameDoc(w, Rebuild(w, o, xml), d)
  {
  }

  lemma VoidKeepsOthers(w: World, o: DocId, d: DocId)
    requires d in w.docs && o != d
    ensures SameDoc(w, VoidDocument(w, o), d)
  {
  }

  lemma SendKeepsOthers(w: World, o: DocId, answer: SendAnswer, d: DocId)
    requires d in w.docs && o != d
    ensures SameDoc(w, SendToSri(w, o, answer).0, d)
  {
    hide Enqueue, PutDoc;
    if MayMove(w, o, RECEIVED) && answer.Reception? {
      var to := if answer.recibida || answer.processing then RECEIVED else RETURNED;
      var w1 := PutDoc(w, o, w.docs[o].(status := to), Sent(w.docs[o].status, to));
      PutKeepsOthers(w, o, w.docs[o].(status := to), Sent(w.docs[o].status, to), d);
      EnqueueRows(w1, SRI_AUTHORIZE, o);
    }
  }

  lemma CheckKeepsOthers(w: World, o: DocId, answer: AuthorizeAnswer, d: DocId)
    requires d in w.docs && o != d
    ensures SameDoc(w, CheckAuthorization(w, o, answer).0, d)
  {
    hide WithAuthorization;
  }

  lemma DeliveryKeepsDoc(w: World, e: EffectId, send: SendAnswer, authorize: AuthorizeAnswer, kind: Kind, d: DocId)
    requires d in w.docs && w.docs[d].status != Awaited(kind)
    requires e in w.effects && w.effects[e].doc == d ==> w.effects[e].kind == kind
    ensures SameDoc(w, Deliver(w, e, send, authorize), d)
  {
    hide SendToSri, CheckAuthorization;
    if Open(w, e) {
      var w0 := w.(queue := w.queue - multiset{e});
      if w.effects[e].doc == d {
        RedeliveryIdle(w, e, send, authorize);
      } else {
        SendKeepsOthers(w0, w.effects[e].doc, send, d);
        CheckKeepsOthers(w0, w.effects[e].doc, authorize, d);
      }
    }
  }

  lemma RedeliveryIdle(w: World, e: EffectId, send: SendAnswer, authorize: AuthorizeAnswer)
    requires Open(w, e) ==> w.effects[e].doc in w.docs && w.docs[w.effects[e].doc].status != Awaited(w.effects[e].kind)
    ensures Deliver(w, e, send, authorize).docs == w.docs && Deliver(w, e, send, authorize).logs == w.logs
  {
    hide Enqueue, PutDoc, Append;
  }

  lemma ProcessKeepsDocs(w: World, e: EffectId, send: SendAnswer, authorize: AuthorizeAnswer, cfg: Config)
    ensures
      var w1 := Deliver(w, e, send, authorize);
      var w2 := Process(w, e, send, authorize, cfg);
      w2.docs == w1.docs && w2.logs == w1.logs
  {
    hide Deliver, Record;
    var w1 := Deliver(w, e, send, authorize);
    if |w.notes| < |w1.notes| {
      RecordKeepsDocs(w1, |w.notes|, cfg);
    }
  }

  /** Once a message has moved its document on, delivering it again, any number of times, with any
      answers, early or late notes and marks, and whatever other documents go through meanwhile,
      changes neither the document nor its log. */
  lemma {:induction false} RedeliveryChangesNothing(w: World, steps: seq<Step>, cfg: Config, kind: Kind, d: DocId)
    requires RedeliveryRun(w, steps, cfg, kind, d) && d in w.docs && w.docs[d].status != Awaited(kind)
    ensures Runs(w, steps, cfg) && SameDoc(w, After(w, steps, cfg), d)
    decreases |steps|
  {
    hide Perform, Enabled, OnlyRedelivers;
    if steps != [] {
      RedeliveryKeepsDoc(w, steps[0], cfg, kind, d);
      RedeliveryChangesNothing(Perform(w, steps[0], cfg), steps[1..], cfg, kind, d);
    }
  }

  /** A delivery that finishes leaves its document in a status its kind has no more work in. */
  lemma FinishedMovesOn(w: World, e: EffectId, send: SendAnswer, authorize: AuthorizeAnswer)
    requires Open(w, e) && Handle(w.(queue := w.queue - multiset{e}), w.effects[e], send, authorize).1 == Finished
    ensures
      var d := w.effects[e].doc;
      var w' := Deliver(w, e, send, authorize);
      && d in w.docs && w.docs[d].status == Awaited(w.effects[e].kind)
      && d in w'.docs && w'.docs[d].status != Awaited(w.effects[e].kind)
      && e in w'.effects && w'.effects[e].status == DONE
  {
  }
}
