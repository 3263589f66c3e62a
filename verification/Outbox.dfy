/** Documents, their event logs, and the outbox rows whose messages drive them through the tax
    authority (SRI).

    The queue may duplicate, drop and reorder messages, SRI may answer anything, publishing and
    marking a row dispatched are separate steps, and so are running a handler that fails and
    recording its failure. */
module Outbox {
  import opened Options

  type DocId = nat
  type EffectId = nat

  datatype Status = SIGNED | PENDING_SEND | RECEIVED | RETURNED | AUTHORIZED | NOT_AUTHORIZED | VOIDED

  function Transitions(from: Status): set<Status> {
    match from
    case SIGNED => {PENDING_SEND}
    case PENDING_SEND => {RECEIVED, RETURNED}
    case RECEIVED => {AUTHORIZED, NOT_AUTHORIZED}
    case RETURNED => {SIGNED}
    case NOT_AUTHORIZED => {SIGNED}
    case AUTHORIZED => {VOIDED}
    case VOIDED => {}
  }

  predicate CanTransition(from: Status, to: Status) {
    to in Transitions(from)
  }

  /** What SRI returned on authorization; each part may be missing. */
  datatype Authorization = Authorization(number: Option<string>, date: Option<int>, xml: Option<string>)

  const UNAUTHORIZED := Authorization(None, None, None)

  datatype Document = Document(
    status: Status,
    accessKey: string,
    sequential: nat,
    signedXml: string,
    authorization: Authorization)

  /** Entries of a document's event log. */
  datatype Event =
    | Created
    | StatusChanged(from: Status, to: Status)
    | Sent(from: Status, to: Status)
    | Rebuilt(from: Status)
    | Voided
    | SendError(during: Status)
    | AuthorizeError(during: Status)

  datatype EffectStatus = PENDING | DISPATCHED | DONE | FAILED

  datatype Kind = SRI_SEND | SRI_AUTHORIZE

  datatype Effect = Effect(
    kind: Kind,
    doc: DocId,
    status: EffectStatus,
    attempts: nat,
    createdAt: int,
    dispatchedAt: Option<int>)

  /** A failed attempt whose outcome is not yet written to its row: the row as it was claimed, and
      whether the failure only says that the document had already moved on. */
  datatype Note = Note(effect: EffectId, attempts: nat, status: EffectStatus, benign: bool)

  datatype World = World(
    docs: map<DocId, Document>,
    logs: map<DocId, seq<Event>>,
    effects: map<EffectId, Effect>,
    queue: multiset<EffectId>,
    marks: multiset<EffectId>,
    notes: seq<Note>,
    nextId: EffectId,
    now: int)

  const EMPTY: World := World(map[], map[], map[], multiset{}, multiset{}, [], 0, 0)

  /** Attempts before a row is FAILED, and the staleness windows of the reconciliation sweep. */
  datatype Config = Config(maxAttempts: nat, checkDelay: nat, authorizeStale: nat, effectStale: nat)

  predicate ValidConfig(cfg: Config) {
    1 <= cfg.maxAttempts
  }

  datatype SendAnswer =
    | SendFailure
    | Reception(recibida: bool, processing: bool)

  datatype AuthorizeAnswer =
    | AuthorizeFailure
    | StillProcessing
    | Autorizado(authorization: Authorization)
    | NoAutorizado

  // ---- Outbox rows --------------------------------------------------------------------------

  predicate IsOpen(f: Effect) {
    f.status == PENDING || f.status == DISPATCHED
  }

  predicate Open(w: World, e: EffectId) {
    e in w.effects && IsOpen(w.effects[e])
  }

  /** The newest open authorization row of a document below an id: its dedup key's row. */
  function OpenAuthorize(w: World, d: DocId, below: nat): (r: Option<EffectId>)
    ensures r.Some? ==> r.value < below && Open(w, r.value) && w.effects[r.value].kind == SRI_AUTHORIZE && w.effects[r.value].doc == d
    ensures r.None? ==> forall e: EffectId :: e < below && Open(w, e) && w.effects[e].kind == SRI_AUTHORIZE ==> w.effects[e].doc != d
  {
    if below == 0 then None
    else
      var e := below - 1;
      if Open(w, e) && w.effects[e].kind == SRI_AUTHORIZE && w.effects[e].doc == d then Some(e)
      else OpenAuthorize(w, d, e)
  }

  /** The partial unique index on dedup keys: another open row has this row's key. */
  predicate KeyTaken(w: World, e: EffectId)
    requires e in w.effects
  {
    && w.effects[e].kind == SRI_AUTHORIZE
    && exists o :: o in w.effects && o != e && IsOpen(w.effects[o]) && w.effects[o].kind == SRI_AUTHORIZE && w.effects[o].doc == w.effects[e].doc
  }

  /** Writes a row; a write that would break the unique index fails and leaves the row. */
  function WriteRow(w: World, e: EffectId, f: Effect): World {
    if e !in w.effects || (IsOpen(f) && KeyTaken(w, e)) then w
    else w.(effects := w.effects[e := f])
  }

  /** Inserts a row, or finds the open one with its dedup key. */
  function Enqueue(w: World, kind: Kind, d: DocId): World {
    if kind == SRI_AUTHORIZE && OpenAuthorize(w, d, w.nextId).Some? then w
    else w.(effects := w.effects[w.nextId := Effect(kind, d, PENDING, 0, w.now, None)], nextId := w.nextId + 1)
  }

  function MarkDispatched(w: World, e: EffectId): World {
    if e in w.effects then WriteRow(w, e, w.effects[e].(status := DISPATCHED, dispatchedAt := Some(w.now))) else w
  }

  function ResetForRetry(w: World, e: EffectId): World {
    if e in w.effects && w.effects[e].status == FAILED
    then WriteRow(w, e, w.effects[e].(status := PENDING, attempts := 0, dispatchedAt := None))
    else w
  }

  /** A row the sweep republishes. */
  predicate Stale(w: World, e: EffectId, cfg: Config) {
    && Open(w, e)
    && var f := w.effects[e];
       if f.kind == SRI_AUTHORIZE then
         if f.dispatchedAt.None? then f.createdAt < w.now - cfg.checkDelay else f.dispatchedAt.value < w.now - cfg.authorizeStale
       else
         f.dispatchedAt.None? || f.dispatchedAt.value < w.now - cfg.effectStale
  }

  /** The sweep over locked stale rows, in any order; each publish may fail on its own. */
  function Reconcile(w: World, rows: seq<EffectId>, published: set<EffectId>): World {
    if rows == [] then w
    else
      var w1 := Reconcile(w, rows[..|rows| - 1], published);
      var e := rows[|rows| - 1];
      if e in published then MarkDispatched(w1.(queue := w1.queue + multiset{e}), e) else w1
  }

  // ---- Documents ----------------------------------------------------------------------------

  function PutDoc(w: World, d: DocId, doc: Document, event: Event): World {
    w.(docs := w.docs[d := doc], logs := w.logs[d := Log(w, d) + [event]])
  }

  function Log(w: World, d: DocId): seq<Event> {
    if d in w.logs then w.logs[d] else []
  }

  function Append(w: World, d: DocId, event: Event): World {
    w.(logs := w.logs[d := Log(w, d) + [event]])
  }

  predicate MayMove(w: World, d: DocId, to: Status) {
    d in w.docs && CanTransition(w.docs[d].status, to)
  }

  function QueueSend(w: World, d: DocId): World {
    if !MayMove(w, d, PENDING_SEND) then w
    else
      var doc := w.docs[d];
      Enqueue(PutDoc(w, d, doc.(status := PENDING_SEND), StatusChanged(doc.status, PENDING_SEND)), SRI_SEND, d)
  }

  function QueueAuthorization(w: World, d: DocId): World {
    if !MayMove(w, d, AUTHORIZED) then w else Enqueue(w, SRI_AUTHORIZE, d)
  }

  /** A corrected document is signed again under the same access key and sequential. */
  function Rebuild(w: World, d: DocId, xml: string): World {
    if !MayMove(w, d, SIGNED) then w
    else
      var doc := w.docs[d];
      PutDoc(w, d, doc.(status := SIGNED, signedXml := xml), Rebuilt(doc.status))
  }

  function VoidDocument(w: World, d: DocId): World {
    if d !in w.docs || w.docs[d].status != AUTHORIZED then w
    else PutDoc(w, d, w.docs[d].(status := VOIDED), Voided)
  }

  // ---- Handlers -----------------------------------------------------------------------------

  /** How a handler ended: finished, to be asked again, already overtaken, or failed. */
  datatype Outcome = Finished | Requeue | Benign | Transient

  function SendToSri(w: World, d: DocId, answer: SendAnswer): (World, Outcome) {
    if d !in w.docs then (w, Transient)
    else if !MayMove(w, d, RECEIVED) then (w, Benign)
    else
      var doc := w.docs[d];
      match answer
      case SendFailure => (Append(w, d, SendError(doc.status)), Transient)
      case Reception(recibida, processing) =>
        var to := if recibida || processing then RECEIVED else RETURNED;
        var w1 := PutDoc(w, d, doc.(status := to), Sent(doc.status, to));
        (if to == RECEIVED then Enqueue(w1, SRI_AUTHORIZE, d) else w1, Finished)
  }

  /** Only the parts SRI returned are written. */
  function WithAuthorization(doc: Document, a: Authorization): Document {
    doc.(authorization := Authorization(
      if a.number.Some? then a.number else doc.authorization.number,
      if a.date.Some? then a.date else doc.authorization.date,
      if a.xml.Some? then a.xml else doc.authorization.xml))
  }

  function CheckAuthorization(w: World, d: DocId, answer: AuthorizeAnswer): (World, Outcome) {
    if d !in w.docs then (w, Transient)
    else if !MayMove(w, d, AUTHORIZED) then (w, Benign)
    else
      var doc := w.docs[d];
      match answer
      case AuthorizeFailure => (Append(w, d, AuthorizeError(doc.status)), Transient)
      case StillProcessing => (w, Requeue)
      case Autorizado(a) =>
        (PutDoc(w, d, WithAuthorization(doc, a).(status := AUTHORIZED), StatusChanged(doc.status, AUTHORIZED)), Finished)
      case NoAutorizado =>
        (PutDoc(w, d, doc.(status := NOT_AUTHORIZED), StatusChanged(doc.status, NOT_AUTHORIZED)), Finished)
  }

  function Handle(w: World, f: Effect, send: SendAnswer, authorize: AuthorizeAnswer): (World, Outcome) {
    if f.kind == SRI_SEND then SendToSri(w, f.doc, send) else CheckAuthorization(w, f.doc, authorize)
  }

  // ---- Delivery -----------------------------------------------------------------------------

  /** One delivered message: claim the row, run its handler, and either finish the row in the
      claiming transaction or leave a note of the failure. */
  function Deliver(w: World, e: EffectId, send: SendAnswer, authorize: AuthorizeAnswer): World {
    var w0 := w.(queue := w.queue - multiset{e});
    if !Open(w, e) then w0
    else
      var f := w.effects[e];
      var (w1, outcome) := Handle(w0, f, send, authorize);
      match outcome
      case Finished => w1.(effects := w1.effects[e := f.(status := DONE)])
      case Requeue => w1
      case Benign => w1.(notes := w1.notes + [Note(e, f.attempts, f.status, true)])
      case Transient => w1.(notes := w1.notes + [Note(e, f.attempts, f.status, false)])
  }

  function RecordedRow(f: Effect, n: Note, cfg: Config): Effect {
    if n.benign then f.(status := DONE, attempts := n.attempts)
    else f.(status := if n.attempts + 1 >= cfg.maxAttempts then FAILED else n.status, attempts := n.attempts + 1)
  }

  function WithoutNote(w: World, i: nat): World
    requires i < |w.notes|
  {
    w.(notes := w.notes[..i] + w.notes[i + 1..])
  }

  function Record(w: World, i: nat, cfg: Config): World
    requires i < |w.notes|
  {
    var n := w.notes[i];
    var w1 := WithoutNote(w, i);
    if n.effect in w1.effects then WriteRow(w1, n.effect, RecordedRow(w1.effects[n.effect], n, cfg)) else w1
  }

  /** A delivery whose failure is recorded at once. */
  function Process(w: World, e: EffectId, send: SendAnswer, authorize: AuthorizeAnswer, cfg: Config): World {
    var w1 := Deliver(w, e, send, authorize);
    if |w.notes| < |w1.notes| then Record(w1, |w.notes|, cfg) else w1
  }

  // ---- Steps --------------------------------------------------------------------------------

  datatype Step =
    | CreateDoc(d: DocId, accessKey: string, sequential: nat, xml: string)
    | RequestSend(d: DocId)
    | RequestAuthorization(d: DocId)
    | Correct(d: DocId, xml: string)
    | Void(d: DocId)
    | Publish(e: EffectId)
    | Mark(e: EffectId)
    | LoseMark(e: EffectId)
    | Dispatch(e: EffectId)
    | Duplicate(e: EffectId)
    | Drop(e: EffectId)
    | Receive(e: EffectId, send: SendAnswer, authorize: AuthorizeAnswer)
    | RecordNote(i: nat)
    | LoseNote(i: nat)
    | ReceiveAndRecord(e: EffectId, send: SendAnswer, authorize: AuthorizeAnswer)
    | Sweep(rows: seq<EffectId>, published: set<EffectId>)
    | Retry(e: EffectId)
    | Wait(ms: nat)

  predicate Enabled(w: World, step: Step, cfg: Config) {
    match step
    case CreateDoc(d, _, _, _) => d !in w.docs
    case Publish(e) => e in w.effects
    case Mark(e) => e in w.marks
    case LoseMark(e) => e in w.marks
    case Dispatch(e) => Open(w, e)
    case Duplicate(e) => e in w.queue
    case Drop(e) => e in w.queue
    case Receive(e, _, _) => e in w.queue
    case RecordNote(i) => i < |w.notes|
    case LoseNote(i) => i < |w.notes|
    case ReceiveAndRecord(e, _, _) => e in w.queue
    case Sweep(rows, _) => forall i :: 0 <= i < |rows| ==> Stale(w, rows[i], cfg)
    case _ => true
  }

  function Perform(w: World, step: Step, cfg: Config): World
    requires Enabled(w, step, cfg)
  {
    match step
    case CreateDoc(d, key, sequential, xml) =>
      w.(docs := w.docs[d := Document(SIGNED, key, sequential, xml, UNAUTHORIZED)], logs := w.logs[d := [Created]])
    case RequestSend(d) => QueueSend(w, d)
    case RequestAuthorization(d) => QueueAuthorization(w, d)
    case Correct(d, xml) => Rebuild(w, d, xml)
    case Void(d) => VoidDocument(w, d)
    case Publish(e) => w.(queue := w.queue + multiset{e}, marks := w.marks + multiset{e})
    case Mark(e) => MarkDispatched(w.(marks := w.marks - multiset{e}), e)
    case LoseMark(e) => w.(marks := w.marks - multiset{e})
    case Dispatch(e) => MarkDispatched(w.(queue := w.queue + multiset{e}), e)
    case Duplicate(e) => w.(queue := w.queue + multiset{e})
    case Drop(e) => w.(queue := w.queue - multiset{e})
    case Receive(e, send, authorize) => Deliver(w, e, send, authorize)
    case RecordNote(i) => Record(w, i, cfg)
    case LoseNote(i) => WithoutNote(w, i)
    case ReceiveAndRecord(e, send, authorize) => Process(w, e, send, authorize, cfg)
    case Sweep(rows, published) => Reconcile(w, rows, published)
    case Retry(e) => ResetForRetry(w, e)
    case Wait(ms) => w.(now := w.now + ms)
  }

  /** A run: every step enabled where it is taken. */
  predicate Runs(w: World, steps: seq<Step>, cfg: Config)
    decreases |steps|
  {
    steps == [] || (Enabled(w, steps[0], cfg) && Runs(Perform(w, steps[0], cfg), steps[1..], cfg))
  }

  function After(w: World, steps: seq<Step>, cfg: Config): World
    requires Runs(w, steps, cfg)
    decreases |steps|
  {
    if steps == [] then w else After(Perform(w, steps[0], cfg), steps[1..], cfg)
  }
}
