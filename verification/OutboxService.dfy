/** The transmission, outbox and reconciliation services as code that updates their tables in place,
    each method proved equal to the step that the runs are made of. */
module OutboxService {
  import opened Options
  import opened Outbox
  import OutboxDocuments

  class Service {
    var docs: map<DocId, Document>
    var logs: map<DocId, seq<Event>>
    var effects: map<EffectId, Effect>
    var queue: multiset<EffectId>
    var marks: multiset<EffectId>
    var notes: seq<Note>
    var nextId: EffectId
    var now: int
    const cfg: Config

    function State(): World
      reads this
    {
      World(docs, logs, effects, queue, marks, notes, nextId, now)
    }

    constructor (cfg: Config)
      ensures State() == EMPTY && this.cfg == cfg
    {
      docs, logs, effects, queue, marks, notes, nextId, now := map[], map[], map[], multiset{}, multiset{}, [], 0, 0;
      this.cfg := cfg;
    }

    // ---- Tables -------------------------------------------------------------------------------

    method UpdateStatus(d: DocId, doc: Document)
      modifies `docs
      ensures docs == old(docs)[d := doc]
    {
      docs := docs[d := doc];
    }

    method AppendEvent(d: DocId, event: Event)
      modifies `logs
      ensures logs == old(Append(State(), d, event).logs)
    {
      var log := if d in logs then logs[d] else [];
      logs := logs[d := log + [event]];
    }

    /** An UPDATE of one row, which the partial unique index on dedup keys may refuse. */
    method UpdateEffect(e: EffectId, f: Effect)
      modifies `effects
      ensures State() == old(WriteRow(State(), e, f))
    {
      if e in effects && !(IsOpen(f) && KeyTaken(State(), e)) {
        effects := effects[e := f];
      }
    }

    method Enqueue(kind: Kind, d: DocId)
      modifies `effects, `nextId
      ensures State() == old(Outbox.Enqueue(State(), kind, d))
    {
      var conflict := if kind == SRI_AUTHORIZE then OpenAuthorize(State(), d, nextId) else None;
      if conflict.None? {
        effects := effects[nextId := Effect(kind, d, PENDING, 0, now, None)];
        nextId := nextId + 1;
      }
    }

    method RecordFailedAttempt(e: EffectId, attempts: nat, status: EffectStatus)
      modifies `effects
      ensures State() == old(if e in effects then WriteRow(State(), e, effects[e].(status := status, attempts := attempts)) else State())
    {
      if e in effects {
        UpdateEffect(e, effects[e].(status := status, attempts := attempts));
      }
    }

    // ---- Outbox mechanics ---------------------------------------------------------------------

    method MarkDispatched(e: EffectId)
      modifies `effects
      ensures State() == old(Outbox.MarkDispatched(State(), e))
    {
      if e in effects {
        UpdateEffect(e, effects[e].(status := DISPATCHED, dispatchedAt := Some(now)));
      }
    }

    /** Publishes a message and marks its row; a failed publish leaves the row as it is. */
    method Dispatch(e: EffectId, published: bool)
      modifies `queue, `effects
      ensures State() == if published then old(Outbox.MarkDispatched(State().(queue := queue + multiset{e}), e)) else old(State())
    {
      if published {
        queue := queue + multiset{e};
        MarkDispatched(e);
      }
    }

    method RetryEffect(e: EffectId, published: bool) returns (reset: bool)
      modifies `queue, `effects
      ensures reset == old(e in effects && effects[e].status == FAILED && !KeyTaken(State(), e))
      ensures
        var w := old(ResetForRetry(State(), e));
        State() == if reset && published then Outbox.MarkDispatched(w.(queue := w.queue + multiset{e}), e) else w
    {
      reset := e in effects && effects[e].status == FAILED && !KeyTaken(State(), e);
      if reset {
        effects := effects[e := effects[e].(status := PENDING, attempts := 0, dispatchedAt := None)];
        Dispatch(e, published);
      }
    }

    /** The sweep over the rows it found stale, counting those it published. */
    method ReconcilePendingEffects(rows: seq<EffectId>, published: set<EffectId>) returns (republished: nat)
      requires forall i :: 0 <= i < |rows| ==> Stale(State(), rows[i], cfg)
      modifies `queue, `effects
      ensures State() == old(Reconcile(State(), rows, published))
      ensures republished == |Published(rows, published)|
    {
      ghost var start := State();
      republished := 0;
      for i := 0 to |rows|
        invariant State() == Reconcile(start, rows[..i], published)
        invariant republished == |Published(rows[..i], published)|
      {
        assert rows[..i + 1][..i] == rows[..i];
        if rows[i] in published {
          queue := queue + multiset{rows[i]};
          MarkDispatched(rows[i]);
          republished := republished + 1;
        }
      }
      assert rows[..|rows|] == rows;
    }

    // ---- Documents ----------------------------------------------------------------------------

    method QueueSend(d: DocId)
      modifies `docs, `logs, `effects, `nextId
      ensures State() == old(Outbox.QueueSend(State(), d))
    {
      if !MayMove(State(), d, PENDING_SEND) { return; }
      var doc := docs[d];
      UpdateStatus(d, doc.(status := PENDING_SEND));
      AppendEvent(d, StatusChanged(doc.status, PENDING_SEND));
      Enqueue(SRI_SEND, d);
    }

    method QueueAuthorizationCheck(d: DocId)
      modifies `effects, `nextId
      ensures State() == old(QueueAuthorization(State(), d))
    {
      if !MayMove(State(), d, AUTHORIZED) { return; }
      Enqueue(SRI_AUTHORIZE, d);
    }

    method Rebuild(d: DocId, xml: string)
      modifies `docs, `logs
      ensures State() == old(Outbox.Rebuild(State(), d, xml))
    {
      if !MayMove(State(), d, SIGNED) { return; }
      var doc := docs[d];
      UpdateStatus(d, doc.(status := SIGNED, signedXml := xml));
      AppendEvent(d, Rebuilt(doc.status));
    }

    method VoidDocument(d: DocId)
      modifies `docs, `logs
      ensures State() == old(Outbox.VoidDocument(State(), d))
    {
      if d !in docs || docs[d].status != AUTHORIZED { return; }
      UpdateStatus(d, docs[d].(status := VOIDED));
      AppendEvent(d, Voided);
    }

    // ---- Handlers -----------------------------------------------------------------------------

    method SendToSri(d: DocId, answer: SendAnswer) returns (outcome: Outcome)
      modifies `docs, `logs, `effects, `nextId
      ensures (State(), outcome) == old(Outbox.SendToSri(State(), d, answer))
    {
      if d !in docs { return Transient; }
      if !CanTransition(docs[d].status, RECEIVED) { return Benign; }
      var doc := docs[d];
      if answer.SendFailure? {
        AppendEvent(d, SendError(doc.status));
        return Transient;
      }
      var newStatus := if answer.recibida || answer.processing then RECEIVED else RETURNED;
      UpdateStatus(d, doc.(status := newStatus));
      AppendEvent(d, Sent(doc.status, newStatus));
      if newStatus == RECEIVED {
        Enqueue(SRI_AUTHORIZE, d);
      }
      return Finished;
    }

    method CheckAuthorization(d: DocId, answer: AuthorizeAnswer) returns (outcome: Outcome)
      modifies `docs, `logs
      ensures (State(), outcome) == old(Outbox.CheckAuthorization(State(), d, answer))
    {
      if d !in docs { return Transient; }
      if !CanTransition(docs[d].status, AUTHORIZED) { return Benign; }
      var doc := docs[d];
      if answer.AuthorizeFailure? {
        AppendEvent(d, AuthorizeError(doc.status));
        return Transient;
      }
      if answer.StillProcessing? { return Requeue; }
      var newStatus := if answer.Autorizado? then AUTHORIZED else NOT_AUTHORIZED;
      var updated := doc.(status := newStatus);
      if newStatus == AUTHORIZED {
        var a := answer.authorization;
        if a.number.Some? { updated := updated.(authorization := updated.authorization.(number := a.number)); }
        if a.date.Some? { updated := updated.(authorization := updated.authorization.(date := a.date)); }
        if a.xml.Some? { updated := updated.(authorization := updated.authorization.(xml := a.xml)); }
      }
      UpdateStatus(d, updated);
      AppendEvent(d, StatusChanged(doc.status, newStatus));
      return Finished;
    }

    method RunHandler(f: Effect, send: SendAnswer, authorize: AuthorizeAnswer) returns (outcome: Outcome)
      modifies `docs, `logs, `effects, `nextId
      ensures (State(), outcome) == old(Handle(State(), f, send, authorize))
    {
      hide Outbox.SendToSri, Outbox.CheckAuthorization;
      if f.kind == SRI_SEND {
        outcome := SendToSri(f.doc, send);
      } else {
        outcome := CheckAuthorization(f.doc, authorize);
      }
    }

    /** Settles a claimed row by its handler's outcome. */
    method Settle(e: EffectId, claimed: Effect, outcome: Outcome)
      modifies `effects
      ensures State() == old(Settled(State(), e, claimed, outcome, cfg))
    {
      hide WriteRow;
      match outcome {
        case Requeue =>
        case Finished => effects := effects[e := claimed.(status := DONE)];
        case Benign => RecordFailedAttempt(e, claimed.attempts, DONE);
        case Transient =>
          var attempts := claimed.attempts + 1;
          RecordFailedAttempt(e, attempts, if attempts >= cfg.maxAttempts then FAILED else claimed.status);
      }
    }

    /** One delivered message: claim, handle, and settle the row or record the failure. */
    method ProcessEffect(e: EffectId, send: SendAnswer, authorize: AuthorizeAnswer)
      modifies this
      ensures State() == old(Process(State(), e, send, authorize, cfg))
    {
      hide Handle, Settled, Process;
      ProcessSettles(State(), e, send, authorize, cfg);
      queue := queue - multiset{e};
      if e in effects && IsOpen(effects[e]) {
        var claimed := effects[e];
        var outcome := RunHandler(claimed, send, authorize);
        Settle(e, claimed, outcome);
      }
    }
  }

  /** The tables once a claimed row is settled. */
  function Settled(w: World, e: EffectId, f: Effect, outcome: Outcome, cfg: Config): World {
    match outcome
    case Requeue => w
    case Finished => w.(effects := w.effects[e := f.(status := DONE)])
    case Benign => if e in w.effects then WriteRow(w, e, w.effects[e].(status := DONE, attempts := f.attempts)) else w
    case Transient =>
      if e in w.effects then
        WriteRow(w, e, w.effects[e].(status := if f.attempts + 1 >= cfg.maxAttempts then FAILED else f.status, attempts := f.attempts + 1))
      else w
  }

  lemma ProcessSettles(w: World, e: EffectId, send: SendAnswer, authorize: AuthorizeAnswer, cfg: Config)
    ensures
      var w0 := w.(queue := w.queue - multiset{e});
      Process(w, e, send, authorize, cfg) ==
      if Open(w, e) then
        var (w1, outcome) := Handle(w0, w.effects[e], send, authorize);
        Settled(w1, e, w.effects[e], outcome, cfg)
      else w0
  {
    hide Handle, WriteRow, Record;
    if Open(w, e) {
      var f := w.effects[e];
      var w0 := w.(queue := w.queue - multiset{e});
      OutboxDocuments.HandleMoves(w0, f, send, authorize, 0);
      var (w1, outcome) := Handle(w0, f, send, authorize);
      RecordedAtOnce(w1, Note(e, f.attempts, f.status, true), cfg);
      RecordedAtOnce(w1, Note(e, f.attempts, f.status, false), cfg);
    }
  }

  function Published(rows: seq<EffectId>, published: set<EffectId>): seq<EffectId> {
    if rows == [] then []
    else Published(rows[..|rows| - 1], published) + if rows[|rows| - 1] in published then [rows[|rows| - 1]] else []
  }

  lemma RecordedAtOnce(w: World, n: Note, cfg: Config)
    ensures
      Record(w.(notes := w.notes + [n]), |w.notes|, cfg)
      == if n.effect in w.effects then WriteRow(w, n.effect, RecordedRow(w.effects[n.effect], n, cfg)) else w
  {
    hide WriteRow;
    assert WithoutNote(w.(notes := w.notes + [n]), |w.notes|) == w;
  }
}
