/** The counter, quota and creation services as code over their tables, each method proved equal to
    the transaction it is when it runs alone, and what a caller that repeats a request gets. */
module CreationService {
  import opened Options
  import opened Creation
  import CreationLedger

  datatype Reply =
    | Made(doc: Doc)
    | Replayed(doc: Doc)
    | KeyMismatch
    | IssuingPaused
    | TypeNotEnabled
    | OverQuota
    | Invalid

  /** What the services outside the tables say of a request: the issue point may issue, its document
      type is enabled, and building, validating and signing succeed. */
  datatype Checks = Checks(canIssue: bool, typeEnabled: bool, valid: bool)

  function FindBelow(db: Db, key: Option<Key>, below: nat): (r: Option<Doc>)
    requires below <= |db.docs|
    ensures r.Some? ==> r.value in db.docs && r.value.key == key && key.Some?
    ensures r.None? ==> key.None? || forall i :: 0 <= i < below ==> db.docs[i].key != key
  {
    if below == 0 || key.None? then None
    else if db.docs[below - 1].key == key then Some(db.docs[below - 1])
    else FindBelow(db, key, below - 1)
  }

  function Find(db: Db, key: Option<Key>): Option<Doc> {
    FindBelow(db, key, |db.docs|)
  }

  /** The answer to a creation request that looks its key up in `before` and runs its transaction
      on `db`, after whatever others have committed in between. */
  function Answer(before: Db, db: Db, request: Request, checks: Checks): Reply
    requires request.Create?
  {
    if !checks.canIssue then IssuingPaused
    else if Find(before, request.key).Some? then
      var doc := Find(before, request.key).value;
      if doc.payloadHash != request.payloadHash then KeyMismatch else Replayed(doc)
    else if !checks.typeEnabled then TypeNotEnabled
    else if !request.counter.sandbox && ChargeOne(db, request.tenant).Err? then OverQuota
    else if !checks.valid then Invalid
    else if Find(db, request.key).Some? then Replayed(Find(db, request.key).value)
    else Made(Doc(request.counter, Value(db, request.counter) + 1, request.key, request.payloadHash))
  }

  lemma FindsKeys(db: Db, key: Option<Key>)
    ensures HasKey(db, key) <==> Find(db, key).Some?
  {
    if Find(db, key).Some? {
      var i :| 0 <= i < |db.docs| && db.docs[i] == Find(db, key).value;
      assert db.docs[i].key == key;
    }
  }

  class Service {
    var counters: map<Counter, int>
    var quotas: seq<Quota>
    var docs: seq<Doc>

    function State(): Db
      reads this
    {
      Db(counters, quotas, docs)
    }

    constructor (db: Db)
      ensures State() == db
    {
      counters, quotas, docs := db.counters, db.quotas, db.docs;
    }

    method GetNext(c: Counter) returns (nextValue: int)
      modifies `counters
      ensures nextValue == old(Value(State(), c)) + 1
      ensures counters == old(counters)[c := nextValue]
    {
      if c in counters {
        nextValue := counters[c] + 1;
        counters := counters[c := nextValue];
      } else {
        nextValue := 1;
        counters := counters[c := nextValue];
      }
    }

    method SetNext(c: Counter, next: int) returns (error: Option<Error>)
      modifies `counters
      ensures
        match old(Serial(State(), Creation.SetNext(c, next)))
        case Err(e) => error == Some(e) && State() == old(State())
        case Ok(db) => error == None && State() == db
    {
      var current := if c in counters then counters[c] else 0;
      if next <= current { return Some(CannotDecrease); }
      counters := counters[c := next - 1];
      return None;
    }

    method Initialize(c: Counter, start: int)
      modifies `counters
      ensures Ok(State()) == old(Serial(State(), Creation.Initialize(c, start)))
    {
      counters := counters[c := start - 1];
    }

    /** The conditional increment of the current period; false when no row takes it. */
    method ConsumeOne(tenant: Tenant) returns (ok: bool)
      modifies `quotas
      ensures
        match old(ChargeOne(State(), tenant))
        case Err(_) => !ok && State() == old(State())
        case Ok(db) => ok && State() == db
    {
      var current := CurrentRow(State(), tenant);
      if current.None? || !WithinCap(quotas[current.value]) { return false; }
      quotas := quotas[current.value := Charged(quotas[current.value])];
      return true;
    }

    method Rollover(tenant: Tenant, cap: Option<nat>) returns (error: Option<Error>)
      modifies `quotas
      ensures
        match old(Serial(State(), Creation.Rollover(tenant, cap)))
        case Err(e) => error == Some(e) && State() == old(State())
        case Ok(db) => error == None && State() == db
    {
      var current := CurrentRow(State(), tenant);
      if current.None? { return Some(NoQuota); }
      quotas := quotas[current.value := quotas[current.value].(current := false)];
      quotas := quotas + [Quota(tenant, 0, cap, true)];
      return None;
    }

    /** One creation request. `others` commit between its look-up and its transaction. */
    method Create(request: Request, checks: Checks, others: seq<Request>) returns (reply: Reply)
      requires request.Create? && Replay(State(), others).Some?
      modifies this
      ensures reply == old(Answer(State(), Replay(State(), others).value, request, checks))
      ensures
        var db := old(Replay(State(), others).value);
        if reply.Made? then Serial(db, request) == Ok(State()) else State() == db
    {
      var before := State();
      var db := Replay(before, others).value;
      counters, quotas, docs := db.counters, db.quotas, db.docs;
      if !checks.canIssue { return IssuingPaused; }
      var existing := Find(before, request.key);
      if existing.Some? {
        if existing.value.payloadHash != request.payloadHash { return KeyMismatch; }
        return Replayed(existing.value);
      }
      if !checks.typeEnabled { return TypeNotEnabled; }
      if !request.counter.sandbox {
        var ok := ConsumeOne(request.tenant);
        if !ok { return OverQuota; }
      }
      var sequential := GetNext(request.counter);
      FindsKeys(db, request.key);
      if !checks.valid {
        counters, quotas := db.counters, db.quotas;
        return Invalid;
      }
      if HasKey(State(), request.key) {
        counters, quotas := db.counters, db.quotas;
        return Replayed(Find(State(), request.key).value);
      }
      var doc := Doc(request.counter, sequential, request.key, request.payloadHash);
      docs := docs + [doc];
      return Made(doc);
    }
  }

  // ---- Repeating a request --------------------------------------------------------------------

  lemma {:induction false} DocsStay(db: Db, log: seq<Request>)
    requires Replay(db, log).Some?
    ensures db.docs <= Replay(db, log).value.docs
  {
    if log != [] {
      DocsStay(db, log[..|log| - 1]);
    }
  }

  lemma OnlyOneFound(db: Db, doc: Doc)
    requires CreationLedger.OneDocPerKey(db) && doc in db.docs && doc.key.Some?
    ensures Find(db, doc.key) == Some(doc)
  {
    var i :| 0 <= i < |db.docs| && db.docs[i] == doc;
    var found := Find(db, doc.key).value;
    var j :| 0 <= j < |db.docs| && db.docs[j] == found;
    assert i == j;
  }

  /** Once a request with a key has made its document, repeating it, whatever others commit
      meanwhile, replays that document when the body is the same and is refused when it is not. */
  lemma RepeatsAreReplayed(db: Db, request: Request, checks: Checks, since: seq<Request>, again: Request, others: seq<Request>)
    requires CreationLedger.OneDocPerKey(db) && request.Create? && request.key.Some? && Serial(db, request).Ok?
    requires Replay(Serial(db, request).value, since).Some?
    requires again.Create? && again.key == request.key && checks.canIssue
    requires Replay(Replay(Serial(db, request).value, since).value, others).Some?
    ensures
      var doc := Doc(request.counter, Value(db, request.counter) + 1, request.key, request.payloadHash);
      var before := Replay(Serial(db, request).value, since).value;
      Answer(before, Replay(before, others).value, again, checks) == if again.payloadHash == request.payloadHash then Replayed(doc) else KeyMismatch
  {
    hide Serial;
    var doc := Doc(request.counter, Value(db, request.counter) + 1, request.key, request.payloadHash);
    var made := Serial(db, request).value;
    CreationLedger.DocsUnlessCreated(db, request);
    assert made.docs[|db.docs|] == doc;
    assert Replay(db, [request]) == Some(made) by {
      assert [request][..0] == [];
      assert Replay(db, []) == Some(db);
    }
    CreationLedger.KeysAreUsedOnce(db, [request]);
    CreationLedger.KeysAreUsedOnce(made, since);
    DocsStay(made, since);
    OnlyOneFound(Replay(made, since).value, doc);
  }

  /** When each answer is given, in the order of the checks, and the document a new one is made as. */
  lemma AnswersExactly(before: Db, db: Db, request: Request, checks: Checks)
    requires request.Create? && OneCurrent(db)
    ensures
      var reply := Answer(before, db, request, checks);
      var room := request.counter.sandbox || CreationLedger.HasRoom(db, request.tenant);
      var first := checks.canIssue && !HasKey(before, request.key);
      && (reply == IssuingPaused <==> !checks.canIssue)
      && (reply == TypeNotEnabled <==> first && !checks.typeEnabled)
      && (reply == OverQuota <==> first && checks.typeEnabled && !room)
      && (reply == Invalid <==> first && checks.typeEnabled && room && !checks.valid)
      && (reply.Made? <==> first && checks.typeEnabled && room && checks.valid && !HasKey(db, request.key))
      && (reply.Made? ==> reply.doc == Doc(request.counter, Value(db, request.counter) + 1, request.key, request.payloadHash))
      && (reply == KeyMismatch ==> checks.canIssue && HasKey(before, request.key))
      && (reply.Replayed? ==> reply.doc in before.docs + db.docs && reply.doc.key == request.key)
  {
    FindsKeys(before, request.key);
    FindsKeys(db, request.key);
    if !request.counter.sandbox {
      CreationLedger.FullPeriodRefuses(db, request.tenant, request.counter, None, request.payloadHash);
      if CurrentRow(db, request.tenant).Some? {
        assert IsCurrent(db, request.tenant, CurrentRow(db, request.tenant).value);
      }
    }
  }

  /** The loser of a race for a key is given the winner's document without comparing bodies: a
      request gets a document made from another body exactly when one with its key, and another
      body, was committed between its look-up and its transaction. */
  lemma RaceLosersAreNotCompared(before: Db, db: Db, request: Request, checks: Checks)
    requires request.Create? && before.docs <= db.docs
    ensures
      var reply := Answer(before, db, request, checks);
      (reply.Replayed? && reply.doc.payloadHash != request.payloadHash)
      <==>
      (&& checks.canIssue && checks.typeEnabled && checks.valid && (request.counter.sandbox || ChargeOne(db, request.tenant).Ok?)
       && !HasKey(before, request.key) && HasKey(db, request.key)
       && Find(db, request.key).GetOr(Doc(request.counter, 0, None, request.payloadHash)).payloadHash != request.payloadHash)
  {
    hide ChargeOne;
    FindsKeys(before, request.key);
    FindsKeys(db, request.key);
  }

  /** Two requests with one key and different bodies, both looked up before either committed: the
      second is answered with the first one's document. */
  lemma ARaceLoserGetsTheOtherDocument(c: Counter, text: string)
    requires c.sandbox
    ensures
      var key := Some(Key(true, text));
      var before := Db(map[], [], []);
      var first, second := Create(0, c, key, "a"), Create(0, c, key, "b");
      var checks := Checks(true, true, true);
      var reply := Answer(before, before, first, checks);
      && reply == Made(Doc(c, 1, key, "a")) && Serial(before, first).Ok?
      && Answer(before, Serial(before, first).value, second, checks) == Replayed(Doc(c, 1, key, "a"))
  {
  }
}
