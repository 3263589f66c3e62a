/** What the committed requests, in commit order, say of numbers, quota and idempotency keys. */
module CreationLedger {
  import opened Options
  import opened Creation
  import CreationLocks

  // ---- Numbers --------------------------------------------------------------------------------

  /** The documents of a counter carry increasing numbers in commit order, none above its value. */
  ghost predicate Increasing(db: Db) {
    && (forall i, j :: 0 <= i < j < |db.docs| && db.docs[i].counter == db.docs[j].counter ==> db.docs[i].sequential < db.docs[j].sequential)
    && forall i :: 0 <= i < |db.docs| ==> db.docs[i].sequential <= Value(db, db.docs[i].counter)
  }

  /** A request that seeds a counter above every number issued on it so far. */
  predicate SeedsAbove(db: Db, request: Request) {
    request.Initialize? ==>
      forall i :: 0 <= i < |db.docs| && db.docs[i].counter == request.counter ==> db.docs[i].sequential < request.start
  }

  lemma DocsUnlessCreated(db: Db, request: Request)
    requires Serial(db, request).Ok?
    ensures
      var db' := Serial(db, request).value;
      && (!request.Create? ==> db'.docs == db.docs)
      && (request.Create? ==>
            && db'.docs == db.docs + [Doc(request.counter, Value(db, request.counter) + 1, request.key, request.payloadHash)]
            && !HasKey(db, request.key))
      && forall c :: Value(db', c) ==
           if !CreationLocks.UsesCounter(request) || request.counter != c then Value(db, c)
           else if request.Create? then Value(db, c) + 1
           else if request.SetNext? then request.next - 1
           else request.start - 1
  {
  }

  /** Committing keeps the numbers increasing exactly when no counter is seeded at or below a number
      it has issued; setting the next number never does that. */
  lemma SerialKeepsIncreasing(db: Db, request: Request)
    requires Increasing(db) && Serial(db, request).Ok?
    ensures Increasing(Serial(db, request).value) <==> SeedsAbove(db, request)
  {
    hide Serial;
    DocsUnlessCreated(db, request);
    var db' := Serial(db, request).value;
    if request.Initialize? && !SeedsAbove(db, request) {
      var i :| 0 <= i < |db.docs| && db.docs[i].counter == request.counter && db.docs[i].sequential >= request.start;
      assert db'.docs[i].sequential > Value(db', db'.docs[i].counter);
    }
    if request.SetNext? {
      SetNextRises(db, request);
    }
  }

  lemma SetNextRises(db: Db, request: Request)
    requires request.SetNext? && Serial(db, request).Ok?
    ensures Value(db, request.counter) < request.next
  {
  }

  /** Every counter in a log is seeded above what it had issued. */
  predicate AlwaysSeedsAbove(start: Db, log: seq<Request>)
    requires Replay(start, log).Some?
  {
    if log == [] then true
    else
      var prefix := log[..|log| - 1];
      AlwaysSeedsAbove(start, prefix) && SeedsAbove(Replay(start, prefix).value, log[|log| - 1])
  }

  lemma {:induction false} NumbersIncrease(start: Db, log: seq<Request>)
    requires Increasing(start) && Replay(start, log).Some? && AlwaysSeedsAbove(start, log)
    ensures Increasing(Replay(start, log).value)
  {
    hide Increasing, Serial, SeedsAbove;
    if log != [] {
      NumbersIncrease(start, log[..|log| - 1]);
      SerialKeepsIncreasing(Replay(start, log[..|log| - 1]).value, log[|log| - 1]);
    }
  }

  /** Seeding a counter twice with the same start issues one number twice. */
  lemma SeedingTwiceRepeatsANumber(c: Counter, start: int)
    ensures
      var empty := Db(map[], [Quota(0, 0, None, true)], []);
      var log := [Initialize(c, start), Create(0, c, None, "a"), Initialize(c, start), Create(0, c, None, "b")];
      && Increasing(empty) && Replay(empty, log).Some?
      && var docs := Replay(empty, log).value.docs;
         |docs| == 2 && docs[0].counter == docs[1].counter && docs[0].sequential == docs[1].sequential == start
  {
    var quota := Quota(0, 0, None, true);
    var empty := Db(map[], [quota], []);
    var first, last := Create(0, c, None, "a"), Create(0, c, None, "b");
    var seed := Initialize(c, start);
    var log := [seed, first, seed, last];
    assert log[..3] == [seed, first, seed] && [seed, first, seed][..2] == [seed, first] && [seed, first][..1] == [seed] && [seed][..0] == [];
    var seeded := empty.(counters := map[c := start - 1]);
    assert Serial(empty, seed) == Ok(seeded);
    assert Replay(empty, [seed]) == Some(seeded);
    CreatesNext(seeded, first);
    var one := Serial(seeded, first).value;
    assert Replay(empty, [seed, first]) == Some(one);
    var again := one.(counters := one.counters[c := start - 1]);
    assert Replay(empty, [seed, first, seed]) == Some(again);
    CreatesNext(again, last);
    assert Replay(empty, log) == Some(Serial(again, last).value);
  }

  lemma CreatesNext(db: Db, request: Request)
    requires request.Create? && request.key.None? && |db.quotas| == 1 && db.quotas[0].tenant == request.tenant && db.quotas[0].current && db.quotas[0].cap.None?
    ensures Serial(db, request).Ok?
    ensures
      var db' := Serial(db, request).value;
      && db'.docs == db.docs + [Doc(request.counter, Value(db, request.counter) + 1, None, request.payloadHash)]
      && |db'.quotas| == 1 && db'.quotas[0].(count := 0) == db.quotas[0].(count := 0)
  {
    assert IsCurrent(db, request.tenant, 0);
    assert CurrentRow(db, request.tenant) == Some(0);
  }

  // ---- No gaps --------------------------------------------------------------------------------

  /** The numbers issued on a counter, in commit order. */
  function Numbers(docs: seq<Doc>, c: Counter): seq<int> {
    if docs == [] then []
    else
      var last := docs[|docs| - 1];
      Numbers(docs[..|docs| - 1], c) + if last.counter == c then [last.sequential] else []
  }

  function Consecutive(from: int, n: nat): seq<int> {
    seq(n, i requires 0 <= i < n => from + i)
  }

  function Creations(log: seq<Request>, c: Counter): nat {
    if log == [] then 0
    else
      var last := log[|log| - 1];
      Creations(log[..|log| - 1], c) + if last.Create? && last.counter == c then 1 else 0
  }

  predicate Moves(request: Request, c: Counter) {
    (request.SetNext? || request.Initialize?) && request.counter == c
  }

  lemma NumbersStep(db: Db, request: Request, c: Counter)
    requires Serial(db, request).Ok? && !Moves(request, c)
    ensures
      var db' := Serial(db, request).value;
      var created := request.Create? && request.counter == c;
      && Value(db', c) == Value(db, c) + (if created then 1 else 0)
      && Numbers(db'.docs, c) == Numbers(db.docs, c) + if created then [Value(db, c) + 1] else []
  {
    hide Serial;
    DocsUnlessCreated(db, request);
    if request.Create? {
      var doc := Doc(request.counter, Value(db, request.counter) + 1, request.key, request.payloadHash);
      assert (db.docs + [doc])[..|db.docs|] == db.docs;
    }
  }

  /** While nobody moves a counter, the documents committed on it are numbered on from its value
      without a gap, whoever else runs, and whatever was rolled back. */
  lemma {:induction false} NumbersHaveNoGaps(start: Db, log: seq<Request>, c: Counter)
    requires Replay(start, log).Some? && forall i :: 0 <= i < |log| ==> !Moves(log[i], c)
    ensures
      var db := Replay(start, log).value;
      var n := Creations(log, c);
      && Value(db, c) == Value(start, c) + n
      && Numbers(db.docs, c) == Numbers(start.docs, c) + Consecutive(Value(start, c) + 1, n)
  {
    hide Serial, Value, Numbers;
    if log != [] {
      var prefix := log[..|log| - 1];
      NumbersHaveNoGaps(start, prefix, c);
      NumbersStep(Replay(start, prefix).value, log[|log| - 1], c);
      var n := Creations(prefix, c);
      assert Consecutive(Value(start, c) + 1, n + 1) == Consecutive(Value(start, c) + 1, n) + [Value(start, c) + 1 + n];
    }
  }

  /** After setting the next number, the first document committed on the counter gets exactly it. */
  lemma SetNextIsNext(db: Db, c: Counter, next: int, log: seq<Request>)
    requires Serial(db, SetNext(c, next)).Ok?
    requires Replay(Serial(db, SetNext(c, next)).value, log).Some? && forall i :: 0 <= i < |log| ==> !Moves(log[i], c)
    requires Creations(log, c) > 0
    ensures
      var after := Replay(Serial(db, SetNext(c, next)).value, log).value;
      var k := |Numbers(db.docs, c)|;
      k < |Numbers(after.docs, c)| && Numbers(after.docs, c)[k] == next
  {
    NumbersHaveNoGaps(Serial(db, SetNext(c, next)).value, log, c);
  }

  // ---- Idempotency ----------------------------------------------------------------------------

  ghost predicate OneDocPerKey(db: Db) {
    forall i, j :: 0 <= i < j < |db.docs| && db.docs[i].key.Some? ==> db.docs[i].key != db.docs[j].key
  }

  lemma {:induction false} KeysAreUsedOnce(start: Db, log: seq<Request>)
    requires OneDocPerKey(start) && Replay(start, log).Some?
    ensures OneDocPerKey(Replay(start, log).value)
  {
    hide Serial;
    if log != [] {
      KeysAreUsedOnce(start, log[..|log| - 1]);
      DocsUnlessCreated(Replay(start, log[..|log| - 1]).value, log[|log| - 1]);
    }
  }

  // ---- Quota ----------------------------------------------------------------------------------

  /** The quota row a committed request charged: the current one of its tenant at its commit. */
  function ChargedRow(db: Db, request: Request): Option<RowId> {
    if request.Create? && !request.counter.sandbox then CurrentRow(db, request.tenant) else None
  }

  /** The committed production documents charged to a quota row. */
  function Charges(start: Db, log: seq<Request>, r: RowId): nat
    requires Replay(start, log).Some?
  {
    if log == [] then 0
    else
      var prefix := log[..|log| - 1];
      Charges(start, prefix, r) + if ChargedRow(Replay(start, prefix).value, log[|log| - 1]) == Some(r) then 1 else 0
  }

  function CountOf(db: Db, r: RowId): nat {
    if r < |db.quotas| then db.quotas[r].count else 0
  }

  lemma SerialCounts(db: Db, request: Request, r: RowId)
    requires Serial(db, request).Ok?
    ensures CountOf(Serial(db, request).value, r) == CountOf(db, r) + if ChargedRow(db, request) == Some(r) then 1 else 0
  {
  }

  /** A quota row counts exactly the committed production documents charged to it: a rolled-back
      creation, a sandbox document, a rollover and a cap change count nothing. */
  lemma {:induction false} QuotaCountsDocuments(start: Db, log: seq<Request>, r: RowId)
    requires Replay(start, log).Some?
    ensures CountOf(Replay(start, log).value, r) == CountOf(start, r) + Charges(start, log, r)
  {
    hide Serial, CountOf;
    if log != [] {
      QuotaCountsDocuments(start, log[..|log| - 1], r);
      SerialCounts(Replay(start, log[..|log| - 1]).value, log[|log| - 1], r);
    }
  }

  /** What a committed request makes of a quota row that is there: a charge counts one, a rollover closes
      the current row, a cap change gives it another cap, and nothing else happens to any. */
  function RowAfter(db: Db, request: Request, r: RowId): Quota
    requires r < |db.quotas|
  {
    var q := db.quotas[r];
    match request
    case Create(t, counter, _, _) => if counter.sandbox || !IsCurrent(db, t, r) then q else Quota(q.tenant, q.count + 1, q.cap, true)
    case Rollover(t, _) => if IsCurrent(db, t, r) then Quota(q.tenant, q.count, q.cap, false) else q
    case SetCap(t, cap) => if IsCurrent(db, t, r) then Quota(q.tenant, q.count, cap, true) else q
    case _ => q
  }

  /** Every committed request does exactly this to the quota rows; a rollover also opens a row with
      the cap it was given and nothing counted. */
  lemma SerialQuotas(db: Db, request: Request)
    requires OneCurrent(db) && Serial(db, request).Ok?
    ensures
      var db' := Serial(db, request).value;
      && |db'.quotas| == |db.quotas| + (if request.Rollover? then 1 else 0)
      && (forall r :: 0 <= r < |db.quotas| ==> db'.quotas[r] == RowAfter(db, request, r))
      && (request.Rollover? ==> db'.quotas[|db.quotas|] == Quota(request.tenant, 0, request.cap, true))
  {
    if request.Create? || request.Rollover? || request.SetCap? {
      var row := CurrentRow(db, request.tenant);
      forall r: RowId | r < |db.quotas| && IsCurrent(db, request.tenant, r)
        ensures row == Some(r)
      {
        assert row.Some? && IsCurrent(db, request.tenant, row.value);
      }
    }
  }

  /** A current period of the tenant with room. */
  ghost predicate HasRoom(db: Db, tenant: Tenant) {
    exists r: RowId :: IsCurrent(db, tenant, r) && (db.quotas[r].cap.Some? ==> db.quotas[r].count < db.quotas[r].cap.value)
  }

  /** When a request is refused: a creation for want of room in a current period, or for a key that is
      taken; setting the next number for not raising it; the rest for want of a current period. */
  lemma RefusedExactly(db: Db, request: Request)
    requires OneCurrent(db)
    ensures
      var r := Serial(db, request);
      match request
      case Create(tenant, counter, key, _) =>
        var room := counter.sandbox || HasRoom(db, tenant);
        && (r == Err(QuotaExceeded) <==> !room)
        && (r == Err(DuplicateKey) <==> room && key.Some? && exists i :: 0 <= i < |db.docs| && db.docs[i].key == key)
        && (r.Err? ==> r.error == QuotaExceeded || r.error == DuplicateKey)
      case SetNext(c, next) => (r.Err? <==> next <= Value(db, c)) && (r.Err? ==> r.error == CannotDecrease)
      case Initialize(_, _) => r.Ok?
      case Rollover(tenant, _) => (r.Err? <==> forall q: RowId :: !IsCurrent(db, tenant, q)) && (r.Err? ==> r.error == NoQuota)
      case SetCap(tenant, _) => (r.Err? <==> forall q: RowId :: !IsCurrent(db, tenant, q)) && (r.Err? ==> r.error == NoQuota)
  {
    if request.Create? && !request.counter.sandbox {
      FullPeriodRefuses(db, request.tenant, request.counter, request.key, request.payloadHash);
    } else if request.Rollover? || request.SetCap? {
      if CurrentRow(db, request.tenant).Some? {
        assert IsCurrent(db, request.tenant, CurrentRow(db, request.tenant).value);
      }
    }
  }

  predicate CountWithinCap(q: Quota) {
    q.cap.Some? ==> q.count <= q.cap.value
  }

  ghost predicate WithinCaps(db: Db) {
    forall r :: 0 <= r < |db.quotas| ==> CountWithinCap(db.quotas[r])
  }

  /** A cap change that leaves room for what the current period has already used. */
  predicate CapsAbove(db: Db, request: Request) {
    request.SetCap? && request.cap.Some? && CurrentRow(db, request.tenant).Some? ==>
      db.quotas[CurrentRow(db, request.tenant).value].count <= request.cap.value
  }

  /** No period exceeds its cap, and only a cap lowered below what is already used can change that. */
  lemma SerialKeepsWithinCaps(db: Db, request: Request)
    requires WithinCaps(db) && Serial(db, request).Ok?
    ensures WithinCaps(Serial(db, request).value) <==> CapsAbove(db, request)
  {
    var db' := Serial(db, request).value;
    if request.SetCap? {
      var r := CurrentRow(db, request.tenant).value;
      assert CountWithinCap(db.quotas[r]) && db'.quotas[r] == db.quotas[r].(cap := request.cap);
      assert CountWithinCap(db'.quotas[r]) <==> CapsAbove(db, request);
    }
  }

  /** A period that has reached its cap takes no further production document. */
  lemma FullPeriodRefuses(db: Db, tenant: Tenant, c: Counter, key: Option<Key>, payloadHash: string)
    requires OneCurrent(db) && !c.sandbox
    ensures
      Serial(db, Create(tenant, c, key, payloadHash)) == Err(QuotaExceeded)
      <==> forall r: RowId :: IsCurrent(db, tenant, r) ==> db.quotas[r].cap.Some? && db.quotas[r].cap.value <= db.quotas[r].count
  {
    if CurrentRow(db, tenant).Some? {
      assert IsCurrent(db, tenant, CurrentRow(db, tenant).value);
    }
  }

  // ---- Interleaved runs -----------------------------------------------------------------------

  /** All of it for the interleaved transactions, from tables that satisfy it. */
  lemma InterleavedNumbersAndKeys(start: Db, sts: seq<CreationLocks.Statement>, c: Counter, r: RowId)
    requires OneCurrent(start) && Increasing(start) && OneDocPerKey(start)
    requires CreationLocks.Runs(CreationLocks.System(start, map[], []), sts)
    ensures
      var s := CreationLocks.After(CreationLocks.System(start, map[], []), sts);
      && Replay(start, s.log).Some?
      && OneDocPerKey(s.db)
      && CountOf(s.db, r) == CountOf(start, r) + Charges(start, s.log, r)
      && (AlwaysSeedsAbove(start, s.log) ==> Increasing(s.db))
      && ((forall i :: 0 <= i < |s.log| ==> !Moves(s.log[i], c)) ==>
            Numbers(s.db.docs, c) == Numbers(start.docs, c) + Consecutive(Value(start, c) + 1, Creations(s.log, c)))
  {
    hide Increasing, OneDocPerKey, CountOf, CreationLocks.Runs, CreationLocks.After;
    CreationLocks.FromTheStart(start, sts);
    var s := CreationLocks.After(CreationLocks.System(start, map[], []), sts);
    KeysAreUsedOnce(start, s.log);
    QuotaCountsDocuments(start, s.log, r);
    if AlwaysSeedsAbove(start, s.log) {
      NumbersIncrease(start, s.log);
    }
    if forall i :: 0 <= i < |s.log| ==> !Moves(s.log[i], c) {
      NumbersHaveNoGaps(start, s.log, c);
    }
  }
}
