/** The same transactions interleaved statement by statement. Each holds row locks from the
    statement that takes them until it ends, buffers what it wrote, and may be rolled back at any
    point. Committed in any order, they leave what running them one after another leaves. */
module CreationLocks {
  import opened Options
  import opened Creation

  /** A running transaction and what its statements have read and written so far. */
  datatype Tx = Tx(
    request: Request,
    row: Option<RowId>,
    quota: Option<Quota>,
    seen: Option<Option<int>>,
    value: Option<int>,
    inserted: bool)

  datatype System = System(db: Db, running: map<TxId, Tx>, log: seq<Request>)

  /** Statements, by the transaction that runs them. */
  datatype Statement =
    | Begin(t: TxId, request: Request)
    | UpdateQuota(t: TxId)
    | SelectCounter(t: TxId)
    | WriteCounter(t: TxId)
    | InsertDoc(t: TxId)
    | Commit(t: TxId)
    | Rollback(t: TxId)

  // ---- Locks ----------------------------------------------------------------------------------

  predicate UsesCounter(request: Request) {
    request.Create? || request.SetNext? || request.Initialize?
  }

  predicate UsesQuota(request: Request) {
    (request.Create? && !request.counter.sandbox) || request.Rollover? || request.SetCap?
  }

  /** A counter's row is locked by reading it for update and by writing or inserting it. */
  predicate HoldsCounter(tx: Tx, c: Counter) {
    UsesCounter(tx.request) && tx.request.counter == c && (tx.value.Some? || (tx.seen.Some? && tx.seen.value.Some?))
  }

  predicate HoldsRow(tx: Tx, r: RowId) {
    tx.row == Some(r)
  }

  /** An uncommitted document makes others that insert its idempotency key wait. */
  predicate HoldsKey(tx: Tx, key: Option<Key>) {
    tx.inserted && tx.request.Create? && key.Some? && tx.request.key == key
  }

  predicate CounterFree(s: System, t: TxId, c: Counter) {
    forall o :: o in s.running && o != t ==> !HoldsCounter(s.running[o], c)
  }

  predicate RowFree(s: System, t: TxId, r: RowId) {
    forall o :: o in s.running && o != t ==> !HoldsRow(s.running[o], r)
  }

  predicate KeyFree(s: System, t: TxId, key: Option<Key>) {
    forall o :: o in s.running && o != t ==> !HoldsKey(s.running[o], key)
  }

  // ---- Statements -----------------------------------------------------------------------------

  /** The quota row as its statement writes it; None when its condition excludes the row. */
  function QuotaWrite(request: Request, q: Quota): Option<Quota>
    requires UsesQuota(request)
  {
    match request
    case Create(_, _, _, _) => if WithinCap(q) then Some(Charged(q)) else None
    case Rollover(_, _) => Some(q.(current := false))
    case SetCap(_, cap) => Some(q.(cap := cap))
  }

  /** The counter value a request writes, from the value it read; None when it refuses. */
  function CounterWrite(request: Request, current: int): Option<int>
    requires UsesCounter(request)
  {
    match request
    case Create(_, _, _, _) => Some(current + 1)
    case SetNext(_, next) => if next <= current then None else Some(next - 1)
    case Initialize(_, start) => Some(start - 1)
  }

  predicate Enabled(s: System, st: Statement) {
    if st.Begin? then st.t !in s.running
    else
      && st.t in s.running
      && var tx := s.running[st.t];
         match st
         case UpdateQuota(t) =>
           && UsesQuota(tx.request) && tx.row.None?
           && var r := CurrentRow(s.db, tx.request.tenant);
              r.Some? && RowFree(s, t, r.value) && QuotaWrite(tx.request, s.db.quotas[r.value]).Some?
         case SelectCounter(t) =>
           && (tx.request.Create? || tx.request.SetNext?) && (UsesQuota(tx.request) ==> tx.row.Some?)
           && tx.seen.None? && tx.value.None?
           && (tx.request.counter in s.db.counters ==> CounterFree(s, t, tx.request.counter))
         case WriteCounter(t) =>
           && UsesCounter(tx.request) && tx.value.None? && (tx.request.Initialize? || tx.seen.Some?)
           && (if tx.request.Initialize? then CounterFree(s, t, tx.request.counter)
               else if tx.seen.value.Some? then CounterWrite(tx.request, tx.seen.value.value).Some?
               else
                 && CounterFree(s, t, tx.request.counter) && tx.request.counter !in s.db.counters
                 && CounterWrite(tx.request, 0).Some?)
         case InsertDoc(t) =>
           && tx.request.Create? && tx.value.Some? && !tx.inserted
           && !HasKey(s.db, tx.request.key) && KeyFree(s, t, tx.request.key)
         case Commit(t) => Complete(tx) && (tx.row.Some? ==> tx.row.value < |s.db.quotas|)
         case Rollback(t) => true
  }

  /** Every statement of the transaction has run. */
  predicate Complete(tx: Tx) {
    && (UsesQuota(tx.request) ==> tx.row.Some? && tx.quota.Some?)
    && (UsesCounter(tx.request) ==> tx.value.Some?)
    && (tx.request.Create? ==> tx.inserted)
  }

  /** A commit installs what the transaction buffered. */
  function Install(db: Db, tx: Tx): Db
    requires Complete(tx) && (UsesQuota(tx.request) ==> tx.row.value < |db.quotas|)
  {
    var db1 := if UsesQuota(tx.request) then db.(quotas := db.quotas[tx.row.value := tx.quota.value]) else db;
    var db2 := if UsesCounter(tx.request) then db1.(counters := db1.counters[tx.request.counter := tx.value.value]) else db1;
    match tx.request
    case Create(_, c, key, payloadHash) => db2.(docs := db2.docs + [Doc(c, tx.value.value, key, payloadHash)])
    case Rollover(tenant, cap) => db2.(quotas := db2.quotas + [Quota(tenant, 0, cap, true)])
    case _ => db2
  }

  function Next(s: System, st: Statement): System
    requires Enabled(s, st)
  {
    match st
    case Begin(t, request) => s.(running := s.running[t := Tx(request, None, None, None, None, false)])
    case UpdateQuota(t) =>
      var tx := s.running[t];
      var r := CurrentRow(s.db, tx.request.tenant).value;
      s.(running := s.running[t := tx.(row := Some(r), quota := QuotaWrite(tx.request, s.db.quotas[r]))])
    case SelectCounter(t) =>
      var tx := s.running[t];
      var c := tx.request.counter;
      s.(running := s.running[t := tx.(seen := Some(if c in s.db.counters then Some(s.db.counters[c]) else None))])
    case WriteCounter(t) =>
      var tx := s.running[t];
      var current := if tx.seen.Some? then tx.seen.value.GetOr(0) else 0;
      s.(running := s.running[t := tx.(value := CounterWrite(tx.request, current))])
    case InsertDoc(t) => s.(running := s.running[t := s.running[t].(inserted := true)])
    case Commit(t) => System(Install(s.db, s.running[t]), s.running - {t}, s.log + [s.running[t].request])
    case Rollback(t) => s.(running := s.running - {t})
  }

  // ---- What the locks keep true ---------------------------------------------------------------

  /** What a transaction buffered is what its statements would write into the tables as they are
      committed now. */
  predicate Fresh(db: Db, tx: Tx) {
    && (tx.row.Some? ==>
          && UsesQuota(tx.request) && IsCurrent(db, tx.request.tenant, tx.row.value)
          && tx.quota.Some? && tx.quota == QuotaWrite(tx.request, db.quotas[tx.row.value]))
    && (UsesCounter(tx.request) && !tx.request.Initialize? && tx.seen.Some? && tx.seen.value.Some? ==>
          tx.request.counter in db.counters && db.counters[tx.request.counter] == tx.seen.value.value)
    && (tx.value.Some? ==> UsesCounter(tx.request) && tx.value == CounterWrite(tx.request, Value(db, tx.request.counter)))
    && (tx.request.Initialize? ==> tx.seen.None?)
    && (tx.inserted ==> tx.request.Create? && tx.value.Some? && !HasKey(db, tx.request.key))
    && (UsesQuota(tx.request) && (tx.seen.Some? || tx.value.Some?) ==> tx.row.Some?)
  }

  /** No two transactions hold the same lock. */
  ghost predicate Exclusive(s: System) {
    forall a, b :: a in s.running && b in s.running && a != b ==> Apart(s.running[a], s.running[b])
  }

  predicate Apart(x: Tx, y: Tx) {
    && (x.row.Some? ==> x.row != y.row)
    && (UsesCounter(x.request) && HoldsCounter(x, x.request.counter) ==> !HoldsCounter(y, x.request.counter))
    && (x.request.Create? && HoldsKey(x, x.request.key) ==> !HoldsKey(y, x.request.key))
  }

  ghost predicate Inv(s: System) {
    && OneCurrent(s.db) && Exclusive(s)
    && forall t :: t in s.running ==> Fresh(s.db, s.running[t])
  }

  /** A complete transaction installs exactly what it would have done alone, now. */
  lemma InstallIsSerial(db: Db, tx: Tx)
    requires OneCurrent(db) && Fresh(db, tx) && Complete(tx)
    ensures UsesQuota(tx.request) ==> tx.row.value < |db.quotas|
    ensures Serial(db, tx.request) == Ok(Install(db, tx))
  {
    if UsesQuota(tx.request) {
      var r := CurrentRow(db, tx.request.tenant);
      assert IsCurrent(db, tx.request.tenant, tx.row.value);
      assert r == tx.row;
    }
  }

  lemma SerialKeepsOneCurrent(db: Db, request: Request)
    requires OneCurrent(db) && Serial(db, request).Ok?
    ensures OneCurrent(Serial(db, request).value)
  {
    var db' := Serial(db, request).value;
    forall t: Tenant, a: RowId, b: RowId | IsCurrent(db', t, a) && IsCurrent(db', t, b)
      ensures a == b
    {
      if a < |db.quotas| { assert IsCurrent(db, t, a); }
      if b < |db.quotas| { assert IsCurrent(db, t, b); }
    }
  }

  /** What another transaction has buffered stays right when this one commits. */
  lemma CommitKeepsFresh(db: Db, tx: Tx, other: Tx)
    requires OneCurrent(db) && Fresh(db, tx) && Complete(tx) && Fresh(db, other) && Apart(tx, other) && Apart(other, tx)
    requires tx.row.Some? ==> tx.row.value < |db.quotas|
    ensures Fresh(Install(db, tx), other)
  {
    if other.row.Some? {
      assert Install(db, tx).quotas[other.row.value] == db.quotas[other.row.value];
    }
  }

  lemma ReplaceKeepsInv(s: System, t: TxId, tx: Tx)
    requires Inv(s) && Fresh(s.db, tx)
    requires forall o :: o in s.running && o != t ==> Apart(tx, s.running[o]) && Apart(s.running[o], tx)
    ensures Inv(s.(running := s.running[t := tx]))
  {
    hide Fresh, Apart, OneCurrent;
  }

  lemma UpdateQuotaKeepsInv(s: System, st: Statement)
    requires Inv(s) && st.UpdateQuota? && Enabled(s, st)
    ensures Inv(Next(s, st))
  {
    var tx := s.running[st.t];
    var r := CurrentRow(s.db, tx.request.tenant).value;
    var tx' := tx.(row := Some(r), quota := QuotaWrite(tx.request, s.db.quotas[r]));
    forall o | o in s.running && o != st.t
      ensures Apart(tx', s.running[o]) && Apart(s.running[o], tx')
    {
      assert Apart(tx, s.running[o]) && Apart(s.running[o], tx) && !HoldsRow(s.running[o], r);
    }
    ReplaceKeepsInv(s, st.t, tx');
  }

  lemma SelectKeepsInv(s: System, st: Statement)
    requires Inv(s) && st.SelectCounter? && Enabled(s, st)
    ensures Inv(Next(s, st))
  {
    var tx := s.running[st.t];
    var c := tx.request.counter;
    var tx' := tx.(seen := Some(if c in s.db.counters then Some(s.db.counters[c]) else None));
    forall o | o in s.running && o != st.t
      ensures Apart(tx', s.running[o]) && Apart(s.running[o], tx')
    {
      assert Apart(tx, s.running[o]) && Apart(s.running[o], tx);
      assert c in s.db.counters ==> !HoldsCounter(s.running[o], c);
    }
    ReplaceKeepsInv(s, st.t, tx');
  }

  lemma WriteKeepsInv(s: System, st: Statement)
    requires Inv(s) && st.WriteCounter? && Enabled(s, st)
    ensures Inv(Next(s, st))
  {
    var tx := s.running[st.t];
    var c := tx.request.counter;
    var tx' := tx.(value := CounterWrite(tx.request, if tx.seen.Some? then tx.seen.value.GetOr(0) else 0));
    forall o | o in s.running && o != st.t
      ensures Apart(tx', s.running[o]) && Apart(s.running[o], tx')
    {
      assert Apart(tx, s.running[o]) && Apart(s.running[o], tx);
      assert HoldsCounter(tx, c) || !HoldsCounter(s.running[o], c);
    }
    ReplaceKeepsInv(s, st.t, tx');
  }

  lemma InsertKeepsInv(s: System, st: Statement)
    requires Inv(s) && st.InsertDoc? && Enabled(s, st)
    ensures Inv(Next(s, st))
  {
    hide HoldsCounter;
    var tx := s.running[st.t];
    var tx' := tx.(inserted := true);
    forall o | o in s.running && o != st.t
      ensures Apart(tx', s.running[o]) && Apart(s.running[o], tx')
    {
      assert Apart(tx, s.running[o]) && Apart(s.running[o], tx) && !HoldsKey(s.running[o], tx.request.key);
      SameCounterHeld(tx, tx');
    }
    ReplaceKeepsInv(s, st.t, tx');
  }

  lemma SameCounterHeld(tx: Tx, tx': Tx)
    requires tx' == tx.(inserted := tx'.inserted)
    ensures forall c :: HoldsCounter(tx', c) <==> HoldsCounter(tx, c)
  {
  }

  lemma CommitKeepsInv(s: System, st: Statement)
    requires Inv(s) && st.Commit? && Enabled(s, st)
    ensures Inv(Next(s, st))
  {
    hide Fresh, Apart, OneCurrent, Install, Serial;
    var s' := Next(s, st);
    var tx := s.running[st.t];
    InstallIsSerial(s.db, tx);
    SerialKeepsOneCurrent(s.db, tx.request);
    forall t | t in s'.running
      ensures Fresh(s'.db, s'.running[t])
    {
      CommitKeepsFresh(s.db, tx, s.running[t]);
    }
  }

  lemma StepKeepsInv(s: System, st: Statement)
    requires Inv(s) && Enabled(s, st)
    ensures Inv(Next(s, st))
  {
    match st {
      case Begin(t, request) =>
        hide OneCurrent;
        ReplaceKeepsInv(s, t, Tx(request, None, None, None, None, false));
      case UpdateQuota(_) => UpdateQuotaKeepsInv(s, st);
      case SelectCounter(_) => SelectKeepsInv(s, st);
      case WriteCounter(_) => WriteKeepsInv(s, st);
      case InsertDoc(_) => InsertKeepsInv(s, st);
      case Commit(_) => CommitKeepsInv(s, st);
      case Rollback(_) => hide Fresh, Apart, OneCurrent;
    }
  }

  // ---- Whole runs -----------------------------------------------------------------------------

  predicate Runs(s: System, sts: seq<Statement>)
    decreases |sts|
  {
    sts == [] || (Enabled(s, sts[0]) && Runs(Next(s, sts[0]), sts[1..]))
  }

  function After(s: System, sts: seq<Statement>): System
    requires Runs(s, sts)
    decreases |sts|
  {
    if sts == [] then s else After(Next(s, sts[0]), sts[1..])
  }

  lemma CommitReplays(start: Db, s: System, st: Statement)
    requires Inv(s) && Enabled(s, st) && Replay(start, s.log) == Some(s.db)
    ensures Replay(start, Next(s, st).log) == Some(Next(s, st).db)
  {
    if st.Commit? {
      var tx := s.running[st.t];
      InstallIsSerial(s.db, tx);
      assert (s.log + [tx.request])[..|s.log|] == s.log;
    }
  }

  /** Whatever the interleaving, and whatever is rolled back, the committed tables are those that
      running the committed requests alone, one after another in commit order, leaves. */
  lemma {:induction false} CommittedIsSerial(start: Db, s: System, sts: seq<Statement>)
    requires Inv(s) && Runs(s, sts) && Replay(start, s.log) == Some(s.db)
    ensures Inv(After(s, sts)) && Replay(start, After(s, sts).log) == Some(After(s, sts).db)
    decreases |sts|
  {
    hide Inv, Enabled, Next, Replay;
    if sts != [] {
      StepKeepsInv(s, sts[0]);
      CommitReplays(start, s, sts[0]);
      CommittedIsSerial(start, Next(s, sts[0]), sts[1..]);
    }
  }

  lemma FromTheStart(start: Db, sts: seq<Statement>)
    requires OneCurrent(start) && Runs(System(start, map[], []), sts)
    ensures
      var s := After(System(start, map[], []), sts);
      OneCurrent(s.db) && Replay(start, s.log) == Some(s.db)
  {
    CommittedIsSerial(start, System(start, map[], []), sts);
  }

  /** A statement that is not a commit, a rollback included, changes no committed table. */
  lemma OnlyCommitsShow(s: System, st: Statement)
    requires Enabled(s, st)
    ensures !st.Commit? ==> Next(s, st).db == s.db && Next(s, st).log == s.log
    ensures st.Rollback? ==> Next(s, st) == s.(running := s.running - {st.t})
  {
  }

  // ---- Waiting --------------------------------------------------------------------------------

  /** The tables are locked in one order: quota row, counter, idempotency key. */
  function Stage(tx: Tx): nat {
    if UsesQuota(tx.request) && tx.row.None? then 0
    else if UsesCounter(tx.request) && tx.value.None? then 1
    else if tx.request.Create? && !tx.inserted then 2
    else 3
  }

  function NextStatement(t: TxId, tx: Tx): Statement {
    match Stage(tx)
    case 0 => UpdateQuota(t)
    case 1 => if tx.request.Initialize? || tx.seen.Some? then WriteCounter(t) else SelectCounter(t)
    case 2 => InsertDoc(t)
    case _ => Commit(t)
  }

  /** Whether a transaction's next statement has to lock its counter. */
  predicate NeedsCounter(db: Db, tx: Tx) {
    && UsesCounter(tx.request)
    && (tx.request.Initialize? || (tx.seen.None? && tx.request.counter in db.counters)
        || (tx.seen == Some(None) && tx.request.counter !in db.counters))
  }

  /** One transaction's next statement is blocked by a lock that another holds. */
  predicate WaitsFor(s: System, a: TxId, b: TxId) {
    && a in s.running && b in s.running && a != b
    && var x := s.running[a];
       var y := s.running[b];
       match Stage(x)
       case 0 => CurrentRow(s.db, x.request.tenant).Some? && HoldsRow(y, CurrentRow(s.db, x.request.tenant).value)
       case 1 => NeedsCounter(s.db, x) && HoldsCounter(y, x.request.counter)
       case 2 => HoldsKey(y, x.request.key)
       case _ => false
  }

  predicate Waits(s: System, t: TxId) {
    exists o :: o in s.running && WaitsFor(s, t, o)
  }

  /** A statement that no lock blocks but that the tables refuse: no quota left, a number that is
      not larger, a row or a key that another transaction has committed. */
  predicate Refused(s: System, t: TxId)
    requires t in s.running
  {
    var tx := s.running[t];
    match Stage(tx)
    case 0 => var r := CurrentRow(s.db, tx.request.tenant); r.None? || QuotaWrite(tx.request, s.db.quotas[r.value]).None?
    case 1 =>
      if tx.request.Initialize? || tx.seen.None? then false
      else (tx.seen.value.None? && tx.request.counter in s.db.counters) || CounterWrite(tx.request, tx.seen.value.GetOr(0)).None?
    case 2 => HasKey(s.db, tx.request.key)
    case _ => false
  }

  /** Who is waited for and waits in turn, waits at a later table. */
  lemma WaitingClimbs(s: System, a: TxId, b: TxId, c: TxId)
    requires Inv(s) && WaitsFor(s, a, b) && WaitsFor(s, b, c)
    ensures Stage(s.running[a]) < Stage(s.running[b])
  {
    assert Fresh(s.db, s.running[b]);
  }

  /** So no transactions ever wait for each other in a circle: from any that waits, someone it
      waits for, directly or not, does not wait. */
  lemma {:induction false} SomeoneMoves(s: System, t: TxId) returns (m: TxId)
    requires Inv(s) && t in s.running
    ensures m in s.running && !Waits(s, m)
    decreases 4 - Stage(s.running[t])
  {
    hide Inv, WaitsFor;
    if Waits(s, t) {
      var o :| o in s.running && WaitsFor(s, t, o);
      if Waits(s, o) {
        var p :| p in s.running && WaitsFor(s, o, p);
        WaitingClimbs(s, t, o, p);
        m := SomeoneMoves(s, o);
      } else {
        m := o;
      }
    } else {
      m := t;
    }
  }

  /** Whoever does not wait can run its next statement exactly when the tables do not refuse it. */
  lemma WhoDoesNotWaitRuns(s: System, t: TxId)
    requires Inv(s) && t in s.running && !Waits(s, t)
    ensures Enabled(s, NextStatement(t, s.running[t])) <==> !Refused(s, t)
  {
    var tx := s.running[t];
    assert Fresh(s.db, tx);
    assert forall o :: o in s.running ==> !WaitsFor(s, t, o);
  }

  /** In every run there is no deadlock. */
  lemma NoDeadlock(start: Db, sts: seq<Statement>)
    requires OneCurrent(start) && Runs(System(start, map[], []), sts)
    ensures
      var s := After(System(start, map[], []), sts);
      s.running == map[] || exists t :: t in s.running && !Waits(s, t) && (Enabled(s, NextStatement(t, s.running[t])) <==> !Refused(s, t))
  {
    hide Inv, Enabled, Waits, Refused, NextStatement;
    InitialInv(start);
    CommittedIsSerial(start, System(start, map[], []), sts);
    var s := After(System(start, map[], []), sts);
    if s.running != map[] {
      var t :| t in s.running;
      var m := SomeoneMoves(s, t);
      WhoDoesNotWaitRuns(s, m);
    }
  }

  lemma InitialInv(start: Db)
    requires OneCurrent(start)
    ensures Inv(System(start, map[], [])) && Replay(start, []) == Some(start)
  {
  }
}
