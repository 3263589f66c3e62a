/** The committed tables behind document creation, and what each kind of transaction does when it
    runs alone. */
module Creation {
  import opened Options

  type Tenant = nat
  type RowId = nat
  type TxId = nat

  /** The unique key of a sequential counter, in the sandbox schema or the public one. */
  datatype Counter = Counter(sandbox: bool, issuer: nat, branchCode: string, issuePoint: string, documentType: string)

  /** An idempotency key, unique in its schema. */
  datatype Key = Key(sandbox: bool, text: string)

  /** One quota period of a tenant; without a cap it is unlimited. */
  datatype Quota = Quota(tenant: Tenant, count: nat, cap: Option<nat>, current: bool)

  datatype Doc = Doc(counter: Counter, sequential: int, key: Option<Key>, payloadHash: string)

  datatype Db = Db(counters: map<Counter, int>, quotas: seq<Quota>, docs: seq<Doc>)

  datatype Request =
    | Create(tenant: Tenant, counter: Counter, key: Option<Key>, payloadHash: string)
    | SetNext(counter: Counter, next: int)
    | Initialize(counter: Counter, start: int)
    | Rollover(tenant: Tenant, cap: Option<nat>)
    | SetCap(tenant: Tenant, cap: Option<nat>)

  datatype Error = QuotaExceeded | CannotDecrease | DuplicateKey | NoQuota

  predicate IsCurrent(db: Db, tenant: Tenant, r: RowId) {
    r < |db.quotas| && db.quotas[r].tenant == tenant && db.quotas[r].current
  }

  /** The newest current quota row of a tenant below an id. */
  function CurrentBelow(db: Db, tenant: Tenant, below: nat): (r: Option<RowId>)
    requires below <= |db.quotas|
    ensures r.Some? ==> r.value < below && IsCurrent(db, tenant, r.value)
    ensures r.None? ==> forall q: RowId :: q < below ==> !IsCurrent(db, tenant, q)
  {
    if below == 0 then None
    else if IsCurrent(db, tenant, below - 1) then Some(below - 1)
    else CurrentBelow(db, tenant, below - 1)
  }

  function CurrentRow(db: Db, tenant: Tenant): Option<RowId> {
    CurrentBelow(db, tenant, |db.quotas|)
  }

  predicate WithinCap(q: Quota) {
    q.cap.Some? ==> q.count < q.cap.value
  }

  function Charged(q: Quota): Quota {
    q.(count := q.count + 1)
  }

  /** The value a counter's row holds, 0 where there is no row. */
  function Value(db: Db, c: Counter): int {
    if c in db.counters then db.counters[c] else 0
  }

  predicate HasKey(db: Db, key: Option<Key>) {
    key.Some? && exists i :: 0 <= i < |db.docs| && db.docs[i].key == key
  }

  /** A quota row is charged by production documents only. */
  function ChargeOne(db: Db, tenant: Tenant): Result<Db, Error> {
    match CurrentRow(db, tenant)
    case None => Err(QuotaExceeded)
    case Some(r) =>
      if WithinCap(db.quotas[r]) then Ok(db.(quotas := db.quotas[r := Charged(db.quotas[r])])) else Err(QuotaExceeded)
  }

  /** One transaction, alone, from begin to commit. */
  function Serial(db: Db, request: Request): Result<Db, Error> {
    match request
    case Create(tenant, c, key, payloadHash) =>
      (match (if c.sandbox then Ok(db) else ChargeOne(db, tenant))
       case Err(e) => Err(e)
       case Ok(db1) =>
         if HasKey(db1, key) then Err(DuplicateKey)
         else
           var n := Value(db1, c) + 1;
           Ok(db1.(counters := db1.counters[c := n], docs := db1.docs + [Doc(c, n, key, payloadHash)])))
    case SetNext(c, next) =>
      if next <= Value(db, c) then Err(CannotDecrease) else Ok(db.(counters := db.counters[c := next - 1]))
    case Initialize(c, start) => Ok(db.(counters := db.counters[c := start - 1]))
    case Rollover(tenant, cap) =>
      (match CurrentRow(db, tenant)
       case None => Err(NoQuota)
       case Some(r) => Ok(db.(quotas := db.quotas[r := db.quotas[r].(current := false)] + [Quota(tenant, 0, cap, true)])))
    case SetCap(tenant, cap) =>
      (match CurrentRow(db, tenant)
       case None => Err(NoQuota)
       case Some(r) => Ok(db.(quotas := db.quotas[r := db.quotas[r].(cap := cap)])))
  }

  /** A log of requests, each run alone in turn; None when one of them could not commit. */
  function Replay(db: Db, log: seq<Request>): Option<Db> {
    if log == [] then Some(db)
    else
      match Replay(db, log[..|log| - 1])
      case None => None
      case Some(before) =>
        match Serial(before, log[|log| - 1])
        case Err(_) => None
        case Ok(after) => Some(after)
  }

  /** At most one current quota row per tenant: the tables' unique index. */
  ghost predicate OneCurrent(db: Db) {
    forall t, a, b :: IsCurrent(db, t, a) && IsCurrent(db, t, b) ==> a == b
  }
}
