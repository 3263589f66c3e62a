/** The append-only history of tier and seat prices: drafts that may be edited, publications that
    may not, and the price resolved as of a date. */
module Pricing {
  import opened Options
  import opened Tiers
  import opened Calendar

  type PriceId = nat

  /** Tiers are priced by interval, an extra seat by interval alone. */
  datatype Item = TierPrice(tier: Tier, interval: Interval) | SeatPrice(interval: Interval)

  datatype Price =
    | Draft(item: Item, cents: nat)
    | Published(item: Item, cents: nat, effectiveAt: int, publishedAt: int)

  datatype Book = Book(prices: seq<Price>, now: int)

  datatype Error = NotFound | NotDraft | NoticeTooShort

  // ---- Operations -----------------------------------------------------------------------------

  datatype Step =
    | CreateDraft(item: Item, cents: nat)
    | UpdateDraft(id: PriceId, cents: nat)
    | Publish(id: PriceId, noticeDays: Option<nat>)
    | Wait(ms: nat)

  /** Days of notice a publication gives; None when fewer than the floor were asked for. */
  function Notice(noticeDays: Option<nat>, floor: nat): Option<nat> {
    if noticeDays.Some? && noticeDays.value < floor then None
    else
      var asked := if noticeDays.Some? && noticeDays.value != 0 then noticeDays.value else floor;
      Some(if asked < floor then floor else asked)
  }

  function Run(book: Book, step: Step, floor: nat): Result<Book, Error> {
    match step
    case CreateDraft(item, cents) => Ok(book.(prices := book.prices + [Draft(item, cents)]))
    case UpdateDraft(id, cents) =>
      if id >= |book.prices| then Err(NotFound)
      else if book.prices[id].Published? then Err(NotDraft)
      else Ok(book.(prices := book.prices[id := Draft(book.prices[id].item, cents)]))
    case Publish(id, noticeDays) =>
      if Notice(noticeDays, floor).None? then Err(NoticeTooShort)
      else if id >= |book.prices| then Err(NotFound)
      else if book.prices[id].Published? then Err(NotDraft)
      else
        var draft := book.prices[id];
        var effectiveAt := book.now + Days(Notice(noticeDays, floor).value);
        Ok(book.(prices := book.prices[id := Published(draft.item, draft.cents, effectiveAt, book.now)]))
    case Wait(ms) => Ok(book.(now := book.now + ms))
  }

  /** A refused operation leaves the book as it is. */
  function Next(book: Book, step: Step, floor: nat): Book {
    match Run(book, step, floor)
    case Ok(next) => next
    case Err(_) => book
  }

  function After(book: Book, steps: seq<Step>, floor: nat): Book
    decreases |steps|
  {
    if steps == [] then book else After(Next(book, steps[0], floor), steps[1..], floor)
  }

  // ---- Resolving a price ----------------------------------------------------------------------

  /** A published price of an item already in effect on a date. */
  predicate InEffect(book: Book, item: Item, date: int, id: PriceId) {
    id < |book.prices| && book.prices[id].Published? && book.prices[id].item == item && book.prices[id].effectiveAt <= date
  }

  /** What resolving may return: a price in effect than which none in effect is newer. Prices that
      took effect at the same instant may both be returned. */
  ghost predicate Resolves(book: Book, item: Item, date: int, id: PriceId) {
    && InEffect(book, item, date, id)
    && forall o: PriceId :: InEffect(book, item, date, o) ==> book.prices[o].effectiveAt <= book.prices[id].effectiveAt
  }

  function NewestBelow(book: Book, item: Item, date: int, below: nat): (r: Option<PriceId>)
    requires below <= |book.prices|
    ensures r.Some? ==> r.value < below && InEffect(book, item, date, r.value)
    ensures r.Some? ==>
      forall o: PriceId :: o < below && InEffect(book, item, date, o) ==> book.prices[o].effectiveAt <= book.prices[r.value].effectiveAt
    ensures r.None? ==> forall o: PriceId :: o < below ==> !InEffect(book, item, date, o)
  {
    if below == 0 then None
    else
      var id := below - 1;
      var newest := NewestBelow(book, item, date, id);
      if InEffect(book, item, date, id) && (newest.None? || book.prices[newest.value].effectiveAt <= book.prices[id].effectiveAt)
      then Some(id)
      else newest
  }

  function FindCurrent(book: Book, item: Item, date: int): Option<PriceId> {
    NewestBelow(book, item, date, |book.prices|)
  }

  /** Resolving finds a price exactly when some price is in effect, and it is a newest one: a published
      price of this very item that took effect by the date, than which no other such took effect
      later. */
  lemma FindCurrentResolves(book: Book, item: Item, date: int)
    ensures FindCurrent(book, item, date).Some? <==> exists id :: InEffect(book, item, date, id)
    ensures FindCurrent(book, item, date).Some? ==> Resolves(book, item, date, FindCurrent(book, item, date).value)
    ensures
      match FindCurrent(book, item, date)
      case None => forall o :: 0 <= o < |book.prices| && book.prices[o].Published? && book.prices[o].item == item ==> date < book.prices[o].effectiveAt
      case Some(id) =>
        && id < |book.prices| && book.prices[id].Published? && book.prices[id].item == item && book.prices[id].effectiveAt <= date
        && forall o :: 0 <= o < |book.prices| && book.prices[o].Published? && book.prices[o].item == item && book.prices[o].effectiveAt <= date ==>
             book.prices[o].effectiveAt <= book.prices[id].effectiveAt
  {
    forall o: PriceId
      ensures InEffect(book, item, date, o) <==>
        o < |book.prices| && book.prices[o].Published? && book.prices[o].item == item && book.prices[o].effectiveAt <= date
    {
    }
    if FindCurrent(book, item, date).Some? {
      assert InEffect(book, item, date, FindCurrent(book, item, date).value);
    }
  }

  // ---- What history keeps ---------------------------------------------------------------------

  /** Published prices gave their notice; only seeded ones (below `seeds`) did not. */
  ghost predicate Noticed(book: Book, floor: nat, seeds: nat) {
    forall id :: 0 <= id < |book.prices| && book.prices[id].Published? ==>
      book.prices[id].publishedAt <= book.now && (id >= seeds ==> book.prices[id].publishedAt + Days(floor) <= book.prices[id].effectiveAt)
  }

  lemma DaysMonotone(a: int, b: int)
    requires a <= b
    ensures Days(a) <= Days(b)
  {
  }

  /** One step changes no published price, and publishes nothing that takes effect within the
      floor. */
  lemma StepKeepsHistory(book: Book, step: Step, floor: nat)
    ensures
      var next := Next(book, step, floor);
      && book.now <= next.now && |book.prices| <= |next.prices|
      && (forall id :: 0 <= id < |book.prices| && book.prices[id].Published? ==> next.prices[id] == book.prices[id])
      && forall id :: 0 <= id < |next.prices| && next.prices[id].Published? && (id >= |book.prices| || book.prices[id].Draft?) ==>
           next.prices[id].publishedAt == book.now && book.now + Days(floor) <= next.prices[id].effectiveAt
  {
    hide Days;
    if step.Publish? && Notice(step.noticeDays, floor).Some? {
      DaysMonotone(floor, Notice(step.noticeDays, floor).value);
    }
  }

  /** In every run published prices stay as they are, and whatever is published later takes effect
      no sooner than the floor after the run began. */
  lemma {:induction false} RunKeepsHistory(book: Book, steps: seq<Step>, floor: nat)
    ensures
      var next := After(book, steps, floor);
      && book.now <= next.now && |book.prices| <= |next.prices|
      && (forall id :: 0 <= id < |book.prices| && book.prices[id].Published? ==> next.prices[id] == book.prices[id])
      && forall id :: 0 <= id < |next.prices| && next.prices[id].Published? && (id >= |book.prices| || book.prices[id].Draft?) ==>
           next.prices[id].publishedAt + Days(floor) <= next.prices[id].effectiveAt && book.now <= next.prices[id].publishedAt
    decreases |steps|
  {
    hide Next, Days;
    if steps != [] {
      StepKeepsHistory(book, steps[0], floor);
      RunKeepsHistory(Next(book, steps[0], floor), steps[1..], floor);
    }
  }

  lemma {:induction false} RunKeepsNoticed(book: Book, steps: seq<Step>, floor: nat, seeds: nat)
    requires Noticed(book, floor, seeds)
    ensures Noticed(After(book, steps, floor), floor, seeds)
    decreases |steps|
  {
    hide Next, Days;
    if steps != [] {
      StepKeepsHistory(book, steps[0], floor);
      RunKeepsNoticed(Next(book, steps[0], floor), steps[1..], floor, seeds);
    }
  }

  /** A day, in milliseconds. */
  const DAY := 86_400_000

  /** When a publication goes through, and as what: a draft that is there, with no fewer days of notice
      asked than the floor. It keeps its item and its amount, and takes effect after the days asked,
      or the floor if none were. */
  lemma PublishOutcome(book: Book, id: PriceId, noticeDays: Option<nat>, floor: nat)
    ensures
      var r := Run(book, Publish(id, noticeDays), floor);
      && (r.Ok? <==> id < |book.prices| && book.prices[id].Draft? && (noticeDays.Some? ==> floor <= noticeDays.value))
      && (r == Err(NoticeTooShort) <==> noticeDays.Some? && noticeDays.value < floor)
      && (r == Err(NotFound) ==> id >= |book.prices|)
      && (r == Err(NotDraft) ==> id < |book.prices| && book.prices[id].Published?)
      && (r.Ok? ==>
            var days := if noticeDays.Some? then noticeDays.value else floor;
            r.value == book.(prices := book.prices[id := Published(book.prices[id].item, book.prices[id].cents, book.now + days * DAY, book.now)]))
  {
  }

  /** Drafts are added and edited as asked, published prices never. */
  lemma DraftOutcome(book: Book, item: Item, id: PriceId, cents: nat, floor: nat)
    ensures
      var made := Run(book, CreateDraft(item, cents), floor);
      made.Ok? && |made.value.prices| == |book.prices| + 1 && made.value.prices[|book.prices|] == Draft(item, cents)
    ensures
      var r := Run(book, UpdateDraft(id, cents), floor);
      && (r.Ok? <==> id < |book.prices| && book.prices[id].Draft?)
      && (r.Ok? ==> |r.value.prices| == |book.prices| && r.value.prices[id] == Draft(book.prices[id].item, cents))
      && (r.Ok? ==> forall o :: 0 <= o < |book.prices| && o != id ==> r.value.prices[o] == book.prices[o])
  {
  }

  // ---- The freeze -----------------------------------------------------------------------------

  /** The same prices are in effect on a date, at the same amounts. */
  ghost predicate SameInEffect(a: Book, b: Book, item: Item, date: int) {
    && (forall id: PriceId :: InEffect(a, item, date, id) <==> InEffect(b, item, date, id))
    && forall id: PriceId :: InEffect(a, item, date, id) ==> a.prices[id] == b.prices[id]
  }

  /** Until then a draft created and published now changes them. */
  lemma ThawedUntilTheFloor(book: Book, item: Item, date: int, floor: nat)
    requires book.now + Days(floor) <= date
    ensures exists steps :: !SameInEffect(book, After(book, steps, floor), item, date)
  {
    hide Days;
    var id := |book.prices|;
    var steps := [CreateDraft(item, 0), Publish(id, None)];
    var first := Next(book, steps[0], floor);
    var last := Next(first, steps[1], floor);
    assert steps[1..] == [Publish(id, None)] && steps[1..][1..] == [];
    assert After(last, [], floor) == last;
    assert After(first, [Publish(id, None)], floor) == last;
    assert After(book, steps, floor) == last;
    assert last.prices[id] == Published(item, 0, book.now + Days(floor), book.now);
    assert InEffect(last, item, date, id);
  }

  /** The prices in effect on a date can no longer be changed by anybody exactly once the date is
      closer than the notice floor. */
  lemma FrozenExactly(book: Book, item: Item, date: int, floor: nat)
    ensures (forall steps :: SameInEffect(book, After(book, steps, floor), item, date)) <==> date < book.now + Days(floor)
  {
    hide Days;
    if date < book.now + Days(floor) {
      forall steps: seq<Step>
        ensures SameInEffect(book, After(book, steps, floor), item, date)
      {
        RunKeepsHistory(book, steps, floor);
      }
    } else {
      ThawedUntilTheFloor(book, item, date, floor);
    }
  }

  /** So at any two times later than the date less the floor a date resolves to the same prices. */
  lemma ResolvesTheSame(book: Book, steps: seq<Step>, item: Item, date: int, floor: nat, id: PriceId)
    requires date < book.now + Days(floor)
    ensures Resolves(book, item, date, id) <==> Resolves(After(book, steps, floor), item, date, id)
    ensures Resolves(book, item, date, id) ==> After(book, steps, floor).prices[id].cents == book.prices[id].cents
  {
    FrozenExactly(book, item, date, floor);
    assert SameInEffect(book, After(book, steps, floor), item, date);
  }

  /** A renewal opened in the reminder window, of at most `window` days before its period starts,
      uses a price published at least the floor before the start, seeded prices apart, and when the
      floor is longer than the window every later opening of it resolves alike. */
  lemma RenewalUsesANoticedPrice(start: Book, steps: seq<Step>, later: seq<Step>, item: Item, periodStart: int, floor: nat, window: nat, seeds: nat, id: PriceId)
    requires Noticed(start, floor, seeds)
    requires periodStart <= After(start, steps, floor).now + Days(window)
    requires Resolves(After(start, steps, floor), item, periodStart, id)
    ensures id >= seeds ==> After(start, steps, floor).prices[id].publishedAt + Days(floor) <= periodStart
    ensures
      var book := After(start, steps, floor);
      window < floor ==>
        Resolves(After(book, later, floor), item, periodStart, id) && After(book, later, floor).prices[id] == book.prices[id]
  {
    RunKeepsNoticed(start, steps, floor, seeds);
    var book := After(start, steps, floor);
    if window < floor {
      ResolvesTheSame(book, later, item, periodStart, floor, id);
      RunKeepsHistory(book, later, floor);
    }
  }

  // ---- The service ----------------------------------------------------------------------------

  class PriceService {
    var prices: seq<Price>
    var now: int
    const floor: nat

    function State(): Book
      reads this
    {
      Book(prices, now)
    }

    constructor (book: Book, floor: nat)
      ensures State() == book && this.floor == floor
    {
      prices, now := book.prices, book.now;
      this.floor := floor;
    }

    method CreateDraft(item: Item, cents: nat) returns (id: PriceId)
      modifies `prices
      ensures id == old(|prices|) && Ok(State()) == old(Run(State(), Step.CreateDraft(item, cents), floor))
    {
      id := |prices|;
      prices := prices + [Draft(item, cents)];
    }

    method UpdateDraft(id: PriceId, cents: nat) returns (error: Option<Error>)
      modifies `prices
      ensures State() == old(Next(State(), Step.UpdateDraft(id, cents), floor))
      ensures error == match old(Run(State(), Step.UpdateDraft(id, cents), floor)) case Ok(_) => None case Err(e) => Some(e)
    {
      if id < |prices| && prices[id].Draft? {
        prices := prices[id := Draft(prices[id].item, cents)];
        return None;
      }
      return if id >= |prices| then Some(NotFound) else Some(NotDraft);
    }

    method PublishPrice(id: PriceId, noticeDays: Option<nat>) returns (error: Option<Error>)
      modifies `prices
      ensures State() == old(Next(State(), Step.Publish(id, noticeDays), floor))
      ensures error == match old(Run(State(), Step.Publish(id, noticeDays), floor)) case Ok(_) => None case Err(e) => Some(e)
    {
      if noticeDays.Some? && noticeDays.value < floor { return Some(NoticeTooShort); }
      var asked := if noticeDays.Some? && noticeDays.value != 0 then noticeDays.value else floor;
      var days := if asked < floor then floor else asked;
      var effectiveAt := now + Days(days);
      if id < |prices| && prices[id].Draft? {
        prices := prices[id := Published(prices[id].item, prices[id].cents, effectiveAt, now)];
        return None;
      }
      return if id >= |prices| then Some(NotFound) else Some(NotDraft);
    }

    method GetPriceAsOf(item: Item, date: int) returns (cents: Option<nat>)
      ensures cents.Some? <==> exists id :: InEffect(State(), item, date, id)
      ensures cents.Some? ==> exists id: PriceId :: Resolves(State(), item, date, id) && prices[id].cents == cents.value
    {
      var id := FindCurrent(State(), item, date);
      FindCurrentResolves(State(), item, date);
      if id.None? { return None; }
      return Some(prices[id.value].cents);
    }
  }
}
