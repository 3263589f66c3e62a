/** Totals of invoices and credit notes: tax buckets accumulated over items, line totals, the rounding
    of both, and the subtotal the printed representation derives again. */
module TaxTotals {
  import opened Options

  datatype Tax = Tax(code: string, rateCode: string, rate: real)

  datatype Item = Item(quantity: real, unitPrice: real, discount: real, taxes: seq<Tax>)

  /** The accumulator of one tax and rate code. */
  datatype Bucket = Bucket(code: string, rateCode: string, base: real, value: real)

  /** One item's base under one of its taxes. */
  datatype Entry = Entry(base: real, tax: Tax)

  function Base(item: Item): real {
    item.quantity * item.unitPrice - item.discount
  }

  function Value(e: Entry): real {
    e.base * (e.tax.rate / 100.0)
  }

  function Key(code: string, rateCode: string): string {
    code + "-" + rateCode
  }

  // ---- Flat sums ------------------------------------------------------------------------------

  function EntriesOf(base: real, taxes: seq<Tax>): seq<Entry> {
    if taxes == [] then [] else EntriesOf(base, taxes[..|taxes| - 1]) + [Entry(base, taxes[|taxes| - 1])]
  }

  /** Every item with every one of its taxes, in order. */
  function Entries(items: seq<Item>): seq<Entry> {
    if items == [] then []
    else Entries(items[..|items| - 1]) + EntriesOf(Base(items[|items| - 1]), items[|items| - 1].taxes)
  }

  function SumBases(items: seq<Item>): real {
    if items == [] then 0.0 else SumBases(items[..|items| - 1]) + Base(items[|items| - 1])
  }

  function SumDiscounts(items: seq<Item>): real {
    if items == [] then 0.0 else SumDiscounts(items[..|items| - 1]) + items[|items| - 1].discount
  }

  function SumValues(es: seq<Entry>): real {
    if es == [] then 0.0 else SumValues(es[..|es| - 1]) + Value(es[|es| - 1])
  }

  /** The bases and the tax of the entries with a key. */
  function SumOf(es: seq<Entry>, key: string): (real, real) {
    if es == [] then (0.0, 0.0)
    else
      var (base, value) := SumOf(es[..|es| - 1], key);
      var e := es[|es| - 1];
      if Key(e.tax.code, e.tax.rateCode) == key then (base + e.base, value + Value(e)) else (base, value)
  }

  // ---- Buckets --------------------------------------------------------------------------------

  function Find(buckets: seq<Bucket>, key: string): (i: nat)
    ensures i <= |buckets|
    ensures i < |buckets| ==> Key(buckets[i].code, buckets[i].rateCode) == key
    ensures forall j :: 0 <= j < i ==> Key(buckets[j].code, buckets[j].rateCode) != key
  {
    if buckets == [] || Key(buckets[0].code, buckets[0].rateCode) == key then 0 else 1 + Find(buckets[1..], key)
  }

  function Post(buckets: seq<Bucket>, e: Entry): seq<Bucket> {
    var i := Find(buckets, Key(e.tax.code, e.tax.rateCode));
    if i == |buckets| then buckets + [Bucket(e.tax.code, e.tax.rateCode, e.base, Value(e))]
    else buckets[i := buckets[i].(base := buckets[i].base + e.base, value := buckets[i].value + Value(e))]
  }

  function Buckets(es: seq<Entry>): seq<Bucket> {
    if es == [] then [] else Post(Buckets(es[..|es| - 1]), es[|es| - 1])
  }

  function SumBuckets(buckets: seq<Bucket>): real {
    if buckets == [] then 0.0 else SumBuckets(buckets[..|buckets| - 1]) + buckets[|buckets| - 1].value
  }

  lemma {:induction false} SumBucketsUpdate(buckets: seq<Bucket>, i: nat, b: Bucket)
    requires i < |buckets|
    ensures SumBuckets(buckets[i := b]) == SumBuckets(buckets) + b.value - buckets[i].value
  {
    var init := buckets[..|buckets| - 1];
    if i == |buckets| - 1 {
      assert buckets[i := b][..i] == init;
    } else {
      assert buckets[i := b][..|buckets| - 1] == init[i := b];
      SumBucketsUpdate(init, i, b);
    }
  }

  lemma PostAdds(buckets: seq<Bucket>, e: Entry)
    ensures SumBuckets(Post(buckets, e)) == SumBuckets(buckets) + Value(e)
  {
    hide Value;
    var i := Find(buckets, Key(e.tax.code, e.tax.rateCode));
    if i == |buckets| {
      assert Post(buckets, e)[..|buckets|] == buckets;
    } else {
      SumBucketsUpdate(buckets, i, Post(buckets, e)[i]);
    }
  }

  /** Grouping loses nothing: the buckets' tax sums to the tax of every entry. */
  lemma {:induction false} GroupedIsFlat(es: seq<Entry>)
    ensures SumBuckets(Buckets(es)) == SumValues(es)
  {
    hide Post, Value;
    if es != [] {
      GroupedIsFlat(es[..|es| - 1]);
      PostAdds(Buckets(es[..|es| - 1]), es[|es| - 1]);
    }
  }

  predicate HasKey(es: seq<Entry>, key: string) {
    exists i :: 0 <= i < |es| && Key(es[i].tax.code, es[i].tax.rateCode) == key
  }

  /** Each key that occurs has one bucket, holding exactly the sums of its entries, and no other
      key has one. */
  ghost predicate Groups(buckets: seq<Bucket>, es: seq<Entry>) {
    && (forall i, j :: 0 <= i < j < |buckets| ==> BucketKey(buckets[i]) != BucketKey(buckets[j]))
    && (forall key :: Find(buckets, key) < |buckets| <==> HasKey(es, key))
    && forall i :: 0 <= i < |buckets| ==> (buckets[i].base, buckets[i].value) == SumOf(es, BucketKey(buckets[i]))
  }

  function BucketKey(b: Bucket): string {
    Key(b.code, b.rateCode)
  }

  lemma {:induction false} FindIsFound(buckets: seq<Bucket>, key: string)
    ensures Find(buckets, key) < |buckets| <==> exists i :: 0 <= i < |buckets| && BucketKey(buckets[i]) == key
  {
    if Find(buckets, key) < |buckets| {
      assert BucketKey(buckets[Find(buckets, key)]) == key;
    }
  }

  lemma {:induction false} NoKeyNoSum(es: seq<Entry>, key: string)
    requires !HasKey(es, key)
    ensures SumOf(es, key) == (0.0, 0.0)
  {
    if es != [] {
      NoKeyNoSum(es[..|es| - 1], key);
    }
  }

  lemma PostGroups(buckets: seq<Bucket>, es: seq<Entry>, e: Entry)
    requires Groups(buckets, es)
    ensures Groups(Post(buckets, e), es + [e])
  {
    hide Value, Key;
    var key := Key(e.tax.code, e.tax.rateCode);
    var i := Find(buckets, key);
    var after := Post(buckets, e);
    assert (es + [e])[..|es|] == es;
    FindIsFound(buckets, key);
    forall k
      ensures Find(after, k) < |after| <==> HasKey(es + [e], k)
    {
      KeysAfter(buckets, es, e, k);
    }
    if i == |buckets| {
      NoKeyNoSum(es, key);
    }
  }

  lemma KeysAfter(buckets: seq<Bucket>, es: seq<Entry>, e: Entry, k: string)
    requires Find(buckets, k) < |buckets| <==> HasKey(es, k)
    ensures Find(Post(buckets, e), k) < |Post(buckets, e)| <==> HasKey(es + [e], k)
  {
    hide Value, Key;
    var key := Key(e.tax.code, e.tax.rateCode);
    var after := Post(buckets, e);
    FindIsFound(buckets, k);
    FindIsFound(after, k);
    HasKeyAfter(es, e, k);
    var i := Find(buckets, key);
    if i == |buckets| {
      assert BucketKey(after[i]) == key;
      if k != key && Find(buckets, k) < |buckets| { assert BucketKey(after[Find(buckets, k)]) == k; }
    } else {
      assert BucketKey(after[i]) == key;
      if Find(buckets, k) < |buckets| { assert BucketKey(after[Find(buckets, k)]) == k; }
      if Find(after, k) < |after| { assert BucketKey(buckets[Find(after, k)]) == k; }
    }
  }

  lemma HasKeyAfter(es: seq<Entry>, e: Entry, k: string)
    ensures HasKey(es + [e], k) <==> HasKey(es, k) || Key(e.tax.code, e.tax.rateCode) == k
  {
    var all := es + [e];
    if HasKey(es, k) {
      var i :| 0 <= i < |es| && Key(es[i].tax.code, es[i].tax.rateCode) == k;
      assert all[i] == es[i];
    }
    if Key(e.tax.code, e.tax.rateCode) == k {
      assert all[|es|] == e;
    }
  }

  lemma {:induction false} BucketsGroup(es: seq<Entry>)
    ensures Groups(Buckets(es), es)
  {
    hide Groups, Post;
    if es == [] {
      EmptyGroups();
    } else {
      BucketsGroup(es[..|es| - 1]);
      PostGroups(Buckets(es[..|es| - 1]), es[..|es| - 1], es[|es| - 1]);
      assert es[..|es| - 1] + [es[|es| - 1]] == es;
    }
  }

  lemma EmptyGroups()
    ensures Groups([], [])
  {
  }

  /** Keys tell tax and rate codes apart as long as tax codes hold no dash, as SRI's do not. */
  lemma KeysTellCodesApart(code: string, rateCode: string, code': string, rateCode': string)
    requires '-' !in code && '-' !in code'
    ensures Key(code, rateCode) == Key(code', rateCode') <==> code == code' && rateCode == rateCode'
  {
    var a, b := Key(code, rateCode), Key(code', rateCode');
    assert a[|code|] == '-' && b[|code'|] == '-';
    assert |code| < |code'| ==> b[|code|] in code';
    assert |code'| < |code| ==> a[|code'|] in code;
    if a == b {
      assert code == a[..|code|] && code' == b[..|code|];
      assert rateCode == a[|code| + 1..] && rateCode' == b[|code| + 1..];
    }
  }

  // ---- Totals ---------------------------------------------------------------------------------

  function LineTax(item: Item): real {
    SumValues(EntriesOf(Base(item), item.taxes))
  }

  function LineTotal(item: Item): real {
    Base(item) + LineTax(item)
  }

  function SumLines(items: seq<Item>): real {
    if items == [] then 0.0 else SumLines(items[..|items| - 1]) + LineTotal(items[|items| - 1])
  }

  lemma {:induction false} SumValuesAppend(a: seq<Entry>, b: seq<Entry>)
    ensures SumValues(a + b) == SumValues(a) + SumValues(b)
  {
    hide Value;
    if b == [] {
      assert a + b == a;
    } else {
      assert (a + b)[..|a + b| - 1] == a + b[..|b| - 1];
      SumValuesAppend(a, b[..|b| - 1]);
    }
  }

  /** The subtotal and the tax of all entries are what the unrounded lines sum to. */
  lemma {:induction false} TotalIsSumOfLines(items: seq<Item>)
    ensures SumBases(items) + SumValues(Entries(items)) == SumLines(items)
  {
    hide Value, Base, EntriesOf;
    if items != [] {
      TotalIsSumOfLines(items[..|items| - 1]);
      SumValuesAppend(Entries(items[..|items| - 1]), EntriesOf(Base(items[|items| - 1]), items[|items| - 1].taxes));
    }
  }

  /** So a document's total, from its buckets, is the sum of its unrounded lines. */
  lemma GrandTotalIsSumOfLines(items: seq<Item>)
    ensures SumBases(items) + SumBuckets(Buckets(Entries(items))) == SumLines(items)
  {
    GroupedIsFlat(Entries(items));
    TotalIsSumOfLines(items);
  }

  // ---- From the items' own figures ------------------------------------------------------------

  function SumGross(items: seq<Item>): real {
    if items == [] then 0.0
    else SumGross(items[..|items| - 1]) + items[|items| - 1].quantity * items[|items| - 1].unitPrice
  }

  function SumRates(taxes: seq<Tax>): real {
    if taxes == [] then 0.0 else SumRates(taxes[..|taxes| - 1]) + taxes[|taxes| - 1].rate
  }

  /** An item's base and the percentages of it that its taxes add. */
  function Taxed(item: Item): real {
    Base(item) * ((100.0 + SumRates(item.taxes)) / 100.0)
  }

  function SumTaxed(items: seq<Item>): real {
    if items == [] then 0.0 else SumTaxed(items[..|items| - 1]) + Taxed(items[|items| - 1])
  }

  /** A base, once for each entry with a key. */
  function BaseUnder(base: real, taxes: seq<Tax>, key: string): real {
    if taxes == [] then 0.0
    else
      var last := taxes[|taxes| - 1];
      BaseUnder(base, taxes[..|taxes| - 1], key) + if Key(last.code, last.rateCode) == key then base else 0.0
  }

  /** The items' bases, each once for each of its entries with a key. */
  function NetUnder(items: seq<Item>, key: string): real {
    if items == [] then 0.0
    else NetUnder(items[..|items| - 1], key) + BaseUnder(Base(items[|items| - 1]), items[|items| - 1].taxes, key)
  }

  /** The subtotal and the discounts together are what the items cost before discounts. */
  lemma {:induction false} SubtotalIsGrossLessDiscounts(items: seq<Item>)
    ensures SumBases(items) + SumDiscounts(items) == SumGross(items)
  {
    if items != [] {
      SubtotalIsGrossLessDiscounts(items[..|items| - 1]);
    }
  }

  lemma {:induction false} TaxOfRates(base: real, taxes: seq<Tax>)
    ensures SumValues(EntriesOf(base, taxes)) == base * (SumRates(taxes) / 100.0)
  {
    if taxes != [] {
      var init, last := taxes[..|taxes| - 1], taxes[|taxes| - 1];
      TaxOfRates(base, init);
      assert (EntriesOf(base, init) + [Entry(base, last)])[..|EntriesOf(base, init)|] == EntriesOf(base, init);
      Spread(base, SumRates(init), last.rate);
    }
  }

  lemma Spread(base: real, a: real, b: real)
    ensures base * ((a + b) / 100.0) == base * (a / 100.0) + base * (b / 100.0)
  {
    var x, y := a / 100.0, b / 100.0;
    assert (a + b) / 100.0 == x + y;
    assert base * (x + y) == base * x + base * y;
  }

  lemma TaxedIsLineTotal(item: Item)
    ensures LineTotal(item) == Taxed(item)
  {
    TaxOfRates(Base(item), item.taxes);
    Spread(Base(item), 100.0, SumRates(item.taxes));
  }

  lemma {:induction false} TaxedAreLines(items: seq<Item>)
    ensures SumLines(items) == SumTaxed(items)
  {
    hide LineTotal, Taxed;
    if items != [] {
      TaxedAreLines(items[..|items| - 1]);
      TaxedIsLineTotal(items[|items| - 1]);
    }
  }

  lemma {:induction false} SumOfAppend(a: seq<Entry>, b: seq<Entry>, key: string)
    ensures SumOf(a + b, key) == (SumOf(a, key).0 + SumOf(b, key).0, SumOf(a, key).1 + SumOf(b, key).1)
  {
    hide Value, Key;
    if b == [] {
      assert a + b == a;
    } else {
      assert (a + b)[..|a + b| - 1] == a + b[..|b| - 1];
      SumOfAppend(a, b[..|b| - 1], key);
    }
  }

  lemma {:induction false} SumOfItem(base: real, taxes: seq<Tax>, key: string)
    ensures SumOf(EntriesOf(base, taxes), key).0 == BaseUnder(base, taxes, key)
  {
    hide Value, Key;
    if taxes != [] {
      var init, last := taxes[..|taxes| - 1], taxes[|taxes| - 1];
      SumOfItem(base, init, key);
      var es := EntriesOf(base, init);
      assert (es + [Entry(base, last)])[..|es|] == es;
    }
  }

  lemma NothingSummed(key: string)
    ensures SumOf([], key) == (0.0, 0.0)
  {
  }

  lemma {:induction false} BasesUnderKey(items: seq<Item>, key: string)
    ensures SumOf(Entries(items), key).0 == NetUnder(items, key)
  {
    hide Value, Key, BaseUnder, EntriesOf, Base, SumOf;
    if items == [] {
      NothingSummed(key);
    } else {
      var init, last := items[..|items| - 1], items[|items| - 1];
      BasesUnderKey(init, key);
      SumOfItem(Base(last), last.taxes, key);
      SumOfAppend(Entries(init), EntriesOf(Base(last), last.taxes), key);
    }
  }

  /** Every entry with a key has this rate. */
  predicate AtRate(es: seq<Entry>, key: string, rate: real) {
    forall i :: 0 <= i < |es| && Key(es[i].tax.code, es[i].tax.rateCode) == key ==> es[i].tax.rate == rate
  }

  lemma {:induction false} ValueAtRate(es: seq<Entry>, key: string, rate: real)
    requires AtRate(es, key, rate)
    ensures SumOf(es, key).1 == SumOf(es, key).0 * (rate / 100.0)
  {
    hide Key;
    if es != [] {
      var init, last := es[..|es| - 1], es[|es| - 1];
      ValueAtRate(init, key, rate);
      var x, r := SumOf(init, key).0, rate / 100.0;
      assert (x + last.base) * r == x * r + last.base * r;
    }
  }

  /** A bucket from the items: the sum of their bases under its two codes and, when they are taxed at
      one rate, that percentage of it; printed with its codes, base and tax each rounded once. */
  lemma BucketsFromItems(items: seq<Item>, i: nat, rate: real)
    requires i < |Buckets(Entries(items))|
    ensures
      var b := Buckets(Entries(items))[i];
      var printed := PrintedAll(Buckets(Entries(items)))[i];
      && b.base == NetUnder(items, Key(b.code, b.rateCode))
      && (AtRate(Entries(items), Key(b.code, b.rateCode), rate) ==> b.value == b.base * (rate / 100.0))
      && printed.codigo == b.code && printed.codigoPorcentaje == b.rateCode
      && printed.baseImponible == Cents(b.base) && printed.valor == Cents(b.value)
  {
    hide Cents, Buckets, Entries, AtRate;
    var es := Entries(items);
    var b := Buckets(es)[i];
    BucketsGroup(es);
    BasesUnderKey(items, BucketKey(b));
    if AtRate(es, BucketKey(b), rate) {
      ValueAtRate(es, BucketKey(b), rate);
    }
  }

  // ---- Rounding -------------------------------------------------------------------------------

  /** To the nearest cent, halves away from zero, and alike on both sides of it. */
  lemma CentsAreNearest(x: real)
    ensures Cents(-x) == -Cents(x)
    ensures x >= 0.0 ==> x * 100.0 - 0.5 < Cents(x) as real <= x * 100.0 + 0.5
  {
  }

  /** Two decimals, in cents: nearest, halves away from zero. */
  function Cents(x: real): int {
    if x < 0.0 then -((-x * 100.0 + 0.5).Floor) else (x * 100.0 + 0.5).Floor
  }

  lemma CentsAreNear(x: real)
    ensures x * 100.0 - 0.5 <= Cents(x) as real <= x * 100.0 + 0.5
  {
  }

  function SumRounded(items: seq<Item>): int {
    if items == [] then 0 else SumRounded(items[..|items| - 1]) + Cents(LineTotal(items[|items| - 1]))
  }

  lemma {:induction false} RoundedLinesAreNear(items: seq<Item>)
    ensures SumLines(items) * 100.0 - |items| as real / 2.0 <= SumRounded(items) as real <= SumLines(items) * 100.0 + |items| as real / 2.0
  {
    hide LineTotal, Cents;
    if items != [] {
      RoundedLinesAreNear(items[..|items| - 1]);
      CentsAreNear(LineTotal(items[|items| - 1]));
    }
  }

  /** Rounded lines sum to the rounded total up to half a cent a line and half a cent. */
  lemma RoundedLinesVersusTotal(items: seq<Item>)
    ensures
      var total := Cents(SumBases(items) + SumBuckets(Buckets(Entries(items))));
      -(|items| + 1) <= 2 * (SumRounded(items) - total) <= |items| + 1
  {
    hide Cents, Base, SumBases, SumBuckets, SumLines, SumRounded, Buckets, Entries;
    GrandTotalIsSumOfLines(items);
    RoundedLinesAreNear(items);
    CentsAreNear(SumLines(items));
  }

  // ---- The builders ---------------------------------------------------------------------------

  /** The loop both builders run over their items. */
  method Accumulate(items: seq<Item>) returns (subtotal: real, taxTotals: seq<Bucket>)
    ensures subtotal == SumBases(items) && taxTotals == Buckets(Entries(items))
  {
    hide Base, Post, Value;
    subtotal, taxTotals := 0.0, [];
    for i := 0 to |items|
      invariant subtotal == SumBases(items[..i]) && taxTotals == Buckets(Entries(items[..i]))
    {
      assert items[..i + 1][..i] == items[..i];
      var itemTotal := Base(items[i]);
      subtotal := subtotal + itemTotal;
      var taxes := items[i].taxes;
      ghost var before := Entries(items[..i]);
      assert taxes[..0] == [] && EntriesOf(itemTotal, []) == [] && before + [] == before;
      for j := 0 to |taxes|
        invariant taxTotals == Buckets(before + EntriesOf(itemTotal, taxes[..j]))
      {
        assert taxes[..j + 1][..j] == taxes[..j];
        var e := Entry(itemTotal, taxes[j]);
        PostOneMore(before, EntriesOf(itemTotal, taxes[..j]), e);
        taxTotals := Post(taxTotals, e);
      }
      assert taxes[..|taxes|] == taxes;
    }
    assert items[..|items|] == items;
  }

  lemma PostOneMore(before: seq<Entry>, es: seq<Entry>, e: Entry)
    ensures Buckets(before + (es + [e])) == Post(Buckets(before + es), e)
    ensures before + [] == before
  {
    var all := before + (es + [e]);
    assert all[..|all| - 1] == before + es && all[|all| - 1] == e;
  }

  method TotalTax(taxTotals: seq<Bucket>) returns (sum: real)
    ensures sum == SumBuckets(taxTotals)
  {
    sum := 0.0;
    for i := 0 to |taxTotals|
      invariant sum == SumBuckets(taxTotals[..i])
    {
      assert taxTotals[..i + 1][..i] == taxTotals[..i];
      sum := sum + taxTotals[i].value;
    }
    assert taxTotals[..|taxTotals|] == taxTotals;
  }

  /** A bucket as it is printed. */
  datatype TotalImpuesto = TotalImpuesto(codigo: string, codigoPorcentaje: string, baseImponible: int, valor: int)

  function Printed(b: Bucket): TotalImpuesto {
    TotalImpuesto(b.code, b.rateCode, Cents(b.base), Cents(b.value))
  }

  function PrintedAll(buckets: seq<Bucket>): (printed: seq<TotalImpuesto>)
    ensures |printed| == |buckets| && forall i :: 0 <= i < |buckets| ==> printed[i] == Printed(buckets[i])
  {
    seq(|buckets|, i requires 0 <= i < |buckets| => Printed(buckets[i]))
  }

  method TotalDiscount(items: seq<Item>) returns (sum: real)
    ensures sum == SumDiscounts(items)
  {
    sum := 0.0;
    for i := 0 to |items|
      invariant sum == SumDiscounts(items[..i])
    {
      assert items[..i + 1][..i] == items[..i];
      sum := sum + items[i].discount;
    }
    assert items[..|items|] == items;
  }

  class InvoiceBuilder {
    var subtotal: int
    var total: int
    var totalDescuento: int
    var totalConImpuestos: seq<TotalImpuesto>

    constructor ()
    {
      subtotal, total, totalDescuento, totalConImpuestos := 0, 0, 0, [];
    }

    method BuildInfoFactura(items: seq<Item>)
      modifies this
      ensures subtotal == Cents(SumGross(items) - SumDiscounts(items))
      ensures total == Cents(SumTaxed(items)) == Cents(SumLines(items))
      ensures totalDescuento == Cents(SumDiscounts(items))
      ensures totalConImpuestos == PrintedAll(Buckets(Entries(items)))
    {
      hide Cents, Base, PrintedAll, SumLines, SumTaxed, SumGross, SumBases, SumBuckets, SumDiscounts, Buckets, Entries;
      var sum, taxTotals := Accumulate(items);
      var totalTax := TotalTax(taxTotals);
      GrandTotalIsSumOfLines(items);
      SubtotalIsGrossLessDiscounts(items);
      TaxedAreLines(items);
      var totalDiscount := TotalDiscount(items);
      totalConImpuestos := PrintedAll(taxTotals);
      totalDescuento := Cents(totalDiscount);
      subtotal := Cents(sum);
      total := Cents(sum + totalTax);
    }
  }

  class CreditNoteBuilder {
    var subtotal: int
    var total: int
    var totalConImpuestos: seq<TotalImpuesto>

    constructor ()
    {
      subtotal, total, totalConImpuestos := 0, 0, [];
    }

    method BuildInfoNotaCredito(items: seq<Item>)
      modifies this
      ensures subtotal == Cents(SumGross(items) - SumDiscounts(items))
      ensures total == Cents(SumTaxed(items)) == Cents(SumLines(items))
      ensures totalConImpuestos == PrintedAll(Buckets(Entries(items)))
    {
      hide Cents, Base, PrintedAll, SumLines, SumTaxed, SumGross, SumBases, SumBuckets, SumDiscounts, Buckets, Entries;
      var sum, taxTotals := Accumulate(items);
      var totalTax := TotalTax(taxTotals);
      GrandTotalIsSumOfLines(items);
      SubtotalIsGrossLessDiscounts(items);
      TaxedAreLines(items);
      totalConImpuestos := PrintedAll(taxTotals);
      subtotal := Cents(sum);
      total := Cents(sum + totalTax);
    }
  }

  // ---- Stored lines ---------------------------------------------------------------------------

  datatype Row = Row(subtotal: int, lineTotal: int)

  function SumRows(rows: seq<Row>): int {
    if rows == [] then 0 else SumRows(rows[..|rows| - 1]) + rows[|rows| - 1].lineTotal
  }

  lemma NoRows()
    ensures SumRows([]) == 0 && SumRounded([]) == 0
  {
  }

  lemma OneMoreRow(rows: seq<Row>, row: Row)
    ensures SumRows(rows + [row]) == SumRows(rows) + row.lineTotal
  {
    assert (rows + [row])[..|rows|] == rows;
  }

  lemma OneMoreLine(items: seq<Item>, i: nat)
    requires i < |items|
    ensures SumRounded(items[..i + 1]) == SumRounded(items[..i]) + Cents(LineTotal(items[i]))
  {
    assert items[..i + 1][..i] == items[..i];
  }

  lemma LineTotalIs(item: Item)
    ensures LineTotal(item) == Base(item) + SumValues(EntriesOf(Base(item), item.taxes))
  {
  }

  /** One row an item; the rows' totals are the rounded lines. */
  method BulkCreate(items: seq<Item>) returns (rows: seq<Row>)
    ensures |rows| == |items| && SumRows(rows) == SumRounded(items)
    ensures forall i :: 0 <= i < |items| ==> rows[i] == Row(Cents(Base(items[i])), Cents(Taxed(items[i])))
  {
    hide Cents, Base, Value, LineTotal, Taxed, SumRows, SumRounded;
    rows := [];
    NoRows();
    for i := 0 to |items|
      invariant |rows| == i && SumRows(rows) == SumRounded(items[..i])
      invariant forall k :: 0 <= k < i ==> rows[k] == Row(Cents(Base(items[k])), Cents(Taxed(items[k])))
    {
      assert items[..i + 1][..i] == items[..i];
      var subtotal := Base(items[i]);
      var taxes := items[i].taxes;
      var taxTotal := 0.0;
      for j := 0 to |taxes|
        invariant taxTotal == SumValues(EntriesOf(subtotal, taxes[..j]))
      {
        assert taxes[..j + 1][..j] == taxes[..j];
        taxTotal := taxTotal + Value(Entry(subtotal, taxes[j]));
      }
      assert taxes[..|taxes|] == taxes;
      TaxedIsLineTotal(items[i]);
      LineTotalIs(items[i]);
      var row := Row(Cents(subtotal), Cents(subtotal + taxTotal));
      OneMoreRow(rows, row);
      OneMoreLine(items, i);
      rows := rows + [row];
    }
    assert items[..|items|] == items;
  }

  // ---- The printed representation -------------------------------------------------------------

  const IVA: string := "2"

  /** IVA entries of an item. */
  function IvaCount(taxes: seq<Tax>): nat {
    if taxes == [] then 0 else IvaCount(taxes[..|taxes| - 1]) + if taxes[|taxes| - 1].code == IVA then 1 else 0
  }

  /** Bases by rate code, in the order the codes first appear. */
  function AddTo(bases: seq<(string, real)>, rateCode: string, base: real): seq<(string, real)> {
    if bases == [] then [(rateCode, base)]
    else if bases[0].0 == rateCode then [(rateCode, bases[0].1 + base)] + bases[1..]
    else [bases[0]] + AddTo(bases[1..], rateCode, base)
  }

  function SumAll(bases: seq<(string, real)>): real {
    if bases == [] then 0.0 else bases[0].1 + SumAll(bases[1..])
  }

  lemma {:induction false} AddToAdds(bases: seq<(string, real)>, rateCode: string, base: real)
    ensures SumAll(AddTo(bases, rateCode, base)) == SumAll(bases) + base
  {
    if bases != [] && bases[0].0 != rateCode {
      AddToAdds(bases[1..], rateCode, base);
    }
  }

  /** A base, once for each IVA entry. */
  function IvaBases(base: real, taxes: seq<Tax>): real {
    if taxes == [] then 0.0 else IvaBases(base, taxes[..|taxes| - 1]) + if taxes[|taxes| - 1].code == IVA then base else 0.0
  }

  lemma {:induction false} IvaBasesAre(base: real, taxes: seq<Tax>)
    ensures IvaBases(base, taxes) == base * IvaCount(taxes) as real
  {
    if taxes != [] {
      IvaBasesAre(base, taxes[..|taxes| - 1]);
      var n := IvaCount(taxes[..|taxes| - 1]) as real;
      assert base * (n + 1.0) == base * n + base;
    }
  }

  /** Every item's base, once for each of its IVA entries. */
  function SumIvaBases(items: seq<Item>): real {
    if items == [] then 0.0
    else SumIvaBases(items[..|items| - 1]) + IvaBases(Base(items[|items| - 1]), items[|items| - 1].taxes)
  }

  method SumOfBases(bases: seq<(string, real)>) returns (sum: real)
    ensures sum == SumAll(bases)
  {
    sum := 0.0;
    for i := 0 to |bases|
      invariant sum + SumAll(bases[i..]) == SumAll(bases)
    {
      assert bases[i..][1..] == bases[i + 1..];
      sum := sum + bases[i].1;
    }
    assert bases[|bases|..] == [];
  }

  /** SUBTOTAL SIN IMPUESTOS: the sum of the bases accumulated by rate code. */
  method BuildSubtotalSinImpuestos(items: seq<Item>) returns (subtotalSinImp: real)
    ensures subtotalSinImp == SumIvaBases(items)
  {
    hide Base, AddTo;
    var ivaBase: seq<(string, real)> := [];
    for i := 0 to |items|
      invariant SumAll(ivaBase) == SumIvaBases(items[..i])
    {
      assert items[..i + 1][..i] == items[..i];
      var base := Base(items[i]);
      var taxes := items[i].taxes;
      ghost var before := SumAll(ivaBase);
      for j := 0 to |taxes|
        invariant SumAll(ivaBase) == before + IvaBases(base, taxes[..j])
      {
        assert taxes[..j + 1][..j] == taxes[..j];
        if taxes[j].code == IVA {
          AddToAdds(ivaBase, taxes[j].rateCode, base);
          ivaBase := AddTo(ivaBase, taxes[j].rateCode, base);
        }
      }
      assert taxes[..|taxes|] == taxes;
    }
    assert items[..|items|] == items;
    subtotalSinImp := SumOfBases(ivaBase);
  }

  /** What items without exactly one IVA entry add to the printed subtotal. */
  function Excess(items: seq<Item>): real {
    if items == [] then 0.0
    else Excess(items[..|items| - 1]) + Base(items[|items| - 1]) * (IvaCount(items[|items| - 1].taxes) as real - 1.0)
  }

  lemma {:induction false} PrintedSubtotal(items: seq<Item>)
    ensures SumIvaBases(items) == SumBases(items) + Excess(items)
  {
    hide Base, IvaCount, IvaBases;
    if items != [] {
      var init, last := items[..|items| - 1], items[|items| - 1];
      PrintedSubtotal(init);
      IvaBasesAre(Base(last), last.taxes);
      var b, n := Base(last), IvaCount(last.taxes) as real;
      assert b * (n - 1.0) == b * n - b;
    }
  }

  /** Exactly one of an item's taxes is the IVA, tax code 2 of SRI's catalogue. */
  predicate HasOneIva(taxes: seq<Tax>) {
    exists j :: 0 <= j < |taxes| && taxes[j].code == "2" && forall k :: 0 <= k < |taxes| && k != j ==> taxes[k].code != "2"
  }

  lemma {:induction false} IvaCountIs(taxes: seq<Tax>)
    ensures IvaCount(taxes) == 0 <==> forall k :: 0 <= k < |taxes| ==> taxes[k].code != "2"
    ensures IvaCount(taxes) == 1 <==> HasOneIva(taxes)
  {
    if taxes != [] {
      var init, last := taxes[..|taxes| - 1], taxes[|taxes| - 1];
      IvaCountIs(init);
      assert forall k :: 0 <= k < |init| ==> taxes[k] == init[k];
      if last.code == "2" && IvaCount(init) == 0 {
        assert taxes[|init|].code == "2";
      }
      if last.code != "2" && HasOneIva(init) {
        var j :| 0 <= j < |init| && init[j].code == "2" && forall k :: 0 <= k < |init| && k != j ==> init[k].code != "2";
        assert taxes[j].code == "2" && forall k :: 0 <= k < |taxes| && k != j ==> taxes[k].code != "2";
      }
      if HasOneIva(taxes) {
        var j :| 0 <= j < |taxes| && taxes[j].code == "2" && forall k :: 0 <= k < |taxes| && k != j ==> taxes[k].code != "2";
        if j < |init| { assert init[j].code == "2"; }
      }
    }
  }

  /** Every item that costs anything has exactly one IVA entry. */
  predicate OneIvaEach(items: seq<Item>) {
    forall i :: 0 <= i < |items| && Base(items[i]) != 0.0 ==> IvaCount(items[i].taxes) == 1
  }

  lemma OneIvaEachIs(items: seq<Item>)
    ensures OneIvaEach(items) <==>
      forall i :: 0 <= i < |items| && items[i].quantity * items[i].unitPrice != items[i].discount ==> HasOneIva(items[i].taxes)
  {
    hide IvaCount, HasOneIva;
    forall i | 0 <= i < |items|
      ensures IvaCount(items[i].taxes) == 1 <==> HasOneIva(items[i].taxes)
    {
      IvaCountIs(items[i].taxes);
    }
  }

  /** Bases are not negative, and no item lacks an IVA entry, or none has several. */
  predicate AtLeastOneIva(items: seq<Item>) {
    forall i :: 0 <= i < |items| ==> Base(items[i]) >= 0.0 && IvaCount(items[i].taxes) >= 1
  }

  predicate AtMostOneIva(items: seq<Item>) {
    forall i :: 0 <= i < |items| ==> Base(items[i]) >= 0.0 && IvaCount(items[i].taxes) <= 1
  }

  lemma ExcessTerm(b: real, n: nat)
    ensures b * (n as real - 1.0) == 0.0 <==> b == 0.0 || n == 1
    ensures b >= 0.0 && n >= 1 ==> b * (n as real - 1.0) >= 0.0
    ensures b >= 0.0 && n <= 1 ==> b * (n as real - 1.0) <= 0.0
  {
  }

  lemma OneMoreItem(items: seq<Item>)
    ensures
      if items == [] then OneIvaEach(items)
      else
        var init, last := items[..|items| - 1], items[|items| - 1];
        && (OneIvaEach(items) <==> OneIvaEach(init) && (Base(last) != 0.0 ==> IvaCount(last.taxes) == 1))
        && (AtLeastOneIva(items) <==> AtLeastOneIva(init) && Base(last) >= 0.0 && IvaCount(last.taxes) >= 1)
        && (AtMostOneIva(items) <==> AtMostOneIva(init) && Base(last) >= 0.0 && IvaCount(last.taxes) <= 1)
  {
    hide Base, IvaCount;
    if items != [] {
      var init, last := items[..|items| - 1], items[|items| - 1];
      assert items == init + [last];
      assert forall i :: 0 <= i < |init| ==> items[i] == init[i];
    }
  }

  lemma {:induction false} ExcessIsZero(items: seq<Item>)
    ensures OneIvaEach(items) ==> Excess(items) == 0.0
    ensures AtLeastOneIva(items) ==> Excess(items) >= 0.0 && (Excess(items) == 0.0 ==> OneIvaEach(items))
    ensures AtMostOneIva(items) ==> Excess(items) <= 0.0 && (Excess(items) == 0.0 ==> OneIvaEach(items))
  {
    hide Base, IvaCount, OneIvaEach, AtLeastOneIva, AtMostOneIva;
    OneMoreItem(items);
    if items != [] {
      var last := items[|items| - 1];
      ExcessIsZero(items[..|items| - 1]);
      ExcessTerm(Base(last), IvaCount(last.taxes));
    }
  }

  /** The printed subtotal is the builder's when each item that costs anything has exactly one IVA
      entry; and only then, unless items with several make up for items with none. */
  lemma PrintedSubtotalExactly(items: seq<Item>)
    ensures OneIvaEach(items) ==> SumIvaBases(items) == SumBases(items) == SumGross(items) - SumDiscounts(items)
    ensures AtLeastOneIva(items) || AtMostOneIva(items) ==> (SumIvaBases(items) == SumBases(items) <==> OneIvaEach(items))
    ensures AtLeastOneIva(items) ==> SumIvaBases(items) >= SumBases(items)
    ensures AtMostOneIva(items) ==> SumIvaBases(items) <= SumBases(items)
  {
    SubtotalIsGrossLessDiscounts(items);
    PrintedSubtotal(items);
    ExcessIsZero(items);
  }
}
