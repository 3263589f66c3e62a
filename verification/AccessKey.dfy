/** SRI access keys: fixed-width fields followed by a Module 11 check digit (SRI Ficha Tecnica,
    Esquema Offline, Table 1). */
module AccessKey {
  import opened Options

  type Digit = d: nat | d < 10

  // ---- Numbers as digits ----------------------------------------------------------------------

  /** A number's decimal digits, most significant first. */
  function Digits(n: nat): (s: seq<Digit>)
    ensures |s| >= 1
  {
    if n < 10 then [n] else Digits(n / 10) + [n % 10]
  }

  function Number(s: seq<Digit>): nat {
    if s == [] then 0 else Number(s[..|s| - 1]) * 10 + s[|s| - 1]
  }

  function Zeros(n: nat): seq<Digit> {
    seq(n, _ => 0)
  }

  function PadStart(s: seq<Digit>, width: nat): seq<Digit> {
    if |s| >= width then s else Zeros(width - |s|) + s
  }

  function Power10(n: nat): (p: nat)
    ensures p > 0
  {
    if n == 0 then 1 else 10 * Power10(n - 1)
  }

  lemma {:induction false} DigitsNumber(n: nat)
    ensures Number(Digits(n)) == n
  {
    if n >= 10 {
      DigitsNumber(n / 10);
      assert Digits(n)[..|Digits(n)| - 1] == Digits(n / 10);
    } else {
      assert [n as Digit][..0] == [];
    }
  }

  lemma {:induction false} DigitsFit(n: nat, width: nat)
    requires width >= 1
    ensures |Digits(n)| <= width <==> n < Power10(width)
  {
    if n < 10 {
      PowerAtLeastTen(width);
    } else if width > 1 {
      DigitsFit(n / 10, width - 1);
    }
  }

  lemma {:induction false} PowerAtLeastTen(width: nat)
    requires width >= 1
    ensures Power10(width) >= 10
  {
    if width > 1 {
      PowerAtLeastTen(width - 1);
    }
  }

  lemma {:induction false} PadNumber(s: seq<Digit>, k: nat)
    ensures Number(Zeros(k) + s) == Number(s)
  {
    if s == [] {
      if k > 0 {
        assert (Zeros(k) + s)[..k - 1] == Zeros(k - 1) + s;
        PadNumber(s, k - 1);
      }
    } else {
      assert (Zeros(k) + s)[..k + |s| - 1] == Zeros(k) + s[..|s| - 1];
      PadNumber(s[..|s| - 1], k);
    }
  }

  // ---- Module 11 ------------------------------------------------------------------------------

  /** Weights 2 to 7 from the right, over and over. */
  function Weight(fromRight: nat): nat {
    2 + fromRight % 6
  }

  function WeightedSum(s: seq<Digit>): nat {
    SumFrom(s, 0)
  }

  /** The weighted sum of the digits from an index on. */
  function SumFrom(s: seq<Digit>, from: nat): nat
    requires from <= |s|
    decreases |s| - from
  {
    if from == |s| then 0 else s[from] * Weight(|s| - 1 - from) + SumFrom(s, from + 1)
  }

  function CheckDigit(s: seq<Digit>): Digit {
    var remainder := 11 - WeightedSum(s) % 11;
    if remainder == 11 then 0 else if remainder == 10 then 1 else remainder
  }

  /** Module 11: the digit, with weight 1, completes the weighted sum to a multiple of 11; where that
      would take a ten, it is 1. */
  predicate Completes(sum: nat, check: Digit) {
    if sum % 11 == 1 then check == 1 else (sum + check) % 11 == 0
  }

  /** No other digit does. */
  lemma CheckDigitIs(s: seq<Digit>, check: Digit)
    ensures Completes(WeightedSum(s), check) <==> check == CheckDigit(s)
  {
    hide WeightedSum;
  }

  lemma NoMore(s: seq<Digit>)
    ensures SumFrom(s, |s|) == 0
  {
  }

  lemma OneDigit(s: seq<Digit>, from: nat)
    requires from < |s|
    ensures SumFrom(s, from) == s[from] * Weight(|s| - 1 - from) + SumFrom(s, from + 1)
  {
  }

  lemma FirstWeights()
    ensures Weight(0) == 2 && Weight(1) == 3 && Weight(2) == 4 && Weight(3) == 5 && Weight(4) == 6 && Weight(5) == 7
  {
  }

  lemma SameWeight(k: nat)
    ensures Weight(k + 6) == Weight(k)
  {
  }

  lemma {:induction false} SixMore(p: seq<Digit>, t: seq<Digit>, from: nat)
    requires from <= |p| && |t| == 6
    ensures SumFrom(p + t, from) == SumFrom(p, from) + SumFrom(p + t, |p|)
    decreases |p| - from
  {
    hide SumFrom, Weight;
    if from == |p| {
      NoMore(p);
    } else {
      SixMore(p, t, from + 1);
      OneDigit(p, from);
      OneDigit(p + t, from);
      SameWeight(|p| - 1 - from);
      assert (p + t)[from] == p[from];
    }
  }

  /** The weighted sum, six digits at a time from the right: weights 2, 3, 4, 5, 6, 7, and again. */
  lemma SixWeights(p: seq<Digit>, a: Digit, b: Digit, c: Digit, d: Digit, e: Digit, f: Digit)
    ensures WeightedSum([]) == 0
    ensures WeightedSum(p + [a, b, c, d, e, f]) == WeightedSum(p) + 7 * a + 6 * b + 5 * c + 4 * d + 3 * e + 2 * f
  {
    hide SumFrom, Weight;
    var s, n := p + [a, b, c, d, e, f], |p|;
    NoMore([]);
    NoMore(s);
    SixMore(p, [a, b, c, d, e, f], 0);
    OneDigit(s, n);
    OneDigit(s, n + 1);
    OneDigit(s, n + 2);
    OneDigit(s, n + 3);
    OneDigit(s, n + 4);
    OneDigit(s, n + 5);
    FirstWeights();
    assert s[n] == a && s[n + 1] == b && s[n + 2] == c && s[n + 3] == d && s[n + 4] == e && s[n + 5] == f;
  }

  lemma WeightStarts()
    ensures Weight(0) == 2
  {
  }

  lemma WeightTurns(k: nat)
    ensures 2 <= Weight(k) <= 7 && Weight(k + 1) == if Weight(k) == 7 then 2 else Weight(k) + 1
  {
  }

  method GenerateModule11Digit(digits: seq<Digit>) returns (check: Digit)
    ensures check == CheckDigit(digits)
    ensures Completes(WeightedSum(digits), check)
  {
    hide Weight;
    assert Weight(0) == 2 by { WeightStarts(); }
    var currentFactor: nat := 2;
    var sum: nat := 0;
    var i := |digits|;
    while i > 0
      invariant 0 <= i <= |digits|
      invariant sum == SumFrom(digits, i)
      invariant (if currentFactor > 7 then 2 else currentFactor) == Weight(|digits| - i)
    {
      WeightTurns(|digits| - i);
      i := i - 1;
      if currentFactor > 7 { currentFactor := 2; }
      sum := sum + digits[i] * currentFactor;
      currentFactor := currentFactor + 1;
    }
    var remainder := 11 - sum % 11;
    check := if remainder == 11 then 0 else if remainder == 10 then 1 else remainder;
  }

  /** The residues the two numbers 10 and 1 share a check digit for. */
  predicate Confused(a: nat, b: nat) {
    (a % 11 == 1 && b % 11 == 10) || (a % 11 == 10 && b % 11 == 1)
  }

  /** Two bodies share a check digit exactly when their sums agree modulo 11 or are the one pair of
      residues that the digit cannot tell apart. */
  lemma SameDigitExactly(a: seq<Digit>, b: seq<Digit>)
    ensures CheckDigit(a) == CheckDigit(b) <==> WeightedSum(a) % 11 == WeightedSum(b) % 11 || Confused(WeightedSum(a), WeightedSum(b))
  {
    hide WeightedSum;
  }

  lemma {:induction false} SumUpdate(s: seq<Digit>, i: nat, d: Digit, from: nat)
    requires i < |s| && from <= |s|
    ensures SumFrom(s[i := d], from) == SumFrom(s, from) + if from <= i then (d - s[i]) * Weight(|s| - 1 - i) else 0
    decreases |s| - from
  {
    hide Weight;
    if from < |s| {
      SumUpdate(s, i, d, from + 1);
      var w := Weight(|s| - 1 - from);
      assert |s[i := d]| == |s|;
      assert d * w == s[i] * w + (d - s[i]) * w;
    }
  }

  /** 11 is prime: no product of two small factors is a multiple of it. */
  lemma NoMultiple(x: int, w: int)
    requires -9 <= x <= 9 && x != 0 && 1 <= w <= 7
    ensures (x * w) % 11 != 0
  {
    if w == 1 {} else if w == 2 {} else if w == 3 {} else if w == 4 {} else if w == 5 {} else if w == 6 {} else { assert w == 7; }
  }

  lemma ApartModulo(a: int, b: int)
    requires (a - b) % 11 != 0
    ensures a % 11 != b % 11
  {
  }

  /** A changed digit keeps the check digit exactly when the two sums are that pair of residues. */
  lemma OneWrongDigit(s: seq<Digit>, i: nat, d: Digit)
    requires i < |s| && d != s[i]
    ensures CheckDigit(s[i := d]) == CheckDigit(s) <==> Confused(WeightedSum(s), WeightedSum(s[i := d]))
  {
    hide CheckDigit, SumFrom;
    SumUpdate(s, i, d, 0);
    NoMultiple(d - s[i], Weight(|s| - 1 - i));
    ApartModulo(WeightedSum(s[i := d]), WeightedSum(s));
    SameDigitExactly(s[i := d], s);
  }

  lemma {:induction false} PadSum(s: seq<Digit>, k: nat, from: nat)
    requires from <= k
    ensures SumFrom(Zeros(k) + s, from) == SumFrom(Zeros(k) + s, k)
    decreases k - from
  {
    if from < k {
      PadSum(s, k, from + 1);
      assert (Zeros(k) + s)[from] == 0;
    }
  }

  lemma {:induction false} SuffixSum(p: seq<Digit>, s: seq<Digit>, from: nat)
    requires from <= |s|
    ensures SumFrom(p + s, |p| + from) == SumFrom(s, from)
    decreases |s| - from
  {
    if from < |s| {
      SuffixSum(p, s, from + 1);
    }
  }

  lemma PaddedSum(s: seq<Digit>, k: nat)
    ensures WeightedSum(Zeros(k) + s) == WeightedSum(s)
  {
    PadSum(s, k, 0);
    SuffixSum(Zeros(k), s, 0);
  }

  /** Bodies of 48 digits: a wrong last digit, and a swap, that keep the check digit. */
  lemma AnErrorGoesUnseen()
    ensures
      var a, b := Zeros(47) + [6], Zeros(47) + [5];
      |a| == 48 && b == a[47 := 5] && CheckDigit(a) == CheckDigit(b) == 1
    ensures
      var a := Zeros(45) + [2, 0, 2];
      |a| == 48 && Swapped(a, 45) != a && CheckDigit(Swapped(a, 45)) == CheckDigit(a) == 1
  {
    PaddedSum([6], 47);
    PaddedSum([5], 47);
    PaddedSum([2, 0, 2], 45);
    PaddedSum([0, 2, 2], 45);
    assert Swapped(Zeros(45) + [2, 0, 2], 45) == Zeros(45) + [0, 2, 2];
    assert SumFrom([2, 0, 2], 1) == 4 && SumFrom([0, 2, 2], 1) == 10;
  }

  function Swapped(s: seq<Digit>, i: nat): seq<Digit>
    requires i + 1 < |s|
  {
    s[i := s[i + 1]][i + 1 := s[i]]
  }

  lemma NeighbourWeights(k: nat)
    ensures Weight(k + 1) - Weight(k) == 1 || Weight(k + 1) - Weight(k) == -5
  {
  }

  lemma SwapDifference(s: seq<Digit>, i: nat)
    requires i + 1 < |s|
    ensures
      var w := Weight(|s| - 1 - i) - Weight(|s| - 2 - i);
      WeightedSum(Swapped(s, i)) == WeightedSum(s) + (s[i + 1] - s[i]) * w && (w == 1 || w == -5)
  {
    hide SumFrom, Weight;
    SumUpdate(s, i, s[i + 1], 0);
    SumUpdate(s[i := s[i + 1]], i + 1, s[i], 0);
    var x: int, y: int, u: int, v: int := s[i], s[i + 1], Weight(|s| - 1 - i), Weight(|s| - 2 - i);
    assert (y - x) * u + (x - y) * v == (y - x) * (u - v);
    NeighbourWeights(|s| - 2 - i);
  }

  /** Two unequal neighbours swapped keep the check digit exactly when the two sums are that pair. */
  lemma AdjacentSwap(s: seq<Digit>, i: nat)
    requires i + 1 < |s| && s[i] != s[i + 1]
    ensures CheckDigit(Swapped(s, i)) == CheckDigit(s) <==> Confused(WeightedSum(s), WeightedSum(Swapped(s, i)))
  {
    hide CheckDigit, WeightedSum, Weight;
    SwapDifference(s, i);
    var x: int, w: int := s[i + 1] as int - s[i], Weight(|s| - 1 - i) - Weight(|s| - 2 - i);
    if w == 1 {
      NoMultiple(x, 1);
    } else {
      NoMultiple(-x, 5);
      assert x * w == -x * 5;
    }
    ApartModulo(WeightedSum(Swapped(s, i)), WeightedSum(s));
    SameDigitExactly(Swapped(s, i), s);
  }

  // ---- Keys -----------------------------------------------------------------------------------

  /** What a key is made from; the numeric code is chosen at random. */
  datatype Fields = Fields(
    date: seq<Digit>,
    documentType: seq<Digit>,
    ruc: seq<Digit>,
    environment: seq<Digit>,
    branch: seq<Digit>,
    issuePoint: seq<Digit>,
    sequential: nat,
    numericCode: seq<Digit>,
    emissionType: seq<Digit>)

  /** The widths the columns and the validators give the fields. */
  predicate Wide(f: Fields) {
    && |f.date| == 8 && |f.documentType| == 2 && |f.ruc| == 13 && |f.environment| == 1 && |f.branch| == 3
    && |f.issuePoint| == 3 && |f.numericCode| == 8 && |f.emissionType| == 1
  }

  function Body(f: Fields): seq<Digit> {
    f.date + f.documentType + f.ruc + f.environment + f.branch + f.issuePoint + PadStart(Digits(f.sequential), 9)
    + f.numericCode + f.emissionType
  }

  /** Generation rejects a missing RUC, document type 00 and emission type 0. */
  predicate Accepted(f: Fields) {
    |f.ruc| > 0 && f.documentType != [0, 0] && f.emissionType != [0]
  }

  function Generate(f: Fields): Option<seq<Digit>> {
    if Accepted(f) then Some(Body(f) + [CheckDigit(Body(f))]) else None
  }

  /** The fields read off a key by position. */
  function Decode(key: seq<Digit>): Fields
    requires |key| == 49
  {
    Fields(key[..8], key[8..10], key[10..23], key[23..24], key[24..27], key[27..30], Number(key[30..39]), key[39..47], key[47..48])
  }

  lemma Padded(n: nat)
    ensures |PadStart(Digits(n), 9)| == 9 <==> n < 1_000_000_000
    ensures Number(PadStart(Digits(n), 9)) == n
  {
    DigitsFit(n, 9);
    assert Power10(9) == 1_000_000_000;
    DigitsNumber(n);
    if |Digits(n)| < 9 {
      PadNumber(Digits(n), 9 - |Digits(n)|);
    }
  }

  /** Generation fails exactly for a missing RUC, document type 00 and emission type 0. */
  lemma GeneratesUnless(f: Fields)
    ensures Generate(f) == None <==> f.ruc == [] || f.documentType == [0, 0] || f.emissionType == [0]
  {
  }

  lemma {:induction false} DigitAt(n: nat, k: nat)
    requires k < |Digits(n)|
    ensures Digits(n)[|Digits(n)| - 1 - k] == (n / Power10(k)) % 10
  {
    if k > 0 {
      DigitAt(n / 10, k - 1);
      assert n >= 10 && Digits(n) == Digits(n / 10) + [n % 10];
      Shift(n, Power10(k - 1));
    }
  }

  lemma Shift(n: nat, p: nat)
    requires p > 0
    ensures n / (10 * p) == n / 10 / p
  {
    var q := n / (10 * p);
    var r := n % (10 * p);
    assert n == 10 * p * q + r;
    assert n / 10 == p * q + r / 10;
    assert 0 <= r / 10 < p;
    Quotient(p, q, r / 10);
  }

  lemma AtLeast(p: nat, d: int)
    requires d > 0
    ensures p * d >= p
  {
  }

  lemma Quotient(p: nat, q: nat, r: nat)
    requires r < p
    ensures (p * q + r) / p == q
  {
    var x := (p * q + r) / p;
    var d := q - x;
    assert p * q + r == p * x + (p * q + r) % p;
    assert p * d == p * q - p * x && p * -d == -(p * d);
    if d > 0 {
      AtLeast(p, d);
    } else if d < 0 {
      AtLeast(p, -d);
    }
  }

  /** A number's digits, padded with zeros in front: the digit of each power of ten. */
  lemma PaddedAt(n: nat, k: nat)
    requires n < 1_000_000_000 && k < 9
    ensures |PadStart(Digits(n), 9)| == 9 && PadStart(Digits(n), 9)[8 - k] == (n / Power10(k)) % 10
  {
    hide Digits, Power10;
    Padded(n);
    DigitsFit(n, 9);
    if k < |Digits(n)| {
      DigitAt(n, k);
    } else {
      BeyondDigits(n, k);
    }
  }

  lemma BeyondDigits(n: nat, k: nat)
    requires k >= |Digits(n)|
    ensures n / Power10(k) == 0 && Power10(k) > 0
  {
    hide Digits, Power10;
    DigitsFit(n, k);
    Under(n, Power10(k));
  }

  lemma Under(n: nat, p: nat)
    requires n < p
    ensures n / p == 0
  {
  }

  /** A key has 49 digits exactly when the sequential is below 10^9. Then it holds every field at its
      place in Table 1, the sequential in nine digits, reads back as the fields, and its last digit
      completes the weighted sum of the others. */
  lemma KeysDecode(f: Fields)
    requires Wide(f) && Accepted(f)
    ensures
      var key := Generate(f).value;
      && (|key| == 49 <==> f.sequential < 1_000_000_000)
      && (|key| == 49 ==>
            && Decode(key) == f && Completes(WeightedSum(key[..48]), key[48])
            && key[..8] == f.date && key[8..10] == f.documentType && key[10..23] == f.ruc && key[23..24] == f.environment
            && key[24..27] == f.branch && key[27..30] == f.issuePoint && key[39..47] == f.numericCode && key[47..48] == f.emissionType
            && forall k: nat :: k < 9 ==> key[38 - k] == (f.sequential / Power10(k)) % 10)
  {
    if f.sequential < 1_000_000_000 {
      SequentialDigits(f);
    }
    KeyFields(f);
  }

  lemma SequentialDigits(f: Fields)
    requires Wide(f) && Accepted(f) && f.sequential < 1_000_000_000
    ensures
      var key := Generate(f).value;
      |key| == 49 && forall k: nat :: k < 9 ==> key[38 - k] == (f.sequential / Power10(k)) % 10
  {
    hide CheckDigit, Digits, PadStart, Power10;
    var padded := PadStart(Digits(f.sequential), 9);
    Padded(f.sequential);
    var key := Generate(f).value;
    assert key[30..39] == padded;
    forall k: nat | k < 9
      ensures key[38 - k] == (f.sequential / Power10(k)) % 10
    {
      PaddedAt(f.sequential, k);
      assert key[30..39][8 - k] == key[38 - k];
    }
  }

  lemma KeyFields(f: Fields)
    requires Wide(f) && Accepted(f)
    ensures
      var key := Generate(f).value;
      && (|key| == 49 <==> f.sequential < 1_000_000_000)
      && (|key| == 49 ==>
            && Decode(key) == f && Completes(WeightedSum(key[..48]), key[48])
            && key[..8] == f.date && key[8..10] == f.documentType && key[10..23] == f.ruc && key[23..24] == f.environment
            && key[24..27] == f.branch && key[27..30] == f.issuePoint && key[39..47] == f.numericCode && key[47..48] == f.emissionType)
  {
    hide CheckDigit, Digits, PadStart, Number, Completes, WeightedSum;
    Padded(f.sequential);
    var padded := PadStart(Digits(f.sequential), 9);
    var key := Generate(f).value;
    assert |key| == 40 + |padded|;
    if |key| == 49 {
      assert key[30..39] == padded;
      assert key[..48] == Body(f);
      CheckDigitIs(Body(f), key[48]);
      assert Decode(key) == f;
    }
  }

  /** Documents that differ in type, RUC, environment, series or sequential never share a key,
      whatever their random codes. */
  lemma KeysAreUnique(f: Fields, g: Fields)
    requires Wide(f) && Accepted(f) && Wide(g) && Accepted(g)
    requires f.sequential < 1_000_000_000 && g.sequential < 1_000_000_000
    ensures Generate(f) == Generate(g) <==> f == g
  {
    KeysDecode(f);
    KeysDecode(g);
  }
}
