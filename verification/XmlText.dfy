/** Unescaping XML text as SRI's envelopes are unescaped: seven replacement passes, one after
    another, over a sequence of UTF-16 code units. */
module XmlText {
  import opened Options

  type Unit = u: nat | u < 0x1_0000

  const AMP: Unit := 38
  const SEMICOLON: Unit := 59
  const HASH: Unit := 35
  const LOWER_X: Unit := 120

  /** The five predefined entities of XML 1.0, section 4.6. */
  datatype Entity = Lt | Gt | Quot | Apos | Amp

  function Meaning(e: Entity): Unit {
    match e
    case Lt => 60
    case Gt => 62
    case Quot => 34
    case Apos => 39
    case Amp => AMP
  }

  /** The entity's reference: &lt; and so on. */
  function Reference(e: Entity): (r: seq<Unit>)
    ensures |r| >= 4 && r[0] == AMP
  {
    match e
    case Lt => [AMP, 108, 116, SEMICOLON]
    case Gt => [AMP, 103, 116, SEMICOLON]
    case Quot => [AMP, 113, 117, 111, 116, SEMICOLON]
    case Apos => [AMP, 97, 112, 111, 115, SEMICOLON]
    case Amp => [AMP, 97, 109, 112, SEMICOLON]
  }

  // ---- The passes -----------------------------------------------------------------------------

  /** Every occurrence of a pattern, from left to right, becomes one unit. */
  function ReplaceAll(s: seq<Unit>, pattern: seq<Unit>, to: Unit): seq<Unit>
    requires pattern != []
    decreases |s|
  {
    if s == [] then []
    else if pattern <= s then [to] + ReplaceAll(s[|pattern|..], pattern, to)
    else [s[0]] + ReplaceAll(s[1..], pattern, to)
  }

  function DigitValue(u: Unit, hex: bool): Option<nat> {
    if 48 <= u <= 57 then Some(u - 48)
    else if hex && 97 <= u <= 102 then Some(u - 87)
    else if hex && 65 <= u <= 70 then Some(u - 55)
    else None
  }

  predicate IsDigit(u: Unit, hex: bool) {
    DigitValue(u, hex).Some?
  }

  /** How many digits a text starts with. */
  function DigitRun(s: seq<Unit>, hex: bool): (n: nat)
    ensures n <= |s| && forall i :: 0 <= i < n ==> IsDigit(s[i], hex)
  {
    if s != [] && IsDigit(s[0], hex) then 1 + DigitRun(s[1..], hex) else 0
  }

  function Number(digits: seq<Unit>, hex: bool): nat {
    if digits == [] then 0
    else
      Number(digits[..|digits| - 1], hex) * (if hex then 16 else 10) + DigitValue(digits[|digits| - 1], hex).GetOr(0)
  }

  /** The code unit a numeric reference stands for: its number cut to sixteen bits. */
  function Code(digits: seq<Unit>, hex: bool): Unit {
    Number(digits, hex) % 0x1_0000
  }

  function Opening(hex: bool): seq<Unit> {
    if hex then [AMP, HASH, LOWER_X] else [AMP, HASH]
  }

  /** The length of the digits of a numeric reference at the start of a text. */
  function NumericAt(s: seq<Unit>, hex: bool): (n: Option<nat>)
    ensures n.Some? ==> |Opening(hex)| + n.value < |s|
  {
    if Opening(hex) <= s then
      var rest := s[|Opening(hex)|..];
      var n := DigitRun(rest, hex);
      if n > 0 && n < |rest| && rest[n] == SEMICOLON then Some(n) else None
    else None
  }

  function ReplaceNumeric(s: seq<Unit>, hex: bool): seq<Unit>
    decreases |s|
  {
    if s == [] then []
    else
      match NumericAt(s, hex)
      case Some(n) =>
        var start := |Opening(hex)|;
        [Code(s[start..start + n], hex)] + ReplaceNumeric(s[start + n + 1..], hex)
      case None => [s[0]] + ReplaceNumeric(s[1..], hex)
  }

  /** The ampersand comes last, so that what it leaves is not decoded again. */
  function Unescape(s: seq<Unit>): seq<Unit> {
    var s1 := ReplaceAll(s, Reference(Lt), Meaning(Lt));
    var s2 := ReplaceAll(s1, Reference(Gt), Meaning(Gt));
    var s3 := ReplaceAll(s2, Reference(Quot), Meaning(Quot));
    var s4 := ReplaceAll(s3, Reference(Apos), Meaning(Apos));
    var s5 := ReplaceNumeric(s4, false);
    var s6 := ReplaceNumeric(s5, true);
    ReplaceAll(s6, Reference(Amp), Meaning(Amp))
  }

  /** A text of the first 128 characters as code units. */
  function Units(s: string): seq<Unit>
    requires forall i :: 0 <= i < |s| ==> s[i] < 128 as char
  {
    seq(|s|, i requires 0 <= i < |s| => s[i] as int)
  }

  /** The five references and what they mean. */
  lemma EntitiesAre()
    ensures Reference(Lt) == Units("&lt;") && Meaning(Lt) == '<' as int
    ensures Reference(Gt) == Units("&gt;") && Meaning(Gt) == '>' as int
    ensures Reference(Quot) == Units("&quot;") && Meaning(Quot) == '"' as int
    ensures Reference(Apos) == Units("&apos;") && Meaning(Apos) == '\'' as int
    ensures Reference(Amp) == Units("&amp;") && Meaning(Amp) == '&' as int
    ensures Opening(false) == Units("&#") && Opening(true) == Units("&#x") && SEMICOLON == ';' as int
  {
  }

  const LOWER: string := "0123456789abcdef"
  const UPPER: string := "0123456789ABCDEF"

  /** The digits of either base and their values; each further one multiplies by the base. */
  lemma DigitsAre(u: Unit, digits: seq<Unit>, hex: bool)
    ensures forall v: nat :: DigitValue(u, hex) == Some(v) <==>
      v < (if hex then 16 else 10) && (u == LOWER[v] as int || u == UPPER[v] as int)
    ensures Number([], hex) == 0
    ensures IsDigit(u, hex) ==> Number(digits + [u], hex) == Number(digits, hex) * (if hex then 16 else 10) + DigitValue(u, hex).value
  {
    assert (digits + [u])[..|digits|] == digits;
  }

  // ---- Text by its references -----------------------------------------------------------------

  /** Well-formed text: units that are not ampersands, and references. */
  datatype Token = Raw(unit: Unit) | Named(entity: Entity) | Numeric(digits: seq<Unit>, hex: bool)

  predicate WellFormed(t: Token) {
    match t
    case Raw(u) => u != AMP
    case Named(_) => true
    case Numeric(digits, hex) => digits != [] && forall i :: 0 <= i < |digits| ==> IsDigit(digits[i], hex)
  }

  predicate AllWellFormed(ts: seq<Token>) {
    forall i :: 0 <= i < |ts| ==> WellFormed(ts[i])
  }

  function Spelling(t: Token): (s: seq<Unit>)
    ensures |s| >= 1
  {
    match t
    case Raw(u) => [u]
    case Named(e) => Reference(e)
    case Numeric(digits, hex) => Opening(hex) + digits + [SEMICOLON]
  }

  function Render(ts: seq<Token>): seq<Unit> {
    if ts == [] then [] else Spelling(ts[0]) + Render(ts[1..])
  }

  function Denoted(t: Token): Unit {
    match t
    case Raw(u) => u
    case Named(e) => Meaning(e)
    case Numeric(digits, hex) => Code(digits, hex)
  }

  /** One left-to-right decode: each token once. */
  function Decode(ts: seq<Token>): seq<Unit> {
    if ts == [] then [] else [Denoted(ts[0])] + Decode(ts[1..])
  }

  /** A numeric reference to the ampersand. */
  predicate NumericAmp(t: Token) {
    t.Numeric? && Denoted(t) == AMP
  }

  predicate NoNumericAmp(ts: seq<Token>) {
    forall i :: 0 <= i < |ts| ==> !NumericAmp(ts[i])
  }

  // ---- One pass at a time ---------------------------------------------------------------------

  /** What a pass replaces: one entity's references, or the numeric ones of one base. */
  datatype Pass = OfEntity(entity: Entity) | OfBase(hex: bool)

  predicate Knows(pass: Pass, t: Token) {
    match pass
    case OfEntity(e) => t == Named(e)
    case OfBase(hex) => t.Numeric? && t.hex == hex
  }

  /** The tokens after a pass: the ones it knows have become the units they denote. */
  function Reduce(ts: seq<Token>, pass: Pass): seq<Token> {
    if ts == [] then [] else [if Knows(pass, ts[0]) then Raw(Denoted(ts[0])) else ts[0]] + Reduce(ts[1..], pass)
  }

  lemma {:induction false} ReduceAt(ts: seq<Token>, pass: Pass)
    ensures |Reduce(ts, pass)| == |ts|
    ensures forall i :: 0 <= i < |ts| ==> Reduce(ts, pass)[i] == if Knows(pass, ts[i]) then Raw(Denoted(ts[i])) else ts[i]
  {
    hide Denoted;
    if ts != [] {
      ReduceAt(ts[1..], pass);
    }
  }

  lemma {:induction false} DecodeAt(ts: seq<Token>)
    ensures |Decode(ts)| == |ts| && forall i :: 0 <= i < |ts| ==> Decode(ts)[i] == Denoted(ts[i])
  {
    hide Denoted;
    if ts != [] {
      DecodeAt(ts[1..]);
    }
  }

  lemma {:induction false} SkipPlain(p: seq<Unit>, s: seq<Unit>, pattern: seq<Unit>, to: Unit)
    requires pattern != [] && pattern[0] == AMP && AMP !in p
    ensures ReplaceAll(p + s, pattern, to) == p + ReplaceAll(s, pattern, to)
  {
    if p == [] {
      assert p + s == s;
    } else {
      assert (p + s)[0] == p[0] && (p + s)[1..] == p[1..] + s && p[0] in p;
      assert !(pattern <= p + s);
      SkipPlain(p[1..], s, pattern, to);
      assert p + ReplaceAll(s, pattern, to) == [p[0]] + (p[1..] + ReplaceAll(s, pattern, to));
    }
  }

  lemma NotThisReference(t: Token, s: seq<Unit>, e: Entity)
    requires WellFormed(t) && t != Named(e) && !t.Raw?
    ensures !(Reference(e) <= Spelling(t) + s)
  {
    var text := Spelling(t) + s;
    if t.Named? {
      assert text[1] == Reference(t.entity)[1] && text[2] == Reference(t.entity)[2];
    } else {
      assert text[1] == HASH;
    }
  }

  lemma InnerHasNoAmp(t: Token)
    requires WellFormed(t) && !t.Raw?
    ensures Spelling(t)[0] == AMP && AMP !in Spelling(t)[1..]
  {
  }

  lemma {:induction false} NamedPass(ts: seq<Token>, e: Entity)
    requires AllWellFormed(ts)
    ensures ReplaceAll(Render(ts), Reference(e), Meaning(e)) == Render(Reduce(ts, OfEntity(e)))
  {
    hide Reference, Meaning, WellFormed, Spelling;
    if ts != [] {
      var t, rest := ts[0], Render(ts[1..]);
      assert WellFormed(t);
      NamedPass(ts[1..], e);
      NamedStep(t, rest, e);
      SpellingRaw(Meaning(e));
    }
  }

  lemma SpellingRaw(u: Unit)
    ensures Spelling(Raw(u)) == [u]
  {
  }

  lemma NamedStep(t: Token, s: seq<Unit>, e: Entity)
    requires WellFormed(t)
    ensures ReplaceAll(Spelling(t) + s, Reference(e), Meaning(e)) ==
            (if t == Named(e) then [Meaning(e)] else Spelling(t)) + ReplaceAll(s, Reference(e), Meaning(e))
  {
    hide Reference, Meaning, ReplaceAll;
    if t == Named(e) {
      Taken(s, Reference(e), Meaning(e));
    } else if t.Raw? {
      SkipPlain([t.unit], s, Reference(e), Meaning(e));
    } else {
      NotThisReference(t, s, e);
      InnerHasNoAmp(t);
      Skipped(Spelling(t), s, Reference(e), Meaning(e));
    }
  }

  lemma Taken(s: seq<Unit>, pattern: seq<Unit>, to: Unit)
    requires pattern != []
    ensures ReplaceAll(pattern + s, pattern, to) == [to] + ReplaceAll(s, pattern, to)
  {
    assert (pattern + s)[|pattern|..] == s;
  }

  lemma Skipped(spelling: seq<Unit>, s: seq<Unit>, pattern: seq<Unit>, to: Unit)
    requires pattern != [] && pattern[0] == AMP && spelling != [] && AMP !in spelling[1..] && !(pattern <= spelling + s)
    ensures ReplaceAll(spelling + s, pattern, to) == spelling + ReplaceAll(s, pattern, to)
  {
    assert (spelling + s)[1..] == spelling[1..] + s;
    SkipPlain(spelling[1..], s, pattern, to);
    assert [spelling[0]] + (spelling[1..] + ReplaceAll(s, pattern, to)) == spelling + ReplaceAll(s, pattern, to);
  }

  // ---- The numeric passes ---------------------------------------------------------------------

  lemma {:induction false} DigitRunStops(digits: seq<Unit>, s: seq<Unit>, hex: bool)
    requires forall i :: 0 <= i < |digits| ==> IsDigit(digits[i], hex)
    ensures DigitRun(digits + [SEMICOLON] + s, hex) == |digits|
  {
    var text := digits + [SEMICOLON] + s;
    if digits == [] {
      assert text[0] == SEMICOLON;
    } else {
      assert text[0] == digits[0] && text[1..] == digits[1..] + [SEMICOLON] + s;
      DigitRunStops(digits[1..], s, hex);
    }
  }

  lemma NumericFound(digits: seq<Unit>, s: seq<Unit>, hex: bool)
    requires WellFormed(Numeric(digits, hex))
    ensures NumericAt(Spelling(Numeric(digits, hex)) + s, hex) == Some(|digits|)
  {
    var text := Spelling(Numeric(digits, hex)) + s;
    assert text[|Opening(hex)|..] == digits + [SEMICOLON] + s;
    DigitRunStops(digits, s, hex);
  }

  lemma NumericMissed(t: Token, s: seq<Unit>, hex: bool)
    requires WellFormed(t) && !(t.Numeric? && t.hex == hex)
    ensures NumericAt(Spelling(t) + s, hex) == None
  {
    var text := Spelling(t) + s;
    if t.Named? {
      assert text[1] == Reference(t.entity)[1];
    } else if t.Numeric? {
      OtherBase(t.digits, t.hex, s);
    } else {
      assert text[0] != AMP;
    }
  }

  lemma OtherBase(digits: seq<Unit>, written: bool, s: seq<Unit>)
    requires WellFormed(Numeric(digits, written))
    ensures NumericAt(Spelling(Numeric(digits, written)) + s, !written) == None
  {
    var text := Spelling(Numeric(digits, written)) + s;
    assert IsDigit(digits[0], written);
    if written {
      assert text[..2] == Opening(false);
      assert text[2..][0] == LOWER_X;
    } else {
      assert text[2] == digits[0] && digits[0] != LOWER_X;
      assert Opening(true)[2] == LOWER_X;
    }
  }

  lemma OneUnit(s: seq<Unit>, hex: bool)
    requires s != [] && NumericAt(s, hex) == None
    ensures ReplaceNumeric(s, hex) == [s[0]] + ReplaceNumeric(s[1..], hex)
  {
    hide NumericAt;
  }

  lemma OneReference(s: seq<Unit>, hex: bool)
    requires s != [] && NumericAt(s, hex).Some?
    ensures
      var start, n := |Opening(hex)|, NumericAt(s, hex).value;
      ReplaceNumeric(s, hex) == [Code(s[start..start + n], hex)] + ReplaceNumeric(s[start + n + 1..], hex)
  {
    hide Code;
  }

  lemma NoneWithoutAmp(s: seq<Unit>, hex: bool)
    requires s != [] && s[0] != AMP
    ensures NumericAt(s, hex) == None
  {
    hide DigitRun;
    assert Opening(hex)[0] == AMP;
  }

  lemma {:induction false} SkipPlainNumeric(p: seq<Unit>, s: seq<Unit>, hex: bool)
    requires AMP !in p
    ensures ReplaceNumeric(p + s, hex) == p + ReplaceNumeric(s, hex)
  {
    hide NumericAt, ReplaceNumeric;
    if p == [] {
      assert p + s == s;
    } else {
      var text := p + s;
      assert text[0] == p[0] && text[1..] == p[1..] + s && p[0] in p;
      NoneWithoutAmp(text, hex);
      OneUnit(text, hex);
      SkipPlainNumeric(p[1..], s, hex);
      var rest := ReplaceNumeric(s, hex);
      assert [p[0]] + (p[1..] + rest) == p + rest;
    }
  }

  lemma NumericTaken(digits: seq<Unit>, s: seq<Unit>, hex: bool)
    requires WellFormed(Numeric(digits, hex))
    ensures ReplaceNumeric(Spelling(Numeric(digits, hex)) + s, hex) == [Code(digits, hex)] + ReplaceNumeric(s, hex)
  {
    hide Code, NumericAt, Opening, ReplaceNumeric;
    var text := Spelling(Numeric(digits, hex)) + s;
    NumericFound(digits, s, hex);
    OneReference(text, hex);
    var start := |Opening(hex)|;
    assert text[start..start + |digits|] == digits;
    assert text[start + |digits| + 1..] == s;
  }

  lemma NumericStep(t: Token, s: seq<Unit>, hex: bool)
    requires WellFormed(t)
    ensures ReplaceNumeric(Spelling(t) + s, hex) ==
            (if t.Numeric? && t.hex == hex then [Denoted(t)] else Spelling(t)) + ReplaceNumeric(s, hex)
  {
    hide Reference, Code, NumericAt, Opening, ReplaceNumeric;
    if t.Numeric? && t.hex == hex {
      NumericTaken(t.digits, s, hex);
    } else if t.Raw? {
      SkipPlainNumeric([t.unit], s, hex);
    } else {
      NumericMissed(t, s, hex);
      InnerHasNoAmp(t);
      SkippedNumeric(Spelling(t), s, hex);
    }
  }

  lemma SkippedNumeric(spelling: seq<Unit>, s: seq<Unit>, hex: bool)
    requires spelling != [] && AMP !in spelling[1..] && NumericAt(spelling + s, hex) == None
    ensures ReplaceNumeric(spelling + s, hex) == spelling + ReplaceNumeric(s, hex)
  {
    hide NumericAt, ReplaceNumeric;
    OneUnit(spelling + s, hex);
    assert (spelling + s)[1..] == spelling[1..] + s;
    SkipPlainNumeric(spelling[1..], s, hex);
    var rest := ReplaceNumeric(s, hex);
    assert [spelling[0]] + (spelling[1..] + rest) == spelling + rest;
  }

  lemma {:induction false} NumericPass(ts: seq<Token>, hex: bool)
    requires AllWellFormed(ts)
    ensures ReplaceNumeric(Render(ts), hex) == Render(Reduce(ts, OfBase(hex)))
  {
    hide Reference, Denoted, WellFormed, Spelling;
    if ts != [] {
      assert WellFormed(ts[0]);
      NumericPass(ts[1..], hex);
      NumericStep(ts[0], Render(ts[1..]), hex);
      SpellingRaw(Denoted(ts[0]));
    }
  }

  // ---- The passes that may find what earlier ones left -----------------------------------------

  /** What a pass does to a text. */
  function Run(s: seq<Unit>, pass: Pass): seq<Unit> {
    match pass
    case OfEntity(e) => ReplaceAll(s, Reference(e), Meaning(e))
    case OfBase(hex) => ReplaceNumeric(s, hex)
  }

  /** The last two passes run on text that may hold bare ampersands. */
  predicate IsLate(pass: Pass) {
    pass == OfBase(true) || pass == OfEntity(Amp)
  }

  /** How long a reference that a pass replaces stands at the start of a text. */
  function MatchLength(s: seq<Unit>, pass: Pass): Option<nat>
    requires IsLate(pass)
  {
    if pass == OfEntity(Amp) then (if Reference(Amp) <= s then Some(5) else None)
    else
      match NumericAt(s, true)
      case Some(n) => Some(n + 4)
      case None => None
  }

  /** A text that is such a reference, and nothing more. */
  predicate IsReference(s: seq<Unit>, pass: Pass)
    requires IsLate(pass)
  {
    MatchLength(s, pass) == Some(|s|)
  }

  lemma HexShape(s: seq<Unit>) returns (digits: seq<Unit>)
    requires NumericAt(s, true).Some?
    ensures WellFormed(Numeric(digits, true)) && |digits| == NumericAt(s, true).value && |digits| + 4 <= |s|
    ensures s[..|digits| + 4] == Spelling(Numeric(digits, true))
  {
    var n := NumericAt(s, true).value;
    var rest := s[3..];
    digits := rest[..n];
    assert s[..3] == Opening(true);
    assert s[3 + n] == rest[n] == SEMICOLON;
    assert s[..n + 4] == s[..3] + digits + [SEMICOLON];
  }

  lemma MatchShape(s: seq<Unit>, pass: Pass)
    requires IsLate(pass) && MatchLength(s, pass).Some?
    ensures
      var m := MatchLength(s, pass).value;
      2 <= m <= |s| && s[0] == AMP && (forall k :: 1 <= k < m ==> s[k] != AMP) && IsReference(s[..m], pass)
  {
    hide NumericAt, Spelling;
    var m := MatchLength(s, pass).value;
    if pass == OfEntity(Amp) {
      assert s[..5] == Reference(Amp);
    } else {
      var digits := HexShape(s);
      var t := Numeric(digits, true);
      assert s[..m] == Spelling(t) + [];
      NumericFound(digits, [], true);
      InnerHasNoAmp(t);
      assert s[0] == s[..m][0];
      assert forall k :: 1 <= k < m ==> s[k] == Spelling(t)[1..][k - 1];
    }
  }

  lemma MatchExtends(p: seq<Unit>, s: seq<Unit>, pass: Pass)
    requires IsLate(pass) && IsReference(p, pass)
    ensures MatchLength(p + s, pass) == Some(|p|)
  {
    hide NumericAt, Spelling;
    if pass == OfBase(true) {
      var digits := HexShape(p);
      assert p == p[..|digits| + 4];
      NumericFound(digits, s, true);
    }
  }

  lemma RunMatch(s: seq<Unit>, pass: Pass) returns (u: Unit)
    requires IsLate(pass) && MatchLength(s, pass).Some? && MatchLength(s, pass).value <= |s|
    ensures Run(s, pass) == [u] + Run(s[MatchLength(s, pass).value..], pass)
  {
    hide NumericAt, Code;
    if pass == OfEntity(Amp) {
      u := AMP;
    } else {
      OneReference(s, true);
      var n := NumericAt(s, true).value;
      u := Code(s[3..3 + n], true);
    }
  }

  lemma RunMiss(s: seq<Unit>, pass: Pass)
    requires IsLate(pass) && s != [] && MatchLength(s, pass).None?
    ensures Run(s, pass) == [s[0]] + Run(s[1..], pass)
  {
    hide NumericAt;
  }

  lemma RunToken(t: Token, s: seq<Unit>, pass: Pass)
    requires WellFormed(t) && IsLate(pass)
    ensures Run(Spelling(t) + s, pass) == Spelling(if Knows(pass, t) then Raw(Denoted(t)) else t) + Run(s, pass)
  {
    hide ReplaceAll, ReplaceNumeric;
    match pass {
      case OfEntity(e) => NamedStep(t, s, e);
      case OfBase(hex) => NumericStep(t, s, hex);
    }
  }

  /** Tokens before a late pass: any units at all, and the references that are left. */
  predicate Before(pass: Pass, t: Token) {
    t.Raw? || t == Named(Amp) || (pass == OfBase(true) && WellFormed(t) && Knows(pass, t))
  }

  predicate AllBefore(pass: Pass, us: seq<Token>) {
    forall k :: 0 <= k < |us| ==> Before(pass, us[k])
  }

  /** A stretch of units that spells a reference of the pass. */
  predicate Hit(us: seq<Token>, i: nat, j: nat, pass: Pass)
    requires IsLate(pass)
  {
    i <= j <= |us| && (forall k :: i <= k < j ==> us[k].Raw?) && IsReference(Decode(us[i..j]), pass)
  }

  predicate Hits(us: seq<Token>, pass: Pass)
    requires IsLate(pass)
  {
    exists i: nat, j: nat | i <= j <= |us| :: Hit(us, i, j, pass)
  }

  lemma RenderRaw(us: seq<Token>)
    requires us != [] && us[0].Raw?
    ensures Render(us) == [us[0].unit] + Render(us[1..])
  {
  }

  lemma StartsRaw(us: seq<Token>, pass: Pass)
    requires AllBefore(pass, us) && Render(us) != [] && Render(us)[0] != AMP
    ensures us != [] && us[0].Raw?
  {
    assert Before(pass, us[0]);
    assert Render(us)[0] == Spelling(us[0])[0];
  }

  lemma {:induction false} RawPrefix(us: seq<Token>, m: nat, pass: Pass)
    requires AllBefore(pass, us) && us != [] && us[0].Raw? && 0 < m <= |Render(us)|
    requires forall k :: 1 <= k < m ==> Render(us)[k] != AMP
    ensures m <= |us| && forall k :: 0 <= k < m ==> us[k].Raw?
  {
    hide Before, Render;
    if m > 1 {
      var rest := us[1..];
      RenderRaw(us);
      assert forall k :: 0 <= k < m - 1 ==> Render(rest)[k] == Render(us)[k + 1];
      StartsRaw(rest, pass);
      RawPrefix(rest, m - 1, pass);
      assert forall k :: 1 <= k < m ==> us[k] == rest[k - 1];
    }
  }

  lemma {:induction false} RawRenders(us: seq<Token>)
    requires forall k :: 0 <= k < |us| ==> us[k].Raw?
    ensures Render(us) == Decode(us)
  {
    if us != [] {
      RawRenders(us[1..]);
    }
  }

  lemma {:induction false} RenderSplits(us: seq<Token>, j: nat)
    requires j <= |us|
    ensures Render(us) == Render(us[..j]) + Render(us[j..])
  {
    hide Spelling;
    if j == 0 {
      assert us[0..] == us;
    } else {
      RenderSplits(us[1..], j - 1);
      assert us[..j][1..] == us[1..][..j - 1] && us[j..] == us[1..][j - 1..];
    }
  }

  lemma HeadMatch(us: seq<Token>, pass: Pass)
    requires IsLate(pass) && AllBefore(pass, us) && us != [] && us[0].Raw? && MatchLength(Render(us), pass).Some?
    ensures
      var m := MatchLength(Render(us), pass).value;
      2 <= m <= |us| && Render(us) == Decode(us[..m]) + Render(us[m..]) && Hit(us, 0, m, pass)
  {
    hide MatchLength, Before, IsReference, Spelling, Render, Decode;
    var m := MatchLength(Render(us), pass).value;
    MatchShape(Render(us), pass);
    RawPrefix(us, m, pass);
    RenderSplits(us, m);
    RawRenders(us[..m]);
    DecodeAt(us[..m]);
    assert Render(us)[..m] == Decode(us[..m]) && us[0..m] == us[..m];
  }

  lemma HitIsMatch(us: seq<Token>, j: nat, pass: Pass)
    requires IsLate(pass) && Hit(us, 0, j, pass)
    ensures MatchLength(Render(us), pass) == Some(j) && j > 0 && us[0].Raw?
  {
    hide MatchLength;
    RenderSplits(us, j);
    RawRenders(us[..j]);
    assert us[0..j] == us[..j];
    DecodeAt(us[..j]);
    MatchShape(Decode(us[..j]), pass);
    MatchExtends(Decode(us[..j]), Render(us[j..]), pass);
  }

  /** A hit is at the head or in the rest. */
  lemma HitsFrom(us: seq<Token>, pass: Pass)
    requires IsLate(pass) && us != []
    ensures Hits(us[1..], pass) ==> Hits(us, pass)
    ensures Hits(us, pass) && (forall j: nat | j <= |us| :: !Hit(us, 0, j, pass)) ==> Hits(us[1..], pass)
  {
    hide IsReference;
    if Hits(us[1..], pass) {
      var i: nat, j: nat :| i <= j <= |us[1..]| && Hit(us[1..], i, j, pass);
      assert us[1..][i..j] == us[i + 1..j + 1];
      assert forall k :: i + 1 <= k < j + 1 ==> us[k] == us[1..][k - 1];
      assert Hit(us, i + 1, j + 1, pass);
    }
    if Hits(us, pass) && forall j: nat | j <= |us| :: !Hit(us, 0, j, pass) {
      var i: nat, j: nat :| i <= j <= |us| && Hit(us, i, j, pass);
      assert us[1..][i - 1..j - 1] == us[i..j];
      assert forall k :: i - 1 <= k < j - 1 ==> us[1..][k] == us[k + 1];
      assert Hit(us[1..], i - 1, j - 1, pass);
    }
  }

  /** A late pass leaves a token for each token, reduced, unless units spell a reference: then there
      are fewer. */
  lemma {:induction false} LatePass(us: seq<Token>, pass: Pass) returns (vs: seq<Token>)
    requires IsLate(pass) && AllBefore(pass, us)
    ensures Run(Render(us), pass) == Render(vs)
    ensures |vs| <= |us| && (|vs| == |us| <==> !Hits(us, pass))
    ensures !Hits(us, pass) ==> vs == Reduce(us, pass)
    ensures AllBefore(OfEntity(Amp), vs) && (pass == OfEntity(Amp) ==> forall k :: 0 <= k < |vs| ==> vs[k].Raw?)
    decreases |us|
  {
    hide Run, MatchLength, Spelling, Denoted, WellFormed, IsReference, Hits;
    if us == [] {
      vs := [];
      Nothing(pass);
    } else {
      var t, rest := us[0], Render(us[1..]);
      assert Before(pass, t);
      if t.Raw? && MatchLength(Render(us), pass).Some? {
        var m := MatchLength(Render(us), pass).value;
        HeadMatch(us, pass);
        HitThere(us, 0, m, pass);
        DecodeAt(us[..m]);
        assert Render(us)[m..] == Render(us[m..]);
        var u := RunMatch(Render(us), pass);
        var tail := LatePass(us[m..], pass);
        vs := [Raw(u)] + tail;
        SpellingRaw(u);
        assert vs[1..] == tail;
      } else {
        forall j: nat | j <= |us|
          ensures !Hit(us, 0, j, pass)
        {
          if Hit(us, 0, j, pass) { HitIsMatch(us, j, pass); }
        }
        HitsFrom(us, pass);
        var head := if Knows(pass, t) then Raw(Denoted(t)) else t;
        var tail := LatePass(us[1..], pass);
        vs := [head] + tail;
        assert vs[1..] == tail;
        if t.Raw? {
          SpellingRaw(t.unit);
          RunMiss(Render(us), pass);
          assert Render(us)[1..] == rest;
        } else {
          NamedAmpIsWellFormed();
          RunToken(t, rest, pass);
        }
      }
    }
  }

  lemma Nothing(pass: Pass)
    requires IsLate(pass)
    ensures Run([], pass) == [] && !Hits([], pass)
  {
  }

  lemma HitThere(us: seq<Token>, i: nat, j: nat, pass: Pass)
    requires IsLate(pass) && Hit(us, i, j, pass)
    ensures Hits(us, pass)
  {
  }

  lemma NamedAmpIsWellFormed()
    ensures WellFormed(Named(Amp))
  {
  }

  // ---- All seven ------------------------------------------------------------------------------

  /** The tokens left for a late pass by the passes before it. */
  function Left(t: Token, pass: Pass): Token {
    if t == Named(Amp) || (pass == OfBase(true) && Knows(pass, t)) then t else Raw(Denoted(t))
  }

  /** The first five passes: what is left for the hexadecimal one. */
  lemma EarlyPasses(ts: seq<Token>) returns (t5: seq<Token>)
    requires AllWellFormed(ts)
    ensures |t5| == |ts| && forall i :: 0 <= i < |ts| ==> t5[i] == Left(ts[i], OfBase(true))
    ensures Unescape(Render(ts)) == Run(Run(Render(t5), OfBase(true)), OfEntity(Amp))
  {
    hide ReplaceAll, ReplaceNumeric, Reference, Render, Reduce;
    NamedPass(ts, Lt);
    ReduceAt(ts, OfEntity(Lt));
    var t1 := Reduce(ts, OfEntity(Lt));
    NamedPass(t1, Gt);
    ReduceAt(t1, OfEntity(Gt));
    var t2 := Reduce(t1, OfEntity(Gt));
    NamedPass(t2, Quot);
    ReduceAt(t2, OfEntity(Quot));
    var t3 := Reduce(t2, OfEntity(Quot));
    NamedPass(t3, Apos);
    ReduceAt(t3, OfEntity(Apos));
    var t4 := Reduce(t3, OfEntity(Apos));
    NumericPass(t4, false);
    ReduceAt(t4, OfBase(false));
    t5 := Reduce(t4, OfBase(false));
  }

  /** A stretch that starts with a numeric ampersand and denotes, token by token, the text of a
      reference that is still to be replaced: "&amp;", or a hexadecimal one if no hexadecimal
      reference has part in it. */
  predicate Respells(ts: seq<Token>, i: nat, j: nat) {
    && i < j <= |ts| && NumericAmp(ts[i])
    && (IsReference(Decode(ts[i..j]), OfEntity(Amp))
        || (IsReference(Decode(ts[i..j]), OfBase(true)) && forall k :: i <= k < j ==> !Knows(OfBase(true), ts[k])))
  }

  predicate DecodesTwice(ts: seq<Token>) {
    exists i: nat, j: nat | i < j <= |ts| :: Respells(ts, i, j)
  }

  lemma LeftDecodes(ts: seq<Token>, us: seq<Token>, pass: Pass, i: nat, j: nat)
    requires i <= j <= |ts| == |us| && forall k :: 0 <= k < |ts| ==> us[k] == Left(ts[k], pass)
    ensures Decode(us[i..j]) == Decode(ts[i..j])
  {
    DecodeAt(us[i..j]);
    DecodeAt(ts[i..j]);
  }

  lemma HitRespells(ts: seq<Token>, us: seq<Token>, pass: Pass, i: nat, j: nat)
    requires AllWellFormed(ts) && |us| == |ts| && forall k :: 0 <= k < |ts| ==> us[k] == Left(ts[k], pass)
    requires IsLate(pass) && Hit(us, i, j, pass)
    ensures i < j <= |ts| && Respells(ts, i, j)
  {
    hide MatchLength, Code;
    LeftDecodes(ts, us, pass, i, j);
    DecodeAt(ts[i..j]);
    MatchShape(Decode(ts[i..j]), pass);
    assert WellFormed(ts[i]) && Denoted(ts[i]) == AMP;
    assert us[i].Raw?;
    forall k | i <= k < j
      ensures pass == OfBase(true) ==> !Knows(OfBase(true), ts[k])
    {
      assert us[k].Raw?;
    }
  }

  lemma RespellHits(ts: seq<Token>, us: seq<Token>, pass: Pass, i: nat, j: nat)
    requires |us| == |ts| && forall k :: 0 <= k < |ts| ==> us[k] == Left(ts[k], pass)
    requires IsLate(pass) && i < j <= |ts| && NumericAmp(ts[i]) && IsReference(Decode(ts[i..j]), pass)
    requires pass == OfBase(true) ==> forall k :: i <= k < j ==> !Knows(OfBase(true), ts[k])
    ensures Hit(us, i, j, pass)
  {
    hide MatchLength, Code;
    LeftDecodes(ts, us, pass, i, j);
    DecodeAt(ts[i..j]);
    MatchShape(Decode(ts[i..j]), pass);
    forall k | i <= k < j
      ensures us[k].Raw?
    {
      assert Denoted(ts[k]) == Decode(ts[i..j])[k - i];
    }
  }

  /** The seven passes are one left-to-right decode of a well-formed text exactly when no stretch of
      it respells a reference. */
  lemma UnescapeIsOneDecodeExactly(ts: seq<Token>)
    requires AllWellFormed(ts)
    ensures Unescape(Render(ts)) == Decode(ts) <==> !DecodesTwice(ts)
  {
    hide Unescape, Run, Render, Decode, Reduce, Denoted, WellFormed, IsReference, NumericAmp;
    var t5 := EarlyPasses(ts);
    LeftIsBefore(ts, t5);
    var vs := LatePass(t5, OfBase(true));
    var ws := LatePass(vs, OfEntity(Amp));
    RawRenders(ws);
    DecodeAt(ws);
    DecodeAt(ts);
    if Hits(t5, OfBase(true)) {
      var i: nat, j: nat :| i <= j <= |t5| && Hit(t5, i, j, OfBase(true));
      HitRespells(ts, t5, OfBase(true), i, j);
    } else {
      ReduceAt(t5, OfBase(true));
      LeftNext(ts, t5, vs);
      if Hits(vs, OfEntity(Amp)) {
        var i: nat, j: nat :| i <= j <= |vs| && Hit(vs, i, j, OfEntity(Amp));
        HitRespells(ts, vs, OfEntity(Amp), i, j);
      } else {
        ReduceAt(vs, OfEntity(Amp));
        LeftLast(ts, vs, ws);
        if DecodesTwice(ts) {
          var i: nat, j: nat :| i < j <= |ts| && Respells(ts, i, j);
          if IsReference(Decode(ts[i..j]), OfEntity(Amp)) {
            RespellHits(ts, vs, OfEntity(Amp), i, j);
            HitThere(vs, i, j, OfEntity(Amp));
          } else {
            RespellHits(ts, t5, OfBase(true), i, j);
            HitThere(t5, i, j, OfBase(true));
          }
        }
      }
    }
  }

  lemma LeftIsBefore(ts: seq<Token>, us: seq<Token>)
    requires AllWellFormed(ts) && |us| == |ts| && forall k :: 0 <= k < |ts| ==> us[k] == Left(ts[k], OfBase(true))
    ensures AllBefore(OfBase(true), us)
  {
    hide Denoted;
    forall k | 0 <= k < |us|
      ensures Before(OfBase(true), us[k])
    {
      assert WellFormed(ts[k]);
    }
  }

  lemma LeftNext(ts: seq<Token>, us: seq<Token>, vs: seq<Token>)
    requires |vs| == |us| == |ts| && forall k :: 0 <= k < |ts| ==> us[k] == Left(ts[k], OfBase(true))
    requires forall k :: 0 <= k < |ts| ==> vs[k] == if Knows(OfBase(true), us[k]) then Raw(Denoted(us[k])) else us[k]
    ensures forall k :: 0 <= k < |ts| ==> vs[k] == Left(ts[k], OfEntity(Amp))
  {
  }

  lemma LeftLast(ts: seq<Token>, vs: seq<Token>, ws: seq<Token>)
    requires |ws| == |vs| == |ts| && forall k :: 0 <= k < |ts| ==> vs[k] == Left(ts[k], OfEntity(Amp))
    requires forall k :: 0 <= k < |ts| ==> ws[k] == if Knows(OfEntity(Amp), vs[k]) then Raw(Denoted(vs[k])) else vs[k]
    ensures Decode(ws) == Decode(ts)
  {
    DecodeAt(ws);
    DecodeAt(ts);
  }

  /** So always without a numeric reference to the ampersand. */
  lemma UnescapeIsOneDecode(ts: seq<Token>)
    requires AllWellFormed(ts) && NoNumericAmp(ts)
    ensures Unescape(Render(ts)) == Decode(ts)
  {
    hide Unescape, Render, Decode, WellFormed, IsReference, NumericAmp;
    UnescapeIsOneDecodeExactly(ts);
  }

  /** And for a numeric ampersand that ends its text. */
  lemma ALastAmpersandIsFine(ts: seq<Token>, t: Token)
    requires AllWellFormed(ts) && NoNumericAmp(ts) && WellFormed(t)
    ensures Unescape(Render(ts + [t])) == Decode(ts + [t])
  {
    hide Unescape, Render, Decode, WellFormed, NumericAmp, MatchLength;
    var all := ts + [t];
    UnescapeIsOneDecodeExactly(all);
    if DecodesTwice(all) {
      var i: nat, j: nat :| i < j <= |all| && Respells(all, i, j);
      assert i == |ts|;
      DecodeAt(all[i..j]);
      MatchShape(Decode(all[i..j]), if IsReference(Decode(all[i..j]), OfEntity(Amp)) then OfEntity(Amp) else OfBase(true));
    }
  }

  // ---- Round trip -----------------------------------------------------------------------------

  function EscapedUnit(u: Unit): Token {
    if u == Meaning(Lt) then Named(Lt)
    else if u == Meaning(Gt) then Named(Gt)
    else if u == Meaning(Quot) then Named(Quot)
    else if u == Meaning(Apos) then Named(Apos)
    else if u == AMP then Named(Amp)
    else Raw(u)
  }

  function Tokens(s: seq<Unit>): seq<Token> {
    if s == [] then [] else [EscapedUnit(s[0])] + Tokens(s[1..])
  }

  /** Escaping with the five predefined entities. */
  function Escape(s: seq<Unit>): seq<Unit> {
    Render(Tokens(s))
  }

  lemma {:induction false} TokensDecode(s: seq<Unit>)
    ensures AllWellFormed(Tokens(s)) && NoNumericAmp(Tokens(s)) && Decode(Tokens(s)) == s
  {
    if s != [] {
      TokensDecode(s[1..]);
    }
  }

  /** Unescaping gives back every text that was escaped. */
  lemma UnescapeEscape(s: seq<Unit>)
    ensures Unescape(Escape(s)) == s
  {
    TokensDecode(s);
    UnescapeIsOneDecode(Tokens(s));
  }

  // ---- The reference that is decoded twice ----------------------------------------------------

  /** The tokens of "amp;". */
  const AMP_TAIL: seq<Token> := [Raw(97), Raw(109), Raw(112), Raw(SEMICOLON)]

  lemma AmpTailRenders()
    ensures Render(AMP_TAIL) == Reference(Amp)[1..] && Decode(AMP_TAIL) == Reference(Amp)[1..]
    ensures AllWellFormed(AMP_TAIL) && NoNumericAmp(AMP_TAIL)
  {
    var t3 := [Raw(SEMICOLON)];
    var t2 := [Raw(112), Raw(SEMICOLON)];
    var t1 := [Raw(109), Raw(112), Raw(SEMICOLON)];
    assert AMP_TAIL[1..] == t1 && t1[1..] == t2 && t2[1..] == t3 && t3[1..] == [];
    assert Render(t3[1..]) == [] && Decode(t3[1..]) == [];
    assert Render(t3) == [SEMICOLON] && Decode(t3) == [SEMICOLON];
    assert Render(t2) == [112, SEMICOLON] && Decode(t2) == [112, SEMICOLON];
    assert Render(t1) == [109, 112, SEMICOLON] && Decode(t1) == [109, 112, SEMICOLON];
  }

  /** A numeric reference to the ampersand, followed by "amp;", is decoded twice: what one decode
      leaves as a reference becomes a bare ampersand. */
  lemma NumericAmpIsDecodedTwice(t: Token)
    requires WellFormed(t) && NumericAmp(t)
    ensures Unescape(Render([t] + AMP_TAIL)) == [AMP] && Decode([t] + AMP_TAIL) == Reference(Amp)
  {
    hide ReplaceAll, ReplaceNumeric, Code;
    var tail := Reference(Amp)[1..];
    AmpTailRenders();
    assert ([t] + AMP_TAIL)[1..] == AMP_TAIL;
    var s := Spelling(t) + tail;
    assert Render([t] + AMP_TAIL) == s;
    NumericTextSkips(t, Lt);
    NumericTextSkips(t, Gt);
    NumericTextSkips(t, Quot);
    NumericTextSkips(t, Apos);
    PlainNumeric(tail);
    NumericStep(t, tail, t.hex);
    NumericStep(t, tail, !t.hex);
    assert [AMP] + tail == Reference(Amp);
    AmpersandAlone();
    if t.hex {
      assert ReplaceNumeric(ReplaceNumeric(s, false), true) == Reference(Amp);
    } else {
      assert ReplaceNumeric(s, false) == Reference(Amp);
    }
  }

  lemma NumericTextSkips(t: Token, e: Entity)
    requires WellFormed(t) && t.Numeric? && e != Amp
    ensures ReplaceAll(Spelling(t) + Reference(Amp)[1..], Reference(e), Meaning(e)) == Spelling(t) + Reference(Amp)[1..]
  {
    NamedStep(t, Reference(Amp)[1..], e);
    SkipPlain(Reference(Amp)[1..], [], Reference(e), Meaning(e));
    assert Reference(Amp)[1..] + [] == Reference(Amp)[1..];
  }

  lemma PlainNumeric(tail: seq<Unit>)
    requires AMP !in tail
    ensures ReplaceNumeric(tail, true) == tail && ReplaceNumeric(tail, false) == tail
  {
    SkipPlainNumeric(tail, [], true);
    SkipPlainNumeric(tail, [], false);
    assert tail + [] == tail;
  }

  lemma AmpersandAlone()
    ensures ReplaceAll(Reference(Amp), Reference(Amp), Meaning(Amp)) == [AMP]
    ensures ReplaceNumeric(Reference(Amp), true) == Reference(Amp)
  {
    assert Reference(Amp)[5..] == [];
    NumericMissed(Named(Amp), [], true);
    assert Reference(Amp) + [] == Reference(Amp);
    PlainNumeric(Reference(Amp)[1..]);
    assert [AMP] + Reference(Amp)[1..] == Reference(Amp);
  }

  /** A reference decodes alike in every context, the other references in it being no numeric
      ampersands, exactly when it is itself none. */
  lemma SafeExactly(t: Token)
    requires WellFormed(t)
    ensures (forall rest :: AllWellFormed(rest) && NoNumericAmp(rest) ==> Unescape(Render([t] + rest)) == Decode([t] + rest)) <==> !NumericAmp(t)
  {
    hide Unescape, Render, Decode;
    if NumericAmp(t) {
      AmpTailRenders();
      NumericAmpIsDecodedTwice(t);
      assert |Reference(Amp)| == 5;
    } else {
      forall rest | AllWellFormed(rest) && NoNumericAmp(rest)
        ensures Unescape(Render([t] + rest)) == Decode([t] + rest)
      {
        UnescapeIsOneDecode([t] + rest);
      }
    }
  }
}
