/** Injecting an enveloped signature into a document and taking it out again as the verification
    script does (enveloped-signature transform, section 6.6.4 of XML Signature Syntax and
    Processing). */
module Signature {
  import opened Options

  const OPENING: string := "<ds:Signature"
  const CLOSING: string := "</ds:Signature>"
  const DECLARATION: string := "<?xml"

  predicate IsSpace(c: char) {
    var u := c as int;
    9 <= u <= 13 || u in {32, 160, 0x1680, 0x2028, 0x2029, 0x202F, 0x205F, 0x3000, 0xFEFF} || 0x2000 <= u <= 0x200A
  }

  function SkipSpace(s: string): (r: string)
    ensures r != [] ==> !IsSpace(r[0])
    ensures |r| <= |s| && r == s[|s| - |r|..] && forall i :: 0 <= i < |s| - |r| ==> IsSpace(s[i])
  {
    if s != [] && IsSpace(s[0]) then SkipSpace(s[1..]) else s
  }

  // ---- Normalising ----------------------------------------------------------------------------

  /** Tabs and carriage returns are stripped before anything is digested. */
  function Normalise(s: string): string {
    if s == [] then []
    else (if s[0] == '\t' || s[0] == '\r' then [] else [s[0]]) + Normalise(s[1..])
  }

  /** Normalising takes a text character by character, drops tabs and carriage returns and keeps the
      rest in its order. */
  lemma {:induction false} NormaliseIs(a: string, b: string, c: char)
    ensures Normalise(a + b) == Normalise(a) + Normalise(b) && Normalise([]) == []
    ensures Normalise([c]) == if c == 9 as char || c == 13 as char then [] else [c]
  {
    assert [c][1..] == [] && Normalise([]) == [];
    if a == [] {
      assert a + b == b;
    } else {
      assert (a + b)[0] == a[0] && (a + b)[1..] == a[1..] + b;
      NormaliseIs(a[1..], b, c);
      var head := if a[0] == '\t' || a[0] == '\r' then [] else [a[0]];
      assert Normalise(a + b) == head + (Normalise(a[1..]) + Normalise(b));
    }
  }

  /** White space, as the language has it. */
  const SPACES: set<int> := {
    0x9, 0xA, 0xB, 0xC, 0xD, 0x20, 0xA0, 0x1680, 0x2000, 0x2001, 0x2002, 0x2003, 0x2004, 0x2005, 0x2006, 0x2007, 0x2008, 0x2009, 0x200A,
    0x2028, 0x2029, 0x202F, 0x205F, 0x3000, 0xFEFF }

  lemma SpacesAre(c: char)
    ensures IsSpace(c) <==> c as int in SPACES
  {
  }

  function FirstQuestionMark(s: string, from: nat): (i: nat)
    requires from <= |s|
    ensures from <= i <= |s| && (i < |s| ==> s[i] == '?') && forall j :: from <= j < i ==> s[j] != '?'
    decreases |s| - from
  {
    if from == |s| || s[from] == '?' then from else FirstQuestionMark(s, from + 1)
  }

  /** The document body: without the XML declaration and the space after it. */
  function StripDeclaration(s: string): string {
    if DECLARATION <= s then
      var i := FirstQuestionMark(s, |DECLARATION|);
      if i + 1 < |s| && s[i + 1] == '>' then SkipSpace(s[i + 2..]) else s
    else s
  }

  // ---- Replacement templates ------------------------------------------------------------------

  predicate IsDigit(c: char) {
    '0' <= c <= '9'
  }

  /** What a dollar at the start of a template stands for, with one capture group that is the whole
      match and nothing after it: the units it takes, and the text; None when it is only a dollar. */
  function Substitution(template: string, matched: string, prefix: string): Option<(nat, string)>
    requires template != [] && template[0] == '$'
  {
    if |template| < 2 then None
    else
      var c := template[1];
      if c == '$' then Some((2, "$"))
      else if c == '&' then Some((2, matched))
      else if c == '`' then Some((2, prefix))
      else if c == '\'' then Some((2, ""))
      else if c == '1' then Some((2, matched))
      else if c == '0' && |template| >= 3 && template[2] == '1' then Some((3, matched))
      else None
  }

  function Expand(template: string, matched: string, prefix: string): string
    decreases |template|
  {
    if template == [] then []
    else if template[0] == '$' && Substitution(template, matched, prefix).Some? then
      var (taken, text) := Substitution(template, matched, prefix).value;
      text + Expand(template[taken..], matched, prefix)
    else [template[0]] + Expand(template[1..], matched, prefix)
  }

  // ---- Injecting ------------------------------------------------------------------------------

  function LastTag(s: string): (i: Option<nat>)
    ensures i.Some? ==> i.value < |s| && s[i.value] == '<' && forall j :: i.value < j < |s| ==> s[j] != '<'
    ensures i.None? ==> '<' !in s
  {
    if s == [] then None
    else if s[|s| - 1] == '<' then Some(|s| - 1)
    else LastTag(s[..|s| - 1])
  }

  /** The signature goes before the last tag, its text read as a replacement template. */
  function Inject(xml: string, block: string): string {
    match LastTag(xml)
    case None => xml
    case Some(t) => if t == |xml| - 1 then xml else xml[..t] + Expand(block + "$1", xml[t..], xml[..t])
  }

  // ---- Stripping ------------------------------------------------------------------------------

  predicate Occurs(s: string, pattern: string, i: nat) {
    i + |pattern| <= |s| && s[i..i + |pattern|] == pattern
  }

  function FirstOccurrence(s: string, pattern: string, from: nat): (i: Option<nat>)
    requires from <= |s|
    ensures i.Some? ==> Occurs(s, pattern, i.value) && forall j: nat :: from <= j < i.value ==> !Occurs(s, pattern, j)
    ensures i.None? ==> forall j: nat :: from <= j ==> !Occurs(s, pattern, j) || pattern == []
    decreases |s| - from
  {
    if Occurs(s, pattern, from) then Some(from)
    else if from == |s| then None
    else FirstOccurrence(s, pattern, from + 1)
  }

  function LastOccurrence(s: string, pattern: string, below: nat): (i: Option<nat>)
    ensures i.Some? ==> Occurs(s, pattern, i.value) && forall j: nat :: i.value < j < below ==> !Occurs(s, pattern, j)
    ensures i.None? ==> forall j: nat :: j < below ==> !Occurs(s, pattern, j)
  {
    if below == 0 then None
    else if Occurs(s, pattern, below - 1) then Some(below - 1)
    else LastOccurrence(s, pattern, below - 1)
  }

  /** From the first opening to the last closing of a signature, and the space after it. */
  function RemoveSignature(s: string): string {
    match (FirstOccurrence(s, OPENING, 0), LastOccurrence(s, CLOSING, |s|))
    case (Some(i), Some(j)) => if i + |OPENING| <= j then s[..i] + SkipSpace(s[j + |CLOSING|..]) else s
    case _ => s
  }

  /** What the verification script digests. */
  function Recover(signed: string): string {
    RemoveSignature(StripDeclaration(signed))
  }

  // ---- Templates ------------------------------------------------------------------------------

  /** A dollar in the block stands for something else than itself. */
  predicate Active(block: string) {
    exists i :: 0 <= i < |block| && ActiveAt(block, i)
  }

  predicate ActiveAt(block: string, i: nat)
    requires i < |block|
  {
    block[i] == '$' && Substitution(block[i..], "", "").Some?
  }

  lemma ExpandTakes(template: string, matched: string, prefix: string)
    requires template != [] && template[0] == '$' && Substitution(template, matched, prefix).Some?
    ensures
      var (taken, text) := Substitution(template, matched, prefix).value;
      Expand(template, matched, prefix) == text + Expand(template[taken..], matched, prefix)
  {
    hide Substitution;
  }

  lemma ExpandPasses(template: string, matched: string, prefix: string)
    requires template != [] && (template[0] == '$' ==> Substitution(template, matched, prefix).None?)
    ensures Expand(template, matched, prefix) == [template[0]] + Expand(template[1..], matched, prefix)
  {
    hide Substitution;
  }

  lemma ExpandGroup(matched: string, prefix: string)
    ensures Expand("$1", matched, prefix) == matched && Expand([], matched, prefix) == []
  {
    ExpandTakes("$1", matched, prefix);
    assert "$1"[2..] == [];
    assert matched + [] == matched;
  }

  /** The two characters of each replacement pattern, and what stands for them: a dollar, the match,
      what precedes it, what follows it (nothing, at the end of the text), the one group. */
  function Patterns(matched: string, prefix: string): seq<(string, string)> {
    [("$$", "$"), ("$&", matched), ("$`", prefix), ("$'", ""), ("$1", matched), ("$01", matched)]
  }

  /** Each pattern is replaced, wherever it stands, and any other dollar stays. */
  lemma PatternsExpand(rest: string, matched: string, prefix: string, k: nat, c: char)
    requires k < 6
    ensures
      var (pattern, text) := Patterns(matched, prefix)[k];
      Expand(pattern + rest, matched, prefix) == text + Expand(rest, matched, prefix)
    ensures c !in {'$', '&', '`', '\'', '0', '1'} ==> Expand("$" + [c] + rest, matched, prefix) == "$" + Expand([c] + rest, matched, prefix)
    ensures Expand("$", matched, prefix) == "$"
  {
    hide Expand;
    var (pattern, text) := Patterns(matched, prefix)[k];
    assert (pattern + rest)[|pattern|..] == rest;
    ExpandTakes(pattern + rest, matched, prefix);
    assert "$"[1..] == [];
    ExpandPasses("$", matched, prefix);
    ExpandGroup(matched, prefix);
    if c !in {'$', '&', '`', '\'', '0', '1'} {
      assert ("$" + [c] + rest)[1..] == [c] + rest;
      ExpandPasses("$" + [c] + rest, matched, prefix);
    }
  }

  lemma {:induction false} ExpandAppend(block: string, matched: string, prefix: string)
    requires block == [] || block[|block| - 1] != '$'
    ensures Expand(block + "$1", matched, prefix) == Expand(block, matched, prefix) + matched
    decreases |block|
  {
    hide Expand, Substitution;
    var template := block + "$1";
    ExpandGroup(matched, prefix);
    if block == [] {
      assert template == "$1";
    } else {
      if block[0] == '$' {
        SameSubstitution(block, "$1", matched, prefix);
        SubstitutionFits(block, matched, prefix);
      }
      if block[0] == '$' && Substitution(block, matched, prefix).Some? {
        var (taken, text) := Substitution(block, matched, prefix).value;
        ExpandTakes(block, matched, prefix);
        ExpandTakes(template, matched, prefix);
        assert template[taken..] == block[taken..] + "$1";
        ExpandAppend(block[taken..], matched, prefix);
        var rest := Expand(block[taken..], matched, prefix);
        assert text + (rest + matched) == (text + rest) + matched;
      } else {
        ExpandPasses(block, matched, prefix);
        ExpandPasses(template, matched, prefix);
        assert template[1..] == block[1..] + "$1";
        ExpandAppend(block[1..], matched, prefix);
        var rest := Expand(block[1..], matched, prefix);
        assert [block[0]] + (rest + matched) == ([block[0]] + rest) + matched;
      }
    }
  }

  lemma SubstitutionFits(template: string, matched: string, prefix: string)
    requires template != [] && template[0] == '$'
    ensures Substitution(template, matched, prefix).Some? ==> 0 < Substitution(template, matched, prefix).value.0 <= |template|
  {
  }

  lemma SameSubstitution(block: string, more: string, matched: string, prefix: string)
    requires block != [] && block[0] == '$' && block[|block| - 1] != '$' && (more == [] || more[0] == '$' || more[0] == '<')
    ensures Substitution(block + more, matched, prefix) == Substitution(block, matched, prefix)
  {
  }

  lemma {:induction false} InertExpands(block: string, matched: string, prefix: string)
    requires !Active(block)
    ensures Expand(block, matched, prefix) == block
  {
    if block != [] {
      assert block[0..] == block;
      assert !ActiveAt(block, 0);
      forall i | 0 <= i < |block[1..]|
        ensures !ActiveAt(block[1..], i)
      {
        assert block[1..][i..] == block[i + 1..];
        assert !ActiveAt(block, i + 1);
      }
      InertExpands(block[1..], matched, prefix);
    }
  }

  /** A dollar of the block inserts the match. */
  predicate Grows(block: string, matched: string, prefix: string)
    decreases |block|
  {
    if block == [] then false
    else if block[0] == '$' && Substitution(block, matched, prefix).Some? then
      Substitution(block, matched, prefix).value.1 == matched || Grows(block[Substitution(block, matched, prefix).value.0..], matched, prefix)
    else Grows(block[1..], matched, prefix)
  }

  /** With nothing before a long match, an active dollar changes the length of what it expands to. */
  lemma {:induction false} ExpandedLength(block: string, matched: string)
    requires |matched| > |block| && |matched| > 1
    ensures Grows(block, matched, "") ==> |Expand(block, matched, "")| >= |matched|
    ensures !Grows(block, matched, "") ==> |Expand(block, matched, "")| <= |block|
    ensures !Grows(block, matched, "") && Active(block) ==> |Expand(block, matched, "")| < |block|
    decreases |block|
  {
    if block != [] {
      assert block[0..] == block;
      if block[0] == '$' && Substitution(block, matched, "").Some? {
        ExpandedLength(block[Substitution(block, matched, "").value.0..], matched);
      } else {
        ExpandedLength(block[1..], matched);
        if Active(block) {
          var i :| 0 <= i < |block| && ActiveAt(block, i);
          assert i > 0 && block[i..] == block[1..][i - 1..];
          assert ActiveAt(block[1..], i - 1);
        }
      }
    }
  }

  // ---- Documents ------------------------------------------------------------------------------

  /** The last tag is a closing one, with nothing but text after it. */
  predicate EndsInClosingTag(body: string) {
    LastTag(body).Some? && LastTag(body).value + 1 < |body| && body[LastTag(body).value + 1] == '/'
  }

  /** A document whose declaration, if it starts like one, ends, and whose body ends in a closing tag
      and holds no signature tags. Other instructions may follow the declaration. */
  predicate Signable(xml: string) {
    var body := StripDeclaration(xml);
    && EndsInClosingTag(body) && (body == xml ==> !(DECLARATION <= body))
    && (forall i :: 0 <= i < |body| ==> !Occurs(body, OPENING, i))
    && forall i :: 0 <= i < |body| ==> !Occurs(body, CLOSING, i)
  }

  /** A signature block: from its opening to its closing. */
  predicate IsBlock(block: string) {
    |OPENING| + |CLOSING| <= |block| && OPENING <= block && block[|block| - |CLOSING|..] == CLOSING
  }

  /** Whatever dollars it holds, an expanded block is still one. */
  lemma ExpandedBlock(block: string, matched: string, prefix: string)
    requires IsBlock(block)
    ensures IsBlock(Expand(block, matched, prefix))
    ensures Expand(block + "$1", matched, prefix) == Expand(block, matched, prefix) + matched
  {
    var middle := block[|OPENING|..|block| - |CLOSING|];
    assert block == OPENING + (middle + CLOSING);
    ExpandPlain(OPENING, middle + CLOSING, matched, prefix);
    ExpandBeforeTag(middle, CLOSING, matched, prefix);
    ExpandAppend(block, matched, prefix);
  }

  lemma {:induction false} ExpandPlain(plain: string, rest: string, matched: string, prefix: string)
    requires '$' !in plain
    ensures Expand(plain + rest, matched, prefix) == plain + Expand(rest, matched, prefix)
  {
    if plain == [] {
      assert plain + rest == rest;
    } else {
      assert (plain + rest)[0] == plain[0] && plain[0] in plain && (plain + rest)[1..] == plain[1..] + rest;
      ExpandPlain(plain[1..], rest, matched, prefix);
      assert [plain[0]] + (plain[1..] + Expand(rest, matched, prefix)) == plain + Expand(rest, matched, prefix);
    }
  }

  lemma {:induction false} ExpandBeforeTag(middle: string, tag: string, matched: string, prefix: string)
    requires tag != [] && tag[0] == '<' && '$' !in tag
    ensures |tag| <= |Expand(middle + tag, matched, prefix)|
    ensures Expand(middle + tag, matched, prefix)[|Expand(middle + tag, matched, prefix)| - |tag|..] == tag
    decreases |middle|
  {
    var text := middle + tag;
    if middle == [] {
      assert text == tag;
      ExpandPlain(tag, [], matched, prefix);
      assert tag + [] == tag;
    } else if text[0] == '$' && Substitution(text, matched, prefix).Some? {
      var taken := Substitution(text, matched, prefix).value.0;
      assert taken <= |middle|;
      assert text[taken..] == middle[taken..] + tag;
      ExpandBeforeTag(middle[taken..], tag, matched, prefix);
    } else {
      assert text[1..] == middle[1..] + tag;
      ExpandBeforeTag(middle[1..], tag, matched, prefix);
    }
  }

  // ---- Taking the signature out ---------------------------------------------------------------

  /** A tag that starts inside a pattern's reach keeps a pattern with no inner tag from occurring. */
  lemma NoStraddle(s: string, pattern: string, i: nat, at: nat)
    requires i < at < i + |pattern| && at < |s| && s[at] == '<'
    requires forall k :: 1 <= k < |pattern| ==> pattern[k] != '<'
    ensures !Occurs(s, pattern, i)
  {
    if i + |pattern| <= |s| {
      assert s[i..i + |pattern|][at - i] == '<';
    }
  }

  lemma NoEarlierOpening(p: string, b: string, tail: string, i: nat)
    requires OPENING <= b && i < |p| && Occurs(p + b + tail, OPENING, i)
    ensures Occurs(p, OPENING, i)
  {
    var s := p + b + tail;
    if |p| < i + |OPENING| {
      NoStraddle(s, OPENING, i, |p|);
    } else {
      assert p[i..i + |OPENING|] == s[i..i + |OPENING|];
    }
  }

  /** A closing tag holds no other one's beginning. */
  lemma NotInsideClosing(s: string, e: nat, j: nat)
    requires e < j < e + |CLOSING| <= |s| && s[e..e + |CLOSING|] == CLOSING
    ensures !Occurs(s, CLOSING, j)
  {
    assert s[j] == s[e..e + |CLOSING|][j - e];
    if j + |CLOSING| <= |s| {
      assert s[j..j + |CLOSING|][0] == s[j];
    }
  }

  lemma NoLaterClosing(p: string, b: string, rest: string, j: nat)
    requires |CLOSING| <= |b| && b[|b| - |CLOSING|..] == CLOSING
    requires |p| + |b| - |CLOSING| < j && Occurs(p + b + rest, CLOSING, j)
    ensures exists k :: 0 <= k < |rest| && Occurs(rest, CLOSING, k)
  {
    var s := p + b + rest;
    var end := |p| + |b|;
    var e := end - |CLOSING|;
    assert s[e..end] == b[|b| - |CLOSING|..];
    if j < end {
      NotInsideClosing(s, e, j);
    } else {
      assert rest[j - end..j - end + |CLOSING|] == s[j..j + |CLOSING|];
      assert Occurs(rest, CLOSING, j - end);
    }
  }

  /** A block put into text without signature tags is what is taken out again, with the space after it. */
  lemma BlockIsRemoved(p: string, b: string, spaces: string, tail: string)
    requires IsBlock(b) && (forall i :: 0 <= i < |spaces| ==> IsSpace(spaces[i])) && tail != [] && !IsSpace(tail[0])
    requires forall i :: 0 <= i < |p| ==> !Occurs(p, OPENING, i)
    requires forall i :: 0 <= i < |spaces + tail| ==> !Occurs(spaces + tail, CLOSING, i)
    ensures RemoveSignature(p + b + (spaces + tail)) == p + tail
  {
    hide IsSpace;
    var rest := spaces + tail;
    var s := p + b + rest;
    assert s[|p|..|p| + |OPENING|] == b[..|OPENING|];
    assert Occurs(s, OPENING, |p|);
    var first := FirstOccurrence(s, OPENING, 0).value;
    if first < |p| {
      NoEarlierOpening(p, b, rest, first);
    }
    var e := |p| + |b| - |CLOSING|;
    assert s[e..e + |CLOSING|] == b[|b| - |CLOSING|..];
    assert Occurs(s, CLOSING, e);
    var last := LastOccurrence(s, CLOSING, |s|).value;
    if last > e {
      NoLaterClosing(p, b, rest, last);
    }
    assert first == |p| && last == e;
    assert s[..first] == p && s[last + |CLOSING|..] == rest;
    SkipAll(spaces, tail);
  }

  lemma OccursInside(s: string, from: nat, to: nat, pattern: string, i: nat)
    requires from <= to <= |s| && Occurs(s[from..to], pattern, i)
    ensures Occurs(s, pattern, from + i)
  {
    var inner, outer := s[from..to][i..i + |pattern|], s[from + i..from + i + |pattern|];
    assert forall k :: 0 <= k < |pattern| ==> inner[k] == outer[k] == s[from + i + k];
    assert inner == outer;
  }

  // ---- The declaration ------------------------------------------------------------------------

  /** What stripping takes off the front. */
  function Front(xml: string): string {
    xml[..|xml| - |StripDeclaration(xml)|]
  }

  lemma StripSplits(xml: string)
    ensures |StripDeclaration(xml)| <= |xml| && xml == Front(xml) + StripDeclaration(xml)
  {
  }

  lemma {:induction false} SameQuestionMark(a: string, b: string, from: nat, i: nat)
    requires from <= i < |a| && i < |b| && a[..i + 1] == b[..i + 1] && FirstQuestionMark(a, from) == i
    ensures FirstQuestionMark(b, from) == i
    decreases i - from
  {
    assert a[..i + 1][from] == b[..i + 1][from];
    if from < i {
      SameQuestionMark(a, b, from + 1, i);
    }
  }

  lemma DeclarationIs(s: string, i: nat)
    requires DECLARATION <= s && |DECLARATION| <= i && i + 1 < |s| && s[i + 1] == '>' && FirstQuestionMark(s, |DECLARATION|) == i
    ensures StripDeclaration(s) == SkipSpace(s[i + 2..])
  {
    hide SkipSpace;
  }

  lemma DeclarationFound(s: string) returns (i: nat)
    requires StripDeclaration(s) != s
    ensures DECLARATION <= s && |DECLARATION| <= i && i + 1 < |s| && s[i + 1] == '>' && FirstQuestionMark(s, |DECLARATION|) == i
    ensures StripDeclaration(s) == SkipSpace(s[i + 2..])
  {
    hide SkipSpace;
    i := FirstQuestionMark(s, |DECLARATION|);
  }

  lemma FrontStaysOff(xml: string, rest: string)
    requires StripDeclaration(xml) != xml && rest != [] && !IsSpace(rest[0])
    ensures StripDeclaration(Front(xml) + rest) == rest
  {
    hide IsSpace, SkipSpace, StripDeclaration, FirstQuestionMark;
    var body, front := StripDeclaration(xml), Front(xml);
    StripSplits(xml);
    var i := DeclarationFound(xml);
    var s := front + rest;
    var spaces := front[i + 2..];
    assert s == xml[..i + 2] + (spaces + rest);
    assert xml[i + 2..] == spaces + body;
    forall k | 0 <= k < |spaces|
      ensures IsSpace(spaces[k])
    {
      assert spaces[k] == xml[i + 2..][k];
    }
    SkipAll(spaces, rest);
    assert s[i + 2..] == spaces + rest;
    assert s[..|DECLARATION|] == xml[..|DECLARATION|];
    assert s[..i + 1] == xml[..i + 1];
    SameQuestionMark(xml, s, |DECLARATION|, i);
    DeclarationIs(s, i);
  }

  lemma {:induction false} SkipAll(spaces: string, b: string)
    requires (forall i :: 0 <= i < |spaces| ==> IsSpace(spaces[i])) && b != [] && !IsSpace(b[0])
    ensures SkipSpace(spaces + b) == b
  {
    hide IsSpace;
    if spaces == [] {
      assert spaces + b == b;
    } else {
      assert (spaces + b)[1..] == spaces[1..] + b;
      SkipAll(spaces[1..], b);
    }
  }

  lemma LastTagOfSuffix(front: string, body: string)
    requires LastTag(body).Some?
    ensures LastTag(front + body) == Some(|front| + LastTag(body).value)
  {
    var t := LastTag(front + body);
    assert (front + body)[|front| + LastTag(body).value] == '<';
    assert t.Some?;
  }

  /** A text without a tag, or whose last tag has no character after its opening, stays as it is. */
  lemma NowhereToInject(xml: string, block: string)
    requires '<' !in xml || (xml != [] && xml[|xml| - 1] == '<')
    ensures Inject(xml, block) == xml
  {
    hide Expand;
  }

  lemma InjectAt(xml: string, block: string, t: nat)
    requires LastTag(xml) == Some(t) && t + 1 < |xml|
    ensures Inject(xml, block) == xml[..t] + Expand(block + "$1", xml[t..], xml[..t])
  {
    hide Expand, LastTag;
  }

  /** Injecting puts the expanded block before the body's last tag. */
  lemma InjectedText(xml: string, block: string)
    requires EndsInClosingTag(StripDeclaration(xml)) && IsBlock(block)
    ensures
      var body, front := StripDeclaration(xml), Front(xml);
      var t := LastTag(body).value;
      var b := Expand(block, body[t..], front + body[..t]);
      Inject(xml, block) == front + (body[..t] + b + body[t..]) && IsBlock(b)
  {
    hide StripDeclaration, IsBlock, Expand, Inject, LastTag, Front;
    var body, front := StripDeclaration(xml), Front(xml);
    StripSplits(xml);
    LastTagOfSuffix(front, body);
    var t := LastTag(body).value;
    var p, tail := body[..t], body[t..];
    InjectAt(xml, block, |front| + t);
    assert body == p + tail;
    assert xml[|front| + t..] == tail && xml[..|front| + t] == front + p;
    ExpandedBlock(block, tail, front + p);
    var b := Expand(block, tail, front + p);
    assert (front + p) + (b + tail) == front + (p + b + tail);
  }

  lemma SplitBody(body: string, t: nat)
    requires t < |body| && (forall i :: 0 <= i < |body| ==> !Occurs(body, OPENING, i)) && forall i :: 0 <= i < |body| ==> !Occurs(body, CLOSING, i)
    ensures forall i :: 0 <= i < t ==> !Occurs(body[..t], OPENING, i)
    ensures forall i :: 0 <= i < |body| - t ==> !Occurs(body[t..], CLOSING, i)
  {
    hide Occurs;
    forall i | 0 <= i < t
      ensures !Occurs(body[..t], OPENING, i)
    {
      if Occurs(body[..t], OPENING, i) { OccursInside(body, 0, t, OPENING, i); }
    }
    forall i | 0 <= i < |body| - t
      ensures !Occurs(body[t..], CLOSING, i)
    {
      if Occurs(body[t..], CLOSING, i) {
        assert body[t..|body|] == body[t..];
        OccursInside(body, t, |body|, CLOSING, i);
      }
    }
  }

  /** The recovered text is exactly the document body that was digested, for every signable document
      and every signature block, dollars or not. */
  lemma RecoversWhatWasDigested(xml: string, block: string)
    requires Signable(xml) && IsBlock(block)
    ensures Recover(Inject(xml, block)) == StripDeclaration(xml)
  {
    hide StripDeclaration, Expand, Occurs, RemoveSignature, SkipSpace;
    var body, front := StripDeclaration(xml), Front(xml);
    InjectedText(xml, block);
    var t := LastTag(body).value;
    var p, tail := body[..t], body[t..];
    var b := Expand(block, tail, front + p);
    var inner := p + b + tail;
    assert body == p + tail;
    StripSplits(xml);
    if body == xml {
      assert front + inner == inner;
      NoDeclaration(p, b, tail, body);
    } else {
      BodyStart(xml);
      assert inner[0] == if p == [] then b[0] else body[0];
      FrontStaysOff(xml, inner);
    }
    SplitBody(body, t);
    BlockBeforeTag(p, b, tail);
  }

  lemma BlockBeforeTag(p: string, b: string, tail: string)
    requires IsBlock(b) && tail != [] && tail[0] == '<'
    requires forall i :: 0 <= i < |p| ==> !Occurs(p, OPENING, i)
    requires forall i :: 0 <= i < |tail| ==> !Occurs(tail, CLOSING, i)
    ensures RemoveSignature(p + b + tail) == p + tail
  {
    hide RemoveSignature, IsBlock, Occurs;
    assert [] + tail == tail;
    BlockIsRemoved(p, b, [], tail);
  }

  lemma BodyStart(xml: string)
    requires StripDeclaration(xml) != xml && StripDeclaration(xml) != []
    ensures !IsSpace(StripDeclaration(xml)[0]) && !IsSpace('<')
  {
  }

  lemma NotADeclaration(s: string, i: nat)
    requires i < |DECLARATION| && i + 1 < |s| && s[i] == '<' && s[i + 1] == 'd'
    ensures !(DECLARATION <= s)
  {
    if |DECLARATION| <= |s| {
      assert s[..|DECLARATION|][i] == '<';
      assert i == 0 ==> s[..|DECLARATION|][1] == 'd';
    }
  }

  lemma NothingToStrip(s: string)
    requires !(DECLARATION <= s)
    ensures StripDeclaration(s) == s
  {
  }

  lemma NoDeclaration(p: string, b: string, tail: string, body: string)
    requires OPENING <= b && body == p + tail && !(DECLARATION <= body)
    ensures StripDeclaration(p + b + tail) == p + b + tail
  {
    hide StripDeclaration;
    var s := p + b + tail;
    if |p| < |DECLARATION| {
      assert b[0] == '<' && b[1] == 'd';
      NotADeclaration(s, |p|);
    } else {
      assert s[..|DECLARATION|] == body[..|DECLARATION|];
    }
    NothingToStrip(s);
  }

  // ---- The block that was signed --------------------------------------------------------------

  /** The document holds the block as it was built. */
  predicate Intact(xml: string, block: string) {
    match LastTag(xml)
    case None => false
    case Some(t) => Inject(xml, block) == xml[..t] + block + xml[t..]
  }

  lemma InertBlockIsIntact(xml: string, block: string)
    requires EndsInClosingTag(xml) && IsBlock(block) && !Active(block)
    ensures Intact(xml, block)
  {
    hide Active, Expand, IsBlock;
    var t := LastTag(xml).value;
    ExpandedBlock(block, xml[t..], xml[..t]);
    InertExpands(block, xml[t..], xml[..t]);
    assert xml[..t] + (block + xml[t..]) == xml[..t] + block + xml[t..];
  }

  /** A closing tag of this length. */
  function LongTag(n: nat): (xml: string)
    ensures |xml| == n + 2 && xml[0] == '<' && xml[1] == '/' && forall i :: 2 <= i < |xml| ==> xml[i] == 'a'
  {
    "</" + seq(n, _ => 'a')
  }

  lemma ActiveBlockIsBroken(block: string)
    requires IsBlock(block) && Active(block)
    ensures exists xml :: EndsInClosingTag(xml) && !Intact(xml, block)
  {
    hide Active, Expand, IsBlock, Grows;
    var xml := LongTag(|block|);
    assert LastTag(xml) == Some(0);
    assert xml[0..] == xml && xml[..0] == [];
    ExpandedBlock(block, xml, []);
    ExpandedLength(block, xml);
    assert |Inject(xml, block)| != |block| + |xml|;
    assert EndsInClosingTag(xml) && !Intact(xml, block);
  }

  /** Every document keeps the block as it was built exactly when no dollar in the block stands for
      anything but itself. */
  lemma IntactExactly(block: string)
    requires IsBlock(block)
    ensures (forall xml :: EndsInClosingTag(xml) ==> Intact(xml, block)) <==> !Active(block)
  {
    hide Active, Intact, EndsInClosingTag;
    if Active(block) {
      ActiveBlockIsBroken(block);
    } else {
      forall xml | EndsInClosingTag(xml)
        ensures Intact(xml, block)
      {
        InertBlockIsIntact(xml, block);
      }
    }
  }

  /** A block built around an issuer name that holds "$&" is in no document at all as it was built:
      the document's last tag stands in its place. */
  lemma AnIssuerNameBreaksItsBlock(xml: string, before: string, after: string)
    requires EndsInClosingTag(xml) && IsBlock(before + "$&" + after) && '$' !in before && '$' !in after
    ensures !Intact(xml, before + "$&" + after)
    ensures
      var t := LastTag(xml).value;
      Inject(xml, before + "$&" + after) == xml[..t] + (before + xml[t..] + after) + xml[t..]
  {
    hide Expand, IsBlock, LastTag;
    var block := before + "$&" + after;
    var t := LastTag(xml).value;
    var head, tail := xml[..t], xml[t..];
    ExpandedBlock(block, tail, head);
    ExpandMatch(before, after, tail, head);
    InjectAt(xml, block, t);
    assert head + ((before + tail + after) + tail) == head + (before + tail + after) + tail;
    var at := |head| + |before|;
    assert (head + (before + tail + after) + tail)[at] == tail[0];
    assert (head + block + tail)[at] == '$';
  }

  lemma ExpandMatch(before: string, after: string, matched: string, prefix: string)
    requires '$' !in before && '$' !in after
    ensures Expand(before + "$&" + after, matched, prefix) == before + matched + after
  {
    hide Expand;
    var rest := "$&" + after;
    assert before + "$&" + after == before + rest;
    ExpandPlain(before, rest, matched, prefix);
    ExpandTakes(rest, matched, prefix);
    assert rest[2..] == after;
    ExpandPlain(after, [], matched, prefix);
    ExpandGroup(matched, prefix);
    assert after + [] == after;
    assert before + (matched + after) == before + matched + after;
  }

  lemma InertSplit(xml: string, block: string)
    requires EndsInClosingTag(StripDeclaration(xml)) && IsBlock(block) && !Active(block)
    ensures exists p, tail :: xml == p + tail && Inject(xml, block) == p + block + tail
  {
    hide StripDeclaration, Active, Expand, Inject, IsBlock;
    InjectedText(xml, block);
    StripSplits(xml);
    var body, front := StripDeclaration(xml), Front(xml);
    var t := LastTag(body).value;
    InertExpands(block, body[t..], front + body[..t]);
    var p, tail := front + body[..t], body[t..];
    assert front + (body[..t] + block + tail) == p + block + tail;
    assert xml == p + tail;
  }

  /** Normalises, notes what is digested, and injects the block built from it. */
  method Sign(xml: string, block: string) returns (digested: string, signed: string)
    requires IsBlock(block)
    ensures digested == StripDeclaration(Normalise(xml))
    ensures Signable(Normalise(xml)) ==> Recover(signed) == digested
    ensures Signable(Normalise(xml)) && !Active(block) ==>
      exists p, tail :: Normalise(xml) == p + tail && signed == p + block + tail
  {
    hide Normalise, Inject, StripDeclaration, Active, IsBlock, EndsInClosingTag, Occurs, Recover;
    var xmlString := Normalise(xml);
    digested := StripDeclaration(xmlString);
    signed := Inject(xmlString, block);
    if Signable(xmlString) {
      RecoversWhatWasDigested(xmlString, block);
      if !Active(block) {
        InertSplit(xmlString, block);
      }
    }
  }
}
