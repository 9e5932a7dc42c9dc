/** The constructors of the built-in builders that are written in C: what each makes of the text
    of a scalar. The float and binary constructors hand the text to Python and live with the
    builders that call them. */
module Scalars {
  import opened Outcome
  import opened Values
  import opened Text
  import opened Patterns
  import Calendar

  /** The words `_to_bool` reads as true and as false. */
  const TrueWords: set<string> := {"y", "Y", "yes", "Yes", "YES", "true", "True", "TRUE", "on", "On", "ON"}
  const FalseWords: set<string> := {"n", "N", "no", "No", "NO", "false", "False", "FALSE", "off", "Off", "OFF"}

  /** `_to_bool`: the C string of the text is one of the true words or one of the false words. */
  function ToBool(text: string): (r: Result<Value>)
    ensures r.Ok? <==> CStr(text) in TrueWords + FalseWords
    ensures r.Ok? ==> r.value == Bool(CStr(text) in TrueWords)
    ensures r.Err? ==> r.error == UnknownBoolValue
  {
    var t := CStr(text);
    if t in TrueWords then Ok(Bool(true))
    else if t in FalseWords then Ok(Bool(false))
    else Err(UnknownBoolValue)
  }

  /** `_to_str`: a Python string of the C string. */
  function ToStr(text: string): (r: Value)
    ensures r.Str? && |r.s| <= |text| && r.s == text[..|r.s|] && NUL !in r.s
    ensures NUL !in text ==> r == Str(text)
  {
    Str(CStr(text))
  }

  /** Every word the implicit true and false resolvers accept is read by `_to_bool` the same way,
      so an explicit `!!bool` tag and implicit resolution agree on them. */
  lemma ResolvedBoolsAgree(text: string)
    requires NUL !in text && Subject(text) == text
    ensures Match(TruePattern, text).Some? ==> ToBool(text) == Ok(Bool(true))
    ensures Match(FalsePattern, text).Some? ==> ToBool(text) == Ok(Bool(false))
  {
    CStrWhole(text);
    assert TrueTexts <= TrueWords && FalseTexts <= FalseWords;
    if text in FalseWords {
      WordsDisjoint(text);
    }
  }

  /** No word is both true and false: the first letters differ, except `on` against `off`. */
  lemma WordsDisjoint(w: string)
    requires w in FalseWords
    ensures w !in TrueWords
  {
    assert |w| > 0 && (w[0] in "nNfF" || (w[0] in "oO" && |w| == 3));
  }

  /** `_to_bool` also accepts `y` and `n`, which the implicit resolvers leave as strings. */
  lemma ShortBoolsOnlyExplicit()
    ensures ToBool("y") == Ok(Bool(true)) && Match(TruePattern, "y").None?
    ensures ToBool("n") == Ok(Bool(false)) && Match(FalsePattern, "n").None?
  {
    CStrWhole("y");
    CStrWhole("n");
    assert Subject("y") == "y" && Subject("n") == "n";
  }

  // ---------------------------------------------------------------------------------------------
  // Integers

  /** The loop of `_to_int` over the colons of a sexagesimal int in the buffer `b`, starting at the
      character `p` that ends the previous group: each step multiplies by 60, adds the number
      `atol` reads after that character, and moves to the next colon. */
  function Sexagesimal(b: string, p: nat, acc: int): int
    requires p < |b|
    decreases |b| - p
  {
    var acc' := acc * 60 + Atoi(b[p + 1..]);
    match StrChr(b, p + 1, ':')
    case None => acc'
    case Some(q) => Sexagesimal(b, q, acc')
  }

  /** The octal reading of `_to_int` once the separators are gone: the C string at the group `g`
      read by `PyLong_FromString` in base 8. */
  function OctalRead(c: string, g: Span): Result<Value>
    requires g.start <= |c|
  {
    var v := PyLong(CStr(c[g.start..]), 8);
    if v.Err? then Err(v.error) else Ok(Int(v.value))
  }

  /** The sexagesimal reading of `_to_int` once the separators of the head `h` are gone: the head
      read by `atol`, then each further group folded in by the colon loop from `groups`. */
  function SexagesimalRead(c: string, h: Span, groups: Option<Span>): Value
    requires h.start <= |c|
    requires groups.Some? ==> groups.value.start < |c|
  {
    var head := Atoi(c[h.start..]);
    match groups
    case None => Int(head)
    case Some(g) => Int(Sexagesimal(c, g.start, head))
  }

  /** The other readings of `_to_int` once the separators are gone: the C string read by
      `PyLong_FromString` with the base taken from its prefix. */
  function PrefixedRead(c: string): Result<Value> {
    var v := PyLong(CStr(c), 0);
    if v.Err? then Err(v.error) else Ok(Int(v.value))
  }

  /** `_to_int`'s octal reading of the buffer `b`, the separators at the group `g` removed first. */
  function OctalValue(b: string, g: Span): Result<Value>
    requires g.start <= g.end <= |b|
  {
    OctalRead(SeparatorsRemoved(b, g.start, g.end - g.start, '_'), g)
  }

  /** `_to_int`'s sexagesimal reading of the buffer `b`, the separators of the head `h` removed first. */
  function SexagesimalValue(b: string, h: Span, groups: Option<Span>): Value
    requires h.start <= h.end <= |b|
    requires groups.Some? ==> groups.value.start < |b|
  {
    SexagesimalRead(SeparatorsRemoved(b, h.start, h.end - h.start, '_'), h, groups)
  }

  /** `_to_int`'s reading of the buffer `b` by prefix, the separators of its first `n` characters removed first. */
  function PrefixedValue(b: string, n: nat): Result<Value>
    requires n <= |b|
  {
    PrefixedRead(SeparatorsRemoved(b, 0, n, '_'))
  }

  /** `_to_int` of a builder whose only matcher is the int pattern, as the built-in one is: the
      captures of that pattern decide the reading. An octal text (group 1) loses its separators
      and is read in base 8; a sexagesimal one (groups 2 and 3) has the separators of its head
      removed and is read group by group; anything else loses its separators and is read by
      `PyLong_FromString` with the base taken from its prefix. A text the pattern rejects is an
      error. The buffer is the text with its terminating NUL. */
  function IntValue(text: string): (r: Result<Value>)
    ensures Match(IntPattern, text).None? <==> r == Err(WrongIntFormat)
    ensures r.Ok? ==> r.value.Int?
    ensures r.Err? ==> r.error == WrongIntFormat || r.error == InvalidIntLiteral
  {
    match Match(IntPattern, text)
    case None => Err(WrongIntFormat)
    case Some(caps) => IntFromCaptures(text, caps)
  }

  /** `_to_int` once the captures are known; with no group set (a Python resolver accepted the
      text) the whole text is read by its prefix. */
  function IntFromCaptures(text: string, caps: Captures): (r: Result<Value>)
    requires Fits(caps, |text|)
    ensures r.Ok? ==> r.value.Int?
    ensures r.Err? ==> r.error == InvalidIntLiteral
  {
    var b := text + [NUL];
    if Group(caps, 0).Some? then OctalValue(b, Group(caps, 0).value)
    else if Group(caps, 1).Some? then Ok(SexagesimalValue(b, Group(caps, 1).value, Group(caps, 2)))
    else PrefixedValue(b, |text|)
  }

  /** The body of `_to_int` once the captures are known, on a fresh copy of the scalar's buffer. */
  method ReadInt(text: string, caps: Captures) returns (r: Result<Value>)
    requires Fits(caps, |text|)
    ensures r == IntFromCaptures(text, caps)
  {
    var a := new char[|text| + 1](i => if 0 <= i < |text| then text[i] else NUL);
    ghost var b := text + [NUL];
    assert a[..] == b;
    var octal := Group(caps, 0);
    var head := Group(caps, 1);
    if octal.Some? {
      r := ReadOctal(a, octal.value, b);
    } else if head.Some? {
      var val := ReadSexagesimal(a, head.value, Group(caps, 2), b);
      r := Ok(val);
    } else {
      r := ReadPrefixed(a, |text|, b);
    }
  }

  method ReadOctal(a: array<char>, g: Span, ghost b: string) returns (r: Result<Value>)
    requires g.start <= g.end < a.Length && a[..] == b
    modifies a
    ensures r == OctalValue(b, g)
  {
    RemoveDigitSeparator(a, g.start, g.end - g.start, '_');
    var c := a[..];
    assert c == SeparatorsRemoved(b, g.start, g.end - g.start, '_');
    r := OctalRead(c, g);
  }

  method ReadSexagesimal(a: array<char>, h: Span, groups: Option<Span>, ghost b: string) returns (r: Value)
    requires h.start <= h.end < a.Length && a[..] == b
    requires groups.Some? ==> groups.value.start < a.Length
    modifies a
    ensures r == SexagesimalValue(b, h, groups)
  {
    RemoveDigitSeparator(a, h.start, h.end - h.start, '_');
    assert a[..] == SeparatorsRemoved(b, h.start, h.end - h.start, '_');
    var val := Atoi(a[h.start..]);
    if groups.Some? {
      val := FoldSexagesimal(a[..], groups.value.start, val);
    }
    r := Int(val);
    assert r == SexagesimalRead(a[..], h, groups);
    assert r == SexagesimalRead(SeparatorsRemoved(b, h.start, h.end - h.start, '_'), h, groups);
  }

  /** The colon loop of `_to_int`: `val = val * 60 + atol(++cur); cur = strchr(cur, ':')` until no
      colon is left. */
  method FoldSexagesimal(b: string, start: nat, head: int) returns (val: int)
    requires start < |b|
    ensures val == Sexagesimal(b, start, head)
  {
    var p := start;
    val := head;
    while true
      invariant p < |b| && Sexagesimal(b, p, val) == Sexagesimal(b, start, head)
      decreases |b| - p
    {
      val := val * 60 + Atoi(b[p + 1..]);
      var next := StrChr(b, p + 1, ':');
      if next.None? {
        break;
      }
      p := next.value;
    }
  }

  method ReadPrefixed(a: array<char>, n: nat, ghost b: string) returns (r: Result<Value>)
    requires n <= a.Length && a[..] == b
    modifies a
    ensures r == PrefixedValue(b, n)
  {
    RemoveDigitSeparator(a, 0, n, '_');
    var c := a[..];
    assert c == SeparatorsRemoved(b, 0, n, '_');
    r := PrefixedRead(c);
  }

  /** Horner's rule in base 60: `1:10` is 70 and `1:10:00` is 4200. */
  lemma SexagesimalExamples()
    ensures IntValue("1:10") == Ok(Int(70))
    ensures IntValue("1:10:00") == Ok(Int(4200))
  {
    SexagesimalMatches();
    Sexagesimal70();
    Sexagesimal4200();
  }

  /** Both texts are sexagesimal ints: the head is group 2 and the colon groups are group 3. */
  lemma SexagesimalMatches()
    ensures Match(IntPattern, "1:10") == Some([None, Captured(0, 1), Captured(1, 4)])
    ensures Match(IntPattern, "1:10:00") == Some([None, Captured(0, 1), Captured(1, 7)])
  {
    assert Subject("1:10") == "1:10";
    assert Subject("1:10:00") == "1:10:00";
    assert SexagesimalGroups("1:10:00", 4, AtEnd);
  }

  lemma Sexagesimal70()
    ensures SexagesimalValue("1:10" + [NUL], Span(0, 1), Some(Span(1, 4))) == Int(70)
  {
    var b := "1:10" + [NUL];
    assert SeparatorsRemoved(b, 0, 1, '_') == b by {
      assert Scanned(b, 1) == 1;
      assert b[..1] == "1";
      assert Kept("1", '_') == "1";
    }
    assert Atoi(b) == 1 by {
      assert LeadingDecimal(b[1..], 1) == 1;
    }
    assert Atoi(b[2..]) == 10 by {
      assert b[2..] == "10" + [NUL];
      assert LeadingDecimal(b[2..], 0) == LeadingDecimal(b[3..], 1) == LeadingDecimal(b[4..], 10) == 10;
    }
    assert StrChr(b, 2, ':') == None;
  }

  lemma Sexagesimal4200()
    ensures SexagesimalValue("1:10:00" + [NUL], Span(0, 1), Some(Span(1, 7))) == Int(4200)
  {
    var b := "1:10:00" + [NUL];
    assert SeparatorsRemoved(b, 0, 1, '_') == b by {
      assert Scanned(b, 1) == 1;
      assert b[..1] == "1";
      assert Kept("1", '_') == "1";
    }
    assert Atoi(b) == 1 by {
      assert LeadingDecimal(b[1..], 1) == 1;
    }
    SexagesimalGroups4200(b);
    assert SexagesimalRead(b, Span(0, 1), Some(Span(1, 7))) == Int(Sexagesimal(b, 1, 1));
  }

  /** The two colon groups of `1:10:00` after the head 1: 70, then 4200. */
  lemma SexagesimalGroups4200(b: string)
    requires b == "1:10:00" + [NUL]
    ensures Sexagesimal(b, 1, 1) == 4200
  {
    assert Atoi(b[2..]) == 10 by {
      assert b[2..] == "10:00" + [NUL];
      assert LeadingDecimal(b[2..], 0) == LeadingDecimal(b[3..], 1) == LeadingDecimal(b[4..], 10) == 10;
    }
    assert Atoi(b[5..]) == 0 by {
      assert b[5..] == "00" + [NUL];
      assert LeadingDecimal(b[5..], 0) == LeadingDecimal(b[6..], 0) == LeadingDecimal(b[7..], 0) == 0;
    }
    assert StrChr(b, 6, ':') == None;
    assert Sexagesimal(b, 4, 70) == 4200;
    assert StrChr(b, 2, ':') == Some(4) by {
      assert StrChr(b, 3, ':') == Some(4);
    }
  }
}
