/** The C and Python string routines the constructors rely on: NUL-terminated reads, `atoi`/`atol`,
    `PyLong_FromString`, and the in-place removal of digit separators. */
module Text {
  import opened Outcome

  const NUL: char := '\0'

  /** The C string starting at the beginning of `s`: everything before the first NUL. */
  function CStr(s: string): (r: string)
    ensures |r| <= |s| && r == s[..|r|]
    ensures NUL !in r
    ensures |r| < |s| ==> s[|r|] == NUL
  {
    if s == [] || s[0] == NUL then [] else [s[0]] + CStr(s[1..])
  }

  /** A text without NUL is its own C string. */
  lemma CStrWhole(s: string)
    requires NUL !in s
    ensures CStr(s) == s
  {
    if |CStr(s)| < |s| {
      assert s[|CStr(s)|] == NUL;
    }
  }

  /** PCRE's `$` also matches before a newline that ends the subject, so an anchored pattern
      sees the text without one final newline. */
  function Subject(text: string): (u: string)
    ensures u == text || (text == u + ['\n'])
  {
    if |text| > 0 && text[|text| - 1] == '\n' then text[..|text| - 1] else text
  }

  predicate IsDigit(c: char) { '0' <= c <= '9' }

  /** C `isspace`, which is also Python's `Py_ISSPACE` on these characters. */
  predicate IsSpace(c: char) {
    c == ' ' || c == '\t' || c == '\n' || c == '\r' || c == '\U{0B}' || c == '\U{0C}'
  }

  function SkipSpace(s: string): (r: string)
    ensures |r| <= |s| && r == s[|s| - |r|..]
    ensures r == [] || !IsSpace(r[0])
  {
    if s != [] && IsSpace(s[0]) then SkipSpace(s[1..]) else s
  }

  /** The value of a digit in base 16 or less, 16 for any other character. */
  function DigitValue(c: char): nat {
    if '0' <= c <= '9' then (c - '0') as nat
    else if 'a' <= c <= 'f' then (c - 'a') as nat + 10
    else if 'A' <= c <= 'F' then (c - 'A') as nat + 10
    else 16
  }

  /** Number of leading characters of `s` that are digits in `base`. */
  function DigitRun(s: string, base: nat): (n: nat)
    ensures n <= |s|
    ensures forall i :: 0 <= i < n ==> DigitValue(s[i]) < base
    ensures n < |s| ==> DigitValue(s[n]) >= base
  {
    if s == [] || DigitValue(s[0]) >= base then 0 else 1 + DigitRun(s[1..], base)
  }

  /** Positional value of a digit string, most significant digit first. */
  function ValueInBase(d: string, base: nat): nat
    decreases |d|
  {
    if d == [] then 0
    else ValueInBase(d[..|d| - 1], base) * base + (if DigitValue(d[|d| - 1]) < 16 then DigitValue(d[|d| - 1]) else 0)
  }

  /** `atoi`/`atol`: optional white space, an optional sign, then as many decimal digits as follow
      (none gives 0). The C routines overflow on long inputs; here the integers are unbounded. */
  function Atoi(s: string): int
    decreases |s|
  {
    if s != [] && IsSpace(s[0]) then Atoi(s[1..])
    else if s != [] && s[0] == '-' then 0 - LeadingDecimal(s[1..], 0)
    else if s != [] && s[0] == '+' then LeadingDecimal(s[1..], 0)
    else LeadingDecimal(s, 0)
  }

  /** The digit loop of `atoi`: `acc` extended by the decimal digits that start `s`. */
  function LeadingDecimal(s: string, acc: nat): nat {
    if s != [] && IsDigit(s[0]) then LeadingDecimal(s[1..], acc * 10 + DigitValue(s[0])) else acc
  }

  /** `PyLong_FromString(s, NULL, base)` for base 0 (the base is read from a `0b`, `0o` or `0x`
      prefix, decimal otherwise, where a leading zero is only allowed for the value zero) and for
      base 8. White space may surround the number; nothing else may follow it. The strings this
      loader passes hold no `_`, so Python's underscore rules are not needed here. */
  function PyLong(s: string, base: nat): Result<int>
    requires base == 0 || base == 8
  {
    var t := SkipSpace(s);
    var negative := t != [] && t[0] == '-';
    var u := if t != [] && (t[0] == '-' || t[0] == '+') then t[1..] else t;
    var v := Unsigned(u, base);
    if v.Err? then Err(v.error) else Ok(if negative then 0 - v.value as int else v.value)
  }

  /** The base a number after its sign is read in, how many prefix characters precede its digits,
      and whether only zeros are allowed (a decimal number with a leading zero). */
  function Layout(u: string, base: nat): (r: (nat, nat, bool))
    requires base == 0 || base == 8
    ensures r.1 <= |u|
  {
    var hasPrefix := |u| >= 2 && u[0] == '0';
    if base == 0 then
      if hasPrefix && (u[1] == 'x' || u[1] == 'X') then (16, 2, false)
      else if hasPrefix && (u[1] == 'o' || u[1] == 'O') then (8, 2, false)
      else if hasPrefix && (u[1] == 'b' || u[1] == 'B') then (2, 2, false)
      else if u != [] && u[0] == '0' then (10, 0, true)
      else (10, 0, false)
    else if hasPrefix && (u[1] == 'o' || u[1] == 'O') then (8, 2, false)
    else (8, 0, false)
  }

  /** The unsigned part of `PyLong_FromString`: the prefix, then at least one digit of the base,
      then only white space. */
  function Unsigned(u: string, base: nat): Result<nat>
    requires base == 0 || base == 8
  {
    var layout := Layout(u, base);
    Digits(u[layout.1..], layout.0, layout.2)
  }

  /** The digits of `d` in base `b` followed by nothing but white space; with `zeroOnly` their
      value must be zero. */
  function Digits(d: string, b: nat, zeroOnly: bool): Result<nat> {
    var n := DigitRun(d, b);
    var v := ValueInBase(d[..n], b);
    if n == 0 || SkipSpace(d[n..]) != [] || (zeroOnly && v != 0) then Err(InvalidIntLiteral)
    else Ok(v)
  }

  /** How many characters `_remove_digit_separator` walks over: at most `length`, stopping at a NUL. */
  function Scanned(s: seq<char>, length: nat): (k: nat)
    ensures k <= length && k <= |s|
    ensures forall i :: 0 <= i < k ==> s[i] != NUL
    ensures k < length && k < |s| ==> s[k] == NUL
  {
    if length == 0 || s == [] || s[0] == NUL then 0 else 1 + Scanned(s[1..], length - 1)
  }

  /** The characters of `s` other than `separator`, in their order. */
  function Kept(s: seq<char>, separator: char): (r: seq<char>)
    ensures |r| <= |s|
    ensures separator !in r
    ensures forall c :: c in r ==> c in s
  {
    if s == [] then []
    else if s[0] == separator then Kept(s[1..], separator)
    else [s[0]] + Kept(s[1..], separator)
  }

  function Nuls(n: nat): (r: seq<char>)
    ensures |r| == n && forall i :: 0 <= i < n ==> r[i] == NUL
  {
    if n == 0 then [] else [NUL] + Nuls(n - 1)
  }

  /** A walked span after separator removal: the kept characters first, NUL fill after them. */
  function Compact(s: seq<char>, separator: char): (r: seq<char>)
    ensures |r| == |s|
  {
    Kept(s, separator) + Nuls(|s| - |Kept(s, separator)|)
  }

  /** The buffer `b` after `_remove_digit_separator(b + from, length, separator)`. */
  function SeparatorsRemoved(b: seq<char>, from: nat, length: nat, separator: char): (r: seq<char>)
    requires from <= |b|
    ensures |r| == |b|
  {
    if from > 0 then [b[0]] + SeparatorsRemoved(b[1..], from - 1, length, separator)
    else
      var k := Scanned(b, length);
      Compact(b[..k], separator) + b[k..]
  }

  /** The buffer before `from` is untouched; from there the walked span is compacted. */
  lemma {:induction false} SeparatorsRemovedParts(b: seq<char>, from: nat, length: nat, separator: char)
    requires from <= |b|
    ensures var s := b[from..]; var k := Scanned(s, length);
      SeparatorsRemoved(b, from, length, separator) == b[..from] + Compact(s[..k], separator) + s[k..]
  {
    if from > 0 {
      var s := b[from..];
      var k := Scanned(s, length);
      var c := Compact(s[..k], separator);
      var q := b[1..][..from - 1];
      assert SeparatorsRemoved(b[1..], from - 1, length, separator) == q + c + s[k..] by {
        SeparatorsRemovedParts(b[1..], from - 1, length, separator);
        assert b[1..][from - 1..] == s;
      }
      assert [b[0]] + q == b[..from];
      ConsAppend(b[0], q, c, s[k..]);
    }
  }

  lemma ConsAppend(x: char, q: seq<char>, c: seq<char>, r: seq<char>)
    ensures [x] + (q + c + r) == ([x] + q) + c + r
  {
  }

  /** `strchr(s + p, c)` for a character `c` other than NUL: the first `c` at or after `p`
      before the string ends. */
  function StrChr(s: string, p: nat, c: char): (r: Option<nat>)
    requires p <= |s|
    ensures r.Some? ==> p <= r.value < |s| && s[r.value] == c
    decreases |s| - p
  {
    if p == |s| || s[p] == NUL then None
    else if s[p] == c then Some(p)
    else StrChr(s, p + 1, c)
  }

  /** `_remove_digit_separator(value + from, length, separator)`: shifts the characters other than the
      separator to the front of the walked span, in order, and NUL-fills the rest of that span;
      the rest of the buffer is untouched. */
  method RemoveDigitSeparator(a: array<char>, from: nat, length: nat, separator: char)
    requires from + length <= a.Length
    modifies a
    ensures a[..] == SeparatorsRemoved(old(a[..]), from, length, separator)
  {
    ghost var whole := a[..];
    ghost var s := a[from..];
    var i, j, kept := ShiftKept(a, from, length, separator);
    FillNul(a, from + j, from + i);
    KeptToIsKept(s, i, separator);
    Assemble(a[..], whole, s, from, i, separator);
    SeparatorsRemovedParts(whole, from, length, separator);
  }

  /** The first loop of `_remove_digit_separator`: walks `i` over the span up to `length` or a NUL,
      copying each character other than the separator down to position `j`. Returns where both stopped. */
  method ShiftKept(a: array<char>, from: nat, length: nat, separator: char) returns (i: nat, j: nat, ghost kept: seq<char>)
    requires from + length <= a.Length
    modifies a
    ensures j <= i <= length
    ensures i == Scanned(old(a[from..]), length)
    ensures kept == KeptTo(old(a[from..]), i, separator) && j == |kept|
    ensures forall q :: 0 <= q < j ==> a[from + q] == kept[q]
    ensures forall p :: 0 <= p < a.Length && (p < from || from + i <= p) ==> a[p] == old(a[p])
  {
    ghost var s := a[from..];
    i, j, kept := 0, 0, [];
    while i < length && a[from + i] != NUL
      invariant 0 <= j <= i <= length
      invariant forall q :: 0 <= q < i ==> s[q] != NUL
      invariant kept == KeptTo(s, i, separator) && |kept| == j
      invariant forall p :: 0 <= p < from ==> a[p] == old(a[p])
      invariant forall p :: from + i <= p < a.Length ==> a[p] == old(a[p])
      invariant forall q :: 0 <= q < j ==> a[from + q] == kept[q]
    {
      var c := a[from + i];
      a[from + j] := c;
      if c != separator {
        kept := kept + [c];
        j := j + 1;
      }
      i := i + 1;
    }
    ScannedIs(s, length, i);
  }

  /** The second loop of `_remove_digit_separator`: NUL-fills `a[lo..hi]` and nothing else. */
  method FillNul(a: array<char>, lo: nat, hi: nat)
    requires lo <= hi <= a.Length
    modifies a
    ensures forall p :: 0 <= p < a.Length ==> a[p] == if lo <= p < hi then NUL else old(a[p])
  {
    var j := lo;
    while j < hi
      invariant lo <= j <= hi
      invariant forall p :: 0 <= p < a.Length ==> a[p] == if lo <= p < j then NUL else old(a[p])
    {
      a[j] := NUL;
      j := j + 1;
    }
  }

  /** The buffer after both loops, put together from its three parts. */
  lemma Assemble(x: seq<char>, whole: seq<char>, s: seq<char>, from: nat, k: nat, separator: char)
    requires |x| == |whole| && from <= |whole| && s == whole[from..] && k <= |s|
    requires forall p :: 0 <= p < |x| && (p < from || from + k <= p) ==> x[p] == whole[p]
    requires var kept := Kept(s[..k], separator);
      (forall p :: from <= p < from + |kept| ==> x[p] == kept[p - from]) &&
      (forall p :: from + |kept| <= p < from + k ==> x[p] == NUL)
    ensures x == whole[..from] + Compact(s[..k], separator) + s[k..]
  {
    var kept := Kept(s[..k], separator);
    var c := Compact(s[..k], separator);
    var y := whole[..from] + c + s[k..];
    assert |y| == |x|;
    forall p | 0 <= p < |x| ensures x[p] == y[p] {
      if from <= p < from + k {
        assert y[p] == c[p - from];
        if p < from + |kept| {
          assert c[p - from] == kept[p - from];
        } else {
          assert c[p - from] == Nuls(k - |kept|)[p - from - |kept|];
        }
      }
    }
  }

  /** `Kept` of the first `i` characters, grown one character at a time as the first loop walks. */
  function KeptTo(s: seq<char>, i: nat, separator: char): seq<char>
    requires i <= |s|
  {
    if i == 0 then [] else KeptTo(s, i - 1, separator) + (if s[i - 1] == separator then [] else [s[i - 1]])
  }

  lemma {:induction false} KeptToIsKept(s: seq<char>, i: nat, separator: char)
    requires i <= |s|
    ensures KeptTo(s, i, separator) == Kept(s[..i], separator)
  {
    if i > 0 {
      KeptToIsKept(s, i - 1, separator);
      assert s[..i] == s[..i - 1] + [s[i - 1]];
      KeptSnoc(s[..i - 1], s[i - 1], separator);
    }
  }

  lemma {:induction false} KeptSnoc(s: seq<char>, c: char, separator: char)
    ensures Kept(s + [c], separator) == Kept(s, separator) + (if c == separator then [] else [c])
  {
    if s == [] {
      assert [c][1..] == [];
    } else {
      assert (s + [c])[1..] == s[1..] + [c];
      KeptSnoc(s[1..], c, separator);
    }
  }

  /** A walk that met no NUL and stopped at `length`, at the end or at a NUL walked `Scanned` characters. */
  lemma {:induction false} ScannedIs(s: seq<char>, length: nat, i: nat)
    requires i <= length && i <= |s| && forall q :: 0 <= q < i ==> s[q] != NUL
    requires i == length || i == |s| || s[i] == NUL
    ensures i == Scanned(s, length)
  {
    if i > 0 {
      ScannedIs(s[1..], length - 1, i - 1);
    }
  }

  /** Removing the separators keeps every other character, as often as it occurs. */
  lemma {:induction false} KeptCounts(s: seq<char>, separator: char, c: char)
    requires c != separator
    ensures multiset(Kept(s, separator))[c] == multiset(s)[c]
  {
    if s != [] {
      KeptCounts(s[1..], separator, c);
      assert s == [s[0]] + s[1..];
    }
  }

  /** Removal is idempotent: a span already free of separators is left as it is. */
  lemma {:induction false} KeptIdempotent(s: seq<char>, separator: char)
    requires separator !in s
    ensures Kept(s, separator) == s
    ensures Compact(s, separator) == s
  {
    if s != [] {
      KeptIdempotent(s[1..], separator);
    }
  }

  /** What a C reader then sees at the start of the span: when a separator was removed, exactly
      the kept characters (the NUL fill ends the string); otherwise the span runs on into the rest. */
  lemma CompactReadsAsKept(s: seq<char>, rest: seq<char>, separator: char)
    requires NUL !in s && separator != NUL
    ensures separator in s ==> CStr(Compact(s, separator) + rest) == Kept(s, separator)
    ensures separator !in s ==> CStr(Compact(s, separator) + rest) == CStr(s + rest)
  {
    var kept := Kept(s, separator);
    if separator in s {
      KeptShorter(s, separator);
      CStrAt(kept, Nuls(|s| - |kept|) + rest);
      assert Compact(s, separator) + rest == kept + (Nuls(|s| - |kept|) + rest);
    } else {
      KeptIdempotent(s, separator);
    }
  }

  lemma {:induction false} KeptShorter(s: seq<char>, separator: char)
    requires separator in s
    ensures |Kept(s, separator)| < |s|
  {
    if s[0] != separator {
      KeptShorter(s[1..], separator);
    }
  }

  /** A NUL-free prefix followed by a NUL reads as that prefix. */
  lemma {:induction false} CStrAt(p: seq<char>, rest: seq<char>)
    requires NUL !in p && rest != [] && rest[0] == NUL
    ensures CStr(p + rest) == p
  {
    if p == [] {
      assert p + rest == rest;
    } else {
      assert (p + rest)[1..] == p[1..] + rest;
      CStrAt(p[1..], rest);
    }
  }
}
