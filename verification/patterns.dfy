/** The implicit resolvers of the built-in builders: the anchored regular expressions they are
    compiled with, written out as recognisers over the subject text.

    A recogniser returns the capture groups of a match, or None when the pattern does not match.
    Group n+1 is at index n. A group that is unset or empty is None, which is how
    `_ovector_at` reports it. Every recogniser is run on `Subject(text)`: an anchored `$` also
    matches before one final newline. */
module Patterns {
  import opened Outcome
  import opened Text

  /** Offsets of a group in the scalar text, end exclusive. */
  datatype Span = Span(start: nat, end: nat)

  type Captures = seq<Option<Span>>

  /** The regular expressions of `_init_implicit_builders`, one per builder that has one. */
  datatype Pattern = NullPattern | TruePattern | FalsePattern | IntPattern | FloatPattern | TimestampPattern

  /** `_ovector_at(i)`: the span of group i+1 when it was set and is not empty. */
  function Group(caps: Captures, i: nat): (g: Option<Span>)
    ensures g.Some? ==> i < |caps| && caps[i] == g
    ensures i >= |caps| ==> g.None?
  {
    if i < |caps| then caps[i] else None
  }

  /** A group that matched `u[start..end]`; an empty one reads as unset. */
  function Captured(start: nat, end: nat): (g: Option<Span>)
    ensures g.Some? <==> start < end
    ensures g.Some? ==> g.value == Span(start, end)
  {
    if start < end then Some(Span(start, end)) else None
  }

  /** Every group that is set lies inside a text of length `n` and is not empty. */
  predicate Fits(caps: Captures, n: nat) {
    forall i :: 0 <= i < |caps| && caps[i].Some? ==> caps[i].value.start < caps[i].value.end <= n
  }

  /** Character classes of the patterns. */
  datatype Class =
    | BinaryDigitOrSep   // [0-1_]
    | OctalDigitOrSep    // [0-7_]
    | DigitOrSep         // [0-9_]
    | HexDigitOrSep      // [0-9a-fA-F_]
    | Digit              // [0-9]
    | Blank              // [ \t]

  predicate InClass(c: char, k: Class) {
    match k
    case BinaryDigitOrSep => c == '0' || c == '1' || c == '_'
    case OctalDigitOrSep => ('0' <= c <= '7') || c == '_'
    case DigitOrSep => IsDigit(c) || c == '_'
    case HexDigitOrSep => IsDigit(c) || ('a' <= c <= 'f') || ('A' <= c <= 'F') || c == '_'
    case Digit => IsDigit(c)
    case Blank => c == ' ' || c == '\t'
  }

  /** End of the longest run of class `k` starting at `i` (a greedy `k*`). */
  function RunEnd(u: string, i: nat, k: Class): (j: nat)
    requires i <= |u|
    ensures i <= j <= |u|
    ensures forall p :: i <= p < j ==> InClass(u[p], k)
    ensures j == |u| || !InClass(u[j], k)
    decreases |u| - i
  {
    if i < |u| && InClass(u[i], k) then RunEnd(u, i + 1, k) else i
  }

  /** Length of an optional leading `[-+]`. */
  function SignEnd(u: string): (s: nat)
    ensures s <= 1 && s <= |u|
  {
    if u != [] && (u[0] == '-' || u[0] == '+') then 1 else 0
  }

  /** `^~$|^null$|^Null$|^NULL$|^$`: no groups. */
  function NullMatch(u: string): (r: Option<Captures>)
    ensures r.Some? ==> |u| <= 4 && r.value == []
  {
    if u in {"~", "null", "Null", "NULL", ""} then Some([]) else None
  }

  const TrueTexts: set<string> := {"yes", "Yes", "YES", "true", "True", "TRUE", "on", "On", "ON"}
  const FalseTexts: set<string> := {"no", "No", "NO", "false", "False", "FALSE", "off", "Off", "OFF"}

  /** `^(yes|Yes|YES|true|True|TRUE|on|On|ON)$`: group 1 is the whole text. */
  function TrueMatch(u: string): (r: Option<Captures>)
    ensures r.Some? ==> Fits(r.value, |u|) && Group(r.value, 0) == Some(Span(0, |u|)) && 2 <= |u| <= 4
  {
    if u in TrueTexts then Some([Captured(0, |u|)]) else None
  }

  /** `^(no|No|NO|false|False|FALSE|off|Off|OFF)$`: group 1 is the whole text. */
  function FalseMatch(u: string): (r: Option<Captures>)
    ensures r.Some? ==> Fits(r.value, |u|) && Group(r.value, 0) == Some(Span(0, |u|)) && 2 <= |u| <= 5
  {
    if u in FalseTexts then Some([Captured(0, |u|)]) else None
  }

  /** What may follow a run of sexagesimal groups: the end of the text (int), or a fraction
      `\.[0-9_]*` that ends the text (float). */
  datatype Tail = AtEnd | BeforeFraction

  predicate TailAt(u: string, i: nat, tail: Tail)
    requires i <= |u|
  {
    match tail
    case AtEnd => i == |u|
    case BeforeFraction => i < |u| && u[i] == '.' && RunEnd(u, i + 1, DigitOrSep) == |u|
  }

  /** `(?::[0-5]?[0-9])+` from `i`, followed by `tail`. Each group is tried with two digits
      first and then with one, as the greedy `?` backtracks. */
  predicate SexagesimalGroups(u: string, i: nat, tail: Tail)
    requires i <= |u|
    decreases |u| - i
  {
    i < |u| && u[i] == ':' &&
    ((i + 2 < |u| && '0' <= u[i + 1] <= '5' && IsDigit(u[i + 2])
      && (TailAt(u, i + 3, tail) || SexagesimalGroups(u, i + 3, tail)))
     || (i + 1 < |u| && IsDigit(u[i + 1])
      && (TailAt(u, i + 2, tail) || SexagesimalGroups(u, i + 2, tail))))
  }

  /** End of the head `[1-9][0-9_]*` of a sexagesimal int after the sign, or 0 when it does not start there. */
  function SexagesimalHeadEnd(u: string, s: nat): (h: nat)
    requires s <= |u|
    ensures h == 0 || s < h <= |u|
  {
    if s < |u| && '1' <= u[s] <= '9' then RunEnd(u, s + 1, DigitOrSep) else 0
  }

  /** The int pattern, five alternatives tried in order:
      `^[-+]?0b[0-1_]+$`, `^([-+]?0[0-7_]+)$`, `^[-+]?(?:0|[1-9][0-9_]*)$`, `^[-+]?0x[0-9a-fA-F_]+$`,
      `^([-+]?[1-9][0-9_]*)((?::[0-5]?[0-9])+)$`. Only the octal alternative (group 1) and the
      sexagesimal one (groups 2 and 3) capture. */
  function IntMatch(u: string): (r: Option<Captures>)
    ensures r.Some? ==> Fits(r.value, |u|)
  {
    var s := SignEnd(u);
    if s + 2 < |u| && u[s] == '0' && u[s + 1] == 'b' && RunEnd(u, s + 2, BinaryDigitOrSep) == |u| then Some([])
    else if s + 1 < |u| && u[s] == '0' && RunEnd(u, s + 1, OctalDigitOrSep) == |u| then Some([Captured(0, |u|)])
    else if (|u| == s + 1 && u[s] == '0') || (s < |u| && '1' <= u[s] <= '9' && RunEnd(u, s + 1, DigitOrSep) == |u|) then Some([])
    else if s + 2 < |u| && u[s] == '0' && u[s + 1] == 'x' && RunEnd(u, s + 2, HexDigitOrSep) == |u| then Some([])
    else
      var h := SexagesimalHeadEnd(u, s);
      if h > 0 && SexagesimalGroups(u, h, AtEnd) then Some([None, Captured(0, h), Captured(h, |u|)])
      else None
  }

  /** `[eE][-+][0-9]+` from `j` to the end. */
  predicate ExponentToEnd(u: string, j: nat)
    requires j <= |u|
  {
    j + 2 < |u| && (u[j] == 'e' || u[j] == 'E') && (u[j + 1] == '-' || u[j + 1] == '+')
    && RunEnd(u, j + 2, Digit) == |u|
  }

  /** `^[-+]?(?:[0-9][0-9_]*)?\.[0-9_]*(?:[eE][-+][0-9]+)?$`. */
  predicate DecimalFloat(u: string) {
    var s := SignEnd(u);
    var i := if s < |u| && IsDigit(u[s]) then RunEnd(u, s + 1, DigitOrSep) else s;
    i < |u| && u[i] == '.' &&
    (var j := RunEnd(u, i + 1, DigitOrSep); j == |u| || ExponentToEnd(u, j))
  }

  /** `^([-+]?[0-9][0-9_]*)((?::[0-5]?[0-9])+)(\.[0-9_]*)$`. */
  predicate SexagesimalFloat(u: string) {
    var s := SignEnd(u);
    s < |u| && IsDigit(u[s]) && SexagesimalGroups(u, RunEnd(u, s + 1, DigitOrSep), BeforeFraction)
  }

  /** The float pattern: the decimal, sexagesimal, infinity `^([-+]?\.inf|Inf|INF)$` and
      not-a-number `^\.(nan|NaN|NAN)$` alternatives. The float conversion is not part of this
      model, so the groups it reads are not reported. */
  function FloatMatch(u: string): (r: Option<Captures>)
    ensures r.Some? ==> Fits(r.value, |u|) && u != []
  {
    if DecimalFloat(u) || SexagesimalFloat(u)
       || u in {"-.inf", "+.inf", ".inf", "Inf", "INF"} || u in {".nan", ".NaN", ".NAN"}
    then Some([])
    else None
  }

  /** One or two digits at `i` followed by the character `c`: the end of the digits.
      (`[0-9][0-9]?` followed by `c`.) */
  function DigitsBefore(u: string, i: nat, c: char): (e: Option<nat>)
    requires i <= |u|
    ensures e.Some? ==> i < e.value < |u| && e.value <= i + 2 && u[e.value] == c
  {
    if i + 2 < |u| && IsDigit(u[i]) && IsDigit(u[i + 1]) && u[i + 2] == c then Some(i + 2)
    else if i + 1 < |u| && IsDigit(u[i]) && u[i + 1] == c then Some(i + 1)
    else None
  }

  predicate IsDateTimeSeparator(c: char) { c == 'T' || c == 't' || c == ' ' || c == '\t' }

  /** The day `[0-9][0-9]?` at `i` followed by `(?:[Tt]|[ \t]+)`: the end of the day. */
  function DayBeforeTime(u: string, i: nat): (e: Option<nat>)
    requires i <= |u|
    ensures e.Some? ==> i < e.value < |u| && IsDateTimeSeparator(u[e.value])
  {
    if i + 2 < |u| && IsDigit(u[i]) && IsDigit(u[i + 1]) && IsDateTimeSeparator(u[i + 2]) then Some(i + 2)
    else if i + 1 < |u| && IsDigit(u[i]) && IsDateTimeSeparator(u[i + 1]) then Some(i + 1)
    else None
  }

  /** `(?::([0-9][0-9]))?$` at `i`: Some(group) on a match, the group unset when there is no minute part. */
  function ZoneMinutes(u: string, i: nat): (z: Option<Option<Span>>)
    requires i <= |u|
    ensures z.Some? && z.value.Some? ==> i < z.value.value.start < z.value.value.end <= |u|
  {
    if i == |u| then Some(None)
    else if i + 3 == |u| && u[i] == ':' && IsDigit(u[i + 1]) && IsDigit(u[i + 2]) then Some(Captured(i + 1, i + 3))
    else None
  }

  /** The time zone `(?:[ \t]*(?:Z|([-+][0-9][0-9]?)(?::([0-9][0-9]))?))?$` at `z`: the groups
      for the zone hour and the zone minute on a match. */
  function Zone(u: string, z: nat): (r: Option<(Option<Span>, Option<Span>)>)
    requires z <= |u|
    ensures r.Some? && r.value.0.Some? ==> z <= r.value.0.value.start < r.value.0.value.end <= |u|
    ensures r.Some? && r.value.1.Some? ==> z <= r.value.1.value.start < r.value.1.value.end <= |u|
  {
    if z == |u| then Some((None, None))
    else
      var b := RunEnd(u, z, Blank);
      if b + 1 == |u| && u[b] == 'Z' then Some((None, None))
      else if b < |u| && (u[b] == '-' || u[b] == '+') then
        if b + 2 < |u| && IsDigit(u[b + 1]) && IsDigit(u[b + 2]) && ZoneMinutes(u, b + 3).Some? then
          Some((Captured(b, b + 3), ZoneMinutes(u, b + 3).value))
        else if b + 1 < |u| && IsDigit(u[b + 1]) && ZoneMinutes(u, b + 2).Some? then
          Some((Captured(b, b + 2), ZoneMinutes(u, b + 2).value))
        else None
      else None
  }

  /** End of the year `[-+]?[0-9][0-9][0-9][0-9]` when a `-` follows it. */
  function YearEnd(u: string): (y: Option<nat>)
    ensures y.Some? ==> 4 <= y.value < |u| && u[y.value] == '-'
  {
    var s := SignEnd(u);
    if s + 4 < |u| && IsDigit(u[s]) && IsDigit(u[s + 1]) && IsDigit(u[s + 2]) && IsDigit(u[s + 3]) && u[s + 4] == '-'
    then Some(s + 4) else None
  }

  /** The timestamp pattern. The date-only alternative
      `^([-+]?[0-9][0-9][0-9][0-9])-([0-9][0-9]?)-([0-9][0-9]?)$` sets groups 1 to 3; the full one
      (year, month, day, `(?:[Tt]|[ \t]+)`, hour `([0-9][0-9]?)`, `:`minute, `:`second, fraction
      `(\.[0-9]*)?`, then the time zone) sets groups 4 to 12. */
  function TimestampMatch(u: string): (r: Option<Captures>)
    ensures r.Some? ==> Fits(r.value, |u|)
  {
    match YearEnd(u)
    case None => None
    case Some(y) =>
      match DigitsBefore(u, y + 1, '-')
      case None => None
      case Some(m) =>
        var d := m + 1;
        if (|u| == d + 1 && IsDigit(u[d])) || (|u| == d + 2 && IsDigit(u[d]) && IsDigit(u[d + 1])) then
          Some([Captured(0, y), Captured(y + 1, m), Captured(d, |u|)])
        else match DayBeforeTime(u, d)
          case None => None
          case Some(de) => DateTimeMatch(u, y, m, d, de)
  }

  /** The full alternative of the timestamp pattern once the date is read: `de` is the separator
      after the day, which starts at `d`. */
  function DateTimeMatch(u: string, y: nat, m: nat, d: nat, de: nat): (r: Option<Captures>)
    requires 0 < y && y + 1 < m < d < de < |u|
    ensures r.Some? ==> Fits(r.value, |u|)
  {
    var t := if u[de] == 'T' || u[de] == 't' then de + 1 else RunEnd(u, de, Blank);
    match DigitsBefore(u, t, ':')
    case None => None
    case Some(he) =>
      if he + 5 < |u| && IsDigit(u[he + 1]) && IsDigit(u[he + 2]) && u[he + 3] == ':'
         && IsDigit(u[he + 4]) && IsDigit(u[he + 5]) then
        var se := he + 6;
        var fe := if se < |u| && u[se] == '.' then RunEnd(u, se + 1, Digit) else se;
        match Zone(u, fe)
        case None => None
        case Some((zh, zm)) =>
          Some([None, None, None, Captured(0, y), Captured(y + 1, m), Captured(d, de),
                Captured(t, he), Captured(he + 1, he + 3), Captured(he + 4, he + 6),
                Captured(se, fe), zh, zm])
      else None
  }

  /** `pcre_exec` of a built-in pattern on a scalar text. */
  function Match(p: Pattern, text: string): (r: Option<Captures>)
    ensures r.Some? ==> Fits(r.value, |text|)
  {
    var u := Subject(text);
    match p
    case NullPattern => NullMatch(u)
    case TruePattern => TrueMatch(u)
    case FalsePattern => FalseMatch(u)
    case IntPattern => IntMatch(u)
    case FloatPattern => FloatMatch(u)
    case TimestampPattern => TimestampMatch(u)
  }
}
