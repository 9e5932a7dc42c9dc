/** Scalar resolution, `_build_scalar`: an explicit tag picks its builder by name; an untagged
    scalar goes to the first builder, in registry order, whose resolver accepts the text; a scalar
    no builder accepts stays a string. */
module Resolve {
  import opened Outcome
  import opened Values
  import opened Text
  import opened Patterns
  import opened Python
  import opened Registry
  import Scalars
  import Timestamps

  /** What a builder's match leaves for its constructor: the groups of its C pattern, or the
      match object its Python resolver returned. */
  datatype Hit = Hit(caps: Option<Captures>, pyMatch: Option<PyRef>)

  /** The builder at `index` accepted the text. */
  datatype Found = Found(index: nat, hit: Hit)

  /** `_match_builder`: a Python resolver, when the builder has one, decides (and may raise); else
      the C pattern decides; a builder with neither never accepts. Ok(None) is a refusal. */
  function MatchBuilder(host: Host, b: Builder, text: string): (r: Result<Option<Hit>>)
    ensures r.Ok? && r.value.Some? ==> CapturesOf(b, text, r.value.value.caps)
  {
    if b.pyResolver.Some? then
      match host.resolverMatch(b.pyResolver.value, CStr(text))
      case Err(e) => Err(e)
      case Ok(None) => Ok(None)
      case Ok(Some(m)) => Ok(Some(Hit(None, Some(m))))
    else if b.cResolver.Some? then
      match Match(b.cResolver.value, text)
      case None => Ok(None)
      case Some(caps) => Ok(Some(Hit(Some(caps), None)))
    else Ok(None)
  }

  /** The groups a constructor receives: none, or those the builder's own pattern captured. */
  predicate CapturesOf(b: Builder, text: string, caps: Option<Captures>) {
    caps.None? || (b.cResolver.Some? && caps == Match(b.cResolver.value, text))
  }

  /** Every builder from `from` up to `to` refuses the text. */
  predicate RefuseAll(host: Host, bs: seq<Builder>, text: string, from: nat, to: nat)
    requires to <= |bs|
  {
    forall j :: from <= j < to ==> MatchBuilder(host, bs[j], text) == Ok(None)
  }

  /** The loop of `_build_scalar` over the builders from `from` on: the first builder that
      accepts the text, every one before it having refused; None when all refuse; the exception
      of the first resolver that raises. */
  function Scan(host: Host, bs: seq<Builder>, text: string, from: nat): (r: Result<Option<Found>>)
    requires from <= |bs|
    ensures r.Ok? && r.value.Some? ==>
      var f := r.value.value;
      && from <= f.index < |bs|
      && MatchBuilder(host, bs[f.index], text) == Ok(Some(f.hit))
      && RefuseAll(host, bs, text, from, f.index)
    ensures r == Ok(None) <==> RefuseAll(host, bs, text, from, |bs|)
    ensures r.Err? ==> exists k :: from <= k < |bs| && MatchBuilder(host, bs[k], text) == Err(r.error)
                                  && RefuseAll(host, bs, text, from, k)
    decreases |bs| - from
  {
    if from == |bs| then Ok(None)
    else
      var m := MatchBuilder(host, bs[from], text);
      match m
      case Err(e) => Err(e)
      case Ok(Some(h)) => Ok(Some(Found(from, h)))
      case Ok(None) => Scan(host, bs, text, from + 1)
  }

  /** The groups `_to_int`, `_to_float` and `_to_timestamp` read. Groups handed on from the scan
      are read as they are. With none (`ncaptures` is -1 after an explicit tag) the constructor
      matches again through `_match_builder`, which asks the builder's Python resolver first:
      its refusal is None, its exception is passed on, and its acceptance sets no group. */
  function Regrouped(host: Host, b: Builder, text: string, caps: Option<Captures>): (r: Result<Option<Captures>>)
    requires caps.Some? ==> Fits(caps.value, |text|)
    ensures r.Ok? && r.value.Some? ==> Fits(r.value.value, |text|)
    ensures caps.Some? ==> r == Ok(caps)
    ensures caps.None? && r.Ok? <==> caps.None? && MatchBuilder(host, b, text).Ok?
    ensures caps.None? && r == Ok(None) <==> caps.None? && MatchBuilder(host, b, text) == Ok(None)
    ensures caps.None? && b.pyResolver.Some? && r.Ok? && r.value.Some? ==> r.value.value == []
  {
    if caps.Some? then Ok(caps)
    else match MatchBuilder(host, b, text)
      case Err(e) => Err(e)
      case Ok(None) => Ok(None)
      case Ok(Some(h)) => Ok(Some(if h.caps.Some? then h.caps.value else []))
  }

  /** The C constructor `k` of the builder `b` on the text, given the groups its builder's
      pattern captured (None when the constructor has to match again). The float and binary
      constructors hand the text to Python. */
  function CConstruct(host: Host, b: Builder, k: CConstructor, text: string, caps: Option<Captures>): (r: Result<Value>)
    requires caps.Some? ==> Fits(caps.value, |text|)
    ensures k == ToNull ==> r == Ok(Null)
    ensures k == ToTrue || k == ToFalse ==> r == Ok(Bool(k == ToTrue))
    ensures k == ToBool && r.Ok? ==> r.value.Bool?
    ensures k == ToInt && r.Ok? ==> r.value.Int?
    ensures k == ToTimestamp && r.Ok? ==> r.value.Date? || r.value.DateTime?
    ensures k == ToStr ==> r.Ok? && r.value.Str? && NUL !in r.value.s
    ensures (k == ToInt || k == ToTimestamp) && caps.None? && MatchBuilder(host, b, text) == Ok(None) ==>
              r == Err(if k == ToInt then WrongIntFormat else WrongTimestampFormat)
    ensures k == ToInt && caps.None? && b.pyResolver.Some? && MatchBuilder(host, b, text).Ok? && MatchBuilder(host, b, text).value.Some? ==>
              r == Scalars.PrefixedValue(text + [NUL], |text|)
  {
    match k
    case ToNull => Ok(Null)
    case ToBool => Scalars.ToBool(text)
    case ToTrue => Ok(Bool(true))
    case ToFalse => Ok(Bool(false))
    case ToInt =>
      (match Regrouped(host, b, text, caps)
       case Err(e) => Err(e)
       case Ok(None) => Err(WrongIntFormat)
       case Ok(Some(groups)) => Scalars.IntFromCaptures(text, groups))
    case ToFloat =>
      (match Regrouped(host, b, text, caps)
       case Err(e) => Err(e)
       case Ok(_) => host.floatOf(text))
    case ToTimestamp =>
      (match Regrouped(host, b, text, caps)
       case Err(e) => Err(e)
       case Ok(None) => Err(WrongTimestampFormat)
       case Ok(Some(groups)) => Timestamps.TimestampFromCaptures(text, groups))
    case ToStr => Ok(Scalars.ToStr(text))
    case ToBinary => host.decodeBase64(text)
  }

  /** A builder whose only matcher is its own C pattern, as every built-in one is, runs `_to_int`
      and `_to_timestamp` on the groups of that pattern, found again when none were handed on. */
  lemma PatternOnlyConstructors(host: Host, b: Builder, text: string, caps: Option<Captures>)
    requires b.pyResolver.None?
    requires caps.Some? ==> Fits(caps.value, |text|)
    ensures b.cResolver == Some(IntPattern) && (caps.None? || caps == Match(IntPattern, text)) ==>
              CConstruct(host, b, ToInt, text, caps) == Scalars.IntValue(text)
    ensures b.cResolver == Some(TimestampPattern) ==>
              CConstruct(host, b, ToTimestamp, text, caps) == Timestamps.ToTimestamp(text, caps)
  {
  }

  /** A C int builder (the built-in one, by `Registry.ImplicitIntBuilder`) once a Python
      resolver `R` is registered for its tag, under an explicit `!!int` tag: `R` is asked first
      and decides. Its refusal is the wrong-format error, even for a text the int pattern reads;
      its exception propagates; its acceptance sets no group, so the whole text loses its
      separators and is read by its prefix. */
  lemma ExplicitIntAsksPythonResolver(host: Host, bs: seq<Builder>, R: PyRef, text: string)
    requires FindTag(bs, TagInt).Some?
    requires var b := bs[FindTag(bs, TagInt).value];
      b.pyConstructor.None? && b.cConstructor == Some(ToInt)
    ensures var rs := Registered(bs, TagInt, Some(R), None);
      var m := host.resolverMatch(R, CStr(text));
      && (m == Ok(None) ==> BuildScalar(host, rs, text, Some(TagInt)) == Err(WrongIntFormat))
      && (m.Err? ==> BuildScalar(host, rs, text, Some(TagInt)) == Err(m.error))
      && (m.Ok? && m.value.Some? ==>
            BuildScalar(host, rs, text, Some(TagInt)) == Scalars.PrefixedValue(text + [NUL], |text|))
  {
    RegisteredBuilder(bs, TagInt, Some(R), None);
    IntUnderTag(host, Registered(bs, TagInt, Some(R), None), text);
  }

  /** `_to_int` reached through an explicit `!!int` tag: the builder's Python resolver, when it
      has one, decides whether the text is an int; otherwise its pattern does. */
  lemma IntUnderTag(host: Host, bs: seq<Builder>, text: string)
    requires FindTag(bs, TagInt).Some?
    requires var b := bs[FindTag(bs, TagInt).value];
      b.pyConstructor.None? && b.cConstructor == Some(ToInt)
    ensures var b := bs[FindTag(bs, TagInt).value];
      var r := BuildScalar(host, bs, text, Some(TagInt));
      && (b.pyResolver.Some? ==>
            var m := host.resolverMatch(b.pyResolver.value, CStr(text));
            && (m == Ok(None) ==> r == Err(WrongIntFormat))
            && (m.Err? ==> r == Err(m.error))
            && (m.Ok? && m.value.Some? ==> r == Scalars.PrefixedValue(text + [NUL], |text|)))
      && (b.pyResolver.None? && b.cResolver == Some(IntPattern) ==> r == Scalars.IntValue(text))
  {
    var b := bs[FindTag(bs, TagInt).value];
    assert BuildScalar(host, bs, text, Some(TagInt)) == CConstruct(host, b, ToInt, text, None);
    if b.pyResolver.None? && b.cResolver == Some(IntPattern) {
      PatternOnlyConstructors(host, b, text, None);
    }
  }

  /** The constructor call of `_build_scalar`: the Python constructor when the builder has one,
      with the C string and the match object; else the C constructor; else a string. */
  function Construct(host: Host, b: Builder, text: string, hit: Hit): (r: Result<Value>)
    requires hit.caps.Some? ==> Fits(hit.caps.value, |text|)
    ensures b.pyConstructor.None? && b.cConstructor.None? ==> r == Ok(Str(CStr(text)))
    ensures r.Err? ==> b.pyConstructor.Some? || b.cConstructor.Some?
    ensures b.pyConstructor.None? && b.cConstructor.Some? && b.cConstructor.value in {ToNull, ToTrue, ToFalse, ToStr} ==> r.Ok?
  {
    if b.pyConstructor.Some? then host.constructScalar(b.pyConstructor.value, CStr(text), hit.pyMatch)
    else if b.cConstructor.Some? then CConstruct(host, b, b.cConstructor.value, text, hit.caps)
    else Ok(Str(CStr(text)))
  }

  /** `_build_scalar` on the registry `bs`. */
  function BuildScalar(host: Host, bs: seq<Builder>, text: string, tag: Option<string>): (r: Result<Value>)
    ensures tag.Some? && FindTag(bs, tag.value).None? ==> r == Err(NoConstructorForTag(tag.value))
    ensures tag.None? && Scan(host, bs, text, 0) == Ok(None) ==> r == Ok(Str(CStr(text)))
  {
    match tag
    case Some(t) =>
      (match FindTag(bs, t)
       case None => Err(NoConstructorForTag(t))
       case Some(i) => Construct(host, bs[i], text, Hit(None, None)))
    case None =>
      match Scan(host, bs, text, 0)
      case Err(e) => Err(e)
      case Ok(None) => Ok(Str(CStr(text)))
      case Ok(Some(f)) => Construct(host, bs[f.index], text, f.hit)
  }

  /** A scalar with an explicit tag is built by the first builder with that tag, handed no groups,
      and no other builder is consulted: two registries that agree on where that builder is and
      what it holds build it alike. Only that builder's own Python resolver can be asked, when
      its constructor matches again: two hosts that differ only in their resolvers build it
      alike when it has none. */
  lemma ExplicitTagIgnoresResolvers(host: Host, other: Host, bs: seq<Builder>, bs': seq<Builder>, text: string, tag: string)
    requires other == host.(resolverMatch := other.resolverMatch)
    ensures FindTag(bs, tag).Some? ==>
      BuildScalar(host, bs, text, Some(tag)) == Construct(host, bs[FindTag(bs, tag).value], text, Hit(None, None))
    ensures FindTag(bs, tag).Some? && FindTag(bs', tag) == FindTag(bs, tag) && bs'[FindTag(bs, tag).value] == bs[FindTag(bs, tag).value] ==>
      BuildScalar(host, bs', text, Some(tag)) == BuildScalar(host, bs, text, Some(tag))
    ensures FindTag(bs, tag).None? || bs[FindTag(bs, tag).value].pyResolver.None? ==>
      BuildScalar(host, bs, text, Some(tag)) == BuildScalar(other, bs, text, Some(tag))
  {
  }

  /** A builder with neither a Python resolver nor a C pattern is never chosen for an untagged
      scalar: in the built-in registry these are the bool, str and binary builders. */
  lemma ScanSkipsExplicitOnly(host: Host, bs: seq<Builder>, text: string)
    ensures Scan(host, bs, text, 0).Ok? && Scan(host, bs, text, 0).value.Some? ==>
      var b := bs[Scan(host, bs, text, 0).value.value.index];
      b.pyResolver.Some? || b.cResolver.Some?
  {
  }

  /** Scanning a list with one more builder at the end: the same outcome wherever the shorter
      list had one; the new builder is asked only when all the others refused. */
  lemma {:induction false} ScanAppend(host: Host, bs: seq<Builder>, b: Builder, text: string, from: nat)
    requires from <= |bs|
    ensures Scan(host, bs + [b], text, from) ==
      match Scan(host, bs, text, from)
      case Ok(None) =>
        (match MatchBuilder(host, b, text)
         case Err(e) => Err(e)
         case Ok(None) => Ok(None)
         case Ok(Some(h)) => Ok(Some(Found(|bs|, h))))
      case other => other
    decreases |bs| - from
  {
    var longer := bs + [b];
    if from == |bs| {
      assert longer[from] == b;
      assert Scan(host, longer, text, from + 1) == Ok(None);
    } else {
      assert longer[from] == bs[from];
      ScanAppend(host, bs, b, text, from + 1);
    }
  }

  /** Registering a tag the registry does not have never changes how an untagged scalar that
      some existing builder accepts is resolved: the new builder goes last. */
  lemma NewTagNeverShadows(host: Host, bs: seq<Builder>, text: string, tag: string, resolver: Option<PyRef>, ctor: Option<PyRef>)
    requires WellFormed(bs) && FindTag(bs, tag).None?
    requires Scan(host, bs, text, 0) != Ok(None)
    ensures WellFormed(Registered(bs, tag, resolver, ctor))
    ensures BuildScalar(host, Registered(bs, tag, resolver, ctor), text, None) == BuildScalar(host, bs, text, None)
  {
    RegisteredWellFormed(bs, tag, resolver, ctor);
    ScanAppend(host, bs, Builder(tag, None, None, resolver, ctor), text, 0);
    var r := Registered(bs, tag, resolver, ctor);
    match Scan(host, bs, text, 0)
    case Err(_) =>
    case Ok(f) => assert r[f.value.index] == bs[f.value.index];
  }

  /** The loop of `_build_scalar` over the registry: each builder's match in turn, stopping at the
      first that accepts or raises. */
  method FirstAccepting(host: Host, bs: seq<Builder>, text: string) returns (r: Result<Option<Found>>)
    ensures r == Scan(host, bs, text, 0)
  {
    var i := 0;
    while i < |bs|
      invariant i <= |bs|
      invariant Scan(host, bs, text, i) == Scan(host, bs, text, 0)
    {
      var m := MatchBuilder(host, bs[i], text);
      if m.Err? {
        return Err(m.error);
      }
      if m.value.Some? {
        return Ok(Some(Found(i, m.value.value)));
      }
      i := i + 1;
    }
    return Ok(None);
  }

  /** `_build_scalar` step by step: the tag lookup or the scan over the builders, then the
      constructor. The int constructor edits its own copy of the text. */
  method ResolveScalar(host: Host, bs: seq<Builder>, text: string, tag: Option<string>) returns (r: Result<Value>)
    requires WellFormed(bs)
    ensures r == BuildScalar(host, bs, text, tag)
  {
    var index: nat;
    var hit: Hit;
    if tag.Some? {
      var found := FindTag(bs, tag.value);
      if found.None? {
        return Err(NoConstructorForTag(tag.value));
      }
      index, hit := found.value, Hit(None, None);
    } else {
      var accepted := FirstAccepting(host, bs, text);
      if accepted.Err? {
        return Err(accepted.error);
      }
      if accepted.value.None? {
        return Ok(Str(CStr(text)));
      }
      index, hit := accepted.value.value.index, accepted.value.value.hit;
    }
    var b := bs[index];
    if b.pyConstructor.None? && b.cConstructor == Some(ToInt) {
      // `_to_int`: with no groups handed on it matches again through the builder
      var groups := Regrouped(host, b, text, hit.caps);
      if groups.Err? {
        return Err(groups.error);
      }
      if groups.value.None? {
        return Err(WrongIntFormat);
      }
      r := Scalars.ReadInt(text, groups.value.value);
    } else {
      r := Construct(host, b, text, hit);
    }
  }

  /** With the built-in registry an untagged `~`, `null`, `Null`, `NULL` or empty scalar is
      Python's None: the null builder is asked first. */
  lemma BuiltinNullTexts(host: Host, text: string)
    requires text in {"~", "null", "Null", "NULL", ""}
    ensures BuildScalar(host, ImplicitBuilders(), text, None) == Ok(Null)
  {
    var bs := ImplicitBuilders();
    assert Subject(text) == text;
    assert MatchBuilder(host, bs[0], text) == Ok(Some(Hit(Some([]), None)));
    assert Scan(host, bs, text, 0) == Ok(Some(Found(0, Hit(Some([]), None))));
  }

  /** With the built-in registry an untagged yes/true/on text in any of its three spellings is
      True, and a no/false/off text is False: the null builder refuses them, the bool builder has
      no pattern, and the true builder comes before the false one. */
  lemma BuiltinBoolTexts(host: Host, text: string)
    requires text in TrueTexts || text in FalseTexts
    ensures BuildScalar(host, ImplicitBuilders(), text, None) == Ok(Bool(text in TrueTexts))
  {
    if text in TrueTexts {
      BuiltinTrueTexts(host, text);
    } else {
      BuiltinFalseTexts(host, text);
    }
  }

  lemma BuiltinTrueTexts(host: Host, text: string)
    requires text in TrueTexts
    ensures BuildScalar(host, ImplicitBuilders(), text, None) == Ok(Bool(true))
  {
    assert Subject(text) == text;
    NullRefusesBoolTexts(text);
    TrueBuilderReached(host, text);
  }

  lemma BuiltinFalseTexts(host: Host, text: string)
    requires text in FalseTexts
    ensures text !in TrueTexts
    ensures BuildScalar(host, ImplicitBuilders(), text, None) == Ok(Bool(false))
  {
    assert Subject(text) == text;
    NullRefusesBoolTexts(text);
    TrueRefusesFalseTexts(text);
    FalseBuilderReached(host, text);
  }

  /** The first four built-in builders, null, bool, true and false, decide by their own
      patterns alone; the bool builder has none and never accepts. */
  lemma LeadingBuiltinMatches(host: Host, text: string)
    ensures MatchBuilder(host, ImplicitBuilders()[0], text) == Accepted(NullMatch(Subject(text)))
    ensures MatchBuilder(host, ImplicitBuilders()[1], text) == Ok(None)
    ensures MatchBuilder(host, ImplicitBuilders()[2], text) == Accepted(TrueMatch(Subject(text)))
    ensures MatchBuilder(host, ImplicitBuilders()[3], text) == Accepted(FalseMatch(Subject(text)))
  {
    var bs := ImplicitBuilders();
    assert bs[0] == Builder(TagNull, Some(NullPattern), Some(ToNull), None, None);
    assert bs[1] == Builder(TagBool, None, Some(ToBool), None, None);
    assert bs[2] == Builder(TagTrue, Some(TruePattern), Some(ToTrue), None, None);
    assert bs[3] == Builder(TagFalse, Some(FalsePattern), Some(ToFalse), None, None);
  }

  /** A C pattern's answer as a builder match. */
  function Accepted(caps: Option<Captures>): Result<Option<Hit>> {
    if caps.None? then Ok(None) else Ok(Some(Hit(caps, None)))
  }

  /** A text the null pattern refuses and the true pattern accepts is built by the true builder. */
  lemma TrueBuilderReached(host: Host, text: string)
    requires Subject(text) == text && NullMatch(text).None? && TrueMatch(text).Some?
    ensures BuildScalar(host, ImplicitBuilders(), text, None) == Ok(Bool(true))
  {
    var bs := ImplicitBuilders();
    var hit := Hit(TrueMatch(text), None);
    LeadingBuiltinMatches(host, text);
    assert Scan(host, bs, text, 0) == Ok(Some(Found(2, hit)));
    assert bs[2] == CBuilder(TagTrue, ToTrue);
  }

  /** A text the null and true patterns refuse and the false pattern accepts is built by the
      false builder. */
  lemma FalseBuilderReached(host: Host, text: string)
    requires Subject(text) == text && NullMatch(text).None? && TrueMatch(text).None? && FalseMatch(text).Some?
    ensures BuildScalar(host, ImplicitBuilders(), text, None) == Ok(Bool(false))
  {
    var bs := ImplicitBuilders();
    var hit := Hit(FalseMatch(text), None);
    LeadingBuiltinMatches(host, text);
    assert Scan(host, bs, text, 0) == Ok(Some(Found(3, hit)));
    assert bs[3] == CBuilder(TagFalse, ToFalse);
  }

  lemma NullRefusesBoolTexts(text: string)
    requires text in TrueTexts || text in FalseTexts
    ensures NullMatch(text) == None
  {
    assert |text| >= 2;
    if |text| == 4 {
      assert text[0] != 'n' && text[0] != 'N';
    }
  }

  lemma TrueRefusesFalseTexts(text: string)
    requires text in FalseTexts
    ensures TrueMatch(text) == None
  {
    assert text[0] in {'n', 'N', 'f', 'F', 'o', 'O'};
    if text[0] in {'o', 'O'} {
      assert |text| == 3;
    }
  }
}
