/** The builder registry: the ordered list of builders the loader consults, tag by tag, to turn a
    scalar or a custom collection into a Python value. It starts as the built-in builders of the
    core schema and grows or changes as Python code registers constructors and resolvers. */
module Registry {
  import opened Outcome
  import opened Patterns
  import opened Python

  const TagMap: string := "tag:yaml.org,2002:map"
  const TagSet: string := "tag:yaml.org,2002:set"
  const TagSeq: string := "tag:yaml.org,2002:seq"
  const TagPairs: string := "tag:yaml.org,2002:pairs"

  const TagNull: string := "tag:yaml.org,2002:null"
  const TagBool: string := "tag:yaml.org,2002:bool"
  const TagTrue: string := "tag:yaml.org,2002:true"
  const TagFalse: string := "tag:yaml.org,2002:false"
  const TagInt: string := "tag:yaml.org,2002:int"
  const TagFloat: string := "tag:yaml.org,2002:float"
  const TagStr: string := "tag:yaml.org,2002:str"
  const TagTimestamp: string := "tag:yaml.org,2002:timestamp"
  const TagBinary: string := "tag:yaml.org,2002:binary"

  /** The C constructors of the built-in builders. */
  datatype CConstructor = ToNull | ToBool | ToTrue | ToFalse | ToInt | ToFloat | ToTimestamp | ToStr | ToBinary

  /** One entry of the list: its tag, the compiled pattern and the C constructor of a built-in
      builder, and the Python resolver and constructor registered for the tag. */
  datatype Builder = Builder(
    tag: string,
    cResolver: Option<Pattern>,
    cConstructor: Option<CConstructor>,
    pyResolver: Option<PyRef>,
    pyConstructor: Option<PyRef>)

  /** The pattern `_init_implicit_builders` compiles for the builder of each C constructor; the
      bool, str and binary builders have none, so only an explicit tag reaches them. */
  function PatternOf(k: CConstructor): Option<Pattern> {
    match k
    case ToNull => Some(NullPattern)
    case ToTrue => Some(TruePattern)
    case ToFalse => Some(FalsePattern)
    case ToInt => Some(IntPattern)
    case ToFloat => Some(FloatPattern)
    case ToTimestamp => Some(TimestampPattern)
    case _ => None
  }

  /** `_new_c_builder`: a built-in builder, with no Python resolver or constructor yet. */
  function CBuilder(tag: string, k: CConstructor): (b: Builder)
    ensures b.tag == tag && b.cConstructor == Some(k) && b.pyResolver.None? && b.pyConstructor.None?
  {
    Builder(tag, PatternOf(k), Some(k), None, None)
  }

  /** `_init_implicit_builders`: the built-in builders in the order resolution tries them. */
  function ImplicitBuilders(): (bs: seq<Builder>)
    ensures |bs| == 9
    ensures forall i :: 0 <= i < |bs| ==> bs[i].cConstructor.Some? && bs[i].pyResolver.None? && bs[i].pyConstructor.None?
  {
    [CBuilder(TagNull, ToNull), CBuilder(TagBool, ToBool), CBuilder(TagTrue, ToTrue),
     CBuilder(TagFalse, ToFalse), CBuilder(TagInt, ToInt), CBuilder(TagFloat, ToFloat),
     CBuilder(TagTimestamp, ToTimestamp), CBuilder(TagStr, ToStr), CBuilder(TagBinary, ToBinary)]
  }

  function Tags(bs: seq<Builder>): (ts: seq<string>)
    ensures |ts| == |bs| && forall i :: 0 <= i < |bs| ==> ts[i] == bs[i].tag
  {
    seq(|bs|, i requires 0 <= i < |bs| => bs[i].tag)
  }

  /** No two builders share a tag. */
  predicate UniqueTags(bs: seq<Builder>) {
    forall i, j :: 0 <= i < j < |bs| ==> bs[i].tag != bs[j].tag
  }

  /** A builder with a C constructor has the pattern compiled for it, and only such a builder has a pattern. */
  predicate CFieldsAgree(b: Builder) {
    (b.cConstructor.Some? ==> b.cResolver == PatternOf(b.cConstructor.value))
    && (b.cResolver.Some? ==> b.cConstructor.Some?)
  }

  /** What the registry keeps true of its list. */
  predicate WellFormed(bs: seq<Builder>) {
    UniqueTags(bs) && forall i :: 0 <= i < |bs| ==> CFieldsAgree(bs[i])
  }

  /** `_match_tag`: the first builder whose tag is `tag`. */
  function FindTag(bs: seq<Builder>, tag: string): (r: Option<nat>)
    ensures r.Some? ==> r.value < |bs| && bs[r.value].tag == tag
    ensures r.Some? ==> forall j :: 0 <= j < r.value ==> bs[j].tag != tag
    ensures r.None? ==> forall j :: 0 <= j < |bs| ==> bs[j].tag != tag
  {
    if bs == [] then None
    else if bs[0].tag == tag then Some(0)
    else match FindTag(bs[1..], tag)
      case None => None
      case Some(i) => Some(i + 1)
  }

  /** The builder `b` once `resolver` and `ctor` are registered for its tag: each one
      supplied replaces the one the builder had; one not supplied leaves it alone. */
  function Updated(b: Builder, resolver: Option<PyRef>, ctor: Option<PyRef>): (u: Builder)
    ensures u.tag == b.tag && u.cResolver == b.cResolver && u.cConstructor == b.cConstructor
    ensures u.pyResolver == if resolver.Some? then resolver else b.pyResolver
    ensures u.pyConstructor == if ctor.Some? then ctor else b.pyConstructor
  {
    Builder(b.tag, b.cResolver, b.cConstructor,
            if resolver.Some? then resolver else b.pyResolver,
            if ctor.Some? then ctor else b.pyConstructor)
  }

  /** `_add_resolver_constructor`: the builder with the tag is updated in place; a tag not in the
      list gets a new Python builder at the end. */
  function Registered(bs: seq<Builder>, tag: string, resolver: Option<PyRef>, ctor: Option<PyRef>): (r: seq<Builder>)
    ensures |r| == if FindTag(bs, tag).Some? then |bs| else |bs| + 1
    ensures FindTag(bs, tag).None? ==> r[..|bs|] == bs && r[|bs|].tag == tag
  {
    match FindTag(bs, tag)
    case Some(i) => bs[i := Updated(bs[i], resolver, ctor)]
    case None => bs + [Builder(tag, None, None, resolver, ctor)]
  }

  /** Registering never reorders: every builder keeps its place and, unless it has the tag, its
      contents; the tag's builder is where it was, or new and last. */
  lemma RegisteredKeepsOrder(bs: seq<Builder>, tag: string, resolver: Option<PyRef>, ctor: Option<PyRef>)
    ensures var r := Registered(bs, tag, resolver, ctor);
      Tags(r) == if FindTag(bs, tag).Some? then Tags(bs) else Tags(bs) + [tag]
    ensures var r := Registered(bs, tag, resolver, ctor);
      forall i :: 0 <= i < |bs| && bs[i].tag != tag ==> r[i] == bs[i]
    ensures var r := Registered(bs, tag, resolver, ctor);
      FindTag(r, tag) == Some(if FindTag(bs, tag).Some? then FindTag(bs, tag).value else |bs|)
  {
    var r := Registered(bs, tag, resolver, ctor);
    var k := if FindTag(bs, tag).Some? then FindTag(bs, tag).value else |bs|;
    if FindTag(bs, tag).None? {
      assert Tags(r) == Tags(bs) + [tag];
    } else {
      assert Tags(r) == Tags(bs);
    }
    assert k < |r| && r[k].tag == tag && forall j :: 0 <= j < k ==> r[j].tag != tag;
    FindTagFirst(r, tag, k);
  }

  /** The built-in int builder is the fifth, the only one with its tag. */
  lemma ImplicitIntBuilder()
    ensures FindTag(ImplicitBuilders(), TagInt) == Some(4)
    ensures ImplicitBuilders()[4] == CBuilder(TagInt, ToInt)
    ensures ImplicitBuilders()[4].cResolver == Some(IntPattern)
  {
    var bs := ImplicitBuilders();
    ImplicitBuildersWellFormed();
    assert bs[4] == CBuilder(TagInt, ToInt);
    assert forall j :: 0 <= j < 4 ==> bs[j].tag != bs[4].tag;
    FindTagFirst(bs, TagInt, 4);
  }

  /** The first builder with the tag is the one `FindTag` finds. */
  lemma FindTagFirst(bs: seq<Builder>, tag: string, k: nat)
    requires k < |bs| && bs[k].tag == tag && forall j :: 0 <= j < k ==> bs[j].tag != tag
    ensures FindTag(bs, tag) == Some(k)
  {
  }

  /** The registered builder has the supplied resolver and constructor and keeps what was not
      supplied, the C pattern and constructor included. */
  lemma RegisteredBuilder(bs: seq<Builder>, tag: string, resolver: Option<PyRef>, ctor: Option<PyRef>)
    ensures var r := Registered(bs, tag, resolver, ctor);
      FindTag(r, tag).Some? &&
      var b := r[FindTag(r, tag).value];
      && b.pyResolver == (if resolver.Some? then resolver else if FindTag(bs, tag).Some? then bs[FindTag(bs, tag).value].pyResolver else None)
      && b.pyConstructor == (if ctor.Some? then ctor else if FindTag(bs, tag).Some? then bs[FindTag(bs, tag).value].pyConstructor else None)
      && b.cConstructor == (if FindTag(bs, tag).Some? then bs[FindTag(bs, tag).value].cConstructor else None)
  {
    RegisteredKeepsOrder(bs, tag, resolver, ctor);
  }

  /** Registration keeps the list well formed. */
  lemma RegisteredWellFormed(bs: seq<Builder>, tag: string, resolver: Option<PyRef>, ctor: Option<PyRef>)
    requires WellFormed(bs)
    ensures WellFormed(Registered(bs, tag, resolver, ctor))
  {
    var r := Registered(bs, tag, resolver, ctor);
    RegisteredKeepsOrder(bs, tag, resolver, ctor);
    assert forall i :: 0 <= i < |r| ==> r[i].tag == Tags(r)[i];
    assert forall i :: 0 <= i < |bs| ==> bs[i].tag == Tags(bs)[i];
  }

  /** The built-in builders are well formed, in the order null, bool, true, false, int, float,
      timestamp, str, binary. */
  lemma ImplicitBuildersWellFormed()
    ensures WellFormed(ImplicitBuilders())
    ensures Tags(ImplicitBuilders()) == [TagNull, TagBool, TagTrue, TagFalse, TagInt, TagFloat, TagTimestamp, TagStr, TagBinary]
  {
    var bs := ImplicitBuilders();
    // the tags share the prefix `tag:yaml.org,2002:` and differ in length or in the two characters after it
    assert |TagNull| == 22 && TagNull[18] == 'n';
    assert |TagBool| == 22 && TagBool[18] == 'b';
    assert |TagTrue| == 22 && TagTrue[18] == 't';
    assert |TagFalse| == 23 && TagFalse[19] == 'a';
    assert |TagInt| == 21 && TagInt[18] == 'i';
    assert |TagFloat| == 23 && TagFloat[19] == 'l';
    assert |TagTimestamp| == 27;
    assert |TagStr| == 21 && TagStr[18] == 's';
    assert |TagBinary| == 24;
    assert Tags(bs) == [TagNull, TagBool, TagTrue, TagFalse, TagInt, TagFloat, TagTimestamp, TagStr, TagBinary];
  }

  /** The registry `implicitBuilders`, shared by every loader. */
  class BuilderList {
    var builders: seq<Builder>

    /** The list is well formed. */
    ghost predicate Valid()
      reads this
    {
      WellFormed(builders)
    }

    /** `_init_implicit_builders`. */
    constructor ()
      ensures Valid() && builders == ImplicitBuilders()
    {
      builders := ImplicitBuilders();
      ImplicitBuildersWellFormed();
    }

    /** `_add_resolver_constructor`: walks the list for the tag, updates that builder and stops;
        at the end of the list it appends a new builder. */
    method AddResolverConstructor(tag: string, resolver: Option<PyRef>, ctor: Option<PyRef>)
      requires Valid()
      modifies this
      ensures Valid() && builders == Registered(old(builders), tag, resolver, ctor)
    {
      RegisteredWellFormed(builders, tag, resolver, ctor);
      var i := 0;
      while i < |builders|
        invariant i <= |builders| && builders == old(builders)
        invariant forall j :: 0 <= j < i ==> builders[j].tag != tag
      {
        if builders[i].tag == tag {
          builders := builders[i := Updated(builders[i], resolver, ctor)];
          return;
        }
        i := i + 1;
      }
      builders := builders + [Builder(tag, None, None, resolver, ctor)];
    }

    /** `add_constructor`: a constructor Python cannot call is refused and nothing changes. */
    method AddConstructor(host: Host, tag: string, ctor: PyRef) returns (r: Result<()>)
      requires Valid()
      modifies this
      ensures Valid()
      ensures !host.isCallable(ctor) ==> r == Err(ConstructorNotCallable) && builders == old(builders)
      ensures host.isCallable(ctor) ==> r.Ok? && builders == Registered(old(builders), tag, None, Some(ctor))
    {
      if !host.isCallable(ctor) {
        return Err(ConstructorNotCallable);
      }
      AddResolverConstructor(tag, None, Some(ctor));
      r := Ok(());
    }

    /** `add_implicit_resolver`: a resolver without a `match` method is refused and nothing changes. */
    method AddResolver(host: Host, tag: string, resolver: PyRef) returns (r: Result<()>)
      requires Valid()
      modifies this
      ensures Valid()
      ensures !host.hasMatch(resolver) ==> r == Err(ResolverWithoutMatch) && builders == old(builders)
      ensures host.hasMatch(resolver) ==> r.Ok? && builders == Registered(old(builders), tag, Some(resolver), None)
    {
      if !host.hasMatch(resolver) {
        return Err(ResolverWithoutMatch);
      }
      AddResolverConstructor(tag, Some(resolver), None);
      r := Ok(());
    }
  }
}
