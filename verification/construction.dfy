/** The value tree a document's events build, as functions of the event list and a position in
    it: `_build_value` and the collection builders it recurses into, the alias table, and the
    document and stream functions of the loader. The loader's methods are proved to compute
    exactly these. */
module Construction {
  import opened Outcome
  import opened Values
  import opened Text
  import opened Python
  import opened Registry
  import opened Events

  /** What document construction reads but never changes: the Python side, the registry, and
      `_build_scalar` on that registry, which turns a scalar's text and tag into its value. */
  datatype Ctx = Ctx(host: Host, builders: seq<Builder>, scalar: (string, Option<string>) -> Result<Value>)

  /** The per-document anchor dictionary. */
  type Aliases = map<string, Value>

  /** A node built from the events before `next`, and the anchors bound once it is done. */
  datatype Built = Built(value: Value, next: nat, aliases: Aliases)

  /** A document's value and the position after its end. */
  datatype Loaded = Loaded(value: Value, next: nat)

  // ---------------------------------------------------------------- alias table

  /** `_save_alias`: a node without an anchor leaves the table alone; with one, the anchor is
      bound to the node's value, replacing an earlier binding of the same name. */
  function SaveAlias(aliases: Aliases, anchor: Option<string>, v: Value): (r: Aliases)
    ensures anchor.Some? ==> LoadAlias(r, anchor.value) == Ok(v)
    ensures forall a :: anchor != Some(a) ==> LoadAlias(r, a) == LoadAlias(aliases, a)
  {
    if anchor.None? then aliases else aliases[anchor.value := v]
  }

  /** `_load_alias`: the value bound to the anchor, or an error naming it. */
  function LoadAlias(aliases: Aliases, anchor: string): (r: Result<Value>)
    ensures r.Ok? <==> anchor in aliases
    ensures r.Err? ==> r.error == UnknownAlias(anchor)
  {
    if anchor in aliases then Ok(aliases[anchor]) else Err(UnknownAlias(anchor))
  }

  /** The anchor bound last is the one an alias sees. */
  lemma RebindingWins(aliases: Aliases, anchor: string, first: Value, second: Value)
    ensures LoadAlias(SaveAlias(SaveAlias(aliases, Some(anchor), first), Some(anchor), second), anchor) == Ok(second)
  {
  }

  // ---------------------------------------------------------------- mapping keys

  /** `_is_key_merge`: a string whose C string is exactly `<<`, so what follows a NUL after the
      two angle brackets does not count. */
  predicate IsKeyMerge(k: Value)
    ensures IsKeyMerge(k) <==>
      k.Str? && |k.s| >= 2 && k.s[0] == '<' && k.s[1] == '<' && (|k.s| == 2 || k.s[2] == NUL)
  {
    k.Str? && CStr(k.s) == "<<"
  }

  /** `<<` followed by a NUL is a merge key, as the C comparison sees it; `<<<` is not. */
  lemma KeyMergeExamples()
    ensures IsKeyMerge(Str("<<\0x")) && IsKeyMerge(Str("<<"))
    ensures !IsKeyMerge(Str("<<<")) && !IsKeyMerge(Str("<"))
  {
  }

  /** `dst` starts with the keys of `src`, each still holding its value. */
  ghost predicate KeepsEntries(src: seq<Entry>, dst: seq<Entry>) {
    forall k :: HasKey(src, k) ==> Lookup(dst, k) == Lookup(src, k)
  }

  /** The pair-handling step of `_build_map`: under `<<` the value is merged without override,
      a dict directly and a list element by element; any other key is stored with `PyDict_SetItem`. */
  function Insert(entries: seq<Entry>, k: Value, v: Value): (r: Result<seq<Entry>>)
    ensures !IsKeyMerge(k) && !Hashable(k) ==> r == Err(UnhashableKey)
    ensures !IsKeyMerge(k) && Hashable(k) ==>
              && r.Ok? && Lookup(r.value, k) == Some(v)
              && forall k' :: !SameKey(k', k) ==> Lookup(r.value, k') == Lookup(entries, k')
    ensures IsKeyMerge(k) && !(v.Seq? || v.Pairs? || v.Mapping?) ==> r == Err(DictionaryOrListAwaited)
    ensures IsKeyMerge(k) && v.Mapping? ==>
              && r.Ok? && KeepsEntries(entries, r.value)
              && forall k' :: !HasKey(entries, k') ==> Lookup(r.value, k') == Lookup(v.entries, k')
    ensures IsKeyMerge(k) && v.Pairs? ==> (r.Ok? <==> v.pairs == [])
    ensures IsKeyMerge(k) && v.Seq? ==> (r.Ok? <==> forall i :: 0 <= i < |v.items| ==> v.items[i].Mapping?)
    ensures IsKeyMerge(k) && r.Ok? ==> KeepsEntries(entries, r.value)
  {
    if IsKeyMerge(k) then
      match v
      case Seq(items) =>
        var r := MergeEach(entries, items);
        MergeEachKeeps(entries, items);
        r
      case Pairs(ps) => if ps == [] then Ok(entries) else Err(MergeItemNotMapping)
      case Mapping(es) =>
        var r := Merge(entries, es);
        assert forall k' :: Lookup(r, k') == if HasKey(entries, k') then Lookup(entries, k') else Lookup(es, k') by {
          forall k' ensures Lookup(r, k') == if HasKey(entries, k') then Lookup(entries, k') else Lookup(es, k') {
            MergeLookup(entries, es, k');
          }
        }
        Ok(r)
      case _ => Err(DictionaryOrListAwaited)
    else if !Hashable(k) then Err(UnhashableKey)
    else Ok(Put(entries, k, v))
  }

  /** A merge of a list never changes what the target already held. */
  lemma {:induction false} MergeEachKeeps(target: seq<Entry>, items: seq<Value>)
    ensures MergeEach(target, items).Ok? ==> KeepsEntries(target, MergeEach(target, items).value)
    decreases |items|
  {
    if items != [] && items[0].Mapping? {
      var t := Merge(target, items[0].entries);
      MergeEachKeeps(t, items[1..]);
      forall k | HasKey(target, k) ensures HasKey(t, k) && Lookup(t, k) == Lookup(target, k) {
        MergeLookup(target, items[0].entries, k);
      }
    }
  }

  /** A merge of a list keeps a dict's keys unique. */
  lemma {:induction false} MergeEachKeepsKeysUnique(target: seq<Entry>, items: seq<Value>)
    requires UniqueKeys(target)
    ensures MergeEach(target, items).Ok? ==> UniqueKeys(MergeEach(target, items).value)
    decreases |items|
  {
    if items != [] && items[0].Mapping? {
      MergeKeepsKeysUnique(target, items[0].entries);
      MergeEachKeepsKeysUnique(Merge(target, items[0].entries), items[1..]);
    }
  }

  /** Every step of `_build_map` keeps the dict's keys unique. */
  lemma InsertKeepsKeysUnique(entries: seq<Entry>, k: Value, v: Value)
    requires UniqueKeys(entries)
    ensures Insert(entries, k, v).Ok? ==> UniqueKeys(Insert(entries, k, v).value)
  {
    if IsKeyMerge(k) {
      match v
      case Seq(items) => MergeEachKeepsKeysUnique(entries, items);
      case Mapping(es) => MergeKeepsKeysUnique(entries, es);
      case _ =>
    } else if Hashable(k) {
      PutKeepsKeysUnique(entries, k, v);
    }
  }

  /** What the mapping builder returns once the mapping ends: the set of its keys when every
      value read was None (an empty mapping included), the dict otherwise. */
  function Promoted(entries: seq<Entry>, isSet: bool): (r: Value)
    ensures isSet ==> r.Set? && forall k :: k in r.members <==> exists i :: 0 <= i < |entries| && entries[i].key == k
    ensures !isSet ==> r == Mapping(entries)
  {
    if isSet then Set(KeySet(entries)) else Mapping(entries)
  }

  // ---------------------------------------------------------------- nodes

  /** A collection start is built by a loop that may not have consumed anything yet (the
      loader's methods take one step more in between). */
  function Rank(ev: Event): nat {
    if ev.MappingStart? || ev.SequenceStart? then 3 else 0
  }

  /** `_build_value`: the node that `ev`, the event just pulled, begins; the events after it are
      read from `pos` on. A collection with a tag other than the core ones is built as a plain
      one and handed to the constructor registered for its tag; the anchor of any node is bound
      once the node is complete. */
  function BuildValue(c: Ctx, evs: seq<Event>, ev: Event, pos: nat, aliases: Aliases): (r: Result<Built>)
    requires pos <= |evs|
    ensures r.Ok? ==> ev.IsNode() && pos <= r.value.next <= |evs|
    ensures ev.Alias? ==> r == (match LoadAlias(aliases, ev.target)
                                case Ok(v) => Ok(Built(v, pos, aliases))
                                case Err(e) => Err(e))
    ensures !ev.IsNode() ==> r == Err(NodeAwaited)
    decreases |evs| - pos, Rank(ev)
  {
    match ev
    case MappingStart(tag, anchor) =>
      var inner := MapLoop(c, evs, pos, [], None, true, aliases);
      Saved(if tag.None? || tag.value == TagMap || tag.value == TagSet then inner else Custom(c, tag.value, inner), anchor)
    case SequenceStart(tag, anchor) =>
      var inner :=
        if tag.None? || tag.value == TagSeq then SeqLoop(c, evs, pos, [], aliases)
        else if tag.value == TagPairs then PairsLoop(c, evs, pos, [], None, aliases)
        else Custom(c, tag.value, SeqLoop(c, evs, pos, [], aliases));
      Saved(inner, anchor)
    case Scalar(text, tag, anchor) =>
      (match c.scalar(text, tag)
       case Err(e) => Err(e)
       case Ok(v) => Ok(Built(v, pos, SaveAlias(aliases, anchor, v))))
    case Alias(a) =>
      (match LoadAlias(aliases, a)
       case Ok(v) => Ok(Built(v, pos, aliases))
       case Err(e) => Err(e))
    case _ => Err(NodeAwaited)
  }

  /** A node's anchor bound to it once it is complete. */
  function Saved(r: Result<Built>, anchor: Option<string>): (s: Result<Built>)
    ensures s.Ok? <==> r.Ok?
    ensures s.Ok? ==> s.value.value == r.value.value && s.value.next == r.value.next
  {
    match r
    case Err(e) => Err(e)
    case Ok(b) => Ok(b.(aliases := SaveAlias(b.aliases, anchor, b.value)))
  }

  /** `_build_custom`: the collection built under a tag that is not a core one, handed to the
      Python constructor of that tag. A tag without one is an error even when building the
      collection failed. */
  function Custom(c: Ctx, tag: string, inner: Result<Built>): (r: Result<Built>)
    ensures (FindTag(c.builders, tag).None? || c.builders[FindTag(c.builders, tag).value].pyConstructor.None?)
      ==> r == Err(UnknownCollectionTag(tag))
    ensures r.Ok? ==> inner.Ok? && r.value.next == inner.value.next && r.value.aliases == inner.value.aliases
  {
    match FindTag(c.builders, tag)
    case None => Err(UnknownCollectionTag(tag))
    case Some(i) =>
      if c.builders[i].pyConstructor.None? then Err(UnknownCollectionTag(tag))
      else match inner
        case Err(e) => Err(e)
        case Ok(b) =>
          match c.host.constructCollection(c.builders[i].pyConstructor.value, b.value)
          case Err(e) => Err(e)
          case Ok(v) => Ok(b.(value := v))
  }

  /** `_build_seq` from `pos` on, `items` being the elements built so far. */
  function SeqLoop(c: Ctx, evs: seq<Event>, pos: nat, items: seq<Value>, aliases: Aliases): (r: Result<Built>)
    requires pos <= |evs|
    ensures r.Ok? ==> pos < r.value.next <= |evs|
    ensures r.Ok? ==> r.value.value.Seq? && |r.value.value.items| >= |items| && r.value.value.items[..|items|] == items
    decreases |evs| - pos, 1
  {
    var p := Pull(evs, pos, SequenceEnd);
    if p.status == Failed then Err(ParseFailed(p.event.problem))
    else if p.status == Done then Ok(Built(Seq(items), p.next, aliases))
    else match BuildValue(c, evs, p.event, p.next, aliases)
      case Err(e) => Err(e)
      case Ok(b) =>
        var r := SeqLoop(c, evs, b.next, items + [b.value], b.aliases);
        assert r.Ok? ==> r.value.value.items[..|items|] == (items + [b.value])[..|items|];
        r
  }

  /** `_build_pairs` from `pos` on: `pairs` are the tuples built so far and `key` the key of the
      pair whose value comes next. Each element is a mapping holding one key and one value; a
      sequence end where a key or a value would be read ends the list, dropping a pending key. */
  function PairsLoop(c: Ctx, evs: seq<Event>, pos: nat, pairs: seq<Entry>, key: Option<Value>, aliases: Aliases): (r: Result<Built>)
    requires pos <= |evs|
    ensures r.Ok? ==> pos < r.value.next <= |evs|
    ensures r.Ok? ==> r.value.value.Pairs? && |r.value.value.pairs| >= |pairs| && r.value.value.pairs[..|pairs|] == pairs
    decreases |evs| - pos, 1
  {
    var p := Pull(evs, pos, SequenceEnd);
    if p.status == Failed then Err(ParseFailed(p.event.problem))
    else if p.status == Done then Ok(Built(Pairs(pairs), p.next, aliases))
    else if key.None? then
      if !p.event.MappingStart? then Err(AwaitedOpeningPair)
      else
        var q := Pull(evs, p.next, SequenceEnd);
        if q.status == Failed then Err(ParseFailed(q.event.problem))
        else if q.status == Done then Ok(Built(Pairs(pairs), q.next, aliases))
        else match BuildValue(c, evs, q.event, q.next, aliases)
          case Err(e) => Err(e)
          case Ok(k) => PairsLoop(c, evs, k.next, pairs, Some(k.value), k.aliases)
    else match BuildValue(c, evs, p.event, p.next, aliases)
      case Err(e) => Err(e)
      case Ok(v) =>
        var q := Pull(evs, v.next, SequenceEnd);
        if q.status == Failed then Err(ParseFailed(q.event.problem))
        else if q.event != MappingEnd then Err(AwaitedClosePair)
        else
          var more := pairs + [Entry(key.value, v.value)];
          var r := PairsLoop(c, evs, q.next, more, None, v.aliases);
          assert r.Ok? ==> r.value.value.pairs[..|pairs|] == more[..|pairs|];
          r
  }

  /** `_build_map` from `pos` on: `entries` is the dict so far, `key` a key whose value comes
      next, and `isSet` whether every value read so far was None. */
  function MapLoop(c: Ctx, evs: seq<Event>, pos: nat, entries: seq<Entry>, key: Option<Value>, isSet: bool, aliases: Aliases): (r: Result<Built>)
    requires pos <= |evs|
    requires UniqueKeys(entries)
    ensures r.Ok? ==> pos < r.value.next <= |evs|
    ensures r.Ok? ==> r.value.value.Set? || (r.value.value.Mapping? && UniqueKeys(r.value.value.entries))
    ensures r.Ok? && r.value.value.Set? ==> isSet
    decreases |evs| - pos, 1
  {
    var p := Pull(evs, pos, MappingEnd);
    if p.status == Failed then Err(ParseFailed(p.event.problem))
    else if p.status == Done then Ok(Built(Promoted(entries, isSet), p.next, aliases))
    else match BuildValue(c, evs, p.event, p.next, aliases)
      case Err(e) => Err(e)
      case Ok(b) =>
        if key.None? then MapLoop(c, evs, b.next, entries, Some(b.value), isSet, b.aliases)
        else match Insert(entries, key.value, b.value)
          case Err(e) => Err(e)
          case Ok(es) =>
            InsertKeepsKeysUnique(entries, key.value, b.value);
            MapLoop(c, evs, b.next, es, None, isSet && b.value == Null, b.aliases)
  }

  // ---------------------------------------------------------------- documents and the stream

  /** `_build_document`, called after the document start: the root node with a fresh alias
      table, then the document end. A document end where the root would be leaves the value
      None, and then a second document end is awaited; when something else comes, the source
      releases its still-NULL document with `Py_DECREF` before raising, and the model gives the
      error it raises. */
  function BuildDocument(c: Ctx, evs: seq<Event>, pos: nat): (r: Result<Loaded>)
    requires pos <= |evs|
    ensures r.Ok? ==> pos < r.value.next <= |evs| && evs[r.value.next - 1] == DocumentEnd
  {
    var p := Pull(evs, pos, DocumentEnd);
    if p.status == Failed then Err(ParseFailed(p.event.problem))
    else
      var root: Result<(Value, nat)> :=
        if p.status == Done then Ok((Null, p.next))
        else match BuildValue(c, evs, p.event, p.next, map[])
          case Err(e) => Err(e)
          case Ok(b) => Ok((b.value, b.next));
      match root
      case Err(e) => Err(e)
      case Ok((v, next)) =>
        var q := Pull(evs, next, DocumentEnd);
        if q.status == Failed then Err(ParseFailed(q.event.problem))
        else if q.status != Done then Err(AwaitedEndOfDocument)
        else Ok(Loaded(v, q.next))
  }

  /** `check_data`: skips a stream start, then true at a document start (consumed), false at
      the stream end; anything else is an error. */
  function CheckData(evs: seq<Event>, pos: nat): (r: Result<(bool, nat)>)
    requires pos <= |evs|
    ensures r.Ok? ==> pos < r.value.1 <= |evs|
    ensures r.Ok? ==> evs[r.value.1 - 1] == (if r.value.0 then DocumentStart else StreamEnd)
    ensures pos < |evs| && evs[pos] == DocumentStart ==> r == Ok((true, pos + 1))
    ensures pos < |evs| && evs[pos] == StreamEnd ==> r == Ok((false, pos + 1))
    ensures pos < |evs| && evs[pos] == StreamStart && pos + 1 < |evs| && evs[pos + 1] == DocumentStart ==> r == Ok((true, pos + 2))
    ensures pos < |evs| && (evs[pos].IsNode() || evs[pos] == DocumentEnd || evs[pos] == MappingEnd || evs[pos] == SequenceEnd)
      ==> r == Err(AwaitedDocumentStart)
    ensures pos == |evs| ==> r == Err(AwaitedDocumentStart)
  {
    var p := Pull(evs, pos, StreamEnd);
    if p.status == Failed then Err(ParseFailed(p.event.problem))
    else
      var q := if p.event == StreamStart then Pull(evs, p.next, StreamEnd) else p;
      if q.status == Failed then Err(ParseFailed(q.event.problem))
      else if q.event == DocumentStart then Ok((true, q.next))
      else if q.status != Done then Err(AwaitedDocumentStart)
      else Ok((false, q.next))
  }

  /** `get_single_data` as written: a document if there is one, then a second `check_data`,
      which must find no further document. When that second call fails without a document
      having been read, the source releases the NULL document with `Py_DECREF`; the model gives
      the error that call raised. */
  function SingleDataAsWritten(c: Ctx, evs: seq<Event>, pos: nat): (r: Result<Loaded>)
    requires pos <= |evs|
    ensures r.Ok? ==> pos < r.value.next <= |evs| && evs[r.value.next - 1] == StreamEnd
  {
    match CheckData(evs, pos)
    case Err(e) => Err(e)
    case Ok((present, next)) =>
      var doc: Result<Loaded> := if present then BuildDocument(c, evs, next) else Ok(Loaded(Null, next));
      match doc
      case Err(e) => Err(e)
      case Ok(d) =>
        match CheckData(evs, d.next)
        case Err(e) => Err(e)
        case Ok((again, after)) =>
          if again then Err(ExpectedSingleDocument) else Ok(Loaded(d.value, after))
  }

  /** `get_single_data` with the second check made only after a document was read: an empty
      stream is None, as the code's final branch intends. */
  function SingleData(c: Ctx, evs: seq<Event>, pos: nat): (r: Result<Loaded>)
    requires pos <= |evs|
    ensures CheckData(evs, pos) == Ok((false, pos + 1)) ==> r == Ok(Loaded(Null, pos + 1))
  {
    match CheckData(evs, pos)
    case Err(e) => Err(e)
    case Ok((present, next)) =>
      if !present then Ok(Loaded(Null, next))
      else match BuildDocument(c, evs, next)
        case Err(e) => Err(e)
        case Ok(d) =>
          match CheckData(evs, d.next)
          case Err(e) => Err(e)
          case Ok((again, after)) =>
            if again then Err(ExpectedSingleDocument) else Ok(Loaded(d.value, after))
  }
}
