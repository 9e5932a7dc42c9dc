/** The loader object: a libyaml parser over one stream, pulled event by event by the C
    functions that build each node, with the alias dictionary of the document being built.
    Every method is proved to compute what the function of the same name in `Construction`
    says, and to leave the parser just after the events that function consumed. */
module Loader {
  import opened Outcome
  import opened Values
  import opened Python
  import opened Registry
  import opened Events
  import Construction
  import Resolve

  /** Document construction over the registry `bs`: scalars go through `_build_scalar`. */
  function ScalarCtx(host: Host, bs: seq<Builder>): Construction.Ctx {
    Construction.Ctx(host, bs, (text, tag) => Resolve.BuildScalar(host, bs, text, tag))
  }

  /** A method's answer `r` is the value or the error of the function's answer `s`. */
  ghost predicate Carries(r: Result<Value>, s: Result<Construction.Built>) {
    if s.Ok? then r == Ok(s.value.value) else r == Err(s.error)
  }

  /** What a node-building method leaves: the function's answer, the parser just after the
      node's events and the anchors bound so far, whenever the function succeeds. */
  ghost predicate Follows(r: Result<Value>, pos: nat, table: Construction.Aliases, s: Result<Construction.Built>) {
    Carries(r, s) && (s.Ok? ==> pos == s.value.next && table == s.value.aliases)
  }

  /** The same for a whole document. */
  ghost predicate Delivers(r: Result<Value>, pos: nat, s: Result<Construction.Loaded>) {
    if s.Ok? then r == Ok(s.value.value) && pos == s.value.next else r == Err(s.error)
  }

  /** The anchor dictionary `aliases` of `_build_document`. */
  class AliasTable {
    var table: Construction.Aliases

    /** `PyDict_New()`. */
    constructor ()
      ensures table == map[]
    {
      table := map[];
    }

    /** `_save_alias`. */
    method Save(anchor: Option<string>, v: Value)
      modifies this
      ensures table == Construction.SaveAlias(old(table), anchor, v)
    {
      if anchor.Some? {
        table := table[anchor.value := v];
      }
    }

    /** `_load_alias`. */
    method Load(anchor: string) returns (r: Result<Value>)
      ensures r == Construction.LoadAlias(table, anchor)
    {
      if anchor !in table {
        return Err(UnknownAlias(anchor));
      }
      r := Ok(table[anchor]);
    }
  }

  /** The pair step of `_build_map`: under `<<` a list is merged element by element and a dict
      directly, without overriding a key already there; any other key is stored. */
  method StorePair(entries: seq<Entry>, k: Value, v: Value) returns (r: Result<seq<Entry>>)
    ensures r == Construction.Insert(entries, k, v)
  {
    if !Construction.IsKeyMerge(k) {
      if !Hashable(k) {
        return Err(UnhashableKey);
      }
      return Ok(Put(entries, k, v));
    }
    match v
    case Seq(items) =>
      var merged := entries;
      var i := 0;
      while i < |items|
        invariant i <= |items|
        invariant MergeEach(merged, items[i..]) == MergeEach(entries, items)
      {
        if !items[i].Mapping? {
          return Err(MergeItemNotMapping);
        }
        assert items[i..][1..] == items[i + 1..];
        merged := Merge(merged, items[i].entries);
        i := i + 1;
      }
      r := Ok(merged);
    case Pairs(ps) =>
      // a list of tuples: the first tuple cannot be merged
      if ps != [] {
        return Err(MergeItemNotMapping);
      }
      r := Ok(entries);
    case Mapping(es) =>
      r := Ok(Merge(entries, es));
    case _ =>
      r := Err(DictionaryOrListAwaited);
  }

  /** `MinYamlLoader`: the parser over the stream's events. */
  class Loader {
    /** The Python side. */
    const host: Host
    /** The events libyaml produces from the stream, in order. */
    const evs: seq<Event>
    /** How many of them have been pulled. */
    var pos: nat

    ghost predicate Valid()
      reads this
    {
      pos <= |evs|
    }

    /** `_min_yaml_new` and `_min_yaml_init`: a parser at the start of the stream. */
    constructor (host: Host, evs: seq<Event>)
      ensures this.host == host && this.evs == evs && pos == 0 && Valid()
    {
      this.host := host;
      this.evs := evs;
      pos := 0;
    }

    /** `_parse_next`: the next event, classified against the awaited closing event. */
    method ParseNext(done: Event) returns (p: Pulled)
      requires Valid()
      modifies this
      ensures Valid() && p == Pull(evs, old(pos), done) && pos == p.next
    {
      p := Pull(evs, pos, done);
      pos := p.next;
    }

    /** `_build_value`. */
    method BuildValue(bs: seq<Builder>, ev: Event, aliases: AliasTable) returns (r: Result<Value>)
      requires Valid() && WellFormed(bs)
      modifies this, aliases
      ensures Valid() && old(pos) <= pos
      ensures Follows(r, pos, aliases.table, Construction.BuildValue(ScalarCtx(host, bs), evs, ev, old(pos), old(aliases.table)))
      decreases |evs| - pos, Construction.Rank(ev)
    {
      match ev
      case MappingStart(tag, anchor) =>
        r := BuildMapping(bs, tag, anchor, aliases);
      case SequenceStart(tag, anchor) =>
        r := BuildSequence(bs, tag, anchor, aliases);
      case Scalar(text, tag, anchor) =>
        r := Resolve.ResolveScalar(host, bs, text, tag);
        if r.Ok? {
          aliases.Save(anchor, r.value);
        }
      case Alias(a) =>
        r := aliases.Load(a);
      case _ =>
        r := Err(NodeAwaited);
    }

    /** The mapping case of `_build_value`: the map builder, the collection handed to the
        constructor of a tag other than map and set, then the anchor bound. */
    method BuildMapping(bs: seq<Builder>, tag: Option<string>, anchor: Option<string>, aliases: AliasTable) returns (r: Result<Value>)
      requires Valid() && WellFormed(bs)
      modifies this, aliases
      ensures Valid() && old(pos) <= pos
      ensures Follows(r, pos, aliases.table, Construction.BuildValue(ScalarCtx(host, bs), evs, MappingStart(tag, anchor), old(pos), old(aliases.table)))
      decreases |evs| - pos, 2
    {
      ghost var c := ScalarCtx(host, bs);
      ghost var inner := Construction.MapLoop(c, evs, pos, [], None, true, aliases.table);
      ghost var whole := Construction.BuildValue(c, evs, MappingStart(tag, anchor), pos, aliases.table);
      r := BuildMap(bs, aliases);
      if tag.Some? && tag.value != TagMap && tag.value != TagSet {
        r := BuildCustom(bs, tag.value, r, inner);
        inner := Construction.Custom(c, tag.value, inner);
      }
      assert whole == Construction.Saved(inner, anchor);
      if r.Ok? {
        aliases.Save(anchor, r.value);
      }
    }

    /** The sequence case of `_build_value`: the pairs builder under the pairs tag, else the
        sequence builder, its list handed to the constructor of a tag other than seq; then the
        anchor bound. */
    method BuildSequence(bs: seq<Builder>, tag: Option<string>, anchor: Option<string>, aliases: AliasTable) returns (r: Result<Value>)
      requires Valid() && WellFormed(bs)
      modifies this, aliases
      ensures Valid() && old(pos) <= pos
      ensures Follows(r, pos, aliases.table, Construction.BuildValue(ScalarCtx(host, bs), evs, SequenceStart(tag, anchor), old(pos), old(aliases.table)))
      decreases |evs| - pos, 2
    {
      ghost var c := ScalarCtx(host, bs);
      ghost var whole := Construction.BuildValue(c, evs, SequenceStart(tag, anchor), pos, aliases.table);
      ghost var inner;
      if tag.None? || tag.value == TagSeq {
        inner := Construction.SeqLoop(c, evs, pos, [], aliases.table);
        r := BuildSeq(bs, aliases);
      } else if tag.value == TagPairs {
        inner := Construction.PairsLoop(c, evs, pos, [], None, aliases.table);
        r := BuildPairs(bs, aliases);
      } else {
        inner := Construction.SeqLoop(c, evs, pos, [], aliases.table);
        r := BuildSeq(bs, aliases);
        r := BuildCustom(bs, tag.value, r, inner);
        inner := Construction.Custom(c, tag.value, inner);
      }
      assert whole == Construction.Saved(inner, anchor);
      if r.Ok? {
        aliases.Save(anchor, r.value);
      }
    }

    /** `_build_custom`: the collection `inner` handed to the Python constructor of its tag. */
    method BuildCustom(bs: seq<Builder>, tag: string, inner: Result<Value>, ghost s: Result<Construction.Built>) returns (r: Result<Value>)
      requires Carries(inner, s)
      ensures Carries(r, Construction.Custom(ScalarCtx(host, bs), tag, s))
    {
      var i := FindTag(bs, tag);
      if i.None? || bs[i.value].pyConstructor.None? {
        return Err(UnknownCollectionTag(tag));
      }
      if inner.Err? {
        return inner;
      }
      r := host.constructCollection(bs[i.value].pyConstructor.value, inner.value);
    }

    /** `_build_seq`: elements up to the sequence end. */
    method BuildSeq(bs: seq<Builder>, aliases: AliasTable) returns (r: Result<Value>)
      requires Valid() && WellFormed(bs)
      modifies this, aliases
      ensures Valid() && old(pos) <= pos
      ensures Follows(r, pos, aliases.table, Construction.SeqLoop(ScalarCtx(host, bs), evs, old(pos), [], old(aliases.table)))
      decreases |evs| - pos, 1
    {
      ghost var c := ScalarCtx(host, bs);
      ghost var start := pos;
      ghost var spec := Construction.SeqLoop(c, evs, pos, [], aliases.table);
      var items: seq<Value> := [];
      while true
        invariant Valid() && start <= pos
        invariant Construction.SeqLoop(c, evs, pos, items, aliases.table) == spec
        decreases |evs| - pos
      {
        var p := ParseNext(SequenceEnd);
        if p.status == Failed {
          return Err(ParseFailed(p.event.problem));
        }
        if p.status == Done {
          return Ok(Seq(items));
        }
        var v := BuildValue(bs, p.event, aliases);
        if v.Err? {
          return v;
        }
        items := items + [v.value];
      }
    }

    /** `_build_pairs`: one-entry mappings up to the sequence end, each read as a key, a value
        and the mapping end. */
    method BuildPairs(bs: seq<Builder>, aliases: AliasTable) returns (r: Result<Value>)
      requires Valid() && WellFormed(bs)
      modifies this, aliases
      ensures Valid() && old(pos) <= pos
      ensures Follows(r, pos, aliases.table, Construction.PairsLoop(ScalarCtx(host, bs), evs, old(pos), [], None, old(aliases.table)))
      decreases |evs| - pos, 1
    {
      ghost var c := ScalarCtx(host, bs);
      ghost var start := pos;
      ghost var spec := Construction.PairsLoop(c, evs, pos, [], None, aliases.table);
      var pairs: seq<Entry> := [];
      var key: Option<Value> := None;
      while true
        invariant Valid() && start <= pos
        invariant Construction.PairsLoop(c, evs, pos, pairs, key, aliases.table) == spec
        decreases |evs| - pos
      {
        var p := ParseNext(SequenceEnd);
        if p.status == Failed {
          return Err(ParseFailed(p.event.problem));
        }
        if p.status == Done {
          return Ok(Pairs(pairs));
        }
        if key.None? {
          if !p.event.MappingStart? {
            return Err(AwaitedOpeningPair);
          }
          var q := ParseNext(SequenceEnd);
          if q.status == Failed {
            return Err(ParseFailed(q.event.problem));
          }
          if q.status == Done {
            return Ok(Pairs(pairs));
          }
          var k := BuildValue(bs, q.event, aliases);
          if k.Err? {
            return k;
          }
          key := Some(k.value);
        } else {
          var v := BuildValue(bs, p.event, aliases);
          if v.Err? {
            return v;
          }
          pairs, key := pairs + [Entry(key.value, v.value)], None;
          var q := ParseNext(SequenceEnd);
          if q.status == Failed {
            return Err(ParseFailed(q.event.problem));
          }
          if q.event != MappingEnd {
            return Err(AwaitedClosePair);
          }
        }
      }
    }

    /** `_build_map`: keys and values up to the mapping end; a set when every value was None. */
    method BuildMap(bs: seq<Builder>, aliases: AliasTable) returns (r: Result<Value>)
      requires Valid() && WellFormed(bs)
      modifies this, aliases
      ensures Valid() && old(pos) <= pos
      ensures Follows(r, pos, aliases.table, Construction.MapLoop(ScalarCtx(host, bs), evs, old(pos), [], None, true, old(aliases.table)))
      decreases |evs| - pos, 1
    {
      ghost var c := ScalarCtx(host, bs);
      ghost var start := pos;
      ghost var spec := Construction.MapLoop(c, evs, pos, [], None, true, aliases.table);
      var entries: seq<Entry> := [];
      var key: Option<Value> := None;
      var isSet := true;
      while true
        invariant Valid() && start <= pos && UniqueKeys(entries)
        invariant Construction.MapLoop(c, evs, pos, entries, key, isSet, aliases.table) == spec
        decreases |evs| - pos
      {
        var p := ParseNext(MappingEnd);
        if p.status == Failed {
          return Err(ParseFailed(p.event.problem));
        }
        if p.status == Done {
          return Ok(if isSet then Set(KeySet(entries)) else Mapping(entries));
        }
        var v := BuildValue(bs, p.event, aliases);
        if v.Err? {
          return v;
        }
        if key.None? {
          key := Some(v.value);
        } else {
          var stored := StorePair(entries, key.value, v.value);
          if stored.Err? {
            return Err(stored.error);
          }
          Construction.InsertKeepsKeysUnique(entries, key.value, v.value);
          entries, key, isSet := stored.value, None, isSet && v.value == Null;
        }
      }
    }

    /** `_build_document`, after the document start. */
    method BuildDocument(bs: seq<Builder>) returns (r: Result<Value>)
      requires Valid() && WellFormed(bs)
      modifies this
      ensures Valid()
      ensures Delivers(r, pos, Construction.BuildDocument(ScalarCtx(host, bs), evs, old(pos)))
    {
      var p := ParseNext(DocumentEnd);
      if p.status == Failed {
        return Err(ParseFailed(p.event.problem));
      }
      var document := Null;
      if p.status == Proceed {
        var aliases := new AliasTable();
        var v := BuildValue(bs, p.event, aliases);
        if v.Err? {
          return v;
        }
        document := v.value;
      }
      var q := ParseNext(DocumentEnd);
      if q.status == Failed {
        return Err(ParseFailed(q.event.problem));
      }
      if q.status != Done {
        return Err(AwaitedEndOfDocument);
      }
      r := Ok(document);
    }

    /** `check_data`. */
    method CheckData() returns (r: Result<bool>)
      requires Valid()
      modifies this
      ensures Valid()
      ensures var s := Construction.CheckData(evs, old(pos));
        if s.Ok? then r == Ok(s.value.0) && pos == s.value.1 else r == Err(s.error)
    {
      var p := ParseNext(StreamEnd);
      if p.status == Failed {
        return Err(ParseFailed(p.event.problem));
      }
      if p.event == StreamStart {
        p := ParseNext(StreamEnd);
        if p.status == Failed {
          return Err(ParseFailed(p.event.problem));
        }
      }
      if p.event == DocumentStart {
        return Ok(true);
      }
      if p.status != Done {
        return Err(AwaitedDocumentStart);
      }
      r := Ok(false);
    }

    /** `get_data`: the next document, built with the shared registry. */
    method GetData(registry: BuilderList) returns (r: Result<Value>)
      requires Valid() && registry.Valid()
      modifies this
      ensures Valid()
      ensures Delivers(r, pos, Construction.BuildDocument(ScalarCtx(host, registry.builders), evs, old(pos)))
    {
      r := BuildDocument(registry.builders);
    }

    /** `get_single_data`: the only document of the stream, or None for a stream without one. */
    method GetSingleData(registry: BuilderList) returns (r: Result<Value>)
      requires Valid() && registry.Valid()
      modifies this
      ensures Valid()
      ensures Delivers(r, pos, Construction.SingleData(ScalarCtx(host, registry.builders), evs, old(pos)))
    {
      var present := CheckData();
      if present.Err? {
        return Err(present.error);
      }
      if !present.value {
        return Ok(Null);
      }
      var document := BuildDocument(registry.builders);
      if document.Err? {
        return document;
      }
      var again := CheckData();
      if again.Err? {
        return Err(again.error);
      }
      if again.value {
        return Err(ExpectedSingleDocument);
      }
      r := document;
    }
  }
}
