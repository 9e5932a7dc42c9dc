/** What document construction promises, stated over runs of events: sequences keep their
    elements in order, pairs lists keep every tuple, mappings let later keys overwrite and merges
    never overwrite, all-None mappings become sets, aliases see the node bound last, and a single
    document stream yields its one document. */
module Facts {
  import opened Outcome
  import opened Values
  import opened Registry
  import opened Events
  import opened Construction

  /** An anchorless scalar at `j` that builds `v`. */
  predicate ScalarAt(c: Ctx, evs: seq<Event>, j: nat, v: Value) {
    j < |evs| && evs[j].Scalar? && evs[j].anchor.None? && c.scalar(evs[j].text, evs[j].tag) == Ok(v)
  }

  // ---------------------------------------------------------------- single steps

  /** An anchorless scalar is built from its own event alone and binds nothing. */
  lemma ScalarNode(c: Ctx, evs: seq<Event>, j: nat, v: Value, aliases: Aliases)
    requires ScalarAt(c, evs, j, v)
    ensures BuildValue(c, evs, evs[j], j + 1, aliases) == Ok(Built(v, j + 1, aliases))
  {
  }

  /** A node inside a sequence is appended to it. */
  lemma SeqItemStep(c: Ctx, evs: seq<Event>, pos: nat, items: seq<Value>, aliases: Aliases, b: Built)
    requires pos < |evs| && !evs[pos].Malformed? && evs[pos] != SequenceEnd
    requires BuildValue(c, evs, evs[pos], pos + 1, aliases) == Ok(b)
    ensures SeqLoop(c, evs, pos, items, aliases) == SeqLoop(c, evs, b.next, items + [b.value], b.aliases)
  {
    assert Pull(evs, pos, SequenceEnd) == Pulled(Proceed, evs[pos], pos + 1);
  }

  /** A node where a mapping key is awaited becomes the pending key. */
  lemma MapKeyStep(c: Ctx, evs: seq<Event>, pos: nat, entries: seq<Entry>, isSet: bool, aliases: Aliases, b: Built)
    requires pos < |evs| && UniqueKeys(entries) && !evs[pos].Malformed? && evs[pos] != MappingEnd
    requires BuildValue(c, evs, evs[pos], pos + 1, aliases) == Ok(b)
    ensures MapLoop(c, evs, pos, entries, None, isSet, aliases) == MapLoop(c, evs, b.next, entries, Some(b.value), isSet, b.aliases)
  {
    assert Pull(evs, pos, MappingEnd) == Pulled(Proceed, evs[pos], pos + 1);
  }

  /** A node where a mapping value is awaited is inserted under the pending key. */
  lemma MapValueStep(c: Ctx, evs: seq<Event>, pos: nat, entries: seq<Entry>, k: Value, isSet: bool, aliases: Aliases, b: Built, es: seq<Entry>)
    requires pos < |evs| && UniqueKeys(entries) && !evs[pos].Malformed? && evs[pos] != MappingEnd
    requires BuildValue(c, evs, evs[pos], pos + 1, aliases) == Ok(b)
    requires Insert(entries, k, b.value) == Ok(es)
    ensures UniqueKeys(es)
    ensures MapLoop(c, evs, pos, entries, Some(k), isSet, aliases) == MapLoop(c, evs, b.next, es, None, isSet && b.value == Null, b.aliases)
  {
    InsertKeepsKeysUnique(entries, k, b.value);
    assert Pull(evs, pos, MappingEnd) == Pulled(Proceed, evs[pos], pos + 1);
  }

  /** The sequence end closes the sequence. */
  lemma SeqEnd(c: Ctx, evs: seq<Event>, pos: nat, items: seq<Value>, aliases: Aliases)
    requires pos < |evs| && evs[pos] == SequenceEnd
    ensures SeqLoop(c, evs, pos, items, aliases) == Ok(Built(Seq(items), pos + 1, aliases))
  {
    assert Pull(evs, pos, SequenceEnd) == Pulled(Done, SequenceEnd, pos + 1);
  }

  /** The sequence end closes a pairs list. */
  lemma PairsEnd(c: Ctx, evs: seq<Event>, pos: nat, pairs: seq<Entry>, aliases: Aliases)
    requires pos < |evs| && evs[pos] == SequenceEnd
    ensures PairsLoop(c, evs, pos, pairs, None, aliases) == Ok(Built(Pairs(pairs), pos + 1, aliases))
  {
    assert Pull(evs, pos, SequenceEnd) == Pulled(Done, SequenceEnd, pos + 1);
  }

  /** A mapping that opens an element of a pairs list, then the node that is its key. */
  lemma PairOpenStep(c: Ctx, evs: seq<Event>, pos: nat, pairs: seq<Entry>, aliases: Aliases, k: Built)
    requires pos + 1 < |evs| && evs[pos].MappingStart? && !evs[pos + 1].Malformed? && evs[pos + 1] != SequenceEnd
    requires BuildValue(c, evs, evs[pos + 1], pos + 2, aliases) == Ok(k)
    ensures PairsLoop(c, evs, pos, pairs, None, aliases) == PairsLoop(c, evs, k.next, pairs, Some(k.value), k.aliases)
  {
    var p := Pull(evs, pos, SequenceEnd);
    assert p.status == Proceed && p.event == evs[pos] && p.next == pos + 1;
    var q := Pull(evs, p.next, SequenceEnd);
    assert q.status == Proceed && q.event == evs[pos + 1] && q.next == pos + 2;
    assert BuildValue(c, evs, q.event, q.next, aliases) == Ok(k);
  }

  /** The value node of an element of a pairs list, then the mapping end that closes it. */
  lemma PairCloseStep(c: Ctx, evs: seq<Event>, pos: nat, pairs: seq<Entry>, key: Value, aliases: Aliases, v: Built)
    requires pos < |evs| && !evs[pos].Malformed? && evs[pos] != SequenceEnd
    requires BuildValue(c, evs, evs[pos], pos + 1, aliases) == Ok(v)
    requires v.next < |evs| && evs[v.next] == MappingEnd
    ensures PairsLoop(c, evs, pos, pairs, Some(key), aliases) == PairsLoop(c, evs, v.next + 1, pairs + [Entry(key, v.value)], None, v.aliases)
  {
    var p := Pull(evs, pos, SequenceEnd);
    assert p.status == Proceed && p.event == evs[pos] && p.next == pos + 1;
    assert BuildValue(c, evs, p.event, p.next, aliases) == Ok(v);
    var q := Pull(evs, v.next, SequenceEnd);
    assert q.status == Proceed && q.event == MappingEnd && q.next == v.next + 1;
  }

  /** The value node of an element of a pairs list followed by anything but a mapping end. */
  lemma PairUnclosedStep(c: Ctx, evs: seq<Event>, pos: nat, pairs: seq<Entry>, key: Value, aliases: Aliases, v: Built)
    requires pos < |evs| && !evs[pos].Malformed? && evs[pos] != SequenceEnd
    requires BuildValue(c, evs, evs[pos], pos + 1, aliases) == Ok(v)
    requires v.next < |evs| && evs[v.next] != MappingEnd && !evs[v.next].Malformed?
    ensures PairsLoop(c, evs, pos, pairs, Some(key), aliases) == Err(AwaitedClosePair)
  {
    assert Pull(evs, pos, SequenceEnd) == Pulled(Proceed, evs[pos], pos + 1);
  }

  /** A node where a mapping value is awaited that cannot be inserted under the pending key. */
  lemma MapValueFails(c: Ctx, evs: seq<Event>, pos: nat, entries: seq<Entry>, k: Value, isSet: bool, aliases: Aliases, b: Built)
    requires pos < |evs| && UniqueKeys(entries) && !evs[pos].Malformed? && evs[pos] != MappingEnd
    requires BuildValue(c, evs, evs[pos], pos + 1, aliases) == Ok(b)
    requires Insert(entries, k, b.value).Err?
    ensures MapLoop(c, evs, pos, entries, Some(k), isSet, aliases) == Err(Insert(entries, k, b.value).error)
  {
    assert Pull(evs, pos, MappingEnd) == Pulled(Proceed, evs[pos], pos + 1);
  }

  /** An ordinary hashable key is stored with `Put`. */
  lemma InsertIsPut(entries: seq<Entry>, k: Value, v: Value)
    requires Hashable(k) && !IsKeyMerge(k)
    ensures Insert(entries, k, v) == Ok(Put(entries, k, v))
  {
  }

  // ---------------------------------------------------------------- sequences

  /** Anchorless scalars from `pos` on that build `vals`, one event each, then the sequence end
      just before `end`. */
  predicate SeqBodyAt(c: Ctx, evs: seq<Event>, pos: nat, vals: seq<Value>, end: nat)
    decreases |vals|
  {
    if vals == [] then pos < |evs| && evs[pos] == SequenceEnd && end == pos + 1
    else ScalarAt(c, evs, pos, vals[0]) && SeqBodyAt(c, evs, pos + 1, vals[1..], end)
  }

  /** A sequence of scalars holds their values in event order, appended to what was built. */
  lemma {:induction false} SeqOfScalars(c: Ctx, evs: seq<Event>, pos: nat, items: seq<Value>, vals: seq<Value>, end: nat, aliases: Aliases)
    requires SeqBodyAt(c, evs, pos, vals, end)
    ensures SeqLoop(c, evs, pos, items, aliases) == Ok(Built(Seq(items + vals), end, aliases))
    decreases |vals|
  {
    if vals == [] {
      SeqEnd(c, evs, pos, items, aliases);
      assert items + vals == items;
    } else {
      ScalarNode(c, evs, pos, vals[0], aliases);
      SeqItemStep(c, evs, pos, items, aliases, Built(vals[0], pos + 1, aliases));
      SeqOfScalars(c, evs, pos + 1, items + [vals[0]], vals[1..], end, aliases);
      assert items + [vals[0]] + vals[1..] == items + vals;
    }
  }

  // ---------------------------------------------------------------- pairs

  /** One-key mappings of an anchorless scalar key and value from `pos` on, four events each,
      that build the tuples `kvs`, then the sequence end just before `end`. */
  predicate PairsBodyAt(c: Ctx, evs: seq<Event>, pos: nat, kvs: seq<Entry>, end: nat)
    decreases |kvs|
  {
    if kvs == [] then pos < |evs| && evs[pos] == SequenceEnd && end == pos + 1
    else
      && pos + 3 < |evs| && evs[pos].MappingStart?
      && ScalarAt(c, evs, pos + 1, kvs[0].key) && ScalarAt(c, evs, pos + 2, kvs[0].val)
      && evs[pos + 3] == MappingEnd
      && PairsBodyAt(c, evs, pos + 4, kvs[1..], end)
  }

  /** A pairs list of one-key mappings of scalars holds every (key, value) tuple in event order,
      duplicate keys included. */
  lemma {:induction false} PairsOfScalars(c: Ctx, evs: seq<Event>, pos: nat, pairs: seq<Entry>, kvs: seq<Entry>, end: nat, aliases: Aliases)
    requires PairsBodyAt(c, evs, pos, kvs, end)
    ensures PairsLoop(c, evs, pos, pairs, None, aliases) == Ok(Built(Pairs(pairs + kvs), end, aliases))
    decreases |kvs|
  {
    if kvs == [] {
      PairsEnd(c, evs, pos, pairs, aliases);
      assert pairs + kvs == pairs;
    } else {
      var e := kvs[0];
      PairStep(c, evs, pos, pairs, e, aliases);
      PairsOfScalars(c, evs, pos + 4, pairs + [e], kvs[1..], end, aliases);
      assert pairs + [e] + kvs[1..] == pairs + kvs;
    }
  }

  /** One element of a pairs list: a mapping of one scalar key and one scalar value. */
  lemma PairStep(c: Ctx, evs: seq<Event>, pos: nat, pairs: seq<Entry>, e: Entry, aliases: Aliases)
    requires pos + 3 < |evs|
    requires evs[pos].MappingStart? && ScalarAt(c, evs, pos + 1, e.key) && ScalarAt(c, evs, pos + 2, e.val)
    requires evs[pos + 3] == MappingEnd
    ensures PairsLoop(c, evs, pos, pairs, None, aliases) == PairsLoop(c, evs, pos + 4, pairs + [e], None, aliases)
  {
    ScalarNode(c, evs, pos + 1, e.key, aliases);
    PairOpenStep(c, evs, pos, pairs, aliases, Built(e.key, pos + 2, aliases));
    ScalarNode(c, evs, pos + 2, e.val, aliases);
    PairCloseStep(c, evs, pos + 2, pairs, e.key, aliases, Built(e.val, pos + 3, aliases));
  }

  /** An element of a pairs list that does not open a mapping is an error. */
  lemma PairsNeedOpening(c: Ctx, evs: seq<Event>, pos: nat, pairs: seq<Entry>, aliases: Aliases)
    requires pos < |evs|
    requires evs[pos] != SequenceEnd && !evs[pos].Malformed? && !evs[pos].MappingStart?
    ensures PairsLoop(c, evs, pos, pairs, None, aliases) == Err(AwaitedOpeningPair)
  {
  }

  /** A mapping in a pairs list that goes on after its first key and value is an error. */
  lemma PairsNeedClosing(c: Ctx, evs: seq<Event>, pos: nat, pairs: seq<Entry>, k: Value, v: Value, aliases: Aliases)
    requires pos + 3 < |evs|
    requires evs[pos].MappingStart? && ScalarAt(c, evs, pos + 1, k) && ScalarAt(c, evs, pos + 2, v)
    requires evs[pos + 3] != MappingEnd && !evs[pos + 3].Malformed?
    ensures PairsLoop(c, evs, pos, pairs, None, aliases) == Err(AwaitedClosePair)
  {
    ScalarNode(c, evs, pos + 1, k, aliases);
    PairOpenStep(c, evs, pos, pairs, aliases, Built(k, pos + 2, aliases));
    ScalarNode(c, evs, pos + 2, v, aliases);
    PairUnclosedStep(c, evs, pos + 2, pairs, k, aliases, Built(v, pos + 3, aliases));
  }

  // ---------------------------------------------------------------- mappings

  /** The dict `entries` after storing each pair in turn with `PyDict_SetItem`. */
  function PutAll(entries: seq<Entry>, kvs: seq<Entry>): seq<Entry>
    decreases |kvs|
  {
    if kvs == [] then entries else PutAll(Put(entries, kvs[0].key, kvs[0].val), kvs[1..])
  }

  predicate AllNull(kvs: seq<Entry>) {
    forall i :: 0 <= i < |kvs| ==> kvs[i].val == Null
  }

  /** Storing one more pair is one more `Put`: a later ordinary key overwrites an earlier one. */
  lemma {:induction false} PutAllSnoc(entries: seq<Entry>, kvs: seq<Entry>, e: Entry)
    ensures PutAll(entries, kvs + [e]) == Put(PutAll(entries, kvs), e.key, e.val)
    decreases |kvs|
  {
    if kvs == [] {
      assert kvs + [e] == [e];
      assert [e][1..] == [];
    } else {
      assert (kvs + [e])[0] == kvs[0] && (kvs + [e])[1..] == kvs[1..] + [e];
      PutAllSnoc(Put(entries, kvs[0].key, kvs[0].val), kvs[1..], e);
    }
  }

  lemma {:induction false} PutAllKeepsKeysUnique(entries: seq<Entry>, kvs: seq<Entry>)
    requires UniqueKeys(entries)
    ensures UniqueKeys(PutAll(entries, kvs))
    decreases |kvs|
  {
    if kvs != [] {
      PutKeepsKeysUnique(entries, kvs[0].key, kvs[0].val);
      PutAllKeepsKeysUnique(Put(entries, kvs[0].key, kvs[0].val), kvs[1..]);
    }
  }

  /** Some entry of `es` has the key object `k`. */
  ghost predicate KeyAmong(k: Value, es: seq<Entry>) {
    exists i :: 0 <= i < |es| && es[i].key == k
  }

  /** Every key of a dict after `Put` was in it before or is the stored key. */
  lemma PutKeysFrom(entries: seq<Entry>, k: Value, v: Value)
    ensures forall j :: 0 <= j < |Put(entries, k, v)| ==> KeyAmong(Put(entries, k, v)[j].key, entries) || Put(entries, k, v)[j].key == k
  {
    var p := Put(entries, k, v);
    forall j | 0 <= j < |p| ensures KeyAmong(p[j].key, entries) || p[j].key == k {
      assert KeysInOrder(p)[j] == p[j].key;
      if j < |entries| {
        assert KeysInOrder(entries)[j] == entries[j].key;
      }
    }
  }

  /** Every key of the dict was in it before or is one of the stored keys. */
  lemma {:induction false} PutAllKeysFrom(entries: seq<Entry>, kvs: seq<Entry>)
    ensures forall j :: 0 <= j < |PutAll(entries, kvs)| ==>
              KeyAmong(PutAll(entries, kvs)[j].key, entries) || KeyAmong(PutAll(entries, kvs)[j].key, kvs)
    decreases |kvs|
  {
    if kvs == [] {
      forall j | 0 <= j < |entries| ensures KeyAmong(entries[j].key, entries) {
        assert entries[j].key == entries[j].key;
      }
    } else {
      var e := kvs[0];
      var p := Put(entries, e.key, e.val);
      var r := PutAll(p, kvs[1..]);
      PutKeysFrom(entries, e.key, e.val);
      PutAllKeysFrom(p, kvs[1..]);
      forall j | 0 <= j < |r| ensures KeyAmong(r[j].key, entries) || KeyAmong(r[j].key, kvs) {
        var k := r[j].key;
        if KeyAmong(k, p) {
          var i :| 0 <= i < |p| && p[i].key == k;
          if p[i].key == e.key {
            assert kvs[0].key == k;
          }
        } else {
          var i :| 0 <= i < |kvs[1..]| && kvs[1..][i].key == k;
          assert kvs[i + 1] == kvs[1..][i];
        }
      }
    }
  }

  /** Every stored key is found in the dict. */
  lemma {:induction false} PutAllHasKeys(entries: seq<Entry>, kvs: seq<Entry>)
    ensures forall i :: 0 <= i < |kvs| ==> HasKey(PutAll(entries, kvs), kvs[i].key)
    decreases |kvs|
  {
    if kvs != [] {
      var e := kvs[0];
      var p := Put(entries, e.key, e.val);
      PutAllHasKeys(p, kvs[1..]);
      var r := PutAll(p, kvs[1..]);
      forall i | 0 <= i < |kvs| ensures HasKey(r, kvs[i].key) {
        if i == 0 {
          PutAllKeepsKey(p, kvs[1..], e.key);
        } else {
          assert kvs[i] == kvs[1..][i - 1];
        }
      }
    }
  }

  /** A key in the dict stays in it as more pairs are stored. */
  lemma {:induction false} PutAllKeepsKey(entries: seq<Entry>, kvs: seq<Entry>, k: Value)
    requires HasKey(entries, k)
    ensures HasKey(PutAll(entries, kvs), k)
    decreases |kvs|
  {
    if kvs != [] {
      var e := kvs[0];
      if !SameKey(k, e.key) {
        assert Lookup(Put(entries, e.key, e.val), k) == Lookup(entries, k);
      }
      PutAllKeepsKey(Put(entries, e.key, e.val), kvs[1..], k);
    }
  }

  /** One pair of a mapping: a scalar key, not `<<`, and a scalar value. */
  lemma MapStep(c: Ctx, evs: seq<Event>, pos: nat, entries: seq<Entry>, isSet: bool, e: Entry, aliases: Aliases)
    requires UniqueKeys(entries) && pos + 1 < |evs|
    requires ScalarAt(c, evs, pos, e.key) && ScalarAt(c, evs, pos + 1, e.val) && Hashable(e.key) && !IsKeyMerge(e.key)
    ensures UniqueKeys(Put(entries, e.key, e.val))
    ensures MapLoop(c, evs, pos, entries, None, isSet, aliases)
            == MapLoop(c, evs, pos + 2, Put(entries, e.key, e.val), None, isSet && e.val == Null, aliases)
  {
    ScalarNode(c, evs, pos, e.key, aliases);
    MapKeyStep(c, evs, pos, entries, isSet, aliases, Built(e.key, pos + 1, aliases));
    ScalarNode(c, evs, pos + 1, e.val, aliases);
    InsertIsPut(entries, e.key, e.val);
    MapValueStep(c, evs, pos + 1, entries, e.key, isSet, aliases, Built(e.val, pos + 2, aliases), Put(entries, e.key, e.val));
  }

  /** Anchorless scalar keys, none of them `<<` or unhashable, alternating with anchorless scalar
      values from `pos` on, that build the pairs `kvs`, then the mapping end just before `end`. */
  predicate MapBodyAt(c: Ctx, evs: seq<Event>, pos: nat, kvs: seq<Entry>, end: nat)
    decreases |kvs|
  {
    if kvs == [] then pos < |evs| && evs[pos] == MappingEnd && end == pos + 1
    else
      && ScalarAt(c, evs, pos, kvs[0].key) && ScalarAt(c, evs, pos + 1, kvs[0].val)
      && Hashable(kvs[0].key) && !IsKeyMerge(kvs[0].key)
      && MapBodyAt(c, evs, pos + 2, kvs[1..], end)
  }

  /** A mapping of scalar keys and values, none of them `<<`, is the dict of its pairs stored in
      order, or the set of its keys when every value is None. */
  lemma MapOfScalars(c: Ctx, evs: seq<Event>, pos: nat, entries: seq<Entry>, isSet: bool, kvs: seq<Entry>, end: nat, aliases: Aliases)
    requires UniqueKeys(entries) && MapBodyAt(c, evs, pos, kvs, end)
    ensures MapLoop(c, evs, pos, entries, None, isSet, aliases)
            == Ok(Built(Promoted(PutAll(entries, kvs), isSet && AllNull(kvs)), end, aliases))
  {
    MapOfScalarsStored(c, evs, pos, entries, isSet, kvs, end, aliases);
    StoredIsPromoted(entries, isSet, kvs);
  }

  /** What a mapping holds once the pairs `kvs` are stored after `entries`, `isSet` telling
      whether every value so far was None. */
  function Stored(entries: seq<Entry>, isSet: bool, kvs: seq<Entry>): Value
    decreases |kvs|
  {
    if kvs == [] then Promoted(entries, isSet)
    else Stored(Put(entries, kvs[0].key, kvs[0].val), isSet && kvs[0].val == Null, kvs[1..])
  }

  lemma {:induction false} MapOfScalarsStored(c: Ctx, evs: seq<Event>, pos: nat, entries: seq<Entry>, isSet: bool, kvs: seq<Entry>, end: nat, aliases: Aliases)
    requires UniqueKeys(entries) && MapBodyAt(c, evs, pos, kvs, end)
    ensures MapLoop(c, evs, pos, entries, None, isSet, aliases) == Ok(Built(Stored(entries, isSet, kvs), end, aliases))
    decreases |kvs|
  {
    if kvs == [] {
      MapEnd(c, evs, pos, entries, isSet, aliases);
    } else {
      var e := kvs[0];
      MapStep(c, evs, pos, entries, isSet, e, aliases);
      MapOfScalarsStored(c, evs, pos + 2, Put(entries, e.key, e.val), isSet && e.val == Null, kvs[1..], end, aliases);
    }
  }

  lemma {:induction false} StoredIsPromoted(entries: seq<Entry>, isSet: bool, kvs: seq<Entry>)
    ensures Stored(entries, isSet, kvs) == Promoted(PutAll(entries, kvs), isSet && AllNull(kvs))
    decreases |kvs|
  {
    if kvs != [] {
      StoredIsPromoted(Put(entries, kvs[0].key, kvs[0].val), isSet && kvs[0].val == Null, kvs[1..]);
      AllNullCons(kvs);
    }
  }

  /** The mapping end: the dict or the set of its keys. */
  lemma MapEnd(c: Ctx, evs: seq<Event>, pos: nat, entries: seq<Entry>, isSet: bool, aliases: Aliases)
    requires UniqueKeys(entries) && pos < |evs| && evs[pos] == MappingEnd
    ensures MapLoop(c, evs, pos, entries, None, isSet, aliases) == Ok(Built(Promoted(entries, isSet), pos + 1, aliases))
  {
  }

  lemma AllNullCons(kvs: seq<Entry>)
    requires kvs != []
    ensures AllNull(kvs) == (kvs[0].val == Null && AllNull(kvs[1..]))
  {
    if kvs[0].val == Null && AllNull(kvs[1..]) {
      forall i | 0 <= i < |kvs| ensures kvs[i].val == Null {
        if i > 0 { assert kvs[i] == kvs[1..][i - 1]; }
      }
    }
  }

  /** Set promotion: a mapping whose values are all None is the set of its keys (each key Python
      counts as equal to one read is in it, and nothing else); any other is a dict with unique keys
      in which a later key overwrites an earlier equal one. */
  lemma SetPromotion(c: Ctx, evs: seq<Event>, pos: nat, kvs: seq<Entry>, end: nat, aliases: Aliases)
    requires MapBodyAt(c, evs, pos, kvs, end)
    ensures var r := MapLoop(c, evs, pos, [], None, true, aliases);
            && r.Ok? && r.value.next == end
            && r.value.value == Promoted(PutAll([], kvs), AllNull(kvs))
            && (AllNull(kvs) ==> SetOfKeys(r.value.value, kvs))
            && (!AllNull(kvs) ==> DictOfPairs(r.value.value, kvs))
  {
    MapOfScalars(c, evs, pos, [], true, kvs, end, aliases);
    PromotedPairs(kvs);
  }

  /** `v` is a set holding one member for each key of `kvs`, and only those keys. */
  ghost predicate SetOfKeys(v: Value, kvs: seq<Entry>) {
    && v.Set?
    && (forall m :: m in v.members ==> KeyAmong(m, kvs))
    && (forall i :: 0 <= i < |kvs| ==> exists m :: m in v.members && SameKey(m, kvs[i].key))
  }

  /** `v` is the dict of `kvs` stored in order: unique keys, the last pair's value under its key. */
  ghost predicate DictOfPairs(v: Value, kvs: seq<Entry>)
    requires kvs != []
  {
    && v == Mapping(PutAll([], kvs))
    && UniqueKeys(v.entries)
    && Lookup(v.entries, kvs[|kvs| - 1].key) == Some(kvs[|kvs| - 1].val)
  }

  /** The value a mapping of the pairs `kvs` becomes, stated without the events. */
  lemma PromotedPairs(kvs: seq<Entry>)
    ensures AllNull(kvs) ==> SetOfKeys(Promoted(PutAll([], kvs), true), kvs)
    ensures !AllNull(kvs) ==> DictOfPairs(Promoted(PutAll([], kvs), false), kvs)
  {
    if AllNull(kvs) {
      KeysOfPairs(kvs);
    } else {
      LastPairWins(kvs);
    }
  }

  /** The keys of the dict of `kvs` are the keys of `kvs`, up to Python equality. */
  lemma KeysOfPairs(kvs: seq<Entry>)
    ensures SetOfKeys(Set(KeySet(PutAll([], kvs))), kvs)
  {
    var d := PutAll([], kvs);
    PutAllKeysFrom([], kvs);
    PutAllHasKeys([], kvs);
    forall m | m in KeySet(d) ensures KeyAmong(m, kvs) {
      var j :| 0 <= j < |d| && d[j].key == m;
      assert !KeyAmong(d[j].key, []);
    }
    forall i | 0 <= i < |kvs| ensures exists m :: m in KeySet(d) && SameKey(m, kvs[i].key) {
      var j := IndexOf(d, kvs[i].key).value;
      assert d[j] in d;
    }
  }

  /** In the dict of `kvs` the last pair's value is under its key. */
  lemma LastPairWins(kvs: seq<Entry>)
    requires kvs != []
    ensures DictOfPairs(Mapping(PutAll([], kvs)), kvs)
  {
    PutAllKeepsKeysUnique([], kvs);
    var n := |kvs| - 1;
    assert kvs == kvs[..n] + [kvs[n]];
    PutAllSnoc([], kvs[..n], kvs[n]);
  }

  /** An empty mapping is an empty set. */
  lemma EmptyMappingIsEmptySet(c: Ctx, evs: seq<Event>, pos: nat, aliases: Aliases)
    requires pos < |evs| && evs[pos] == MappingEnd
    ensures BuildValue(c, evs, MappingStart(None, None), pos, aliases) == Ok(Built(Set({}), pos + 1, aliases))
  {
    assert KeySet([]) == {};
  }

  /** The `map` and `set` tags build a mapping exactly as no tag does (a `set` tagged mapping with
      a value is a dict), and the `seq` tag a sequence as no tag does. */
  lemma CoreCollectionTags(c: Ctx, evs: seq<Event>, pos: nat, anchor: Option<string>, aliases: Aliases)
    requires pos <= |evs|
    ensures BuildValue(c, evs, MappingStart(Some(TagMap), anchor), pos, aliases) == BuildValue(c, evs, MappingStart(None, anchor), pos, aliases)
    ensures BuildValue(c, evs, MappingStart(Some(TagSet), anchor), pos, aliases) == BuildValue(c, evs, MappingStart(None, anchor), pos, aliases)
    ensures BuildValue(c, evs, SequenceStart(Some(TagSeq), anchor), pos, aliases) == BuildValue(c, evs, SequenceStart(None, anchor), pos, aliases)
  {
    var m := MapLoop(c, evs, pos, [], None, true, aliases);
    assert BuildValue(c, evs, MappingStart(Some(TagMap), anchor), pos, aliases) == Saved(m, anchor);
    assert BuildValue(c, evs, MappingStart(Some(TagSet), anchor), pos, aliases) == Saved(m, anchor);
    assert BuildValue(c, evs, MappingStart(None, anchor), pos, aliases) == Saved(m, anchor);
    var s := SeqLoop(c, evs, pos, [], aliases);
    assert BuildValue(c, evs, SequenceStart(Some(TagSeq), anchor), pos, aliases) == Saved(s, anchor);
    assert BuildValue(c, evs, SequenceStart(None, anchor), pos, aliases) == Saved(s, anchor);
  }

  /** A merge key followed by a node that builds `v` with no new anchors: the pair is the
      merge of `v` into what was built, and the mapping goes on after the node. */
  lemma MergeStep(c: Ctx, evs: seq<Event>, pos: nat, entries: seq<Entry>, isSet: bool, m: Value, v: Value, next: nat, aliases: Aliases)
    requires UniqueKeys(entries) && pos + 1 < |evs|
    requires ScalarAt(c, evs, pos, m) && IsKeyMerge(m)
    requires BuildValue(c, evs, evs[pos + 1], pos + 2, aliases) == Ok(Built(v, next, aliases))
    requires Insert(entries, m, v).Ok?
    ensures UniqueKeys(Insert(entries, m, v).value)
    ensures MapLoop(c, evs, pos, entries, None, isSet, aliases)
            == MapLoop(c, evs, next, Insert(entries, m, v).value, None, isSet && v == Null, aliases)
  {
    ScalarNode(c, evs, pos, m, aliases);
    MapKeyStep(c, evs, pos, entries, isSet, aliases, Built(m, pos + 1, aliases));
    MapValueStep(c, evs, pos + 1, entries, m, isSet, aliases, Built(v, next, aliases), Insert(entries, m, v).value);
  }

  /** `{a: y, b: z}` over anchorless scalars is the dict of those two pairs. */
  lemma TwoPairMapping(c: Ctx, evs: seq<Event>, pos: nat, a: Value, b: Value, y: Value, z: Value, aliases: Aliases)
    requires pos + 5 < |evs| && evs[pos] == MappingStart(None, None)
    requires Hashable(a) && Hashable(b) && !SameKey(a, b) && !IsKeyMerge(a) && !IsKeyMerge(b) && z != Null
    requires ScalarAt(c, evs, pos + 1, a) && ScalarAt(c, evs, pos + 2, y) && ScalarAt(c, evs, pos + 3, b) && ScalarAt(c, evs, pos + 4, z)
    requires evs[pos + 5] == MappingEnd
    ensures BuildValue(c, evs, evs[pos], pos + 1, aliases) == Ok(Built(Mapping([Entry(a, y), Entry(b, z)]), pos + 6, aliases))
  {
    var inner := [Entry(a, y), Entry(b, z)];
    assert MapBodyAt(c, evs, pos + 1, inner, pos + 6) by {
      assert inner[1..] == [Entry(b, z)] && inner[1..][1..] == [];
    }
    MapOfScalars(c, evs, pos + 1, [], true, inner, pos + 6, aliases);
    assert BuildValue(c, evs, evs[pos], pos + 1, aliases) == Saved(MapLoop(c, evs, pos + 1, [], None, true, aliases), None);
    TwoPuts(a, b, y, z);
    assert !AllNull(inner) by { assert inner[1].val == z; }
  }

  /** Storing two different keys into an empty dict keeps them in order. */
  lemma TwoPuts(a: Value, b: Value, y: Value, z: Value)
    requires !SameKey(a, b)
    ensures PutAll([], [Entry(a, y), Entry(b, z)]) == [Entry(a, y), Entry(b, z)]
  {
    var kvs := [Entry(a, y), Entry(b, z)];
    var one := Put([], a, y);
    assert one == [Entry(a, y)];
    assert IndexOf(one, b) == None by { assert one[1..] == []; }
    assert Put(one, b, z) == kvs;
    assert kvs[1..] == [Entry(b, z)] && kvs[1..][1..] == [];
    assert PutAll([], kvs) == PutAll(one, [Entry(b, z)]);
    assert PutAll(one, [Entry(b, z)]) == PutAll(Put(one, b, z), []);
  }

  /** Merging `{a: y, b: z}` into `{a: x}` keeps `a: x` and adds `b: z`. */
  lemma MergeTwoIntoOne(a: Value, b: Value, x: Value, y: Value, z: Value)
    requires Hashable(a) && !SameKey(a, b)
    ensures Merge([Entry(a, x)], [Entry(a, y), Entry(b, z)]) == [Entry(a, x), Entry(b, z)]
  {
    var one := [Entry(a, x)];
    var inner := [Entry(a, y), Entry(b, z)];
    assert HasKey(one, a);
    assert !HasKey(one, b) by { assert one[1..] == []; }
    assert inner[1..] == [Entry(b, z)] && inner[1..][1..] == [];
    assert Merge(one, inner) == Merge(one, [Entry(b, z)]);
    assert Merge(one, [Entry(b, z)]) == Merge(one + [Entry(b, z)], []);
  }

  /** The merge key: in `{a: x, <<: {a: y, b: z}}` the merged `a` does not replace the one already
      there and `b` is added after it; `<<` itself is not stored. */
  lemma MergeFirstWriterWins(c: Ctx, evs: seq<Event>, pos: nat, a: Value, b: Value, m: Value, x: Value, y: Value, z: Value, aliases: Aliases)
    requires pos + 9 < |evs|
    requires Hashable(a) && Hashable(b) && !SameKey(a, b) && !IsKeyMerge(a) && !IsKeyMerge(b) && IsKeyMerge(m)
    requires x != Null && z != Null
    requires ScalarAt(c, evs, pos, a) && ScalarAt(c, evs, pos + 1, x) && ScalarAt(c, evs, pos + 2, m)
    requires evs[pos + 3] == MappingStart(None, None)
    requires ScalarAt(c, evs, pos + 4, a) && ScalarAt(c, evs, pos + 5, y) && ScalarAt(c, evs, pos + 6, b) && ScalarAt(c, evs, pos + 7, z)
    requires evs[pos + 8] == MappingEnd && evs[pos + 9] == MappingEnd
    ensures MapLoop(c, evs, pos, [], None, true, aliases) == Ok(Built(Mapping([Entry(a, x), Entry(b, z)]), pos + 10, aliases))
  {
    var one := Put([], a, x);
    assert one == [Entry(a, x)];
    var inner := [Entry(a, y), Entry(b, z)];
    var merged := [Entry(a, x), Entry(b, z)];
    MapStep(c, evs, pos, [], true, Entry(a, x), aliases);
    TwoPairMapping(c, evs, pos + 3, a, b, y, z, aliases);
    MergeTwoIntoOne(a, b, x, y, z);
    assert Insert(one, m, Mapping(inner)) == Ok(merged);
    MergeStep(c, evs, pos + 2, one, false, m, Mapping(inner), pos + 9, aliases);
    MapEnd(c, evs, pos + 9, merged, false, aliases);
  }

  /** A merge key whose mapping has only None values fails: the mapping has become a set. */
  lemma MergeOfAllNoneMappingFails(c: Ctx, evs: seq<Event>, pos: nat, m: Value, k: Value, aliases: Aliases)
    requires pos + 4 < |evs|
    requires IsKeyMerge(m) && Hashable(k) && !IsKeyMerge(k)
    requires ScalarAt(c, evs, pos, m) && evs[pos + 1] == MappingStart(None, None)
    requires ScalarAt(c, evs, pos + 2, k) && ScalarAt(c, evs, pos + 3, Null) && evs[pos + 4] == MappingEnd
    ensures MapLoop(c, evs, pos, [], None, true, aliases) == Err(DictionaryOrListAwaited)
  {
    var set1 := OneNullMapping(c, evs, pos + 1, k, aliases);
    ScalarNode(c, evs, pos, m, aliases);
    MapKeyStep(c, evs, pos, [], true, aliases, Built(m, pos + 1, aliases));
    MapValueFails(c, evs, pos + 1, [], m, true, aliases, Built(set1, pos + 5, aliases));
  }

  /** A mapping of one key whose value is None is built as a set. */
  lemma OneNullMapping(c: Ctx, evs: seq<Event>, pos: nat, k: Value, aliases: Aliases) returns (set1: Value)
    requires pos + 3 < |evs| && Hashable(k) && !IsKeyMerge(k)
    requires evs[pos] == MappingStart(None, None)
    requires ScalarAt(c, evs, pos + 1, k) && ScalarAt(c, evs, pos + 2, Null) && evs[pos + 3] == MappingEnd
    ensures set1.Set? && BuildValue(c, evs, evs[pos], pos + 1, aliases) == Ok(Built(set1, pos + 4, aliases))
  {
    var one := [Entry(k, Null)];
    assert MapBodyAt(c, evs, pos + 1, one, pos + 4) by { assert one[1..] == []; }
    MapOfScalars(c, evs, pos + 1, [], true, one, pos + 4, aliases);
    set1 := Promoted(PutAll([], one), AllNull(one));
    assert set1.Set? by { assert one[0].val == Null; }
  }

  // ---------------------------------------------------------------- aliases

  /** An alias after an anchored scalar yields the anchored value again. */
  lemma AnchorThenAlias(c: Ctx, evs: seq<Event>, pos: nat, anchor: string, v: Value, aliases: Aliases)
    requires pos + 2 < |evs|
    requires evs[pos].Scalar? && evs[pos].anchor == Some(anchor)
    requires c.scalar(evs[pos].text, evs[pos].tag) == Ok(v)
    requires evs[pos + 1] == Alias(anchor) && evs[pos + 2] == SequenceEnd
    ensures SeqLoop(c, evs, pos, [], aliases) == Ok(Built(Seq([v, v]), pos + 3, aliases[anchor := v]))
  {
    var bound := aliases[anchor := v];
    assert BuildValue(c, evs, evs[pos], pos + 1, aliases) == Ok(Built(v, pos + 1, bound));
    SeqItemStep(c, evs, pos, [], aliases, Built(v, pos + 1, bound));
    assert LoadAlias(bound, anchor) == Ok(v);
    assert [] + [v] == [v] && [v] + [v] == [v, v];
    SeqItemStep(c, evs, pos + 1, [v], bound, Built(v, pos + 2, bound));
    SeqEnd(c, evs, pos + 2, [v, v], bound);
  }

  /** A collection cannot refer to itself: its anchor is bound only once it is complete. */
  lemma AnchorBoundAfterNode(c: Ctx, evs: seq<Event>, pos: nat, anchor: string, aliases: Aliases)
    requires pos < |evs| && evs[pos] == Alias(anchor) && anchor !in aliases
    ensures BuildValue(c, evs, SequenceStart(None, Some(anchor)), pos, aliases) == Err(UnknownAlias(anchor))
  {
  }

  // ---------------------------------------------------------------- documents

  /** A document whose root node is followed by the document end is that node's value; aliases
      start empty in every document, so a root alias is unknown whatever came before. */
  lemma DocumentOfRoot(c: Ctx, evs: seq<Event>, pos: nat)
    requires pos < |evs| && evs[pos] != DocumentEnd && !evs[pos].Malformed?
    ensures var b := BuildValue(c, evs, evs[pos], pos + 1, map[]);
            b.Ok? && b.value.next < |evs| && evs[b.value.next] == DocumentEnd ==>
              BuildDocument(c, evs, pos) == Ok(Loaded(b.value.value, b.value.next + 1))
    ensures var b := BuildValue(c, evs, evs[pos], pos + 1, map[]);
            b.Ok? && b.value.next < |evs| && evs[b.value.next] != DocumentEnd && !evs[b.value.next].Malformed? ==>
              BuildDocument(c, evs, pos) == Err(AwaitedEndOfDocument)
    ensures evs[pos].Alias? ==> BuildDocument(c, evs, pos) == Err(UnknownAlias(evs[pos].target))
  {
  }

  /** A document end where the root would be: the value is None only if a second document end
      follows. Otherwise the model gives the end-of-document error. The source, on that path,
      first releases its document with `Py_DECREF`, and the document is still NULL there, so it
      dereferences NULL rather than raise cleanly; the model keeps the error it was about to
      raise. */
  lemma DocumentWithoutRoot(c: Ctx, evs: seq<Event>, pos: nat)
    requires pos + 1 < |evs| && evs[pos] == DocumentEnd
    ensures evs[pos + 1] == DocumentEnd ==> BuildDocument(c, evs, pos) == Ok(Loaded(Null, pos + 2))
    ensures evs[pos + 1] != DocumentEnd && !evs[pos + 1].Malformed? ==> BuildDocument(c, evs, pos) == Err(AwaitedEndOfDocument)
  {
  }

  // ---------------------------------------------------------------- the stream

  /** A stream of exactly one document is that document; a second document start after it is
      an error. */
  lemma SingleDocument(c: Ctx, evs: seq<Event>, pos: nat)
    requires pos <= |evs|
    ensures CheckData(evs, pos).Ok? && CheckData(evs, pos).value.0 ==>
              var d := BuildDocument(c, evs, CheckData(evs, pos).value.1);
              d.Ok? && d.value.next < |evs| ==>
                && (evs[d.value.next] == StreamEnd ==> SingleData(c, evs, pos) == Ok(Loaded(d.value.value, d.value.next + 1)))
                && (evs[d.value.next] == DocumentStart ==> SingleData(c, evs, pos) == Err(ExpectedSingleDocument))
  {
  }

  /** The correction changes nothing for a stream that holds a document, or whose start is
      already an error. */
  lemma SingleDataCorrectionScope(c: Ctx, evs: seq<Event>, pos: nat)
    requires pos <= |evs|
    ensures CheckData(evs, pos).Err? || CheckData(evs, pos).value.0 ==> SingleData(c, evs, pos) == SingleDataAsWritten(c, evs, pos)
  {
  }

  /** An empty stream: as written the second `check_data` runs past the stream end, where the
      parser hands out an empty event, and fails; corrected, it is None. After that failure the
      source releases its document with `Py_DECREF` while the document is still NULL, a NULL
      dereference rather than a clean exception; the model keeps the document-start error the
      failing `check_data` raised. */
  lemma EmptyStreamFinding(c: Ctx)
    ensures SingleDataAsWritten(c, [StreamStart, StreamEnd], 0) == Err(AwaitedDocumentStart)
    ensures SingleData(c, [StreamStart, StreamEnd], 0) == Ok(Loaded(Null, 2))
  {
    var evs := [StreamStart, StreamEnd];
    assert CheckData(evs, 0) == Ok((false, 2));
    assert CheckData(evs, 2) == Err(AwaitedDocumentStart);
  }
}
