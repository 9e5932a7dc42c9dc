/** The value tree a document is built into, and the dict operations the mapping builder uses.

    A Python dict is kept as its list of entries in insertion order (keys unique); `Put` is
    `PyDict_SetItem` and `Merge` is `PyDict_Merge` without override. */
module Values {
  import opened Outcome

  datatype Value =
    | Null
    | Bool(b: bool)
    | Int(i: int)
    /** A Python float, as `Host.floatOf` gives it; dict keys compare it structurally. */
    | Float(repr: string)
    | Str(s: string)
    | Bytes(data: seq<bv8>)
    | Date(year: int, month: int, day: int)
    | DateTime(year: int, month: int, day: int, hour: int, minute: int, second: int, microsecond: int)
    | Seq(items: seq<Value>)
    | Mapping(entries: seq<Entry>)
    | Set(members: set<Value>)
    | Pairs(pairs: seq<Entry>)

  /** A dict entry, or one (key, value) tuple of a pairs list. */
  datatype Entry = Entry(key: Value, val: Value)

  /** Python can hash the value, so it may be a dict key: lists, dicts and sets cannot. */
  predicate Hashable(v: Value) {
    !(v.Seq? || v.Mapping? || v.Set? || v.Pairs?)
  }

  /** The integer a key stands for under Python equality: `True == 1` and `False == 0`. */
  function KeyNumber(v: Value): Option<int> {
    match v
    case Bool(b) => Some(if b then 1 else 0)
    case Int(i) => Some(i)
    case _ => None
  }

  /** Python's `==` on dict keys: booleans and integers compare by number, everything else structurally. */
  predicate SameKey(a: Value, b: Value) {
    if KeyNumber(a).Some? || KeyNumber(b).Some? then KeyNumber(a) == KeyNumber(b) else a == b
  }

  /** Position of the first entry whose key equals `k`. */
  function IndexOf(es: seq<Entry>, k: Value): (r: Option<nat>)
    ensures r.Some? ==> r.value < |es| && SameKey(es[r.value].key, k)
    ensures r.Some? ==> forall j :: 0 <= j < r.value ==> !SameKey(es[j].key, k)
    ensures r.None? ==> forall j :: 0 <= j < |es| ==> !SameKey(es[j].key, k)
  {
    if es == [] then None
    else if SameKey(es[0].key, k) then Some(0)
    else match IndexOf(es[1..], k)
      case None => None
      case Some(i) => Some(i + 1)
  }

  predicate HasKey(es: seq<Entry>, k: Value) {
    IndexOf(es, k).Some?
  }

  /** `dict.get(k)`. */
  function Lookup(es: seq<Entry>, k: Value): Option<Value> {
    match IndexOf(es, k)
    case None => None
    case Some(i) => Some(es[i].val)
  }

  function KeySet(es: seq<Entry>): set<Value> {
    set e | e in es :: e.key
  }

  function KeysInOrder(es: seq<Entry>): seq<Value> {
    seq(|es|, i requires 0 <= i < |es| => es[i].key)
  }

  ghost predicate UniqueKeys(es: seq<Entry>) {
    forall i, j :: 0 <= i < j < |es| ==> !SameKey(es[i].key, es[j].key)
  }

  /** `PyDict_SetItem`: an existing key keeps its place (and its first key object) and gets the
      new value; a new key goes last. */
  function Put(es: seq<Entry>, k: Value, v: Value): (r: seq<Entry>)
    ensures Lookup(r, k) == Some(v)
    ensures forall k' :: !SameKey(k', k) ==> Lookup(r, k') == Lookup(es, k')
    ensures KeysInOrder(r) == if HasKey(es, k) then KeysInOrder(es) else KeysInOrder(es) + [k]
  {
    match IndexOf(es, k)
    case Some(i) =>
      var r := es[i := Entry(es[i].key, v)];
      assert forall k' :: !SameKey(k', k) ==> IndexOf(r, k') == IndexOf(es, k') by {
        forall k' | !SameKey(k', k) ensures IndexOf(r, k') == IndexOf(es, k') {
          SameKeysSameIndex(es, r, k');
        }
      }
      assert IndexOf(r, k) == Some(i) by { SameKeysSameIndex(es, r, k); }
      r
    case None =>
      var r := es + [Entry(k, v)];
      assert forall k' :: !SameKey(k', k) ==> IndexOf(r, k') == IndexOf(es, k') by {
        forall k' | !SameKey(k', k) ensures IndexOf(r, k') == IndexOf(es, k') {
          IndexOfAppend(es, Entry(k, v), k');
        }
      }
      IndexOfAppend(es, Entry(k, v), k);
      r
  }

  /** Two entry lists with the same keys in the same places find a key at the same place. */
  lemma {:induction false} SameKeysSameIndex(a: seq<Entry>, b: seq<Entry>, k: Value)
    requires |a| == |b| && forall i :: 0 <= i < |a| ==> a[i].key == b[i].key
    ensures IndexOf(a, k) == IndexOf(b, k)
  {
    if a != [] && !SameKey(a[0].key, k) {
      SameKeysSameIndex(a[1..], b[1..], k);
    }
  }

  lemma IndexOfAppend(es: seq<Entry>, e: Entry, k: Value)
    ensures IndexOf(es + [e], k) ==
      if HasKey(es, k) then IndexOf(es, k) else if SameKey(e.key, k) then Some(|es|) else None
  {
    var s := es + [e];
    if HasKey(es, k) {
      var i := IndexOf(es, k).value;
      assert s[i] == es[i];
      IndexOfIsFirst(s, k, i);
    } else if SameKey(e.key, k) {
      assert s[|es|] == e;
      IndexOfIsFirst(s, k, |es|);
    } else {
      assert forall j :: 0 <= j < |s| ==> !SameKey(s[j].key, k) by {
        forall j | 0 <= j < |s| ensures !SameKey(s[j].key, k) {
          if j < |es| { assert s[j] == es[j]; }
        }
      }
    }
  }

  /** The first entry with an equal key is the one `IndexOf` finds. */
  lemma IndexOfIsFirst(es: seq<Entry>, k: Value, i: nat)
    requires i < |es| && SameKey(es[i].key, k)
    requires forall j :: 0 <= j < i ==> !SameKey(es[j].key, k)
    ensures IndexOf(es, k) == Some(i)
  {
  }

  /** `PyDict_Merge(target, source, 0)`: the source's entries, in its order, whose keys the target lacks
      are appended; nothing already in the target is replaced. */
  function Merge(target: seq<Entry>, source: seq<Entry>): (r: seq<Entry>)
    ensures |target| <= |r| <= |target| + |source|
    decreases |source|
  {
    if source == [] then target
    else if HasKey(target, source[0].key) then Merge(target, source[1..])
    else Merge(target + [source[0]], source[1..])
  }

  /** Merging never overwrites: a key the target has keeps its value; any other key gets the value
      the source gives it first; keys in neither stay absent. */
  lemma {:induction false} MergeLookup(target: seq<Entry>, source: seq<Entry>, k: Value)
    ensures HasKey(target, k) ==> Lookup(Merge(target, source), k) == Lookup(target, k)
    ensures !HasKey(target, k) ==> Lookup(Merge(target, source), k) == Lookup(source, k)
    decreases |source|
  {
    if source != [] {
      var e := source[0];
      if HasKey(target, e.key) {
        MergeLookup(target, source[1..], k);
        MergeLookupSkip(target, source, k);
      } else {
        MergeLookup(target + [e], source[1..], k);
        MergeLookupAppend(target, source, k);
      }
    }
  }

  /** A source entry whose key the target has is skipped. */
  lemma MergeLookupSkip(target: seq<Entry>, source: seq<Entry>, k: Value)
    requires source != [] && HasKey(target, source[0].key)
    requires HasKey(target, k) ==> Lookup(Merge(target, source[1..]), k) == Lookup(target, k)
    requires !HasKey(target, k) ==> Lookup(Merge(target, source[1..]), k) == Lookup(source[1..], k)
    ensures HasKey(target, k) ==> Lookup(Merge(target, source), k) == Lookup(target, k)
    ensures !HasKey(target, k) ==> Lookup(Merge(target, source), k) == Lookup(source, k)
  {
    assert Merge(target, source) == Merge(target, source[1..]);
    if !HasKey(target, k) {
      KeyOfOtherClass(target, source[0].key, k);
      assert Lookup(source, k) == Lookup(source[1..], k);
    }
  }

  /** A key the dict has is not equal to one it lacks. */
  lemma KeyOfOtherClass(es: seq<Entry>, a: Value, b: Value)
    requires HasKey(es, a) && !HasKey(es, b)
    ensures !SameKey(a, b)
  {
    var i := IndexOf(es, a).value;
    assert SameKey(es[i].key, a) && !SameKey(es[i].key, b);
  }

  /** A source entry whose key the target lacks is appended. */
  lemma MergeLookupAppend(target: seq<Entry>, source: seq<Entry>, k: Value)
    requires source != [] && !HasKey(target, source[0].key)
    requires HasKey(target + [source[0]], k) ==> Lookup(Merge(target + [source[0]], source[1..]), k) == Lookup(target + [source[0]], k)
    requires !HasKey(target + [source[0]], k) ==> Lookup(Merge(target + [source[0]], source[1..]), k) == Lookup(source[1..], k)
    ensures HasKey(target, k) ==> Lookup(Merge(target, source), k) == Lookup(target, k)
    ensures !HasKey(target, k) ==> Lookup(Merge(target, source), k) == Lookup(source, k)
  {
    var e := source[0];
    assert Merge(target, source) == Merge(target + [e], source[1..]);
    IndexOfAppend(target, e, k);
    if HasKey(target, k) {
      assert (target + [e])[IndexOf(target, k).value] == target[IndexOf(target, k).value];
    } else if SameKey(e.key, k) {
      assert (target + [e])[|target|] == e;
    } else {
      assert Lookup(source, k) == Lookup(source[1..], k);
    }
  }

  /** The target is a prefix of the merge: entries already there keep their order and values. */
  lemma {:induction false} MergeExtends(target: seq<Entry>, source: seq<Entry>)
    ensures |Merge(target, source)| >= |target| && Merge(target, source)[..|target|] == target
    decreases |source|
  {
    if source != [] {
      if HasKey(target, source[0].key) {
        MergeExtends(target, source[1..]);
      } else {
        MergeExtends(target + [source[0]], source[1..]);
        assert (target + [source[0]])[..|target|] == target;
      }
    }
  }

  /** A dict stays a dict: merging keeps the keys unique. */
  lemma {:induction false} MergeKeepsKeysUnique(target: seq<Entry>, source: seq<Entry>)
    requires UniqueKeys(target)
    ensures UniqueKeys(Merge(target, source))
    decreases |source|
  {
    if source != [] {
      if HasKey(target, source[0].key) {
        MergeKeepsKeysUnique(target, source[1..]);
      } else {
        var t := target + [source[0]];
        assert UniqueKeys(t);
        MergeKeepsKeysUnique(t, source[1..]);
      }
    }
  }

  /** `Put` keeps the keys unique. */
  lemma PutKeepsKeysUnique(es: seq<Entry>, k: Value, v: Value)
    requires UniqueKeys(es)
    ensures UniqueKeys(Put(es, k, v))
  {
    var r := Put(es, k, v);
    assert forall i :: 0 <= i < |r| ==> r[i].key == KeysInOrder(r)[i];
    assert forall i :: 0 <= i < |es| ==> es[i].key == KeysInOrder(es)[i];
  }

  /** The merge applied for a list value under `<<`: each element, in list order, must be a dict. */
  function MergeEach(target: seq<Entry>, items: seq<Value>): (r: Result<seq<Entry>>)
    ensures r.Err? <==> exists i :: 0 <= i < |items| && !items[i].Mapping?
    ensures r.Err? ==> r.error == MergeItemNotMapping
    decreases |items|
  {
    if items == [] then Ok(target)
    else if !items[0].Mapping? then Err(MergeItemNotMapping)
    else
      var r := MergeEach(Merge(target, items[0].entries), items[1..]);
      assert forall i :: 1 <= i < |items| ==> items[i] == items[1..][i - 1];
      r
  }
}
