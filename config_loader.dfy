/**
 * Configuration loading: JSON-like documents are merged left to right, a
 * later document overriding an earlier one key by key and nested maps
 * being merged recursively. Reading and parsing the files is outside the
 * model: each file arrives as its parsed contents.
 */
module ConfigLoader {
  import opened Wrappers
  import opened Dicts

  /** A parsed YAML or JSON value; maps keep their insertion order. */
  datatype Value =
    | Null
    | Bool(b: bool)
    | Number(n: real)
    | Str(s: string)
    | Array(items: seq<Value>)
    | Object(fields: Dict<Value>)

  /**
   * The value `deep_merge` stores for a key of `b` whose value is `v`, when
   * `a` held `prev` for it: the recursive merge when both are maps, `v` otherwise.
   */
  function MergedValue(prev: Option<Value>, v: Value): Value
    decreases v, 2
  {
    if prev.Some? && prev.value.Object? && v.Object? then
      assert v == Object(v.fields);
      Object(Merge(prev.value.fields, v.fields))
    else
      v
  }

  /** The copy of `a` after the loop of `deep_merge` has visited the first `n` entries of `b`. */
  function MergeFrom(a: Dict<Value>, b: Dict<Value>, n: nat): Dict<Value>
    requires n <= |b|
    decreases Object(b), 0, n
  {
    if n == 0 then a
    else
      var out := MergeFrom(a, b, n - 1);
      var (k, v) := b[n - 1];
      assert b[n - 1] < Object(b);
      Put(out, k, MergedValue(Lookup(out, k), v))
  }

  /** `deep_merge(a, b)` */
  function Merge(a: Dict<Value>, b: Dict<Value>): Dict<Value>
    decreases Object(b), 1
  {
    MergeFrom(a, b, |b|)
  }

  /**
   * `a` after storing the entries of `b[..n]` in turn, each combined by `f`
   * with what the key held before: the loop of `deep_merge` with its
   * combining step left open.
   */
  function StoreWith<V>(a: Dict<V>, b: Dict<V>, n: nat, f: (Option<V>, V) -> V): Dict<V>
    requires n <= |b|
  {
    if n == 0 then a
    else
      var out := StoreWith(a, b, n - 1, f);
      Put(out, b[n - 1].0, f(Lookup(out, b[n - 1].0), b[n - 1].1))
  }

  /**
   * After storing `b[..n]`, a key among those entries holds `f` of what `a`
   * held and what `b` holds; any other key holds what `a` held.
   */
  lemma StoreWithLookup<V>(a: Dict<V>, b: Dict<V>, n: nat, f: (Option<V>, V) -> V, k: string)
    requires n <= |b|
    ensures k in KeyList(b)[..n] ==> Lookup(StoreWith(a, b, n, f), k) == Some(f(Lookup(a, k), Lookup(b, k).value))
    ensures k !in KeyList(b)[..n] ==> Lookup(StoreWith(a, b, n, f), k) == Lookup(a, k)
  {
    if k in KeyList(b)[..n] {
      StoreWithStored(a, b, n, f, k);
    } else {
      StoreWithUntouched(a, b, n, f, k);
    }
  }

  /** A key no entry of `b[..n]` has keeps what `a` held. */
  lemma {:induction false} StoreWithUntouched<V>(a: Dict<V>, b: Dict<V>, n: nat, f: (Option<V>, V) -> V, k: string)
    requires n <= |b| && k !in KeyList(b)[..n]
    ensures Lookup(StoreWith(a, b, n, f), k) == Lookup(a, k)
  {
    if n > 0 {
      assert KeyList(b)[..n] == KeyList(b)[..n - 1] + [b[n - 1].0];
      StoreStep(a, b, n, f, k);
      StoreWithUntouched(a, b, n - 1, f, k);
    }
  }

  /** A key of `b[..n]` holds `f` of what `a` held and what `b` holds. */
  lemma {:induction false} StoreWithStored<V>(a: Dict<V>, b: Dict<V>, n: nat, f: (Option<V>, V) -> V, k: string)
    requires n <= |b| && k in KeyList(b)[..n]
    ensures Lookup(StoreWith(a, b, n, f), k) == Some(f(Lookup(a, k), Lookup(b, k).value))
  {
    var key := b[n - 1].0;
    assert KeyList(b)[..n] == KeyList(b)[..n - 1] + [key];
    StoreStep(a, b, n, f, k);
    if k == key {
      KeyNotBefore(b, n - 1);
      StoreWithUntouched(a, b, n - 1, f, key);
      LookupAt(b, n - 1);
    } else {
      StoreWithStored(a, b, n - 1, f, k);
    }
  }

  /** One store: the key of `b[n - 1]` gets the combined value, every other key keeps its value. */
  lemma StoreStep<V>(a: Dict<V>, b: Dict<V>, n: nat, f: (Option<V>, V) -> V, k: string)
    requires 0 < n <= |b|
    ensures var out := StoreWith(a, b, n - 1, f);
      Lookup(StoreWith(a, b, n, f), k) == if k == b[n - 1].0 then Some(f(Lookup(out, k), b[n - 1].1)) else Lookup(out, k)
  {
    var out := StoreWith(a, b, n - 1, f);
    PutLookup(out, b[n - 1].0, f(Lookup(out, b[n - 1].0), b[n - 1].1), k);
  }

  /** The keys of `bs` that `a` lacks, in `bs`'s order. */
  function NewKeys<V>(a: Dict<V>, bs: seq<string>): seq<string> {
    if bs == [] then []
    else NewKeys(a, bs[..|bs| - 1]) + if HasKey(a, bs[|bs| - 1]) then [] else [bs[|bs| - 1]]
  }

  /** Extending the list of candidate keys by one. */
  lemma NewKeysStep<V>(a: Dict<V>, ks: seq<string>, n: nat)
    requires 0 < n <= |ks|
    ensures NewKeys(a, ks[..n]) == NewKeys(a, ks[..n - 1]) + if HasKey(a, ks[n - 1]) then [] else [ks[n - 1]]
  {
    assert ks[..n][..n - 1] == ks[..n - 1];
  }

  /** Storing keeps `a`'s keys in their places and appends the keys new in `b[..n]`, in `b`'s order. */
  lemma {:induction false} StoreWithKeyOrder<V>(a: Dict<V>, b: Dict<V>, n: nat, f: (Option<V>, V) -> V)
    requires n <= |b|
    ensures KeyList(StoreWith(a, b, n, f)) == KeyList(a) + NewKeys(a, KeyList(b)[..n])
  {
    if n > 0 {
      var key := b[n - 1].0;
      var out := StoreWith(a, b, n - 1, f);
      var stored := f(Lookup(out, key), b[n - 1].1);
      StoreWithKeyOrder(a, b, n - 1, f);
      StoreWithLookup(a, b, n - 1, f, key);
      KeyNotBefore(b, n - 1);
      NewKeysStep(a, KeyList(b), n);
      KeyOrderStep(a, out, key, stored, NewKeys(a, KeyList(b)[..n - 1]));
    }
  }

  /** One store of the loop keeps the key order: a key `a` already had stays put, a new one goes last. */
  lemma KeyOrderStep<V>(a: Dict<V>, out: Dict<V>, key: string, v: V, earlier: seq<string>)
    requires KeyList(out) == KeyList(a) + earlier
    requires Lookup(out, key) == Lookup(a, key)
    ensures KeyList(Put(out, key, v)) == KeyList(a) + (earlier + if HasKey(a, key) then [] else [key])
  {
    PutKeys(out, key, v);
    assert HasKey(out, key) <==> HasKey(a, key);
  }

  /** The loop of `deep_merge` is `StoreWith` with `MergedValue` as its combining step. */
  lemma {:induction false} MergeFromIsStore(a: Dict<Value>, b: Dict<Value>, n: nat)
    requires n <= |b|
    ensures MergeFrom(a, b, n) == StoreWith(a, b, n, MergedValue)
  {
    if n > 0 {
      MergeFromIsStore(a, b, n - 1);
    }
  }

  /**
   * What `deep_merge(a, b)` holds for each key: `a`'s value for a key only
   * in `a`, `b`'s value for a key of `b` unless both values are maps, and
   * the recursive merge of the two maps when they are; no other key.
   */
  lemma MergeLookup(a: Dict<Value>, b: Dict<Value>, k: string)
    ensures Lookup(Merge(a, b), k) ==
      if !HasKey(b, k) then Lookup(a, k)
      else if HasKey(a, k) && Lookup(a, k).value.Object? && Lookup(b, k).value.Object? then
        Some(Object(Merge(Lookup(a, k).value.fields, Lookup(b, k).value.fields)))
      else Lookup(b, k)
  {
    MergeFromIsStore(a, b, |b|);
    StoreWithLookup(a, b, |b|, MergedValue, k);
    assert KeyList(b)[..|b|] == KeyList(b);
  }

  /** The keys of the merge are the keys of either side. */
  lemma MergeKeys(a: Dict<Value>, b: Dict<Value>, k: string)
    ensures HasKey(Merge(a, b), k) <==> HasKey(a, k) || HasKey(b, k)
  {
    MergeLookup(a, b, k);
  }

  /** `deep_merge`'s key order: `a`'s keys first and unmoved, then the new keys of `b`. */
  lemma MergeKeyOrder(a: Dict<Value>, b: Dict<Value>)
    ensures KeyList(Merge(a, b)) == KeyList(a) + NewKeys(a, KeyList(b))
  {
    MergeFromIsStore(a, b, |b|);
    StoreWithKeyOrder(a, b, |b|, MergedValue);
    assert KeyList(b)[..|b|] == KeyList(b);
  }

  /** Merging nothing in leaves `a` as it was. */
  lemma MergeEmptyRight(a: Dict<Value>)
    ensures Merge(a, []) == a
  {
    assert Merge(a, []) == MergeFrom(a, [], 0);
  }

  /** Merging into nothing copies `b`. */
  lemma MergeEmptyLeft(b: Dict<Value>)
    ensures Merge([], b) == b
  {
    MergeFromEmptyLeft(b, |b|);
    assert b[..|b|] == b;
  }

  lemma {:induction false} MergeFromEmptyLeft(b: Dict<Value>, n: nat)
    requires n <= |b|
    ensures MergeFrom([], b, n) == b[..n]
  {
    if n > 0 {
      MergeFromEmptyLeft(b, n - 1);
      assert KeyList(b[..n - 1]) == KeyList(b)[..n - 1];
      assert !HasKey(b[..n - 1], b[n - 1].0);
      assert b[..n] == b[..n - 1] + [b[n - 1]];
    }
  }

  /**
   * `deep_merge`: copies `a`, then stores each entry of `b` in turn, merging
   * recursively where both sides hold a map. Neither argument changes: dicts
   * here are values.
   */
  method DeepMerge(a: Dict<Value>, b: Dict<Value>) returns (out: Dict<Value>)
    ensures out == Merge(a, b)
    decreases Object(b)
  {
    out := a;
    for i := 0 to |b|
      invariant out == MergeFrom(a, b, i)
    {
      var (k, v) := b[i];
      assert b[i] < Object(b);
      ghost var merged := MergedValue(Lookup(out, k), v);
      assert MergeFrom(a, b, i + 1) == Put(out, k, merged);
      if HasKey(out, k) && Lookup(out, k).value.Object? && v.Object? {
        assert v == Object(v.fields);
        var sub := DeepMerge(Lookup(out, k).value.fields, v.fields);
        assert Object(sub) == merged;
        out := Put(out, k, Object(sub));
      } else {
        assert v == merged;
        out := Put(out, k, v);
      }
    }
  }

  /**
   * One path given to `load_config`: a file that does not exist, one that
   * exists but does not load (or loads as nothing) and so reads as `{}`, or
   * the map it parses to.
   */
  datatype ConfigFile = Missing | Unreadable | Parsed(part: Dict<Value>)

  /** `load_config`: `deep_merge` folded from the left over the loaded files, starting from `{}`. */
  function Loaded(files: seq<ConfigFile>): Dict<Value> {
    if files == [] then []
    else
      var config := Loaded(files[..|files| - 1]);
      match files[|files| - 1]
      case Missing => config
      case Unreadable => Merge(config, [])
      case Parsed(part) => Merge(config, part)
  }

  /** `load_config`: skips missing files and merges each loaded one into the result so far. */
  method LoadConfig(files: seq<ConfigFile>) returns (config: Dict<Value>)
    ensures config == Loaded(files)
  {
    config := [];
    for i := 0 to |files|
      invariant config == Loaded(files[..i])
    {
      assert files[..i + 1][..i] == files[..i];
      match files[i]
      case Missing =>
      case Unreadable =>
        config := DeepMerge(config, []);
      case Parsed(part) =>
        config := DeepMerge(config, part);
    }
    assert files[..|files|] == files;
  }

  /** A missing or unreadable file changes nothing, wherever it stands in the list. */
  lemma {:induction false} SkippedFileChangesNothing(before: seq<ConfigFile>, f: ConfigFile, after: seq<ConfigFile>)
    requires !f.Parsed?
    ensures Loaded(before + [f] + after) == Loaded(before + after)
    decreases |after|
  {
    if after == [] {
      assert (before + [f])[..|before|] == before;
      assert before + [f] + after == before + [f];
      assert before + after == before;
      MergeEmptyRight(Loaded(before));
    } else {
      var init := after[..|after| - 1];
      SkippedFileChangesNothing(before, f, init);
      assert (before + [f] + after)[..|before + [f] + after| - 1] == before + [f] + init;
      assert (before + after)[..|before + after| - 1] == before + init;
    }
  }

  /** A key is configured iff some loaded file has it. */
  lemma {:induction false} LoadedKeys(files: seq<ConfigFile>, k: string)
    ensures HasKey(Loaded(files), k) <==> exists i :: 0 <= i < |files| && files[i].Parsed? && HasKey(files[i].part, k)
  {
    if files != [] {
      var init := files[..|files| - 1];
      LoadedKeys(init, k);
      assert forall i :: 0 <= i < |init| ==> files[i] == init[i];
      match files[|files| - 1]
      case Missing =>
      case Unreadable =>
        MergeKeys(Loaded(init), [], k);
      case Parsed(part) =>
        MergeKeys(Loaded(init), part, k);
    }
  }

  /** The last file to set a key to a non-map value decides it. */
  lemma LastFileWins(files: seq<ConfigFile>, part: Dict<Value>, k: string)
    requires HasKey(part, k) && !Lookup(part, k).value.Object?
    ensures Lookup(Loaded(files + [Parsed(part)]), k) == Lookup(part, k)
  {
    assert (files + [Parsed(part)])[..|files|] == files;
    MergeLookup(Loaded(files), part, k);
  }
}
