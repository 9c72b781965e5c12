/**
 * Python's built-in `dict`, as the core uses it: an insertion-ordered table
 * whose keys are strings and are never repeated. Iterating a dict (`.items()`,
 * `.values()`, a comprehension) visits the entries in insertion order, and
 * assigning to a key that is already present keeps its position.
 */
module Dicts {
  import opened Wrappers

  /** The keys of an association list, in order. */
  function KeyList<V>(d: seq<(string, V)>): (ks: seq<string>)
    ensures |ks| == |d|
    ensures forall i :: 0 <= i < |d| ==> ks[i] == d[i].0
  {
    seq(|d|, i requires 0 <= i < |d| => d[i].0)
  }

  predicate DistinctKeys<V>(d: seq<(string, V)>) {
    forall i, j :: 0 <= i < j < |d| ==> d[i].0 != d[j].0
  }

  /** A dict: its entries in insertion order, no key twice. */
  type Dict<V> = d: seq<(string, V)> | DistinctKeys(d) witness []

  /** `k in d` */
  predicate HasKey<V>(d: Dict<V>, k: string) {
    k in KeyList(d)
  }

  /** `d[k]` when `k in d`, `None` otherwise. */
  function Lookup<V>(d: Dict<V>, k: string): (r: Option<V>)
    ensures r.Some? <==> HasKey(d, k)
  {
    if d == [] then None
    else if d[0].0 == k then Some(d[0].1)
    else Lookup(d[1..], k)
  }

  /** `d.get(k, default)` */
  function Get<V>(d: Dict<V>, k: string, default: V): V {
    Lookup(d, k).GetOr(default)
  }

  /** `list(d.values())` */
  function Values<V>(d: Dict<V>): (vs: seq<V>)
    ensures |vs| == |d|
    ensures forall i :: 0 <= i < |d| ==> vs[i] == d[i].1
  {
    seq(|d|, i requires 0 <= i < |d| => d[i].1)
  }

  /** The position of key `k` in `d`. */
  function IndexOf<V>(d: Dict<V>, k: string): (i: nat)
    requires HasKey(d, k)
    ensures i < |d| && d[i].0 == k
  {
    if d[0].0 == k then 0 else 1 + IndexOf(d[1..], k)
  }

  /** `d[k] = v` on a copy of `d`: an existing key keeps its place, a new one goes last. */
  function Put<V>(d: Dict<V>, k: string, v: V): Dict<V> {
    if HasKey(d, k) then
      var i := IndexOf(d, k);
      PutAt(d, i, v);
      d[i := (k, v)]
    else
      LookupSnoc(d, k, v);
      d + [(k, v)]
  }

  /** After `d[k] = v` the keys are those of `d`, with `k` appended when it is new. */
  lemma PutKeys<V>(d: Dict<V>, k: string, v: V)
    ensures KeyList(Put(d, k, v)) == if HasKey(d, k) then KeyList(d) else KeyList(d) + [k]
  {
    if HasKey(d, k) {
      var i := IndexOf(d, k);
      assert KeyList(d[i := (k, v)]) == KeyList(d);
    }
  }

  /** After `d[k] = v`, `k` maps to `v` and every other key to what it mapped to before. */
  lemma PutLookup<V>(d: Dict<V>, k: string, v: V, j: string)
    ensures Lookup(Put(d, k, v), j) == if j == k then Some(v) else Lookup(d, j)
  {
    if HasKey(d, k) {
      PutAt(d, IndexOf(d, k), v);
    } else {
      LookupSnoc(d, k, v);
    }
  }

  /** Replacing the value at position i changes what the key there looks up, and nothing else. */
  lemma PutAt<V>(d: Dict<V>, i: nat, v: V)
    requires i < |d|
    ensures DistinctKeys(d[i := (d[i].0, v)])
    ensures Lookup(d[i := (d[i].0, v)], d[i].0) == Some(v)
    ensures forall j :: j != d[i].0 ==> Lookup(d[i := (d[i].0, v)], j) == Lookup(d, j)
  {
    var r: Dict<V> := d[i := (d[i].0, v)];
    LookupAt(r, i);
    forall j | j != d[i].0
      ensures Lookup(r, j) == Lookup(d, j)
    {
      if HasKey(d, j) {
        var m := IndexOf(d, j);
        LookupAt(d, m);
        LookupAt(r, m);
      } else {
        assert KeyList(r) == KeyList(d)[i := d[i].0];
        assert !HasKey(r, j);
      }
    }
  }

  /** The key at position n of a dict does not occur before it. */
  lemma KeyNotBefore<V>(d: Dict<V>, n: nat)
    requires n < |d|
    ensures d[n].0 !in KeyList(d)[..n]
  {
    var before := KeyList(d)[..n];
    assert forall i :: 0 <= i < |before| ==> before[i] == d[i].0;
  }

  /** In a dict, the entry at position i is what its key looks up. */
  lemma {:induction false} LookupAt<V>(d: Dict<V>, i: nat)
    requires i < |d|
    ensures Lookup(d, d[i].0) == Some(d[i].1)
  {
    if i > 0 {
      LookupAt(d[1..], i - 1);
    }
  }

  /**
   * `xs` can be obtained from `ys` by deleting elements: what a filter
   * that keeps the order of its input produces.
   */
  predicate IsSubseq<T(==)>(xs: seq<T>, ys: seq<T>)
    decreases |ys|
  {
    if xs == [] then true
    else if ys == [] then false
    else
      (xs[|xs| - 1] == ys[|ys| - 1] && IsSubseq(xs[..|xs| - 1], ys[..|ys| - 1]))
      || IsSubseq(xs, ys[..|ys| - 1])
  }

  /** The keys of `d` whose value is true, in the dict's order: `[k for k, f in d.items() if f]`. */
  function TrueKeys(d: Dict<bool>): (ks: seq<string>)
    ensures forall k :: k in ks <==> Lookup(d, k) == Some(true)
    ensures IsSubseq(ks, KeyList(d))
  {
    if d == [] then []
    else
      var init := d[..|d| - 1];
      var last := d[|d| - 1];
      var rest := TrueKeys(init);
      assert KeyList(init) == KeyList(d)[..|d| - 1];
      assert d == init + [last];
      LookupSnoc(init, last.0, last.1);
      if last.1 then rest + [last.0] else rest
  }

  /** Looking up in a dict extended at the end by a fresh key. */
  lemma {:induction false} LookupSnoc<V>(d: Dict<V>, k: string, v: V)
    requires !HasKey(d, k)
    ensures DistinctKeys(d + [(k, v)])
    ensures Lookup(d + [(k, v)], k) == Some(v)
    ensures forall j :: j != k ==> Lookup(d + [(k, v)], j) == Lookup(d, j)
  {
    if d != [] {
      assert (d + [(k, v)])[1..] == d[1..] + [(k, v)];
      LookupSnoc(d[1..], k, v);
    }
  }

  /** Every entry of `d` after `d[k] = v` is `(k, v)` or an entry of `d`. */
  lemma PutEntries<V>(d: Dict<V>, k: string, v: V)
    ensures forall e :: e in Put(d, k, v) ==> e == (k, v) || e in d
  {
    if HasKey(d, k) {
      var i := IndexOf(d, k);
      var r := d[i := (k, v)];
      forall e | e in r
        ensures e == (k, v) || e in d
      {
        var m :| 0 <= m < |r| && r[m] == e;
        if m != i {
          assert e == d[m];
        }
      }
    }
  }

  /** A subsequence of a subsequence of `zs` is a subsequence of `zs`. */
  lemma {:induction false} IsSubseqTrans<T>(xs: seq<T>, ys: seq<T>, zs: seq<T>)
    requires IsSubseq(xs, ys) && IsSubseq(ys, zs)
    ensures IsSubseq(xs, zs)
    decreases |zs|
  {
    if xs != [] {
      var zs' := zs[..|zs| - 1];
      var ys' := ys[..|ys| - 1];
      if ys[|ys| - 1] == zs[|zs| - 1] && IsSubseq(ys', zs') {
        if xs[|xs| - 1] == ys[|ys| - 1] && IsSubseq(xs[..|xs| - 1], ys') {
          IsSubseqTrans(xs[..|xs| - 1], ys', zs');
        } else {
          IsSubseqTrans(xs, ys', zs');
        }
      } else {
        IsSubseqTrans(xs, ys, zs');
      }
    }
  }

  /** A dict with no true value has no true keys. */
  lemma NoTrueKeys(d: Dict<bool>)
    requires forall i :: 0 <= i < |d| ==> !d[i].1
    ensures TrueKeys(d) == []
  {
    var ks := TrueKeys(d);
    if ks != [] {
      assert Lookup(d, ks[0]) == Some(true);
      LookupAt(d, IndexOf(d, ks[0]));
      assert false;
    }
  }
}
