/**
  PHP arrays with string keys, as ordered association lists, and PHP's
  `array_merge` on them. A PHP array never holds a key twice; `WellFormed`
  states that, and the operations here preserve it.
 */
module PhpArray {

  datatype Option<+T> = None | Some(value: T)

  /** An ordered string-keyed PHP array. */
  type Array<V> = seq<(string, V)>

  /** The option values the post-type helper puts into its arrays. */
  datatype Value =
    | Str(s: string)
    | Bool(b: bool)
    | Int(i: int)
    | Null
    | List(items: seq<Value>)            // an integer-keyed array such as array('title', 'editor')
    | Dict(entries: seq<(string, Value)>) // a string-keyed array

  /** No key occurs twice. */
  predicate WellFormed<V>(d: Array<V>)
  {
    forall i, j :: 0 <= i < j < |d| ==> d[i].0 != d[j].0
  }

  /** The keys, in iteration order (`array_keys`). */
  function Keys<V>(d: Array<V>): (ks: seq<string>)
    ensures |ks| == |d|
    ensures forall i :: 0 <= i < |d| ==> ks[i] == d[i].0
  {
    if d == [] then [] else [d[0].0] + Keys(d[1..])
  }

  /** The array literal `array(ks[0] => vs[0], ks[1] => vs[1], …)`. */
  function Zip<V>(ks: seq<string>, vs: seq<V>): (r: Array<V>)
    requires |ks| == |vs|
    ensures Keys(r) == ks
    ensures forall i :: 0 <= i < |r| ==> r[i] == (ks[i], vs[i])
  {
    if ks == [] then [] else [(ks[0], vs[0])] + Zip(ks[1..], vs[1..])
  }

  /** `$d[$k]` for a key that may be missing. */
  function Get<V>(d: Array<V>, k: string): Option<V>
  {
    if d == [] then None
    else if d[0].0 == k then Some(d[0].1)
    else Get(d[1..], k)
  }

  /** Lookup finds a value exactly when the key is present, and the value found is stored under it. */
  lemma {:induction false} GetFinds<V>(d: Array<V>, k: string)
    ensures Get(d, k).None? <==> k !in Keys(d)
    ensures Get(d, k).Some? ==> exists i :: 0 <= i < |d| && d[i] == (k, Get(d, k).value)
  {
    if d != [] {
      assert Keys(d) == [d[0].0] + Keys(d[1..]);
      GetFinds(d[1..], k);
      if d[0].0 != k && Get(d, k).Some? {
        var i :| 0 <= i < |d[1..]| && d[1..][i] == (k, Get(d, k).value);
        assert d[i + 1] == d[1..][i];
      }
    }
  }

  /** `$d[$k] = $v`: an existing key keeps its position, a new key goes to the end. */
  function Put<V>(d: Array<V>, k: string, v: V): (r: Array<V>)
    ensures Keys(r) == if k in Keys(d) then Keys(d) else Keys(d) + [k]
    ensures Get(r, k) == Some(v)
    ensures forall k' :: k' != k ==> Get(r, k') == Get(d, k')
  {
    if d == [] then [(k, v)]
    else if d[0].0 == k then [(k, v)] + d[1..]
    else [d[0]] + Put(d[1..], k, v)
  }

  /** Assigning a key never duplicates one. */
  lemma {:induction false} PutWellFormed<V>(d: Array<V>, k: string, v: V)
    requires WellFormed(d)
    ensures WellFormed(Put(d, k, v))
  {
    var r := Put(d, k, v);
    forall i, j | 0 <= i < j < |r| ensures r[i].0 != r[j].0 {
      assert Keys(r)[i] == r[i].0 && Keys(r)[j] == r[j].0;
      if k !in Keys(d) && j == |d| {
        assert Keys(d)[i] == r[i].0;
      } else {
        assert Keys(d)[i] == r[i].0 && Keys(d)[j] == r[j].0;
      }
    }
  }

  /** `array_merge(base, over)` for string keys: each entry of `over` is assigned in turn. */
  function Merge<V>(base: Array<V>, over: Array<V>): (r: Array<V>)
    decreases |over|
  {
    if over == [] then base
    else Merge(Put(base, over[0].0, over[0].1), over[1..])
  }

  /** The keys of `ks` that `existing` lacks, in their order in `ks`. */
  function NewKeys(existing: seq<string>, ks: seq<string>): seq<string>
  {
    if ks == [] then []
    else (if ks[0] in existing then [] else [ks[0]]) + NewKeys(existing, ks[1..])
  }

  /** In a well-formed array the value stored at a position is what lookup of its key finds. */
  lemma {:induction false} GetAt<V>(d: Array<V>, i: int)
    requires WellFormed(d)
    requires 0 <= i < |d|
    ensures Get(d, d[i].0) == Some(d[i].1)
  {
    if i > 0 {
      assert d[0].0 != d[i].0;
      assert d[1..][i - 1] == d[i];
      GetAt(d[1..], i - 1);
    }
  }

  /** The first key of a PHP array does not recur in the rest of it; the tail is a PHP array too. */
  lemma HeadKeyNotInTail<V>(d: Array<V>)
    requires WellFormed(d)
    requires d != []
    ensures d[0].0 !in Keys(d[1..])
    ensures WellFormed(d[1..])
  {
    var ks := Keys(d[1..]);
    forall j | 0 <= j < |ks| ensures ks[j] != d[0].0 {
      assert d[1..][j] == d[j + 1];
    }
  }

  /** Override wins: a key of `over` maps to its value there, any other key keeps its value in `base`. */
  lemma {:induction false} MergeGet<V>(base: Array<V>, over: Array<V>, k: string)
    requires WellFormed(over)
    ensures Get(Merge(base, over), k) == if k in Keys(over) then Get(over, k) else Get(base, k)
    decreases |over|
  {
    if over != [] {
      var k0 := over[0].0;
      var rest := over[1..];
      assert Keys(over) == [k0] + Keys(rest);
      assert WellFormed(rest);
      MergeGet(Put(base, k0, over[0].1), rest, k);
      if k == k0 {
        HeadKeyNotInTail(over);
      }
    }
  }

  lemma {:induction false} NewKeysSkipsExisting(existing: seq<string>, x: string, ks: seq<string>)
    requires x !in ks
    ensures NewKeys(existing + [x], ks) == NewKeys(existing, ks)
    decreases |ks|
  {
    if ks != [] {
      assert ks[0] in existing + [x] <==> ks[0] in existing;
      NewKeysSkipsExisting(existing, x, ks[1..]);
    }
  }

  /** One step of `array_merge` on the key sequence: assigning the first key of `ks`. */
  lemma NewKeysStep(K: seq<string>, ks: seq<string>)
    requires ks != [] && ks[0] !in ks[1..]
    ensures var K' := if ks[0] in K then K else K + [ks[0]];
            K' + NewKeys(K', ks[1..]) == K + NewKeys(K, ks)
  {
    var K' := if ks[0] in K then K else K + [ks[0]];
    assert NewKeys(K, ks) == (if ks[0] in K then [] else [ks[0]]) + NewKeys(K, ks[1..]);
    if ks[0] !in K {
      NewKeysSkipsExisting(K, ks[0], ks[1..]);
      assert K' + NewKeys(K', ks[1..]) == (K + [ks[0]]) + NewKeys(K, ks[1..]);
    }
  }

  /** Order: the keys of `base` keep their order and the new keys of `over` follow, in their order. */
  lemma {:induction false} MergeKeys<V>(base: Array<V>, over: Array<V>)
    requires WellFormed(over)
    ensures Keys(Merge(base, over)) == Keys(base) + NewKeys(Keys(base), Keys(over))
    decreases |over|
  {
    if over != [] {
      var base' := Put(base, over[0].0, over[0].1);
      var ks := Keys(over);
      HeadKeyNotInTail(over);
      assert ks[1..] == Keys(over[1..]);
      MergeKeys(base', over[1..]);
      NewKeysStep(Keys(base), ks);
    }
  }

  /** `array_merge` of two PHP arrays is again a PHP array: no key is duplicated. */
  lemma {:induction false} MergeWellFormed<V>(base: Array<V>, over: Array<V>)
    requires WellFormed(base)
    ensures WellFormed(Merge(base, over))
    decreases |over|
  {
    if over != [] {
      PutWellFormed(base, over[0].0, over[0].1);
      MergeWellFormed(Put(base, over[0].0, over[0].1), over[1..]);
    }
  }
}
