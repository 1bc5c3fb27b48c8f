/**
  Insertion-ordered string-keyed maps, as a sequence of key/value pairs. They
  stand for a JavaScript `Map` and for the own string properties of a plain
  object: reading a key takes its (only) pair, and assigning a key replaces the
  value where the key already stands or appends the key at the end.
 */
module OrderedMaps {
  import opened Wrappers

  /** The position of `key` among the keys of `m`, or `|m|` when absent. */
  function KeyIndex<V>(m: seq<(string, V)>, key: string): (i: nat)
    ensures i <= |m|
    ensures i < |m| ==> m[i].0 == key
    ensures forall j :: 0 <= j < i ==> m[j].0 != key
  {
    if m == [] then 0
    else if m[0].0 == key then 0
    else 1 + KeyIndex(m[1..], key)
  }

  /** `Map.get`, or reading a property (`None` for `undefined`). */
  function Lookup<V>(m: seq<(string, V)>, key: string): Option<V>
  {
    var i := KeyIndex(m, key);
    if i < |m| then Some(m[i].1) else None
  }

  predicate DistinctKeys<V>(m: seq<(string, V)>)
  {
    forall i, j :: 0 <= i < j < |m| ==> m[i].0 != m[j].0
  }

  function Keys<V>(m: seq<(string, V)>): (r: seq<string>)
    ensures |r| == |m| && forall i :: 0 <= i < |m| ==> r[i] == m[i].0
  {
    if m == [] then [] else Keys(m[..|m| - 1]) + [m[|m| - 1].0]
  }

  /** `Map.set(key, v)` or `object[key] = v`: the value of an existing key is
      replaced where it stands; a new key goes at the end. */
  function SetKey<V>(m: seq<(string, V)>, key: string, v: V): (r: seq<(string, V)>)
    ensures Lookup(r, key) == Some(v)
    ensures forall k :: k != key ==> Lookup(r, k) == Lookup(m, k)
    ensures DistinctKeys(m) ==> DistinctKeys(r)
  {
    var i := KeyIndex(m, key);
    if i < |m| then
      var r := m[i := (key, v)];
      assert forall k :: KeyIndex(r, k) == KeyIndex(m, k) by {
        forall k ensures KeyIndex(r, k) == KeyIndex(m, k) { SameKeysSameIndex(m, r, k); }
      }
      r
    else
      var r := m + [(key, v)];
      assert forall k :: k != key ==> Lookup(r, k) == Lookup(m, k) by {
        forall k | k != key ensures Lookup(r, k) == Lookup(m, k) { AppendKeyIndex(m, (key, v), k); }
      }
      assert KeyIndex(r, key) == |m| by { AppendKeyIndex(m, (key, v), key); }
      r
  }

  /** Reading one key after an assignment. */
  lemma {:induction false} SetKeyAt<V>(m: seq<(string, V)>, key: string, v: V, k: string)
    ensures Lookup(SetKey(m, key, v), k) == if k == key then Some(v) else Lookup(m, k)
  {
  }

  /** Assigning a key that is absent appends it. */
  lemma {:induction false} SetKeyNew<V>(m: seq<(string, V)>, key: string, v: V)
    requires Lookup(m, key) == None
    ensures SetKey(m, key, v) == m + [(key, v)]
  {
  }

  /** Assigning an existing key keeps the key order; a new key is appended to it. */
  lemma {:induction false} SetKeyKeys<V>(m: seq<(string, V)>, key: string, v: V)
    ensures Lookup(m, key).Some? ==> Keys(SetKey(m, key, v)) == Keys(m)
    ensures Lookup(m, key).None? ==> Keys(SetKey(m, key, v)) == Keys(m) + [key]
  {
    var r := SetKey(m, key, v);
    var i := KeyIndex(m, key);
    if i < |m| {
      assert r == m[i := (key, v)];
    } else {
      assert r == m + [(key, v)];
    }
  }

  lemma {:induction false} SameKeysSameIndex<V>(m: seq<(string, V)>, r: seq<(string, V)>, k: string)
    requires |m| == |r|
    requires forall i :: 0 <= i < |m| ==> m[i].0 == r[i].0
    ensures KeyIndex(r, k) == KeyIndex(m, k)
  {
    if m != [] && m[0].0 != k {
      SameKeysSameIndex(m[1..], r[1..], k);
    }
  }

  lemma {:induction false} AppendKeyIndex<V>(m: seq<(string, V)>, last: (string, V), k: string)
    ensures KeyIndex(m, k) < |m| ==> KeyIndex(m + [last], k) == KeyIndex(m, k)
    ensures KeyIndex(m, k) == |m| ==> KeyIndex(m + [last], k) == if last.0 == k then |m| else |m| + 1
  {
    if m != [] {
      assert (m + [last])[1..] == m[1..] + [last];
      AppendKeyIndex(m[1..], last, k);
    }
  }

  /** Reading a key of two maps laid end to end: the first map's pair wins. */
  lemma {:induction false} LookupAppend<V>(a: seq<(string, V)>, b: seq<(string, V)>, k: string)
    ensures Lookup(a + b, k) == if Lookup(a, k).Some? then Lookup(a, k) else Lookup(b, k)
  {
    if a != [] {
      assert (a + b)[1..] == a[1..] + b;
      LookupAppend(a[1..], b, k);
    } else {
      assert a + b == b;
    }
  }

  /** Reading a key of a map whose keys are all different: the pair at that key. */
  lemma {:induction false} LookupDistinct<V>(m: seq<(string, V)>, i: nat)
    requires DistinctKeys(m) && i < |m|
    ensures Lookup(m, m[i].0) == Some(m[i].1)
  {
    var j := KeyIndex(m, m[i].0);
    assert j <= i;
  }

  /** A key no pair carries is absent. */
  lemma {:induction false} LookupAbsent<V>(m: seq<(string, V)>, k: string)
    requires forall i :: 0 <= i < |m| ==> m[i].0 != k
    ensures Lookup(m, k) == None
  {
  }

  /** Pairs laid in front that do not carry `k` do not change what `k` reads. */
  lemma {:induction false} LookupBehind<V>(pre: seq<(string, V)>, m: seq<(string, V)>, k: string)
    requires forall i :: 0 <= i < |pre| ==> pre[i].0 != k
    ensures Lookup(pre + m, k) == Lookup(m, k)
  {
    LookupAbsent(pre, k);
    LookupAppend(pre, m, k);
  }
}
