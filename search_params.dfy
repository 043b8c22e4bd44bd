/** A URL query string as the browser's `URLSearchParams` holds it: the
    decoded (key, value) pairs in order, duplicates allowed. Percent-encoding
    is the library's concern and is not modelled. A plain JavaScript object
    with string values is represented the same way, with distinct keys in
    insertion order. */
module SearchParams {
  import opened Optional

  type Query = seq<(string, string)>

  function KeysOf(q: Query): (keys: seq<string>)
    ensures |keys| == |q|
    ensures forall i :: 0 <= i < |q| ==> keys[i] == q[i].0
  {
    seq(|q|, i requires 0 <= i < |q| => q[i].0)
  }

  predicate Distinct(keys: seq<string>) {
    forall i, j :: 0 <= i < j < |keys| ==> keys[i] != keys[j]
  }

  /** `params.get(k)`: the value of the first pair named `k`. On an object
      (distinct keys) this is property lookup. */
  function Get(q: Query, k: string): (r: Option<string>)
    ensures r.Some? <==> k in KeysOf(q)
    ensures r.Some? ==> (k, r.value) in q
  {
    if q == [] then None
    else if q[0].0 == k then Some(q[0].1)
    else (assert KeysOf(q) == [q[0].0] + KeysOf(q[1..]); Get(q[1..], k))
  }

  /** The value of the LAST pair named `k`: what survives when the pairs are
      assigned one by one to an object. */
  function LastValue(q: Query, k: string): (r: Option<string>)
    ensures r.Some? <==> k in KeysOf(q)
  {
    if q == [] then None
    else if q[|q| - 1].0 == k then Some(q[|q| - 1].1)
    else (assert KeysOf(q) == KeysOf(q[..|q| - 1]) + [q[|q| - 1].0]; LastValue(q[..|q| - 1], k))
  }

  /** The keys of `q` not in `skip`, each once, in order of first appearance:
      the key order of an object filled from `q`. */
  function FirstKeys(q: Query, skip: set<string>): (keys: seq<string>)
    ensures forall k :: k in keys <==> k in KeysOf(q) && k !in skip
  {
    if q == [] then []
    else
      var init := FirstKeys(q[..|q| - 1], skip);
      var k := q[|q| - 1].0;
      assert KeysOf(q) == KeysOf(q[..|q| - 1]) + [k];
      if k in skip || k in init then init else init + [k]
  }

  lemma {:induction false} FirstKeysDistinct(q: Query, skip: set<string>)
    ensures Distinct(FirstKeys(q, skip))
  {
    if q != [] {
      FirstKeysDistinct(q[..|q| - 1], skip);
    }
  }

  /** On distinct keys the first and the last pair named `k` coincide. */
  lemma {:induction false} LastValueOfDistinct(q: Query, k: string)
    requires Distinct(KeysOf(q))
    ensures LastValue(q, k) == Get(q, k)
  {
    if q != [] && q[|q| - 1].0 != k {
      var init := q[..|q| - 1];
      assert Distinct(KeysOf(init)) by {
        forall i, j | 0 <= i < j < |init| ensures KeysOf(init)[i] != KeysOf(init)[j] {
          assert KeysOf(q)[i] != KeysOf(q)[j];
        }
      }
      LastValueOfDistinct(init, k);
      GetOfPrefix(q, k);
    } else if q != [] {
      var n := |q| - 1;
      assert KeysOf(q)[n] == k;
      if q[0].0 != k {
        GetSkipsOthers(q, k, n);
      }
    }
  }

  /** Looking up a key that the last pair does not carry ignores that pair. */
  lemma {:induction false} GetOfPrefix(q: Query, k: string)
    requires q != [] && q[|q| - 1].0 != k
    ensures Get(q, k) == Get(q[..|q| - 1], k)
  {
    if q[0].0 != k && |q| > 1 {
      assert q[1..][..|q[1..]| - 1] == q[..|q| - 1][1..];
      GetOfPrefix(q[1..], k);
    }
  }

  /** With distinct keys, the pair at index `n` is the one `Get` finds. */
  lemma {:induction false} GetSkipsOthers(q: Query, k: string, n: nat)
    requires Distinct(KeysOf(q)) && n < |q| && q[n].0 == k
    ensures Get(q, k) == Some(q[n].1)
  {
    if n > 0 {
      assert KeysOf(q)[0] != KeysOf(q)[n];
      assert Distinct(KeysOf(q[1..])) by {
        forall i, j | 0 <= i < j < |q| - 1 ensures KeysOf(q[1..])[i] != KeysOf(q[1..])[j] {
          assert KeysOf(q)[i + 1] != KeysOf(q)[j + 1];
        }
      }
      GetSkipsOthers(q[1..], k, n - 1);
    }
  }

  /** Looking up in two concatenated lists finds the first list's pair when
      it has one. */
  lemma {:induction false} GetAppend(a: Query, b: Query, k: string)
    ensures Get(a + b, k) == if k in KeysOf(a) then Get(a, k) else Get(b, k)
  {
    if a != [] {
      assert KeysOf(a) == [a[0].0] + KeysOf(a[1..]);
      assert (a + b)[0] == a[0] && (a + b)[1..] == a[1..] + b;
      if a[0].0 != k {
        GetAppend(a[1..], b, k);
        assert Get(a + b, k) == Get(a[1..] + b, k);
      }
    } else {
      assert a + b == b;
    }
  }

  /** Every pair named `k` dropped. */
  function Without(q: Query, k: string): (r: Query)
    ensures k !in KeysOf(r)
    ensures forall k' :: k' != k ==> Get(r, k') == Get(q, k')
  {
    if q == [] then []
    else if q[0].0 == k then Without(q[1..], k)
    else [q[0]] + Without(q[1..], k)
  }

  /** The first pair named `k` given value `v`, later ones dropped. */
  function ReplaceFirst(q: Query, k: string, v: string): (r: Query)
    requires k in KeysOf(q)
    ensures Get(r, k) == Some(v)
    ensures forall k' :: k' != k ==> Get(r, k') == Get(q, k')
  {
    if q[0].0 == k then [(k, v)] + Without(q[1..], k)
    else (assert KeysOf(q) == [q[0].0] + KeysOf(q[1..]); [q[0]] + ReplaceFirst(q[1..], k, v))
  }

  /** `params.set(k, v)`: replace the first pair named `k` and drop the others,
      or append `(k, v)` when there is none. On an object this is property
      assignment `o[k] = v`. */
  function SetParam(q: Query, k: string, v: string): (r: Query)
    ensures Get(r, k) == Some(v)
    ensures forall k' :: k' != k ==> Get(r, k') == Get(q, k')
    ensures k !in KeysOf(q) ==> r == q + [(k, v)]
  {
    if k in KeysOf(q) then ReplaceFirst(q, k, v) else AppendGet(q, k, v); q + [(k, v)]
  }

  lemma {:induction false} AppendGet(q: Query, k: string, v: string)
    requires k !in KeysOf(q)
    ensures Get(q + [(k, v)], k) == Some(v)
    ensures forall k' :: k' != k ==> Get(q + [(k, v)], k') == Get(q, k')
  {
    if q != [] {
      assert KeysOf(q) == [q[0].0] + KeysOf(q[1..]);
      AppendGet(q[1..], k, v);
      assert (q + [(k, v)])[1..] == q[1..] + [(k, v)];
    }
  }

  /** On distinct keys, setting a key already present changes its value in
      place and keeps every key where it was. */
  lemma {:induction false} SetParamInPlace(q: Query, k: string, v: string)
    requires Distinct(KeysOf(q)) && k in KeysOf(q)
    ensures |SetParam(q, k, v)| == |q|
    ensures forall i :: 0 <= i < |q| ==> SetParam(q, k, v)[i] == (if q[i].0 == k then (k, v) else q[i])
  {
    ReplaceInPlace(q, k, v);
  }

  lemma {:induction false} ReplaceInPlace(q: Query, k: string, v: string)
    requires Distinct(KeysOf(q)) && k in KeysOf(q)
    ensures |ReplaceFirst(q, k, v)| == |q|
    ensures forall i :: 0 <= i < |q| ==> ReplaceFirst(q, k, v)[i] == (if q[i].0 == k then (k, v) else q[i])
  {
    assert KeysOf(q) == [q[0].0] + KeysOf(q[1..]);
    assert Distinct(KeysOf(q[1..])) by {
      forall i, j | 0 <= i < j < |q| - 1 ensures KeysOf(q[1..])[i] != KeysOf(q[1..])[j] {
        assert KeysOf(q)[i + 1] != KeysOf(q)[j + 1];
      }
    }
    if q[0].0 == k {
      assert forall i :: 1 <= i < |q| ==> q[i].0 != k by {
        forall i | 1 <= i < |q| ensures q[i].0 != k {
          assert KeysOf(q)[0] != KeysOf(q)[i];
        }
      }
      WithoutAbsent(q[1..], k);
    } else {
      ReplaceInPlace(q[1..], k, v);
    }
  }

  lemma {:induction false} WithoutAbsent(q: Query, k: string)
    requires forall i :: 0 <= i < |q| ==> q[i].0 != k
    ensures Without(q, k) == q
  {
    if q != [] {
      WithoutAbsent(q[1..], k);
    }
  }

  /** The object filled from the first `i` pairs of `q`. */
  ghost predicate FilledFrom(o: Query, q: Query, skip: set<string>) {
    && Distinct(KeysOf(o))
    && KeysOf(o) == FirstKeys(q, skip)
    && forall k :: Get(o, k) == if k in skip then None else LastValue(q, k)
  }

  /** Assigning the next pair keeps the object filled from the longer prefix. */
  lemma CopyStep(o: Query, q: Query, i: nat, skip: set<string>)
    requires i < |q| && FilledFrom(o, q[..i], skip)
    ensures FilledFrom(if q[i].0 in skip then o else SetParam(o, q[i].0, q[i].1), q[..i + 1], skip)
  {
    var (key, value) := q[i];
    var p := q[..i + 1];
    assert p[..|p| - 1] == q[..i] && p[|p| - 1] == (key, value);
    assert FirstKeys(p, skip) == if key in skip || key in KeysOf(o) then KeysOf(o) else KeysOf(o) + [key];
    assert forall k :: LastValue(p, k) == if key == k then Some(value) else LastValue(q[..i], k);
    if key !in skip {
      var o' := SetParam(o, key, value);
      if key in KeysOf(o) {
        SetParamInPlace(o, key, value);
        assert KeysOf(o') == KeysOf(o);
      } else {
        assert KeysOf(o') == KeysOf(o) + [key];
      }
    }
  }

  /** `for (const [key, value] of params.entries()) if (key not in skip)
      o[key] = value`, starting from an empty object: every key of `q` outside
      `skip` appears once, in order of first appearance, holding the value of
      its last pair. */
  method CopyEntries(q: Query, skip: set<string>) returns (o: Query)
    ensures Distinct(KeysOf(o))
    ensures KeysOf(o) == FirstKeys(q, skip)
    ensures forall k :: Get(o, k) == if k in skip then None else LastValue(q, k)
  {
    o := [];
    var i := 0;
    while i < |q|
      invariant 0 <= i <= |q|
      invariant FilledFrom(o, q[..i], skip)
    {
      var (key, value) := q[i];
      CopyStep(o, q, i, skip);
      if key !in skip {
        o := SetParam(o, key, value);
      }
      i := i + 1;
    }
    assert q[..i] == q;
  }
}
