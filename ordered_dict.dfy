/** Python's built-in `dict` with string keys, as the original program uses
    it at every level of its nested mappings: a finite map together with the
    order in which its keys were first inserted (the order in which `keys()`,
    `items()` and `for k in d` visit them). */
module OrderedDict {

  datatype Dict<V> = Dict(keys: seq<string>, items: map<string, V>)

  /** No key is listed twice. */
  ghost predicate Distinct(s: seq<string>) {
    s != [] ==> s[0] !in s[1..] && Distinct(s[1..])
  }

  lemma {:induction false} DistinctSnoc(s: seq<string>, k: string)
    ensures Distinct(s + [k]) <==> Distinct(s) && k !in s
  {
    if s != [] {
      assert (s + [k])[1..] == s[1..] + [k];
      DistinctSnoc(s[1..], k);
    }
  }

  lemma {:induction false} DistinctPrefix(s: seq<string>, n: nat)
    requires n <= |s| && Distinct(s)
    ensures Distinct(s[..n])
  {
    if n > 0 {
      assert s[..n][1..] == s[1..][..n - 1];
      DistinctPrefix(s[1..], n - 1);
    }
  }

  /** Two positions of a list without repetitions hold different keys. */
  lemma {:induction false} DistinctAt(s: seq<string>, i: nat, j: nat)
    requires Distinct(s) && i < j < |s|
    ensures s[i] != s[j]
  {
    if i == 0 {
      assert s[j] == s[1..][j - 1];
    } else {
      DistinctAt(s[1..], i - 1, j - 1);
    }
  }

  /** The keys are listed once each, and exactly the keys of the map are listed. */
  ghost predicate Valid<V>(d: Dict<V>) {
    Distinct(d.keys) && forall k :: k in d.items <==> k in d.keys
  }

  function Empty<V>(): (r: Dict<V>)
    ensures Valid(r) && r.keys == [] && r.items == map[]
  {
    Dict([], map[])
  }

  /** `d[k] = v`: a new key goes to the end of the order, an existing key keeps its place. */
  function Put<V>(d: Dict<V>, k: string, v: V): (r: Dict<V>)
    requires Valid(d)
    ensures Valid(r)
    ensures r.items == d.items[k := v]
    ensures r.keys == if k in d.items then d.keys else d.keys + [k]
  {
    if k in d.items then Dict(d.keys, d.items[k := v])
    else
      DistinctSnoc(d.keys, k);
      Dict(d.keys + [k], d.items[k := v])
  }

  /** The key order after `del d[k]`: every other key keeps its relative place. */
  function RemoveKey(s: seq<string>, k: string): (r: seq<string>)
    ensures forall x :: x in r <==> x in s && x != k
    ensures Distinct(s) ==> Distinct(r)
    ensures k !in s ==> r == s
    ensures Distinct(s) && k in s ==> |r| == |s| - 1
  {
    if s == [] then []
    else if s[0] == k then RemoveKey(s[1..], k)
    else
      var rest := RemoveKey(s[1..], k);
      DistinctCons(s[0], rest, s);
      [s[0]] + rest
  }

  lemma DistinctCons(x: string, rest: seq<string>, s: seq<string>)
    requires s != [] && x == s[0] && forall y :: y in rest ==> y in s[1..]
    requires Distinct(s) ==> Distinct(rest)
    ensures Distinct(s) ==> Distinct([x] + rest)
  {
    assert ([x] + rest)[1..] == rest;
  }

  /** A list without repetitions whose keys all appear in another such
      list is no longer than it: `len(a) <= len(b)` for dictionaries whose
      keys are among `b`'s. */
  lemma {:induction false} DistinctSubsetLength(a: seq<string>, b: seq<string>)
    requires Distinct(a) && Distinct(b) && forall x :: x in a ==> x in b
    ensures |a| <= |b|
  {
    if a != [] {
      var init, last := a[..|a| - 1], a[|a| - 1];
      assert a == init + [last];
      DistinctSnoc(init, last);
      DistinctSubsetLength(init, RemoveKey(b, last));
    }
  }

  /** `del d[k]`; Python raises KeyError for a missing key, which callers here never cause. */
  function Delete<V>(d: Dict<V>, k: string): (r: Dict<V>)
    requires Valid(d) && k in d.items
    ensures Valid(r)
    ensures r.items == d.items - {k}
    ensures r.keys == RemoveKey(d.keys, k)
    ensures |r.keys| == |d.keys| - 1
  {
    Dict(RemoveKey(d.keys, k), d.items - {k})
  }

  /** The sum of `f` over the values stored under `keys`, in key order (a
      listed key without a value contributes nothing). */
  function SumOf<V>(keys: seq<string>, items: map<string, V>, f: V -> real): real
  {
    if keys == [] then 0.0
    else (if keys[0] in items then f(items[keys[0]]) else 0.0) + SumOf(keys[1..], items, f)
  }

  function Sum<V>(d: Dict<V>, f: V -> real): real
  {
    SumOf(d.keys, d.items, f)
  }

  /** The sum only depends on the values stored under the listed keys. */
  lemma {:induction false} SumOfFrame<V>(keys: seq<string>, a: map<string, V>, b: map<string, V>, f: V -> real)
    requires forall k :: k in keys ==> k in a && k in b && a[k] == b[k]
    ensures SumOf(keys, a, f) == SumOf(keys, b, f)
  {
    if keys != [] {
      SumOfFrame(keys[1..], a, b, f);
    }
  }

  lemma {:induction false} SumOfAppend<V>(keys: seq<string>, k: string, items: map<string, V>, f: V -> real)
    requires forall x :: x in keys ==> x in items
    requires k in items
    ensures SumOf(keys + [k], items, f) == SumOf(keys, items, f) + f(items[k])
  {
    if keys == [] {
      assert keys + [k] == [k];
    } else {
      assert (keys + [k])[1..] == keys[1..] + [k];
      SumOfAppend(keys[1..], k, items, f);
    }
  }

  /** Removing a key from the order subtracts exactly its own term. */
  lemma {:induction false} SumOfRemove<V>(keys: seq<string>, k: string, items: map<string, V>, f: V -> real)
    requires forall x :: x in keys ==> x in items
    requires Distinct(keys) && k in keys
    ensures SumOf(RemoveKey(keys, k), items, f) == SumOf(keys, items, f) - f(items[k])
  {
    if keys[0] == k {
      assert k !in keys[1..];
    } else {
      SumOfRemove(keys[1..], k, items, f);
    }
  }

  /** Replacing one stored value changes the sum by the difference of its terms. */
  lemma {:induction false} SumOfUpdate<V>(keys: seq<string>, k: string, v: V, items: map<string, V>, f: V -> real)
    requires forall x :: x in keys ==> x in items
    requires Distinct(keys) && k in keys
    ensures SumOf(keys, items[k := v], f) == SumOf(keys, items, f) - f(items[k]) + f(v)
  {
    if keys[0] == k {
      assert k !in keys[1..];
      SumOfFrame(keys[1..], items[k := v], items, f);
    } else {
      SumOfUpdate(keys[1..], k, v, items, f);
    }
  }

  lemma SumPut<V>(d: Dict<V>, k: string, v: V, f: V -> real)
    requires Valid(d)
    ensures Sum(Put(d, k, v), f) == Sum(d, f) - (if k in d.items then f(d.items[k]) else 0.0) + f(v)
  {
    if k in d.items {
      SumOfUpdate(d.keys, k, v, d.items, f);
    } else {
      SumOfFrame(d.keys, d.items[k := v], d.items, f);
      SumOfAppend(d.keys, k, d.items[k := v], f);
    }
  }

  lemma SumDelete<V>(d: Dict<V>, k: string, f: V -> real)
    requires Valid(d) && k in d.items
    ensures Sum(Delete(d, k), f) == Sum(d, f) - f(d.items[k])
  {
    SumOfFrame(RemoveKey(d.keys, k), d.items - {k}, d.items, f);
    SumOfRemove(d.keys, k, d.items, f);
  }
}
