/** The order-statistic index of sorted_dict_of_lists.py: a SortedDict from a
    numeric key (a probability) to a list of strings, where reading a missing
    key inserts it with an empty list, and `iter_records` walks the keys from
    the highest to the lowest, yielding every element of each key's list in
    list order.  The index is a value; its owner keeps it in a field and
    reassigns it after each `Append` or `Remove` (which stand for the source's
    `sd[k].append(v)` and `sd[k].remove(v)` on the list `sd[k]` returns). */
module SortedDictOfLists {

  /** `keys` is the SortedDict's key list, kept in ascending order. */
  datatype SortedIndex = SortedIndex(keys: seq<real>, lists: map<real, seq<string>>)

  /** Strictly ascending: each key lies below every later one. */
  ghost predicate Ascending(s: seq<real>) {
    s != [] ==> (forall y :: y in s[1..] ==> s[0] < y) && Ascending(s[1..])
  }

  lemma AscendingCons(x: real, s: seq<real>)
    requires Ascending(s) && forall y :: y in s ==> x < y
    ensures Ascending([x] + s)
  {
    assert ([x] + s)[1..] == s;
  }

  /** The tail of an ascending sequence is ascending and lies strictly above its head. */
  lemma AscendingTail(s: seq<real>)
    requires Ascending(s) && s != []
    ensures Ascending(s[1..])
    ensures forall y :: y in s[1..] ==> y in s && s[0] < y
    ensures s[0] !in s[1..]
    ensures forall y :: y in s ==> s[0] <= y
  {
    forall y | y in s[1..] ensures y in s && s[0] < y {
      var m :| 0 <= m < |s[1..]| && s[1..][m] == y;
      assert s[m + 1] == y;
    }
    forall y | y in s ensures s[0] <= y {
      var m :| 0 <= m < |s| && s[m] == y;
      if m > 0 {
        assert s[1..][m - 1] == y;
      }
    }
  }

  ghost predicate Valid(ix: SortedIndex) {
    Ascending(ix.keys) && forall k :: k in ix.lists <==> k in ix.keys
  }

  /** A fresh index: `len(SortedDictOfLists()) == 0`. */
  function Empty(): (r: SortedIndex)
    ensures Valid(r) && |r.keys| == 0 && r.lists == map[]
  {
    SortedIndex([], map[])
  }

  /** Where SortedDict places a new key: the key order stays ascending. */
  function Insert(s: seq<real>, k: real): (r: seq<real>)
    requires Ascending(s) && k !in s
    ensures Ascending(r)
    ensures forall x :: x in r <==> x in s || x == k
    ensures |r| == |s| + 1
  {
    if s == [] then [k]
    else if k < s[0] then
      AscendingTail(s);
      AscendingCons(k, s);
      [k] + s
    else
      AscendingTail(s);
      var rest := Insert(s[1..], k);
      AscendingCons(s[0], rest);
      [s[0]] + rest
  }

  /** `sd[k]` (SortedDictOfLists.__getitem__): the stored list when the key
      is present, leaving the index unchanged; otherwise the key is inserted
      with an empty list, every other key keeps its list, and that empty
      list is returned. */
  function GetItem(ix: SortedIndex, k: real): (r: (SortedIndex, seq<string>))
    requires Valid(ix)
    ensures Valid(r.0)
    ensures k in ix.lists ==> r == (ix, ix.lists[k])
    ensures k !in ix.lists ==> r.1 == [] && r.0.lists == ix.lists[k := []] && |r.0.keys| == |ix.keys| + 1
  {
    if k in ix.lists then (ix, ix.lists[k])
    else (SortedIndex(Insert(ix.keys, k), ix.lists[k := []]), [])
  }

  /** `sd[k].append(v)`. */
  function Append(ix: SortedIndex, k: real, v: string): (r: SortedIndex)
    requires Valid(ix)
    ensures Valid(r)
    ensures r.lists == ix.lists[k := (if k in ix.lists then ix.lists[k] else []) + [v]]
    ensures k in ix.lists ==> r.keys == ix.keys
  {
    var (ix', l) := GetItem(ix, k);
    SortedIndex(ix'.keys, ix'.lists[k := l + [v]])
  }

  /** Python's `list.remove`: drop the first occurrence of `v`. */
  function RemoveFirst(s: seq<string>, v: string): (r: seq<string>)
    requires v in s
    ensures |r| == |s| - 1
  {
    if s[0] == v then s[1..]
    else [s[0]] + RemoveFirst(s[1..], v)
  }

  /** `list.remove(v)` takes away exactly one occurrence of `v`. */
  lemma {:induction false} RemoveFirstCounts(s: seq<string>, v: string)
    requires v in s
    ensures multiset(RemoveFirst(s, v)) == multiset(s) - multiset{v}
  {
    assert s == [s[0]] + s[1..];
    if s[0] != v {
      RemoveFirstCounts(s[1..], v);
    }
  }

  /** `sd[k].remove(v)`; the source raises ValueError when `v` is not in the
      list, which the index invariant of its caller rules out.  The key stays
      in the index even when its list becomes empty. */
  function Remove(ix: SortedIndex, k: real, v: string): (r: SortedIndex)
    requires Valid(ix) && k in ix.lists && v in ix.lists[k]
    ensures Valid(r)
    ensures r.keys == ix.keys
    ensures r.lists == ix.lists[k := RemoveFirst(ix.lists[k], v)]
  {
    SortedIndex(ix.keys, ix.lists[k := RemoveFirst(ix.lists[k], v)])
  }

  /** The records of one key, in list order. */
  function Group(k: real, vs: seq<string>): (r: seq<(real, string)>)
    ensures |r| == |vs|
  {
    if vs == [] then [] else [(k, vs[0])] + Group(k, vs[1..])
  }

  /** The records of `keys` (ascending) from the highest key to the lowest. */
  function RecordsOf(keys: seq<real>, lists: map<real, seq<string>>): seq<(real, string)>
    requires forall k :: k in keys ==> k in lists
  {
    if keys == [] then [] else RecordsOf(keys[1..], lists) + Group(keys[0], lists[keys[0]])
  }

  /** `iter_records()`. */
  function Records(ix: SortedIndex): seq<(real, string)>
    requires Valid(ix)
  {
    RecordsOf(ix.keys, ix.lists)
  }

  function LengthSum(keys: seq<real>, lists: map<real, seq<string>>): nat
    requires forall k :: k in keys ==> k in lists
  {
    if keys == [] then 0
    else
      var k0 := keys[0];
      assert k0 in keys;
      LengthSum(keys[1..], lists) + |lists[k0]|
  }

  /** The values of the records whose key is `k`, in the order they are visited. */
  function ValuesAt(records: seq<(real, string)>, k: real): seq<string> {
    if records == [] then []
    else (if records[0].0 == k then [records[0].1] else []) + ValuesAt(records[1..], k)
  }

  lemma {:induction false} ValuesAtConcat(a: seq<(real, string)>, b: seq<(real, string)>, k: real)
    ensures ValuesAt(a + b, k) == ValuesAt(a, k) + ValuesAt(b, k)
  {
    if a == [] {
      assert a + b == b;
    } else {
      assert (a + b)[0] == a[0] && (a + b)[1..] == a[1..] + b;
      ValuesAtConcat(a[1..], b, k);
    }
  }

  lemma {:induction false} ValuesAtGroup(k: real, vs: seq<string>, key: real)
    ensures ValuesAt(Group(k, vs), key) == if k == key then vs else []
  {
    if vs != [] {
      ValuesAtGroup(k, vs[1..], key);
    }
  }

  lemma {:induction false} GroupMembership(k: real, vs: seq<string>, x: (real, string))
    ensures x in Group(k, vs) <==> x.0 == k && x.1 in vs
  {
    if vs != [] {
      GroupMembership(k, vs[1..], x);
      assert vs == [vs[0]] + vs[1..];
    }
  }

  /** Every record's key is one of the index's keys, with the value taken from its list. */
  lemma {:induction false} RecordsOfMembership(keys: seq<real>, lists: map<real, seq<string>>, k: real, v: string)
    requires forall x :: x in keys ==> x in lists
    ensures (k, v) in RecordsOf(keys, lists) <==> k in keys && v in lists[k]
  {
    if keys != [] {
      RecordsOfMembership(keys[1..], lists, k, v);
      GroupMembership(keys[0], lists[keys[0]], (k, v));
    }
  }

  lemma {:induction false} RecordsOfKeysBelow(keys: seq<real>, lists: map<real, seq<string>>, i: int)
    requires forall x :: x in keys ==> x in lists
    requires 0 <= i < |RecordsOf(keys, lists)|
    ensures RecordsOf(keys, lists)[i].0 in keys
  {
    var r := RecordsOf(keys, lists)[i];
    RecordsOfMembership(keys, lists, r.0, r.1);
  }

  /** iter_records visits keys in descending order: a record never has a
      higher key than one visited before it. */
  lemma {:induction false} RecordsOfDescending(keys: seq<real>, lists: map<real, seq<string>>)
    requires Ascending(keys) && forall x :: x in keys ==> x in lists
    ensures forall i, j :: 0 <= i < j < |RecordsOf(keys, lists)| ==>
      RecordsOf(keys, lists)[i].0 >= RecordsOf(keys, lists)[j].0
  {
    if keys != [] {
      var rest: seq<(real, string)> := RecordsOf(keys[1..], lists);
      var g: seq<(real, string)> := Group(keys[0], lists[keys[0]]);
      RecordsOfDescending(keys[1..], lists);
      assert RecordsOf(keys, lists) == rest + g;
      forall i, j | 0 <= i < j < |rest + g| ensures (rest + g)[i].0 >= (rest + g)[j].0 {
        if j >= |rest| {
          assert (rest + g)[j] == g[j - |rest|];
          GroupMembership(keys[0], lists[keys[0]], g[j - |rest|]);
          if i >= |rest| {
            assert (rest + g)[i] == g[i - |rest|];
            GroupMembership(keys[0], lists[keys[0]], g[i - |rest|]);
          }
          if i < |rest| {
            RecordsOfKeysBelow(keys[1..], lists, i);
            assert (rest + g)[i] == rest[i];
            var x := rest[i].0;
            var m :| 0 <= m < |keys[1..]| && keys[1..][m] == x;
            assert keys[m + 1] == x;
          }
        }
      }
    }
  }

  lemma RecordsDescending(ix: SortedIndex)
    requires Valid(ix)
    ensures forall i, j :: 0 <= i < j < |Records(ix)| ==> Records(ix)[i].0 >= Records(ix)[j].0
  {
    RecordsOfDescending(ix.keys, ix.lists);
  }

  lemma RecordsMembership(ix: SortedIndex, k: real, v: string)
    requires Valid(ix)
    ensures (k, v) in Records(ix) <==> k in ix.lists && v in ix.lists[k]
  {
    RecordsOfMembership(ix.keys, ix.lists, k, v);
  }

  /** Within one key the values come out in list order, so a tie keeps its
      first-inserted value first. */
  lemma {:induction false} RecordsOfValuesAt(keys: seq<real>, lists: map<real, seq<string>>, k: real)
    requires Ascending(keys) && forall x :: x in keys ==> x in lists
    ensures ValuesAt(RecordsOf(keys, lists), k) == if k in keys then lists[k] else []
  {
    if keys != [] {
      RecordsOfValuesAt(keys[1..], lists, k);
      ValuesAtConcat(RecordsOf(keys[1..], lists), Group(keys[0], lists[keys[0]]), k);
      ValuesAtGroup(keys[0], lists[keys[0]], k);
      if k == keys[0] {
        assert k !in keys[1..] by {
          forall m | 0 <= m < |keys[1..]| ensures keys[1..][m] != k {
            assert keys[1..][m] == keys[m + 1];
          }
        }
      }
    }
  }

  lemma RecordsInListOrder(ix: SortedIndex, k: real)
    requires Valid(ix)
    ensures ValuesAt(Records(ix), k) == if k in ix.lists then ix.lists[k] else []
  {
    RecordsOfValuesAt(ix.keys, ix.lists, k);
  }

  /** One record per list element: the number of records is the sum of the
      list lengths (a key whose list is empty contributes none). */
  lemma {:induction false} RecordsOfLength(keys: seq<real>, lists: map<real, seq<string>>)
    requires forall x :: x in keys ==> x in lists
    ensures |RecordsOf(keys, lists)| == LengthSum(keys, lists)
  {
    if keys != [] {
      RecordsOfLength(keys[1..], lists);
    }
  }

  lemma RecordsLength(ix: SortedIndex)
    requires Valid(ix)
    ensures |Records(ix)| == LengthSum(ix.keys, ix.lists)
  {
    RecordsOfLength(ix.keys, ix.lists);
  }

  lemma {:induction false} RecordsOfFrame(keys: seq<real>, a: map<real, seq<string>>, b: map<real, seq<string>>)
    requires forall x :: x in keys ==> x in a && x in b && a[x] == b[x]
    ensures RecordsOf(keys, a) == RecordsOf(keys, b)
  {
    if keys != [] {
      RecordsOfFrame(keys[1..], a, b);
    }
  }

  /** Changing the list of one present key changes the records' multiset by
      exactly the change of that list. */
  lemma {:induction false} RecordsOfUpdate(keys: seq<real>, lists: map<real, seq<string>>, k: real, vs: seq<string>)
    requires Ascending(keys) && k in keys && forall x :: x in keys ==> x in lists
    ensures multiset(RecordsOf(keys, lists[k := vs])) + multiset(Group(k, lists[k]))
         == multiset(RecordsOf(keys, lists)) + multiset(Group(k, vs))
  {
    AscendingTail(keys);
    var updated := lists[k := vs];
    var k0, tl := keys[0], keys[1..];
    assert k0 in keys;
    assert RecordsOf(keys, updated) == RecordsOf(tl, updated) + Group(k0, updated[k0]);
    assert RecordsOf(keys, lists) == RecordsOf(tl, lists) + Group(k0, lists[k0]);
    if k0 == k {
      RecordsOfUpdateHead(keys, lists, vs);
    } else {
      assert keys == [k0] + tl;
      assert k in tl;
      RecordsOfUpdate(tl, lists, k, vs);
      RecordsOfUpdateStep(keys, lists, k, vs);
    }
  }

  lemma RecordsOfUpdateStep(keys: seq<real>, lists: map<real, seq<string>>, k: real, vs: seq<string>)
    requires keys != [] && keys[0] != k && k in keys[1..] && forall x :: x in keys ==> x in lists
    requires multiset(RecordsOf(keys[1..], lists[k := vs])) + multiset(Group(k, lists[k]))
          == multiset(RecordsOf(keys[1..], lists)) + multiset(Group(k, vs))
    ensures multiset(RecordsOf(keys, lists[k := vs])) + multiset(Group(k, lists[k]))
         == multiset(RecordsOf(keys, lists)) + multiset(Group(k, vs))
  {
    var k0, tl := keys[0], keys[1..];
    var g := Group(k0, lists[k0]);
    assert RecordsOf(keys, lists[k := vs]) == RecordsOf(tl, lists[k := vs]) + g;
    assert RecordsOf(keys, lists) == RecordsOf(tl, lists) + g;
    MultisetStep(RecordsOf(tl, lists[k := vs]), RecordsOf(tl, lists), g,
                 multiset(Group(k, lists[k])), multiset(Group(k, vs)));
  }

  /** Appending the same records to both sides keeps a multiset balance. */
  lemma MultisetStep<T>(a: seq<T>, b: seq<T>, g: seq<T>, x: multiset<T>, y: multiset<T>)
    requires multiset(a) + x == multiset(b) + y
    ensures multiset(a + g) + x == multiset(b + g) + y
  {
    assert multiset(a + g) == multiset(a) + multiset(g);
    assert multiset(b + g) == multiset(b) + multiset(g);
    forall o ensures (multiset(a + g) + x)[o] == (multiset(b + g) + y)[o] {
      assert (multiset(a) + x)[o] == (multiset(b) + y)[o];
    }
  }

  lemma RecordsOfUpdateHead(keys: seq<real>, lists: map<real, seq<string>>, vs: seq<string>)
    requires keys != [] && keys[0] !in keys[1..] && forall x :: x in keys ==> x in lists
    ensures multiset(RecordsOf(keys, lists[keys[0] := vs])) + multiset(Group(keys[0], lists[keys[0]]))
         == multiset(RecordsOf(keys, lists)) + multiset(Group(keys[0], vs))
  {
    var k, tl := keys[0], keys[1..];
    RecordsOfFrame(tl, lists[k := vs], lists);
    var rest := RecordsOf(tl, lists);
    assert RecordsOf(keys, lists[k := vs]) == rest + Group(k, vs);
    assert RecordsOf(keys, lists) == rest + Group(k, lists[k]);
  }

  /** Inserting a new key adds exactly that key's records. */
  lemma {:induction false} RecordsOfInsert(keys: seq<real>, lists: map<real, seq<string>>, k: real)
    requires Ascending(keys) && k !in keys && k in lists && forall x :: x in keys ==> x in lists
    ensures multiset(RecordsOf(Insert(keys, k), lists)) == multiset(RecordsOf(keys, lists)) + multiset(Group(k, lists[k]))
  {
    if keys == [] {
      assert Insert(keys, k) == [k];
      assert RecordsOf([k], lists) == RecordsOf([], lists) + Group(k, lists[k]);
    } else {
      var k0, tl := keys[0], keys[1..];
      assert k0 in keys;
      assert RecordsOf(keys, lists) == RecordsOf(tl, lists) + Group(k0, lists[k0]);
      if k < k0 {
        var ins := [k] + keys;
        assert Insert(keys, k) == ins;
        assert ins[0] == k && ins[1..] == keys;
        assert RecordsOf(ins, lists) == RecordsOf(keys, lists) + Group(k, lists[k]);
      } else {
        AscendingTail(keys);
        var rest := Insert(tl, k);
        var ins := [k0] + rest;
        assert Insert(keys, k) == ins;
        assert ins[0] == k0 && ins[1..] == rest;
        assert RecordsOf(ins, lists) == RecordsOf(rest, lists) + Group(k0, lists[k0]);
        RecordsOfInsert(tl, lists, k);
      }
    }
  }

  /** How often a record occurs among one key's records. */
  lemma {:induction false} GroupCount(k: real, vs: seq<string>, x: (real, string))
    ensures multiset(Group(k, vs))[x] == if x.0 == k then multiset(vs)[x.1] else 0
  {
    if vs != [] {
      GroupCount(k, vs[1..], x);
      assert vs == [vs[0]] + vs[1..];
      assert Group(k, vs) == [(k, vs[0])] + Group(k, vs[1..]);
    }
  }

  /** One more occurrence of `v` in a list is one more record (k, v). */
  lemma GroupSplit(k: real, a: seq<string>, b: seq<string>, v: string)
    requires multiset(a) == multiset(b) + multiset{v}
    ensures multiset(Group(k, a)) == multiset(Group(k, b)) + multiset{(k, v)}
  {
    forall x ensures multiset(Group(k, a))[x] == (multiset(Group(k, b)) + multiset{(k, v)})[x] {
      GroupSplitAt(k, a, b, v, x);
    }
  }

  lemma GroupSplitAt(k: real, a: seq<string>, b: seq<string>, v: string, x: (real, string))
    requires multiset(a) == multiset(b) + multiset{v}
    ensures multiset(Group(k, a))[x] == multiset(Group(k, b))[x] + multiset{(k, v)}[x]
  {
    GroupCount(k, a, x);
    GroupCount(k, b, x);
    assert multiset(a)[x.1] == multiset(b)[x.1] + multiset{v}[x.1];
    if x == (k, v) {
      assert multiset{(k, v)}[x] == 1 && multiset{v}[x.1] == 1;
    } else {
      assert multiset{(k, v)}[x] == 0;
      assert x.0 == k ==> multiset{v}[x.1] == 0;
    }
  }

  lemma MultisetShift<T>(after: multiset<T>, before: multiset<T>, big: multiset<T>, small: multiset<T>, d: multiset<T>)
    requires big == small + d
    ensures after + small == before + big ==> after == before + d
    ensures after + big == before + small ==> after == before - d
  {
    if after + small == before + big {
      forall x ensures after[x] == (before + d)[x] {
        assert (after + small)[x] == (before + big)[x];
      }
    }
    if after + big == before + small {
      forall x ensures after[x] == (before - d)[x] {
        assert (after + big)[x] == (before + small)[x];
      }
    }
  }

  /** `sd[k].append(v)` adds exactly one record, (k, v). */
  lemma AppendRecords(ix: SortedIndex, k: real, v: string)
    requires Valid(ix)
    ensures multiset(Records(Append(ix, k, v))) == multiset(Records(ix)) + multiset{(k, v)}
  {
    var r := Append(ix, k, v);
    if k in ix.lists {
      var vs := ix.lists[k] + [v];
      RecordsOfUpdate(ix.keys, ix.lists, k, vs);
      assert r.lists == ix.lists[k := vs] && r.keys == ix.keys;
      GroupSplit(k, vs, ix.lists[k], v);
      MultisetShift(multiset(Records(r)), multiset(Records(ix)),
                    multiset(Group(k, vs)), multiset(Group(k, ix.lists[k])), multiset{(k, v)});
    } else {
      RecordsOfFrame(ix.keys, r.lists, ix.lists);
      RecordsOfInsert(ix.keys, r.lists, k);
      assert r.lists[k] == [v];
      assert Group(k, [v]) == [(k, v)];
    }
  }

  /** `sd[k].remove(v)` removes exactly one record, (k, v). */
  lemma RemoveRecords(ix: SortedIndex, k: real, v: string)
    requires Valid(ix) && k in ix.lists && v in ix.lists[k]
    ensures multiset(Records(Remove(ix, k, v))) == multiset(Records(ix)) - multiset{(k, v)}
  {
    var vs := RemoveFirst(ix.lists[k], v);
    RemoveFirstCounts(ix.lists[k], v);
    RecordsOfUpdate(ix.keys, ix.lists, k, vs);
    assert v in multiset(ix.lists[k]);
    assert multiset(ix.lists[k]) == multiset(vs) + multiset{v};
    GroupSplit(k, ix.lists[k], vs, v);
    MultisetShift(multiset(Records(Remove(ix, k, v))), multiset(Records(ix)),
                  multiset(Group(k, ix.lists[k])), multiset(Group(k, vs)), multiset{(k, v)});
  }

  lemma {:induction false} RecordsOfSameElements(keys: seq<real>, a: map<real, seq<string>>, b: map<real, seq<string>>)
    requires forall k :: k in keys ==> k in a && k in b && multiset(a[k]) == multiset(b[k])
    ensures multiset(RecordsOf(keys, a)) == multiset(RecordsOf(keys, b))
  {
    if keys != [] {
      RecordsOfSameElements(keys[1..], a, b);
      var k := keys[0];
      forall x ensures multiset(Group(k, a[k]))[x] == multiset(Group(k, b[k]))[x] {
        GroupCount(k, a[k], x);
        GroupCount(k, b[k], x);
      }
      assert multiset(Group(k, a[k])) == multiset(Group(k, b[k]));
    }
  }

  /** Two indexes with the same keys whose lists hold the same elements
      under every key yield the same records, in some order. */
  lemma SameElementsSameRecords(ix: SortedIndex, ix': SortedIndex)
    requires Valid(ix) && Valid(ix') && ix.keys == ix'.keys
    requires forall k :: k in ix.lists && k in ix'.lists ==> multiset(ix.lists[k]) == multiset(ix'.lists[k])
    ensures multiset(Records(ix)) == multiset(Records(ix'))
  {
    RecordsOfSameElements(ix.keys, ix.lists, ix'.lists);
  }

  /** `sd[k].remove(v)` followed by `sd[k].append(v)` moves `v` to the end of
      its list: every key keeps the same elements, and the records are the
      same multiset. */
  lemma MoveToEnd(ix: SortedIndex, k: real, v: string)
    requires Valid(ix) && k in ix.lists && v in ix.lists[k]
    ensures Append(Remove(ix, k, v), k, v).keys == ix.keys
    ensures Append(Remove(ix, k, v), k, v).lists == ix.lists[k := RemoveFirst(ix.lists[k], v) + [v]]
    ensures multiset(RemoveFirst(ix.lists[k], v) + [v]) == multiset(ix.lists[k])
    ensures multiset(Records(Append(Remove(ix, k, v), k, v))) == multiset(Records(ix))
  {
    RemoveFirstCounts(ix.lists[k], v);
    RemoveRecords(ix, k, v);
    AppendRecords(Remove(ix, k, v), k, v);
    assert (k, v) in Records(ix) by {
      RecordsMembership(ix, k, v);
    }
  }

  /** After the move, `w` is listed under `j` exactly when it was before. */
  lemma MoveToEndAt(ix: SortedIndex, k: real, v: string, j: real, w: string)
    requires Valid(ix) && k in ix.lists && v in ix.lists[k]
    ensures j in Append(Remove(ix, k, v), k, v).lists <==> j in ix.lists
    ensures j in ix.lists ==> (w in Append(Remove(ix, k, v), k, v).lists[j] <==> w in ix.lists[j])
  {
    MoveToEnd(ix, k, v);
    if j == k {
      assert w in multiset(RemoveFirst(ix.lists[k], v) + [v]) <==> w in multiset(ix.lists[k]);
    }
  }

  /** The behaviour the source's unit test shows: a fresh index is empty, and
      after `sd[k].append(v)` the list under `k` is `[v]` and there is one key. */
  lemma FreshIndexAppend(k: real, v: string)
    ensures |Empty().keys| == 0
    ensures GetItem(Append(Empty(), k, v), k).1 == [v] && |Append(Empty(), k, v).keys| == 1
  {
  }
}
