/** HeadList.subsume_entries_beyond_max_size (head_list.py:141-168): every
    query listed at a position of at least m in the probability-sorted
    index has each of its urls subsumed into the <*> bucket, and once the
    traversal is over those pairs are deleted.

    The traversal here walks a snapshot of the index records taken before
    the first change.  The source walks the index's live lists while it
    moves each visited query to the end of the list it is walking; the
    functions at the end of this module model that traversal as written
    and show the queries it skips. */
module Truncations {
  import opened Wrappers
  import OD = OrderedDict
  import SD = SortedDictOfLists
  import opened InMemoryStructures
  import opened HeadListQueries

  // ---------------------------------------------------------------------
  // One pair

  /** `self['*'].subsume(the_query, url)`: the leaf's probability moves
      into the <*> bucket's probability and the leaf keeps a probability
      of 0.  When the query is `*` itself, sink and source are one bucket. */
  function AbsorbLeaf(d: Table, q: string, u: string): (r: Table)
    requires TableValid(d) && "*" in d.items
    ensures TableValid(r) && "*" in r.items
  {
    var star := d.items["*"];
    if q == "*" then
      var (sink, source) := Absorb(star, star, u);
      OD.Put(d, "*", source.(probability := sink.probability))
    else
      var (sink, source) := Absorb(star, MappingAt(d, q), u);
      OD.Put(OD.Put(d, "*", sink), q, source)
  }

  /** Subsuming an existing pair of a query other than `*` keeps every
      pair and every bucket's count, variance, τ and url order; it zeroes
      that one leaf's probability and adds it to the <*> bucket's. */
  lemma AbsorbLeafAt(d: Table, q: string, u: string, x: string, v: string)
    requires TableValid(d) && "*" in d.items && q != "*" && HasPair(d, q, u)
    ensures AbsorbLeaf(d, q, u).keys == d.keys
    ensures HasPair(AbsorbLeaf(d, q, u), x, v) <==> HasPair(d, x, v)
    ensures MappingAt(AbsorbLeaf(d, q, u), "*") ==
      MappingAt(d, "*").(probability := MappingAt(d, "*").probability + LeafAt(d, q, u).probability)
    ensures x != "*" ==> (MappingAt(AbsorbLeaf(d, q, u), x) == MappingAt(d, x).(urls := MappingAt(AbsorbLeaf(d, q, u), x).urls) &&
                          MappingAt(AbsorbLeaf(d, q, u), x).urls.keys == MappingAt(d, x).urls.keys)
    ensures x != q ==> MappingAt(AbsorbLeaf(d, q, u), x).urls == MappingAt(d, x).urls
    ensures LeafAt(AbsorbLeaf(d, q, u), x, v) ==
      if x == q && v == u then LeafAt(d, x, v).(probability := 0.0) else LeafAt(d, x, v)
  {
    AbsorbLeafShape(d, q, u);
  }

  lemma AbsorbLeafShape(d: Table, q: string, u: string)
    requires TableValid(d) && "*" in d.items && q != "*" && HasPair(d, q, u)
    ensures AbsorbLeaf(d, q, u).keys == d.keys
    ensures AbsorbLeaf(d, q, u).items == d.items["*" := Absorb(d.items["*"], d.items[q], u).0][q := Absorb(d.items["*"], d.items[q], u).1]
    ensures Absorb(d.items["*"], d.items[q], u).1.urls.keys == d.items[q].urls.keys
  {
  }

  // ---------------------------------------------------------------------
  // The traversal

  /** The state the traversal carries: the table, the index and the pairs
      noted for deletion. */
  datatype Truncation = Truncation(table: Table, index: SD.SortedIndex, toBeDeleted: seq<(string, string)>)

  ghost predicate TruncationValid(s: Truncation) {
    TableValid(s.table) && "*" in s.table.items && SD.Valid(s.index)
  }

  /** The body of the innermost loop for url `u` of query `q`: `q` leaves
      the index list of its bucket's probability (ValueError when it is not
      there), the leaf is subsumed, `q` is listed again under its bucket's
      probability, and the pair is noted for deletion. */
  function AbsorbStep(s: Truncation, q: string, u: string): (r: Result<Truncation>)
    requires TruncationValid(s)
    ensures r.Ok? ==> TruncationValid(r.value)
    ensures r.Err? ==> r.error == ValueError
  {
    var p := MappingAt(s.table, q).probability;
    var (ix, l) := SD.GetItem(s.index, p);
    if q !in l then Err(ValueError)
    else
      var t := AbsorbLeaf(s.table, q, u);
      Ok(Truncation(t, SD.Append(SD.Remove(ix, p, q), MappingAt(t, q).probability, q), s.toBeDeleted + [(q, u)]))
  }

  /** The loop over the urls `us` of query `q`, in order. */
  function AbsorbUrls(s: Truncation, q: string, us: seq<string>): (r: Result<Truncation>)
    requires TruncationValid(s)
    ensures r.Ok? ==> TruncationValid(r.value)
  {
    if us == [] then Ok(s)
    else
      var s' :- AbsorbUrls(s, q, us[..|us| - 1]);
      AbsorbStep(s', q, us[|us| - 1])
  }

  /** `self[q]` on the table: a missing query gets an empty bucket. */
  function EnsureQuery(d: Table, q: string): (r: Table)
    requires TableValid(d)
    ensures TableValid(r) && q in r.items
    ensures forall x :: x in d.items ==> x in r.items && r.items[x] == d.items[x]
    ensures q in d.items ==> r == d
  {
    if q in d.items then d else OD.Put(d, q, FreshMapping)
  }

  /** One pass of the outer loop for query `q`: `self[q]` (which inserts
      an empty bucket for a missing query), then the loop over its urls. */
  function Pass(s: Truncation, q: string): (r: Result<Truncation>)
    requires TruncationValid(s)
    ensures r.Ok? ==> TruncationValid(r.value)
  {
    var t := EnsureQuery(s.table, q);
    AbsorbUrls(s.(table := t), q, t.items[q].urls.keys)
  }

  /** The outer loop over the listed `records`; the record at position
      `i` is acted on when `i >= m`. */
  function TruncateRecords(s: Truncation, records: seq<(real, string)>, m: int): (r: Result<Truncation>)
    requires TruncationValid(s)
    ensures r.Ok? ==> TruncationValid(r.value)
  {
    if records == [] then Ok(s)
    else
      var n := |records| - 1;
      var s' :- TruncateRecords(s, records[..n], m);
      if n >= m then Pass(s', records[n].1) else Ok(s')
  }

  /** `add(('*', '*'))` when the table has no `*` query. */
  function WithStar(d: Table): (r: Table)
    requires TableValid(d)
    ensures TableValid(r) && "*" in r.items
    ensures forall x :: x != "*" ==> MappingAt(r, x) == MappingAt(d, x) && (x in r.items <==> x in d.items)
    ensures "*" in d.items ==> r == d
    ensures forall v :: HasPair(d, "*", v) ==> HasPair(r, "*", v)
  {
    if "*" in d.items then d else AddPair(d, "*", "*")
  }

  /** subsume_entries_beyond_max_size on the table and its index: the
      traversal of the index records, then the deletion of the noted pairs
      (each emptied bucket goes with its last pair). */
  function Truncated(d: Table, ix: SD.SortedIndex, m: int): (r: Result<(Table, SD.SortedIndex)>)
    requires TableValid(d) && SD.Valid(ix)
    ensures r.Ok? ==> TableValid(r.value.0) && SD.Valid(r.value.1)
  {
    var s :- TruncateRecords(Truncation(WithStar(d), ix, []), SD.Records(ix), m);
    Ok((DeleteEach(s.table, s.toBeDeleted), s.index))
  }

  // ---------------------------------------------------------------------
  // What the traversal keeps

  /** The index lists only queries other than `*` that the table holds,
      each under its bucket's probability. */
  ghost predicate IndexConsistent(d: Table, ix: SD.SortedIndex) {
    forall k :: k in ix.lists ==> forall q :: q in ix.lists[k] ==> q != "*" && q in d.items && MappingAt(d, q).probability == k
  }

  /** Every query of the table other than `*` is listed in the index. */
  ghost predicate IndexComplete(d: Table, ix: SD.SortedIndex) {
    forall q :: q in d.items && q != "*" ==> exists k :: k in ix.lists && q in ix.lists[k]
  }

  /** Two indexes with the same keys and, under each key, the same elements
      in any order. */
  ghost predicate SameEntries(ix: SD.SortedIndex, ix0: SD.SortedIndex) {
    ix.keys == ix0.keys &&
    forall k :: k in ix0.lists ==> k in ix.lists && multiset(ix.lists[k]) == multiset(ix0.lists[k])
  }

  /** The same queries in the same order, and every bucket other than
      <*> with its probability and its urls. */
  ghost predicate TableKept(t: Table, d0: Table) {
    t.keys == d0.keys &&
    forall x :: x in d0.items && x != "*" ==>
      x in t.items && t.items[x].probability == d0.items[x].probability && t.items[x].urls.keys == d0.items[x].urls.keys
  }

  /** What holds at every step of the traversal that started from table
      `d0` and index `ix0`: the table is kept, and the index has the same
      entries and still agrees with the table. */
  ghost predicate Inv(s: Truncation, d0: Table, ix0: SD.SortedIndex) {
    TruncationValid(s) && TableKept(s.table, d0) && IndexConsistent(s.table, s.index) && SameEntries(s.index, ix0)
  }

  /** A query found under its bucket's probability is moved to the end of
      that list, and its pair is subsumed and noted. */
  lemma AbsorbStepShape(s: Truncation, q: string, u: string, k: real)
    requires TruncationValid(s) && q != "*" && HasPair(s.table, q, u)
    requires k in s.index.lists && q in s.index.lists[k] && s.table.items[q].probability == k
    ensures AbsorbStep(s, q, u) ==
      Ok(Truncation(AbsorbLeaf(s.table, q, u), SD.Append(SD.Remove(s.index, k, q), k, q), s.toBeDeleted + [(q, u)]))
  {
    AbsorbLeafAt(s.table, q, u, q, u);
  }

  /** Subsuming a pair keeps the table. */
  lemma AbsorbLeafKept(t: Table, d0: Table, q: string, u: string)
    requires TableValid(t) && "*" in t.items && q != "*" && HasPair(t, q, u) && TableKept(t, d0)
    ensures TableKept(AbsorbLeaf(t, q, u), d0)
  {
    forall x | x in d0.items && x != "*"
      ensures x in AbsorbLeaf(t, q, u).items && AbsorbLeaf(t, q, u).items[x].probability == d0.items[x].probability &&
              AbsorbLeaf(t, q, u).items[x].urls.keys == d0.items[x].urls.keys
    {
      AbsorbLeafAt(t, q, u, x, u);
    }
    AbsorbLeafAt(t, q, u, q, u);
  }

  /** Moving a query to the end of its list keeps the entries. */
  lemma MoveSameEntries(ix: SD.SortedIndex, ix0: SD.SortedIndex, q: string, k: real)
    requires SD.Valid(ix) && k in ix.lists && q in ix.lists[k] && SameEntries(ix, ix0)
    ensures SameEntries(SD.Append(SD.Remove(ix, k, q), k, q), ix0)
  {
    SD.MoveToEnd(ix, k, q);
  }

  /** Moving a query to the end of its list, while the table's
      probabilities stay, keeps the index in agreement with the table. */
  lemma MoveConsistent(t: Table, t': Table, ix: SD.SortedIndex, q: string, k: real)
    requires SD.Valid(ix) && k in ix.lists && q in ix.lists[k] && IndexConsistent(t, ix)
    requires forall x :: x in t.items && x != "*" ==> x in t'.items && t'.items[x].probability == t.items[x].probability
    ensures IndexConsistent(t', SD.Append(SD.Remove(ix, k, q), k, q))
  {
    var ix' := SD.Append(SD.Remove(ix, k, q), k, q);
    forall k', q' | k' in ix'.lists && q' in ix'.lists[k']
      ensures q' != "*" && q' in t'.items && MappingAt(t', q').probability == k'
    {
      SD.MoveToEndAt(ix, k, q, k', q');
      assert k' in ix.lists && q' in ix.lists[k'];
      assert q' != "*" && q' in t.items && MappingAt(t, q').probability == k';
      assert q' in t'.items && t'.items[q'].probability == t.items[q'].probability;
      assert MappingAt(t', q') == t'.items[q'];
    }
  }

  /** A query listed in the original index can always be found under its
      bucket's probability, so the step does not raise, and it keeps the
      invariant. */
  lemma AbsorbStepInv(s: Truncation, d0: Table, ix0: SD.SortedIndex, q: string, u: string, k: real)
    requires Inv(s, d0, ix0) && TableValid(d0)
    requires k in ix0.lists && q in ix0.lists[k] && HasPair(d0, q, u)
    ensures AbsorbStep(s, q, u).Ok?
    ensures AbsorbStep(s, q, u).value.table == AbsorbLeaf(s.table, q, u)
    ensures AbsorbStep(s, q, u).value.toBeDeleted == s.toBeDeleted + [(q, u)]
    ensures Inv(AbsorbStep(s, q, u).value, d0, ix0)
  {
    assert q in multiset(ix0.lists[k]);
    assert q in s.index.lists[k];
    AbsorbStepShape(s, q, u, k);
    AbsorbLeafKept(s.table, d0, q, u);
    forall x | x in s.table.items && x != "*"
      ensures x in AbsorbLeaf(s.table, q, u).items && AbsorbLeaf(s.table, q, u).items[x].probability == s.table.items[x].probability
    {
      AbsorbLeafAt(s.table, q, u, x, u);
    }
    MoveSameEntries(s.index, ix0, q, k);
    MoveConsistent(s.table, AbsorbLeaf(s.table, q, u), s.index, q, k);
  }

  /** The loop over urls of `q` that the original table holds: no raise,
      the invariant kept, and one noted pair per url. */
  lemma {:induction false} AbsorbUrlsInv(s: Truncation, d0: Table, ix0: SD.SortedIndex, q: string, us: seq<string>, k: real)
    requires Inv(s, d0, ix0) && TableValid(d0)
    requires k in ix0.lists && q in ix0.lists[k] && forall u :: u in us ==> HasPair(d0, q, u)
    ensures AbsorbUrls(s, q, us).Ok?
    ensures AbsorbUrls(s, q, us).value.toBeDeleted == s.toBeDeleted + Row(q, us)
    ensures Inv(AbsorbUrls(s, q, us).value, d0, ix0)
  {
    if us != [] {
      var init, last := us[..|us| - 1], us[|us| - 1];
      assert us == init + [last];
      assert forall u :: u in init ==> u in us;
      assert HasPair(d0, q, last);
      AbsorbUrlsInv(s, d0, ix0, q, init, k);
      var s' := AbsorbUrls(s, q, init).value;
      assert AbsorbUrls(s, q, us) == AbsorbStep(s', q, last);
      AbsorbStepInv(s', d0, ix0, q, last, k);
      RowSnoc(q, init, last);
      ConcatAssociates(s.toBeDeleted, Row(q, init), [(q, last)]);
    }
  }

  lemma ConcatAssociates<T>(a: seq<T>, b: seq<T>, c: seq<T>)
    ensures (a + b) + c == a + (b + c)
  {
  }

  lemma {:induction false} RowSnoc(q: string, us: seq<string>, u: string)
    ensures Row(q, us + [u]) == Row(q, us) + [(q, u)]
  {
    if us != [] {
      assert (us + [u])[1..] == us[1..] + [u];
      RowSnoc(q, us[1..], u);
    }
  }

  /** The pairs the traversal notes for deletion: every url, in order, of
      every query listed at a position of at least `m`. */
  function Doomed(records: seq<(real, string)>, m: int, d: Table): seq<(string, string)> {
    if records == [] then []
    else
      var n := |records| - 1;
      Doomed(records[..n], m, d) + (if n >= m then Row(records[n].1, MappingAt(d, records[n].1).urls.keys) else [])
  }

  /** `x` is listed at a position of at least `m`. */
  ghost predicate Beyond(records: seq<(real, string)>, m: int, x: string) {
    exists i :: 0 <= i < |records| && m <= i && records[i].1 == x
  }

  lemma {:induction false} DoomedMembership(records: seq<(real, string)>, m: int, d: Table, p: (string, string))
    requires TableValid(d)
    ensures p in Doomed(records, m, d) <==> Beyond(records, m, p.0) && HasPair(d, p.0, p.1)
  {
    if records != [] {
      var n := |records| - 1;
      DoomedMembership(records[..n], m, d, p);
      RowMembership(records[n].1, MappingAt(d, records[n].1).urls.keys, p);
      BeyondSnoc(records, m, p.0);
    }
  }

  lemma BeyondSnoc(records: seq<(real, string)>, m: int, x: string)
    requires records != []
    ensures Beyond(records, m, x) <==>
      Beyond(records[..|records| - 1], m, x) || (m <= |records| - 1 && records[|records| - 1].1 == x)
  {
    var n := |records| - 1;
    if Beyond(records, m, x) {
      var i :| 0 <= i < |records| && m <= i && records[i].1 == x;
      if i < n {
        assert records[..n][i] == records[i];
      }
    }
    if Beyond(records[..n], m, x) {
      var i :| 0 <= i < n && m <= i && records[..n][i].1 == x;
      assert records[i] == records[..n][i];
    }
  }

  /** Every listed record names an entry of the original index. */
  ghost predicate Listed(records: seq<(real, string)>, ix0: SD.SortedIndex) {
    forall i :: 0 <= i < |records| ==> records[i].0 in ix0.lists && records[i].1 in ix0.lists[records[i].0]
  }

  /** The traversal of records of the original index does not raise,
      keeps the invariant, and notes exactly the doomed pairs. */
  lemma {:induction false} TruncateRecordsInv(s: Truncation, d0: Table, ix0: SD.SortedIndex, records: seq<(real, string)>, m: int)
    requires Inv(s, d0, ix0) && TableValid(d0) && Listed(records, ix0)
    ensures TruncateRecords(s, records, m).Ok?
    ensures TruncateRecords(s, records, m).value.toBeDeleted == s.toBeDeleted + Doomed(records, m, d0)
    ensures Inv(TruncateRecords(s, records, m).value, d0, ix0)
  {
    if records != [] {
      var n := |records| - 1;
      assert Listed(records[..n], ix0) by {
        forall i | 0 <= i < n ensures records[..n][i] == records[i] {}
      }
      TruncateRecordsInv(s, d0, ix0, records[..n], m);
      var s' := TruncateRecords(s, records[..n], m).value;
      if n >= m {
        var (k, q) := records[n];
        var keys := MappingAt(d0, q).urls.keys;
        PassInv(s', d0, ix0, q, k);
        assert Doomed(records, m, d0) == Doomed(records[..n], m, d0) + Row(q, keys);
      } else {
        assert TruncateRecords(s, records, m) == Ok(s');
        assert Doomed(records, m, d0) == Doomed(records[..n], m, d0) + [];
      }
    }
  }

  /** One pass for a query of the original index: the table already
      holds it, its urls are those of the original, and the pass notes
      one pair per url. */
  lemma PassInv(s: Truncation, d0: Table, ix0: SD.SortedIndex, q: string, k: real)
    requires Inv(s, d0, ix0) && TableValid(d0) && k in ix0.lists && q in ix0.lists[k]
    ensures Pass(s, q) == AbsorbUrls(s, q, MappingAt(d0, q).urls.keys)
    ensures Pass(s, q).Ok?
    ensures Pass(s, q).value.toBeDeleted == s.toBeDeleted + Row(q, MappingAt(d0, q).urls.keys)
    ensures Inv(Pass(s, q).value, d0, ix0)
  {
    assert q in multiset(ix0.lists[k]);
    assert q in s.index.lists[k];
    assert q in s.table.items;
    AbsorbUrlsInv(s, d0, ix0, q, MappingAt(d0, q).urls.keys, k);
  }

  /** The bucket and pair facts one pass keeps: the same pairs, every
      bucket other than <*> and the visited `q` as it was, and the <*>
      bucket changed only in its probability. */
  ghost predicate Kept(d: Table, t: Table, q: string, visited: bool, x: string, v: string) {
    (HasPair(t, x, v) <==> HasPair(d, x, v)) &&
    (x != "*" && !(visited && x == q) ==> MappingAt(t, x) == MappingAt(d, x) && (x in t.items <==> x in d.items)) &&
    MappingAt(t, "*") == MappingAt(d, "*").(probability := MappingAt(t, "*").probability)
  }

  lemma {:induction false} AbsorbUrlsAt(s: Truncation, q: string, us: seq<string>, x: string, v: string)
    requires TruncationValid(s) && q != "*" && forall u :: u in us ==> HasPair(s.table, q, u)
    ensures AbsorbUrls(s, q, us).Ok? ==> Kept(s.table, AbsorbUrls(s, q, us).value.table, q, true, x, v)
  {
    if us != [] {
      var init, last := us[..|us| - 1], us[|us| - 1];
      assert last in us;
      assert forall u :: u in init ==> u in us;
      AbsorbUrlsAt(s, q, init, x, v);
      AbsorbUrlsAt(s, q, init, q, last);
      if AbsorbUrls(s, q, init).Ok? {
        var s' := AbsorbUrls(s, q, init).value;
        if AbsorbStep(s', q, last).Ok? {
          AbsorbLeafAt(s'.table, q, last, x, v);
        }
      }
    }
  }

  /** A pass keeps every pair, every bucket other than <*> and `q`, and
      changes only the probability of <*>. */
  lemma PassAt(s: Truncation, q: string, x: string, v: string)
    requires TruncationValid(s) && q != "*"
    ensures Pass(s, q).Ok? ==> Kept(s.table, Pass(s, q).value.table, q, true, x, v)
  {
    var t := EnsureQuery(s.table, q);
    forall u | u in t.items[q].urls.keys ensures HasPair(t, q, u) {}
    AbsorbUrlsAt(s.(table := t), q, t.items[q].urls.keys, x, v);
    assert HasPair(t, x, v) <==> HasPair(s.table, x, v);
    assert x != q ==> MappingAt(t, x) == MappingAt(s.table, x) && (x in t.items <==> x in s.table.items);
    assert MappingAt(t, "*") == MappingAt(s.table, "*");
  }

  /** The traversal keeps every pair and every bucket of a query that is
      not listed beyond `m`, and changes only the probability of <*>. */
  lemma {:induction false} TruncateRecordsAt(s: Truncation, records: seq<(real, string)>, m: int, x: string, v: string)
    requires TruncationValid(s) && forall i :: 0 <= i < |records| ==> records[i].1 != "*"
    ensures TruncateRecords(s, records, m).Ok? ==>
      Kept(s.table, TruncateRecords(s, records, m).value.table, x, Beyond(records, m, x), x, v)
  {
    if records != [] {
      var n := |records| - 1;
      assert forall i :: 0 <= i < n ==> records[..n][i] == records[i];
      TruncateRecordsAt(s, records[..n], m, x, v);
      if Beyond(records[..n], m, x) {
        var i :| 0 <= i < n && m <= i && records[..n][i].1 == x;
        assert records[i].1 == x;
      }
      if TruncateRecords(s, records[..n], m).Ok? {
        var s' := TruncateRecords(s, records[..n], m).value;
        var q := records[n].1;
        if n >= m {
          PassAt(s', q, x, v);
          if x == q {
            assert Beyond(records, m, x);
          }
          if Pass(s', q).Ok? {
            KeptChain(s.table, s'.table, Pass(s', q).value.table, x, v, Beyond(records[..n], m, x), q, Beyond(records, m, x));
          }
        } else {
          KeptChain(s.table, s'.table, s'.table, x, v, Beyond(records[..n], m, x), x, Beyond(records, m, x));
        }
      }
    }
  }

  /** Kept facts compose along the passes. */
  lemma KeptChain(d: Table, t: Table, r: Table, x: string, v: string, before: bool, q: string, after: bool)
    requires Kept(d, t, x, before, x, v)
    requires r == t || Kept(t, r, q, true, x, v)
    requires before ==> after
    requires r != t ==> x == q ==> after
    ensures Kept(d, r, x, after, x, v)
  {
  }

  /** The state the traversal starts from satisfies the invariant, and
      the snapshot lists entries of the index and no `*`. */
  lemma TruncatedStart(d: Table, ix: SD.SortedIndex)
    requires TableValid(d) && SD.Valid(ix) && IndexConsistent(d, ix)
    ensures Inv(Truncation(WithStar(d), ix, []), WithStar(d), ix)
    ensures Listed(SD.Records(ix), ix)
    ensures forall i :: 0 <= i < |SD.Records(ix)| ==> SD.Records(ix)[i].1 != "*"
  {
    var records := SD.Records(ix);
    forall i | 0 <= i < |records|
      ensures records[i].0 in ix.lists && records[i].1 in ix.lists[records[i].0] && records[i].1 != "*"
    {
      SD.RecordsMembership(ix, records[i].0, records[i].1);
    }
  }

  /** The traversal's result, as the deletion of the doomed pairs. */
  lemma TruncatedShape(d: Table, ix: SD.SortedIndex, m: int)
    requires TableValid(d) && SD.Valid(ix) && IndexConsistent(d, ix)
    ensures TruncateRecords(Truncation(WithStar(d), ix, []), SD.Records(ix), m).Ok?
    ensures Truncated(d, ix, m) ==
      var s := TruncateRecords(Truncation(WithStar(d), ix, []), SD.Records(ix), m).value;
      Ok((DeleteEach(s.table, Doomed(SD.Records(ix), m, WithStar(d))), s.index))
    ensures SameEntries(Truncated(d, ix, m).value.1, ix)
    ensures multiset(SD.Records(Truncated(d, ix, m).value.1)) == multiset(SD.Records(ix))
    ensures forall p :: p in Doomed(SD.Records(ix), m, WithStar(d)) ==> p.0 != "*"
  {
    var start := WithStar(d);
    var records := SD.Records(ix);
    TruncatedStart(d, ix);
    TruncateRecordsInv(Truncation(start, ix, []), start, ix, records, m);
    var s := TruncateRecords(Truncation(start, ix, []), records, m).value;
    assert [] + Doomed(records, m, start) == Doomed(records, m, start);
    assert s.toBeDeleted == Doomed(records, m, start);
    assert Truncated(d, ix, m) == Ok((DeleteEach(s.table, s.toBeDeleted), s.index));
    SD.SameElementsSameRecords(s.index, ix);
    forall p | p in Doomed(records, m, start) ensures p.0 != "*" {
      DoomedMembership(records, m, start, p);
    }
  }

  /** One pair of a query other than `*` after the whole operation: it
      is kept exactly when its query is not listed beyond `m`, and the
      bucket of such a query is the one it had. */
  lemma TruncatedPair(d: Table, ix: SD.SortedIndex, m: int, x: string, v: string)
    requires TableValid(d) && SD.Valid(ix) && IndexConsistent(d, ix) && x != "*"
    ensures Truncated(d, ix, m).Ok?
    ensures HasPair(Truncated(d, ix, m).value.0, x, v) <==> HasPair(d, x, v) && !Beyond(SD.Records(ix), m, x)
    ensures !Beyond(SD.Records(ix), m, x) ==>
      MappingAt(Truncated(d, ix, m).value.0, x) == MappingAt(d, x) && (x in Truncated(d, ix, m).value.0.items <==> x in d.items)
  {
    var start := WithStar(d);
    var records := SD.Records(ix);
    TruncatedStart(d, ix);
    TruncatedShape(d, ix, m);
    var s0 := Truncation(start, ix, []);
    var t := TruncateRecords(s0, records, m).value.table;
    var doomed := Doomed(records, m, start);
    TruncateRecordsAt(s0, records, m, x, v);
    DoomedMembership(records, m, start, (x, v));
    forall p | p in doomed ensures !Beyond(records, m, x) ==> p.0 != x {
      DoomedMembership(records, m, start, p);
    }
    DeleteEachAt(t, doomed, x, v);
  }

  /** The <*> bucket after the whole operation: it exists, keeps every
      pair and its count, and only its probability changes. */
  lemma TruncatedStar(d: Table, ix: SD.SortedIndex, m: int, v: string)
    requires TableValid(d) && SD.Valid(ix) && IndexConsistent(d, ix)
    ensures Truncated(d, ix, m).Ok?
    ensures "*" in Truncated(d, ix, m).value.0.items
    ensures HasPair(d, "*", v) ==> HasPair(Truncated(d, ix, m).value.0, "*", v)
    ensures MappingAt(Truncated(d, ix, m).value.0, "*") ==
      MappingAt(WithStar(d), "*").(probability := MappingAt(Truncated(d, ix, m).value.0, "*").probability)
  {
    var start := WithStar(d);
    var records := SD.Records(ix);
    TruncatedStart(d, ix);
    TruncatedShape(d, ix, m);
    var s0 := Truncation(start, ix, []);
    var t := TruncateRecords(s0, records, m).value.table;
    var doomed := Doomed(records, m, start);
    TruncateRecordsAt(s0, records, m, "*", v);
    DeleteEachAt(t, doomed, "*", v);
  }

  /** A query listed beyond `m` that had a pair loses its whole bucket. */
  lemma TruncatedGone(d: Table, ix: SD.SortedIndex, m: int, x: string, v: string)
    requires TableValid(d) && SD.Valid(ix) && IndexConsistent(d, ix) && x != "*"
    requires Beyond(SD.Records(ix), m, x) && HasPair(d, x, v)
    ensures Truncated(d, ix, m).Ok?
    ensures x !in Truncated(d, ix, m).value.0.items
  {
    var start := WithStar(d);
    var records := SD.Records(ix);
    TruncatedStart(d, ix);
    TruncatedShape(d, ix, m);
    var s0 := Truncation(start, ix, []);
    var t := TruncateRecords(s0, records, m).value.table;
    var doomed := Doomed(records, m, start);
    var r := DeleteEach(t, doomed);
    DoomedMembership(records, m, start, (x, v));
    DeleteEachAt(t, doomed, x, v);
    if x in r.items {
      var w := r.items[x].urls.keys[0];
      assert HasPair(r, x, w);
      DeleteEachAt(t, doomed, x, w);
      TruncateRecordsAt(s0, records, m, x, w);
      DoomedMembership(records, m, start, (x, w));
    }
  }

  /** The queries listed at the first `n` positions. */
  function FirstQueries(records: seq<(real, string)>, n: nat): (r: set<string>)
    requires n <= |records|
    ensures |r| <= n
    ensures forall i :: 0 <= i < n ==> records[i].1 in r
  {
    if n == 0 then {}
    else
      var prev := FirstQueries(records, n - 1);
      assert |prev + {records[n - 1].1}| <= |prev| + 1 by {
        if records[n - 1].1 in prev {
          assert prev + {records[n - 1].1} == prev;
        }
      }
      prev + {records[n - 1].1}
  }

  /** A sequence without repetitions drawn from `S` is no longer than `S`. */
  lemma {:induction false} DistinctWithin(ks: seq<string>, S: set<string>)
    requires OD.Distinct(ks) && forall k :: k in ks ==> k in S
    ensures |ks| <= |S|
  {
    if ks != [] {
      forall k | k in ks[1..] ensures k in S - {ks[0]} {
        var j :| 0 <= j < |ks[1..]| && ks[1..][j] == k;
        assert ks[j + 1] == k;
      }
      DistinctWithin(ks[1..], S - {ks[0]});
    }
  }

  /** A query listed beyond `m` with at least one url does not remain. */
  lemma BeyondGone(d: Table, ix: SD.SortedIndex, m: int, x: string)
    requires TableValid(d) && SD.Valid(ix) && IndexConsistent(d, ix)
    requires forall q :: q in d.items && q != "*" ==> Size(d.items[q]) > 0
    requires x != "*" && Beyond(SD.Records(ix), m, x)
    ensures Truncated(d, ix, m).Ok?
    ensures x !in Truncated(d, ix, m).value.0.items
  {
    TruncatedShape(d, ix, m);
    var records := SD.Records(ix);
    var i :| 0 <= i < |records| && m <= i && records[i].1 == x;
    SD.RecordsMembership(ix, records[i].0, x);
    assert x in d.items;
    TruncatedGone(d, ix, m, x, d.items[x].urls.keys[0]);
  }

  /** A listed query that is not listed beyond `m` is among the first `m`. */
  lemma ListedWithin(ix: SD.SortedIndex, m: int, x: string, k: real)
    requires SD.Valid(ix) && 0 <= m && k in ix.lists && x in ix.lists[k] && !Beyond(SD.Records(ix), m, x)
    ensures x in FirstQueries(SD.Records(ix), if m < |SD.Records(ix)| then m else |SD.Records(ix)|)
  {
    var records := SD.Records(ix);
    SD.RecordsMembership(ix, k, x);
    var i :| 0 <= i < |records| && records[i] == (k, x);
    assert i < m;
  }

  /** A query other than `*` that remains is listed within the first `m`. */
  lemma TruncatedRemaining(d: Table, ix: SD.SortedIndex, m: int, x: string)
    requires TableValid(d) && SD.Valid(ix) && IndexConsistent(d, ix) && IndexComplete(d, ix) && 0 <= m
    requires forall q :: q in d.items && q != "*" ==> Size(d.items[q]) > 0
    requires x != "*"
    ensures Truncated(d, ix, m).Ok?
    ensures x in Truncated(d, ix, m).value.0.items ==>
      x in FirstQueries(SD.Records(ix), if m < |SD.Records(ix)| then m else |SD.Records(ix)|)
  {
    TruncatedShape(d, ix, m);
    if x in Truncated(d, ix, m).value.0.items {
      if Beyond(SD.Records(ix), m, x) {
        BeyondGone(d, ix, m, x);
      } else {
        TruncatedPair(d, ix, m, x, "*");
        assert x in d.items;
        var k :| k in ix.lists && x in ix.lists[k];
        ListedWithin(ix, m, x, k);
      }
    }
  }

  /** The size bound of Figure 4, line 14: when every query of the table
      is listed in an index that agrees with it and no bucket other than
      <*> is empty, at most `m` queries besides `*` remain, and those are
      among the first `m` the index lists. */
  lemma TruncatedAtMostM(d: Table, ix: SD.SortedIndex, m: int)
    requires TableValid(d) && SD.Valid(ix) && IndexConsistent(d, ix) && IndexComplete(d, ix) && 0 <= m
    requires forall q :: q in d.items && q != "*" ==> Size(d.items[q]) > 0
    ensures Truncated(d, ix, m).Ok?
    ensures |Truncated(d, ix, m).value.0.keys| <= m + 1
  {
    var records := SD.Records(ix);
    var first := FirstQueries(records, if m < |records| then m else |records|);
    TruncatedRemaining(d, ix, m, "");
    var r := Truncated(d, ix, m).value.0;
    forall x | x in r.items && x != "*" ensures x in first {
      TruncatedRemaining(d, ix, m, x);
    }
    AtMostOnePlus(r, first);
  }

  /** A table whose queries other than `*` lie in `first` holds at most
      `|first| + 1` queries. */
  lemma AtMostOnePlus(r: Table, first: set<string>)
    requires TableValid(r) && forall x :: x in r.items && x != "*" ==> x in first
    ensures |r.keys| <= |first| + 1
  {
    forall x | x in r.keys ensures x in first + {"*"} {
      assert x in r.items;
    }
    DistinctWithin(r.keys, first + {"*"});
  }

  // ---------------------------------------------------------------------
  // Probability mass

  /** The probability a table holds: the <*> bucket's own and every leaf's. */
  function Mass(d: Table): real {
    MappingAt(d, "*").probability + OD.Sum(d, LeafProbabilityTotal)
  }

  /** Subsuming a pair moves its leaf's probability into <*>: the mass stays. */
  lemma AbsorbLeafMass(d: Table, q: string, u: string)
    requires TableValid(d) && "*" in d.items && q != "*" && HasPair(d, q, u)
    ensures Mass(AbsorbLeaf(d, q, u)) == Mass(d)
  {
    var star := d.items["*"];
    var (sink, source) := Absorb(star, d.items[q], u);
    OD.SumPut(d, "*", sink, LeafProbabilityTotal);
    OD.SumPut(OD.Put(d, "*", sink), q, source, LeafProbabilityTotal);
  }

  /** The loop over one query's urls keeps the mass and zeroes exactly
      the leaves of the listed urls. */
  lemma {:induction false} AbsorbUrlsMass(s: Truncation, q: string, us: seq<string>, v: string)
    requires TruncationValid(s) && q != "*" && forall u :: u in us ==> HasPair(s.table, q, u)
    ensures AbsorbUrls(s, q, us).Ok? ==> Mass(AbsorbUrls(s, q, us).value.table) == Mass(s.table)
    ensures AbsorbUrls(s, q, us).Ok? ==> (LeafAt(AbsorbUrls(s, q, us).value.table, q, v) ==
      if v in us then LeafAt(s.table, q, v).(probability := 0.0) else LeafAt(s.table, q, v))
  {
    if us != [] {
      var init, last := us[..|us| - 1], us[|us| - 1];
      assert us == init + [last];
      assert forall u :: u in init ==> u in us;
      AbsorbUrlsMass(s, q, init, v);
      AbsorbUrlsAt(s, q, init, q, last);
      if AbsorbUrls(s, q, init).Ok? {
        var s' := AbsorbUrls(s, q, init).value;
        if AbsorbStep(s', q, last).Ok? {
          AbsorbLeafMass(s'.table, q, last);
          AbsorbLeafAt(s'.table, q, last, q, v);
        }
      }
    }
  }

  /** A pass keeps the mass and zeroes every leaf of `q`. */
  lemma PassMass(s: Truncation, q: string, v: string)
    requires TruncationValid(s) && q != "*"
    ensures Pass(s, q).Ok? ==> Mass(Pass(s, q).value.table) == Mass(s.table)
    ensures Pass(s, q).Ok? && HasPair(s.table, q, v) ==> LeafAt(Pass(s, q).value.table, q, v).probability == 0.0
  {
    var t := EnsureQuery(s.table, q);
    if q !in s.table.items {
      OD.SumPut(s.table, q, FreshMapping, LeafProbabilityTotal);
    }
    assert Mass(t) == Mass(s.table);
    forall u | u in t.items[q].urls.keys ensures HasPair(t, q, u) {}
    AbsorbUrlsMass(s.(table := t), q, t.items[q].urls.keys, v);
    if HasPair(s.table, q, v) {
      assert v in t.items[q].urls.keys;
    }
  }

  /** The traversal keeps the mass. */
  lemma {:induction false} TruncateRecordsMass(s: Truncation, records: seq<(real, string)>, m: int)
    requires TruncationValid(s) && forall i :: 0 <= i < |records| ==> records[i].1 != "*"
    ensures TruncateRecords(s, records, m).Ok? ==> Mass(TruncateRecords(s, records, m).value.table) == Mass(s.table)
  {
    if records != [] {
      var n := |records| - 1;
      assert forall i :: 0 <= i < n ==> records[..n][i] == records[i];
      TruncateRecordsMass(s, records[..n], m);
      if TruncateRecords(s, records[..n], m).Ok? && n >= m {
        PassMass(TruncateRecords(s, records[..n], m).value, records[n].1, "*");
      }
    }
  }

  /** Every leaf of a query listed beyond `m` ends with probability 0. */
  lemma {:induction false} TruncateRecordsZero(s: Truncation, records: seq<(real, string)>, m: int, x: string, v: string)
    requires TruncationValid(s) && forall i :: 0 <= i < |records| ==> records[i].1 != "*"
    requires Beyond(records, m, x) && HasPair(s.table, x, v)
    ensures TruncateRecords(s, records, m).Ok? ==> LeafAt(TruncateRecords(s, records, m).value.table, x, v).probability == 0.0
  {
    var n := |records| - 1;
    var i :| 0 <= i < |records| && m <= i && records[i].1 == x;
    assert x != "*";
    if n >= m && records[n].1 == x {
      ZeroWhenVisited(s, records, m, x, v);
    } else {
      var init := records[..n];
      BeyondSnoc(records, m, x);
      assert Beyond(init, m, x);
      assert forall j :: 0 <= j < |init| ==> init[j].1 != "*" by {
        forall j | 0 <= j < |init| ensures init[j].1 != "*" {
          assert init[j] == records[j];
        }
      }
      TruncateRecordsZero(s, init, m, x, v);
      ZeroKept(s, records, m, x, v);
    }
  }

  /** The last record visits `x`: its pass zeroes the leaf. */
  lemma ZeroWhenVisited(s: Truncation, records: seq<(real, string)>, m: int, x: string, v: string)
    requires TruncationValid(s) && records != [] && forall i :: 0 <= i < |records| ==> records[i].1 != "*"
    requires |records| - 1 >= m && records[|records| - 1].1 == x && HasPair(s.table, x, v)
    ensures TruncateRecords(s, records, m).Ok? ==> LeafAt(TruncateRecords(s, records, m).value.table, x, v).probability == 0.0
  {
    var n := |records| - 1;
    assert forall i :: 0 <= i < n ==> records[..n][i] == records[i];
    TruncateRecordsAt(s, records[..n], m, x, v);
    if TruncateRecords(s, records[..n], m).Ok? {
      var s' := TruncateRecords(s, records[..n], m).value;
      assert HasPair(s'.table, x, v);
      PassMass(s', x, v);
    }
  }

  /** The last record is not a visit of `x`: the zero leaf stays zero. */
  lemma ZeroKept(s: Truncation, records: seq<(real, string)>, m: int, x: string, v: string)
    requires TruncationValid(s) && records != [] && x != "*" && records[|records| - 1].1 != "*"
    requires !(|records| - 1 >= m && records[|records| - 1].1 == x)
    requires TruncateRecords(s, records[..|records| - 1], m).Ok? ==>
      LeafAt(TruncateRecords(s, records[..|records| - 1], m).value.table, x, v).probability == 0.0
    ensures TruncateRecords(s, records, m).Ok? ==> LeafAt(TruncateRecords(s, records, m).value.table, x, v).probability == 0.0
  {
    var n := |records| - 1;
    if TruncateRecords(s, records[..n], m).Ok? && n >= m {
      var s' := TruncateRecords(s, records[..n], m).value;
      PassAt(s', records[n].1, x, v);
      if Pass(s', records[n].1).Ok? {
        assert LeafAt(Pass(s', records[n].1).value.table, x, v) == LeafAt(s'.table, x, v);
      }
    }
  }

  /** Deleting a pair of a query other than `*` removes its leaf's probability. */
  lemma DeletePairMass(d: Table, q: string, u: string)
    requires TableValid(d) && q != "*"
    ensures Mass(DeletePair(d, q, u)) == Mass(d) - LeafAt(d, q, u).probability
  {
    if q in d.items {
      var b := d.items[q];
      var b' := DeleteUrl(b, u);
      if u in b.urls.items {
        OD.SumDelete(b.urls, u, LeafProbability);
        assert b'.urls == OD.Delete(b.urls, u);
      } else {
        assert b' == b;
      }
      assert LeafProbabilityTotal(b') == LeafProbabilityTotal(b) - LeafAt(d, q, u).probability;
      if Size(b') == 0 {
        OD.SumDelete(d, q, LeafProbabilityTotal);
        assert b'.urls.keys == [];
      } else {
        OD.SumPut(d, q, b', LeafProbabilityTotal);
      }
    }
  }

  /** Deleting pairs whose leaves hold no probability keeps the mass. */
  lemma {:induction false} DeleteEachMass(d: Table, pairs: seq<(string, string)>)
    requires TableValid(d)
    requires forall p :: p in pairs ==> p.0 != "*" && LeafAt(d, p.0, p.1).probability == 0.0
    ensures Mass(DeleteEach(d, pairs)) == Mass(d)
  {
    if pairs != [] {
      var init, last := pairs[..|pairs| - 1], pairs[|pairs| - 1];
      assert last in pairs;
      assert forall p :: p in init ==> p in pairs;
      DeleteEachMass(d, init);
      DeleteEachAt(d, init, last.0, last.1);
      DeletePairMass(DeleteEach(d, init), last.0, last.1);
    }
  }

  /** Adding <*, *> adds a leaf without probability. */
  lemma WithStarMass(d: Table)
    requires TableValid(d)
    ensures Mass(WithStar(d)) == Mass(d)
  {
    if "*" !in d.items {
      var b := AddUrl(FreshMapping, "*");
      OD.SumPut(d, "*", b, LeafProbabilityTotal);
      assert b.urls.keys == ["*"];
      assert LeafProbabilityTotal(b) == 0.0;
    }
  }

  /** subsume_entries_beyond_max_size moves probability into <*> without
      creating or losing any: the table's mass is what it was. */
  lemma TruncatedMass(d: Table, ix: SD.SortedIndex, m: int)
    requires TableValid(d) && SD.Valid(ix) && IndexConsistent(d, ix)
    ensures Truncated(d, ix, m).Ok?
    ensures Mass(Truncated(d, ix, m).value.0) == Mass(d)
  {
    var start := WithStar(d);
    var records := SD.Records(ix);
    TruncatedStart(d, ix);
    TruncatedShape(d, ix, m);
    WithStarMass(d);
    var s0 := Truncation(start, ix, []);
    var t := TruncateRecords(s0, records, m).value.table;
    var doomed := Doomed(records, m, start);
    TruncateRecordsMass(s0, records, m);
    forall p | p in doomed ensures p.0 != "*" && LeafAt(t, p.0, p.1).probability == 0.0 {
      DoomedMembership(records, m, start, p);
      TruncateRecordsZero(s0, records, m, p.0, p.1);
    }
    DeleteEachMass(t, doomed);
  }

  // ---------------------------------------------------------------------
  // The buckets' probabilities

  function BucketProbability(b: UrlStatsMapping): real {
    b.probability
  }

  /** The sum of `head_list[q].probability` over the queries `q`. */
  function BucketMass(d: Table): real {
    OD.Sum(d, BucketProbability)
  }

  /** Every bucket other than <*> holds the probability of its leaves, as
      calculate_probabilities_relative_to leaves a head list whose
      probabilities started at 0. */
  ghost predicate Balanced(d: Table) {
    forall q :: q in d.items && q != "*" ==> d.items[q].probability == LeafProbabilityTotal(d.items[q])
  }

  /** Over balanced buckets, the bucket sum and the leaf sum differ only
      in what <*> holds. */
  lemma {:induction false} BucketSumOf(keys: seq<string>, items: map<string, UrlStatsMapping>)
    requires OD.Distinct(keys) && forall k :: k in keys ==> k in items
    requires forall k :: k in keys && k != "*" ==> items[k].probability == LeafProbabilityTotal(items[k])
    ensures OD.SumOf(keys, items, BucketProbability) + (if "*" in keys then LeafProbabilityTotal(items["*"]) else 0.0) ==
      OD.SumOf(keys, items, LeafProbabilityTotal) + (if "*" in keys then items["*"].probability else 0.0)
  {
    if keys != [] {
      assert forall k :: k in keys[1..] ==> k in keys;
      BucketSumOf(keys[1..], items);
      assert "*" in keys <==> keys[0] == "*" || "*" in keys[1..];
    }
  }

  /** For a balanced table, the bucket sum plus the probability of the
      <*> leaves is the mass. */
  lemma BalancedBucketMass(d: Table)
    requires TableValid(d) && Balanced(d)
    ensures BucketMass(d) + LeafProbabilityTotal(MappingAt(d, "*")) == Mass(d)
  {
    assert forall k :: k in d.keys ==> k in d.items;
    BucketSumOf(d.keys, d.items);
    assert LeafProbabilityTotal(FreshMapping) == 0.0;
  }

  /** Adding <*, *> adds a bucket without probability. */
  lemma WithStarBucketMass(d: Table)
    requires TableValid(d)
    ensures BucketMass(WithStar(d)) == BucketMass(d)
  {
    if "*" !in d.items {
      OD.SumPut(d, "*", AddUrl(FreshMapping, "*"), BucketProbability);
    }
  }

  /** A query other than `*` that survives truncation keeps a balanced
      bucket: a query not listed beyond `m` keeps its bucket, and one listed
      beyond `m` survives only with no urls and its old probability. */
  lemma TruncatedBucketBalanced(d: Table, ix: SD.SortedIndex, m: int, x: string)
    requires TableValid(d) && SD.Valid(ix) && IndexConsistent(d, ix) && Balanced(d) && x != "*"
    ensures Truncated(d, ix, m).Ok?
    ensures x in Truncated(d, ix, m).value.0.items ==>
      Truncated(d, ix, m).value.0.items[x].probability == LeafProbabilityTotal(Truncated(d, ix, m).value.0.items[x])
  {
    var start := WithStar(d);
    var records := SD.Records(ix);
    TruncatedStart(d, ix);
    TruncatedShape(d, ix, m);
    var s0 := Truncation(start, ix, []);
    TruncateRecordsInv(s0, start, ix, records, m);
    var t := TruncateRecords(s0, records, m).value.table;
    var doomed := Doomed(records, m, start);
    var r := Truncated(d, ix, m).value.0;
    assert r == DeleteEach(t, doomed);
    if x in r.items {
      if !Beyond(records, m, x) {
        TruncatedPair(d, ix, m, x, "*");
      } else {
        forall p | p in doomed ensures p.0 != x {
          DoomedMembership(records, m, start, p);
          if p.0 == x {
            TruncatedGone(d, ix, m, x, p.1);
          }
        }
        DeleteEachAt(t, doomed, x, "*");
        assert x in t.keys;
        assert x in start.items && x in d.items;
        if d.items[x].urls.keys != [] {
          TruncatedGone(d, ix, m, x, d.items[x].urls.keys[0]);
        }
      }
    }
  }

  /** subsume_entries_beyond_max_size keeps the sum of the buckets'
      probabilities, the total the source's test of truncation expects to
      stay 1: each deleted bucket's probability is the probability of its
      leaves, and those leaves were subsumed into <*>. */
  lemma TruncatedBucketMass(d: Table, ix: SD.SortedIndex, m: int)
    requires TableValid(d) && SD.Valid(ix) && IndexConsistent(d, ix) && Balanced(d)
    ensures Truncated(d, ix, m).Ok?
    ensures BucketMass(Truncated(d, ix, m).value.0) == BucketMass(d)
  {
    var start := WithStar(d);
    TruncatedMass(d, ix, m);
    var r := Truncated(d, ix, m).value.0;
    WithStarMass(d);
    WithStarBucketMass(d);
    TruncatedStar(d, ix, m, "*");
    assert LeafProbabilityTotal(MappingAt(r, "*")) == LeafProbabilityTotal(MappingAt(start, "*"));
    forall x | x in r.items && x != "*" ensures r.items[x].probability == LeafProbabilityTotal(r.items[x]) {
      TruncatedBucketBalanced(d, ix, m, x);
    }
    BalancedBucketMass(r);
    BalancedBucketMass(start);
  }

  // ---------------------------------------------------------------------
  // The loops

  lemma AbsorbUrlsStep(s: Truncation, q: string, us: seq<string>, i: int)
    requires TruncationValid(s) && 0 <= i < |us|
    ensures AbsorbUrls(s, q, us[..i + 1]) ==
      (var prev := AbsorbUrls(s, q, us[..i]); if prev.Err? then prev else AbsorbStep(prev.value, q, us[i]))
  {
    assert us[..i + 1][..i] == us[..i];
  }

  lemma {:induction false} AbsorbUrlsErr(s: Truncation, q: string, us: seq<string>, i: int)
    requires TruncationValid(s) && 0 <= i <= |us| && AbsorbUrls(s, q, us[..i]).Err?
    ensures AbsorbUrls(s, q, us) == AbsorbUrls(s, q, us[..i])
    decreases |us| - i
  {
    if i < |us| {
      AbsorbUrlsStep(s, q, us, i);
      AbsorbUrlsErr(s, q, us, i + 1);
    } else {
      assert us[..i] == us;
    }
  }

  lemma TruncateRecordsStep(s: Truncation, records: seq<(real, string)>, i: int, m: int)
    requires TruncationValid(s) && 0 <= i < |records|
    ensures TruncateRecords(s, records[..i + 1], m) ==
      (var prev := TruncateRecords(s, records[..i], m);
       if prev.Err? then prev else if i >= m then Pass(prev.value, records[i].1) else prev)
  {
    assert records[..i + 1][..i] == records[..i];
  }

  lemma {:induction false} TruncateRecordsErr(s: Truncation, records: seq<(real, string)>, i: int, m: int)
    requires TruncationValid(s) && 0 <= i <= |records| && TruncateRecords(s, records[..i], m).Err?
    ensures TruncateRecords(s, records, m) == TruncateRecords(s, records[..i], m)
    decreases |records| - i
  {
    if i < |records| {
      TruncateRecordsStep(s, records, i, m);
      TruncateRecordsErr(s, records, i + 1, m);
    } else {
      assert records[..i] == records;
    }
  }

  /** One pass of the outer loop: `the_query = self[q]`, then, for each
      of its urls, the index move, the subsumption and the note. */
  method SubsumeQuery(s: Truncation, q: string) returns (r: Result<Truncation>)
    requires TruncationValid(s)
    ensures r == Pass(s, q)
  {
    var start := s.(table := EnsureQuery(s.table, q));
    var urls := start.table.items[q].urls.keys;
    var cur := start;
    for j := 0 to |urls|
      invariant TruncationValid(cur)
      invariant AbsorbUrls(start, q, urls[..j]) == Ok(cur)
    {
      AbsorbUrlsStep(start, q, urls, j);
      var next := AbsorbStep(cur, q, urls[j]);
      if next.Err? {
        AbsorbUrlsErr(start, q, urls, j + 1);
        return next;
      }
      cur := next.value;
    }
    assert urls[..|urls|] == urls;
    r := Ok(cur);
  }

  /** subsume_entries_beyond_max_size: <*, *> is added when `*` is
      missing, the records of the index are walked in order and every one
      at a position of at least `m` is subsumed, and the noted pairs are
      deleted once the walk is over. */
  method SubsumeBeyond(d: Table, ix: SD.SortedIndex, m: int) returns (r: Result<(Table, SD.SortedIndex)>)
    requires TableValid(d) && SD.Valid(ix)
    ensures r == Truncated(d, ix, m)
  {
    var t := d;
    if "*" !in t.items {
      t := AddPair(t, "*", "*");
    }
    var records := SD.Records(ix);
    var start := Truncation(t, ix, []);
    var s := start;
    for i := 0 to |records|
      invariant TruncationValid(s)
      invariant TruncateRecords(start, records[..i], m) == Ok(s)
    {
      TruncateRecordsStep(start, records, i, m);
      if i >= m {
        var next := SubsumeQuery(s, records[i].1);
        if next.Err? {
          TruncateRecordsErr(start, records, i + 1, m);
          return Err(next.error);
        }
        s := next.value;
      }
    }
    assert records[..|records|] == records;
    var deleted := DeleteRemoved(s.table, s.toBeDeleted);
    r := Ok((deleted, s.index));
  }

  // ---------------------------------------------------------------------
  // The traversal as written

  /** The queries the source's traversal reads from one list of the index,
      when that list is walked live.  `j` is the list iterator's position
      and `i` the traversal's record counter.  A query read at `i >= m`
      has each of its urls subsumed, and each subsumption removes it from
      the list and appends it again, so it ends up at the end of the list
      it is being read from (every query of a head list holds at least one
      pair, so it is moved).  The list keeps its length, so the walk reads
      exactly one query per position. */
  function LiveListVisits(l: seq<string>, j: nat, i: int, m: int): (r: seq<string>)
    ensures |r| == if j <= |l| then |l| - j else 0
    decreases |l| - j
  {
    if j >= |l| then []
    else
      var x := l[j];
      var l' := if i >= m then SD.RemoveFirst(l, x) + [x] else l;
      [x] + LiveListVisits(l', j + 1, i + 1, m)
  }

  /** The records the source's traversal reads from the index, highest key
      first, with `i` the record counter on entry; moves stay within the
      list of the key being read, so each list is walked on its own. */
  function LiveVisitsOf(keys: seq<real>, lists: map<real, seq<string>>, i: int, m: int): (r: seq<(real, string)>)
    requires forall k :: k in keys ==> k in lists
    ensures |r| == SD.LengthSum(keys, lists)
  {
    if keys == [] then []
    else
      var k := keys[|keys| - 1];
      var rest := keys[..|keys| - 1];
      assert forall y :: y in rest ==> y in keys;
      LengthSumSnoc(keys, lists);
      SD.Group(k, LiveListVisits(lists[k], 0, i, m)) + LiveVisitsOf(rest, lists, i + |lists[k]|, m)
  }

  lemma {:induction false} LengthSumSnoc(keys: seq<real>, lists: map<real, seq<string>>)
    requires keys != [] && forall k :: k in keys ==> k in lists
    ensures SD.LengthSum(keys, lists) == SD.LengthSum(keys[..|keys| - 1], lists) + |lists[keys[|keys| - 1]]|
  {
    if |keys| > 1 {
      assert keys[1..][..|keys[1..]| - 1] == keys[..|keys| - 1][1..];
      LengthSumSnoc(keys[1..], lists);
    }
  }

  /** `enumerate(self.probability_sorted_index.iter_records())` as written:
      as many records as the index holds, but not the index's records. */
  function LiveVisits(ix: SD.SortedIndex, m: int): (r: seq<(real, string)>)
    requires SD.Valid(ix)
    ensures |r| == |SD.Records(ix)|
  {
    SD.RecordsLength(ix);
    LiveVisitsOf(ix.keys, ix.lists, 0, m)
  }

  /** Two queries tied at probability 0 with m = 0: the live walk reads `a`
      twice and never reads `b`, so `b`, although listed beyond m, is
      neither subsumed nor deleted.  Walking the snapshot of the records
      reads `b`, and Truncated deletes its pairs (TruncatedPair). */
  lemma LiveWalkSkipsTie()
    ensures var ix := SD.SortedIndex([0.0], map[0.0 := ["a", "b"]]);
      SD.Valid(ix) &&
      SD.Records(ix) == [(0.0, "a"), (0.0, "b")] && Beyond(SD.Records(ix), 0, "b") &&
      LiveVisits(ix, 0) == [(0.0, "a"), (0.0, "a")]
  {
    var ix := SD.SortedIndex([0.0], map[0.0 := ["a", "b"]]);
    var visits := LiveListVisits(["a", "b"], 0, 0, 0);
    LiveTwoMoves("a", "b", 0, 0);
    assert LiveVisitsOf([], ix.lists, 2, 0) == [];
    assert LiveVisits(ix, 0) == SD.Group(0.0, visits);
    assert SD.Group(0.0, visits) == [(0.0, "a")] + SD.Group(0.0, ["a"]);
    assert SD.Records(ix) == SD.Group(0.0, ["a", "b"]) by {
      assert SD.RecordsOf([0.0][1..], ix.lists) == [];
    }
    assert SD.Group(0.0, ["a", "b"]) == [(0.0, "a")] + SD.Group(0.0, ["b"]);
    assert SD.Records(ix)[1] == (0.0, "b");
  }

  /** A list of two distinct queries walked from a position beyond m. */
  lemma LiveTwoMoves(a: string, b: string, i: int, m: int)
    requires a != b && i >= m
    ensures LiveListVisits([a, b], 0, i, m) == [a, a]
  {
    RemoveFirstAt([], a, [b]);
    assert [a, b] == [] + [a] + [b];
    RemoveFirstAt([b], a, []);
    assert [b, a] == [b] + [a] + [];
    assert LiveListVisits([b, a], 2, i + 2, m) == [];
    assert LiveListVisits([b, a], 1, i + 1, m) == [a] + LiveListVisits([b, a], 2, i + 2, m);
    assert LiveListVisits([a, b], 0, i, m) == [a] + LiveListVisits([b, a], 1, i + 1, m);
  }

  /** `list.remove(v)` when the first occurrence of `v` follows `p`. */
  lemma {:induction false} RemoveFirstAt(p: seq<string>, v: string, q: seq<string>)
    requires v !in p
    ensures SD.RemoveFirst(p + [v] + q, v) == p + q
  {
    var s := p + [v] + q;
    if p == [] {
      assert s[0] == v && s[1..] == q;
    } else {
      assert s[0] == p[0] && p[0] != v;
      assert s[1..] == p[1..] + [v] + q;
      RemoveFirstAt(p[1..], v, q);
      assert SD.RemoveFirst(s, v) == [p[0]] + SD.RemoveFirst(s[1..], v);
      assert p + q == [p[0]] + (p[1..] + q);
    }
  }

  /** Three tied queries with m = 1: the first is kept, the second is read
      twice and the third is never read, so it survives truncation. */
  lemma LiveWalkSkipsAfterMove(a: string, b: string, c: string)
    requires a != b && b != c && a != c
    ensures LiveListVisits([a, b, c], 0, 0, 1) == [a, b, b]
  {
    var l := [a, b, c];
    var l' := [a, c, b];
    RemoveFirstAt([a], b, [c]);
    assert l == [a] + [b] + [c];
    RemoveFirstAt([a, c], b, []);
    assert l' == [a, c] + [b] + [];
    assert LiveListVisits(l', 3, 3, 1) == [];
    assert LiveListVisits(l', 2, 2, 1) == [b] + LiveListVisits(l', 3, 3, 1);
    assert LiveListVisits(l, 1, 1, 1) == [b] + LiveListVisits(l', 2, 2, 1);
    assert LiveListVisits(l, 0, 0, 1) == [a] + LiveListVisits(l, 1, 1, 1);
  }
}
