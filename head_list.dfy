/** HeadList (head_list.py): the table of <query, url> pairs an opt-in
    database makes public, built and then estimated in the steps of
    Figures 3 and 4 of the Blender paper.  The table is a QueryUrlMapping;
    the head list adds the probability-sorted index of its queries, its
    own τ and the configuration. */
module HeadLists {
  import opened Wrappers
  import OD = OrderedDict
  import SD = SortedDictOfLists
  import opened InMemoryStructures
  import opened Budget
  import opened HeadListQueries
  import opened Truncations

  // ---------------------------------------------------------------------
  // create_headlist

  /** The records whose repetitions in `s`, plus their Laplace draw, pass
      the threshold, in traversal order. */
  function Discovered(records: seq<(string, string)>, s: Table, noise: (string, string) -> real, threshold: real)
    : seq<(string, string)>
  {
    if records == [] then []
    else
      var last := records[|records| - 1];
      Discovered(records[..|records| - 1], s, noise, threshold) +
        (if LeafAt(s, last.0, last.1).count as real + noise(last.0, last.1) > threshold then [last] else [])
  }

  /** `add` for each listed pair, in order. */
  function AddEach(d: Table, pairs: seq<(string, string)>): (r: Table)
    requires TableValid(d)
    ensures TableValid(r)
  {
    if pairs == [] then d
    else
      var last := pairs[|pairs| - 1];
      AddPair(AddEach(d, pairs[..|pairs| - 1]), last.0, last.1)
  }

  /** HeadList.create_headlist on the dictionary: the configured threshold
      must be at least 1 (an `assert`), every record of the opt-in table
      `s` that passes it is added, and <*, *> is added last. */
  function CreatedHeadList(d: Table, s: Table, noise: (string, string) -> real, c: Config): (r: Result<Table>)
    requires TableValid(d)
    ensures r.Ok? ==> TableValid(r.value)
    ensures Threshold(c).Err? ==> r == Err(ZeroDivision)
    ensures Threshold(c).Ok? && Threshold(c).value < 1.0 ==> r == Err(AssertionFailed)
    ensures r.Ok? <==> Threshold(c).Ok? && Threshold(c).value >= 1.0
  {
    var threshold :- Threshold(c);
    if threshold < 1.0 then Err(AssertionFailed)
    else Ok(AddPair(AddEach(d, Discovered(Pairs(s), s, noise, threshold)), "*", "*"))
  }

  lemma {:induction false} DiscoveredMembership(records: seq<(string, string)>, s: Table, noise: (string, string) -> real,
                                               threshold: real, p: (string, string))
    ensures p in Discovered(records, s, noise, threshold) <==>
      p in records && LeafAt(s, p.0, p.1).count as real + noise(p.0, p.1) > threshold
  {
    if records != [] {
      DiscoveredMembership(records[..|records| - 1], s, noise, threshold, p);
      assert records == records[..|records| - 1] + [records[|records| - 1]];
    }
  }

  lemma {:induction false} DiscoveredNoDuplicates(records: seq<(string, string)>, s: Table, noise: (string, string) -> real, threshold: real)
    requires NoDuplicates(records)
    ensures NoDuplicates(Discovered(records, s, noise, threshold))
  {
    if records != [] {
      var init, last := records[..|records| - 1], records[|records| - 1];
      assert NoDuplicates(init);
      DiscoveredNoDuplicates(init, s, noise, threshold);
      assert last !in init by {
        forall i | 0 <= i < |init| ensures init[i] != last {
          assert init[i] == records[i];
        }
      }
      DiscoveredMembership(init, s, noise, threshold, last);
      var tail := if LeafAt(s, last.0, last.1).count as real + noise(last.0, last.1) > threshold then [last] else [];
      ConcatNoDuplicates(Discovered(init, s, noise, threshold), tail);
    }
  }

  /** One `add` makes its pair present with one more repetition and
      changes no other leaf. */
  lemma AddPairAt(d: Table, q: string, u: string, x: string, v: string)
    requires TableValid(d)
    ensures HasPair(AddPair(d, q, u), x, v) <==> HasPair(d, x, v) || (x == q && v == u)
    ensures LeafAt(AddPair(d, q, u), x, v).count == LeafAt(d, x, v).count + (if x == q && v == u then 1 else 0)
    ensures x in AddPair(d, q, u).items <==> x in d.items || x == q
  {
  }

  /** Adding pairs makes each of them present and raises its leaf's count
      by the number of times it is listed. */
  lemma {:induction false} AddEachAt(d: Table, pairs: seq<(string, string)>, x: string, v: string)
    requires TableValid(d)
    ensures HasPair(AddEach(d, pairs), x, v) <==> HasPair(d, x, v) || (x, v) in pairs
    ensures LeafAt(AddEach(d, pairs), x, v).count == LeafAt(d, x, v).count + multiset(pairs)[(x, v)]
  {
    if pairs != [] {
      var init, last := pairs[..|pairs| - 1], pairs[|pairs| - 1];
      assert pairs == init + [last];
      AddEachAt(d, init, x, v);
      AddPairAt(AddEach(d, init), last.0, last.1, x, v);
      assert multiset(pairs) == multiset(init) + multiset{last};
    }
  }

  /** A query has a bucket after the additions exactly when it had one or
      is listed. */
  lemma {:induction false} AddEachQueries(d: Table, pairs: seq<(string, string)>, x: string)
    requires TableValid(d)
    ensures x in AddEach(d, pairs).items <==> x in d.items || x in QueriesOf(pairs)
  {
    if pairs != [] {
      var init, last := pairs[..|pairs| - 1], pairs[|pairs| - 1];
      assert pairs == init + [last];
      AddEachQueries(d, init, x);
      AddPairAt(AddEach(d, init), last.0, last.1, x, "");
      assert x in QueriesOf(pairs) <==> x in QueriesOf(init) || x == last.0;
    }
  }

  /** The table gains one repetition per listed pair. */
  lemma {:induction false} AddEachTotal(d: Table, pairs: seq<(string, string)>)
    requires TableValid(d)
    ensures TableCountTotal(AddEach(d, pairs)) == TableCountTotal(d) + |pairs| as real
  {
    if pairs != [] {
      AddEachTotal(d, pairs[..|pairs| - 1]);
    }
  }

  /** The queries the listed pairs name. */
  function QueriesOf(pairs: seq<(string, string)>): set<string> {
    set p | p in pairs :: p.0
  }

  /** Starting from an empty head list, create_headlist (when its
      assertion holds) holds exactly the opt-in pairs that pass the noisy
      threshold, once each, plus <*, *>; every bucket it creates has a url,
      and its repetitions are one per discovered pair plus one. */
  lemma CreatedHeadListAt(s: Table, noise: (string, string) -> real, c: Config, x: string, v: string)
    requires TableValid(s) && Threshold(c).Ok? && Threshold(c).value >= 1.0
    ensures var r := CreatedHeadList(OD.Empty(), s, noise, c).value;
      var passes := HasPair(s, x, v) && LeafAt(s, x, v).count as real + noise(x, v) > Threshold(c).value;
      (HasPair(r, x, v) <==> passes || (x == "*" && v == "*")) &&
      LeafAt(r, x, v).count == (if passes then 1 else 0) + (if x == "*" && v == "*" then 1 else 0)
    ensures var r := CreatedHeadList(OD.Empty(), s, noise, c).value;
      x in r.items ==> Size(r.items[x]) > 0
    ensures TableCountTotal(CreatedHeadList(OD.Empty(), s, noise, c).value) ==
      |Discovered(Pairs(s), s, noise, Threshold(c).value)| as real + 1.0
  {
    var threshold := Threshold(c).value;
    var empty: Table := OD.Empty();
    var found := Discovered(Pairs(s), s, noise, threshold);
    var added := AddEach(empty, found);
    PairsExactlyOnce(s, x, v);
    DiscoveredMembership(Pairs(s), s, noise, threshold, (x, v));
    DiscoveredNoDuplicates(Pairs(s), s, noise, threshold);
    AddEachAt(empty, found, x, v);
    AddEachQueries(empty, found, x);
    AddEachTotal(empty, found);
    AddPairAt(added, "*", "*", x, v);
    NoDuplicatesCount(found, (x, v));
    assert TableCountTotal(empty) == 0.0;
    if x in QueriesOf(found) {
      var p :| p in found && p.0 == x;
      AddEachAt(empty, found, x, p.1);
      TouchlessBucketNonEmpty(AddPair(added, "*", "*"), x, p.1);
    } else if x == "*" {
      TouchlessBucketNonEmpty(AddPair(added, "*", "*"), "*", "*");
    }
  }

  /** No probability has been estimated yet: every bucket and every leaf
      holds probability 0, as `add` leaves them. */
  ghost predicate Unestimated(d: Table) {
    forall q :: q in d.items ==>
      d.items[q].probability == 0.0 && forall u :: u in d.items[q].urls.items ==> d.items[q].urls.items[u].probability == 0.0
  }

  /** `add` changes counts only, so a table without probabilities keeps none. */
  lemma {:induction false} AddEachUnestimated(d: Table, pairs: seq<(string, string)>)
    requires TableValid(d) && Unestimated(d)
    ensures Unestimated(AddEach(d, pairs))
  {
    if pairs != [] {
      AddEachUnestimated(d, pairs[..|pairs| - 1]);
      AddPairUnestimated(AddEach(d, pairs[..|pairs| - 1]), pairs[|pairs| - 1].0, pairs[|pairs| - 1].1);
    }
  }

  /** create_headlist leaves every probability of the new head list at 0. */
  lemma CreatedUnestimated(s: Table, noise: (string, string) -> real, c: Config)
    requires TableValid(s) && CreatedHeadList(OD.Empty(), s, noise, c).Ok?
    ensures Unestimated(CreatedHeadList(OD.Empty(), s, noise, c).value)
  {
    var empty: Table := OD.Empty();
    var added := AddEach(empty, Discovered(Pairs(s), s, noise, Threshold(c).value));
    AddEachUnestimated(empty, Discovered(Pairs(s), s, noise, Threshold(c).value));
    assert CreatedHeadList(OD.Empty(), s, noise, c).value == AddPair(added, "*", "*");
    AddPairUnestimated(added, "*", "*");
  }

  lemma AddPairUnestimated(d: Table, q: string, u: string)
    requires TableValid(d) && Unestimated(d)
    ensures Unestimated(AddPair(d, q, u))
  {
  }

  lemma TouchlessBucketNonEmpty(d: Table, x: string, v: string)
    requires TableValid(d) && HasPair(d, x, v)
    ensures Size(d.items[x]) > 0
  {
    assert v in d.items[x].urls.keys;
  }

  lemma NoDuplicatesCount<T>(s: seq<T>, x: T)
    requires NoDuplicates(s)
    ensures multiset(s)[x] == if x in s then 1 else 0
  {
    if s != [] {
      assert NoDuplicates(s[1..]);
      NoDuplicatesCount(s[1..], x);
      assert s == [s[0]] + s[1..];
      assert s[0] !in s[1..] by {
        forall i | 0 <= i < |s[1..]| ensures s[1..][i] != s[0] {
          assert s[1..][i] == s[i + 1];
        }
      }
    }
  }

  lemma DiscoveredStep(records: seq<(string, string)>, i: int, s: Table, noise: (string, string) -> real, threshold: real)
    requires 0 <= i < |records|
    ensures Discovered(records[..i + 1], s, noise, threshold) == Discovered(records[..i], s, noise, threshold) +
      (if LeafAt(s, records[i].0, records[i].1).count as real + noise(records[i].0, records[i].1) > threshold then [records[i]] else [])
  {
    assert records[..i + 1][..i] == records[..i];
  }

  lemma AddEachStep(d: Table, pairs: seq<(string, string)>, p: (string, string))
    requires TableValid(d)
    ensures AddEach(d, pairs + [p]) == AddPair(AddEach(d, pairs), p.0, p.1)
  {
    assert (pairs + [p])[..|pairs|] == pairs;
  }

  // ---------------------------------------------------------------------
  // calculate_probabilities_relative_to

  /** The loop over the queries `qs`: each bucket computes its
      probabilities, and each query other than `*` is then appended to the
      index under its bucket's new probability. */
  function ProbabilitiesOver(d: Table, ix: SD.SortedIndex, qs: seq<string>, other: Table, n: int,
                             noise: (string, string) -> real): (r: Result<(Table, SD.SortedIndex)>)
    requires TableValid(d) && SD.Valid(ix)
    ensures r.Ok? ==> TableValid(r.value.0) && SD.Valid(r.value.1)
  {
    if qs == [] then Ok((d, ix))
    else
      var prev :- ProbabilitiesOver(d, ix, qs[..|qs| - 1], other, n, noise);
      var q := qs[|qs| - 1];
      var b :- BucketProbabilities(MappingAt(prev.0, q), q, other, n, noise);
      Ok((OD.Put(prev.0, q, b), if q != "*" then SD.Append(prev.1, b.probability, q) else prev.1))
  }

  /** HeadList.calculate_probabilities_relative_to on the dictionary and
      the index, against the opt-in table `other` whose count is `n`. */
  function Probabilities(d: Table, ix: SD.SortedIndex, other: Table, n: int,
                         noise: (string, string) -> real): (r: Result<(Table, SD.SortedIndex)>)
    requires TableValid(d) && SD.Valid(ix)
    ensures r.Ok? ==> TableValid(r.value.0) && SD.Valid(r.value.1)
  {
    ProbabilitiesOver(d, ix, d.keys, other, n, noise)
  }

  /** Some listed query has a url. */
  predicate AnyUrls(d: Table, qs: seq<string>) {
    exists q :: q in qs && Size(MappingAt(d, q)) > 0
  }

  /** The loop fails exactly when the opt-in table is empty and some
      visited bucket has a url; otherwise it keeps the queries and their
      order, and each visited bucket is what its own
      calculate_probability_relative_to makes of it. */
  lemma {:induction false} ProbabilitiesOverAt(d: Table, ix: SD.SortedIndex, qs: seq<string>, other: Table, n: int,
                                              noise: (string, string) -> real, x: string)
    requires TableValid(d) && SD.Valid(ix) && OD.Distinct(qs) && forall q :: q in qs ==> q in d.items
    ensures ProbabilitiesOver(d, ix, qs, other, n, noise).Err? <==> n == 0 && AnyUrls(d, qs)
    ensures ProbabilitiesOver(d, ix, qs, other, n, noise).Ok? ==>
      var t := ProbabilitiesOver(d, ix, qs, other, n, noise).value.0;
      t.keys == d.keys && (x in t.items <==> x in d.items) &&
      (x in qs ==> Ok(MappingAt(t, x)) == BucketProbabilities(MappingAt(d, x), x, other, n, noise)) &&
      (x !in qs ==> MappingAt(t, x) == MappingAt(d, x))
  {
    if qs != [] {
      var init, last := qs[..|qs| - 1], qs[|qs| - 1];
      assert qs == init + [last];
      assert forall q :: q in init ==> q in qs;
      OD.DistinctSnoc(init, last);
      ProbabilitiesOverAt(d, ix, init, other, n, noise, x);
      ProbabilitiesOverAt(d, ix, init, other, n, noise, last);
      ProbabilitiesOverSnoc(d, ix, init, last, other, n, noise, x);
    }
  }

  /** The inductive step of ProbabilitiesOverAt, for qs = init + [last]. */
  lemma ProbabilitiesOverSnoc(d: Table, ix: SD.SortedIndex, init: seq<string>, last: string, other: Table, n: int,
                              noise: (string, string) -> real, x: string)
    requires TableValid(d) && SD.Valid(ix) && last in d.items && last !in init
    requires ProbabilitiesOver(d, ix, init, other, n, noise).Err? <==> n == 0 && AnyUrls(d, init)
    requires ProbabilitiesOver(d, ix, init, other, n, noise).Ok? ==>
      var t := ProbabilitiesOver(d, ix, init, other, n, noise).value.0;
      t.keys == d.keys && (x in t.items <==> x in d.items) &&
      (x in init ==> Ok(MappingAt(t, x)) == BucketProbabilities(MappingAt(d, x), x, other, n, noise)) &&
      (x !in init ==> MappingAt(t, x) == MappingAt(d, x))
    requires ProbabilitiesOver(d, ix, init, other, n, noise).Ok? ==>
      MappingAt(ProbabilitiesOver(d, ix, init, other, n, noise).value.0, last) == MappingAt(d, last)
    ensures ProbabilitiesOver(d, ix, init + [last], other, n, noise).Err? <==> n == 0 && AnyUrls(d, init + [last])
    ensures ProbabilitiesOver(d, ix, init + [last], other, n, noise).Ok? ==>
      var t := ProbabilitiesOver(d, ix, init + [last], other, n, noise).value.0;
      t.keys == d.keys && (x in t.items <==> x in d.items) &&
      (x in init + [last] ==> Ok(MappingAt(t, x)) == BucketProbabilities(MappingAt(d, x), x, other, n, noise)) &&
      (x !in init + [last] ==> MappingAt(t, x) == MappingAt(d, x))
  {
    var qs := init + [last];
    assert qs[..|qs| - 1] == init && qs[|qs| - 1] == last;
    var b := MappingAt(d, last);
    ProbabilitiesOfUrlsAt(b, last, b.urls.keys, other, n, noise, "");
    assert AnyUrls(d, qs) <==> AnyUrls(d, init) || Size(b) > 0;
  }

  /** The index entries the loop appends: the queries other than `*`, in
      order, under their buckets' probabilities in `t`. */
  function IndexEntries(t: Table, qs: seq<string>): seq<(real, string)> {
    if qs == [] then []
    else
      var last := qs[|qs| - 1];
      IndexEntries(t, qs[..|qs| - 1]) + (if last != "*" then [(MappingAt(t, last).probability, last)] else [])
  }

  lemma {:induction false} IndexEntriesFrame(a: Table, b: Table, qs: seq<string>)
    requires forall q :: q in qs ==> MappingAt(a, q).probability == MappingAt(b, q).probability
    ensures IndexEntries(a, qs) == IndexEntries(b, qs)
  {
    if qs != [] {
      assert forall q :: q in qs[..|qs| - 1] ==> q in qs;
      IndexEntriesFrame(a, b, qs[..|qs| - 1]);
    }
  }

  /** Each query other than `*` is indexed once, under its bucket's probability. */
  lemma {:induction false} IndexEntriesMembership(t: Table, qs: seq<string>, p: real, x: string)
    requires OD.Distinct(qs)
    ensures (p, x) in IndexEntries(t, qs) <==> x in qs && x != "*" && p == MappingAt(t, x).probability
    ensures multiset(IndexEntries(t, qs))[(p, x)] == if (p, x) in IndexEntries(t, qs) then 1 else 0
  {
    if qs != [] {
      var init, last := qs[..|qs| - 1], qs[|qs| - 1];
      assert qs == init + [last];
      OD.DistinctSnoc(init, last);
      IndexEntriesMembership(t, init, p, x);
      IndexEntriesMembership(t, init, MappingAt(t, last).probability, last);
    }
  }

  /** The index gains exactly the entries of the visited queries other
      than `*`, each under its bucket's final probability. */
  lemma {:induction false} ProbabilitiesOverIndex(d: Table, ix: SD.SortedIndex, qs: seq<string>, other: Table, n: int,
                                                 noise: (string, string) -> real)
    requires TableValid(d) && SD.Valid(ix) && OD.Distinct(qs) && forall q :: q in qs ==> q in d.items
    ensures ProbabilitiesOver(d, ix, qs, other, n, noise).Ok? ==>
      var r := ProbabilitiesOver(d, ix, qs, other, n, noise).value;
      multiset(SD.Records(r.1)) == multiset(SD.Records(ix)) + multiset(IndexEntries(r.0, qs))
  {
    if qs != [] {
      var i := |qs| - 1;
      var init, last := qs[..i], qs[i];
      assert qs == init + [last];
      assert forall q :: q in init ==> q in qs;
      OD.DistinctSnoc(init, last);
      ProbabilitiesOverIndex(d, ix, init, other, n, noise);
      ProbabilitiesOverStep(d, ix, qs, i, other, n, noise);
      assert qs[..i + 1] == qs;
      var prev := ProbabilitiesOver(d, ix, init, other, n, noise);
      if prev.Ok? {
        var b := BucketProbabilities(MappingAt(prev.value.0, last), last, other, n, noise);
        if b.Ok? {
          IndexStep(prev.value.0, prev.value.1, ix, init, last, b.value);
        }
      }
    }
  }

  lemma IndexStep(t0: Table, ix0: SD.SortedIndex, ix: SD.SortedIndex, init: seq<string>, last: string, b: UrlStatsMapping)
    requires TableValid(t0) && SD.Valid(ix0) && SD.Valid(ix) && last !in init
    requires multiset(SD.Records(ix0)) == multiset(SD.Records(ix)) + multiset(IndexEntries(t0, init))
    ensures var ix' := if last != "*" then SD.Append(ix0, b.probability, last) else ix0;
      multiset(SD.Records(ix')) == multiset(SD.Records(ix)) + multiset(IndexEntries(OD.Put(t0, last, b), init + [last]))
  {
    IndexEntriesSnoc(t0, init, last, b);
    var now := IndexEntries(OD.Put(t0, last, b), init + [last]);
    if last != "*" {
      SD.AppendRecords(ix0, b.probability, last);
      MultisetSum(multiset(SD.Records(SD.Append(ix0, b.probability, last))), multiset(SD.Records(ix0)), multiset(SD.Records(ix)),
                  IndexEntries(t0, init), [(b.probability, last)], now);
    } else {
      MultisetSum(multiset(SD.Records(ix0)), multiset(SD.Records(ix0)), multiset(SD.Records(ix)),
                  IndexEntries(t0, init), [], now);
    }
  }

  lemma IndexEntriesSnoc(t0: Table, init: seq<string>, last: string, b: UrlStatsMapping)
    requires TableValid(t0) && last !in init
    ensures IndexEntries(OD.Put(t0, last, b), init + [last]) ==
      IndexEntries(t0, init) + if last != "*" then [(b.probability, last)] else []
  {
    IndexEntriesFrame(OD.Put(t0, last, b), t0, init);
    assert (init + [last])[..|init|] == init;
  }

  lemma MultisetSum<T>(after: multiset<T>, before: multiset<T>, base: multiset<T>, prior: seq<T>, entry: seq<T>, now: seq<T>)
    requires before == base + multiset(prior)
    requires after == before + multiset(entry)
    requires now == prior + entry
    ensures after == base + multiset(now)
  {
  }

  /** With an empty index, calculate_probabilities_relative_to leaves every
      query other than `*` in the index exactly once, under its bucket's
      new probability, and nothing else. */
  lemma ProbabilitiesIndexFresh(d: Table, other: Table, n: int, noise: (string, string) -> real, p: real, x: string)
    requires TableValid(d)
    ensures Probabilities(d, SD.Empty(), other, n, noise).Ok? ==>
      var r := Probabilities(d, SD.Empty(), other, n, noise).value;
      ((p, x) in SD.Records(r.1) <==> x in d.items && x != "*" && p == MappingAt(r.0, x).probability) &&
      multiset(SD.Records(r.1))[(p, x)] == if (p, x) in SD.Records(r.1) then 1 else 0
  {
    assert forall q :: q in d.keys ==> q in d.items;
    ProbabilitiesOverIndex(d, SD.Empty(), d.keys, other, n, noise);
    var r := Probabilities(d, SD.Empty(), other, n, noise);
    if r.Ok? {
      assert SD.Records(SD.Empty()) == [];
      var records, entries := SD.Records(r.value.1), IndexEntries(r.value.0, d.keys);
      assert multiset(records) == multiset(entries);
      IndexEntriesMembership(r.value.0, d.keys, p, x);
      assert (p, x) in records <==> (p, x) in multiset(records);
      assert (p, x) in entries <==> (p, x) in multiset(entries);
    }
  }

  lemma {:induction false} LeafSumOfZero(keys: seq<string>, items: map<string, UrlStats>)
    requires forall u :: u in items ==> items[u].probability == 0.0
    ensures OD.SumOf(keys, items, LeafProbability) == 0.0
  {
    if keys != [] {
      LeafSumOfZero(keys[1..], items);
    }
  }

  /** calculate_probabilities_relative_to on a head list without
      probabilities and with an empty index: every bucket, <*> included,
      ends holding the probability of its leaves, and the index lists
      each query other than `*` under its bucket's probability. */
  lemma ProbabilitiesBalanced(d: Table, other: Table, n: int, noise: (string, string) -> real)
    requires TableValid(d) && Unestimated(d)
    ensures Probabilities(d, SD.Empty(), other, n, noise).Ok? ==>
      var r := Probabilities(d, SD.Empty(), other, n, noise).value;
      Balanced(r.0) && IndexConsistent(r.0, r.1) &&
      MappingAt(r.0, "*").probability == LeafProbabilityTotal(MappingAt(r.0, "*"))
  {
    assert forall q :: q in d.keys ==> q in d.items;
    if Probabilities(d, SD.Empty(), other, n, noise).Ok? {
      var r := Probabilities(d, SD.Empty(), other, n, noise).value;
      forall q | q in r.0.items || q == "*"
        ensures MappingAt(r.0, q).probability == LeafProbabilityTotal(MappingAt(r.0, q))
      {
        ProbabilitiesOverAt(d, SD.Empty(), d.keys, other, n, noise, q);
        if q in d.items {
          var b := d.items[q];
          LeafSumOfZero(b.urls.keys, b.urls.items);
          BucketProbabilitiesTotal(b, q, other, n, noise);
        } else {
          assert LeafProbabilityTotal(FreshMapping) == 0.0;
        }
      }
      forall k, q | k in r.1.lists && q in r.1.lists[k]
        ensures q != "*" && q in r.0.items && MappingAt(r.0, q).probability == k
      {
        SD.RecordsMembership(r.1, k, q);
        ProbabilitiesIndexFresh(d, other, n, noise, k, q);
        ProbabilitiesOverAt(d, SD.Empty(), d.keys, other, n, noise, q);
      }
      assert IndexConsistent(r.0, r.1);
      assert Balanced(r.0) by {
        forall q | q in r.0.items && q != "*"
          ensures r.0.items[q].probability == LeafProbabilityTotal(r.0.items[q])
        {
          assert MappingAt(r.0, q) == r.0.items[q];
        }
      }
    }
  }

  lemma ProbabilitiesOverStep(d: Table, ix: SD.SortedIndex, qs: seq<string>, i: int, other: Table, n: int,
                              noise: (string, string) -> real)
    requires TableValid(d) && SD.Valid(ix) && 0 <= i < |qs|
    ensures ProbabilitiesOver(d, ix, qs[..i + 1], other, n, noise) ==
      (var prev := ProbabilitiesOver(d, ix, qs[..i], other, n, noise);
       if prev.Err? then prev
       else
         var b := BucketProbabilities(MappingAt(prev.value.0, qs[i]), qs[i], other, n, noise);
         if b.Err? then Err(b.error)
         else Ok((OD.Put(prev.value.0, qs[i], b.value),
                  if qs[i] != "*" then SD.Append(prev.value.1, b.value.probability, qs[i]) else prev.value.1)))
  {
    assert qs[..i + 1][..i] == qs[..i];
  }

  lemma {:induction false} ProbabilitiesOverErr(d: Table, ix: SD.SortedIndex, qs: seq<string>, i: int, other: Table, n: int,
                                               noise: (string, string) -> real)
    requires TableValid(d) && SD.Valid(ix) && 0 <= i <= |qs|
    requires ProbabilitiesOver(d, ix, qs[..i], other, n, noise).Err?
    ensures ProbabilitiesOver(d, ix, qs, other, n, noise) == ProbabilitiesOver(d, ix, qs[..i], other, n, noise)
    decreases |qs| - i
  {
    if i < |qs| {
      ProbabilitiesOverStep(d, ix, qs, i, other, n, noise);
      ProbabilitiesOverErr(d, ix, qs, i + 1, other, n, noise);
    } else {
      assert qs[..i] == qs;
    }
  }

  /** The loop of calculate_probabilities_relative_to; the first
      ZeroDivisionError ends it. */
  method CalculateProbabilities(d: Table, ix: SD.SortedIndex, other: Table, n: int, noise: (string, string) -> real)
    returns (r: Result<(Table, SD.SortedIndex)>)
    requires TableValid(d) && SD.Valid(ix)
    ensures r == Probabilities(d, ix, other, n, noise)
  {
    var t, index := d, ix;
    var keys := d.keys;
    for i := 0 to |keys|
      invariant TableValid(t) && SD.Valid(index)
      invariant ProbabilitiesOver(d, ix, keys[..i], other, n, noise) == Ok((t, index))
    {
      ProbabilitiesOverStep(d, ix, keys, i, other, n, noise);
      var q := keys[i];
      var b := CalculateBucketProbabilities(MappingAt(t, q), q, other, n, noise);
      if b.Err? {
        ProbabilitiesOverErr(d, ix, keys, i + 1, other, n, noise);
        return Err(b.error);
      }
      t := OD.Put(t, q, b.value);
      if q != "*" {
        index := SD.Append(index, b.value.probability, q);
      }
    }
    assert keys[..|keys|] == keys;
    r := Ok((t, index));
  }

  // ---------------------------------------------------------------------
  // calculate_variance_relative_to

  /** `d[q][u].variance = variance`, with the defaultdict reads' insertions. */
  function WithVariance(d: Table, q: string, u: string, variance: real): (r: Table)
    requires TableValid(d)
    ensures TableValid(r)
  {
    var b := MappingAt(d, q);
    OD.Put(d, q, b.(urls := OD.Put(b.urls, u, UrlAt(b, u).(variance := variance))))
  }

  /** The loop over the listed records: each leaf's variance is computed
      from its probability, the opt-in count `n` and the scale `bt`. */
  function VariancesOver(d: Table, pairs: seq<(string, string)>, n: int, bt: real): (r: Result<Table>)
    requires TableValid(d)
    ensures r.Ok? ==> TableValid(r.value)
  {
    if pairs == [] then Ok(d)
    else
      var prev :- VariancesOver(d, pairs[..|pairs| - 1], n, bt);
      var last := pairs[|pairs| - 1];
      var variance :- VarianceRelativeTo(LeafAt(prev, last.0, last.1).probability, n, bt);
      Ok(WithVariance(prev, last.0, last.1, variance))
  }

  /** HeadList.calculate_variance_relative_to on the dictionary: b_t is
      computed first (ε = 0 raises even for an empty head list), then every
      record's leaf gets its variance. */
  function Variances(d: Table, n: int, c: Config): (r: Result<Table>)
    requires TableValid(d)
    ensures r.Ok? ==> TableValid(r.value)
  {
    var bt :- NoiseScale(c);
    VariancesOver(d, Pairs(d), n, bt)
  }

  /** Setting one leaf's variance changes nothing else. */
  lemma WithVarianceAt(d: Table, q: string, u: string, variance: real, x: string, v: string)
    requires TableValid(d) && HasPair(d, q, u)
    ensures var r := WithVariance(d, q, u, variance);
      r.keys == d.keys && (x in r.items <==> x in d.items) &&
      MappingAt(r, x).urls.keys == MappingAt(d, x).urls.keys &&
      MappingAt(r, x) == MappingAt(d, x).(urls := MappingAt(r, x).urls) &&
      (HasPair(r, x, v) <==> HasPair(d, x, v)) &&
      LeafAt(r, x, v) == if x == q && v == u then LeafAt(d, x, v).(variance := variance) else LeafAt(d, x, v)
  {
  }

  /** `r` is `d` with the variance of the leaf of (x, v) recomputed (when
      `visited`) and everything else as it was. */
  ghost predicate VarianceSet(d: Table, r: Table, x: string, v: string, visited: bool, n: int, bt: real) {
    r.keys == d.keys && (x in r.items <==> x in d.items) &&
    MappingAt(r, x).urls.keys == MappingAt(d, x).urls.keys &&
    MappingAt(r, x) == MappingAt(d, x).(urls := MappingAt(r, x).urls) &&
    (HasPair(r, x, v) <==> HasPair(d, x, v)) &&
    LeafAt(r, x, v) == LeafAt(d, x, v).(variance := LeafAt(r, x, v).variance) &&
    (visited ==> Ok(LeafAt(r, x, v).variance) == VarianceRelativeTo(LeafAt(d, x, v).probability, n, bt)) &&
    (!visited ==> LeafAt(r, x, v).variance == LeafAt(d, x, v).variance)
  }

  /** Going through existing records fails exactly when the opt-in count
      is 0 or 1 and there is a record. */
  lemma {:induction false} VariancesOverFails(d: Table, pairs: seq<(string, string)>, n: int, bt: real)
    requires TableValid(d)
    ensures VariancesOver(d, pairs, n, bt).Err? <==> (n == 0 || n == 1) && pairs != []
  {
    if pairs != [] {
      VariancesOverFails(d, pairs[..|pairs| - 1], n, bt);
    }
  }

  /** Otherwise only the visited leaves' variances change, each to the
      value computed from its probability. */
  lemma {:induction false} VariancesOverAt(d: Table, pairs: seq<(string, string)>, n: int, bt: real, x: string, v: string)
    requires TableValid(d) && forall p :: p in pairs ==> HasPair(d, p.0, p.1)
    ensures VariancesOver(d, pairs, n, bt).Ok? ==> VarianceSet(d, VariancesOver(d, pairs, n, bt).value, x, v, (x, v) in pairs, n, bt)
  {
    if pairs != [] && VariancesOver(d, pairs, n, bt).Ok? {
      var init, last := pairs[..|pairs| - 1], pairs[|pairs| - 1];
      assert pairs == init + [last];
      assert forall p :: p in init ==> p in pairs;
      VariancesOverAt(d, init, n, bt, x, v);
      VariancesOverAt(d, init, n, bt, last.0, last.1);
      VariancesOverSnoc(d, init, last, n, bt, x, v);
    }
  }

  /** The inductive step of VariancesOverAt, for pairs = init + [last]. */
  lemma VariancesOverSnoc(d: Table, init: seq<(string, string)>, last: (string, string), n: int, bt: real, x: string, v: string)
    requires TableValid(d) && HasPair(d, last.0, last.1)
    requires VariancesOver(d, init + [last], n, bt).Ok?
    requires VariancesOver(d, init, n, bt).Ok? ==> VarianceSet(d, VariancesOver(d, init, n, bt).value, x, v, (x, v) in init, n, bt)
    requires VariancesOver(d, init, n, bt).Ok? ==>
      VarianceSet(d, VariancesOver(d, init, n, bt).value, last.0, last.1, last in init, n, bt)
    ensures VarianceSet(d, VariancesOver(d, init + [last], n, bt).value, x, v, (x, v) in init + [last], n, bt)
  {
    var pairs := init + [last];
    assert pairs[..|pairs| - 1] == init && pairs[|pairs| - 1] == last;
    var prev := VariancesOver(d, init, n, bt);
    assert prev.Ok? && n != 0 && n != 1;
    var variance := VarianceRelativeTo(LeafAt(prev.value, last.0, last.1).probability, n, bt).value;
    assert VariancesOver(d, pairs, n, bt) == Ok(WithVariance(prev.value, last.0, last.1, variance));
    assert (x, v) in pairs <==> (x, v) in init || (x, v) == last;
    VarianceStep(d, prev.value, last, n, bt, x, v, (x, v) in init, last in init);
  }

  /** One step of the loop keeps VarianceSet, with (x, v) visited once it
      was visited before or is the record just handled. */
  lemma VarianceStep(d: Table, prev: Table, last: (string, string), n: int, bt: real, x: string, v: string,
                     before: bool, lastBefore: bool)
    requires TableValid(d) && TableValid(prev) && HasPair(d, last.0, last.1) && n != 0 && n != 1
    requires VarianceSet(d, prev, x, v, before, n, bt)
    requires VarianceSet(d, prev, last.0, last.1, lastBefore, n, bt)
    ensures var variance := VarianceRelativeTo(LeafAt(prev, last.0, last.1).probability, n, bt).value;
      VarianceSet(d, WithVariance(prev, last.0, last.1, variance), x, v, before || (x, v) == last, n, bt)
  {
    var variance := VarianceRelativeTo(LeafAt(prev, last.0, last.1).probability, n, bt).value;
    WithVarianceAt(prev, last.0, last.1, variance, x, v);
  }

  /** calculate_variance_relative_to gives every leaf of the head list
      the variance of its probability (non-negative for a probability in
      [0, 1] and more than one opt-in record) and changes nothing else. */
  lemma VariancesAt(d: Table, n: int, c: Config, x: string, v: string)
    requires TableValid(d)
    ensures Variances(d, n, c).Err? <==> c.epsilon == 0.0 || ((n == 0 || n == 1) && Pairs(d) != [])
    ensures Variances(d, n, c).Ok? ==> VarianceSet(d, Variances(d, n, c).value, x, v, HasPair(d, x, v), n, NoiseScale(c).value)
    ensures Variances(d, n, c).Ok? && HasPair(d, x, v) && 0.0 <= LeafAt(d, x, v).probability <= 1.0 && n > 1 ==>
      LeafAt(Variances(d, n, c).value, x, v).variance >= 0.0
  {
    if c.epsilon != 0.0 {
      var bt := NoiseScale(c).value;
      assert forall p :: p in Pairs(d) ==> HasPair(d, p.0, p.1) by {
        forall p | p in Pairs(d) ensures HasPair(d, p.0, p.1) {
          PairsExactlyOnce(d, p.0, p.1);
        }
      }
      PairsExactlyOnce(d, x, v);
      VariancesOverFails(d, Pairs(d), n, bt);
      VariancesOverAt(d, Pairs(d), n, bt, x, v);
      assert Variances(d, n, c) == VariancesOver(d, Pairs(d), n, bt);
    }
  }

  lemma VariancesOverStep(d: Table, pairs: seq<(string, string)>, i: int, n: int, bt: real)
    requires TableValid(d) && 0 <= i < |pairs|
    ensures VariancesOver(d, pairs[..i + 1], n, bt) ==
      (var prev := VariancesOver(d, pairs[..i], n, bt);
       if prev.Err? then prev
       else
         var variance := VarianceRelativeTo(LeafAt(prev.value, pairs[i].0, pairs[i].1).probability, n, bt);
         if variance.Err? then Err(variance.error)
         else Ok(WithVariance(prev.value, pairs[i].0, pairs[i].1, variance.value)))
  {
    assert pairs[..i + 1][..i] == pairs[..i];
  }

  lemma {:induction false} VariancesOverErr(d: Table, pairs: seq<(string, string)>, i: int, n: int, bt: real)
    requires TableValid(d) && 0 <= i <= |pairs|
    requires VariancesOver(d, pairs[..i], n, bt).Err?
    ensures VariancesOver(d, pairs, n, bt) == VariancesOver(d, pairs[..i], n, bt)
    decreases |pairs| - i
  {
    if i < |pairs| {
      VariancesOverStep(d, pairs, i, n, bt);
      VariancesOverErr(d, pairs, i + 1, n, bt);
    } else {
      assert pairs[..i] == pairs;
    }
  }

  /** The loop of calculate_variance_relative_to. */
  method CalculateVariances(d: Table, n: int, c: Config) returns (r: Result<Table>)
    requires TableValid(d)
    ensures r == Variances(d, n, c)
  {
    var scale := NoiseScale(c);
    if scale.Err? {
      return Err(scale.error);
    }
    var bt := scale.value;
    var t := d;
    var records := Pairs(d);
    for i := 0 to |records|
      invariant TableValid(t)
      invariant VariancesOver(d, records[..i], n, bt) == Ok(t)
    {
      VariancesOverStep(d, records, i, n, bt);
      var (q, u) := records[i];
      var variance := VarianceRelativeTo(LeafAt(t, q, u).probability, n, bt);
      if variance.Err? {
        VariancesOverErr(d, records, i + 1, n, bt);
        return Err(variance.error);
      }
      t := WithVariance(t, q, u, variance.value);
    }
    assert records[..|records|] == records;
    r := Ok(t);
  }

  // ---------------------------------------------------------------------
  // calculate_tau

  /** The list's own τ, for the query part of the client budget and the
      head list's count of pairs. */
  function ListTau(count: int, c: Config): (r: Result<real>)
    ensures r.Err? <==> c.mC == 0.0 || c.expEpsilonPrimeQ + count as real - 1.0 == 0.0
    ensures r.Ok? ==> r == Tau(c.expEpsilonPrimeQ, DeltaPrimeQ(c).value, count as real)
  {
    var deltaPrimeQ :- DeltaPrimeQ(c);
    Tau(c.expEpsilonPrimeQ, deltaPrimeQ, count as real)
  }

  /** The loop over the queries `qs`: each bucket computes its τ. */
  function TausOver(d: Table, qs: seq<string>, expEpsilonPrimeU: real, deltaPrimeU: real): (r: Result<Table>)
    requires TableValid(d)
    ensures r.Ok? ==> TableValid(r.value)
  {
    if qs == [] then Ok(d)
    else
      var prev :- TausOver(d, qs[..|qs| - 1], expEpsilonPrimeU, deltaPrimeU);
      var q := qs[|qs| - 1];
      var b :- WithTau(MappingAt(prev, q), expEpsilonPrimeU, deltaPrimeU);
      Ok(OD.Put(prev, q, b))
  }

  /** The bucket part of HeadList.calculate_tau on the dictionary. */
  function Taus(d: Table, c: Config): (r: Result<Table>)
    requires TableValid(d)
    ensures r.Ok? ==> TableValid(r.value)
  {
    var deltaPrimeU :- DeltaPrimeU(c);
    TausOver(d, d.keys, c.expEpsilonPrimeU, deltaPrimeU)
  }

  /** Some listed query's τ has a zero divisor. */
  predicate AnyZeroTauDivisor(d: Table, qs: seq<string>, e: real) {
    exists q :: q in qs && e + MappingAt(d, q).count as real - 1.0 == 0.0
  }

  /** The loop fails exactly when some visited bucket's τ divides by zero;
      otherwise it keeps the queries and each visited bucket is what its
      own calculate_tau makes of it. */
  lemma {:induction false} TausOverAt(d: Table, qs: seq<string>, e: real, deltaPrimeU: real, x: string)
    requires TableValid(d) && OD.Distinct(qs) && forall q :: q in qs ==> q in d.items
    ensures TausOver(d, qs, e, deltaPrimeU).Err? <==> AnyZeroTauDivisor(d, qs, e)
    ensures TausOver(d, qs, e, deltaPrimeU).Ok? ==>
      var t := TausOver(d, qs, e, deltaPrimeU).value;
      t.keys == d.keys && (x in t.items <==> x in d.items) &&
      (x in qs ==> Ok(MappingAt(t, x)) == WithTau(MappingAt(d, x), e, deltaPrimeU)) &&
      (x !in qs ==> MappingAt(t, x) == MappingAt(d, x))
  {
    if qs != [] {
      var init, last := qs[..|qs| - 1], qs[|qs| - 1];
      assert qs == init + [last];
      assert forall q :: q in init ==> q in qs;
      OD.DistinctSnoc(init, last);
      TausOverAt(d, init, e, deltaPrimeU, x);
      TausOverAt(d, init, e, deltaPrimeU, last);
      assert AnyZeroTauDivisor(d, qs, e) <==>
        AnyZeroTauDivisor(d, init, e) || e + MappingAt(d, last).count as real - 1.0 == 0.0;
    }
  }

  /** With exp(ε'_u) > 0, 0 <= δ'_u <= 2 and every bucket holding at least
      one repetition, calculate_tau succeeds and gives every bucket a τ in
      (0, 1], keeping everything else. */
  lemma TausAreProbabilities(d: Table, c: Config, x: string)
    requires TableValid(d) && c.mC != 0.0 && 0.0 < c.expEpsilonPrimeU && 0.0 <= DeltaPrimeU(c).value <= 2.0
    requires forall q :: q in d.items ==> d.items[q].count >= 1
    ensures Taus(d, c).Ok?
    ensures Taus(d, c).value.keys == d.keys
    ensures x in d.items ==> (0.0 < MappingAt(Taus(d, c).value, x).tau <= 1.0 &&
      MappingAt(Taus(d, c).value, x) == MappingAt(d, x).(tau := MappingAt(Taus(d, c).value, x).tau))
  {
    var dU := DeltaPrimeU(c).value;
    assert forall q :: q in d.keys ==> q in d.items;
    TausOverAt(d, d.keys, c.expEpsilonPrimeU, dU, x);
    assert !AnyZeroTauDivisor(d, d.keys, c.expEpsilonPrimeU) by {
      forall q | q in d.keys ensures c.expEpsilonPrimeU + MappingAt(d, q).count as real - 1.0 > 0.0 {
      }
    }
    if x in d.items {
      BucketTauIsProbability(MappingAt(d, x), c.expEpsilonPrimeU, dU);
    }
  }

  lemma TausOverStep(d: Table, qs: seq<string>, i: int, e: real, deltaPrimeU: real)
    requires TableValid(d) && 0 <= i < |qs|
    ensures TausOver(d, qs[..i + 1], e, deltaPrimeU) ==
      (var prev := TausOver(d, qs[..i], e, deltaPrimeU);
       if prev.Err? then prev
       else
         var b := WithTau(MappingAt(prev.value, qs[i]), e, deltaPrimeU);
         if b.Err? then Err(b.error) else Ok(OD.Put(prev.value, qs[i], b.value)))
  {
    assert qs[..i + 1][..i] == qs[..i];
  }

  lemma {:induction false} TausOverErr(d: Table, qs: seq<string>, i: int, e: real, deltaPrimeU: real)
    requires TableValid(d) && 0 <= i <= |qs|
    requires TausOver(d, qs[..i], e, deltaPrimeU).Err?
    ensures TausOver(d, qs, e, deltaPrimeU) == TausOver(d, qs[..i], e, deltaPrimeU)
    decreases |qs| - i
  {
    if i < |qs| {
      TausOverStep(d, qs, i, e, deltaPrimeU);
      TausOverErr(d, qs, i + 1, e, deltaPrimeU);
    } else {
      assert qs[..i] == qs;
    }
  }

  /** The bucket loop of calculate_tau. */
  method CalculateTaus(d: Table, c: Config) returns (r: Result<Table>)
    requires TableValid(d)
    ensures r == Taus(d, c)
  {
    var split := DeltaPrimeU(c);
    if split.Err? {
      return Err(split.error);
    }
    var t := d;
    var keys := d.keys;
    for i := 0 to |keys|
      invariant TableValid(t)
      invariant TausOver(d, keys[..i], c.expEpsilonPrimeU, split.value) == Ok(t)
    {
      TausOverStep(d, keys, i, c.expEpsilonPrimeU, split.value);
      var b := WithTau(MappingAt(t, keys[i]), c.expEpsilonPrimeU, split.value);
      if b.Err? {
        TausOverErr(d, keys, i + 1, c.expEpsilonPrimeU, split.value);
        return Err(b.error);
      }
      t := OD.Put(t, keys[i], b.value);
    }
    assert keys[..|keys|] == keys;
    r := Ok(t);
  }

  /** The loop of create_headlist over the opt-in records: a record is
      added when its repetitions in `s` plus its draw exceed the threshold;
      `added` counts the additions. */
  method AddPassing(d: Table, records: seq<(string, string)>, s: Table, noise: (string, string) -> real, threshold: real)
    returns (t: Table, added: int)
    requires TableValid(d)
    ensures t == AddEach(d, Discovered(records, s, noise, threshold))
    ensures added == |Discovered(records, s, noise, threshold)|
  {
    t, added := d, 0;
    ghost var found := [];
    for i := 0 to |records|
      invariant found == Discovered(records[..i], s, noise, threshold)
      invariant TableValid(t) && t == AddEach(d, found) && added == |found|
    {
      DiscoveredStep(records, i, s, noise, threshold);
      var p := records[i];
      if LeafAt(s, p.0, p.1).count as real + noise(p.0, p.1) > threshold {
        AddEachStep(d, found, p);
        t, added := AddPair(t, p.0, p.1), added + 1;
        found := found + [p];
      }
      assert found == Discovered(records[..i + 1], s, noise, threshold);
    }
    assert records[..|records|] == records;
  }

  // ---------------------------------------------------------------------
  // HeadList

  /** The head list: its table of pairs (the QueryURLMapping it extends),
      the probability-sorted index of its queries, its own τ and the
      configuration it was built with.  Each method changes the head list
      as the function of the same step says; when the step raises, the
      head list is left as it was. */
  class HeadList {
    const config: Config
    const table: QueryUrlMapping
    var index: SD.SortedIndex
    var tau: real

    ghost predicate Valid()
      reads this, table
    {
      table.Valid() && SD.Valid(index)
    }

    constructor(c: Config)
      ensures Valid() && fresh(table)
      ensures config == c && table.queries == OD.Empty() && table.count == 0
      ensures index == SD.Empty() && tau == 0.0
    {
      config := c;
      table := new QueryUrlMapping();
      index := SD.Empty();
      tau := 0.0;
    }

    /** create_headlist: each record of the opt-in table `s` whose
        repetitions plus its draw exceed the threshold is added, then
        <*, *>; each `add` counts one pair. */
    method CreateHeadList(s: QueryUrlMapping, noise: (string, string) -> real) returns (status: Outcome)
      requires Valid() && s.Valid() && s != table
      modifies table
      ensures Valid()
      ensures var r := CreatedHeadList(old(table.queries), old(s.queries), noise, config);
        (status == Done <==> r.Ok?) &&
        (r.Ok? ==> table.queries == r.value &&
                   table.count == old(table.count) + |Discovered(Pairs(old(s.queries)), old(s.queries), noise, Threshold(config).value)| + 1) &&
        (r.Err? ==> status == Raised(r.error) && table.queries == old(table.queries) && table.count == old(table.count))
      ensures old(table.CountConserved()) ==> table.CountConserved()
    {
      var threshold := Threshold(config);
      if threshold.Err? {
        return Raised(threshold.error);
      }
      if threshold.value < 1.0 {
        return Raised(AssertionFailed);
      }
      var t, added := AddPassing(table.queries, s.IterRecords(), s.queries, noise, threshold.value);
      AddEachTotal(table.queries, Discovered(Pairs(s.queries), s.queries, noise, threshold.value));
      table.queries, table.count := t, table.count + added;
      table.Add("*", "*");
      status := Done;
    }

    /** calculate_probabilities_relative_to the opt-in table `other`. */
    method CalculateProbabilitiesRelativeTo(other: QueryUrlMapping, noise: (string, string) -> real) returns (status: Outcome)
      requires Valid() && other.Valid()
      modifies this, table
      ensures Valid() && table.count == old(table.count) && tau == old(tau)
      ensures var r := Probabilities(old(table.queries), old(index), old(other.queries), old(other.count), noise);
        (status == Done <==> r.Ok?) &&
        (r.Ok? ==> table.queries == r.value.0 && index == r.value.1) &&
        (r.Err? ==> status == Raised(r.error) && table.queries == old(table.queries) && index == old(index))
    {
      var r := CalculateProbabilities(table.queries, index, other.queries, other.count, noise);
      if r.Err? {
        return Raised(r.error);
      }
      table.queries, index := r.value.0, r.value.1;
      status := Done;
    }

    /** subsume_entries_beyond_max_size, with the configured maximum m;
        when `*` is missing, <*, *> is added and counted. */
    method SubsumeEntriesBeyondMaxSize() returns (status: Outcome)
      requires Valid()
      modifies this, table
      ensures Valid() && tau == old(tau)
      ensures var r := Truncated(old(table.queries), old(index), config.m);
        (status == Done <==> r.Ok?) &&
        (r.Ok? ==> table.queries == r.value.0 && index == r.value.1 &&
                   table.count == old(table.count) + if "*" in old(table.queries).items then 0 else 1) &&
        (r.Err? ==> status == Raised(r.error) && table.queries == old(table.queries) &&
                    table.count == old(table.count) && index == old(index))
    {
      var had := "*" in table.queries.items;
      var r := SubsumeBeyond(table.queries, index, config.m);
      if r.Err? {
        return Raised(r.error);
      }
      table.queries, index := r.value.0, r.value.1;
      table.count := table.count + if had then 0 else 1;
      status := Done;
    }

    /** calculate_variance_relative_to the opt-in table `other`. */
    method CalculateVarianceRelativeTo(other: QueryUrlMapping) returns (status: Outcome)
      requires Valid() && other.Valid()
      modifies table
      ensures Valid() && table.count == old(table.count)
      ensures var r := Variances(old(table.queries), old(other.count), config);
        (status == Done <==> r.Ok?) &&
        (r.Ok? ==> table.queries == r.value) &&
        (r.Err? ==> status == Raised(r.error) && table.queries == old(table.queries))
    {
      var r := CalculateVariances(table.queries, other.count, config);
      if r.Err? {
        return Raised(r.error);
      }
      table.queries := r.value;
      status := Done;
    }

    /** append_star_values, on the head list's table. */
    method AppendStarValues()
      requires Valid()
      modifies table
      ensures Valid() && table.queries == StarValues(old(table.queries)) && table.count == old(table.count)
    {
      table.AppendStarValues();
    }

    /** calculate_tau: the list's own τ from its count of pairs, then every
        bucket's. */
    method CalculateTau() returns (status: Outcome)
      requires Valid()
      modifies this, table
      ensures Valid() && table.count == old(table.count) && index == old(index)
      ensures var lt := ListTau(old(table.count), config);
        var bt := Taus(old(table.queries), config);
        (status == Done <==> lt.Ok? && bt.Ok?) &&
        (lt.Ok? && bt.Ok? ==> tau == lt.value && table.queries == bt.value) &&
        (lt.Err? ==> status == Raised(lt.error)) &&
        (lt.Ok? && bt.Err? ==> status == Raised(bt.error)) &&
        (status.Raised? ==> tau == old(tau) && table.queries == old(table.queries))
    {
      var lt := ListTau(table.count, config);
      if lt.Err? {
        return Raised(lt.error);
      }
      var r := CalculateTaus(table.queries, config);
      if r.Err? {
        return Raised(r.error);
      }
      tau := lt.value;
      table.queries := r.value;
      status := Done;
    }
  }
}
