/** The blend of the two estimates (final_structures.py, Figure 7 of the
    Blender paper): every <query, url> pair of the head list gets the
    inverse-variance weighted mean of its opt-in (head-list) and client
    probabilities, and each final query keeps its urls in a
    probability-sorted index, which gives the output order. */
module FinalStructures {
  import opened Wrappers
  import OD = OrderedDict
  import SD = SortedDictOfLists
  import opened InMemoryStructures
  import opened Reals
  import opened HeadLists

  // ---------------------------------------------------------------------
  // FinalURLStats

  /** A final leaf: its blended probability and ω, the weight of the
      head-list estimate. */
  datatype FinalUrl = FinalUrl(probability: real, omega: real)

  const FreshFinalUrl := FinalUrl(0.0, 0.0)

  /** FinalURLStats.calculate_probability_relative_to for the head-list
      leaf `hu` and the client leaf `cu`: ω = σ²_c / (σ²_h + σ²_c), then
      p = ω p_h + (1 - ω) p_c; the sum of the variances is the one divisor. */
  function Blend(hu: UrlStats, cu: UrlStats): (r: Result<FinalUrl>)
    ensures r.Err? <==> hu.variance + cu.variance == 0.0
    ensures r.Err? ==> r.error == ZeroDivision
  {
    if hu.variance + cu.variance == 0.0 then Err(ZeroDivision)
    else
      var omega := cu.variance / (hu.variance + cu.variance);
      Ok(FinalUrl(omega * hu.probability + (1.0 - omega) * cu.probability, omega))
  }

  /** The blend is the inverse-variance weighted mean: each estimate is
      weighted by the other's variance, and ω is the client's share of the
      total variance. */
  lemma BlendWeighted(hu: UrlStats, cu: UrlStats)
    requires Blend(hu, cu).Ok?
    ensures var r, s := Blend(hu, cu).value, hu.variance + cu.variance;
      r.omega * s == cu.variance &&
      r.probability * s == cu.variance * hu.probability + hu.variance * cu.probability
  {
    var s := hu.variance + cu.variance;
    var w := cu.variance / s;
    QuotientTimesDivisor(cu.variance, s);
    assert w * s == cu.variance;
    var hp, cp := hu.probability, cu.probability;
    assert (w * hp + (1.0 - w) * cp) * s == (w * s) * hp + (s - w * s) * cp;
  }

  /** With variances that are not negative, ω is a weight in [0, 1] and
      the blended probability lies between the two estimates. */
  lemma BlendBetween(hu: UrlStats, cu: UrlStats)
    requires 0.0 <= hu.variance && 0.0 <= cu.variance && Blend(hu, cu).Ok?
    ensures var r := Blend(hu, cu).value;
      0.0 <= r.omega <= 1.0 &&
      (hu.probability <= cu.probability ==> hu.probability <= r.probability <= cu.probability) &&
      (cu.probability <= hu.probability ==> cu.probability <= r.probability <= hu.probability)
  {
    var s := hu.variance + cu.variance;
    var w := cu.variance / s;
    if cu.variance == 0.0 {
      assert w == 0.0;
    } else {
      QuotientIsFraction(cu.variance, s);
    }
    ConvexCombination(w, hu.probability, cu.probability);
  }

  /** Two equal estimates blend to themselves. */
  lemma BlendAgreeing(hu: UrlStats, cu: UrlStats)
    requires Blend(hu, cu).Ok? && hu.probability == cu.probability
    ensures Blend(hu, cu).value.probability == hu.probability
  {
    var w := cu.variance / (hu.variance + cu.variance);
    assert w * hu.probability + (1.0 - w) * hu.probability == hu.probability;
  }

  // ---------------------------------------------------------------------
  // FinalQuery

  /** A final query: its leaves and the index of its urls by blended
      probability. */
  datatype FinalQuery = FinalQuery(urls: OD.Dict<FinalUrl>, index: SD.SortedIndex)

  ghost predicate FinalQueryValid(f: FinalQuery) {
    OD.Valid(f.urls) && SD.Valid(f.index)
  }

  /** `FinalQuery(config)`: no urls and an empty index. */
  function FreshFinalQuery(): (f: FinalQuery)
    ensures FinalQueryValid(f) && f.urls.items == map[] && f.index.lists == map[]
  {
    FinalQuery(OD.Empty(), SD.Empty())
  }

  /** The value `f[u]` reads. */
  function FinalUrlAt(f: FinalQuery, u: string): FinalUrl {
    if u in f.urls.items then f.urls.items[u] else FreshFinalUrl
  }

  /** The urls the index lists under probability p, in the order appended. */
  function ListAt(ix: SD.SortedIndex, p: real): seq<string> {
    if p in ix.lists then ix.lists[p] else []
  }

  /** The blend of the pair <q, u> from the head list `h` and the client
      table `c` (a pair a table lacks reads as a fresh leaf). */
  function BlendedAt(h: Table, c: Table, q: string, u: string): (r: Result<FinalUrl>)
    ensures r.Err? <==> LeafAt(h, q, u).variance + LeafAt(c, q, u).variance == 0.0
  {
    Blend(LeafAt(h, q, u), LeafAt(c, q, u))
  }

  /** One iteration of FinalQuery.calculate_probability_relative_to: the
      leaf of `u` gets its blend and `u` is appended to the index under the
      blended probability. */
  function BlendStep(f: FinalQuery, h: Table, c: Table, q: string, u: string): (r: Result<FinalQuery>)
    requires FinalQueryValid(f)
    ensures r.Ok? ==> FinalQueryValid(r.value)
  {
    var leaf :- BlendedAt(h, c, q, u);
    Ok(FinalQuery(OD.Put(f.urls, u, leaf), SD.Append(f.index, leaf.probability, u)))
  }

  /** The loop over the urls `us` of the head-list bucket of `q`, in order. */
  function BlendUrls(f: FinalQuery, h: Table, c: Table, q: string, us: seq<string>): (r: Result<FinalQuery>)
    requires FinalQueryValid(f)
    ensures r.Ok? ==> FinalQueryValid(r.value)
    ensures r.Err? ==> r.error == ZeroDivision
  {
    if us == [] then Ok(f)
    else
      var prev :- BlendUrls(f, h, c, q, us[..|us| - 1]);
      BlendStep(prev, h, c, q, us[|us| - 1])
  }

  /** Some url of `us` has no blend (both its variances sum to 0). */
  predicate AnyBlendFails(h: Table, c: Table, q: string, us: seq<string>) {
    exists u :: u in us && BlendedAt(h, c, q, u).Err?
  }

  /** The urls of `us` whose blend is p, in the order of `us`. */
  function Tied(h: Table, c: Table, q: string, us: seq<string>, p: real): seq<string> {
    if us == [] then []
    else
      var u := us[|us| - 1];
      var r := BlendedAt(h, c, q, u);
      Tied(h, c, q, us[..|us| - 1], p) + if r.Ok? && r.value.probability == p then [u] else []
  }

  lemma {:induction false} TiedMembership(h: Table, c: Table, q: string, us: seq<string>, p: real, v: string)
    ensures v in Tied(h, c, q, us, p) <==> v in us && BlendedAt(h, c, q, v).Ok? && BlendedAt(h, c, q, v).value.probability == p
  {
    if us != [] {
      var init := us[..|us| - 1];
      assert us == init + [us[|us| - 1]];
      TiedMembership(h, c, q, init, p, v);
    }
  }

  /** `r` is the final query `f` after the loop over `us`, as seen from
      url `v`: a visited url holds its blend, any other leaf is unchanged. */
  ghost predicate Blended(f: FinalQuery, r: FinalQuery, h: Table, c: Table, q: string, us: seq<string>, v: string) {
    (v in r.urls.items <==> v in f.urls.items || v in us) &&
    (v in us ==> Ok(FinalUrlAt(r, v)) == BlendedAt(h, c, q, v)) &&
    (v !in us ==> FinalUrlAt(r, v) == FinalUrlAt(f, v))
  }

  /** The loop fails exactly when some url has no blend; otherwise every
      visited url holds its blend. */
  lemma {:induction false} BlendUrlsAt(f: FinalQuery, h: Table, c: Table, q: string, us: seq<string>, v: string)
    requires FinalQueryValid(f)
    ensures BlendUrls(f, h, c, q, us).Err? <==> AnyBlendFails(h, c, q, us)
    ensures BlendUrls(f, h, c, q, us).Ok? ==> Blended(f, BlendUrls(f, h, c, q, us).value, h, c, q, us, v)
  {
    if us != [] {
      var init, last := us[..|us| - 1], us[|us| - 1];
      assert us == init + [last];
      BlendUrlsAt(f, h, c, q, init, v);
      assert AnyBlendFails(h, c, q, us) <==> AnyBlendFails(h, c, q, init) || BlendedAt(h, c, q, last).Err?;
      assert v in us <==> v in init || v == last;
    }
  }

  /** After the loop the index lists under p what it listed before,
      followed by the visited urls whose blend is p, in visiting order. */
  lemma {:induction false} BlendUrlsIndex(f: FinalQuery, h: Table, c: Table, q: string, us: seq<string>, p: real)
    requires FinalQueryValid(f)
    ensures var r := BlendUrls(f, h, c, q, us);
      r.Ok? ==> ListAt(r.value.index, p) == ListAt(f.index, p) + Tied(h, c, q, us, p)
  {
    if us != [] {
      var init, last := us[..|us| - 1], us[|us| - 1];
      BlendUrlsIndex(f, h, c, q, init, p);
      var prev := BlendUrls(f, h, c, q, init);
      if prev.Ok? {
        BlendStepIndex(prev.value, h, c, q, last, p);
      }
    }
  }

  lemma BlendStepIndex(f: FinalQuery, h: Table, c: Table, q: string, u: string, p: real)
    requires FinalQueryValid(f)
    ensures var r := BlendStep(f, h, c, q, u);
      var tied := if BlendedAt(h, c, q, u).Ok? && BlendedAt(h, c, q, u).value.probability == p then [u] else [];
      r.Ok? ==> ListAt(r.value.index, p) == ListAt(f.index, p) + tied
  {
  }

  /** `iter_in_order()`: the urls of the index's records. */
  function RecordUrls(rs: seq<(real, string)>): (r: seq<string>)
    ensures |r| == |rs| && forall i :: 0 <= i < |rs| ==> r[i] == rs[i].1
  {
    if rs == [] then [] else [rs[0].1] + RecordUrls(rs[1..])
  }

  function InOrder(f: FinalQuery): seq<string>
    requires FinalQueryValid(f)
  {
    RecordUrls(SD.Records(f.index))
  }

  /** A final query built from a fresh one by the loop over `us`: its
      records come in descending probability, those of one probability in
      the order their urls were visited, and a record <p, v> is there
      exactly when v was visited and blended to p, which is also what its
      leaf holds. */
  lemma BlendOrder(h: Table, c: Table, q: string, us: seq<string>, p: real, v: string)
    requires BlendUrls(FreshFinalQuery(), h, c, q, us).Ok?
    ensures var r := BlendUrls(FreshFinalQuery(), h, c, q, us).value;
      var recs := SD.Records(r.index);
      (forall i, j :: 0 <= i < j < |recs| ==> recs[i].0 >= recs[j].0) &&
      SD.ValuesAt(recs, p) == Tied(h, c, q, us, p) &&
      ((p, v) in recs <==> v in us && BlendedAt(h, c, q, v).Ok? && BlendedAt(h, c, q, v).value.probability == p) &&
      ((p, v) in recs ==> FinalUrlAt(r, v).probability == p)
  {
    var r := BlendUrls(FreshFinalQuery(), h, c, q, us).value;
    SD.RecordsDescending(r.index);
    SD.RecordsInListOrder(r.index, p);
    SD.RecordsMembership(r.index, p, v);
    BlendUrlsIndex(FreshFinalQuery(), h, c, q, us, p);
    TiedMembership(h, c, q, us, p, v);
    BlendUrlsAt(FreshFinalQuery(), h, c, q, us, v);
  }

  // ---------------------------------------------------------------------
  // The client reads

  /** The reads `client[q][u]` the loop over the urls `us` of `q` makes. */
  function TouchUrls(c: Table, q: string, us: seq<string>): (r: Table)
    requires TableValid(c)
    ensures TableValid(r)
  {
    if us == [] then c else TouchPair(TouchUrls(c, q, us[..|us| - 1]), q, us[|us| - 1])
  }

  /** The reads the loop over the head-list queries `qs` makes. */
  function TouchRows(c: Table, h: Table, qs: seq<string>): (r: Table)
    requires TableValid(c)
    ensures TableValid(r)
  {
    if qs == [] then c
    else
      var q := qs[|qs| - 1];
      TouchUrls(TouchRows(c, h, qs[..|qs| - 1]), q, MappingAt(h, q).urls.keys)
  }

  /** The reads add each visited pair to the client table (as a fresh leaf
      when it lacks it) and change no leaf. */
  lemma {:induction false} TouchUrlsAt(c: Table, q: string, us: seq<string>, x: string, v: string)
    requires TableValid(c)
    ensures LeafAt(TouchUrls(c, q, us), x, v) == LeafAt(c, x, v)
    ensures HasPair(TouchUrls(c, q, us), x, v) <==> HasPair(c, x, v) || (x == q && v in us)
  {
    if us != [] {
      var init, last := us[..|us| - 1], us[|us| - 1];
      assert us == init + [last];
      TouchUrlsAt(c, q, init, x, v);
      TouchPairAt(TouchUrls(c, q, init), q, last, x, v);
    }
  }

  lemma {:induction false} TouchRowsAt(c: Table, h: Table, qs: seq<string>, x: string, v: string)
    requires TableValid(c) && TableValid(h)
    ensures LeafAt(TouchRows(c, h, qs), x, v) == LeafAt(c, x, v)
    ensures HasPair(TouchRows(c, h, qs), x, v) <==> HasPair(c, x, v) || (x in qs && HasPair(h, x, v))
  {
    if qs != [] {
      var init, last := qs[..|qs| - 1], qs[|qs| - 1];
      assert qs == init + [last];
      TouchRowsAt(c, h, init, x, v);
      TouchUrlsAt(TouchRows(c, h, init), last, MappingAt(h, last).urls.keys, x, v);
    }
  }

  /** The blends read only the client's leaves, so reads that change no
      leaf change no blend. */
  lemma {:induction false} BlendUrlsFrame(f: FinalQuery, h: Table, c: Table, c': Table, q: string, us: seq<string>)
    requires FinalQueryValid(f)
    requires forall u :: u in us ==> LeafAt(c, q, u) == LeafAt(c', q, u)
    ensures BlendUrls(f, h, c, q, us) == BlendUrls(f, h, c', q, us)
  {
    if us != [] {
      var init := us[..|us| - 1];
      assert forall u :: u in init ==> u in us;
      BlendUrlsFrame(f, h, c, c', q, init);
    }
  }

  // ---------------------------------------------------------------------
  // FinalQueryCollection

  type FinalTable = OD.Dict<FinalQuery>

  ghost predicate FinalTableValid(d: FinalTable) {
    OD.Valid(d) && forall q :: q in d.items ==> FinalQueryValid(d.items[q])
  }

  /** The value `final[q]` reads: a fresh final query when it is missing. */
  function FinalAt(d: FinalTable, q: string): (f: FinalQuery)
    ensures FinalTableValid(d) ==> FinalQueryValid(f)
  {
    if q in d.items then d.items[q] else FreshFinalQuery()
  }

  /** One iteration of FinalQueryCollection.calculate_probability_relative_to:
      the final query of `q` runs its url loop over the urls of the
      head-list bucket of `q`. */
  function QueryBlend(d: FinalTable, h: Table, c: Table, q: string): (r: Result<FinalTable>)
    requires FinalTableValid(d)
    ensures r.Ok? ==> FinalTableValid(r.value)
  {
    var f :- BlendUrls(FinalAt(d, q), h, c, q, MappingAt(h, q).urls.keys);
    Ok(OD.Put(d, q, f))
  }

  /** The loop over the head-list queries `qs`, in order. */
  function BlendQueries(d: FinalTable, h: Table, c: Table, qs: seq<string>): (r: Result<FinalTable>)
    requires FinalTableValid(d)
    ensures r.Ok? ==> FinalTableValid(r.value)
    ensures r.Err? ==> r.error == ZeroDivision
  {
    if qs == [] then Ok(d)
    else
      var prev :- BlendQueries(d, h, c, qs[..|qs| - 1]);
      QueryBlend(prev, h, c, qs[|qs| - 1])
  }

  /** Some pair of the head-list queries `qs` has no blend. */
  predicate AnyPairFails(h: Table, c: Table, qs: seq<string>) {
    exists q :: q in qs && AnyBlendFails(h, c, q, MappingAt(h, q).urls.keys)
  }

  /** One query: it fails exactly when one of its urls has no blend;
      otherwise the query holds the result of its url loop and no other
      query changes. */
  lemma QueryBlendAt(d: FinalTable, h: Table, c: Table, q: string, x: string)
    requires FinalTableValid(d)
    ensures QueryBlend(d, h, c, q).Err? <==> AnyBlendFails(h, c, q, MappingAt(h, q).urls.keys)
    ensures var r := QueryBlend(d, h, c, q);
      r.Ok? ==>
        (x in r.value.items <==> x in d.items || x == q) &&
        (x == q ==> Ok(FinalAt(r.value, x)) == BlendUrls(FinalAt(d, q), h, c, q, MappingAt(h, q).urls.keys)) &&
        (x != q ==> FinalAt(r.value, x) == FinalAt(d, x))
  {
    BlendUrlsAt(FinalAt(d, q), h, c, q, MappingAt(h, q).urls.keys, x);
  }

  lemma QueryBlendKeys(d: FinalTable, h: Table, c: Table, q: string)
    requires FinalTableValid(d)
    ensures var r := QueryBlend(d, h, c, q);
      r.Ok? ==> r.value.keys == if q in d.items then d.keys else d.keys + [q]
  {
  }

  /** The loop fails exactly when some pair has no blend. */
  lemma {:induction false} BlendQueriesErr(d: FinalTable, h: Table, c: Table, qs: seq<string>)
    requires FinalTableValid(d)
    ensures BlendQueries(d, h, c, qs).Err? <==> AnyPairFails(h, c, qs)
  {
    if qs != [] {
      var init, last := qs[..|qs| - 1], qs[|qs| - 1];
      assert qs == init + [last];
      BlendQueriesErr(d, h, c, init);
      var prev := BlendQueries(d, h, c, init);
      if prev.Ok? {
        QueryBlendAt(prev.value, h, c, last, last);
      }
      assert AnyPairFails(h, c, qs) <==> AnyPairFails(h, c, init) || AnyBlendFails(h, c, last, MappingAt(h, last).urls.keys);
    }
  }

  /** Each visited query holds the result of its url loop, run on what the
      collection held for it before; the others are unchanged. */
  lemma {:induction false} BlendQueriesAt(d: FinalTable, h: Table, c: Table, qs: seq<string>, x: string)
    requires FinalTableValid(d) && OD.Distinct(qs)
    ensures var r := BlendQueries(d, h, c, qs);
      r.Ok? ==>
        (x in r.value.items <==> x in d.items || x in qs) &&
        (x in qs ==> Ok(FinalAt(r.value, x)) == BlendUrls(FinalAt(d, x), h, c, x, MappingAt(h, x).urls.keys)) &&
        (x !in qs ==> FinalAt(r.value, x) == FinalAt(d, x))
  {
    if qs != [] {
      var init, last := qs[..|qs| - 1], qs[|qs| - 1];
      assert qs == init + [last];
      OD.DistinctSnoc(init, last);
      BlendQueriesAt(d, h, c, init, x);
      BlendQueriesAt(d, h, c, init, last);
      var prev := BlendQueries(d, h, c, init);
      if prev.Ok? {
        QueryBlendAt(prev.value, h, c, last, x);
      }
      assert x in qs <==> x in init || x == last;
    }
  }

  lemma BlendQueriesSnoc(d: FinalTable, h: Table, c: Table, qs: seq<string>, q: string)
    requires FinalTableValid(d)
    ensures var prev := BlendQueries(d, h, c, qs);
      BlendQueries(d, h, c, qs + [q]) == if prev.Err? then prev else QueryBlend(prev.value, h, c, q)
  {
    assert (qs + [q])[..|qs|] == qs;
  }

  /** Starting from an empty collection, the queries come in visiting
      order. */
  lemma {:induction false} BlendQueriesKeys(d: FinalTable, h: Table, c: Table, qs: seq<string>)
    requires FinalTableValid(d) && OD.Distinct(qs) && d.items == map[]
    ensures var r := BlendQueries(d, h, c, qs);
      r.Ok? ==> r.value.keys == d.keys + qs
  {
    if qs != [] {
      var init, last := qs[..|qs| - 1], qs[|qs| - 1];
      assert qs == init + [last];
      assert OD.Distinct(init) && last !in init by {
        OD.DistinctSnoc(init, last);
      }
      BlendQueriesKeys(d, h, c, init);
      BlendQueriesSnoc(d, h, c, init, last);
      var prev := BlendQueries(d, h, c, init);
      if prev.Ok? {
        assert last !in prev.value.items by {
          BlendQueriesAt(d, h, c, init, last);
        }
        QueryBlendKeys(prev.value, h, c, last);
      }
    }
  }

  /** The first pass of blend_probabilities: a fresh collection runs the
      loop over every query of the head list `h`. */
  function FinalProbabilities(h: Table, c: Table): (r: Result<FinalTable>)
    requires TableValid(h)
    ensures r.Ok? ==> FinalTableValid(r.value)
  {
    BlendQueries(OD.Empty(), h, c, h.keys)
  }

  /** The first pass fails exactly when some pair of the head list has no
      blend; otherwise the collection has the head list's queries in the
      same order, and each holds a leaf exactly for the urls of its
      head-list bucket, with their blends. */
  lemma FinalLeaves(h: Table, c: Table, q: string, u: string)
    requires TableValid(h)
    ensures FinalProbabilities(h, c).Err? <==> AnyPairFails(h, c, h.keys)
    ensures var r := FinalProbabilities(h, c);
      r.Ok? ==>
        r.value.keys == h.keys &&
        (q in r.value.items <==> q in h.items) &&
        (q in h.items ==> (u in FinalAt(r.value, q).urls.items <==> HasPair(h, q, u))) &&
        (HasPair(h, q, u) ==> Ok(FinalAt(r.value, q).urls.items[u]) == BlendedAt(h, c, q, u))
  {
    BlendQueriesErr(OD.Empty(), h, c, h.keys);
    BlendQueriesKeys(OD.Empty(), h, c, h.keys);
    BlendQueriesAt(OD.Empty(), h, c, h.keys, q);
    BlendUrlsAt(FreshFinalQuery(), h, c, q, MappingAt(h, q).urls.keys, u);
  }

  /** After the first pass the urls of a query come out of its index in
      descending blended probability, urls of equal probability in the
      order of the head-list bucket, and a record <p, u> is there exactly
      when the bucket has u and u's blend is p. */
  lemma FinalOrder(h: Table, c: Table, q: string, p: real, u: string)
    requires TableValid(h) && FinalProbabilities(h, c).Ok? && q in h.items
    ensures var f := FinalAt(FinalProbabilities(h, c).value, q);
      var recs := SD.Records(f.index);
      (forall i, j :: 0 <= i < j < |recs| ==> recs[i].0 >= recs[j].0) &&
      SD.ValuesAt(recs, p) == Tied(h, c, q, MappingAt(h, q).urls.keys, p) &&
      ((p, u) in recs <==> HasPair(h, q, u) && FinalUrlAt(f, u).probability == p)
  {
    var us := MappingAt(h, q).urls.keys;
    var f := FinalAt(FinalProbabilities(h, c).value, q);
    assert Ok(f) == BlendUrls(FreshFinalQuery(), h, c, q, us) by {
      BlendQueriesAt(OD.Empty(), h, c, h.keys, q);
    }
    BlendOrder(h, c, q, us, p, u);
    BlendUrlsAt(FreshFinalQuery(), h, c, q, us, u);
  }

  // ---------------------------------------------------------------------
  // iter_records and write

  /** The <query, url> records of the queries `keys`, each query's urls in
      index order. */
  function RecordsFrom(keys: seq<string>, items: map<string, FinalQuery>): seq<(string, string)>
    requires forall k :: k in keys ==> k in items && FinalQueryValid(items[k])
  {
    if keys == [] then [] else Row(keys[0], InOrder(items[keys[0]])) + RecordsFrom(keys[1..], items)
  }

  /** FinalQueryCollection.iter_records. */
  function IterRecords(d: FinalTable): seq<(string, string)>
    requires FinalTableValid(d)
  {
    RecordsFrom(d.keys, d.items)
  }

  lemma {:induction false} RecordsFromMembership(keys: seq<string>, items: map<string, FinalQuery>, q: string, u: string)
    requires forall k :: k in keys ==> k in items && FinalQueryValid(items[k])
    ensures (q, u) in RecordsFrom(keys, items) <==> q in keys && u in InOrder(items[q])
  {
    if keys != [] {
      RowMembership(keys[0], InOrder(items[keys[0]]), (q, u));
      RecordsFromMembership(keys[1..], items, q, u);
      assert q in keys <==> q == keys[0] || q in keys[1..];
    }
  }

  /** A url is in the index order of a query exactly when a record of the
      index names it. */
  lemma InOrderMembership(f: FinalQuery, u: string)
    requires FinalQueryValid(f)
    ensures u in InOrder(f) <==> exists p :: (p, u) in SD.Records(f.index)
  {
    var recs := SD.Records(f.index);
    if u in InOrder(f) {
      var i :| 0 <= i < |recs| && InOrder(f)[i] == u;
      assert (recs[i].0, u) == recs[i];
    }
    if exists p :: (p, u) in recs {
      var p :| (p, u) in recs;
      var i :| 0 <= i < |recs| && recs[i] == (p, u);
      assert InOrder(f)[i] == u;
    }
  }

  /** After the first pass iter_records yields exactly the pairs of the
      head list. */
  lemma FinalRecords(h: Table, c: Table, q: string, u: string)
    requires TableValid(h) && FinalProbabilities(h, c).Ok?
    ensures (q, u) in IterRecords(FinalProbabilities(h, c).value) <==> HasPair(h, q, u)
  {
    var d := FinalProbabilities(h, c).value;
    FinalLeaves(h, c, q, u);
    RecordsFromMembership(d.keys, d.items, q, u);
    if q in h.items {
      var f := FinalAt(d, q);
      InOrderMembership(f, u);
      if HasPair(h, q, u) {
        FinalOrder(h, c, q, FinalUrlAt(f, u).probability, u);
      }
      if exists p :: (p, u) in SD.Records(f.index) {
        var p :| (p, u) in SD.Records(f.index);
        FinalOrder(h, c, q, p, u);
      }
    }
  }

  /** The lines `write` puts out for the records `rs`: query, url and the
      leaf's probability, skipping a `*` url whose probability is 0. */
  function LinesOf(d: FinalTable, rs: seq<(string, string)>): (r: seq<(string, string, real)>)
    ensures |r| <= |rs|
  {
    if rs == [] then []
    else
      var (q, u) := rs[0];
      var p := FinalUrlAt(FinalAt(d, q), u).probability;
      (if u == "*" && p == 0.0 then [] else [(q, u, p)]) + LinesOf(d, rs[1..])
  }

  /** FinalQueryCollection.write. */
  function Written(d: FinalTable): seq<(string, string, real)>
    requires FinalTableValid(d)
  {
    LinesOf(d, IterRecords(d))
  }

  /** A line is written for each record, with its leaf's probability,
      except a `*` url of probability 0. */
  lemma {:induction false} LinesOfMembership(d: FinalTable, rs: seq<(string, string)>, q: string, u: string, p: real)
    ensures (q, u, p) in LinesOf(d, rs) <==>
      (q, u) in rs && p == FinalUrlAt(FinalAt(d, q), u).probability && !(u == "*" && p == 0.0)
  {
    if rs != [] {
      LinesOfMembership(d, rs[1..], q, u, p);
      assert (q, u) in rs <==> (q, u) == rs[0] || (q, u) in rs[1..];
    }
  }

  /** With no `*` url among the records, every record gives a line. */
  lemma {:induction false} LinesOfLength(d: FinalTable, rs: seq<(string, string)>)
    ensures (forall i :: 0 <= i < |rs| ==> rs[i].1 != "*") ==> |LinesOf(d, rs)| == |rs|
  {
    if rs != [] {
      LinesOfLength(d, rs[1..]);
      assert forall i :: 0 <= i < |rs[1..]| ==> rs[1..][i] == rs[i + 1];
    }
  }

  // ---------------------------------------------------------------------
  // The second pass of blend_probabilities

  /** `final[q][u].calculate_probability_relative_to(...)`: the two reads
      of the collection insert a fresh query and a fresh leaf when missing,
      then the leaf gets the blend of <q, u>; the index is not touched. */
  function Reblend(d: FinalTable, h: Table, c: Table, q: string, u: string): (r: Result<FinalTable>)
    requires FinalTableValid(d)
    ensures r.Err? <==> BlendedAt(h, c, q, u).Err?
    ensures r.Ok? ==> FinalTableValid(r.value)
    ensures r.Ok? ==> r.value.keys == (if q in d.items then d.keys else d.keys + [q])
    ensures r.Ok? ==> FinalAt(r.value, q).index == FinalAt(d, q).index
    ensures r.Ok? ==> Ok(FinalUrlAt(FinalAt(r.value, q), u)) == BlendedAt(h, c, q, u)
  {
    var f := FinalAt(d, q);
    var leaf :- BlendedAt(h, c, q, u);
    Ok(OD.Put(d, q, f.(urls := OD.Put(f.urls, u, leaf))))
  }

  /** A leaf that already holds its blend is left as it is: the second
      pass changes nothing where the first pass has been. */
  lemma ReblendSettled(d: FinalTable, h: Table, c: Table, q: string, u: string)
    requires FinalTableValid(d) && q in d.items && u in d.items[q].urls.items
    requires Ok(d.items[q].urls.items[u]) == BlendedAt(h, c, q, u)
    ensures Reblend(d, h, c, q, u) == Ok(d)
  {
    var f := d.items[q];
    assert OD.Put(f.urls, u, f.urls.items[u]) == f.urls;
    assert f.(urls := f.urls) == f;
    assert OD.Put(d, q, f) == d;
  }

  /** After the first pass every pair of the head list holds its blend,
      also against the client table the first pass has read through, so
      re-blending any of them leaves the collection as it is. */
  lemma SecondPassChangesNothing(h: Table, c: Table, q: string, u: string)
    requires TableValid(h) && TableValid(c) && FinalProbabilities(h, c).Ok? && HasPair(h, q, u)
    ensures var d := FinalProbabilities(h, c).value;
      Reblend(d, h, TouchRows(c, h, h.keys), q, u) == Ok(d)
  {
    var d := FinalProbabilities(h, c).value;
    var c' := TouchRows(c, h, h.keys);
    FinalLeaves(h, c, q, u);
    TouchRowsAt(c, h, h.keys, q, u);
    assert BlendedAt(h, c', q, u) == BlendedAt(h, c, q, u);
    ReblendSettled(d, h, c', q, u);
  }

  /** The client table after the first pass holds every pair of the head
      list, so the second pass's reads of it change nothing. */
  lemma SecondPassReadsNothingNew(h: Table, c: Table, q: string, u: string)
    requires TableValid(h) && TableValid(c) && HasPair(h, q, u)
    ensures TouchPair(TouchRows(c, h, h.keys), q, u) == TouchRows(c, h, h.keys)
  {
    TouchRowsAt(c, h, h.keys, q, u);
  }

  // ---------------------------------------------------------------------
  // The loops

  lemma BlendUrlsPrefix(f: FinalQuery, h: Table, c: Table, q: string, us: seq<string>, i: nat)
    requires FinalQueryValid(f) && i < |us| && BlendUrls(f, h, c, q, us[..i]).Ok?
    ensures BlendUrls(f, h, c, q, us[..i + 1]) == BlendStep(BlendUrls(f, h, c, q, us[..i]).value, h, c, q, us[i])
  {
    assert us[..i + 1][..i] == us[..i];
  }

  lemma TouchUrlsPrefix(c: Table, q: string, us: seq<string>, i: nat)
    requires TableValid(c) && i < |us|
    ensures TouchUrls(c, q, us[..i + 1]) == TouchPair(TouchUrls(c, q, us[..i]), q, us[i])
    ensures LeafAt(TouchUrls(c, q, us[..i + 1]), q, us[i]) == LeafAt(c, q, us[i])
  {
    assert us[..i + 1][..i] == us[..i];
    TouchUrlsAt(c, q, us[..i + 1], q, us[i]);
  }

  /** One url without a blend makes the whole loop fail. */
  lemma BlendUrlsFails(f: FinalQuery, h: Table, c: Table, q: string, us: seq<string>, u: string)
    requires FinalQueryValid(f) && u in us && BlendedAt(h, c, q, u).Err?
    ensures BlendUrls(f, h, c, q, us).Err?
  {
    BlendUrlsAt(f, h, c, q, us, u);
  }

  /** FinalQuery.calculate_probability_relative_to on the value `f`: the
      loop over the urls of the head-list bucket of `q`, reading the client
      table `c` as it goes. */
  method BlendQueryUrls(f: FinalQuery, h: Table, c: Table, q: string) returns (c': Table, r: Result<FinalQuery>)
    requires FinalQueryValid(f) && TableValid(c)
    ensures r == BlendUrls(f, h, c, q, MappingAt(h, q).urls.keys)
    ensures r.Ok? ==> c' == TouchUrls(c, q, MappingAt(h, q).urls.keys)
  {
    var us := MappingAt(h, q).urls.keys;
    var g := f;
    c' := c;
    for i := 0 to |us|
      invariant TableValid(c') && c' == TouchUrls(c, q, us[..i])
      invariant FinalQueryValid(g) && BlendUrls(f, h, c, q, us[..i]) == Ok(g)
    {
      var u := us[i];
      TouchUrlsPrefix(c, q, us, i);
      c' := TouchPair(c', q, u);
      var leaf := Blend(LeafAt(h, q, u), LeafAt(c', q, u));
      if leaf.Err? {
        BlendUrlsFails(f, h, c, q, us, u);
        return c', Err(leaf.error);
      }
      BlendUrlsPrefix(f, h, c, q, us, i);
      g := FinalQuery(OD.Put(g.urls, u, leaf.value), SD.Append(g.index, leaf.value.probability, u));
    }
    assert us[..|us|] == us;
    r := Ok(g);
  }

  /** The i-th query of the loop: its url loop reads the client table
      as the earlier queries left it, which blends as the table given. */
  lemma BlendQueriesPrefix(d: FinalTable, h: Table, c: Table, qs: seq<string>, i: nat, e: FinalTable)
    requires FinalTableValid(d) && TableValid(c) && TableValid(h) && i < |qs|
    requires BlendQueries(d, h, c, qs[..i]) == Ok(e)
    ensures TouchRows(c, h, qs[..i + 1]) == TouchUrls(TouchRows(c, h, qs[..i]), qs[i], MappingAt(h, qs[i]).urls.keys)
    ensures BlendQueries(d, h, c, qs[..i + 1]) == QueryBlend(e, h, c, qs[i])
    ensures BlendUrls(FinalAt(e, qs[i]), h, TouchRows(c, h, qs[..i]), qs[i], MappingAt(h, qs[i]).urls.keys) ==
            BlendUrls(FinalAt(e, qs[i]), h, c, qs[i], MappingAt(h, qs[i]).urls.keys)
  {
    var q := qs[i];
    assert qs[..i + 1][..i] == qs[..i];
    forall u | u in MappingAt(h, q).urls.keys
      ensures LeafAt(TouchRows(c, h, qs[..i]), q, u) == LeafAt(c, q, u)
    {
      TouchRowsAt(c, h, qs[..i], q, u);
    }
    BlendUrlsFrame(FinalAt(e, q), h, TouchRows(c, h, qs[..i]), c, q, MappingAt(h, q).urls.keys);
  }

  /** A query of the head list whose url loop fails makes the whole loop
      fail. */
  lemma BlendQueriesFails(d: FinalTable, h: Table, c: Table, q: string)
    requires FinalTableValid(d) && q in h.keys && AnyBlendFails(h, c, q, MappingAt(h, q).urls.keys)
    ensures BlendQueries(d, h, c, h.keys).Err?
  {
    BlendQueriesErr(d, h, c, h.keys);
  }

  /** FinalQueryCollection.calculate_probability_relative_to on the
      collection `d`: the loop over the head-list queries, in order. */
  method BlendAllQueries(d: FinalTable, h: Table, c: Table) returns (c': Table, r: Result<FinalTable>)
    requires FinalTableValid(d) && TableValid(h) && TableValid(c)
    ensures r == BlendQueries(d, h, c, h.keys)
    ensures r.Ok? ==> c' == TouchRows(c, h, h.keys)
  {
    var e := d;
    c' := c;
    for i := 0 to |h.keys|
      invariant c' == TouchRows(c, h, h.keys[..i])
      invariant BlendQueries(d, h, c, h.keys[..i]) == Ok(e)
    {
      var q := h.keys[i];
      BlendQueriesPrefix(d, h, c, h.keys, i, e);
      var f;
      c', f := BlendQueryUrls(FinalAt(e, q), h, c', q);
      if f.Err? {
        BlendUrlsAt(FinalAt(e, q), h, c, q, MappingAt(h, q).urls.keys, q);
        BlendQueriesFails(d, h, c, q);
        return c', Err(f.error);
      }
      e := OD.Put(e, q, f.value);
    }
    assert h.keys[..|h.keys|] == h.keys;
    r := Ok(e);
  }

  /** The re-blend as the leaf method computes it: the client leaf is
      read after the client read of the pair. */
  lemma ReblendAfterRead(d: FinalTable, h: Table, c: Table, q: string, u: string)
    requires FinalTableValid(d) && TableValid(c)
    ensures var leaf := Blend(LeafAt(h, q, u), LeafAt(TouchPair(c, q, u), q, u));
      var f := FinalAt(d, q);
      Reblend(d, h, c, q, u) == if leaf.Err? then Err(leaf.error) else Ok(OD.Put(d, q, f.(urls := OD.Put(f.urls, u, leaf.value))))
  {
  }

  // ---------------------------------------------------------------------
  // The collection object

  /** FinalQueryCollection: the final queries, keyed by query in insertion
      order. */
  class FinalQueryCollection {
    var queries: FinalTable

    ghost predicate Valid()
      reads this
    {
      FinalTableValid(queries)
    }

    constructor()
      ensures Valid() && queries == OD.Empty()
    {
      queries := OD.Empty();
    }

    /** calculate_probability_relative_to(client, optin): blend every pair
        of the head list `optin`, reading the client table as it goes.  On
        success the collection and the client table are what
        BlendQueries and TouchRows say; when a blend divides by zero both
        are left as they were. */
    method CalculateProbabilityRelativeTo(client: QueryUrlMapping, optin: HeadList) returns (status: Outcome)
      requires Valid() && client.Valid() && optin.Valid() && client != optin.table
      modifies this, client
      ensures Valid() && client.Valid() && client.count == old(client.count)
      ensures var h := optin.table.queries;
        var r := BlendQueries(old(queries), h, old(client.queries), h.keys);
        (status == Done <==> r.Ok?) &&
        (r.Ok? ==> queries == r.value && client.queries == TouchRows(old(client.queries), h, h.keys)) &&
        (r.Err? ==> status == Raised(ZeroDivision) && queries == old(queries) && client.queries == old(client.queries))
    {
      var c, r := BlendAllQueries(queries, optin.table.queries, client.queries);
      if r.Err? {
        return Raised(r.error);
      }
      queries, client.queries := r.value, c;
      status := Done;
    }

    /** `self[q][u].calculate_probability_relative_to(client, q, u, optin)`
        for a pair <q, u> of the head list: the client leaf is read, then
        the final leaf gets the blend; the index is not touched. */
    method CalculateUrlProbabilityRelativeTo(client: QueryUrlMapping, optin: HeadList, q: string, u: string) returns (status: Outcome)
      requires Valid() && client.Valid() && optin.Valid() && client != optin.table
      requires HasPair(optin.table.queries, q, u)
      modifies this, client
      ensures Valid() && client.Valid() && client.count == old(client.count)
      ensures client.queries == TouchPair(old(client.queries), q, u)
      ensures var r := Reblend(old(queries), optin.table.queries, old(client.queries), q, u);
        (status == Done <==> r.Ok?) &&
        (r.Ok? ==> queries == r.value) &&
        (r.Err? ==> status == Raised(ZeroDivision) && queries == old(queries))
    {
      var h, d := optin.table.queries, queries;
      var c := TouchPair(client.queries, q, u);
      ReblendAfterRead(d, h, client.queries, q, u);
      var leaf := Blend(LeafAt(h, q, u), LeafAt(c, q, u));
      client.queries := c;
      if leaf.Err? {
        return Raised(leaf.error);
      }
      var f := FinalAt(d, q);
      queries := OD.Put(d, q, f.(urls := OD.Put(f.urls, u, leaf.value)));
      status := Done;
    }
  }
}
