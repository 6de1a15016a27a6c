/** The client-side estimator (client_structures.py, Figure 5 of the
    Blender paper). The client table holds the pairs the clients reported
    through LocalAlg; relative to itself and to the head list it gives
    every client query an estimated probability and variance, and every
    url the head list holds for that query its own.

    Names of the source and their counterparts here: `number_of_queries`
    is the number of a table's queries, `number_of_unique_urls` is
    `Size` of a bucket, `number_of_urls` is a bucket's `count`,
    `number_of_repetitions` a leaf's `count` and
    `number_of_query_url_pairs` the table's `count`. */
module ClientStructures {
  import opened Wrappers
  import OD = OrderedDict
  import opened InMemoryStructures
  import opened HeadLists
  import opened Reals

  // ---------------------------------------------------------------------
  // The query level (ClientQuery.calculate_probabilities_relative_to)

  /** (1 - τ) / (Q - 1): how often a report names one given other query
      of a head list of Q queries whose τ is `hTau`. */
  function Ratio(hTau: real, queries: int): real
    requires queries != 1
  {
    (1.0 - hTau) / (queries as real - 1.0)
  }

  /** τ - ratio vanishes exactly when Q τ = 1. */
  lemma RatioGap(hTau: real, queries: int)
    requires queries != 1
    ensures (hTau - Ratio(hTau, queries)) * (queries as real - 1.0) == queries as real * hTau - 1.0
    ensures hTau - Ratio(hTau, queries) == 0.0 <==> queries as real * hTau == 1.0
  {
    var q, ratio := queries as real - 1.0, Ratio(hTau, queries);
    QuotientTimesDivisor(1.0 - hTau, q);
    assert ratio * q == 1.0 - hTau;
    assert (hTau - ratio) * q == hTau * q - ratio * q;
    assert hTau * q == queries as real * hTau - hTau;
    ProductZero(hTau - ratio, q);
  }

  /** The share of the client's n reports that name the query. */
  function Frequency(count: int, n: int): real
    requires n != 0
  {
    count as real / n as real
  }

  /** f (1 - f) / (n - 1): the sample variance of a frequency f observed
      over n reports. */
  function BinomialVariance(f: real, n: int): real
    requires n != 1
  {
    f * (1.0 - f) / (n as real - 1.0)
  }

  /** (f - ratio) / (τ - ratio). */
  function QueryProbability(f: real, hTau: real, queries: int): (r: real)
    requires queries != 1 && hTau - Ratio(hTau, queries) != 0.0
    ensures Ratio(hTau, queries) + (hTau - Ratio(hTau, queries)) * r == f
  {
    QuotientTimesDivisor(f - Ratio(hTau, queries), hTau - Ratio(hTau, queries));
    (f - Ratio(hTau, queries)) / (hTau - Ratio(hTau, queries))
  }

  /** f (1 - f) / ((τ - ratio)² (n - 1)), written as the source groups it. */
  function QueryVariance(f: real, hTau: real, queries: int, n: int): real
    requires queries != 1 && hTau - Ratio(hTau, queries) != 0.0 && n != 1
  {
    (1.0 / Square(hTau - Ratio(hTau, queries))) * (f * (1.0 - f)) / (n as real - 1.0)
  }

  /** The query's probability and variance from the count of its reports
      (`count` of the `n` pairs of the client table) in a head list of
      `queries` queries whose τ is `hTau`. Every divisor of the source is
      checked in its order; each raises ZeroDivisionError. */
  function QueryEstimate(count: int, n: int, hTau: real, queries: int): (r: Result<(real, real)>)
    ensures r.Err? <==> n == 0 || n == 1 || queries == 1 || queries as real * hTau == 1.0
    ensures r.Err? ==> r.error == ZeroDivision
  {
    if n == 0 then Err(ZeroDivision)
    else if queries == 1 then Err(ZeroDivision)
    else if (RatioGap(hTau, queries); hTau - Ratio(hTau, queries) == 0.0) then Err(ZeroDivision)
    else if n == 1 then Err(ZeroDivision)
    else
      var f := Frequency(count, n);
      Ok((QueryProbability(f, hTau, queries), QueryVariance(f, hTau, queries, n)))
  }

  /** A query of probability p is reported with frequency
      ratio + (τ - ratio) p (kept with probability τ, or drawn among the
      other queries); the estimate is the one p that gives the observed
      frequency f = count / n. */
  lemma QueryProbabilityInverts(count: int, n: int, hTau: real, queries: int, p: real)
    requires QueryEstimate(count, n, hTau, queries).Ok?
    ensures var ratio := Ratio(hTau, queries);
      ratio + (hTau - ratio) * p == Frequency(count, n) <==> p == QueryEstimate(count, n, hTau, queries).value.0
  {
    var f := Frequency(count, n);
    QueryEstimateParts(count, n, hTau, queries);
    AffineInverse(f, Ratio(hTau, queries), hTau - Ratio(hTau, queries), p);
  }

  /** The one solution p of f = a + s p, for s other than 0. */
  lemma AffineInverse(f: real, a: real, s: real, p: real)
    requires s != 0.0
    ensures a + s * p == f <==> p == (f - a) / s
  {
    QuotientTimesDivisor(f - a, s);
    var e := (f - a) / s;
    if a + s * p == f {
      assert s * (p - e) == 0.0;
      ProductZero(s, p - e);
    }
  }

  /** The query's variance is the binomial variance f (1 - f) / (n - 1) of
      the observed frequency, scaled by the square of 1 / (τ - ratio), the
      slope of the estimate. */
  lemma QueryVarianceScales(count: int, n: int, hTau: real, queries: int)
    requires QueryEstimate(count, n, hTau, queries).Ok?
    ensures QueryEstimate(count, n, hTau, queries).value.1 * Square(hTau - Ratio(hTau, queries)) ==
      BinomialVariance(Frequency(count, n), n)
  {
    assert n != 1 && queries != 1 && hTau - Ratio(hTau, queries) != 0.0 by {
      QueryEstimateParts(count, n, hTau, queries);
    }
    var f := Frequency(count, n);
    assert QueryEstimate(count, n, hTau, queries).value.1 == QueryVariance(f, hTau, queries, n) by {
      QueryEstimateParts(count, n, hTau, queries);
    }
    QueryVarianceOf(QueryEstimate(count, n, hTau, queries).value.1, f, hTau, queries, n);
  }

  /** For a count within the table the query's variance is never negative. */
  lemma QueryVarianceNonNegative(count: int, n: int, hTau: real, queries: int)
    requires QueryEstimate(count, n, hTau, queries).Ok? && 0 <= count <= n
    ensures QueryEstimate(count, n, hTau, queries).value.1 >= 0.0
  {
    QueryEstimateParts(count, n, hTau, queries);
    FractionOfCounts(count, n);
    QueryVarianceSign(Frequency(count, n), hTau, queries, n);
  }

  /** When it exists, the estimate is the pair of QueryProbability and
      QueryVariance at the observed frequency. */
  lemma QueryEstimateParts(count: int, n: int, hTau: real, queries: int)
    requires QueryEstimate(count, n, hTau, queries).Ok?
    ensures n != 0 && n != 1 && queries != 1 && hTau - Ratio(hTau, queries) != 0.0
    ensures QueryEstimate(count, n, hTau, queries).value ==
      (QueryProbability(Frequency(count, n), hTau, queries), QueryVariance(Frequency(count, n), hTau, queries, n))
  {
    RatioGap(hTau, queries);
  }

  lemma QueryVarianceOf(v: real, f: real, hTau: real, queries: int, n: int)
    requires queries != 1 && hTau - Ratio(hTau, queries) != 0.0 && n != 1
    requires v == QueryVariance(f, hTau, queries, n)
    ensures v * Square(hTau - Ratio(hTau, queries)) == BinomialVariance(f, n)
  {
    var s, m, b := Square(hTau - Ratio(hTau, queries)), n as real - 1.0, f * (1.0 - f);
    assert v == (1.0 / s) * b / m;
    CancelScale(b, s, m);
  }

  lemma QueryVarianceSign(f: real, hTau: real, queries: int, n: int)
    requires queries != 1 && hTau - Ratio(hTau, queries) != 0.0 && 1 < n && 0.0 <= f <= 1.0
    ensures QueryVariance(f, hTau, queries, n) >= 0.0
  {
    ScaledBinomialNonNegative(f, Square(hTau - Ratio(hTau, queries)), n as real - 1.0);
  }

  /** (1 / s) · f (1 - f) / m >= 0 for a fraction f and positive s, m. */
  lemma ScaledBinomialNonNegative(f: real, s: real, m: real)
    requires 0.0 <= f <= 1.0 && 0.0 < s && 0.0 < m
    ensures 0.0 <= (1.0 / s) * (f * (1.0 - f)) / m
  {
    ProductNonNegative(f, 1.0 - f);
    QuotientNonNegative(1.0, s);
    ProductNonNegative(1.0 / s, f * (1.0 - f));
    QuotientNonNegative((1.0 / s) * (f * (1.0 - f)), m);
  }

  // ---------------------------------------------------------------------
  // The url level (ClientURLStats)

  /** τ_q - (1 - τ_q) / (k - 1) for the head-list bucket `hq` of k urls:
      how much more often a url of the bucket is kept than any one other
      url of the bucket is drawn in its place. */
  function BucketGap(hq: UrlStatsMapping): real
    requires Size(hq) != 1
  {
    hq.tau - (1.0 - hq.tau) / (Size(hq) as real - 1.0)
  }

  /** τ · BucketGap: how much the frequency of a <q, u> report moves with
      the probability of u. */
  function Slope(hq: UrlStatsMapping, hTau: real): (r: real)
    requires Size(hq) != 1
    ensures r == 0.0 <==> hTau == 0.0 || BucketGap(hq) == 0.0
  {
    ProductZero(hTau, BucketGap(hq));
    hTau * BucketGap(hq)
  }

  /** The frequency of <q, u> among the reports when q has probability
      `queryProbability` and u, among q's k urls, has probability p:
      Figure 5, line 16, read forwards. */
  function ExpectedReport(hq: UrlStatsMapping, hTau: real, queries: int, queryProbability: real, p: real): real
    requires Size(hq) != 1 && Size(hq) != 0 && queries != 1
  {
    (1.0 - hq.tau) * hTau * queryProbability / (Size(hq) as real - 1.0)
      + (1.0 - hq.tau) * (1.0 - queryProbability) / ((queries - 1) * Size(hq)) as real
      + Slope(hq, hTau) * p
  }

  /** ClientURLStats.calculate_probability_relative_to: the url's
      probability from r_{c,q,u}, the frequency of <q, u> among the
      reports. A bucket of one url copies the head list's probability;
      otherwise it raises on a zero divisor. */
  function UrlProbability(hq: UrlStatsMapping, hTau: real, queries: int, queryProbability: real, rcqu: real): (r: Result<real>)
    ensures Size(hq) == 1 ==> r == Ok(hq.probability)
    ensures r.Err? <==> Size(hq) != 1 && (queries == 1 || Size(hq) == 0 || Slope(hq, hTau) == 0.0)
    ensures r.Err? ==> r.error == ZeroDivision
  {
    var k := Size(hq);
    if k == 1 then Ok(hq.probability)
    else
      var term2 := (1.0 - hq.tau) * hTau * queryProbability / (k as real - 1.0);
      WholeProductZero(queries - 1, k);
      if (queries - 1) * k == 0 then Err(ZeroDivision)
      else
        var term3 := (1.0 - hq.tau) * (1.0 - queryProbability) / ((queries - 1) * k) as real;
        var term4 := Slope(hq, hTau);
        if term4 == 0.0 then Err(ZeroDivision) else Ok((rcqu - term2 - term3) / term4)
  }

  /** The url's probability is the one p whose expected report frequency is
      the observed r_{c,q,u}. */
  lemma UrlProbabilityInverts(hq: UrlStatsMapping, hTau: real, queries: int, queryProbability: real, rcqu: real, p: real)
    requires Size(hq) != 1 && UrlProbability(hq, hTau, queries, queryProbability, rcqu).Ok?
    ensures ExpectedReport(hq, hTau, queries, queryProbability, p) == rcqu <==>
      p == UrlProbability(hq, hTau, queries, queryProbability, rcqu).value
  {
    var s := Slope(hq, hTau);
    var e := UrlProbability(hq, hTau, queries, queryProbability, rcqu).value;
    var base := ExpectedReport(hq, hTau, queries, queryProbability, 0.0);
    assert ExpectedReport(hq, hTau, queries, queryProbability, p) == base + s * p;
    assert s * e == rcqu - base;
    if base + s * p == rcqu {
      assert s * (p - e) == 0.0;
    }
  }

  /** The binomial variance of the report frequency r_{c,q,u} among the
      n pairs (Figure 5, line 17, term 1). */
  function BinomialTerm(n: int, rcqu: real): real
    requires n != 1
  {
    rcqu * (1.0 - rcqu) / (n as real - 1.0)
  }

  /** (1 - τ) / (Q - 1) / k: the share of reports that name one given
      url of the bucket after drawing another query. */
  function OtherQueryShare(hTau: real, queries: int, k: nat): real
    requires queries != 1 && k != 0
  {
    (1.0 - hTau) / (queries as real - 1.0) / k as real
  }

  /** (τ - τ τ_q) / (k - 1): the share that names one given other url of
      the bucket after keeping the query. */
  function SameQueryShare(hq: UrlStatsMapping, hTau: real): real
    requires Size(hq) != 1
  {
    (hTau - hTau * hq.tau) / (Size(hq) as real - 1.0)
  }

  /** The correction for the query's own estimate (term 2). */
  function CorrectionTerm(hq: UrlStatsMapping, hTau: real, queries: int, n: int, rcqu: real): real
    requires Size(hq) != 1 && Size(hq) != 0 && queries != 1 && n != 1 && queries as real * hTau != 1.0
  {
    var term2a := 2.0 * n as real / (n as real - 1.0);
    var term2d := QueryCorrection(hTau, queries, rcqu);
    term2a * (OtherQueryShare(hTau, queries, Size(hq)) - SameQueryShare(hq, hTau)) * term2d
  }

  function QueryCorrection(hTau: real, queries: int, rcqu: real): real
    requires queries as real * hTau != 1.0
  {
    rcqu * (queries as real - 2.0 + hTau) / (queries as real * hTau - 1.0)
  }

  /** The query's variance carried over (term 3). */
  function CarriedTerm(hq: UrlStatsMapping, hTau: real, queries: int, queryVariance: real): real
    requires Size(hq) != 1 && Size(hq) != 0 && queries != 1
  {
    (OtherQueryShare(hTau, queries, Size(hq)) - Square(SameQueryShare(hq, hTau))) * queryVariance
  }

  /** The variance of the report frequency r_{c,q,u} behind the url's
      estimate: terms 1 to 3 of Figure 5, line 17. */
  function ReportVariance(hq: UrlStatsMapping, hTau: real, queries: int, queryVariance: real, n: int, rcqu: real): real
    requires Size(hq) != 1 && Size(hq) != 0 && queries != 1 && n != 1 && queries as real * hTau != 1.0
  {
    BinomialTerm(n, rcqu) + CorrectionTerm(hq, hTau, queries, n, rcqu) + CarriedTerm(hq, hTau, queries, queryVariance)
  }

  /** ClientURLStats.calculate_variance_relative_to: a bucket of one url
      copies the head list's variance; otherwise it raises on a zero
      divisor, checked in the source's order. */
  function UrlVariance(hq: UrlStatsMapping, hTau: real, queries: int, queryVariance: real, n: int, rcqu: real): (r: Result<real>)
    ensures Size(hq) == 1 ==> r == Ok(hq.variance)
    ensures r.Err? <==>
      Size(hq) != 1 && (n == 1 || queries == 1 || Size(hq) == 0 || queries as real * hTau == 1.0 || Slope(hq, hTau) == 0.0)
    ensures r.Err? ==> r.error == ZeroDivision
  {
    var k := Size(hq);
    if k == 1 then Ok(hq.variance)
    else if n == 1 || queries == 1 || k == 0 || queries as real * hTau == 1.0 then Err(ZeroDivision)
    else if hTau == 0.0 || BucketGap(hq) == 0.0 then Err(ZeroDivision)
    else Ok(ReportVariance(hq, hTau, queries, queryVariance, n, rcqu) * (1.0 / Square(hTau) / Square(BucketGap(hq))))
  }

  /** The url's variance is the variance of its report frequency scaled by
      the square of 1 / Slope, the slope of the estimate. */
  lemma UrlVarianceScales(hq: UrlStatsMapping, hTau: real, queries: int, queryVariance: real, n: int, rcqu: real)
    requires Size(hq) != 1 && UrlVariance(hq, hTau, queries, queryVariance, n, rcqu).Ok?
    ensures UrlVariance(hq, hTau, queries, queryVariance, n, rcqu).value * Square(Slope(hq, hTau)) ==
      ReportVariance(hq, hTau, queries, queryVariance, n, rcqu)
  {
    var b := BucketGap(hq);
    var x := ReportVariance(hq, hTau, queries, queryVariance, n, rcqu);
    var t, s := Square(hTau), Square(b);
    assert Square(Slope(hq, hTau)) == t * s;
    assert 1.0 / t / s == 1.0 / (t * s);
    assert x * (1.0 / (t * s)) * (t * s) == x;
  }

  /** Once the query's own estimate exists, the url's variance raises
      exactly when its probability does. */
  lemma UrlVarianceDefinedWithProbability(hq: UrlStatsMapping, hTau: real, queries: int, count: int, n: int,
                                         queryProbability: real, queryVariance: real, rcqu: real)
    requires QueryEstimate(count, n, hTau, queries).Ok?
    ensures UrlVariance(hq, hTau, queries, queryVariance, n, rcqu).Ok? <==>
      UrlProbability(hq, hTau, queries, queryProbability, rcqu).Ok?
  {
  }

  // ---------------------------------------------------------------------
  // The loop over the head list's urls (ClientQuery, Figure 5, lines 14-17)

  /** The estimate calculation fails for every url of a head-list bucket
      `hq` alike: the client table is empty, or (for a bucket of other
      than one url) some divisor of the two formulas is 0. */
  predicate UrlEstimateFails(hq: UrlStatsMapping, hTau: real, queries: int, n: int) {
    n == 0 ||
    (Size(hq) != 1 && (n == 1 || queries == 1 || Size(hq) == 0 || queries as real * hTau == 1.0 || Slope(hq, hTau) == 0.0))
  }

  /** The leaf a url of `count` client reports gets: r_{c,q,u} = count / n,
      then its probability and its variance, against the query's own
      estimate and the head-list bucket `hq`. */
  function LeafEstimate(count: int, queryProbability: real, queryVariance: real, hq: UrlStatsMapping,
                        hTau: real, queries: int, n: int): (r: Result<UrlStats>)
    ensures r.Err? <==> UrlEstimateFails(hq, hTau, queries, n)
    ensures r.Err? ==> r.error == ZeroDivision
    ensures r.Ok? ==> r.value.count == count
  {
    if n == 0 then Err(ZeroDivision)
    else
      var rcqu := Frequency(count, n);
      var p :- UrlProbability(hq, hTau, queries, queryProbability, rcqu);
      var v :- UrlVariance(hq, hTau, queries, queryVariance, n, rcqu);
      Ok(UrlStats(count, p, v))
  }

  /** One iteration on the client bucket `b`: the read of `u` inserts a
      fresh leaf when `b` lacks it, and the leaf is given its estimate. */
  function UrlStep(b: UrlStatsMapping, hq: UrlStatsMapping, hTau: real, queries: int, n: int, u: string): (r: Result<UrlStatsMapping>)
    requires MappingValid(b)
    ensures r.Ok? ==> MappingValid(r.value)
  {
    var leaf :- LeafEstimate(UrlAt(b, u).count, b.probability, b.variance, hq, hTau, queries, n);
    Ok(b.(urls := OD.Put(b.urls, u, leaf)))
  }

  /** The loop over the urls `us`, in order. */
  function UrlsOver(b: UrlStatsMapping, hq: UrlStatsMapping, hTau: real, queries: int, n: int, us: seq<string>): (r: Result<UrlStatsMapping>)
    requires MappingValid(b)
    ensures r.Ok? ==> MappingValid(r.value)
  {
    if us == [] then Ok(b)
    else
      var prev :- UrlsOver(b, hq, hTau, queries, n, us[..|us| - 1]);
      UrlStep(prev, hq, hTau, queries, n, us[|us| - 1])
  }

  /** `r` is the client bucket `b` after the loop, as seen from url `v`:
      the bucket's own count, estimate and τ are kept, its urls are kept in
      their order (urls it lacked follow them), a visited url holds its
      estimate and any other leaf is unchanged. */
  ghost predicate Estimated(b: UrlStatsMapping, r: UrlStatsMapping, hq: UrlStatsMapping, hTau: real, queries: int, n: int,
                            visited: bool, v: string) {
    r.count == b.count && r.probability == b.probability && r.variance == b.variance && r.tau == b.tau &&
    |b.urls.keys| <= |r.urls.keys| && r.urls.keys[..|b.urls.keys|] == b.urls.keys &&
    (v in r.urls.items <==> v in b.urls.items || visited) &&
    (visited ==> Ok(UrlAt(r, v)) == LeafEstimate(UrlAt(b, v).count, b.probability, b.variance, hq, hTau, queries, n)) &&
    (!visited ==> UrlAt(r, v) == UrlAt(b, v))
  }

  /** The loop fails exactly when there is a url to visit and the estimate
      fails; otherwise every visited url, and only those, gets its
      estimate. */
  lemma {:induction false} UrlsOverAt(b: UrlStatsMapping, hq: UrlStatsMapping, hTau: real, queries: int, n: int,
                                     us: seq<string>, v: string)
    requires MappingValid(b)
    ensures UrlsOver(b, hq, hTau, queries, n, us).Err? <==> us != [] && UrlEstimateFails(hq, hTau, queries, n)
    ensures UrlsOver(b, hq, hTau, queries, n, us).Ok? ==>
      Estimated(b, UrlsOver(b, hq, hTau, queries, n, us).value, hq, hTau, queries, n, v in us, v)
  {
    if us != [] {
      var init, last := us[..|us| - 1], us[|us| - 1];
      assert us == init + [last];
      UrlsOverAt(b, hq, hTau, queries, n, init, v);
      UrlsOverAt(b, hq, hTau, queries, n, init, last);
      var prev := UrlsOver(b, hq, hTau, queries, n, init);
      if prev.Ok? && !UrlEstimateFails(hq, hTau, queries, n) {
        UrlStepAt(b, prev.value, hq, hTau, queries, n, last, v, v in init, last in init);
        assert UrlsOver(b, hq, hTau, queries, n, us) == UrlStep(prev.value, hq, hTau, queries, n, last);
        assert v in us <==> v in init || v == last;
      }
    }
  }

  /** The inductive step of UrlsOverAt. */
  lemma UrlStepAt(b: UrlStatsMapping, prev: UrlStatsMapping, hq: UrlStatsMapping, hTau: real, queries: int, n: int,
                  u: string, v: string, before: bool, uBefore: bool)
    requires MappingValid(prev) && !UrlEstimateFails(hq, hTau, queries, n)
    requires Estimated(b, prev, hq, hTau, queries, n, before, v)
    requires Estimated(b, prev, hq, hTau, queries, n, uBefore, u)
    ensures UrlStep(prev, hq, hTau, queries, n, u).Ok?
    ensures Estimated(b, UrlStep(prev, hq, hTau, queries, n, u).value, hq, hTau, queries, n, before || v == u, v)
  {
    var r := UrlStep(prev, hq, hTau, queries, n, u).value;
    assert r.urls.keys[..|b.urls.keys|] == b.urls.keys by {
      assert prev.urls.keys[..|b.urls.keys|] == b.urls.keys;
    }
  }

  lemma UrlsOverStep(b: UrlStatsMapping, hq: UrlStatsMapping, hTau: real, queries: int, n: int, us: seq<string>, i: int)
    requires MappingValid(b) && 0 <= i < |us|
    ensures UrlsOver(b, hq, hTau, queries, n, us[..i + 1]) ==
      (var prev := UrlsOver(b, hq, hTau, queries, n, us[..i]);
       if prev.Err? then prev else UrlStep(prev.value, hq, hTau, queries, n, us[i]))
  {
    assert us[..i + 1][..i] == us[..i];
  }

  /** Once the loop fails it stays failed. */
  lemma {:induction false} UrlsOverErr(b: UrlStatsMapping, hq: UrlStatsMapping, hTau: real, queries: int, n: int,
                                      us: seq<string>, i: int)
    requires MappingValid(b) && 0 <= i <= |us|
    requires UrlsOver(b, hq, hTau, queries, n, us[..i]).Err?
    ensures UrlsOver(b, hq, hTau, queries, n, us) == UrlsOver(b, hq, hTau, queries, n, us[..i])
    decreases |us| - i
  {
    if i < |us| {
      UrlsOverStep(b, hq, hTau, queries, n, us, i);
      UrlsOverErr(b, hq, hTau, queries, n, us, i + 1);
    } else {
      assert us[..i] == us;
    }
  }

  /** The url loop of ClientQuery.calculate_probabilities_relative_to over
      the urls of the head-list bucket `hq`; the first ZeroDivisionError
      ends it. */
  method EstimateUrls(b: UrlStatsMapping, hq: UrlStatsMapping, hTau: real, queries: int, n: int)
    returns (r: Result<UrlStatsMapping>)
    requires MappingValid(b)
    ensures r == UrlsOver(b, hq, hTau, queries, n, hq.urls.keys)
  {
    var bucket := b;
    var urls := hq.urls.keys;
    for i := 0 to |urls|
      invariant MappingValid(bucket)
      invariant UrlsOver(b, hq, hTau, queries, n, urls[..i]) == Ok(bucket)
    {
      UrlsOverStep(b, hq, hTau, queries, n, urls, i);
      var u := urls[i];
      var leaf := LeafEstimate(UrlAt(bucket, u).count, bucket.probability, bucket.variance, hq, hTau, queries, n);
      if leaf.Err? {
        UrlsOverErr(b, hq, hTau, queries, n, urls, i + 1);
        return Err(leaf.error);
      }
      bucket := bucket.(urls := OD.Put(bucket.urls, u, leaf.value));
    }
    assert urls[..|urls|] == urls;
    r := Ok(bucket);
  }

  // ---------------------------------------------------------------------
  // The query level and the loop over the client's queries (Figure 4)

  /** ClientQuery.calculate_probabilities_relative_to on the client bucket
      `cb` of query `q`, against the head list `h` as it stands: the
      query's estimate with the head list's number of queries, then the
      read of `q` in the head list (a missing query becomes an empty
      bucket) and the loop over that bucket's urls. */
  function QueryStep(h: Table, hTau: real, cb: UrlStatsMapping, n: int, q: string): (r: Result<UrlStatsMapping>)
    requires TableValid(h) && MappingValid(cb)
    ensures r.Ok? ==> MappingValid(r.value)
  {
    var pv :- QueryEstimate(cb.count, n, hTau, |h.keys|);
    var h' := Read(h, q);
    var hq := MappingAt(h', q);
    UrlsOver(cb.(probability := pv.0, variance := pv.1), hq, hTau, |h'.keys|, n, hq.urls.keys)
  }

  /** For a query the head list holds, the step fails exactly when the
      query's estimate does or when the head-list bucket has urls and their
      estimate fails; otherwise the client bucket keeps its count and τ,
      holds the query's estimate, gains the head-list bucket's urls, each
      with its estimate, and keeps its other leaves. */
  lemma QueryStepAt(h: Table, hTau: real, cb: UrlStatsMapping, n: int, q: string, v: string)
    requires TableValid(h) && MappingValid(cb) && q in h.items
    ensures var hq, e := h.items[q], QueryEstimate(cb.count, n, hTau, |h.keys|);
      QueryStep(h, hTau, cb, n, q).Err? <==> e.Err? || (Size(hq) != 0 && UrlEstimateFails(hq, hTau, |h.keys|, n))
    ensures var hq, e := h.items[q], QueryEstimate(cb.count, n, hTau, |h.keys|);
      QueryStep(h, hTau, cb, n, q).Ok? ==>
        var r := QueryStep(h, hTau, cb, n, q).value;
        r.count == cb.count && r.tau == cb.tau && r.probability == e.value.0 && r.variance == e.value.1 &&
        |cb.urls.keys| <= |r.urls.keys| && r.urls.keys[..|cb.urls.keys|] == cb.urls.keys &&
        (v in r.urls.items <==> v in cb.urls.items || v in hq.urls.items) &&
        (v in hq.urls.items ==>
           Ok(UrlAt(r, v)) == LeafEstimate(UrlAt(cb, v).count, e.value.0, e.value.1, hq, hTau, |h.keys|, n)) &&
        (v !in hq.urls.items ==> UrlAt(r, v) == UrlAt(cb, v))
  {
    var e := QueryEstimate(cb.count, n, hTau, |h.keys|);
    if e.Ok? {
      var hq := h.items[q];
      var b := cb.(probability := e.value.0, variance := e.value.1);
      assert Read(h, q) == h;
      UrlsOverAt(b, hq, hTau, |h.keys|, n, hq.urls.keys, v);
    }
  }

  /** The loop over the client's queries `qs` (Figure 4, lines 10-12),
      threading the head list, which grows by an empty bucket for each
      query it lacks, and the client table, whose buckets get their
      estimates. */
  function ClientOver(h: Table, hTau: real, c: Table, n: int, qs: seq<string>): (r: Result<(Table, Table)>)
    requires TableValid(h) && TableValid(c)
    ensures r.Ok? ==> TableValid(r.value.0) && TableValid(r.value.1)
  {
    if qs == [] then Ok((h, c))
    else
      var prev :- ClientOver(h, hTau, c, n, qs[..|qs| - 1]);
      var q := qs[|qs| - 1];
      var b :- QueryStep(prev.0, hTau, MappingAt(prev.1, q), n, q);
      Ok((Read(prev.0, q), OD.Put(prev.1, q, b)))
  }

  /** ClientQueryCollection.calculate_probabilities: the head list must
      hold at least as many queries as the client table, which is then
      estimated relative to itself (its count is `n`). */
  function ClientProbabilities(h: Table, hTau: real, c: Table, n: int): (r: Result<(Table, Table)>)
    requires TableValid(h) && TableValid(c)
    ensures |h.keys| < |c.keys| ==> r == Err(AssertionFailed)
    ensures r.Ok? ==> TableValid(r.value.0) && TableValid(r.value.1)
  {
    if |h.keys| < |c.keys| then Err(AssertionFailed) else ClientOver(h, hTau, c, n, c.keys)
  }

  /** The head list after reading the queries `qs` in order. */
  function ReadEach(h: Table, qs: seq<string>): (r: Table)
    requires TableValid(h)
    ensures TableValid(r)
  {
    if qs == [] then h else Read(ReadEach(h, qs[..|qs| - 1]), qs[|qs| - 1])
  }

  /** Reading queries only adds empty buckets for the missing ones, after
      the head list's own queries. */
  lemma {:induction false} ReadEachAt(h: Table, qs: seq<string>, x: string)
    requires TableValid(h)
    ensures x in ReadEach(h, qs).items <==> x in h.items || x in qs
    ensures MappingAt(ReadEach(h, qs), x) == MappingAt(h, x)
    ensures |h.keys| <= |ReadEach(h, qs).keys| && ReadEach(h, qs).keys[..|h.keys|] == h.keys
  {
    if qs != [] {
      var init := qs[..|qs| - 1];
      assert qs == init + [qs[|qs| - 1]];
      ReadEachAt(h, init, x);
    }
  }

  /** ... and reading queries the head list holds changes nothing. */
  lemma {:induction false} ReadEachHeld(h: Table, qs: seq<string>)
    requires TableValid(h) && forall q :: q in qs ==> q in h.items
    ensures ReadEach(h, qs) == h
  {
    if qs != [] {
      var init := qs[..|qs| - 1];
      assert forall q :: q in init ==> q in qs;
      ReadEachHeld(h, init);
    }
  }

  /** Whatever the client holds, the loop's head list is the head list
      after the reads of the visited queries. */
  lemma {:induction false} ClientOverHeadList(h: Table, hTau: real, c: Table, n: int, qs: seq<string>)
    requires TableValid(h) && TableValid(c)
    ensures ClientOver(h, hTau, c, n, qs).Ok? ==> ClientOver(h, hTau, c, n, qs).value.0 == ReadEach(h, qs)
  {
    if qs != [] {
      ClientOverHeadList(h, hTau, c, n, qs[..|qs| - 1]);
    }
  }

  /** Some visited query's estimate fails against the head list `h`. */
  ghost predicate AnyQueryFails(h: Table, hTau: real, c: Table, n: int, qs: seq<string>)
    requires TableValid(h) && TableValid(c)
  {
    exists q :: q in qs && QueryStep(h, hTau, MappingAt(c, q), n, q).Err?
  }

  /** `r` is the pair of head list and client table after the loop, as
      seen from query `x`: the head list as it was, the client's queries
      in their order, a visited bucket holding its estimate and any other
      bucket unchanged. */
  ghost predicate QueriesEstimated(h: Table, hTau: real, c: Table, n: int, r: (Table, Table), visited: bool, x: string)
    requires TableValid(h) && TableValid(c)
  {
    r.0 == h && r.1.keys == c.keys && (x in r.1.items <==> x in c.items) &&
    (visited ==> Ok(MappingAt(r.1, x)) == QueryStep(h, hTau, MappingAt(c, x), n, x)) &&
    (!visited ==> MappingAt(r.1, x) == MappingAt(c, x))
  }

  /** When the head list holds every visited query (as it does for a
      client table built from LocalAlg's reports), the loop leaves the head
      list as it is, fails exactly when some query's estimate fails, and
      otherwise gives every visited bucket, and only those, its estimate. */
  lemma {:induction false} ClientOverAt(h: Table, hTau: real, c: Table, n: int, qs: seq<string>, x: string)
    requires TableValid(h) && TableValid(c) && OD.Distinct(qs)
    requires forall q :: q in qs ==> q in h.items && q in c.items
    ensures ClientOver(h, hTau, c, n, qs).Err? <==> AnyQueryFails(h, hTau, c, n, qs)
    ensures ClientOver(h, hTau, c, n, qs).Ok? ==>
      QueriesEstimated(h, hTau, c, n, ClientOver(h, hTau, c, n, qs).value, x in qs, x)
  {
    if qs != [] {
      var init, last := qs[..|qs| - 1], qs[|qs| - 1];
      assert qs == init + [last];
      OD.DistinctSnoc(init, last);
      assert forall q :: q in init ==> q in qs;
      ClientOverAt(h, hTau, c, n, init, x);
      ClientOverAt(h, hTau, c, n, init, last);
      ClientOverSnoc(h, hTau, c, n, init, last, x);
    }
  }

  /** The inductive step of ClientOverAt, for qs = init + [last]. */
  lemma ClientOverSnoc(h: Table, hTau: real, c: Table, n: int, init: seq<string>, last: string, x: string)
    requires TableValid(h) && TableValid(c) && last !in init
    requires last in h.items && last in c.items
    requires ClientOver(h, hTau, c, n, init).Err? <==> AnyQueryFails(h, hTau, c, n, init)
    requires ClientOver(h, hTau, c, n, init).Ok? ==>
      QueriesEstimated(h, hTau, c, n, ClientOver(h, hTau, c, n, init).value, x in init, x) &&
      QueriesEstimated(h, hTau, c, n, ClientOver(h, hTau, c, n, init).value, false, last)
    ensures ClientOver(h, hTau, c, n, init + [last]).Err? <==> AnyQueryFails(h, hTau, c, n, init + [last])
    ensures ClientOver(h, hTau, c, n, init + [last]).Ok? ==>
      QueriesEstimated(h, hTau, c, n, ClientOver(h, hTau, c, n, init + [last]).value, x in init + [last], x)
  {
    var qs := init + [last];
    assert qs[..|qs| - 1] == init && qs[|qs| - 1] == last;
    assert AnyQueryFails(h, hTau, c, n, qs) <==>
      AnyQueryFails(h, hTau, c, n, init) || QueryStep(h, hTau, MappingAt(c, last), n, last).Err?;
  }

  /** calculate_probabilities on a client table whose queries the head
      list all holds: the assertion holds, the head list is left as it is,
      the call fails exactly when some query's estimate fails, and every
      client bucket holds its estimate. */
  lemma ClientProbabilitiesAt(h: Table, hTau: real, c: Table, n: int, x: string)
    requires TableValid(h) && TableValid(c) && forall q :: q in c.items ==> q in h.items
    ensures ClientProbabilities(h, hTau, c, n).Err? <==> AnyQueryFails(h, hTau, c, n, c.keys)
    ensures ClientProbabilities(h, hTau, c, n).Ok? ==>
      QueriesEstimated(h, hTau, c, n, ClientProbabilities(h, hTau, c, n).value, x in c.items, x)
  {
    OD.DistinctSubsetLength(c.keys, h.keys);
    ClientOverAt(h, hTau, c, n, c.keys, x);
  }

  /** What the client table holds after a successful calculate_probabilities:
      for each client query x, the query's estimate from its count of
      reports among the n and the head list's number of queries; for each
      url the head list holds under x, the leaf estimate from its own count;
      every other leaf as it was. */
  lemma ClientEstimates(h: Table, hTau: real, c: Table, n: int, x: string, v: string)
    requires TableValid(h) && TableValid(c) && forall q :: q in c.items ==> q in h.items
    requires x in c.items && ClientProbabilities(h, hTau, c, n).Ok?
    ensures var t := ClientProbabilities(h, hTau, c, n).value.1;
      var e := QueryEstimate(c.items[x].count, n, hTau, |h.keys|);
      x in t.items && e.Ok? &&
      t.items[x].count == c.items[x].count && t.items[x].probability == e.value.0 && t.items[x].variance == e.value.1 &&
      (v in t.items[x].urls.items <==> v in c.items[x].urls.items || v in h.items[x].urls.items) &&
      (v in h.items[x].urls.items ==>
         Ok(UrlAt(t.items[x], v)) == LeafEstimate(UrlAt(c.items[x], v).count, e.value.0, e.value.1, h.items[x], hTau, |h.keys|, n)) &&
      (v !in h.items[x].urls.items ==> UrlAt(t.items[x], v) == UrlAt(c.items[x], v))
  {
    ClientProbabilitiesAt(h, hTau, c, n, x);
    QueryStepAt(h, hTau, c.items[x], n, x, v);
  }

  lemma ClientOverStep(h: Table, hTau: real, c: Table, n: int, qs: seq<string>, i: int)
    requires TableValid(h) && TableValid(c) && 0 <= i < |qs|
    ensures ClientOver(h, hTau, c, n, qs[..i + 1]) ==
      (var prev := ClientOver(h, hTau, c, n, qs[..i]);
       if prev.Err? then prev
       else
         var b := QueryStep(prev.value.0, hTau, MappingAt(prev.value.1, qs[i]), n, qs[i]);
         if b.Err? then Err(b.error) else Ok((Read(prev.value.0, qs[i]), OD.Put(prev.value.1, qs[i], b.value))))
  {
    assert qs[..i + 1][..i] == qs[..i];
  }

  /** Once the loop fails it stays failed. */
  lemma {:induction false} ClientOverErr(h: Table, hTau: real, c: Table, n: int, qs: seq<string>, i: int)
    requires TableValid(h) && TableValid(c) && 0 <= i <= |qs|
    requires ClientOver(h, hTau, c, n, qs[..i]).Err?
    ensures ClientOver(h, hTau, c, n, qs) == ClientOver(h, hTau, c, n, qs[..i])
    decreases |qs| - i
  {
    if i < |qs| {
      ClientOverStep(h, hTau, c, n, qs, i);
      ClientOverErr(h, hTau, c, n, qs, i + 1);
    } else {
      assert qs[..i] == qs;
    }
  }

  /** ClientQuery.calculate_probabilities_relative_to, computing as the
      source does: the query's estimate, the read of the head list, then
      the url loop. */
  method EstimateQuery(h: Table, hTau: real, cb: UrlStatsMapping, n: int, q: string)
    returns (h': Table, r: Result<UrlStatsMapping>)
    requires TableValid(h) && MappingValid(cb)
    ensures r == QueryStep(h, hTau, cb, n, q)
    ensures r.Ok? ==> h' == Read(h, q)
  {
    var pv := QueryEstimate(cb.count, n, hTau, |h.keys|);
    if pv.Err? {
      return h, Err(pv.error);
    }
    h' := Read(h, q);
    var hq := MappingAt(h', q);
    r := EstimateUrls(cb.(probability := pv.value.0, variance := pv.value.1), hq, hTau, |h'.keys|, n);
  }

  /** The loop of ClientQueryCollection.calculate_probabilities_relative_to
      over the client's queries; the first error ends it. */
  method EstimateQueries(h: Table, hTau: real, c: Table, n: int) returns (r: Result<(Table, Table)>)
    requires TableValid(h) && TableValid(c)
    ensures r == ClientOver(h, hTau, c, n, c.keys)
  {
    var head, client := h, c;
    var keys := c.keys;
    for i := 0 to |keys|
      invariant TableValid(head) && TableValid(client)
      invariant ClientOver(h, hTau, c, n, keys[..i]) == Ok((head, client))
    {
      ClientOverStep(h, hTau, c, n, keys, i);
      var q := keys[i];
      var head', b := EstimateQuery(head, hTau, MappingAt(client, q), n, q);
      if b.Err? {
        ClientOverErr(h, hTau, c, n, keys, i + 1);
        return Err(b.error);
      }
      head, client := head', OD.Put(client, q, b.value);
    }
    assert keys[..|keys|] == keys;
    r := Ok((head, client));
  }

  /** ClientQueryCollection.calculate_probabilities(head_list) on the
      client table `client`: the head list's table and the client's are
      changed as ClientProbabilities says; when it raises, both are left as
      they were.  Counts and the head list's own τ and index do not move. */
  method CalculateProbabilities(client: QueryUrlMapping, headList: HeadList) returns (status: Outcome)
    requires client.Valid() && headList.Valid() && client != headList.table
    modifies client, headList.table
    ensures client.Valid() && headList.Valid()
    ensures client.count == old(client.count) && headList.table.count == old(headList.table.count)
    ensures var r := ClientProbabilities(old(headList.table.queries), headList.tau, old(client.queries), old(client.count));
      (status == Done <==> r.Ok?) &&
      (r.Ok? ==> headList.table.queries == r.value.0 && client.queries == r.value.1) &&
      (r.Err? ==> status == Raised(r.error) && headList.table.queries == old(headList.table.queries) &&
                  client.queries == old(client.queries))
  {
    if |headList.table.queries.keys| < |client.queries.keys| {
      return Raised(AssertionFailed);
    }
    var r := EstimateQueries(headList.table.queries, headList.tau, client.queries, client.count);
    if r.Err? {
      return Raised(r.error);
    }
    headList.table.queries, client.queries := r.value.0, r.value.1;
    status := Done;
  }
}
