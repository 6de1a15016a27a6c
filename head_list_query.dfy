/** HeadListQuery, the bucket of the head list (head_list.py): a url mapping
    that also carries a τ, computes its leaves' probabilities against the
    opt-in table and absorbs the probability of leaves that are truncated
    away.  Buckets are values; the loop of calculate_probability_relative_to
    is a method over a bucket value. */
module HeadListQueries {
  import opened Wrappers
  import OD = OrderedDict
  import opened InMemoryStructures
  import opened Budget

  /** The probability mass held by a bucket's leaves. */
  function LeafProbabilityTotal(b: UrlStatsMapping): real {
    OD.Sum(b.urls, LeafProbability)
  }

  /** HeadListQuery.calculate_tau: the bucket's τ for the url part of the
      client budget, from the bucket's own count. */
  function WithTau(b: UrlStatsMapping, expEpsilonPrimeU: real, deltaPrimeU: real): (r: Result<UrlStatsMapping>)
    ensures r.Err? <==> expEpsilonPrimeU + b.count as real - 1.0 == 0.0
    ensures r.Ok? ==> r.value == b.(tau := r.value.tau)
    ensures r.Ok? ==> (r.value.tau * (expEpsilonPrimeU + b.count as real - 1.0) ==
      expEpsilonPrimeU + (deltaPrimeU / 2.0) * (b.count as real - 1.0))
  {
    var tau :- Tau(expEpsilonPrimeU, deltaPrimeU, b.count as real);
    Ok(b.(tau := tau))
  }

  /** A bucket with at least one repetition gets a τ in (0, 1], and 1 when
      it holds a single repetition. */
  lemma BucketTauIsProbability(b: UrlStatsMapping, expEpsilonPrimeU: real, deltaPrimeU: real)
    requires 0.0 < expEpsilonPrimeU && 1 <= b.count && 0.0 <= deltaPrimeU <= 2.0
    ensures WithTau(b, expEpsilonPrimeU, deltaPrimeU).Ok?
    ensures 0.0 < WithTau(b, expEpsilonPrimeU, deltaPrimeU).value.tau <= 1.0
    ensures b.count == 1 ==> WithTau(b, expEpsilonPrimeU, deltaPrimeU).value.tau == 1.0
  {
    TauIsProbability(expEpsilonPrimeU, deltaPrimeU, b.count as real);
  }

  /** HeadListQuery.subsume(query, url) called on `sink`: the sink's
      probability grows by the probability of `source`'s leaf `url`, which
      drops to 0 (a missing url is created by the read).  Counts do not
      move: a head list holds each pair once. */
  function Absorb(sink: UrlStatsMapping, source: UrlStatsMapping, url: string): (r: (UrlStatsMapping, UrlStatsMapping))
    requires MappingValid(source)
    ensures MappingValid(r.1)
    ensures r.0 == sink.(probability := sink.probability + UrlAt(source, url).probability)
    ensures r.1.urls.items == source.urls.items[url := UrlAt(source, url).(probability := 0.0)]
    ensures r.1.urls.keys == if url in source.urls.items then source.urls.keys else source.urls.keys + [url]
    ensures r.1 == source.(urls := r.1.urls)
    ensures r.0.probability + LeafProbabilityTotal(r.1) == sink.probability + LeafProbabilityTotal(source)
    ensures UrlCountTotal(r.1) == UrlCountTotal(source)
  {
    var leaf := UrlAt(source, url);
    OD.SumPut(source.urls, url, leaf.(probability := 0.0), LeafProbability);
    OD.SumPut(source.urls, url, leaf.(probability := 0.0), LeafCount);
    (sink.(probability := sink.probability + leaf.probability),
     source.(urls := OD.Put(source.urls, url, leaf.(probability := 0.0))))
  }

  /** One iteration of HeadListQuery.calculate_probability_relative_to:
      the leaf of `url` gets its probability relative to the opt-in table
      `other` (whose count is `n`) with the draw `y`, and the bucket's
      probability grows by it (update_probability). */
  function ProbabilityStep(b: UrlStatsMapping, q: string, url: string, other: Table, n: int, y: real): (r: Result<UrlStatsMapping>)
    requires MappingValid(b)
    ensures r.Err? <==> n == 0
    ensures r.Ok? ==> MappingValid(r.value)
  {
    var p :- ProbabilityRelativeTo(LeafAt(other, q, url).count, n, y);
    var leaf := UrlAt(b, url).(probability := p);
    Ok(UpdateProbability(b.(urls := OD.Put(b.urls, url, leaf)), leaf))
  }

  /** The loop over the urls `us`, in order; each url of the bucket has its
      own Laplace draw `noise(q, url)`. */
  function ProbabilitiesOfUrls(b: UrlStatsMapping, q: string, us: seq<string>, other: Table, n: int,
                               noise: (string, string) -> real): (r: Result<UrlStatsMapping>)
    requires MappingValid(b)
    ensures r.Ok? ==> MappingValid(r.value)
  {
    if us == [] then Ok(b)
    else
      var prev :- ProbabilitiesOfUrls(b, q, us[..|us| - 1], other, n, noise);
      ProbabilityStep(prev, q, us[|us| - 1], other, n, noise(q, us[|us| - 1]))
  }

  /** HeadListQuery.calculate_probability_relative_to on the bucket of `q`. */
  function BucketProbabilities(b: UrlStatsMapping, q: string, other: Table, n: int,
                               noise: (string, string) -> real): (r: Result<UrlStatsMapping>)
    requires MappingValid(b)
    ensures r.Ok? ==> MappingValid(r.value)
  {
    ProbabilitiesOfUrls(b, q, b.urls.keys, other, n, noise)
  }

  /** The urls listed in `us` are the bucket's own, once each. */
  ghost predicate UrlsOf(b: UrlStatsMapping, us: seq<string>) {
    OD.Distinct(us) && forall u :: u in us ==> u in b.urls.items
  }

  /** One step sets the visited leaf's probability to the one its opt-in
      pair gives (p · n = count · y), keeps its count and variance, keeps every other
      leaf and the bucket's urls, count, variance and τ. */
  lemma ProbabilityStepAt(b: UrlStatsMapping, q: string, url: string, other: Table, n: int, y: real, v: string)
    requires MappingValid(b) && url in b.urls.items && n != 0
    ensures var r := ProbabilityStep(b, q, url, other, n, y).value;
      r.urls.keys == b.urls.keys && r.count == b.count && r.variance == b.variance && r.tau == b.tau &&
      (v in r.urls.items <==> v in b.urls.items) &&
      UrlAt(r, v).count == UrlAt(b, v).count && UrlAt(r, v).variance == UrlAt(b, v).variance &&
      (v == url ==> UrlAt(r, v).probability == ProbabilityRelativeTo(LeafAt(other, q, v).count, n, y).value) &&
      (v != url ==> UrlAt(r, v).probability == UrlAt(b, v).probability)
    ensures var r := ProbabilityStep(b, q, url, other, n, y).value;
      r.probability - LeafProbabilityTotal(r) == b.probability - LeafProbabilityTotal(b) + UrlAt(b, url).probability
  {
    var p := ProbabilityRelativeTo(LeafAt(other, q, url).count, n, y).value;
    var leaf := UrlAt(b, url).(probability := p);
    OD.SumPut(b.urls, url, leaf, LeafProbability);
  }

  /** Going through urls of the bucket fails exactly when the opt-in table
      is empty and there is a url to go through; otherwise it keeps the
      bucket's urls, counts, variances and τ, gives every visited leaf the
      probability its opt-in pair gives with its own draw (p · n = count · y),
      and leaves the other leaves alone. */
  lemma {:induction false} ProbabilitiesOfUrlsAt(b: UrlStatsMapping, q: string, us: seq<string>, other: Table, n: int,
                                                noise: (string, string) -> real, v: string)
    requires MappingValid(b) && forall u :: u in us ==> u in b.urls.items
    ensures ProbabilitiesOfUrls(b, q, us, other, n, noise).Err? <==> n == 0 && us != []
    ensures ProbabilitiesOfUrls(b, q, us, other, n, noise).Ok? ==>
      Recomputed(b, ProbabilitiesOfUrls(b, q, us, other, n, noise).value, q, v in us, v, other, n, noise(q, v))
  {
    if us != [] {
      var init, last := us[..|us| - 1], us[|us| - 1];
      assert us == init + [last];
      assert forall u :: u in init ==> u in us;
      var prev := ProbabilitiesOfUrls(b, q, init, other, n, noise);
      ProbabilitiesOfUrlsAt(b, q, init, other, n, noise, v);
      ProbabilitiesOfUrlsAt(b, q, init, other, n, noise, last);
      if prev.Ok? && n != 0 {
        var r := ProbabilityStep(prev.value, q, last, other, n, noise(q, last));
        assert ProbabilitiesOfUrls(b, q, us, other, n, noise) == r;
        ProbabilityStepAt(prev.value, q, last, other, n, noise(q, last), v);
        assert v in us <==> v in init || v == last;
        if v == last {
          assert noise(q, v) == noise(q, last);
        } else {
          assert UrlAt(r.value, v) == UrlAt(prev.value, v);
        }
      }
    }
  }

  /** `r` is `b` with the leaf of `v` recomputed (when `visited`) from its
      opt-in pair and the draw `y`, and everything else as it was. */
  ghost predicate Recomputed(b: UrlStatsMapping, r: UrlStatsMapping, q: string, visited: bool, v: string,
                             other: Table, n: int, y: real) {
    r.urls.keys == b.urls.keys && r.count == b.count && r.variance == b.variance && r.tau == b.tau &&
    (v in r.urls.items <==> v in b.urls.items) &&
    UrlAt(r, v).count == UrlAt(b, v).count && UrlAt(r, v).variance == UrlAt(b, v).variance &&
    (visited ==> Ok(UrlAt(r, v).probability) == ProbabilityRelativeTo(LeafAt(other, q, v).count, n, y)) &&
    (!visited ==> UrlAt(r, v).probability == UrlAt(b, v).probability)
  }

  /** ... and raises the bucket's probability by what the visited leaves
      gain over what they held. */
  lemma {:induction false} ProbabilitiesOfUrlsGain(b: UrlStatsMapping, q: string, us: seq<string>, other: Table, n: int,
                                                  noise: (string, string) -> real)
    requires MappingValid(b) && UrlsOf(b, us)
    ensures ProbabilitiesOfUrls(b, q, us, other, n, noise).Ok? ==>
      var r := ProbabilitiesOfUrls(b, q, us, other, n, noise).value;
      r.probability - LeafProbabilityTotal(r) ==
        b.probability - LeafProbabilityTotal(b) + ProbabilitiesOf(b, us)
  {
    if us != [] {
      var init, last := us[..|us| - 1], us[|us| - 1];
      assert us == init + [last];
      OD.DistinctSnoc(init, last);
      assert UrlsOf(b, init) by {
        assert forall u :: u in init ==> u in us;
      }
      ProbabilitiesOfUrlsGain(b, q, init, other, n, noise);
      ProbabilitiesOfUrlsAt(b, q, init, other, n, noise, last);
      var prev := ProbabilitiesOfUrls(b, q, init, other, n, noise);
      if prev.Ok? && n != 0 {
        ProbabilityStepAt(prev.value, q, last, other, n, noise(q, last), last);
        ProbabilitiesOfStep(b, init, last);
      }
    }
  }

  /** The probabilities the leaves listed in `us` hold before they are recomputed. */
  function ProbabilitiesOf(b: UrlStatsMapping, us: seq<string>): real {
    if us == [] then 0.0 else ProbabilitiesOf(b, us[..|us| - 1]) + UrlAt(b, us[|us| - 1]).probability
  }

  lemma ProbabilitiesOfStep(b: UrlStatsMapping, us: seq<string>, u: string)
    ensures ProbabilitiesOf(b, us + [u]) == ProbabilitiesOf(b, us) + UrlAt(b, u).probability
  {
    assert (us + [u])[..|us|] == us;
  }

  /** For a bucket whose leaves all start at probability 0 (as the head
      list's do), calculate_probability_relative_to leaves the bucket's
      probability equal to its old probability plus the sum of its new
      leaf probabilities. */
  lemma BucketProbabilitiesTotal(b: UrlStatsMapping, q: string, other: Table, n: int, noise: (string, string) -> real)
    requires MappingValid(b) && LeafProbabilityTotal(b) == 0.0
    requires forall u :: u in b.urls.items ==> b.urls.items[u].probability == 0.0
    ensures BucketProbabilities(b, q, other, n, noise).Ok? ==>
      BucketProbabilities(b, q, other, n, noise).value.probability ==
        b.probability + LeafProbabilityTotal(BucketProbabilities(b, q, other, n, noise).value)
  {
    assert UrlsOf(b, b.urls.keys);
    ProbabilitiesOfUrlsGain(b, q, b.urls.keys, other, n, noise);
    ProbabilitiesOfZero(b, b.urls.keys);
  }

  lemma {:induction false} ProbabilitiesOfZero(b: UrlStatsMapping, us: seq<string>)
    requires forall u :: u in b.urls.items ==> b.urls.items[u].probability == 0.0
    ensures ProbabilitiesOf(b, us) == 0.0
  {
    if us != [] {
      ProbabilitiesOfZero(b, us[..|us| - 1]);
    }
  }

  lemma ProbabilitiesOfUrlsStep(b: UrlStatsMapping, q: string, us: seq<string>, i: int, other: Table, n: int,
                                noise: (string, string) -> real)
    requires MappingValid(b) && 0 <= i < |us|
    ensures ProbabilitiesOfUrls(b, q, us[..i + 1], other, n, noise) ==
      (var prev := ProbabilitiesOfUrls(b, q, us[..i], other, n, noise);
       if prev.Err? then prev else ProbabilityStep(prev.value, q, us[i], other, n, noise(q, us[i])))
  {
    assert us[..i + 1][..i] == us[..i];
  }

  /** HeadListQuery.calculate_probability_relative_to as the loop it is;
      the first ZeroDivisionError ends it. */
  method CalculateBucketProbabilities(b: UrlStatsMapping, q: string, other: Table, n: int,
                                      noise: (string, string) -> real) returns (r: Result<UrlStatsMapping>)
    requires MappingValid(b)
    ensures r == BucketProbabilities(b, q, other, n, noise)
  {
    var bucket := b;
    var urls := b.urls.keys;
    for i := 0 to |urls|
      invariant MappingValid(bucket)
      invariant ProbabilitiesOfUrls(b, q, urls[..i], other, n, noise) == Ok(bucket)
    {
      ProbabilitiesOfUrlsStep(b, q, urls, i, other, n, noise);
      var step := ProbabilityStep(bucket, q, urls[i], other, n, noise(q, urls[i]));
      if step.Err? {
        assert urls[..|urls|] == urls;
        assert ProbabilitiesOfUrls(b, q, urls[..i + 1], other, n, noise).Err?;
        ProbabilitiesOfUrlsErr(b, q, urls, i + 1, other, n, noise);
        return step;
      }
      bucket := step.value;
    }
    assert urls[..|urls|] == urls;
    r := Ok(bucket);
  }

  /** Once the loop fails it stays failed. */
  lemma {:induction false} ProbabilitiesOfUrlsErr(b: UrlStatsMapping, q: string, us: seq<string>, i: int, other: Table, n: int,
                                                 noise: (string, string) -> real)
    requires MappingValid(b) && 0 <= i <= |us|
    requires ProbabilitiesOfUrls(b, q, us[..i], other, n, noise).Err?
    ensures ProbabilitiesOfUrls(b, q, us, other, n, noise) == ProbabilitiesOfUrls(b, q, us[..i], other, n, noise)
    decreases |us| - i
  {
    if i < |us| {
      ProbabilitiesOfUrlsStep(b, q, us, i, other, n, noise);
      ProbabilitiesOfUrlsErr(b, q, us, i + 1, other, n, noise);
    } else {
      assert us[..i] == us;
    }
  }
}
