/** The three-level aggregate of in_memory_structures.py: a table maps each
    query to a url mapping (its bucket), and each bucket maps a url to the
    statistics of that <query, url> pair (its leaf).

    Leaves and buckets are values here; the table itself is the class
    `QueryUrlMapping`, whose methods reassign its `queries` dictionary and its
    `count`.  Reading a missing query or url through the source's
    defaultdicts inserts a fresh entry; the operations that rely on that
    insertion (`touch`, `add`, `subsume`) insert it explicitly, and reads that
    only look at a value (`MappingAt`, `UrlAt`, `LeafAt`) return the fresh
    value without inserting it. */
module InMemoryStructures {
  import opened Wrappers
  import OD = OrderedDict
  import opened Reals

  // ---------------------------------------------------------------------
  // Third level: the statistics of one url (URLCounter and
  // URLStatsWithProbability).

  /** `count` is the number of repetitions of the pair. */
  datatype UrlStats = UrlStats(count: int, probability: real, variance: real)

  /** What the defaultdict creates for a url on first access. */
  const FreshUrl := UrlStats(0, 0.0, 0.0)

  /** URLCounter.increment_count. */
  function IncrementCount(s: UrlStats, amount: int): (r: UrlStats)
    ensures r.count == s.count + amount
    ensures r.probability == s.probability && r.variance == s.variance
  {
    s.(count := s.count + amount)
  }

  /** URLCounter.subsume: only the repetitions move into the sink. */
  function CounterSubsume(sink: UrlStats, source: UrlStats): (r: UrlStats)
    ensures r.count == sink.count + source.count
    ensures r.probability == sink.probability && r.variance == sink.variance
  {
    IncrementCount(sink, source.count)
  }

  /** URLStatsWithProbability.subsume: repetitions and probability add up;
      the variance, which does not add, is left alone. */
  function Subsume(sink: UrlStats, source: UrlStats): (r: UrlStats)
    ensures r.count == sink.count + source.count
    ensures r.probability == sink.probability + source.probability
    ensures r.variance == sink.variance
  {
    var counted := CounterSubsume(sink, source);
    counted.(probability := counted.probability + source.probability)
  }

  /** URLStatsWithProbability.calculate_probability_relative_to: the pair's
      repetitions in the reference table, scaled by the noise draw `y`, as a
      fraction of the reference table's total; a reference table with no
      pairs raises ZeroDivisionError. */
  function ProbabilityRelativeTo(referenceCount: int, total: int, y: real): (r: Result<real>)
    ensures r.Err? <==> total == 0
    ensures r.Ok? ==> r.value * (total as real) == (referenceCount as real) * y
  {
    if total == 0 then Err(ZeroDivision)
    else Ok((referenceCount as real) * y / (total as real))
  }

  /** URLStatsWithProbability.calculate_variance_relative_to: the binomial
      term p(1-p)/(n-1) plus the Laplace term 2b²/(n(n-1)); both divisors
      vanish only for n = 0 or n = 1. */
  function VarianceRelativeTo(p: real, n: int, b: real): (r: Result<real>)
    ensures r.Err? <==> n == 0 || n == 1
    ensures r.Ok? ==> r.value * ((n as real) * (n as real - 1.0)) == (n as real) * (p * (1.0 - p)) + 2.0 * b * b
    ensures r.Ok? && 0.0 <= p <= 1.0 && n > 1 ==> r.value >= 0.0
  {
    if n == 1 || n == 0 then Err(ZeroDivision)
    else
      var n' := n as real;
      var binomial := p * (1.0 - p) / (n' - 1.0);
      var laplace := 2.0 * b * b / (n' * (n' - 1.0));
      assert n' != 0.0 && n' != 1.0;
      VarianceScaled(p * (1.0 - p), 2.0 * b * b, n');
      assert 0.0 <= p <= 1.0 && n > 1 ==> binomial >= 0.0 && laplace >= 0.0 by {
        if 0.0 <= p <= 1.0 && n > 1 {
          ProductNonNegative(p, 1.0 - p);
          ProductNonNegative(b, b);
          ProductPositive(n', n' - 1.0);
        }
      }
      Ok(binomial + laplace)
  }

  /** Both terms of the variance brought over the common divisor m (m - 1). */
  lemma VarianceScaled(x: real, y: real, m: real)
    requires m != 0.0 && m != 1.0
    ensures (x / (m - 1.0) + y / (m * (m - 1.0))) * (m * (m - 1.0)) == m * x + y
  {
    var a, c := x / (m - 1.0), y / (m * (m - 1.0));
    ProductZero(m, m - 1.0);
    QuotientTimesDivisor(x, m - 1.0);
    QuotientTimesDivisor(y, m * (m - 1.0));
    assert a * (m * (m - 1.0)) == m * (a * (m - 1.0));
    assert (a + c) * (m * (m - 1.0)) == a * (m * (m - 1.0)) + c * (m * (m - 1.0));
  }

  /** The case the source's unit test works through: p = 0.1, n = 100, b = 1
      gives 0.09/99 + 2/9900 = 1/900 (about 0.00111111). */
  lemma VarianceExample()
    ensures VarianceRelativeTo(0.1, 100, 1.0) == Ok(1.0 / 900.0)
  {
  }

  // ---------------------------------------------------------------------
  // Second level: the urls of one query (URLStatsMapping).

  /** `count` is the number of repetitions recorded through `add` (the
      number_of_urls of the other modules); `tau` is the field that
      HeadListQuery adds and stays 0.0 in every other table. */
  datatype UrlStatsMapping = UrlStatsMapping(
    urls: OD.Dict<UrlStats>,
    count: int,
    probability: real,
    variance: real,
    tau: real)

  /** What the defaultdict creates for a query on first access. */
  const FreshMapping := UrlStatsMapping(OD.Dict([], map[]), 0, 0.0, 0.0, 0.0)

  ghost predicate MappingValid(b: UrlStatsMapping) {
    OD.Valid(b.urls)
  }

  /** `len(b)` (number_of_unique_urls). */
  function Size(b: UrlStatsMapping): nat {
    |b.urls.keys|
  }

  /** The value `b[url]` reads, without the insertion of a missing url. */
  function UrlAt(b: UrlStatsMapping, url: string): UrlStats {
    if url in b.urls.items then b.urls.items[url] else FreshUrl
  }

  function LeafCount(s: UrlStats): real {
    s.count as real
  }

  function LeafProbability(s: UrlStats): real {
    s.probability
  }

  /** The repetitions held by a bucket's leaves. */
  function UrlCountTotal(b: UrlStatsMapping): real {
    OD.Sum(b.urls, LeafCount)
  }

  /** The bucket's own count agrees with its leaves. */
  ghost predicate CountMatchesUrls(b: UrlStatsMapping) {
    b.count as real == UrlCountTotal(b)
  }

  /** URLStatsMapping.touch: make sure `url` has a leaf, without counting it.
      An existing leaf and every other url are left as they were. */
  function Touch(b: UrlStatsMapping, url: string): (r: UrlStatsMapping)
    requires MappingValid(b)
    ensures MappingValid(r)
    ensures url in r.urls.items && r.urls.items[url] == UrlAt(b, url)
    ensures r.urls.items == b.urls.items[url := UrlAt(b, url)]
    ensures r.count == b.count && r.probability == b.probability && r.variance == b.variance && r.tau == b.tau
    ensures url in b.urls.items ==> r == b
    ensures UrlCountTotal(r) == UrlCountTotal(b)
  {
    if url in b.urls.items then b
    else
      OD.SumPut(b.urls, url, FreshUrl, LeafCount);
      b.(urls := OD.Put(b.urls, url, FreshUrl))
  }

  /** URLStatsMapping.add: one more repetition of `url`, in its leaf and in
      the bucket's count; a missing url is created first. */
  function AddUrl(b: UrlStatsMapping, url: string): (r: UrlStatsMapping)
    requires MappingValid(b)
    ensures MappingValid(r)
    ensures r.urls.items == b.urls.items[url := IncrementCount(UrlAt(b, url), 1)]
    ensures r.urls.keys == if url in b.urls.items then b.urls.keys else b.urls.keys + [url]
    ensures r.count == b.count + 1
    ensures r.probability == b.probability && r.variance == b.variance && r.tau == b.tau
    ensures UrlCountTotal(r) == UrlCountTotal(b) + 1.0
    ensures CountMatchesUrls(b) ==> CountMatchesUrls(r)
  {
    OD.SumPut(b.urls, url, IncrementCount(UrlAt(b, url), 1), LeafCount);
    b.(urls := OD.Put(b.urls, url, IncrementCount(UrlAt(b, url), 1)), count := b.count + 1)
  }

  /** URLStatsMapping.subsume: the leaf of `url` absorbs `stats`, and the
      bucket's probability grows by the absorbed probability; the bucket's
      count is not changed, so the bucket's leaves now hold `stats.count`
      more repetitions than its count says. */
  function SubsumeUrl(b: UrlStatsMapping, url: string, stats: UrlStats): (r: UrlStatsMapping)
    requires MappingValid(b)
    ensures MappingValid(r)
    ensures r.urls.items == b.urls.items[url := Subsume(UrlAt(b, url), stats)]
    ensures r.count == b.count && r.variance == b.variance && r.tau == b.tau
    ensures r.probability == b.probability + stats.probability
    ensures UrlCountTotal(r) == UrlCountTotal(b) + stats.count as real
  {
    OD.SumPut(b.urls, url, Subsume(UrlAt(b, url), stats), LeafCount);
    b.(urls := OD.Put(b.urls, url, Subsume(UrlAt(b, url), stats)), probability := b.probability + stats.probability)
  }

  /** URLStatsMapping.update_probability: only the bucket's probability changes. */
  function UpdateProbability(b: UrlStatsMapping, stats: UrlStats): (r: UrlStatsMapping)
    ensures r.urls == b.urls && r.count == b.count && r.variance == b.variance && r.tau == b.tau
    ensures r.probability - b.probability == stats.probability
    ensures MappingValid(b) ==> MappingValid(r)
  {
    b.(probability := b.probability + stats.probability)
  }

  /** URLStatsMapping.__setitem__: the bucket's count changes by the new
      leaf's count minus the replaced leaf's count (a missing url counts 0,
      as the defaultdict read creates it), which keeps the count in
      agreement with the leaves. */
  function SetUrl(b: UrlStatsMapping, url: string, item: UrlStats): (r: UrlStatsMapping)
    requires MappingValid(b)
    ensures MappingValid(r)
    ensures r.urls.items == b.urls.items[url := item]
    ensures r.count == b.count - UrlAt(b, url).count + item.count
    ensures r.probability == b.probability && r.variance == b.variance && r.tau == b.tau
    ensures CountMatchesUrls(b) ==> CountMatchesUrls(r)
  {
    OD.SumPut(b.urls, url, item, LeafCount);
    b.(urls := OD.Put(b.urls, url, item), count := b.count - UrlAt(b, url).count + item.count)
  }

  /** URLStatsMapping.__delitem__: the url's leaf goes and the bucket's count
      drops by its repetitions.  For a missing url the defaultdict read
      creates a leaf that the deletion removes again, so nothing changes. */
  function DeleteUrl(b: UrlStatsMapping, url: string): (r: UrlStatsMapping)
    requires MappingValid(b)
    ensures MappingValid(r)
    ensures r.urls.items == b.urls.items - {url}
    ensures r.count == b.count - UrlAt(b, url).count
    ensures r.probability == b.probability && r.variance == b.variance && r.tau == b.tau
    ensures Size(r) == if url in b.urls.items then Size(b) - 1 else Size(b)
    ensures UrlCountTotal(r) == UrlCountTotal(b) - UrlAt(b, url).count as real
    ensures CountMatchesUrls(b) ==> CountMatchesUrls(r)
  {
    if url in b.urls.items then
      OD.SumDelete(b.urls, url, LeafCount);
      b.(urls := OD.Delete(b.urls, url), count := b.count - b.urls.items[url].count)
    else
      assert b.urls.items - {url} == b.urls.items;
      b
  }

  /** Touching twice is touching once. */
  lemma TouchIdempotent(b: UrlStatsMapping, url: string)
    requires MappingValid(b)
    ensures Touch(Touch(b, url), url) == Touch(b, url)
  {
  }

  /** The source's unit test of touch: a touched url has 0 repetitions, a
      second touch changes nothing, and a later add brings it to 1. */
  lemma TouchThenAdd(b: UrlStatsMapping, url: string)
    requires MappingValid(b) && url !in b.urls.items
    ensures UrlAt(Touch(b, url), url).count == 0
    ensures UrlAt(AddUrl(Touch(Touch(b, url), url), url), url).count == 1
    ensures AddUrl(Touch(b, url), url).count == b.count + 1
  {
  }

  // ---------------------------------------------------------------------
  // Top level: queries to url mappings (QueryURLMapping), as a value.

  type Table = OD.Dict<UrlStatsMapping>

  ghost predicate TableValid(d: Table) {
    OD.Valid(d) && forall q :: q in d.items ==> MappingValid(d.items[q])
  }

  /** The value `d[q]` reads, without the insertion of a missing query. */
  function MappingAt(d: Table, q: string): UrlStatsMapping {
    if q in d.items then d.items[q] else FreshMapping
  }

  /** The table after `d[q]`: the defaultdict inserts an empty bucket,
      at the end of the key order, when `q` is missing. */
  function Read(d: Table, q: string): (r: Table)
    requires TableValid(d)
    ensures TableValid(r) && q in r.items && MappingAt(r, q) == MappingAt(d, q)
    ensures q in d.items ==> r == d
    ensures q !in d.items ==> r.keys == d.keys + [q] && r.items == d.items[q := FreshMapping]
  {
    if q in d.items then d else OD.Put(d, q, FreshMapping)
  }

  /** The value `d[q][u]` reads. */
  function LeafAt(d: Table, q: string, u: string): UrlStats {
    UrlAt(MappingAt(d, q), u)
  }

  /** `q in d and u in d[q]`. */
  predicate HasPair(d: Table, q: string, u: string) {
    q in d.items && u in d.items[q].urls.items
  }

  /** The repetitions held by all leaves of a table. */
  function TableCountTotal(d: Table): real {
    OD.Sum(d, UrlCountTotal)
  }

  /** QueryURLMapping.add on the dictionary: the bucket of `q` (created if
      missing) gets one more repetition of `u`. */
  function AddPair(d: Table, q: string, u: string): (r: Table)
    requires TableValid(d)
    ensures TableValid(r)
    ensures r.items == d.items[q := AddUrl(MappingAt(d, q), u)]
    ensures r.keys == if q in d.items then d.keys else d.keys + [q]
    ensures LeafAt(r, q, u).count == LeafAt(d, q, u).count + 1
    ensures MappingAt(r, q).count == MappingAt(d, q).count + 1
    ensures TableCountTotal(r) == TableCountTotal(d) + 1.0
  {
    var b := AddUrl(MappingAt(d, q), u);
    OD.SumPut(d, q, b, UrlCountTotal);
    OD.Put(d, q, b)
  }

  /** `d[q].touch(u)`: the pair exists afterwards and no count changes. */
  function TouchPair(d: Table, q: string, u: string): (r: Table)
    requires TableValid(d)
    ensures TableValid(r)
    ensures r.items == d.items[q := Touch(MappingAt(d, q), u)]
    ensures r.keys == if q in d.items then d.keys else d.keys + [q]
    ensures HasPair(r, q, u) && LeafAt(r, q, u) == LeafAt(d, q, u)
    ensures HasPair(d, q, u) ==> r == d
    ensures TableCountTotal(r) == TableCountTotal(d)
  {
    var b := Touch(MappingAt(d, q), u);
    OD.SumPut(d, q, b, UrlCountTotal);
    OD.Put(d, q, b)
  }

  /** The <query, url> pairs of one bucket, in url order. */
  function Row(q: string, urls: seq<string>): (r: seq<(string, string)>)
    ensures |r| == |urls|
  {
    if urls == [] then [] else [(q, urls[0])] + Row(q, urls[1..])
  }

  /** The pairs of the buckets listed in `keys`, query by query. */
  function PairsOf(keys: seq<string>, items: map<string, UrlStatsMapping>): seq<(string, string)> {
    if keys == [] then []
    else (if keys[0] in items then Row(keys[0], items[keys[0]].urls.keys) else []) + PairsOf(keys[1..], items)
  }

  /** QueryURLMapping.iter_records: every query in order, and for each of
      them every url of its bucket in order. */
  function Pairs(d: Table): seq<(string, string)> {
    PairsOf(d.keys, d.items)
  }

  ghost predicate NoDuplicates<T>(s: seq<T>) {
    forall i, j :: 0 <= i < j < |s| ==> s[i] != s[j]
  }

  lemma {:induction false} RowMembership(q: string, urls: seq<string>, p: (string, string))
    ensures p in Row(q, urls) <==> p.0 == q && p.1 in urls
  {
    if urls != [] {
      RowMembership(q, urls[1..], p);
      assert urls == [urls[0]] + urls[1..];
    }
  }

  lemma {:induction false} RowNoDuplicates(q: string, urls: seq<string>)
    requires OD.Distinct(urls)
    ensures NoDuplicates(Row(q, urls))
  {
    if urls != [] {
      RowNoDuplicates(q, urls[1..]);
      RowMembership(q, urls[1..], (q, urls[0]));
      ConcatNoDuplicates([(q, urls[0])], Row(q, urls[1..]));
    }
  }

  lemma ConcatNoDuplicates<T>(a: seq<T>, b: seq<T>)
    requires NoDuplicates(a) && NoDuplicates(b)
    requires forall x :: x in a ==> x !in b
    ensures NoDuplicates(a + b)
  {
    forall i, j | 0 <= i < j < |a + b| ensures (a + b)[i] != (a + b)[j] {
      if j < |a| {
        assert (a + b)[i] == a[i] && (a + b)[j] == a[j];
      } else if i >= |a| {
        assert (a + b)[i] == b[i - |a|] && (a + b)[j] == b[j - |a|];
      } else {
        assert (a + b)[i] == a[i] && (a + b)[j] == b[j - |a|];
        assert a[i] in a;
      }
    }
  }

  lemma {:induction false} PairsOfMembership(keys: seq<string>, items: map<string, UrlStatsMapping>, p: (string, string))
    ensures p in PairsOf(keys, items) <==> p.0 in keys && p.0 in items && p.1 in items[p.0].urls.keys
  {
    if keys != [] {
      PairsOfMembership(keys[1..], items, p);
      if keys[0] in items {
        RowMembership(keys[0], items[keys[0]].urls.keys, p);
      }
      assert keys == [keys[0]] + keys[1..];
    }
  }

  lemma {:induction false} PairsOfNoDuplicates(keys: seq<string>, items: map<string, UrlStatsMapping>)
    requires OD.Distinct(keys)
    requires forall q :: q in items ==> MappingValid(items[q])
    ensures NoDuplicates(PairsOf(keys, items))
  {
    if keys != [] {
      var q := keys[0];
      assert OD.Distinct(keys[1..]) && q !in keys[1..];
      PairsOfNoDuplicates(keys[1..], items);
      var row := if q in items then Row(q, items[q].urls.keys) else [];
      if q in items {
        RowNoDuplicates(q, items[q].urls.keys);
      }
      forall p | p in row ensures p !in PairsOf(keys[1..], items) {
        RowMembership(q, items[q].urls.keys, p);
        PairsOfMembership(keys[1..], items, p);
      }
      ConcatNoDuplicates(row, PairsOf(keys[1..], items));
    }
  }

  /** iter_records yields every <query, url> key pair of the table, and each
      of them exactly once. */
  lemma PairsExactlyOnce(d: Table, q: string, u: string)
    requires TableValid(d)
    ensures (q, u) in Pairs(d) <==> HasPair(d, q, u)
    ensures NoDuplicates(Pairs(d))
  {
    PairsOfMembership(d.keys, d.items, (q, u));
    PairsOfNoDuplicates(d.keys, d.items);
  }

  // ---------------------------------------------------------------------
  // append_star_values

  /** One touch changes no leaf, no bucket count or probability and no
      other query, and adds only the touched pair. */
  lemma TouchPairAt(d: Table, q: string, u: string, x: string, v: string)
    requires TableValid(d)
    ensures LeafAt(TouchPair(d, q, u), x, v) == LeafAt(d, x, v)
    ensures HasPair(TouchPair(d, q, u), x, v) <==> HasPair(d, x, v) || (x == q && v == u)
    ensures x in TouchPair(d, q, u).items <==> x in d.items || x == q
    ensures MappingAt(TouchPair(d, q, u), x).count == MappingAt(d, x).count
    ensures MappingAt(TouchPair(d, q, u), x).probability == MappingAt(d, x).probability
  {
  }

  /** `d[q].touch(u)` for every `q` of `qs`, in order. */
  function TouchEach(d: Table, qs: seq<string>, u: string): (r: Table)
    requires TableValid(d)
    ensures TableValid(r)
  {
    if qs == [] then d else TouchPair(TouchEach(d, qs[..|qs| - 1], u), qs[|qs| - 1], u)
  }

  /** QueryURLMapping.append_star_values on the dictionary: touch <*, *>,
      then touch the url `*` in every bucket. */
  function StarValues(d: Table): (r: Table)
    requires TableValid(d)
    ensures TableValid(r)
  {
    var withStar := TouchPair(d, "*", "*");
    TouchEach(withStar, withStar.keys, "*")
  }

  /** Touching queries that exist adds the url `u` to each of them and
      changes nothing else: the same queries in the same order, the same
      leaves, the same bucket counts and probabilities, the same total. */
  lemma {:induction false} TouchEachAt(d: Table, qs: seq<string>, u: string, x: string, v: string)
    requires TableValid(d) && forall q :: q in qs ==> q in d.items
    ensures TouchEach(d, qs, u).keys == d.keys
    ensures HasPair(TouchEach(d, qs, u), x, v) <==> HasPair(d, x, v) || (x in qs && v == u)
    ensures LeafAt(TouchEach(d, qs, u), x, v) == LeafAt(d, x, v)
    ensures x in TouchEach(d, qs, u).items <==> x in d.items
    ensures MappingAt(TouchEach(d, qs, u), x).count == MappingAt(d, x).count
    ensures MappingAt(TouchEach(d, qs, u), x).probability == MappingAt(d, x).probability
    ensures TableCountTotal(TouchEach(d, qs, u)) == TableCountTotal(d)
  {
    if qs != [] {
      var init, last := qs[..|qs| - 1], qs[|qs| - 1];
      assert qs == init + [last];
      assert forall q :: q in init ==> q in qs;
      TouchEachAt(d, init, u, x, v);
      TouchEachAt(d, init, u, last, v);
      TouchPairAt(TouchEach(d, init, u), last, u, x, v);
    }
  }

  /** After append_star_values there is a `*` query, and a query has a url
      exactly when it had it before or the url is `*`; no leaf and no
      bucket count or probability changes. */
  lemma StarValuesAt(d: Table, x: string, v: string)
    requires TableValid(d)
    ensures "*" in StarValues(d).items
    ensures x in StarValues(d).items <==> x in d.items || x == "*"
    ensures HasPair(StarValues(d), x, v) <==> HasPair(d, x, v) || (v == "*" && (x in d.items || x == "*"))
    ensures LeafAt(StarValues(d), x, v) == LeafAt(d, x, v)
    ensures MappingAt(StarValues(d), x).count == MappingAt(d, x).count
    ensures MappingAt(StarValues(d), x).probability == MappingAt(d, x).probability
  {
    var withStar := TouchPair(d, "*", "*");
    assert forall q :: q in withStar.keys ==> q in withStar.items;
    TouchEachAt(withStar, withStar.keys, "*", x, v);
    TouchEachAt(withStar, withStar.keys, "*", "*", v);
    TouchPairAt(d, "*", "*", x, v);
  }

  /** append_star_values appends the `*` query last when it is new, keeps
      the order of the others and the total number of repetitions. */
  lemma StarValuesOrder(d: Table)
    requires TableValid(d)
    ensures StarValues(d).keys == if "*" in d.items then d.keys else d.keys + ["*"]
    ensures TableCountTotal(StarValues(d)) == TableCountTotal(d)
  {
    var withStar := TouchPair(d, "*", "*");
    assert forall q :: q in withStar.keys ==> q in withStar.items;
    TouchEachAt(withStar, withStar.keys, "*", "*", "*");
  }

  /** Every bucket has a `*` url after append_star_values. */
  lemma StarValuesEveryBucket(d: Table)
    requires TableValid(d)
    ensures forall q :: q in StarValues(d).items ==> HasPair(StarValues(d), q, "*")
  {
    forall q | q in StarValues(d).items ensures HasPair(StarValues(d), q, "*") {
      StarValuesAt(d, q, "*");
    }
  }

  // ---------------------------------------------------------------------
  // subsume_those_not_present_in

  /** The <*, *> entry is touched in when there is no `*` query. */
  function StarTouched(d: Table): (r: Table)
    requires TableValid(d)
    ensures TableValid(r) && "*" in r.items
    ensures forall x :: x != "*" ==> MappingAt(r, x) == MappingAt(d, x) && (x in r.items <==> x in d.items)
    ensures forall v :: HasPair(d, "*", v) ==> HasPair(r, "*", v) && LeafAt(r, "*", v) == LeafAt(d, "*", v)
    ensures LeafAt(r, "*", "*") == LeafAt(d, "*", "*")
    ensures MappingAt(r, "*").count == MappingAt(d, "*").count
    ensures TableCountTotal(r) == TableCountTotal(d)
  {
    if "*" in d.items then d else TouchPair(d, "*", "*")
  }

  /** The records the collapse removes, in traversal order: those whose
      query is not `*` and that are not a pair of `reference`. */
  function Unmatched(records: seq<(string, string)>, reference: Table): (r: seq<(string, string)>)
    ensures |r| <= |records|
  {
    if records == [] then []
    else
      var last := records[|records| - 1];
      Unmatched(records[..|records| - 1], reference) +
        (if last.0 != "*" && !HasPair(reference, last.0, last.1) then [last] else [])
  }

  /** `d['*']['*'].subsume(leaf)`: the <*, *> leaf (created if missing)
      absorbs the leaf's repetitions and probability; no bucket's own count
      or probability changes, and no other bucket changes. */
  function SubsumeIntoStar(d: Table, leaf: UrlStats): (r: Table)
    requires TableValid(d) && "*" in d.items
    ensures TableValid(r) && "*" in r.items
    ensures r.keys == d.keys
    ensures r.items == d.items["*" := SubsumeUrl(d.items["*"], "*", leaf).(probability := d.items["*"].probability)]
    ensures TableCountTotal(r) == TableCountTotal(d) + leaf.count as real
  {
    var star := d.items["*"];
    var star' := SubsumeUrl(star, "*", leaf).(probability := star.probability);
    OD.SumPut(d, "*", star', UrlCountTotal);
    OD.Put(d, "*", star')
  }

  /** One subsumption into <*, *> changes no other bucket, keeps the `*`
      bucket's urls, its other leaves, its count and its probability. */
  lemma SubsumeIntoStarAt(d: Table, leaf: UrlStats, x: string, v: string)
    requires TableValid(d) && "*" in d.items
    ensures x != "*" ==> (MappingAt(SubsumeIntoStar(d, leaf), x) == MappingAt(d, x) &&
      (x in SubsumeIntoStar(d, leaf).items <==> x in d.items))
    ensures HasPair(d, "*", v) ==> HasPair(SubsumeIntoStar(d, leaf), "*", v)
    ensures v != "*" ==> LeafAt(SubsumeIntoStar(d, leaf), "*", v) == LeafAt(d, "*", v)
    ensures MappingAt(SubsumeIntoStar(d, leaf), "*").count == MappingAt(d, "*").count
    ensures MappingAt(SubsumeIntoStar(d, leaf), "*").probability == MappingAt(d, "*").probability
    ensures LeafAt(SubsumeIntoStar(d, leaf), "*", "*").count == LeafAt(d, "*", "*").count + leaf.count
  {
  }

  /** The first traversal: every listed pair's leaf, as it stands when it is
      reached, is subsumed into <*, *>. */
  function SubsumeEach(d: Table, pairs: seq<(string, string)>): (r: Table)
    requires TableValid(d) && "*" in d.items
    ensures TableValid(r) && "*" in r.items
  {
    if pairs == [] then d
    else
      var prev := SubsumeEach(d, pairs[..|pairs| - 1]);
      var last := pairs[|pairs| - 1];
      SubsumeIntoStar(prev, LeafAt(prev, last.0, last.1))
  }

  /** `del d[q][u]`, then `del d[q]` when the bucket is left empty.  For a
      missing query the defaultdict reads create a bucket that the second
      deletion removes again, so nothing changes. */
  function DeletePair(d: Table, q: string, u: string): (r: Table)
    requires TableValid(d)
    ensures TableValid(r)
    ensures forall x :: x != q ==> MappingAt(r, x) == MappingAt(d, x) && (x in r.items <==> x in d.items)
    ensures forall v :: HasPair(r, q, v) <==> HasPair(d, q, v) && v != u
    ensures forall v :: v != u ==> LeafAt(r, q, v) == LeafAt(d, q, v)
    ensures q in r.items ==> q in d.items && Size(r.items[q]) > 0
    ensures q in r.items ==> r.items[q].count == d.items[q].count - LeafAt(d, q, u).count
    ensures TableCountTotal(r) == TableCountTotal(d) - LeafAt(d, q, u).count as real
  {
    if q !in d.items then d
    else
      var b := DeleteUrl(d.items[q], u);
      if Size(b) == 0 then
        OD.SumDelete(d, q, UrlCountTotal);
        assert UrlCountTotal(b) == 0.0;
        OD.Delete(d, q)
      else
        OD.SumPut(d, q, b, UrlCountTotal);
        OD.Put(d, q, b)
  }

  /** The second traversal: the listed pairs are deleted in order. */
  function DeleteEach(d: Table, pairs: seq<(string, string)>): (r: Table)
    requires TableValid(d)
    ensures TableValid(r)
  {
    if pairs == [] then d
    else
      var last := pairs[|pairs| - 1];
      DeletePair(DeleteEach(d, pairs[..|pairs| - 1]), last.0, last.1)
  }

  /** The pairs subsume_those_not_present_in removes from `d`. */
  function Removed(d: Table, reference: Table): seq<(string, string)>
    requires TableValid(d)
  {
    Unmatched(Pairs(StarTouched(d)), reference)
  }

  /** QueryURLMapping.subsume_those_not_present_in on the dictionary. */
  function SubsumedNotPresentIn(d: Table, reference: Table): (r: Table)
    requires TableValid(d)
    ensures TableValid(r)
  {
    var removed := Removed(d, reference);
    DeleteEach(SubsumeEach(StarTouched(d), removed), removed)
  }

  /** The repetitions of the listed pairs' leaves. */
  function PairCounts(d: Table, pairs: seq<(string, string)>): real {
    if pairs == [] then 0.0
    else
      var last := pairs[|pairs| - 1];
      PairCounts(d, pairs[..|pairs| - 1]) + LeafAt(d, last.0, last.1).count as real
  }

  lemma {:induction false} UnmatchedMembership(records: seq<(string, string)>, reference: Table, p: (string, string))
    ensures p in Unmatched(records, reference) <==> p in records && p.0 != "*" && !HasPair(reference, p.0, p.1)
  {
    if records != [] {
      UnmatchedMembership(records[..|records| - 1], reference, p);
      assert records == records[..|records| - 1] + [records[|records| - 1]];
    }
  }

  lemma {:induction false} UnmatchedNoDuplicates(records: seq<(string, string)>, reference: Table)
    requires NoDuplicates(records)
    ensures NoDuplicates(Unmatched(records, reference))
  {
    if records != [] {
      var init, last := records[..|records| - 1], records[|records| - 1];
      assert NoDuplicates(init);
      UnmatchedNoDuplicates(init, reference);
      assert last !in init by {
        forall i | 0 <= i < |init| ensures init[i] != last {
          assert init[i] == records[i];
        }
      }
      UnmatchedMembership(init, reference, last);
      var tail := if last.0 != "*" && !HasPair(reference, last.0, last.1) then [last] else [];
      ConcatNoDuplicates(Unmatched(init, reference), tail);
    }
  }

  /** The pairs removed are exactly the pairs outside `*` that `reference`
      lacks, each listed once. */
  lemma RemovedMembership(d: Table, reference: Table, q: string, u: string)
    requires TableValid(d)
    ensures (q, u) in Removed(d, reference) <==> HasPair(d, q, u) && q != "*" && !HasPair(reference, q, u)
    ensures NoDuplicates(Removed(d, reference))
  {
    UnmatchedMembership(Pairs(StarTouched(d)), reference, (q, u));
    PairsExactlyOnce(StarTouched(d), q, u);
    UnmatchedNoDuplicates(Pairs(StarTouched(d)), reference);
  }

  /** The first traversal only changes the <*, *> leaf: every other
      bucket, the `*` bucket's other leaves, its count and its probability
      stay as they were. */
  lemma {:induction false} SubsumeEachAt(d: Table, pairs: seq<(string, string)>, x: string, v: string)
    requires TableValid(d) && "*" in d.items
    requires forall p :: p in pairs ==> p.0 != "*"
    ensures SubsumeEach(d, pairs).keys == d.keys
    ensures x != "*" ==> (MappingAt(SubsumeEach(d, pairs), x) == MappingAt(d, x) &&
      (x in SubsumeEach(d, pairs).items <==> x in d.items))
    ensures HasPair(d, "*", v) ==> HasPair(SubsumeEach(d, pairs), "*", v)
    ensures v != "*" ==> LeafAt(SubsumeEach(d, pairs), "*", v) == LeafAt(d, "*", v)
    ensures MappingAt(SubsumeEach(d, pairs), "*").count == MappingAt(d, "*").count
    ensures MappingAt(SubsumeEach(d, pairs), "*").probability == MappingAt(d, "*").probability
  {
    if pairs != [] {
      var init, last := pairs[..|pairs| - 1], pairs[|pairs| - 1];
      assert forall p :: p in init ==> p in pairs;
      var prev := SubsumeEach(d, init);
      SubsumeEachAt(d, init, x, v);
      SubsumeIntoStarAt(prev, LeafAt(prev, last.0, last.1), x, v);
    }
  }

  /** The <*, *> leaf grows by the repetitions the listed leaves had, and so
      does the table. */
  lemma {:induction false} SubsumeEachCount(d: Table, pairs: seq<(string, string)>)
    requires TableValid(d) && "*" in d.items
    requires forall p :: p in pairs ==> p.0 != "*"
    ensures LeafAt(SubsumeEach(d, pairs), "*", "*").count as real == LeafAt(d, "*", "*").count as real + PairCounts(d, pairs)
    ensures TableCountTotal(SubsumeEach(d, pairs)) == TableCountTotal(d) + PairCounts(d, pairs)
  {
    if pairs != [] {
      var init, last := pairs[..|pairs| - 1], pairs[|pairs| - 1];
      assert last in pairs;
      assert forall p :: p in init ==> p in pairs;
      var prev := SubsumeEach(d, init);
      var leaf := LeafAt(prev, last.0, last.1);
      assert SubsumeEach(d, pairs) == SubsumeIntoStar(prev, leaf);
      SubsumeEachCount(d, init);
      SubsumeEachAt(d, init, last.0, last.1);
      assert leaf == LeafAt(d, last.0, last.1);
      assert PairCounts(d, pairs) == PairCounts(d, init) + leaf.count as real;
      SubsumeIntoStarAt(prev, leaf, "*", "*");
    }
  }

  /** The second traversal removes exactly the listed pairs, keeps every
      other leaf as it was, never leaves a bucket it emptied, and does not
      touch a bucket none of the pairs names. */
  lemma {:induction false} DeleteEachAt(d: Table, pairs: seq<(string, string)>, x: string, v: string)
    requires TableValid(d)
    ensures HasPair(DeleteEach(d, pairs), x, v) <==> HasPair(d, x, v) && (x, v) !in pairs
    ensures (x, v) !in pairs ==> LeafAt(DeleteEach(d, pairs), x, v) == LeafAt(d, x, v)
    ensures (forall p :: p in pairs ==> p.0 != x) ==>
      (MappingAt(DeleteEach(d, pairs), x) == MappingAt(d, x) && (x in DeleteEach(d, pairs).items <==> x in d.items))
    ensures (x, v) in pairs && x in DeleteEach(d, pairs).items ==> Size(DeleteEach(d, pairs).items[x]) > 0
  {
    if pairs != [] {
      var init, last := pairs[..|pairs| - 1], pairs[|pairs| - 1];
      assert pairs == init + [last];
      assert forall p :: p in init ==> p in pairs;
      DeleteEachAt(d, init, x, v);
    }
  }

  /** Deleting pairs that are listed once each removes exactly their repetitions. */
  lemma {:induction false} DeleteEachCount(d: Table, pairs: seq<(string, string)>)
    requires TableValid(d) && NoDuplicates(pairs)
    ensures TableCountTotal(DeleteEach(d, pairs)) == TableCountTotal(d) - PairCounts(d, pairs)
  {
    if pairs != [] {
      var init, last := pairs[..|pairs| - 1], pairs[|pairs| - 1];
      assert NoDuplicates(init);
      assert last !in init by {
        forall i | 0 <= i < |init| ensures init[i] != last {
          assert init[i] == pairs[i];
        }
      }
      DeleteEachCount(d, init);
      DeleteEachAt(d, init, last.0, last.1);
    }
  }

  lemma {:induction false} PairCountsFrame(a: Table, b: Table, pairs: seq<(string, string)>)
    requires forall p :: p in pairs ==> LeafAt(a, p.0, p.1) == LeafAt(b, p.0, p.1)
    ensures PairCounts(a, pairs) == PairCounts(b, pairs)
  {
    if pairs != [] {
      assert forall p :: p in pairs[..|pairs| - 1] ==> p in pairs;
      PairCountsFrame(a, b, pairs[..|pairs| - 1]);
    }
  }

  /** What subsume_those_not_present_in leaves of one pair: outside the
      `*` query, a pair remains exactly when `reference` has it too, with
      its leaf as it was, and a bucket it was removed from is only left
      when something remains in it; the `*` query exists afterwards, keeps
      every url it had and its own count. */
  lemma SubsumedNotPresentInAt(d: Table, reference: Table, x: string, v: string)
    requires TableValid(d)
    ensures "*" in SubsumedNotPresentIn(d, reference).items
    ensures HasPair(d, "*", v) ==> HasPair(SubsumedNotPresentIn(d, reference), "*", v)
    ensures MappingAt(SubsumedNotPresentIn(d, reference), "*").count == MappingAt(d, "*").count
    ensures x != "*" ==> (HasPair(SubsumedNotPresentIn(d, reference), x, v) <==> HasPair(d, x, v) && HasPair(reference, x, v))
    ensures x != "*" && HasPair(SubsumedNotPresentIn(d, reference), x, v) ==>
      LeafAt(SubsumedNotPresentIn(d, reference), x, v) == LeafAt(d, x, v)
    ensures x != "*" && HasPair(d, x, v) && !HasPair(reference, x, v) && x in SubsumedNotPresentIn(d, reference).items ==>
      Size(SubsumedNotPresentIn(d, reference).items[x]) > 0
  {
    var start := StarTouched(d);
    var removed := Removed(d, reference);
    var subsumed := SubsumeEach(start, removed);
    forall p | p in removed ensures p.0 != "*" {
      RemovedMembership(d, reference, p.0, p.1);
    }
    RemovedMembership(d, reference, x, v);
    SubsumeEachAt(start, removed, x, v);
    SubsumeEachAt(start, removed, "*", v);
    DeleteEachAt(subsumed, removed, x, v);
    DeleteEachAt(subsumed, removed, "*", v);
  }

  /** The removed pairs had the same leaves before the `*` query was
      touched in and after the first traversal. */
  lemma RemovedLeavesKept(d: Table, reference: Table)
    requires TableValid(d)
    ensures forall p :: p in Removed(d, reference) ==> p.0 != "*"
    ensures PairCounts(SubsumeEach(StarTouched(d), Removed(d, reference)), Removed(d, reference)) == PairCounts(d, Removed(d, reference))
  {
    var start := StarTouched(d);
    var removed := Removed(d, reference);
    forall p | p in removed ensures p.0 != "*" {
      RemovedMembership(d, reference, p.0, p.1);
    }
    var subsumed := SubsumeEach(start, removed);
    forall p | p in removed ensures LeafAt(subsumed, p.0, p.1) == LeafAt(d, p.0, p.1) {
      SubsumeEachAt(start, removed, p.0, p.1);
    }
    PairCountsFrame(subsumed, d, removed);
  }

  /** The <*, *> leaf grows by the repetitions of the removed pairs, and
      the repetitions of the whole table are conserved. */
  lemma SubsumedNotPresentInCounts(d: Table, reference: Table)
    requires TableValid(d)
    ensures LeafAt(SubsumedNotPresentIn(d, reference), "*", "*").count as real ==
      LeafAt(d, "*", "*").count as real + PairCounts(d, Removed(d, reference))
    ensures TableCountTotal(SubsumedNotPresentIn(d, reference)) == TableCountTotal(d)
  {
    var start := StarTouched(d);
    var removed := Removed(d, reference);
    var subsumed := SubsumeEach(start, removed);
    RemovedLeavesKept(d, reference);
    RemovedMembership(d, reference, "*", "*");
    SubsumeEachCount(start, removed);
    PairCountsFrame(start, d, removed);
    DeleteEachAt(subsumed, removed, "*", "*");
    DeleteEachCount(subsumed, removed);
  }

  // One step of each traversal, for the loops that compute them.

  lemma TouchEachStep(d: Table, qs: seq<string>, i: int, u: string)
    requires TableValid(d) && 0 <= i < |qs|
    ensures TouchEach(d, qs[..i + 1], u) == TouchPair(TouchEach(d, qs[..i], u), qs[i], u)
  {
    assert qs[..i + 1][..i] == qs[..i];
  }

  lemma UnmatchedStep(records: seq<(string, string)>, i: int, reference: Table)
    requires 0 <= i < |records|
    ensures Unmatched(records[..i + 1], reference) == Unmatched(records[..i], reference) +
      (if records[i].0 != "*" && !HasPair(reference, records[i].0, records[i].1) then [records[i]] else [])
  {
    assert records[..i + 1][..i] == records[..i];
  }

  lemma SubsumeEachStep(d: Table, pairs: seq<(string, string)>, p: (string, string))
    requires TableValid(d) && "*" in d.items
    ensures SubsumeEach(d, pairs + [p]) ==
      SubsumeIntoStar(SubsumeEach(d, pairs), LeafAt(SubsumeEach(d, pairs), p.0, p.1))
  {
    assert (pairs + [p])[..|pairs|] == pairs;
  }

  lemma DeleteEachStep(d: Table, pairs: seq<(string, string)>, i: int)
    requires TableValid(d) && 0 <= i < |pairs|
    ensures DeleteEach(d, pairs[..i + 1]) == DeletePair(DeleteEach(d, pairs[..i]), pairs[i].0, pairs[i].1)
  {
    assert pairs[..i + 1][..i] == pairs[..i];
  }

  /** The first traversal of subsume_those_not_present_in, over the
      records of `start` in order. */
  method SubsumeUnmatched(start: Table, reference: Table) returns (t: Table, toBeDeleted: seq<(string, string)>)
    requires TableValid(start) && "*" in start.items
    ensures toBeDeleted == Unmatched(Pairs(start), reference)
    ensures TableValid(t) && t == SubsumeEach(start, toBeDeleted)
  {
    t := start;
    var records := Pairs(start);
    toBeDeleted := [];
    for i := 0 to |records|
      invariant TableValid(t) && "*" in t.items
      invariant toBeDeleted == Unmatched(records[..i], reference)
      invariant t == SubsumeEach(start, toBeDeleted)
    {
      UnmatchedStep(records, i, reference);
      var (q, u) := records[i];
      if q != "*" && !HasPair(reference, q, u) {
        SubsumeEachStep(start, toBeDeleted, (q, u));
        t := SubsumeIntoStar(t, LeafAt(t, q, u));
        toBeDeleted := toBeDeleted + [(q, u)];
      }
    }
    assert records[..|records|] == records;
  }

  /** The second traversal: the deferred deletions, in order. */
  method DeleteRemoved(subsumed: Table, toBeDeleted: seq<(string, string)>) returns (t: Table)
    requires TableValid(subsumed)
    ensures TableValid(t) && t == DeleteEach(subsumed, toBeDeleted)
  {
    t := subsumed;
    for i := 0 to |toBeDeleted|
      invariant TableValid(t)
      invariant t == DeleteEach(subsumed, toBeDeleted[..i])
    {
      DeleteEachStep(subsumed, toBeDeleted, i);
      t := DeletePair(t, toBeDeleted[i].0, toBeDeleted[i].1);
    }
    assert toBeDeleted[..|toBeDeleted|] == toBeDeleted;
  }

  // ---------------------------------------------------------------------
  // QueryURLMapping

  /** The loop of append_star_values: `<*, *>` is touched, then the url
      `*` is touched in every bucket of the resulting order, `*` included. */
  method AppendStar(d: Table) returns (t: Table)
    requires TableValid(d)
    ensures t == StarValues(d)
    ensures TableValid(t) && TableCountTotal(t) == TableCountTotal(d)
  {
    t := TouchPair(d, "*", "*");
    ghost var withStar := t;
    var keys := t.keys;
    for i := 0 to |keys|
      invariant t == TouchEach(withStar, keys[..i], "*")
      invariant TableCountTotal(t) == TableCountTotal(d)
    {
      TouchEachStep(withStar, keys, i, "*");
      t := TouchPair(t, keys[i], "*");
    }
    assert keys[..|keys|] == keys;
  }

  /** QueryURLMapping: the table of queries (insertion-ordered, with their
      buckets) and `count`, the number of pairs added (number_of_query_url_pairs). */
  class QueryUrlMapping {
    var queries: Table
    var count: int

    ghost predicate Valid()
      reads this
    {
      TableValid(queries)
    }

    /** The table's count agrees with the repetitions in its leaves. */
    ghost predicate CountConserved()
      reads this
    {
      count as real == TableCountTotal(queries)
    }

    constructor()
      ensures Valid() && CountConserved()
      ensures queries == OD.Dict([], map[]) && count == 0
    {
      queries := OD.Dict([], map[]);
      count := 0;
    }

    /** `add((q, u))`: one more repetition of the pair in its leaf, its
        bucket and the table. */
    method Add(q: string, u: string)
      requires Valid()
      modifies this
      ensures Valid()
      ensures queries == AddPair(old(queries), q, u) && count == old(count) + 1
      ensures old(CountConserved()) ==> CountConserved()
    {
      queries := AddPair(queries, q, u);
      count := count + 1;
    }

    /** append_star_values. */
    method AppendStarValues()
      requires Valid()
      modifies this
      ensures Valid()
      ensures queries == StarValues(old(queries))
      ensures count == old(count)
      ensures old(CountConserved()) ==> CountConserved()
    {
      var t := AppendStar(queries);
      queries := t;
    }

    /** subsume_those_not_present_in: collect the unmatched pairs while
        subsuming them into <*, *>, then delete them. */
    method SubsumeThoseNotPresentIn(other: QueryUrlMapping)
      requires Valid()
      modifies this
      ensures Valid()
      ensures queries == SubsumedNotPresentIn(old(queries), old(other.queries))
      ensures count == old(count)
      ensures old(CountConserved()) ==> CountConserved()
    {
      ghost var d := queries;
      var reference := other.queries;
      var t := queries;
      if "*" !in t.items {
        t := TouchPair(t, "*", "*");
      }
      var subsumed, toBeDeleted := SubsumeUnmatched(t, reference);
      t := DeleteRemoved(subsumed, toBeDeleted);
      assert TableCountTotal(t) == TableCountTotal(d) by {
        SubsumedNotPresentInCounts(d, reference);
      }
      queries := t;
    }

    /** iter_records. */
    function IterRecords(): (r: seq<(string, string)>)
      requires Valid()
      reads this
      ensures forall q, u :: (q, u) in r <==> HasPair(queries, q, u)
      ensures NoDuplicates(r)
    {
      var pairs := Pairs(queries);
      assert forall q, u :: (q, u) in pairs <==> HasPair(queries, q, u) by {
        forall q, u ensures (q, u) in pairs <==> HasPair(queries, q, u) {
          PairsExactlyOnce(queries, q, u);
        }
      }
      PairsExactlyOnce(queries, "", "");
      pairs
    }
  }
}
