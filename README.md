# Blender estimation pipeline in Dafny

This project models the in-memory core of py_local_search, a Python
implementation of the Blender algorithm. Blender estimates how popular
each <query, url> pair is. It blends two sources: an opt-in group, whose
records are seen unperturbed, and clients, who report through a local
randomiser. The model follows the pipeline of `main.py`:

1. Build a preliminary head list from the opt-in table S by noisy
   thresholding (Figure 3 of the Blender paper).
2. Estimate the head list's probabilities and variances against the opt-in
   table T, truncate it to its m most probable queries, and compute τ
   (Figure 4).
3. Clients report their pairs through LocalAlg (Figure 6).
4. Invert the client reports into probability and variance estimates
   (Figure 5).
5. Blend the two estimates by inverse-variance weighting and list each
   query's urls in descending final probability (Figure 7).

Modules, one per source file:

- `Wrappers` (wrappers.dfy): `Result`/`Outcome`. Each exception the source
  can raise becomes an error value: a division by zero, a failed
  `assert`, `choice` on an empty list, or `list.remove` of a missing value.
- `Reals` (reals.dfy): small facts about products and quotients of reals
  that the formulas need.
- `OrderedDict` (ordered_dict.dfy): Python's `dict`, a map plus the order
  in which its keys were first inserted. Every level of the nested
  mappings iterates in this order.
- `InMemoryStructures` (in_memory_structures.py): the three-level
  aggregate. Leaves (`UrlStats`) and buckets (`UrlStatsMapping`) are
  values. The table is the class `QueryUrlMapping`, whose methods reassign
  its `queries` dictionary and its `count`.
- `SortedDictOfLists` (sorted_dict_of_lists.py): the probability-sorted
  index. Its keys are ascending, each key has a list, `GetItem` inserts a
  missing key, and `Records` is `iter_records`.
- `Budget` (main.py:74-101, head_list.py:90-105): the configuration, the
  ε′/δ′ splits, b_s/b_t, the discovery threshold and the τ formula.
- `HeadListQueries` (head_list.py:38-69): the head-list bucket, with its
  τ, its probability loop and its subsume.
- `HeadLists` (head_list.py:82-190): discovery, probabilities with
  indexing, variances and τ. The class `HeadList` owns a
  `QueryUrlMapping`, the index and τ.
- `Truncations` (head_list.py:141-168): the top-m truncation into the `*`
  bucket.
- `ClientSupport` (tests/client_support.py): `local_alg`. The draws of
  `random()` and `choice()` are inputs.
- `ClientStructures` (client_structures.py): the query-level and url-level
  inversion formulas and the loops that apply them.
- `FinalStructures` (final_structures.py): the blend, each final query's
  sorted index, `iter_records`, and the skip rule of `write`. The class
  `FinalQueryCollection` holds the final table.
- `Pipeline` (main.py:211-314): the four pipeline functions. They are
  methods that call the mutating methods in `main.py`'s order, and they
  are proved against value-level definitions of each stage.

### How the model is written

Each loop of the source that updates a table is a Dafny method. Its
`ensures` ties its result to a specification function, for example
`ensures r == Probabilities(d, ix, other, n, noise)`. Lemmas then state
what that function means: which pairs are kept, the value of each leaf,
what is conserved, and exactly when it fails. Read-only loops and
generators are recursive functions:
- `local_alg` is `Walk`;
- `iter_records` is `Records`, and on a final collection `IterRecords`;
- `iter_in_order` is `InOrder`;
- the loop of `write` is `LinesOf`.

Leaf-, bucket- and index-level updates are functions on values, and the
owning class reassigns the result. Examples are `subsume`, `touch`,
`update_probability`, and the index's `__getitem__` and `remove`. The
bucket's `calculate_probability_relative_to` (head_list.py:58-69) is the
module-level method `CalculateBucketProbabilities`. The methods of the
classes `QueryUrlMapping`, `HeadList` and `FinalQueryCollection` give
their whole new state in terms of the old one.

### Naming skew in the source

`client_structures.py` and `final_structures.py` read `number_of_*`
fields, which `in_memory_structures.py` does not define. The model reads
them as follows:

| source name | in the model |
|---|---|
| `number_of_repetitions` | a leaf's `count` |
| `number_of_urls` | a bucket's `count` (duplicates counted) |
| `number_of_unique_urls` | `Size` of a bucket |
| `number_of_queries` | the number of a table's keys |
| `number_of_query_url_pairs` | a table's `count` |

### Where the model follows the code rather than its tests

- The leaf probability is `count · y / n`, a product
  (in_memory_structures.py:90-92). tests/test_in_memory_structures.py:94-108
  mocks the Laplace draw y to 0 and expects 0.1 = (10 + 0)/100, an additive
  form. The product gives 0.
- `create_headlist` adds `<*, *>` with `add`, so that leaf starts at
  count 1 (head_list.py:125). tests/test_head_list.py:175 expects 0.
- `URLCounter.subsume` leaves the source leaf's count unchanged
  (in_memory_structures.py:65-66). tests/test_in_memory_structures.py:86
  expects it to be 0. `HeadListQuery.subsume` zeroes only the source leaf's
  probability (head_list.py:54-56).

## Model

| member | source | states |
|---|---|---|
| SortedDictOfLists.Empty | test_sorted_dict_of_lists.py:10-13 | a fresh index is valid and has no keys |
| SortedDictOfLists.Insert | sorted_dict_of_lists.py:11 | inserting a key into the sorted key sequence keeps it strictly ascending, adds exactly that key, and grows the sequence by one |
| SortedDictOfLists.GetItem | sorted_dict_of_lists.py:7-12 | an existing key returns its list and leaves the index unchanged; a missing key is inserted with an empty list, which is returned, and every other key is unchanged |
| SortedDictOfLists.Append | head_list.py:139 | `sd[k].append(v)`: key k's list (created empty if k is missing) gets v at its end, and no other list changes |
| SortedDictOfLists.RemoveFirstCounts | head_list.py:156 | `list.remove(v)` takes exactly one occurrence of v out of the list |
| SortedDictOfLists.Remove | head_list.py:156 | `sd[k].remove(v)` replaces key k's list by that list minus its first v; the keys are unchanged |
| SortedDictOfLists.RecordsDescending | sorted_dict_of_lists.py:14-17 | `iter_records` yields records whose keys never increase from one record to the next |
| SortedDictOfLists.RecordsMembership | sorted_dict_of_lists.py:14-17 | (k, v) is yielded iff k is a key and v is in k's list |
| SortedDictOfLists.RecordsInListOrder | sorted_dict_of_lists.py:16-17 | the values yielded under key k are exactly k's list, in list order; a missing key yields nothing |
| SortedDictOfLists.RecordsLength | sorted_dict_of_lists.py:14-17 | the number of records equals the sum of the list lengths |
| SortedDictOfLists.AppendRecords | head_list.py:139 | appending v under k adds exactly the record (k, v) to the multiset of records |
| SortedDictOfLists.RemoveRecords | head_list.py:156 | removing v under k takes exactly the record (k, v) out of the multiset of records |
| SortedDictOfLists.SameElementsSameRecords | sorted_dict_of_lists.py:14-17 | two indexes with the same keys and the same multiset of values under each key yield the same multiset of records |
| SortedDictOfLists.MoveToEnd | head_list.py:156-158 | removing a query and re-appending it under the same key moves it to the end of that key's list; the keys and the multiset of records stay the same |
| SortedDictOfLists.MoveToEndAt | head_list.py:156-158 | that move keeps every key and every list's membership |
| SortedDictOfLists.FreshIndexAppend | test_sorted_dict_of_lists.py:10-20 | a fresh index has no keys; after `sd['a'].append(15)` the list at 'a' is [15] and there is one key |
| OrderedDict.Empty | in_memory_structures.py:129 | a fresh dict is valid, with no keys and no items |
| OrderedDict.Put | in_memory_structures.py:167 | storing at k sets the item; k joins the key order at the end iff it was absent |
| OrderedDict.Delete | in_memory_structures.py:172 | deleting a present k removes its item and its place in the key order, and shrinks the dict by one |
| OrderedDict.SumPut | in_memory_structures.py:162-168 | a sum over the dict changes by the new value's share minus the replaced value's share |
| OrderedDict.SumDelete | in_memory_structures.py:170-172 | a sum over the dict loses exactly the deleted value's share |
| InMemoryStructures.IncrementCount | in_memory_structures.py:62-63 | the leaf count grows by the amount; probability and variance are unchanged |
| InMemoryStructures.CounterSubsume | in_memory_structures.py:65-66 | the sink's count grows by the source's count; nothing else in the sink changes |
| InMemoryStructures.Subsume | in_memory_structures.py:79-86 | the sink gains the source's count and probability; the sink's variance is untouched |
| InMemoryStructures.ProbabilityRelativeTo | in_memory_structures.py:88-92 | fails (division by zero) iff the other table's count is 0; otherwise p · n = count · y |
| InMemoryStructures.VarianceRelativeTo | in_memory_structures.py:94-101 | fails iff n is 0 or 1; otherwise v · n(n − 1) = n · p(1 − p) + 2b², which is p(1 − p)/(n − 1) + 2b²/(n(n − 1)), and v is non-negative for a probability p in [0, 1] |
| InMemoryStructures.VarianceExample | tests/test_in_memory_structures.py:110-121 | p = 0.1, n = 100, b = 1 gives 1/900 (≈ 0.00111111) |
| InMemoryStructures.Touch | in_memory_structures.py:134-136 | the url is present with its old leaf, or a fresh count-0 leaf; no bucket field or url count changes; an existing url leaves the bucket unchanged |
| InMemoryStructures.AddUrl | in_memory_structures.py:146-148 | the url's leaf count and the bucket count each grow by 1; the url joins the key order if absent; a bucket whose count matched its leaves still does |
| InMemoryStructures.SubsumeUrl | in_memory_structures.py:138-140 | the url's leaf subsumes the stats; the bucket probability grows by their probability; the bucket count does not change, while the leaf total grows by the subsumed count |
| InMemoryStructures.UpdateProbability | in_memory_structures.py:142-144 | only the bucket probability changes, growing by the leaf's probability; a valid bucket stays valid |
| InMemoryStructures.SetUrl | in_memory_structures.py:162-168 | the bucket count changes by new.count − old.count (old count 0 for a missing url); the count-matches-leaves invariant is kept |
| InMemoryStructures.DeleteUrl | in_memory_structures.py:170-172 | the url leaves the bucket; the bucket count drops by its leaf count; the size drops by one; the invariant is kept |
| InMemoryStructures.TouchIdempotent | in_memory_structures.py:134-136 | touching twice is touching once |
| InMemoryStructures.TouchThenAdd | tests/test_in_memory_structures.py:147-164 | after a touch the leaf count is 0, after a second touch and an add it is 1, and the bucket count grows by 1 |
| InMemoryStructures.Read | in_memory_structures.py:264-265 | reading a query returns its bucket; a missing query is inserted at the end with a fresh bucket |
| InMemoryStructures.AddPair | in_memory_structures.py:218-221 | adding <q, u> raises the leaf, the bucket and the table total each by exactly 1, creating entries on demand |
| InMemoryStructures.TouchPair | in_memory_structures.py:134-136 | `self[q].touch(u)` makes <q, u> present with its old leaf, leaves every count unchanged, and changes nothing when the pair exists |
| InMemoryStructures.TouchPairAt | in_memory_structures.py:134-136 | pointwise: no leaf value changes, exactly <q, u> is added as a pair, and bucket counts and probabilities are unchanged |
| InMemoryStructures.RowMembership | in_memory_structures.py:245-247 | the records of one bucket are exactly its <q, u> pairs |
| InMemoryStructures.PairsOfMembership | in_memory_structures.py:243-247 | `iter_records` yields (q, u) iff q is a key and u is one of its urls |
| InMemoryStructures.PairsExactlyOnce | in_memory_structures.py:243-247 | `iter_records` yields each pair of the table exactly once |
| InMemoryStructures.TouchEachAt | in_memory_structures.py:214-215 | touching u in every listed bucket adds exactly those pairs; keys, leaves, bucket counts, probabilities and the table total are unchanged |
| InMemoryStructures.StarValuesAt | in_memory_structures.py:212-215 | after `append_star_values`, `*` is a query; the pairs are the old ones plus a `*` url in every bucket; leaf values and bucket counts are unchanged |
| InMemoryStructures.StarValuesOrder | in_memory_structures.py:212-215 | `*` joins the key order at the end iff it was absent, and the table total is unchanged |
| InMemoryStructures.StarValuesEveryBucket | in_memory_structures.py:212-215 | every bucket, `*` included, holds a `*` url |
| InMemoryStructures.StarTouched | in_memory_structures.py:227-228 | `self['*'].touch('*')` when `*` is absent: `*` becomes a query, the other buckets and all counts are unchanged |
| InMemoryStructures.SubsumeIntoStar | in_memory_structures.py:233 | `self['*']['*'].subsume(leaf)`: the <*, *> leaf absorbs the leaf, and the table total grows by the leaf's count |
| InMemoryStructures.SubsumeIntoStarAt | in_memory_structures.py:233 | only the <*, *> leaf changes: its count grows by the subsumed count; the `*` bucket's count and probability are unchanged |
| InMemoryStructures.UnmatchedMembership | in_memory_structures.py:229-237 | the deletion list holds exactly the traversed pairs whose query is not `*` and which the other table lacks |
| InMemoryStructures.RemovedMembership | in_memory_structures.py:229-237 | over the whole table, the deletion list holds exactly the non-`*` pairs absent from the other table, each once |
| InMemoryStructures.SubsumeEachAt | in_memory_structures.py:229-237 | the first pass changes only the <*, *> leaf; every other bucket and every other `*` url is kept |
| InMemoryStructures.SubsumeEachCount | in_memory_structures.py:229-237 | the first pass raises the <*, *> count, and the table total, by the sum of the listed leaves' counts |
| InMemoryStructures.DeletePair | in_memory_structures.py:238-241 | deleting <q, u> removes only that pair; the bucket goes when it empties; its count and the table total drop by the leaf's count |
| InMemoryStructures.DeleteEachAt | in_memory_structures.py:238-241 | the second pass removes exactly the listed pairs; a bucket it leaves in place is non-empty |
| InMemoryStructures.DeleteEachCount | in_memory_structures.py:238-241 | the second pass lowers the table total by the sum of the listed leaves' counts |
| InMemoryStructures.SubsumedNotPresentInAt | in_memory_structures.py:223-241 | afterwards `*` exists and keeps its urls; a non-`*` pair survives iff the other table has it, and keeps its leaf; a bucket left behind is non-empty |
| InMemoryStructures.SubsumedNotPresentInCounts | in_memory_structures.py:223-241 | <*, *> grows by exactly the removed leaves' counts, and the total of the leaf counts is unchanged |
| InMemoryStructures.SubsumeUnmatched | in_memory_structures.py:226-237 | the first loop returns the deletion list and the table after every listed leaf has been subsumed into <*, *> |
| InMemoryStructures.DeleteRemoved | in_memory_structures.py:238-241 | the second loop returns the table with the listed pairs and the emptied buckets deleted |
| InMemoryStructures.AppendStar | in_memory_structures.py:212-215 | the loop computes the star-valued table and keeps the table total |
| InMemoryStructures.TouchEach | in_memory_structures.py:214-215 | touching one url in each listed bucket keeps the table valid; TouchEachAt states what it adds |
| InMemoryStructures.StarValues | in_memory_structures.py:212-215 | `append_star_values` as a function: it keeps the table valid; StarValuesAt, StarValuesOrder and StarValuesEveryBucket state what it holds |
| InMemoryStructures.Unmatched | in_memory_structures.py:229-237 | the deletion list of the first loop holds at most one pair per record traversed; UnmatchedMembership states which |
| InMemoryStructures.SubsumeEach | in_memory_structures.py:229-237 | the first loop's subsumptions into <*, *> keep the table valid with `*` present; SubsumeEachAt and SubsumeEachCount state what changes |
| InMemoryStructures.DeleteEach | in_memory_structures.py:238-241 | the second loop's deletions keep the table valid; DeleteEachAt and DeleteEachCount state what goes |
| InMemoryStructures.SubsumedNotPresentIn | in_memory_structures.py:223-241 | `subsume_those_not_present_in` as a function: it keeps the table valid; SubsumedNotPresentInAt and SubsumedNotPresentInCounts state its result |
| InMemoryStructures.QueryUrlMapping.constructor | in_memory_structures.py:202-210 | a new table is empty with count 0 |
| InMemoryStructures.QueryUrlMapping.Add | in_memory_structures.py:218-221 | the table becomes the one with <q, u> added; the top count grows by 1; count conservation is kept |
| InMemoryStructures.QueryUrlMapping.AppendStarValues | in_memory_structures.py:212-215 | the table becomes its star-valued form; the top count is unchanged |
| InMemoryStructures.QueryUrlMapping.SubsumeThoseNotPresentIn | in_memory_structures.py:223-241 | the table becomes the subsumed-and-deleted form against the other table; the top count is unchanged |
| InMemoryStructures.QueryUrlMapping.IterRecords | in_memory_structures.py:243-247 | the records are exactly the table's pairs, without duplicates |
| Budget.EpsilonPrime | main.py:74-77 | fails iff m_c = 0; otherwise ε′ · m_c = ε |
| Budget.EpsilonPrimeQ | main.py:81-84 | fails iff m_c = 0; otherwise ε′_q · m_c = f_c · ε |
| Budget.EpsilonPrimeU | main.py:85-88 | fails iff m_c = 0; otherwise ε′_u · m_c = ε − f_c · ε |
| Budget.DeltaPrime | main.py:90-93 | fails iff m_c = 0; otherwise δ′ · m_c = δ |
| Budget.DeltaPrimeQ | main.py:94-97 | fails iff m_c = 0; otherwise δ′_q · m_c = f_c · δ |
| Budget.DeltaPrimeU | main.py:98-101 | fails iff m_c = 0; otherwise δ′_u · m_c = δ − f_c · δ |
| Budget.SplitsAddUp | main.py:74-101 | ε′_q + ε′_u = ε′ and δ′_q + δ′_u = δ′ |
| Budget.SplitsNonNegative | main.py:82-100 | for 0 ≤ f_c ≤ 1 and positive ε, δ, m_c, all four splits are non-negative |
| Budget.NoiseScale | head_list.py:90-93 | b_s (and b_t) fails iff ε = 0; otherwise b_s · ε = 2 m_o |
| Budget.Threshold | head_list.py:94-101 | fails iff ε = 0; otherwise the threshold is b_s · (ln(e^{ε/2} + m_o − 1) − ln δ) |
| Budget.ThresholdExample | tests/test_head_list.py:79-80 | ε = 4 and m_o = 10, with ln(e² + 9) and ln(10⁻⁶) given to five decimals, give b_s = 5.0 and a threshold between 83.0606 and 83.0607 |
| Budget.Tau | head_list.py:43-48 | fails iff E + c − 1 = 0; otherwise τ · (E + c − 1) = E + (δ′/2)(c − 1) |
| Budget.TauIsProbability | head_list.py:182-188 | for E > 0, 0 ≤ δ′ ≤ 2 and c ≥ 1, τ is defined and lies in (0, 1]; τ = 1 when c = 1 |
| Budget.TauExample | tests/test_head_list.py:52-66 | E = e, δ′ = 1, c = 2 give τ ≈ 0.865529 |
| HeadListQueries.WithTau | head_list.py:43-48 | a bucket's τ uses its own count with ε′_u/δ′_u; it fails exactly on a zero divisor and changes no other field |
| HeadListQueries.BucketTauIsProbability | head_list.py:43-48 | with E > 0, 0 ≤ δ′_u ≤ 2 and a count of at least 1, a bucket's τ is in (0, 1], and 1 for a count of 1 |
| HeadListQueries.Absorb | head_list.py:50-56 | the `*` bucket gains the leaf's probability and the leaf's probability becomes 0; the total probability and the leaf counts are conserved |
| HeadListQueries.ProbabilityStepAt | head_list.py:59-66 | one url's probability is recomputed against the opt-in table and added into the bucket probability; no other field or leaf changes |
| HeadListQueries.ProbabilitiesOfUrlsAt | head_list.py:58-66 | the loop fails iff n = 0 and there are urls; each visited url gets `ProbabilityRelativeTo` of its own <q, u> count and noise draw, and the others are unchanged |
| HeadListQueries.ProbabilitiesOfUrlsGain | head_list.py:58-66 | the bucket probability grows by the sum of the new leaf probabilities, less the old ones of the visited urls |
| HeadListQueries.BucketProbabilitiesTotal | head_list.py:58-66 | starting from fresh leaves, the bucket probability ends as its old value plus the sum of its leaves' probabilities |
| HeadListQueries.CalculateBucketProbabilities | head_list.py:58-66 | the loop computes the bucket-probability function |
| HeadLists.CreatedHeadList | head_list.py:115-125 | fails with a division by zero iff ε = 0 and fails the assertion iff the threshold is below 1; otherwise it succeeds |
| HeadLists.DiscoveredMembership | head_list.py:120-123 | a pair is discovered iff it is a record of S and its S count plus its noise draw exceeds the threshold |
| HeadLists.DiscoveredNoDuplicates | head_list.py:120-123 | discovery over the records of S lists each pair at most once |
| HeadLists.AddPairAt | in_memory_structures.py:218-221 | adding <q, u> adds that pair and raises exactly its leaf count by one |
| HeadLists.AddEachAt | head_list.py:120-123 | after adding a list of pairs, a pair is present iff it was or is listed, and its count grows by its multiplicity |
| HeadLists.AddEachQueries | head_list.py:120-123 | the queries present afterwards are the old ones plus those of the listed pairs |
| HeadLists.AddEachTotal | head_list.py:120-123 | the table total grows by the number of pairs added |
| HeadLists.CreatedHeadListAt | head_list.py:119-125 | a pair is in the new head list iff it passes the noisy threshold, or is <*, *>; its count is 1 for each of those; no bucket is empty; the total is the number discovered plus one |
| HeadLists.AddPassing | head_list.py:120-123 | the loop adds exactly the discovered pairs and counts them |
| HeadLists.AddEach | head_list.py:120-123 | `add` of each listed pair keeps the table valid; AddEachAt, AddEachQueries and AddEachTotal state its result |
| HeadLists.CreatedUnestimated | head_list.py:115-125 | the new head list holds probability 0 in every bucket and every leaf |
| HeadLists.ProbabilitiesOverAt | head_list.py:131-136 | the loop fails iff n = 0 and some bucket has urls; the keys are unchanged; each visited bucket becomes its recomputed bucket and the others are unchanged |
| HeadLists.IndexEntriesMembership | head_list.py:137-139 | the entries indexed are exactly (bucket probability, q) for every visited q other than `*`, each once |
| HeadLists.ProbabilitiesOverIndex | head_list.py:128-139 | the index's records become the old ones plus exactly those entries |
| HeadLists.ProbabilitiesIndexFresh | head_list.py:128-139 | from an empty index, (p, q) is a record iff q is a non-`*` query whose new probability is p, and it occurs once |
| HeadLists.CalculateProbabilities | head_list.py:128-139 | the loop computes the probabilities function |
| HeadLists.ProbabilitiesOver | head_list.py:131-139 | the loop over the listed queries keeps the table and the index valid; ProbabilitiesOverAt and ProbabilitiesOverIndex state its result |
| HeadLists.Probabilities | head_list.py:128-139 | `calculate_probabilities_relative_to` over every query keeps the table and the index valid |
| HeadLists.ProbabilitiesBalanced | head_list.py:128-139 | from a head list without probabilities and an empty index, every bucket (`*` included) ends holding the sum of its leaves' probabilities, and the index lists each non-`*` query under its bucket's probability |
| HeadLists.WithVarianceAt | head_list.py:175-180 | setting one leaf's variance changes nothing else |
| HeadLists.VariancesOverFails | head_list.py:174-180 | the variance loop fails iff n is 0 or 1 and there are pairs |
| HeadLists.VariancesOverAt | head_list.py:174-180 | each visited leaf gets `VarianceRelativeTo` of its own probability, and everything else is unchanged |
| HeadLists.VariancesAt | head_list.py:170-180 | over all pairs: fails iff ε = 0, or n ≤ 1 with pairs present; every leaf gets its variance; a probability in [0, 1] with n > 1 gives a non-negative variance |
| HeadLists.CalculateVariances | head_list.py:170-180 | the loop computes the variances function |
| HeadLists.VariancesOver | head_list.py:174-180 | the loop over the listed pairs keeps the table valid; VariancesOverFails and VariancesOverAt state its result |
| HeadLists.Variances | head_list.py:170-180 | `calculate_variance_relative_to` keeps the table valid; VariancesAt states its result |
| HeadLists.ListTau | head_list.py:184-188 | fails iff m_c = 0 or the divisor is 0; otherwise it is `Tau` with ε′_q, δ′_q and the list's count |
| HeadLists.TausOverAt | head_list.py:189-190 | fails iff some visited bucket's τ divisor is 0; each visited bucket gets its own τ and the rest are unchanged |
| HeadLists.TausAreProbabilities | head_list.py:189-190 | with m_c ≠ 0, E > 0, 0 ≤ δ′_u ≤ 2 and every bucket count at least 1, every bucket's τ is defined and in (0, 1], the keys are kept, and nothing but τ changes |
| HeadLists.CalculateTaus | head_list.py:189-190 | the loop computes the bucket-τ function |
| HeadLists.TausOver | head_list.py:189-190 | the loop over the listed buckets keeps the table valid; TausOverAt states its result |
| HeadLists.Taus | head_list.py:189-190 | every bucket's τ keeps the table valid; TausAreProbabilities states its result |
| HeadLists.HeadList.constructor | head_list.py:107-113 | a new head list has an empty table, an empty index and τ = 0 |
| HeadLists.HeadList.CreateHeadList | head_list.py:115-125 | raises exactly when discovery fails; otherwise the table becomes the discovered head list and the count grows by the number discovered plus one |
| HeadLists.HeadList.CalculateProbabilitiesRelativeTo | head_list.py:128-139 | the table and the index become the probabilities result, or the method raises its error; the count and τ are unchanged |
| HeadLists.HeadList.SubsumeEntriesBeyondMaxSize | head_list.py:141-168 | the table and the index become the truncation result; the count grows by 1 iff `*` was absent |
| HeadLists.HeadList.CalculateVarianceRelativeTo | head_list.py:170-180 | the table becomes the variances result, or the method raises its error |
| HeadLists.HeadList.AppendStarValues | in_memory_structures.py:212-215 | the head list's table becomes its star-valued form |
| HeadLists.HeadList.CalculateTau | head_list.py:182-190 | τ and the buckets' τ become the formulas' values; the method raises iff either fails, leaving τ and the table unchanged |
| Truncations.AbsorbLeaf | head_list.py:157 | `self['*'].subsume(the_query, u)` leaves the table valid with `*` present |
| Truncations.AbsorbLeafAt | head_list.py:157 | pointwise: the pairs are unchanged; the `*` bucket gains the leaf's probability; only that leaf's probability becomes 0 |
| Truncations.AbsorbStep | head_list.py:156-164 | one step of the inner loop fails only with ValueError (the query missing from its tie list) and otherwise keeps the traversal state valid |
| Truncations.AbsorbUrls | head_list.py:152-164 | the inner loop over a query's urls keeps the traversal state valid; AbsorbUrlsInv states what it queues |
| Truncations.Pass | head_list.py:151-164 | `self[q]` then the inner loop keeps the traversal state valid; PassInv states what it queues |
| Truncations.TruncateRecords | head_list.py:148-164 | the outer loop over the index records keeps the traversal state valid; TruncateRecordsInv states what it queues |
| Truncations.Truncated | head_list.py:141-168 | the whole truncation keeps the table and the index valid; the lemmas below state its result |
| Truncations.AbsorbStepInv | head_list.py:156-164 | one step subsumes the leaf, moves the query to the end of its tie list and queues the pair, keeping the loop invariant |
| Truncations.AbsorbUrlsInv | head_list.py:152-164 | the inner loop queues exactly the query's pairs, in url order, and keeps the invariant |
| Truncations.PassInv | head_list.py:150-164 | a query beyond m queues all of its pairs |
| Truncations.DoomedMembership | head_list.py:148-164 | a pair is queued for deletion iff its query occurs at position m or later and it is a pair of the table |
| Truncations.TruncateRecordsInv | head_list.py:148-164 | over the records, the deletion list is exactly the doomed pairs and the invariant holds |
| Truncations.TruncatedShape | head_list.py:141-168 | truncation never fails; the result is the doomed pairs deleted from the absorbed table; the index keeps its entries; `*` is never doomed |
| Truncations.TruncatedPair | head_list.py:141-168 | a pair survives iff it was present and its query is not at position m or later; a query not beyond m keeps its whole bucket |
| Truncations.TruncatedStar | head_list.py:145-157 | `*` is present afterwards and keeps its urls; only its probability changes |
| Truncations.TruncatedGone | head_list.py:165-168 | a query whose pairs were all deleted is itself deleted |
| Truncations.TruncatedRemaining | head_list.py:148-150 | every query left is one of the first m queries in descending-probability order (or `*`) |
| Truncations.TruncatedAtMostM | head_list.py:141-168 | when the index lists every non-`*` query under its probability and no such bucket is empty, at most m + 1 queries remain (the m kept and `*`) |
| Truncations.TruncatedMass | head_list.py:141-168 | the leaf mass, the `*` bucket's probability plus all leaf probabilities, is conserved |
| Truncations.BalancedBucketMass | head_list.py:58-66 | when every bucket other than `*` holds the probability of its leaves, the sum of the bucket probabilities plus the `*` leaves' probability is the leaf mass |
| Truncations.WithStarBucketMass | head_list.py:145-147 | adding <*, *> adds no bucket probability |
| Truncations.TruncatedBucketBalanced | head_list.py:141-168 | a surviving query other than `*` still holds the probability of its leaves |
| Truncations.TruncatedBucketMass | head_list.py:141-168 | when every bucket other than `*` holds the probability of its leaves, the sum of `head_list[q].probability` over the queries is unchanged: each deleted bucket's probability went into `*` |
| Truncations.SubsumeQuery | head_list.py:151-164 | the inner loop computes one query's pass |
| Truncations.SubsumeBeyond | head_list.py:141-168 | the traversal and the deferred deletion compute the truncation function |
| Truncations.LiveVisits | head_list.py:148-158 | the traversal as written, over the live tie lists: it visits as many positions as there are records |
| Truncations.LiveWalkSkipsTie | head_list.py:148-158 | with index {0.0: [a, b]} and m = 0, the live walk visits a twice and never b, although b is at position 1 ≥ m |
| Truncations.LiveWalkSkipsAfterMove | head_list.py:148-158 | in a tie list [a, b, c] with m = 1 the live walk visits a, b, b and skips c |
| ClientSupport.Choice | tests/client_support.py:28-34 | `choice` fails iff the list is empty, and otherwise picks an element of the list |
| ClientSupport.MappedQuery | tests/client_support.py:19-20 | the query a record reads is the head list's own query when it has one, and otherwise `*` |
| ClientSupport.Respond | tests/client_support.py:19-38 | one record reads its mapped query from the head list; the result's table is that read |
| ClientSupport.Walk | tests/client_support.py:18-38 | one pair per remaining record |
| ClientSupport.LocalAlg | tests/client_support.py:10-38 | one pair per record; fails with τ's error when τ fails; any other failure is an empty choice |
| ClientSupport.WalkFails | tests/client_support.py:28-35 | the only way the walk fails is an empty choice |
| ClientSupport.RespondRandomPair | tests/client_support.py:24-31 | a first draw ≤ 1 − τ reports the chosen head-list query and one of its urls; this fails iff that bucket is empty |
| ClientSupport.RespondRandomUrl | tests/client_support.py:33-36 | otherwise a second draw ≤ 1 − τ_q keeps the mapped query and reports one of its bucket's urls |
| ClientSupport.RespondTruthful | tests/client_support.py:19-38 | otherwise the mapped pair is reported: `*` for a missing query, and `*` for a url that bucket lacks |
| ClientSupport.Reported | tests/client_support.py:19-38 | on a head list with star values, each report is a pair of the head list |
| ClientSupport.RespondInHeadList | tests/client_support.py:19-38 | on such a head list, a record never raises, reads insert nothing, and the report is `Reported` |
| ClientSupport.Reports | tests/client_support.py:18-38 | one report per record, in input order |
| ClientSupport.WalkReports | tests/client_support.py:18-38 | on such a head list the walk succeeds with exactly those reports |
| ClientSupport.LocalAlgInHeadList | tests/client_support.py:10-38 | on such a head list, `local_alg` fails iff τ does; otherwise record k reports `Reported`, a pair of the list |
| ClientStructures.RatioGap | client_structures.py:76-81 | (τ − r)(κ − 1) = κτ − 1, so τ − r = 0 exactly when κτ = 1 |
| ClientStructures.QueryEstimate | client_structures.py:71-90 | fails (division by zero) iff n is 0 or 1, κ = 1 or κτ = 1 |
| ClientStructures.QueryProbability | client_structures.py:76-82 | the estimate p solves ratio + (τ − ratio) · p = f |
| ClientStructures.QueryProbabilityInverts | client_structures.py:73-82 | the estimated p is the unique solution of r + (τ − r) p = f |
| ClientStructures.QueryVarianceScales | client_structures.py:84-90 | variance · (τ − r)² = f(1 − f)/(n − 1) |
| ClientStructures.QueryVarianceNonNegative | client_structures.py:84-90 | the query variance is non-negative for a count between 0 and n |
| ClientStructures.Slope | client_structures.py:31 | term_4 is 0 iff τ = 0 or τ_q − (1 − τ_q)/(k − 1) = 0 |
| ClientStructures.UrlProbability | client_structures.py:16-32 | a single-url bucket copies the head-list probability; otherwise it fails exactly on a zero divisor |
| ClientStructures.UrlProbabilityInverts | client_structures.py:28-32 | the url probability is the unique p whose expected report rate is r_c_q_u |
| ClientStructures.UrlVariance | client_structures.py:34-58 | a single-url bucket copies the head-list variance; otherwise it fails exactly on a zero divisor |
| ClientStructures.UrlVarianceScales | client_structures.py:46-58 | variance · slope² equals term_1 + term_2 + term_3, the variance of the report rate |
| ClientStructures.UrlVarianceDefinedWithProbability | client_structures.py:16-58 | when the query-level estimate succeeds, the url variance is defined iff the url probability is |
| ClientStructures.LeafEstimate | client_structures.py:93-111 | one url's estimate fails iff n = 0 or a formula does; it keeps the leaf's count |
| ClientStructures.UrlStep | client_structures.py:93-111 | one url's estimate keeps the bucket valid |
| ClientStructures.UrlsOver | client_structures.py:93-111 | the url loop keeps the bucket valid; UrlsOverAt states its result |
| ClientStructures.UrlsOverAt | client_structures.py:93-111 | the url loop fails iff it has urls and the estimate fails; each head-list url gets its estimate; other urls are unchanged; new urls join at the end |
| ClientStructures.EstimateUrls | client_structures.py:93-111 | the loop computes the url-loop function |
| ClientStructures.QueryStepAt | client_structures.py:71-111 | a client query gets the query-level estimate and, for each url of the head-list bucket, the url-level estimate; other urls are unchanged; it fails exactly when one of them does |
| ClientStructures.QueryStep | client_structures.py:71-111 | one client query's estimate keeps its bucket valid; QueryStepAt states its result |
| ClientStructures.ClientOver | client_structures.py:129-137 | the query loop keeps both tables valid; ClientOverAt and ClientOverHeadList state its result |
| ClientStructures.ClientProbabilities | client_structures.py:121-127 | fails the assertion when the head list has fewer queries than the client table |
| ClientStructures.ReadEachAt | client_structures.py:93 | reading `head_list[q]` inserts missing queries at the end and changes no bucket |
| ClientStructures.ClientOverHeadList | client_structures.py:129-137 | the head list afterwards is the old one with the client's queries read into it |
| ClientStructures.ClientOverAt | client_structures.py:129-137 | the query loop fails iff some query's step fails; otherwise every visited query is estimated and the rest are unchanged |
| ClientStructures.ClientProbabilitiesAt | client_structures.py:121-137 | over all client queries: fails iff one fails; otherwise each is estimated |
| ClientStructures.ClientEstimates | client_structures.py:71-137 | on success, each client query held by the head list has the query-level estimate and, per head-list url, the url-level estimate |
| ClientStructures.EstimateQuery | client_structures.py:71-111 | one query's method computes the query-step function and reads the head list |
| ClientStructures.EstimateQueries | client_structures.py:129-137 | the loop computes the query-loop function |
| ClientStructures.CalculateProbabilities | client_structures.py:121-137 | both tables become the function's result, or the method raises its error and leaves them unchanged; counts are unchanged |
| FinalStructures.Blend | final_structures.py:19-26 | fails iff the variance sum is 0 |
| FinalStructures.BlendWeighted | final_structures.py:25-26 | ω · s = client variance and p · s = v_c p_h + v_h p_c, where s is the variance sum |
| FinalStructures.BlendBetween | final_structures.py:25-26 | with non-negative variances and a positive sum, ω is in [0, 1] and p lies between p_head and p_client |
| FinalStructures.BlendAgreeing | final_structures.py:25-26 | equal estimates blend to that estimate |
| FinalStructures.FreshFinalQuery | final_structures.py:35-38 | a fresh final query has no urls and an empty index |
| FinalStructures.BlendedAt | final_structures.py:19-26 | one pair's blend fails iff its two variances sum to 0 |
| FinalStructures.TiedMembership | final_structures.py:40-44 | a url is tied at p iff it is blended and its blend is p |
| FinalStructures.BlendUrlsAt | final_structures.py:40-44 | the url loop fails iff some blend does; each visited url gets its blend and the others are kept |
| FinalStructures.BlendUrls | final_structures.py:40-44 | the url loop fails only with a division by zero and keeps the final query valid |
| FinalStructures.BlendUrlsIndex | final_structures.py:40-44 | each key's list gains exactly the urls blended to that probability, in visiting order |
| FinalStructures.BlendOrder | final_structures.py:40-48 | a fresh query's records are in descending probability; ties come in visiting order; (p, v) is listed iff v was blended to p |
| FinalStructures.TouchUrlsAt | final_structures.py:20-21 | the client reads insert pairs but change no leaf |
| FinalStructures.TouchRowsAt | final_structures.py:58-61 | over all queries: reads insert the head list's pairs and change no leaf |
| FinalStructures.BlendUrlsFrame | final_structures.py:20-26 | those reads do not change any blend |
| FinalStructures.QueryBlendAt | final_structures.py:59-61 | one query's blend fails iff one of its urls does; only that query changes |
| FinalStructures.QueryBlendKeys | final_structures.py:60 | a new final query joins the key order at the end |
| FinalStructures.BlendQueriesErr | final_structures.py:58-61 | the query loop fails iff some pair's blend does |
| FinalStructures.BlendQueriesAt | final_structures.py:58-61 | each visited query gets its url blend and the others are kept |
| FinalStructures.BlendQueriesKeys | final_structures.py:58-61 | the final keys are the old ones followed by the head list's queries |
| FinalStructures.BlendQueries | final_structures.py:58-61 | the query loop fails only with a division by zero and keeps the final table valid |
| FinalStructures.FinalProbabilities | final_structures.py:58-61 | the blend of every head-list query into an empty collection keeps the final table valid; FinalLeaves and FinalOrder state its result |
| FinalStructures.FinalLeaves | final_structures.py:58-61 | the final table has the head list's queries, in its order; a url is present iff it is a head-list pair; each leaf is that pair's blend |
| FinalStructures.FinalOrder | final_structures.py:46-48 | each final query's records are in descending probability, ties in head-list url order; (p, u) is listed iff u is a head-list url whose final probability is p |
| FinalStructures.RecordsFromMembership | final_structures.py:63-67 | `iter_records` yields (q, u) iff q is a final query and u is in its in-order list |
| FinalStructures.InOrderMembership | final_structures.py:46-48 | `iter_in_order` yields u iff u is indexed under some probability |
| FinalStructures.FinalRecords | final_structures.py:63-67 | the final records are exactly the head list's pairs |
| FinalStructures.LinesOfMembership | final_structures.py:71-75 | a line is written iff its pair is a record, its probability is the final one, and it is not a `*` url with probability 0 |
| FinalStructures.LinesOf | final_structures.py:71-75 | `write` gives at most one line per record |
| FinalStructures.LinesOfLength | final_structures.py:71-75 | when no url is `*`, every record gives exactly one line |
| FinalStructures.Reblend | main.py:306-312 | reblending one pair fails iff its blend does; it sets that url's final stats to the blend and leaves the index unchanged |
| FinalStructures.ReblendSettled | main.py:306-312 | a pair already blended against the same client stats is unchanged by the second pass |
| FinalStructures.SecondPassChangesNothing | main.py:306-312 | after the first pass, the second pass over the head list's pairs leaves the final table unchanged |
| FinalStructures.SecondPassReadsNothingNew | main.py:306-312 | the second pass's client reads insert nothing new |
| FinalStructures.BlendQueryUrls | final_structures.py:40-44 | one query's loop computes the url-blend function and the client reads |
| FinalStructures.BlendAllQueries | final_structures.py:58-61 | the query loop computes the query-blend function and the client reads |
| FinalStructures.FinalQueryCollection.constructor | final_structures.py:56 | a new collection is empty |
| FinalStructures.FinalQueryCollection.CalculateProbabilityRelativeTo | final_structures.py:58-61 | the final table becomes the blend of every head-list query and the client reads its pairs; or it raises a division by zero and nothing changes |
| FinalStructures.FinalQueryCollection.CalculateUrlProbabilityRelativeTo | final_structures.py:19-26 | one pair is reblended and its client read is recorded |
| Pipeline.MeasuredInStages | main.py:232-235 | when subsume, probabilities, truncation and variances each succeed, the measured stage yields their results and the new count |
| Pipeline.MeasuredRaises | main.py:232-235 | the measured stage raises exactly the first failing step's error |
| Pipeline.FinishedInStages | main.py:248-256 | the finishing stage succeeds iff both τ computations do; it yields the star-valued, τ-annotated head list |
| Pipeline.EstimatedFromMeasured | main.py:225-261 | the opt-in estimate fails with the measured stage's error, or is the finishing stage applied to its result |
| Pipeline.OptinMeasured | main.py:232-235 | the first four steps keep the head list, its index and T valid; MeasuredInStages and MeasuredRaises state its result |
| Pipeline.OptinFinished | main.py:248-256 | the star values and the τs keep the head list and T valid; FinishedInStages and FinishedReady state its result |
| Pipeline.OptinEstimated | main.py:225-261 | estimate_optin_probabilities keeps the head list and T valid; EstimatedFromMeasured states its result |
| Pipeline.MeasuredKeepsBucketMass | tests/test_head_list.py:169-214 | on a preliminary head list (all probabilities 0, empty index), the sum of the bucket probabilities after truncation equals the one after the probability step, which is the sum of all leaf probabilities |
| Pipeline.TausKeepPairs | head_list.py:189-190 | computing the buckets' τ keeps every query, pair and leaf |
| Pipeline.TausKeepStarReady | head_list.py:189-190 | computing the buckets' τ keeps the star values |
| Pipeline.StarValuesReady | main.py:248 | `append_star_values` leaves `*` present and a `*` url in every bucket |
| Pipeline.FinishedReady | main.py:248-256 | a finished head list has its star values, and its τ is the list τ of its count |
| Pipeline.OptinReady | main.py:237-256 | the estimated head list is ready for the clients: star values present and τ matching its count |
| Pipeline.ClientsReportListPairs | main.py:237-247 | on the estimated head list, `local_alg` succeeds with one pair per record, each a pair of the head list |
| Pipeline.CreatePreliminaryHeadlist | main.py:211-221 | returns a fresh head list holding the discovered table, or raises discovery's error |
| Pipeline.EstimateOptinProbabilities | main.py:225-261 | runs the six steps in order on the same head list and T; the state matches the opt-in estimate, or it raises its error |
| Pipeline.EstimateClientProbabilities | main.py:265-287 | returns the same client table, estimated in place, or raises the estimator's error |
| Pipeline.BlendProbabilities | main.py:291-314 | returns a fresh final collection holding the blend of every head-list pair, or raises a division by zero |

## Left out

- I/O and plumbing are not part of this model: configman configuration,
  `load`, jsonpickle state, every `print`, the file handling of `write`,
  `export_for_client_distribution`, the `__main__` block and
  `sqlite_db.py`.
- numpy's `laplace`, `random` and `choice` become inputs. The noise is a
  function from a pair to its draw; a client record carries its own draws.
  The model says nothing about their distributions.
- `math.exp` and `math.ln` are not computed. Their values for a given
  configuration are configuration fields: `lnThresholdArg`, `lnDelta`,
  `expEpsilonPrimeQ` and `expEpsilonPrimeU`.
- Floating point is modelled as exact real arithmetic, so there is no
  rounding and no infinity.
- The state left behind after an exception that escapes part-way through
  a loop is not modelled. On a raise, a method either leaves the state
  unchanged or promises nothing about it.
- Reads through a defaultdict that insert an entry are modelled where
  they change what a later step sees. These are `touch`, `add`, the
  client's `head_list[q]` and the blend's client reads. Elsewhere a read
  only looks and inserts nothing.
- The leaf `omega` and count fields of `FinalURLStats`, and the query-level
  count, probability and variance of a final query, are not kept.
  `FinalUrl` holds only the probability and ω.
- Truncations.Truncated: the traversal walks a snapshot of the index
  records, not the live tie lists the source mutates while iterating
  (see Findings).
- HeadListQueries.ProbabilitiesOfUrlsAt: head_list.py:60-65 passes
  `query_str`/`url_str` keywords that the leaf method does not accept. The
  model computes each url's probability from its own <q, u> count, which is
  what the call evidently intends.
- HeadLists.VariancesAt: head_list.py:175-180 passes `query_str`/`url_str`
  keywords that the leaf method (in_memory_structures.py:94) does not
  accept, so as written the call raises a TypeError on the first pair;
  <*, *> is always present, so it always raises. The model computes each
  leaf's variance from its own probability, which is what the call
  evidently intends.
- HeadLists.VariancesOverAt: the same keyword defect as VariancesAt; the
  model states the intended per-leaf variance, not the TypeError.
- HeadLists.VariancesOverFails: the same keyword defect as VariancesAt; it
  states the intended failure (n of 0 or 1), not the TypeError.
- HeadLists.HeadList.CalculateVarianceRelativeTo: the same keyword defect
  as VariancesAt; the method models the intended call.
- Pipeline.OptinEstimated: both keyword defects, at head_list.py:60-65 and
  head_list.py:175-180, would make `estimate_optin_probabilities` raise a
  TypeError as written. The model runs the pipeline with the intended
  calls.
- ClientStructures.CalculateProbabilities: `calculate_probabilities_relative_to`
  is modelled only with the client table as its own reference, which is
  how `calculate_probabilities` calls it.
- ClientStructures.ClientEstimates: it assumes that every client query is
  held by the head list.
- FinalStructures.FinalQueryCollection.CalculateUrlProbabilityRelativeTo:
  it requires the pair to be in the head list. It does not model the
  insertion of a fresh final query through the defaultdict when `q` is
  missing, which `blend_probabilities` never does.
- Three statements about the fixtures are not reproduced. The test data
  sets themselves are not modelled; the general lemmas `AddEachTotal`,
  `CreatedHeadListAt` and `SubsumedNotPresentInCounts` state the
  properties for every input. The statements are:
  - 8 pairs give 4 queries;
  - the tiny data set gives {q4, q6, q7, *};
  - `<*, *>` ends at 8.
- The superseded drafts `working_structures.py`, `optin_structures.py`
  and `blender.py` are not part of this model.

## Findings

| source | as written | input that shows it | evidently intended | confidence | as-written member | corrected member |
|---|---|---|---|---|---|---|
| head_list.py:148-158 | `iter_records` walks the live tie list while the loop removes the visited query and re-appends it to the same list, so later entries shift under the iterator | index {0.0: [a, b]} with m = 0: the walk visits a twice and never b, so b's pairs are neither subsumed nor deleted | every query at position m or later in the descending order is subsumed and deleted | not executed | Truncations.LiveWalkSkipsTie | Truncations.TruncatedPair |
