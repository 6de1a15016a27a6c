/** The estimation pipeline of main.py: the preliminary head list from the
    opt-in table S, the opt-in estimates from the opt-in table T, the
    client estimates, and the blend of the two.  Each stage calls the
    mutating methods of the head-list, client and final objects in the
    order main.py does. */
module Pipeline {
  import opened Wrappers
  import OD = OrderedDict
  import SD = SortedDictOfLists
  import opened InMemoryStructures
  import opened Budget
  import opened HeadListQueries
  import opened HeadLists
  import opened Truncations
  import opened ClientSupport
  import CS = ClientStructures
  import opened FinalStructures

  /** What a head-list object holds: its table, the table's count of
      pairs, its probability index and its own τ. */
  datatype HeadListState = HeadListState(queries: Table, count: int, index: SD.SortedIndex, tau: real)

  ghost predicate StateValid(s: HeadListState) {
    TableValid(s.queries) && SD.Valid(s.index)
  }

  /** The first four steps of estimate_optin_probabilities on the head
      list `s` and the opt-in table `t` (with `tCount` pairs): T keeps only
      the pairs of the list (the rest go to <*, *>), then the list's
      probabilities relative to T, truncation to the configured size (which
      counts a new <*, *>) and the variances relative to T.  The result is
      the list's table, index and count, and T. */
  function OptinMeasured(s: HeadListState, t: Table, tCount: int, noise: (string, string) -> real, c: Config)
    : (r: Result<(Table, SD.SortedIndex, int, Table)>)
    requires StateValid(s) && TableValid(t)
    ensures r.Ok? ==> TableValid(r.value.0) && SD.Valid(r.value.1) && TableValid(r.value.3)
  {
    var t' := SubsumedNotPresentIn(t, s.queries);
    var p :- Probabilities(s.queries, s.index, t', tCount, noise);
    var tr :- Truncated(p.0, p.1, c.m);
    var v :- Variances(tr.0, tCount, c);
    Ok((v, tr.1, s.count + if "*" in p.0.items then 0 else 1, t'))
  }

  /** When each of the four steps succeeds, OptinMeasured is made of their
      results. */
  lemma MeasuredInStages(s: HeadListState, t: Table, tCount: int, noise: (string, string) -> real, c: Config,
                         p: (Table, SD.SortedIndex), tr: (Table, SD.SortedIndex), v: Table)
    requires StateValid(s) && TableValid(t)
    requires Probabilities(s.queries, s.index, SubsumedNotPresentIn(t, s.queries), tCount, noise) == Ok(p)
    requires Truncated(p.0, p.1, c.m) == Ok(tr)
    requires Variances(tr.0, tCount, c) == Ok(v)
    ensures var r := OptinMeasured(s, t, tCount, noise, c);
      r.Ok? && r.value.0 == v && r.value.1 == tr.1 &&
      r.value.2 == s.count + (if "*" in p.0.items then 0 else 1) && r.value.3 == SubsumedNotPresentIn(t, s.queries)
  {
  }

  /** On a head list as create_preliminary_headlist leaves it (every
      probability 0, an empty index), the truncation step keeps the sum of
      the buckets' probabilities, and that sum is the probability of all
      the list's leaves after the probability step. */
  lemma MeasuredKeepsBucketMass(s: HeadListState, t: Table, tCount: int, noise: (string, string) -> real, c: Config)
    requires StateValid(s) && TableValid(t) && Unestimated(s.queries) && s.index == SD.Empty()
    ensures var p := Probabilities(s.queries, s.index, SubsumedNotPresentIn(t, s.queries), tCount, noise);
      p.Ok? ==>
        Truncated(p.value.0, p.value.1, c.m).Ok? &&
        BucketMass(Truncated(p.value.0, p.value.1, c.m).value.0) == BucketMass(p.value.0) &&
        BucketMass(p.value.0) == OD.Sum(p.value.0, LeafProbabilityTotal)
  {
    var t' := SubsumedNotPresentIn(t, s.queries);
    var p := Probabilities(s.queries, s.index, t', tCount, noise);
    ProbabilitiesBalanced(s.queries, t', tCount, noise);
    if p.Ok? {
      TruncatedBucketMass(p.value.0, p.value.1, c.m);
      BalancedBucketMass(p.value.0);
    }
  }

  /** A step that raises ends OptinMeasured with its error. */
  lemma MeasuredRaises(s: HeadListState, t: Table, tCount: int, noise: (string, string) -> real, c: Config,
                       p: Result<(Table, SD.SortedIndex)>, tr: Result<(Table, SD.SortedIndex)>, e: Error)
    requires StateValid(s) && TableValid(t)
    requires p == Probabilities(s.queries, s.index, SubsumedNotPresentIn(t, s.queries), tCount, noise)
    requires p.Ok? ==> tr == Truncated(p.value.0, p.value.1, c.m)
    requires p.Err? ==> e == p.error
    requires p.Ok? && tr.Err? ==> e == tr.error
    requires p.Ok? && tr.Ok? ==> Variances(tr.value.0, tCount, c) == Err(e)
    ensures var r := OptinMeasured(s, t, tCount, noise, c);
      r.Err? && r.error == e
  {
  }

  /** The last two steps of estimate_optin_probabilities on the measured
      list `m`: the star values and the τs of the list and of each bucket. */
  function OptinFinished(m: (Table, SD.SortedIndex, int, Table), c: Config): (r: Result<(HeadListState, Table)>)
    requires TableValid(m.0) && SD.Valid(m.1) && TableValid(m.3)
    ensures r.Ok? ==> StateValid(r.value.0) && TableValid(r.value.1)
  {
    var withStars := StarValues(m.0);
    var tau :- ListTau(m.2, c);
    var taus :- Taus(withStars, c);
    Ok((HeadListState(taus, m.2, m.1, tau), m.3))
  }

  /** estimate_optin_probabilities: the four steps above, then the star
      values and the τs.  The result is the head list and T. */
  function OptinEstimated(s: HeadListState, t: Table, tCount: int, noise: (string, string) -> real, c: Config)
    : (r: Result<(HeadListState, Table)>)
    requires StateValid(s) && TableValid(t)
    ensures r.Ok? ==> StateValid(r.value.0) && TableValid(r.value.1)
  {
    var m :- OptinMeasured(s, t, tCount, noise, c);
    OptinFinished(m, c)
  }

  /** calculate_tau changes only the τ of each bucket: the queries, their
      urls and their leaves stay. */
  lemma TausKeepPairs(d: Table, c: Config, x: string, v: string)
    requires TableValid(d) && Taus(d, c).Ok?
    ensures x in Taus(d, c).value.items <==> x in d.items
    ensures HasPair(Taus(d, c).value, x, v) <==> HasPair(d, x, v)
    ensures LeafAt(Taus(d, c).value, x, v) == LeafAt(d, x, v)
  {
    assert forall q :: q in d.keys ==> q in d.items;
    TausOverAt(d, d.keys, c.expEpsilonPrimeU, DeltaPrimeU(c).value, x);
  }

  /** calculate_tau keeps a list ready for the clients. */
  lemma TausKeepStarReady(d: Table, c: Config)
    requires TableValid(d) && StarReady(d) && Taus(d, c).Ok?
    ensures StarReady(Taus(d, c).value)
  {
    TausKeepPairs(d, c, "*", "*");
    forall q | q in Taus(d, c).value.items
      ensures HasPair(Taus(d, c).value, q, "*")
    {
      TausKeepPairs(d, c, q, "*");
    }
  }

  /** append_star_values makes any list ready for the clients. */
  lemma StarValuesReady(d: Table)
    requires TableValid(d)
    ensures StarReady(StarValues(d))
  {
    StarValuesAt(d, "*", "*");
    StarValuesEveryBucket(d);
  }

  /** After the last two steps the head list is ready for the clients: it
      has a `*` query, every bucket has a `*` url, and its own τ is the one
      its count of pairs gives. */
  lemma FinishedReady(m: (Table, SD.SortedIndex, int, Table), c: Config)
    requires TableValid(m.0) && SD.Valid(m.1) && TableValid(m.3) && OptinFinished(m, c).Ok?
    ensures var h := OptinFinished(m, c).value.0;
      StarReady(h.queries) && ListTau(h.count, c) == Ok(h.tau)
  {
    StarValuesReady(m.0);
    TausKeepStarReady(StarValues(m.0), c);
  }

  /** OptinFinished raises when the list's τ or a bucket's τ does, and
      otherwise holds both. */
  lemma FinishedInStages(m: (Table, SD.SortedIndex, int, Table), c: Config)
    requires TableValid(m.0) && SD.Valid(m.1) && TableValid(m.3)
    ensures var r := OptinFinished(m, c);
      var lt := ListTau(m.2, c);
      var bt := Taus(StarValues(m.0), c);
      (r.Ok? <==> lt.Ok? && bt.Ok?) &&
      (lt.Err? ==> r.error == lt.error) &&
      (lt.Ok? && bt.Err? ==> r.error == bt.error) &&
      (r.Ok? ==> r.value.0 == HeadListState(bt.value, m.2, m.1, lt.value) && r.value.1 == m.3)
  {
  }

  /** OptinEstimated finishes what OptinMeasured measured. */
  lemma EstimatedFromMeasured(s: HeadListState, t: Table, tCount: int, noise: (string, string) -> real, c: Config)
    requires StateValid(s) && TableValid(t)
    ensures var m := OptinMeasured(s, t, tCount, noise, c);
      var r := OptinEstimated(s, t, tCount, noise, c);
      (m.Err? ==> r.Err? && r.error == m.error) &&
      (m.Ok? ==> r == OptinFinished(m.value, c))
  {
  }

  /** So after estimate_optin_probabilities the head list is ready for the
      clients. */
  lemma OptinReady(s: HeadListState, t: Table, tCount: int, noise: (string, string) -> real, c: Config)
    requires StateValid(s) && TableValid(t) && OptinEstimated(s, t, tCount, noise, c).Ok?
    ensures var h := OptinEstimated(s, t, tCount, noise, c).value.0;
      StarReady(h.queries) && ListTau(h.count, c) == Ok(h.tau)
  {
    FinishedReady(OptinMeasured(s, t, tCount, noise, c).value, c);
  }

  /** So once the opt-in estimates exist, local_alg on the list cannot
      raise and reports, for each client record, a pair of the list. */
  lemma ClientsReportListPairs(s: HeadListState, t: Table, tCount: int, noise: (string, string) -> real, c: Config,
                               records: seq<ClientRecord>)
    requires StateValid(s) && TableValid(t) && OptinEstimated(s, t, tCount, noise, c).Ok?
    ensures var h := OptinEstimated(s, t, tCount, noise, c).value.0;
      var r := LocalAlg(h.queries, h.count, c, records);
      r.Ok? && |r.value| == |records| &&
      forall k :: 0 <= k < |records| ==> HasPair(h.queries, r.value[k].0, r.value[k].1)
  {
    var h := OptinEstimated(s, t, tCount, noise, c).value.0;
    OptinReady(s, t, tCount, noise, c);
    LocalAlgInHeadList(h.queries, h.count, c, records);
  }

  /** create_preliminary_headlist: a new head list runs create_headlist
      on the opt-in table S. */
  method CreatePreliminaryHeadlist(config: Config, s: QueryUrlMapping, noise: (string, string) -> real)
    returns (headList: HeadList, status: Outcome)
    requires s.Valid()
    ensures fresh(headList) && fresh(headList.table) && headList.Valid() && headList.config == config
    ensures var r := CreatedHeadList(OD.Empty(), old(s.queries), noise, config);
      (status == Done <==> r.Ok?) &&
      (r.Ok? ==> headList.table.queries == r.value) &&
      (r.Err? ==> status == Raised(r.error))
  {
    headList := new HeadList(config);
    status := headList.CreateHeadList(s, noise);
  }

  /** estimate_optin_probabilities: the six steps in order, stopping at
      the first that raises; the head list object it was given comes back. */
  method EstimateOptinProbabilities(headList: HeadList, t: QueryUrlMapping, noise: (string, string) -> real)
    returns (same: HeadList, status: Outcome)
    requires headList.Valid() && t.Valid() && t != headList.table
    modifies headList, headList.table, t
    ensures same == headList && headList.Valid() && t.Valid()
    ensures var r := OptinEstimated(old(HeadListState(headList.table.queries, headList.table.count, headList.index, headList.tau)),
                                    old(t.queries), old(t.count), noise, headList.config);
      (status == Done <==> r.Ok?) &&
      (r.Ok? ==> HeadListState(headList.table.queries, headList.table.count, headList.index, headList.tau) == r.value.0 &&
                 t.queries == r.value.1) &&
      (r.Err? ==> status == Raised(r.error))
  {
    // The stage lemmas carry all the proof needs of these definitions.
    hide OptinEstimated, OptinMeasured, OptinFinished, Probabilities, Truncated, Variances, SubsumedNotPresentIn,
         StarValues, ListTau, Taus;
    same := headList;
    ghost var s0 := HeadListState(headList.table.queries, headList.table.count, headList.index, headList.tau);
    ghost var t0, tCount, c := t.queries, t.count, headList.config;
    EstimatedFromMeasured(s0, t0, tCount, noise, c);
    ghost var m := OptinMeasured(s0, t0, tCount, noise, c);
    t.SubsumeThoseNotPresentIn(headList.table);
    ghost var p := Probabilities(s0.queries, s0.index, t.queries, tCount, noise);
    status := headList.CalculateProbabilitiesRelativeTo(t, noise);
    if status.Raised? {
      MeasuredRaises(s0, t0, tCount, noise, c, p, Err(p.error), p.error);
      return;
    }
    ghost var tr := Truncated(p.value.0, p.value.1, c.m);
    status := headList.SubsumeEntriesBeyondMaxSize();
    if status.Raised? {
      MeasuredRaises(s0, t0, tCount, noise, c, p, tr, tr.error);
      return;
    }
    status := headList.CalculateVarianceRelativeTo(t);
    if status.Raised? {
      MeasuredRaises(s0, t0, tCount, noise, c, p, tr, status.error);
      return;
    }
    MeasuredInStages(s0, t0, tCount, noise, c, p.value, tr.value, headList.table.queries);
    FinishedInStages(m.value, c);
    headList.AppendStarValues();
    status := headList.CalculateTau();
  }

  /** estimate_client_probabilities: the client table computes its
      estimates in place and is handed back. */
  method EstimateClientProbabilities(headList: HeadList, client: QueryUrlMapping)
    returns (same: QueryUrlMapping, status: Outcome)
    requires client.Valid() && headList.Valid() && client != headList.table
    modifies client, headList.table
    ensures same == client && client.Valid() && headList.Valid()
    ensures var r := CS.ClientProbabilities(old(headList.table.queries), headList.tau, old(client.queries), old(client.count));
      (status == Done <==> r.Ok?) &&
      (r.Ok? ==> headList.table.queries == r.value.0 && client.queries == r.value.1) &&
      (r.Err? ==> status == Raised(r.error))
  {
    status := CS.CalculateProbabilities(client, headList);
    same := client;
  }

  /** blend_probabilities: a new final collection blends every pair of
      the head list, then every pair is blended once more, which changes
      neither the collection nor the client table. */
  method BlendProbabilities(optin: HeadList, client: QueryUrlMapping) returns (final: FinalQueryCollection, status: Outcome)
    requires optin.Valid() && client.Valid() && client != optin.table
    modifies client
    ensures fresh(final) && final.Valid() && client.Valid()
    ensures var h := optin.table.queries;
      var r := FinalProbabilities(h, old(client.queries));
      (status == Done <==> r.Ok?) &&
      (r.Ok? ==> final.queries == r.value && client.queries == TouchRows(old(client.queries), h, h.keys)) &&
      (r.Err? ==> status == Raised(ZeroDivision))
  {
    final := new FinalQueryCollection();
    status := final.CalculateProbabilityRelativeTo(client, optin);
    if status.Raised? {
      return;
    }
    ghost var h := optin.table.queries;
    ghost var d, c := final.queries, client.queries;
    var ps := Pairs(optin.table.queries);
    for i := 0 to |ps|
      invariant final.Valid() && client.Valid()
      invariant final.queries == d && client.queries == c
    {
      var (q, u) := ps[i];
      PairsExactlyOnce(h, q, u);
      SecondPassChangesNothing(h, old(client.queries), q, u);
      SecondPassReadsNothingNew(h, old(client.queries), q, u);
      var leafStatus := final.CalculateUrlProbabilityRelativeTo(client, optin, q, u);
      assert leafStatus == Done;
    }
  }
}
