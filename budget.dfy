/** The configuration constants of the Blender estimator and the privacy
    budget arithmetic derived from them (the configuration aggregations of
    main.py and head_list.py), plus the τ formula shared by the head list,
    its buckets and the client-side randomisation.

    `exp` and `ln` are not computed: the values the program would obtain
    from them are fields of the configuration. */
module Budget {
  import opened Wrappers
  import opened Reals

  datatype Config = Config(
    epsilon: real,           // ε, the whole privacy budget
    delta: real,             // δ
    mO: real,                // m_o, records per opt-in user
    mC: real,                // m_c, records per client user
    fC: real,                // f_c, fraction of the client budget for queries
    m: int,                  // maximum size of the final head list
    lnThresholdArg: real,    // ln(exp(ε / 2) + m_o - 1)
    lnDelta: real,           // ln(δ)
    expEpsilonPrimeQ: real,  // exp(ε'_q)
    expEpsilonPrimeU: real)  // exp(ε'_u)

  /** ε' = ε / m_c: the budget per client record. */
  function EpsilonPrime(c: Config): (r: Result<real>)
    ensures r.Err? <==> c.mC == 0.0
    ensures r.Ok? ==> r.value * c.mC == c.epsilon
  {
    if c.mC == 0.0 then Err(ZeroDivision) else Ok(c.epsilon / c.mC)
  }

  /** ε'_q = f_c ε / m_c: the part spent on reporting the query. */
  function EpsilonPrimeQ(c: Config): (r: Result<real>)
    ensures r.Err? <==> c.mC == 0.0
    ensures r.Ok? ==> r.value * c.mC == c.fC * c.epsilon
  {
    if c.mC == 0.0 then Err(ZeroDivision) else Ok(c.fC * c.epsilon / c.mC)
  }

  /** ε'_u = ε / m_c - f_c ε / m_c: the part spent on reporting the url. */
  function EpsilonPrimeU(c: Config): (r: Result<real>)
    ensures r.Err? <==> c.mC == 0.0
    ensures r.Ok? ==> r.value * c.mC == c.epsilon - c.fC * c.epsilon
  {
    if c.mC == 0.0 then Err(ZeroDivision) else Ok(c.epsilon / c.mC - c.fC * c.epsilon / c.mC)
  }

  /** δ' = δ / m_c. */
  function DeltaPrime(c: Config): (r: Result<real>)
    ensures r.Err? <==> c.mC == 0.0
    ensures r.Ok? ==> r.value * c.mC == c.delta
  {
    if c.mC == 0.0 then Err(ZeroDivision) else Ok(c.delta / c.mC)
  }

  /** δ'_q = f_c δ / m_c. */
  function DeltaPrimeQ(c: Config): (r: Result<real>)
    ensures r.Err? <==> c.mC == 0.0
    ensures r.Ok? ==> r.value * c.mC == c.fC * c.delta
  {
    if c.mC == 0.0 then Err(ZeroDivision) else Ok(c.fC * c.delta / c.mC)
  }

  /** δ'_u = δ / m_c - f_c δ / m_c. */
  function DeltaPrimeU(c: Config): (r: Result<real>)
    ensures r.Err? <==> c.mC == 0.0
    ensures r.Ok? ==> r.value * c.mC == c.delta - c.fC * c.delta
  {
    if c.mC == 0.0 then Err(ZeroDivision) else Ok(c.delta / c.mC - c.fC * c.delta / c.mC)
  }

  /** The query and url parts of the client budget add up to the whole. */
  lemma SplitsAddUp(c: Config)
    requires c.mC != 0.0
    ensures EpsilonPrimeQ(c).value + EpsilonPrimeU(c).value == EpsilonPrime(c).value
    ensures DeltaPrimeQ(c).value + DeltaPrimeU(c).value == DeltaPrime(c).value
  {
  }

  /** For a fraction f_c in [0, 1] every split is non-negative. */
  lemma SplitsNonNegative(c: Config)
    requires 0.0 <= c.fC <= 1.0 && 0.0 < c.epsilon && 0.0 < c.delta && 0.0 < c.mC
    ensures EpsilonPrimeQ(c).value >= 0.0 && EpsilonPrimeU(c).value >= 0.0
    ensures DeltaPrimeQ(c).value >= 0.0 && DeltaPrimeU(c).value >= 0.0
  {
    SplitNonNegative(c.fC, c.epsilon, c.mC);
    SplitNonNegative(c.fC, c.delta, c.mC);
  }

  /** f x / m and x / m - f x / m are non-negative for f in [0, 1]. */
  lemma SplitNonNegative(f: real, x: real, m: real)
    requires 0.0 <= f <= 1.0 && 0.0 <= x && 0.0 < m
    ensures 0.0 <= f * x / m && 0.0 <= x / m - f * x / m
  {
    ProductBelow(f, x);
    QuotientNonNegative(f * x, m);
    QuotientNonNegative(x - f * x, m);
    DifferenceOfQuotients(x, f * x, m);
  }

  /** b_s = b_t = 2 m_o / ε, the Laplace scale of the opt-in noise. */
  function NoiseScale(c: Config): (r: Result<real>)
    ensures r.Err? <==> c.epsilon == 0.0
    ensures r.Ok? ==> r.value * c.epsilon == 2.0 * c.mO
  {
    if c.epsilon == 0.0 then Err(ZeroDivision) else Ok(2.0 * c.mO / c.epsilon)
  }

  /** The discovery threshold τ = b_s (ln(exp(ε / 2) + m_o - 1) - ln δ). */
  function Threshold(c: Config): (r: Result<real>)
    ensures r.Err? <==> c.epsilon == 0.0
    ensures r.Ok? ==> r.value == NoiseScale(c).value * (c.lnThresholdArg - c.lnDelta)
  {
    if c.epsilon == 0.0 then Err(ZeroDivision)
    else Ok((2.0 * c.mO / c.epsilon) * (c.lnThresholdArg - c.lnDelta))
  }

  /** With ε = 4, δ = 1e-6 and m_o = 10 the scale is 5 and, for logarithms
      within 1e-5 of ln(e² + 9) and ln(1e-6), the threshold is 83.0606... */
  lemma ThresholdExample(c: Config)
    requires c.epsilon == 4.0 && c.mO == 10.0
    requires 2.79661 < c.lnThresholdArg < 2.79662
    requires -13.81552 < c.lnDelta < -13.81551
    ensures NoiseScale(c) == Ok(5.0)
    ensures 83.0606 < Threshold(c).value < 83.0607
  {
  }

  /** τ = (E + (δ'/2)(c - 1)) / (E + c - 1) with E = exp(ε'): the
      probability that a client keeps its own query (with the list's count
      of pairs) or its own url (with a bucket's count). */
  function Tau(e: real, deltaPrime: real, count: real): (r: Result<real>)
    ensures r.Err? <==> e + count - 1.0 == 0.0
    ensures r.Ok? ==> r.value * (e + count - 1.0) == e + (deltaPrime / 2.0) * (count - 1.0)
  {
    if e + count - 1.0 == 0.0 then Err(ZeroDivision)
    else Ok((e + (deltaPrime / 2.0) * (count - 1.0)) / (e + count - 1.0))
  }

  /** For a positive E, at least one pair and 0 <= δ' <= 2, τ is a
      probability in (0, 1], and exactly 1 for a single pair. */
  lemma TauIsProbability(e: real, deltaPrime: real, count: real)
    requires 0.0 < e && 1.0 <= count && 0.0 <= deltaPrime <= 2.0
    ensures Tau(e, deltaPrime, count).Ok?
    ensures 0.0 < Tau(e, deltaPrime, count).value <= 1.0
    ensures count == 1.0 ==> Tau(e, deltaPrime, count).value == 1.0
  {
    var num := e + (deltaPrime / 2.0) * (count - 1.0);
    var den := e + count - 1.0;
    ProductBelow(deltaPrime / 2.0, count - 1.0);
    assert Tau(e, deltaPrime, count).value == num / den;
    QuotientIsFraction(num, den);
  }

  /** With E within 1e-5 of e, δ' = 1 and two pairs, τ is 0.86552... */
  lemma TauExample(e: real)
    requires 2.71828 < e < 2.71829
    ensures 0.86552 < Tau(e, 1.0, 2.0).value < 0.86553
  {
  }
}
