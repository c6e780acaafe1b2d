/** The prefill-drain accounting: the checks the collector makes on a runtime report
  (serving/live_astra_comparison_collect.py), the four values it derives, and the checks the
  plotter makes on those values (serving/live_astra_comparison_plots.py).

  Ratios are exact reals. Type and presence checks of single JSON fields are not modelled, the
  lower bounds on the integers are.
 */
module PrefillDrain {
  import opened Wrappers

  datatype Policy = Policy(tailTokens: int, minTokens: int)

  datatype Pool = Pool(
    candidates: int, claimed: int, started: int, completed: int, fallbacks: int,
    logicalTokens: int, waitNs: int)

  datatype Lifecycle = Lifecycle(
    candidates: int, started: int, satisfied: int, waitExistingAppend: int,
    capacityFallback: int, committed: int, stale: int)

  datatype Report = Report(
    options: Policy, poolPolicy: Policy, pool: Pool, lifecycle: Lifecycle,
    kvBytesPerToken: int, pending: seq<nat>,
    poolSubmitted: int, poolCompleted: int, adapterRequests: int, adapterCompletions: int)

  datatype Derived = Derived(
    candidateFraction: real, meanWaitMs: real, fallbackFraction: real, logicalTrafficGib: real)

  predicate InRange(r: Report) {
    && r.options.tailTokens >= 0 && r.options.minTokens >= 0
    && r.poolPolicy.tailTokens >= 0 && r.poolPolicy.minTokens >= 0
    && r.pool.candidates >= 0 && r.pool.claimed >= 0 && r.pool.started >= 0
    && r.pool.completed >= 0 && r.pool.fallbacks >= 0 && r.pool.logicalTokens >= 0 && r.pool.waitNs >= 0
    && r.lifecycle.candidates >= 0 && r.lifecycle.started >= 0 && r.lifecycle.satisfied >= 0
    && r.lifecycle.waitExistingAppend >= 0 && r.lifecycle.capacityFallback >= 0
    && r.lifecycle.committed >= 0 && r.lifecycle.stale >= 0
    && r.kvBytesPerToken >= 1
    && r.poolSubmitted >= 0 && r.poolCompleted >= 0 && r.adapterRequests >= 0 && r.adapterCompletions >= 0
  }

  /** A ratio that is zero over zero, and an error for a nonzero numerator over zero. */
  function ZeroSafeRatio(numerator: int, denominator: int): Result<real> {
    if denominator == 0 then
      if numerator != 0 then Err("a nonzero numerator with a zero denominator") else Ok(0.0)
    else Ok(numerator as real / denominator as real)
  }

  const GIB: int := 1024 * 1024 * 1024

  /** The collector: every accounting check in order, then the derived values. */
  function Collect(r: Report): Result<Derived> {
    if !InRange(r) then Err("an integer field is below its minimum")
    else if r.options != r.poolPolicy then Err("policy options disagree with the pool report")
    else if exists i :: 0 <= i < |r.pending| && r.pending[i] != 0 then Err("report is not quiescent")
    else if r.pool.candidates != r.pool.claimed then Err("pool candidate/claim accounting mismatch")
    else if r.pool.candidates != r.pool.completed + r.pool.fallbacks then Err("pool terminal accounting mismatch")
    else if r.pool.candidates > r.poolSubmitted then Err("candidates exceed submitted requests")
    else if r.lifecycle.candidates != r.lifecycle.started + r.lifecycle.satisfied
                                      + r.lifecycle.waitExistingAppend + r.lifecycle.capacityFallback
    then Err("lifecycle outcome accounting mismatch")
    else if r.lifecycle.started != r.lifecycle.committed + r.lifecycle.stale
    then Err("lifecycle completion accounting mismatch")
    else if r.pool.started != r.lifecycle.started then Err("start accounting mismatch")
    else if r.pool.fallbacks != r.lifecycle.capacityFallback then Err("fallback accounting mismatch")
    else if r.pool.completed != r.lifecycle.satisfied + r.lifecycle.committed
    then Err("completion accounting mismatch")
    else if r.poolSubmitted != r.adapterRequests then Err("submitted request accounting mismatch")
    else if r.poolCompleted != r.adapterCompletions then Err("completed request accounting mismatch")
    else
      var candidateFraction := ZeroSafeRatio(r.pool.candidates, r.poolSubmitted);
      var meanWait := ZeroSafeRatio(r.pool.waitNs, r.pool.candidates);
      var fallbackFraction := ZeroSafeRatio(r.pool.fallbacks, r.pool.candidates);
      if candidateFraction.Err? then Err(candidateFraction.error)
      else if meanWait.Err? then Err(meanWait.error)
      else if fallbackFraction.Err? then Err(fallbackFraction.error)
      else Ok(Derived(
                candidateFraction.value, meanWait.value / 1000000.0, fallbackFraction.value,
                (r.pool.logicalTokens * r.kvBytesPerToken) as real / GIB as real))
  }

  // ---------------------------------------------------------------- the plotter

  const CANDIDATE := "candidate_fraction"
  const WAIT := "mean_wait_ms"
  const FALLBACK := "fallback_fraction"
  const TRAFFIC := "logical_traffic_gib"
  const FIELDS: seq<string> := [CANDIDATE, WAIT, FALLBACK, TRAFFIC]

  /** The derived values as the JSON object the plotter reads. */
  function AsObject(d: Derived): map<string, real> {
    map[CANDIDATE := d.candidateFraction, WAIT := d.meanWaitMs, FALLBACK := d.fallbackFraction, TRAFFIC := d.logicalTrafficGib]
  }

  predicate PlotterAccepts(raw: map<string, real>) {
    && CANDIDATE in raw && WAIT in raw && FALLBACK in raw && TRAFFIC in raw
    && 0.0 <= raw[CANDIDATE] <= 1.0
    && 0.0 <= raw[FALLBACK] <= 1.0
    && 0.0 <= raw[WAIT] && 0.0 <= raw[TRAFFIC]
    && (raw[CANDIDATE] == 0.0 ==> raw[WAIT] == 0.0 && raw[FALLBACK] == 0.0 && raw[TRAFFIC] == 0.0)
  }

  /** The plotter's metric group: complete, and no value below its minimum. */
  method LoadGroup(raw: map<string, real>) returns (r: Result<map<string, real>>)
    ensures r.Ok? <==> forall k :: k in FIELDS ==> k in raw && raw[k] >= 0.0
    ensures r.Ok? ==> r.value == map k | k in FIELDS :: raw[k]
  {
    if exists field :: field in FIELDS && field !in raw {
      return Err("metrics are partially reported");
    }
    var values: map<string, real> := map[];
    for i := 0 to |FIELDS|
      invariant values == map k | k in FIELDS[..i] :: raw[k]
      invariant forall j :: 0 <= j < i ==> raw[FIELDS[j]] >= 0.0
    {
      var field := FIELDS[i];
      if raw[field] < 0.0 {
        return Err("metric below its minimum");
      }
      values := values[field := raw[field]];
      assert FIELDS[..i + 1] == FIELDS[..i] + [field];
    }
    assert FIELDS[..|FIELDS|] == FIELDS;
    r := Ok(values);
  }

  /** The plotter: load the complete metric group, then cross-check it. */
  method LoadDrain(raw: map<string, real>) returns (r: Result<map<string, real>>)
    ensures r.Ok? <==> PlotterAccepts(raw)
    ensures r.Ok? ==> r.value == map k | k in FIELDS :: raw[k]
  {
    r := LoadGroup(raw);
    assert CANDIDATE == FIELDS[0] && WAIT == FIELDS[1] && FALLBACK == FIELDS[2] && TRAFFIC == FIELDS[3];
    if r.Err? { return; }
    var values := r.value;
    if values[CANDIDATE] > 1.0 {
      return Err("candidate fraction exceeds one");
    }
    if values[FALLBACK] > 1.0 {
      return Err("fallback fraction exceeds one");
    }
    if values[CANDIDATE] == 0.0 && (values[WAIT] != 0.0 || values[FALLBACK] != 0.0 || values[TRAFFIC] != 0.0) {
      return Err("zero candidates require zero wait, fallback, and traffic metrics");
    }
  }

  // ---------------------------------------------------------------- what acceptance means

  /** The collector accepts exactly the reports in which seven numbers of the lifecycle and the pool are free and
      the others follow from them, nothing is pending, both policies agree and a wait needs a candidate. */
  lemma CollectsExactly(r: Report)
    ensures Collect(r).Ok? <==>
      var l, p := r.lifecycle, r.pool;
      && l.satisfied >= 0 && l.committed >= 0 && l.capacityFallback >= 0 && l.stale >= 0 && l.waitExistingAppend >= 0
      && p.logicalTokens >= 0 && p.waitNs >= 0 && r.kvBytesPerToken >= 1 && r.poolCompleted >= 0
      && r.options.tailTokens >= 0 && r.options.minTokens >= 0 && r.poolPolicy == r.options
      && (forall i :: 0 <= i < |r.pending| ==> r.pending[i] == 0)
      && p.completed == l.satisfied + l.committed && p.fallbacks == l.capacityFallback
      && p.candidates == p.completed + p.fallbacks && p.claimed == p.candidates
      && p.started == l.started && l.started == l.committed + l.stale
      && l.candidates == p.candidates + l.stale + l.waitExistingAppend
      && r.adapterRequests == r.poolSubmitted && r.poolSubmitted >= p.candidates && r.adapterCompletions == r.poolCompleted
      && (p.candidates == 0 ==> p.waitNs == 0)
  {}

  /** What is derived: fractions of the requests and of the candidates, milliseconds per candidate, and GiB. */
  lemma DerivedExactly(r: Report)
    requires Collect(r).Ok?
    ensures var d, p := Collect(r).value, r.pool;
      && d.candidateFraction * r.poolSubmitted as real == p.candidates as real
      && d.fallbackFraction * p.candidates as real == p.fallbacks as real
      && d.meanWaitMs * 1000000.0 * p.candidates as real == p.waitNs as real
      && d.logicalTrafficGib * 1073741824.0 == (p.logicalTokens * r.kvBytesPerToken) as real
      && (p.candidates == 0 ==> d.candidateFraction == 0.0 && d.meanWaitMs == 0.0 && d.fallbackFraction == 0.0)
  {
    var d, p := Collect(r).value, r.pool;
    DerivedFields(r);
    hide Collect;
    RatioTimes(p.candidates, r.poolSubmitted);
    RatioTimes(p.fallbacks, p.candidates);
    RatioTimes(p.waitNs, p.candidates);
    InMillis(ZeroSafeRatio(p.waitNs, p.candidates).value, p.candidates as real);
    TimesDenominator((p.logicalTokens * r.kvBytesPerToken) as real, 1073741824.0);
  }

  lemma DerivedFields(r: Report)
    requires Collect(r).Ok?
    ensures var d, p := Collect(r).value, r.pool;
      var share, wait, fallback := ZeroSafeRatio(p.candidates, r.poolSubmitted), ZeroSafeRatio(p.waitNs, p.candidates),
                                   ZeroSafeRatio(p.fallbacks, p.candidates);
      && share.Ok? && wait.Ok? && fallback.Ok?
      && d.candidateFraction == share.value && d.meanWaitMs == wait.value / 1000000.0 && d.fallbackFraction == fallback.value
      && d.logicalTrafficGib == (p.logicalTokens * r.kvBytesPerToken) as real / 1073741824.0
      && (p.candidates == 0 ==> p.waitNs == 0 && p.fallbacks == 0)
  {
    hide ZeroSafeRatio;
    NothingOverZero(r.pool.waitNs, r.pool.candidates);
    NothingOverZero(r.pool.fallbacks, r.pool.candidates);
  }

  lemma NothingOverZero(a: int, b: int)
    ensures ZeroSafeRatio(a, b).Ok? <==> b == 0 ==> a == 0
  {}

  lemma RatioTimes(a: int, b: int)
    requires ZeroSafeRatio(a, b).Ok?
    ensures ZeroSafeRatio(a, b).value * b as real == a as real && (a == 0 ==> ZeroSafeRatio(a, b).value == 0.0)
  {
    if b != 0 { TimesDenominator(a as real, b as real); }
  }

  lemma InMillis(wait: real, count: real)
    ensures wait / 1000000.0 * 1000000.0 * count == wait * count
  {
    TimesDenominator(wait, 1000000.0);
  }

  lemma TimesDenominator(n: real, d: real)
    requires d != 0.0
    ensures n / d * d == n
  {}

  /** The plotter needs the four metrics and looks at nothing else: both fractions in [0, 1], no negative value, and
      nothing without candidates. */
  lemma PlotterExactly(raw: map<string, real>)
    ensures PlotterAccepts(raw) <==>
      && "candidate_fraction" in raw && "mean_wait_ms" in raw && "fallback_fraction" in raw && "logical_traffic_gib" in raw
      && var candidates, wait, fallback, traffic :=
           raw["candidate_fraction"], raw["mean_wait_ms"], raw["fallback_fraction"], raw["logical_traffic_gib"];
         && 0.0 <= candidates <= 1.0 && 0.0 <= fallback <= 1.0 && wait >= 0.0 && traffic >= 0.0
         && (candidates > 0.0 || (wait == 0.0 && fallback == 0.0 && traffic == 0.0))
  {}

  /** The linear system has one consequence no single check states: the lifecycle saw exactly the
      pool's candidates, plus the stale ones and those that waited for an existing append. */
  lemma AcceptedAccounting(r: Report)
    requires Collect(r).Ok?
    ensures r.lifecycle.candidates == r.pool.candidates + r.lifecycle.stale + r.lifecycle.waitExistingAppend
    ensures r.pool.candidates == r.lifecycle.satisfied + r.lifecycle.committed + r.lifecycle.capacityFallback
    ensures 0.0 <= Collect(r).value.candidateFraction <= 1.0
    ensures 0.0 <= Collect(r).value.fallbackFraction <= 1.0
    ensures r.pool.candidates == 0 ==> r.pool.waitNs == 0 && r.pool.fallbacks == 0 && r.pool.completed == 0
  {
    Fraction(r.pool.candidates, r.poolSubmitted);
    Fraction(r.pool.fallbacks, r.pool.candidates);
  }

  lemma Fraction(a: int, b: int)
    requires 0 <= a <= b
    ensures ZeroSafeRatio(a, b).Ok? && 0.0 <= ZeroSafeRatio(a, b).value <= 1.0
    ensures ZeroSafeRatio(a, b).value == 0.0 <==> a == 0
  {
    if b != 0 {
      var q := a as real / b as real;
      assert q * b as real == a as real;
    }
  }

  lemma NonNegativeQuotient(a: int, b: int)
    requires 0 <= a && 0 < b
    ensures a as real / b as real >= 0.0
    ensures a as real / b as real == 0.0 <==> a == 0
  {
    var q := a as real / b as real;
    assert q * b as real == a as real;
  }

  lemma PositiveProduct(a: int, b: int)
    requires 0 <= a && 1 <= b
    ensures a * b >= 0 && (a * b == 0 <==> a == 0)
  {}

  /** The plotter accepts what the collector derives, with one exception: a run without candidates
      that nevertheless drained tokens passes the collector and fails the plotter. */
  lemma PlotterAgreesWithCollector(r: Report)
    requires Collect(r).Ok?
    ensures PlotterAccepts(AsObject(Collect(r).value)) <==> !(r.pool.candidates == 0 && r.pool.logicalTokens != 0)
  {
    Fraction(r.pool.candidates, r.poolSubmitted);
    Fraction(r.pool.fallbacks, r.pool.candidates);
    var d := Collect(r).value;
    if r.pool.candidates != 0 {
      NonNegativeQuotient(r.pool.waitNs, r.pool.candidates);
    }
    PositiveProduct(r.pool.logicalTokens, r.kvBytesPerToken);
    NonNegativeQuotient(r.pool.logicalTokens * r.kvBytesPerToken, GIB);
    assert AsObject(d)[CANDIDATE] == d.candidateFraction && AsObject(d)[WAIT] == d.meanWaitMs;
    assert AsObject(d)[FALLBACK] == d.fallbackFraction && AsObject(d)[TRAFFIC] == d.logicalTrafficGib;
  }

  /** The exception is real: this report is accepted by the collector and refused by the plotter. */
  lemma DisagreementExists() returns (r: Report)
    ensures Collect(r).Ok? && !PlotterAccepts(AsObject(Collect(r).value))
  {
    r := Report(
      Policy(0, 0), Policy(0, 0), Pool(0, 0, 0, 0, 0, 1, 0), Lifecycle(0, 0, 0, 0, 0, 0, 0),
      1, [0, 0, 0, 0], 0, 0, 0, 0);
    PlotterAgreesWithCollector(r);
  }
}
