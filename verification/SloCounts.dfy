/** The one-pass SLO counting of the collector (serving/live_astra_comparison_collect.py) against a
  declarative count.

  Published floating-point values are compared as the collector compares them, within a tolerance; counts
  and times must be equal.
 */
module SloCounts {
  import opened NearestRank
  import opened RequestRows
  import opened Wrappers

  datatype Limits = Limits(ttft: int, tpot: int)

  /** A row passes when its first token and, if it has one, its exact TPOT are within the limits. */
  predicate Passes(row: Row, limits: Limits) {
    row.ttftNs <= limits.ttft && (row.tpotNs.None? || row.tpotNs.value <= limits.tpot as real)
  }

  predicate IsResume(row: Row) { row.callIndex > 0 }

  predicate HasTpot(row: Row) { row.tpotNs.Some? }

  /** The classes of rows the metrics count. */
  datatype Class = Resume | Eligible | ResumeEligible | Pass | Fail | ResumePass | ResumeFail

  predicate In(row: Row, c: Class, limits: Limits) {
    match c
    case Resume => IsResume(row)
    case Eligible => HasTpot(row)
    case ResumeEligible => IsResume(row) && HasTpot(row)
    case Pass => Passes(row, limits)
    case Fail => !Passes(row, limits)
    case ResumePass => IsResume(row) && Passes(row, limits)
    case ResumeFail => IsResume(row) && !Passes(row, limits)
  }

  datatype Counts = Counts(
    measured: int, resumes: int, tpotEligible: int, resumeTpotEligible: int,
    pass: int, fail: int, resumePass: int, resumeFail: int, passTokens: int,
    sessionPass: int, sessionFail: int, windowStart: int, windowEnd: int, windowDuration: int)

  /** Passing requests, resumes, tokens and sessions per second. */
  datatype Rates = Rates(request: real, resume: real, token: real, session: real)

  /** The published metrics: counts, rates, and the latency summaries of the resumes and of the rows with a
      TPOT. */
  datatype Metrics = Metrics(
    ttftSloNs: int, tpotSloNs: int, reported: Counts, rates: Rates,
    resumeTtft: Distribution, tpot: Distribution, resumeTpot: Distribution)

  // ---------------------------------------------------------------- closeness

  const RELATIVE := 0.000000000001
  const ABSOLUTE := 0.000001
  const NANOSECONDS_PER_SECOND := 1000000000.0

  function Abs(x: real): real { if x < 0.0 then -x else x }

  /** lines 882-902: within the relative tolerance of the larger one, or within the absolute one */
  predicate Close(a: real, b: real) {
    Abs(a - b) <= ABSOLUTE || Abs(a - b) <= RELATIVE * Abs(a) || Abs(a - b) <= RELATIVE * Abs(b)
  }

  predicate CloseTo(actual: Distribution, expected: Distribution) {
    && actual.count == expected.count
    && Close(actual.mean, expected.mean) && Close(actual.minimum, expected.minimum)
    && Close(actual.p50, expected.p50) && Close(actual.p95, expected.p95) && Close(actual.p99, expected.p99)
    && Close(actual.maximum, expected.maximum)
  }

  function PerSecond(count: int, durationNs: int): real
    requires durationNs > 0
  {
    count as real * (NANOSECONDS_PER_SECOND / durationNs as real)
  }

  /** The published rates are those of the published counts. */
  predicate RatesAgree(rates: Rates, c: Counts)
    requires c.windowDuration > 0
  {
    && Close(rates.request, PerSecond(c.pass, c.windowDuration))
    && Close(rates.resume, PerSecond(c.resumePass, c.windowDuration))
    && Close(rates.token, PerSecond(c.passTokens, c.windowDuration))
    && Close(rates.session, PerSecond(c.sessionPass, c.windowDuration))
  }

  // ---------------------------------------------------------------- counting

  function Count(c: Class, rows: seq<Row>, limits: Limits): nat {
    if rows == [] then 0
    else Count(c, rows[..|rows| - 1], limits) + if In(rows[|rows| - 1], c, limits) then 1 else 0
  }

  /** Output tokens of the passing rows. */
  function PassTokens(rows: seq<Row>, limits: Limits): nat {
    if rows == [] then 0
    else PassTokens(rows[..|rows| - 1], limits)
         + if Passes(rows[|rows| - 1], limits) then rows[|rows| - 1].outputTokens else 0
  }

  /** A session passes when it has a measured row and all of its measured rows pass. */
  predicate SessionPasses(s: string, rows: seq<Row>, limits: Limits) {
    && (exists row :: row in rows && row.sessionId == s)
    && (forall row :: row in rows && row.sessionId == s ==> Passes(row, limits))
  }

  function PassingSessions(ids: seq<string>, rows: seq<Row>, limits: Limits): set<string> {
    set s | s in ids && SessionPasses(s, rows, limits)
  }

  ghost predicate IsWindow(rows: seq<Row>, start: int, end: int) {
    && (exists row :: row in rows && row.arrivalNs == start)
    && (exists row :: row in rows && row.completionNs == end)
    && (forall row :: row in rows ==> start <= row.arrivalNs && row.completionNs <= end)
  }

  /** What each published count says about the measured rows. */
  ghost predicate Describes(c: Counts, measured: seq<Row>, ids: seq<string>, limits: Limits) {
    && c.measured == |measured|
    && c.resumes == Count(Resume, measured, limits)
    && c.tpotEligible == Count(Eligible, measured, limits)
    && c.resumeTpotEligible == Count(ResumeEligible, measured, limits)
    && c.pass == Count(Pass, measured, limits)
    && c.fail == Count(Fail, measured, limits)
    && c.resumePass == Count(ResumePass, measured, limits)
    && c.resumeFail == Count(ResumeFail, measured, limits)
    && c.passTokens == PassTokens(measured, limits)
    && c.sessionPass == |PassingSessions(ids, measured, limits)|
    && c.sessionFail == |ids| - c.sessionPass
    && IsWindow(measured, c.windowStart, c.windowEnd)
    && c.windowDuration == c.windowEnd - c.windowStart > 0
  }

  function Filter(c: Class, rows: seq<Row>, limits: Limits): (r: seq<Row>)
    ensures |r| == Count(c, rows, limits) && forall row :: row in r ==> In(row, c, limits)
  {
    if rows == [] then []
    else Filter(c, rows[..|rows| - 1], limits)
         + if In(rows[|rows| - 1], c, limits) then [rows[|rows| - 1]] else []
  }

  function Ttfts(rows: seq<Row>): (r: seq<real>)
    ensures |r| == |rows|
  {
    seq(|rows|, i requires 0 <= i < |rows| => rows[i].ttftNs as real)
  }

  function Tpots(rows: seq<Row>): (r: seq<real>)
    requires forall row :: row in rows ==> HasTpot(row)
    ensures |r| == |rows|
  {
    seq(|rows|, i requires 0 <= i < |rows| => if HasTpot(rows[i]) then rows[i].tpotNs.value else 0.0)
  }

  /** The published summaries are those of the measured rows. */
  predicate Summarizes(metrics: Metrics, measured: seq<Row>, limits: Limits) {
    && IsSummary(metrics.resumeTtft, Ttfts(Filter(Resume, measured, limits)))
    && IsSummary(metrics.tpot, Tpots(Filter(Eligible, measured, limits)))
    && IsSummary(metrics.resumeTpot, Tpots(Filter(ResumeEligible, measured, limits)))
  }

  predicate IsSummary(actual: Distribution, values: seq<real>) {
    Summarize(values).Ok? && CloseTo(actual, Summarize(values).value)
  }

  /** The dictionary of pass flags per session after the rows seen so far. */
  ghost predicate Flagged(flags: map<string, seq<bool>>, ids: seq<string>, rows: seq<Row>, limits: Limits) {
    && (forall s :: s in flags <==> s in ids)
    && (forall s :: s in flags ==> (flags[s] != [] <==> exists row :: row in rows && row.sessionId == s))
    && (forall s :: s in flags ==> (false in flags[s] <==> exists row :: row in rows && row.sessionId == s && !Passes(row, limits)))
  }

  /** One pass over the measured rows. */
  method CountRows(measured: seq<Row>, ids: seq<string>, limits: Limits)
    returns (passed: int, passedResumes: int, passTokens: int, flags: map<string, seq<bool>>)
    requires forall row :: row in measured ==> row.sessionId in ids
    ensures passed == Count(Pass, measured, limits)
    ensures passedResumes == Count(ResumePass, measured, limits)
    ensures passTokens == PassTokens(measured, limits)
    ensures Flagged(flags, ids, measured, limits)
  {
    passed, passedResumes, passTokens := 0, 0, 0;
    flags := map s | s in ids :: [];
    hide Count, PassTokens, Passes;
    NothingTallied(limits);
    for i := 0 to |measured|
      invariant Tallied(passed, passedResumes, passTokens, measured[..i], limits)
      invariant Flagged(flags, ids, measured[..i], limits)
    {
      var row := measured[i];
      var pass := Passes(row, limits);
      assert measured[..i + 1] == measured[..i] + [row];
      assert row in measured;
      FlagOne(flags, ids, measured[..i], row, limits);
      TallyOne(passed, passedResumes, passTokens, measured[..i], row, limits);
      flags := flags[row.sessionId := flags[row.sessionId] + [pass]];
      if pass {
        passed := passed + 1;
        passTokens := passTokens + row.outputTokens;
        if row.callIndex > 0 {
          passedResumes := passedResumes + 1;
        }
      }
    }
    assert measured[..|measured|] == measured;
  }

  ghost predicate Tallied(passed: int, passedResumes: int, passTokens: int, rows: seq<Row>, limits: Limits) {
    passed == Count(Pass, rows, limits) && passedResumes == Count(ResumePass, rows, limits) && passTokens == PassTokens(rows, limits)
  }

  lemma NothingTallied(limits: Limits)
    ensures Tallied(0, 0, 0, [], limits)
  {}

  lemma TallyOne(passed: int, passedResumes: int, passTokens: int, rows: seq<Row>, row: Row, limits: Limits)
    requires Tallied(passed, passedResumes, passTokens, rows, limits)
    ensures Passes(row, limits) ==>
      Tallied(passed + 1, if row.callIndex > 0 then passedResumes + 1 else passedResumes, passTokens + row.outputTokens, rows + [row], limits)
    ensures !Passes(row, limits) ==> Tallied(passed, passedResumes, passTokens, rows + [row], limits)
  {
    assert (rows + [row])[..|rows|] == rows;
  }

  lemma FlagOne(flags: map<string, seq<bool>>, ids: seq<string>, rows: seq<Row>, row: Row, limits: Limits)
    requires Flagged(flags, ids, rows, limits) && row.sessionId in ids
    ensures Flagged(flags[row.sessionId := flags[row.sessionId] + [Passes(row, limits)]], ids, rows + [row], limits)
  {
    assert forall x :: x in rows + [row] <==> x in rows || x == row;
    assert row in rows + [row];
  }

  /** Sessions with at least one flag and no false flag. */
  method CountSessions(flags: map<string, seq<bool>>, ghost ids: seq<string>, ghost rows: seq<Row>, ghost limits: Limits)
    returns (n: int)
    requires Flagged(flags, ids, rows, limits)
    ensures n == |PassingSessions(ids, rows, limits)|
  {
    var rest := flags.Keys;
    n := 0;
    ghost var counted: set<string> := {};
    while rest != {}
      invariant rest <= flags.Keys
      invariant counted == set s | s in flags.Keys - rest && SessionPasses(s, rows, limits)
      invariant n == |counted|
      decreases rest
    {
      var s :| s in rest;
      rest := rest - {s};
      if flags[s] != [] && false !in flags[s] {
        assert SessionPasses(s, rows, limits);
        n := n + 1;
        counted := counted + {s};
      }
    }
    assert counted == PassingSessions(ids, rows, limits);
  }

  method Window(rows: seq<Row>) returns (start: int, end: int)
    requires rows != []
    ensures IsWindow(rows, start, end)
  {
    start, end := rows[0].arrivalNs, rows[0].completionNs;
    for i := 1 to |rows|
      invariant IsWindow(rows[..i], start, end)
    {
      assert rows[..i + 1] == rows[..i] + [rows[i]];
      var row := rows[i];
      assert row in rows[..i + 1];
      if row.arrivalNs < start { start := row.arrivalNs; }
      if row.completionNs > end { end := row.completionNs; }
      assert forall x :: x in rows[..i + 1] <==> x in rows[..i] || x == row;
    }
    assert rows[..|rows|] == rows;
  }

  /** Recount and summarize what the metrics publish; any disagreement is an error. */
  method CrosscheckMetrics(metrics: Metrics, measured: seq<Row>, ids: seq<string>) returns (r: Result<Counts>)
    requires forall row :: row in measured ==> row.sessionId in ids
    ensures var limits := Limits(metrics.ttftSloNs, metrics.tpotSloNs);
      r.Ok? <==>
        && Count(Resume, measured, limits) > 0
        && Count(ResumeEligible, measured, limits) > 0
        && metrics.ttftSloNs >= 1 && metrics.tpotSloNs >= 1
        && Describes(metrics.reported, measured, ids, limits) && RatesAgree(metrics.rates, metrics.reported)
        && Summarizes(metrics, measured, limits)
    ensures r.Ok? ==> r.value == metrics.reported
  {
    var limits := Limits(metrics.ttftSloNs, metrics.tpotSloNs);
    var resumes := Filter(Resume, measured, limits);
    var tpotRows := Filter(Eligible, measured, limits);
    var resumeTpotRows := Filter(Eligible, resumes, limits);
    EligibleResumes(measured, limits);
    hide Passes, Close, PerSecond, IsSummary, IsWindow;
    if measured == [] || resumes == [] {
      return Err("measurement roster must contain requests and resumes");
    }
    if tpotRows == [] || resumeTpotRows == [] {
      return Err("measurement roster must contain TPOT-eligible requests");
    }
    if metrics.ttftSloNs < 1 || metrics.tpotSloNs < 1 {
      return Err("SLO limits must be at least one");
    }
    r := Recount(metrics.reported, measured, ids, limits, |resumes|, |tpotRows|, |resumeTpotRows|);
    if r.Err? { return; }
    var agree := CompareRates(metrics.rates, metrics.reported);
    if !agree { return Err("rate mismatch"); }
    agree := CompareSummaries(metrics, resumes, tpotRows, resumeTpotRows);
    if !agree { return Err("distribution mismatch"); }
  }

  method CompareSummaries(metrics: Metrics, resumes: seq<Row>, tpotRows: seq<Row>, resumeTpotRows: seq<Row>) returns (agree: bool)
    requires (forall row :: row in tpotRows ==> HasTpot(row)) && (forall row :: row in resumeTpotRows ==> HasTpot(row))
    ensures agree <==>
      && IsSummary(metrics.resumeTtft, Ttfts(resumes))
      && IsSummary(metrics.tpot, Tpots(tpotRows))
      && IsSummary(metrics.resumeTpot, Tpots(resumeTpotRows))
  {
    var resumeTtft, tpot, resumeTpot := Summarize(Ttfts(resumes)), Summarize(Tpots(tpotRows)), Summarize(Tpots(resumeTpotRows));
    hide Summarize, CloseTo;
    if resumeTtft.Err? || !CloseTo(metrics.resumeTtft, resumeTtft.value) { return false; }
    if tpot.Err? || !CloseTo(metrics.tpot, tpot.value) { return false; }
    if resumeTpot.Err? || !CloseTo(metrics.resumeTpot, resumeTpot.value) { return false; }
    agree := true;
  }

  method CompareRates(rates: Rates, c: Counts) returns (agree: bool)
    requires c.windowDuration > 0
    ensures agree <==> RatesAgree(rates, c)
  {
    hide Close, PerSecond;
    var request, resume := PerSecond(c.pass, c.windowDuration), PerSecond(c.resumePass, c.windowDuration);
    var token, session := PerSecond(c.passTokens, c.windowDuration), PerSecond(c.sessionPass, c.windowDuration);
    agree := Close(rates.request, request) && Close(rates.resume, resume) && Close(rates.token, token) && Close(rates.session, session);
  }

  method Recount(reported: Counts, measured: seq<Row>, ids: seq<string>, limits: Limits,
                 resumes: int, tpotRows: int, resumeTpotRows: int) returns (r: Result<Counts>)
    requires measured != [] && forall row :: row in measured ==> row.sessionId in ids
    requires resumes == Count(Resume, measured, limits) && tpotRows == Count(Eligible, measured, limits)
    requires resumeTpotRows == Count(ResumeEligible, measured, limits)
    ensures r.Ok? <==> Describes(reported, measured, ids, limits)
    ensures r.Ok? ==> r.value == reported
  {
    var passed, passedResumes, passTokens, flags := CountRows(measured, ids, limits);
    var passedSessions := CountSessions(flags, ids, measured, limits);
    var start, end := Window(measured);
    WindowIsUnique(measured, start, end, reported.windowStart, reported.windowEnd);
    PassesAndFails(measured, limits);
    if end - start <= 0 {
      return Err("measurement window has non-positive duration");
    }
    var expected := Counts(
      |measured|, resumes, tpotRows, resumeTpotRows,
      passed, |measured| - passed, passedResumes, resumes - passedResumes, passTokens,
      passedSessions, |ids| - passedSessions, start, end, end - start);
    if reported != expected {
      return Err("metrics mismatch");
    }
    r := Ok(expected);
  }

  lemma WindowIsUnique(rows: seq<Row>, a: int, b: int, c: int, d: int)
    requires IsWindow(rows, a, b)
    ensures IsWindow(rows, c, d) <==> c == a && d == b
  {}

  lemma CountSnoc(c: Class, front: seq<Row>, row: Row, limits: Limits)
    ensures Count(c, front + [row], limits) == Count(c, front, limits) + if In(row, c, limits) then 1 else 0
  {
    assert (front + [row])[..|front|] == front;
    hide Passes;
  }

  /** The eligible rows among the resumes are the eligible resumes. */
  lemma {:induction false} EligibleResumes(rows: seq<Row>, limits: Limits)
    ensures Filter(Eligible, Filter(Resume, rows, limits), limits) == Filter(ResumeEligible, rows, limits)
    ensures Count(ResumeEligible, rows, limits) <= Count(Eligible, rows, limits)
  {
    hide Passes, Count;
    if rows == [] {
      NothingCounted(limits);
    } else {
      var front, row := rows[..|rows| - 1], rows[|rows| - 1];
      assert rows == front + [row];
      EligibleResumes(front, limits);
      CountSnoc(Eligible, Filter(Resume, front, limits), row, limits);
      CountSnoc(Eligible, front, row, limits);
      CountSnoc(ResumeEligible, front, row, limits);
      var resumes := Filter(Resume, front, limits);
      assert resumes + [] == resumes;
      assert (resumes + [row])[..|resumes|] == resumes;
    }
  }

  lemma NothingCounted(limits: Limits)
    ensures forall c :: Count(c, [], limits) == 0
  {}

  /** Every measured row passes or fails, never both; the same for the resumes alone. */
  lemma {:induction false} PassesAndFails(rows: seq<Row>, limits: Limits)
    ensures Count(Pass, rows, limits) + Count(Fail, rows, limits) == |rows|
    ensures Count(ResumePass, rows, limits) + Count(ResumeFail, rows, limits) == Count(Resume, rows, limits)
  {
    if rows != [] { PassesAndFails(rows[..|rows| - 1], limits); }
  }

  // ---------------------------------------------------------------- what the counts mean

  /** A row passes when its first token is in time and the tokens after it took no longer than the limit for each;
      this needs no fractions. */
  lemma PassesInIntegers(row: Row, limits: Limits)
    requires FromCsv(row) && limits.tpot >= 0
    ensures Passes(row, limits) <==>
      row.raw.ttft <= limits.ttft && row.raw.completion - row.raw.arrival - row.raw.ttft <= limits.tpot * (row.raw.output - 1)
  {
    if row.outputTokens > 1 { ExactTpotTest(row, limits.tpot); }
  }

  predicate Counted(row: Row, c: Class, limits: Limits) {
    var resume, pass := row.callIndex >= 1, Passes(row, limits);
    match c
    case Resume => resume
    case Eligible => row.tpotNs != None
    case ResumeEligible => resume && row.tpotNs != None
    case Pass => pass
    case Fail => !pass
    case ResumePass => resume && pass
    case ResumeFail => resume && !pass
  }

  /** Each count is the number of rows of its class. */
  lemma {:induction false} CountsRows(c: Class, rows: seq<Row>, limits: Limits)
    ensures Count(c, rows, limits) == |set i | 0 <= i < |rows| && Counted(rows[i], c, limits)|
  {
    hide Passes, In, Counted;
    if rows != [] {
      var n := |rows| - 1;
      CountsRows(c, rows[..n], limits);
      InIsCounted(rows[n], c, limits);
      OneMoreCounted(rows, c, limits);
    }
  }

  lemma InIsCounted(row: Row, c: Class, limits: Limits)
    ensures In(row, c, limits) == Counted(row, c, limits)
  {
    hide Passes;
  }

  lemma OneMoreCounted(rows: seq<Row>, c: Class, limits: Limits)
    requires rows != []
    ensures var n := |rows| - 1; var front := rows[..n];
      |set i | 0 <= i < |rows| && Counted(rows[i], c, limits)|
      == |set i | 0 <= i < |front| && Counted(front[i], c, limits)| + if Counted(rows[n], c, limits) then 1 else 0
  {
    hide Counted;
    var n := |rows| - 1;
    var front := rows[..n];
    var all, before := set i | 0 <= i < |rows| && Counted(rows[i], c, limits), set i | 0 <= i < |front| && Counted(front[i], c, limits);
    assert n !in before;
    assert all == if Counted(rows[n], c, limits) then before + {n} else before;
  }

  /** A session passes exactly when some of its rows were measured and none of them fails. */
  lemma SessionsExactly(s: string, ids: seq<string>, rows: seq<Row>, limits: Limits)
    ensures s in PassingSessions(ids, rows, limits) <==>
      && s in ids
      && (set i | 0 <= i < |rows| && rows[i].sessionId == s) != {}
      && (set i | 0 <= i < |rows| && rows[i].sessionId == s && !Passes(rows[i], limits)) == {}
  {
    hide Passes;
    var all, failing := set i | 0 <= i < |rows| && rows[i].sessionId == s, set i | 0 <= i < |rows| && rows[i].sessionId == s && !Passes(rows[i], limits);
    if row :| row in rows && row.sessionId == s {
      var i :| 0 <= i < |rows| && rows[i] == row;
      assert i in all;
    }
    if row :| row in rows && row.sessionId == s && !Passes(row, limits) {
      var i :| 0 <= i < |rows| && rows[i] == row;
      assert i in failing;
    }
    assert forall i :: i in all ==> rows[i] in rows;
    assert forall i :: i in failing ==> rows[i] in rows;
  }

  /** The sample of a class has each of its rows as often as it was measured. */
  lemma {:induction false} FilterKeeps(c: Class, rows: seq<Row>, limits: Limits, row: Row)
    ensures multiset(Filter(c, rows, limits))[row] == if Counted(row, c, limits) then multiset(rows)[row] else 0
  {
    hide Passes, In, Counted;
    InIsCounted(row, c, limits);
    if rows != [] {
      var n := |rows| - 1;
      FilterKeeps(c, rows[..n], limits, row);
      InIsCounted(rows[n], c, limits);
      assert rows == rows[..n] + [rows[n]];
    }
  }

  /** The samples are the times to the first token and the exact times per later token. */
  lemma SamplesAre(rows: seq<Row>, i: nat)
    requires i < |rows| && FromCsv(rows[i])
    ensures Ttfts(rows)[i] == rows[i].raw.ttft as real
    ensures (forall row :: row in rows ==> HasTpot(row)) ==>
      var raw := rows[i].raw;
      rows[i] in rows && Tpots(rows)[i] * (raw.output - 1) as real == (raw.completion - raw.arrival - raw.ttft) as real
  {
    assert rows[i] in rows;
    ConsistentExactly(rows[i].raw);
    hide Consistent;
  }

  function OutputTokens(rows: seq<Row>): nat {
    if rows == [] then 0 else OutputTokens(rows[..|rows| - 1]) + rows[|rows| - 1].outputTokens
  }

  /** The passing tokens are the output tokens of the passing rows. */
  lemma {:induction false} PassTokensAre(rows: seq<Row>, limits: Limits)
    ensures PassTokens(rows, limits) == OutputTokens(Filter(Pass, rows, limits))
  {
    hide Passes;
    if rows != [] {
      PassTokensAre(rows[..|rows| - 1], limits);
      var front, row := Filter(Pass, rows[..|rows| - 1], limits), rows[|rows| - 1];
      assert (front + [row])[..|front|] == front && front + [] == front;
    }
  }

  /** The measured rows determine every published count, so accepted counts are the only ones. */
  lemma DescribedOnce(a: Counts, b: Counts, measured: seq<Row>, ids: seq<string>, limits: Limits)
    requires Describes(a, measured, ids, limits) && Describes(b, measured, ids, limits)
    ensures a == b
  {
    WindowIsUnique(measured, a.windowStart, a.windowEnd, b.windowStart, b.windowEnd);
    hide Count, PassTokens, PassingSessions, IsWindow;
  }

  /** Closeness: one part in 10^12 of the larger magnitude, or 10^-6. */
  lemma ClosenessIs(a: real, b: real)
    requires 0.0 <= a <= b
    ensures Close(a, b) == Close(b, a)
    ensures Close(a, b) <==> (b - a) * 1000000.0 <= 1.0 || (b - a) * 1000000000000.0 <= b
  {}

  /** An accepted summary has the size, mean, extremes and percentiles of the values, up to closeness. */
  lemma SummaryMeans(d: Distribution, values: seq<real>)
    ensures IsSummary(d, values) <==>
      && values != [] && d.count == |values|
      && var s := Summarize(values).value;
         Close(d.mean, s.mean) && Close(d.minimum, s.minimum) && Close(d.maximum, s.maximum)
         && Close(d.p50, s.p50) && Close(d.p95, s.p95) && Close(d.p99, s.p99)
  {
    hide Close;
  }

  /** A published rate is accepted exactly when it is close to its count over the window in seconds. */
  lemma RatesMean(r: Rates, c: Counts)
    requires c.windowDuration > 0
    ensures RatesAgree(r, c) <==>
      var seconds := c.windowDuration as real / 1000000000.0;
      && Close(r.request, c.pass as real / seconds) && Close(r.resume, c.resumePass as real / seconds)
      && Close(r.token, c.passTokens as real / seconds) && Close(r.session, c.sessionPass as real / seconds)
  {
    forall n: int ensures PerSecond(n, c.windowDuration) == n as real / (c.windowDuration as real / 1000000000.0) {
      OverSeconds(n as real, c.windowDuration as real);
    }
    hide Close, PerSecond;
  }

  lemma OverSeconds(n: real, d: real)
    requires d > 0.0
    ensures n * (NANOSECONDS_PER_SECOND / d) == n / (d / 1000000000.0)
  {
    var seconds := d / 1000000000.0;
    assert seconds * (NANOSECONDS_PER_SECOND / d) == 1.0;
    var rate := NANOSECONDS_PER_SECOND / d;
    assert n / seconds * seconds == n;
    assert n * rate * seconds == n * (rate * seconds);
    SameQuotient(n * rate, n / seconds, seconds);
  }

  lemma SameQuotient(x: real, y: real, d: real)
    requires d > 0.0 && x * d == y * d
    ensures x == y
  {
    assert (x - y) * d == 0.0;
  }
}
