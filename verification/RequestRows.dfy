/** Rows of requests.csv after the text of each column has been read as an integer
  (serving/live_astra_comparison_collect.py). */
module RequestRows {
  import opened Wrappers

  datatype RawRow = RawRow(
    sessionId: string, callIndex: int, arrival: int, completion: int, latency: int,
    ttft: int, csvTpot: int, output: int, generated: int)

  /** A validated row. The time per output token is the exact fraction post-first / (output - 1);
      a one-token output has none. */
  datatype Row = Row(
    sessionId: string, callIndex: nat, arrivalNs: nat, completionNs: nat, ttftNs: nat,
    tpotNs: Option<real>, outputTokens: nat, raw: RawRow)

  predicate NonNegative(raw: RawRow) {
    && raw.callIndex >= 0 && raw.arrival >= 0 && raw.completion >= 0 && raw.latency >= 0
    && raw.ttft >= 0 && raw.csvTpot >= 0 && raw.output >= 0 && raw.generated >= 0
  }

  function PostFirst(raw: RawRow): int { raw.latency - raw.ttft }

  // ---------------------------------------------------------------- session ids

  /** The characters Python's strip removes. */
  predicate IsSpace(c: char) {
    var n := c as int;
    || 0x09 <= n <= 0x0d || 0x1c <= n <= 0x20 || n == 0x85 || n == 0xa0 || n == 0x1680 || 0x2000 <= n <= 0x200a
    || n == 0x2028 || n == 0x2029 || n == 0x202f || n == 0x205f || n == 0x3000
  }

  /** Tab to carriage return, the separators before the space and the space itself, and the spaces beyond ASCII. */
  lemma SpacesAre(c: char)
    ensures IsSpace(c) <==>
      c in "\t\n\U{b}\U{c}\r\U{1c}\U{1d}\U{1e}\U{1f} \U{85}\U{a0}\U{1680}"
      || c in "\U{2000}\U{2001}\U{2002}\U{2003}\U{2004}\U{2005}\U{2006}\U{2007}\U{2008}\U{2009}\U{200a}"
      || c in "\U{2028}\U{2029}\U{202f}\U{205f}\U{3000}"
  {}

  function LeftStrip(s: string): (r: string)
    ensures |r| <= |s| && (|r| == |s| ==> r == s) && (r == s <==> s == [] || !IsSpace(s[0]))
  {
    if s != [] && IsSpace(s[0]) then LeftStrip(s[1..]) else s
  }

  function RightStrip(s: string): (r: string)
    ensures |r| <= |s| && (r == s <==> s == [] || !IsSpace(s[|s| - 1]))
  {
    if s != [] && IsSpace(s[|s| - 1]) then RightStrip(s[..|s| - 1]) else s
  }

  /** Nonempty, and neither end is whitespace. */
  predicate ValidSessionId(s: string) { s != [] && !IsSpace(s[0]) && !IsSpace(s[|s| - 1]) }

  /** Stripping leaves exactly the valid ids as they were. */
  lemma StripKeepsValidIds(s: string)
    ensures s != [] && RightStrip(LeftStrip(s)) == s <==> ValidSessionId(s)
  {
    hide IsSpace, LeftStrip, RightStrip;
    assert RightStrip(LeftStrip(s)) == s ==> |LeftStrip(s)| == |s|;
  }

  // ---------------------------------------------------------------- rows

  /** The cross-field rules a row has to meet. */
  predicate Consistent(raw: RawRow) {
    && ValidSessionId(raw.sessionId) && NonNegative(raw)
    && raw.output > 0 && raw.generated == raw.output
    && raw.completion - raw.arrival == raw.latency && raw.ttft <= raw.latency
    && (if raw.output == 1 then PostFirst(raw) == 0 && raw.csvTpot == 0
        else raw.csvTpot == PostFirst(raw) / (raw.output - 1))
  }

  function ExactTpot(raw: RawRow): Option<real>
    requires Consistent(raw)
  {
    if raw.output == 1 then None else Some(PostFirst(raw) as real / (raw.output - 1) as real)
  }

  function Parsed(raw: RawRow): Row
    requires Consistent(raw)
  {
    Row(raw.sessionId, raw.callIndex, raw.arrival, raw.completion, raw.ttft, ExactTpot(raw), raw.output, raw)
  }

  ghost predicate UniqueIdentities(rows: seq<RawRow>) {
    forall i, j :: 0 <= i < j < |rows| ==> (rows[i].sessionId, rows[i].callIndex) != (rows[j].sessionId, rows[j].callIndex)
  }

  /** Validate every row and reject a repeated (session, call) identity. */
  method ParseRequests(rows: seq<RawRow>) returns (r: Result<seq<Row>>)
    ensures r.Ok? <==> UniqueIdentities(rows) && forall i :: 0 <= i < |rows| ==> Consistent(rows[i])
    ensures r.Ok? ==> |r.value| == |rows| && forall i :: 0 <= i < |rows| ==> Consistent(rows[i]) && r.value[i] == Parsed(rows[i])
  {
    var parsed: seq<Row> := [];
    var seen: set<(string, int)> := {};
    for i := 0 to |rows|
      invariant UniqueIdentities(rows[..i])
      invariant forall j :: 0 <= j < i ==> Consistent(rows[j])
      invariant |parsed| == i && forall j :: 0 <= j < i ==> parsed[j] == Parsed(rows[j])
      invariant forall id :: id in seen <==> exists j :: 0 <= j < i && (rows[j].sessionId, rows[j].callIndex) == id
    {
      var raw := rows[i];
      StripKeepsValidIds(raw.sessionId);
      if raw.sessionId == [] || RightStrip(LeftStrip(raw.sessionId)) != raw.sessionId {
        return Err("invalid session_id");
      }
      if !NonNegative(raw) {
        return Err("negative field");
      }
      var identity := (raw.sessionId, raw.callIndex);
      if identity in seen {
        return Err("duplicate identity");
      }
      seen := seen + {identity};
      hide Parsed, ValidSessionId, NonNegative;
      var row := ParseTokens(raw);
      if row.Err? { return Err(row.error); }
      parsed := parsed + [row.value];
    }
    assert rows[..|rows|] == rows;
    r := Ok(parsed);
  }

  /** The rules between the columns of one row, and its exact time per output token. */
  method ParseTokens(raw: RawRow) returns (r: Result<Row>)
    requires ValidSessionId(raw.sessionId) && NonNegative(raw)
    ensures r.Ok? <==> Consistent(raw)
    ensures r.Ok? ==> r.value == Parsed(raw)
  {
    if raw.output <= 0 || raw.generated != raw.output {
      return Err("invalid output");
    }
    if raw.completion - raw.arrival != raw.latency || raw.ttft > raw.latency {
      return Err("inconsistent timing");
    }
    var postFirst := raw.latency - raw.ttft;
    var exact: Option<real>;
    if raw.output == 1 {
      if postFirst != 0 || raw.csvTpot != 0 {
        return Err("invalid one-token TPOT");
      }
      exact := None;
    } else {
      if raw.csvTpot != postFirst / (raw.output - 1) {
        return Err("inconsistent TPOT");
      }
      exact := Some(postFirst as real / (raw.output - 1) as real);
    }
    r := Ok(Row(raw.sessionId, raw.callIndex, raw.arrival, raw.completion, raw.ttft, exact, raw.output, raw));
  }

  /** A row the parser produced. */
  ghost predicate FromCsv(row: Row) {
    Consistent(row.raw) && row == Parsed(row.raw)
  }

  /** The row of a request that arrived, had its first of `output` tokens after `ttft` and completed. */
  function Recorded(sessionId: string, callIndex: int, arrival: int, ttft: int, completion: int, output: int): RawRow
    requires output >= 1
  {
    var latency := completion - arrival;
    RawRow(sessionId, callIndex, arrival, completion, latency, ttft, if output == 1 then 0 else (latency - ttft) / (output - 1), output, output)
  }

  /** Accepted rows are exactly the records of requests: the id is proper, numbers are not negative, the first
      token comes no later than the last, and a single token is both. */
  lemma ConsistentExactly(raw: RawRow)
    ensures Consistent(raw) <==>
      && ValidSessionId(raw.sessionId) && raw.callIndex >= 0 && raw.arrival >= 0 && raw.ttft >= 0 && raw.output >= 1
      && raw.arrival + raw.ttft <= raw.completion && (raw.output == 1 ==> raw.arrival + raw.ttft == raw.completion)
      && raw == Recorded(raw.sessionId, raw.callIndex, raw.arrival, raw.ttft, raw.completion, raw.output)
    ensures Consistent(raw) ==>
      var row := Parsed(raw);
      && (row.sessionId, row.callIndex, row.arrivalNs, row.completionNs, row.ttftNs, row.outputTokens, row.raw)
         == (raw.sessionId, raw.callIndex, raw.arrival, raw.completion, raw.ttft, raw.output, raw)
      && (row.tpotNs.Some? <==> raw.output > 1)
      && (raw.output > 1 ==> row.tpotNs.value * (raw.output - 1) as real == (raw.completion - raw.arrival - raw.ttft) as real)
  {
    hide ValidSessionId;
    if raw.output > 1 {
      QuotientIsNatural(raw.completion - raw.arrival - raw.ttft, raw.output - 1);
    }
  }

  lemma QuotientIsNatural(p: int, d: int)
    requires d > 0
    ensures p >= 0 ==> p / d >= 0
    ensures p as real / d as real * d as real == p as real
  {}

  /** The exact-fraction test is the integer test post-first <= slo * (output - 1). It implies that
      the floored value recorded in the CSV is within the limit. */
  lemma ExactTpotTest(row: Row, slo: nat)
    requires FromCsv(row) && row.outputTokens > 1
    ensures row.tpotNs.Some?
    ensures row.tpotNs.value <= slo as real <==> PostFirst(row.raw) <= slo * (row.outputTokens - 1)
    ensures row.tpotNs.value <= slo as real ==> row.raw.csvTpot <= slo
  {
    QuotientTest(PostFirst(row.raw), row.outputTokens - 1, slo);
  }

  lemma QuotientTest(p: int, d: int, slo: int)
    requires 0 <= p && 0 < d
    ensures p as real / d as real <= slo as real <==> p <= slo * d
    ensures p <= slo * d ==> p / d <= slo
  {
    var q := p as real / d as real;
    assert q * d as real == p as real;
    ScaleByPositive(q, slo as real, d as real);
    assert (slo * d) as real == slo as real * d as real;
    if p <= slo * d { FloorOfQuotient(p, d, slo); }
  }

  lemma ScaleByPositive(x: real, y: real, d: real)
    requires d > 0.0
    ensures x <= y <==> x * d <= y * d
  {
    assert (y - x) * d == y * d - x * d;
    if x > y { assert (x - y) * d > 0.0; }
  }

  lemma FloorOfQuotient(p: int, d: int, slo: int)
    requires 0 <= p && 0 < d && p <= slo * d
    ensures p / d <= slo
  {
    var q := p / d;
    assert q * d <= p;
    if slo + 1 <= q { MulMonotone(slo + 1, q, d); }
  }

  lemma MulMonotone(a: int, b: int, d: int)
    requires a <= b && 0 < d
    ensures a * d <= b * d
  {}

  /** Three tokens, the last two over three nanoseconds. */
  const HalfRow := RawRow("s", 0, 0, 3, 3, 0, 1, 3, 3)

  lemma OneLetterId()
    ensures ValidSessionId("s")
  {
    var s := "s";
    assert |s| == 1 && s[0] == 's';
  }

  lemma HalfRowIsConsistent()
    ensures Consistent(HalfRow) && PostFirst(HalfRow) == 3
  {
    hide ValidSessionId;
    OneLetterId();
  }

  lemma HalfRowTpot()
    requires Consistent(HalfRow)
    ensures ExactTpot(HalfRow) == Some(1.5)
  {
    hide Consistent;
  }

  /** The converse fails: the floored TPOT of this row is 1, its exact TPOT is 3/2. */
  lemma FlooredTpotIsWeaker() returns (row: Row)
    ensures FromCsv(row) && row.outputTokens > 1 && row.tpotNs.Some?
    ensures row.raw.csvTpot <= 1 && row.tpotNs.value > 1.0
  {
    hide Consistent, ExactTpot;
    HalfRowIsConsistent();
    HalfRowTpot();
    row := Parsed(HalfRow);
  }
}
