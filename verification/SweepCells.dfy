/** One cell of a comparison sweep on disk, and the manifest over all of them (serving/hbf_comparison_sweep.py).

  A cell directory is committed by its completion marker, which repeats the cell's contract and names the
  other two files by content. Hashes are injective here: a file's hash and size stand for its content.
 */
module SweepCells {
  import opened Wrappers
  import opened Sorting

  datatype Coord = Coord(seed: int, rate: string, system: string)

  /** What a cell must be: its contract, and what the schedule of its seed and rate prescribes. */
  datatype Task = Task(
    coord: Coord, contract: string, pairHash: string, schedule: string, calls: string,
    measurement: string, completions: set<string>, callCount: nat)

  datatype CellResult = CellResult(
    system: string, rate: string, schedule: string, calls: string, measurement: string,
    completions: set<string>, order: string, identities: seq<string>, body: string)

  datatype ResultContract = ResultContract(
    schedule: string, calls: string, measurement: string, completions: set<string>, order: string, requests: nat)

  datatype Name = CellJson | RequestCsv | CompletionJson | Temporary(n: nat)

  datatype File = ResultFile(result: CellResult) | CsvFile(rows: nat, text: string) | MarkerFile(marker: Marker) | OtherFile(text: string)

  datatype Marker = Marker(contract: string, result: ResultContract, cellJson: File, csv: File)

  datatype Entry = Directory(files: map<Name, File>) | NotDirectory

  datatype Record = Record(coord: Coord, contract: string, pairHash: string, result: ResultContract, cellJson: File, csv: File, marker: Marker)

  predicate DistinctIdentities(s: seq<string>) { forall i, j :: 0 <= i < j < |s| ==> s[i] != s[j] }

  /** lines 815-957: the result is for this cell, and drained exactly the planned calls. */
  function ValidateResult(r: CellResult, task: Task): Option<ResultContract> {
    if && r.system == task.coord.system && r.rate == task.coord.rate
       && r.schedule == task.schedule && r.calls == task.calls && r.measurement == task.measurement
       && r.completions == task.completions
       && |r.identities| == task.callCount && DistinctIdentities(r.identities)
       && (set id | id in r.identities) == task.completions
    then Some(ResultContract(r.schedule, r.calls, r.measurement, r.completions, r.order, |r.identities|))
    else None
  }

  /** A result fits when it is for this cell, followed its schedule, and drained each planned call exactly once;
      its contract repeats what it followed, with the number of drained calls. */
  lemma FitsExactly(r: CellResult, task: Task)
    ensures ValidateResult(r, task).Some? <==>
      && (r.system, r.rate) == (task.coord.system, task.coord.rate)
      && (r.schedule, r.calls, r.measurement, r.completions) == (task.schedule, task.calls, task.measurement, task.completions)
      && multiset(r.identities) == multiset(task.completions) && |task.completions| == task.callCount
    ensures ValidateResult(r, task).Some? ==>
      ValidateResult(r, task).value == ResultContract(task.schedule, task.calls, task.measurement, task.completions, r.order, task.callCount)
  {
    var drained := set id | id in r.identities;
    if DistinctIdentities(r.identities) && drained == task.completions { OnceEach(r.identities, task.completions); }
    if multiset(r.identities) == multiset(task.completions) { OnceEachBack(r.identities, task.completions); }
  }

  lemma OnceEach(s: seq<string>, d: set<string>)
    requires DistinctIdentities(s) && d == set id | id in s
    ensures multiset(s) == multiset(d) && |d| == |s|
  {
    assert Distinct(s);
    DistinctIsMultiplicity(s);
    hide Distinct, DistinctIdentities;
    forall id ensures multiset(s)[id] == multiset(d)[id] { assert id in s <==> id in multiset(s); }
    assert multiset(s) == multiset(d);
    assert |s| == |multiset(s)|;
  }

  lemma OnceEachBack(s: seq<string>, d: set<string>)
    requires multiset(s) == multiset(d)
    ensures DistinctIdentities(s) && d == (set id | id in s) && |d| == |s|
  {
    forall id ensures id in d <==> id in s { assert id in multiset(s) <==> id in multiset(d); }
    assert |s| == |multiset(s)| == |multiset(d)| == |d|;
    forall x | x in s ensures multiset(s)[x] == 1 { assert x in multiset(d); }
    DistinctIsMultiplicity(s);
  }

  /** lines 1005-1094: only an exactly complete directory is accepted. */
  function ValidateCell(task: Task, entry: Entry): Option<Record> {
    if && entry.Directory? && entry.files.Keys == {CellJson, RequestCsv, CompletionJson}
       && entry.files[CompletionJson].MarkerFile?
       && entry.files[CompletionJson].marker.contract == task.contract
       && entry.files[CompletionJson].marker.cellJson == entry.files[CellJson]
       && entry.files[CompletionJson].marker.csv == entry.files[RequestCsv]
       && entry.files[CellJson].ResultFile?
       && ValidateResult(entry.files[CellJson].result, task) == Some(entry.files[CompletionJson].marker.result)
       && entry.files[RequestCsv].CsvFile? && entry.files[RequestCsv].rows == task.callCount
    then
      var m := entry.files[CompletionJson].marker;
      Some(Record(task.coord, task.contract, task.pairHash, m.result, m.cellJson, m.csv, m))
    else None
  }

  // ---------------------------------------------------------------- the manifest

  datatype Pair = Pair(seed: int, rate: string, pairHash: string, schedule: string, calls: string, completions: set<string>)

  /** `order` lists the cells of the grid; `other` stands for the rest of what a plan fixes. */
  datatype Plan = Plan(order: seq<Coord>, tasks: map<Coord, Task>, pairs: seq<Pair>, systems: seq<string>, measurement: string, other: string) {
    ghost predicate Valid() {
      && (forall i, j :: 0 <= i < j < |order| ==> order[i] != order[j])
      && (forall c :: c in order <==> c in tasks)
      && (forall c :: c in tasks ==> tasks[c].coord == c && c.system in systems && TaskHasPair(c))
      && (forall p, x :: p in pairs && x in systems ==> Coord(p.seed, p.rate, x) in tasks && FitsPair(tasks[Coord(p.seed, p.rate, x)], p))
      && systems != []
    }

    ghost predicate TaskHasPair(c: Coord) { exists p :: p in pairs && p.seed == c.seed && p.rate == c.rate }

    /** The cell follows the schedule of its seed and rate. */
    predicate FitsPair(t: Task, p: Pair) {
      && t.pairHash == p.pairHash && t.schedule == p.schedule && t.calls == p.calls
      && t.completions == p.completions && t.measurement == measurement
    }
  }

  datatype PairRow = PairRow(pair: Pair, systems: seq<string>, schedule: string, calls: string, measurement: string, completions: set<string>)

  datatype Manifest = Manifest(plan: Plan, pairs: seq<PairRow>, cells: seq<Record>)

  /** The dictionary from coordinate to record; a later record replaces an earlier one. */
  function Index(records: seq<Record>): map<Coord, Record> {
    if records == [] then map[]
    else
      var n := |records| - 1;
      Index(records[..n])[records[n].coord := records[n]]
  }

  /** The record of one system in a seed/rate group. */
  predicate InGroup(plan: Plan, index: map<Coord, Record>, p: Pair, system: string) {
    var c := Coord(p.seed, p.rate, system);
    && c in index && index[c].pairHash == p.pairHash
    && index[c].result.schedule == p.schedule && index[c].result.calls == p.calls
    && index[c].result.measurement == plan.measurement && index[c].result.completions == p.completions
  }

  predicate PairOk(plan: Plan, index: map<Coord, Record>, p: Pair) {
    plan.systems != [] && forall x :: x in plan.systems ==> InGroup(plan, index, p, x)
  }

  function Row(plan: Plan, p: Pair): PairRow {
    PairRow(p, plan.systems, p.schedule, p.calls, plan.measurement, p.completions)
  }

  function Rows(plan: Plan, pairs: seq<Pair>): (rows: seq<PairRow>)
    ensures |rows| == |pairs|
  {
    if pairs == [] then [] else Rows(plan, pairs[..|pairs| - 1]) + [Row(plan, pairs[|pairs| - 1])]
  }

  function Cells(order: seq<Coord>, index: map<Coord, Record>): seq<Record>
    requires forall c :: c in order ==> c in index
  {
    if order == [] then []
    else
      assert order[|order| - 1] in order;
      Cells(order[..|order| - 1], index) + [index[order[|order| - 1]]]
  }

  /** Every seed/rate group is complete and consistent. */
  predicate Paired(plan: Plan, index: map<Coord, Record>) {
    (forall p :: p in plan.pairs ==> PairOk(plan, index, p)) && (forall c :: c in plan.order ==> c in index)
  }

  /** lines 1202-1345 */
  function TopManifest(plan: Plan, records: seq<Record>): Result<Manifest> {
    if |Index(records)| != |records| then Err("duplicate completed cell coordinate")
    else if !Paired(plan, Index(records)) then Err("systems did not consume the same schedule")
    else Ok(Manifest(plan, Rows(plan, plan.pairs), Cells(plan.order, Index(records))))
  }

  // ---------------------------------------------------------------- the loops

  /** Fill the dictionary, refusing a coordinate that comes twice. */
  method IndexRecords(records: seq<Record>) returns (byCoordinate: Result<map<Coord, Record>>)
    ensures byCoordinate == if |Index(records)| == |records| then Ok(Index(records)) else Err("duplicate completed cell coordinate")
  {
    var index: map<Coord, Record> := map[];
    var i := 0;
    while i < |records|
      invariant 0 <= i <= |records|
      invariant index == Index(records[..i]) && |index| == i
    {
      var r := records[i];
      assert records[..i + 1] == records[..i] + [r];
      IndexSnoc(records[..i], r);
      if r.coord in index {
        IndexNeverGrowsBack(records, i + 1);
        return Err("duplicate completed cell coordinate");
      }
      index := index[r.coord := r];
      i := i + 1;
    }
    assert records[..i] == records;
    byCoordinate := Ok(index);
  }

  lemma IndexSnoc(front: seq<Record>, r: Record)
    ensures Index(front + [r]) == Index(front)[r.coord := r]
    ensures |Index(front + [r])| == if r.coord in Index(front) then |Index(front)| else |Index(front)| + 1
  {
    assert (front + [r])[..|front|] == front;
    var m, m' := Index(front), Index(front)[r.coord := r];
    assert m'.Keys == m.Keys + {r.coord};
    assert |m| == |m.Keys| && |m'| == |m'.Keys|;
    if r.coord in m { assert m'.Keys == m.Keys; }
  }

  /** Once a coordinate came twice, the dictionary stays smaller than the list. */
  lemma {:induction false} IndexNeverGrowsBack(records: seq<Record>, i: nat)
    requires i <= |records|
    ensures |Index(records)| <= |records|
    ensures |Index(records[..i])| < i ==> |Index(records)| < |records|
    decreases |records|
  {
    if records != [] {
      var n := |records| - 1;
      assert records == records[..n] + [records[n]];
      IndexSnoc(records[..n], records[n]);
      IndexNeverGrowsBack(records[..n], if i <= n then i else 0);
      if i <= n { assert records[..n][..i] == records[..i]; } else { assert records[..i] == records; }
    }
  }

  method ValidateGroup(plan: Plan, index: map<Coord, Record>, p: Pair) returns (ok: bool)
    ensures ok == PairOk(plan, index, p)
  {
    var schedules, calls, measurements, completions := {}, {}, {}, {};
    var i := 0;
    while i < |plan.systems|
      invariant 0 <= i <= |plan.systems|
      invariant forall x :: x in plan.systems[..i] ==>
                  Coord(p.seed, p.rate, x) in index && index[Coord(p.seed, p.rate, x)].pairHash == p.pairHash
      invariant schedules == set x | x in plan.systems[..i] :: index[Coord(p.seed, p.rate, x)].result.schedule
      invariant calls == set x | x in plan.systems[..i] :: index[Coord(p.seed, p.rate, x)].result.calls
      invariant measurements == set x | x in plan.systems[..i] :: index[Coord(p.seed, p.rate, x)].result.measurement
      invariant completions == set x | x in plan.systems[..i] :: index[Coord(p.seed, p.rate, x)].result.completions
    {
      var x := plan.systems[i];
      var c := Coord(p.seed, p.rate, x);
      assert x in plan.systems && plan.systems[..i + 1] == plan.systems[..i] + [x];
      if c !in index || index[c].pairHash != p.pairHash { return false; }
      schedules := schedules + {index[c].result.schedule};
      calls := calls + {index[c].result.calls};
      measurements := measurements + {index[c].result.measurement};
      completions := completions + {index[c].result.completions};
      i := i + 1;
    }
    assert plan.systems[..i] == plan.systems;
    ok := schedules == {p.schedule} && calls == {p.calls} && measurements == {plan.measurement} && completions == {p.completions};
    if ok {
      forall x | x in plan.systems ensures InGroup(plan, index, p, x) {
        var r := index[Coord(p.seed, p.rate, x)].result;
        assert r.schedule in schedules && r.calls in calls && r.measurement in measurements && r.completions in completions;
      }
      assert p.schedule in schedules;
    }
    if PairOk(plan, index, p) {
      assert InGroup(plan, index, p, plan.systems[0]);
      assert schedules == {p.schedule} && calls == {p.calls} && measurements == {plan.measurement} && completions == {p.completions};
    }
  }

  /** Validate every pair and order the cells by the plan. */
  method BuildManifest(plan: Plan, records: seq<Record>) returns (r: Result<Manifest>)
    ensures r == TopManifest(plan, records)
  {
    var indexed := IndexRecords(records);
    if indexed.Err? { return Err(indexed.error); }
    var index := indexed.value;
    var rows: seq<PairRow> := [];
    var i := 0;
    while i < |plan.pairs|
      invariant 0 <= i <= |plan.pairs|
      invariant forall p :: p in plan.pairs[..i] ==> PairOk(plan, index, p)
      invariant rows == Rows(plan, plan.pairs[..i])
    {
      var p := plan.pairs[i];
      assert plan.pairs[..i + 1] == plan.pairs[..i] + [p] && plan.pairs[..i + 1][..i] == plan.pairs[..i];
      assert p in plan.pairs;
      var ok := ValidateGroup(plan, index, p);
      if !ok { return Err("systems did not consume the same schedule"); }
      rows := rows + [Row(plan, p)];
      i := i + 1;
    }
    assert plan.pairs[..i] == plan.pairs;
    var cells: seq<Record> := [];
    var k := 0;
    while k < |plan.order|
      invariant 0 <= k <= |plan.order|
      invariant forall c :: c in plan.order[..k] ==> c in index
      invariant cells == Cells(plan.order[..k], index)
    {
      var c := plan.order[k];
      assert plan.order[..k + 1] == plan.order[..k] + [c] && plan.order[..k + 1][..k] == plan.order[..k];
      assert c in plan.order;
      if c !in index { return Err("systems did not consume the same schedule"); }
      cells := cells + [index[c]];
      k := k + 1;
    }
    assert plan.order[..k] == plan.order;
    r := Ok(Manifest(plan, rows, cells));
  }

  // ---------------------------------------------------------------- order does not matter

  function Coords(records: seq<Record>): seq<Coord> {
    if records == [] then [] else Coords(records[..|records| - 1]) + [records[|records| - 1].coord]
  }

  lemma {:induction false} IndexKeys(records: seq<Record>)
    ensures forall c :: c in Index(records) <==> c in Coords(records)
  {
    if records != [] { IndexKeys(records[..|records| - 1]); }
  }

  lemma {:induction false} NoRepeats(records: seq<Record>)
    ensures |Index(records)| == |records| <==> Distinct(Coords(records))
  {
    if records != [] {
      var n := |records| - 1;
      var front, last := records[..n], records[n];
      NoRepeats(front);
      assert records == front + [last];
      IndexSnoc(front, last);
      IndexNeverGrowsBack(front, 0);
      IndexKeys(front);
      DistinctSnoc(Coords(front), last.coord);
      hide Index, Distinct;
    }
  }

  lemma {:induction false} Find(records: seq<Record>, r: Record)
    requires Distinct(Coords(records)) && r in records
    ensures r.coord in Index(records) && Index(records)[r.coord] == r
  {
    var n := |records| - 1;
    var front := records[..n];
    assert records == front + [records[n]];
    DistinctSnoc(Coords(front), records[n].coord);
    if r != records[n] {
      assert r in front;
      Find(front, r);
      CoordsAt(front);
      var i :| 0 <= i < |front| && front[i] == r;
      assert Coords(front)[i] == r.coord;
    }
  }

  lemma {:induction false} CoordsAt(records: seq<Record>)
    ensures |Coords(records)| == |records| && forall i :: 0 <= i < |records| ==> Coords(records)[i] == records[i].coord
  {
    if records != [] { CoordsAt(records[..|records| - 1]); }
  }

  lemma {:induction false} CoordsSplit(a: seq<Record>, b: seq<Record>)
    ensures Coords(a + b) == Coords(a) + Coords(b)
  {
    CoordsAt(a + b);
    CoordsAt(a);
    CoordsAt(b);
  }

  lemma {:induction false} CoordMultiset(a: seq<Record>, b: seq<Record>)
    requires multiset(a) == multiset(b)
    ensures multiset(Coords(a)) == multiset(Coords(b))
  {
    SameMembers(a, b);
    if a != [] {
      var x := a[0];
      var left, right := TakeOut(b, x);
      HeadAndTail(a);
      CoordMultiset(a[1..], left + right);
      hide Coords;
      CoordHead(a);
      CoordTaken(left, x, right);
    }
  }

  lemma CoordHead(a: seq<Record>)
    requires a != []
    ensures multiset(Coords(a)) == multiset{a[0].coord} + multiset(Coords(a[1..]))
  {
    CoordsAt(a);
    CoordsAt(a[1..]);
    hide Coords;
    assert Coords(a) == [a[0].coord] + Coords(a[1..]);
  }

  lemma CoordTaken(left: seq<Record>, x: Record, right: seq<Record>)
    ensures multiset(Coords(left + [x] + right)) == multiset{x.coord} + multiset(Coords(left + right))
  {
    hide Coords;
    CoordsSplit(left, right);
    CoordsSplit(left + [x], right);
    CoordsSplit(left, [x]);
    CoordsAt([x]);
    assert Coords([x]) == [x.coord];
  }

  /** The manifest, and whether there is one, depends on the set of records only: workers may finish in any
      order, and cells may be run now or accepted from an earlier run. */
  lemma ManifestIgnoresOrder(plan: Plan, a: seq<Record>, b: seq<Record>)
    requires multiset(a) == multiset(b)
    ensures TopManifest(plan, a) == TopManifest(plan, b)
  {
    CoordMultiset(a, b);
    SameDistinct(Coords(a), Coords(b));
    NoRepeats(a);
    NoRepeats(b);
    SameMembers(a, b);
    hide Paired, Cells, Rows, Index, Coords, Distinct;
    if Distinct(Coords(a)) { SameIndex(a, b); }
  }

  lemma SameIndex(a: seq<Record>, b: seq<Record>)
    requires multiset(a) == multiset(b) && Distinct(Coords(a)) && Distinct(Coords(b))
    ensures Index(a) == Index(b)
  {
    CoordMultiset(a, b);
    SameMembers(Coords(a), Coords(b));
    SameMembers(a, b);
    IndexKeys(a);
    IndexKeys(b);
    CoordsAt(a);
    hide Index, Coords, Distinct;
    forall c | c in Index(a) ensures Index(a)[c] == Index(b)[c] {
      var i :| 0 <= i < |a| && Coords(a)[i] == c;
      Find(a, a[i]);
      Find(b, a[i]);
    }
  }
}
