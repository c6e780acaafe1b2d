/** Resuming a sweep: what a new run accepts, what it rebuilds, and which crash stops every later run. */
module SweepResume {
  import opened Wrappers
  import opened Sorting
  import opened SweepCells
  import opened SweepRuns
  import opened SweepSafety

  // ---------------------------------------------------------------- committed cells always pair

  lemma CommittedRecordPairs(plan: Plan, disk: Disk, r: Record, p: Pair)
    requires plan.Valid() && RecordOk(plan, disk, r) && p in plan.pairs
    requires r.coord == Coord(p.seed, p.rate, r.coord.system) && r.coord.system in plan.systems
    ensures r.pairHash == p.pairHash && r.result.schedule == p.schedule && r.result.calls == p.calls
    ensures r.result.measurement == plan.measurement && r.result.completions == p.completions
  {
    var task := plan.tasks[r.coord];
    assert plan.FitsPair(task, p);
    hide Plan.Valid;
    ResultFits(task, disk.cells[r.coord], r);
  }

  lemma ResultFits(task: Task, entry: Entry, r: Record)
    requires ValidateCell(task, entry) == Some(r)
    ensures r.pairHash == task.pairHash && r.result.schedule == task.schedule && r.result.calls == task.calls
    ensures r.result.measurement == task.measurement && r.result.completions == task.completions
  {}

  /** The strict validation of single cells is enough: when every cell of the plan is committed, the
      pairing across systems holds and there is a manifest. */
  lemma CompleteSweepHasManifest(plan: Plan, disk: Disk)
    requires plan.Valid() && forall c :: c in plan.order ==> Committed(plan, disk, c)
    ensures TopManifest(plan, RecordsOf(plan, disk, plan.order)).Ok?
  {
    hide Plan.Valid, Index, RecordsOf, Committed, Coords, Distinct, InGroup, Rows, Cells, RecordOk;
    var records := RecordsOf(plan, disk, plan.order);
    PlanFacts(plan);
    RecordCoords(plan, disk, plan.order);
    RecordsAreOk(plan, disk, plan.order);
    NoRepeats(records);
    IndexKeys(records);
    forall p | p in plan.pairs ensures PairOk(plan, Index(records), p) { GroupOk(plan, disk, records, p); }
  }

  lemma GroupOk(plan: Plan, disk: Disk, records: seq<Record>, p: Pair)
    requires plan.Valid() && p in plan.pairs
    requires forall r :: r in records ==> RecordOk(plan, disk, r)
    requires forall c :: c in plan.order ==> c in Index(records)
    ensures PairOk(plan, Index(records), p)
  {
    assert plan.systems != [];
    hide Plan.Valid, Index, RecordOk, InGroup;
    forall x | x in plan.systems ensures InGroup(plan, Index(records), p, x) {
      GroupMember(plan, disk, records, p, x);
    }
  }

  lemma GroupMember(plan: Plan, disk: Disk, records: seq<Record>, p: Pair, x: string)
    requires plan.Valid() && p in plan.pairs && x in plan.systems
    requires forall r :: r in records ==> RecordOk(plan, disk, r)
    requires forall c :: c in plan.order ==> c in Index(records)
    ensures InGroup(plan, Index(records), p, x)
  {
    var c := Coord(p.seed, p.rate, x);
    assert c in plan.tasks && c in plan.order;
    hide Plan.Valid, Index, RecordOk;
    IndexedRecord(records, c);
    CommittedRecordPairs(plan, disk, Index(records)[c], p);
  }

  /** In every history of a root that starts empty a published manifest has one row per seed/rate group, in the
      plan's order, and each row repeats what the committed record of every system in its group followed. */
  lemma ManifestRowsAgree(plan: Plan, actions: seq<Action>, j: nat, x: string)
    requires plan.Valid() && j < |plan.pairs| && x in plan.systems
    requires var disk := Run(plan, EmptyRoot, actions).disk; disk.manifest.Some? && disk.manifest.value.Published?
    ensures var disk, p := Run(plan, EmptyRoot, actions).disk, plan.pairs[j];
      var m, c := disk.manifest.value.manifest, Coord(p.seed, p.rate, x);
      && |m.pairs| == |plan.pairs| && m.pairs[j].pair == p && m.pairs[j].systems == plan.systems
      && Committed(plan, disk, c)
      && var r := ValidateCell(plan.tasks[c], disk.cells[c]).value;
         && r.pairHash == p.pairHash
         && (m.pairs[j].schedule, m.pairs[j].calls, m.pairs[j].measurement, m.pairs[j].completions)
            == (r.result.schedule, r.result.calls, r.result.measurement, r.result.completions)
  {
    EmptyRootIsGood(plan);
    RunKeepsGood(plan, EmptyRoot, actions);
    var disk, p := Run(plan, EmptyRoot, actions).disk, plan.pairs[j];
    PublishedRows(plan, disk);
    hide Run, SweepOk, ManifestOk, Plan.Valid, ValidateCell, Rows, Index, TopManifest, RecordsOf;
    var c := Coord(p.seed, p.rate, x);
    PairCell(plan, p, x);
    assert Committed(plan, disk, c);
    var r := ValidateCell(plan.tasks[c], disk.cells[c]).value;
    RecordCoord(plan.tasks[c], disk.cells[c]);
    CommittedRecordPairs(plan, disk, r, p);
    RowAt(plan, plan.pairs, j);
  }

  lemma PublishedRows(plan: Plan, disk: Disk)
    requires ManifestOk(plan, disk) && disk.manifest.Some? && disk.manifest.value.Published?
    ensures disk.manifest.value.manifest.pairs == Rows(plan, plan.pairs)
    ensures forall c :: c in plan.order ==> Committed(plan, disk, c)
  {
    hide Committed, RecordsOf;
  }

  lemma PairCell(plan: Plan, p: Pair, x: string)
    requires plan.Valid() && p in plan.pairs && x in plan.systems
    ensures var c := Coord(p.seed, p.rate, x); c in plan.tasks && c in plan.order && plan.tasks[c].coord == c
  {
    assert plan.FitsPair(plan.tasks[Coord(p.seed, p.rate, x)], p);
  }

  lemma RecordCoord(task: Task, entry: Entry)
    requires ValidateCell(task, entry).Some?
    ensures ValidateCell(task, entry).value.coord == task.coord
  {
    hide ValidateResult;
  }

  lemma {:induction false} RowAt(plan: Plan, pairs: seq<Pair>, j: nat)
    requires j < |pairs|
    ensures var p := pairs[j];
      Rows(plan, pairs)[j] == PairRow(p, plan.systems, p.schedule, p.calls, plan.measurement, p.completions)
  {
    var n := |pairs| - 1;
    if j < n { RowAt(plan, pairs[..n], j); }
  }

  // ---------------------------------------------------------------- resuming a finished sweep

  lemma NothingPending(plan: Plan, disk: Disk)
    requires forall c :: c in plan.order ==> Committed(plan, disk, c)
    ensures (map c | c in plan.order && c !in disk.cells :: Ready) == map[]
  {
    hide ValidateCell;
  }

  /** Resuming a finished sweep with the same plan runs nothing, writes nothing and returns the published
      manifest. */
  lemma ResumeRebuildsManifest(plan: Plan, w: World)
    requires plan.Valid() && Good(plan, w) && w.sweep.None?
    requires w.disk.manifest.Some? && w.disk.manifest.value.Published?
    ensures var t := Run(plan, w, [Start(true), Publish]);
      t.disk == w.disk && t.sweep.None? && t.answer == Some(w.disk.manifest.value.manifest)
  {
    NothingPending(plan, w.disk);
    assert [Start(true), Publish][..1] == [Start(true)] && [Start(true)][..0] == [];
    var s := Started(plan, w, true);
    hide Plan.Valid, TopManifest, RecordsOf, Committed, SweepOk;
    assert s.sweep == Some(Sweep(true, RecordsOf(plan, w.disk, plan.order), map[], false)) && s.disk == w.disk;
    assert Run(plan, w, [Start(true)]) == s;
  }

  // ---------------------------------------------------------------- which crash can be resumed

  /** The directory of the cell exists but does not validate. */
  predicate Wedged(plan: Plan, disk: Disk, c: Coord) { c in plan.order && c in disk.cells && !Committed(plan, disk, c) }

  /** A worker that has stopped between its two renames - it crashed there, or it failed there - and only
      such a worker leaves a directory that no run accepts. */
  lemma CrashLeaves(plan: Plan, w: World, c: Coord)
    requires plan.Valid() && Good(plan, w) && w.sweep.Some? && c in w.sweep.value.workers
    ensures Wedged(plan, w.disk, c) <==> w.sweep.value.workers[c].Progress() == HalfWritten
  {
    InOrder(plan, c);
    hide Plan.Valid, ManifestOk, RecordsOk, Covered, WorkerOk, Wedged;
    ProgressWedges(plan, w.disk, c, w.sweep.value.workers[c]);
  }

  lemma ProgressWedges(plan: Plan, disk: Disk, c: Coord, worker: Worker)
    requires c in plan.tasks && c in plan.order && WorkerOk(plan, disk, c, worker)
    ensures Wedged(plan, disk, c) <==> worker.Progress() == HalfWritten
  {
    if c in disk.cells { UnmarkedIsInvalid(plan.tasks[c], disk.cells[c]); }
    hide ValidateCell, HasBundle;
  }

  lemma UnmarkedIsInvalid(task: Task, entry: Entry)
    ensures entry.Directory? && CompletionJson !in entry.files ==> ValidateCell(task, entry).None?
  {
    hide ValidateResult;
  }

  lemma InOrder(plan: Plan, c: Coord)
    requires plan.Valid()
    ensures c in plan.tasks ==> c in plan.order
  {}

  /** A resumed run can start exactly when no directory is wedged; a fresh one exactly when there is neither
      a manifest nor a directory of the plan. A refused run changes nothing. */
  lemma ResumeIsAccepted(plan: Plan, w: World)
    requires w.sweep.None?
    ensures Step(plan, w, Start(true)).sweep.Some? <==> forall c :: !Wedged(plan, w.disk, c)
    ensures Step(plan, w, Start(false)).sweep.Some? <==> w.disk.manifest.None? && forall c :: c in plan.order ==> c !in w.disk.cells
    ensures forall resume :: Step(plan, w, Start(resume)).sweep.None? ==> Step(plan, w, Start(resume)) == w
  {
    hide Committed, RecordsOf;
    if forall c :: !Wedged(plan, w.disk, c) {
      forall c | c in plan.order && c in w.disk.cells ensures Committed(plan, w.disk, c) { assert !Wedged(plan, w.disk, c); }
    }
  }

  /** One wedged directory stops the sweep for good: no later run, with or without the flag, gets past the
      preflight, so nothing on disk changes any more. */
  lemma {:induction false} WedgeIsFinal(plan: Plan, w: World, actions: seq<Action>, c: Coord)
    requires w.sweep.None? && Wedged(plan, w.disk, c)
    ensures Run(plan, w, actions) == w
  {
    if actions != [] {
      WedgeIsFinal(plan, w, actions[..|actions| - 1], c);
      WedgeStep(plan, w, actions[|actions| - 1], c);
      hide Step, Wedged;
    }
  }

  lemma WedgeStep(plan: Plan, w: World, action: Action, c: Coord)
    requires w.sweep.None? && Wedged(plan, w.disk, c)
    ensures Step(plan, w, action) == w
  {
    hide Committed, RecordsOf;
  }

  // ---------------------------------------------------------------- progress

  ghost predicate WorkerIs(plan: Plan, w: World, c: Coord, worker: Worker) {
    c in plan.tasks && w.sweep.Some? && c in w.sweep.value.workers && w.sweep.value.workers[c] == worker
  }

  lemma SimulateStep(plan: Plan, w: World, c: Coord, result: CellResult)
    requires WorkerIs(plan, w, c, Ready) && c !in w.disk.cells && ValidateResult(result, plan.tasks[c]).Some?
    ensures var t := Step(plan, w, Simulate(c, result)); WorkerIs(plan, t, c, Simulated(result)) && t.disk == w.disk
  {
    hide ValidateResult;
  }

  lemma BundleStep(plan: Plan, w: World, c: Coord, result: CellResult, text: string, contract: ResultContract)
    requires WorkerIs(plan, w, c, Simulated(result)) && c !in w.disk.cells && ValidateResult(result, plan.tasks[c]) == Some(contract)
    ensures var t := Step(plan, w, Bundle(c, text));
      && WorkerIs(plan, t, c, Bundled(contract))
      && FilesOf(t, c) == map[CellJson := ResultFile(result), RequestCsv := CsvFile(|result.identities|, text)]
  {
    hide ValidateResult;
  }

  /** From an empty root, for every valid plan, each of its cells and any result that fits: the worker that
      crashes, or fails, right after its first rename wedges its cell, so nothing that is done with this root
      afterwards changes it. */
  lemma EmptyRootCanWedge(plan: Plan, c: Coord, result: CellResult, text: string, fails: bool, later: seq<Action>)
    requires plan.Valid() && c in plan.order && ValidateResult(result, plan.tasks[c]).Some?
    ensures var t := Run(plan, EmptyRoot, [Start(false), Simulate(c, result), Bundle(c, text), if fails then Break(c) else Crash, Crash]);
      t.sweep.None? && Wedged(plan, t.disk, c) && Run(plan, t, later) == t
  {
    hide Good, ValidateResult, ValidateCell, Committed, Run, FilesOf, Plan.Valid;
    var s := FirstStart(plan, c);
    SimulateStep(plan, s, c, result);
    var a := Step(plan, s, Simulate(c, result));
    BundleStep(plan, a, c, result, text, ValidateResult(result, plan.tasks[c]).value);
    var b := Step(plan, a, Bundle(c, text));
    EmptyRootIsGood(plan);
    StepKeepsGood(plan, EmptyRoot, Start(false));
    StepKeepsGood(plan, s, Simulate(c, result));
    StepKeepsGood(plan, a, Bundle(c, text));
    CrashLeaves(plan, b, c);
    StopKeepsDisk(plan, b, c);
    hide Step, Wedged;
    FiveSteps(plan, EmptyRoot, Start(false), Simulate(c, result), Bundle(c, text), if fails then Break(c) else Crash, Crash);
    var t := Run(plan, EmptyRoot, [Start(false), Simulate(c, result), Bundle(c, text), if fails then Break(c) else Crash, Crash]);
    WedgeIsFinal(plan, t, later, c);
  }

  /** A fresh run over an empty root gives every cell of the plan a worker. */
  lemma FirstStart(plan: Plan, c: Coord) returns (s: World)
    requires plan.Valid() && c in plan.order
    ensures s == Step(plan, EmptyRoot, Start(false)) && s.disk == EmptyRoot.disk && WorkerIs(plan, s, c, Ready)
  {
    PlanFacts(plan);
    s := Step(plan, EmptyRoot, Start(false));
    hide RecordsOf, Committed, Plan.Valid;
  }

  lemma StopKeepsDisk(plan: Plan, w: World, c: Coord)
    requires w.sweep.Some? && c in w.sweep.value.workers && c in plan.tasks
    ensures forall stop :: stop == Break(c) || stop == Crash ==>
      Step(plan, Step(plan, w, stop), Crash).sweep.None? && Step(plan, Step(plan, w, stop), Crash).disk == w.disk
  {
    hide ValidateCell, ValidateResult;
  }

  lemma StageStep(plan: Plan, w: World, c: Coord, contract: ResultContract, n: nat)
    requires WorkerIs(plan, w, c, Bundled(contract))
    ensures var t := Step(plan, w, StageMarker(c, n));
      WorkerIs(plan, t, c, MarkerStaged(contract)) && FilesOf(t, c) == FilesOf(w, c)[Temporary(n) := OtherFile("")]
  {}

  lemma ReturnStep(plan: Plan, w: World, c: Coord)
    requires WorkerIs(plan, w, c, Marked) && Committed(plan, w.disk, c)
    ensures var t := Step(plan, w, Return(c));
      t.disk == w.disk && WorkerIs(plan, t, c, Returned(ValidateCell(plan.tasks[c], w.disk.cells[c]).value))
  {
    hide ValidateCell;
  }

  lemma ReadyIsAbsent(plan: Plan, w: World, c: Coord)
    requires Good(plan, w) && WorkerIs(plan, w, c, Ready)
    ensures c !in w.disk.cells
  {
    assert WorkerOk(plan, w.disk, c, Ready);
  }

  /** A worker whose result fits its cell commits it with its four writes and validation, whatever the state
      of the other workers. */
  lemma WorkerCommits(plan: Plan, w: World, c: Coord, result: CellResult, text: string, n: nat)
    requires plan.Valid() && Good(plan, w) && WorkerIs(plan, w, c, Ready) && ValidateResult(result, plan.tasks[c]).Some?
    ensures var t := Run(plan, w, [Simulate(c, result), Bundle(c, text), StageMarker(c, n), Mark(c), Return(c)]);
      && Committed(plan, t.disk, c)
      && WorkerIs(plan, t, c, Returned(ValidateCell(plan.tasks[c], t.disk.cells[c]).value))
  {
    assert c in plan.tasks;
    hide Plan.Valid, Good, WorkerIs, ValidateResult, ValidateCell, Committed, Step, Run, FilesOf;
    ReadyIsAbsent(plan, w, c);
    SimulateStep(plan, w, c, result);
    var a := Step(plan, w, Simulate(c, result));
    var contract := ValidateResult(result, plan.tasks[c]).value;
    BundleStep(plan, a, c, result, text, contract);
    var b := Step(plan, a, Bundle(c, text));
    StageStep(plan, b, c, contract, n);
    var d := Step(plan, b, StageMarker(c, n));
    MarkCommits(plan, d, c, result, text, contract, n);
    ReturnStep(plan, Step(plan, d, Mark(c)), c);
    FiveSteps(plan, w, Simulate(c, result), Bundle(c, text), StageMarker(c, n), Mark(c), Return(c));
    CommittedReads(plan, Step(plan, d, Mark(c)).disk, Step(plan, Step(plan, d, Mark(c)), Return(c)).disk, c);
  }

  lemma CommittedReads(plan: Plan, a: Disk, b: Disk, c: Coord)
    requires a == b
    ensures Committed(plan, a, c) ==> Committed(plan, b, c) && c in plan.tasks && c in b.cells
  {
    hide ValidateCell;
  }

  lemma MarkCommits(plan: Plan, d: World, c: Coord, result: CellResult, text: string, contract: ResultContract, n: nat)
    requires WorkerIs(plan, d, c, MarkerStaged(contract))
    requires FilesOf(d, c) == map[CellJson := ResultFile(result), RequestCsv := CsvFile(|result.identities|, text)][Temporary(n) := OtherFile("")]
    requires ValidateResult(result, plan.tasks[c]) == Some(contract)
    ensures var e := Step(plan, d, Mark(c));
      Committed(plan, e.disk, c) && WorkerIs(plan, e, c, Marked)
  {
    BundleRows(plan.tasks[c], result);
    var e := Step(plan, d, Mark(c));
    var files := e.disk.cells[c].files;
    assert files.Keys == {CellJson, RequestCsv, CompletionJson};
    MarkedIsCommitted(plan, e.disk, c, contract);
    hide ValidateResult, ValidateCell;
  }

  lemma FiveSteps(plan: Plan, w: World, a: Action, b: Action, c: Action, d: Action, e: Action)
    ensures Run(plan, w, [a, b, c, d, e]) == Step(plan, Step(plan, Step(plan, Step(plan, Step(plan, w, a), b), c), d), e)
  {
    hide Step;
    assert [a, b, c, d, e][..4] == [a, b, c, d] && [a, b, c, d][..3] == [a, b, c] && [a, b, c][..2] == [a, b];
    assert [a, b][..1] == [a] && [a][..0] == [];
    assert Run(plan, w, [a]) == Step(plan, w, a);
    assert Run(plan, w, [a, b]) == Step(plan, Step(plan, w, a), b);
    assert Run(plan, w, [a, b, c]) == Step(plan, Step(plan, Step(plan, w, a), b), c);
  }
}
