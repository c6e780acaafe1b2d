/** What every history of runs, failures and crashes keeps of a sweep directory. */
module SweepSafety {
  import opened Wrappers
  import opened Sorting
  import opened SweepCells
  import opened SweepRuns

  // ---------------------------------------------------------------- the invariant

  /** The bundle of a cell: its result passes validation and its table has the planned number of rows. */
  ghost predicate HasBundle(task: Task, files: map<Name, File>, contract: ResultContract) {
    && CellJson in files && RequestCsv in files
    && files[CellJson].ResultFile? && ValidateResult(files[CellJson].result, task) == Some(contract)
    && files[RequestCsv].CsvFile? && files[RequestCsv].rows == task.callCount
  }

  /** How far a worker has come is what its directory shows. */
  ghost predicate WorkerOk(plan: Plan, disk: Disk, c: Coord, worker: Worker)
    requires c in plan.tasks
  {
    match worker
    case Ready => c !in disk.cells
    case Simulated(_) => c !in disk.cells
    case Bundled(contract) =>
      c in disk.cells && disk.cells[c].Directory? && CompletionJson !in disk.cells[c].files
      && HasBundle(plan.tasks[c], disk.cells[c].files, contract)
    case MarkerStaged(contract) =>
      c in disk.cells && disk.cells[c].Directory? && CompletionJson !in disk.cells[c].files
      && HasBundle(plan.tasks[c], disk.cells[c].files, contract)
    case Marked => Committed(plan, disk, c)
    case Returned(record) => Committed(plan, disk, c) && ValidateCell(plan.tasks[c], disk.cells[c]) == Some(record)
    case Broken(NothingWritten) => c !in disk.cells
    case Broken(HalfWritten) => c in disk.cells && disk.cells[c].Directory? && CompletionJson !in disk.cells[c].files
    case Broken(FullyWritten) => Committed(plan, disk, c)
  }

  ghost predicate RecordOk(plan: Plan, disk: Disk, r: Record) {
    Committed(plan, disk, r.coord) && ValidateCell(plan.tasks[r.coord], disk.cells[r.coord]) == Some(r)
  }

  ghost predicate WorkersOk(plan: Plan, disk: Disk, workers: map<Coord, Worker>) {
    forall c :: c in workers ==> c in plan.tasks && WorkerOk(plan, disk, c, workers[c])
  }

  ghost predicate RecordsOk(plan: Plan, disk: Disk, completed: seq<Record>) {
    (forall r :: r in completed ==> RecordOk(plan, disk, r)) && Distinct(Coords(completed))
  }

  /** Every cell of the plan is with a worker or collected, and none is both. */
  ghost predicate Covered(plan: Plan, workers: map<Coord, Worker>, completed: seq<Record>) {
    && (forall c :: c in Coords(completed) ==> c !in workers)
    && (forall c :: c in plan.order ==> c in workers || c in Coords(completed))
  }

  ghost predicate SweepOk(plan: Plan, disk: Disk, s: Sweep) {
    WorkersOk(plan, disk, s.workers) && RecordsOk(plan, disk, s.completed) && Covered(plan, s.workers, s.completed)
  }

  /** A published manifest is the one its committed cells determine. */
  ghost predicate ManifestOk(plan: Plan, disk: Disk) {
    disk.manifest.Some? && disk.manifest.value.Published? ==>
      && (forall c :: c in plan.order ==> Committed(plan, disk, c))
      && TopManifest(plan, RecordsOf(plan, disk, plan.order)) == Ok(disk.manifest.value.manifest)
  }

  ghost predicate Good(plan: Plan, w: World) {
    ManifestOk(plan, w.disk) && (w.sweep.Some? ==> SweepOk(plan, w.disk, w.sweep.value))
  }

  // ---------------------------------------------------------------- committed cells stay

  /** A validated cell is never written again by its own worker. */
  lemma CommittedIsLeftAlone(plan: Plan, w: World, c: Coord, action: Action)
    requires Good(plan, w) && w.sweep.Some? && c in w.sweep.value.workers && Committed(plan, w.disk, c)
    ensures WorkerStep(plan, w, c, w.sweep.value.workers[c], action).disk == w.disk
  {
    assert WorkerOk(plan, w.disk, c, w.sweep.value.workers[c]);
    hide ValidateResult;
  }

  lemma WorkerTouchesItsCell(plan: Plan, w: World, c: Coord, worker: Worker, action: Action, d: Coord)
    requires w.sweep.Some? && c in plan.tasks && d != c
    ensures var t := WorkerStep(plan, w, c, worker, action);
      && t.disk.manifest == w.disk.manifest
      && (d in t.disk.cells <==> d in w.disk.cells)
      && (d in w.disk.cells ==> t.disk.cells[d] == w.disk.cells[d])
  {
    hide ValidateResult, ValidateCell;
  }

  /** No action ever changes a committed cell. */
  lemma CommittedStays(plan: Plan, w: World, action: Action, d: Coord)
    requires Good(plan, w) && Committed(plan, w.disk, d)
    ensures d in Step(plan, w, action).disk.cells && Step(plan, w, action).disk.cells[d] == w.disk.cells[d]
  {
    match action
    case Start(_) =>
    case Crash =>
    case Publish =>
    case Collect(_) =>
    case _ =>
      if w.sweep.Some? && action.c in w.sweep.value.workers && action.c in plan.tasks {
        var c := action.c;
        if c == d { CommittedIsLeftAlone(plan, w, c, action); }
        else { WorkerTouchesItsCell(plan, w, c, w.sweep.value.workers[c], action, d); }
        hide WorkerStep;
      }
  }

  // ---------------------------------------------------------------- workers

  lemma MarkedIsCommitted(plan: Plan, disk: Disk, c: Coord, contract: ResultContract)
    requires c in plan.tasks && c in disk.cells && disk.cells[c].Directory?
    requires var files := disk.cells[c].files;
      && files.Keys == {CellJson, RequestCsv, CompletionJson}
      && HasBundle(plan.tasks[c], files, contract)
      && files[CompletionJson] == MarkerFile(Marker(plan.tasks[c].contract, contract, files[CellJson], files[RequestCsv]))
    ensures Committed(plan, disk, c)
  {
    hide ValidateResult;
  }

  /** The worker's own step leaves its directory as its new state says. */
  lemma OwnStepIsOk(plan: Plan, w: World, c: Coord, action: Action)
    requires w.sweep.Some? && c in w.sweep.value.workers && c in plan.tasks
    requires WorkerOk(plan, w.disk, c, w.sweep.value.workers[c])
    ensures var t := WorkerStep(plan, w, c, w.sweep.value.workers[c], action);
      && t.sweep.Some? && c in t.sweep.value.workers && WorkerOk(plan, t.disk, c, t.sweep.value.workers[c])
      && t.sweep.value.(workers := map[]) == w.sweep.value.(workers := map[])
      && t.sweep.value.workers == w.sweep.value.workers[c := t.sweep.value.workers[c]]
  {
    hide *;
    var worker := w.sweep.value.workers[c];
    OwnStepFrame(plan, w, c, action);
    if worker.MarkerStaged? && action.Mark? {
      MarkStepIsOk(plan, w, c, action);
    } else if worker.Simulated? && action.Bundle? {
      BundleStepIsOk(plan, w, c, action);
    } else {
      OtherStepIsOk(plan, w, c, action);
    }
  }

  lemma OtherStepIsOk(plan: Plan, w: World, c: Coord, action: Action)
    requires w.sweep.Some? && c in w.sweep.value.workers && c in plan.tasks
    requires var worker := w.sweep.value.workers[c];
      WorkerOk(plan, w.disk, c, worker) && !(worker.MarkerStaged? && action.Mark?) && !(worker.Simulated? && action.Bundle?)
    ensures var t := WorkerStep(plan, w, c, w.sweep.value.workers[c], action);
      t.sweep.Some? && c in t.sweep.value.workers && WorkerOk(plan, t.disk, c, t.sweep.value.workers[c])
  {
    hide ValidateResult, ValidateCell;
  }

  lemma OwnStepFrame(plan: Plan, w: World, c: Coord, action: Action)
    requires w.sweep.Some? && c in w.sweep.value.workers && c in plan.tasks
    ensures var t := WorkerStep(plan, w, c, w.sweep.value.workers[c], action);
      && t.sweep.Some? && c in t.sweep.value.workers
      && t.sweep.value.(workers := map[]) == w.sweep.value.(workers := map[])
      && t.sweep.value.workers == w.sweep.value.workers[c := t.sweep.value.workers[c]]
  {
    hide ValidateResult, ValidateCell;
  }

  lemma MarkStepIsOk(plan: Plan, w: World, c: Coord, action: Action)
    requires w.sweep.Some? && c in w.sweep.value.workers && c in plan.tasks && action.Mark?
    requires w.sweep.value.workers[c].MarkerStaged? && WorkerOk(plan, w.disk, c, w.sweep.value.workers[c])
    ensures var t := WorkerStep(plan, w, c, w.sweep.value.workers[c], action);
      t.sweep.Some? && c in t.sweep.value.workers && WorkerOk(plan, t.disk, c, t.sweep.value.workers[c])
  {
    var worker := w.sweep.value.workers[c];
    var t := WorkerStep(plan, w, c, worker, action);
    hide ValidateResult, ValidateCell;
    var files := t.disk.cells[c].files;
    assert files.Keys == {CellJson, RequestCsv, CompletionJson};
    MarkedIsCommitted(plan, t.disk, c, worker.contract);
  }

  lemma BundleStepIsOk(plan: Plan, w: World, c: Coord, action: Action)
    requires w.sweep.Some? && c in w.sweep.value.workers && c in plan.tasks && action.Bundle?
    requires w.sweep.value.workers[c].Simulated? && WorkerOk(plan, w.disk, c, w.sweep.value.workers[c])
    ensures var t := WorkerStep(plan, w, c, w.sweep.value.workers[c], action);
      t.sweep.Some? && c in t.sweep.value.workers && WorkerOk(plan, t.disk, c, t.sweep.value.workers[c])
  {
    var result := w.sweep.value.workers[c].result;
    if ValidateResult(result, plan.tasks[c]).Some? { BundleRows(plan.tasks[c], result); }
    hide ValidateResult, ValidateCell;
  }

  lemma BundleRows(task: Task, r: CellResult)
    requires ValidateResult(r, task).Some?
    ensures |r.identities| == task.callCount
  {}

  /** A step of worker `c` leaves the other workers and the collected records sound. */
  lemma OthersStayOk(plan: Plan, disk: Disk, disk': Disk, d: Coord, worker: Worker)
    requires d in plan.tasks && WorkerOk(plan, disk, d, worker)
    requires (d in disk'.cells <==> d in disk.cells) && (d in disk.cells ==> disk'.cells[d] == disk.cells[d])
    ensures WorkerOk(plan, disk', d, worker)
  {
    hide ValidateCell, HasBundle;
  }

  lemma WorkerKeepsGood(plan: Plan, w: World, c: Coord, action: Action)
    requires Good(plan, w) && w.sweep.Some? && c in w.sweep.value.workers && c in plan.tasks
    ensures SweepOk(plan, WorkerStep(plan, w, c, w.sweep.value.workers[c], action).disk,
                    WorkerStep(plan, w, c, w.sweep.value.workers[c], action).sweep.value)
  {
    var s := w.sweep.value;
    var t := WorkerStep(plan, w, c, s.workers[c], action);
    OwnStepIsOk(plan, w, c, action);
    var s' := t.sweep.value;
    forall d | d in s'.workers ensures d in plan.tasks && WorkerOk(plan, t.disk, d, s'.workers[d]) {
      if d != c {
        assert WorkerOk(plan, w.disk, d, s.workers[d]);
        WorkerTouchesItsCell(plan, w, c, s.workers[c], action, d);
        OthersStayOk(plan, w.disk, t.disk, d, s.workers[d]);
      }
    }
    forall r | r in s'.completed ensures RecordOk(plan, t.disk, r) {
      CoordsAt(s.completed);
      var i :| 0 <= i < |s.completed| && s.completed[i] == r;
      assert Coords(s.completed)[i] == r.coord;
      WorkerTouchesItsCell(plan, w, c, s.workers[c], action, r.coord);
    }
    hide WorkerStep, WorkerOk, ValidateCell, Coords, Distinct;
  }

  // ---------------------------------------------------------------- starting

  lemma OneRecord(plan: Plan, disk: Disk, records: seq<Record>, c: Coord)
    requires c in plan.tasks && plan.tasks[c].coord == c && Committed(plan, disk, c)
    ensures var r := ValidateCell(plan.tasks[c], disk.cells[c]).value;
      r.coord == c && RecordOk(plan, disk, r) && Coords(records + [r]) == Coords(records) + [c]
  {
    var r := ValidateCell(plan.tasks[c], disk.cells[c]).value;
    assert (records + [r])[..|records|] == records;
    hide ValidateResult;
  }

  /** The coordinates of the accepted records are the committed ones, each once. */
  lemma {:induction false} RecordCoords(plan: Plan, disk: Disk, order: seq<Coord>)
    requires forall c :: c in order ==> c in plan.tasks && plan.tasks[c].coord == c
    requires Distinct(order)
    ensures Distinct(Coords(RecordsOf(plan, disk, order)))
    ensures forall c :: c in Coords(RecordsOf(plan, disk, order)) <==> c in order && Committed(plan, disk, c)
  {
    if order != [] {
      var n := |order| - 1;
      var front, c := order[..n], order[n];
      assert order == front + [c];
      DistinctSnoc(front, c);
      RecordCoords(plan, disk, front);
      if Committed(plan, disk, c) {
        OneRecord(plan, disk, RecordsOf(plan, disk, front), c);
        DistinctSnoc(Coords(RecordsOf(plan, disk, front)), c);
      } else {
        assert RecordsOf(plan, disk, front) + [] == RecordsOf(plan, disk, front);
      }
      assert forall d :: d in order <==> d in front || d == c;
      hide Distinct, Committed, ValidateCell, Coords;
    }
  }

  lemma {:induction false} RecordsAreOk(plan: Plan, disk: Disk, order: seq<Coord>)
    requires forall c :: c in order ==> c in plan.tasks && plan.tasks[c].coord == c
    ensures forall r :: r in RecordsOf(plan, disk, order) ==> RecordOk(plan, disk, r)
  {
    if order != [] {
      var n := |order| - 1;
      RecordsAreOk(plan, disk, order[..n]);
      assert order[n] in order;
      if Committed(plan, disk, order[n]) { OneRecord(plan, disk, RecordsOf(plan, disk, order[..n]), order[n]); }
      hide Committed, ValidateCell, RecordOk;
    }
  }

  /** Two lists of sound records over the same coordinates, each once, hold the same records. */
  lemma SameRecords(plan: Plan, disk: Disk, a: seq<Record>, b: seq<Record>)
    requires Distinct(Coords(a)) && Distinct(Coords(b)) && (forall c :: c in Coords(a) <==> c in Coords(b))
    requires (forall r :: r in a ==> RecordOk(plan, disk, r)) && (forall r :: r in b ==> RecordOk(plan, disk, r))
    ensures multiset(a) == multiset(b)
  {
    CoordsAt(a);
    CoordsAt(b);
    Included(plan, disk, a, b);
    Included(plan, disk, b, a);
    DistinctRecords(a);
    DistinctRecords(b);
    DistinctSameSet(a, b);
  }

  lemma Included(plan: Plan, disk: Disk, a: seq<Record>, b: seq<Record>)
    requires forall c :: c in Coords(a) ==> c in Coords(b)
    requires (forall r :: r in a ==> RecordOk(plan, disk, r)) && (forall r :: r in b ==> RecordOk(plan, disk, r))
    ensures forall r :: r in a ==> r in b
  {
    CoordsAt(a);
    CoordsAt(b);
    forall r | r in a ensures r in b {
      var i :| 0 <= i < |a| && a[i] == r;
      assert Coords(a)[i] in Coords(b);
      var j :| 0 <= j < |b| && Coords(b)[j] == r.coord;
      assert RecordOk(plan, disk, b[j]) && RecordOk(plan, disk, r);
    }
    hide Committed, ValidateCell;
  }

  lemma DistinctRecords(a: seq<Record>)
    requires Distinct(Coords(a))
    ensures Distinct(a)
  {
    CoordsAt(a);
    forall i, j | 0 <= i < j < |a| ensures a[i] != a[j] { assert Coords(a)[i] != Coords(a)[j]; }
  }

  lemma PlanFacts(plan: Plan)
    requires plan.Valid()
    ensures Distinct(plan.order) && forall c :: c in plan.order ==> c in plan.tasks && plan.tasks[c].coord == c
  {}

  lemma StartedRecords(plan: Plan, disk: Disk)
    requires plan.Valid()
    ensures RecordsOk(plan, disk, RecordsOf(plan, disk, plan.order))
  {
    PlanFacts(plan);
    RecordCoords(plan, disk, plan.order);
    RecordsAreOk(plan, disk, plan.order);
    hide RecordsOf, Coords, Distinct, RecordOk, Committed, Plan.Valid;
  }

  lemma StartedCovers(plan: Plan, disk: Disk, resume: bool)
    requires plan.Valid() && Acceptable(plan, disk, resume)
    ensures Covered(plan, map c | c in plan.order && c !in disk.cells :: Ready, RecordsOf(plan, disk, plan.order))
  {
    PlanFacts(plan);
    RecordCoords(plan, disk, plan.order);
    assert forall c :: Committed(plan, disk, c) ==> c in disk.cells;
    hide RecordsOf, Coords, Distinct, Committed, Plan.Valid;
  }

  lemma StartedWorkers(plan: Plan, disk: Disk)
    requires plan.Valid()
    ensures WorkersOk(plan, disk, map c | c in plan.order && c !in disk.cells :: Ready)
  {
    PlanFacts(plan);
    hide Plan.Valid;
  }

  lemma StartKeepsGood(plan: Plan, w: World, resume: bool)
    requires plan.Valid() && Good(plan, w)
    ensures Good(plan, Started(plan, w, resume))
  {
    if Started(plan, w, resume) != w {
      StartedRecords(plan, w.disk);
      StartedWorkers(plan, w.disk);
      StartedCovers(plan, w.disk, resume);
      hide RecordsOf, ManifestOk, RecordsOk, WorkersOk, Covered, Acceptable, Plan.Valid;
    }
  }

  // ---------------------------------------------------------------- collecting and publishing

  lemma CollectedRecords(plan: Plan, disk: Disk, completed: seq<Record>, r: Record)
    requires RecordsOk(plan, disk, completed) && RecordOk(plan, disk, r) && r.coord !in Coords(completed)
    ensures RecordsOk(plan, disk, completed + [r]) && Coords(completed + [r]) == Coords(completed) + [r.coord]
  {
    assert (completed + [r])[..|completed|] == completed;
    DistinctSnoc(Coords(completed), r.coord);
    hide RecordOk, Distinct;
  }

  lemma CollectedCovers(plan: Plan, workers: map<Coord, Worker>, completed: seq<Record>, more: seq<Record>, c: Coord)
    requires Covered(plan, workers, completed) && Coords(more) == Coords(completed) + [c]
    ensures Covered(plan, workers - {c}, more)
  {
    hide Coords;
  }

  lemma CollectedOk(plan: Plan, disk: Disk, s: Sweep, c: Coord, r: Record)
    requires SweepOk(plan, disk, s) && c in s.workers && r.coord == c && RecordOk(plan, disk, r)
    ensures SweepOk(plan, disk, s.(completed := s.completed + [r], workers := s.workers - {c}))
  {
    assert c !in Coords(s.completed) by { hide WorkersOk, RecordsOk; }
    assert WorkersOk(plan, disk, s.workers - {c}) by { hide RecordsOk, Covered, WorkerOk; }
    hide WorkersOk, RecordOk;
    CollectedRecords(plan, disk, s.completed, r);
    CollectedCovers(plan, s.workers, s.completed, s.completed + [r], c);
    hide Covered, RecordsOk, Coords;
  }

  lemma CollectKeepsGood(plan: Plan, w: World, c: Coord)
    requires plan.Valid() && Good(plan, w) && w.sweep.Some? && c in w.sweep.value.workers
    ensures Good(plan, Collected(w, c))
  {
    hide Plan.Valid, ManifestOk, Covered, RecordsOk, RecordOk;
    var s := w.sweep.value;
    if s.workers[c].Returned? && !s.failing {
      var r := s.workers[c].record;
      assert c in plan.tasks && WorkerOk(plan, w.disk, c, s.workers[c]);
      assert Committed(plan, w.disk, c) && ValidateCell(plan.tasks[c], w.disk.cells[c]) == Some(r);
      hide WorkersOk, WorkerOk, Committed, ValidateCell;
      ReturnedRecord(plan, w.disk, c, r);
      CollectedOk(plan, w.disk, s, c, r);
      var next := s.(completed := s.completed + [r], workers := s.workers - {c});
      assert Collected(w, c) == w.(sweep := Some(next));
      hide SweepOk, Collected;
    } else {
      hide WorkersOk;
    }
  }

  lemma ReturnedRecord(plan: Plan, disk: Disk, c: Coord, r: Record)
    requires plan.Valid() && c in plan.tasks && Committed(plan, disk, c) && ValidateCell(plan.tasks[c], disk.cells[c]) == Some(r)
    ensures r.coord == c && RecordOk(plan, disk, r)
  {
    hide ValidateResult;
  }

  /** What a run publishes is what the committed cells determine. */
  lemma PublishIsDetermined(plan: Plan, disk: Disk, completed: seq<Record>)
    requires plan.Valid() && RecordsOk(plan, disk, completed) && Covered(plan, map[], completed)
    ensures TopManifest(plan, completed) == TopManifest(plan, RecordsOf(plan, disk, plan.order))
    ensures forall c :: c in plan.order ==> Committed(plan, disk, c)
  {
    PlanFacts(plan);
    CoordsAt(completed);
    RecordCoords(plan, disk, plan.order);
    RecordsAreOk(plan, disk, plan.order);
    forall c | c in Coords(completed) ensures Committed(plan, disk, c) {
      var i :| 0 <= i < |completed| && Coords(completed)[i] == c;
      assert RecordOk(plan, disk, completed[i]);
    }
    assert forall c :: c in Coords(completed) <==> c in plan.order by { hide Coords, Distinct, ValidateCell; }
    SameRecords(plan, disk, completed, RecordsOf(plan, disk, plan.order));
    ManifestIgnoresOrder(plan, completed, RecordsOf(plan, disk, plan.order));
    hide TopManifest, Committed, RecordsOf, Coords, Distinct, RecordOk, Plan.Valid;
  }

  lemma RecordsOfCells(plan: Plan, a: Disk, b: Disk, order: seq<Coord>)
    requires a.cells == b.cells
    ensures RecordsOf(plan, a, order) == RecordsOf(plan, b, order)
    ensures forall c :: Committed(plan, a, c) <==> Committed(plan, b, c)
  {
    if order != [] { RecordsOfCells(plan, a, b, order[..|order| - 1]); }
  }

  /** A disk whose cells did not change keeps a sound manifest. */
  lemma PublishedIsOk(plan: Plan, w: World, manifest: Manifest, disk: Disk)
    requires plan.Valid() && Good(plan, w) && w.sweep.Some? && w.sweep.value.workers == map[]
    requires TopManifest(plan, w.sweep.value.completed) == Ok(manifest)
    requires disk.cells == w.disk.cells && (disk.manifest == w.disk.manifest || disk.manifest == Some(Published(manifest)))
    ensures ManifestOk(plan, disk)
  {
    PublishIsDetermined(plan, w.disk, w.sweep.value.completed);
    RecordsOfCells(plan, w.disk, disk, plan.order);
    hide TopManifest, RecordsOf, Committed, SweepOk, Plan.Valid;
  }

  lemma PublishKeepsGood(plan: Plan, w: World)
    requires plan.Valid() && Good(plan, w) && w.sweep.Some?
    ensures Good(plan, Finished(plan, w))
  {
    var s, t := w.sweep.value, Finished(plan, w);
    hide TopManifest, Plan.Valid;
    if !s.failing && s.workers == map[] && TopManifest(plan, s.completed).Ok? {
      PublishedIsOk(plan, w, TopManifest(plan, s.completed).value, t.disk);
    }
    hide ManifestOk, SweepOk;
  }

  // ---------------------------------------------------------------- every history

  lemma StepKeepsGood(plan: Plan, w: World, action: Action)
    requires plan.Valid() && Good(plan, w)
    ensures Good(plan, Step(plan, w, action))
  {
    hide Plan.Valid, SweepOk, ManifestOk;
    match action
    case Start(resume) => hide Started, Good; StartKeepsGood(plan, w, resume);
    case Crash =>
    case Publish => hide Finished, Good; if w.sweep.Some? { PublishKeepsGood(plan, w); }
    case Collect(c) =>
      hide Collected, Good;
      if w.sweep.Some? && c in w.sweep.value.workers { CollectKeepsGood(plan, w, c); }
    case _ =>
      hide WorkerStep, Good;
      if w.sweep.Some? && action.c in w.sweep.value.workers && action.c in plan.tasks {
        WorkerStepKeepsGood(plan, w, action.c, action);
      }
  }

  lemma WorkerStepKeepsGood(plan: Plan, w: World, c: Coord, action: Action)
    requires plan.Valid() && Good(plan, w) && w.sweep.Some? && c in w.sweep.value.workers && c in plan.tasks
    ensures Good(plan, WorkerStep(plan, w, c, w.sweep.value.workers[c], action))
  {
    hide Plan.Valid, WorkerStep, SweepOk, ManifestOk;
    WorkerKeepsGood(plan, w, c, action);
    if ManifestComplete(w.disk) { CompleteIsLeftAlone(plan, w, c, action); }
    StepSweeps(plan, w, c, action);
    IncompleteIsOk(plan, WorkerStep(plan, w, c, w.sweep.value.workers[c], action).disk);
  }

  predicate ManifestComplete(disk: Disk) { disk.manifest.Some? && disk.manifest.value.Published? }

  lemma IncompleteIsOk(plan: Plan, disk: Disk)
    ensures !ManifestComplete(disk) ==> ManifestOk(plan, disk)
  {}

  /** With a published manifest every cell is committed, so no worker writes. */
  lemma CompleteIsLeftAlone(plan: Plan, w: World, c: Coord, action: Action)
    requires plan.Valid() && Good(plan, w) && w.sweep.Some? && c in w.sweep.value.workers && c in plan.tasks
    requires ManifestComplete(w.disk)
    ensures WorkerStep(plan, w, c, w.sweep.value.workers[c], action).disk == w.disk
  {
    assert c in plan.order;
    hide Plan.Valid, WorkerStep, SweepOk, TopManifest, RecordsOf;
    CommittedIsLeftAlone(plan, w, c, action);
  }

  lemma StepSweeps(plan: Plan, w: World, c: Coord, action: Action)
    requires w.sweep.Some? && c in w.sweep.value.workers && c in plan.tasks
    ensures var t := WorkerStep(plan, w, c, w.sweep.value.workers[c], action); t.disk.manifest == w.disk.manifest && t.sweep.Some?
  {
    hide ValidateResult, ValidateCell;
  }

  lemma {:induction false} RunKeepsGood(plan: Plan, w: World, actions: seq<Action>)
    requires plan.Valid() && Good(plan, w)
    ensures Good(plan, Run(plan, w, actions))
  {
    if actions != [] {
      RunKeepsGood(plan, w, actions[..|actions| - 1]);
      StepKeepsGood(plan, Run(plan, w, actions[..|actions| - 1]), actions[|actions| - 1]);
      hide Good, Step;
    }
  }

  /** An output root that nobody has written to. */
  const EmptyRoot := World(Disk(map[], None), None, None)

  lemma EmptyRootIsGood(plan: Plan)
    ensures Good(plan, EmptyRoot)
  {}

  lemma {:induction false} CommittedStaysThrough(plan: Plan, w: World, actions: seq<Action>, c: Coord)
    requires plan.Valid() && Good(plan, w) && Committed(plan, w.disk, c)
    ensures c in Run(plan, w, actions).disk.cells && Run(plan, w, actions).disk.cells[c] == w.disk.cells[c]
  {
    if actions != [] {
      var front, last := actions[..|actions| - 1], actions[|actions| - 1];
      RunKeepsGood(plan, w, front);
      CommittedStaysThrough(plan, w, front, c);
      CommittedStays(plan, Run(plan, w, front), last, c);
      hide Good, Step, ValidateCell;
    }
  }

  lemma {:induction false} RunSplits(plan: Plan, w: World, actions: seq<Action>, n: nat)
    requires n <= |actions|
    ensures Run(plan, w, actions) == Run(plan, Run(plan, w, actions[..n]), actions[n..])
    decreases |actions|
  {
    if n == |actions| {
      assert actions[..n] == actions && actions[n..] == [];
    } else {
      var m := |actions| - 1;
      RunSplits(plan, w, actions[..m], n);
      assert actions[..m][..n] == actions[..n] && actions[..m][n..] == actions[n..][..m - n];
    }
  }

  /** Once committed, a cell is never run again, replaced or damaged, in any history of the root. */
  lemma CommittedForever(plan: Plan, actions: seq<Action>, n: nat, c: Coord)
    requires plan.Valid() && n <= |actions| && Committed(plan, Run(plan, EmptyRoot, actions[..n]).disk, c)
    ensures var before, now := Run(plan, EmptyRoot, actions[..n]).disk, Run(plan, EmptyRoot, actions).disk;
      c in now.cells && now.cells[c] == before.cells[c]
  {
    EmptyRootIsGood(plan);
    RunKeepsGood(plan, EmptyRoot, actions[..n]);
    CommittedStaysThrough(plan, Run(plan, EmptyRoot, actions[..n]), actions[n..], c);
    RunSplits(plan, EmptyRoot, actions, n);
    hide Run, Good, ValidateCell;
  }

  /** The published manifest, too, is never replaced. */
  lemma {:induction false} ManifestForever(plan: Plan, w: World, actions: seq<Action>)
    requires w.disk.manifest.Some?
    ensures Run(plan, w, actions).disk.manifest == w.disk.manifest
  {
    if actions != [] {
      var front, last := actions[..|actions| - 1], actions[|actions| - 1];
      ManifestForever(plan, w, front);
      StepKeepsManifest(plan, Run(plan, w, front), last);
      hide Step;
    }
  }

  lemma StepKeepsManifest(plan: Plan, w: World, action: Action)
    requires w.disk.manifest.Some?
    ensures Step(plan, w, action).disk.manifest == w.disk.manifest
  {
    hide ValidateCell, ValidateResult, TopManifest, Acceptable;
  }

  lemma {:induction false} CellsAre(order: seq<Coord>, index: map<Coord, Record>)
    requires forall c :: c in order ==> c in index
    ensures |Cells(order, index)| == |order| && forall i :: 0 <= i < |order| ==> order[i] in index && Cells(order, index)[i] == index[order[i]]
  {
    if order != [] {
      CellsAre(order[..|order| - 1], index);
      assert order[|order| - 1] in order;
    }
  }

  lemma {:induction false} IndexedRecord(records: seq<Record>, c: Coord)
    requires c in Index(records)
    ensures Index(records)[c] in records && Index(records)[c].coord == c
  {
    if records[|records| - 1].coord != c { IndexedRecord(records[..|records| - 1], c); }
  }

  /** In every history of a root the published manifest lists exactly the cells of the plan, in the plan's
      order, each with the record of the committed directory on disk: no other cell can enter it. */
  lemma ManifestListsCommittedCells(plan: Plan, actions: seq<Action>, i: nat)
    requires plan.Valid() && i < |plan.order|
    requires var disk := Run(plan, EmptyRoot, actions).disk; disk.manifest.Some? && disk.manifest.value.Published?
    ensures var disk := Run(plan, EmptyRoot, actions).disk;
      var m := disk.manifest.value.manifest;
      && |m.cells| == |plan.order| && m.plan == plan
      && Committed(plan, disk, plan.order[i])
      && ValidateCell(plan.tasks[plan.order[i]], disk.cells[plan.order[i]]) == Some(m.cells[i])
  {
    EmptyRootIsGood(plan);
    RunKeepsGood(plan, EmptyRoot, actions);
    hide Run, ManifestOk, SweepOk, Committed, ValidateCell, Plan.Valid;
    PublishedLists(plan, Run(plan, EmptyRoot, actions).disk, i);
  }

  lemma PublishedLists(plan: Plan, disk: Disk, i: nat)
    requires plan.Valid() && ManifestOk(plan, disk) && i < |plan.order|
    requires disk.manifest.Some? && disk.manifest.value.Published?
    ensures var m := disk.manifest.value.manifest;
      && |m.cells| == |plan.order| && m.plan == plan
      && Committed(plan, disk, plan.order[i])
      && ValidateCell(plan.tasks[plan.order[i]], disk.cells[plan.order[i]]) == Some(m.cells[i])
  {
    var records := RecordsOf(plan, disk, plan.order);
    PlanFacts(plan);
    RecordsAreOk(plan, disk, plan.order);
    CellsAre(plan.order, Index(records));
    IndexedRecord(records, plan.order[i]);
    assert RecordOk(plan, disk, Index(records)[plan.order[i]]);
    hide Index, RecordsOf, Cells, ValidateCell, Plan.Valid, Rows;
  }
}
