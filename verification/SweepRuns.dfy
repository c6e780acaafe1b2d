/** The sweep as a crash-and-resume protocol (serving/hbf_comparison_sweep.py, run_sweep, _preflight_cells,
  _execute_cell and _publish_top_manifest; write_cell_output_bundle_atomic of
  serving/core/hbf_comparison_cell.py).

  Each cell runs in a process of its own. A worker publishes its two files by one directory rename, writes
  the completion marker through a temporary file and a second rename, and validates what it wrote. Workers
  interleave freely; any of them may fail, and the whole sweep may crash, between any two writes.
 */
module SweepRuns {
  import opened Wrappers
  import opened Sorting
  import opened SweepCells

  datatype ManifestFile = Published(manifest: Manifest) | Unreadable(text: string)

  datatype Disk = Disk(cells: map<Coord, Entry>, manifest: Option<ManifestFile>)

  /** What a worker has written of its directory. */
  datatype Stage = NothingWritten | HalfWritten | FullyWritten

  datatype Worker =
    | Ready
    | Simulated(result: CellResult)
    | Bundled(contract: ResultContract)
    | MarkerStaged(contract: ResultContract)
    | Marked
    | Returned(record: Record)
    | Broken(at: Stage)
  {
    /** Between its two renames a worker has written half of its directory. */
    function Progress(): Stage {
      match this
      case Ready => NothingWritten
      case Simulated(_) => NothingWritten
      case Bundled(_) => HalfWritten
      case MarkerStaged(_) => HalfWritten
      case Marked => FullyWritten
      case Returned(_) => FullyWritten
      case Broken(at) => at
    }
  }

  datatype Sweep = Sweep(resume: bool, completed: seq<Record>, workers: map<Coord, Worker>, failing: bool)

  /** `answer` is what the last finished run returned. */
  datatype World = World(disk: Disk, sweep: Option<Sweep>, answer: Option<Manifest>)

  datatype Action =
    | Start(resume: bool)
    | Simulate(c: Coord, result: CellResult)
    | Bundle(c: Coord, text: string)
    | StageMarker(c: Coord, n: nat)
    | Mark(c: Coord)
    | Return(c: Coord)
    | Break(c: Coord)
    | Collect(c: Coord)
    | Publish
    | Crash

  // ---------------------------------------------------------------- starting

  /** The cell of this coordinate is committed: its directory passes the strict validation. */
  predicate Committed(plan: Plan, disk: Disk, c: Coord) {
    c in plan.tasks && c in disk.cells && ValidateCell(plan.tasks[c], disk.cells[c]).Some?
  }

  /** lines 1131-1153: accept what is committed, run what is absent, refuse anything else. */
  predicate Acceptable(plan: Plan, disk: Disk, resume: bool) {
    forall c :: c in plan.order && c in disk.cells ==> resume && Committed(plan, disk, c)
  }

  function RecordsOf(plan: Plan, disk: Disk, order: seq<Coord>): seq<Record> {
    if order == [] then []
    else
      var c := order[|order| - 1];
      RecordsOf(plan, disk, order[..|order| - 1])
      + if Committed(plan, disk, c) then [ValidateCell(plan.tasks[c], disk.cells[c]).value] else []
  }

  function Started(plan: Plan, w: World, resume: bool): World {
    if w.sweep.Some? || (w.disk.manifest.Some? && !resume) || !Acceptable(plan, w.disk, resume) then w
    else
      w.(sweep := Some(Sweep(resume, RecordsOf(plan, w.disk, plan.order),
                             map c | c in plan.order && c !in w.disk.cells :: Ready, false)))
  }

  // ---------------------------------------------------------------- the writes of a worker

  function SetWorker(w: World, c: Coord, worker: Worker): World
    requires w.sweep.Some?
  {
    w.(sweep := Some(w.sweep.value.(workers := w.sweep.value.workers[c := worker])))
  }

  function SetFiles(w: World, c: Coord, files: map<Name, File>): World {
    w.(disk := w.disk.(cells := w.disk.cells[c := Directory(files)]))
  }

  /** The files of a cell directory, if there is one. */
  function FilesOf(w: World, c: Coord): map<Name, File> {
    if c in w.disk.cells && w.disk.cells[c].Directory? then w.disk.cells[c].files else map[]
  }

  /** One step of worker `c`, which is at `worker`. A worker that raises keeps what it has written. */
  function WorkerStep(plan: Plan, w: World, c: Coord, worker: Worker, action: Action): World
    requires w.sweep.Some? && c in plan.tasks
  {
    var broken := Broken(worker.Progress());
    match (worker, action)
    case (Ready, Simulate(_, result)) =>
      SetWorker(w, c, if c in w.disk.cells || ValidateResult(result, plan.tasks[c]).None? then broken else Simulated(result))
    case (Simulated(result), Bundle(_, text)) =>
      if c in w.disk.cells || ValidateResult(result, plan.tasks[c]).None? then SetWorker(w, c, broken)
      else
        SetWorker(SetFiles(w, c, map[CellJson := ResultFile(result), RequestCsv := CsvFile(|result.identities|, text)]),
                  c, Bundled(ValidateResult(result, plan.tasks[c]).value))
    case (Bundled(contract), StageMarker(_, n)) =>
      SetWorker(SetFiles(w, c, FilesOf(w, c)[Temporary(n) := OtherFile("")]), c, MarkerStaged(contract))
    case (MarkerStaged(contract), Mark(_)) =>
      var files := FilesOf(w, c);
      if CellJson in files && RequestCsv in files then
        var marker := Marker(plan.tasks[c].contract, contract, files[CellJson], files[RequestCsv]);
        SetWorker(SetFiles(w, c, map[CellJson := files[CellJson], RequestCsv := files[RequestCsv], CompletionJson := MarkerFile(marker)]),
                  c, Marked)
      else SetWorker(w, c, broken)
    case (Marked, Return(_)) =>
      SetWorker(w, c, if Committed(plan, w.disk, c) then Returned(ValidateCell(plan.tasks[c], w.disk.cells[c]).value) else broken)
    case (_, Break(_)) => if worker.Returned? then w else SetWorker(w, c, broken)
    case _ => w
  }

  // ---------------------------------------------------------------- collecting and publishing

  function Collected(w: World, c: Coord): World
    requires w.sweep.Some? && c in w.sweep.value.workers
  {
    var s := w.sweep.value;
    match s.workers[c]
    case Returned(record) =>
      if s.failing then w else w.(sweep := Some(s.(completed := s.completed + [record], workers := s.workers - {c})))
    case Broken(_) => w.(sweep := Some(s.(failing := true)))
    case _ => w
  }

  /** lines 1368-1388: an existing manifest is never replaced. */
  function PublishManifest(disk: Disk, manifest: Manifest, resume: bool): (Disk, bool) {
    if disk.manifest.None? then (disk.(manifest := Some(Published(manifest))), true)
    else (disk, resume && disk.manifest.value == Published(manifest))
  }

  function Finished(plan: Plan, w: World): World
    requires w.sweep.Some?
  {
    var s := w.sweep.value;
    if s.failing || s.workers != map[] then w
    else match TopManifest(plan, s.completed)
      case Err(_) => w.(sweep := None)
      case Ok(manifest) =>
        var (disk, ok) := PublishManifest(w.disk, manifest, s.resume);
        World(disk, None, if ok then Some(manifest) else w.answer)
  }

  /** A run finishes only when no cell has failed and every worker is collected. It writes the manifest when there
      is none, and otherwise answers with it exactly when it resumes and finds it equal. */
  lemma FinishesExactly(plan: Plan, w: World)
    requires w.sweep.Some?
    ensures var s, t, built := w.sweep.value, Finished(plan, w), TopManifest(plan, w.sweep.value.completed);
      if s.failing || s.workers != map[] then t == w
      else if built.Err? then t == w.(sweep := None)
      else
        && t.sweep.None? && t.disk.cells == w.disk.cells
        && t.disk.manifest == (if w.disk.manifest.None? then Some(Published(built.value)) else w.disk.manifest)
        && t.answer == if t.disk.manifest == Some(Published(built.value)) && (w.disk.manifest.None? || s.resume) then Some(built.value) else w.answer
  {
    hide TopManifest;
  }

  /** A run that starts takes the committed cells as they are and gives each absent one a worker. */
  lemma StartsExactly(plan: Plan, w: World, resume: bool)
    requires w.sweep.None?
    ensures var t := Started(plan, w, resume);
      if t.sweep.None? then t == w
      else
        && t.disk == w.disk && t.answer == w.answer && t.sweep.value.resume == resume && !t.sweep.value.failing
        && t.sweep.value.completed == RecordsOf(plan, w.disk, plan.order)
        && forall c :: (c in t.sweep.value.workers <==> c in plan.order && c !in w.disk.cells)
                       && (c in t.sweep.value.workers ==> t.sweep.value.workers[c] == Ready)
  {
    hide RecordsOf, Acceptable;
  }

  function Step(plan: Plan, w: World, action: Action): World {
    match action
    case Start(resume) => Started(plan, w, resume)
    case Crash => w.(sweep := None)
    case Publish => if w.sweep.None? then w else Finished(plan, w)
    case Collect(c) => if w.sweep.None? || c !in w.sweep.value.workers then w else Collected(w, c)
    case _ =>
      if w.sweep.None? || action.c !in w.sweep.value.workers || action.c !in plan.tasks then w
      else WorkerStep(plan, w, action.c, w.sweep.value.workers[action.c], action)
  }

  function Run(plan: Plan, w: World, actions: seq<Action>): World {
    if actions == [] then w else Step(plan, Run(plan, w, actions[..|actions| - 1]), actions[|actions| - 1])
  }
}
