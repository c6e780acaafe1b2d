/** The sweep as the program runs it over a directory it updates in place. */
module SweepDirectory {
  import opened Wrappers
  import opened Sorting
  import opened SweepCells
  import opened SweepRuns
  import opened SweepSafety
  import opened SweepResume

  /** The cells a run has to execute, in the plan's order. */
  function Pending(disk: Disk, order: seq<Coord>): seq<Coord> {
    if order == [] then []
    else
      var c := order[|order| - 1];
      Pending(disk, order[..|order| - 1]) + if c in disk.cells then [] else [c]
  }

  /** The cells listed so far are acceptable, and sorted into records and pending coordinates. */
  ghost predicate Checked(plan: Plan, disk: Disk, resume: bool, front: seq<Coord>, completed: seq<Record>, pending: seq<Coord>) {
    && (forall c :: c in front && c in disk.cells ==> resume && Committed(plan, disk, c))
    && completed == RecordsOf(plan, disk, front) && pending == Pending(disk, front)
  }

  lemma Listed(plan: Plan, c: Coord)
    requires plan.Valid()
    ensures c in plan.order <==> c in plan.tasks
  {}

  lemma NothingChecked(plan: Plan, disk: Disk, resume: bool)
    ensures Checked(plan, disk, resume, [], [], [])
  {}

  lemma CheckOne(plan: Plan, disk: Disk, resume: bool, front: seq<Coord>, completed: seq<Record>, pending: seq<Coord>, c: Coord)
    requires Checked(plan, disk, resume, front, completed, pending) && c in plan.tasks && c in plan.order
    ensures c !in disk.cells ==> Checked(plan, disk, resume, front + [c], completed, pending + [c])
    ensures c in disk.cells && resume && ValidateCell(plan.tasks[c], disk.cells[c]).Some? ==>
      Checked(plan, disk, resume, front + [c], completed + [ValidateCell(plan.tasks[c], disk.cells[c]).value], pending)
    ensures c in disk.cells && (!resume || ValidateCell(plan.tasks[c], disk.cells[c]).None?) ==> !Acceptable(plan, disk, resume)
  {
    hide ValidateCell;
    assert (front + [c])[..|front|] == front;
    assert RecordsOf(plan, disk, front) + [] == RecordsOf(plan, disk, front);
    assert Pending(disk, front) + [] == Pending(disk, front);
  }

  lemma AllChecked(plan: Plan, disk: Disk, resume: bool, completed: seq<Record>, pending: seq<Coord>)
    requires Checked(plan, disk, resume, plan.order, completed, pending)
    ensures Acceptable(plan, disk, resume)
    ensures (completed, pending) == (RecordsOf(plan, disk, plan.order), Pending(disk, plan.order))
  {
    hide Committed;
  }

  /** The directory that a worker whose result fits its cell leaves. */
  function CellEntry(task: Task, result: CellResult, text: string): Entry
    requires ValidateResult(result, task).Some?
  {
    var json, csv := ResultFile(result), CsvFile(|result.identities|, text);
    var marker := Marker(task.contract, ValidateResult(result, task).value, json, csv);
    Directory(map[CellJson := json, RequestCsv := csv, CompletionJson := MarkerFile(marker)])
  }

  /** A directory that a worker of this very task leaves. */
  ghost predicate LeftBy(task: Task, entry: Entry, result: CellResult, text: string) {
    ValidateResult(result, task).Some? && entry == CellEntry(task, result, text)
  }

  /** The validation accepts exactly the directories that a worker of this very task leaves with a result that
      fits: the two files, and the marker that names the task's contract and both of them. */
  lemma AcceptsExactly(task: Task, entry: Entry)
    ensures ValidateCell(task, entry).Some? <==> exists result, text :: LeftBy(task, entry, result, text)
  {
    hide ValidateResult;
    if ValidateCell(task, entry).Some? {
      var files := entry.files;
      var result, csv := files[CellJson].result, files[RequestCsv];
      BundleRows(task, result);
      assert csv == CsvFile(|result.identities|, csv.text);
      var written := CellEntry(task, result, csv.text);
      assert written.files == files;
      assert LeftBy(task, entry, result, csv.text);
    }
    if result, text :| LeftBy(task, entry, result, text) { AcceptedRecord(task, result, text); }
  }

  /** The record of an accepted directory repeats the cell, its contract and result, and both files. */
  lemma AcceptedRecord(task: Task, result: CellResult, text: string)
    requires ValidateResult(result, task).Some?
    ensures var json, csv, contract := ResultFile(result), CsvFile(task.callCount, text), ValidateResult(result, task).value;
      ValidateCell(task, CellEntry(task, result, text))
      == Some(Record(task.coord, task.contract, task.pairHash, contract, json, csv, Marker(task.contract, contract, json, csv)))
  {
    BundleRows(task, result);
    hide ValidateResult;
    var entry := CellEntry(task, result, text);
    assert entry.files.Keys == {CellJson, RequestCsv, CompletionJson};
  }

  predicate Fits(plan: Plan, results: map<Coord, (CellResult, string)>, c: Coord) {
    c in plan.tasks && c in results && ValidateResult(results[c].0, plan.tasks[c]).Some?
  }

  predicate AllFit(plan: Plan, results: map<Coord, (CellResult, string)>, done: seq<Coord>) {
    forall c :: c in done ==> Fits(plan, results, c)
  }

  /** The cells after those of `done` have been executed, in whatever order. */
  function Ran(plan: Plan, cells: map<Coord, Entry>, done: seq<Coord>, results: map<Coord, (CellResult, string)>): map<Coord, Entry>
    requires AllFit(plan, results, done)
  {
    cells + map c | c in done :: CellEntry(plan.tasks[c], results[c].0, results[c].1)
  }

  lemma RanNothing(plan: Plan, cells: map<Coord, Entry>, results: map<Coord, (CellResult, string)>)
    ensures AllFit(plan, results, []) && Ran(plan, cells, [], results) == cells
  {}

  lemma RanOne(plan: Plan, cells: map<Coord, Entry>, done: seq<Coord>, results: map<Coord, (CellResult, string)>, c: Coord)
    requires AllFit(plan, results, done)
    ensures AllFit(plan, results, done + [c]) <==> Fits(plan, results, c)
    ensures Fits(plan, results, c) ==>
      Ran(plan, cells, done + [c], results) == Ran(plan, cells, done, results)[c := CellEntry(plan.tasks[c], results[c].0, results[c].1)]
  {
    FitOne(plan, results, done, c);
    if Fits(plan, results, c) { RanMore(plan, cells, done, results, c); }
  }

  lemma FitOne(plan: Plan, results: map<Coord, (CellResult, string)>, done: seq<Coord>, c: Coord)
    requires AllFit(plan, results, done)
    ensures AllFit(plan, results, done + [c]) <==> Fits(plan, results, c)
  {
    hide Fits;
    assert c in done + [c];
  }

  lemma RanMore(plan: Plan, cells: map<Coord, Entry>, done: seq<Coord>, results: map<Coord, (CellResult, string)>, c: Coord)
    requires AllFit(plan, results, done) && Fits(plan, results, c) && AllFit(plan, results, done + [c])
    ensures Ran(plan, cells, done + [c], results) == Ran(plan, cells, done, results)[c := CellEntry(plan.tasks[c], results[c].0, results[c].1)]
  {
    hide ValidateResult, CellEntry;
    var a, b := Ran(plan, cells, done + [c], results), Ran(plan, cells, done, results)[c := CellEntry(plan.tasks[c], results[c].0, results[c].1)];
    assert forall d :: d in done + [c] <==> d in done || d == c;
    forall d ensures d in a <==> d in b {}
    forall d | d in a ensures a[d] == b[d] {}
  }

  lemma RanKeys(plan: Plan, cells: map<Coord, Entry>, done: seq<Coord>, results: map<Coord, (CellResult, string)>)
    requires AllFit(plan, results, done)
    ensures forall c :: c in Ran(plan, cells, done, results) <==> c in cells || c in done
    ensures forall c :: c in cells && c !in done ==> Ran(plan, cells, done, results)[c] == cells[c]
  {
    hide Fits, CellEntry;
  }

  /** Execution stopped at the first cell whose result does not fit. */
  predicate StoppedAt(plan: Plan, before: map<Coord, Entry>, after: map<Coord, Entry>, finishing: seq<Coord>,
                      results: map<Coord, (CellResult, string)>, n: nat)
  {
    && n < |finishing| && AllFit(plan, results, finishing[..n]) && !Fits(plan, results, finishing[n])
    && after == Ran(plan, before, finishing[..n], results)
  }

  lemma NotAllFit(plan: Plan, results: map<Coord, (CellResult, string)>, finishing: seq<Coord>, i: nat)
    requires i < |finishing| && !Fits(plan, results, finishing[i])
    ensures !AllFit(plan, results, finishing)
  {
    assert finishing[i] in finishing;
  }

  lemma NewHere(finishing: seq<Coord>, i: nat)
    requires Distinct(finishing) && i < |finishing|
    ensures finishing[i] !in finishing[..i]
  {}

  /** When a sweep returns a manifest: the directory is acceptable, every result fits its cell, and a manifest
      that is already there is to be kept and is the one that the cells determine. */
  ghost predicate Succeeds(plan: Plan, disk: Disk, resume: bool, finishing: seq<Coord>, results: map<Coord, (CellResult, string)>) {
    && Acceptable(plan, disk, resume) && AllFit(plan, results, finishing)
    && (disk.manifest.Some? ==>
          && resume && disk.manifest.value.Published?
          && TopManifest(plan, RecordsOf(plan, Disk(Ran(plan, disk.cells, finishing, results), disk.manifest), plan.order))
             == Ok(disk.manifest.value.manifest))
  }

  class OutputRoot {
    var cells: map<Coord, Entry>
    var manifest: Option<ManifestFile>

    ghost function View(): Disk reads this { Disk(cells, manifest) }

    constructor ()
      ensures View() == Disk(map[], None)
    {
      cells, manifest := map[], None;
    }

    /** Sort the cells into committed and pending ones, or refuse to start. */
    method Preflight(plan: Plan, resume: bool) returns (r: Result<(seq<Record>, seq<Coord>)>)
      requires plan.Valid()
      ensures r.Ok? <==> Acceptable(plan, View(), resume)
      ensures r.Ok? ==> r.value == (RecordsOf(plan, View(), plan.order), Pending(View(), plan.order))
    {
      var completed: seq<Record> := [];
      var pending: seq<Coord> := [];
      hide Plan.Valid, ValidateCell, Checked, Acceptable;
      NothingChecked(plan, View(), resume);
      var i := 0;
      while i < |plan.order|
        invariant 0 <= i <= |plan.order|
        invariant Checked(plan, View(), resume, plan.order[..i], completed, pending)
      {
        var c := plan.order[i];
        assert plan.order[..i + 1] == plan.order[..i] + [c];
        Listed(plan, c);
        CheckOne(plan, View(), resume, plan.order[..i], completed, pending, c);
        if c in cells {
          if !resume { return Err("existing cell requires --resume"); }
          var record := ValidateCell(plan.tasks[c], cells[c]);
          if record.None? { return Err("invalid cell"); }
          completed := completed + [record.value];
        } else {
          pending := pending + [c];
        }
        i := i + 1;
      }
      assert plan.order[..i] == plan.order;
      AllChecked(plan, View(), resume, completed, pending);
      r := Ok((completed, pending));
    }

    /** Run and commit one cell: two files by one directory rename, then the marker. */
    method ExecuteCell(plan: Plan, c: Coord, result: CellResult, text: string) returns (r: Option<Record>)
      requires plan.Valid() && c in plan.tasks
      modifies this`cells
      ensures r.Some? <==> c !in old(cells) && ValidateResult(result, plan.tasks[c]).Some?
      ensures r.None? ==> cells == old(cells)
      ensures r.Some? ==>
                && cells == old(cells)[c := CellEntry(plan.tasks[c], result, text)]
                && RecordOk(plan, View(), r.value) && r.value.coord == c && r.value.cellJson == ResultFile(result)
    {
      if c in cells { return None; }
      var contract := ValidateResult(result, plan.tasks[c]);
      if contract.None? { return None; }
      BundleRows(plan.tasks[c], result);
      assert plan.tasks[c].coord == c;
      hide Plan.Valid, ValidateResult;
      var bundle := map[CellJson := ResultFile(result), RequestCsv := CsvFile(|result.identities|, text)];
      cells := cells[c := Directory(bundle)];
      var marker := Marker(plan.tasks[c].contract, contract.value, bundle[CellJson], bundle[RequestCsv]);
      var files := bundle[CompletionJson := MarkerFile(marker)];
      cells := cells[c := Directory(files)];
      assert files.Keys == {CellJson, RequestCsv, CompletionJson};
      r := ValidateCell(plan.tasks[c], cells[c]);
    }

    /** An existing manifest is compared, never replaced. */
    method PublishTopManifest(m: Manifest, resume: bool) returns (ok: bool)
      modifies this`manifest
      ensures (View(), ok) == PublishManifest(old(View()), m, resume)
    {
      if manifest.Some? {
        return resume && manifest.value == Published(m);
      }
      manifest := Some(Published(m));
      return true;
    }

    /** Execute the pending cells in the order in which the workers finish; stop at the first failure. */
    method ExecutePending(plan: Plan, accepted: seq<Record>, finishing: seq<Coord>, results: map<Coord, (CellResult, string)>)
      returns (ok: bool, completed: seq<Record>)
      requires plan.Valid() && RecordsOk(plan, View(), accepted) && Remaining(plan, accepted, finishing)
      requires forall c :: c in finishing ==> c in results && c !in cells
      modifies this`cells
      ensures ok <==> AllFit(plan, results, finishing)
      ensures ok ==> cells == Ran(plan, old(cells), finishing, results)
      ensures !ok ==> exists n :: StoppedAt(plan, old(cells), cells, finishing, results, n)
      ensures ok ==> RecordsOk(plan, View(), completed) && Remaining(plan, completed, [])
    {
      StartExecuting(plan, View(), finishing, results, accepted);
      RemainingIsDistinct(plan, accepted, finishing);
      hide *;
      completed := accepted;
      var i := 0;
      while i < |finishing|
        invariant 0 <= i <= |finishing|
        invariant Executing(plan, old(cells), View(), finishing, results, i, completed)
      {
        var c := finishing[i];
        ghost var before := View();
        NextCell(plan, old(cells), before, finishing, results, i, completed);
        var record := ExecuteCell(plan, c, results[c].0, results[c].1);
        if record.None? {
          StopsHere(plan, old(cells), before, finishing, results, i, completed);
          return false, completed;
        }
        ExecutedOne(plan, old(cells), before, View(), finishing, results, i, completed, record.value);
        completed := completed + [record.value];
        i := i + 1;
      }
      AllExecuted(plan, old(cells), View(), finishing, results, completed);
      ok := true;
    }

    /** The whole sweep: accept what is committed, execute the rest in whatever order the workers finish,
        and publish. `results` are what the cells' simulations return. */
    method RunSweep(plan: Plan, resume: bool, finishing: seq<Coord>, results: map<Coord, (CellResult, string)>)
      returns (answer: Option<Manifest>)
      requires plan.Valid()
      requires multiset(finishing) == multiset(Pending(View(), plan.order)) && forall c :: c in finishing ==> c in results
      modifies this
      ensures forall c :: c in old(cells) ==> c in cells && cells[c] == old(cells)[c]
      ensures old(manifest).Some? ==> manifest == old(manifest)
      ensures answer.Some? <==> Succeeds(plan, old(View()), resume, finishing, results)
      ensures answer.Some? ==>
                && AllFit(plan, results, finishing) && cells == Ran(plan, old(cells), finishing, results)
                && (forall c :: c in plan.order ==> Committed(plan, View(), c))
                && TopManifest(plan, RecordsOf(plan, View(), plan.order)) == Ok(answer.value)
                && manifest == Some(Published(answer.value))
      ensures answer.None? ==> manifest == old(manifest)
      ensures !Acceptable(plan, old(View()), resume) || (old(manifest).Some? && !resume) ==> answer.None? && View() == old(View())
    {
      hide Plan.Valid, RecordsOk, Remaining, ValidateCell, RecordsOf, Acceptable, Pending, TopManifest, Ran, AllFit, Committed;
      answer := None;
      ghost var start := View();
      if manifest.Some? && !resume { return; }
      var ready := Preflight(plan, resume);
      if ready.Err? { return; }
      StartedRecords(plan, View());
      StartRemains(plan, View(), resume, finishing);
      var ok, completed := ExecutePending(plan, ready.value.0, finishing, results);
      PreviousCellsStay(plan, start.cells, cells, finishing, results, ok);
      if !ok { return; }
      ghost var disk := View();
      ManifestIsBuilt(plan, disk, completed);
      var built := BuildManifest(plan, completed);
      var published := PublishTopManifest(built.value, resume);
      RecordsOfCells(plan, disk, View(), plan.order);
      if published { answer := Some(built.value); }
    }
  }

  /** Execution adds cells and leaves the others alone. */
  lemma PreviousCellsStay(plan: Plan, before: map<Coord, Entry>, after: map<Coord, Entry>, finishing: seq<Coord>,
                          results: map<Coord, (CellResult, string)>, ok: bool)
    requires forall c :: c in finishing ==> c !in before
    requires ok ==> AllFit(plan, results, finishing) && after == Ran(plan, before, finishing, results)
    requires !ok ==> exists n :: StoppedAt(plan, before, after, finishing, results, n)
    ensures forall c :: c in before ==> c in after && after[c] == before[c]
  {
    hide AllFit, Ran, Fits;
    if ok {
      RanKeys(plan, before, finishing, results);
    } else {
      var n: nat :| StoppedAt(plan, before, after, finishing, results, n);
      RanKeys(plan, before, finishing[..n], results);
    }
  }

  /** With every cell executed the manifest can be built, and it is the one the directory determines. */
  lemma ManifestIsBuilt(plan: Plan, disk: Disk, completed: seq<Record>)
    requires plan.Valid() && RecordsOk(plan, disk, completed) && Remaining(plan, completed, [])
    ensures forall c :: c in plan.order ==> Committed(plan, disk, c)
    ensures TopManifest(plan, completed) == TopManifest(plan, RecordsOf(plan, disk, plan.order)) && TopManifest(plan, completed).Ok?
  {
    hide *;
    NothingRemains(plan, completed);
    PublishIsDetermined(plan, disk, completed);
    CompleteSweepHasManifest(plan, disk);
  }

  /** Every cell of the plan is collected or still to finish, and not both. */
  ghost predicate Remaining(plan: Plan, completed: seq<Record>, rest: seq<Coord>) {
    && Distinct(rest) && (forall c :: c in rest ==> c in plan.tasks && c !in Coords(completed))
    && (forall c :: c in plan.order ==> c in Coords(completed) || c in rest)
  }

  lemma {:induction false} PendingIs(disk: Disk, order: seq<Coord>)
    requires Distinct(order)
    ensures Distinct(Pending(disk, order)) && forall c :: c in Pending(disk, order) <==> c in order && c !in disk.cells
  {
    if order != [] {
      var n := |order| - 1;
      assert order == order[..n] + [order[n]];
      DistinctSnoc(order[..n], order[n]);
      PendingIs(disk, order[..n]);
      DistinctSnoc(Pending(disk, order[..n]), order[n]);
      hide Distinct;
    }
  }

  lemma StartRemains(plan: Plan, disk: Disk, resume: bool, finishing: seq<Coord>)
    requires plan.Valid() && Acceptable(plan, disk, resume) && multiset(finishing) == multiset(Pending(disk, plan.order))
    ensures Remaining(plan, RecordsOf(plan, disk, plan.order), finishing)
    ensures forall c :: c in finishing ==> c !in disk.cells
  {
    hide Plan.Valid, Distinct, ValidateCell, Coords, Pending, RecordsOf;
    StartCoords(plan, disk);
    SameDistinct(finishing, Pending(disk, plan.order));
    FinishingIs(disk, plan.order, finishing);
  }

  /** At the start the cells are either recorded or pending. */
  lemma StartCoords(plan: Plan, disk: Disk)
    requires plan.Valid()
    ensures Distinct(Pending(disk, plan.order))
    ensures forall c :: c in plan.order ==> c in plan.tasks
    ensures forall c :: c in Pending(disk, plan.order) <==> c in plan.order && c !in disk.cells
    ensures forall c :: c in Coords(RecordsOf(plan, disk, plan.order)) <==> c in plan.order && Committed(plan, disk, c)
  {
    PlanFacts(plan);
    PendingIs(disk, plan.order);
    RecordCoords(plan, disk, plan.order);
    hide *;
  }

  lemma FinishingIs(disk: Disk, order: seq<Coord>, finishing: seq<Coord>)
    requires multiset(finishing) == multiset(Pending(disk, order))
    ensures forall c :: c in finishing <==> c in Pending(disk, order)
  {
    SameMembers(finishing, Pending(disk, order));
  }

  /** Cells that were there before keep their records sound. */
  lemma RecordsSurvive(plan: Plan, before: Disk, after: Disk, completed: seq<Record>)
    requires RecordsOk(plan, before, completed)
    requires forall c :: c in before.cells ==> c in after.cells && after.cells[c] == before.cells[c]
    ensures RecordsOk(plan, after, completed)
  {
    hide ValidateCell, Coords, Distinct;
  }

  /** The first `i` finishing cells are executed and recorded, the others remain. */
  ghost predicate Executing(plan: Plan, start: map<Coord, Entry>, disk: Disk, finishing: seq<Coord>,
                            results: map<Coord, (CellResult, string)>, i: nat, completed: seq<Record>)
  {
    && i <= |finishing| && AllFit(plan, results, finishing[..i])
    && disk.cells == Ran(plan, start, finishing[..i], results)
    && RecordsOk(plan, disk, completed) && Remaining(plan, completed, finishing[i..])
  }

  lemma StartExecuting(plan: Plan, disk: Disk, finishing: seq<Coord>, results: map<Coord, (CellResult, string)>, accepted: seq<Record>)
    requires RecordsOk(plan, disk, accepted) && Remaining(plan, accepted, finishing)
    ensures Executing(plan, disk.cells, disk, finishing, results, 0, accepted)
  {
    hide RecordsOk, Remaining, Ran, AllFit;
    assert finishing[0..] == finishing && finishing[..0] == [];
    RanNothing(plan, disk.cells, results);
  }

  lemma NextCell(plan: Plan, start: map<Coord, Entry>, disk: Disk, finishing: seq<Coord>, results: map<Coord, (CellResult, string)>,
                 i: nat, completed: seq<Record>)
    requires Executing(plan, start, disk, finishing, results, i, completed) && i < |finishing| && Distinct(finishing)
    requires forall c :: c in finishing ==> c in results && c !in start
    ensures var c := finishing[i];
      && c in plan.tasks && c in results && c !in disk.cells
      && (ValidateResult(results[c].0, plan.tasks[c]).Some? <==> Fits(plan, results, c))
  {
    hide RecordsOk, Ran, AllFit, ValidateResult, Coords, Distinct;
    NewHere(finishing, i);
    RanKeys(plan, start, finishing[..i], results);
    assert finishing[i..][0] == finishing[i] && finishing[i..] != [];
    assert finishing[i] in finishing[i..] && finishing[i] in finishing;
  }

  lemma StopsHere(plan: Plan, start: map<Coord, Entry>, disk: Disk, finishing: seq<Coord>, results: map<Coord, (CellResult, string)>,
                  i: nat, completed: seq<Record>)
    requires Executing(plan, start, disk, finishing, results, i, completed) && i < |finishing| && !Fits(plan, results, finishing[i])
    ensures !AllFit(plan, results, finishing) && StoppedAt(plan, start, disk.cells, finishing, results, i)
  {
    hide RecordsOk, Remaining, Ran, AllFit, Fits;
    NotAllFit(plan, results, finishing, i);
  }

  lemma ExecutedOne(plan: Plan, start: map<Coord, Entry>, before: Disk, after: Disk, finishing: seq<Coord>,
                    results: map<Coord, (CellResult, string)>, i: nat, completed: seq<Record>, record: Record)
    requires Executing(plan, start, before, finishing, results, i, completed) && i < |finishing|
    requires var c := finishing[i];
      && Fits(plan, results, c) && c !in before.cells
      && after.cells == before.cells[c := CellEntry(plan.tasks[c], results[c].0, results[c].1)]
      && RecordOk(plan, after, record) && record.coord == c
    ensures Executing(plan, start, after, finishing, results, i + 1, completed + [record])
  {
    hide RecordsOk, Remaining, Ran, AllFit, Fits, RecordOk, CellEntry, Coords;
    var c := finishing[i];
    assert finishing[i..] == [c] + finishing[i + 1..] && finishing[..i + 1] == finishing[..i] + [c];
    RemainingStep(plan, completed, c, finishing[i + 1..]);
    RanOne(plan, start, finishing[..i], results, c);
    RecordsSurvive(plan, before, after, completed);
    CollectedRecords(plan, after, completed, record);
  }

  lemma AllExecuted(plan: Plan, start: map<Coord, Entry>, disk: Disk, finishing: seq<Coord>, results: map<Coord, (CellResult, string)>,
                    completed: seq<Record>)
    requires Executing(plan, start, disk, finishing, results, |finishing|, completed)
    ensures AllFit(plan, results, finishing) && disk.cells == Ran(plan, start, finishing, results)
    ensures RecordsOk(plan, disk, completed) && Remaining(plan, completed, [])
  {
    hide RecordsOk, Remaining, Ran, AllFit;
    assert finishing[..|finishing|] == finishing && finishing[|finishing|..] == [];
  }

  lemma RemainingIsDistinct(plan: Plan, completed: seq<Record>, rest: seq<Coord>)
    requires Remaining(plan, completed, rest)
    ensures Distinct(rest)
  {}

  lemma RemainingStep(plan: Plan, completed: seq<Record>, c: Coord, rest: seq<Coord>)
    requires Remaining(plan, completed, [c] + rest)
    ensures c !in Coords(completed) && c in plan.tasks
    ensures forall more :: Coords(more) == Coords(completed) + [c] ==> Remaining(plan, more, rest)
  {
    var all := [c] + rest;
    assert all[0] == c && all[1..] == rest;
    assert forall d :: d in all <==> d == c || d in rest;
    hide Coords;
    forall i | 0 <= i < |rest| ensures rest[i] != c { assert all[i + 1] == rest[i]; }
    forall i, j | 0 <= i < j < |rest| ensures rest[i] != rest[j] { assert all[i + 1] == rest[i] && all[j + 1] == rest[j]; }
  }

  lemma NothingRemains(plan: Plan, completed: seq<Record>)
    requires Remaining(plan, completed, [])
    ensures Covered(plan, map[], completed)
  {
    hide Coords;
  }
}
