/** Multi-file publication with rollback (serving/agentic_kv_qwen3_1m_collect.py).

  A directory is a map from file to content. Hard links and renames within one file system are
  atomic, and every one of them may fail; `faults` decides which do. A hash is modelled by the
  content it hashes. `history` records every content the root directory ever had, so a statement
  about all of it covers a crash at any step.
 */
module StagedPublish {

  datatype File = Summary | ReturnSources | TransferStages | Manifest

  const TABLES: seq<File> := [Summary, ReturnSources, TransferStages]
  const OUTPUTS: seq<File> := TABLES + [Manifest]

  /** The manifest binds the content of each table. */
  datatype Content = Table(rows: string) | Index(tables: map<File, Content>)

  type Dir = map<File, Content>

  datatype Outcome = Published | BackupFailed | RolledBack | RollbackInterrupted

  predicate IsTable(f: File) { f != Manifest }

  /** Every output of `root` comes from `generation`; absent files are absent. */
  predicate AllFrom(root: Dir, generation: Dir) {
    forall f: File :: (f in root <==> f in generation) && (f in root ==> root[f] == generation[f])
  }

  predicate SameEntry(a: Dir, b: Dir, f: File) {
    (f in a <==> f in b) && (f in a ==> a[f] == b[f])
  }

  /** What any observer of the root may see while `next` is being published over `previous`: the
      old manifest entry, each table old or new, or else the complete new generation. */
  ghost predicate Observable(root: Dir, previous: Dir, next: Dir) {
    || AllFrom(root, next)
    || (SameEntry(root, previous, Manifest)
        && forall f: File :: IsTable(f) ==> SameEntry(root, previous, f) || SameEntry(root, next, f))
  }

  // ---------------------------------------------------------------- which operations fail

  /** Operation `i` from here fails; none does after the end of the list. */
  predicate FailsAt(faults: seq<bool>, i: nat) { i < |faults| && faults[i] }

  /** The next `n` operations succeed. */
  predicate Clean(faults: seq<bool>, n: nat) { forall i {:trigger FailsAt(faults, i)} :: 0 <= i < n ==> !FailsAt(faults, i) }

  /** What is left of the faults after `n` operations. */
  function Drop(faults: seq<bool>, n: nat): seq<bool> { if n <= |faults| then faults[n..] else [] }

  lemma DropShifts(faults: seq<bool>, n: nat)
    ensures forall i: nat :: FailsAt(Drop(faults, n), i) == FailsAt(faults, n + i)
    ensures forall m: nat :: Drop(Drop(faults, n), m) == Drop(faults, n + m)
  {}

  /** How many operations are made to fail. */
  function Faults(faults: seq<bool>): nat {
    if faults == [] then 0 else (if faults[0] then 1 else 0) + Faults(faults[1..])
  }

  /** How many of the first `n` outputs the root has. */
  function Existing(root: Dir, n: nat): nat
    requires n <= |OUTPUTS|
  {
    if n == 0 then 0 else Existing(root, n - 1) + if OUTPUTS[n - 1] in root then 1 else 0
  }

  class FileSystem {
    var root: Dir
    var staging: Dir
    var backup: Dir
    var failed: Dir
    var faults: seq<bool>
    ghost var history: seq<Dir>

    constructor (root: Dir, staging: Dir, faults: seq<bool>)
      ensures this.root == root && this.staging == staging && this.faults == faults
      ensures backup == map[] && failed == map[] && history == [root]
    {
      this.root, this.staging, this.faults := root, staging, faults;
      backup, failed, history := map[], map[], [root];
    }

    /** Whether the next operation is made to fail. */
    method NextFault() returns (fails: bool)
      modifies this`faults
      ensures fails == FailsAt(old(faults), 0) && faults == Drop(old(faults), 1)
    {
      fails := faults != [] && faults[0];
      if faults != [] { faults := faults[1..]; }
    }

    /** os.link(root / f, backup / f) */
    method Link(f: File) returns (ok: bool)
      requires f in root
      modifies this`faults, this`backup
      ensures ok == !FailsAt(old(faults), 0) && faults == Drop(old(faults), 1)
      ensures backup == if ok then old(backup)[f := root[f]] else old(backup)
    {
      var fails := NextFault();
      if fails { return false; }
      backup := backup[f := root[f]];
      ok := true;
    }

    /** os.replace(staging / f, root / f) */
    method Install(f: File) returns (ok: bool)
      modifies this`faults, this`root, this`staging, this`history
      ensures ok == (f in old(staging) && !FailsAt(old(faults), 0)) && faults == Drop(old(faults), 1)
      ensures ok ==> root == old(root)[f := old(staging)[f]] && staging == old(staging) - {f}
      ensures !ok ==> root == old(root) && staging == old(staging)
      ensures history == old(history) + [root]
    {
      var fails := NextFault();
      ok := !fails && f in staging;
      if ok {
        root := root[f := staging[f]];
        staging := staging - {f};
      }
      history := history + [root];
    }

    /** os.replace(backup / f, root / f), or os.replace(root / f, staging / failed-f) */
    method Undo(f: File) returns (ok: bool)
      requires f in backup || f in root
      modifies this`faults, this`root, this`backup, this`failed, this`history
      ensures ok == !FailsAt(old(faults), 0) && faults == Drop(old(faults), 1)
      ensures ok ==> root == if f in old(backup) then old(root)[f := old(backup)[f]] else old(root) - {f}
      ensures ok ==> backup == old(backup) - {f}
      ensures !ok ==> root == old(root) && backup == old(backup)
      ensures history == old(history) + [root]
    {
      var fails := NextFault();
      if !fails {
        if f in backup {
          root, backup := root[f := backup[f]], backup - {f};
        } else {
          failed := failed[f := root[f]];
          root := root - {f};
        }
      }
      history := history + [root];
      ok := !fails;
    }

    /** The first `i` outputs are backed up, each by one operation if it exists. */
    ghost predicate BackedUp(i: nat, start: seq<bool>)
      requires i <= |OUTPUTS|
      reads this
    {
      && (forall j :: 0 <= j < i ==> SameEntry(backup, root, OUTPUTS[j]))
      && (forall f :: f in backup ==> f in root && backup[f] == root[f])
      && Clean(start, Existing(root, i)) && faults == Drop(start, Existing(root, i))
    }

    method BackUpNext(i: nat, ghost start: seq<bool>) returns (ok: bool)
      requires i < |OUTPUTS| && BackedUp(i, start)
      modifies this`faults, this`backup
      ensures ok ==> BackedUp(i + 1, start)
      ensures !ok ==> !Clean(start, Existing(root, i + 1))
    {
      hide Drop, Clean, Existing, FailsAt;
      var f := OUTPUTS[i];
      ok := true;
      ExistingSteps(root, i);
      NextOperation(start, Existing(root, i));
      if f in root { ok := Link(f); }
    }

    /** Link every existing output into the backup directory. */
    method BackUp() returns (ok: bool)
      modifies this`faults, this`backup
      ensures ok == Clean(old(faults), Existing(root, |OUTPUTS|))
      ensures ok ==> faults == Drop(old(faults), Existing(root, |OUTPUTS|)) && forall f: File :: SameEntry(backup, root, f)
    {
      backup := map[];
      NothingDropped(faults);
      ExistingSteps(root, 0);
      for i := 0 to |OUTPUTS|
        invariant BackedUp(i, old(faults))
      {
        hide *;
        ok := BackUpNext(i, old(faults));
        if !ok {
          ExistingGrows(root, i + 1, |OUTPUTS|);
          StaysUnclean(old(faults), Existing(root, i + 1), Existing(root, |OUTPUTS|));
          return;
        }
      }
      hide Clean, Existing, Drop;
      forall f: File ensures SameEntry(backup, root, f) { EveryFileIsAnOutput(f); }
      ok := true;
    }

    /** The first `i` outputs are installed, the others staged, and the backup holds what was there. */
    ghost predicate Installing(previous: Dir, next: Dir, i: nat)
      requires i <= |OUTPUTS| && forall f: File :: f in next
      reads this
    {
      && root == Overlay(previous, next, OUTPUTS[..i])
      && (forall f: File :: f in staging <==> f !in OUTPUTS[..i])
      && (forall f: File :: f in staging ==> staging[f] == next[f])
      && (forall f: File :: SameEntry(backup, previous, f))
      && (forall seen :: seen in history ==> Observable(seen, previous, next))
    }

    method InstallNext(i: nat, ghost previous: Dir, ghost next: Dir) returns (ok: bool)
      requires i < |OUTPUTS| && (forall f: File :: f in next) && Installing(previous, next, i)
      modifies this`faults, this`root, this`staging, this`history
      ensures ok == !FailsAt(old(faults), 0) && faults == Drop(old(faults), 1)
      ensures Installing(previous, next, if ok then i + 1 else i)
    {
      hide Overlay, Observable, Drop;
      var f := OUTPUTS[i];
      OverlayObservable(previous, next, i);
      OverlayObservable(previous, next, i + 1);
      OverlayOne(previous, next, i);
      OutputsDistinct(i);
      assert OUTPUTS[..i + 1] == OUTPUTS[..i] + [f];
      assert f in staging;
      ok := Install(f);
    }

    /** Publish the tables first and the manifest last; on a failed rename restore what was there. With `b`
        outputs to back up, which of the four ways it ends is decided by where the faults are. */
    method PublishStagedOutputs() returns (outcome: Outcome)
      requires forall f: File :: f in staging
      requires history == [root]
      modifies this
      ensures outcome == Published ==> AllFrom(root, old(staging))
      ensures outcome == BackupFailed || outcome == RolledBack ==> root == old(root)
      ensures outcome == RollbackInterrupted ==> Recoverable(root, backup, old(root), old(staging))
      ensures forall seen :: seen in history ==> Observable(seen, old(root), old(staging))
      ensures outcome == BackupFailed <==> !Clean(old(faults), Existing(old(root), |OUTPUTS|))
      ensures outcome == Published <==> Clean(old(faults), Existing(old(root), |OUTPUTS|) + |OUTPUTS|)
      ensures outcome == RollbackInterrupted <==> exists i :: Interrupts(old(faults), Existing(old(root), |OUTPUTS|), i)
      ensures Faults(old(faults)) <= 1 ==> outcome != RollbackInterrupted
    {
      ghost var previous, next := root, staging;
      ghost var b := Existing(root, |OUTPUTS|);
      hide Clean, Drop, Existing, Observable, Overlay, Installing, Interrupts, Recoverable;
      StartInstalling(previous, next);
      InterruptNeedsTwoFaults(faults, b);
      var ok := BackUp();
      if !ok {
        UncleanBackup(old(faults), b);
        return BackupFailed;
      }
      NothingInstalled(previous, next);
      for i := 0 to |OUTPUTS|
        invariant Installing(previous, next, i)
        invariant Clean(old(faults), b + i) && faults == Drop(old(faults), b + i)
      {
        NextOperation(old(faults), b + i);
        var replaced := InstallNext(i, previous, next);
        if !replaced {
          outcome := RollBack(i, previous, next);
          FirstFault(old(faults), b, i);
          return;
        }
      }
      CleanThroughout(old(faults), b);
      AllInstalled(previous, next);
      outcome := Published;
    }

    lemma NothingInstalled(previous: Dir, next: Dir)
      requires forall f: File :: f in next
      requires root == previous && staging == next && (forall f: File :: SameEntry(backup, previous, f))
      requires forall seen :: seen in history ==> Observable(seen, previous, next)
      ensures Installing(previous, next, 0)
    {
      hide Observable;
    }

    lemma AllInstalled(previous: Dir, next: Dir)
      requires (forall f: File :: f in next) && Installing(previous, next, |OUTPUTS|)
      ensures AllFrom(root, next) && forall seen :: seen in history ==> Observable(seen, previous, next)
    {
      hide Observable;
      assert OUTPUTS[..|OUTPUTS|] == OUTPUTS;
      forall f: File ensures f in OUTPUTS { EveryFileIsAnOutput(f); }
    }

    /** Undo the installed outputs in reverse order, one rename each. */
    method RollBack(installed: nat, ghost previous: Dir, ghost next: Dir) returns (outcome: Outcome)
      requires installed < |OUTPUTS| && (forall f: File :: f in next) && Installing(previous, next, installed)
      modifies this
      ensures outcome == if Clean(old(faults), installed) then RolledBack else RollbackInterrupted
      ensures outcome == RolledBack ==> root == previous
      ensures outcome == RollbackInterrupted ==> Recoverable(root, backup, previous, next)
      ensures forall seen :: seen in history ==> Observable(seen, previous, next)
    {
      hide Clean, Drop, Overlay, Observable;
      NothingDropped(faults);
      var k := installed;
      while k > 0
        invariant 0 <= k <= installed
        invariant root == Overlay(previous, next, OUTPUTS[..k])
        invariant forall f :: f in OUTPUTS[..k] ==> SameEntry(backup, previous, f)
        invariant forall seen :: seen in history ==> Observable(seen, previous, next)
        invariant Clean(old(faults), installed - k) && faults == Drop(old(faults), installed - k)
      {
        k := k - 1;
        NextOperation(old(faults), installed - k - 1);
        var undone := UndoInstalled(k, previous, next);
        if !undone {
          StaysUnclean(old(faults), installed - k, installed);
          return RollbackInterrupted;
        }
      }
      RolledBackEntirely(previous, next);
      outcome := RolledBack;
    }

    /** Undo output `k`, the last one still installed. */
    method UndoInstalled(k: nat, ghost previous: Dir, ghost next: Dir) returns (undone: bool)
      requires k + 1 < |OUTPUTS| && forall f: File :: f in next
      requires root == Overlay(previous, next, OUTPUTS[..k + 1])
      requires forall f :: f in OUTPUTS[..k + 1] ==> SameEntry(backup, previous, f)
      requires forall seen :: seen in history ==> Observable(seen, previous, next)
      modifies this`faults, this`root, this`backup, this`failed, this`history
      ensures undone == !FailsAt(old(faults), 0) && faults == Drop(old(faults), 1)
      ensures undone ==> root == Overlay(previous, next, OUTPUTS[..k])
      ensures undone ==> forall f :: f in OUTPUTS[..k] ==> SameEntry(backup, previous, f)
      ensures !undone ==> Recoverable(root, backup, previous, next)
      ensures forall seen :: seen in history ==> Observable(seen, previous, next)
    {
      hide Overlay, Observable, Drop;
      var f := OUTPUTS[k];
      assert OUTPUTS[..k + 1] == OUTPUTS[..k] + [f];
      OverlayObservable(previous, next, k);
      OverlayObservable(previous, next, k + 1);
      OverlayOne(previous, next, k);
      OutputsDistinct(k);
      assert SameEntry(backup, previous, f);
      ghost var saved := backup;
      forall g | g in OUTPUTS[..k] ensures g != f && SameEntry(saved, previous, g) { assert g in OUTPUTS[..k + 1]; }
      undone := Undo(f);
    }
  }

  // ---------------------------------------------------------------- where the faults are

  lemma NothingDropped(faults: seq<bool>)
    ensures Drop(faults, 0) == faults && Clean(faults, 0)
  {}

  /** The next operation extends the clean stretch exactly when it does not fail. */
  lemma NextOperation(faults: seq<bool>, n: nat)
    ensures FailsAt(Drop(faults, n), 0) == FailsAt(faults, n) && Drop(Drop(faults, n), 1) == Drop(faults, n + 1)
    ensures Clean(faults, n + 1) <==> Clean(faults, n) && !FailsAt(faults, n)
  {
    DropShifts(faults, n);
  }

  lemma ExistingSteps(root: Dir, i: nat)
    requires i <= |OUTPUTS|
    ensures Existing(root, 0) == 0
    ensures i < |OUTPUTS| ==> Existing(root, i + 1) == Existing(root, i) + (if OUTPUTS[i] in root then 1 else 0) <= Existing(root, |OUTPUTS|)
  {
    if i < |OUTPUTS| { ExistingGrows(root, i + 1, |OUTPUTS|); }
  }

  lemma {:induction false} ExistingGrows(root: Dir, i: nat, n: nat)
    requires i <= n <= |OUTPUTS|
    ensures Existing(root, i) <= Existing(root, n)
  {
    if i < n { ExistingGrows(root, i, n - 1); }
  }

  lemma StaysUnclean(faults: seq<bool>, n: nat, m: nat)
    requires !Clean(faults, n) && n <= m
    ensures !Clean(faults, m)
  {}

  /** The rollback of `i` installed outputs is itself hit by a fault. */
  predicate Interrupts(faults: seq<bool>, b: nat, i: nat) {
    i < |OUTPUTS| && Clean(faults, b + i) && FailsAt(faults, b + i) && !Clean(Drop(faults, b + i + 1), i)
  }

  lemma UncleanBackup(faults: seq<bool>, b: nat)
    requires !Clean(faults, b)
    ensures !Clean(faults, b + |OUTPUTS|) && forall i :: !Interrupts(faults, b, i)
  {}

  lemma CleanThroughout(faults: seq<bool>, b: nat)
    requires Clean(faults, b + |OUTPUTS|)
    ensures Clean(faults, b) && forall i :: !Interrupts(faults, b, i)
  {
    forall i: nat ensures !Interrupts(faults, b, i) { assert i < |OUTPUTS| ==> !FailsAt(faults, b + i); }
  }

  /** The first failing replacement decides. */
  lemma FirstFault(faults: seq<bool>, b: nat, i: nat)
    requires i < |OUTPUTS| && Clean(faults, b + i) && FailsAt(faults, b + i)
    ensures Clean(faults, b) && !Clean(faults, b + |OUTPUTS|)
    ensures (exists j :: Interrupts(faults, b, j)) <==> !Clean(Drop(faults, b + i + 1), i)
  {
    hide Drop;
    assert !Clean(Drop(faults, b + i + 1), i) ==> Interrupts(faults, b, i);
    forall j: nat | Interrupts(faults, b, j) ensures j == i {}
  }

  lemma {:induction false} FaultsLeft(faults: seq<bool>, n: nat)
    ensures Faults(faults) >= Faults(Drop(faults, n))
    ensures FailsAt(faults, n) ==> Faults(faults) >= 1 + Faults(Drop(faults, n + 1))
  {
    if faults != [] && n > 0 {
      FaultsLeft(faults[1..], n - 1);
      assert Drop(faults[1..], n - 1) == Drop(faults, n) && Drop(faults[1..], n) == Drop(faults, n + 1);
    } else if faults != [] {
      assert Drop(faults, 0) == faults && Drop(faults, 1) == faults[1..];
    }
  }

  /** A single fault never leaves a rollback unfinished. */
  lemma InterruptNeedsTwoFaults(faults: seq<bool>, b: nat)
    ensures Faults(faults) <= 1 ==> forall i :: !Interrupts(faults, b, i)
  {
    forall i: nat | Interrupts(faults, b, i) ensures Faults(faults) >= 2 {
      var rest := Drop(faults, b + i + 1);
      FaultsLeft(faults, b + i);
      var k :| 0 <= k < i && FailsAt(rest, k);
      FaultsLeft(rest, k);
    }
  }

  // ---------------------------------------------------------------- outputs one by one

  /** An interrupted rollback has undone a last part of what was installed, and the backup still holds the
      previous content of the rest. */
  ghost predicate Recoverable(root: Dir, backup: Dir, previous: Dir, next: Dir)
    requires forall f: File :: f in next
  {
    exists k: nat {:trigger OUTPUTS[..k]} :: 0 < k < |OUTPUTS|
      && root == Overlay(previous, next, OUTPUTS[..k])
      && forall f :: f in OUTPUTS[..k] ==> SameEntry(backup, previous, f)
  }

  lemma StartInstalling(previous: Dir, next: Dir)
    requires forall f: File :: f in next
    ensures Observable(previous, previous, next)
  {}

  lemma RolledBackEntirely(previous: Dir, next: Dir)
    requires forall f: File :: f in next
    ensures Overlay(previous, next, OUTPUTS[..0]) == previous
  {}

  /** `previous` with the given files replaced by those of `next`. */
  ghost function Overlay(previous: Dir, next: Dir, files: seq<File>): Dir
    requires forall f: File :: f in next
  {
    map f: File | f in previous || f in files :: if f in files then next[f] else previous[f]
  }

  lemma EveryFileIsAnOutput(f: File)
    ensures f in OUTPUTS
    ensures exists j :: 0 <= j < |OUTPUTS| && OUTPUTS[j] == f
  {
    match f
    case Summary => assert OUTPUTS[0] == f;
    case ReturnSources => assert OUTPUTS[1] == f;
    case TransferStages => assert OUTPUTS[2] == f;
    case Manifest => assert OUTPUTS[3] == f;
  }

  lemma OutputsDistinct(k: nat)
    requires k < |OUTPUTS|
    ensures OUTPUTS[k] !in OUTPUTS[..k]
    ensures k < 3 <==> IsTable(OUTPUTS[k])
  {}

  lemma OverlayOne(previous: Dir, next: Dir, i: nat)
    requires i < |OUTPUTS| && forall f: File :: f in next
    ensures var f := OUTPUTS[i];
      var before, after := Overlay(previous, next, OUTPUTS[..i]), Overlay(previous, next, OUTPUTS[..i + 1]);
      && after == before[f := next[f]]
      && before == if f in previous then after[f := previous[f]] else after - {f}
  {
    hide Overlay;
    OutputsDistinct(i);
    assert OUTPUTS[..i + 1] == OUTPUTS[..i] + [OUTPUTS[i]];
    OverlayMore(previous, next, OUTPUTS[..i], OUTPUTS[i]);
  }

  lemma OverlayMore(previous: Dir, next: Dir, files: seq<File>, f: File)
    requires f !in files && forall g: File :: g in next
    ensures var before, after := Overlay(previous, next, files), Overlay(previous, next, files + [f]);
      && after == before[f := next[f]]
      && before == if f in previous then after[f := previous[f]] else after - {f}
  {}

  lemma OverlayObservable(previous: Dir, next: Dir, i: nat)
    requires i <= |OUTPUTS| && forall f: File :: f in next
    ensures Observable(Overlay(previous, next, OUTPUTS[..i]), previous, next)
    ensures i < |OUTPUTS| ==> SameEntry(Overlay(previous, next, OUTPUTS[..i]), previous, Manifest)
  {
    if i < |OUTPUTS| {
      assert Manifest !in OUTPUTS[..i];
    } else {
      assert OUTPUTS[..i] == OUTPUTS;
      forall f: File ensures f in OUTPUTS { EveryFileIsAnOutput(f); }
    }
  }

  // ---------------------------------------------------------------- what a reader can conclude

  /** The manifest is present and binds exactly the tables that are there. */
  ghost predicate Verifies(root: Dir) {
    && Manifest in root && root[Manifest].Index?
    && forall f: File :: IsTable(f) ==> f in root && f in root[Manifest].tables && root[Manifest].tables[f] == root[f]
  }

  /** A root whose manifest verifies is one of the two complete generations, at whatever step of
      publication or rollback it is read. */
  lemma VerifiedRootIsAGeneration(root: Dir, previous: Dir, next: Dir)
    requires Observable(root, previous, next) && Verifies(root)
    requires Verifies(previous) || Manifest !in previous
    ensures AllFrom(root, next) || AllFrom(root, previous)
  {
    if !AllFrom(root, next) {
      assert SameEntry(root, previous, Manifest);
      forall f: File ensures SameEntry(root, previous, f) {
        if IsTable(f) { assert root[Manifest].tables[f] == root[f]; }
      }
    }
  }

  /** A new manifest at the root means every table at the root is new. */
  lemma NewManifestLast(root: Dir, previous: Dir, next: Dir)
    requires Observable(root, previous, next)
    requires !SameEntry(root, previous, Manifest)
    ensures AllFrom(root, next)
  {}
}
