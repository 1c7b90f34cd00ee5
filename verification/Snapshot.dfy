/**
 The data snapshot taken while the old container is stopped, and its restore. Restore is a list
 of single-file operations, so that an interruption can fall between any two of them.
 */
module UpdateSnapshot {
  import opened Prelude
  import Op = UpdateOperations

  datatype Path = Database | WriteAheadLog | SharedMemory | Secrets

  /** The committed operation row is part of the main database file; the rest is opaque. */
  datatype Content = DatabaseImage(row: Op.OperationStatus, pages: nat) | Opaque(bytes: nat)

  type Files = map<Path, Content>

  /** SHA-256 of a file, a constructor so that different contents have different digests. */
  datatype Digest = Sha256Of(content: Content)

  /** A manifest line together with the stored copy it names. */
  datatype Entry = Entry(path: Path, stored: Content, digest: Digest)

  type Snapshot = seq<Entry>

  datatype FileStep = Unlink(path: Path) | Replace(path: Path, content: Content)

  predicate DataDirectory(files: Files) {
    && Database in files && files[Database].DatabaseImage?
    && Secrets in files
  }

  function RowOf(files: Files): Op.OperationStatus
    requires Database in files && files[Database].DatabaseImage?
  {
    files[Database].row
  }

  function Copy(files: Files, path: Path): Snapshot {
    if path in files then [Entry(path, files[path], Sha256Of(files[path]))] else []
  }

  /** The files in the order the snapshot service copies them. */
  function Capture(files: Files): Snapshot {
    Copy(files, Database) + Copy(files, Secrets) + Copy(files, WriteAheadLog) + Copy(files, SharedMemory)
  }

  predicate Lists(m: Snapshot, path: Path) {
    exists i :: 0 <= i < |m| && m[i].path == path
  }

  /** Required files listed, no file twice, every stored copy equal to its digest. */
  predicate Verified(m: Snapshot) {
    && Lists(m, Database) && Lists(m, Secrets)
    && (forall i, j :: 0 <= i < |m| && 0 <= j < |m| && m[i].path == m[j].path ==> i == j)
    && (forall i :: 0 <= i < |m| ==> m[i].digest == Sha256Of(m[i].stored))
  }

  /** `files` is exactly what the snapshot lists. */
  ghost predicate Holds(files: Files, m: Snapshot) {
    && (forall p <- files :: Lists(m, p))
    && (forall i :: 0 <= i < |m| ==> m[i].path in files && files[m[i].path] == m[i].stored)
  }

  function Replacements(m: Snapshot): (steps: seq<FileStep>)
    ensures |steps| == |m| && forall i :: 0 <= i < |m| ==> steps[i] == Replace(m[i].path, m[i].stored)
  {
    seq(|m|, i requires 0 <= i < |m| => Replace(m[i].path, m[i].stored))
  }

  /** Stale side files go first, then every listed file is replaced in manifest order. */
  function RestorePlan(m: Snapshot): seq<FileStep> {
    (if Lists(m, WriteAheadLog) then [] else [Unlink(WriteAheadLog)])
    + (if Lists(m, SharedMemory) then [] else [Unlink(SharedMemory)])
    + Replacements(m)
  }

  function ApplyStep(files: Files, step: FileStep): Files {
    match step
    case Unlink(p) => files - {p}
    case Replace(p, content) => files[p := content]
  }

  function ApplySteps(files: Files, steps: seq<FileStep>): Files {
    if steps == [] then files else ApplyStep(ApplySteps(files, steps[..|steps| - 1]), steps[|steps| - 1])
  }

  ghost predicate Done(files: Files, step: FileStep) {
    match step
    case Unlink(p) => p !in files
    case Replace(p, content) => p in files && files[p] == content
  }

  /** The first `k` steps of the plan are visible in `files`. */
  ghost predicate Applied(files: Files, plan: seq<FileStep>, k: nat)
    requires k <= |plan|
  {
    forall i :: 0 <= i < k ==> Done(files, plan[i])
  }

  class UpdateSnapshotService {
    var files: Files
    var snapshot: Option<Snapshot>

    constructor (files: Files)
      ensures this.files == files && snapshot == None
    {
      this.files := files;
      snapshot := None;
    }

    /** Copies the files one by one into a temporary directory that is then renamed into place. */
    method Create() returns (ok: bool)
      modifies this`snapshot
      ensures ok <==> old(snapshot).None? && Database in files && Secrets in files
      ensures snapshot == if ok then Some(Capture(files)) else old(snapshot)
      ensures ok && DataDirectory(files) ==> Verified(snapshot.value) && Holds(files, snapshot.value)
    {
      hide Verified, Holds;
      if snapshot.Some? || Database !in files || Secrets !in files {
        return false;
      }
      var order := [Database, Secrets, WriteAheadLog, SharedMemory];
      var temporary: Snapshot := [];
      for i := 0 to |order|
        invariant i == 0 ==> temporary == []
        invariant i == 1 ==> temporary == Copy(files, Database)
        invariant i == 2 ==> temporary == Copy(files, Database) + Copy(files, Secrets)
        invariant i == 3 ==> temporary == Copy(files, Database) + Copy(files, Secrets) + Copy(files, WriteAheadLog)
        invariant i == 4 ==> temporary == Capture(files)
      {
        temporary := temporary + Copy(files, order[i]);
      }
      snapshot := Some(temporary);
      ok := true;
      if DataDirectory(files) {
        CaptureIsFaithful(files);
      }
    }

    /** Restores the snapshot, dying after `budget` file operations if that is fewer than it needs. */
    method Restore(budget: nat) returns (completed: bool)
      modifies this`files
      ensures snapshot.None? || !Verified(snapshot.value) ==> !completed && files == old(files)
      ensures snapshot.Some? && Verified(snapshot.value) ==>
                var plan := RestorePlan(snapshot.value);
                && (completed <==> |plan| <= budget)
                && files == ApplySteps(old(files), if completed then plan else plan[..budget])
    {
      hide Verified, RestorePlan, ApplyStep;
      if snapshot.None? || !Verified(snapshot.value) {
        return false;
      }
      var plan := RestorePlan(snapshot.value);
      var i := 0;
      while i < |plan|
        invariant 0 <= i <= |plan| && i <= budget
        invariant files == ApplySteps(old(files), plan[..i])
      {
        if i == budget {
          return false;
        }
        files := ApplyStep(files, plan[i]);
        assert plan[..i + 1][..i] == plan[..i];
        i := i + 1;
      }
      assert plan[..i] == plan;
      completed := true;
    }
  }

  lemma PlanTouchesEachPathOnce(m: Snapshot)
    requires Verified(m)
    ensures var plan := RestorePlan(m);
            forall i, j :: 0 <= i < j < |plan| ==> plan[i].path != plan[j].path
  {
  }

  lemma OneMoreStep(files: Files, m: Snapshot, k: nat)
    requires Verified(m) && k < |RestorePlan(m)| && Applied(files, RestorePlan(m), k)
    ensures Applied(ApplyStep(files, RestorePlan(m)[k]), RestorePlan(m), k + 1)
  {
    PlanTouchesEachPathOnce(m);
    var plan := RestorePlan(m);
    forall i | 0 <= i < k + 1
      ensures Done(ApplyStep(files, plan[k]), plan[i])
    {
      if i < k {
        assert plan[i].path != plan[k].path;
        assert Done(files, plan[i]);
      }
    }
  }

  lemma PlanStep(m: Snapshot, i: nat)
    requires i < |m|
    ensures var plan := RestorePlan(m);
            |plan| >= |m| && plan[|plan| - |m| + i] == Replace(m[i].path, m[i].stored)
  {
  }

  /** Once every step is visible the directory is exactly the snapshot. */
  lemma WholePlan(files: Files, m: Snapshot)
    requires Verified(m) && Applied(files, RestorePlan(m), |RestorePlan(m)|)
    ensures Holds(files, m)
  {
    var plan := RestorePlan(m);
    forall i | 0 <= i < |m|
      ensures m[i].path in files && files[m[i].path] == m[i].stored
    {
      PlanStep(m, i);
      assert Done(files, plan[|plan| - |m| + i]);
    }
    forall p <- files
      ensures Lists(m, p)
    {
      if !Lists(m, WriteAheadLog) {
        assert plan[0] == Unlink(WriteAheadLog) && Done(files, plan[0]);
      }
      if !Lists(m, SharedMemory) {
        var k := if Lists(m, WriteAheadLog) then 0 else 1;
        assert plan[k] == Unlink(SharedMemory) && Done(files, plan[k]);
      }
    }
  }

  /** A step of the plan changes nothing where the directory already holds the snapshot. */
  lemma StepKeepsHolds(files: Files, m: Snapshot, k: nat)
    requires Verified(m) && Holds(files, m) && k < |RestorePlan(m)|
    ensures ApplyStep(files, RestorePlan(m)[k]) == files
  {
    var plan := RestorePlan(m);
    match plan[k] {
      case Unlink(p) =>
        assert !Lists(m, p);
      case Replace(p, content) =>
        var i := k - (|plan| - |m|);
        PlanStep(m, i);
    }
  }

  lemma HoldsIsUnique(f: Files, g: Files, m: Snapshot)
    requires Holds(f, m) && Holds(g, m)
    ensures f == g
  {
    assert f.Keys == g.Keys;
    forall p <- f
      ensures f[p] == g[p]
    {
      var i :| 0 <= i < |m| && m[i].path == p;
    }
  }

  lemma CaptureIsFaithful(files: Files)
    requires DataDirectory(files)
    ensures Verified(Capture(files)) && Holds(files, Capture(files))
  {
    var m := Capture(files);
    assert m[0].path == Database && m[1].path == Secrets;
    forall p <- files
      ensures Lists(m, p)
    {
      match p {
        case Database => assert m[0].path == p;
        case Secrets => assert m[1].path == p;
        case WriteAheadLog => assert m[2].path == p;
        case SharedMemory => assert m[|m| - 1].path == p;
      }
    }
  }

  lemma {:induction false} StepsAreApplied(files: Files, m: Snapshot, k: nat)
    requires Verified(m) && k <= |RestorePlan(m)|
    ensures Applied(ApplySteps(files, RestorePlan(m)[..k]), RestorePlan(m), k)
  {
    if k > 0 {
      StepsAreApplied(files, m, k - 1);
      assert RestorePlan(m)[..k][..k - 1] == RestorePlan(m)[..k - 1];
      OneMoreStep(ApplySteps(files, RestorePlan(m)[..k - 1]), m, k - 1);
    }
  }

  /** A restore brings back what was captured from any directory whatever. */
  lemma RestoreIsExact(captured: Files, files: Files)
    requires DataDirectory(captured)
    ensures ApplySteps(files, RestorePlan(Capture(captured))) == captured
  {
    var m := Capture(captured);
    CaptureIsFaithful(captured);
    var plan := RestorePlan(m);
    StepsAreApplied(files, m, |plan|);
    assert plan[..|plan|] == plan;
    WholePlan(ApplySteps(files, plan), m);
    HoldsIsUnique(ApplySteps(files, plan), captured, m);
  }

  /** The directory after the listed interrupted attempts, each cut off after some steps. */
  function Attempts(files: Files, m: Snapshot, cuts: seq<nat>): Files {
    if cuts == [] then files
    else
      var before := Attempts(files, m, cuts[..|cuts| - 1]);
      var plan := RestorePlan(m);
      var cut := cuts[|cuts| - 1];
      ApplySteps(before, if cut <= |plan| then plan[..cut] else plan)
  }

  /** However often a restore is cut short, the next complete one is still exact. */
  lemma InterruptedRestoresConverge(captured: Files, files: Files, cuts: seq<nat>)
    requires DataDirectory(captured)
    ensures var m := Capture(captured);
            ApplySteps(Attempts(files, m, cuts), RestorePlan(m)) == captured
  {
    RestoreIsExact(captured, Attempts(files, Capture(captured), cuts));
  }

  /** A stored copy that no longer matches its digest is refused before anything is written. */
  lemma TamperedSnapshotIsRefused(captured: Files, i: nat, content: Content)
    requires DataDirectory(captured) && i < |Capture(captured)|
    ensures var m := Capture(captured);
            Verified(m[i := m[i].(stored := content)]) <==> content == m[i].stored
  {
    var m := Capture(captured);
    CaptureIsFaithful(captured);
    var tampered := m[i := m[i].(stored := content)];
    if content == m[i].stored {
      assert tampered == m;
    } else {
      assert tampered[i].digest == Sha256Of(m[i].stored);
    }
  }
}
