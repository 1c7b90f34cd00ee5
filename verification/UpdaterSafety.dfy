/**
 Main results about the self-update protocol, each for every run: any interleaving of executor
 steps, crashes, coordinator restarts and takeovers, Docker restarts, container exits, appliance
 writes and reconciler passes.
 */
module UpdaterSafety {
  import opened Prelude
  import opened UpdateJournal
  import opened UpdateSnapshot
  import opened UpdaterWorld
  import opened UpdaterInvariant
  import Op = UpdateOperations
  import R = UpdateReconcile

  /** The two containers share their data directory, so they must never run together. */
  lemma {:induction false} NeverBothRun(s: World, actions: seq<Action>)
    requires Initial(s)
    ensures !(OldRuns(Run(s, actions)) && CandidateRuns(Run(s, actions)))
  {
    RunInv(s, actions);
  }

  /** The journal and the database row never record different decisions. */
  lemma {:induction false} DecisionsAgree(s: World, actions: seq<Action>)
    requires Initial(s)
    ensures var t := Run(s, actions);
            && DataDirectory(t.files)
            && (RowOf(t.files).Success? ==>
                  t.journal.Some? && (t.journal.value.status.CommitRequested? || t.journal.value.status.Success?))
            && (RowOf(t.files).RolledBack? ==> t.journal.Some? && t.journal.value.status.RolledBack?)
            && (t.journal.Some? && t.journal.value.status.Success? ==> RowOf(t.files).Success?)
  {
    RunInv(s, actions);
  }

  // ---- the old container gets its own data back ------------------------------------------

  lemma RunExtends(s: World, actions: seq<Action>, k: nat)
    requires k < |actions|
    ensures Run(s, actions[..k + 1]) ==
            (match Step(Run(s, actions[..k]), actions[k])
             case Some(t) => t
             case None => Run(s, actions[..k]))
  {
    assert actions[..k + 1][..k] == actions[..k];
  }

  /** How one step may move the old container relative to its recorded data. */
  ghost predicate DataStep(s: World, t: World) {
    && (OldRuns(s) && !OldRuns(t) && t.source.Some? ==> t.stoppedFiles == s.files)
    && (!OldRuns(s) ==> t.stoppedFiles == s.stoppedFiles)
    && (!OldRuns(s) && OldRuns(t) ==> t.files == s.stoppedFiles)
    && (s.source.None? ==> t.source.None?)
    && (OldRuns(s) ==> t.source.Some?)
  }

  lemma OneStepOnData(s: World, a: Action, t: World)
    requires Inv(s) && Step(s, a) == Some(t)
    ensures DataStep(s, t)
  {
    hide ContainersInv, RecordsInv, ForwardStep, RollbackStep, StartCoordinator, Dispatch, Exhaust, ReconcileStep;
    match a
    case Rollback(healthy) => RollbackStepOnData(s, healthy);
    case Forward => ForwardStepOnData(s);
    case DockerStartsOld => StartOldInv(s);
    case Coordinate(id) => CoordinateKeepsSource(s, id);
    case ReconcileSample(allow) => ReconcileKeepsSource(s, allow);
    case _ =>
  }

  lemma ReconcileKeepsSource(s: World, allow: bool)
    ensures var t := ReconcileStep(s, allow); t.Some? ==> t.value.source == s.source && t.value.stoppedFiles == s.stoppedFiles
  {
  }

  ghost predicate SameSource(s: World, t: World) {
    t.source == s.source && t.stoppedFiles == s.stoppedFiles
  }

  lemma FailureKeepsSource(s: World, r: Record)
    ensures SameSource(s, RecordRollbackFailed(s, r)) && SameSource(s, EnsureMarker(s))
  {
    hide CheckpointV2;
  }

  lemma DispatchKeepsSource(s: World)
    requires s.coordinator.Deciding? && s.journal.Some?
    ensures Dispatch(s).Some? ==> SameSource(s, Dispatch(s).value)
  {
    hide Decide, RecordRollbackFailed;
    FailureKeepsSource(s, s.journal.value);
    FailureKeepsSource(EnsureMarker(s), s.journal.value);
  }

  lemma CoordinateKeepsSource(s: World, id: nat)
    ensures var t := Step(s, Coordinate(id)); t.Some? ==> SameSource(s, t.value)
  {
    hide CheckpointV2, TakeoverV2, Observe, Dispatch, RecordRollbackFailed;
    if s.journal.Some? {
      FailureKeepsSource(s, s.journal.value);
      if s.coordinator.Deciding? {
        DispatchKeepsSource(s);
      }
    }
  }

  lemma RollbackActOnData(s: World, r: Record, t: World)
    requires Inv(s) && s.journal == Some(r) && r.status.RollingBack? && RollbackAct(s, r) == Some(t)
    ensures DataStep(s, t)
  {
    hide CandidateOk, MarkersOk, SnapshotOk, RowOk;
    if r.checkpoint.OldPolicyRestored? {
      StartOldInv(s);
    }
  }

  lemma EnterOnData(s: World, r: Record)
    requires s.coordinator.Reverting?
    ensures SameSource(s, EnterRollback(s, r))
  {
    hide CheckpointV2, ObserveSource, ObserveCandidate;
  }

  /** Past the act itself a rollback step leaves the old container alone. */
  lemma LaterStagesKeepSource(s: World, healthy: bool)
    requires s.coordinator.Reverting? && s.journal.Some? && s.journal.value.status.RollingBack? && !s.coordinator.stage.Begin?
    ensures SameSource(s, RollbackStep(s, healthy))
  {
    hide CheckpointV2, RollbackConfirm, RollbackWrite, RecordRollbackFailed, RestorePlan;
    FailureKeepsSource(s, s.journal.value);
  }

  lemma RollbackStepOnData(s: World, healthy: bool)
    requires Inv(s) && s.coordinator.Reverting? && s.journal.Some?
    ensures DataStep(s, RollbackStep(s, healthy))
  {
    hide Inv, CheckpointV2, RollbackAct, RollbackConfirm, EnterRollback, RecordRollbackFailed, RestorePlan, Verified, RollbackWrite;
    var r := s.journal.value;
    if !r.status.RollingBack? {
      EnterOnData(s, r);
    } else if !s.coordinator.stage.Begin? {
      LaterStagesKeepSource(s, healthy);
    } else {
      FailureKeepsSource(s, r);
      if RollbackAct(s, r).Some? {
        RollbackActOnData(s, r, RollbackAct(s, r).value);
      }
    }
  }

  lemma ForwardActOnData(s: World, r: Record, t: World)
    requires Inv(s) && s.journal == Some(r) && ForwardAct(s, r) == Some(t)
    ensures DataStep(s, t)
  {
    hide ObserveSource, ObserveCandidate, CandidateIdentified, Capture;
    if r.checkpoint.OldRestartFenced? {
      hide CandidateOk, MarkersOk, SnapshotOk, RowOk, ProcessOk;
    } else {
      hide Inv, StopOld;
    }
  }

  lemma ForwardStepOnData(s: World)
    requires Inv(s) && s.coordinator.Forwarding? && ForwardStep(s).Some?
    ensures DataStep(s, ForwardStep(s).value)
  {
    hide CandidateOk, MarkersOk, SnapshotOk, RowOk, CheckpointV2, ForwardConfirm, ForwardAct, ProcessOk, ObserveSource;
    hide DataOk, ObserveCandidate, ForwardWrite;
    if s.journal.Some? && ForwardAct(s, s.journal.value).Some? {
      ForwardActOnData(s, s.journal.value, ForwardAct(s, s.journal.value).value);
    }
  }

  lemma {:induction false} StoppedFilesStay(s: World, actions: seq<Action>, i: nat, j: nat)
    requires Initial(s) && i < j <= |actions|
    requires OldRuns(Run(s, actions[..i]))
    requires forall k :: i < k <= j ==> !OldRuns(Run(s, actions[..k]))
    ensures var t := Run(s, actions[..j]); t.source.Some? ==> t.stoppedFiles == Run(s, actions[..i]).files
    decreases j - i
  {
    hide ContainersInv, RecordsInv, Step;
    var before := Run(s, actions[..j - 1]);
    RunExtends(s, actions, j - 1);
    RunInv(s, actions[..j - 1]);
    if Step(before, actions[j - 1]).Some? {
      OneStepOnData(before, actions[j - 1], Run(s, actions[..j]));
    }
    if i < j - 1 {
      StoppedFilesStay(s, actions, i, j - 1);
    }
  }

  /**
   Between a moment i at which the old container runs and the next moment j + 1 at which it runs
   again, whatever a candidate wrote and however often a restore was cut short and rerun, its
   data files come back exactly as they were at i.
   */
  lemma {:induction false} OldContainerGetsItsDataBack(s: World, actions: seq<Action>, i: nat, j: nat)
    requires Initial(s) && i < j < |actions|
    requires OldRuns(Run(s, actions[..i]))
    requires forall k :: i < k <= j ==> !OldRuns(Run(s, actions[..k]))
    requires OldRuns(Run(s, actions[..j + 1]))
    ensures Run(s, actions[..j + 1]).files == Run(s, actions[..i]).files
  {
    var before, after := Run(s, actions[..j]), Run(s, actions[..j + 1]);
    StoppedFilesStay(s, actions, i, j);
    RunExtends(s, actions, j);
    RunInv(s, actions[..j]);
    assert !OldRuns(before);
    OneStepOnData(before, actions[j], after);
  }

  // ---- the journal over a run --------------------------------------------------------------

  /** The distinct records the journal held during a run, oldest first. */
  ghost function Journaled(s: World, actions: seq<Action>): seq<Record> {
    if actions == [] then []
    else
      var earlier := Journaled(s, actions[..|actions| - 1]);
      var before, after := Run(s, actions[..|actions| - 1]), Run(s, actions);
      if after.journal.Some? && after.journal != before.journal then earlier + [after.journal.value] else earlier
  }

  lemma PutExtends(s: World, r: Record, w: Write)
    ensures Put(s, r, w).Some? ==> Put(s, r, w).value.journal.Some? && Extends(r, Put(s, r, w).value.journal.value)
  {
  }

  lemma TakeoverExtends(r: Record, id: nat)
    ensures TakeoverV2(r, id).Ok? ==> Extends(r, TakeoverV2(r, id).value)
  {
  }

  lemma JournalStep(s: World, a: Action, t: World)
    requires Inv(s) && Step(s, a) == Some(t)
    ensures s.journal.None? ==> t.journal.None? || (exists id: nat :: t.journal == Some(StartRecord(id)))
    ensures s.journal.Some? ==> t.journal.Some? && (t.journal == s.journal || Extends(s.journal.value, t.journal.value))
  {
    if s.journal.Some? {
      match a {
        case Coordinate(id) => CoordinateJournal(s, id);
        case Forward => ForwardJournal(s);
        case Rollback(healthy) => RollbackJournal(s, healthy);
        case _ =>
      }
    }
  }

  ghost predicate JournalGrows(s: World, t: World)
    requires s.journal.Some?
  {
    t.journal.Some? && (t.journal == s.journal || Extends(s.journal.value, t.journal.value))
  }

  lemma FailureJournal(s: World, r: Record)
    requires s.journal == Some(r)
    ensures JournalGrows(s, RecordRollbackFailed(s, r))
  {
    PutExtends(At(s, Idle), r, Write(RollbackFailed, r.checkpoint, None, None, None));
  }

  lemma CoordinateJournal(s: World, id: nat)
    requires Inv(s) && s.journal.Some?
    ensures var t := Step(s, Coordinate(id)); t.Some? ==> JournalGrows(s, t.value)
  {
    hide ContainersInv, RecordsInv, Observe, Decide, CheckpointV2, TakeoverV2, Extends, ForwardStep, RollbackStep;
    hide RecordRollbackFailed;
    var r := s.journal.value;
    TakeoverExtends(r, id);
    FailureJournal(s, r);
    FailureJournal(EnsureMarker(s), r);
    if s.marker.Some? {
      PutExtends(s, r, EnterWrite(s, r.candidateId));
    }
  }

  lemma ForwardActKeepsJournal(s: World, r: Record, t: World)
    requires ForwardAct(s, r) == Some(t)
    ensures t.journal == s.journal
  {
    hide ObserveSource, ObserveCandidate, CandidateIdentified, Capture;
    match r.checkpoint
    case OldRenamed =>
    case CandidateCreated =>
    case CandidateStarted =>
    case _ =>
  }

  lemma ForwardJournal(s: World)
    requires Inv(s) && s.journal.Some? && s.coordinator.Forwarding?
    ensures var t := ForwardStep(s); t.Some? ==> JournalGrows(s, t.value)
  {
    hide ContainersInv, RecordsInv, ObserveCandidate, ObserveSource, CheckpointV2, ForwardAct, ForwardConfirm, Extends;
    if ForwardAct(s, s.journal.value).Some? {
      ForwardActKeepsJournal(s, s.journal.value, ForwardAct(s, s.journal.value).value);
    }
    if s.coordinator.stage.Confirmed? {
      PutExtends(At(s, Forwarding(s.coordinator.id, Begin)), s.journal.value, ForwardWrite(s.journal.value, s.coordinator.stage.carried));
    }
  }

  lemma RollbackJournal(s: World, healthy: bool)
    requires Inv(s) && s.journal.Some? && s.coordinator.Reverting?
    ensures JournalGrows(s, RollbackStep(s, healthy))
  {
    hide ContainersInv, RecordsInv, ObserveCandidate, ObserveSource, CheckpointV2, Extends;
    var r := s.journal.value;
    var id := s.coordinator.id;
    FailureJournal(s, r);
    if s.coordinator.stage.Confirmed? {
      PutExtends(At(s, if r.checkpoint.RollbackPublished? then Idle else Reverting(id, Begin)), r, RollbackWrite(r));
      if s.marker.Some? {
        PutExtends(At(s, Reverting(id, Begin)), r, EnterWrite(s, s.coordinator.stage.carried));
      }
    }
  }

  lemma {:induction false} JournaledIsAccepted(s: World, actions: seq<Action>)
    requires Initial(s)
    ensures var h, t := Journaled(s, actions), Run(s, actions);
            if h == [] then t.journal.None? else Accepted(h) && t.journal == Some(h[|h| - 1])
  {
    if actions != [] {
      var front := actions[..|actions| - 1];
      JournaledIsAccepted(s, front);
      RunInv(s, front);
      var before, last := Run(s, front), actions[|actions| - 1];
      if Step(before, last).Some? {
        JournalStep(before, last, Run(s, actions));
        var h := Journaled(s, front);
        if h != [] && Run(s, actions).journal != before.journal {
          AcceptedGrows(h, Run(s, actions).journal.value);
        }
      }
    }
  }

  /**
   The protocol's own writes form one accepted history: they walk the checkpoints in order, and
   no run whatever, however often it is interrupted, writes the journal more than 24 times.
   */
  lemma {:induction false} ProtocolWritesAreOrderedAndBounded(s: World, actions: seq<Action>)
    requires Initial(s)
    ensures |Journaled(s, actions)| <= 24
    ensures Journaled(s, actions) != [] ==>
              exists m: nat, n: nat :: HasShape(Trail(Journaled(s, actions)), m, n)
  {
    JournaledIsAccepted(s, actions);
    var h := Journaled(s, actions);
    if h != [] {
      HistoryIsBounded(h);
      var m, n := TrailHasShape(h);
    }
  }

  lemma ForwardWriteIsAccepted(s: World, r: Record)
    requires Inv(s) && s.coordinator.Forwarding? && s.coordinator.stage.Confirmed? && s.journal == Some(r) && !r.status.Success?
    ensures CheckpointV2(r, ForwardWrite(r, s.coordinator.stage.carried)).Ok?
  {
    hide SourceOk, CandidateOk, MarkersOk, SnapshotOk, DataOk, RowOk;
  }

  lemma RollbackWriteIsAccepted(s: World, r: Record)
    requires Inv(s) && s.coordinator.Reverting? && s.coordinator.stage.Confirmed? && s.journal == Some(r) && r.status.RollingBack?
    ensures ValidRecord(r) && CheckpointV2(r, RollbackWrite(r)).Ok?
  {
    hide SourceOk, CandidateOk, MarkersOk, SnapshotOk, DataOk, RowOk;
  }

  lemma EnterWriteIsAccepted(s: World, r: Record)
    requires Inv(s) && s.coordinator.Reverting? && s.coordinator.stage.Confirmed? && s.journal == Some(r) && !r.status.RollingBack?
    ensures s.marker.Some? && CheckpointV2(r, EnterWrite(s, s.coordinator.stage.carried)).Ok?
  {
    hide SourceOk, CandidateOk, MarkersOk, SnapshotOk, DataOk, RowOk;
  }

  /** The journal's guards never reject a write of the executors: a confirmed step is always recorded. */
  lemma {:induction false} ConfirmedStepIsAlwaysRecorded(s: World, actions: seq<Action>, healthy: bool)
    requires Initial(s)
    ensures var t := Run(s, actions);
            && (t.coordinator.Forwarding? && t.coordinator.stage.Confirmed? && t.journal.Some? && !t.journal.value.status.Success? ==>
                  ForwardStep(t).Some? && ForwardStep(t).value.journal != t.journal)
            && (t.coordinator.Reverting? && t.coordinator.stage.Confirmed? && t.journal.Some? ==>
                  RollbackStep(t, healthy).journal != t.journal)
  {
    hide ContainersInv, RecordsInv, CheckpointV2;
    RunInv(s, actions);
    var t := Run(s, actions);
    if t.journal.Some? && t.coordinator.Forwarding? && t.coordinator.stage.Confirmed? && !t.journal.value.status.Success? {
      ForwardWriteIsAccepted(t, t.journal.value);
      AcceptedWriteChanges(t.journal.value, ForwardWrite(t.journal.value, t.coordinator.stage.carried));
    }
    if t.journal.Some? && t.coordinator.Reverting? && t.coordinator.stage.Confirmed? {
      if t.journal.value.status.RollingBack? {
        RollbackWriteIsAccepted(t, t.journal.value);
        AcceptedWriteChanges(t.journal.value, RollbackWrite(t.journal.value));
      } else {
        EnterWriteIsAccepted(t, t.journal.value);
        AcceptedWriteChanges(t.journal.value, EnterWrite(t, t.coordinator.stage.carried));
      }
    }
  }

  lemma AcceptedWriteChanges(r: Record, w: Write)
    ensures CheckpointV2(r, w).Ok? ==> CheckpointV2(r, w).value != r
  {
  }

  // ---- the reconciler over a run -----------------------------------------------------------

  /**
   However sparsely the reconciler samples, and although a restore resets the row under it, no
   pass is ever refused: not as a step backwards, not as a mismatch, not for missing evidence.
   */
  lemma {:induction false} NoReconcilerPassIsRefused(s: World, actions: seq<Action>, allowActiveCommit: bool)
    requires Initial(s)
    ensures DataDirectory(Run(s, actions).files)
    ensures var t := Run(s, actions);
            t.reconciler.Sampled? ==>
              !R.Reconcile(RowOf(t.files), t.reconciler.status, true, allowActiveCommit,
                           t.marker.Some? && t.evidence == t.marker).verdict.Refused?
  {
    RunInv(s, actions);
    var t := Run(s, actions);
    if t.reconciler.Sampled? {
      R.CompatibleSampleIsAccepted(RowOf(t.files), t.reconciler.status, allowActiveCommit,
                                   t.marker.Some? && t.evidence == t.marker);
    }
  }

  lemma PassOnDecidedJournal(t: World)
    requires Inv(t) && t.journal.Some? && (t.journal.value.status.RolledBack? || t.journal.value.status.CommitRequested?)
    ensures var u := ReconcileStep(t.(reconciler := Sampled(t.journal.value.status)), true);
            && u.Some? && u.value.journal == t.journal && u.value.reconciler == Cleaning(0) && DataDirectory(u.value.files)
            && RowOf(u.value.files) == (if t.journal.value.status.RolledBack? then Op.RolledBack else Op.Success)
  {
    hide SourceOk, CandidateOk, SnapshotOk, DataOk, ProcessOk;
    R.DecidedJournalIsAdopted(RowOf(t.files), t.journal.value.status, t.marker.Some? && t.evidence == t.marker);
  }

  /** Once the journal has decided, a single pass of a running appliance brings the row to the same terminal status. */
  lemma {:induction false} OnePassReachesTheDecision(s: World, actions: seq<Action>)
    requires Initial(s)
    requires var t := Run(s, actions);
             && t.journal.Some? && (t.journal.value.status.RolledBack? || t.journal.value.status.CommitRequested?)
             && (OldRuns(t) || CandidateRuns(t)) && t.marker.Some? && t.reconciler.Resting?
    ensures var t, u := Run(s, actions), Run(s, actions + [Sample, ReconcileSample(true)]);
            && u.journal == t.journal
            && u.reconciler == Cleaning(0)
            && DataDirectory(u.files)
            && RowOf(u.files) == (if t.journal.value.status.RolledBack? then Op.RolledBack else Op.Success)
  {
    hide ContainersInv, RecordsInv, ReconcileStep;
    RunInv(s, actions);
    PassOnDecidedJournal(Run(s, actions));
    var longer := actions + [Sample];
    assert longer[..|actions|] == actions;
    assert (actions + [Sample, ReconcileSample(true)])[..|longer|] == longer;
  }
}
