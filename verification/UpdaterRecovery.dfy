/**
 Rollback as a redo log. From any reachable world whose journal is rolling back, however many
 crashes came before, one undisturbed coordinator run ends the rollback; checkpoint, running flags,
 generation and the verdict on the old container's health decide exactly how, and whether the old
 container runs afterwards.
 */
module UpdaterRecovery {
  import opened Prelude
  import opened UpdateJournal
  import opened UpdateSnapshot
  import opened UpdaterWorld
  import opened UpdaterInvariant
  import opened UpdaterSafety

  ghost predicate Undoing(s: World) {
    Inv(s) && s.coordinator.Reverting? && s.journal.Some? && s.journal.value.status.RollingBack?
  }

  /** Steps left inside the current checkpoint. */
  ghost function StageRank(s: World): nat
    requires Undoing(s)
  {
    match s.coordinator.stage
    case Begin => if s.snapshot.Some? then |RestorePlan(s.snapshot.value)| + 4 else 4
    case Restoring(k) => |RestorePlan(s.snapshot.value)| - k + 3
    case Acted => 2
    case Confirmed(_) => 1
  }

  lemma UndoProgress(s: World, healthy: bool)
    requires Undoing(s)
    ensures var t := RollbackStep(s, healthy);
            && Inv(t)
            && (t.coordinator.Idle? || Undoing(t))
            && (Undoing(t) ==>
                  var i, j := s.journal.value.checkpoint.Index(), t.journal.value.checkpoint.Index();
                  j > i || (j == i && StageRank(t) < StageRank(s)))
  {
    RollbackInv(s, s.journal.value, healthy);
    RollbackStepShape(s, healthy);
  }

  /** Every step either goes on with the same record, or writes the journal. */
  lemma FailureRests(s: World, r: Record)
    ensures RecordRollbackFailed(s, r).coordinator.Idle?
  {
    hide CheckpointV2;
  }

  lemma RollbackWriteMovesOn(s: World, r: Record)
    requires Undoing(s) && s.journal == Some(r) && !r.checkpoint.RollbackPublished?
    ensures var next := CheckpointV2(r, RollbackWrite(r));
            next.Ok? ==> next.value.status.RollingBack? && next.value.checkpoint.Index() == r.checkpoint.Index() + 1
  {
  }

  lemma RollbackStepShape(s: World, healthy: bool)
    requires Undoing(s)
    ensures var r, t := s.journal.value, RollbackStep(s, healthy);
            && (t.coordinator.Idle? || t.coordinator.Reverting?)
            && (t.coordinator.Reverting? ==>
                  t.journal.Some? && t.journal.value.status.RollingBack?
                  && ((t.journal.value.checkpoint.Index() == r.checkpoint.Index() + 1 && t.coordinator.stage.Begin?)
                      || (t.journal == s.journal && StepsOn(s, t))))
  {
    hide Inv, RestorePlan, Verified, ApplyStep, RollbackAct, RollbackConfirm, CheckpointV2, RollbackWrite, EnterRollback;
    hide RecordRollbackFailed, Checkpoint.Index;
    var r := s.journal.value;
    FailureRests(s, r);
    match s.coordinator.stage
    case Begin =>
      if RollbackAct(s, r).Some? {
        ActKeepsRecords(s, r, RollbackAct(s, r).value);
      }
    case Confirmed(_) =>
      if !r.checkpoint.RollbackPublished? {
        RollbackWriteMovesOn(s, r);
      }
    case _ =>
  }

  lemma ActKeepsRecords(s: World, r: Record, t: World)
    requires RollbackAct(s, r) == Some(t)
    ensures t.journal == s.journal && t.snapshot == s.snapshot
  {
    hide ObserveSource, ObserveCandidate, SafeScene, NameExpected;
    match r.checkpoint
    case RollbackStarted =>
    case CandidateStopped =>
    case _ =>
  }

  lemma RollbackWriteAdvances(r: Record)
    requires ValidRecord(r) && r.status.RollingBack? && CheckpointV2(r, RollbackWrite(r)).Ok?
    ensures var q := CheckpointV2(r, RollbackWrite(r)).value;
            if r.checkpoint.RollbackPublished? then q.status.RolledBack?
            else q.status.RollingBack? && q.checkpoint.Index() == r.checkpoint.Index() + 1
  {
  }

  ghost predicate StepsOn(s: World, t: World)
    requires s.coordinator.Reverting? && t.coordinator.Reverting?
  {
    t.snapshot == s.snapshot &&
    match s.coordinator.stage
    case Begin => t.coordinator.stage.Acted? || (t.coordinator.stage == Restoring(0) && s.snapshot.Some?)
    case Restoring(k) => t.coordinator.stage == Restoring(k + 1) || t.coordinator.stage.Acted?
    case Acted => t.coordinator.stage.Confirmed?
    case Confirmed(_) => false
  }

  /** The undisturbed rollback run, to its end, with one verdict of the old container's verifier. */
  ghost function Undo(s: World, healthy: bool): World
    requires Undoing(s)
    decreases 20 - s.journal.value.checkpoint.Index(), StageRank(s)
  {
    UndoProgress(s, healthy);
    var t := RollbackStep(s, healthy);
    if t.coordinator.Idle? then t else Undo(t, healthy)
  }

  /**
   What an undisturbed run has made true by the given stage of the given checkpoint; `strict`
   also asks the old container to run from its start on.
   */
  ghost predicate OnTrack(s: World, strict: bool)
    requires Undoing(s)
  {
    var i, stage := s.journal.value.checkpoint.Index(), s.coordinator.stage;
    && (i == 10 && !stage.Begin? ==> !CandidateRuns(s))
    && (i == 11 ==> !CandidateRuns(s) && (!stage.Begin? ==> s.candidate.None?))
    && (i == 14 && !stage.Begin? ==> s.source.Some? && s.source.value.name.OriginalName?)
    && (i == 15 && !stage.Begin? ==> s.source.Some? && s.source.value.policy.OriginalPolicy?)
    && (i == 16 && !stage.Begin? ==> OldRuns(s))
    && (i == 17 || (i >= 17 && strict) ==> OldRuns(s))
  }

  lemma ScenesAreSafe(s: World, r: Record)
    requires Inv(s) && s.journal == Some(r) && r.status.RollingBack?
    ensures ObserveSource(s, r).Matched? && SafeScene(s, r)
    ensures ObserveCandidate(s, r) ==
            if s.candidate.Some? then Matched(s.candidate.value.id, s.candidate.value.running) else Missing
  {
    hide SnapshotOk, DataOk, ProcessOk;
  }

  ghost predicate StaysOnTrack(s: World, strict: bool)
    requires Undoing(s)
  {
    var t := RollbackStep(s, true);
    && (t.coordinator.Idle? ==> t.journal.Some? && t.journal.value.status.RolledBack? && (strict ==> OldRuns(t)))
    && (Undoing(t) ==> OnTrack(t, strict))
  }

  /** What the effect of a checkpoint makes true. */
  lemma ActKeepsTrack(s: World, r: Record, strict: bool)
    requires Undoing(s) && OnTrack(s, strict) && s.coordinator.stage.Begin? && s.journal == Some(r)
    ensures RollbackAct(s, r).Some?
    ensures var t := At(RollbackAct(s, r).value, Reverting(s.coordinator.id, Acted)); Undoing(t) ==> OnTrack(t, strict)
  {
    hide RestorePlan, ObserveSource, ObserveCandidate, Verified, Inv, CheckpointV2, RollbackStep;
    ScenesAreSafe(s, r);
    ActKeepsRecords(s, r, RollbackAct(s, r).value);
  }

  lemma OnTrackBegin(s: World, r: Record, strict: bool)
    requires Undoing(s) && OnTrack(s, strict) && s.coordinator.stage.Begin? && s.journal == Some(r)
    ensures StaysOnTrack(s, strict)
  {
    hide RestorePlan, ObserveSource, ObserveCandidate, Verified, Inv, EnterRollback, RecordRollbackFailed, CheckpointV2;
    hide RollbackAct, RollbackConfirm, RollbackWrite;
    ActKeepsTrack(s, r, strict);
    if r.checkpoint.CandidateRemoved? && s.snapshot.Some? {
      SnapshotVerifies(s, r);
    }
  }

  lemma OnTrackRestoring(s: World, r: Record, strict: bool)
    requires Undoing(s) && OnTrack(s, strict) && s.coordinator.stage.Restoring? && s.journal == Some(r)
    ensures StaysOnTrack(s, strict)
  {
    hide MarkersOk, SnapshotOk, DataOk, RowOk, RestorePlan, ObserveSource, ObserveCandidate, Verified;
  }

  lemma OnTrackActed(s: World, r: Record, strict: bool)
    requires Undoing(s) && OnTrack(s, strict) && s.coordinator.stage.Acted? && s.journal == Some(r)
    ensures StaysOnTrack(s, strict)
  {
    hide MarkersOk, SnapshotOk, DataOk, RowOk, RestorePlan, ObserveSource, ObserveCandidate, Verified, CandidateOk, RecordsInv;
    ScenesAreSafe(s, r);
  }

  lemma OnTrackConfirmed(s: World, r: Record, strict: bool)
    requires Undoing(s) && OnTrack(s, strict) && s.coordinator.stage.Confirmed? && s.journal == Some(r)
    ensures StaysOnTrack(s, strict)
  {
    hide ContainersInv, RecordsInv;
    RollbackWriteIsAccepted(s, r);
  }

  lemma OnTrackStep(s: World, strict: bool)
    requires Undoing(s) && OnTrack(s, strict)
    ensures StaysOnTrack(s, strict)
  {
    hide ContainersInv, RecordsInv;
    match s.coordinator.stage
    case Begin => OnTrackBegin(s, s.journal.value, strict);
    case Restoring(_) => OnTrackRestoring(s, s.journal.value, strict);
    case Acted => OnTrackActed(s, s.journal.value, strict);
    case Confirmed(_) => OnTrackConfirmed(s, s.journal.value, strict);
  }

  lemma SnapshotVerifies(s: World, r: Record)
    requires Inv(s) && s.journal == Some(r) && s.snapshot.Some? && r.checkpoint.Index() <= 14
    ensures Verified(s.snapshot.value)
  {
    CaptureIsFaithful(s.stoppedFiles);
  }

  lemma {:induction false} UndoOutcome(s: World, strict: bool)
    requires Undoing(s)
    ensures Inv(Undo(s, true)) && Undo(s, true).coordinator.Idle?
    ensures OnTrack(s, strict) ==>
              && Undo(s, true).journal.Some? && Undo(s, true).journal.value.status.RolledBack?
              && (strict ==> OldRuns(Undo(s, true)))
    decreases 20 - s.journal.value.checkpoint.Index(), StageRank(s)
  {
    hide ContainersInv, RecordsInv, RollbackStep, RestorePlan;
    UndoProgress(s, true);
    if OnTrack(s, strict) {
      OnTrackStep(s, strict);
    }
    var t := RollbackStep(s, true);
    if !t.coordinator.Idle? {
      UndoOutcome(t, strict);
    }
  }

  /** Off the track the run ends in a recorded failure instead, whatever the verdict. */
  lemma {:induction false} UndoFails(s: World, healthy: bool)
    requires Undoing(s) && s.coordinator.stage.Begin? && !OnTrack(s, false)
    ensures var t := Undo(s, healthy);
            t.coordinator.Idle? && t.journal.Some? && t.journal.value.status.RollbackFailed? && !OldRuns(t)
  {
    hide ContainersInv, RecordsInv, RestorePlan, ObserveSource, ObserveCandidate, Verified, CheckpointV2;
    hide RecordRollbackFailed, EnterRollback;
    var r := s.journal.value;
    ScenesAreSafe(s, r);
    UndoProgress(s, healthy);
    FailureIsRecorded(s, r);
    if CandidateRuns(s) {
      OldIsDown(s, r);
    }
    var t := RollbackStep(s, healthy);
    if r.checkpoint.OldStarted? {
      assert t == At(s, Reverting(s.coordinator.id, Acted));
      UndoProgress(t, healthy);
      FailureIsRecorded(t, r);
    }
  }

  lemma OldIsDown(s: World, r: Record)
    requires Inv(s) && s.journal == Some(r) && CandidateRuns(s)
    ensures !OldRuns(s)
  {
    hide MarkersOk, RecordsInv;
  }

  lemma OldStaysDownOnce(s: World)
    requires Undoing(s) && s.journal.value.checkpoint.Index() >= 18 && !OldRuns(s)
    ensures var t := RollbackStep(s, true);
            !OldRuns(t) && (Undoing(t) ==> t.journal.value.checkpoint.Index() >= 18)
  {
    hide ContainersInv, RecordsInv, RestorePlan, ObserveSource, ObserveCandidate, Verified, CheckpointV2, EnterRollback;
    UndoProgress(s, true);
    FailureIsRecorded(s, s.journal.value);
  }

  /** After the old container was verified nobody looks at it again: if it exited, it stays down. */
  lemma {:induction false} OldStaysDown(s: World)
    requires Undoing(s) && s.journal.value.checkpoint.Index() >= 18 && !OldRuns(s)
    ensures !OldRuns(Undo(s, true))
    decreases 20 - s.journal.value.checkpoint.Index(), StageRank(s)
  {
    hide ContainersInv, RecordsInv, RollbackStep, RestorePlan;
    UndoProgress(s, true);
    OldStaysDownOnce(s);
    var t := RollbackStep(s, true);
    if !t.coordinator.Idle? {
      OldStaysDown(t);
    }
  }

  // ---- the verdict on the old container ----------------------------------------------------

  /** The verdict matters at one point only: when the started old container was looked at. */
  lemma VerdictIsAskedOnce(s: World)
    requires Undoing(s) && !(s.journal.value.checkpoint.OldStarted? && s.coordinator.stage.Acted?)
    ensures RollbackStep(s, false) == RollbackStep(s, true)
  {
    hide Inv, RollbackAct, CheckpointV2, ObserveSource, ObserveCandidate, RestorePlan, Verified;
  }

  /** Before that point is reached. */
  ghost predicate Unjudged(s: World)
    requires Undoing(s)
  {
    var i := s.journal.value.checkpoint.Index();
    i < 17 || (i == 17 && !s.coordinator.stage.Confirmed?)
  }

  /** A failure recorded after everything was put back: the old container runs, but is not healthy. */
  ghost predicate JudgedUnhealthy(t: World) {
    && t.coordinator.Idle? && t.journal.Some? && t.journal.value.status.RollbackFailed? && t.journal.value.checkpoint.OldStarted?
    && OldRuns(t) && t.candidate.None? && t.source.value.name.OriginalName? && t.source.value.policy.OriginalPolicy?
  }

  lemma UnhealthyIsRecorded(s: World, r: Record)
    requires Undoing(s) && s.journal == Some(r) && r.checkpoint.OldStarted? && s.coordinator.stage.Acted? && OldRuns(s)
    ensures JudgedUnhealthy(RollbackStep(s, false))
  {
    hide MarkersOk, SnapshotOk, DataOk, RowOk;
    RollbackInv(s, r, false);
  }

  /** On the track an unhealthy verdict ends the run in a recorded failure at the started container. */
  lemma {:induction false} UnhealthyOldFails(s: World)
    requires Undoing(s) && OnTrack(s, false) && Unjudged(s)
    ensures JudgedUnhealthy(Undo(s, false))
    decreases 20 - s.journal.value.checkpoint.Index(), StageRank(s)
  {
    hide Inv, RollbackStep, RestorePlan, JudgedUnhealthy;
    var r := s.journal.value;
    UndoProgress(s, false);
    if r.checkpoint.OldStarted? && s.coordinator.stage.Acted? {
      UnhealthyIsRecorded(s, r);
      IdleAfterVerdict(RollbackStep(s, false));
    } else {
      VerdictIsAskedOnce(s);
      OnTrackStep(s, false);
      StaysUnjudged(s);
      UnhealthyOldFails(RollbackStep(s, false));
    }
  }

  lemma IdleAfterVerdict(t: World)
    requires JudgedUnhealthy(t)
    ensures t.coordinator.Idle?
  {
  }

  lemma StaysUnjudged(s: World)
    requires Undoing(s) && OnTrack(s, false) && Unjudged(s)
    requires !(s.journal.value.checkpoint.OldStarted? && s.coordinator.stage.Acted?)
    ensures var t := RollbackStep(s, true); !t.coordinator.Idle? && (Undoing(t) ==> Unjudged(t))
  {
    hide ContainersInv, RecordsInv, RestorePlan, RollbackAct, RollbackConfirm, CheckpointV2;
    OnTrackStep(s, false);
    RollbackStepShape(s, true);
    if s.coordinator.stage.Confirmed? {
      RollbackWriteIsAccepted(s, s.journal.value);
      RollbackWriteAdvances(s.journal.value);
    } else {
      StepKeepsJournal(s);
    }
  }

  /** Only a confirmed checkpoint is written; a failure is the other thing that can be recorded. */
  lemma StepKeepsJournal(s: World)
    requires Undoing(s) && !s.coordinator.stage.Confirmed?
    ensures var t := RollbackStep(s, true);
            t.journal == s.journal || (t.coordinator.Idle? && t.journal.Some? && t.journal.value.status.RollbackFailed?)
  {
    hide ContainersInv, RecordsInv, RestorePlan, RollbackAct, RollbackConfirm, CheckpointV2;
    var r := s.journal.value;
    FailureIsRecorded(s, r);
    if RollbackAct(s, r).Some? {
      ActKeepsRecords(s, r, RollbackAct(s, r).value);
    }
  }

  /** After that point both verdicts lead to the same end. */
  lemma {:induction false} VerdictIsPast(s: World)
    requires Undoing(s) && !Unjudged(s)
    ensures Undo(s, false) == Undo(s, true)
    decreases 20 - s.journal.value.checkpoint.Index(), StageRank(s)
  {
    hide Inv, RollbackStep, RestorePlan;
    UndoProgress(s, true);
    VerdictIsAskedOnce(s);
    var t := RollbackStep(s, true);
    if !t.coordinator.Idle? {
      StaysJudged(s);
      VerdictIsPast(t);
    }
  }

  lemma StaysJudged(s: World)
    requires Undoing(s) && !Unjudged(s)
    ensures var t := RollbackStep(s, true); Undoing(t) ==> !Unjudged(t)
  {
    hide ContainersInv, RecordsInv, RestorePlan, RollbackAct, RollbackConfirm, CheckpointV2;
    RollbackStepShape(s, true);
  }

  lemma FailureIsRecorded(s: World, r: Record)
    requires Inv(s) && s.journal == Some(r) && r.status.RollingBack?
    ensures var t := RecordRollbackFailed(s, r);
            t.coordinator.Idle? && t.journal.Some? && t.journal.value.status.RollbackFailed? && t.source == s.source
  {
    hide SourceOk, CandidateOk, MarkersOk, RecordsInv;
  }

  lemma RolledBackWorld(t: World)
    requires Inv(t) && t.journal.Some? && t.journal.value.status.RolledBack?
    ensures t.candidate.None? && t.source.Some?
    ensures t.source.value.name.OriginalName? && t.source.value.policy.OriginalPolicy?
  {
  }

  /** The coordinator that the recovery decision sends into the rollback executor. */
  lemma ResumesRollback(s: World, r: Record, id: nat) returns (q: Record)
    requires Inv(s) && s.coordinator.Idle? && s.journal == Some(r) && r.status.RollingBack?
    requires id == r.coordinator || r.generation < MAX_RECOVERY_GENERATION
    ensures q.status == r.status && q.checkpoint == r.checkpoint
    ensures var scene := Observe(s, r);
            && Step(s, Coordinate(id)) == Some(At(s.(journal := Some(q)), Deciding(id, scene)))
            && Step(At(s.(journal := Some(q)), Deciding(id, scene)), Coordinate(id)) ==
               Some(At(s.(journal := Some(q)), Reverting(id, Begin)))
    ensures Undoing(At(s.(journal := Some(q)), Reverting(id, Begin)))
  {
    hide SourceOk, CandidateOk, SnapshotOk, DataOk, ObserveSource, ObserveCandidate;
    ScenesAreSafe(s, r);
    q := if id == r.coordinator then r
         else r.(sequence := r.sequence + 1, generation := r.generation + 1, coordinator := id);
    CoordinateInv(s, id);
    var t := At(s.(journal := Some(q)), Deciding(id, Observe(s, r)));
    assert s.handoff && s.marker.Some? && r.tokenHash == Some(Sha256(s.marker.value));
    DispatchInv(t, q);
  }

  /** An action of the recovering coordinator itself. */
  predicate OwnAction(a: Action, id: nat, healthy: bool) {
    a == Coordinate(id) || a == Rollback(healthy)
  }

  lemma {:induction false} UndoIsARun(s: World, actions: seq<Action>, id: nat, healthy: bool) returns (more: seq<Action>)
    requires Undoing(Run(s, actions))
    ensures forall a <- more :: OwnAction(a, id, healthy)
    ensures Run(s, actions + more) == Undo(Run(s, actions), healthy)
    decreases 20 - Run(s, actions).journal.value.checkpoint.Index(), StageRank(Run(s, actions))
  {
    hide RestorePlan, StartCoordinator, Dispatch, Exhaust, ForwardStep, ReconcileStep;
    hide ContainersInv, RecordsInv, RollbackStep;
    var here, step := Run(s, actions), Rollback(healthy);
    UndoProgress(here, healthy);
    assert (actions + [step])[..|actions|] == actions;
    if RollbackStep(here, healthy).coordinator.Idle? {
      more := [step];
    } else {
      var rest := UndoIsARun(s, actions + [step], id, healthy);
      more := [step] + rest;
      assert actions + more == actions + [step] + rest;
    }
  }

  /** A coordinator that may not take over any more. */
  predicate Exhausted(r: Record, id: nat) {
    id != r.coordinator && r.generation >= MAX_RECOVERY_GENERATION
  }

  /** Docker restarted the candidate after its stop was recorded, or the old container exited after its start was. */
  predicate Blocked(s: World, r: Record) {
    (r.checkpoint.CandidateStopped? && CandidateRuns(s)) || (r.checkpoint.OldStarted? && !OldRuns(s))
  }

  /** The old container will run: its start is still to come, or it is past and holds. */
  predicate OldWillRun(s: World, r: Record, id: nat) {
    if Exhausted(r, id) then OldRuns(s)
    else !Blocked(s, r) && (r.checkpoint.Index() <= OldPolicyRestored.Index() || OldRuns(s))
  }

  /** The coordinator that may not take over records the failure and touches nothing else. */
  lemma ExhaustionIsRecorded(s: World, r: Record, id: nat)
    requires Inv(s) && s.coordinator.Idle? && s.journal == Some(r) && r.status.RollingBack? && Exhausted(r, id)
    ensures Step(s, Coordinate(id)) == Some(At(s, Exhausting(id)))
    ensures Step(At(s, Exhausting(id)), Coordinate(id)) == Some(RecordRollbackFailed(At(s, Exhausting(id)), r))
    ensures var t := RecordRollbackFailed(At(s, Exhausting(id)), r);
            t.coordinator.Idle? && t.journal.Some? && t.journal.value.status.RollbackFailed? && t.source == s.source
  {
    hide SourceOk, CandidateOk, SnapshotOk, DataOk;
    CoordinateInv(s, id);
    FailureIsRecorded(At(s, Exhausting(id)), r);
  }

  lemma TwoMore(s: World, actions: seq<Action>, a: Action, t: World, u: World)
    requires Step(Run(s, actions), a) == Some(t) && Step(t, a) == Some(u)
    ensures Run(s, actions + [a, a]) == u
  {
    var one := actions + [a];
    assert one[..|actions|] == actions && (actions + [a, a])[..|one|] == one;
  }

  /**
   Rollback is a redo log. After any run that left the journal rolling back with no coordinator
   alive, the next coordinator, if nobody disturbs it, ends the rollback. It records a failure
   exactly when it may not take over any more, the world is blocked, or the old container, looked at
   for the first time, is found unhealthy; otherwise no candidate is left and the old container has
   its name and policy back. Whether the old container runs is decided exactly as well: it does not
   if it exited after it was verified.
   */
  lemma {:induction false} RollbackIsARedoLog(s: World, actions: seq<Action>, id: nat, healthy: bool) returns (more: seq<Action>)
    requires Initial(s)
    requires var here := Run(s, actions);
             here.coordinator.Idle? && here.journal.Some? && here.journal.value.status.RollingBack?
    ensures forall a <- more :: OwnAction(a, id, healthy)
    ensures var here, done := Run(s, actions), Run(s, actions + more);
            var r := here.journal.value;
            var stopped := Exhausted(r, id) || Blocked(here, r);
            var unhealthy := !healthy && r.checkpoint.Index() <= OldStarted.Index();
            && done.coordinator.Idle? && done.journal.Some?
            && done.journal.value.status == (if stopped || unhealthy then RollbackFailed else RolledBack)
            && (OldRuns(done) <==> OldWillRun(here, r, id))
            && (!stopped ==>
                  && done.candidate.None? && done.source.Some?
                  && done.source.value.name.OriginalName? && done.source.value.policy.OriginalPolicy?)
            && (!stopped && unhealthy ==> done.journal.value.checkpoint.OldStarted?)
  {
    hide ContainersInv, RecordsInv, Step;
    RunInv(s, actions);
    var here := Run(s, actions);
    var r := here.journal.value;
    if Exhausted(r, id) {
      ExhaustionIsRecorded(here, r, id);
      TwoMore(s, actions, Coordinate(id), At(here, Exhausting(id)), RecordRollbackFailed(At(here, Exhausting(id)), r));
      more := [Coordinate(id), Coordinate(id)];
      return;
    }
    var q := ResumesRollback(here, r, id);
    var start := At(here.(journal := Some(q)), Reverting(id, Begin));
    TwoMore(s, actions, Coordinate(id), At(here.(journal := Some(q)), Deciding(id, Observe(here, r))), start);
    var rest := UndoIsARun(s, actions + [Coordinate(id), Coordinate(id)], id, healthy);
    more := [Coordinate(id), Coordinate(id)] + rest;
    assert actions + more == actions + [Coordinate(id), Coordinate(id)] + rest;
    UndoEnds(start, healthy);
  }

  /** The outcome of the undisturbed run from the beginning of any rollback checkpoint, for either verdict. */
  lemma UndoEnds(s: World, healthy: bool)
    requires Undoing(s) && s.coordinator.stage.Begin?
    ensures var r, t := s.journal.value, Undo(s, healthy);
            var unhealthy := !healthy && r.checkpoint.Index() <= OldStarted.Index();
            && t.coordinator.Idle? && t.journal.Some?
            && t.journal.value.status == (if Blocked(s, r) || unhealthy then RollbackFailed else RolledBack)
            && (OldRuns(t) <==> !Blocked(s, r) && (r.checkpoint.Index() <= OldPolicyRestored.Index() || OldRuns(s)))
            && (!Blocked(s, r) ==>
                  && t.candidate.None? && t.source.Some?
                  && t.source.value.name.OriginalName? && t.source.value.policy.OriginalPolicy?)
            && (!Blocked(s, r) && unhealthy ==> t.journal.value.checkpoint.OldStarted?)
  {
    hide Inv, Undo, RollbackStep;
    var i := s.journal.value.checkpoint.Index();
    var strict := i <= OldPolicyRestored.Index() || OldRuns(s);
    if !OnTrack(s, false) {
      UndoFails(s, healthy);
    } else if !healthy && i <= OldStarted.Index() {
      UnhealthyOldFails(s);
    } else {
      if !healthy {
        VerdictIsPast(s);
      }
      assert OnTrack(s, strict);
      UndoOutcome(s, strict);
      RolledBackWorld(Undo(s, true));
      if !strict {
        OldStaysDown(s);
      }
    }
  }

  /** While every verdict is unhealthy. */
  ghost predicate NeverHealthy(actions: seq<Action>) {
    forall k :: 0 <= k < |actions| && actions[k].Rollback? ==> !actions[k].healthy
  }

  /** The old container was not verified, nor is that about to be written. */
  ghost predicate Unverified(s: World) {
    s.journal.Some? ==>
      && s.journal.value.checkpoint.Index() <= OldStarted.Index()
      && (s.journal.value.checkpoint.OldStarted? && s.coordinator.Reverting? ==> !s.coordinator.stage.Confirmed?)
  }

  lemma PutStaysUnverified(s: World, r: Record, w: Write)
    requires w.checkpoint.Index() <= OldStarted.Index() && Put(s, r, w).Some?
    ensures Put(s, r, w).value.journal.Some? && Put(s, r, w).value.journal.value.checkpoint == w.checkpoint
    ensures Put(s, r, w).value.coordinator == s.coordinator
  {
  }

  lemma FailureStaysUnverified(s: World, r: Record)
    requires Unverified(s) && s.journal == Some(r)
    ensures Unverified(RecordRollbackFailed(s, r))
  {
    hide CheckpointV2;
    if Put(At(s, Idle), r, Write(RollbackFailed, r.checkpoint, None, None, None)).Some? {
      PutStaysUnverified(At(s, Idle), r, Write(RollbackFailed, r.checkpoint, None, None, None));
    }
  }

  lemma EntryStaysUnverified(s: World, r: Record)
    requires Unverified(s) && s.coordinator.Reverting? && s.journal == Some(r) && !r.checkpoint.Rollback()
    ensures Unverified(EnterRollback(s, r))
  {
    hide CheckpointV2, ObserveSource, ObserveCandidate;
    if s.coordinator.stage.Confirmed? && s.marker.Some? {
      var u, w := At(s, Reverting(s.coordinator.id, Begin)), EnterWrite(s, s.coordinator.stage.carried);
      if Put(u, r, w).Some? {
        PutStaysUnverified(u, r, w);
      }
    }
  }

  lemma RollbackStaysUnverified(s: World)
    requires Inv(s) && Unverified(s) && s.coordinator.Reverting? && s.journal.Some?
    ensures Unverified(RollbackStep(s, false))
  {
    hide Inv, CheckpointV2, RecordRollbackFailed, RestorePlan, Verified, ApplyStep, RollbackAct, EnterRollback, Put;
    var r := s.journal.value;
    RevertingRecord(s, r);
    FailureStaysUnverified(s, r);
    if !r.status.RollingBack? {
      EntryStaysUnverified(s, r);
    } else {
      if RollbackAct(s, r).Some? {
        ActKeepsRecords(s, r, RollbackAct(s, r).value);
      }
      var u, w := At(s, if r.checkpoint.RollbackPublished? then Idle else Reverting(s.coordinator.id, Begin)), RollbackWrite(r);
      if s.coordinator.stage.Confirmed? && Put(u, r, w).Some? {
        PutStaysUnverified(u, r, w);
      }
    }
  }

  lemma RevertingRecord(s: World, r: Record)
    requires Inv(s) && s.coordinator.Reverting? && s.journal == Some(r)
    ensures !r.status.Terminal() && (r.status.RollingBack? <==> r.checkpoint.Rollback())
  {
    hide SourceOk, CandidateOk, MarkersOk, SnapshotOk, DataOk, RowOk;
  }

  lemma ForwardStaysUnverified(s: World)
    requires Unverified(s) && s.coordinator.Forwarding? && ForwardStep(s).Some?
    ensures Unverified(ForwardStep(s).value)
  {
    hide CheckpointV2, ForwardAct, ForwardConfirm, ObserveSource;
    if s.journal.Some? {
      var r := s.journal.value;
      if ForwardAct(s, r).Some? {
        ForwardActKeepsJournal(s, r, ForwardAct(s, r).value);
      }
      if s.coordinator.stage.Confirmed? {
        var u, w := At(s, Forwarding(s.coordinator.id, Begin)), ForwardWrite(r, s.coordinator.stage.carried);
        if Put(u, r, w).Some? {
          PutStaysUnverified(u, r, w);
        }
      }
    }
  }

  lemma CoordinateStaysUnverified(s: World, id: nat)
    requires Unverified(s)
    ensures var t := Step(s, Coordinate(id)); t.Some? ==> Unverified(t.value)
  {
    hide CheckpointV2, RecordRollbackFailed, Observe, Decide, ForwardStep, RollbackStep, ReconcileStep;
    if s.journal.Some? {
      var r := s.journal.value;
      FailureStaysUnverified(s, r);
      FailureStaysUnverified(EnsureMarker(s), r);
      if s.marker.Some? && Put(s, r, EnterWrite(s, r.candidateId)).Some? {
        PutStaysUnverified(s, r, EnterWrite(s, r.candidateId));
      }
    }
  }

  /** No run in which every verdict is unhealthy ever records a verified old container. */
  lemma {:induction false} UnhealthyIsNeverVerified(s: World, actions: seq<Action>)
    requires Initial(s) && NeverHealthy(actions)
    ensures Unverified(Run(s, actions))
  {
    hide Inv, ForwardStep, RollbackStep, StartCoordinator, Dispatch, Exhaust, ReconcileStep;
    if actions != [] {
      RunInv(s, actions[..|actions| - 1]);
      var here, a := Run(s, actions[..|actions| - 1]), actions[|actions| - 1];
      UnhealthyIsNeverVerified(s, actions[..|actions| - 1]);
      match a {
        case Coordinate(id) => CoordinateStaysUnverified(here, id);
        case Forward => if here.coordinator.Forwarding? && ForwardStep(here).Some? { ForwardStaysUnverified(here); }
        case Rollback(_) => if here.coordinator.Reverting? && here.journal.Some? { RollbackStaysUnverified(here); }
        case ReconcileSample(allow) => PassKeepsJournal(here, allow);
        case _ =>
      }
    }
  }

  lemma PassKeepsJournal(s: World, allow: bool)
    ensures var t := ReconcileStep(s, allow); t.Some? ==> t.value.journal == s.journal && t.value.coordinator == s.coordinator
  {
  }

  // ---- what rollback never does ------------------------------------------------------------

  lemma ActNeverCreates(s: World, r: Record)
    requires s.candidate.None? && RollbackAct(s, r).Some?
    ensures RollbackAct(s, r).value.candidate.None?
  {
    hide ObserveSource;
  }

  lemma EntryNeverCreates(s: World, r: Record)
    requires s.coordinator.Reverting? && s.candidate.None?
    ensures EnterRollback(s, r).candidate.None? && RecordRollbackFailed(s, r).candidate.None?
  {
    hide CheckpointV2, ObserveSource, ObserveCandidate;
  }

  /** No rollback step creates a candidate. */
  lemma RollbackNeverCreates(s: World, healthy: bool)
    requires s.coordinator.Reverting? && s.journal.Some? && s.candidate.None?
    ensures RollbackStep(s, healthy).candidate.None?
  {
    hide CheckpointV2, Verified, RestorePlan, RollbackAct, RollbackConfirm, RollbackWrite, EnterRollback, RecordRollbackFailed;
    var r := s.journal.value;
    EntryNeverCreates(s, r);
    if RollbackAct(s, r).Some? {
      ActNeverCreates(s, r);
    }
  }
}
