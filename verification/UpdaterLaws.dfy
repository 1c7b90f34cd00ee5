/**
 What the updater sees, decides and does in one step, read off the world, the journal record and the
 scene column by column. The theorems about runs go through the step functions of `UpdaterWorld`; here
 those are compared with statements that do not use them.
 */
module UpdaterLaws {
  import opened Prelude
  import opened UpdateJournal
  import opened UpdateSnapshot
  import opened UpdaterWorld

  /**
   A candidate is recognized exactly if the journal has its token hash, knows no other candidate and
   the pending marker, if there is one, holds its token. Anything else beside the old container is a
   conflict, never nothing.
   */
  lemma CandidatesAreRecognized(s: World, r: Record)
    ensures var seen := ObserveCandidate(s, r);
            match s.candidate
            case None => seen == Missing
            case Some(c) =>
              if r.tokenHash == Some(Sha256(c.token)) && (forall id :: r.candidateId == Some(id) ==> id == c.id)
                 && (forall token :: s.marker == Some(token) ==> token == c.token)
              then seen == Matched(c.id, c.running)
              else seen == Conflict
  {
  }

  /** The old container is recognized by its name: original, previous or either, depending on the checkpoint. */
  lemma OldContainersAreRecognized(s: World, r: Record)
    ensures var seen := ObserveSource(s, r);
            match s.source
            case None => seen == Missing
            case Some(old0) =>
              if old0.name.OriginalName?
              then seen.Conflict? <==> r.checkpoint in {OldRenamed, CandidateCreated, CandidateStarted, CandidateVerified, CommitPoint}
              else seen.Conflict? <==> r.checkpoint in {Initialized, OldRestartFenced, OldStopped, PendingReady, SnapshotVerified,
                                                        OldNameRestored, OldPolicyRestored, OldStarted, OldVerified, RollbackPublished}
    ensures s.source.Some? && !ObserveSource(s, r).Conflict? ==> ObserveSource(s, r) == Matched(0, s.source.value.running)
  {
  }

  /**
   The recovery table by its decisions. A conflict, a failed record, or a record whose container is
   missing ends in manual recovery and in nothing else; only an old container that still runs before
   the switch lets the update go on.
   */
  lemma DecisionTable(r: Record, scene: Scene)
    ensures var clear := !scene.source.Conflict? && !scene.candidate.Conflict?;
            var old0 := clear && scene.source.Matched?;
            var d := Decide(r, scene);
            && (d.CleanupSuccess? <==> clear && r.status.Success?)
            && (d.AwaitRollbackReconciliation? <==> clear && r.status.RolledBack?)
            && (d.ReconcileCommit? <==> clear && r.status.CommitRequested? && scene.candidate.Matched?)
            && (d.ContinueRollback? <==> old0 && r.status.RollingBack?)
            && (d.ContinueForward? <==> old0 && r.status.Snapshotting? && scene.source.running)
            && (d.BeginRollback? <==>
                  old0 && (r.status.Switching? || r.status.Verifying? || (r.status.Snapshotting? && !scene.source.running)))
  {
  }

  // ---- the forward executor ----------------------------------------------------------------

  /** The pending token as the executor has it after preparing. */
  function Pending(s: World): nat {
    if s.marker.Some? then s.marker.value else s.issued
  }

  /** The recorded candidate, carrying the pending token, beside the renamed old container. */
  ghost predicate Recorded(s: World, r: Record) {
    && s.source.Some? && s.source.value.name.PreviousName?
    && s.candidate.Some? && r.candidateId == Some(s.candidate.value.id)
    && s.candidate.value.token == Pending(s) && r.tokenHash == Some(Sha256(Pending(s)))
  }

  /** What must hold before the executor touches anything at this checkpoint. */
  ghost predicate MayAct(s: World, r: Record) {
    match r.checkpoint
    case Initialized => s.source.Some? && s.source.value.name.OriginalName?
    case OldRestartFenced => s.source.Some? && s.source.value.name.OriginalName?
    case PendingReady => s.snapshot.Some? || (s.handoff && {Database, Secrets} <= s.files.Keys)
    case SnapshotVerified => s.source.Some?
    case CandidateCreated => Recorded(s, r)
    case CandidateStarted => r.status.Switching? || Recorded(s, r)
    case _ => true
  }

  /** The forward executor stands before the work of record `r`, or right after it. */
  ghost predicate ForwardAt(s: World, r: Record, stage: Stage) {
    && s.coordinator.Forwarding? && s.coordinator.stage == stage && s.journal == Some(r)
    && !r.status.Success? && !r.checkpoint.Rollback()
    && (r.checkpoint.CandidateStarted? ==> r.status.Switching? || r.status.Verifying?)
  }

  lemma TokenIsPending(s: World)
    ensures EnsureMarker(s) == s.(marker := Some(Pending(s)), issued := s.issued + if s.marker.Some? then 0 else 1)
  {
  }

  lemma ForwardBegins(s: World, r: Record)
    requires ForwardAt(s, r, Begin)
    ensures var t := ForwardAct(s, r);
            ForwardStep(s) == if t.Some? then Some(At(t.value, Forwarding(s.coordinator.id, Acted))) else None
  {
    hide ForwardAct, ForwardConfirm, ForwardWrite, Put;
  }

  lemma ForwardActsExactlyIf(s: World, r: Record)
    requires ForwardAt(s, r, Begin)
    ensures ForwardStep(s).Some? <==> MayAct(s, r)
  {
    hide Capture, ForwardStep, EnsureMarker;
    ForwardBegins(s, r);
    TokenIsPending(s);
  }

  /** It fences, stops and renames the old container at one checkpoint each and touches it nowhere else. */
  lemma ForwardTouchesOld(s: World, r: Record)
    requires ForwardAt(s, r, Begin) && MayAct(s, r)
    ensures ForwardStep(s).Some?
    ensures var c := r.checkpoint;
            ForwardStep(s).value.source ==
            if c.Initialized? then Some(s.source.value.(policy := NeverRestart))
            else if c.OldRestartFenced? then Some(s.source.value.(running := false))
            else if c.SnapshotVerified? then Some(s.source.value.(name := PreviousName))
            else s.source
  {
    hide Capture, ForwardStep, ObserveSource, ObserveCandidate, Recorded, EnsureMarker, Pending;
    ForwardBegins(s, r);
    ForwardActsExactlyIf(s, r);
    TokenIsPending(s);
  }

  /**
   It creates a candidate only where none is, under a new identity and with the pending token, starts
   only the recorded one, and issues a token only where none is pending.
   */
  lemma ForwardTouchesCandidate(s: World, r: Record)
    requires ForwardAt(s, r, Begin) && MayAct(s, r)
    ensures ForwardStep(s).Some?
    ensures var t, c := ForwardStep(s).value, r.checkpoint;
            && (s.candidate.None? ==>
                  t.candidate == if c.OldRenamed? then Some(Candidate(t.issued - 1, Pending(s), false)) else None)
            && (s.candidate.Some? ==>
                  t.candidate == if c.CandidateCreated? then Some(s.candidate.value.(running := true)) else s.candidate)
            && t.marker == (if c in {OldStopped, OldRenamed, CandidateCreated} || (c.CandidateStarted? && r.status.Verifying?)
                            then Some(Pending(s)) else s.marker)
            && t.issued == s.issued + (if t.marker != s.marker then 1 else 0) + (if s.candidate.None? && c.OldRenamed? then 1 else 0)
  {
    hide Capture, ForwardStep, NameExpected, EnsureMarker;
    ForwardBegins(s, r);
    ForwardActsExactlyIf(s, r);
    TokenIsPending(s);
  }

  /** It takes the snapshot of the files as they are, and changes no file, record, evidence or document. */
  lemma ForwardKeepsTheRest(s: World, r: Record)
    requires ForwardAt(s, r, Begin) && MayAct(s, r)
    ensures ForwardStep(s).Some?
    ensures var t := ForwardStep(s).value;
            t == s.(source := t.source, candidate := t.candidate, marker := t.marker, issued := t.issued,
                    snapshot := if r.checkpoint.PendingReady? && s.snapshot.None? then Some(Capture(s.files)) else s.snapshot,
                    reconciler := t.reconciler, stoppedFiles := t.stoppedFiles, candidateWrote := t.candidateWrote,
                    coordinator := Forwarding(s.coordinator.id, Acted))
  {
    hide Capture, ForwardStep, ObserveSource, ObserveCandidate, MayAct, EnsureMarker, Pending;
    ForwardBegins(s, r);
    ForwardActsExactlyIf(s, r);
    TokenIsPending(s);
  }

  /** What the executor must see after the effect, before it records the next checkpoint. */
  ghost predicate Seen(s: World, r: Record) {
    match r.checkpoint
    case Initialized => s.source.Some? && s.source.value.name.OriginalName? && s.source.value.policy.NeverRestart?
    case OldRestartFenced => s.source.Some? && s.source.value.name.OriginalName? && !s.source.value.running
    case OldStopped => s.marker.Some?
    case PendingReady => s.snapshot.Some? && Verified(s.snapshot.value)
    case SnapshotVerified => s.source.Some? && s.source.value.name.PreviousName?
    case OldRenamed => s.source.Some? && s.source.value.name.PreviousName? && ObserveCandidate(s, r).Matched?
    case CandidateCreated => RecordedRuns(s, r)
    case CandidateStarted => r.status.Switching? || (RecordedRuns(s, r) && s.marker.Some? && s.evidence == s.marker)
    case CandidateVerified => true
    case _ =>
      && s.marker.None? && s.evidence.None? && !s.handoff
      && Database in s.files && s.files[Database].DatabaseImage? && s.files[Database].row.Success?
  }

  ghost predicate RecordedRuns(s: World, r: Record) {
    s.candidate.Some? && s.candidate.value.running && r.candidateId == Some(s.candidate.value.id)
  }

  /** The executor goes on to record exactly what it sees, and carries the identity it saw. */
  lemma ForwardRecordsWhatItSees(s: World, r: Record)
    requires ForwardAt(s, r, Acted)
    ensures ForwardStep(s).Some? <==> Seen(s, r)
    ensures Seen(s, r) ==>
              ForwardStep(s) == Some(s.(coordinator := Forwarding(s.coordinator.id, Confirmed(
                if r.checkpoint.OldStopped? then s.marker
                else if r.checkpoint.OldRenamed? then Some(s.candidate.value.id)
                else None))))
  {
  }

  /** After success only a container that still has the name it was given aside is removed. */
  lemma OnlyTheRenamedContainerIsRemoved(s: World, r: Record)
    requires s.coordinator.Forwarding? && s.journal == Some(r) && r.status.Success? && r.checkpoint.CommitPoint?
    ensures ForwardStep(s).Some? <==> s.source.None? || s.source.value.name.PreviousName?
    ensures ForwardStep(s).Some? ==> ForwardStep(s).value == s.(source := None, coordinator := Idle)
  {
  }

  // ---- the rollback executor ---------------------------------------------------------------

  /** The failed rollback as recorded, if the journal takes it. */
  function FailedAt(s: World, r: Record): World {
    match CheckpointV2(r, Write(RollbackFailed, r.checkpoint, None, None, None))
    case Ok(failed) => s.(journal := Some(failed))
    case Err(_) => s
  }

  /** No candidate, or one that is recognized. */
  ghost predicate NothingStrange(s: World, r: Record) {
    s.source.Some? && !ObserveCandidate(s, r).Conflict?
  }

  ghost predicate MayUndo(s: World, r: Record) {
    match r.checkpoint
    case RollbackStarted => NothingStrange(s, r)
    case CandidateStopped => NothingStrange(s, r) && !CandidateRuns(s)
    case EvidenceRemoved => s.source.Some?
    case OldNameRestored => s.source.Some? && s.source.value.name.OriginalName?
    case OldPolicyRestored => s.source.Some? && s.source.value.name.OriginalName?
    case _ => true
  }

  /** The rollback executor stands at record `r`. */
  ghost predicate RollbackAt(s: World, r: Record, stage: Stage) {
    && s.coordinator.Reverting? && s.coordinator.stage == stage && s.journal == Some(r)
    && r.status.RollingBack? && r.checkpoint.Rollback()
  }

  /** Where it may not act it records the failure at this checkpoint and stops. */
  lemma RollbackActsExactlyIf(s: World, r: Record, healthy: bool)
    requires RollbackAt(s, r, Begin) && !r.checkpoint.CandidateRemoved?
    ensures MayUndo(s, r) <==> RollbackStep(s, healthy).coordinator == Reverting(s.coordinator.id, Acted)
    ensures !MayUndo(s, r) ==> RollbackStep(s, healthy) == At(FailedAt(s, r), Idle)
  {
    hide CheckpointV2, Verified, RestorePlan, ApplyStep, RollbackConfirm, RollbackWrite, EnterRollback;
    hide ObserveSource, ObserveCandidate, NameExpected;
    OldContainersAreRecognized(s, r);
    CandidatesAreRecognized(s, r);
  }

  /** One effect of the rollback executor other than the restore: each undoes one thing and touches nothing else. */
  lemma RollbackEffectsAreExactlyThese(s: World, r: Record, healthy: bool)
    requires RollbackAt(s, r, Begin) && !r.checkpoint.CandidateRemoved? && MayUndo(s, r)
    ensures var t, c := RollbackStep(s, healthy), r.checkpoint;
            t == s.(source := if c.EvidenceRemoved? then Some(s.source.value.(name := OriginalName))
                              else if c.OldNameRestored? then Some(s.source.value.(policy := OriginalPolicy))
                              else if c.OldPolicyRestored? then Some(s.source.value.(running := true))
                              else s.source,
                    candidate := if c.RollbackStarted? && s.candidate.Some? then Some(s.candidate.value.(running := false))
                                 else if c.CandidateStopped? then None
                                 else s.candidate,
                    evidence := if c.SnapshotRestored? then None else s.evidence,
                    reconciler := t.reconciler, coordinator := Reverting(s.coordinator.id, Acted))
  {
    hide CheckpointV2, Verified, RestorePlan, ApplyStep, RollbackConfirm, RollbackWrite, EnterRollback, FailedAt;
    hide ObserveSource, ObserveCandidate;
    RollbackActsExactlyIf(s, r, healthy);
    OldContainersAreRecognized(s, r);
    CandidatesAreRecognized(s, r);
  }

  /** What the rollback executor must see before it records the next checkpoint. */
  ghost predicate Undone(s: World, r: Record, healthy: bool) {
    match r.checkpoint
    case RollbackStarted => NothingStrange(s, r) && !CandidateRuns(s)
    case CandidateStopped => s.source.Some? && s.candidate.None?
    case EvidenceRemoved => s.source.Some? && s.source.value.name.OriginalName?
    case OldNameRestored => s.source.Some? && s.source.value.policy.OriginalPolicy?
    case OldPolicyRestored => OldRuns(s)
    case OldStarted => healthy && OldRuns(s) && s.source.value.name.OriginalName?
    case _ => true
  }

  lemma RollbackRecordsWhatItSees(s: World, r: Record, healthy: bool)
    requires RollbackAt(s, r, Acted)
    ensures RollbackStep(s, healthy) ==
            if Undone(s, r, healthy) then At(s, Reverting(s.coordinator.id, Confirmed(None))) else At(FailedAt(s, r), Idle)
  {
    hide CheckpointV2, Verified, RestorePlan, ApplyStep;
  }

  /** The restore begins only from a snapshot that still verifies; otherwise the executor stops and records nothing. */
  lemma OnlyVerifiedSnapshotsAreRestored(s: World, r: Record, healthy: bool)
    requires RollbackAt(s, r, Begin) && r.checkpoint.CandidateRemoved? && s.snapshot.Some?
    ensures RollbackStep(s, healthy) ==
            At(s, if Verified(s.snapshot.value) then Reverting(s.coordinator.id, Restoring(0)) else Idle)
  {
  }

  /** Rollback is entered with the pending token, which must be the one the record knows, if it knows one. */
  lemma EntryNeedsTheToken(s: World, r: Record, healthy: bool)
    requires s.coordinator.Reverting? && s.coordinator.stage.Begin? && s.journal == Some(r) && !r.status.RollingBack?
    ensures var t := RollbackStep(s, healthy);
            && t == s.(marker := Some(Pending(s)), issued := t.issued, coordinator := t.coordinator)
            && t.coordinator == (if r.tokenHash.None? || r.tokenHash == Some(Sha256(Pending(s)))
                                 then Reverting(s.coordinator.id, Acted) else Idle)
  {
    hide CheckpointV2, Verified, RestorePlan, RollbackAct, RollbackConfirm, ObserveSource, ObserveCandidate, Put, EnsureMarker;
    TokenIsPending(s);
  }

  /**
   It is entered only beside a stopped old container that is recognized. A strange candidate stops the
   entry unless the record names one; the identity the record will name is the known one, else the one
   that is seen.
   */
  lemma EntryIsChecked(s: World, r: Record, healthy: bool)
    requires s.coordinator.Reverting? && s.coordinator.stage.Acted? && s.journal == Some(r) && !r.status.RollingBack?
    ensures var seen := ObserveCandidate(s, r);
            var refused := !ObserveSource(s, r).Matched? || OldRuns(s) || (seen.Conflict? && r.candidateId.None?);
            var named := if r.candidateId.Some? then r.candidateId
                         else if s.candidate.Some? then Some(s.candidate.value.id)
                         else None;
            RollbackStep(s, healthy) == At(s, if refused then Idle else Reverting(s.coordinator.id, Confirmed(named)))
  {
    hide CheckpointV2, Verified, RestorePlan, RollbackAct, RollbackConfirm, Put, EnsureMarker;
    hide ObserveSource, ObserveCandidate, NameExpected;
    OldContainersAreRecognized(s, r);
    CandidatesAreRecognized(s, r);
  }

  /** The entry is written with token, identity and flag at once; what the journal refuses ends the executor. */
  lemma EntryIsRecorded(s: World, r: Record, carried: Option<nat>, healthy: bool)
    requires s.coordinator.Reverting? && s.coordinator.stage == Confirmed(carried) && s.journal == Some(r) && !r.status.RollingBack?
    ensures var hash := if s.marker.Some? then Some(Sha256(s.marker.value)) else None;
            var written := CheckpointV2(r, Write(Status.RollingBack, RollbackStarted, hash, carried, Some(true)));
            RollbackStep(s, healthy) ==
            if s.marker.Some? && written.Ok?
            then s.(journal := Some(written.value), coordinator := Reverting(s.coordinator.id, Begin))
            else At(s, Idle)
  {
    hide CheckpointV2;
  }

  // ---- the coordinator ---------------------------------------------------------------------

  /**
   A coordinator starts only while the hand-over document is there. It goes forward where there is no
   record or to clean up after its own success, decides on what it sees where it has or gets the record,
   and gives up the update, but never a requested commit, where no generation is left.
   */
  lemma StartIsExact(s: World, id: nat)
    requires s.coordinator.Idle? && (s.journal.Some? ==> ValidRecord(s.journal.value))
    ensures var t := StartCoordinator(s, id);
            if !s.handoff then t.None?
            else
              match s.journal
              case None => t == Some(At(s, Forwarding(id, Begin)))
              case Some(r) =>
                var own, ended := r.coordinator == id, r.status.Terminal();
                var taken := !own && !ended && r.generation < MAX_RECOVERY_GENERATION;
                && (t.None? <==> (ended && !(own && r.status.Success?)) || (!own && !taken && (ended || r.status.CommitRequested?)))
                && (t.Some? ==>
                      && t.value == s.(coordinator := t.value.coordinator, journal := t.value.journal)
                      && (t.value.journal != s.journal ==>
                            && taken
                            && t.value.journal ==
                               Some(r.(sequence := r.sequence + 1, generation := r.generation + 1, coordinator := id)))
                      && (taken ==> t.value.journal != s.journal)
                      && t.value.coordinator ==
                         if ended then Forwarding(id, Begin)
                         else if own || taken then Deciding(id, Observe(s, r))
                         else Exhausting(id))
  {
    hide ObserveSource, ObserveCandidate, ValidRecord;
    if s.journal.Some? {
      TakeoversAreExactlyThese(s.journal.value, id);
    }
  }

  /**
   What follows from a decision. Nothing happens without the hand-over document, or for a commit whose
   stopped candidate is not the one that was seen; a rollback goes on only with the token of the record.
   */
  lemma DispatchIsExact(s: World, id: nat, scene: Scene, r: Record)
    requires s.coordinator == Deciding(id, scene) && s.journal == Some(r)
    ensures var d, t := Decide(r, scene), Dispatch(s);
            var same := scene.candidate.Matched? && s.candidate.Some? && s.candidate.value.id == scene.candidate.id;
            && (t.None? <==> !s.handoff || (d.ReconcileCommit? && !scene.candidate.running && !same))
            && (t.Some? ==>
                  && (d.ContinueForward? || d.CleanupSuccess? ==> t.value == At(s, Forwarding(id, Begin)))
                  && (d.BeginRollback? ==> t.value == At(s, Reverting(id, Begin)))
                  && (d.AwaitRollbackReconciliation? || d.ManualRecovery? ==> t.value == At(s, Idle))
                  && (d.ReconcileCommit? ==>
                        && t.value == s.(candidate := t.value.candidate, candidateWrote := t.value.candidateWrote,
                                         coordinator := Forwarding(id, Begin))
                        && t.value.candidate ==
                           (if scene.candidate.running then s.candidate else Some(s.candidate.value.(running := true))))
                  && (d.ContinueRollback? ==>
                        && t.value.marker == Some(Pending(s))
                        && (if r.tokenHash == Some(Sha256(Pending(s)))
                            then t.value == s.(marker := Some(Pending(s)), issued := t.value.issued, coordinator := Reverting(id, Begin))
                            else t.value == At(FailedAt(s, r), Idle).(marker := Some(Pending(s)), issued := t.value.issued))))
  {
  }
}
