/**
 What every reachable world of the self-update protocol satisfies. The invariant is split by
 topic; each kind of step has its own preservation lemma.
 */
module UpdaterInvariant {
  import opened Prelude
  import opened UpdateJournal
  import opened UpdateSnapshot
  import opened UpdaterWorld
  import Op = UpdateOperations
  import R = UpdateReconcile

  predicate Early(row: Op.OperationStatus) {
    row.Handoff? || row.Snapshotting?
  }

  /** Before the first journal record nothing but the old container exists. */
  ghost predicate Untouched(s: World)
    requires DataDirectory(s.files)
  {
    && s.source.Some? && s.source.value.name.OriginalName? && s.source.value.policy.OriginalPolicy?
    && s.candidate.None? && s.marker.None? && s.handoff && s.evidence.None? && s.snapshot.None?
    && !s.candidateWrote
    && (!s.source.value.running ==> s.files == s.stoppedFiles)
    && RowOf(s.files).Handoff?
    && s.reconciler.Resting?
    && (s.coordinator.Idle? || (s.coordinator.Forwarding? && s.coordinator.stage.Begin?))
  }

  /** The old container: fenced, stopped and renamed on the way out, restored on the way back. */
  ghost predicate SourceOk(source: Option<OldContainer>, saved: bool, c: Checkpoint, status: Status) {
    var i := c.Index();
    match source
    case None => status.Success?
    case Some(o) =>
      && (1 <= i <= 9 ==> o.policy.NeverRestart?)
      && (2 <= i <= 9 ==> !o.running)
      && (10 <= i <= 14 && saved ==> o.policy.NeverRestart? && !o.running)
      && (i >= 16 ==> o.policy.OriginalPolicy?)
      && (i <= 3 || i >= 15 ==> o.name.OriginalName?)
      && (5 <= i <= 9 ==> o.name.PreviousName?)
  }

  /** The candidate: exists only between its creation and its removal, always identifiable. */
  ghost predicate CandidateOk(candidate: Option<Candidate>, saved: bool, r: Record) {
    var i := r.checkpoint.Index();
    match candidate
    case None => !(6 <= i <= 9)
    case Some(c) =>
      && 5 <= i <= 11
      && saved
      && r.tokenHash == Some(Sha256(c.token))
      && (r.candidateId.Some? ==> r.candidateId.value == c.id)
  }

  /** Marker, handoff and evidence stay until the row is terminal; evidence precedes a commit. */
  ghost predicate MarkersOk(marker: Option<nat>, handoff: bool, evidence: Option<nat>, row: Op.OperationStatus, r: Record) {
    var i := r.checkpoint.Index();
    && (i >= 3 ==> if marker.Some? then r.tokenHash == Some(Sha256(marker.value)) else row.Terminal())
    && (!handoff ==> row.Terminal())
    && (8 <= i <= 9 && !row.Success? ==> marker.Some? && evidence == marker)
  }

  /** The snapshot is the data the old container left. */
  ghost predicate SnapshotOk(snapshot: Option<Snapshot>, stopped: Files, c: Checkpoint)
    requires DataDirectory(stopped)
  {
    var i := c.Index();
    match snapshot
    case None => !(4 <= i <= 9)
    case Some(m) => i >= 3 && (i <= 14 ==> m == Capture(stopped) && Early(RowOf(stopped)))
  }

  /** The directory still holds what the old container left unless a candidate ran. */
  ghost predicate DataOk(s: World, c: Checkpoint) {
    && (CandidateRuns(s) ==> s.candidateWrote)
    && (s.candidateWrote ==> s.snapshot.Some? && 5 <= c.Index() <= 12)
    && (s.source.Some? && !s.source.value.running && !s.candidateWrote ==> s.files == s.stoppedFiles)
  }

  /** The database row fits the journal, and so does whatever a reconciler has sampled. */
  ghost predicate RowOk(row: Op.OperationStatus, reconciler: Reconciler, running: bool, status: Status) {
    && R.RowFits(row, status)
    && (match reconciler
        case Resting => true
        case Sampled(seen) => running && R.RowFits(row, seen) && R.Reaches(seen, status)
        case Cleaning(_) => running && row.Terminal())
  }

  /** What an executor has established at the stage it is in. */
  ghost predicate ProcessOk(s: World, r: Record)
    requires DataDirectory(s.files)
  {
    var i := r.checkpoint.Index();
    match s.coordinator
    case Idle => true
    case Deciding(id, _) => r.coordinator == id && !r.status.Terminal()
    case Exhausting(_) => !r.status.Terminal() && !r.status.CommitRequested?
    case Forwarding(id, stage) =>
      && i <= 9
      && r.coordinator == id
      && (match stage
          case Begin => true
          case Acted => true
          case Restoring(_) => false
          case Confirmed(carried) => ForwardConfirmed(s, r, carried))
    case Reverting(id, stage) =>
      && !r.status.Terminal() && !r.status.CommitRequested?
      && r.coordinator == id
      && (match stage
         case Begin => true
         case Restoring(k) =>
           && i == 12 && s.snapshot.Some?
           && k <= |RestorePlan(s.snapshot.value)|
           && Applied(s.files, RestorePlan(s.snapshot.value), k)
         case Acted =>
           && (i <= 9 ==> Entering(s, r))
           && (i == 12 ==> !s.candidateWrote)
         case Confirmed(carried) =>
           && (i <= 9 ==>
                 && Entering(s, r)
                 && (r.candidateId.Some? ==> carried == r.candidateId)
                 && (carried.Some? && s.candidate.Some? ==> carried.value == s.candidate.value.id))
           && (i == 11 ==> s.candidate.None?)
           && (i == 12 ==> !s.candidateWrote)
           && (i == 14 ==> s.source.Some? && s.source.value.name.OriginalName?)
           && (i == 15 ==> s.source.Some? && s.source.value.policy.OriginalPolicy?))
  }

  ghost predicate Entering(s: World, r: Record) {
    && s.marker.Some?
    && (r.tokenHash.Some? ==> r.tokenHash.value == Sha256(s.marker.value))
  }

  ghost predicate ForwardConfirmed(s: World, r: Record, carried: Option<nat>)
    requires DataDirectory(s.files)
  {
    match r.checkpoint
    case Initialized => s.source.Some? && s.source.value.policy.NeverRestart?
    case OldRestartFenced => s.source.Some? && !s.source.value.running
    case OldStopped => carried.Some? && s.marker == carried
    case PendingReady => s.snapshot.Some?
    case SnapshotVerified => s.source.Some? && s.source.value.name.PreviousName?
    case OldRenamed => carried.Some? && s.candidate.Some? && s.candidate.value.id == carried.value
    case CandidateCreated => true
    case CandidateStarted => r.status.Verifying? ==> s.marker.Some? && s.evidence == s.marker
    case CandidateVerified => true
    case _ => RowOf(s.files).Success?
  }

  /** The half of the invariant about containers, identities and run markers. */
  ghost predicate ContainersInv(s: World) {
    && DataDirectory(s.files) && DataDirectory(s.stoppedFiles)
    && match s.journal
       case None => Untouched(s)
       case Some(r) =>
         && ValidRecord(r) && !r.status.Failed?
         && SourceOk(s.source, s.snapshot.Some?, r.checkpoint, r.status)
         && CandidateOk(s.candidate, s.snapshot.Some?, r)
         && MarkersOk(s.marker, s.handoff, s.evidence, RowOf(s.files), r)
  }

  /** The half about data, database row and executor stages. */
  ghost predicate RecordsInv(s: World) {
    && DataDirectory(s.files) && DataDirectory(s.stoppedFiles)
    && match s.journal
       case None => true
       case Some(r) =>
         && SnapshotOk(s.snapshot, s.stoppedFiles, r.checkpoint)
         && DataOk(s, r.checkpoint)
         && RowOk(RowOf(s.files), s.reconciler, OldRuns(s) || CandidateRuns(s), r.status)
         && ProcessOk(s, r)
  }

  ghost predicate Inv(s: World) {
    ContainersInv(s) && RecordsInv(s)
  }

  lemma InitialInv(s: World)
    requires Initial(s)
    ensures Inv(s)
  {
  }

  // ---- single effects ------------------------------------------------------------------

  /** Moving the coordinator is safe when the new stage's facts hold. */
  lemma StageInv(s: World, r: Record, c: Coordinator)
    requires Inv(s) && s.journal == Some(r) && ProcessOk(At(s, c), r)
    ensures Inv(At(s, c))
  {
  }

  /** Preparing again never issues a second token once the journal has recorded one. */
  lemma MarkerInv(s: World, r: Record)
    requires Inv(s) && s.journal == Some(r) && !r.status.Terminal() && !r.status.CommitRequested?
    ensures Inv(EnsureMarker(s))
    ensures r.checkpoint.Index() >= 3 ==> EnsureMarker(s) == s
  {
    hide SourceOk, CandidateOk, SnapshotOk, RestorePlan;
  }

  lemma StopOldInv(s: World)
    requires Inv(s) && s.source.Some?
    ensures Inv(StopOld(s))
  {
  }

  lemma StartOldInv(s: World)
    requires Inv(s) && s.source.Some? && s.source.value.policy.OriginalPolicy?
    ensures Inv(StartOld(s))
    ensures !s.source.value.running ==> s.files == s.stoppedFiles
  {
  }

  lemma StopCandidateInv(s: World)
    requires Inv(s) && s.candidate.Some?
    ensures Inv(StopCandidate(s))
  {
  }

  lemma StartCandidateInv(s: World)
    requires Inv(s) && s.candidate.Some?
    ensures Inv(StartCandidate(s))
  {
  }

  lemma FenceInv(s: World, r: Record)
    requires Inv(s) && s.journal == Some(r) && r.checkpoint.Initialized? && s.source.Some?
    ensures Inv(SetPolicy(s, NeverRestart))
  {
  }

  lemma SaveInv(s: World, r: Record)
    requires Inv(s) && s.journal == Some(r) && r.checkpoint.PendingReady? && s.snapshot.None?
    ensures Inv(s.(snapshot := Some(Capture(s.files))))
  {
    CaptureIsFaithful(s.files);
  }

  lemma RenameInv(s: World, r: Record, name: ContainerName)
    requires Inv(s) && s.journal == Some(r) && s.source.Some?
    requires match name case PreviousName => r.checkpoint.SnapshotVerified? case OriginalName => r.checkpoint.EvidenceRemoved?
    ensures Inv(Rename(s, name))
  {
  }

  lemma CreateInv(s: World, r: Record)
    requires Inv(s) && s.journal == Some(r) && r.checkpoint.OldRenamed? && r.status.Switching?
    requires s.candidate.None? && s.marker.Some? && s.coordinator.Forwarding? && s.coordinator.stage.Begin?
    ensures Inv(s.(candidate := Some(Candidate(s.issued, s.marker.value, false)), issued := s.issued + 1))
  {
  }

  lemma RemoveCandidateInv(s: World, r: Record)
    requires Inv(s) && s.journal == Some(r) && r.checkpoint.CandidateStopped? && !CandidateRuns(s)
    ensures Inv(s.(candidate := None))
  {
  }

  lemma DropEvidenceInv(s: World, r: Record)
    requires Inv(s) && s.journal == Some(r) && (r.rollbackStarted || RowOf(s.files).Terminal())
    ensures Inv(s.(evidence := None))
  {
  }

  lemma RestorePolicyInv(s: World, r: Record)
    requires Inv(s) && s.journal == Some(r) && r.checkpoint.OldNameRestored? && s.source.Some?
    ensures Inv(SetPolicy(s, OriginalPolicy))
  {
  }

  // ---- the forward executor ------------------------------------------------------------

  /** The effects that concern the candidate. */
  lemma CandidateActInv(s: World, r: Record, t: World)
    requires Inv(s) && s.coordinator.Forwarding? && s.coordinator.stage.Begin? && s.journal == Some(r) && !r.status.Success?
    requires r.checkpoint.OldRenamed? || r.checkpoint.CandidateCreated? || r.checkpoint.CandidateStarted?
    requires ForwardAct(s, r) == Some(t)
    ensures Inv(t) && t.journal == s.journal && t.coordinator == s.coordinator
  {
    hide SourceOk, CandidateOk, MarkersOk, SnapshotOk, DataOk, RowOk, ForwardConfirmed, RestorePlan, ObserveSource;
    MarkerInv(s, r);
    if r.checkpoint.OldRenamed? && ObserveCandidate(s, r).Missing? {
      CreateInv(s, r);
    }
    if r.checkpoint.CandidateCreated? {
      StartCandidateInv(s);
    }
  }

  lemma {:induction false} ForwardActInv(s: World, r: Record, t: World)
    requires Inv(s) && s.coordinator.Forwarding? && s.coordinator.stage.Begin? && s.journal == Some(r) && !r.status.Success?
    requires ForwardAct(s, r) == Some(t)
    ensures Inv(t) && t.journal == s.journal && t.coordinator == s.coordinator
  {
    hide SourceOk, CandidateOk, MarkersOk, SnapshotOk, DataOk, RowOk, ForwardConfirmed, Capture, RestorePlan, ForwardConfirm;
    match r.checkpoint {
      case Initialized => FenceInv(s, r);
      case OldRestartFenced => StopOldInv(s);
      case OldStopped => MarkerInv(s, r);
      case PendingReady => if s.snapshot.None? { SaveInv(s, r); }
      case SnapshotVerified => RenameInv(s, r, PreviousName);
      case OldRenamed => CandidateActInv(s, r, t);
      case CandidateCreated => CandidateActInv(s, r, t);
      case CandidateStarted => CandidateActInv(s, r, t);
      case _ =>
    }
  }

  lemma ForwardConfirmFacts(s: World, r: Record, carried: Option<nat>)
    requires Inv(s) && s.coordinator.Forwarding? && s.journal == Some(r) && !r.status.Success?
    requires ForwardConfirm(s, r) == Some(carried)
    ensures ForwardConfirmed(s, r, carried)
  {
  }

  lemma ForwardWriteContainers(s: World, r: Record, t: World)
    requires Inv(s) && s.coordinator.Forwarding? && s.coordinator.stage.Confirmed? && s.journal == Some(r) && !r.status.Success?
    requires Put(At(s, Forwarding(s.coordinator.id, Begin)), r, ForwardWrite(r, s.coordinator.stage.carried)) == Some(t)
    ensures ContainersInv(t)
  {
  }

  lemma ForwardWriteRecords(s: World, r: Record, t: World)
    requires Inv(s) && s.coordinator.Forwarding? && s.coordinator.stage.Confirmed? && s.journal == Some(r) && !r.status.Success?
    requires Put(At(s, Forwarding(s.coordinator.id, Begin)), r, ForwardWrite(r, s.coordinator.stage.carried)) == Some(t)
    ensures RecordsInv(t)
  {
    hide Verified, RestorePlan, MarkersOk, SourceOk;
  }

  lemma CleanupOldInv(s: World, r: Record)
    requires Inv(s) && s.journal == Some(r) && r.status.Success?
    ensures Inv(At(s.(source := None), Idle)) && Inv(At(s, Idle))
  {
  }

  lemma StartInv(s: World)
    requires Inv(s) && s.coordinator.Forwarding? && s.journal.None?
    ensures Inv(ForwardStep(s).value)
  {
  }

  lemma ForwardInv(s: World)
    requires Inv(s) && s.coordinator.Forwarding? && ForwardStep(s).Some?
    ensures Inv(ForwardStep(s).value)
  {
    hide SourceOk, CandidateOk, MarkersOk, SnapshotOk, DataOk, RowOk, ForwardAct, ForwardConfirm, CheckpointV2;
    if s.journal.None? {
      StartInv(s);
    } else {
      var id, r, t := s.coordinator.id, s.journal.value, ForwardStep(s).value;
      if r.status.Success? {
        CleanupOldInv(s, r);
      } else {
        match s.coordinator.stage
        case Begin =>
          var u := ForwardAct(s, r).value;
          ForwardActInv(s, r, u);
          StageInv(u, r, Forwarding(id, Acted));
        case Acted =>
          var carried := ForwardConfirm(s, r).value;
          ForwardConfirmFacts(s, r, carried);
          StageInv(s, r, Forwarding(id, Confirmed(carried)));
        case Confirmed(carried) =>
          ForwardWriteContainers(s, r, t);
          ForwardWriteRecords(s, r, t);
        case Restoring(_) =>
      }
    }
  }

  // ---- the rollback executor -----------------------------------------------------------

  lemma EnterWriteContainers(s: World, r: Record, t: World, c: Coordinator, carried: Option<nat>)
    requires Inv(s) && s.journal == Some(r) && Entering(s, r) && CarriesCandidate(s, r, carried)
    requires Put(At(s, c), r, EnterWrite(s, carried)) == Some(t)
    ensures ContainersInv(t)
  {
  }

  lemma EnterWriteRecords(s: World, r: Record, t: World, c: Coordinator, carried: Option<nat>)
    requires Inv(s) && s.journal == Some(r) && Entering(s, r) && CarriesCandidate(s, r, carried)
    requires c.Exhausting? || c == Reverting(r.coordinator, Begin)
    requires Put(At(s, c), r, EnterWrite(s, carried)) == Some(t)
    ensures RecordsInv(t)
  {
  }

  ghost predicate CarriesCandidate(s: World, r: Record, carried: Option<nat>) {
    && (r.candidateId.Some? ==> carried == r.candidateId)
    && (carried.Some? && s.candidate.Some? ==> carried.value == s.candidate.value.id)
  }

  function EnterWrite(s: World, carried: Option<nat>): Write
    requires s.marker.Some?
  {
    Write(Status.RollingBack, RollbackStarted, Some(Sha256(s.marker.value)), carried, Some(true))
  }

  lemma EnterPrepareInv(s: World, r: Record)
    requires Inv(s) && s.coordinator.Reverting? && s.coordinator.stage.Begin? && s.journal == Some(r) && !r.status.RollingBack?
    ensures Inv(EnterRollback(s, r))
  {
    var p := EnsureMarker(s);
    MarkerInv(s, r);
    StageInv(p, r, Idle);
    if r.tokenHash.Some? ==> r.tokenHash.value == Sha256(p.marker.value) {
      StageInv(p, r, Reverting(s.coordinator.id, Acted));
    }
  }

  lemma EnterObserveInv(s: World, r: Record)
    requires Inv(s) && s.coordinator.Reverting? && s.coordinator.stage.Acted? && s.journal == Some(r) && !r.status.RollingBack?
    ensures Inv(EnterRollback(s, r))
  {
    StageInv(s, r, Idle);
    var candidate := ObserveCandidate(s, r);
    var carried := if r.candidateId.Some? then r.candidateId else if candidate.Matched? then Some(candidate.id) else None;
    if CarriesCandidate(s, r, carried) {
      StageInv(s, r, Reverting(s.coordinator.id, Confirmed(carried)));
    }
  }

  lemma EnterWriteInv(s: World, r: Record)
    requires Inv(s) && s.coordinator.Reverting? && s.coordinator.stage.Confirmed? && s.journal == Some(r) && !r.status.RollingBack?
    ensures Inv(EnterRollback(s, r))
  {
    StageInv(s, r, Idle);
    var next := Reverting(s.coordinator.id, Begin);
    var carried := s.coordinator.stage.carried;
    var put := Put(At(s, next), r, EnterWrite(s, carried));
    if put.Some? {
      EnterWriteContainers(s, r, put.value, next, carried);
      EnterWriteRecords(s, r, put.value, next, carried);
    }
  }

  /** The effects that take the candidate away. */
  lemma TakeAwayInv(s: World, r: Record, t: World)
    requires Inv(s) && s.coordinator.Reverting? && s.coordinator.stage.Begin? && s.journal == Some(r) && r.status.RollingBack?
    requires (r.checkpoint.RollbackStarted? || r.checkpoint.CandidateStopped?) && RollbackAct(s, r) == Some(t)
    ensures Inv(t) && t.journal == s.journal && t.coordinator == s.coordinator
  {
    hide SourceOk, CandidateOk, MarkersOk, SnapshotOk, DataOk, RowOk, ForwardConfirmed, RestorePlan, ObserveSource;
    if s.candidate.Some? {
      if r.checkpoint.RollbackStarted? {
        StopCandidateInv(s);
      } else {
        SeenCandidateIsStopped(s, r);
        RemoveCandidateInv(s, r);
      }
    }
  }

  lemma SeenCandidateIsStopped(s: World, r: Record)
    requires r.checkpoint.CandidateStopped? && RollbackAct(s, r).Some?
    ensures !CandidateRuns(s)
  {
  }

  lemma {:induction false} RollbackActInv(s: World, r: Record, t: World)
    requires Inv(s) && s.coordinator.Reverting? && s.coordinator.stage.Begin? && s.journal == Some(r) && r.status.RollingBack?
    requires RollbackAct(s, r) == Some(t)
    ensures Inv(t) && t.journal == s.journal && t.coordinator == s.coordinator
    ensures r.checkpoint.CandidateRemoved? ==> t == s
  {
    hide CandidateOk, MarkersOk, SnapshotOk, DataOk, RowOk, ForwardConfirmed, RestorePlan, ObserveCandidate;
    match r.checkpoint {
      case RollbackStarted => TakeAwayInv(s, r, t);
      case CandidateStopped => TakeAwayInv(s, r, t);
      case EvidenceRemoved => RenameInv(s, r, OriginalName);
      case OldNameRestored => RestorePolicyInv(s, r);
      case OldPolicyRestored => StartOldInv(s);
      case SnapshotRestored => DropEvidenceInv(s, r);
      case _ =>
    }
  }

  lemma RecordRollbackFailedInv(s: World, r: Record, t: World)
    requires Inv(s) && s.journal == Some(r) && r.status.RollingBack?
    requires Put(At(s, Idle), r, Write(RollbackFailed, r.checkpoint, None, None, None)) == Some(t)
    ensures Inv(t)
  {
  }

  lemma RollbackFailureInv(s: World, r: Record)
    requires Inv(s) && s.journal == Some(r) && r.status.RollingBack?
    ensures Inv(RecordRollbackFailed(s, r))
  {
    var put := Put(At(s, Idle), r, Write(RollbackFailed, r.checkpoint, None, None, None));
    if put.Some? {
      RecordRollbackFailedInv(s, r, put.value);
    }
    StageInv(s, r, Idle);
  }

  lemma RestoreStepInv(s: World, r: Record, k: nat)
    requires Inv(s) && s.coordinator.Reverting? && s.coordinator.stage == Restoring(k)
    requires s.journal == Some(r) && r.status.RollingBack? && k < |RestorePlan(s.snapshot.value)|
    ensures Inv(At(s.(files := ApplyStep(s.files, RestorePlan(s.snapshot.value)[k])),
                   Reverting(s.coordinator.id, Restoring(k + 1))))
  {
    hide Capture, Verified, RestorePlan, Holds, Applied;
    var m := s.snapshot.value;
    CaptureIsFaithful(s.stoppedFiles);
    OneMoreStep(s.files, m, k);
    if Holds(s.files, m) {
      StepKeepsHolds(s.files, m, k);
    }
    StepKeepsDirectory(s.files, s.stoppedFiles, k);
  }

  lemma RestoreDoneInv(s: World, r: Record)
    requires Inv(s) && s.coordinator.Reverting? && s.coordinator.stage.Restoring?
    requires s.journal == Some(r) && r.status.RollingBack? && s.coordinator.stage.step == |RestorePlan(s.snapshot.value)|
    ensures Inv(At(s.(candidateWrote := false), Reverting(s.coordinator.id, Acted)))
  {
    hide Capture, Verified, RestorePlan, Holds, Applied;
    var m := s.snapshot.value;
    CaptureIsFaithful(s.stoppedFiles);
    WholePlan(s.files, m);
    HoldsIsUnique(s.files, s.stoppedFiles, m);
  }

  lemma StepKeepsDirectory(files: Files, captured: Files, k: nat)
    requires DataDirectory(files) && DataDirectory(captured) && k < |RestorePlan(Capture(captured))|
    ensures var next := ApplyStep(files, RestorePlan(Capture(captured))[k]);
            DataDirectory(next) && (RowOf(next) == RowOf(files) || RowOf(next) == RowOf(captured))
  {
    var m := Capture(captured);
    CaptureIsFaithful(captured);
    match RestorePlan(m)[k] {
      case Unlink(p) =>
      case Replace(p, content) =>
        PlanStep(m, k - (|RestorePlan(m)| - |m|));
    }
  }

  lemma RollbackWriteContainers(s: World, r: Record, t: World, c: Coordinator)
    requires Inv(s) && s.coordinator.Reverting? && s.coordinator.stage.Confirmed? && s.journal == Some(r) && r.status.RollingBack?
    requires Put(At(s, c), r, RollbackWrite(r)) == Some(t)
    ensures ContainersInv(t)
  {
  }

  lemma RollbackWriteRecords(s: World, r: Record, t: World, c: Coordinator)
    requires Inv(s) && s.coordinator.Reverting? && s.coordinator.stage.Confirmed? && s.journal == Some(r) && r.status.RollingBack?
    requires c == if r.checkpoint.RollbackPublished? then Idle else Reverting(s.coordinator.id, Begin)
    requires Put(At(s, c), r, RollbackWrite(r)) == Some(t)
    ensures RecordsInv(t)
  {
    hide SourceOk, CandidateOk, MarkersOk, Capture, RestorePlan;
  }

  lemma RollbackBeginInv(s: World, r: Record, healthy: bool)
    requires Inv(s) && s.coordinator.Reverting? && s.coordinator.stage.Begin? && s.journal == Some(r) && r.status.RollingBack?
    ensures Inv(RollbackStep(s, healthy))
  {
    hide SourceOk, CandidateOk, MarkersOk, SnapshotOk, RowOk, RollbackAct, RecordRollbackFailed, RestorePlan;
    var id := s.coordinator.id;
    StageInv(s, r, Idle);
    RollbackFailureInv(s, r);
    if r.checkpoint.CandidateRemoved? && s.snapshot.Some? {
      StageInv(s, r, Reverting(id, Restoring(0)));
    } else if RollbackAct(s, r).Some? {
      var t := RollbackAct(s, r).value;
      RollbackActInv(s, r, t);
      StageInv(t, r, Reverting(id, Acted));
    }
  }

  lemma RollbackFinishInv(s: World, r: Record, healthy: bool)
    requires Inv(s) && s.coordinator.Reverting? && (s.coordinator.stage.Acted? || s.coordinator.stage.Confirmed?)
    requires s.journal == Some(r) && r.status.RollingBack?
    ensures Inv(RollbackStep(s, healthy))
  {
    hide SourceOk, CandidateOk, MarkersOk, SnapshotOk, DataOk, RowOk, CheckpointV2, RollbackAct, RestorePlan;
    var id := s.coordinator.id;
    StageInv(s, r, Idle);
    RollbackFailureInv(s, r);
    if s.coordinator.stage.Acted? {
      if RollbackConfirm(s, r, healthy) {
        StageInv(s, r, Reverting(id, Confirmed(None)));
      }
    } else {
      var c := if r.checkpoint.RollbackPublished? then Idle else Reverting(id, Begin);
      var put := Put(At(s, c), r, RollbackWrite(r));
      if put.Some? {
        RollbackWriteContainers(s, r, put.value, c);
        RollbackWriteRecords(s, r, put.value, c);
      }
    }
  }

  lemma RollbackInv(s: World, r: Record, healthy: bool)
    requires Inv(s) && s.coordinator.Reverting? && s.journal == Some(r)
    ensures Inv(RollbackStep(s, healthy))
  {
    match s.coordinator.stage
    case Begin => if r.status.RollingBack? { RollbackBeginInv(s, r, healthy); } else { EnterPrepareInv(s, r); }
    case Acted => if r.status.RollingBack? { RollbackFinishInv(s, r, healthy); } else { EnterObserveInv(s, r); }
    case Confirmed(_) => if r.status.RollingBack? { RollbackFinishInv(s, r, healthy); } else { EnterWriteInv(s, r); }
    case Restoring(k) =>
      if k < |RestorePlan(s.snapshot.value)| {
        RestoreStepInv(s, r, k);
      } else {
        RestoreDoneInv(s, r);
      }
  }

  // ---- the coordinator -----------------------------------------------------------------

  lemma TakeoverInv(s: World, r: Record, q: Record, scene: Scene, id: nat)
    requires Inv(s) && s.journal == Some(r) && TakeoverV2(r, id) == Ok(q)
    ensures Inv(At(s.(journal := Some(q)), Deciding(id, scene)))
  {
  }

  lemma CoordinateInv(s: World, id: nat)
    requires Inv(s) && s.coordinator.Idle? && StartCoordinator(s, id).Some?
    ensures Inv(StartCoordinator(s, id).value)
  {
    if s.journal.Some? {
      var r := s.journal.value;
      if r.status.Success? {
        StageInv(s, r, Forwarding(id, Begin));
      } else if r.coordinator == id {
        StageInv(s, r, Deciding(id, Observe(s, r)));
      } else if TakeoverV2(r, id).Ok? {
        TakeoverInv(s, r, TakeoverV2(r, id).value, Observe(s, r), id);
      } else {
        StageInv(s, r, Exhausting(id));
      }
    }
  }

  lemma ResumeCommitInv(s: World, r: Record)
    requires Inv(s) && s.coordinator.Deciding? && s.journal == Some(r)
    requires !r.rollbackStarted
    ensures Inv(At(s, Forwarding(s.coordinator.id, Begin)))
    ensures s.candidate.Some? ==> Inv(At(StartCandidate(s), Forwarding(s.coordinator.id, Begin)))
  {
    StageInv(s, r, Forwarding(s.coordinator.id, Begin));
    if s.candidate.Some? {
      StartCandidateInv(s);
      StageInv(StartCandidate(s), r, Forwarding(s.coordinator.id, Begin));
    }
  }

  lemma {:induction false} DispatchInv(s: World, r: Record)
    requires Inv(s) && s.coordinator.Deciding? && s.journal == Some(r) && Dispatch(s).Some?
    ensures Inv(Dispatch(s).value)
  {
    hide SourceOk, CandidateOk, MarkersOk, SnapshotOk, DataOk, RowOk, ForwardConfirmed;
    var id := s.coordinator.id;
    match Decide(r, s.coordinator.scene)
    case ContinueForward => StageInv(s, r, Forwarding(id, Begin));
    case CleanupSuccess =>
    case BeginRollback => StageInv(s, r, Reverting(id, Begin));
    case ContinueRollback =>
      MarkerInv(s, r);
      RollbackFailureInv(s, r);
      StageInv(s, r, Reverting(id, Begin));
    case ReconcileCommit =>
      ResumeCommitInv(s, r);
    case _ => StageInv(s, r, Idle);
  }

  lemma ExhaustInv(s: World, r: Record)
    requires Inv(s) && s.coordinator.Exhausting? && s.journal == Some(r) && Exhaust(s).Some?
    ensures Inv(Exhaust(s).value)
  {
    if r.status.RollingBack? {
      RollbackFailureInv(s, r);
    } else if s.marker.None? {
      MarkerInv(s, r);
    } else {
      EnterWriteContainers(s, r, Exhaust(s).value, s.coordinator, r.candidateId);
      EnterWriteRecords(s, r, Exhaust(s).value, s.coordinator, r.candidateId);
    }
  }

  // ---- the running appliance and Docker --------------------------------------------------

  lemma ReconcileContainers(s: World, allow: bool)
    requires Inv(s) && ReconcileStep(s, allow).Some?
    ensures ContainersInv(ReconcileStep(s, allow).value)
  {
    hide SourceOk, CandidateOk, SnapshotOk, DataOk, ProcessOk, R.Reconcile;
    var row, evidence := RowOf(s.files), s.marker.Some? && s.evidence == s.marker;
    R.CompatibleSampleIsAccepted(row, s.reconciler.status, allow, evidence);
    if row.Terminal() {
      R.TerminalRowStays(row, s.reconciler.status, allow, evidence);
    }
  }

  lemma ReconcileRecords(s: World, allow: bool)
    requires Inv(s) && ReconcileStep(s, allow).Some?
    ensures RecordsInv(ReconcileStep(s, allow).value)
  {
    hide MarkersOk, SnapshotOk, RestorePlan, R.Reconcile;
    var row, seen, evidence := RowOf(s.files), s.reconciler.status, s.marker.Some? && s.evidence == s.marker;
    R.CompatibleSampleIsAccepted(row, seen, allow, evidence);
    R.StaleSampleFitsLaterJournal(row, seen, s.journal.value.status, allow, evidence);
    if row.Terminal() {
      R.TerminalRowStays(row, seen, allow, evidence);
    }
  }

  lemma {:induction false} ReconcileInv(s: World, allow: bool)
    requires Inv(s) && ReconcileStep(s, allow).Some?
    ensures Inv(ReconcileStep(s, allow).value)
  {
    hide ContainersInv, RecordsInv;
    ReconcileContainers(s, allow);
    ReconcileRecords(s, allow);
  }

  lemma DropHandoffInv(s: World, r: Record)
    requires Inv(s) && s.journal == Some(r) && s.reconciler.Cleaning?
    ensures Inv(s.(handoff := false, reconciler := Cleaning(2)))
  {
  }

  lemma DropMarkerInv(s: World, r: Record)
    requires Inv(s) && s.journal == Some(r) && s.reconciler.Cleaning?
    ensures Inv(s.(marker := None, reconciler := Resting))
  {
  }

  lemma {:induction false} CleanupInv(s: World, r: Record)
    requires Inv(s) && s.journal == Some(r) && CleanupStep(s).Some?
    ensures Inv(CleanupStep(s).value)
  {
    var file := s.reconciler.file;
    if file == 0 {
      DropEvidenceInv(s.(reconciler := Cleaning(1)), r);
    } else if file == 1 {
      DropHandoffInv(s, r);
    } else {
      DropMarkerInv(s, r);
    }
  }

  lemma WritesInv(s: World, files: Files)
    requires Inv(s) && (OldRuns(s) || CandidateRuns(s)) && DataDirectory(files) && RowOf(files) == RowOf(s.files)
    ensures Inv(s.(files := files))
  {
  }

  lemma EnvironmentInv(s: World, a: Action)
    requires Inv(s) && Step(s, a).Some?
    requires a.Crash? || a.CandidateWritesEvidence? || a.Sample?
    ensures Inv(Step(s, a).value)
  {
    hide SourceOk, CandidateOk, SnapshotOk, ForwardStep, RollbackStep, StartCoordinator, Dispatch, Exhaust, ReconcileStep;
  }

  lemma StepInv(s: World, a: Action)
    requires Inv(s) && Step(s, a).Some?
    ensures Inv(Step(s, a).value)
  {
    match a
    case Coordinate(id) =>
      if s.coordinator.Idle? {
        CoordinateInv(s, id);
      } else if s.coordinator.Deciding? {
        DispatchInv(s, s.journal.value);
      } else {
        ExhaustInv(s, s.journal.value);
      }
    case Forward => ForwardInv(s);
    case Rollback(healthy) => RollbackInv(s, s.journal.value, healthy);
    case DockerStartsOld => StartOldInv(s);
    case DockerStartsCandidate => StartCandidateInv(s);
    case OldExits => StopOldInv(s);
    case CandidateExits => StopCandidateInv(s);
    case ReconcileSample(allow) => ReconcileInv(s, allow);
    case CleanupFile => CleanupInv(s, s.journal.value);
    case ApplianceWrites(files) => WritesInv(s, files);
    case _ => EnvironmentInv(s, a);
  }

  lemma {:induction false} RunInv(s: World, actions: seq<Action>)
    requires Initial(s)
    ensures Inv(Run(s, actions))
  {
    InitialInv(s);
    if actions != [] {
      RunInv(s, actions[..|actions| - 1]);
      var before := Run(s, actions[..|actions| - 1]);
      if Step(before, actions[|actions| - 1]).Some? {
        StepInv(before, actions[|actions| - 1]);
      }
    }
  }
}
