/**
 The self-update protocol as a step function. A world holds the two containers, the files on
 disk, the journal, the reconciler of whichever appliance is running, and the coordinator
 process. Every executor effect, its confirmation and its checkpoint are separate steps, and a
 crash, Docker, the running appliance and the reconciler may act between any two of them.
 */
module UpdaterWorld {
  import opened Prelude
  import opened UpdateJournal
  import opened UpdateSnapshot
  import Op = UpdateOperations
  import R = UpdateReconcile

  datatype ContainerName = OriginalName | PreviousName

  /** Docker restarts a container only under the original policy. */
  datatype RestartPolicy = NeverRestart | OriginalPolicy

  datatype OldContainer = OldContainer(running: bool, name: ContainerName, policy: RestartPolicy)

  /** A candidate is created under the original name and policy and carries its token. */
  datatype Candidate = Candidate(id: nat, token: nat, running: bool)

  datatype Observation = Missing | Matched(id: nat, running: bool) | Conflict

  datatype Scene = Scene(source: Observation, candidate: Observation)

  datatype Decision =
    | ContinueForward | BeginRollback | ContinueRollback | ReconcileCommit | CleanupSuccess
    | AwaitRollbackReconciliation | ManualRecovery

  /** Where an executor is inside one checkpoint's work. `carried` is an identity it has confirmed. */
  datatype Stage = Begin | Restoring(step: nat) | Acted | Confirmed(carried: Option<nat>)

  datatype Coordinator =
    | Idle
    | Deciding(id: nat, scene: Scene)
    | Exhausting(id: nat)
    | Forwarding(id: nat, stage: Stage)
    | Reverting(id: nat, stage: Stage)

  datatype Reconciler = Resting | Sampled(status: Status) | Cleaning(file: nat)

  /**
   `stoppedFiles` records the data at the moment the old container last stopped, and
   `candidateWrote` whether a candidate has run since without its writes being undone;
   neither is read by any step.
   */
  datatype World = World(
    source: Option<OldContainer>,
    candidate: Option<Candidate>,
    marker: Option<nat>,
    handoff: bool,
    evidence: Option<nat>,
    snapshot: Option<Snapshot>,
    files: Files,
    journal: Option<Record>,
    reconciler: Reconciler,
    coordinator: Coordinator,
    issued: nat,
    stoppedFiles: Files,
    candidateWrote: bool)

  predicate OldRuns(s: World) {
    s.source.Some? && s.source.value.running
  }

  predicate CandidateRuns(s: World) {
    s.candidate.Some? && s.candidate.value.running
  }

  // ---- observation and decision ------------------------------------------------------------

  predicate NameExpected(name: ContainerName, c: Checkpoint) {
    if c.Index() <= 4 then name.OriginalName?
    else if c.Index() <= 9 then name.PreviousName?
    else c.Index() < OldNameRestored.Index() || name.OriginalName?
  }

  function ObserveSource(s: World, r: Record): Observation {
    if s.source.None? then Missing
    else if NameExpected(s.source.value.name, r.checkpoint) then Matched(0, s.source.value.running)
    else Conflict
  }

  function ObserveCandidate(s: World, r: Record): Observation {
    if s.candidate.None? then Missing
    else
      var c := s.candidate.value;
      if r.candidateId.Some? && r.candidateId.value != c.id then Conflict
      else if s.marker.Some? && s.marker.value != c.token then Conflict
      else if r.tokenHash != Some(Sha256(c.token)) then Conflict
      else Matched(c.id, c.running)
  }

  function Observe(s: World, r: Record): Scene {
    Scene(ObserveSource(s, r), ObserveCandidate(s, r))
  }

  /** The unique recovery decision for a journal record and an observed scene. */
  function Decide(r: Record, scene: Scene): Decision {
    if scene.source.Conflict? || scene.candidate.Conflict? then ManualRecovery
    else
      match r.status
      case Failed => ManualRecovery
      case RollbackFailed => ManualRecovery
      case Success => CleanupSuccess
      case RolledBack => AwaitRollbackReconciliation
      case CommitRequested => if scene.candidate.Matched? then ReconcileCommit else ManualRecovery
      case RollingBack => if scene.source.Matched? then ContinueRollback else ManualRecovery
      case Switching => if scene.source.Matched? then BeginRollback else ManualRecovery
      case Verifying => if scene.source.Matched? then BeginRollback else ManualRecovery
      case Snapshotting =>
        if !scene.source.Matched? then ManualRecovery
        else if scene.source.running then ContinueForward
        else BeginRollback
  }

  // ---- effects -----------------------------------------------------------------------------

  /** The candidate preparation: reuse the pending marker, or issue a new token once. */
  function EnsureMarker(s: World): World {
    if s.marker.Some? then s else s.(marker := Some(s.issued), issued := s.issued + 1)
  }

  function StopOld(s: World): World
    requires s.source.Some?
  {
    if s.source.value.running
    then s.(source := Some(s.source.value.(running := false)), stoppedFiles := s.files, reconciler := Resting)
    else s
  }

  function StartOld(s: World): World
    requires s.source.Some?
  {
    s.(source := Some(s.source.value.(running := true)))
  }

  function StopCandidate(s: World): World
    requires s.candidate.Some?
  {
    if s.candidate.value.running
    then s.(candidate := Some(s.candidate.value.(running := false)), reconciler := Resting)
    else s
  }

  function StartCandidate(s: World): World
    requires s.candidate.Some?
  {
    s.(candidate := Some(s.candidate.value.(running := true)), candidateWrote := true)
  }

  function Rename(s: World, name: ContainerName): World
    requires s.source.Some?
  {
    s.(source := Some(s.source.value.(name := name)))
  }

  function SetPolicy(s: World, policy: RestartPolicy): World
    requires s.source.Some?
  {
    s.(source := Some(s.source.value.(policy := policy)))
  }

  function Put(s: World, r: Record, w: Write): Option<World> {
    match CheckpointV2(r, w)
    case Ok(next) => Some(s.(journal := Some(next)))
    case Err(_) => None
  }

  function At(s: World, c: Coordinator): World {
    s.(coordinator := c)
  }

  // ---- the forward executor ----------------------------------------------------------------

  /** The recorded candidate, uniquely identified beside the renamed old container. */
  predicate CandidateIdentified(s: World, r: Record) {
    && ObserveSource(s, r).Matched?
    && ObserveCandidate(s, r).Matched?
    && r.candidateId == Some(ObserveCandidate(s, r).id)
  }

  /** Pre-check and mutation of one checkpoint; None when the executor raises. */
  function ForwardAct(s: World, r: Record): Option<World> {
    match r.checkpoint
    case Initialized =>
      if s.source.Some? && s.source.value.name.OriginalName? then Some(SetPolicy(s, NeverRestart)) else None
    case OldRestartFenced =>
      if s.source.Some? && s.source.value.name.OriginalName? then Some(StopOld(s)) else None
    case OldStopped => Some(EnsureMarker(s))
    case PendingReady =>
      if s.snapshot.Some? then Some(s)
      else if s.handoff && Database in s.files && Secrets in s.files then Some(s.(snapshot := Some(Capture(s.files))))
      else None
    case SnapshotVerified => if s.source.Some? then Some(Rename(s, PreviousName)) else None
    case OldRenamed =>
      var p := EnsureMarker(s);
      if ObserveCandidate(p, r).Missing?
      then Some(p.(candidate := Some(Candidate(p.issued, p.marker.value, false)), issued := p.issued + 1))
      else Some(p)
    case CandidateCreated =>
      var p := EnsureMarker(s);
      if CandidateIdentified(p, r) then Some(if p.candidate.value.running then p else StartCandidate(p)) else None
    case CandidateStarted =>
      if r.status.Switching? then Some(s)
      else
        var p := EnsureMarker(s);
        if CandidateIdentified(p, r) then Some(p) else None
    case _ => Some(s)
  }

  /** What the executor must see after the mutation; the result is the identity it will write. */
  function ForwardConfirm(s: World, r: Record): Option<Option<nat>> {
    match r.checkpoint
    case Initialized =>
      if s.source.Some? && s.source.value.name.OriginalName? && s.source.value.policy.NeverRestart? then Some(None) else None
    case OldRestartFenced =>
      if s.source.Some? && s.source.value.name.OriginalName? && !s.source.value.running then Some(None) else None
    case OldStopped => if s.marker.Some? then Some(s.marker) else None
    case PendingReady => if s.snapshot.Some? && Verified(s.snapshot.value) then Some(None) else None
    case SnapshotVerified => if s.source.Some? && s.source.value.name.PreviousName? then Some(None) else None
    case OldRenamed =>
      if ObserveSource(s, r).Matched? && ObserveCandidate(s, r).Matched? then Some(Some(ObserveCandidate(s, r).id)) else None
    case CandidateCreated => if CandidateRuns(s) && r.candidateId == Some(s.candidate.value.id) then Some(None) else None
    case CandidateStarted =>
      if r.status.Switching? then Some(None)
      else if CandidateRuns(s) && r.candidateId == Some(s.candidate.value.id) && s.marker.Some? && s.evidence == s.marker
      then Some(None)
      else None
    case CandidateVerified => Some(None)
    case _ =>
      if s.marker.None? && s.evidence.None? && !s.handoff
         && Database in s.files && s.files[Database].DatabaseImage? && RowOf(s.files).Success?
      then Some(None)
      else None
  }

  function ForwardWrite(r: Record, carried: Option<nat>): Write {
    match r.checkpoint
    case Initialized => Write(Snapshotting, OldRestartFenced, None, None, None)
    case OldRestartFenced => Write(Snapshotting, OldStopped, None, None, None)
    case OldStopped => Write(Snapshotting, PendingReady, if carried.Some? then Some(Sha256(carried.value)) else None, None, None)
    case PendingReady => Write(Snapshotting, SnapshotVerified, None, None, None)
    case SnapshotVerified => Write(Switching, OldRenamed, None, None, None)
    case OldRenamed => Write(Switching, CandidateCreated, None, carried, None)
    case CandidateCreated => Write(Switching, CandidateStarted, None, None, None)
    case CandidateStarted =>
      if r.status.Switching? then Write(Verifying, CandidateStarted, None, None, None)
      else Write(Verifying, CandidateVerified, None, None, None)
    case CandidateVerified => Write(CommitRequested, CommitPoint, None, None, None)
    case _ => Write(Success, CommitPoint, None, None, None)
  }

  /** One step of the forward executor; None when it raises or is still waiting. */
  function ForwardStep(s: World): Option<World>
    requires s.coordinator.Forwarding?
  {
    var id := s.coordinator.id;
    match s.journal
    case None => Some(s.(journal := Some(StartRecord(id))))
    case Some(r) =>
      if r.status.Success? then
        if s.source.None? then Some(At(s, Idle))
        else if ObserveSource(s, r).Matched? then Some(At(s.(source := None), Idle))
        else None
      else
        match s.coordinator.stage
        case Begin =>
          (match ForwardAct(s, r)
           case Some(t) => Some(At(t, Forwarding(id, Acted)))
           case None => None)
        case Acted =>
          (match ForwardConfirm(s, r)
           case Some(carried) => Some(At(s, Forwarding(id, Confirmed(carried))))
           case None => None)
        case Confirmed(carried) => Put(At(s, Forwarding(id, Begin)), r, ForwardWrite(r, carried))
        case Restoring(_) => None
  }

  // ---- the rollback executor ---------------------------------------------------------------

  predicate SafeScene(s: World, r: Record) {
    ObserveSource(s, r).Matched? && !ObserveCandidate(s, r).Conflict?
  }

  /** Pre-check and mutation of one rollback checkpoint; None when the executor raises. */
  function RollbackAct(s: World, r: Record): Option<World> {
    match r.checkpoint
    case RollbackStarted =>
      if !SafeScene(s, r) then None
      else if ObserveCandidate(s, r).Matched? then Some(StopCandidate(s))
      else Some(s)
    case CandidateStopped =>
      if !SafeScene(s, r) then None
      else if ObserveCandidate(s, r).Missing? then Some(s)
      else if ObserveCandidate(s, r).running then None
      else Some(s.(candidate := None))
    case EvidenceRemoved =>
      if ObserveSource(s, r).Matched? then Some(Rename(s, OriginalName)) else None
    case SnapshotRestored => Some(s.(evidence := None))
    case OldNameRestored =>
      if ObserveSource(s, r).Matched? then Some(SetPolicy(s, OriginalPolicy)) else None
    case OldPolicyRestored =>
      if ObserveSource(s, r).Matched? then Some(StartOld(s)) else None
    case _ => Some(s)
  }

  predicate RollbackConfirm(s: World, r: Record, healthy: bool) {
    match r.checkpoint
    case RollbackStarted => SafeScene(s, r) && !(ObserveCandidate(s, r).Matched? && ObserveCandidate(s, r).running)
    case CandidateStopped => SafeScene(s, r) && ObserveCandidate(s, r).Missing?
    case EvidenceRemoved => s.source.Some? && s.source.value.name.OriginalName?
    case OldNameRestored => s.source.Some? && s.source.value.policy.OriginalPolicy?
    case OldPolicyRestored => OldRuns(s)
    case OldStarted => healthy && OldRuns(s) && s.source.value.name.OriginalName?
    case _ => true
  }

  function RollbackWrite(r: Record): Write {
    match r.checkpoint
    case RollbackStarted => Write(Status.RollingBack, CandidateStopped, None, None, None)
    case CandidateStopped => Write(Status.RollingBack, CandidateRemoved, None, None, None)
    case CandidateRemoved => Write(Status.RollingBack, SnapshotRestored, None, None, None)
    case SnapshotRestored => Write(Status.RollingBack, EvidenceRemoved, None, None, None)
    case EvidenceRemoved => Write(Status.RollingBack, OldNameRestored, None, None, None)
    case OldNameRestored => Write(Status.RollingBack, OldPolicyRestored, None, None, None)
    case OldPolicyRestored => Write(Status.RollingBack, OldStarted, None, None, None)
    case OldStarted => Write(Status.RollingBack, OldVerified, None, None, None)
    case OldVerified => Write(Status.RollingBack, RollbackPublished, None, None, None)
    case _ => Write(RolledBack, RollbackPublished, None, None, None)
  }

  /** An identity or state error after rollback began is recorded as a failed rollback. */
  function RecordRollbackFailed(s: World, r: Record): World {
    match Put(At(s, Idle), r, Write(RollbackFailed, r.checkpoint, None, None, None))
    case Some(t) => t
    case None => At(s, Idle)
  }

  /** Entering rollback from a forward record: prepare, observe, then write the first checkpoint. */
  function EnterRollback(s: World, r: Record): World
    requires s.coordinator.Reverting?
  {
    var id := s.coordinator.id;
    match s.coordinator.stage
    case Begin =>
      var p := EnsureMarker(s);
      if r.tokenHash.Some? && r.tokenHash.value != Sha256(p.marker.value) then At(p, Idle)
      else At(p, Reverting(id, Acted))
    case Acted =>
      var source, candidate := ObserveSource(s, r), ObserveCandidate(s, r);
      if !source.Matched? || source.running || (candidate.Conflict? && r.candidateId.None?) then At(s, Idle)
      else At(s, Reverting(id, Confirmed(
        if r.candidateId.Some? then r.candidateId else if candidate.Matched? then Some(candidate.id) else None)))
    case Confirmed(carried) =>
      if s.marker.None? then At(s, Idle)
      else
        (match Put(At(s, Reverting(id, Begin)), r,
                   Write(Status.RollingBack, RollbackStarted, Some(Sha256(s.marker.value)), carried, Some(true)))
         case Some(t) => t
         case None => At(s, Idle))
    case Restoring(_) => At(s, Idle)
  }

  /** One step of the rollback executor, which ends Idle; `healthy` is the verdict of the old container's verifier. */
  function RollbackStep(s: World, healthy: bool): World
    requires s.coordinator.Reverting? && s.journal.Some?
  {
    var id := s.coordinator.id;
    var r := s.journal.value;
    if !r.status.RollingBack? then EnterRollback(s, r)
    else
      match s.coordinator.stage
      case Begin =>
        if r.checkpoint.CandidateRemoved? && s.snapshot.Some? then
          if Verified(s.snapshot.value) then At(s, Reverting(id, Restoring(0))) else At(s, Idle)
        else
          (match RollbackAct(s, r)
           case Some(t) => At(t, Reverting(id, Acted))
           case None => RecordRollbackFailed(s, r))
      case Restoring(k) =>
        if s.snapshot.None? then At(s, Idle)
        else
          var plan := RestorePlan(s.snapshot.value);
          if k < |plan| then At(s.(files := ApplyStep(s.files, plan[k])), Reverting(id, Restoring(k + 1)))
          else At(s.(candidateWrote := false), Reverting(id, Acted))
      case Acted =>
        if RollbackConfirm(s, r, healthy) then At(s, Reverting(id, Confirmed(None))) else RecordRollbackFailed(s, r)
      case Confirmed(_) =>
        (match Put(At(s, if r.checkpoint.RollbackPublished? then Idle else Reverting(id, Begin)), r, RollbackWrite(r))
         case Some(t) => t
         case None => At(s, Idle))
  }

  // ---- the coordinator ---------------------------------------------------------------------

  /** A coordinator container with identity `id` takes the lock and reads the scene. */
  function StartCoordinator(s: World, id: nat): Option<World>
    requires s.coordinator.Idle?
  {
    if !s.handoff then None
    else
      match s.journal
      case None => Some(At(s, Forwarding(id, Begin)))
      case Some(r) =>
        if r.status.Success? then
          if r.coordinator == id then Some(At(s, Forwarding(id, Begin))) else None
        else if r.status.Terminal() then None
        else if r.coordinator == id then Some(At(s, Deciding(id, Observe(s, r))))
        else
          match TakeoverV2(r, id)
          case Ok(next) => Some(At(s.(journal := Some(next)), Deciding(id, Observe(s, r))))
          case Err(_) => if r.status.CommitRequested? then None else Some(At(s, Exhausting(id)))
  }

  /** Dispatch to an executor on the scene that was observed, or mark an exhausted recovery. */
  function Dispatch(s: World): Option<World>
    requires s.coordinator.Deciding? && s.journal.Some?
  {
    var id := s.coordinator.id;
    var r := s.journal.value;
    var scene := s.coordinator.scene;
    if !s.handoff then None
    else
      match Decide(r, scene)
      case ContinueForward => Some(At(s, Forwarding(id, Begin)))
      case CleanupSuccess => Some(At(s, Forwarding(id, Begin)))
      case BeginRollback => Some(At(s, Reverting(id, Begin)))
      case ContinueRollback =>
        var p := EnsureMarker(s);
        if r.tokenHash != Some(Sha256(p.marker.value)) then Some(RecordRollbackFailed(p, r))
        else Some(At(p, Reverting(id, Begin)))
      case ReconcileCommit =>
        if scene.candidate.running then Some(At(s, Forwarding(id, Begin)))
        else if s.candidate.Some? && s.candidate.value.id == scene.candidate.id then
          Some(At(StartCandidate(s), Forwarding(id, Begin)))
        else None
      case _ => Some(At(s, Idle))
  }

  /** The recovery limit: enter rollback if needed, then record the failure, one write at a time. */
  function Exhaust(s: World): Option<World>
    requires s.coordinator.Exhausting? && s.journal.Some?
  {
    var r := s.journal.value;
    if r.status.RollingBack? then Some(RecordRollbackFailed(s, r))
    else if s.marker.None? then Some(EnsureMarker(s))
    else Put(s, r, Write(Status.RollingBack, RollbackStarted, Some(Sha256(s.marker.value)), r.candidateId, Some(true)))
  }

  // ---- the running appliance ---------------------------------------------------------------

  function WithRow(files: Files, row: Op.OperationStatus): Files
    requires Database in files && files[Database].DatabaseImage?
  {
    files[Database := files[Database].(row := row)]
  }

  function ReconcileStep(s: World, allowActiveCommit: bool): Option<World> {
    if !s.reconciler.Sampled? || (Database !in s.files) || !s.files[Database].DatabaseImage? then None
    else
      var o := R.Reconcile(RowOf(s.files), s.reconciler.status, true, allowActiveCommit,
                           s.marker.Some? && s.evidence == s.marker);
      Some(s.(files := WithRow(s.files, o.row),
              reconciler := if o.verdict.Cleanup? then Cleaning(0) else Resting))
  }

  /** Evidence, handoff document and pending marker go in this order. */
  function CleanupStep(s: World): Option<World> {
    match s.reconciler
    case Cleaning(file) =>
      if file == 0 then Some(s.(evidence := None, reconciler := Cleaning(1)))
      else if file == 1 then Some(s.(handoff := false, reconciler := Cleaning(2)))
      else Some(s.(marker := None, reconciler := Resting))
    case _ => None
  }

  // ---- runs --------------------------------------------------------------------------------

  datatype Action =
    | Crash
    | Coordinate(id: nat)
    | Forward
    | Rollback(healthy: bool)
    | DockerStartsOld | DockerStartsCandidate
    | OldExits | CandidateExits
    | ApplianceWrites(files: Files)
    | CandidateWritesEvidence
    | Sample
    | ReconcileSample(allowActiveCommit: bool)
    | CleanupFile

  /** The world after an action, or None where the action is not possible. */
  function Step(s: World, a: Action): Option<World> {
    match a
    case Crash => Some(At(s, Idle))
    case Coordinate(id) =>
      if s.coordinator.Idle? then StartCoordinator(s, id)
      else if s.coordinator.Deciding? && s.journal.Some? then Dispatch(s)
      else if s.coordinator.Exhausting? && s.journal.Some? then Exhaust(s)
      else None
    case Forward => if s.coordinator.Forwarding? then ForwardStep(s) else None
    case Rollback(healthy) =>
      if s.coordinator.Reverting? && s.journal.Some? then Some(RollbackStep(s, healthy)) else None
    case DockerStartsOld =>
      if s.source.Some? && !s.source.value.running && s.source.value.policy.OriginalPolicy? then Some(StartOld(s)) else None
    case DockerStartsCandidate =>
      if s.candidate.Some? && !s.candidate.value.running then Some(StartCandidate(s)) else None
    case OldExits => if OldRuns(s) then Some(StopOld(s)) else None
    case CandidateExits => if CandidateRuns(s) then Some(StopCandidate(s)) else None
    case ApplianceWrites(files) =>
      if (OldRuns(s) || CandidateRuns(s)) && DataDirectory(files) && DataDirectory(s.files) && RowOf(files) == RowOf(s.files)
      then Some(s.(files := files))
      else None
    case CandidateWritesEvidence =>
      if CandidateRuns(s) && s.marker == Some(s.candidate.value.token) && DataDirectory(s.files) && RowOf(s.files).Verifying?
      then Some(s.(evidence := s.marker))
      else None
    case Sample =>
      if (OldRuns(s) || CandidateRuns(s)) && s.reconciler.Resting? && s.marker.Some? && s.journal.Some?
      then Some(s.(reconciler := Sampled(s.journal.value.status)))
      else None
    case ReconcileSample(allow) => ReconcileStep(s, allow)
    case CleanupFile => CleanupStep(s)
  }

  /** The world at hand-over: the old appliance runs, the row says handoff, nothing else exists. */
  ghost predicate Initial(s: World) {
    && s.source == Some(OldContainer(true, OriginalName, OriginalPolicy))
    && s.candidate.None? && s.marker.None? && s.handoff && s.evidence.None? && s.snapshot.None?
    && DataDirectory(s.files) && RowOf(s.files).Handoff?
    && s.journal.None? && s.reconciler.Resting? && s.coordinator.Idle?
    && s.stoppedFiles == s.files && !s.candidateWrote
  }

  /** The world after a list of actions, impossible ones being skipped. */
  ghost function Run(s: World, actions: seq<Action>): World {
    if actions == [] then s
    else
      var before := Run(s, actions[..|actions| - 1]);
      match Step(before, actions[|actions| - 1])
      case Some(after) => after
      case None => before
  }
}
