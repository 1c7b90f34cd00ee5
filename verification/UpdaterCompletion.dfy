/**
 No undisturbed update gets stuck. Whatever order the coordinator, the reconciler and the appliances
 act in, as long as nobody crashes, exits or is restarted, the update can still be completed.
 */
module UpdaterCompletion {
  import opened Prelude
  import opened UpdateJournal
  import opened UpdateSnapshot
  import opened UpdaterWorld
  import opened UpdaterInvariant
  import opened UpdaterSafety
  import opened UpdaterExecutors
  import opened UpdaterProgress
  import R = UpdateReconcile

  /** An action of the coordinator, of the running appliance or of its reconciler. */
  predicate Undisturbing(a: Action) {
    a.Coordinate? || a.Forward? || a.ApplianceWrites? || a.CandidateWritesEvidence? || a.Sample? || a.ReconcileSample?
    || a.CleanupFile?
  }

  ghost predicate Undisturbed(actions: seq<Action>) {
    forall k :: 0 <= k < |actions| ==> Undisturbing(actions[k])
  }

  /** The forward executor is at work on a record it can go on from. */
  ghost predicate AtWork(s: World, r: Record) {
    && s.coordinator.Forwarding? && !s.coordinator.stage.Restoring?
    && !r.status.Terminal() && !r.status.RollingBack? && r.checkpoint.Index() <= 9
    && (r.checkpoint.Index() >= 7 ==> CandidateRuns(s))
    && (r.checkpoint.Index() == 6 && s.coordinator.stage.Confirmed? ==> CandidateRuns(s))
    && (r.checkpoint.Index() == 9 && s.coordinator.stage.Confirmed? ==> s.marker.None?)
    && (OnItsOwn(r) && s.coordinator.stage.Acted? ==> ForwardConfirm(s, r).Some?)
  }

  /** The marker is the last file the clean-up removes. */
  ghost predicate Tidy(s: World) {
    && (s.reconciler.Cleaning? ==>
          (s.reconciler.file >= 1 ==> s.evidence.None?) && (s.reconciler.file >= 2 ==> !s.handoff))
    && (DataDirectory(s.files) && RowOf(s.files).Terminal() && s.marker.None? ==> s.evidence.None? && !s.handoff)
  }

  ghost predicate OnCourse(s: World) {
    && Inv(s) && Tidy(s)
    && match s.journal
       case None => s.coordinator.Idle? || (s.coordinator.Forwarding? && s.coordinator.stage.Begin?)
       case Some(r) =>
         if r.status.Success?
         then CandidateRuns(s) && s.marker.None?
              && (if s.coordinator.Idle? then s.source.None? else s.coordinator.Forwarding? && s.coordinator.stage.Begin?)
         else AtWork(s, r)
  }

  /** Steps that leave the containers, the snapshot and the journal alone. */
  ghost predicate Aside(s: World, t: World) {
    && t.source == s.source && t.candidate == s.candidate && t.snapshot == s.snapshot
    && t.journal == s.journal && t.coordinator == s.coordinator
  }

  lemma AsideStep(s: World, a: Action, t: World)
    requires Undisturbing(a) && !a.Coordinate? && !a.Forward? && Inv(s) && Step(s, a) == Some(t)
    ensures Aside(s, t) && (t.marker == s.marker || RowOf(s.files).Terminal()) && (s.marker.None? ==> t.marker.None?)
  {
    hide SourceOk, CandidateOk, MarkersOk, SnapshotOk, DataOk, ProcessOk;
    hide ForwardStep, RollbackStep, StartCoordinator, Dispatch, Exhaust, R.Reconcile;
  }

  lemma ReconcileKeepsTidy(s: World, allow: bool, t: World)
    requires Inv(s) && Tidy(s) && Step(s, ReconcileSample(allow)) == Some(t)
    ensures Tidy(t)
  {
    hide SourceOk, CandidateOk, SnapshotOk, DataOk, ProcessOk, ForwardStep, RollbackStep, StartCoordinator, Dispatch, Exhaust;
    hide CleanupStep, R.Reconcile;
    var evidence := s.marker.Some? && s.evidence == s.marker;
    R.CompatibleSampleIsAccepted(RowOf(s.files), s.reconciler.status, allow, evidence);
  }

  lemma AsideKeepsTidy(s: World, a: Action, t: World)
    requires Undisturbing(a) && !a.Coordinate? && !a.Forward? && Inv(s) && Tidy(s) && Step(s, a) == Some(t)
    ensures Tidy(t)
  {
    hide SourceOk, CandidateOk, MarkersOk, SnapshotOk, DataOk, ProcessOk, ReconcileStep;
    if a.ReconcileSample? {
      ReconcileKeepsTidy(s, a.allowActiveCommit, t);
    }
  }

  lemma AsideKeepsCourse(s: World, a: Action, t: World)
    requires Undisturbing(a) && !a.Coordinate? && !a.Forward? && OnCourse(s) && Step(s, a) == Some(t)
    ensures OnCourse(t)
  {
    hide Step;
    StepInv(s, a);
    AsideStep(s, a, t);
    AsideKeepsTidy(s, a, t);
    if s.journal.Some? && OnItsOwn(s.journal.value) {
      RowIsOpen(s, s.journal.value);
    }
  }

  lemma RowIsOpen(s: World, r: Record)
    requires Inv(s) && s.journal == Some(r) && !r.status.Terminal() && !r.status.CommitRequested?
    ensures !RowOf(s.files).Terminal()
  {
    hide SourceOk, CandidateOk, MarkersOk, SnapshotOk, DataOk, ProcessOk;
  }

  // ---- the coordinator and the executor keep the course ------------------------------------

  lemma CoordinateKeepsCourse(s: World, id: nat, t: World)
    requires OnCourse(s) && Step(s, Coordinate(id)) == Some(t)
    ensures OnCourse(t)
  {
    hide ContainersInv, RecordsInv, AtWork;
    StepInv(s, Coordinate(id));
    if s.journal.Some? && !s.journal.value.status.Success? {
      WorksForward(s, s.journal.value);
    }
  }

  lemma WorksForward(s: World, r: Record)
    requires AtWork(s, r)
    ensures s.coordinator.Forwarding?
  {
  }

  lemma ActKeepsCourse(s: World, r: Record, t: World)
    requires OnCourse(s) && s.journal == Some(r) && s.coordinator.Forwarding? && s.coordinator.stage.Begin? && !r.status.Success?
    requires ForwardAct(s, r) == Some(t)
    ensures AtWork(At(t, Forwarding(s.coordinator.id, Acted)), r)
  {
    hide ContainersInv, RecordsInv, ForwardConfirm;
    if OnItsOwn(r) {
      OwnActs(s, s.coordinator.id, r);
      OwnWorkIsDone(s, s.coordinator.id, r);
      ConfirmIgnoresStage(t, r, Forwarding(s.coordinator.id, Acted));
    }
    ActKeepsCandidate(s, r, t);
  }

  lemma ActKeepsCandidate(s: World, r: Record, t: World)
    requires ForwardAct(s, r) == Some(t) && (r.checkpoint.Index() >= 7 ==> CandidateRuns(s))
    ensures r.checkpoint.Index() >= 7 ==> CandidateRuns(t)
  {
    hide ObserveSource, ObserveCandidate, Capture;
  }

  lemma ConfirmKeepsCourse(s: World, r: Record)
    requires AtWork(s, r) && s.coordinator.stage.Acted? && ForwardConfirm(s, r).Some?
    ensures AtWork(At(s, Forwarding(s.coordinator.id, Confirmed(ForwardConfirm(s, r).value))), r)
  {
  }

  /** Which record follows the one in work. */
  lemma WriteKeepsCourse(s: World, r: Record, t: World)
    requires Inv(s) && AtWork(s, r) && s.coordinator.stage.Confirmed? && s.journal == Some(r)
    requires Put(At(s, Forwarding(s.coordinator.id, Begin)), r, ForwardWrite(r, s.coordinator.stage.carried)) == Some(t)
    ensures t == s.(journal := t.journal, coordinator := Forwarding(s.coordinator.id, Begin)) && t.journal.Some?
    ensures var q := t.journal.value;
            if r.checkpoint.CommitPoint? then q.status.Success? && CandidateRuns(t) && t.marker.None?
            else AtWork(t, q) && NextInLine(r, q) && !q.status.Success?
  {
    hide ContainersInv, RecordsInv, CheckpointV2;
    WrittenRecord(r, ForwardWrite(r, s.coordinator.stage.carried));
  }

  ghost predicate NextInLine(r: Record, q: Record) {
    if r.checkpoint.CandidateStarted? && r.status.Switching? then q.checkpoint.CandidateStarted? && q.status.Verifying?
    else q.checkpoint.Index() == r.checkpoint.Index() + 1 && (q.checkpoint.Index() == 7 ==> q.status.Switching?)
         && (q.checkpoint.Index() >= 8 ==> !q.status.Switching?)
  }

  lemma BeginKeepsCourse(s: World, r: Record, t: World)
    requires OnCourse(s) && s.journal == Some(r) && s.coordinator.Forwarding? && s.coordinator.stage.Begin? && !r.status.Success?
    requires ForwardStep(s) == Some(t)
    ensures Tidy(t) && t.journal == s.journal && AtWork(t, r)
  {
    hide ContainersInv, RecordsInv, AtWork, ForwardAct;
    ActKeepsJournal(s, r);
    ActTouchesNoFiles(s, r);
    ActKeepsCourse(s, r, ForwardAct(s, r).value);
  }

  lemma ForwardKeepsCourse(s: World, t: World)
    requires OnCourse(s) && Step(s, Forward) == Some(t)
    ensures OnCourse(t)
  {
    hide ContainersInv, RecordsInv, AtWork, ForwardAct, ForwardConfirm, CheckpointV2, ObserveSource, ForwardWrite, Put;
    StepInv(s, Forward);
    match s.journal
    case None => StartsAtWork(t);
    case Some(r) =>
      if !r.status.Success? {
        match s.coordinator.stage {
          case Begin => BeginKeepsCourse(s, r, t);
          case Acted => ConfirmKeepsCourse(s, r);
          case Confirmed(_) => WriteKeepsCourse(s, r, t);
          case Restoring(_) =>
        }
      }
  }

  lemma ActKeepsJournal(s: World, r: Record)
    requires ForwardAct(s, r).Some?
    ensures ForwardAct(s, r).value.journal == s.journal
  {
    ForwardActKeepsJournal(s, r, ForwardAct(s, r).value);
  }

  lemma StartsAtWork(t: World)
    requires t.coordinator.Forwarding? && t.coordinator.stage.Begin? && exists id: nat :: t.journal == Some(StartRecord(id))
    ensures AtWork(t, t.journal.value) && !t.journal.value.status.Success?
  {
  }

  lemma {:induction false} StaysOnCourse(s: World, actions: seq<Action>)
    requires Initial(s) && Undisturbed(actions)
    ensures OnCourse(Run(s, actions))
  {
    hide Step, Inv, AtWork;
    if actions == [] {
      RunInv(s, []);
    } else {
      var before, a := actions[..|actions| - 1], actions[|actions| - 1];
      StaysOnCourse(s, before);
      var here := Run(s, before);
      if Step(here, a).Some? {
        var t := Step(here, a).value;
        if a.Coordinate? {
          CoordinateKeepsCourse(here, a.id, t);
        } else if a.Forward? {
          ForwardKeepsCourse(here, t);
        } else {
          AsideKeepsCourse(here, a, t);
        }
      }
    }
  }

  // ---- completing what is under way --------------------------------------------------------

  /** A continuation made of undisturbing actions. */
  ghost predicate Continues(s: World, actions: seq<Action>, t: World) {
    Undisturbed(actions) && Run(s, actions) == t
  }

  lemma Then(s: World, a: seq<Action>, t: World, b: seq<Action>, u: World)
    requires Continues(s, a, t) && Continues(t, b, u)
    ensures Continues(s, a + b, u)
  {
    RunAppend(s, a, b);
  }

  lemma Once(s: World, a: Action, t: World)
    requires Inv(s) && Step(s, a) == Some(t) && Undisturbing(a)
    ensures Continues(s, [a], t) && Inv(t)
  {
    hide Inv, Step;
    One(s, a, t);
  }

  /** The stage of the current checkpoint is completed once its confirmation can succeed. */
  lemma CheckpointIsCompleted(s: World, r: Record) returns (actions: seq<Action>, t: World, q: Record)
    requires OnCourse(s) && s.journal == Some(r) && !r.status.Success?
    requires match s.coordinator.stage
             case Begin => ForwardAct(s, r).Some? && ForwardConfirm(ForwardAct(s, r).value, r).Some?
             case Acted => ForwardConfirm(s, r).Some?
             case _ => true
    ensures Continues(s, actions, t) && t.journal == Some(q) && t.coordinator == Forwarding(s.coordinator.id, Begin) && OnCourse(t)
    ensures if r.checkpoint.CommitPoint? then q.status.Success? && CandidateRuns(t) else NextInLine(r, q) && AtWork(t, q)
    ensures t.files == s.files && t.evidence == s.evidence && t.handoff == s.handoff
    ensures s.marker.Some? ==> t.marker == s.marker
    decreases match s.coordinator.stage case Begin => 2 case Acted => 1 case _ => 0
  {
    hide ContainersInv, RecordsInv, ForwardAct, ForwardConfirm, CheckpointV2, Run;
    var id := s.coordinator.id;
    var next: World;
    NotRestoring(s, r);
    if s.coordinator.stage.Begin? {
      var u := ForwardAct(s, r).value;
      ActKeepsJournal(s, r);
      ConfirmIgnoresStage(u, r, Forwarding(id, Acted));
      ActTouchesNoFiles(s, r);
      next := At(u, Forwarding(id, Acted));
    } else if s.coordinator.stage.Acted? {
      next := At(s, Forwarding(id, Confirmed(ForwardConfirm(s, r).value)));
    } else {
      ForwardWriteIsAccepted(s, r);
      next := ForwardStep(s).value;
      WriteKeepsCourse(s, r, next);
    }
    assert Step(s, Forward) == Some(next);
    Once(s, Forward, next);
    ForwardKeepsCourse(s, next);
    actions, t := [Forward], next;
    if s.coordinator.stage.Confirmed? {
      q := t.journal.value;
    } else {
      var more;
      more, t, q := CheckpointIsCompleted(next, r);
      Then(s, [Forward], next, more, t);
      actions := [Forward] + more;
    }
  }

  lemma NotRestoring(s: World, r: Record)
    requires AtWork(s, r)
    ensures s.coordinator.Forwarding? && !s.coordinator.stage.Restoring?
  {
  }

  lemma ActTouchesNoFiles(s: World, r: Record)
    requires ForwardAct(s, r).Some?
    ensures var t := ForwardAct(s, r).value;
            && (t.reconciler == s.reconciler || t.reconciler.Resting?)
            && t.files == s.files && t.evidence == s.evidence && t.handoff == s.handoff && t.coordinator == s.coordinator
            && (s.marker.Some? ==> t.marker == s.marker)
  {
    hide ObserveSource, ObserveCandidate, Capture, CandidateIdentified;
  }

  // ---- the reconciler ----------------------------------------------------------------------

  /** The reconciler finishes what it began; the row moves on at most. */
  lemma {:induction false} ReconcilerRests(s: World) returns (actions: seq<Action>, t: World)
    requires OnCourse(s)
    ensures Continues(s, actions, t) && OnCourse(t) && Aside(s, t) && t.reconciler.Resting?
    decreases match s.reconciler case Sampled(_) => 4 case Cleaning(f) => if f == 0 then 3 else if f == 1 then 2 else 1 case _ => 0
  {
    hide Inv, AtWork, Tidy, Step;
    if s.reconciler.Resting? {
      RunNone(s);
      return [], s;
    }
    var a, next := ReconcilerGoesOn(s);
    AsideKeepsCourse(s, a, next);
    AsideStep(s, a, next);
    Once(s, a, next);
    var more;
    more, t := ReconcilerRests(next);
    Then(s, [a], next, more, t);
    actions := [a] + more;
  }

  lemma ReconcilerGoesOn(s: World) returns (a: Action, t: World)
    requires Inv(s) && !s.reconciler.Resting?
    ensures Step(s, a) == Some(t) && (a.ReconcileSample? || a.CleanupFile?)
    ensures s.reconciler.Sampled? ==> !t.reconciler.Sampled? && (t.reconciler.Cleaning? ==> t.reconciler.file == 0)
    ensures s.reconciler.Cleaning? ==>
              t.reconciler.Resting? || (s.reconciler.file < 2 && t.reconciler == Cleaning(s.reconciler.file + 1))
  {
    hide ContainersInv, SnapshotOk, DataOk, RowOk, ProcessOk;
    DirectoryIsThere(s);
    if s.reconciler.Sampled? {
      a := ReconcileSample(false);
      t := ReconcileStep(s, false).value;
    } else {
      a := CleanupFile;
      t := CleanupStep(s).value;
    }
  }

  lemma DirectoryIsThere(s: World)
    requires Inv(s)
    ensures DataDirectory(s.files)
  {
    hide ContainersInv, SnapshotOk, DataOk, RowOk, ProcessOk;
  }

  // ---- milestones --------------------------------------------------------------------------

  lemma OwnCheckpointCan(s: World, r: Record)
    requires OnCourse(s) && s.journal == Some(r) && !r.status.Success? && OnItsOwn(r)
    ensures match s.coordinator.stage
            case Begin => ForwardAct(s, r).Some? && ForwardConfirm(ForwardAct(s, r).value, r).Some?
            case Acted => ForwardConfirm(s, r).Some?
            case _ => true
  {
    hide ContainersInv, RecordsInv, ForwardAct, ForwardConfirm, Tidy;
    if s.coordinator.stage.Begin? {
      OwnWorkIsDone(s, s.coordinator.id, r);
    }
  }

  /** The record says that the candidate is being verified. */
  ghost predicate AtVerification(s: World) {
    OnCourse(s) && s.journal.Some? && s.journal.value.checkpoint.CandidateStarted? && s.journal.value.status.Verifying?
  }

  lemma {:induction false} ToVerification(s: World, r: Record) returns (actions: seq<Action>, t: World)
    requires OnCourse(s) && s.journal == Some(r) && !r.status.Success? && OnItsOwn(r)
    ensures Continues(s, actions, t) && AtVerification(t)
    decreases 8 - r.checkpoint.Index(), r.status.Switching?
  {
    hide Inv, Tidy, ForwardAct, ForwardConfirm, Run;
    OwnCheckpointCan(s, r);
    var q;
    actions, t, q := CheckpointIsCompleted(s, r);
    if OnItsOwn(q) {
      var next := t;
      var more;
      more, t := ToVerification(next, q);
      Then(s, actions, next, more, t);
      actions := actions + more;
    }
  }

  /** The row shows that the candidate is being verified, and the evidence is there. */
  lemma EvidenceArrives(s: World) returns (actions: seq<Action>, t: World)
    requires AtVerification(s)
    ensures Continues(s, actions, t) && AtVerification(t) && t.marker.Some? && t.evidence == t.marker && Aside(s, t)
  {
    hide Inv, AtWork, Tidy, Step;
    actions, t := ReconcilerRests(s);
    var r := t.journal.value;
    var more, u := RowIsDriven(t, r);
    Then(s, actions, t, more, u);
    actions := actions + more;
    var a, v := EvidenceIsThere(u, r);
    Then(s, actions, u, a, v);
    actions, t := actions + a, v;
  }

  lemma RowIsDriven(s: World, r: Record) returns (actions: seq<Action>, t: World)
    requires OnCourse(s) && s.journal == Some(r) && r.checkpoint.CandidateStarted? && r.status.Verifying? && s.reconciler.Resting?
    ensures Continues(s, actions, t) && OnCourse(t) && Aside(s, t) && DataDirectory(t.files) && RowOf(t.files).Verifying?
  {
    hide ContainersInv, RecordsInv, Tidy, Step, AtWork;
    VerifyingWorld(s, r);
    var u := s.(reconciler := Sampled(Status.Verifying));
    var a, b := Sample, ReconcileSample(false);
    assert Step(s, a) == Some(u) by { SampleIsTaken(s, r); }
    Once(s, a, u);
    AsideKeepsCourse(s, a, u);
    t := DrivenRow(u, r);
    Once(u, b, t);
    AsideKeepsCourse(u, b, t);
    AsideStep(u, b, t);
    Then(s, [a], u, [b], t);
    actions := [a] + [b];
  }

  /** What the invariant gives while the candidate runs. */
  lemma VerifyingWorld(s: World, r: Record)
    requires OnCourse(s) && s.journal == Some(r) && r.checkpoint.CandidateStarted? && r.status.Verifying?
    ensures CandidateRuns(s) && s.marker == Some(s.candidate.value.token) && r.candidateId == Some(s.candidate.value.id)
    ensures DataDirectory(s.files) && !RowOf(s.files).Terminal()
  {
    hide SourceOk, SnapshotOk, DataOk, ProcessOk, Tidy;
  }

  lemma SampleIsTaken(s: World, r: Record)
    requires s.journal == Some(r) && CandidateRuns(s) && s.marker.Some? && s.reconciler.Resting?
    ensures Step(s, Sample) == Some(s.(reconciler := Sampled(r.status)))
  {
  }

  lemma DrivenRow(s: World, r: Record) returns (t: World)
    requires Inv(s) && s.journal == Some(r) && r.status.Verifying? && s.reconciler == Sampled(Status.Verifying)
    ensures Step(s, ReconcileSample(false)) == Some(t) && DataDirectory(t.files) && RowOf(t.files).Verifying?
  {
    hide ContainersInv, SnapshotOk, DataOk, ProcessOk;
    t := ReconcileStep(s, false).value;
  }

  lemma EvidenceIsThere(s: World, r: Record) returns (actions: seq<Action>, t: World)
    requires OnCourse(s) && s.journal == Some(r) && r.checkpoint.CandidateStarted? && r.status.Verifying?
    requires DataDirectory(s.files) && RowOf(s.files).Verifying?
    ensures Continues(s, actions, t) && AtVerification(t) && t.marker.Some? && t.evidence == t.marker && Aside(s, t)
  {
    hide ContainersInv, RecordsInv, Tidy, AtWork;
    VerifyingWorld(s, r);
    t := s.(evidence := s.marker);
    assert Step(s, CandidateWritesEvidence) == Some(t);
    Once(s, CandidateWritesEvidence, t);
    AsideKeepsCourse(s, CandidateWritesEvidence, t);
    actions := [CandidateWritesEvidence];
  }

  lemma VerifiedCan(s: World, r: Record)
    requires OnCourse(s) && s.journal == Some(r) && r.checkpoint.CandidateStarted? && r.status.Verifying?
    requires s.marker.Some? && s.evidence == s.marker
    ensures ForwardAct(s, r) == Some(s) && ForwardConfirm(s, r) == Some(None)
  {
    hide SnapshotOk, DataOk, RowOk, ProcessOk, Tidy;
    VerifyingWorld(s, r);
  }

  /** From verification to the requested commit. */
  lemma ToCommit(s: World) returns (actions: seq<Action>, t: World)
    requires AtVerification(s)
    ensures Continues(s, actions, t) && AtCommit(t)
  {
    hide Inv, Tidy, ForwardAct, ForwardConfirm, Run;
    var u;
    actions, u := EvidenceArrives(s);
    VerifiedCan(u, u.journal.value);
    var more, v, q := CheckpointIsCompleted(u, u.journal.value);
    Then(s, actions, u, more, v);
    actions := actions + more;
    VerifiedGoesOn(v, q);
    var last, w, p := CheckpointIsCompleted(v, q);
    Then(s, actions, v, last, w);
    CommitFollows(w, p);
    actions, t := actions + last, w;
  }

  lemma VerifiedGoesOn(s: World, r: Record)
    requires r.checkpoint.CandidateVerified?
    ensures ForwardAct(s, r) == Some(s) && ForwardConfirm(s, r) == Some(None)
  {
  }

  ghost predicate AtCommit(s: World) {
    OnCourse(s) && s.journal.Some? && s.journal.value.checkpoint.CommitPoint? && s.journal.value.status.CommitRequested?
  }

  lemma CommitFollows(s: World, r: Record)
    requires OnCourse(s) && s.journal == Some(r) && r.checkpoint.CommitPoint? && AtWork(s, r)
    ensures AtCommit(s)
  {
    hide SourceOk, CandidateOk, MarkersOk, RecordsInv, Tidy;
  }

  // ---- commit and end ----------------------------------------------------------------------

  ghost predicate Committed(s: World) {
    AtCommit(s) && RowOf(s.files).Success? && s.marker.None? && s.evidence.None? && !s.handoff
  }

  lemma CommitWorld(s: World)
    requires AtCommit(s)
    ensures DataDirectory(s.files) && CandidateRuns(s)
    ensures s.marker.None? ==> Committed(s)
    ensures RowOf(s.files).Success? || (s.marker.Some? && s.evidence == s.marker)
  {
    hide SourceOk, SnapshotOk, DataOk, ProcessOk;
  }

  lemma CommitReconciles(s: World, r: Record) returns (t: World)
    requires AtCommit(s) && s.journal == Some(r) && s.reconciler == Sampled(Status.CommitRequested)
    ensures Step(s, ReconcileSample(true)) == Some(t) && t.reconciler == Cleaning(0)
    ensures DataDirectory(t.files) && RowOf(t.files).Success? && t.marker == s.marker
  {
    hide ContainersInv, SnapshotOk, DataOk, ProcessOk;
    CommitWorld(s);
    t := ReconcileStep(s, true).value;
  }

  lemma StaysAtCommit(s: World, a: Action, t: World)
    requires AtCommit(s) && Undisturbing(a) && !a.Coordinate? && !a.Forward? && Step(s, a) == Some(t)
    ensures AtCommit(t) && Continues(s, [a], t) && Aside(s, t)
  {
    hide Inv, Tidy, AtWork, Step;
    AsideKeepsCourse(s, a, t);
    AsideStep(s, a, t);
    Once(s, a, t);
  }

  lemma CleanedAway(s: World) returns (actions: seq<Action>, t: World)
    requires AtCommit(s) && s.reconciler == Cleaning(0)
    ensures Continues(s, actions, t) && AtCommit(t) && t.marker.None? && Aside(s, t)
  {
    hide OnCourse;
    var u := s.(evidence := None, reconciler := Cleaning(1));
    var v := u.(handoff := false, reconciler := Cleaning(2));
    t := v.(marker := None, reconciler := Resting);
    StaysAtCommit(s, CleanupFile, u);
    StaysAtCommit(u, CleanupFile, v);
    StaysAtCommit(v, CleanupFile, t);
    Then(s, [CleanupFile], u, [CleanupFile], v);
    Then(s, [CleanupFile] + [CleanupFile], v, [CleanupFile], t);
    actions := [CleanupFile] + [CleanupFile] + [CleanupFile];
  }

  lemma RowIsCommitted(s: World) returns (actions: seq<Action>, t: World)
    requires AtCommit(s)
    ensures Continues(s, actions, t) && Committed(t)
  {
    hide Inv, Tidy, AtWork, Step;
    actions, t := ReconcilerRests(s);
    CommitWorld(t);
    if t.marker.None? {
      return;
    }
    var u := t.(reconciler := Sampled(Status.CommitRequested));
    SampleIsTaken(t, t.journal.value);
    StaysAtCommit(t, Sample, u);
    Then(s, actions, t, [Sample], u);
    var v := CommitReconciles(u, u.journal.value);
    StaysAtCommit(u, ReconcileSample(true), v);
    Then(s, actions + [Sample], u, [ReconcileSample(true)], v);
    var more;
    more, t := CleanedAway(v);
    Then(s, actions + [Sample] + [ReconcileSample(true)], v, more, t);
    CommitWorld(t);
    actions := actions + [Sample] + [ReconcileSample(true)] + more;
  }

  ghost predicate Succeeded(s: World) {
    && s.journal.Some? && s.journal.value.status.Success? && DataDirectory(s.files) && RowOf(s.files).Success?
    && s.source.None? && CandidateRuns(s) && s.marker.None? && s.coordinator.Idle?
  }

  lemma ToTheEnd(s: World) returns (actions: seq<Action>, t: World)
    requires AtCommit(s)
    ensures Continues(s, actions, t) && Succeeded(t)
  {
    hide Inv, Tidy, ForwardAct, ForwardConfirm, Run, AtWork;
    var u;
    actions, u := RowIsCommitted(s);
    var r := u.journal.value;
    CommitGoesOn(u, r);
    var more, v, q := CheckpointIsCompleted(u, r);
    Then(s, actions, u, more, v);
    actions := actions + more;
    var last;
    last, t := OldIsCleanedUp(v);
    Then(s, actions, v, last, t);
    actions := actions + last;
  }

  lemma CommitGoesOn(s: World, r: Record)
    requires Committed(s) && s.journal == Some(r)
    ensures ForwardAct(s, r) == Some(s) && ForwardConfirm(s, r) == Some(None)
  {
    hide AtWork, Tidy;
    CommitIsSeen(s, r);
  }

  lemma OldIsCleanedUp(s: World) returns (actions: seq<Action>, t: World)
    requires OnCourse(s) && s.journal.Some? && s.journal.value.status.Success?
    ensures Continues(s, actions, t) && Succeeded(t)
  {
    hide ContainersInv, RecordsInv, Tidy, ObserveSource, AtWork;
    SuccessWorld(s);
    if s.coordinator.Idle? {
      RunNone(s);
      return [], s;
    }
    OldIsRecognised(s, s.journal.value);
    t := At(s.(source := None), Idle);
    assert Step(s, Forward) == Some(t);
    Once(s, Forward, t);
    actions := [Forward];
  }

  lemma SuccessWorld(s: World)
    requires Inv(s) && s.journal.Some? && s.journal.value.status.Success?
    ensures DataDirectory(s.files) && RowOf(s.files).Success?
  {
    hide SourceOk, CandidateOk, MarkersOk, SnapshotOk, DataOk, ProcessOk;
  }

  // ---- the theorem -------------------------------------------------------------------------

  lemma Begun(s: World, id: nat) returns (actions: seq<Action>, t: World, r: Record)
    requires OnCourse(s) && s.journal.None?
    ensures Continues(s, actions, t) && OnCourse(t) && t.journal == Some(r) && !r.status.Success? && OnItsOwn(r)
  {
    hide RecordsInv, Tidy, AtWork;
    var u := s;
    actions := [];
    RunNone(s);
    if s.coordinator.Idle? {
      u := At(s, Forwarding(id, Begin));
      assert Step(s, Coordinate(id)) == Some(u);
      Once(s, Coordinate(id), u);
      CoordinateKeepsCourse(s, id, u);
      actions := [Coordinate(id)];
    }
    r := StartRecord(u.coordinator.id);
    t := u.(journal := Some(r));
    assert Step(u, Forward) == Some(t);
    Once(u, Forward, t);
    ForwardKeepsCourse(u, t);
    Then(s, actions, u, [Forward], t);
    actions := actions + [Forward];
  }

  lemma FromTheRecord(s: World, r: Record) returns (actions: seq<Action>, t: World)
    requires OnCourse(s) && s.journal == Some(r)
    ensures Continues(s, actions, t) && Succeeded(t)
  {
    hide ContainersInv, RecordsInv, Tidy, Run;
    if r.status.Success? {
      actions, t := OldIsCleanedUp(s);
      return;
    }
    RecordIsForward(s, r);
    var u := s;
    actions := [];
    RunNone(s);
    if OnItsOwn(r) {
      actions, u := ToVerification(s, r);
    }
    if AtVerification(u) {
      var more, v := ToCommit(u);
      Then(s, actions, u, more, v);
      actions, u := actions + more, v;
    } else if u.journal.value.checkpoint.CandidateVerified? {
      VerifiedGoesOn(u, r);
      var more, v, q := CheckpointIsCompleted(u, r);
      Then(s, actions, u, more, v);
      CommitFollows(v, q);
      actions, u := actions + more, v;
    } else {
      CommitFollows(u, r);
    }
    var last;
    last, t := ToTheEnd(u);
    Then(s, actions, u, last, t);
    actions := actions + last;
  }

  lemma RecordIsForward(s: World, r: Record)
    requires OnCourse(s) && s.journal == Some(r) && !r.status.Success?
    ensures OnItsOwn(r) || AtVerification(s) || r.checkpoint.CandidateVerified? || r.checkpoint.CommitPoint?
  {
    hide SourceOk, CandidateOk, MarkersOk, RecordsInv, Tidy;
  }

  /**
   No dead ends. After any undisturbed run from a hand-over, in whatever order its actions came, the
   update can still be completed by actions of the same kind: row and journal at success, the old
   container gone and the new one running.
   */
  lemma {:induction false} UndisturbedUpdatesNeverGetStuck(s: World, actions: seq<Action>) returns (more: seq<Action>)
    requires Initial(s) && Undisturbed(actions)
    ensures Undisturbed(more) && Succeeded(Run(s, actions + more))
  {
    hide OnCourse, Run, Succeeded;
    StaysOnCourse(s, actions);
    var here := Run(s, actions);
    var t;
    if here.journal.None? {
      var r;
      more, t, r := Begun(here, 0);
      var rest, u := FromTheRecord(t, r);
      Then(here, more, t, rest, u);
      more, t := more + rest, u;
    } else {
      more, t := FromTheRecord(here, here.journal.value);
    }
    RunAppend(s, actions, more);
  }
}
