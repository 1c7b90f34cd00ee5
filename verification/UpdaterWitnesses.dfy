/**
 The cases of RollbackIsARedoLog and InterruptedUpdateEnds happen: from each hand-over there are runs
 into a world with a restarted candidate, into worlds whose old container exited before and after its
 verification, into two whose recovery is exhausted, and into the gap between the rename and its
 checkpoint.
 */
module UpdaterWitnesses {
  import opened Prelude
  import opened UpdateJournal
  import opened UpdateSnapshot
  import opened UpdaterWorld
  import opened UpdaterInvariant
  import opened UpdaterSafety
  import opened UpdaterInterruption
  import opened UpdaterRecovery
  import opened UpdaterExecutors
  import opened UpdaterProgress

  /** A prefix of the undisturbed run reaches the beginning of each later checkpoint. */
  lemma {:induction false} UndoReaches(s: World, k: nat) returns (trace: seq<Action>, t: World)
    requires Undoing(s) && OnTrack(s, true) && s.journal.value.checkpoint.Index() <= k <= 19
    requires s.journal.value.checkpoint.Index() == k ==> s.coordinator.stage.Begin?
    ensures Run(s, trace) == t && Undoing(t) && OnTrack(t, true)
    ensures t.journal.value.checkpoint.Index() == k && t.coordinator.stage.Begin? && t.coordinator.id == s.coordinator.id
    ensures k <= 11 && s.candidate.Some? ==> t.candidate.Some?
    decreases 20 - s.journal.value.checkpoint.Index(), StageRank(s)
  {
    hide Inv, OnTrack, RollbackStep;
    if s.journal.value.checkpoint.Index() == k {
      RunNone(s);
      return [], s;
    }
    var next := OneStepOn(s, k);
    var rest;
    rest, t := UndoReaches(next, k);
    trace := [Rollback(true)] + rest;
    RunOne(s, Rollback(true));
    RunAppend(s, [Rollback(true)], rest);
  }

  lemma OneStepOn(s: World, k: nat) returns (t: World)
    requires Undoing(s) && OnTrack(s, true) && s.journal.value.checkpoint.Index() < k <= 19
    ensures t == RollbackStep(s, true) && Undoing(t) && OnTrack(t, true) && t.coordinator.id == s.coordinator.id
    ensures var i, j := s.journal.value.checkpoint.Index(), t.journal.value.checkpoint.Index();
            j <= k && (j == k ==> t.coordinator.stage.Begin?) && (j > i || (j == i && StageRank(t) < StageRank(s)))
    ensures k <= 11 && s.candidate.Some? ==> t.candidate.Some?
  {
    hide Inv, RestorePlan;
    t := RollbackStep(s, true);
    OnTrackStep(s, true);
    UndoProgress(s, true);
    StepMovesOne(s);
  }

  lemma StepMovesOne(s: World)
    requires Undoing(s) && s.journal.value.checkpoint.Index() < 19 && OnTrack(s, true)
    ensures var t, i := RollbackStep(s, true), s.journal.value.checkpoint.Index();
            && t.coordinator.Reverting? && t.coordinator.id == s.coordinator.id && t.journal.Some?
            && (t.journal.value.checkpoint.Index() == i
                || (t.journal.value.checkpoint.Index() == i + 1 && t.coordinator.stage.Begin?))
            && (i == 10 && s.candidate.Some? ==> t.candidate.Some?)
  {
    hide EnterRollback, ObserveSource, ObserveCandidate, Verified;
    hide ContainersInv, RecordsInv, RestorePlan, RollbackAct, RollbackConfirm, CheckpointV2, OnTrack;
    var r := s.journal.value;
    OnTrackStep(s, true);
    FailureIsRecorded(s, r);
    if RollbackAct(s, r).Some? {
      ActKeepsRecords(s, r, RollbackAct(s, r).value);
      ActKeepsCandidate(s, r, RollbackAct(s, r).value);
    }
    if s.coordinator.stage.Confirmed? {
      RollbackWriteIsAccepted(s, r);
      RollbackWriteAdvances(r);
    }
  }

  lemma ActKeepsCandidate(s: World, r: Record, t: World)
    requires RollbackAct(s, r) == Some(t) && s.coordinator.Reverting?
    ensures t.coordinator == s.coordinator && (r.checkpoint.RollbackStarted? && s.candidate.Some? ==> t.candidate.Some?)
  {
    hide ObserveSource, ObserveCandidate;
  }

  /** From a hand-over the protocol can begin any rollback checkpoint with everything in order. */
  lemma {:induction false} RollbackCanReach(s: World, id: nat, k: nat) returns (actions: seq<Action>, t: World)
    requires Initial(s) && 10 <= k <= 19
    ensures Run(s, actions) == t && Undoing(t) && OnTrack(t, true)
    ensures t.journal.value.checkpoint.Index() == k && t.coordinator.stage.Begin?
    ensures k <= 11 ==> t.candidate.Some?
  {
    hide Inv, Step, OnTrack;
    var first, r := FirstRecord(s, id);
    var up, here, q := ReachesVerifying(first, id, r);
    actions := [Coordinate(id)] + [Forward] + up;
    Two(s, [Coordinate(id)] + [Forward], first, up, here);
    var crashed := At(here, Idle);
    OneMoreCrash(s, actions, here);
    actions := actions + [Crash];
    CrashedIsReversible(here, id, q);
    var begun, start := EntryRun(s, actions, q, id, true);
    BeginsOnTrack(start);
    var rest;
    rest, t := UndoReaches(start, k);
    Two(s, actions + begun, start, rest, t);
    actions := actions + begun + rest;
  }

  lemma OneMoreCrash(s: World, actions: seq<Action>, t: World)
    requires Run(s, actions) == t && Inv(t)
    ensures Run(s, actions + [Crash]) == At(t, Idle) && Inv(At(t, Idle))
  {
    hide Inv;
    OneMore(s, actions, Crash, At(t, Idle));
    StepInv(t, Crash);
  }

  lemma CrashedIsReversible(s: World, id: nat, r: Record)
    requires Ready(s, id, r) && r.checkpoint.CandidateStarted? && r.status.Verifying?
    ensures Reversible(At(s, Idle), r) && !Exhausted(r, id)
  {
    hide CandidateOk, MarkersOk, SnapshotOk, DataOk, RowOk;
  }

  lemma BeginsOnTrack(s: World)
    requires Undoing(s) && s.coordinator.stage.Begin? && s.journal.value.checkpoint.RollbackStarted?
    ensures OnTrack(s, true)
  {
    hide Inv;
  }

  /** A world without a coordinator whose journal is rolling back, as RollbackIsARedoLog asks for. */
  ghost predicate Interrupted(s: World) {
    s.coordinator.Idle? && s.journal.Some? && s.journal.value.status.RollingBack?
  }

  /** The coordinator dies at the beginning of a checkpoint and then something else happens. */
  lemma CrashThen(s: World, actions: seq<Action>, t: World, a: Action, u: World)
    requires Run(s, actions) == t && Step(At(t, Idle), a) == Some(u)
    ensures Run(s, actions + [Crash] + [a]) == u
  {
    hide Step;
    RunOne(t, Crash);
    CrashIsPossible(t);
    Two(s, actions, t, [Crash], At(t, Idle));
    RunOne(At(t, Idle), a);
    Two(s, actions + [Crash], At(t, Idle), [a], u);
  }

  lemma CrashIsPossible(t: World)
    ensures Step(t, Crash) == Some(At(t, Idle))
  {
  }

  /** What holds at the beginning of a checkpoint on the track. */
  lemma AtCheckpoint(t: World)
    requires Undoing(t) && OnTrack(t, true) && t.coordinator.stage.Begin?
    ensures Interrupted(At(t, Idle))
    ensures var i := t.journal.value.checkpoint.Index();
            && (i == 11 ==> !CandidateRuns(t) && t.journal.value.checkpoint.CandidateStopped?)
            && (i == 17 ==> OldRuns(t) && t.journal.value.checkpoint.OldStarted?)
            && (i >= 17 ==> OldRuns(t))
  {
    hide Inv;
  }

  /** Blocked: Docker restarts the candidate after its stop was recorded. */
  lemma CandidateCanComeBack(s: World, id: nat) returns (actions: seq<Action>)
    requires Initial(s)
    ensures var here := Run(s, actions);
            Interrupted(here) && here.journal.value.checkpoint.CandidateStopped? && CandidateRuns(here)
  {
    hide Inv, Undoing, OnTrack;
    var t;
    actions, t := RollbackCanReach(s, id, 11);
    AtCheckpoint(t);
    CrashThen(s, actions, t, DockerStartsCandidate, StartCandidate(At(t, Idle)));
    actions := actions + [Crash] + [DockerStartsCandidate];
  }

  /**
   The old container can exit after its start was recorded, which blocks the rollback, and also
   after it was verified, which does not and leaves it down.
   */
  lemma OldCanExit(s: World, id: nat, k: nat) returns (actions: seq<Action>)
    requires Initial(s) && 17 <= k <= 19
    ensures var here := Run(s, actions);
            && Interrupted(here) && here.journal.value.checkpoint.Index() == k && !OldRuns(here)
            && (Blocked(here, here.journal.value) <==> k == 17)
            && !OldWillRun(here, here.journal.value, here.journal.value.coordinator)
  {
    hide Inv, Undoing, OnTrack;
    var t;
    actions, t := RollbackCanReach(s, id, k);
    AtCheckpoint(t);
    var h := At(t, Idle);
    CrashThen(s, actions, t, OldExits, StopOld(h));
    actions := actions + [Crash] + [OldExits];
  }

  /** A world without a coordinator whose journal is open in either direction. */
  ghost predicate Stalled(s: World) {
    && s.coordinator.Idle? && s.journal.Some?
    && !s.journal.value.status.Terminal() && !s.journal.value.status.CommitRequested?
  }

  /** Takeovers by other coordinators that die at once use up the generations. */
  lemma {:induction false} GenerationsRunOut(s: World, actions: seq<Action>) returns (more: seq<Action>)
    requires Inv(Run(s, actions)) && Stalled(Run(s, actions))
    ensures var here, r := Run(s, actions + more), Run(s, actions).journal.value;
            && Stalled(here) && here.journal.value.status == r.status && here.journal.value.checkpoint == r.checkpoint
            && forall id: nat :: id != here.journal.value.coordinator ==> Exhausted(here.journal.value, id)
    decreases MAX_RECOVERY_GENERATION - Run(s, actions).journal.value.generation
  {
    hide Inv, Step, Run;
    var here := Run(s, actions);
    var r := here.journal.value;
    if r.generation >= MAX_RECOVERY_GENERATION {
      assert actions + [] == actions;
      return [];
    }
    var id := r.coordinator + 1;
    var q := TakenOverOnce(here, r, id);
    var t := At(here.(journal := Some(q)), Deciding(id, Observe(here, r)));
    OneMore(s, actions, Coordinate(id), t);
    StepInv(here, Coordinate(id));
    OneMoreCrash(s, actions + [Coordinate(id)], t);
    var rest := GenerationsRunOut(s, actions + [Coordinate(id)] + [Crash]);
    more := [Coordinate(id)] + [Crash] + rest;
    assert actions + [Coordinate(id)] + [Crash] + rest == actions + more;
  }

  lemma TakenOverOnce(s: World, r: Record, id: nat) returns (q: Record)
    requires Inv(s) && s.coordinator.Idle? && s.journal == Some(r) && id != r.coordinator
    requires !r.status.Terminal() && !r.status.CommitRequested? && r.generation < MAX_RECOVERY_GENERATION
    ensures Step(s, Coordinate(id)) == Some(At(s.(journal := Some(q)), Deciding(id, Observe(s, r))))
    ensures q.generation == r.generation + 1 && q.status == r.status && q.checkpoint == r.checkpoint
  {
    hide ContainersInv, RecordsInv, ObserveSource, ObserveCandidate;
    HandoffIsThere(s, r);
    q := TakenOver(s, r, id);
  }

  /** Exhausted: no coordinator but the recorded one may take over any more. */
  lemma RecoveryCanBeExhausted(s: World, id: nat) returns (actions: seq<Action>)
    requires Initial(s)
    ensures var here := Run(s, actions);
            Interrupted(here) && Exhausted(here.journal.value, here.journal.value.coordinator + 1)
  {
    hide Inv, Undoing, OnTrack, Step;
    var t;
    actions, t := RollbackCanReach(s, id, 10);
    AtCheckpoint(t);
    UndoingIsInv(t);
    OneMoreCrash(s, actions, t);
    var more := GenerationsRunOut(s, actions + [Crash]);
    assert actions + [Crash] + more == actions + ([Crash] + more);
    actions := actions + ([Crash] + more);
  }

  /** The same for an update whose candidate is being verified: its rollback fails before it begins. */
  lemma {:induction false} ForwardRecoveryCanBeExhausted(s: World, id: nat) returns (actions: seq<Action>, r: Record)
    requires Initial(s)
    ensures var here := Run(s, actions);
            here.coordinator.Idle? && here.journal == Some(r) && r.status.Verifying? && Exhausted(r, r.coordinator + 1)
  {
    hide Inv, Step, Run, Initial;
    var first, begun := FirstRecord(s, id);
    var up, here, q := ReachesVerifying(first, id, begun);
    Two(s, [Coordinate(id)] + [Forward], first, up, here);
    actions := [Coordinate(id)] + [Forward] + up;
    OneMoreCrash(s, actions, here);
    var more := GenerationsRunOut(s, actions + [Crash]);
    assert actions + [Crash] + more == actions + ([Crash] + more);
    actions := actions + ([Crash] + more);
    r := Run(s, actions).journal.value;
  }

  lemma UndoingIsInv(t: World)
    requires Undoing(t)
    ensures Inv(t)
  {
  }

  // ---- the rename gap ----------------------------------------------------------------------

  /** Whole turns of the forward loop reach the beginning of each earlier checkpoint. */
  lemma {:induction false} ForwardReaches(s: World, id: nat, r: Record, k: nat) returns (actions: seq<Action>, t: World, q: Record)
    requires Ready(s, id, r) && s.reconciler.Resting? && r.checkpoint.Index() <= k <= 6
    ensures Run(s, actions) == t && Ready(t, id, q) && q.checkpoint.Index() == k
    decreases k - r.checkpoint.Index()
  {
    hide Inv, Run;
    if r.checkpoint.Index() == k {
      RunNone(s);
      return [], s, r;
    }
    var next, p;
    actions, next, p := OwnTurn(s, id, r);
    var rest;
    rest, t, q := ForwardReaches(next, id, p, k);
    RunAppend(s, actions, rest);
    actions := actions + rest;
  }

  lemma RenameIsNotRecorded(s: World, id: nat, r: Record) returns (t: World)
    requires Ready(s, id, r) && r.checkpoint.SnapshotVerified?
    ensures Step(s, Forward) == Some(t) && t.journal == Some(r) && !ObserveSource(t, r).Matched?
    ensures r.status.Snapshotting? && r.coordinator == id
  {
    hide MarkersOk, SnapshotOk, DataOk, RowOk;
    t := ForwardStep(s).value;
  }

  /**
   A crash between the rename of the old container and its checkpoint leaves a world in which
   MisnamedOldContainerStopsRecovery applies, even to the coordinator that is recorded.
   */
  lemma {:induction false} RenameGapIsReachable(s: World, id: nat) returns (actions: seq<Action>, r: Record)
    requires Initial(s)
    ensures var here := Run(s, actions);
            && here.coordinator.Idle? && here.journal == Some(r) && r.status.Snapshotting? && !Exhausted(r, id)
            && !ObserveSource(here, r).Matched?
  {
    hide Inv, Step, Run, Initial;
    var first, begun := FirstRecord(s, id);
    var rest, t, q := ForwardReaches(first, id, begun, 4);
    Two(s, [Coordinate(id)] + [Forward], first, rest, t);
    r := q;
    var renamed := RenameIsNotRecorded(t, id, r);
    CrashIsPossible(renamed);
    OneMore(s, [Coordinate(id)] + [Forward] + rest, Forward, renamed);
    OneMore(s, [Coordinate(id)] + [Forward] + rest + [Forward], Crash, At(renamed, Idle));
    SameName(renamed, At(renamed, Idle), r, r);
    actions := [Coordinate(id)] + [Forward] + rest + [Forward] + [Crash];
  }
}
