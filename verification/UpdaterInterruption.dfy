/**
 Updates interrupted before any rollback began. From any reachable world with an open forward record
 and no coordinator, the next coordinator, if nobody disturbs it, ends in one of four ways; status,
 generation and the name and running flag of the old container decide which.
 */
module UpdaterInterruption {
  import opened Prelude
  import opened UpdateJournal
  import opened UpdaterWorld
  import opened UpdaterInvariant
  import opened UpdaterSafety
  import opened UpdaterRecovery

  // ---- into the rollback -------------------------------------------------------------------

  /** The recovery decision begins a rollback, and nothing about the scene stops it. */
  ghost predicate Reversible(s: World, r: Record) {
    && s.coordinator.Idle? && s.journal == Some(r)
    && (r.status.Switching? || r.status.Verifying? || (r.status.Snapshotting? && !OldRuns(s)))
    && ObserveSource(s, r).Matched?
  }

  lemma SceneToRevert(s: World, r: Record)
    requires Inv(s) && Reversible(s, r)
    ensures s.handoff && !ObserveCandidate(s, r).Conflict?
    ensures ObserveSource(s, r).running ==> OldRuns(s)
  {
    hide SnapshotOk, DataOk, ProcessOk;
  }

  /** The record under which this coordinator goes on. */
  lemma TakenOver(s: World, r: Record, id: nat) returns (q: Record)
    requires Inv(s) && s.journal == Some(r) && !r.status.Terminal() && !Exhausted(r, id)
    ensures q == if id == r.coordinator then r
                 else r.(sequence := r.sequence + 1, generation := r.generation + 1, coordinator := id)
    ensures q.coordinator == id && (id != r.coordinator ==> TakeoverV2(r, id) == Ok(q))
  {
    hide SourceOk, CandidateOk, MarkersOk, RecordsInv;
    q := if id == r.coordinator then r else r.(sequence := r.sequence + 1, generation := r.generation + 1, coordinator := id);
  }

  /** The coordinator takes over, decides to roll back and writes the first rollback checkpoint. */
  lemma BeginsRollback(s: World, r: Record, id: nat) returns (q: Record, start: World)
    requires Inv(s) && Reversible(s, r) && !Exhausted(r, id)
    ensures Step(s, Coordinate(id)) == Some(At(s.(journal := Some(q)), Deciding(id, Observe(s, r))))
    ensures start == At(s.(journal := Some(q)), Reverting(id, Begin))
    ensures Step(At(s.(journal := Some(q)), Deciding(id, Observe(s, r))), Coordinate(id)) == Some(start)
    ensures Inv(start) && !q.status.RollingBack? && q.checkpoint == r.checkpoint && !q.status.Terminal()
  {
    hide ContainersInv, RecordsInv, ObserveSource, ObserveCandidate;
    var scene := Observe(s, r);
    SceneToRevert(s, r);
    q := TakenOver(s, r, id);
    CoordinateInv(s, id);
    start := At(s.(journal := Some(q)), Reverting(id, Begin));
    DispatchInv(At(s.(journal := Some(q)), Deciding(id, scene)), q);
  }

  /** The three steps of entering, on a stopped old container under the expected name. */
  lemma Enters(s: World, r: Record, healthy: bool) returns (t: World, u: World, v: World)
    requires Inv(s) && s.coordinator.Reverting? && s.coordinator.stage.Begin? && s.journal == Some(r) && !r.status.RollingBack?
    requires ObserveSource(s, r).Matched? && !OldRuns(s)
    ensures t == RollbackStep(s, healthy) && t.coordinator.Reverting? && t.journal.Some?
    ensures u == RollbackStep(t, healthy) && u.coordinator.Reverting? && u.journal.Some?
    ensures v == RollbackStep(u, healthy) && Undoing(v) && v.coordinator.stage.Begin? && v.journal.value.checkpoint.RollbackStarted?
    ensures v.source == s.source && v.candidate == s.candidate && v.coordinator.id == s.coordinator.id
  {
    hide ContainersInv, RecordsInv, ObserveCandidate, CheckpointV2;
    EntryIsPrepared(s, r);
    t := RollbackStep(s, healthy);
    RollbackInv(s, r, healthy);
    EntryIsObserved(t, r);
    u := RollbackStep(t, healthy);
    RollbackInv(t, r, healthy);
    EnterWriteIsAccepted(u, r);
    v := RollbackStep(u, healthy);
    RollbackInv(u, r, healthy);
    WrittenRollback(u, r);
  }

  lemma EntryIsPrepared(s: World, r: Record)
    requires Inv(s) && s.coordinator.Reverting? && s.coordinator.stage.Begin? && s.journal == Some(r) && !r.status.RollingBack?
    ensures var t := EnterRollback(s, r);
            && t == At(EnsureMarker(s), Reverting(s.coordinator.id, Acted))
  {
    hide SnapshotOk, DataOk, CandidateOk;
  }

  lemma EntryIsObserved(s: World, r: Record)
    requires Inv(s) && s.coordinator.Reverting? && s.coordinator.stage.Acted? && s.journal == Some(r) && !r.status.RollingBack?
    requires ObserveSource(s, r).Matched? && !OldRuns(s)
    ensures var t := EnterRollback(s, r);
            && t.coordinator.Reverting? && t.coordinator.stage.Confirmed? && t.coordinator.id == s.coordinator.id
            && t == At(s, t.coordinator)
  {
    hide SnapshotOk, DataOk, RowOk;
  }

  lemma WrittenRollback(s: World, r: Record)
    requires s.coordinator.Reverting? && s.coordinator.stage.Confirmed? && s.marker.Some?
    requires CheckpointV2(r, EnterWrite(s, s.coordinator.stage.carried)).Ok?
    ensures var q := CheckpointV2(r, EnterWrite(s, s.coordinator.stage.carried)).value;
            q.status.RollingBack? && q.checkpoint.RollbackStarted?
  {
  }

  /** Under an unexpected name the coordinator stops for manual recovery instead and leaves the status as it is. */
  lemma MisnamedOldContainerStopsRecovery(s: World, r: Record, id: nat)
    requires Inv(s) && s.coordinator.Idle? && s.journal == Some(r) && !Exhausted(r, id)
    requires (r.status.Switching? || r.status.Verifying? || r.status.Snapshotting?) && !ObserveSource(s, r).Matched?
    ensures var t := Step(s, Coordinate(id));
            && t.Some? && t.value.coordinator == Deciding(id, Observe(s, r))
            && Step(t.value, Coordinate(id)) == Some(At(t.value, Idle))
            && t.value.journal.Some? && t.value.journal.value.status == r.status && t.value.source == s.source
  {
    hide ContainersInv, ObserveSource, ObserveCandidate;
    var q := TakenOver(s, r, id);
    HandoffIsThere(s, r);
  }

  lemma HandoffIsThere(s: World, r: Record)
    requires Inv(s) && s.journal == Some(r) && !r.status.Terminal() && !r.status.CommitRequested?
    ensures s.handoff
  {
    hide SourceOk, CandidateOk, SnapshotOk, DataOk, ProcessOk;
  }

  lemma {:induction false} EntryRun(s: World, actions: seq<Action>, r: Record, id: nat, healthy: bool)
    returns (more: seq<Action>, start: World)
    requires Inv(Run(s, actions)) && Reversible(Run(s, actions), r) && !Exhausted(r, id)
    ensures forall a <- more :: OwnAction(a, id, healthy)
    ensures Run(s, actions + more) == start && Undoing(start) && start.coordinator.stage.Begin?
    ensures start.journal.value.checkpoint.RollbackStarted? && start.candidate == Run(s, actions).candidate
    ensures start.source == Run(s, actions).source
  {
    hide Inv, Step, RollbackStep, Observe, ObserveCandidate;
    var here := Run(s, actions);
    var q, begin := BeginsRollback(here, r, id);
    OldIsStopped(here, r);
    TwoMore(s, actions, Coordinate(id), At(here.(journal := Some(q)), Deciding(id, Observe(here, r))), begin);
    SameName(here, begin, r, q);
    var t, u, v := Enters(begin, q, healthy);
    var two, step := actions + [Coordinate(id), Coordinate(id)], Rollback(healthy);
    RollbackOnce(s, two, begin, t, healthy);
    RollbackOnce(s, two + [step], t, u, healthy);
    RollbackOnce(s, two + [step] + [step], u, v, healthy);
    more := [Coordinate(id), Coordinate(id)] + [step] + [step] + [step];
    assert two + [step] + [step] + [step] == actions + more;
    start := v;
  }

  lemma OneMore(s: World, actions: seq<Action>, a: Action, t: World)
    requires Step(Run(s, actions), a) == Some(t)
    ensures Run(s, actions + [a]) == t
  {
    assert (actions + [a])[..|actions|] == actions;
  }

  lemma RollbackOnce(s: World, actions: seq<Action>, t: World, u: World, healthy: bool)
    requires Run(s, actions) == t && t.coordinator.Reverting? && t.journal.Some? && u == RollbackStep(t, healthy)
    ensures Run(s, actions + [Rollback(healthy)]) == u
  {
    hide RollbackStep;
    OneMore(s, actions, Rollback(healthy), u);
  }

  lemma SameName(s: World, t: World, r: Record, q: Record)
    requires t.source == s.source && q.checkpoint == r.checkpoint
    ensures ObserveSource(t, q) == ObserveSource(s, r)
  {
  }

  lemma OldIsStopped(s: World, r: Record)
    requires Inv(s) && Reversible(s, r)
    ensures !OldRuns(s)
  {
    hide MarkersOk, SnapshotOk, DataOk, RowOk, ProcessOk;
  }

  // ---- beyond the last generation ----------------------------------------------------------

  /** A record of the forward direction before the commit request. */
  predicate Open(r: Record) {
    r.status.Snapshotting? || r.status.Switching? || r.status.Verifying?
  }

  lemma ExhaustionBegins(s: World, r: Record, id: nat)
    requires Inv(s) && s.coordinator.Idle? && s.journal == Some(r) && Open(r) && Exhausted(r, id)
    ensures Step(s, Coordinate(id)) == Some(At(s, Exhausting(id))) && Inv(At(s, Exhausting(id)))
  {
    hide SourceOk, CandidateOk, SnapshotOk, DataOk;
    HandoffIsThere(s, r);
    CoordinateInv(s, id);
  }

  lemma ExhaustionPrepares(s: World, r: Record, id: nat)
    requires Inv(s) && s.coordinator == Exhausting(id) && s.journal == Some(r) && Open(r) && s.marker.None?
    ensures Step(s, Coordinate(id)) == Some(EnsureMarker(s)) && Inv(EnsureMarker(s))
  {
    hide ContainersInv, RecordsInv;
    ExhaustInv(s, r);
  }

  /** Beyond the last generation the coordinator enters the rollback all the same. */
  lemma ExhaustionEnters(s: World, r: Record, id: nat) returns (t: World, q: Record)
    requires Inv(s) && s.coordinator == Exhausting(id) && s.journal == Some(r) && Open(r) && s.marker.Some?
    ensures Step(s, Coordinate(id)) == Some(t) && Inv(t) && t == s.(journal := Some(q)) && q.status.RollingBack?
  {
    hide SourceOk, CandidateOk, SnapshotOk, DataOk;
    var w := Write(Status.RollingBack, RollbackStarted, Some(Sha256(s.marker.value)), r.candidateId, Some(true));
    q := CheckpointV2(r, w).value;
    t := s.(journal := Some(q));
    ExhaustInv(s, r);
  }

  lemma ExhaustionFails(s: World, r: Record, id: nat) returns (t: World)
    requires Inv(s) && s.coordinator == Exhausting(id) && s.journal == Some(r) && r.status.RollingBack?
    ensures Step(s, Coordinate(id)) == Some(t) && t.coordinator.Idle? && t.source == s.source
    ensures t.journal.Some? && t.journal.value.status.RollbackFailed?
  {
    hide ContainersInv, RecordsInv;
    FailureIsRecorded(s, r);
    t := RecordRollbackFailed(s, r);
  }

  lemma {:induction false} ExhaustedRun(s: World, actions: seq<Action>, r: Record, id: nat, healthy: bool)
    returns (more: seq<Action>, t: World)
    requires var here := Run(s, actions); Inv(here) && here.coordinator.Idle? && here.journal == Some(r)
    requires Open(r) && Exhausted(r, id)
    ensures forall a <- more :: OwnAction(a, id, healthy)
    ensures Run(s, actions + more) == t && t.coordinator.Idle? && t.source == Run(s, actions).source
    ensures t.journal.Some? && t.journal.value.status.RollbackFailed?
  {
    hide Inv, Step, Run, CheckpointV2;
    var a, here := Coordinate(id), Run(s, actions);
    ExhaustionBegins(here, r, id);
    var u := At(here, Exhausting(id));
    OneMore(s, actions, a, u);
    more := [a];
    if u.marker.None? {
      ExhaustionPrepares(u, r, id);
      OneMore(s, actions + more, a, EnsureMarker(u));
      assert actions + more + [a] == actions + (more + [a]);
      u, more := EnsureMarker(u), more + [a];
    }
    var v, q := ExhaustionEnters(u, r, id);
    t := ExhaustionFails(v, q, id);
    OneMore(s, actions + more, a, v);
    OneMore(s, actions + more + [a], a, t);
    assert actions + (more + [a] + [a]) == actions + more + [a] + [a];
    more := more + [a] + [a];
  }

  // ---- onwards -----------------------------------------------------------------------------

  /** A snapshot that had begun, the old container running still, is gone on with. */
  lemma SnapshottingGoesOn(s: World, r: Record, id: nat) returns (q: Record)
    requires Inv(s) && s.coordinator.Idle? && s.journal == Some(r) && r.status.Snapshotting? && !Exhausted(r, id)
    requires OldRuns(s) && ObserveSource(s, r).Matched?
    ensures Step(s, Coordinate(id)) == Some(At(s.(journal := Some(q)), Deciding(id, Observe(s, r))))
    ensures Step(At(s.(journal := Some(q)), Deciding(id, Observe(s, r))), Coordinate(id)) ==
            Some(At(s.(journal := Some(q)), Forwarding(id, Begin)))
    ensures q.status == r.status && q.checkpoint == r.checkpoint
  {
    hide SnapshotOk, DataOk, ProcessOk;
    HandoffIsThere(s, r);
    q := TakenOver(s, r, id);
  }

  /** A requested commit is gone on with by whoever may take over, the candidate started first. */
  lemma CommitGoesOn(s: World, r: Record, id: nat)
    requires Inv(s) && s.coordinator.Idle? && s.journal == Some(r) && r.status.CommitRequested?
    ensures !s.handoff || Exhausted(r, id) ==> Step(s, Coordinate(id)) == None
    ensures s.handoff && !Exhausted(r, id) ==>
              && Step(s, Coordinate(id)).Some?
              && var t := Step(Step(s, Coordinate(id)).value, Coordinate(id));
                 t.Some? && t.value.coordinator == Forwarding(id, Begin) && CandidateRuns(t.value)
                 && t.value.journal.Some? && t.value.journal.value.status.CommitRequested? && t.value.source == s.source
  {
    hide SnapshotOk, DataOk, RowOk;
    if s.handoff && !Exhausted(r, id) {
      var q := TakenOver(s, r, id);
    }
  }

  // ---- the theorem -------------------------------------------------------------------------

  lemma {:induction false} ReversibleIsRolledBack(s: World, actions: seq<Action>, r: Record, id: nat, healthy: bool)
    returns (more: seq<Action>)
    requires Inv(Run(s, actions)) && Reversible(Run(s, actions), r) && !Exhausted(r, id)
    ensures forall a <- more :: OwnAction(a, id, healthy)
    ensures if healthy then RolledBackAgain(Run(s, actions + more)) else JudgedUnhealthy(Run(s, actions + more))
  {
    hide Inv, Step, RollbackStep, Undo, ObserveSource, ObserveCandidate;
    var begun, start := EntryRun(s, actions, r, id, healthy);
    var rest := UndoIsARun(s, actions + begun, id, healthy);
    assert actions + begun + rest == actions + (begun + rest);
    UndoEnds(start, healthy);
    more := begun + rest;
  }

  /** The journal rolled back and the old container, alone, running under its name and policy. */
  ghost predicate RolledBackAgain(s: World) {
    && s.coordinator.Idle? && s.journal.Some? && s.journal.value.status.RolledBack?
    && OldRuns(s) && s.candidate.None? && s.source.value.name.OriginalName? && s.source.value.policy.OriginalPolicy?
  }

  /** What the run of the next coordinator leaves where it does not roll back. */
  ghost predicate LeftAlone(s: World, t: World, status: Status, c: Coordinator) {
    t.coordinator == c && t.journal.Some? && t.journal.value.status == status && t.source == s.source
  }

  /**
   An open update is rolled back by the next coordinator if and only if that coordinator may take
   over, the old container has the name of the checkpoint, it is not a snapshot whose old container
   still runs, and the restarted old container is found healthy. Otherwise: found unhealthy it is left
   running with a failed rollback recorded; beyond the last generation a failed rollback is recorded
   too, under an unexpected name nothing is decided, and that snapshot is gone on with, each with the
   old container as it is.
   */
  lemma {:induction false} InterruptedUpdateEnds(s: World, actions: seq<Action>, r: Record, id: nat, healthy: bool)
    returns (more: seq<Action>)
    requires Initial(s) && Run(s, actions).coordinator.Idle? && Run(s, actions).journal == Some(r) && Open(r)
    ensures forall a <- more :: OwnAction(a, id, healthy)
    ensures var here, done := Run(s, actions), Run(s, actions + more);
            var named, early := ObserveSource(here, r).Matched?, r.status.Snapshotting? && OldRuns(here);
            && (RolledBackAgain(done) <==> !Exhausted(r, id) && named && !early && healthy)
            && (!Exhausted(r, id) && named && !early && !healthy ==> JudgedUnhealthy(done))
            && (Exhausted(r, id) ==> LeftAlone(here, done, RollbackFailed, Idle))
            && (!Exhausted(r, id) && !named ==> LeftAlone(here, done, r.status, Idle))
            && (!Exhausted(r, id) && named && early ==> LeftAlone(here, done, r.status, Forwarding(id, Begin)))
  {
    hide Inv, Step, ObserveSource, ObserveCandidate;
    RunInv(s, actions);
    var here := Run(s, actions);
    if Exhausted(r, id) {
      var t;
      more, t := ExhaustedRun(s, actions, r, id, healthy);
    } else if !ObserveSource(here, r).Matched? {
      MisnamedOldContainerStopsRecovery(here, r, id);
      var t := Step(here, Coordinate(id)).value;
      TwoMore(s, actions, Coordinate(id), t, At(t, Idle));
      more := [Coordinate(id), Coordinate(id)];
    } else if r.status.Snapshotting? && OldRuns(here) {
      var q := SnapshottingGoesOn(here, r, id);
      var t := here.(journal := Some(q));
      TwoMore(s, actions, Coordinate(id), At(t, Deciding(id, Observe(here, r))), At(t, Forwarding(id, Begin)));
      more := [Coordinate(id), Coordinate(id)];
    } else {
      more := ReversibleIsRolledBack(s, actions, r, id, healthy);
    }
  }
}
