/**
 The `update_operations` table: which status may follow which, the single active slot, and
 the immutability of finished rows.
 */
module UpdateOperations {
  import opened Prelude

  datatype OperationStatus =
    | Checking | Available | Pulling | Draining | Handoff | Snapshotting | Switching | Verifying
    | RollingBack | Success | Failed | RolledBack | RollbackFailed | Cancelled
  {
    predicate Terminal() {
      Success? || Failed? || RolledBack? || RollbackFailed? || Cancelled?
    }
  }

  predicate Allowed(source: OperationStatus, target: OperationStatus) {
    match source
    case Checking => target.Available? || target.Failed? || target.Cancelled?
    case Available => target.Pulling? || target.Failed? || target.Cancelled?
    case Pulling => target.Draining? || target.Failed? || target.Cancelled?
    case Draining => target.Handoff? || target.Failed? || target.Cancelled?
    case Handoff => target.Snapshotting? || target.Failed?
    case Snapshotting => target.Switching? || target.RollingBack?
    case Switching => target.Verifying? || target.RollingBack?
    case Verifying => target.Success? || target.RollingBack?
    case RollingBack => target.RolledBack? || target.RollbackFailed?
    case _ => false
  }

  /** The course of an update that nothing stops. */
  const COURSE: seq<OperationStatus> := [
    Checking, Available, Pulling, Draining, Handoff, Snapshotting, Switching, Verifying, Success]

  lemma CourseMoves(source: OperationStatus, target: OperationStatus)
    ensures (exists k :: 0 <= k < 8 && source == COURSE[k] && target == COURSE[k + 1]) <==>
            match source
            case Checking => target.Available?
            case Available => target.Pulling?
            case Pulling => target.Draining?
            case Draining => target.Handoff?
            case Handoff => target.Snapshotting?
            case Snapshotting => target.Switching?
            case Switching => target.Verifying?
            case Verifying => target.Success?
            case _ => false
  {
    assert COURSE[0].Checking? && COURSE[1].Available? && COURSE[2].Pulling? && COURSE[3].Draining? && COURSE[4].Handoff?;
    assert COURSE[5].Snapshotting? && COURSE[6].Switching? && COURSE[7].Verifying? && COURSE[8].Success?;
  }

  /**
   A row moves to the next status of the course; until the hand-over it may fail, before the hand-over
   it may also be cancelled, and from the snapshot on it may only turn back, which ends well or not.
   */
  lemma MovesFollowTheCourse(source: OperationStatus, target: OperationStatus)
    ensures Allowed(source, target) <==>
            || (exists k :: 0 <= k < 8 && source == COURSE[k] && target == COURSE[k + 1])
            || (target.Failed? && source in COURSE[..5])
            || (target.Cancelled? && source in COURSE[..4])
            || (target.RollingBack? && source in COURSE[5..8])
            || (source.RollingBack? && (target.RolledBack? || target.RollbackFailed?))
  {
    var early: seq<OperationStatus> := [Checking, Available, Pulling, Draining];
    assert COURSE[..4] == early && COURSE[..5] == early + [Handoff] && COURSE[5..8] == [Snapshotting, Switching, Verifying];
    CourseMoves(source, target);
  }

  datatype OperationError = NotActive | NeedsFinish | NeedsTerminal | InvalidTransition | NotInitial | SlotTaken | Unknown

  function TransitionActive(status: OperationStatus, target: OperationStatus): Result<OperationStatus, OperationError> {
    if status.Terminal() then Err(NotActive)
    else if target.Terminal() then Err(NeedsFinish)
    else if !Allowed(status, target) then Err(InvalidTransition)
    else Ok(target)
  }

  function Finish(status: OperationStatus, target: OperationStatus): Result<OperationStatus, OperationError> {
    if status.Terminal() then Err(NotActive)
    else if !target.Terminal() then Err(NeedsTerminal)
    else if !Allowed(status, target) then Err(InvalidTransition)
    else Ok(target)
  }

  /**
   An active row moves by `Move` to the allowed statuses that do not end it and by `Complete` to those
   that do; a finished row moves no more, and each method names the other one's targets as its error.
   */
  lemma MovesAndCompletionsAreExact(status: OperationStatus, target: OperationStatus)
    ensures var move, finish := TransitionActive(status, target), Finish(status, target);
            && (move == Ok(target) <==> Allowed(status, target) && !target.Terminal())
            && (finish == Ok(target) <==> Allowed(status, target) && target.Terminal())
            && (move.Ok? ==> move.value == target) && (finish.Ok? ==> finish.value == target)
            && (move == Err(NotActive) <==> status.Terminal()) && (finish == Err(NotActive) <==> status.Terminal())
            && (!status.Terminal() ==> (move == Err(NeedsFinish) <==> target.Terminal()))
            && (!status.Terminal() ==> (finish == Err(NeedsTerminal) <==> !target.Terminal()))
  {
  }

  /** A row; `active` is the unique slot, cleared together with setting `completedAt`. */
  datatype Operation = Operation(status: OperationStatus, active: bool, completedAt: Option<nat>)

  ghost predicate ValidTable(rows: seq<Operation>) {
    && (forall i :: 0 <= i < |rows| ==>
          && (rows[i].active <==> rows[i].completedAt.None?)
          && (rows[i].active <==> !rows[i].status.Terminal()))
    && (forall i, j :: 0 <= i < |rows| && 0 <= j < |rows| && rows[i].active && rows[j].active ==> i == j)
  }

  class UpdateOperationRepository {
    var rows: seq<Operation>

    constructor ()
      ensures rows == [] && ValidTable(rows)
    {
      rows := [];
    }

    method GetActive() returns (found: Option<nat>)
      requires ValidTable(rows)
      ensures found.Some? ==> found.value < |rows| && rows[found.value].active
      ensures found.None? <==> forall i :: 0 <= i < |rows| ==> rows[i].status.Terminal()
    {
      found := None;
      for i := 0 to |rows|
        invariant found.None?
        invariant forall j :: 0 <= j < i ==> rows[j].status.Terminal()
      {
        if rows[i].active {
          return Some(i);
        }
      }
    }

    method Create(status: OperationStatus) returns (r: Result<nat, OperationError>)
      requires ValidTable(rows)
      modifies this
      ensures ValidTable(rows)
      ensures r.Ok? <==> !status.Terminal() && forall i :: 0 <= i < |old(rows)| ==> !old(rows)[i].active
      ensures r.Ok? ==> r.value == |old(rows)| && rows == old(rows) + [Operation(status, true, None)]
      ensures r.Err? ==> rows == old(rows)
    {
      if status.Terminal() {
        return Err(NotInitial);
      }
      var active := GetActive();
      if active.Some? {
        return Err(SlotTaken);
      }
      r := Ok(|rows|);
      rows := rows + [Operation(status, true, None)];
    }

    method Move(id: nat, target: OperationStatus) returns (r: Result<OperationStatus, OperationError>)
      requires ValidTable(rows)
      modifies this
      ensures ValidTable(rows)
      ensures id >= |old(rows)| ==> r == Err(Unknown)
      ensures id < |old(rows)| ==> r == TransitionActive(old(rows)[id].status, target)
      ensures r.Ok? ==> rows == old(rows)[id := Operation(target, true, None)]
      ensures r.Err? ==> rows == old(rows)
    {
      if id >= |rows| {
        return Err(Unknown);
      }
      r := TransitionActive(rows[id].status, target);
      if r.Ok? {
        rows := rows[id := rows[id].(status := target)];
      }
    }

    method Complete(id: nat, target: OperationStatus, now: nat) returns (r: Result<OperationStatus, OperationError>)
      requires ValidTable(rows)
      modifies this
      ensures ValidTable(rows)
      ensures id >= |old(rows)| ==> r == Err(Unknown)
      ensures id < |old(rows)| ==> r == Finish(old(rows)[id].status, target)
      ensures r.Ok? ==> rows == old(rows)[id := Operation(target, false, Some(now))]
      ensures r.Err? ==> rows == old(rows)
    {
      if id >= |rows| {
        return Err(Unknown);
      }
      r := Finish(rows[id].status, target);
      if r.Ok? {
        rows := rows[id := Operation(target, false, Some(now))];
      }
    }
  }
}
