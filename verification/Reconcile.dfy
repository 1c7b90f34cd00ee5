/**
 The terminal reconciler: it samples the journal now and then and drives the operation row
 after it. `Reconcile` says what one sample makes of the row; the class does it step by step
 through the repository's transition check.
 */
module UpdateReconcile {
  import opened Prelude
  import J = UpdateJournal
  import opened UpdateOperations

  datatype ReconcileError =
    | OtherTerminal | TerminalMismatch | TargetMismatch | RollbackMismatch | ForwardMismatch
    | WentBackwards | SuccessWhileActive | CommitMismatch | EvidenceInvalid | Repository(error: OperationError)

  datatype Verdict = Progressed(changed: bool) | Cleanup | Waiting | Refused(error: ReconcileError)

  datatype Outcome = Outcome(row: OperationStatus, verdict: Verdict)

  const FORWARD_ORDER: seq<OperationStatus> := [Handoff, Snapshotting, Switching, Verifying]

  /** Position in the forward order, if the status is in it. */
  function Position(status: OperationStatus): (p: Option<nat>)
    ensures p.Some? ==> p.value < 4 && FORWARD_ORDER[p.value] == status
    ensures p.None? ==> status !in FORWARD_ORDER
  {
    match status
    case Handoff => Some(0)
    case Snapshotting => Some(1)
    case Switching => Some(2)
    case Verifying => Some(3)
    case _ => None
  }

  /** The row status that mirrors a journal status still in progress. */
  function Mirror(journal: J.Status): Option<OperationStatus> {
    match journal
    case Snapshotting => Some(Snapshotting)
    case Switching => Some(Switching)
    case Verifying => Some(Verifying)
    case CommitRequested => Some(Verifying)
    case RollingBack => Some(RollingBack)
    case _ => None
  }

  function Synchronize(row: OperationStatus, journal: J.Status, targetMatches: bool): Result<OperationStatus, ReconcileError> {
    var target := Mirror(journal);
    if !targetMatches then Err(TargetMismatch)
    else if target.None? || row == target.value then Ok(row)
    else if target.value.RollingBack? then
      if Position(row).None? then Err(RollbackMismatch) else Ok(RollingBack)
    else if Position(row).None? then Err(ForwardMismatch)
    else if Position(target.value).value < Position(row).value then Err(WentBackwards)
    else Ok(target.value)
  }

  function Reconcile(row: OperationStatus, journal: J.Status, targetMatches: bool, allowActiveCommit: bool,
                     evidenceValid: bool): Outcome {
    if row.Terminal() then
      if !row.Success? && !row.RolledBack? then Outcome(row, Refused(OtherTerminal))
      else if row.Success? && !journal.CommitRequested? && !journal.Success? then Outcome(row, Refused(TerminalMismatch))
      else if row.RolledBack? && !journal.RolledBack? then Outcome(row, Refused(TerminalMismatch))
      else Outcome(row, Cleanup)
    else
      match Synchronize(row, journal, targetMatches)
      case Err(error) => Outcome(row, Refused(error))
      case Ok(synced) =>
        match journal
        case RollbackFailed => Outcome(synced, Waiting)
        case Success => Outcome(synced, Refused(SuccessWhileActive))
        case CommitRequested =>
          if !allowActiveCommit then Outcome(synced, Waiting)
          else if !synced.Verifying? then Outcome(synced, Refused(CommitMismatch))
          else if !evidenceValid then Outcome(synced, Refused(EvidenceInvalid))
          else Outcome(OperationStatus.Success, Cleanup)
        case RolledBack =>
          if Position(synced).None? && !synced.RollingBack? then Outcome(synced, Refused(RollbackMismatch))
          else Outcome(OperationStatus.RolledBack, Cleanup)
        case _ => Outcome(synced, Progressed(synced != row))
  }

  /** Consecutive statuses are allowed transitions of the operations table. */
  ghost predicate LegalPath(moves: seq<OperationStatus>) {
    forall i :: 0 <= i < |moves| - 1 ==> Allowed(moves[i], moves[i + 1])
  }

  class UpdateTerminalReconciler {
    var row: OperationStatus
    ghost var moves: seq<OperationStatus>

    ghost predicate Valid()
      reads this
    {
      moves != [] && moves[|moves| - 1] == row && LegalPath(moves)
    }

    constructor (row: OperationStatus)
      ensures Valid() && this.row == row && moves == [row]
    {
      this.row := row;
      moves := [row];
    }

    method Transition(target: OperationStatus) returns (r: Result<OperationStatus, OperationError>)
      requires Valid()
      modifies this
      ensures Valid()
      ensures r == TransitionActive(old(row), target)
      ensures r.Ok? ==> row == target && moves == old(moves) + [target]
      ensures r.Err? ==> row == old(row) && moves == old(moves)
    {
      r := TransitionActive(row, target);
      if r.Ok? {
        row := target;
        moves := moves + [target];
      }
    }

    method Complete(target: OperationStatus) returns (r: Result<OperationStatus, OperationError>)
      requires Valid()
      modifies this
      ensures Valid()
      ensures r == Finish(old(row), target)
      ensures r.Ok? ==> row == target && moves == old(moves) + [target]
      ensures r.Err? ==> row == old(row) && moves == old(moves)
    {
      r := Finish(row, target);
      if r.Ok? {
        row := target;
        moves := moves + [target];
      }
    }

    method SynchronizeActiveProgress(journal: J.Status, targetMatches: bool) returns (r: Result<bool, ReconcileError>)
      requires Valid() && !row.Terminal()
      modifies this
      ensures Valid() && old(moves) <= moves
      ensures match Synchronize(old(row), journal, targetMatches)
              case Ok(synced) => row == synced && r == Ok(synced != old(row))
              case Err(error) => row == old(row) && moves == old(moves) && r == Err(error)
    {
      if !targetMatches {
        return Err(TargetMismatch);
      }
      var target := Mirror(journal);
      if target.None? || row == target.value {
        return Ok(false);
      }
      var current := Position(row);
      if target.value.RollingBack? {
        if current.None? {
          return Err(RollbackMismatch);
        }
        if row.Handoff? {
          var entered := Transition(Snapshotting);
        }
        var moved := Transition(RollingBack);
        return Ok(true);
      }
      if current.None? {
        return Err(ForwardMismatch);
      }
      var goal := Position(target.value);
      if goal.value < current.value {
        return Err(WentBackwards);
      }
      for i := current.value + 1 to goal.value + 1
        invariant Valid() && old(moves) <= moves
        invariant row == FORWARD_ORDER[i - 1]
      {
        var moved := Transition(FORWARD_ORDER[i]);
      }
      r := Ok(goal.value > current.value);
    }

    method AdvanceRollbackState(targetMatches: bool) returns (r: Result<(), ReconcileError>)
      requires Valid() && !row.Terminal()
      modifies this
      ensures Valid() && old(moves) <= moves
      ensures !targetMatches ==> r == Err(TargetMismatch)
      ensures targetMatches ==> (r.Ok? <==> Position(old(row)).Some? || old(row).RollingBack?)
      ensures r.Ok? ==> row.RollingBack?
      ensures r.Err? ==> row == old(row) && moves == old(moves) && (targetMatches ==> r == Err(RollbackMismatch))
    {
      if !targetMatches {
        return Err(TargetMismatch);
      }
      if Position(row).None? && !row.RollingBack? {
        return Err(RollbackMismatch);
      }
      var path := if row.Handoff? then [Snapshotting, RollingBack] else if row.RollingBack? then [] else [RollingBack];
      for i := 0 to |path|
        invariant Valid() && old(moves) <= moves
        invariant row == if i == 0 then old(row) else path[i - 1]
      {
        var moved := Transition(path[i]);
      }
      r := Ok(());
    }

    /** One pass over one sampled journal status. */
    method Run(journal: J.Status, targetMatches: bool, allowActiveCommit: bool, evidenceValid: bool)
      returns (verdict: Verdict)
      requires Valid()
      modifies this
      ensures Valid() && old(moves) <= moves
      ensures Outcome(row, verdict) == Reconcile(old(row), journal, targetMatches, allowActiveCommit, evidenceValid)
    {
      if row.Terminal() {
        if !row.Success? && !row.RolledBack? {
          return Refused(OtherTerminal);
        }
        if (if row.Success? then !journal.CommitRequested? && !journal.Success? else !journal.RolledBack?) {
          return Refused(TerminalMismatch);
        }
        return Cleanup;
      }
      var progressed := SynchronizeActiveProgress(journal, targetMatches);
      if progressed.Err? {
        return Refused(progressed.error);
      }
      if journal.RollbackFailed? {
        return Waiting;
      }
      if journal.Success? {
        return Refused(SuccessWhileActive);
      }
      if journal.CommitRequested? {
        if !allowActiveCommit {
          return Waiting;
        }
        if !row.Verifying? {
          return Refused(CommitMismatch);
        }
        if !evidenceValid {
          return Refused(EvidenceInvalid);
        }
        var finished := Complete(OperationStatus.Success);
        return Cleanup;
      }
      if journal.RolledBack? {
        var advanced := AdvanceRollbackState(targetMatches);
        if advanced.Err? {
          return Refused(advanced.error);
        }
        var finished := Complete(OperationStatus.RolledBack);
        return Cleanup;
      }
      verdict := Progressed(progressed.value);
    }
  }

  // ---- what one pass does ------------------------------------------------------------------

  /** The statuses of a row whose helper is at work, in order. */
  const AT_WORK: seq<OperationStatus> := [Handoff, Snapshotting, Switching, Verifying]

  /** Where a forward status of the journal stands among them. */
  ghost predicate Mirrors(journal: J.Status, k: nat) {
    || (journal.Snapshotting? && k == 1) || (journal.Switching? && k == 2)
    || ((journal.Verifying? || journal.CommitRequested?) && k == 3)
  }

  /**
   The law of a pass on an active row. The row goes forward to where the journal is, never back; it is
   committed only on a commit request by a pass that may commit and finds valid evidence, and without
   that permission it waits at verifying; it follows a rollback from any status at work.
   */
  lemma PassesFollowTheJournal(row: OperationStatus, journal: J.Status, allow: bool, evidence: bool, i: nat, k: nat)
    requires i < 4 && row == AT_WORK[i]
    ensures var o := Reconcile(row, journal, true, allow, evidence);
            && (Mirrors(journal, k) && i > k ==> o == Outcome(row, Refused(WentBackwards)))
            && (Mirrors(journal, k) && i <= k && !journal.CommitRequested? ==> o == Outcome(AT_WORK[k], Progressed(i < k)))
            && (journal.CommitRequested? && !allow ==> o == Outcome(Verifying, Waiting))
            && (journal.CommitRequested? && allow && !evidence ==> o == Outcome(Verifying, Refused(EvidenceInvalid)))
            && (journal.CommitRequested? && allow && evidence ==> o == Outcome(OperationStatus.Success, Cleanup))
            && (journal.RollingBack? ==> o == Outcome(RollingBack, Progressed(true)))
            && (journal.RolledBack? ==> o == Outcome(OperationStatus.RolledBack, Cleanup))
            && (journal.RollbackFailed? ==> o == Outcome(row, Waiting))
            && (journal.Success? ==> o == Outcome(row, Refused(SuccessWhileActive)))
            && (journal.Failed? ==> o == Outcome(row, Progressed(false)))
  {
  }

  /**
   The same for a row that is rolling back, for other active rows and for finished ones; a wrong target
   stops every pass on an active row.
   */
  lemma OtherPassesChangeLittle(row: OperationStatus, journal: J.Status, targetMatches: bool, allow: bool, evidence: bool)
    ensures var o := Reconcile(row, journal, targetMatches, allow, evidence);
            && (!row.Terminal() && !targetMatches ==> o == Outcome(row, Refused(TargetMismatch)))
            && (targetMatches && row.RollingBack? ==>
                  && o.row == (if journal.RolledBack? then OperationStatus.RolledBack else row)
                  && (o.verdict.Refused? <==> journal.Success? || exists k :: Mirrors(journal, k))
                  && (o.verdict.Cleanup? <==> journal.RolledBack?))
            && (targetMatches && (row.Checking? || row.Available? || row.Pulling? || row.Draining?) ==>
                  o.row == row && (o.verdict.Refused? <==> !journal.RollbackFailed? && !journal.Failed?))
            && (row.Terminal() ==>
                  && o.row == row && (o.verdict.Refused? || o.verdict.Cleanup?)
                  && (o.verdict.Cleanup? <==>
                        || (row.Success? && (journal.CommitRequested? || journal.Success?))
                        || (row.RolledBack? && journal.RolledBack?)))
  {
    assert Mirrors(journal, 1) || Mirrors(journal, 2) || Mirrors(journal, 3) || forall k :: !Mirrors(journal, k);
  }

  // ---- which rows a journal status is compatible with --------------------------------------

  /** The row values that can stand beside a journal status. */
  predicate RowFits(row: OperationStatus, journal: J.Status) {
    match journal
    case Snapshotting => row.Handoff? || row.Snapshotting?
    case Switching => row.Handoff? || row.Snapshotting? || row.Switching?
    case Verifying => Position(row).Some?
    case CommitRequested => Position(row).Some? || row.Success?
    case Success => row.Success?
    case RollingBack => Position(row).Some? || row.RollingBack?
    case RolledBack => Position(row).Some? || row.RollingBack? || row.RolledBack?
    case RollbackFailed => Position(row).Some? || row.RollingBack?
    case Failed => false
  }

  /** `later` can be reached from `earlier` by accepted journal writes of an update that never failed outright. */
  predicate Reaches(earlier: J.Status, later: J.Status) {
    || earlier == later
    || (match earlier
        case Snapshotting => !later.Failed?
        case Switching => !later.Failed? && !later.Snapshotting?
        case Verifying => !later.Failed? && !later.Snapshotting? && !later.Switching?
        case CommitRequested => later.Success?
        case RollingBack => later.RolledBack? || later.RollbackFailed?
        case _ => false)
  }

  lemma CompatibleSampleSynchronizes(row: OperationStatus, sample: J.Status)
    requires RowFits(row, sample) && !row.Terminal()
    ensures var r := Synchronize(row, sample, true);
            && r.Ok? && !r.value.Terminal() && RowFits(r.value, sample)
            && (Mirror(sample).Some? ==> r.value == Mirror(sample).value) && (Mirror(sample).None? ==> r.value == row)
  {
  }

  /** A compatible sample is never refused, except for evidence that is not valid yet. */
  lemma CompatibleSampleIsAccepted(row: OperationStatus, sample: J.Status, allowActiveCommit: bool, evidenceValid: bool)
    requires RowFits(row, sample)
    ensures var o := Reconcile(row, sample, true, allowActiveCommit, evidenceValid);
            && (o.verdict.Refused? ==>
                  o.verdict.error.EvidenceInvalid? && sample.CommitRequested? && !evidenceValid && allowActiveCommit)
            && RowFits(o.row, sample)
            && (o.row.Success? ==> row.Success? || (sample.CommitRequested? && evidenceValid))
            && (o.row.RolledBack? <==> sample.RolledBack?)
            && (o.verdict.Cleanup? <==> o.row.Terminal())
  {
    if !row.Terminal() {
      CompatibleSampleSynchronizes(row, sample);
    }
  }

  lemma TerminalRowStays(row: OperationStatus, sample: J.Status, allow: bool, evidence: bool)
    requires row.Terminal()
    ensures Reconcile(row, sample, true, allow, evidence).row == row
  {
  }

  /** The row a stale sample writes still fits whatever the journal has become meanwhile. */
  lemma StaleSampleFitsLaterJournal(row: OperationStatus, sample: J.Status, now: J.Status, allow: bool, evidence: bool)
    requires RowFits(row, sample) && RowFits(row, now) && Reaches(sample, now)
    ensures RowFits(Reconcile(row, sample, true, allow, evidence).row, now)
  {
  }

  /** Once the journal has decided, one sample makes the row agree. */
  lemma DecidedJournalIsAdopted(row: OperationStatus, journal: J.Status, evidenceValid: bool)
    requires RowFits(row, journal)
    requires journal.RolledBack? || (journal.CommitRequested? && (row.Success? || evidenceValid))
    ensures var o := Reconcile(row, journal, true, true, evidenceValid);
            o == Outcome(if journal.RolledBack? then RolledBack else Success, Cleanup)
  {
  }
}
