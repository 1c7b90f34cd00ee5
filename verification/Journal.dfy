/**
 The durable journal of one self-update: the v2 result record, the checks that guard every
 write to it, and the shape of every history those checks let through.
 */
module UpdateJournal {
  import opened Prelude

  datatype Status =
    | Snapshotting | Switching | Verifying | CommitRequested | RollingBack
    | Success | Failed | RolledBack | RollbackFailed
  {
    predicate Terminal() {
      Success? || Failed? || RolledBack? || RollbackFailed?
    }
  }

  datatype Checkpoint =
    | Initialized | OldRestartFenced | OldStopped | PendingReady | SnapshotVerified
    | OldRenamed | CandidateCreated | CandidateStarted | CandidateVerified | CommitPoint
    | RollbackStarted | CandidateStopped | CandidateRemoved | SnapshotRestored | EvidenceRemoved
    | OldNameRestored | OldPolicyRestored | OldStarted | OldVerified | RollbackPublished
  {
    predicate Rollback() {
      Index() >= 10
    }

    /** Position in the forward list, or 10 plus the position in the rollback list. */
    function Index(): nat {
      match this
      case Initialized => 0
      case OldRestartFenced => 1
      case OldStopped => 2
      case PendingReady => 3
      case SnapshotVerified => 4
      case OldRenamed => 5
      case CandidateCreated => 6
      case CandidateStarted => 7
      case CandidateVerified => 8
      case CommitPoint => 9
      case RollbackStarted => 10
      case CandidateStopped => 11
      case CandidateRemoved => 12
      case SnapshotRestored => 13
      case EvidenceRemoved => 14
      case OldNameRestored => 15
      case OldPolicyRestored => 16
      case OldStarted => 17
      case OldVerified => 18
      case RollbackPublished => 19
    }
  }

  const FORWARD: seq<Checkpoint> := [
    Initialized, OldRestartFenced, OldStopped, PendingReady, SnapshotVerified,
    OldRenamed, CandidateCreated, CandidateStarted, CandidateVerified, CommitPoint]

  const ROLLBACK: seq<Checkpoint> := [
    RollbackStarted, CandidateStopped, CandidateRemoved, SnapshotRestored, EvidenceRemoved,
    OldNameRestored, OldPolicyRestored, OldStarted, OldVerified, RollbackPublished]

  const MAX_RECOVERY_GENERATION := 3

  /** SHA-256 of a candidate token; a constructor, so distinct tokens have distinct hashes. */
  datatype TokenHash = Sha256(token: nat)

  /** The fields of the v2 record that change; operation, source and target never do. */
  datatype Record = Record(
    sequence: nat,
    status: Status,
    checkpoint: Checkpoint,
    generation: nat,
    coordinator: nat,
    tokenHash: Option<TokenHash>,
    candidateId: Option<nat>,
    rollbackStarted: bool)

  /** The arguments of one checkpoint call; absent ones keep the current value. */
  datatype Write = Write(
    status: Status,
    checkpoint: Checkpoint,
    tokenHash: Option<TokenHash>,
    candidateId: Option<nat>,
    rollbackStarted: Option<bool>)

  datatype JournalError =
    | AlreadyStarted | NotStarted | TerminalRecord | ForbiddenTransition
    | TokenHashChanged | CandidateChanged | RollbackFlagMismatch | RollbackMustStart
    | DirectionIrreversible | NoProgress | SkippedCheckpoint | InvalidRecord | GenerationExhausted

  /** The status moves a record may make. */
  predicate MayFollow(source: Status, target: Status) {
    match source
    case Snapshotting => target.Switching? || target.RollingBack? || target.Failed?
    case Switching => target.Verifying? || target.RollingBack?
    case Verifying => target.CommitRequested? || target.RollingBack?
    case CommitRequested => target.Success?
    case RollingBack => target.RolledBack? || target.RollbackFailed?
    case _ => false
  }

  /** The checkpoints that go with a status. */
  predicate StatusFits(status: Status, c: Checkpoint) {
    match status
    case Snapshotting => c.Index() <= 4
    case Switching => 5 <= c.Index() <= 7
    case Verifying => c.CandidateStarted? || c.CandidateVerified?
    case CommitRequested => c.CommitPoint?
    case Success => c.CommitPoint?
    case Failed => !c.Rollback()
    case RollingBack => c.Rollback()
    case RolledBack => c.RollbackPublished?
    case RollbackFailed => c.Rollback()
  }

  /** The model invariant every stored record is validated against. */
  predicate ValidRecord(r: Record) {
    && r.generation <= MAX_RECOVERY_GENERATION
    && r.sequence >= 1
    && r.rollbackStarted == r.checkpoint.Rollback()
    && StatusFits(r.status, r.checkpoint)
    && (!r.rollbackStarted ==>
          && (r.checkpoint.Index() >= PendingReady.Index() <==> r.tokenHash.Some?)
          && (r.checkpoint.Index() >= CandidateCreated.Index() <==> r.candidateId.Some?))
    && (r.rollbackStarted ==> r.tokenHash.Some?)
  }

  function StartRecord(coordinator: nat): Record {
    Record(1, Snapshotting, Initialized, 0, coordinator, None, None, false)
  }

  function Merge<T>(update: Option<T>, current: Option<T>): Option<T> {
    if update.Some? then update else current
  }

  /** Direction and one-step rule; the error is the first check that fails. */
  function CheckProgress(current: Record, status: Status, c: Checkpoint, rollback: bool): Option<JournalError> {
    if rollback != c.Rollback() then Some(RollbackFlagMismatch)
    else if !current.checkpoint.Rollback() && c.Rollback() then
      if !status.RollingBack? || !c.RollbackStarted? then Some(RollbackMustStart) else None
    else if current.checkpoint.Rollback() != c.Rollback() then Some(DirectionIrreversible)
    else if c == current.checkpoint then
      if status == current.status then Some(NoProgress) else None
    else if c.Index() != current.checkpoint.Index() + 1 then Some(SkippedCheckpoint)
    else None
  }

  function NextRecord(current: Record, w: Write): Record {
    current.(sequence := current.sequence + 1,
             status := w.status,
             checkpoint := w.checkpoint,
             tokenHash := Merge(w.tokenHash, current.tokenHash),
             candidateId := Merge(w.candidateId, current.candidateId),
             rollbackStarted := if w.rollbackStarted.Some? then w.rollbackStarted.value else current.rollbackStarted)
  }

  function CheckpointV2(current: Record, w: Write): Result<Record, JournalError> {
    var next := NextRecord(current, w);
    if current.status.Terminal() then Err(TerminalRecord)
    else if w.status != current.status && !MayFollow(current.status, w.status) then Err(ForbiddenTransition)
    else if current.tokenHash.Some? && w.tokenHash.Some? && w.tokenHash != current.tokenHash then Err(TokenHashChanged)
    else if current.candidateId.Some? && w.candidateId.Some? && w.candidateId != current.candidateId then
      Err(CandidateChanged)
    else
      match CheckProgress(current, w.status, w.checkpoint, next.rollbackStarted)
      case Some(error) => Err(error)
      case None => if ValidRecord(next) then Ok(next) else Err(InvalidRecord)
  }

  function TakeoverV2(current: Record, coordinator: nat): Result<Record, JournalError> {
    var next := current.(sequence := current.sequence + 1, generation := current.generation + 1, coordinator := coordinator);
    if current.status.Terminal() then Err(TerminalRecord)
    else if current.generation >= MAX_RECOVERY_GENERATION then Err(GenerationExhausted)
    else if ValidRecord(next) then Ok(next) else Err(InvalidRecord)
  }

  /** The journal file of one operation. `history` lists every record it ever held. */
  class UpdaterResultJournal {
    var record: Option<Record>
    ghost var history: seq<Record>

    ghost predicate Valid()
      reads this
    {
      if record.None? then history == []
      else history != [] && Accepted(history) && history[|history| - 1] == record.value
    }

    constructor ()
      ensures Valid() && record == None
    {
      record := None;
      history := [];
    }

    method StartV2(coordinator: nat) returns (r: Result<Record, JournalError>)
      requires Valid()
      modifies this
      ensures Valid()
      ensures old(record).None? ==> r == Ok(StartRecord(coordinator)) && record == Some(r.value) && history == [r.value]
      ensures old(record).Some? ==> r == Err(AlreadyStarted) && record == old(record) && history == old(history)
    {
      if record.Some? {
        return Err(AlreadyStarted);
      }
      var first := StartRecord(coordinator);
      record := Some(first);
      history := [first];
      r := Ok(first);
    }

    method Takeover(coordinator: nat) returns (r: Result<Record, JournalError>)
      requires Valid()
      modifies this
      ensures Valid()
      ensures old(record).None? ==> r == Err(NotStarted)
      ensures old(record).Some? ==> r == TakeoverV2(old(record).value, coordinator)
      ensures r.Ok? ==> record == Some(r.value) && history == old(history) + [r.value]
      ensures r.Err? ==> record == old(record) && history == old(history)
    {
      if record.None? {
        return Err(NotStarted);
      }
      r := TakeoverV2(record.value, coordinator);
      if r.Ok? {
        AcceptedGrows(history, r.value);
        record := Some(r.value);
        history := history + [r.value];
      }
    }

    method Checkpoint(w: Write) returns (r: Result<Record, JournalError>)
      requires Valid()
      modifies this
      ensures Valid()
      ensures old(record).None? ==> r == Err(NotStarted)
      ensures old(record).Some? ==> r == CheckpointV2(old(record).value, w)
      ensures r.Ok? ==> record == Some(r.value) && history == old(history) + [r.value]
      ensures r.Err? ==> record == old(record) && history == old(history)
    {
      if record.None? {
        return Err(NotStarted);
      }
      r := CheckpointV2(record.value, w);
      if r.Ok? {
        AcceptedGrows(history, r.value);
        record := Some(r.value);
        history := history + [r.value];
      }
    }
  }

  // ---- what may be written -----------------------------------------------------------------

  /** The course of an update that nothing stops. */
  const COURSE: seq<Status> := [Snapshotting, Switching, Verifying, CommitRequested, Success]

  /** A status is followed by the next of the course; before the commit request it may turn back, before the switch fail. */
  lemma StatusesFollowTheCourse(source: Status, target: Status)
    ensures MayFollow(source, target) <==>
            || (exists k :: 0 <= k < 4 && source == COURSE[k] && target == COURSE[k + 1])
            || (target.RollingBack? && (source.Snapshotting? || source.Switching? || source.Verifying?))
            || (target.Failed? && source.Snapshotting?)
            || (source.RollingBack? && (target.RolledBack? || target.RollbackFailed?))
  {
    assert COURSE[0].Snapshotting? && COURSE[1].Switching? && COURSE[2].Verifying? && COURSE[3].CommitRequested? && COURSE[4].Success?;
  }

  /** The checkpoints of each status, one by one. */
  lemma StatusesHaveTheirPlaces(status: Status, c: Checkpoint)
    ensures StatusFits(status, c) <==>
            match c
            case CommitPoint => status.CommitRequested? || status.Success? || status.Failed?
            case CandidateVerified => status.Verifying? || status.Failed?
            case CandidateStarted => status.Switching? || status.Verifying? || status.Failed?
            case OldRenamed => status.Switching? || status.Failed?
            case CandidateCreated => status.Switching? || status.Failed?
            case RollbackPublished => status.RollingBack? || status.RolledBack? || status.RollbackFailed?
            case _ => if c in ROLLBACK then status.RollingBack? || status.RollbackFailed? else status.Snapshotting? || status.Failed?
  {
    assert ROLLBACK[0].RollbackStarted? && ROLLBACK[1].CandidateStopped? && ROLLBACK[2].CandidateRemoved?;
    assert ROLLBACK[3].SnapshotRestored? && ROLLBACK[4].EvidenceRemoved? && ROLLBACK[5].OldNameRestored?;
    assert ROLLBACK[6].OldPolicyRestored? && ROLLBACK[7].OldStarted? && ROLLBACK[8].OldVerified?;
  }

  /** What can be wrong with a write, each with its error, in the order of the checks. */
  ghost function Faults(r: Record, w: Write): seq<(bool, JournalError)> {
    var flag := if w.rollbackStarted.Some? then w.rollbackStarted.value else r.rollbackStarted;
    var i, j := r.checkpoint.Index(), w.checkpoint.Index();
    [(r.status.Terminal(), TerminalRecord),
     (w.status != r.status && !MayFollow(r.status, w.status), ForbiddenTransition),
     (r.tokenHash.Some? && w.tokenHash.Some? && w.tokenHash != r.tokenHash, TokenHashChanged),
     (r.candidateId.Some? && w.candidateId.Some? && w.candidateId != r.candidateId, CandidateChanged),
     (flag != (j >= 10), RollbackFlagMismatch),
     (i < 10 <= j && (j != 10 || !w.status.RollingBack?), RollbackMustStart),
     (j < 10 <= i, DirectionIrreversible),
     (i == j && w.status == r.status, NoProgress),
     (i != j && j != i + 1 && !(i < 10 <= j), SkippedCheckpoint)]
  }

  /** The first fault is the one that is reported. */
  lemma FirstFaultIsReported(r: Record, w: Write, k: nat)
    requires k < |Faults(r, w)| && Faults(r, w)[k].0 && forall e :: 0 <= e < k ==> !Faults(r, w)[e].0
    ensures CheckpointV2(r, w) == Err(Faults(r, w)[k].1)
  {
    var f := Faults(r, w);
    assert forall e :: 0 <= e < k ==> !f[e].0;
    assert k > 0 ==> !f[0].0;
    assert k > 1 ==> !f[1].0;
    assert k > 2 ==> !f[2].0;
    assert k > 3 ==> !f[3].0;
    assert k > 4 ==> !f[4].0;
    assert k > 5 ==> !f[5].0;
    assert k > 6 ==> !f[6].0;
    assert k > 7 ==> !f[7].0;
  }

  /** Where a record of this status and position may go: to the given status at position `j`. */
  ghost predicate MayGo(r: Record, status: Status, j: nat) {
    var i := r.checkpoint.Index();
    match status
    case Snapshotting => r.status.Snapshotting? && j == i + 1 <= 4
    case Switching => (r.status.Snapshotting? && i == 4 && j == 5) || (r.status.Switching? && j == i + 1 <= 7)
    case Verifying =>
      || (r.status.Switching? && i >= 6 && (j == i + 1 || i == j == 7))
      || (r.status.Verifying? && i == 7 && j == 8)
    case CommitRequested => r.status.Verifying? && i == 8 && j == 9
    case Success => r.status.CommitRequested? && j == 9
    case Failed => r.status.Snapshotting? && (j == i || j == i + 1)
    case RollingBack =>
      || ((r.status.Snapshotting? || r.status.Switching? || r.status.Verifying?) && j == 10)
      || (r.status.RollingBack? && j == i + 1)
    case RolledBack => r.status.RollingBack? && i >= 18 && j == 19
    case RollbackFailed => r.status.RollingBack? && (j == i || j == i + 1)
  }

  /** An identity is given at most once, and is there from its position on. */
  ghost predicate GivenOnce<T>(current: Option<T>, given: Option<T>, there: bool) {
    (current.Some? && given.Some? ==> given == current) && ((current.Some? || given.Some?) <==> there)
  }

  /**
   The law of the checkpoint write, in full. It is accepted exactly if the record may go there, the
   rollback flag says so, and the identities are given once and in time; it changes nothing but what
   it names and the sequence.
   */
  lemma WritesAreExactlyThese(r: Record, w: Write)
    requires ValidRecord(r)
    ensures var j, next := w.checkpoint.Index(), CheckpointV2(r, w);
            && (next.Ok? <==>
                  && MayGo(r, w.status, j)
                  && (if w.rollbackStarted.Some? then w.rollbackStarted.value else r.rollbackStarted) == (j >= 10)
                  && (if j < 10 then GivenOnce(r.tokenHash, w.tokenHash, j >= 3) && GivenOnce(r.candidateId, w.candidateId, j >= 6)
                      else
                        && GivenOnce(r.tokenHash, w.tokenHash, true)
                        && GivenOnce(r.candidateId, w.candidateId, r.candidateId.Some? || w.candidateId.Some?)))
            && (next.Ok? ==>
                  next.value == Record(r.sequence + 1, w.status, w.checkpoint, r.generation, r.coordinator,
                                       if r.tokenHash.Some? then r.tokenHash else w.tokenHash,
                                       if r.candidateId.Some? then r.candidateId else w.candidateId,
                                       j >= 10))
  {
  }

  /** A takeover is accepted exactly from an open record that was taken over fewer than three times. */
  lemma TakeoversAreExactlyThese(r: Record, id: nat)
    requires ValidRecord(r)
    ensures TakeoverV2(r, id).Ok? <==> r.status !in {Success, Failed, RolledBack, RollbackFailed} && r.generation < 3
    ensures TakeoverV2(r, id).Ok? ==>
              TakeoverV2(r, id).value == r.(sequence := r.sequence + 1, generation := r.generation + 1, coordinator := id)
  {
  }

  /** The first record of an update. */
  lemma StartsAtTheBeginning(id: nat)
    ensures ValidRecord(StartRecord(id))
    ensures StartRecord(id) == Record(1, Snapshotting, Initialized, 0, id, None, None, false)
  {
  }

  // ---- histories -----------------------------------------------------------------------

  /** `next` is what some accepted takeover or checkpoint call makes of `current`. */
  ghost predicate Extends(current: Record, next: Record) {
    || (exists w: Write :: CheckpointV2(current, w) == Ok(next))
    || (exists id: nat :: TakeoverV2(current, id) == Ok(next))
  }

  /** A history starts with a fresh record and grows by accepted writes only. */
  ghost predicate Accepted(h: seq<Record>) {
    && h != []
    && (exists id: nat :: h[0] == StartRecord(id))
    && forall i :: 0 <= i < |h| - 1 ==> Extends(h[i], h[i + 1])
  }

  lemma AcceptedGrows(h: seq<Record>, r: Record)
    requires Accepted(h) && Extends(h[|h| - 1], r)
    ensures Accepted(h + [r])
  {
    var g := h + [r];
    forall i | 0 <= i < |g| - 1
      ensures Extends(g[i], g[i + 1])
    {
      if i < |h| - 1 {
        assert g[i] == h[i] && g[i + 1] == h[i + 1];
      }
    }
  }

  lemma AcceptedPrefix(h: seq<Record>)
    requires Accepted(h) && |h| > 1
    ensures Accepted(h[..|h| - 1]) && Extends(h[|h| - 2], h[|h| - 1])
  {
    var g := h[..|h| - 1];
    forall i | 0 <= i < |g| - 1
      ensures Extends(g[i], g[i + 1])
    {
      assert g[i] == h[i] && g[i + 1] == h[i + 1];
    }
  }

  /** What one accepted write keeps: identities, direction, terminality and sequence. */
  lemma {:induction false} OneWrite(a: Record, b: Record)
    requires ValidRecord(a) && Extends(a, b)
    ensures ValidRecord(b) && b.sequence == a.sequence + 1
    ensures !a.status.Terminal()
    ensures a.tokenHash.Some? ==> b.tokenHash == a.tokenHash
    ensures a.candidateId.Some? ==> b.candidateId == a.candidateId
    ensures a.rollbackStarted ==> b.rollbackStarted
    ensures a.status.CommitRequested? ==> b.status.CommitRequested? || b.status.Success?
    ensures 0 <= Budget(b) < Budget(a)
    ensures || b.checkpoint == a.checkpoint
            || (b.checkpoint.Index() == a.checkpoint.Index() + 1 && b.rollbackStarted == a.rollbackStarted)
            || (!a.rollbackStarted && b.checkpoint == RollbackStarted && a.checkpoint.Index() <= 8)
  {
    hide CheckpointV2, TakeoverV2, NextRecord;
    if w: Write :| CheckpointV2(a, w) == Ok(b) {
      WritesAreExactlyThese(a, w);
    } else {
      var id: nat :| TakeoverV2(a, id) == Ok(b);
      TakeoversAreExactlyThese(a, id);
    }
  }

  /** An upper bound on the number of writes a record still allows. */
  function Budget(r: Record): int {
    (MAX_RECOVERY_GENERATION - r.generation) +
    (if r.status.Terminal() then 0
     else if r.status.CommitRequested? then 1
     else if r.status.RollingBack? then 20 - r.checkpoint.Index()
     else 20 - r.checkpoint.Index() - (if r.status.Verifying? then 1 else 0))
  }

  lemma {:induction false} EveryRecordIsValid(h: seq<Record>)
    requires Accepted(h)
    ensures forall i :: 0 <= i < |h| ==> ValidRecord(h[i]) && h[i].sequence == i + 1
  {
    if |h| > 1 {
      AcceptedPrefix(h);
      var g := h[..|h| - 1];
      EveryRecordIsValid(g);
      OneWrite(h[|h| - 2], h[|h| - 1]);
      assert g[|g| - 1] == h[|h| - 2];
      forall i | 0 <= i < |h|
        ensures ValidRecord(h[i]) && h[i].sequence == i + 1
      {
        if i < |g| {
          assert h[i] == g[i];
        }
      }
    }
  }

  /** Write-once identities, irreversible rollback and irreversible commit, over any distance. */
  lemma {:induction false} HistoryKeeps(h: seq<Record>, i: nat, j: nat)
    requires Accepted(h) && i <= j < |h|
    ensures h[i].tokenHash.Some? ==> h[j].tokenHash == h[i].tokenHash
    ensures h[i].candidateId.Some? ==> h[j].candidateId == h[i].candidateId
    ensures h[i].rollbackStarted ==> h[j].rollbackStarted
    ensures h[i].status.CommitRequested? ==> h[j].status.CommitRequested? || h[j].status.Success?
    ensures h[i].status.Terminal() ==> i == j == |h| - 1
    decreases j - i
  {
    EveryRecordIsValid(h);
    if h[i].status.Terminal() && i < |h| - 1 {
      assert Extends(h[i], h[i + 1]);
      OneWrite(h[i], h[i + 1]);
    }
    if i < j {
      assert Extends(h[i], h[i + 1]);
      OneWrite(h[i], h[i + 1]);
      HistoryKeeps(h, i + 1, j);
    }
  }

  /** No history is longer than 24 records, whatever the callers attempt. */
  lemma {:induction false} HistoryIsBounded(h: seq<Record>)
    requires Accepted(h)
    ensures |h| + Budget(h[|h| - 1]) <= 24 && Budget(h[|h| - 1]) >= 0
  {
    EveryRecordIsValid(h);
    if |h| > 1 {
      AcceptedPrefix(h);
      HistoryIsBounded(h[..|h| - 1]);
      assert h[..|h| - 1][|h| - 2] == h[|h| - 2];
      OneWrite(h[|h| - 2], h[|h| - 1]);
    }
  }

  /** The checkpoints of a history, repetitions dropped. */
  function Trail(h: seq<Record>): seq<Checkpoint> {
    if h == [] then []
    else
      var t := Trail(h[..|h| - 1]);
      var c := h[|h| - 1].checkpoint;
      if t != [] && t[|t| - 1] == c then t else t + [c]
  }

  /** The first `m` forward checkpoints, then the first `n` rollback ones. */
  ghost predicate HasShape(t: seq<Checkpoint>, m: nat, n: nat) {
    && 1 <= m <= 10 && n <= 10
    && (n > 0 ==> m <= 9)
    && t == FORWARD[..m] + ROLLBACK[..n]
  }

  lemma IndexIsInjective(c: Checkpoint, d: Checkpoint)
    requires c.Index() == d.Index()
    ensures c == d
  {
  }

  lemma PositionOf(i: nat)
    requires i < 10
    ensures FORWARD[i].Index() == i && ROLLBACK[i].Index() == 10 + i
  {
  }

  lemma LastOfShape(t: seq<Checkpoint>, m: nat, n: nat)
    requires HasShape(t, m, n)
    ensures t != [] && t[|t| - 1] == (if n > 0 then ROLLBACK[n - 1] else FORWARD[m - 1])
    ensures t[|t| - 1].Index() == (if n > 0 then 9 + n else m - 1)
  {
    PositionOf(if n > 0 then n - 1 else m - 1);
  }

  lemma ShapeGrows(t: seq<Checkpoint>, m: nat, n: nat, c: Checkpoint)
    requires HasShape(t, m, n)
    ensures n == 0 && m < 10 && c.Index() == m ==> HasShape(t + [c], m + 1, 0)
    ensures 0 < n < 10 && c.Index() == 10 + n ==> HasShape(t + [c], m, n + 1)
    ensures n == 0 && m <= 9 && c == RollbackStarted ==> HasShape(t + [c], m, 1)
  {
    if n == 0 && m < 10 && c.Index() == m {
      PositionOf(m);
      IndexIsInjective(c, FORWARD[m]);
      assert FORWARD[..m] + ROLLBACK[..0] + [c] == FORWARD[..m + 1] + ROLLBACK[..0];
    }
    if 0 < n < 10 && c.Index() == 10 + n {
      PositionOf(n);
      IndexIsInjective(c, ROLLBACK[n]);
      assert FORWARD[..m] + ROLLBACK[..n] + [c] == FORWARD[..m] + ROLLBACK[..n + 1];
    }
    if n == 0 && m <= 9 && c == RollbackStarted {
      assert FORWARD[..m] + ROLLBACK[..0] + [c] == FORWARD[..m] + ROLLBACK[..1];
    }
  }

  lemma {:induction false} TrailOfOne(h: seq<Record>)
    requires |h| == 1 && h[0].checkpoint == Initialized
    ensures HasShape(Trail(h), 1, 0)
  {
    assert Trail(h[..0]) == [];
    assert Trail(h) == [Initialized];
    assert FORWARD[..1] + ROLLBACK[..0] == [Initialized];
  }

  /** Every accepted history walks a forward prefix and then, at most once, a rollback prefix. */
  lemma {:induction false} TrailHasShape(h: seq<Record>) returns (m: nat, n: nat)
    requires Accepted(h)
    ensures HasShape(Trail(h), m, n)
    ensures h[|h| - 1].checkpoint.Index() == if n > 0 then 9 + n else m - 1
  {
    EveryRecordIsValid(h);
    if |h| == 1 {
      TrailOfOne(h);
      return 1, 0;
    }
    AcceptedPrefix(h);
    var g := h[..|h| - 1];
    m, n := TrailHasShape(g);
    var last := h[|h| - 1].checkpoint;
    assert g[|g| - 1] == h[|h| - 2];
    OneWrite(h[|h| - 2], h[|h| - 1]);
    LastOfShape(Trail(g), m, n);
    IndexIsInjective(Trail(g)[|Trail(g)| - 1], h[|h| - 2].checkpoint);
    if last != h[|h| - 2].checkpoint {
      ShapeGrows(Trail(g), m, n, last);
      if n > 0 {
        n := n + 1;
      } else if last == RollbackStarted {
        n := 1;
      } else {
        m := m + 1;
      }
    }
  }

  /** The status the forward executor writes with its i-th checkpoint. */
  function ForwardStatus(i: nat): Status {
    if i <= 4 then Snapshotting else if i <= 6 then Switching else if i <= 8 then Verifying else CommitRequested
  }

  lemma {:induction false} TrailGrows(h: seq<Record>, r: Record)
    requires h != [] && r.checkpoint != h[|h| - 1].checkpoint
    ensures Trail(h + [r]) == Trail(h) + [r.checkpoint]
  {
    assert (h + [r])[..|h|] == h;
    assert Trail(h) != [] && Trail(h)[|Trail(h)| - 1] == h[|h| - 1].checkpoint;
  }

  /** One more accepted write that moves to checkpoint `w.checkpoint`. */
  lemma {:induction false} WalkOn(h: seq<Record>, w: Write) returns (longer: seq<Record>)
    requires Accepted(h) && CheckpointV2(h[|h| - 1], w).Ok? && w.checkpoint != h[|h| - 1].checkpoint
    ensures Accepted(longer) && longer == h + [NextRecord(h[|h| - 1], w)]
    ensures Trail(longer) == Trail(h) + [w.checkpoint]
  {
    var next := NextRecord(h[|h| - 1], w);
    assert CheckpointV2(h[|h| - 1], w) == Ok(next);
    AcceptedGrows(h, next);
    TrailGrows(h, next);
    longer := h + [next];
  }

  lemma ForwardWriteFits(last: Record, c: Checkpoint) returns (w: Write)
    requires ValidRecord(last) && last.checkpoint.Index() < 9 && last.status == ForwardStatus(last.checkpoint.Index())
    requires c.Index() == last.checkpoint.Index() + 1
    ensures w.checkpoint == c && w.status == ForwardStatus(c.Index())
    ensures CheckpointV2(last, w).Ok?
  {
    w := Write(ForwardStatus(c.Index()), c,
               if c.PendingReady? then Some(Sha256(0)) else None,
               if c.CandidateCreated? then Some(0) else None,
               None);
  }

  lemma RollbackWriteFits(last: Record, c: Checkpoint) returns (w: Write)
    requires ValidRecord(last)
    requires if c.RollbackStarted? then last.checkpoint.Index() <= 8 && last.status == ForwardStatus(last.checkpoint.Index())
             else last.status.RollingBack? && c.Index() == last.checkpoint.Index() + 1
    ensures w.checkpoint == c && w.status == RollingBack
    ensures CheckpointV2(last, w).Ok?
  {
    w := Write(RollingBack, c, Some(if last.tokenHash.Some? then last.tokenHash.value else Sha256(0)), None, Some(true));
  }

  /** Conversely, each such walk is the trail of some accepted history. */
  lemma {:induction false} EveryShapeIsWalked(m: nat, n: nat) returns (h: seq<Record>)
    requires 1 <= m <= 10 && n <= 10 && (n > 0 ==> m <= 9)
    ensures Accepted(h) && HasShape(Trail(h), m, n)
    ensures h[|h| - 1].checkpoint.Index() == (if n > 0 then 9 + n else m - 1)
    ensures h[|h| - 1].status == if n > 0 then RollingBack else ForwardStatus(m - 1)
    decreases m + n
  {
    if m == 1 && n == 0 {
      h := [StartRecord(0)];
      TrailOfOne(h);
    } else if n > 0 {
      h := EveryShapeIsWalked(m, n - 1);
      EveryRecordIsValid(h);
      PositionOf(n - 1);
      var w := RollbackWriteFits(h[|h| - 1], ROLLBACK[n - 1]);
      ShapeGrows(Trail(h), m, n - 1, ROLLBACK[n - 1]);
      h := WalkOn(h, w);
    } else {
      h := EveryShapeIsWalked(m - 1, 0);
      EveryRecordIsValid(h);
      PositionOf(m - 1);
      var w := ForwardWriteFits(h[|h| - 1], FORWARD[m - 1]);
      ShapeGrows(Trail(h), m - 1, 0, FORWARD[m - 1]);
      h := WalkOn(h, w);
    }
  }

  // ---- the bound is exact --------------------------------------------------------------

  /** A record from which the slowest continuation uses up the whole budget. */
  ghost predicate Slow(r: Record) {
    && ValidRecord(r)
    && !r.status.CommitRequested? && !r.status.Success? && !r.status.Failed?
    && (r.status.Terminal() ==> r.generation == MAX_RECOVERY_GENERATION)
  }

  lemma SlowestTakeover(r: Record) returns (next: Record)
    requires Slow(r) && !r.status.Terminal() && r.generation < MAX_RECOVERY_GENERATION
    ensures Extends(r, next) && Slow(next) && Budget(next) == Budget(r) - 1
  {
    next := r.(sequence := r.sequence + 1, generation := r.generation + 1);
    assert TakeoverV2(r, r.coordinator) == Ok(next);
  }

  lemma SlowestRollback(r: Record) returns (next: Record)
    requires Slow(r) && !r.status.Terminal() && r.generation == MAX_RECOVERY_GENERATION && r.checkpoint.Index() >= 8
    ensures Extends(r, next) && Slow(next) && Budget(next) == Budget(r) - 1
  {
    var i := r.checkpoint.Index();
    var w: Write;
    if i == 19 {
      w := Write(RolledBack, RollbackPublished, None, None, None);
    } else if i >= 10 {
      PositionOf(i - 9);
      w := Write(RollingBack, ROLLBACK[i - 9], None, None, None);
    } else {
      w := Write(RollingBack, RollbackStarted, None, None, Some(true));
    }
    next := NextRecord(r, w);
    assert CheckpointV2(r, w) == Ok(next);
  }

  lemma SlowestForward(r: Record) returns (next: Record)
    requires Slow(r) && !r.status.Terminal() && r.generation == MAX_RECOVERY_GENERATION && r.checkpoint.Index() < 8
    ensures Extends(r, next) && Slow(next) && Budget(next) == Budget(r) - 1
  {
    var i := r.checkpoint.Index();
    var w: Write;
    if i == 7 {
      w := Write(Verifying, if r.status.Switching? then CandidateStarted else CandidateVerified, None, None, None);
    } else {
      PositionOf(i + 1);
      w := Write(if i == 4 then Switching else r.status, FORWARD[i + 1],
                 if i == 2 then Some(Sha256(0)) else None, if i == 5 then Some(0) else None, None);
    }
    next := NextRecord(r, w);
    assert CheckpointV2(r, w) == Ok(next);
  }

  lemma SlowestWrite(r: Record) returns (next: Record)
    requires Slow(r) && !r.status.Terminal()
    ensures Extends(r, next) && Slow(next) && Budget(next) == Budget(r) - 1
  {
    hide Extends, Budget;
    if r.generation < MAX_RECOVERY_GENERATION {
      next := SlowestTakeover(r);
    } else if r.checkpoint.Index() >= 8 {
      next := SlowestRollback(r);
    } else {
      next := SlowestForward(r);
    }
  }

  lemma {:induction false} SlowestHistory(h: seq<Record>) returns (longest: seq<Record>)
    requires Accepted(h) && Slow(h[|h| - 1]) && Budget(h[|h| - 1]) >= 0
    ensures Accepted(longest) && |longest| == |h| + Budget(h[|h| - 1])
    decreases Budget(h[|h| - 1])
  {
    if h[|h| - 1].status.Terminal() {
      longest := h;
    } else {
      var next := SlowestWrite(h[|h| - 1]);
      EveryRecordIsValid(h);
      OneWrite(h[|h| - 1], next);
      AcceptedGrows(h, next);
      longest := SlowestHistory(h + [next]);
    }
  }

  /** Some accepted history does reach the 24 records that HistoryIsBounded allows. */
  lemma BoundIsReached() returns (h: seq<Record>)
    ensures Accepted(h) && |h| == 24
  {
    var start := [StartRecord(0)];
    h := SlowestHistory(start);
  }
}
