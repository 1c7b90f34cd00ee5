/**
 The two executors as the imperative code they are: an object whose methods change containers,
 files and the journal, and two loops that drive it from checkpoint to checkpoint. Each method is
 tied to the protocol's step functions, and each loop to a run of the protocol.
 */
module UpdaterExecutors {
  import opened Prelude
  import opened UpdateJournal
  import opened UpdateSnapshot
  import opened UpdaterWorld
  import opened UpdaterInvariant
  import opened UpdaterSafety
  import opened UpdaterRecovery

  lemma {:induction false} RunAppend(s: World, a: seq<Action>, b: seq<Action>)
    ensures Run(s, a + b) == Run(Run(s, a), b)
  {
    hide Step;
    if b == [] {
      assert a + b == a;
    } else {
      RunAppend(s, a, b[..|b| - 1]);
      assert (a + b)[..|a + b| - 1] == a + b[..|b| - 1];
    }
  }

  ghost predicate Only(trace: seq<Action>, a: Action) {
    forall i :: 0 <= i < |trace| ==> trace[i] == a
  }

  lemma RunOne(s: World, a: Action)
    ensures Run(s, [a]) == (match Step(s, a) case Some(t) => t case None => s)
  {
    assert [a][..0] == [];
    assert Run(s, []) == s;
  }

  /** Effect and confirmation of one forward checkpoint, taken together. */
  ghost predicate ForwardEffect(before: World, r: Record, after: World, result: Option<Option<nat>>) {
    match ForwardAct(before, r)
    case None => after == before && result.None?
    case Some(t) => after == t && result == ForwardConfirm(t, r)
  }

  /** The same for a rollback checkpoint other than the restore. */
  ghost predicate RollbackEffect(before: World, r: Record, after: World, ok: Option<bool>, healthy: bool) {
    match RollbackAct(before, r)
    case None => after == before && ok.None?
    case Some(t) => after == t && ok == Some(RollbackConfirm(t, r, healthy))
  }

  // ---- what the executor can do by itself --------------------------------------------------

  /** The executor is about to work on this record. */
  ghost predicate Ready(s: World, id: nat, r: Record) {
    Inv(s) && s.coordinator == Forwarding(id, Begin) && s.journal == Some(r) && !r.status.Terminal()
  }

  /** Checkpoints whose work nothing outside the executor can refuse. */
  ghost predicate OnItsOwn(r: Record) {
    r.checkpoint.Index() <= 6 || (r.checkpoint.CandidateStarted? && r.status.Switching?)
  }

  lemma OwnActs(s: World, id: nat, r: Record)
    requires Ready(s, id, r) && OnItsOwn(r)
    ensures ForwardAct(s, r).Some?
    ensures var t := ForwardAct(s, r).value;
            t.files == s.files && t.evidence == s.evidence && (t.reconciler == s.reconciler || t.reconciler.Resting?)
            && (CandidateRuns(s) || r.checkpoint.CandidateCreated? ==> CandidateRuns(t))
  {
    hide SnapshotOk, Capture;
  }

  lemma SnapshotIsTaken(s: World, r: Record)
    requires Inv(s) && s.journal == Some(r) && r.checkpoint.PendingReady? && ForwardAct(s, r).Some?
    ensures ForwardConfirm(ForwardAct(s, r).value, r).Some?
  {
    hide Capture, Verified, SourceOk, CandidateOk, MarkersOk, RowOk;
    CaptureIsFaithful(s.stoppedFiles);
    CaptureIsFaithful(s.files);
  }

  lemma OwnWorkIsDone(s: World, id: nat, r: Record)
    requires Ready(s, id, r) && OnItsOwn(r)
    ensures ForwardAct(s, r).Some? && ForwardConfirm(ForwardAct(s, r).value, r).Some?
  {
    hide Capture, Verified;
    OwnActs(s, id, r);
    if r.checkpoint.PendingReady? {
      SnapshotIsTaken(s, r);
    } else {
      hide SnapshotOk, DataOk, RowOk;
    }
  }

  lemma OldIsRecognised(s: World, r: Record)
    requires Inv(s) && s.journal == Some(r) && r.status.Success?
    ensures s.source.None? || ObserveSource(s, r).Matched?
  {
    hide CandidateOk, MarkersOk, SnapshotOk, DataOk, RowOk, ProcessOk;
  }

  // ---- waiting -----------------------------------------------------------------------------

  /** The checkpoints at which the executor polls: the candidate's verification and the commit. */
  predicate Waits(r: Record) {
    (r.checkpoint.CandidateStarted? && r.status.Verifying?) || r.checkpoint.CommitPoint?
  }

  /** What everybody but the coordinator may do while it sleeps. */
  predicate OfOthers(a: Action) {
    !a.Crash? && !a.Coordinate? && !a.Forward? && !a.Rollback?
  }

  /**
   One poll of a waiting loop: what happened since the last one, and whether by now the candidate
   was seen healthy and unchanged for a whole window, as StabilityWindow decides.
   */
  datatype Poll = Poll(meanwhile: seq<Action>, stable: bool)

  ghost predicate OthersOnly(polls: seq<Poll>) {
    forall k, i :: 0 <= k < |polls| && 0 <= i < |polls[k].meanwhile| ==> OfOthers(polls[k].meanwhile[i])
  }

  /** What ends the verification at once: the candidate exited, or marker or evidence changed. */
  predicate Refuses(s: World, r: Record) {
    r.checkpoint.CandidateStarted? &&
    (!CandidateRuns(s) || r.candidateId != Some(s.candidate.value.id) || s.marker.None?
     || (s.evidence.Some? && s.evidence != s.marker))
  }

  /** Where the polls end, and whether with the condition fulfilled. */
  ghost function Awaited(s: World, r: Record, polls: seq<Poll>): (World, bool)
    decreases |polls|
  {
    if polls == [] then (s, false)
    else
      var t := Run(s, polls[0].meanwhile);
      if Refuses(t, r) then (t, false)
      else if ForwardConfirm(t, r).Some? && (polls[0].stable || r.checkpoint.CommitPoint?) then (t, true)
      else Awaited(t, r, polls[1..])
  }

  /** The world at a poll, after everything that happened up to it. */
  ghost function SeenAt(s: World, polls: seq<Poll>, k: nat): World
    requires k < |polls|
  {
    Run(if k == 0 then s else SeenAt(s, polls, k - 1), polls[k].meanwhile)
  }

  /** The recorded candidate runs and has written the evidence of its marker. */
  ghost predicate Proven(t: World, r: Record) {
    CandidateRuns(t) && r.candidateId == Some(t.candidate.value.id) && t.marker.Some? && t.evidence == t.marker
  }

  /** It exited or is another one, the marker is gone, or the evidence is of another token. */
  ghost predicate Disproven(t: World, r: Record) {
    || t.candidate.None? || !t.candidate.value.running || r.candidateId != Some(t.candidate.value.id)
    || t.marker.None? || (t.evidence.Some? && t.evidence != t.marker)
  }

  /** The first stable poll that sees the proof, and no poll before it saw anything against it. */
  ghost predicate VerifiedAt(s: World, r: Record, polls: seq<Poll>, k: nat) {
    && k < |polls| && polls[k].stable && Proven(SeenAt(s, polls, k), r)
    && forall j: nat :: j < k ==>
         !Disproven(SeenAt(s, polls, j), r) && (polls[j].stable ==> !Proven(SeenAt(s, polls, j), r))
  }

  /** The row is at success and marker, evidence and handoff are gone. */
  ghost predicate CommitSeen(t: World) {
    && t.marker.None? && t.evidence.None? && !t.handoff
    && Database in t.files && t.files[Database].DatabaseImage? && t.files[Database].row.Success?
  }

  ghost predicate CommittedAt(s: World, polls: seq<Poll>, k: nat) {
    k < |polls| && CommitSeen(SeenAt(s, polls, k)) && forall j: nat :: j < k ==> !CommitSeen(SeenAt(s, polls, j))
  }

  /** The poll at which a wait ends well. */
  ghost predicate AcceptedAt(s: World, r: Record, polls: seq<Poll>, k: nat) {
    if r.checkpoint.CommitPoint? then CommittedAt(s, polls, k) else VerifiedAt(s, r, polls, k)
  }

  lemma {:induction false} SeenLater(s: World, polls: seq<Poll>, k: nat)
    requires k + 1 < |polls|
    ensures SeenAt(Run(s, polls[0].meanwhile), polls[1..], k) == SeenAt(s, polls, k + 1)
  {
    hide Run;
    if k > 0 {
      SeenLater(s, polls, k - 1);
    } else {
      assert SeenAt(s, polls, 0) == Run(s, polls[0].meanwhile);
    }
  }

  lemma AcceptedLater(s: World, r: Record, polls: seq<Poll>, k: nat)
    requires polls != [] && Waits(r)
    requires var t := Run(s, polls[0].meanwhile);
             if r.checkpoint.CommitPoint? then !CommitSeen(t) else !Disproven(t, r) && (polls[0].stable ==> !Proven(t, r))
    ensures AcceptedAt(Run(s, polls[0].meanwhile), r, polls[1..], k) <==> AcceptedAt(s, r, polls, k + 1)
    ensures !AcceptedAt(s, r, polls, 0)
  {
    hide Run, Proven, Disproven, CommitSeen;
    assert SeenAt(s, polls, 0) == Run(s, polls[0].meanwhile);
    forall j: nat | j + 1 < |polls| ensures SeenAt(Run(s, polls[0].meanwhile), polls[1..], j) == SeenAt(s, polls, j + 1) {
      SeenLater(s, polls, j);
    }
    if AcceptedAt(Run(s, polls[0].meanwhile), r, polls[1..], k) {
      forall j: nat | j < k + 1
        ensures if r.checkpoint.CommitPoint? then !CommitSeen(SeenAt(s, polls, j))
                else !Disproven(SeenAt(s, polls, j), r) && (polls[j].stable ==> !Proven(SeenAt(s, polls, j), r))
      {
        if j > 0 {
          assert SeenAt(Run(s, polls[0].meanwhile), polls[1..], j - 1) == SeenAt(s, polls, j);
        }
      }
    }
  }

  /** A wait ends well exactly if some poll is the accepting one, and then in the world of that poll. */
  lemma {:induction false} AwaitedExactly(s: World, r: Record, polls: seq<Poll>)
    requires Waits(r)
    ensures Awaited(s, r, polls).1 <==> exists k: nat :: AcceptedAt(s, r, polls, k)
    ensures forall k: nat :: AcceptedAt(s, r, polls, k) ==> k < |polls| && Awaited(s, r, polls).0 == SeenAt(s, polls, k)
    decreases |polls|
  {
    hide Run;
    if polls != [] {
      var t := Run(s, polls[0].meanwhile);
      assert SeenAt(s, polls, 0) == t;
      LooksDecide(t, r);
      var ends := if r.checkpoint.CommitPoint? then CommitSeen(t) else polls[0].stable && Proven(t, r);
      if ends {
        assert AcceptedAt(s, r, polls, 0);
        forall k: nat | AcceptedAt(s, r, polls, k) ensures k == 0 {
          OnlyTheFirst(s, r, polls, k);
        }
      } else if !r.checkpoint.CommitPoint? && Disproven(t, r) {
        forall k: nat ensures !AcceptedAt(s, r, polls, k) {
          NoneAfterDisproof(s, r, polls, k);
        }
      } else {
        AwaitedExactly(t, r, polls[1..]);
        forall k: nat ensures AcceptedAt(t, r, polls[1..], k) <==> AcceptedAt(s, r, polls, k + 1) {
          AcceptedLater(s, r, polls, k);
        }
        LaterIsEnough(s, r, polls);
      }
    }
  }

  lemma LooksDecide(t: World, r: Record)
    requires Waits(r)
    ensures r.checkpoint.CommitPoint? ==> !Refuses(t, r) && (ForwardConfirm(t, r).Some? <==> CommitSeen(t))
    ensures !r.checkpoint.CommitPoint? ==>
              (Refuses(t, r) <==> Disproven(t, r)) && (!Refuses(t, r) ==> (ForwardConfirm(t, r).Some? <==> Proven(t, r)))
  {
  }

  lemma OnlyTheFirst(s: World, r: Record, polls: seq<Poll>, k: nat)
    requires AcceptedAt(s, r, polls, 0) && AcceptedAt(s, r, polls, k)
    ensures k == 0
  {
    hide Run, Proven, Disproven, CommitSeen;
  }

  lemma NoneAfterDisproof(s: World, r: Record, polls: seq<Poll>, k: nat)
    requires polls != [] && !r.checkpoint.CommitPoint? && Disproven(SeenAt(s, polls, 0), r)
    ensures !AcceptedAt(s, r, polls, k)
  {
    hide Run;
  }

  lemma LaterIsEnough(s: World, r: Record, polls: seq<Poll>)
    requires polls != [] && !AcceptedAt(s, r, polls, 0)
    requires forall k: nat :: AcceptedAt(Run(s, polls[0].meanwhile), r, polls[1..], k) <==> AcceptedAt(s, r, polls, k + 1)
    ensures (exists k: nat :: AcceptedAt(Run(s, polls[0].meanwhile), r, polls[1..], k)) <==>
            (exists k: nat :: AcceptedAt(s, r, polls, k))
    ensures forall k: nat :: AcceptedAt(s, r, polls, k) && k < |polls| ==>
              k > 0 && SeenAt(s, polls, k) == SeenAt(Run(s, polls[0].meanwhile), polls[1..], k - 1)
              && AcceptedAt(Run(s, polls[0].meanwhile), r, polls[1..], k - 1)
    ensures forall k: nat :: AcceptedAt(s, r, polls, k) ==> k < |polls|
  {
    hide Run, Proven, Disproven, CommitSeen;
    forall k: nat | AcceptedAt(s, r, polls, k)
      ensures 0 < k < |polls| && AcceptedAt(Run(s, polls[0].meanwhile), r, polls[1..], k - 1)
      ensures SeenAt(s, polls, k) == SeenAt(Run(s, polls[0].meanwhile), polls[1..], k - 1)
    {
      assert k > 0;
      assert AcceptedAt(s, r, polls, (k - 1) + 1);
      SeenLater(s, polls, k - 1);
    }
    if k: nat :| AcceptedAt(s, r, polls, k) {
      assert AcceptedAt(Run(s, polls[0].meanwhile), r, polls[1..], k - 1);
    }
    if k: nat :| AcceptedAt(Run(s, polls[0].meanwhile), r, polls[1..], k) {
      assert AcceptedAt(s, r, polls, k + 1);
    }
  }

  /** The candidate is not recorded as verified. */
  ghost predicate NotVerified(journal: Option<Record>) {
    journal.None? || journal.value.checkpoint.Index() <= CandidateStarted.Index()
  }

  /** The candidate was never seen healthy and unchanged for a whole window. */
  ghost predicate NeverStable(polls: seq<Poll>) {
    forall k :: 0 <= k < |polls| ==> !polls[k].stable
  }

  lemma UnstableIsNotAccepted(s: World, r: Record, polls: seq<Poll>)
    requires Waits(r)
    ensures NeverStable(polls) && r.checkpoint.Index() <= CandidateStarted.Index() ==>
              forall k: nat :: !AcceptedAt(s, r, polls, k)
    ensures r.checkpoint.Index() <= CandidateStarted.Index() ==> !r.checkpoint.CommitPoint?
  {
    hide Proven, Disproven;
  }

  lemma SuccessIsVerified(s: World, r: Record)
    requires Inv(s) && s.journal == Some(r) && r.status.Success?
    ensures !NotVerified(s.journal)
  {
    hide SourceOk, CandidateOk, MarkersOk, RecordsInv;
  }

  lemma OthersLeaveTheCoordinator(s: World, a: Action, t: World)
    requires OfOthers(a) && Step(s, a) == Some(t)
    ensures t.coordinator == s.coordinator && t.journal == s.journal
  {
  }

  // ---- one turn of the forward loop --------------------------------------------------------

  lemma BudgetIsPositive(r: Record)
    requires ValidRecord(r) && !r.status.Terminal()
    ensures Budget(r) > 0
  {
  }

  lemma WriteSpendsBudget(r: Record, w: Write, q: Record)
    requires ValidRecord(r) && CheckpointV2(r, w) == Ok(q)
    ensures Budget(q) < Budget(r)
  {
    OneWrite(r, q);
  }

  /** One turn of the forward loop is one, two or three protocol steps. */
  lemma ForwardLap(s: World, r: Record, t: World, carried: Option<Option<nat>>, id: nat) returns (more: seq<Action>, next: World)
    requires Inv(s) && s.coordinator == Forwarding(id, Begin) && s.journal == Some(r) && !r.status.Success?
    requires ForwardEffect(s, r, t, carried)
    ensures Inv(t) && Inv(next)
    ensures carried.None? ==> next == At(t, Idle)
    ensures carried.Some? ==>
              var q := CheckpointV2(r, ForwardWrite(r, carried.value));
              q.Ok? && next == t.(journal := Some(q.value)) && ValidRecord(r) && Budget(q.value) < Budget(r)
    ensures Run(s, more) == next && OwnOrOthers(more)
  {
    hide ContainersInv, RecordsInv, ForwardAct, ForwardConfirm, CheckpointV2;
    var acted := ForwardAct(s, r);
    if acted.None? {
      RunOne(s, Crash);
      StageInv(s, r, Idle);
      return [Crash], At(s, Idle);
    }
    ForwardActInv(s, r, t);
    var s1 := At(t, Forwarding(id, Acted));
    ForwardInv(s);
    RunOne(s, Forward);
    if carried.None? {
      RunOne(s1, Crash);
      RunAppend(s, [Forward], [Crash]);
      StageInv(t, r, Idle);
      return [Forward] + [Crash], At(t, Idle);
    }
    ConfirmIgnoresStage(t, r, Forwarding(id, Acted));
    ForwardInv(s1);
    var s2 := At(t, Forwarding(id, Confirmed(carried.value)));
    RunOne(s1, Forward);
    RunAppend(s, [Forward], [Forward]);
    ForwardWriteIsAccepted(s2, r);
    ForwardInv(s2);
    RunOne(s2, Forward);
    RunAppend(s, [Forward] + [Forward], [Forward]);
    more, next := [Forward] + [Forward] + [Forward], ForwardStep(s2).value;
    RecordIsValid(s, r);
    WriteSpendsBudget(r, ForwardWrite(r, carried.value), CheckpointV2(r, ForwardWrite(r, carried.value)).value);
  }

  /** A wait that ended well is confirmed and recorded. */
  lemma WaitIsRecorded(s: World, r: Record, id: nat) returns (t: World)
    requires Inv(s) && s.coordinator == Forwarding(id, Acted) && s.journal == Some(r) && Waits(r) && !r.status.Success?
    requires ForwardConfirm(s, r) == Some(None)
    ensures var q := CheckpointV2(r, ForwardWrite(r, None));
            && q.Ok? && t == At(s.(journal := Some(q.value)), Forwarding(id, Begin))
            && ValidRecord(r) && Budget(q.value) < Budget(r)
    ensures Inv(t) && Run(s, [Forward] + [Forward]) == t
  {
    hide ContainersInv, RecordsInv, ForwardAct, ForwardConfirm, CheckpointV2;
    var u := At(s, Forwarding(id, Confirmed(None)));
    ForwardInv(s);
    RunOne(s, Forward);
    ForwardWriteIsAccepted(u, r);
    ForwardInv(u);
    RunOne(u, Forward);
    RunAppend(s, [Forward], [Forward]);
    t := ForwardStep(u).value;
    RecordIsValid(s, r);
    WriteSpendsBudget(r, ForwardWrite(r, None), CheckpointV2(r, ForwardWrite(r, None)).value);
  }

  /** Steps of the executor and of others; a crash stands for giving up. */
  ghost predicate OwnOrOthers(trace: seq<Action>) {
    forall a <- trace :: a.Forward? || a.Crash? || OfOthers(a)
  }

  /** At every other checkpoint the executor finishes its work. */
  lemma NothingRefuses(s: World, id: nat, r: Record)
    requires Ready(s, id, r) && !Waits(r)
    ensures ForwardAct(s, r).Some? && ForwardConfirm(ForwardAct(s, r).value, r).Some?
    ensures !r.checkpoint.CommitPoint? && (r.checkpoint.CandidateStarted? ==> r.status.Switching?)
  {
    hide SourceOk, CandidateOk, MarkersOk, RecordsInv;
    ForwardPrepared(s, r);
    if OnItsOwn(r) {
      OwnWorkIsDone(s, id, r);
    }
  }

  lemma CommitIsNotRefused(s: World, r: Record)
    requires r.checkpoint.CommitPoint?
    ensures !Refuses(s, r)
  {
  }

  lemma WaitCarriesNothing(s: World, r: Record)
    requires Waits(r) && ForwardConfirm(s, r).Some?
    ensures ForwardConfirm(s, r) == Some(None)
  {
  }

  lemma WaitBegins(s: World, r: Record, id: nat)
    requires Inv(s) && s.coordinator == Forwarding(id, Begin) && s.journal == Some(r) && Waits(r) && !r.status.Terminal()
    ensures Run(s, [Forward]) == At(s, Forwarding(id, Acted)) && Inv(At(s, Forwarding(id, Acted)))
  {
    hide ContainersInv, RecordsInv, ForwardAct;
    WaitCanBegin(s, r);
    ForwardInv(s);
    RunOne(s, Forward);
  }

  lemma GivesUp(s: World, r: Record)
    requires Inv(s) && s.coordinator.Forwarding? && s.journal == Some(r)
    ensures Inv(At(s, Idle)) && Run(s, [Crash]) == At(s, Idle)
  {
    hide ContainersInv, RecordsInv;
    RunOne(s, Crash);
    StageInv(s, r, Idle);
  }

  lemma WaitIsGivenUp(s: World, r: Record, id: nat)
    requires Inv(s) && s.coordinator == Forwarding(id, Acted) && s.journal == Some(r) && Waits(r)
    ensures Inv(At(s, Forwarding(id, Begin))) && Run(s, [Crash]) == At(s, Idle)
  {
    hide ContainersInv, SnapshotOk, DataOk, RowOk;
    RunOne(s, Crash);
    StageInv(s, r, Forwarding(id, Begin));
  }

  /** The recorded candidate is there as long as it is being verified. */
  lemma WaitCanBegin(s: World, r: Record)
    requires Inv(s) && s.coordinator.Forwarding? && s.journal == Some(r) && Waits(r)
    ensures ForwardAct(s, r) == Some(s)
    ensures !r.checkpoint.CommitPoint? ==> s.marker.Some? && CandidateIdentified(s, r)
  {
    hide SnapshotOk, DataOk, ProcessOk;
  }

  lemma StartsWithRecord(s: World, id: nat)
    requires Inv(s) && s.coordinator == Forwarding(id, Begin) && s.journal.None?
    ensures Run(s, [Forward]) == s.(journal := Some(StartRecord(id))) && Inv(s.(journal := Some(StartRecord(id))))
  {
    ForwardInv(s);
    RunOne(s, Forward);
  }

  /** In a reachable forward world the marker exists wherever the executor prepares again. */
  lemma ForwardPrepared(s: World, r: Record)
    requires Inv(s) && s.coordinator.Forwarding? && s.journal == Some(r) && !r.status.Terminal()
    ensures !r.checkpoint.Rollback()
    ensures 5 <= r.checkpoint.Index() <= 8 ==> s.marker.Some?
  {
    hide SourceOk, CandidateOk, SnapshotOk, DataOk;
  }

  /** The forward executor never meets the record of a failed or reverted update. */
  lemma ForwardIsOpen(s: World, r: Record)
    requires Inv(s) && s.coordinator.Forwarding? && s.journal == Some(r)
    ensures r.status.Success? || !r.status.Terminal()
  {
    hide SourceOk, CandidateOk, MarkersOk, SnapshotOk, DataOk, RowOk;
  }

  lemma ForwardStatusOnly(r: Record, carried: Option<nat>)
    ensures var q := CheckpointV2(r, ForwardWrite(r, carried));
            q.Ok? ==> q.value.status.Success? || !q.value.status.Terminal()
    ensures var q := CheckpointV2(r, ForwardWrite(r, carried));
            q.Ok? && r.checkpoint.Index() <= 7 && !Waits(r) && (r.checkpoint.CandidateStarted? ==> r.status.Switching?) ==>
              q.value.checkpoint.Index() <= 7
  {
  }

  lemma RecordIsValid(s: World, r: Record)
    requires Inv(s) && s.journal == Some(r)
    ensures ValidRecord(r)
  {
    hide SourceOk, CandidateOk, MarkersOk, RecordsInv;
  }

  lemma ConfirmIgnoresStage(s: World, r: Record, c: Coordinator)
    ensures ForwardConfirm(At(s, c), r) == ForwardConfirm(s, r)
    ensures forall healthy :: RollbackConfirm(At(s, c), r, healthy) == RollbackConfirm(s, r, healthy)
  {
  }

  class UpdaterHost {
    var source: Option<OldContainer>
    var candidate: Option<Candidate>
    var marker: Option<nat>
    var handoff: bool
    var evidence: Option<nat>
    var snapshot: Option<Snapshot>
    var files: Files
    var journal: Option<Record>
    var reconciler: Reconciler
    var coordinator: Coordinator
    var issued: nat
    var stoppedFiles: Files
    var candidateWrote: bool

    function State(): World
      reads this
    {
      World(source, candidate, marker, handoff, evidence, snapshot, files, journal, reconciler, coordinator,
            issued, stoppedFiles, candidateWrote)
    }

    constructor (old0: OldContainer, files: Files)
      ensures source == Some(old0) && this.files == files
      ensures old0 == OldContainer(true, OriginalName, OriginalPolicy) && DataDirectory(files) && RowOf(files).Handoff? ==>
                Initial(State())
    {
      source, candidate := Some(old0), None;
      marker, handoff, evidence, snapshot := None, true, None, None;
      this.files, stoppedFiles, candidateWrote := files, files, false;
      journal, reconciler, coordinator, issued := None, Resting, Idle, 0;
    }

    // ---- observation ---------------------------------------------------------------------

    method LookAtSource(r: Record) returns (o: Observation)
      ensures o == ObserveSource(State(), r)
    {
      if source.None? {
        return Missing;
      }
      o := if NameExpected(source.value.name, r.checkpoint) then Matched(0, source.value.running) else Conflict;
    }

    method LookAtCandidate(r: Record) returns (o: Observation)
      ensures o == ObserveCandidate(State(), r)
    {
      if candidate.None? {
        return Missing;
      }
      var c := candidate.value;
      if (r.candidateId.Some? && r.candidateId.value != c.id) || (marker.Some? && marker.value != c.token)
         || r.tokenHash != Some(Sha256(c.token)) {
        return Conflict;
      }
      o := Matched(c.id, c.running);
    }

    method Prepare() returns (token: nat)
      modifies this`marker, this`issued
      ensures State() == EnsureMarker(old(State())) && marker == Some(token)
    {
      if marker.None? {
        marker, issued := Some(issued), issued + 1;
      }
      token := marker.value;
    }

    method Checkpoint(w: Write) returns (ok: bool)
      requires journal.Some?
      modifies this`journal
      ensures ok <==> CheckpointV2(old(journal).value, w).Ok?
      ensures journal == if ok then Some(CheckpointV2(old(journal).value, w).value) else old(journal)
    {
      match CheckpointV2(journal.value, w)
      case Ok(next) =>
        journal, ok := Some(next), true;
      case Err(_) =>
        ok := false;
    }

    // ---- forward effects -----------------------------------------------------------------

    method FenceOldRestart(r: Record) returns (c: Option<Option<nat>>)
      requires r.checkpoint.Initialized?
      modifies this
      ensures ForwardEffect(old(State()), r, State(), c)
    {
      if source.None? || !source.value.name.OriginalName? {
        return None;
      }
      if source.value.policy != NeverRestart {
        source := Some(source.value.(policy := NeverRestart));
      }
      c := Some(None);
    }

    method StopOldContainer(r: Record) returns (c: Option<Option<nat>>)
      requires r.checkpoint.OldRestartFenced?
      modifies this
      ensures ForwardEffect(old(State()), r, State(), c)
    {
      if source.None? || !source.value.name.OriginalName? {
        return None;
      }
      if source.value.running {
        source := Some(source.value.(running := false));
        reconciler := Resting;
        stoppedFiles := files;
      }
      c := Some(None);
    }

    method PreparePending(r: Record) returns (c: Option<Option<nat>>)
      requires r.checkpoint.OldStopped?
      modifies this
      ensures ForwardEffect(old(State()), r, State(), c)
    {
      var token := Prepare();
      c := Some(Some(token));
    }

    method EnsureSnapshot(r: Record) returns (c: Option<Option<nat>>)
      requires r.checkpoint.PendingReady?
      modifies this
      ensures ForwardEffect(old(State()), r, State(), c)
    {
      if snapshot.None? {
        if !handoff || Database !in files || Secrets !in files {
          return None;
        }
        snapshot := Some(Capture(files));
      }
      c := if Verified(snapshot.value) then Some(None) else None;
    }

    method RenameOld(r: Record) returns (c: Option<Option<nat>>)
      requires r.checkpoint.SnapshotVerified?
      modifies this
      ensures ForwardEffect(old(State()), r, State(), c)
    {
      if source.None? {
        return None;
      }
      if source.value.name.OriginalName? {
        source := Some(source.value.(name := PreviousName));
      }
      c := Some(None);
    }

    method EnsureCandidate(r: Record) returns (c: Option<Option<nat>>)
      requires r.checkpoint.OldRenamed?
      modifies this
      ensures ForwardEffect(old(State()), r, State(), c)
    {
      var token := Prepare();
      var seen := LookAtCandidate(r);
      if seen.Missing? {
        candidate, issued := Some(Candidate(issued, token, false)), issued + 1;
        seen := LookAtCandidate(r);
      }
      var old0 := LookAtSource(r);
      c := if old0.Matched? && seen.Matched? then Some(Some(seen.id)) else None;
    }

    method RequireCandidate(r: Record) returns (ok: bool)
      ensures ok <==> CandidateIdentified(State(), r)
    {
      var old0 := LookAtSource(r);
      var seen := LookAtCandidate(r);
      ok := old0.Matched? && seen.Matched? && r.candidateId == Some(seen.id);
    }

    method StartTheCandidate(r: Record) returns (c: Option<Option<nat>>)
      requires r.checkpoint.CandidateCreated? && marker.Some?
      modifies this
      ensures ForwardEffect(old(State()), r, State(), c)
    {
      var token := Prepare();
      var identified := RequireCandidate(r);
      if !identified {
        return None;
      }
      if !candidate.value.running {
        candidate := Some(candidate.value.(running := true));
        candidateWrote := true;
      }
      c := Some(None);
    }

    // ---- waiting for others --------------------------------------------------------------

    method Become(w: World)
      modifies this
      ensures State() == w
    {
      source, candidate, marker, handoff, evidence := w.source, w.candidate, w.marker, w.handoff, w.evidence;
      snapshot, files, journal, reconciler := w.snapshot, w.files, w.journal, w.reconciler;
      coordinator, issued, stoppedFiles, candidateWrote := w.coordinator, w.issued, w.stoppedFiles, w.candidateWrote;
    }

    /** The rest of the host goes on while the coordinator sleeps. */
    method Meanwhile(actions: seq<Action>)
      requires Inv(State()) && coordinator.Forwarding? && forall i :: 0 <= i < |actions| ==> OfOthers(actions[i])
      modifies this
      ensures State() == Run(old(State()), actions) && Inv(State())
      ensures coordinator == old(coordinator) && journal == old(journal)
    {
      hide Inv, Step, Run;
      ghost var s0 := State();
      RunNone(s0);
      for i := 0 to |actions|
        invariant State() == Run(s0, actions[..i]) && Inv(State())
        invariant coordinator == s0.coordinator && journal == s0.journal
      {
        ghost var here := State();
        var next := Step(State(), actions[i]);
        assert actions[..i + 1] == actions[..i] + [actions[i]];
        RunAppend(s0, actions[..i], [actions[i]]);
        RunOne(here, actions[i]);
        if next.Some? {
          StepInv(here, actions[i]);
          OthersLeaveTheCoordinator(here, actions[i], next.value);
          Become(next.value);
        }
      }
      assert actions[..|actions|] == actions;
    }

    /** What a poll of the candidate's verification sees: an end, evidence, or nothing yet. */
    method LookAtEvidence(r: Record) returns (refused: bool, ready: bool)
      requires Waits(r) && r.checkpoint.CandidateStarted?
      ensures refused <==> Refuses(State(), r)
      ensures !refused ==> (ready <==> ForwardConfirm(State(), r).Some?)
    {
      if candidate.None? || !candidate.value.running || r.candidateId != Some(candidate.value.id) || marker.None? {
        return true, false;
      }
      refused, ready := evidence.Some? && evidence != marker, evidence == marker;
    }

    /** What a poll of the commit waiter sees: markers removed and the row at success. */
    method LookAtCommit(r: Record) returns (ready: bool)
      requires r.checkpoint.CommitPoint?
      ensures ready <==> ForwardConfirm(State(), r).Some?
    {
      var committed := Database in files && files[Database].DatabaseImage? && files[Database].row.Success?;
      ready := marker.None? && evidence.None? && !handoff && committed;
    }

    /** Sleep and look again until the condition holds, is refused, or the time is up. */
    method Await(r: Record, polls: seq<Poll>) returns (ok: bool, ghost more: seq<Action>)
      requires Inv(State()) && coordinator.Forwarding? && journal == Some(r) && Waits(r) && OthersOnly(polls)
      modifies this
      ensures (State(), ok) == Awaited(old(State()), r, polls)
      ensures ok <==> exists k: nat :: AcceptedAt(old(State()), r, polls, k)
      ensures forall k: nat :: AcceptedAt(old(State()), r, polls, k) ==> k < |polls| && State() == SeenAt(old(State()), polls, k)
      ensures Inv(State()) && coordinator == old(coordinator) && journal == old(journal)
      ensures ok ==> ForwardConfirm(State(), r) == Some(None)
      ensures Run(old(State()), more) == State() && forall a <- more :: OfOthers(a)
    {
      hide Inv, Step, Run, ForwardConfirm, Refuses, AcceptedAt;
      ghost var s0 := State();
      AwaitedExactly(s0, r, polls);
      RunNone(s0);
      more := [];
      var k := 0;
      while k < |polls|
        invariant 0 <= k <= |polls| && Awaited(State(), r, polls[k..]) == Awaited(s0, r, polls)
        invariant Inv(State()) && coordinator == s0.coordinator && journal == s0.journal
        invariant Run(s0, more) == State() && forall a <- more :: OfOthers(a)
      {
        ghost var here := State();
        Meanwhile(polls[k].meanwhile);
        RunAppend(s0, more, polls[k].meanwhile);
        more := more + polls[k].meanwhile;
        assert polls[k..][0] == polls[k] && polls[k..][1..] == polls[k + 1..];
        var refused, ready := false, false;
        if r.checkpoint.CommitPoint? {
          ready := LookAtCommit(r);
          CommitIsNotRefused(State(), r);
        } else {
          refused, ready := LookAtEvidence(r);
        }
        if refused {
          return false, more;
        }
        if ready && (polls[k].stable || r.checkpoint.CommitPoint?) {
          WaitCarriesNothing(State(), r);
          return true, more;
        }
        k := k + 1;
      }
      ok := false;
    }

    method CleanupOld(r: Record) returns (ok: bool)
      modifies this`source
      ensures ok <==> old(source).None? || ObserveSource(old(State()), r).Matched?
      ensures source == if ok then None else old(source)
    {
      if source.None? {
        return true;
      }
      var seen := LookAtSource(r);
      if !seen.Matched? {
        return false;
      }
      source, ok := None, true;
    }

    method ForwardWork(r: Record) returns (c: Option<Option<nat>>)
      requires !r.checkpoint.Rollback() && !r.checkpoint.CommitPoint?
      requires r.checkpoint.CandidateStarted? ==> r.status.Switching?
      requires 5 <= r.checkpoint.Index() <= 8 ==> marker.Some?
      modifies this
      ensures ForwardEffect(old(State()), r, State(), c)
    {
      match r.checkpoint
      case Initialized => c := FenceOldRestart(r);
      case OldRestartFenced => c := StopOldContainer(r);
      case OldStopped => c := PreparePending(r);
      case PendingReady => c := EnsureSnapshot(r);
      case SnapshotVerified => c := RenameOld(r);
      case OldRenamed => c := EnsureCandidate(r);
      case CandidateCreated => c := StartTheCandidate(r);
      case _ => c := Some(None);
    }

    /** One turn of the loop: the work of the current checkpoint and the record of the next. */
    method WorkingTurn(id: nat) returns (ghost more: seq<Action>)
      requires Inv(State()) && coordinator == Forwarding(id, Begin)
      requires journal.Some? && !journal.value.status.Terminal() && !Waits(journal.value)
      modifies this
      ensures Inv(State()) && coordinator == Forwarding(id, Begin) && journal.Some?
      ensures Run(old(State()), more) == State() && OwnOrOthers(more)
      ensures Budget(journal.value) < Budget(old(journal).value)
      ensures journal.value.status.Success? || !journal.value.status.Terminal()
      ensures old(journal).value.checkpoint.Index() <= 7 ==> journal.value.checkpoint.Index() <= 7
    {
      hide ContainersInv, RecordsInv, ForwardAct, ForwardConfirm, CheckpointV2, Run;
      ghost var s1 := State();
      var r := journal.value;
      ForwardPrepared(s1, r);
      NothingRefuses(s1, id, r);
      var carried := ForwardWork(r);
      assert journal == Some(r) && coordinator == Forwarding(id, Begin) by {
        ForwardActInv(s1, r, State());
      }
      ghost var next;
      more, next := ForwardLap(s1, r, State(), carried, id);
      var w := ForwardWrite(r, carried.value);
      ForwardStatusOnly(r, carried.value);
      var written := Checkpoint(w);
    }

    /** A turn that waits: for the verification of the candidate, or for the commit. */
    method WaitingTurn(id: nat, polls: seq<Poll>) returns (done: bool, ghost more: seq<Action>)
      requires Inv(State()) && coordinator == Forwarding(id, Begin)
      requires journal.Some? && !journal.value.status.Terminal() && Waits(journal.value) && OthersOnly(polls)
      modifies this
      ensures Inv(State()) && coordinator == Forwarding(id, Begin) && journal.Some?
      ensures Run(old(State()), more) == (if done then State() else At(State(), Idle)) && OwnOrOthers(more)
      ensures done ==> Budget(journal.value) < Budget(old(journal).value)
      ensures !done ==> journal == old(journal)
      ensures done <==> exists k: nat :: AcceptedAt(At(old(State()), Forwarding(id, Acted)), old(journal).value, polls, k)
      ensures journal.value.status.Success? || !journal.value.status.Terminal()
    {
      hide Inv, Step, Waits, CandidateIdentified, ForwardAct, ForwardConfirm, CheckpointV2, Run;
      hide Awaited, Refuses, AcceptedAt, SeenAt, Budget;
      ghost var s0 := State();
      var r := journal.value;
      WaitCanBegin(s0, r);
      if !r.checkpoint.CommitPoint? {
        var token := Prepare();
        var identified := RequireCandidate(r);
        assert identified;
      }
      WaitBegins(s0, r, id);
      coordinator := Forwarding(id, Acted);
      ghost var meanwhile;
      done, meanwhile := Await(r, polls);
      RunAppend(s0, [Forward], meanwhile);
      ghost var s2 := State();
      if !done {
        WaitIsGivenUp(s2, r, id);
        RunAppend(s0, [Forward] + meanwhile, [Crash]);
        more := [Forward] + meanwhile + [Crash];
        coordinator := Forwarding(id, Begin);
        return;
      }
      ghost var t := WaitIsRecorded(s2, r, id);
      RunAppend(s0, [Forward] + meanwhile, [Forward] + [Forward]);
      more := [Forward] + meanwhile + ([Forward] + [Forward]);
      ForwardStatusOnly(r, None);
      var written := Checkpoint(ForwardWrite(r, None));
      coordinator := Forwarding(id, Begin);
    }

    /** One turn of the forward loop, waiting or working. */
    method ForwardTurn(id: nat, verification: seq<Poll>, commit: seq<Poll>) returns (done: bool, ghost more: seq<Action>)
      requires Inv(State()) && coordinator == Forwarding(id, Begin)
      requires journal.Some? && !journal.value.status.Terminal() && OthersOnly(verification) && OthersOnly(commit)
      modifies this
      ensures Inv(State()) && coordinator == Forwarding(id, Begin) && journal.Some?
      ensures Run(old(State()), more) == (if done then State() else At(State(), Idle)) && OwnOrOthers(more)
      ensures 0 < Budget(old(journal).value) && (done ==> Budget(journal.value) < Budget(old(journal).value))
      ensures !done ==> Waits(journal.value)
      ensures journal.value.status.Success? || !journal.value.status.Terminal()
      ensures NotVerified(old(journal)) && NeverStable(verification) ==> NotVerified(journal)
    {
      hide Inv, Run, AcceptedAt, ValidRecord, Budget, NeverStable;
      var r := journal.value;
      RecordIsValid(State(), r);
      BudgetIsPositive(r);
      if Waits(r) {
        UnstableIsNotAccepted(At(State(), Forwarding(id, Acted)), r, verification);
        done, more := WaitingTurn(id, if r.checkpoint.CommitPoint? then commit else verification);
      } else {
        more := WorkingTurn(id);
        done := true;
      }
    }

    /** After success the old container is removed; it is still the one that was renamed. */
    method FinishForward(id: nat) returns (ghost more: seq<Action>)
      requires Inv(State()) && coordinator == Forwarding(id, Begin)
      requires journal.Some? && journal.value.status.Success?
      modifies this
      ensures Inv(State()) && coordinator.Idle? && journal == old(journal) && source.None?
      ensures Run(old(State()), more) == State() && OwnOrOthers(more)
    {
      hide ContainersInv, RecordsInv;
      ghost var s1 := State();
      OldIsRecognised(s1, journal.value);
      var removed := CleanupOld(journal.value);
      coordinator := Idle;
      RunOne(s1, Forward);
      CleanupOldInv(s1, journal.value);
      more := [Forward];
    }

    /**
     The forward executor. While it waits anybody else may act. It does a run of the protocol and
     either ends in success with the old container removed, or stops at one of its two waits:
     nothing else can make it fail.
     */
    method ExecuteForward(verification: seq<Poll>, commit: seq<Poll>) returns (done: bool, ghost trace: seq<Action>)
      requires Inv(State()) && coordinator.Forwarding? && coordinator.stage.Begin?
      requires OthersOnly(verification) && OthersOnly(commit)
      modifies this
      ensures State() == Run(old(State()), trace) && Inv(State()) && coordinator.Idle? && OwnOrOthers(trace)
      ensures journal.Some?
      ensures if done then journal.value.status.Success? && source.None? else Waits(journal.value)
      ensures NotVerified(old(journal)) && NeverStable(verification) ==> !done && NotVerified(journal)
    {
      hide Inv, Step, Run, Waits, Budget, NeverStable;
      ghost var s0 := State();
      trace := [];
      RunNone(s0);
      var id := coordinator.id;
      if journal.None? {
        journal := Some(StartRecord(id));
        StartsWithRecord(s0, id);
        trace := [Forward];
      } else {
        ForwardIsOpen(s0, journal.value);
      }
      done := true;
      while done && !journal.value.status.Success?
        invariant Inv(State()) && journal.Some? && coordinator == Forwarding(id, Begin) && OwnOrOthers(trace)
        invariant journal.value.status.Success? || !journal.value.status.Terminal()
        invariant Run(s0, trace) == if done then State() else At(State(), Idle)
        invariant !done ==> Waits(journal.value)
        invariant NotVerified(old(journal)) && NeverStable(verification) ==> NotVerified(journal)
        decreases done, Budget(journal.value)
      {
        ghost var more;
        done, more := ForwardTurn(id, verification, commit);
        RunAppend(s0, trace, more);
        trace := trace + more;
      }
      if done {
        SuccessIsVerified(State(), journal.value);
        ghost var more := FinishForward(id);
        RunAppend(s0, trace, more);
        trace := trace + more;
      } else {
        GivesUp(State(), journal.value);
        coordinator := Idle;
      }
    }

    // ---- rollback effects ----------------------------------------------------------------

    method SceneIsSafe(r: Record) returns (safe: bool, seen: Observation)
      ensures safe <==> SafeScene(State(), r)
      ensures seen == ObserveCandidate(State(), r)
    {
      var old0 := LookAtSource(r);
      seen := LookAtCandidate(r);
      safe := old0.Matched? && !seen.Conflict?;
    }

    method StopTheCandidate(r: Record) returns (ok: Option<bool>)
      requires r.checkpoint.RollbackStarted?
      modifies this
      ensures RollbackEffect(old(State()), r, State(), ok, true)
    {
      var safe, seen := SceneIsSafe(r);
      if !safe {
        return None;
      }
      if seen.Matched? && seen.running {
        candidate := Some(candidate.value.(running := false));
        reconciler := Resting;
      }
      safe, seen := SceneIsSafe(r);
      ok := Some(safe && !(seen.Matched? && seen.running));
    }

    method RemoveTheCandidate(r: Record) returns (ok: Option<bool>)
      requires r.checkpoint.CandidateStopped?
      modifies this
      ensures RollbackEffect(old(State()), r, State(), ok, true)
    {
      var safe, seen := SceneIsSafe(r);
      if !safe || (seen.Matched? && seen.running) {
        return None;
      }
      if seen.Matched? {
        candidate := None;
      }
      safe, seen := SceneIsSafe(r);
      ok := Some(safe && seen.Missing?);
    }

    method RemoveEvidence(r: Record) returns (ok: Option<bool>)
      requires r.checkpoint.SnapshotRestored?
      modifies this
      ensures RollbackEffect(old(State()), r, State(), ok, true)
    {
      evidence, ok := None, Some(true);
    }

    method RestoreOldName(r: Record) returns (ok: Option<bool>)
      requires r.checkpoint.EvidenceRemoved?
      modifies this
      ensures RollbackEffect(old(State()), r, State(), ok, true)
    {
      var seen := LookAtSource(r);
      if !seen.Matched? {
        return None;
      }
      if source.value.name.PreviousName? {
        source := Some(source.value.(name := OriginalName));
      }
      ok := Some(true);
    }

    method RestoreOldPolicy(r: Record) returns (ok: Option<bool>)
      requires r.checkpoint.OldNameRestored?
      modifies this
      ensures RollbackEffect(old(State()), r, State(), ok, true)
    {
      var seen := LookAtSource(r);
      if !seen.Matched? {
        return None;
      }
      if source.value.policy != OriginalPolicy {
        source := Some(source.value.(policy := OriginalPolicy));
      }
      ok := Some(true);
    }

    method StartOldContainer(r: Record) returns (ok: Option<bool>)
      requires r.checkpoint.OldPolicyRestored?
      modifies this
      ensures RollbackEffect(old(State()), r, State(), ok, true)
    {
      var seen := LookAtSource(r);
      if !seen.Matched? {
        return None;
      }
      if !source.value.running {
        source := Some(source.value.(running := true));
      }
      ok := Some(true);
    }

    method RollbackWork(r: Record, healthy: bool) returns (ok: Option<bool>)
      requires r.checkpoint.Rollback() && (r.checkpoint.CandidateRemoved? ==> snapshot.None?)
      modifies this
      ensures RollbackEffect(old(State()), r, State(), ok, healthy)
    {
      match r.checkpoint
      case RollbackStarted => ok := StopTheCandidate(r);
      case CandidateStopped => ok := RemoveTheCandidate(r);
      case SnapshotRestored => ok := RemoveEvidence(r);
      case EvidenceRemoved => ok := RestoreOldName(r);
      case OldNameRestored => ok := RestoreOldPolicy(r);
      case OldPolicyRestored => ok := StartOldContainer(r);
      case OldStarted =>
        ok := Some(healthy && source.Some? && source.value.running && source.value.name.OriginalName?);
      case _ => ok := Some(true);
    }

    /** The restore loop: one file operation after the other. */
    method RestoreSnapshot(id: nat, healthy: bool) returns (ghost more: seq<Action>)
      requires Inv(State()) && coordinator == Reverting(id, Begin) && journal.Some? && snapshot.Some?
      requires journal.value.status.RollingBack? && journal.value.checkpoint.CandidateRemoved?
      modifies this
      ensures Inv(State()) && coordinator == Reverting(id, Acted) && journal == old(journal)
      ensures Run(old(State()), more) == State() && Only(more, Rollback(healthy))
      ensures files == old(stoppedFiles) && !candidateWrote
    {
      hide Run, RollbackStep, RollbackAct, RollbackConfirm, CheckpointV2;
      hide ContainersInv, RecordsInv, RestorePlan, Step, Capture, Verified;
      ghost var s0 := State();
      ghost var r := journal.value;
      SnapshotVerifies(s0, r);
      var plan := RestorePlan(snapshot.value);
      coordinator := Reverting(id, Restoring(0));
      RestoreBegins(s0, r, id, healthy);
      more := [Rollback(healthy)];
      var k := 0;
      while k < |plan|
        invariant 0 <= k <= |plan| && snapshot.Some? && plan == RestorePlan(snapshot.value)
        invariant Inv(State()) && coordinator == Reverting(id, Restoring(k))
        invariant journal == Some(r) && snapshot == s0.snapshot && stoppedFiles == s0.stoppedFiles
        invariant Run(s0, more) == State() && Only(more, Rollback(healthy))
      {
        ghost var here := State();
        files := ApplyStep(files, plan[k]);
        coordinator := Reverting(id, Restoring(k + 1));
        RestoreGoesOn(here, r, id, k, healthy);
        RunAppend(s0, more, [Rollback(healthy)]);
        more := more + [Rollback(healthy)];
        k := k + 1;
      }
      ghost var here := State();
      candidateWrote := false;
      coordinator := Reverting(id, Acted);
      RestoreEnds(here, r, id, healthy);
      RunAppend(s0, more, [Rollback(healthy)]);
      more := more + [Rollback(healthy)];
    }

    /** Record that an identity or state check failed and stop. */
    method RecordFailure(r: Record)
      requires journal == Some(r)
      modifies this
      ensures State() == RecordRollbackFailed(old(State()), r)
    {
      var written := Checkpoint(Write(RollbackFailed, r.checkpoint, None, None, None));
      coordinator := Idle;
    }

    /** Confirm, then record the next rollback checkpoint. */
    method RecordRollback(id: nat, r: Record, ok: bool, ghost healthy: bool) returns (ghost more: seq<Action>)
      requires Inv(State()) && coordinator == Reverting(id, Acted) && journal == Some(r) && r.status.RollingBack?
      requires ok <==> RollbackConfirm(State(), r, healthy)
      modifies this
      ensures Inv(State()) && (coordinator.Idle? || (coordinator == Reverting(id, Begin) && journal.value.status.RollingBack?))
      ensures journal.Some? && (coordinator.Reverting? ==> Budget(journal.value) < Budget(r))
      ensures Run(old(State()), more) == State() && Only(more, Rollback(healthy))
    {
      hide RollbackAct, RestorePlan, Verified, DataOk;
      hide ContainersInv, RecordsInv, CheckpointV2, RollbackConfirm, Run;
      ghost var s0 := State();
      RollbackInv(s0, r, healthy);
      RunOne(s0, Rollback(healthy));
      more := [Rollback(healthy)];
      if !ok {
        FailureIsRecorded(s0, r);
        RecordFailure(r);
        return;
      }
      ghost var s1 := At(s0, Reverting(id, Confirmed(None)));
      RollbackInv(s1, r, healthy);
      RunOne(s1, Rollback(healthy));
      RunAppend(s0, more, [Rollback(healthy)]);
      more := more + [Rollback(healthy)];
      RollbackWriteIsAccepted(s1, r);
      RollbackWriteAdvances(r);
      WriteSpendsBudget(r, RollbackWrite(r), CheckpointV2(r, RollbackWrite(r)).value);
      var written := Checkpoint(RollbackWrite(r));
      coordinator := if r.checkpoint.RollbackPublished? then Idle else Reverting(id, Begin);
    }

    /** One turn of the rollback loop. */
    method RollbackTurn(id: nat, healthy: bool) returns (ghost more: seq<Action>)
      requires Inv(State()) && coordinator == Reverting(id, Begin) && journal.Some? && journal.value.status.RollingBack?
      modifies this
      ensures Inv(State()) && (coordinator.Idle? || (coordinator == Reverting(id, Begin) && journal.value.status.RollingBack?))
      ensures journal.Some? && (coordinator.Reverting? ==> Budget(journal.value) < Budget(old(journal).value))
      ensures Run(old(State()), more) == State() && Only(more, Rollback(healthy))
    {
      hide ContainersInv, RecordsInv, CheckpointV2, RollbackConfirm, RollbackAct, Run, RestorePlan, Verified;
      ghost var s0 := State();
      var r := journal.value;
      ghost var first;
      var ok := true;
      if r.checkpoint.CandidateRemoved? && snapshot.Some? {
        first := RestoreSnapshot(id, healthy);
        RestoredIsConfirmed(State(), r, healthy);
      } else {
        RecordIsValid(s0, r);
        var done := RollbackWork(r, healthy);
        RollbackInv(s0, r, healthy);
        RunOne(s0, Rollback(healthy));
        first := [Rollback(healthy)];
        if done.None? {
          FailureIsRecorded(s0, r);
          RecordFailure(r);
          return first;
        }
        ok := done.value;
        ghost var t := State();
        RollbackActInv(s0, r, t);
        coordinator := Reverting(id, Acted);
        ConfirmIgnoresStage(t, r, coordinator);
      }
      ghost var second := RecordRollback(id, r, ok, healthy);
      RunAppend(s0, first, second);
      more := first + second;
    }

    method PrepareEntry(r: Record)
      requires coordinator.Reverting? && coordinator.stage.Begin?
      modifies this
      ensures State() == EnterRollback(old(State()), r)
    {
      var token := Prepare();
      coordinator := if r.tokenHash.Some? && r.tokenHash.value != Sha256(token) then Idle
                     else Reverting(coordinator.id, Acted);
    }

    method ObserveEntry(r: Record)
      requires coordinator.Reverting? && coordinator.stage.Acted?
      modifies this
      ensures State() == EnterRollback(old(State()), r)
    {
      var old0 := LookAtSource(r);
      var seen := LookAtCandidate(r);
      if !old0.Matched? || old0.running || (seen.Conflict? && r.candidateId.None?) {
        coordinator := Idle;
        return;
      }
      var carried := if r.candidateId.Some? then r.candidateId else if seen.Matched? then Some(seen.id) else None;
      coordinator := Reverting(coordinator.id, Confirmed(carried));
    }

    method WriteEntry(r: Record)
      requires coordinator.Reverting? && coordinator.stage.Confirmed? && journal == Some(r) && marker.Some?
      modifies this
      ensures State() == EnterRollback(old(State()), r)
    {
      hide CheckpointV2;
      var carried := coordinator.stage.carried;
      var written := Checkpoint(Write(Status.RollingBack, RollbackStarted, Some(Sha256(marker.value)), carried, Some(true)));
      coordinator := if written then Reverting(coordinator.id, Begin) else Idle;
    }

    /** Prepare, look at both containers and write the first rollback checkpoint, unless it is there already. */
    method EnterOrResume(healthy: bool) returns (entered: bool, ghost more: seq<Action>)
      requires Inv(State()) && coordinator.Reverting? && coordinator.stage.Begin? && journal.Some?
      modifies this
      ensures Inv(State()) && State() == Run(old(State()), more) && Only(more, Rollback(healthy))
      ensures entered ==> coordinator == old(coordinator) && journal.Some? && journal.value.status.RollingBack?
      ensures !entered ==> coordinator.Idle? && journal == old(journal)
      ensures old(journal).value.status.RollingBack? ==> entered && more == []
    {
      hide Inv, CheckpointV2, Run, EnterRollback;
      ghost var s0 := State();
      var r := journal.value;
      more := [];
      if r.status.RollingBack? {
        RunNone(s0);
        return true, more;
      }
      PrepareEntry(r);
      EnterOne(s0, r, healthy);
      more := [Rollback(healthy)];
      if coordinator.Idle? {
        return false, more;
      }
      ghost var s1 := State();
      ObserveEntry(r);
      EnterOne(s1, r, healthy);
      RunAppend(s0, more, [Rollback(healthy)]);
      more := more + [Rollback(healthy)];
      if coordinator.Idle? {
        return false, more;
      }
      ghost var s2 := State();
      EnterWriteIsAccepted(s2, r);
      WriteEntry(r);
      EnterOne(s2, r, healthy);
      RunAppend(s0, more, [Rollback(healthy)]);
      more := more + [Rollback(healthy)];
      entered := true;
    }

    /** The rollback loop on a record that is already rolling back. */
    method RollbackLoop(healthy: bool) returns (ghost trace: seq<Action>)
      requires Inv(State()) && coordinator.Reverting? && coordinator.stage.Begin?
      requires journal.Some? && journal.value.status.RollingBack?
      modifies this
      ensures Inv(State()) && coordinator.Idle?
      ensures State() == Run(old(State()), trace) && Only(trace, Rollback(healthy))
    {
      hide ContainersInv, RecordsInv, Step;
      ghost var s0 := State();
      trace := [];
      var id := coordinator.id;
      while coordinator.Reverting?
        invariant Inv(State()) && journal.Some?
        invariant coordinator.Idle? || (coordinator == Reverting(id, Begin) && journal.value.status.RollingBack?)
        invariant Run(s0, trace) == State() && Only(trace, Rollback(healthy))
        decreases coordinator.Reverting?, Budget(journal.value)
      {
        RecordIsValid(State(), journal.value);
        BudgetIsPositive(journal.value);
        ghost var more := RollbackTurn(id, healthy);
        RunAppend(s0, trace, more);
        trace := trace + more;
      }
    }

    /**
     The rollback executor. On a record that is already rolling back, and undisturbed, it does exactly
     what Undo says; whether that ends rolled back depends on the world and on the verdict of the old
     container's verifier, which an unhealthy one turns into a recorded failure.
     */
    method ExecuteRollback(healthy: bool) returns (ghost trace: seq<Action>)
      requires Inv(State()) && coordinator.Reverting? && coordinator.stage.Begin? && journal.Some?
      modifies this
      ensures Inv(State()) && coordinator.Idle?
      ensures State() == Run(old(State()), trace) && Only(trace, Rollback(healthy))
      ensures old(journal).value.status.RollingBack? ==> State() == Undo(old(State()), healthy) && journal.Some?
      ensures old(journal).value.status.RollingBack? ==>
                var r := old(journal).value;
                journal.value.status ==
                if Blocked(old(State()), r) || (!healthy && r.checkpoint.Index() <= OldStarted.Index())
                then RollbackFailed else RolledBack
    {
      hide ContainersInv, RecordsInv, Step, Run;
      ghost var s0 := State();
      var entered;
      entered, trace := EnterOrResume(healthy);
      if entered {
        ghost var more := RollbackLoop(healthy);
        RunAppend(s0, trace, more);
        trace := trace + more;
      }
      if s0.journal.value.status.RollingBack? {
        RollbackTraceIsUndo(s0, trace, healthy);
        UndoEnds(s0, healthy);
      }
    }
  }

  lemma RunNone(s: World)
    ensures Run(s, []) == s
  {
  }

  lemma EnterOne(s: World, r: Record, healthy: bool)
    requires Inv(s) && s.coordinator.Reverting? && s.journal == Some(r) && !r.status.RollingBack?
    ensures Run(s, [Rollback(healthy)]) == EnterRollback(s, r) && Inv(EnterRollback(s, r))
    ensures EntersOrStops(s, r, EnterRollback(s, r))
  {
    hide ContainersInv, RecordsInv, EnterRollback, EntersOrStops;
    RunOne(s, Rollback(healthy));
    RollbackInv(s, r, healthy);
    EnterShape(s, r);
  }

  ghost predicate EntersOrStops(s: World, r: Record, t: World)
    requires s.coordinator.Reverting?
  {
    var id := s.coordinator.id;
    if s.coordinator.stage.Confirmed? then
      t.coordinator == Reverting(id, Begin) && t.journal.Some? && t.journal.value.status.RollingBack?
    else
      t.journal == Some(r) &&
      (t.coordinator.Idle?
       || (if s.coordinator.stage.Begin? then t.coordinator == Reverting(id, Acted)
           else t.coordinator.Reverting? && t.coordinator.id == id && t.coordinator.stage.Confirmed?))
  }

  lemma EnterShape(s: World, r: Record)
    requires Inv(s) && s.coordinator.Reverting? && s.journal == Some(r) && !r.status.RollingBack?
    ensures EntersOrStops(s, r, EnterRollback(s, r))
  {
    hide Inv, CheckpointV2, ObserveSource, ObserveCandidate;
    if s.coordinator.stage.Confirmed? {
      EnterWriteIsAccepted(s, r);
      EnteredIsRollingBack(r, EnterWrite(s, s.coordinator.stage.carried));
    }
  }

  lemma EnteredIsRollingBack(r: Record, w: Write)
    requires CheckpointV2(r, w).Ok?
    ensures CheckpointV2(r, w).value.status == w.status
  {
  }

  lemma RestoreBegins(s: World, r: Record, id: nat, healthy: bool)
    requires Inv(s) && s.coordinator == Reverting(id, Begin) && s.journal == Some(r) && s.snapshot.Some?
    requires r.status.RollingBack? && r.checkpoint.CandidateRemoved? && Verified(s.snapshot.value)
    ensures Run(s, [Rollback(healthy)]) == At(s, Reverting(id, Restoring(0)))
    ensures Inv(At(s, Reverting(id, Restoring(0))))
  {
    hide ContainersInv, RecordsInv, CheckpointV2, Verified;
    RunOne(s, Rollback(healthy));
    RollbackInv(s, r, healthy);
  }

  lemma RestoreGoesOn(s: World, r: Record, id: nat, k: nat, healthy: bool)
    requires Inv(s) && s.coordinator == Reverting(id, Restoring(k)) && s.journal == Some(r) && s.snapshot.Some?
    requires r.status.RollingBack? && k < |RestorePlan(s.snapshot.value)|
    ensures var t := At(s.(files := ApplyStep(s.files, RestorePlan(s.snapshot.value)[k])), Reverting(id, Restoring(k + 1)));
            Run(s, [Rollback(healthy)]) == t && Inv(t)
  {
    hide ContainersInv, RecordsInv, CheckpointV2, RestorePlan;
    RunOne(s, Rollback(healthy));
    RestoreStepInv(s, r, k);
  }

  lemma RestoreEnds(s: World, r: Record, id: nat, healthy: bool)
    requires Inv(s) && s.snapshot.Some? && s.coordinator == Reverting(id, Restoring(|RestorePlan(s.snapshot.value)|))
    requires s.journal == Some(r) && r.status.RollingBack? && r.checkpoint.CandidateRemoved?
    ensures var t := At(s.(candidateWrote := false), Reverting(id, Acted));
            Run(s, [Rollback(healthy)]) == t && Inv(t) && t.files == s.stoppedFiles
  {
    hide CandidateOk, MarkersOk, RowOk, CheckpointV2, RestorePlan, Capture, Verified;
    RunOne(s, Rollback(healthy));
    RestoreDoneInv(s, r);
  }

  lemma RestoredIsConfirmed(s: World, r: Record, healthy: bool)
    requires r.checkpoint.CandidateRemoved?
    ensures RollbackConfirm(s, r, healthy)
  {
  }

  /** A list of rollback steps that ends Idle is the whole undisturbed run. */
  lemma {:induction false} RollbackTraceIsUndo(s: World, trace: seq<Action>, healthy: bool)
    requires Undoing(s) && Run(s, trace).coordinator.Idle? && Only(trace, Rollback(healthy))
    ensures Run(s, trace) == Undo(s, healthy)
    decreases |trace|
  {
    hide ContainersInv, RecordsInv, RollbackStep;
    if trace == [] {
      return;
    }
    UndoProgress(s, healthy);
    var t := RollbackStep(s, healthy);
    assert trace == [Rollback(healthy)] + trace[1..];
    RunAppend(s, [Rollback(healthy)], trace[1..]);
    RunOne(s, Rollback(healthy));
    if t.coordinator.Idle? {
      IdleStaysPut(t, trace[1..], healthy);
    } else {
      RollbackTraceIsUndo(t, trace[1..], healthy);
    }
  }

  lemma {:induction false} IdleStaysPut(s: World, trace: seq<Action>, healthy: bool)
    requires s.coordinator.Idle? && Only(trace, Rollback(healthy))
    ensures Run(s, trace) == s
  {
    if trace != [] {
      IdleStaysPut(s, trace[..|trace| - 1], healthy);
    }
  }
}
