/**
 How the forward executor gets on: a run of whole turns from the hand-over to the verification of
 the candidate.
 */
module UpdaterProgress {
  import opened Prelude
  import opened UpdateJournal
  import opened UpdateSnapshot
  import opened UpdaterWorld
  import opened UpdaterInvariant
  import opened UpdaterExecutors

  lemma WrittenRecord(r: Record, w: Write)
    requires CheckpointV2(r, w).Ok?
    ensures var q := CheckpointV2(r, w).value; q.status == w.status && q.checkpoint == w.checkpoint && q.coordinator == r.coordinator
  {
  }

  /** The record the next turn of the loop writes. */
  ghost predicate Follows(r: Record, q: Record) {
    && q.coordinator == r.coordinator && !q.status.Terminal()
    && (if r.checkpoint.CandidateStarted? && r.status.Switching? then q.checkpoint.CandidateStarted? && q.status.Verifying?
        else q.checkpoint.Index() == r.checkpoint.Index() + 1 && (q.checkpoint.Index() == 7 ==> q.status.Switching?))
  }

  /** One turn of the forward loop, undisturbed. */
  lemma Turn(s: World, id: nat, r: Record) returns (actions: seq<Action>, t: World)
    requires Ready(s, id, r)
    requires ForwardAct(s, r).Some? && ForwardConfirm(ForwardAct(s, r).value, r).Some?
    ensures Run(s, actions) == t && Inv(t) && t.coordinator == s.coordinator
    ensures var u := ForwardAct(s, r).value;
            && t == u.(journal := t.journal) && t.journal.Some?
            && CheckpointV2(r, ForwardWrite(r, ForwardConfirm(u, r).value)) == Ok(t.journal.value)
  {
    hide ForwardAct, ForwardConfirm, ContainersInv, RecordsInv, CheckpointV2;
    var u := ForwardAct(s, r).value;
    actions, t := ForwardLap(s, r, u, ForwardConfirm(u, r), id);
    ForwardActInv(s, r, u);
  }

  lemma OwnTurn(s: World, id: nat, r: Record) returns (actions: seq<Action>, t: World, q: Record)
    requires Ready(s, id, r) && OnItsOwn(r) && s.reconciler.Resting?
    ensures Run(s, actions) == t && Ready(t, id, q) && Follows(r, q)
    ensures t.files == s.files && t.evidence == s.evidence && t.reconciler.Resting?
    ensures CandidateRuns(s) || r.checkpoint.CandidateCreated? ==> CandidateRuns(t)
  {
    hide ForwardAct, ForwardConfirm, Inv, CheckpointV2;
    OwnActs(s, id, r);
    OwnWorkIsDone(s, id, r);
    actions, t := Turn(s, id, r);
    q := t.journal.value;
    WrittenRecord(r, ForwardWrite(r, ForwardConfirm(ForwardAct(s, r).value, r).value));
  }

  /** The executor reaches the started candidate and starts verifying it. */
  lemma {:induction false} ReachesVerifying(s: World, id: nat, r: Record) returns (actions: seq<Action>, t: World, q: Record)
    requires Ready(s, id, r) && OnItsOwn(r) && s.reconciler.Resting? && (r.checkpoint.CandidateStarted? ==> CandidateRuns(s))
    ensures Run(s, actions) == t && Ready(t, id, q) && q.checkpoint.CandidateStarted? && q.status.Verifying?
    ensures t.files == s.files && t.reconciler.Resting? && CandidateRuns(t)
    decreases 8 - r.checkpoint.Index(), r.status.Switching?
  {
    hide Inv, Run;
    actions, t, q := OwnTurn(s, id, r);
    if !(q.checkpoint.CandidateStarted? && q.status.Verifying?) {
      var more;
      ghost var before := actions;
      more, t, q := ReachesVerifying(t, id, q);
      RunAppend(s, before, more);
      actions := before + more;
    }
  }

  // ---- single steps ------------------------------------------------------------------------

  lemma One(s: World, a: Action, t: World)
    requires Inv(s) && Step(s, a) == Some(t)
    ensures Run(s, [a]) == t && Inv(t)
  {
    hide Inv, Step;
    RunOne(s, a);
    StepInv(s, a);
  }

  lemma Two(s: World, a: seq<Action>, t: World, b: seq<Action>, u: World)
    requires Run(s, a) == t && Run(t, b) == u
    ensures Run(s, a + b) == u
  {
    RunAppend(s, a, b);
  }

  lemma CommitIsSeen(s: World, r: Record)
    requires Inv(s) && s.journal == Some(r) && r.status.CommitRequested? && r.checkpoint.CommitPoint?
    requires s.marker.None? && s.evidence.None? && !s.handoff && RowOf(s.files).Success?
    ensures ForwardAct(s, r) == Some(s) && ForwardConfirm(s, r) == Some(None)
  {
    hide SourceOk, CandidateOk, MarkersOk, SnapshotOk, DataOk, RowOk, ProcessOk;
  }

  lemma FirstRecord(s: World, id: nat) returns (t: World, r: Record)
    requires Initial(s)
    ensures Run(s, [Coordinate(id)] + [Forward]) == t && Ready(t, id, r) && r.checkpoint.Initialized?
    ensures t.files == s.files && t.reconciler.Resting?
  {
    hide ContainersInv, RecordsInv;
    RunInv(s, []);
    RunNone(s);
    var u := At(s, Forwarding(id, Begin));
    One(s, Coordinate(id), u);
    r := StartRecord(id);
    t := u.(journal := Some(r));
    One(u, Forward, t);
    Two(s, [Coordinate(id)], u, [Forward], t);
  }
}
