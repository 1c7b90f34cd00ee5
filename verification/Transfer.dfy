/**
 Saving a shared file through a provider with resumable operations. Handler runs read the task
 once, when it is claimed; a run whose lease is lost goes on until its next ownership probe. The
 submission is a remote effect between two durable records, the write intent and the operation id.
 */
module TransferOperation {
  import opened Prelude

  datatype OperationStatus = Intent | Pending | Succeeded | Uncertain

  /** The provider columns of a transfer task; `owner` is the run that holds its lease. */
  datatype Task = Task(
    terminal: bool, operationId: Option<nat>, operationStatus: Option<OperationStatus>, writeIntentAt: Option<nat>,
    owner: Option<nat>)

  datatype Stage = Started | Looked | Probed | Intended | Submitted(id: nat) | Waiting(id: nat) | Ended

  /** A handler run with the operation id its invocation was built from. */
  datatype Handler = Handler(task: nat, known: Option<nat>, stage: Stage)

  /** A save the provider accepted; operation ids are fresh. */
  datatype Submission = Submission(task: nat, run: nat, id: nat, at: nat)

  /** The transfer tasks of one file, all handler runs ever started, and the provider's record. */
  datatype Ledger = Ledger(tasks: seq<Task>, runs: seq<Handler>, submissions: seq<Submission>, clock: nat)

  datatype Action =
    | Create
    | EnqueueRetry
    | Claim(task: nat)
    | LoseLease(task: nat)
    | Look(run: nat, found: bool)
    | Probe(run: nat, cancelled: bool)
    | RecordIntent(run: nat)
    | Submit(run: nat)
    | RecordOperation(run: nat)
    | RecordUncertain(run: nat)
    | Complete(run: nat)
    | Crash(run: nat)
    | Close(task: nat, terminal: bool)

  const NEW_TASK := Task(false, None, None, None, None)

  /** The latest finished task of the file, from which a retry inherits. */
  function Predecessor(tasks: seq<Task>): (p: Option<nat>)
    ensures p.Some? ==> p.value < |tasks| && tasks[p.value].terminal
    ensures p.Some? ==> forall i :: p.value < i < |tasks| ==> !tasks[i].terminal
    ensures p.None? ==> forall i :: 0 <= i < |tasks| ==> !tasks[i].terminal
  {
    if tasks == [] then None
    else if tasks[|tasks| - 1].terminal then Some(|tasks| - 1)
    else Predecessor(tasks[..|tasks| - 1])
  }

  function Successor(tasks: seq<Task>): Task {
    match Predecessor(tasks)
    case None => NEW_TASK
    case Some(p) =>
      NEW_TASK.(operationId := tasks[p].operationId, operationStatus := tasks[p].operationStatus,
                writeIntentAt := tasks[p].writeIntentAt)
  }

  function At(s: Ledger, run: nat, stage: Stage): Ledger
    requires run < |s.runs|
  {
    s.(runs := s.runs[run := s.runs[run].(stage := stage)])
  }

  function WithTask(s: Ledger, task: nat, t: Task): Ledger
    requires task < |s.tasks|
  {
    s.(tasks := s.tasks[task := t])
  }

  function Intending(t: Task, now: nat): Task {
    if t.operationId.Some? then t
    else t.(writeIntentAt := if t.writeIntentAt.Some? then t.writeIntentAt else Some(now), operationStatus := Some(Intent))
  }

  /** One step of a run at the given stage; anything else leaves the ledger alone. */
  function RunStep(s: Ledger, a: Action, run: nat): Ledger
    requires run < |s.runs| && s.runs[run].task < |s.tasks|
  {
    var h := s.runs[run];
    var t := s.tasks[h.task];
    match (a, h.stage)
    case (Look(_, found), Started) =>
      if h.known.None? && found then At(s, run, Ended) else At(s, run, Looked)
    case (Probe(_, cancelled), Looked) =>
      if cancelled || t.owner != Some(run) then At(s, run, Ended)
      else if h.known.Some? then At(s, run, Waiting(h.known.value))
      else At(s, run, Probed)
    case (RecordIntent(_), Probed) => At(WithTask(s, h.task, Intending(t, s.clock)), run, Intended)
    case (Submit(_), Intended) =>
      At(s.(submissions := s.submissions + [Submission(h.task, run, |s.submissions|, s.clock)]), run, Submitted(|s.submissions|))
    case (RecordOperation(_), Submitted(id)) =>
      if t.operationId.Some? && t.operationId != Some(id) then At(s, run, Ended)
      else At(WithTask(s, h.task, t.(operationId := Some(id), operationStatus := Some(Pending))), run, Waiting(id))
    case (RecordUncertain(_), Submitted(_)) =>
      At(WithTask(s, h.task, if t.operationId.None? then t.(operationStatus := Some(Uncertain)) else t), run, Ended)
    case (Complete(_), Waiting(_)) =>
      At(WithTask(s, h.task, if t.operationId.Some? then t.(operationStatus := Some(Succeeded)) else t), run, Ended)
    case (Crash(_), _) => At(s, run, Ended)
    case _ => s
  }

  function Actor(a: Action): Option<nat> {
    match a
    case Look(run, _) => Some(run)
    case Probe(run, _) => Some(run)
    case RecordIntent(run) => Some(run)
    case Submit(run) => Some(run)
    case RecordOperation(run) => Some(run)
    case RecordUncertain(run) => Some(run)
    case Complete(run) => Some(run)
    case Crash(run) => Some(run)
    case _ => None
  }

  function QueueStep(s: Ledger, a: Action): Ledger {
    match a
    case Create => s.(tasks := s.tasks + [NEW_TASK])
    case EnqueueRetry =>
      if exists i :: 0 <= i < |s.tasks| && !s.tasks[i].terminal then s else s.(tasks := s.tasks + [Successor(s.tasks)])
    case Claim(i) =>
      if i >= |s.tasks| || s.tasks[i].terminal || s.tasks[i].owner.Some? then s
      else WithTask(s, i, s.tasks[i].(owner := Some(|s.runs|))).(
             runs := s.runs + [Handler(i, s.tasks[i].operationId, Started)])
    case LoseLease(i) => if i >= |s.tasks| then s else WithTask(s, i, s.tasks[i].(owner := None))
    case Close(i, terminal) =>
      if i >= |s.tasks| || s.tasks[i].terminal then s else WithTask(s, i, s.tasks[i].(owner := None, terminal := terminal))
    case _ => s
  }

  function Step(s: Ledger, a: Action): Ledger {
    var next :=
      match Actor(a)
      case Some(run) => if run < |s.runs| && s.runs[run].task < |s.tasks| then RunStep(s, a, run) else s
      case None => QueueStep(s, a);
    next.(clock := s.clock + 1)
  }

  function Run(s: Ledger, actions: seq<Action>): Ledger {
    if actions == [] then s else Step(Run(s, actions[..|actions| - 1]), actions[|actions| - 1])
  }

  const EMPTY := Ledger([], [], [], 0)

  // ---- the invariant -----------------------------------------------------------------------

  ghost predicate TaskOk(s: Ledger, t: Task) {
    && (t.operationId.Some? ==> t.operationId.value < |s.submissions| && t.writeIntentAt.Some?)
    && (t.writeIntentAt.Some? ==> t.writeIntentAt.value < s.clock)
  }

  /** A run that is past its intent has a durable one; a run that knew an operation never submits. */
  ghost predicate RunOk(s: Ledger, h: Handler) {
    && h.task < |s.tasks|
    && (h.stage.Intended? || h.stage.Submitted? ==> s.tasks[h.task].writeIntentAt.Some?)
    && (h.known.Some? ==>
          s.tasks[h.task].operationId == h.known && !h.stage.Probed? && !h.stage.Intended? && !h.stage.Submitted?)
    && (h.stage.Waiting? ==> s.tasks[h.task].operationId == Some(h.stage.id))
    && (h.stage.Submitted? ==> h.stage.id < |s.submissions|)
  }

  /** Every submission has an earlier durable intent and comes from a run that knew no operation. */
  ghost predicate SubmissionOk(s: Ledger, k: nat)
    requires k < |s.submissions|
  {
    var sub := s.submissions[k];
    && sub.id == k && sub.task < |s.tasks| && sub.run < |s.runs|
    && s.runs[sub.run].task == sub.task && s.runs[sub.run].known.None?
    && s.tasks[sub.task].writeIntentAt.Some? && s.tasks[sub.task].writeIntentAt.value < sub.at < s.clock
  }

  ghost predicate LedgerOk(s: Ledger) {
    && (forall i :: 0 <= i < |s.tasks| ==> TaskOk(s, s.tasks[i]))
    && (forall r :: 0 <= r < |s.runs| ==> RunOk(s, s.runs[r]))
    && (forall k :: 0 <= k < |s.submissions| ==> SubmissionOk(s, k))
  }

  /** Nothing durable is taken back: the operation id and the intent are written once. */
  ghost predicate Grows(s: Ledger, t: Ledger) {
    && |s.tasks| <= |t.tasks| && |s.runs| <= |t.runs| && s.submissions <= t.submissions
    && (forall i :: 0 <= i < |s.tasks| ==>
          && (s.tasks[i].operationId.Some? ==> t.tasks[i].operationId == s.tasks[i].operationId)
          && (s.tasks[i].writeIntentAt.Some? ==> t.tasks[i].writeIntentAt == s.tasks[i].writeIntentAt))
    && (forall r :: 0 <= r < |s.runs| ==> t.runs[r].task == s.runs[r].task && t.runs[r].known == s.runs[r].known)
  }

  lemma StepGrows(s: Ledger, a: Action)
    requires LedgerOk(s)
    ensures Grows(s, Step(s, a)) && Step(s, a).clock == s.clock + 1
  {
  }

  lemma StepKeepsTasks(s: Ledger, a: Action)
    requires LedgerOk(s)
    ensures var t := Step(s, a); forall i :: 0 <= i < |t.tasks| ==> TaskOk(t, t.tasks[i])
  {
    hide SubmissionOk;
  }

  lemma QueueStepKeepsRuns(s: Ledger, a: Action)
    requires LedgerOk(s) && Actor(a).None?
    ensures var t := Step(s, a); forall r :: 0 <= r < |t.runs| ==> RunOk(t, t.runs[r])
  {
    hide SubmissionOk;
  }

  lemma RunStepKeepsRuns(s: Ledger, a: Action)
    requires LedgerOk(s) && Actor(a).Some?
    ensures var t := Step(s, a); forall r :: 0 <= r < |t.runs| ==> RunOk(t, t.runs[r])
  {
    hide SubmissionOk;
  }

  lemma SubmissionStays(s: Ledger, t: Ledger, k: nat)
    requires Grows(s, t) && k < |s.submissions| && SubmissionOk(s, k) && s.clock <= t.clock
    ensures SubmissionOk(t, k)
  {
    assert t.submissions[k] == s.submissions[k];
  }

  lemma StepKeepsSubmissions(s: Ledger, a: Action)
    requires LedgerOk(s) && Grows(s, Step(s, a))
    ensures var t := Step(s, a); forall k :: 0 <= k < |t.submissions| ==> SubmissionOk(t, k)
  {
    hide Grows, SubmissionOk;
    var t := Step(s, a);
    forall k | 0 <= k < |t.submissions| ensures SubmissionOk(t, k) {
      if k < |s.submissions| {
        SubmissionStays(s, t, k);
      } else {
        NewSubmission(s, a);
      }
    }
  }

  lemma NewSubmission(s: Ledger, a: Action)
    requires LedgerOk(s) && |Step(s, a).submissions| > |s.submissions|
    ensures var t := Step(s, a);
            && |t.submissions| == |s.submissions| + 1 && SubmissionOk(t, |s.submissions|)
            && a.Submit? && a.run < |s.runs| && s.runs[a.run].stage.Intended? && s.runs[a.run].known.None?
            && t.submissions[|s.submissions|] == Submission(s.runs[a.run].task, a.run, |s.submissions|, s.clock)
  {
  }

  lemma StepOk(s: Ledger, a: Action)
    requires LedgerOk(s)
    ensures LedgerOk(Step(s, a)) && Grows(s, Step(s, a))
  {
    hide TaskOk, RunOk, SubmissionOk, Grows, Step;
    StepGrows(s, a);
    StepKeepsTasks(s, a);
    if Actor(a).None? {
      QueueStepKeepsRuns(s, a);
    } else {
      RunStepKeepsRuns(s, a);
    }
    StepKeepsSubmissions(s, a);
  }

  lemma GrowsAgain(s: Ledger, t: Ledger, u: Ledger)
    requires Grows(s, t) && Grows(t, u)
    ensures Grows(s, u)
  {
    assert forall k :: 0 <= k < |s.submissions| ==> t.submissions[k] == s.submissions[k] && u.submissions[k] == t.submissions[k];
  }

  lemma {:induction false} RunKeepsOk(s: Ledger, actions: seq<Action>)
    requires LedgerOk(s)
    ensures LedgerOk(Run(s, actions)) && Grows(s, Run(s, actions))
  {
    hide LedgerOk, Step, Grows;
    if actions == [] {
      GrowsItself(s);
    } else {
      var here := Run(s, actions[..|actions| - 1]);
      RunKeepsOk(s, actions[..|actions| - 1]);
      StepOk(here, actions[|actions| - 1]);
      GrowsAgain(s, here, Run(s, actions));
    }
  }

  lemma GrowsItself(s: Ledger)
    ensures Grows(s, s)
  {
  }

  // ---- submissions -------------------------------------------------------------------------

  /**
   In every history each accepted save was submitted by a run whose invocation knew no operation,
   after a durable write intent of its task; operation ids and intents are written once.
   */
  lemma {:induction false} EverySubmissionHadAnIntent(actions: seq<Action>, more: seq<Action>, k: nat)
    requires k < |Run(EMPTY, actions).submissions|
    ensures var s := Run(EMPTY, actions);
            var sub := s.submissions[k];
            && sub.task < |s.tasks| && sub.run < |s.runs| && s.runs[sub.run].known.None?
            && s.tasks[sub.task].writeIntentAt.Some? && s.tasks[sub.task].writeIntentAt.value < sub.at
            && Grows(s, Run(s, more))
  {
    hide TaskOk, RunOk, Grows, Run;
    RunKeepsOk(EMPTY, actions);
    RunKeepsOk(Run(EMPTY, actions), more);
    assert SubmissionOk(Run(EMPTY, actions), k);
  }

  /** This run of a task with a recorded operation could still submit a second time. */
  ghost predicate CanSubmit(s: Ledger, r: nat)
    requires r < |s.runs| && s.runs[r].task < |s.tasks|
  {
    var h := s.runs[r];
    && h.known.None?
    && (h.stage.Probed? || h.stage.Intended?
        || ((h.stage.Started? || h.stage.Looked?) && s.tasks[h.task].owner == Some(r)))
  }

  ghost predicate SomeRunCanSubmit(s: Ledger, task: nat) {
    exists r: nat :: r < |s.runs| && s.runs[r].task == task && task < |s.tasks| && CanSubmit(s, r)
  }

  ghost predicate SubmittedFor(s: Ledger, t: Ledger, task: nat) {
    exists k :: |s.submissions| <= k < |t.submissions| && t.submissions[k].task == task
  }

  /** Once the operation is recorded, no step makes a run able to submit that was not. */
  lemma NoNewSubmitter(s: Ledger, a: Action, task: nat)
    requires LedgerOk(s) && task < |s.tasks| && s.tasks[task].operationId.Some? && !SomeRunCanSubmit(s, task)
    ensures !SomeRunCanSubmit(Step(s, a), task)
    ensures !SubmittedFor(s, Step(s, a), task)
  {
    hide SubmissionOk, TaskOk, RunOk;
    var t := Step(s, a);
    if |t.submissions| > |s.submissions| {
      NewSubmission(s, a);
      assert CanSubmit(s, a.run);
    }
    forall r: nat | r < |t.runs| && t.runs[r].task == task && task < |t.tasks| ensures !CanSubmit(t, r) {
      if r < |s.runs| {
        assert s.runs[r].task == task ==> !CanSubmit(s, r);
      }
    }
  }

  lemma {:induction false} NoSubmissionWithoutSubmitter(s: Ledger, actions: seq<Action>, task: nat)
    requires LedgerOk(s) && task < |s.tasks| && s.tasks[task].operationId.Some? && !SomeRunCanSubmit(s, task)
    ensures var t := Run(s, actions); !SubmittedFor(s, t, task) && !SomeRunCanSubmit(t, task)
  {
    hide LedgerOk, Step, SomeRunCanSubmit;
    if actions != [] {
      var before := actions[..|actions| - 1];
      var here := Run(s, before);
      NoSubmissionWithoutSubmitter(s, before, task);
      RunKeepsOk(s, before);
      StepOk(here, actions[|actions| - 1]);
      NoNewSubmitter(here, actions[|actions| - 1], task);
      var t := Run(s, actions);
      forall k | |s.submissions| <= k < |t.submissions| ensures t.submissions[k].task != task {
        if k < |here.submissions| {
          assert t.submissions[k] == here.submissions[k];
        }
      }
    }
  }

  // ---- exactly when a second submission can happen -----------------------------------------

  lemma RunOne(s: Ledger, a: Action)
    ensures Run(s, [a]) == Step(s, a)
  {
    assert [a][..0] == [];
    assert Run(s, []) == s;
  }

  lemma {:induction false} RunAppend(s: Ledger, a: seq<Action>, b: seq<Action>)
    ensures Run(s, a + b) == Run(Run(s, a), b)
  {
    hide Step;
    if b == [] {
      assert a + b == a;
    } else {
      RunAppend(s, a, b[..|b| - 1]);
      assert (a + b)[..|a + b| - 1] == a + b[..|b| - 1];
    }
  }

  /** What the run still does to submit. */
  function Rest(h: Handler, r: nat): seq<Action> {
    match h.stage
    case Started => [Look(r, false), Probe(r, false), RecordIntent(r), Submit(r)]
    case Looked => [Probe(r, false), RecordIntent(r), Submit(r)]
    case Probed => [RecordIntent(r), Submit(r)]
    case _ => [Submit(r)]
  }

  lemma {:induction false} SubmitterSubmits(s: Ledger, r: nat)
    requires r < |s.runs| && s.runs[r].task < |s.tasks| && CanSubmit(s, r)
    ensures var t := Run(s, Rest(s.runs[r], r));
            s.submissions < t.submissions && t.submissions[|s.submissions|].task == s.runs[r].task
    decreases |Rest(s.runs[r], r)|
  {
    var rest := Rest(s.runs[r], r);
    var next := Step(s, rest[0]);
    RunOne(s, rest[0]);
    if s.runs[r].stage.Intended? {
      assert rest == [Submit(r)];
    } else {
      assert CanSubmit(next, r) && next.submissions == s.submissions && next.runs[r].task == s.runs[r].task;
      assert rest == [rest[0]] + Rest(next.runs[r], r);
      SubmitterSubmits(next, r);
      RunAppend(s, [rest[0]], Rest(next.runs[r], r));
    }
  }

  /**
   After a task's operation id is recorded, a further save of that task can be submitted if and only
   if some run of it that knew no operation is past its last ownership probe, or is still before it
   and holds the lease.
   */
  lemma {:induction false} SecondSubmissionExactly(s: Ledger, task: nat)
    requires LedgerOk(s) && task < |s.tasks| && s.tasks[task].operationId.Some?
    ensures (exists actions :: SubmittedFor(s, Run(s, actions), task)) <==> SomeRunCanSubmit(s, task)
  {
    hide LedgerOk, Step;
    if SomeRunCanSubmit(s, task) {
      var r: nat :| r < |s.runs| && s.runs[r].task == task && CanSubmit(s, r);
      SubmitterSubmits(s, r);
      var t := Run(s, Rest(s.runs[r], r));
      assert t.submissions[|s.submissions|].task == task;
      assert SubmittedFor(s, t, task);
    } else {
      forall actions ensures !SubmittedFor(s, Run(s, actions), task) {
        NoSubmissionWithoutSubmitter(s, actions, task);
      }
    }
  }

  // ---- later runs and retries --------------------------------------------------------------

  /** Runs of the task that were claimed after `s` know its operation. */
  ghost predicate LaterRunsKnow(s: Ledger, t: Ledger, task: nat) {
    forall r :: |s.runs| <= r < |t.runs| && t.runs[r].task == task ==> t.runs[r].known.Some?
  }

  lemma {:induction false} RunsClaimedLaterKnow(s: Ledger, actions: seq<Action>, task: nat)
    requires LedgerOk(s) && task < |s.tasks| && s.tasks[task].operationId.Some?
    ensures LaterRunsKnow(s, Run(s, actions), task)
  {
    if actions != [] {
      var here := Run(s, actions[..|actions| - 1]);
      RunsClaimedLaterKnow(s, actions[..|actions| - 1], task);
      RunKeepsOk(s, actions[..|actions| - 1]);
      StepKeepsLaterRuns(s, here, actions[|actions| - 1], task);
    }
  }

  lemma StepKeepsLaterRuns(s: Ledger, t: Ledger, a: Action, task: nat)
    requires LedgerOk(t) && Grows(s, t) && LaterRunsKnow(s, t, task)
    requires task < |s.tasks| && s.tasks[task].operationId.Some?
    ensures LaterRunsKnow(s, Step(t, a), task)
  {
    hide TaskOk, RunOk, SubmissionOk;
  }

  /**
   Once the operation id of a task is recorded, no run claimed afterwards submits its save again,
   however many leases are lost; only runs that were already in flight can.
   */
  lemma {:induction false} LaterRunsNeverSubmit(s: Ledger, actions: seq<Action>, task: nat, k: nat)
    requires LedgerOk(s) && task < |s.tasks| && s.tasks[task].operationId.Some?
    requires |s.submissions| <= k < |Run(s, actions).submissions| && Run(s, actions).submissions[k].task == task
    ensures Run(s, actions).submissions[k].run < |s.runs|
  {
    hide TaskOk, RunOk, Grows, Run;
    RunsClaimedLaterKnow(s, actions, task);
    RunKeepsOk(s, actions);
    assert SubmissionOk(Run(s, actions), k);
  }

  /** A retry of a task whose operation is known inherits it and never submits, in any later history. */
  lemma {:induction false} RetriesNeverSubmit(s: Ledger, actions: seq<Action>)
    requires LedgerOk(s) && |Step(s, EnqueueRetry).tasks| > |s.tasks|
    requires Predecessor(s.tasks).Some? && s.tasks[Predecessor(s.tasks).value].operationId.Some?
    ensures var next := Step(s, EnqueueRetry);
            && next.tasks[|s.tasks|].operationId == s.tasks[Predecessor(s.tasks).value].operationId
            && !SubmittedFor(next, Run(next, actions), |s.tasks|)
  {
    hide TaskOk, SubmissionOk, Grows, Run;
    var next := Step(s, EnqueueRetry);
    StepOk(s, EnqueueRetry);
    NoSubmissionWithoutSubmitter(next, actions, |s.tasks|);
  }

  /**
   A retry is enqueued only when every task of the file is finished. It then takes the three provider
   columns of the latest one, whatever they are, and nothing else changes.
   */
  lemma RetriesInherit(s: Ledger)
    ensures var t := Step(s, EnqueueRetry);
            && t == s.(tasks := t.tasks, clock := s.clock + 1)
            && (t.tasks == s.tasks <==> exists i :: 0 <= i < |s.tasks| && !s.tasks[i].terminal)
            && (t.tasks != s.tasks ==>
                  && |t.tasks| == |s.tasks| + 1 && t.tasks[..|s.tasks|] == s.tasks
                  && var heir := t.tasks[|s.tasks|];
                  && !heir.terminal && heir.owner.None?
                  && (|s.tasks| == 0 ==> heir.operationId.None? && heir.operationStatus.None? && heir.writeIntentAt.None?)
                  && (|s.tasks| > 0 ==>
                        var last := s.tasks[|s.tasks| - 1];
                        && heir.operationId == last.operationId && heir.operationStatus == last.operationStatus
                        && heir.writeIntentAt == last.writeIntentAt))
  {
    if exists i :: 0 <= i < |s.tasks| && !s.tasks[i].terminal {
    } else {
      assert |s.tasks| > 0 ==> s.tasks[|s.tasks| - 1].terminal;
      assert |Step(s, EnqueueRetry).tasks| == |s.tasks| + 1;
    }
  }

  /**
   A lease is given up before another run gets it. Only a claim starts a run: of a task that nobody
   holds and that is not finished, with the operation id of that moment. A finished task stays so.
   */
  lemma LeasesAreHandedOver(s: Ledger, a: Action, i: nat)
    requires LedgerOk(s) && i < |s.tasks|
    ensures var t := Step(s, a);
            var before, after := s.tasks[i], t.tasks[i];
            var claimed := a == Claim(i) && before.owner.None? && !before.terminal;
            && (claimed ==> after == before.(owner := Some(|s.runs|)) && t.runs == s.runs + [Handler(i, before.operationId, Started)])
            && (before.owner != after.owner ==>
                  claimed || (after.owner.None? && (a == LoseLease(i) || (a.Close? && a.task == i && !before.terminal))))
            && (before.terminal != after.terminal ==> a == Close(i, true))
            && (before.terminal ==> after.terminal)
            && (|t.runs| > |s.runs| ==> a.Claim? && a.task < |s.tasks| && t.tasks[a.task].owner == Some(|s.runs|))
  {
  }

  /** Step `a` is taken by a run of task `i`. */
  ghost predicate ByRunOf(s: Ledger, a: Action, i: nat) {
    Actor(a).Some? && Actor(a).value < |s.runs| && s.runs[Actor(a).value].task == i
  }

  /**
   The provider columns of a task are written by its own runs only: the intent after the probe, the
   first operation id after the submission and never another, uncertain only while none is known,
   succeeded only by a run that waits for the operation.
   */
  lemma ColumnsAreWrittenByRuns(s: Ledger, a: Action, i: nat)
    requires LedgerOk(s) && i < |s.tasks|
    ensures var before, after := s.tasks[i], Step(s, a).tasks[i];
            var stage := if ByRunOf(s, a, i) then s.runs[Actor(a).value].stage else Ended;
            var known := before.operationId;
            && after.operationId == (if a.RecordOperation? && stage.Submitted? && known.None? then Some(stage.id) else known)
            && after.writeIntentAt == (if a.RecordIntent? && stage.Probed? && known.None? && before.writeIntentAt.None? then Some(s.clock)
                                       else before.writeIntentAt)
            && after.operationStatus ==
               (if a.RecordIntent? && stage.Probed? && known.None? then Some(Intent)
                else if a.RecordOperation? && stage.Submitted? && (known.None? || known == Some(stage.id)) then Some(Pending)
                else if a.RecordUncertain? && stage.Submitted? && known.None? then Some(Uncertain)
                else if a.Complete? && stage.Waiting? then Some(Succeeded)
                else before.operationStatus)
  {
    hide SubmissionOk;
  }

  /** The status column tells whether an intent and an operation id are recorded. */
  ghost predicate StatusFits(t: Task) {
    match t.operationStatus
    case None => t.writeIntentAt.None? && t.operationId.None?
    case Some(Intent) => t.writeIntentAt.Some? && t.operationId.None?
    case Some(Uncertain) => t.writeIntentAt.Some? && t.operationId.None?
    case Some(_) => t.writeIntentAt.Some? && t.operationId.Some?
  }

  lemma {:induction false} StatusAlwaysFits(actions: seq<Action>)
    ensures forall t <- Run(EMPTY, actions).tasks :: StatusFits(t)
  {
    hide TaskOk, SubmissionOk, Grows;
    if actions != [] {
      var here := Run(EMPTY, actions[..|actions| - 1]);
      StatusAlwaysFits(actions[..|actions| - 1]);
      RunKeepsOk(EMPTY, actions[..|actions| - 1]);
      StepKeepsFitting(here, actions[|actions| - 1]);
    }
  }

  lemma StepKeepsFitting(s: Ledger, a: Action)
    requires LedgerOk(s) && forall t <- s.tasks :: StatusFits(t)
    ensures forall t <- Step(s, a).tasks :: StatusFits(t)
  {
    hide StatusFits, Step, LedgerOk;
    forall i | 0 <= i < |Step(s, a).tasks| ensures StatusFits(Step(s, a).tasks[i]) {
      if i < |s.tasks| {
        assert s.tasks[i] in s.tasks;
        ChangedStillFits(s, a, i);
      } else {
        NewFits(s, a);
      }
    }
  }

  lemma ChangedStillFits(s: Ledger, a: Action, i: nat)
    requires LedgerOk(s) && i < |s.tasks| && StatusFits(s.tasks[i])
    ensures i < |Step(s, a).tasks| && StatusFits(Step(s, a).tasks[i])
  {
    hide Step, TaskOk, SubmissionOk;
    StepGrows(s, a);
    ColumnsAreWrittenByRuns(s, a, i);
    if ByRunOf(s, a, i) {
      assert RunOk(s, s.runs[Actor(a).value]);
    }
  }

  lemma NewFits(s: Ledger, a: Action)
    requires forall t <- s.tasks :: StatusFits(t)
    ensures forall i :: |s.tasks| <= i < |Step(s, a).tasks| ==> StatusFits(Step(s, a).tasks[i])
  {
    if a.EnqueueRetry? {
      RetriesInherit(s);
      assert |s.tasks| > 0 ==> StatusFits(s.tasks[|s.tasks| - 1]);
    }
  }

  // ---- a history with two submissions ------------------------------------------------------

  lemma RunNext(actions: seq<Action>, a: Action, s: Ledger, t: Ledger)
    requires Run(EMPTY, actions) == s && Step(s, a) == t
    ensures Run(EMPTY, actions + [a]) == t
  {
    RunAppend(EMPTY, actions, [a]);
    RunOne(s, a);
  }

  const FRESH := Handler(0, None, Started)

  lemma OneRunIsLooking() returns (actions: seq<Action>)
    ensures Run(EMPTY, actions) == Ledger([NEW_TASK.(owner := Some(0))], [FRESH.(stage := Looked)], [], 3)
  {
    hide Run;
    var s1 := Ledger([NEW_TASK], [], [], 1);
    RunOne(EMPTY, Create);
    assert Step(EMPTY, Create) == s1;
    var s2 := Ledger([NEW_TASK.(owner := Some(0))], [FRESH], [], 2);
    RunNext([Create], Claim(0), s1, s2);
    actions := [Create] + [Claim(0)];
    RunNext(actions, Look(0, false), s2, Ledger([NEW_TASK.(owner := Some(0))], [FRESH.(stage := Looked)], [], 3));
    actions := actions + [Look(0, false)];
  }

  lemma StaleRunPassesItsProbe() returns (actions: seq<Action>)
    ensures Run(EMPTY, actions) == Ledger([NEW_TASK.(owner := Some(1))], [FRESH.(stage := Probed), FRESH], [], 6)
  {
    hide Run;
    actions := OneRunIsLooking();
    var owned, stale := NEW_TASK.(owner := Some(0)), FRESH.(stage := Probed);
    var s4 := Ledger([owned], [stale], [], 4);
    RunNext(actions, Probe(0, false), Ledger([owned], [FRESH.(stage := Looked)], [], 3), s4);
    actions := actions + [Probe(0, false)];
    var s5 := Ledger([NEW_TASK], [stale], [], 5);
    RunNext(actions, LoseLease(0), s4, s5);
    actions := actions + [LoseLease(0)];
    RunNext(actions, Claim(0), s5, Ledger([NEW_TASK.(owner := Some(1))], [stale, FRESH], [], 6));
    actions := actions + [Claim(0)];
  }

  lemma AnotherRunIsClaimed() returns (actions: seq<Action>)
    ensures Run(EMPTY, actions) ==
            Ledger([NEW_TASK.(owner := Some(1))], [FRESH.(stage := Probed), FRESH.(stage := Probed)], [], 8)
  {
    hide Run;
    actions := StaleRunPassesItsProbe();
    var stale, owned := FRESH.(stage := Probed), NEW_TASK.(owner := Some(1));
    var s7 := Ledger([owned], [stale, FRESH.(stage := Looked)], [], 7);
    RunNext(actions, Look(1, false), Ledger([owned], [stale, FRESH], [], 6), s7);
    actions := actions + [Look(1, false)];
    RunNext(actions, Probe(1, false), s7, Ledger([owned], [stale, stale], [], 8));
    actions := actions + [Probe(1, false)];
  }

  /** Run 0 passes its probe, then loses its lease; run 1 submits and records; run 0 can go on. */
  lemma StaleRunKeepsItsTurn() returns (actions: seq<Action>)
    ensures var s := Run(EMPTY, actions);
            |s.tasks| == 1 && s.tasks[0].operationId.Some? && |s.submissions| == 1 && SomeRunCanSubmit(s, 0)
  {
    hide Run;
    actions := AnotherRunIsClaimed();
    var stale, owned := FRESH.(stage := Probed), NEW_TASK.(owner := Some(1));
    var intending := owned.(operationStatus := Some(Intent), writeIntentAt := Some(8));
    var s9 := Ledger([intending], [stale, FRESH.(stage := Intended)], [], 9);
    RunNext(actions, RecordIntent(1), Ledger([owned], [stale, stale], [], 8), s9);
    actions := actions + [RecordIntent(1)];
    var s10 := Ledger([intending], [stale, FRESH.(stage := Submitted(0))], [Submission(0, 1, 0, 9)], 10);
    RunNext(actions, Submit(1), s9, s10);
    actions := actions + [Submit(1)];
    var s11 := Ledger([intending.(operationId := Some(0), operationStatus := Some(Pending))],
                      [stale, FRESH.(stage := Waiting(0))], [Submission(0, 1, 0, 9)], 11);
    RunNext(actions, RecordOperation(1), s10, s11);
    actions := actions + [RecordOperation(1)];
    assert CanSubmit(s11, 0);
  }

  // ---- one undisturbed run -----------------------------------------------------------------

  /** One step of a run, done on its own. */
  lemma RunSteps(s: Ledger, a: Action, run: nat)
    requires LedgerOk(s) && run < |s.runs| && Actor(a) == Some(run)
    ensures s.runs[run].task < |s.tasks|
    ensures var t := RunStep(s, a, run).(clock := s.clock + 1); Run(s, [a]) == t && LedgerOk(t)
  {
    hide RunStep, TaskOk, SubmissionOk, Grows;
    TaskOfRun(s, run);
    RunOne(s, a);
    StepOk(s, a);
  }

  class TransferWorker {
    var tasks: seq<Task>
    var runs: seq<Handler>
    var submissions: seq<Submission>
    var clock: nat

    ghost function State(): Ledger
      reads this
    {
      Ledger(tasks, runs, submissions, clock)
    }

    constructor ()
      ensures State() == EMPTY
    {
      tasks, runs, submissions, clock := [], [], [], 0;
    }

    method RecordWriteIntent(i: nat)
      requires i < |tasks|
      modifies this`tasks
      ensures tasks == old(tasks)[i := Intending(old(tasks)[i], clock)]
    {
      if tasks[i].operationId.None? {
        var at := if tasks[i].writeIntentAt.Some? then tasks[i].writeIntentAt else Some(clock);
        tasks := tasks[i := tasks[i].(writeIntentAt := at, operationStatus := Some(Intent))];
      }
    }

    method RecordProviderOperation(i: nat, id: nat) returns (ok: bool)
      requires i < |tasks|
      modifies this`tasks
      ensures ok <==> old(tasks)[i].operationId.None? || old(tasks)[i].operationId == Some(id)
      ensures tasks == if ok then old(tasks)[i := old(tasks)[i].(operationId := Some(id), operationStatus := Some(Pending))]
                       else old(tasks)
    {
      ok := tasks[i].operationId.None? || tasks[i].operationId == Some(id);
      if ok {
        tasks := tasks[i := tasks[i].(operationId := Some(id), operationStatus := Some(Pending))];
      }
    }

    /** Nothing was submitted, or once, by this run for its task. */
    ghost predicate AtMostOne(before: Ledger, run: nat)
      requires run < |before.runs|
      reads this
    {
      submissions == before.submissions ||
      (|submissions| == |before.submissions| + 1 && before.submissions <= submissions
       && submissions[|before.submissions|].run == run
       && submissions[|before.submissions|].task == before.runs[run].task)
    }

    /**
     execute_transfer of one run: probe the target, probe ownership, then either resume the known
     operation or record the intent, submit and record the operation.
     */
    method ExecuteTransfer(run: nat, found: bool, cancelled: bool) returns (operation: Option<nat>, ghost trace: seq<Action>)
      requires LedgerOk(State()) && run < |runs| && runs[run].stage.Started?
      modifies this
      ensures State() == Run(old(State()), trace) && LedgerOk(State())
      ensures forall a <- trace :: Actor(a) == Some(run)
      ensures |runs| == |old(runs)| && runs[run].task == old(runs)[run].task < |tasks|
      ensures AtMostOne(old(State()), run)
      ensures var h := old(runs)[run];
              && h.task < |old(tasks)|
              && (if h.known.None? && !found && !cancelled && old(tasks)[h.task].owner == Some(run)
                  then |submissions| == |old(submissions)| + 1
                  else submissions == old(submissions) && tasks == old(tasks))
      ensures cancelled || (old(runs)[run].known.None? && found) ==> operation.None?
      ensures old(runs)[run].known.Some? ==> submissions == old(submissions)
      ensures operation.Some? ==> runs[run].stage == Waiting(operation.value) && tasks[runs[run].task].operationId == operation
      ensures operation.None? ==> runs[run].stage.Ended?
    {
      hide TaskOk, RunOk, SubmissionOk, Run, Grows;
      ghost var s0 := State();
      var h := runs[run];
      assert RunOk(s0, s0.runs[run]);
      TaskOfRun(s0, run);
      trace := [Look(run, found)];
      RunOne(s0, Look(run, found));
      StepOk(s0, Look(run, found));
      clock := clock + 1;
      if h.known.None? && found {
        runs := runs[run := h.(stage := Ended)];
        return None, trace;
      }
      runs := runs[run := h.(stage := Looked)];
      ghost var s1 := State();
      RunAppend(s0, trace, [Probe(run, cancelled)]);
      RunOne(s1, Probe(run, cancelled));
      StepOk(s1, Probe(run, cancelled));
      trace := trace + [Probe(run, cancelled)];
      clock := clock + 1;
      if cancelled || tasks[h.task].owner != Some(run) {
        runs := runs[run := h.(stage := Ended)];
        return None, trace;
      }
      if h.known.Some? {
        runs := runs[run := h.(stage := Waiting(h.known.value))];
        operation := h.known;
        WaitsForIts(State(), run);
        return;
      }
      runs := runs[run := h.(stage := Probed)];
      ghost var rest;
      operation, rest := SubmitSave(run);
      RunAppend(s0, trace, rest);
      trace := trace + rest;
    }

    method SubmitSave(run: nat) returns (operation: Option<nat>, ghost trace: seq<Action>)
      requires LedgerOk(State()) && run < |runs| && runs[run].stage.Probed?
      modifies this
      ensures State() == Run(old(State()), trace) && LedgerOk(State())
      ensures forall a <- trace :: Actor(a) == Some(run)
      ensures |runs| == |old(runs)| && runs[run].task == old(runs)[run].task < |tasks|
      ensures |submissions| == |old(submissions)| + 1 && AtMostOne(old(State()), run)
      ensures operation.Some? ==> runs[run].stage == Waiting(operation.value) && tasks[runs[run].task].operationId == operation
      ensures operation.None? ==> runs[run].stage.Ended?
    {
      hide LedgerOk, Run, Intending;
      ghost var s0 := State();
      var h := runs[run];
      trace := [RecordIntent(run)];
      RunSteps(s0, RecordIntent(run), run);
      RecordWriteIntent(h.task);
      runs, clock := runs[run := h.(stage := Intended)], clock + 1;
      ghost var s1 := State();
      RunAppend(s0, trace, [Submit(run)]);
      RunSteps(s1, Submit(run), run);
      trace := trace + [Submit(run)];
      var id := |submissions|;
      submissions := submissions + [Submission(h.task, run, id, clock)];
      runs, clock := runs[run := h.(stage := Submitted(id))], clock + 1;
      ghost var s2 := State();
      RunAppend(s0, trace, [RecordOperation(run)]);
      RunSteps(s2, RecordOperation(run), run);
      trace := trace + [RecordOperation(run)];
      var ok := RecordProviderOperation(h.task, id);
      clock := clock + 1;
      if ok {
        runs, operation := runs[run := h.(stage := Waiting(id))], Some(id);
      } else {
        runs, operation := runs[run := h.(stage := Ended)], None;
      }
    }
  }

  lemma TaskOfRun(s: Ledger, run: nat)
    requires LedgerOk(s) && run < |s.runs|
    ensures s.runs[run].task < |s.tasks|
  {
    assert RunOk(s, s.runs[run]);
  }

  lemma WaitsForIts(s: Ledger, run: nat)
    requires LedgerOk(s) && run < |s.runs| && s.runs[run].stage.Waiting?
    ensures s.runs[run].task < |s.tasks| && s.tasks[s.runs[run].task].operationId == Some(s.runs[run].stage.id)
  {
    assert RunOk(s, s.runs[run]);
  }
}
