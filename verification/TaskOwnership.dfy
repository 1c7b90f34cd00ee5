/**
 Ownership, run numbering and fencing over every run of the queue: any number of workers, any
 interleaving, any clock readings, and any token presented at any time.
 */
module TaskOwnership {
  import opened Prelude
  import opened Ordering
  import opened TaskQueue
  import RetryBackoff

  // ---- the invariant -----------------------------------------------------------------------

  /** A lock is exactly an active last run of the same worker and token. */
  ghost predicate LockOk(t: Task) {
    && (t.lock.Some? ==>
          && t.status.Leased() && t.runs != [] && t.lock.value.worker != "" && t.lock.value.leaseUntil > 0
          && t.runs[|t.runs| - 1].status.Active?
          && t.runs[|t.runs| - 1].worker == t.lock.value.worker
          && t.runs[|t.runs| - 1].token == t.lock.value.token)
    && (t.status.Running? ==> t.lock.Some?)
    && (forall k :: 0 <= k < |t.runs| && t.runs[k].status.Active? ==> t.lock.Some? && k == |t.runs| - 1)
  }

  ghost predicate NumberedOk(t: Task) {
    forall k :: 0 <= k < |t.runs| ==> t.runs[k].number == k + 1
  }

  ghost predicate IssuedOk(t: Task, issued: nat) {
    forall k :: 0 <= k < |t.runs| ==> t.runs[k].token < issued && t.runs[k].id < issued
  }

  /** A task is completed exactly when its status is final, and scheduled only while it is queued. */
  ghost predicate TimesOk(t: Task) {
    (t.completedAt.Some? <==> t.status.Terminal()) && (t.nextAttemptAt.Some? ==> t.status.Queued())
  }

  ghost predicate TaskOk(t: Task, issued: nat) {
    LockOk(t) && NumberedOk(t) && IssuedOk(t, issued) && TimesOk(t)
  }

  /** No two runs, of one task or of two, share a token. */
  ghost predicate TokensOk(tasks: seq<Task>) {
    forall i, j, a, b ::
      (0 <= i < |tasks| && 0 <= j < |tasks| && 0 <= a < |tasks[i].runs| && 0 <= b < |tasks[j].runs|
       && tasks[i].runs[a].token == tasks[j].runs[b].token) ==> i == j && a == b
  }

  ghost predicate QueueOk(q: Queue) {
    (forall i :: 0 <= i < |q.tasks| ==> TaskOk(q.tasks[i], q.issued)) && TokensOk(q.tasks)
  }

  // ---- one row -----------------------------------------------------------------------------

  /** Run history keeps its rows, their order and their identity; finished rows do not change at all. */
  ghost predicate History(s: seq<TaskRun>, t: seq<TaskRun>) {
    |s| <= |t| &&
    forall k :: 0 <= k < |s| ==>
      && t[k].token == s[k].token && t[k].id == s[k].id && t[k].number == s[k].number
      && (!s[k].status.Active? ==> t[k] == s[k])
  }

  lemma TransitionKeepsRow(t: Task, expected: TaskStatus, target: TaskStatus, next: Option<nat>, now: nat, issued: nat)
    requires TaskOk(t, issued) && TransitionTask(t, expected, target, next, now).Ok?
    ensures var u := TransitionTask(t, expected, target, next, now).value;
            TaskOk(u, issued) && u.runs == t.runs && u.lock == t.lock && u.retryCount == t.retryCount
  {
  }

  lemma HeartbeatKeepsRow(t: Task, worker: string, token: nat, duration: nat, now: nat, issued: nat)
    requires TaskOk(t, issued) && HeartbeatTask(t, worker, token, duration, now).Ok?
    ensures var u := HeartbeatTask(t, worker, token, duration, now).value;
            TaskOk(u, issued) && |u.runs| == |t.runs| && History(t.runs, u.runs)
            && OwnedBy(t, worker, token) && OwnedBy(u, worker, token)
  {
  }

  /** Ending the lease: the one active run is closed and the lock is gone. */
  ghost predicate Ends(t: Task, u: Task, worker: string, token: nat, status: RunStatus) {
    && t.runs != [] && |u.runs| == |t.runs|
    && OwnedBy(t, worker, token) && u.lock.None?
    && (forall k :: 0 <= k < |t.runs| - 1 ==> u.runs[k] == t.runs[k])
    && var last := |t.runs| - 1;
       t.runs[last].status.Active? && u.runs[last] == t.runs[last].(status := status, finishedAt := u.runs[last].finishedAt)
  }

  lemma EndsKeepsRow(t: Task, u: Task, worker: string, token: nat, status: RunStatus, issued: nat)
    requires TaskOk(t, issued) && Ends(t, u, worker, token, status) && !status.Active? && !u.status.Running? && TimesOk(u)
    ensures TaskOk(u, issued) && |u.runs| == |t.runs| && History(t.runs, u.runs)
  {
  }

  lemma FinishEnds(t: Task, a: Finish, now: nat, issued: nat)
    requires TaskOk(t, issued) && FinishTask(t, a, now).Ok?
    ensures var u := FinishTask(t, a, now).value;
            Ends(t, u, a.worker, a.token, a.runStatus) && !a.runStatus.Active? && u.status == a.target && !a.target.Running?
            && TimesOk(u)
  {
  }

  lemma RecoverEnds(t: Task, lease: ExpiredLease, next: Option<nat>, now: nat, issued: nat)
    requires TaskOk(t, issued) && RecoverTask(t, lease, next, now).Ok? && RecoverTask(t, lease, next, now).value.Some?
    ensures var u := RecoverTask(t, lease, next, now).value.value;
            Ends(t, u, lease.worker, lease.token, Lost) && !u.status.Running? && TimesOk(u)
  {
  }

  /** The token an action presents. */
  ghost function Token(a: Action): Option<nat> {
    match a
    case Heartbeat(_, _, token, _, _) => Some(token)
    case FinishRun(_, finish, _) => Some(finish.token)
    case WorkerDone(_, _, _, token, _, _, _, _) => Some(token)
    case Recover(lease, _, _) => Some(lease.token)
    case _ => None
  }

  /** The action ends a lease of its row. */
  ghost predicate ClosesRow(t: Task, a: Action) {
    match a
    case FinishRun(_, finish, now) => FinishTask(t, finish, now).Ok?
    case WorkerDone(_, runId, worker, token, outcome, backoff, now, checkedAt) =>
      WorkerFinish(t, runId, worker, token, outcome, backoff, now, checkedAt).Ok?
    case Recover(lease, next, now) => RecoverTask(t, lease, next, now).Ok? && RecoverTask(t, lease, next, now).value.Some?
    case _ => false
  }

  ghost predicate Holds(t: Task, token: nat) {
    t.lock.Some? && t.lock.value.token == token
  }

  /** What a change of a row does to its lease. */
  lemma ChangeOfRow(t: Task, a: Action, issued: nat)
    requires Target(a).Some? && TaskOk(t, issued) && Change(t, a).Ok?
    ensures var u := Change(t, a).value;
            && TaskOk(u, issued) && |u.runs| == |t.runs| && History(t.runs, u.runs)
            && (Token(a).Some? && u != t ==> Holds(t, Token(a).value))
            && (if ClosesRow(t, a) then Token(a).Some? && Holds(t, Token(a).value) && u.lock.None?
                else t.lock.Some? <==> u.lock.Some?)
            && (t.lock.Some? && u.lock.Some? ==> u.lock.value.token == t.lock.value.token)
  {
    hide TaskOk, TransitionTask, HeartbeatTask, FinishTask, RecoverTask, Report;
    match a
    case Transition(_, expected, target, next, now) => TransitionKeepsRow(t, expected, target, next, now, issued);
    case Heartbeat(_, worker, token, duration, now) =>
      HeartbeatKeepsRow(t, worker, token, duration, now, issued);
    case FinishRun(_, finish, now) =>
      FinishEnds(t, finish, now, issued);
      EndsKeepsRow(t, Change(t, a).value, finish.worker, finish.token, finish.runStatus, issued);
    case WorkerDone(_, runId, worker, token, outcome, backoff, now, checkedAt) =>
      ReportPresents(t, runId, worker, token, outcome, backoff, now);
      var finish := Report(t, runId, worker, token, outcome, backoff, now).value;
      FinishEnds(t, finish, checkedAt, issued);
      EndsKeepsRow(t, Change(t, a).value, finish.worker, finish.token, finish.runStatus, issued);
    case Recover(lease, next, now) =>
      if RecoverTask(t, lease, next, now).value.Some? {
        RecoverEnds(t, lease, next, now, issued);
        EndsKeepsRow(t, Change(t, a).value, lease.worker, lease.token, Lost, issued);
      }
  }

  lemma ReportPresents(t: Task, runId: nat, worker: string, token: nat, outcome: TaskOutcome,
                       backoff: RetryBackoff.ExponentialBackoff, now: nat)
    ensures var r := Report(t, runId, worker, token, outcome, backoff, now);
            r.Ok? ==> r.value.worker == worker && r.value.token == token && r.value.runId == runId && r.value.expected == t.status
  {
  }

  // ---- claiming ----------------------------------------------------------------------------

  lemma {:induction false} MaxNumberCounts(runs: seq<TaskRun>)
    requires forall k :: 0 <= k < |runs| ==> runs[k].number == k + 1
    ensures MaxNumber(runs) == |runs|
  {
    if runs != [] {
      MaxNumberCounts(runs[..|runs| - 1]);
    }
  }

  /** A claim finds no active run, and its own run is the next number of that task. */
  lemma ClaimOfRow(t: Task, worker: string, duration: nat, now: nat, issued: nat)
    requires TaskOk(t, issued) && Claimable(t, now) && ValidOwner(worker, duration)
    ensures var r := CreateRun(Locked(t, worker, issued, duration, now), issued, worker, issued, now);
            && r.Ok? && TaskOk(r.value, issued + 1)
            && r.value == Locked(t, worker, issued, duration, now).(
                 runs := t.runs + [TaskRun(issued, |t.runs| + 1, worker, issued, Active, now, now, None)])
  {
    MaxNumberCounts(t.runs);
  }

  // ---- the whole queue ---------------------------------------------------------------------

  lemma NewRunIsFresh(q: Queue, i: nat, t: Task, run: TaskRun)
    requires QueueOk(q) && i < |q.tasks| && t.runs == q.tasks[i].runs + [run] && run.token == q.issued
    ensures TokensOk(q.tasks[i := t])
  {
    hide LockOk, NumberedOk;
    var next := q.tasks[i := t];
    forall j, k, a, b | 0 <= j < |next| && 0 <= k < |next| && 0 <= a < |next[j].runs| && 0 <= b < |next[k].runs|
                        && next[j].runs[a].token == next[k].runs[b].token
      ensures j == k && a == b
    {
      if a < |q.tasks[j].runs| && b < |q.tasks[k].runs| {
        assert q.tasks[j].runs[a].token == q.tasks[k].runs[b].token;
      }
    }
  }

  lemma SameTokens(q: Queue, i: nat, t: Task)
    requires TokensOk(q.tasks) && i < |q.tasks| && |t.runs| == |q.tasks[i].runs| && History(q.tasks[i].runs, t.runs)
    ensures TokensOk(q.tasks[i := t])
  {
    var next := q.tasks[i := t];
    forall j, k, a, b | 0 <= j < |next| && 0 <= k < |next| && 0 <= a < |next[j].runs| && 0 <= b < |next[k].runs|
                        && next[j].runs[a].token == next[k].runs[b].token
      ensures j == k && a == b
    {
      assert q.tasks[j].runs[a].token == q.tasks[k].runs[b].token;
    }
  }

  lemma ClaimOk(q: Queue, worker: string, duration: nat, now: nat)
    requires QueueOk(q) && ValidOwner(worker, duration)
    ensures var r := ClaimNext(q, worker, duration, now);
            && r.Ok? && QueueOk(r.value.queue)
            && (r.value.task.None? <==> forall i :: 0 <= i < |q.tasks| ==> !Claimable(q.tasks[i], now))
            && (r.value.task.None? ==> r.value.queue == q)
            && (r.value.task.Some? ==>
                  var i := r.value.task.value;
                  && Claimable(q.tasks[i], now)
                  && r.value.queue.issued == q.issued + 1
                  && r.value.queue.tasks == q.tasks[i := Locked(q.tasks[i], worker, q.issued, duration, now).(
                       runs := q.tasks[i].runs + [TaskRun(q.issued, |q.tasks[i].runs| + 1, worker, q.issued, Active, now, now, None)])])
  {
    hide Least, TaskOk, TokensOk, CreateRun, Claimable;
    var keys := ClaimKeys(q, now);
    assert forall j :: 0 <= j < |q.tasks| ==> (keys[j].Some? <==> Claimable(q.tasks[j], now));
    if Least(keys).Some? {
      var i := Least(keys).value;
      var t := q.tasks[i];
      ClaimOfRow(t, worker, duration, now, q.issued);
      NewRunIsFresh(q, i, CreateRun(Locked(t, worker, q.issued, duration, now), q.issued, worker, q.issued, now).value,
                    TaskRun(q.issued, |t.runs| + 1, worker, q.issued, Active, now, now, None));
      IssueMore(q);
    }
  }

  lemma IssueMore(q: Queue)
    requires QueueOk(q)
    ensures forall i :: 0 <= i < |q.tasks| ==> TaskOk(q.tasks[i], q.issued + 1)
  {
    hide LockOk, NumberedOk, TokensOk;
  }

  lemma ApplyOk(q: Queue, a: Action)
    requires QueueOk(q)
    ensures QueueOk(Apply(q, a))
  {
    hide TaskOk, Change, ClaimNext, Token, ClosesRow, Holds, TokensOk, History;
    match Target(a)
    case Some(i) =>
      if i < |q.tasks| && Change(q.tasks[i], a).Ok? {
        ChangeOfRow(q.tasks[i], a, q.issued);
        SameTokens(q, i, Change(q.tasks[i], a).value);
      }
    case None =>
      if a.Create? {
        CreateOk(q, NewTask(a.download, a.priority, a.maxRetries, a.now));
      } else if ValidOwner(a.worker, a.duration) {
        ClaimOk(q, a.worker, a.duration, a.now);
      } else {
        assert ClaimNext(q, a.worker, a.duration, a.now).Err? by { InvalidOwnerIsRefused(q, a.worker, a.duration, a.now); }
      }
  }

  lemma InvalidOwnerIsRefused(q: Queue, worker: string, duration: nat, now: nat)
    requires !ValidOwner(worker, duration)
    ensures ClaimNext(q, worker, duration, now) == Err(InvalidArgument)
  {
  }

  lemma CreateOk(q: Queue, t: Task)
    requires QueueOk(q) && t.runs == [] && t.lock.None? && t.status.Pending? && TimesOk(t)
    ensures QueueOk(q.(tasks := q.tasks + [t]))
  {
    var next := q.tasks + [t];
    assert TokensOk(next) by {
      forall j, k, a, b | 0 <= j < |next| && 0 <= k < |next| && 0 <= a < |next[j].runs| && 0 <= b < |next[k].runs|
                          && next[j].runs[a].token == next[k].runs[b].token
        ensures j == k && a == b
      {
        assert q.tasks[j].runs[a].token == q.tasks[k].runs[b].token;
      }
    }
  }

  lemma {:induction false} RunOk(q: Queue, actions: seq<Action>)
    requires QueueOk(q)
    ensures QueueOk(Run(q, actions))
  {
    hide QueueOk, Apply;
    if actions != [] {
      RunOk(q, actions[..|actions| - 1]);
      ApplyOk(Run(q, actions[..|actions| - 1]), actions[|actions| - 1]);
    }
  }
}
