/** Retry accounting, and the order in which claims are served. */
module TaskBudget {
  import opened Prelude
  import opened Ordering
  import opened TaskQueue
  import opened TaskOwnership
  import R = TaskReports
  import opened TaskSafety

  // ---- conservation ------------------------------------------------------------------------

  function FailingRuns(runs: seq<TaskRun>): nat {
    if runs == [] then 0
    else
      FailingRuns(runs[..|runs| - 1])
      + if runs[|runs| - 1].status.Failing? || runs[|runs| - 1].status.Lost? then 1 else 0
  }

  lemma {:induction false} FailingRunsDepend(s: seq<TaskRun>, t: seq<TaskRun>)
    requires |s| == |t| && forall k :: 0 <= k < |s| ==> s[k].status == t[k].status
    ensures FailingRuns(s) == FailingRuns(t)
  {
    if s != [] {
      FailingRunsDepend(s[..|s| - 1], t[..|t| - 1]);
    }
  }

  lemma ClosingCounts(t: Task, u: Task, worker: string, token: nat, status: RunStatus)
    requires Ends(t, u, worker, token, status)
    ensures FailingRuns(u.runs) == FailingRuns(t.runs) + if status.Failing? || status.Lost? then 1 else 0
  {
    var last := |t.runs| - 1;
    FailingRunsDepend(t.runs[..last], u.runs[..last]);
  }

  ghost predicate BudgetOk(t: Task) {
    && t.retryCount == FailingRuns(t.runs)
    && (t.status.Queued() || t.status.Running? || t.status.WaitingCredential? ==> t.retryCount <= t.maxRetries)
    && (t.status.CancelRequested? ==> t.cancelRequestedAt.Some?)
    && (t.cancelRequestedAt.None? ==>
          t.retryCount <= t.maxRetries || (t.retryCount == t.maxRetries + 1 && t.status.Failed?))
  }

  lemma OwnedIsLeased(t: Task, worker: string, token: nat, issued: nat)
    requires TaskOk(t, issued) && OwnedBy(t, worker, token)
    ensures t.status.Leased()
  {
  }

  lemma ReportKeepsBudget(t: Task, a: Action, issued: nat)
    requires a.WorkerDone? && TaskOk(t, issued) && BudgetOk(t) && Change(t, a).Ok?
    ensures BudgetOk(Change(t, a).value)
  {
    hide TaskOk, FindRun, Schedule;
    var finish := Report(t, a.runId, a.worker, a.token, a.outcome, a.backoff, a.now).value;
    FinishEnds(t, finish, a.checkedAt, issued);
    ClosingCounts(t, Change(t, a).value, finish.worker, finish.token, finish.runStatus);
  }

  lemma ChangeKeepsBudget(t: Task, a: Action, issued: nat)
    requires Target(a).Some? && TaskOk(t, issued) && BudgetOk(t) && Change(t, a).Ok? && !a.FinishRun?
    ensures BudgetOk(Change(t, a).value)
  {
    hide TaskOk, FindRun, Schedule;
    var u := Change(t, a).value;
    match a
    case Transition(_, expected, target, next, now) => TransitionKeepsRow(t, expected, target, next, now, issued);
    case Heartbeat(_, worker, token, duration, now) =>
      HeartbeatKeepsRow(t, worker, token, duration, now, issued);
      HeartbeatKeepsStatuses(t, worker, token, duration, now);
      FailingRunsDepend(t.runs, u.runs);
    case WorkerDone(_, _, _, _, _, _, _, _) => ReportKeepsBudget(t, a, issued);
    case Recover(lease, next, now) =>
      if RecoverTask(t, lease, next, now).value.Some? {
        OwnedIsLeased(t, lease.worker, lease.token, issued);
        RecoverEnds(t, lease, next, now, issued);
        ClosingCounts(t, u, lease.worker, lease.token, Lost);
      }
  }

  lemma HeartbeatKeepsStatuses(t: Task, worker: string, token: nat, duration: nat, now: nat)
    requires HeartbeatTask(t, worker, token, duration, now).Ok?
    ensures var u := HeartbeatTask(t, worker, token, duration, now).value;
            |u.runs| == |t.runs| && forall k :: 0 <= k < |t.runs| ==> u.runs[k].status == t.runs[k].status
  {
  }

  ghost predicate BudgetsOk(q: Queue) {
    forall i :: 0 <= i < |q.tasks| ==> BudgetOk(q.tasks[i])
  }

  lemma ClaimKeepsBudget(t: Task, u: Task, run: TaskRun)
    requires BudgetOk(t) && (t.status.Queued() || t.status.CancelRequested?) && u.runs == t.runs + [run] && run.status.Active?
    requires u.status == (if t.status.CancelRequested? then CancelRequested else Running)
    requires u.retryCount == t.retryCount && u.maxRetries == t.maxRetries && u.cancelRequestedAt == t.cancelRequestedAt
    ensures BudgetOk(u)
  {
    assert u.runs[..|u.runs| - 1] == t.runs;
  }

  lemma ApplyKeepsBudgets(q: Queue, a: Action)
    requires QueueOk(q) && BudgetsOk(q) && !a.FinishRun?
    ensures BudgetsOk(Apply(q, a))
  {
    hide TaskOk, TokensOk, Change, ClaimNext, BudgetOk;
    if Target(a).Some? {
      var i := Target(a).value;
      if i < |q.tasks| && Change(q.tasks[i], a).Ok? {
        ChangeKeepsBudget(q.tasks[i], a, q.issued);
      }
    } else if a.Create? {
      NewTaskKeepsBudget(a.download, a.priority, a.maxRetries, a.now);
    } else if ValidOwner(a.worker, a.duration) {
      ClaimOk(q, a.worker, a.duration, a.now);
      var claim := ClaimNext(q, a.worker, a.duration, a.now).value;
      if claim.task.Some? {
        var i := claim.task.value;
        var t := q.tasks[i];
        ClaimKeepsBudget(t, claim.queue.tasks[i],
                         TaskRun(q.issued, |t.runs| + 1, a.worker, q.issued, Active, a.now, a.now, None));
      }
    } else {
      InvalidOwnerIsRefused(q, a.worker, a.duration, a.now);
    }
  }

  lemma NewTaskKeepsBudget(download: bool, priority: nat, maxRetries: nat, now: nat)
    ensures BudgetOk(NewTask(download, priority, maxRetries, now))
  {
  }

  lemma {:induction false} RunKeepsBudgets(actions: seq<Action>)
    requires forall k :: 0 <= k < |actions| ==> !actions[k].FinishRun?
    ensures QueueOk(Run(EMPTY, actions)) && BudgetsOk(Run(EMPTY, actions))
  {
    hide QueueOk, BudgetsOk, Apply;
    EmptyIsOk();
    if actions == [] {
      assert BudgetsOk(EMPTY) by { NothingToSpend(); }
    } else {
      var before := actions[..|actions| - 1];
      RunKeepsBudgets(before);
      ApplyOk(Run(EMPTY, before), actions[|actions| - 1]);
      ApplyKeepsBudgets(Run(EMPTY, before), actions[|actions| - 1]);
    }
  }

  lemma NothingToSpend()
    ensures BudgetsOk(EMPTY)
  {
  }

  /**
   Conservation. When runs are closed by the worker and by recovery, the retry counter is the
   number of failed and lost runs. It stays within the limit while the task can still run, and a
   task nobody asked to cancel ends after at most one failing run more than its retries.
   */
  lemma {:induction false} RetriesAreConserved(actions: seq<Action>, i: nat)
    requires forall k :: 0 <= k < |actions| ==> !actions[k].FinishRun?
    requires i < |Run(EMPTY, actions).tasks|
    ensures var t := Run(EMPTY, actions).tasks[i];
            && t.retryCount == FailingRuns(t.runs)
            && (t.status.Queued() || t.status.Running? || t.status.WaitingCredential? ==> FailingRuns(t.runs) <= t.maxRetries)
            && (t.cancelRequestedAt.None? ==> FailingRuns(t.runs) <= t.maxRetries + 1)
            && (t.cancelRequestedAt.None? && FailingRuns(t.runs) > t.maxRetries ==> t.status.Failed?)
  {
    hide Run, QueueOk;
    RunKeepsBudgets(actions);
    assert BudgetOk(Run(EMPTY, actions).tasks[i]);
  }

  // ---- cancelled tasks have no limit -------------------------------------------------------

  lemma RunNext(q: Queue, actions: seq<Action>, a: Action)
    ensures Run(q, actions + [a]) == Apply(Run(q, actions), a)
  {
    assert (actions + [a])[..|actions|] == actions;
  }

  ghost predicate FromWorkers(actions: seq<Action>) {
    forall k :: 0 <= k < |actions| ==> !actions[k].FinishRun?
  }

  /** The only task of the queue waits, without an owner, for its cancellation to be finished. */
  ghost predicate Cancelling(q: Queue, maxRetries: nat, losses: nat) {
    && QueueOk(q) && |q.tasks| == 1
    && var t := q.tasks[0];
       && t.status.CancelRequested? && t.lock.None? && t.cancelRequestedAt.Some?
       && t.maxRetries == maxRetries && t.retryCount == losses
  }

  /** A held task whose worker is gone loses its lease and is charged. */
  lemma LeaseIsLost(q: Queue, t: Task)
    requires QueueOk(q) && q.tasks == [t] && t.status.CancelRequested? && t.lock.Some? && t.cancelRequestedAt.Some?
    ensures var lock := t.lock.value;
            var expired := ExpiredLease(0, CancelRequested, lock.worker, lock.token, t.retryCount);
            Cancelling(Apply(q, Recover(expired, None, lock.leaseUntil)), t.maxRetries, t.retryCount + 1)
  {
    hide TokensOk;
    var lock := t.lock.value;
    assert TaskOk(q.tasks[0], q.issued);
    OwnedRunIsFound(t, lock.worker, lock.token, q.issued);
    ApplyOk(q, Recover(ExpiredLease(0, CancelRequested, lock.worker, lock.token, t.retryCount), None, lock.leaseUntil));
  }

  lemma OnlyTaskIsClaimed(q: Queue, now: nat) returns (t: Task)
    requires QueueOk(q) && |q.tasks| == 1 && Claimable(q.tasks[0], now)
    ensures Apply(q, Take("w", 1, now)) == Queue([t], q.issued + 1) && QueueOk(Queue([t], q.issued + 1))
    ensures OwnedBy(t, "w", q.issued) && t.lock.value.leaseUntil == now + 1
    ensures t.status == (if q.tasks[0].status.CancelRequested? then CancelRequested else Running)
    ensures t.retryCount == q.tasks[0].retryCount && t.maxRetries == q.tasks[0].maxRetries
    ensures t.cancelRequestedAt == q.tasks[0].cancelRequestedAt
  {
    hide QueueOk, ClaimNext;
    ClaimOk(q, "w", 1, now);
    t := ClaimNext(q, "w", 1, now).value.queue.tasks[0];
    assert ClaimNext(q, "w", 1, now).value.queue.tasks == [t];
  }

  /** A clock that never runs backwards and has not passed `last`. */
  ghost predicate Until(actions: seq<Action>, last: nat) {
    Timely(actions) && forall k :: 0 <= k < |actions| ==> Reading(actions[k]) <= last
  }

  lemma LaterAction(actions: seq<Action>, a: Action, last: nat)
    requires Until(actions, last) && last <= Reading(a)
    ensures Until(actions + [a], Reading(a))
  {
  }

  /** A running task is asked to cancel while its lease still lasts, all at one instant. */
  lemma FirstCancellation(maxRetries: nat) returns (actions: seq<Action>, t: Task)
    ensures FromWorkers(actions) && Until(actions, 0) && Run(EMPTY, actions) == Queue([t], 1) && QueueOk(Queue([t], 1))
    ensures t.status.CancelRequested? && t.cancelRequestedAt.Some? && t.maxRetries == maxRetries && t.retryCount == 0
    ensures t.lock.Some? && t.lock.value.leaseUntil == 1
  {
    hide QueueOk, ClaimNext, Run;
    EmptyIsOk();
    var a := Create(true, 0, maxRetries, 0);
    var q1 := Queue([NewTask(true, 0, maxRetries, 0)], 0);
    assert Run(EMPTY, []) == EMPTY by { NothingDone(); }
    RunNext(EMPTY, [], a);
    assert [] + [a] == [a] && Apply(EMPTY, a) == q1;
    ApplyOk(EMPTY, a);
    var u := OnlyTaskIsClaimed(q1, 0);
    RunNext(EMPTY, [a], Take("w", 1, 0));
    var q2 := Queue([u], 1);
    t := u.(status := CancelRequested, nextAttemptAt := None, completedAt := None,
            cancelRequestedAt := if u.cancelRequestedAt.Some? then u.cancelRequestedAt else Some(0));
    var cancel := Transition(0, Running, CancelRequested, None, 0);
    RunNext(EMPTY, [a] + [Take("w", 1, 0)], cancel);
    assert Apply(q2, cancel) == Queue([t], 1);
    ApplyOk(q2, cancel);
    actions := [a] + [Take("w", 1, 0)] + [cancel];
  }

  lemma FirstLoss(maxRetries: nat) returns (actions: seq<Action>)
    ensures FromWorkers(actions) && Until(actions, 1) && Cancelling(Run(EMPTY, actions), maxRetries, 1)
  {
    hide QueueOk, Run, Cancelling, Apply, Until, FromWorkers;
    var before, t := FirstCancellation(maxRetries);
    var lost := OneLoss(EMPTY, before, t, 0);
    actions := before + [lost];
  }

  /** The lease of the only task runs out at the next instant. */
  lemma OneLoss(q: Queue, before: seq<Action>, t: Task, now: nat) returns (lost: Action)
    requires Run(q, before).tasks == [t] && QueueOk(Run(q, before)) && FromWorkers(before) && Until(before, now)
    requires t.status.CancelRequested? && t.cancelRequestedAt.Some? && t.lock.Some? && t.lock.value.leaseUntil == now + 1
    ensures FromWorkers(before + [lost]) && Until(before + [lost], now + 1)
    ensures Cancelling(Run(q, before + [lost]), t.maxRetries, t.retryCount + 1)
  {
    hide QueueOk, Run, Cancelling, Apply;
    var lock := t.lock.value;
    lost := Recover(ExpiredLease(0, CancelRequested, lock.worker, lock.token, t.retryCount), None, lock.leaseUntil);
    LeaseIsLost(Run(q, before), t);
    RunNext(q, before, lost);
    LaterAction(before, lost, now);
  }

  lemma NothingDone()
    ensures Run(EMPTY, []) == EMPTY
  {
  }

  /**
   Cancellation is the exact boundary of the retry limit. RetriesAreConserved bounds every task
   nobody asked to cancel; for each limit and each number there is a history, its clock never running
   backwards, in which a task being cancelled has failed more often than that and can be claimed again.
   */
  lemma {:induction false} CancelledTasksHaveNoLimit(maxRetries: nat, n: nat) returns (actions: seq<Action>)
    ensures FromWorkers(actions) && Until(actions, n + 1) && Cancelling(Run(EMPTY, actions), maxRetries, n + 1)
    ensures var q := Run(EMPTY, actions);
            && q.tasks[0].cancelRequestedAt.Some? && q.tasks[0].maxRetries == maxRetries && q.tasks[0].retryCount > n
            && FailingRuns(q.tasks[0].runs) > n && Claimable(q.tasks[0], n + 1)
    decreases n
  {
    hide QueueOk, ClaimNext, Run, Apply, Until;
    if n == 0 {
      actions := FirstLoss(maxRetries);
    } else {
      var before := CancelledTasksHaveNoLimit(maxRetries, n - 1);
      var take := Take("w", 1, n);
      var t := OnlyTaskIsClaimed(Run(EMPTY, before), n);
      RunNext(EMPTY, before, take);
      LaterAction(before, take, n);
      var lost := OneLoss(EMPTY, before + [take], t, n);
      actions := before + [take] + [lost];
    }
    RunKeepsBudgets(actions);
    assert BudgetOk(Run(EMPTY, actions).tasks[0]);
  }

  // ---- the order of claims -----------------------------------------------------------------

  /** Successive claims at one instant, each by the next worker of the list. */
  ghost function Claims(q: Queue, workers: seq<string>, duration: nat, now: nat): (r: (Queue, seq<nat>))
    decreases |workers|
  {
    if workers == [] || ClaimNext(q, workers[0], duration, now).Err? then (q, [])
    else
      var claim := ClaimNext(q, workers[0], duration, now).value;
      var (rest, ids) := Claims(claim.queue, workers[1..], duration, now);
      (rest, if claim.task.Some? then [claim.task.value] + ids else ids)
  }

  lemma ClaimRemovesKey(q: Queue, worker: string, duration: nat, now: nat)
    requires QueueOk(q) && ValidOwner(worker, duration)
    ensures var claim := ClaimNext(q, worker, duration, now).value;
            && ClaimNext(q, worker, duration, now).Ok? && QueueOk(claim.queue)
            && claim.task == Least(ClaimKeys(q, now))
            && ClaimKeys(claim.queue, now) ==
               (if claim.task.Some? then ClaimKeys(q, now)[claim.task.value := None] else ClaimKeys(q, now))
  {
    hide QueueOk, Least;
    ClaimOk(q, worker, duration, now);
  }

  lemma {:induction false} ClaimsTakeTheLeast(q: Queue, workers: seq<string>, duration: nat, now: nat)
    requires QueueOk(q) && duration > 0 && forall k :: 0 <= k < |workers| ==> workers[k] != ""
    ensures Claims(q, workers, duration, now).1 == TakeLeast(ClaimKeys(q, now), |workers|)
    decreases |workers|
  {
    hide QueueOk, ClaimNext, Least, ClaimKeys;
    if workers != [] {
      ClaimRemovesKey(q, workers[0], duration, now);
      ClaimsTakeTheLeast(ClaimNext(q, workers[0], duration, now).value.queue, workers[1..], duration, now);
    }
  }

  /**
   Claims made one after the other at one instant, by whichever workers, are the first rows of the
   claimable tasks by priority, effective time, creation time and id, all different; FirstOfIsUnique
   says that no other list has this property.
   */
  lemma {:induction false} ClaimsAreServedInOrder(actions: seq<Action>, workers: seq<string>, duration: nat, now: nat)
    requires duration > 0 && forall k :: 0 <= k < |workers| ==> workers[k] != ""
    ensures var q := Run(EMPTY, actions);
            var keys, ids := ClaimKeys(q, now), Claims(q, workers, duration, now).1;
            && FirstOf(keys, ids) && R.ServedInOrder(q, ids, now)
            && |ids| == (if |workers| <= |Eligible(keys)| then |workers| else |Eligible(keys)|)
            && (forall a, b :: 0 <= a < b < |ids| ==> ids[a] != ids[b])
  {
    hide Run, QueueOk, Claims, TakeLeast, Precedes;
    EmptyIsOk();
    RunOk(EMPTY, actions);
    var q := Run(EMPTY, actions);
    ClaimsTakeTheLeast(q, workers, duration, now);
    TakeLeastIsFirst(ClaimKeys(q, now), |workers|);
    R.FirstAreServed(q, TakeLeast(ClaimKeys(q, now), |workers|), now);
  }
}
