/**
 What the worker's report of each outcome makes of the row, column by column, and what renewing and
 recovering a lease make of it; when the task can be claimed again; and the order of the queries.
 */
module TaskReports {
  import opened Prelude
  import opened Ordering
  import opened RetryBackoff
  import opened TaskQueue
  import opened TaskOwnership
  import opened TaskSafety

  // ---- reports -----------------------------------------------------------------------------

  /** A row whose last run was closed with this status, and its lease with it. */
  function After(t: Task, status: TaskStatus, runStatus: RunStatus, next: Option<nat>, retries: nat, now: nat): Task
    requires t.runs != []
  {
    var last := |t.runs| - 1;
    t.(status := status,
       nextAttemptAt := next,
       completedAt := if status in {Success, Failed, Cancelled} then Some(now) else None,
       lock := None,
       retryCount := retries,
       runs := t.runs[last := t.runs[last].(status := runStatus, finishedAt := Some(now))])
  }

  /** The worker holds the lease of the row, and it lasts. */
  ghost predicate HoldsLease(q: Queue, i: nat, runId: nat, worker: string, token: nat, now: nat) {
    && i < |q.tasks| && OwnedBy(q.tasks[i], worker, token) && now < q.tasks[i].lock.value.leaseUntil
    && q.tasks[i].runs != [] && q.tasks[i].runs[|q.tasks[i].runs| - 1].id == runId
  }

  lemma LeasedRow(q: Queue, i: nat, runId: nat, worker: string, token: nat, now: nat)
    requires QueueOk(q) && HoldsLease(q, i, runId, worker, token, now)
    ensures var t := q.tasks[i];
            && worker != "" && (t.status.Running? || t.status.CancelRequested?) && t.nextAttemptAt.None? && t.completedAt.None?
            && FindRun(t.runs, worker, token) == Some(|t.runs| - 1)
  {
    hide TokensOk, FindRun;
    assert TaskOk(q.tasks[i], q.issued);
    OwnedRunIsFound(q.tasks[i], worker, token, q.issued);
  }

  /** Where the outcome of a running task leads; None where it is refused. */
  ghost predicate RunningBecomes(t: Task, outcome: TaskOutcome, backoff: ExponentialBackoff, now: nat, u: Option<Task>)
    requires t.runs != []
  {
    match outcome.status
    case Deferring =>
      var wait: nat := if outcome.retryAfter.Some? then outcome.retryAfter.value else 1;
      u == if outcome.continuation then Some(After(t, Pending, Succeeded, Some(now + wait), t.retryCount, now)) else None
    case Succeeding => u == Some(After(t, Success, Succeeded, None, t.retryCount, now))
    case Retrying =>
      if t.retryCount >= t.maxRetries then u == Some(After(t, Failed, Failing, None, t.retryCount + 1, now))
      else
        var wait: nat := if outcome.retryAfter.Some? then outcome.retryAfter.value else backoff.baseDelay * Pow2(t.retryCount);
        u == Some(After(t, Retry, Failing, Some(now + Min(wait, backoff.maxDelay)), t.retryCount + 1, now))
    case Failure => u == Some(After(t, Failed, Failing, None, t.retryCount + 1, now))
    case MissingCredential => u == Some(After(t, WaitingCredential, Blocked, None, t.retryCount, now))
    case Cancelling => u.None?
  }

  /** A task asked to cancel ends in success or cancelled; a cancelled download cannot end otherwise. */
  ghost predicate CancelledBecomes(t: Task, outcome: TaskOutcome, now: nat, u: Option<Task>)
    requires t.runs != []
  {
    if outcome.status.Succeeding? then u == Some(After(t, Success, Succeeded, None, t.retryCount, now))
    else if outcome.status.Cancelling? || t.download then u == Some(After(t, Cancelled, Stopped, None, t.retryCount, now))
    else u.None?
  }

  /** What the report of an outcome does to the row, to the whole queue, and when it is refused. */
  ghost predicate ReportDone(q: Queue, i: nat, outcome: TaskOutcome, backoff: ExponentialBackoff, now: nat, accepted: bool, p: Queue)
    requires i < |q.tasks| && q.tasks[i].runs != []
  {
    && |p.tasks| == |q.tasks| && p == (if accepted then q.(tasks := q.tasks[i := p.tasks[i]]) else q)
    && var t, u := q.tasks[i], if accepted then Some(p.tasks[i]) else None;
       if t.status.Running? then RunningBecomes(t, outcome, backoff, now, u) else CancelledBecomes(t, outcome, now, u)
  }

  lemma ReportIsRecorded(q: Queue, i: nat, runId: nat, worker: string, token: nat,
                         outcome: TaskOutcome, backoff: ExponentialBackoff, now: nat, checkedAt: nat)
    requires QueueOk(q) && HoldsLease(q, i, runId, worker, token, checkedAt)
    ensures ReportDone(q, i, outcome, backoff, now, WorkerFinish(q.tasks[i], runId, worker, token, outcome, backoff, now, checkedAt).Ok?,
                       Apply(q, WorkerDone(i, runId, worker, token, outcome, backoff, now, checkedAt)))
  {
    hide QueueOk, FindRun;
    LeasedRow(q, i, runId, worker, token, checkedAt);
    RowIsReported(q.tasks[i], i, runId, worker, token, outcome, backoff, now, checkedAt);
  }

  /**
   The law of the worker's report. In every reachable queue the report of the worker that holds a
   living lease changes exactly its row, as the outcome asks for, or is refused and changes nothing.
   */
  lemma {:induction false} ReportsAreRecorded(actions: seq<Action>, i: nat, runId: nat, worker: string, token: nat,
                                              outcome: TaskOutcome, backoff: ExponentialBackoff, now: nat, checkedAt: nat)
    requires HoldsLease(Run(EMPTY, actions), i, runId, worker, token, checkedAt)
    ensures var q := Run(EMPTY, actions);
            ReportDone(q, i, outcome, backoff, now, WorkerFinish(q.tasks[i], runId, worker, token, outcome, backoff, now, checkedAt).Ok?,
                       Apply(q, WorkerDone(i, runId, worker, token, outcome, backoff, now, checkedAt)))
  {
    hide Run, QueueOk, ReportDone, Apply;
    EmptyIsOk();
    RunOk(EMPTY, actions);
    ReportIsRecorded(Run(EMPTY, actions), i, runId, worker, token, outcome, backoff, now, checkedAt);
  }

  lemma RowIsReported(t: Task, i: nat, runId: nat, worker: string, token: nat, outcome: TaskOutcome,
                      backoff: ExponentialBackoff, now: nat, checkedAt: nat)
    requires worker != "" && (t.status.Running? || t.status.CancelRequested?) && t.nextAttemptAt.None? && t.completedAt.None?
    requires OwnedBy(t, worker, token) && checkedAt < t.lock.value.leaseUntil
    requires t.runs != [] && FindRun(t.runs, worker, token) == Some(|t.runs| - 1) && t.runs[|t.runs| - 1].id == runId
    ensures var r := WorkerFinish(t, runId, worker, token, outcome, backoff, now, checkedAt);
            var u := if r.Ok? then Some(r.value) else None;
            if t.status.Running? then RunningBecomes(t, outcome, backoff, now, u) else CancelledBecomes(t, outcome, now, u)
  {
    hide FindRun, Pow2;
    match outcome.status
    case Deferring =>
    case Retrying =>
    case _ =>
  }

  // ---- when the task comes back ------------------------------------------------------------

  /** A deferred or retried task can be claimed from the reported time on, and not before. */
  lemma {:induction false} ReportedTasksWait(actions: seq<Action>, i: nat, runId: nat, worker: string, token: nat,
                                             outcome: TaskOutcome, backoff: ExponentialBackoff, now: nat, checkedAt: nat, later: nat)
    requires HoldsLease(Run(EMPTY, actions), i, runId, worker, token, checkedAt) && Run(EMPTY, actions).tasks[i].status.Running?
    requires outcome.status.Deferring? ==> outcome.continuation
    ensures var q := Run(EMPTY, actions);
            var t := q.tasks[i];
            var u := Apply(q, WorkerDone(i, runId, worker, token, outcome, backoff, now, checkedAt)).tasks[i];
            var asked := outcome.retryAfter;
            && (outcome.status.Deferring? ==> (Claimable(u, later) <==> now + (if asked.Some? then asked.value else 1) <= later))
            && (outcome.status.Retrying? && t.retryCount < t.maxRetries ==>
                  var wait: nat := if asked.Some? then asked.value else backoff.baseDelay * Pow2(t.retryCount);
                  Claimable(u, later) <==> now + Min(wait, backoff.maxDelay) <= later)
            && (outcome.status.Retrying? && t.retryCount >= t.maxRetries ==> !Claimable(u, later))
            && (outcome.status.Succeeding? || outcome.status.Failure? || outcome.status.MissingCredential? ==>
                  !Claimable(u, later))
  {
    hide Run, HoldsLease, WorkerFinish;
    ReportsAreRecorded(actions, i, runId, worker, token, outcome, backoff, now, checkedAt);
  }

  // ---- moves without ownership -------------------------------------------------------------

  /**
   What anybody may do without a lease: cancel a task that waits, requeue one that waits for its
   credential, and ask a leased one to cancel, the first time for all.
   */
  lemma MovesWithoutOwner(t: Task, expected: TaskStatus, target: TaskStatus, next: Option<nat>, now: nat)
    ensures var r := TransitionTask(t, expected, target, next, now);
            && (r.Ok? <==>
                  && t.status == expected
                  && (|| (target.Cancelled? && (expected.Pending? || expected.Retry? || expected.WaitingCredential?))
                      || (target.Pending? && expected.WaitingCredential?)
                      || (target.CancelRequested? && (expected.Running? || expected.CancelRequested?))))
            && (r.Ok? ==>
                  r.value == t.(status := target,
                                nextAttemptAt := if target.Pending? then next else None,
                                completedAt := if target.Cancelled? then Some(now) else None,
                                cancelRequestedAt :=
                                  if target.CancelRequested? && t.cancelRequestedAt.None? then Some(now) else t.cancelRequestedAt))
  {
  }

  // ---- renewing and recovering -------------------------------------------------------------

  /** A heartbeat moves the end of the lease to `duration` from now, marks the run, and changes nothing else. */
  lemma {:induction false} HeartbeatsRenew(actions: seq<Action>, i: nat, runId: nat, worker: string, token: nat, duration: nat, now: nat)
    requires HoldsLease(Run(EMPTY, actions), i, runId, worker, token, now) && duration > 0
    ensures var q := Run(EMPTY, actions);
            var t := q.tasks[i];
            var last := |t.runs| - 1;
            Apply(q, Heartbeat(i, worker, token, duration, now)) ==
            q.(tasks := q.tasks[i := t.(lock := Some(t.lock.value.(leaseUntil := now + duration)),
                                        runs := t.runs[last := t.runs[last].(heartbeatAt := now)])])
  {
    hide Run, QueueOk, FindRun;
    EmptyIsOk();
    RunOk(EMPTY, actions);
    LeasedRow(Run(EMPTY, actions), i, runId, worker, token, now);
  }

  /** The row of a lease that was recovered: lost, charged, and queued again unless that was its last retry. */
  function Recovered(t: Task, next: nat, now: nat): Task
    requires t.runs != []
  {
    if t.status.CancelRequested? then After(t, CancelRequested, Lost, None, t.retryCount + 1, now)
    else if t.retryCount >= t.maxRetries then After(t, Failed, Lost, None, t.retryCount + 1, now)
    else After(t, Retry, Lost, Some(next), t.retryCount + 1, now)
  }

  lemma RowIsRecovered(t: Task, i: nat, next: nat, now: nat, issued: nat)
    requires TaskOk(t, issued) && t.lock.Some? && t.lock.value.leaseUntil <= now
    ensures t.runs != []
    ensures var lease := ExpiredLease(i, t.status, t.lock.value.worker, t.lock.value.token, t.retryCount);
            RecoverTask(t, lease, Some(next), now) == Ok(Some(Recovered(t, next, now)))
  {
    hide FindRun;
    OwnedRunIsFound(t, t.lock.value.worker, t.lock.value.token, issued);
  }

  /**
   Recovery of a lease that is over: the run is lost and charged. A task being cancelled stays so and
   can be claimed at once; another waits for the given time, or has failed if that was its last retry.
   */
  lemma {:induction false} ExpiredLeasesAreCharged(actions: seq<Action>, i: nat, next: nat, now: nat, later: nat)
    requires i < |Run(EMPTY, actions).tasks| && Run(EMPTY, actions).tasks[i].lock.Some?
    requires Run(EMPTY, actions).tasks[i].lock.value.leaseUntil <= now
    ensures var q := Run(EMPTY, actions);
            var t := q.tasks[i];
            var lease := ExpiredLease(i, t.status, t.lock.value.worker, t.lock.value.token, t.retryCount);
            var u := Apply(q, Recover(lease, Some(next), now)).tasks[i];
            && t.runs != [] && Apply(q, Recover(lease, Some(next), now)) == q.(tasks := q.tasks[i := Recovered(t, next, now)])
            && (Claimable(u, later) <==> t.status.CancelRequested? || (t.retryCount < t.maxRetries && next <= later))
  {
    hide Run, TokensOk, RecoverTask;
    EmptyIsOk();
    RunOk(EMPTY, actions);
    var q := Run(EMPTY, actions);
    assert TaskOk(q.tasks[i], q.issued);
    RowIsRecovered(q.tasks[i], i, next, now, q.issued);
  }

  /** A listing that does not fit the row any more recovers nothing. */
  lemma StaleListingsRecoverNothing(t: Task, lease: ExpiredLease, next: Option<nat>, now: nat)
    requires t.status != lease.status || t.lock.None? || t.lock.value.worker != lease.worker
             || t.lock.value.token != lease.token || now < t.lock.value.leaseUntil
    ensures RecoverTask(t, lease, next, now) == Ok(None)
  {
  }

  // ---- the order of claims -----------------------------------------------------------------

  /** The higher priority first, then the longer due, then the older, then the smaller id. */
  ghost predicate ServedBefore(q: Queue, i: nat, j: nat)
    requires i < |q.tasks| && j < |q.tasks|
  {
    var t, u := q.tasks[i], q.tasks[j];
    var due := if t.nextAttemptAt.Some? then t.nextAttemptAt.value else t.createdAt;
    var other := if u.nextAttemptAt.Some? then u.nextAttemptAt.value else u.createdAt;
    || t.priority > u.priority
    || (t.priority == u.priority && due < other)
    || (t.priority == u.priority && due == other && t.createdAt < u.createdAt)
    || (t.priority == u.priority && due == other && t.createdAt == u.createdAt && i < j)
  }

  /** Each of the rows is claimable and served before the later ones and before all that are left out. */
  ghost predicate ServedInOrder(q: Queue, ids: seq<nat>, now: nat) {
    && (forall a :: 0 <= a < |ids| ==> ids[a] < |q.tasks| && Claimable(q.tasks[ids[a]], now))
    && (forall a, b :: 0 <= a < b < |ids| ==> ServedBefore(q, ids[a], ids[b]))
    && (forall a, j: nat :: 0 <= a < |ids| && j < |q.tasks| && j !in ids && Claimable(q.tasks[j], now) ==>
          ServedBefore(q, ids[a], j))
  }

  lemma KeysServe(q: Queue, i: nat, j: nat, now: nat)
    requires i < |q.tasks| && j < |q.tasks| && ClaimKeys(q, now)[i].Some? && ClaimKeys(q, now)[j].Some?
    ensures Below(ClaimKeys(q, now)[i].value, ClaimKeys(q, now)[j].value) <==> ServedBefore(q, i, j)
  {
  }

  lemma FirstAreServed(q: Queue, ids: seq<nat>, now: nat)
    requires FirstOf(ClaimKeys(q, now), ids)
    ensures ServedInOrder(q, ids, now)
  {
    hide Below, ServedBefore, Claimable;
    var keys := ClaimKeys(q, now);
    forall a, b | 0 <= a < b < |ids| ensures ServedBefore(q, ids[a], ids[b]) {
      KeysServe(q, ids[a], ids[b], now);
    }
    forall a, j: nat | 0 <= a < |ids| && j < |q.tasks| && j !in ids && Claimable(q.tasks[j], now)
      ensures ServedBefore(q, ids[a], j)
    {
      assert Precedes(keys, ids[a], ids);
      KeysServe(q, ids[a], j, now);
    }
  }

  /** A claim takes the row served before every other claimable one. */
  lemma ClaimTakesTheFirst(q: Queue, i: nat, now: nat)
    requires Least(ClaimKeys(q, now)) == Some(i)
    ensures ServedInOrder(q, [i], now)
  {
    hide Below, ServedBefore, Least, Claimable;
    LeastIsBelowAll(ClaimKeys(q, now), i);
    forall j: nat | j < |q.tasks| && j !in [i] && Claimable(q.tasks[j], now) ensures ServedBefore(q, i, j) {
      assert j != i by { assert [i][0] == i; }
      KeysServe(q, i, j, now);
    }
  }

  /** What a claim by a valid owner makes of the queue. */
  ghost predicate Claims(q: Queue, worker: string, duration: nat, now: nat, found: Option<nat>, p: Queue) {
    match found
    case None => p == q && forall j :: 0 <= j < |q.tasks| ==> !Claimable(q.tasks[j], now)
    case Some(i) =>
      && ServedInOrder(q, [i], now) && i < |q.tasks|
      && var t := q.tasks[i];
         p == Queue(q.tasks[i := t.(
                      status := if t.status.CancelRequested? then CancelRequested else Running,
                      nextAttemptAt := None,
                      lock := Some(Lock(worker, q.issued, now, now + duration)),
                      runs := t.runs + [TaskRun(q.issued, |t.runs| + 1, worker, q.issued, Active, now, now, None)])],
                    q.issued + 1)
  }

  /**
   The law of the claim. In every reachable queue a claim takes the row served before every other
   claimable one, if there is one, under a fresh token and a lease of the given length.
   */
  lemma ClaimsLockTheFirst(q: Queue, worker: string, duration: nat, now: nat)
    requires QueueOk(q) && ValidOwner(worker, duration)
    ensures var r := ClaimNext(q, worker, duration, now);
            r.Ok? && Claims(q, worker, duration, now, r.value.task, r.value.queue)
  {
    hide QueueOk, ServedInOrder, Least, CreateRun;
    ClaimOk(q, worker, duration, now);
    if Least(ClaimKeys(q, now)).Some? {
      ClaimTakesTheFirst(q, Least(ClaimKeys(q, now)).value, now);
    }
  }
}
