/** The repository and the worker as objects that change rows, tied to the queue's transactions. */
module TaskRepository {
  import opened Prelude
  import opened Ordering
  import opened RetryBackoff
  import opened TaskQueue
  import opened TaskOwnership
  import R = TaskReports
  import opened TaskSafety

  // ---- expired leases ----------------------------------------------------------------------

  predicate Expired(t: Task, now: nat) {
    t.status.Leased() && t.lock.Some? && t.lock.value.leaseUntil <= now
  }

  /** Oldest lease first, then priority, then id. */
  function LeaseKey(t: Task, id: nat, now: nat): Option<Key> {
    if Expired(t, now) then Some(Key(t.lock.value.leaseUntil, 0 - t.priority, id, 0)) else None
  }

  function LeaseKeys(tasks: seq<Task>, now: nat): (keys: seq<Option<Key>>)
    ensures |keys| == |tasks|
  {
    seq(|tasks|, i requires 0 <= i < |tasks| => LeaseKey(tasks[i], i, now))
  }

  function LeaseOf(t: Task, id: nat): ExpiredLease
    requires t.lock.Some?
  {
    ExpiredLease(id, t.status, t.lock.value.worker, t.lock.value.token, t.retryCount)
  }

  function ExpiredTasks(tasks: seq<Task>, now: nat): set<nat> {
    set i: nat | i < |tasks| && Expired(tasks[i], now)
  }

  lemma PickedAreExpired(tasks: seq<Task>, now: nat, limit: nat)
    ensures var picked := TakeLeast(LeaseKeys(tasks, now), limit);
            && (forall a :: 0 <= a < |picked| ==> picked[a] < |tasks| && Expired(tasks[picked[a]], now))
            && (forall a, b :: 0 <= a < b < |picked| ==> picked[a] != picked[b])
            && |picked| == Min(limit, |ExpiredTasks(tasks, now)|)
  {
    hide TakeLeast, Precedes, Least;
    TakeLeastIsFirst(LeaseKeys(tasks, now), limit);
    assert Eligible(LeaseKeys(tasks, now)) == ExpiredTasks(tasks, now);
  }

  /** The older end of a lease first, then the higher priority, then the smaller id. */
  ghost predicate RecoveredBefore(tasks: seq<Task>, i: nat, j: nat)
    requires i < |tasks| && j < |tasks| && tasks[i].lock.Some? && tasks[j].lock.Some?
  {
    var t, u := tasks[i], tasks[j];
    var end, other := t.lock.value.leaseUntil, u.lock.value.leaseUntil;
    end < other || (end == other && t.priority > u.priority) || (end == other && t.priority == u.priority && i < j)
  }

  /** The first `limit` of the tasks whose lease is over, in that order. */
  ghost predicate OverdueFirst(tasks: seq<Task>, picked: seq<nat>, limit: nat, now: nat) {
    && (forall a :: 0 <= a < |picked| ==> picked[a] < |tasks| && Expired(tasks[picked[a]], now))
    && (forall a, b :: 0 <= a < b < |picked| ==> picked[a] != picked[b] && RecoveredBefore(tasks, picked[a], picked[b]))
    && (forall a, j: nat :: 0 <= a < |picked| && j < |tasks| && j !in picked && Expired(tasks[j], now) ==>
          RecoveredBefore(tasks, picked[a], j))
    && |picked| == Min(limit, |ExpiredTasks(tasks, now)|)
  }

  lemma LeaseKeysOrder(tasks: seq<Task>, i: nat, j: nat, now: nat)
    requires i < |tasks| && j < |tasks| && Expired(tasks[i], now) && Expired(tasks[j], now)
    ensures Below(LeaseKeys(tasks, now)[i].value, LeaseKeys(tasks, now)[j].value) <==> RecoveredBefore(tasks, i, j)
  {
  }

  lemma PickedAreOverdue(tasks: seq<Task>, now: nat, limit: nat)
    ensures OverdueFirst(tasks, TakeLeast(LeaseKeys(tasks, now), limit), limit, now)
  {
    hide TakeLeast, Precedes, Least, Below, RecoveredBefore, ExpiredTasks, LeaseKeys;
    var keys, picked := LeaseKeys(tasks, now), TakeLeast(LeaseKeys(tasks, now), limit);
    PickedAreExpired(tasks, now, limit);
    LeaseKeysAreDistinct(tasks, now);
    TakeLeastIsFirst(keys, limit);
    forall a, b | 0 <= a < b < |picked| ensures RecoveredBefore(tasks, picked[a], picked[b]) {
      LeaseKeysOrder(tasks, picked[a], picked[b], now);
    }
    forall a, j: nat | 0 <= a < |picked| && j < |tasks| && j !in picked && Expired(tasks[j], now)
      ensures RecoveredBefore(tasks, picked[a], j)
    {
      PrecedesTheRest(keys, picked, a, j);
      LeaseKeysOrder(tasks, picked[a], j, now);
    }
  }

  lemma PrecedesTheRest(keys: seq<Option<Key>>, picked: seq<nat>, a: nat, j: nat)
    requires FirstOf(keys, picked) && a < |picked| && j < |keys| && j !in picked && keys[j].Some?
    ensures Below(keys[picked[a]].value, keys[j].value)
  {
    assert Precedes(keys, picked[a], picked);
  }

  lemma LeaseKeysAreDistinct(tasks: seq<Task>, now: nat)
    ensures DistinctKeys(LeaseKeys(tasks, now))
    ensures forall j :: 0 <= j < |tasks| && Expired(tasks[j], now) ==> LeaseKeys(tasks, now)[j].Some?
  {
  }

  ghost predicate AllDifferent(picked: seq<nat>) {
    forall a, b :: 0 <= a < b < |picked| ==> picked[a] != picked[b]
  }

  ghost predicate HaveRuns(tasks: seq<Task>, picked: seq<nat>) {
    forall a :: 0 <= a < |picked| ==> picked[a] < |tasks| && tasks[picked[a]].runs != []
  }

  /** Every picked task was recovered, to wait for its backoff; every other is as it was. */
  ghost predicate AllRecovered(tasks: seq<Task>, picked: seq<nat>, backoff: ExponentialBackoff, now: nat, after: seq<Task>)
    requires HaveRuns(tasks, picked)
  {
    && |after| == |tasks|
    && (forall a :: 0 <= a < |picked| ==>
          var t := tasks[picked[a]];
          after[picked[a]] == R.Recovered(t, now + Min(backoff.baseDelay * Pow2(t.retryCount), backoff.maxDelay), now))
    && (forall i: nat :: i < |tasks| && i !in picked ==> after[i] == tasks[i])
  }

  class TaskRepository {
    var tasks: seq<Task>
    var issued: nat

    ghost function State(): Queue
      reads this
    {
      Queue(tasks, issued)
    }

    constructor ()
      ensures State() == EMPTY && QueueOk(State())
    {
      tasks, issued := [], 0;
    }

    method CreateTask(download: bool, priority: nat, maxRetries: nat, now: nat) returns (id: nat)
      modifies this
      ensures State() == Apply(old(State()), Create(download, priority, maxRetries, now)) && id == |old(tasks)|
      ensures State() == Queue(old(tasks) + [Task(download, Pending, priority, now, None, 0, maxRetries, None, None, None, [])],
                               old(issued))
    {
      id := |tasks|;
      tasks := tasks + [NewTask(download, priority, maxRetries, now)];
    }

    method ChangeStatus(id: nat, expected: TaskStatus, target: TaskStatus, nextAttemptAt: Option<nat>, now: nat)
      returns (r: Result<TaskStatus, TaskError>)
      modifies this
      ensures State() == Apply(old(State()), Transition(id, expected, target, nextAttemptAt, now))
      ensures r.Ok? <==> id < |old(tasks)| && TransitionTask(old(tasks)[id], expected, target, nextAttemptAt, now).Ok?
      ensures r.Ok? ==> r.value == target
    {
      if id >= |tasks| {
        return Err(TaskNotFound);
      }
      var t := tasks[id];
      if t.status != expected {
        return Err(StateConflict);
      }
      if !CanTransition(expected, target) {
        return Err(TransitionNotAllowed);
      }
      if target.Running? || (expected.Leased() && !target.CancelRequested?) {
        return Err(OwnershipRequired);
      }
      var next := Entering(t, target, now, nextAttemptAt);
      if target.CancelRequested? && t.cancelRequestedAt.None? {
        next := next.(cancelRequestedAt := Some(now));
      }
      tasks, r := tasks[id := next], Ok(target);
    }

    /** Lock the first claimable row and append its run in the same transaction. */
    method ClaimNext(worker: string, duration: nat, now: nat) returns (r: Result<Option<nat>, TaskError>)
      requires QueueOk(State())
      modifies this
      ensures State() == Apply(old(State()), Take(worker, duration, now)) && QueueOk(State())
      ensures r.Ok? <==> ValidOwner(worker, duration)
      ensures r.Ok? ==> R.Claims(old(State()), worker, duration, now, r.value, State())
      ensures r.Ok? && r.value.Some? ==> r.value.value < |tasks| && OwnedBy(tasks[r.value.value], worker, old(issued))
    {
      hide QueueOk, CreateRun, Claimable, Least, ClaimKeys, R.ServedInOrder;
      ghost var q := State();
      ApplyOk(q, Take(worker, duration, now));
      if !ValidOwner(worker, duration) {
        InvalidOwnerIsRefused(q, worker, duration, now);
        return Err(InvalidArgument);
      }
      ClaimOk(q, worker, duration, now);
      R.ClaimsLockTheFirst(q, worker, duration, now);
      var found := Least(ClaimKeys(Queue(tasks, issued), now));
      if found.None? {
        return Ok(None);
      }
      var token := issued;
      var created := CreateRun(Locked(tasks[found.value], worker, token, duration, now), token, worker, token, now);
      tasks, issued := tasks[found.value := created.value], issued + 1;
      r := Ok(found);
    }

    static method LookUpRun(runs: seq<TaskRun>, worker: string, token: nat) returns (k: Option<nat>)
      ensures k == FindRun(runs, worker, token)
    {
      k := None;
      for i := 0 to |runs|
        invariant k == FindRun(runs[..i], worker, token)
      {
        assert runs[..i + 1][..i] == runs[..i];
        if runs[i].status.Active? && runs[i].worker == worker && runs[i].token == token {
          k := Some(i);
        }
      }
      assert runs[..|runs|] == runs;
    }

    method Heartbeat(id: nat, worker: string, token: nat, duration: nat, now: nat) returns (error: Option<TaskError>)
      modifies this
      ensures State() == Apply(old(State()), Action.Heartbeat(id, worker, token, duration, now))
      ensures error.None? <==> id < |old(tasks)| && HeartbeatTask(old(tasks)[id], worker, token, duration, now).Ok?
    {
      if worker == "" || duration == 0 {
        return Some(InvalidArgument);
      }
      if id >= |tasks| {
        return Some(OwnershipLost);
      }
      var t := tasks[id];
      if !t.status.Leased() || !OwnedBy(t, worker, token) || t.lock.value.leaseUntil <= now {
        return Some(OwnershipLost);
      }
      var k := LookUpRun(t.runs, worker, token);
      if k.None? {
        return Some(OwnershipLost);
      }
      tasks := tasks[id := t.(lock := Some(t.lock.value.(leaseUntil := now + duration)),
                              runs := t.runs[k.value := t.runs[k.value].(heartbeatAt := now)])];
      error := None;
    }

    method FinishRun(id: nat, a: Finish, now: nat) returns (error: Option<TaskError>)
      modifies this
      ensures State() == Apply(old(State()), Action.FinishRun(id, a, now))
      ensures error.None? <==> id < |old(tasks)| && FinishTask(old(tasks)[id], a, now).Ok?
    {
      if a.worker == "" {
        return Some(InvalidArgument);
      }
      if !CanTransition(a.expected, a.target) {
        return Some(TransitionNotAllowed);
      }
      if a.target.Pending? && (!a.expected.Running? || a.nextAttemptAt.None? || !a.continuation || a.consume) {
        return Some(InvalidArgument);
      }
      if RunStatusFor(a.target) != Some(a.runStatus) {
        return Some(InvalidArgument);
      }
      if a.consume && (a.target.Success? || a.target.WaitingCredential? || a.target.Cancelled?) {
        return Some(InvalidArgument);
      }
      if id >= |tasks| {
        return Some(OwnershipLost);
      }
      var t := tasks[id];
      if t.status != a.expected || !OwnedBy(t, a.worker, a.token) || t.lock.value.leaseUntil <= now {
        return Some(OwnershipLost);
      }
      var k := LookUpRun(t.runs, a.worker, a.token);
      if k.None? || t.runs[k.value].id != a.runId {
        return Some(RunNotFound);
      }
      var next := Entering(t, a.target, a.finishedAt, a.nextAttemptAt);
      next := next.(lock := None, runs := t.runs[k.value := Closed(t.runs[k.value], a.runStatus, a.finishedAt)]);
      if a.consume {
        next := next.(retryCount := t.retryCount + 1);
      }
      tasks := tasks[id := next];
      error := None;
    }

    /** The rows with an expired lease, oldest first, at most `limit` of them. */
    method ListExpiredLeases(limit: nat, now: nat) returns (leases: seq<ExpiredLease>)
      ensures var picked := TakeLeast(LeaseKeys(tasks, now), limit);
              && OverdueFirst(tasks, picked, limit, now) && |leases| == |picked|
              && (forall a :: 0 <= a < |leases| ==> leases[a] == LeaseOf(tasks[picked[a]], picked[a]))
    {
      hide TakeLeast, Least;
      PickedAreOverdue(tasks, now, limit);
      var rows := TakeLeast(LeaseKeys(tasks, now), limit);
      leases := [];
      for a := 0 to |rows|
        invariant |leases| == a
        invariant forall b :: 0 <= b < a ==> leases[b] == LeaseOf(tasks[rows[b]], rows[b])
      {
        leases := leases + [LeaseOf(tasks[rows[a]], rows[a])];
      }
    }

    method RecoverExpiredLease(lease: ExpiredLease, nextAttemptAt: Option<nat>, now: nat) returns (r: Result<bool, TaskError>)
      modifies this
      ensures State() == Apply(old(State()), Recover(lease, nextAttemptAt, now))
      ensures lease.task >= |old(tasks)| ==> r == Ok(false)
      ensures lease.task < |old(tasks)| ==>
                var s := RecoverTask(old(tasks)[lease.task], lease, nextAttemptAt, now);
                (r.Ok? <==> s.Ok?) && (r.Ok? ==> (r.value <==> s.value.Some?))
    {
      if lease.task >= |tasks| || !LeaseMatches(tasks[lease.task], lease, now) {
        return Ok(false);
      }
      var t := tasks[lease.task];
      var count := t.retryCount + 1;
      var target;
      if t.status.CancelRequested? {
        target := CancelRequested;
      } else if count > t.maxRetries {
        target := Failed;
      } else {
        if nextAttemptAt.None? {
          return Err(InvalidArgument);
        }
        target := Retry;
      }
      var k := LookUpRun(t.runs, lease.worker, lease.token);
      if k.None? {
        return Err(RunNotFound);
      }
      var next := Entering(t, target, now, nextAttemptAt);
      next := next.(lock := None, retryCount := count, runs := t.runs[k.value := Closed(t.runs[k.value], Lost, now)]);
      tasks, r := tasks[lease.task := next], Ok(true);
    }

    /** The worker's report of an outcome. */
    method Finished(id: nat, runId: nat, worker: string, token: nat, outcome: TaskOutcome, backoff: ExponentialBackoff,
                    now: nat, checkedAt: nat) returns (error: Option<TaskError>)
      modifies this
      ensures State() == Apply(old(State()), WorkerDone(id, runId, worker, token, outcome, backoff, now, checkedAt))
      ensures error.None? <==>
              id < |old(tasks)| && WorkerFinish(old(tasks)[id], runId, worker, token, outcome, backoff, now, checkedAt).Ok?
      ensures old(QueueOk(State()) && R.HoldsLease(State(), id, runId, worker, token, checkedAt)) ==>
                R.ReportDone(old(State()), id, outcome, backoff, now, error.None?, State())
    {
      hide FinishTask, QueueOk;
      ghost var q := State();
      if QueueOk(q) && R.HoldsLease(q, id, runId, worker, token, checkedAt) {
        hide R.ReportDone;
        R.ReportIsRecorded(q, id, runId, worker, token, outcome, backoff, now, checkedAt);
      }
      if id >= |tasks| || !OwnedBy(tasks[id], worker, token) {
        return Some(OwnershipLost);
      }
      var t := tasks[id];
      var o := outcome;
      if t.status.CancelRequested? && t.download && !o.status.Succeeding? && !o.status.Cancelling? {
        o := TaskOutcome(Cancelling, None, false);
      }
      if t.status.CancelRequested? && !o.status.Succeeding? && !o.status.Cancelling? {
        return Some(InvalidOutcome);
      }
      var target, runStatus, next := TargetOf(t, o.status), RunOutcome(o.status), None;
      if o.status.Deferring? {
        next := Some(now + if o.retryAfter.Some? then o.retryAfter.value else 1);
        if !o.continuation {
          return Some(InvalidOutcome);
        }
      } else if o.status.Retrying? && t.retryCount + 1 <= t.maxRetries {
        var after := if o.retryAfter.Some? then o.retryAfter.value else backoff.Delay(t.retryCount);
        next := Some(now + backoff.Bounded(after));
      }
      error := FinishRun(id, Finish(runId, worker, token, t.status, target, runStatus, now, o.continuation, next,
                                    o.status.Retrying? || o.status.Failure?), checkedAt);
    }

    /** Recover the next listed lease, with the delay of its own retry count. */
    method RecoverListed(lease: ExpiredLease, backoff: ExponentialBackoff, now: nat,
                         ghost q: Queue, ghost picked: seq<nat>, ghost n: nat)
      returns (ghost a: Action)
      requires QueueOk(State()) && issued == q.issued
      requires HaveRuns(q.tasks, picked) && AllDifferent(picked) && n < |picked|
      requires Expired(q.tasks[picked[n]], now) && lease == LeaseOf(q.tasks[picked[n]], picked[n])
      requires AllRecovered(q.tasks, picked[..n], backoff, now, tasks)
      modifies this
      ensures QueueOk(State()) && State() == Apply(old(State()), a) && issued == q.issued
      ensures AllRecovered(q.tasks, picked[..n + 1], backoff, now, tasks)
    {
      hide QueueOk, RecoverTask, Pow2, Apply, R.Recovered;
      var at := now + backoff.Delay(lease.retryCount);
      ghost var here := State();
      assert tasks[lease.task] == q.tasks[lease.task] by { NotYet(picked, n); }
      RecoveryFinds(here, lease.task, at, now);
      ApplyOk(here, Recover(lease, Some(at), now));
      var done := RecoverExpiredLease(lease, Some(at), now);
      OneMoreRecovered(q.tasks, picked, n, backoff, now, here.tasks, tasks);
      a := Recover(lease, Some(at), now);
    }

    /** Recover the listed leases one by one, each with the delay of its own retry count. */
    method RecoverExpired(limit: nat, backoff: ExponentialBackoff, now: nat)
      returns (recovered: nat, ghost picked: seq<nat>, ghost trace: seq<Action>)
      requires QueueOk(State())
      modifies this
      ensures State() == Run(old(State()), trace) && QueueOk(State()) && issued == old(issued)
      ensures OverdueFirst(old(tasks), picked, limit, now) && recovered == |picked|
      ensures HaveRuns(old(tasks), picked)
      ensures AllRecovered(old(tasks), picked, backoff, now, tasks)
      ensures recovered < limit ==> forall i :: 0 <= i < |tasks| && tasks[i].lock.Some? ==> now < tasks[i].lock.value.leaseUntil
    {
      hide QueueOk, Run, TakeLeast, LeaseKeys, OverdueFirst, AllRecovered, Apply;
      ghost var q := State();
      trace, recovered := [], 0;
      var leases := ListExpiredLeases(limit, now);
      picked := TakeLeast(LeaseKeys(tasks, now), limit);
      OverdueAre(tasks, picked, limit, now);
      PickedHaveRuns(q, picked, now);
      NothingRecovered(tasks, backoff, now);
      RunNothing(q);
      while recovered < |leases|
        invariant 0 <= recovered <= |leases| && QueueOk(State()) && State() == Run(q, trace) && issued == q.issued
        invariant AllRecovered(q.tasks, picked[..recovered], backoff, now, tasks)
      {
        ghost var a := RecoverListed(leases[recovered], backoff, now, q, picked, recovered);
        RunExtends(q, trace, a);
        trace := trace + [a];
        recovered := recovered + 1;
      }
      assert picked[..recovered] == picked;
      if recovered < limit {
        NothingOverdue(q, picked, limit, backoff, now, tasks);
      }
    }

    /**
     One worker cycle up to the claim: recover what has expired, look at the gate, claim. A gated
     cycle claims nothing; another claims the row served first in the queue as recovery left it.
     */
    method RecoverAndClaim(worker: string, duration: nat, limit: nat, backoff: ExponentialBackoff, gated: bool, now: nat)
      returns (claimed: Option<nat>, recovered: nat, ghost picked: seq<nat>, ghost between: Queue, ghost trace: seq<Action>)
      requires QueueOk(State()) && ValidOwner(worker, duration)
      modifies this
      ensures State() == Run(old(State()), trace) && QueueOk(State())
      ensures recovered == Min(limit, |ExpiredTasks(old(tasks), now)|) == |picked|
      ensures OverdueFirst(old(tasks), picked, limit, now) && between.issued == old(issued)
      ensures HaveRuns(old(tasks), picked)
      ensures AllRecovered(old(tasks), picked, backoff, now, between.tasks)
      ensures if gated then claimed.None? && State() == between else R.Claims(between, worker, duration, now, claimed, State())
    {
      hide QueueOk, Run, OverdueFirst, AllRecovered, ExpiredTasks, R.Claims;
      ghost var q := State();
      recovered, picked, trace := RecoverExpired(limit, backoff, now);
      between := State();
      assert recovered == Min(limit, |ExpiredTasks(q.tasks, now)|) by { CountOfPicked(q.tasks, picked, limit, now); }
      if gated {
        return None, recovered, picked, between, trace;
      }
      var claim := ClaimNext(worker, duration, now);
      RunExtends(q, trace, Take(worker, duration, now));
      trace := trace + [Take(worker, duration, now)];
      claimed := claim.value;
    }
  }

  function Rows(picked: seq<nat>): set<nat> {
    set a: nat | a < |picked| :: picked[a]
  }

  lemma {:induction false} DistinctAreMany(picked: seq<nat>)
    requires forall a, b :: 0 <= a < b < |picked| ==> picked[a] != picked[b]
    ensures |Rows(picked)| == |picked|
  {
    if picked != [] {
      var n := |picked| - 1;
      DistinctAreMany(picked[..n]);
      assert Rows(picked) == Rows(picked[..n]) + {picked[n]} && picked[n] !in Rows(picked[..n]);
    }
  }

  /** When fewer were found than asked for, all were found. */
  lemma AllArePicked(tasks: seq<Task>, picked: seq<nat>, limit: nat, now: nat, i: nat)
    requires OverdueFirst(tasks, picked, limit, now) && |picked| < limit && i < |tasks| && Expired(tasks[i], now)
    ensures i in picked
  {
    hide RecoveredBefore, Expired;
    DistinctAreMany(picked);
    assert Rows(picked) <= ExpiredTasks(tasks, now);
    if i !in picked {
      assert i !in Rows(picked);
      SubsetSize(Rows(picked) + {i}, ExpiredTasks(tasks, now));
    }
  }

  /** And then no lease that is over is left. */
  lemma NothingOverdue(q: Queue, picked: seq<nat>, limit: nat, backoff: ExponentialBackoff, now: nat, after: seq<Task>)
    requires QueueOk(q) && OverdueFirst(q.tasks, picked, limit, now) && |picked| < limit && HaveRuns(q.tasks, picked)
    requires AllRecovered(q.tasks, picked, backoff, now, after)
    ensures forall i :: 0 <= i < |after| && after[i].lock.Some? ==> now < after[i].lock.value.leaseUntil
  {
    hide TokensOk, Pow2, OverdueFirst;
    forall i | 0 <= i < |after| && after[i].lock.Some? ensures now < after[i].lock.value.leaseUntil {
      assert TaskOk(q.tasks[i], q.issued);
      if Expired(q.tasks[i], now) {
        AllArePicked(q.tasks, picked, limit, now, i);
      }
    }
  }

  lemma CountOfPicked(tasks: seq<Task>, picked: seq<nat>, limit: nat, now: nat)
    requires OverdueFirst(tasks, picked, limit, now)
    ensures |picked| == Min(limit, |ExpiredTasks(tasks, now)|)
  {
  }

  lemma PickedHaveRuns(q: Queue, picked: seq<nat>, now: nat)
    requires QueueOk(q) && forall a :: 0 <= a < |picked| ==> picked[a] < |q.tasks| && Expired(q.tasks[picked[a]], now)
    ensures HaveRuns(q.tasks, picked)
  {
    hide TokensOk;
    forall a | 0 <= a < |picked| ensures q.tasks[picked[a]].runs != [] {
      assert TaskOk(q.tasks[picked[a]], q.issued);
    }
  }

  lemma NotYet(picked: seq<nat>, n: nat)
    requires n < |picked| && AllDifferent(picked)
    ensures picked[n] !in picked[..n]
  {
  }

  lemma OneMoreRecovered(tasks: seq<Task>, picked: seq<nat>, n: nat, backoff: ExponentialBackoff, now: nat,
                         before: seq<Task>, after: seq<Task>)
    requires HaveRuns(tasks, picked)
    requires n < |picked| && AllDifferent(picked)
    requires AllRecovered(tasks, picked[..n], backoff, now, before)
    requires var i := picked[n];
             after == before[i := R.Recovered(tasks[i], now + Min(backoff.baseDelay * Pow2(tasks[i].retryCount), backoff.maxDelay), now)]
    ensures AllRecovered(tasks, picked[..n + 1], backoff, now, after)
  {
    hide R.Recovered, Pow2;
    NotYet(picked, n);
    assert picked[..n + 1] == picked[..n] + [picked[n]];
  }

  lemma OverdueAre(tasks: seq<Task>, picked: seq<nat>, limit: nat, now: nat)
    requires OverdueFirst(tasks, picked, limit, now)
    ensures AllDifferent(picked)
    ensures forall a :: 0 <= a < |picked| ==> picked[a] < |tasks| && Expired(tasks[picked[a]], now)
  {
  }

  lemma NothingRecovered(tasks: seq<Task>, backoff: ExponentialBackoff, now: nat)
    ensures AllRecovered(tasks, [], backoff, now, tasks)
  {
  }

  lemma RunNothing(q: Queue)
    ensures Run(q, []) == q
  {
  }

  lemma RunExtends(q: Queue, actions: seq<Action>, a: Action)
    ensures Run(q, actions + [a]) == Apply(Run(q, actions), a)
  {
    assert (actions + [a])[..|actions|] == actions;
  }

  lemma RecoveryFinds(q: Queue, i: nat, next: nat, now: nat)
    requires QueueOk(q) && i < |q.tasks| && Expired(q.tasks[i], now)
    ensures q.tasks[i].runs != []
    ensures RecoverTask(q.tasks[i], LeaseOf(q.tasks[i], i), Some(next), now) == Ok(Some(R.Recovered(q.tasks[i], next, now)))
    ensures Apply(q, Recover(LeaseOf(q.tasks[i], i), Some(next), now)) ==
            q.(tasks := q.tasks[i := R.Recovered(q.tasks[i], next, now)])
  {
    hide TokensOk, RecoverTask;
    assert TaskOk(q.tasks[i], q.issued);
    R.RowIsRecovered(q.tasks[i], i, next, now, q.issued);
  }
}
