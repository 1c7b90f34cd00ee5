/**
 The leased task queue. Each repository call is one transaction: it either returns the next
 queue or an error that leaves the queue as it was. Tokens and run ids are drawn from a counter
 because the source draws fresh random tokens.
 */
module TaskQueue {
  import opened Prelude
  import opened Ordering
  import opened RetryBackoff

  datatype TaskStatus =
    | Pending | Running | Retry | WaitingCredential | CancelRequested | Success | Failed | Cancelled
  {
    predicate Terminal() {
      Success? || Failed? || Cancelled?
    }

    predicate Leased() {
      Running? || CancelRequested?
    }

    predicate Queued() {
      Pending? || Retry?
    }
  }

  datatype RunStatus = Active | Succeeded | Failing | Blocked | Lost | Stopped

  datatype Lock = Lock(worker: string, token: nat, lockedAt: nat, leaseUntil: nat)

  datatype TaskRun = TaskRun(
    id: nat, number: nat, worker: string, token: nat, status: RunStatus,
    startedAt: nat, heartbeatAt: nat, finishedAt: Option<nat>)

  /** A row of `tasks` with its rows of `task_runs` in run order. */
  datatype Task = Task(
    download: bool, status: TaskStatus, priority: nat, createdAt: nat, nextAttemptAt: Option<nat>,
    retryCount: nat, maxRetries: nat, lock: Option<Lock>, cancelRequestedAt: Option<nat>,
    completedAt: Option<nat>, runs: seq<TaskRun>)

  /** A task's id is its index; `issued` counts the tokens and run ids drawn so far. */
  datatype Queue = Queue(tasks: seq<Task>, issued: nat)

  datatype TaskError =
    | TaskNotFound | StateConflict | OwnershipRequired | OwnershipLost | ActiveRunExists | RunNotFound
    | TransitionNotAllowed | InvalidArgument | InvalidOutcome

  // ---- transitions -------------------------------------------------------------------------

  predicate CanTransition(source: TaskStatus, target: TaskStatus) {
    match source
    case Pending => target.Running? || target.Cancelled?
    case Running =>
      target.Pending? || target.Success? || target.Failed? || target.Retry? || target.WaitingCredential?
      || target.CancelRequested?
    case Retry => target.Running? || target.Cancelled?
    case WaitingCredential => target.Pending? || target.Cancelled?
    case CancelRequested => target.CancelRequested? || target.Cancelled? || target.Success?
    case _ => false
  }

  /** Columns every change of status sets. */
  function Entering(t: Task, target: TaskStatus, at: nat, nextAttemptAt: Option<nat>): Task {
    t.(status := target,
       nextAttemptAt := if target.Queued() then nextAttemptAt else None,
       completedAt := if target.Terminal() then Some(at) else None)
  }

  function NewTask(download: bool, priority: nat, maxRetries: nat, now: nat): Task {
    Task(download, Pending, priority, now, None, 0, maxRetries, None, None, None, [])
  }

  /** The ownership-free transition of one row. */
  function TransitionTask(t: Task, expected: TaskStatus, target: TaskStatus, nextAttemptAt: Option<nat>, now: nat)
    : Result<Task, TaskError>
  {
    if t.status != expected then Err(StateConflict)
    else if !CanTransition(expected, target) then Err(TransitionNotAllowed)
    else if target.Running? || (expected.Leased() && !target.CancelRequested?) then Err(OwnershipRequired)
    else
      var next := Entering(t, target, now, nextAttemptAt);
      Ok(if target.CancelRequested? && t.cancelRequestedAt.None? then next.(cancelRequestedAt := Some(now)) else next)
  }

  // ---- claiming ----------------------------------------------------------------------------

  predicate Claimable(t: Task, now: nat) {
    && t.lock.None?
    && (t.status.CancelRequested?
        || (t.status.Queued() && (t.nextAttemptAt.None? || t.nextAttemptAt.value <= now)))
  }

  function Effective(t: Task): nat {
    if t.nextAttemptAt.Some? then t.nextAttemptAt.value else t.createdAt
  }

  /** Priority descending, effective time, creation time, id. */
  function ClaimKey(t: Task, id: nat, now: nat): Option<Key> {
    if Claimable(t, now) then Some(Key(0 - t.priority, Effective(t), t.createdAt, id)) else None
  }

  function ClaimKeys(q: Queue, now: nat): (keys: seq<Option<Key>>)
    ensures |keys| == |q.tasks|
  {
    seq(|q.tasks|, i requires 0 <= i < |q.tasks| => ClaimKey(q.tasks[i], i, now))
  }

  function Locked(t: Task, worker: string, token: nat, duration: nat, now: nat): Task {
    t.(status := if t.status.CancelRequested? then CancelRequested else Running,
       lock := Some(Lock(worker, token, now, now + duration)),
       nextAttemptAt := None)
  }

  function MaxNumber(runs: seq<TaskRun>): nat {
    if runs == [] then 0
    else
      var before := MaxNumber(runs[..|runs| - 1]);
      if runs[|runs| - 1].number > before then runs[|runs| - 1].number else before
  }

  predicate OwnedBy(t: Task, worker: string, token: nat) {
    t.lock.Some? && t.lock.value.worker == worker && t.lock.value.token == token
  }

  /** Append the run of a fresh claim; two active runs of one task are refused. */
  function CreateRun(t: Task, id: nat, worker: string, token: nat, now: nat): Result<Task, TaskError> {
    if !t.status.Leased() then Err(StateConflict)
    else if !OwnedBy(t, worker, token) then Err(OwnershipLost)
    else if exists k :: 0 <= k < |t.runs| && t.runs[k].status.Active? then Err(ActiveRunExists)
    else Ok(t.(runs := t.runs + [TaskRun(id, MaxNumber(t.runs) + 1, worker, token, Active, now, now, None)]))
  }

  function ValidOwner(worker: string, duration: nat): bool {
    worker != "" && duration > 0
  }

  datatype Claim = Claim(queue: Queue, task: Option<nat>)

  function ClaimNext(q: Queue, worker: string, duration: nat, now: nat): (r: Result<Claim, TaskError>)
    ensures r.Ok? && r.value.task.Some? ==> r.value.task.value < |q.tasks|
  {
    if !ValidOwner(worker, duration) then Err(InvalidArgument)
    else
      match Least(ClaimKeys(q, now))
      case None => Ok(Claim(q, None))
      case Some(i) =>
        match CreateRun(Locked(q.tasks[i], worker, q.issued, duration, now), q.issued, worker, q.issued, now)
        case Err(e) => Err(e)
        case Ok(t) => Ok(Claim(Queue(q.tasks[i := t], q.issued + 1), Some(i)))
  }

  // ---- holding and ending a lease ----------------------------------------------------------

  /** The active run of this worker and token, if the task has one; no reachable task has two. */
  function FindRun(runs: seq<TaskRun>, worker: string, token: nat): (k: Option<nat>)
    ensures k.Some? ==>
              k.value < |runs| && runs[k.value].status.Active? && runs[k.value].worker == worker && runs[k.value].token == token
    ensures k.None? ==>
              forall i :: 0 <= i < |runs| ==> !(runs[i].status.Active? && runs[i].worker == worker && runs[i].token == token)
  {
    if runs == [] then None
    else
      var n := |runs| - 1;
      if runs[n].status.Active? && runs[n].worker == worker && runs[n].token == token then Some(n)
      else FindRun(runs[..n], worker, token)
  }

  function HeartbeatTask(t: Task, worker: string, token: nat, duration: nat, now: nat): Result<Task, TaskError> {
    if !ValidOwner(worker, duration) then Err(InvalidArgument)
    else if !t.status.Leased() || !OwnedBy(t, worker, token) || t.lock.value.leaseUntil <= now then Err(OwnershipLost)
    else
      match FindRun(t.runs, worker, token)
      case None => Err(OwnershipLost)
      case Some(k) =>
        Ok(t.(lock := Some(t.lock.value.(leaseUntil := now + duration)),
              runs := t.runs[k := t.runs[k].(heartbeatAt := now)]))
  }

  datatype Finish = Finish(
    runId: nat, worker: string, token: nat, expected: TaskStatus, target: TaskStatus, runStatus: RunStatus,
    finishedAt: nat, continuation: bool, nextAttemptAt: Option<nat>, consume: bool)

  function RunStatusFor(target: TaskStatus): Option<RunStatus> {
    match target
    case Pending => Some(Succeeded)
    case Success => Some(Succeeded)
    case Failed => Some(Failing)
    case Retry => Some(Failing)
    case WaitingCredential => Some(Blocked)
    case Cancelled => Some(Stopped)
    case _ => None
  }

  function Closed(r: TaskRun, status: RunStatus, at: nat): TaskRun {
    r.(status := status, finishedAt := Some(at))
  }

  function FinishTask(t: Task, a: Finish, now: nat): Result<Task, TaskError> {
    if a.worker == "" then Err(InvalidArgument)
    else if !CanTransition(a.expected, a.target) then Err(TransitionNotAllowed)
    else if a.target.Pending? && (!a.expected.Running? || a.nextAttemptAt.None? || !a.continuation || a.consume) then
      Err(InvalidArgument)
    else if RunStatusFor(a.target) != Some(a.runStatus) then Err(InvalidArgument)
    else if a.consume && (a.target.Success? || a.target.WaitingCredential? || a.target.Cancelled?) then Err(InvalidArgument)
    else if t.status != a.expected || !OwnedBy(t, a.worker, a.token) || t.lock.value.leaseUntil <= now then
      Err(OwnershipLost)
    else
      match FindRun(t.runs, a.worker, a.token)
      case None => Err(RunNotFound)
      case Some(k) =>
        if t.runs[k].id != a.runId then Err(RunNotFound)
        else
          Ok(Entering(t, a.target, a.finishedAt, a.nextAttemptAt).(
             lock := None,
             retryCount := if a.consume then t.retryCount + 1 else t.retryCount,
             runs := t.runs[k := Closed(t.runs[k], a.runStatus, a.finishedAt)]))
  }

  /** What `list_expired_leases` reads; by the time it is used the row may have changed. */
  datatype ExpiredLease = ExpiredLease(task: nat, status: TaskStatus, worker: string, token: nat, retryCount: nat)

  predicate LeaseMatches(t: Task, lease: ExpiredLease, now: nat) {
    t.status == lease.status && OwnedBy(t, lease.worker, lease.token) && t.lock.value.leaseUntil <= now
  }

  function RecoverTask(t: Task, lease: ExpiredLease, nextAttemptAt: Option<nat>, now: nat): Result<Option<Task>, TaskError> {
    if !LeaseMatches(t, lease, now) then Ok(None)
    else
      var count := t.retryCount + 1;
      var target := if t.status.CancelRequested? then CancelRequested else if count > t.maxRetries then Failed else Retry;
      if target.Retry? && nextAttemptAt.None? then Err(InvalidArgument)
      else
        match FindRun(t.runs, lease.worker, lease.token)
        case None => Err(RunNotFound)
        case Some(k) =>
          Ok(Some(Entering(t, target, now, nextAttemptAt).(
               lock := None,
               retryCount := count,
               runs := t.runs[k := Closed(t.runs[k], Lost, now)])))
  }

  // ---- the worker's report -----------------------------------------------------------------

  datatype OutcomeStatus = Deferring | Succeeding | Retrying | Failure | MissingCredential | Cancelling

  type Positive = n: nat | n > 0 witness 1

  datatype TaskOutcome = TaskOutcome(status: OutcomeStatus, retryAfter: Option<Positive>, continuation: bool)

  /** A cancelled download is reported as cancelled whatever its handler says. */
  function Reported(t: Task, outcome: TaskOutcome): TaskOutcome {
    if t.status.CancelRequested? && t.download && !outcome.status.Succeeding? && !outcome.status.Cancelling? then
      TaskOutcome(Cancelling, None, false)
    else outcome
  }

  function TargetOf(t: Task, status: OutcomeStatus): TaskStatus {
    match status
    case Deferring => Pending
    case Succeeding => Success
    case Retrying => if t.retryCount + 1 > t.maxRetries then Failed else Retry
    case Failure => Failed
    case MissingCredential => WaitingCredential
    case Cancelling => Cancelled
  }

  function RunOutcome(status: OutcomeStatus): RunStatus {
    match status
    case Deferring => Succeeded
    case Succeeding => Succeeded
    case Retrying => Failing
    case Failure => Failing
    case MissingCredential => Blocked
    case Cancelling => Stopped
  }

  function Schedule(t: Task, outcome: TaskOutcome, backoff: ExponentialBackoff, now: nat): Option<nat> {
    var after := if outcome.retryAfter.Some? then outcome.retryAfter.value
                 else if outcome.status.Deferring? then 1 else backoff.Delay(t.retryCount);
    if outcome.status.Deferring? then Some(now + after)
    else if outcome.status.Retrying? && TargetOf(t, outcome.status).Retry? then Some(now + backoff.Bounded(after))
    else None
  }

  function Report(t: Task, runId: nat, worker: string, token: nat, outcome: TaskOutcome, backoff: ExponentialBackoff, now: nat)
    : Result<Finish, TaskError>
  {
    var o := Reported(t, outcome);
    if !OwnedBy(t, worker, token) then Err(OwnershipLost)
    else if t.status.CancelRequested? && !o.status.Succeeding? && !o.status.Cancelling? then Err(InvalidOutcome)
    else if o.status.Deferring? && !o.continuation then Err(InvalidOutcome)
    else Ok(Finish(runId, worker, token, t.status, TargetOf(t, o.status), RunOutcome(o.status), now, o.continuation,
                   Schedule(t, o, backoff, now), o.status.Retrying? || o.status.Failure?))
  }

  function WorkerFinish(t: Task, runId: nat, worker: string, token: nat, outcome: TaskOutcome, backoff: ExponentialBackoff,
                        now: nat, checkedAt: nat): Result<Task, TaskError>
  {
    match Report(t, runId, worker, token, outcome, backoff, now)
    case Err(e) => Err(e)
    case Ok(a) => FinishTask(t, a, checkedAt)
  }

  // ---- transactions on the whole queue -----------------------------------------------------

  /** Anything any process may do, at any time, with any token it ever saw or made up. */
  datatype Action =
    | Create(download: bool, priority: nat, maxRetries: nat, now: nat)
    | Transition(task: nat, expected: TaskStatus, target: TaskStatus, nextAttemptAt: Option<nat>, now: nat)
    | Take(worker: string, duration: nat, now: nat)
    | Heartbeat(task: nat, worker: string, token: nat, duration: nat, now: nat)
    | FinishRun(task: nat, finish: Finish, now: nat)
    | WorkerDone(task: nat, runId: nat, worker: string, token: nat, outcome: TaskOutcome, backoff: ExponentialBackoff,
                 now: nat, checkedAt: nat)
    | Recover(lease: ExpiredLease, nextAttemptAt: Option<nat>, now: nat)

  /** The row an action addresses, if it addresses one. */
  function Target(a: Action): Option<nat> {
    match a
    case Create(_, _, _, _) => None
    case Take(_, _, _) => None
    case Transition(task, _, _, _, _) => Some(task)
    case Heartbeat(task, _, _, _, _) => Some(task)
    case FinishRun(task, _, _) => Some(task)
    case WorkerDone(task, _, _, _, _, _, _, _) => Some(task)
    case Recover(lease, _, _) => Some(lease.task)
  }

  /** The clock reading an action goes by; for the end of a lease, the one it compares with the lease. */
  function Reading(a: Action): nat {
    match a
    case WorkerDone(_, _, _, _, _, _, _, checkedAt) => checkedAt
    case _ => a.now
  }

  /** A history whose clock never runs backwards. */
  ghost predicate Timely(actions: seq<Action>) {
    forall i, j :: 0 <= i < j < |actions| ==> Reading(actions[i]) <= Reading(actions[j])
  }

  /** What an action makes of the row it addresses. */
  function Change(t: Task, a: Action): Result<Task, TaskError>
    requires Target(a).Some?
  {
    match a
    case Transition(_, expected, target, next, now) => TransitionTask(t, expected, target, next, now)
    case Heartbeat(_, worker, token, duration, now) => HeartbeatTask(t, worker, token, duration, now)
    case FinishRun(_, finish, now) => FinishTask(t, finish, now)
    case WorkerDone(_, runId, worker, token, outcome, backoff, now, checkedAt) =>
      WorkerFinish(t, runId, worker, token, outcome, backoff, now, checkedAt)
    case Recover(lease, next, now) =>
      (match RecoverTask(t, lease, next, now)
       case Err(e) => Err(e)
       case Ok(None) => Ok(t)
       case Ok(Some(u)) => Ok(u))
  }

  function Apply(q: Queue, a: Action): Queue {
    match Target(a)
    case Some(i) =>
      if i >= |q.tasks| then q
      else
        (match Change(q.tasks[i], a)
         case Err(_) => q
         case Ok(t) => q.(tasks := q.tasks[i := t]))
    case None =>
      if a.Create? then q.(tasks := q.tasks + [NewTask(a.download, a.priority, a.maxRetries, a.now)])
      else if a.Take? then
        match ClaimNext(q, a.worker, a.duration, a.now)
        case Err(_) => q
        case Ok(claim) => claim.queue
      else q
  }

  function Run(q: Queue, actions: seq<Action>): Queue {
    if actions == [] then q else Apply(Run(q, actions[..|actions| - 1]), actions[|actions| - 1])
  }

  const EMPTY := Queue([], 0)
}
