/**
 Draining: the task queue, the operation row and the candidate marker under one execution gate.
 A worker evaluates the gate and claims in one transaction, so a claim happens only while the
 gate is open.
 */
module UpdateDrain {
  import opened Prelude
  import B = TaskBudget
  import Op = UpdateOperations
  import O = TaskOwnership
  import Q = TaskQueue

  // ---- the gate ----------------------------------------------------------------------------

  predicate Gated(status: Op.OperationStatus) {
    status.Draining? || status.Handoff? || status.Snapshotting? || status.Switching? || status.Verifying? || status.RollingBack?
  }

  /** What reading the marker file gives; an unreadable or invalid marker counts as present. */
  datatype MarkerFile = NoMarker | InvalidMarker | MarkerOf(operation: nat)

  datatype GateMode = Normal | Draining | CandidateValidation | CandidateInvalid

  function Evaluate(marker: MarkerFile, operation: nat, row: Op.OperationStatus): GateMode {
    match marker
    case InvalidMarker => CandidateInvalid
    case MarkerOf(id) => if row.Terminal() || id != operation then CandidateInvalid else CandidateValidation
    case NoMarker => if !row.Terminal() && Gated(row) then Draining else Normal
  }

  // ---- draining ----------------------------------------------------------------------------

  predicate Busy(t: Q.Task) {
    t.lock.Some? || t.status.Running? || t.status.CancelRequested?
  }

  predicate Quiet(q: Q.Queue) {
    forall i :: 0 <= i < |q.tasks| ==> !Busy(q.tasks[i])
  }

  /** The count the drain loop asks the database for. */
  function BusyCount(tasks: seq<Q.Task>): nat {
    if tasks == [] then 0 else BusyCount(tasks[..|tasks| - 1]) + if Busy(tasks[|tasks| - 1]) then 1 else 0
  }

  lemma {:induction false} NoneBusy(tasks: seq<Q.Task>)
    ensures BusyCount(tasks) == 0 <==> forall i :: 0 <= i < |tasks| ==> !Busy(tasks[i])
  {
    if tasks != [] {
      NoneBusy(tasks[..|tasks| - 1]);
      assert forall i :: 0 <= i < |tasks| - 1 ==> tasks[..|tasks| - 1][i] == tasks[i];
    }
  }

  /** What one poll sees: the queue at that moment and the clock reading after the query. */
  datatype Poll = Poll(queue: Q.Queue, at: nat)

  datatype Waited = Drained(polls: nat) | TimedOut(polls: nat) | StillWaiting

  /**
   The polling loop over what the polls will see. It ends at the first quiet poll, or at the first
   poll at or after the deadline, whichever is earlier; a quiet poll wins at the deadline itself.
   */
  method WaitUntilDrained(polls: seq<Poll>, deadline: nat) returns (r: Waited)
    ensures r.Drained? ==> 0 < r.polls <= |polls| && Quiet(polls[r.polls - 1].queue)
    ensures r.TimedOut? ==> 0 < r.polls <= |polls| && !Quiet(polls[r.polls - 1].queue) && polls[r.polls - 1].at >= deadline
    ensures var seen := if r.StillWaiting? then |polls| else r.polls - 1;
            forall k :: 0 <= k < seen ==> !Quiet(polls[k].queue) && polls[k].at < deadline
  {
    var n := 0;
    while n < |polls|
      invariant 0 <= n <= |polls|
      invariant forall k :: 0 <= k < n ==> !Quiet(polls[k].queue) && polls[k].at < deadline
    {
      NoneBusy(polls[n].queue.tasks);
      if BusyCount(polls[n].queue.tasks) == 0 {
        return Drained(n + 1);
      }
      if polls[n].at >= deadline {
        return TimedOut(n + 1);
      }
      n := n + 1;
    }
    r := StillWaiting;
  }

  // ---- the whole update --------------------------------------------------------------------

  datatype Site = Site(
    queue: Q.Queue, row: Op.OperationStatus, marker: MarkerFile, drained: bool,
    snapshot: Option<(Q.Queue, Op.OperationStatus)>, clock: nat)

  /**
   `clock` is the greatest reading so far, and `Tick` a reading without effect.
   `Work` is any queue transaction of any process, a claim only through the gate. `Move` is any
   change of the row its repository allows; the install service hands over only after the drain
   loop returned. `See` is the poll on which the loop returns. The helper snapshots the database
   while the update is past draining and may restore it at any later time.
   */
  datatype Step =
    | Tick(now: nat)
    | Work(action: Q.Action)
    | Move(target: Op.OperationStatus)
    | See
    | SetMarker(marker: MarkerFile)
    | TakeSnapshot
    | Restore

  const OPERATION: nat := 0

  function Later(x: nat, y: nat): nat {
    if x < y then y else x
  }

  function Apply(s: Site, step: Step): Site {
    match step
    case Tick(now) => s.(clock := Later(s.clock, now))
    case Work(action) =>
      if action.Take? && !Evaluate(s.marker, OPERATION, s.row).Normal? then s
      else s.(queue := Q.Apply(s.queue, action), clock := Later(s.clock, Q.Reading(action)))
    case Move(target) =>
      if !Op.Allowed(s.row, target) || (s.row.Draining? && target.Handoff? && !s.drained) then s else s.(row := target)
    case See => if s.row.Draining? && BusyCount(s.queue.tasks) == 0 then s.(drained := true) else s
    case SetMarker(marker) => s.(marker := marker)
    case TakeSnapshot =>
      if s.drained && !s.row.Terminal() && !s.row.Draining? then s.(snapshot := Some((s.queue, s.row))) else s
    case Restore => if s.snapshot.None? then s else s.(queue := s.snapshot.value.0, row := s.snapshot.value.1)
  }

  function Run(s: Site, steps: seq<Step>): Site {
    if steps == [] then s else Apply(Run(s, steps[..|steps| - 1]), steps[|steps| - 1])
  }

  /** No reading of the clock is earlier than one before it. */
  ghost predicate OnTime(s: Site, steps: seq<Step>) {
    steps == [] ||
    var before, last := steps[..|steps| - 1], steps[|steps| - 1];
    OnTime(s, before) && (last.Work? ==> Run(s, before).clock <= Q.Reading(last.action))
  }

  predicate Initial(s: Site) {
    s.row.Pulling? && !s.drained && s.snapshot.None?
  }

  ghost predicate SiteOk(s: Site) {
    && (s.drained && !s.row.Terminal() ==> Gated(s.row) && Quiet(s.queue))
    && (!s.drained ==> s.snapshot.None? && (s.row.Pulling? || s.row.Draining? || s.row.Terminal()))
    && (s.snapshot.Some? ==> Gated(s.snapshot.value.1) && Quiet(s.snapshot.value.0))
  }

  /** Only a claim makes an idle task busy. */
  lemma QuietStays(q: Q.Queue, a: Q.Action)
    requires Quiet(q) && !a.Take?
    ensures Quiet(Q.Apply(q, a))
  {
    if Q.Target(a).Some? && Q.Target(a).value < |q.tasks| {
      var t := q.tasks[Q.Target(a).value];
      assert !Busy(t);
      if Q.Change(t, a).Ok? {
        IdleStays(t, a);
      }
    }
  }

  lemma IdleStays(t: Q.Task, a: Q.Action)
    requires Q.Target(a).Some? && !Busy(t) && Q.Change(t, a).Ok?
    ensures !Busy(Q.Change(t, a).value)
  {
  }

  lemma ApplyOk(s: Site, step: Step)
    requires SiteOk(s)
    ensures SiteOk(Apply(s, step))
  {
    hide Q.Apply, Quiet, BusyCount;
    NoneBusy(s.queue.tasks);
    match step
    case Work(action) => if s.drained && !s.row.Terminal() && !action.Take? { QuietStays(s.queue, action); }
    case See => assert BusyCount(s.queue.tasks) == 0 ==> Quiet(s.queue) by { CountIsQuiet(s.queue); }
    case _ =>
  }

  lemma CountIsQuiet(q: Q.Queue)
    ensures BusyCount(q.tasks) == 0 <==> Quiet(q)
  {
    NoneBusy(q.tasks);
  }

  lemma {:induction false} RunOk(s: Site, steps: seq<Step>)
    requires SiteOk(s)
    ensures SiteOk(Run(s, steps))
  {
    hide SiteOk, Apply;
    if steps != [] {
      RunOk(s, steps[..|steps| - 1]);
      ApplyOk(Run(s, steps[..|steps| - 1]), steps[|steps| - 1]);
    }
  }

  /**
   Drain quiescence. From the poll on which the drain loop returned until the operation is
   terminal, no task is owned, running or waiting to be cancelled, whatever workers and users do
   and whenever the snapshot is put back.
   */
  lemma {:induction false} DrainedStaysQuiet(s: Site, steps: seq<Step>, i: nat)
    requires Initial(s)
    ensures var t := Run(s, steps);
            t.drained && !t.row.Terminal() ==>
              && !Evaluate(t.marker, OPERATION, t.row).Normal?
              && (i < |t.queue.tasks| ==>
                    t.queue.tasks[i].lock.None? && !t.queue.tasks[i].status.Running? && !t.queue.tasks[i].status.CancelRequested?)
  {
    hide Run;
    RunOk(s, steps);
  }

  /**
   The four modes of the gate. Without a marker it is open before the draining and after the end; a
   marker closes it, as a valid candidate's only if it names this operation and that is not over.
   */
  lemma GateOpensExactlyOutsideTheUpdate(marker: MarkerFile, operation: nat, row: Op.OperationStatus)
    ensures var mode := Evaluate(marker, operation, row);
            && (mode.Normal? <==> marker.NoMarker? && (row.Terminal() || row.Checking? || row.Available? || row.Pulling?))
            && (mode.Draining? <==> marker.NoMarker? && !mode.Normal?)
            && (mode.CandidateValidation? <==> marker == MarkerOf(operation) && !row.Terminal())
  {
  }

  // ---- an update that cannot drain ---------------------------------------------------------

  /**
   A cancellation nobody can finish any more: its owner is gone or its lease is over, recovery only
   takes the lock away, and a claim is refused.
   */
  predicate Lost(t: Q.Task, clock: nat) {
    t.status.CancelRequested? && (t.lock.None? || t.lock.value.leaseUntil <= clock)
  }

  lemma LostStays(t: Q.Task, a: Q.Action, clock: nat)
    requires Q.Target(a).Some? && Lost(t, clock) && Q.Change(t, a).Ok? && (t.lock.Some? ==> clock <= Q.Reading(a))
    ensures var u := Q.Change(t, a).value; Lost(u, Later(clock, Q.Reading(a))) && (t.lock.None? ==> u.lock.None?)
  {
  }

  ghost predicate HasLost(s: Site) {
    exists i :: 0 <= i < |s.queue.tasks| && Lost(s.queue.tasks[i], s.clock)
  }

  /** Draining, and the loop has not returned. */
  ghost predicate Waiting(s: Site) {
    s.row.Draining? && !s.drained && s.snapshot.None?
  }

  /** Given up: terminal without having been drained. */
  ghost predicate GivenUp(s: Site) {
    s.row.Terminal() && !s.drained && s.snapshot.None?
  }

  ghost predicate WaitingFor(s: Site, i: nat) {
    Waiting(s) && i < |s.queue.tasks| && Lost(s.queue.tasks[i], s.clock)
  }

  /** Without an owner, whatever the clock says. */
  ghost predicate Orphaned(s: Site, i: nat) {
    i < |s.queue.tasks| && s.queue.tasks[i].lock.None?
  }

  lemma LostStep(s: Site, step: Step, i: nat)
    requires WaitingFor(s, i) || GivenUp(s)
    requires step.Work? && !Orphaned(s, i) && !GivenUp(s) ==> s.clock <= Q.Reading(step.action)
    ensures var t := Apply(s, step); GivenUp(t) || (WaitingFor(t, i) && (Orphaned(s, i) ==> Orphaned(t, i)))
    ensures GivenUp(s) ==> GivenUp(Apply(s, step))
  {
    hide Q.Change, Q.Reading;
    if Waiting(s) {
      NoneBusy(s.queue.tasks);
      assert Busy(s.queue.tasks[i]);
      if step.Work? && Q.Target(step.action) == Some(i) && Q.Change(s.queue.tasks[i], step.action).Ok? {
        LostStays(s.queue.tasks[i], step.action, s.clock);
      }
    }
  }

  /**
   With a lost cancellation the loop never returns; the only way out is a terminal row. Where there is
   no owner at all, that holds even if the clock runs backwards.
   */
  lemma {:induction false} LostCancellationBlocksDraining(s: Site, steps: seq<Step>, i: nat)
    requires WaitingFor(s, i) && (OnTime(s, steps) || Orphaned(s, i))
    ensures var t := Run(s, steps); GivenUp(t) || (WaitingFor(t, i) && (Orphaned(s, i) ==> Orphaned(t, i)))
  {
    hide Apply, WaitingFor, GivenUp, Orphaned;
    if steps != [] {
      LostCancellationBlocksDraining(s, steps[..|steps| - 1], i);
      LostStep(Run(s, steps[..|steps| - 1]), steps[|steps| - 1], i);
    }
  }

  // ---- an update that can drain ------------------------------------------------------------

  /**
   How a lease ends by this reading: its owner reports success, or that it cancelled, while the lease
   lasts; recovery takes it away when it is over.
   */
  function Closing(t: Q.Task, i: nat, now: nat): Q.Action
    requires t.lock.Some? && t.runs != []
  {
    var last := t.runs[|t.runs| - 1];
    if t.lock.value.leaseUntil <= now then
      Q.Recover(Q.ExpiredLease(i, t.status, last.worker, last.token, t.retryCount), Some(now), now)
    else if t.status.CancelRequested? then
      Q.FinishRun(i, Q.Finish(last.id, last.worker, last.token, t.status, Q.Cancelled, Q.Stopped, now, false, None, false), now)
    else
      Q.FinishRun(i, Q.Finish(last.id, last.worker, last.token, t.status, Q.Success, Q.Succeeded, now, false, None, false), now)
  }

  lemma LeaseCanEnd(t: Q.Task, i: nat, issued: nat, now: nat)
    requires O.TaskOk(t, issued) && t.lock.Some? && !Lost(t, now)
    ensures Q.Change(t, Closing(t, i, now)).Ok? && !Busy(Q.Change(t, Closing(t, i, now)).value)
  {
  }

  /** End the leases of the first `n` tasks at one instant, leaving the others as they are. */
  lemma {:induction false} LeasesCanEnd(q: Q.Queue, n: nat, now: nat) returns (actions: seq<Q.Action>)
    requires O.QueueOk(q) && n <= |q.tasks| && forall i :: 0 <= i < |q.tasks| ==> !Lost(q.tasks[i], now)
    ensures forall a <- actions :: !a.Take? && Q.Reading(a) == now
    ensures var t := Q.Run(q, actions);
            && O.QueueOk(t) && |t.tasks| == |q.tasks|
            && (forall i :: 0 <= i < n ==> !Busy(t.tasks[i]))
            && (forall i :: n <= i < |q.tasks| ==> t.tasks[i] == q.tasks[i])
    decreases n
  {
    hide O.TaskOk, O.TokensOk, Busy, Lost, Q.Apply, Q.Reading, Closing;
    if n == 0 {
      return [];
    }
    actions := LeasesCanEnd(q, n - 1, now);
    var here := Q.Run(q, actions);
    var t := here.tasks[n - 1];
    assert O.TaskOk(t, here.issued);
    IdleOrOwned(t, here.issued, now);
    assert !Lost(q.tasks[n - 1], now);
    if t.lock.Some? {
      var a := Closing(t, n - 1, now);
      OneLeaseEnds(here, n - 1, now);
      B.RunNext(q, actions, a);
      actions := actions + [a];
    }
  }

  lemma OneLeaseEnds(q: Q.Queue, i: nat, now: nat)
    requires O.QueueOk(q) && i < |q.tasks| && q.tasks[i].lock.Some? && q.tasks[i].runs != [] && !Lost(q.tasks[i], now)
    ensures var a := Closing(q.tasks[i], i, now);
            var t := Q.Apply(q, a);
            && !a.Take? && Q.Reading(a) == now && O.QueueOk(t) && |t.tasks| == |q.tasks| && !Busy(t.tasks[i])
            && forall k :: 0 <= k < |q.tasks| && k != i ==> t.tasks[k] == q.tasks[k]
  {
    hide O.TaskOk, O.TokensOk, Busy, Lost, Q.Change;
    assert O.TaskOk(q.tasks[i], q.issued);
    LeaseCanEnd(q.tasks[i], i, q.issued, now);
    O.ApplyOk(q, Closing(q.tasks[i], i, now));
  }

  lemma IdleOrOwned(t: Q.Task, issued: nat, now: nat)
    requires O.TaskOk(t, issued)
    ensures t.lock.Some? ==> t.runs != []
    ensures t.lock.None? && !Lost(t, now) ==> !Busy(t)
  {
  }

  function Works(actions: seq<Q.Action>): seq<Step> {
    seq(|actions|, i requires 0 <= i < |actions| => Work(actions[i]))
  }

  /** Work that claims nothing, or is done while the gate is open, changes queue and clock. */
  lemma {:induction false} WorksAreDone(s: Site, actions: seq<Q.Action>, last: nat)
    requires Evaluate(s.marker, OPERATION, s.row).Normal? || forall k :: 0 <= k < |actions| ==> !actions[k].Take?
    requires Q.Timely(actions) && forall k :: 0 <= k < |actions| ==> s.clock <= Q.Reading(actions[k]) <= last
    ensures var t := Run(s, Works(actions));
            t == s.(queue := Q.Run(s.queue, actions), clock := t.clock) && (actions != [] || s.clock <= last ==> t.clock <= last)
    ensures OnTime(s, Works(actions))
    ensures actions != [] ==> Run(s, Works(actions)).clock == Q.Reading(actions[|actions| - 1])
  {
    hide Q.Apply, Q.Reading;
    if actions != [] {
      var n := |actions| - 1;
      WorksAreDone(s, actions[..n], last);
      assert Works(actions)[..n] == Works(actions[..n]);
    }
  }

  lemma RunNext(s: Site, steps: seq<Step>, step: Step)
    ensures Run(s, steps + [step]) == Apply(Run(s, steps), step)
    ensures OnTime(s, steps) && !step.Work? ==> OnTime(s, steps + [step])
  {
    assert (steps + [step])[..|steps|] == steps;
  }

  /** Without a lost cancellation every lease can still end, and the next poll ends the loop. */
  lemma DrainingCanFinish(s: Site) returns (steps: seq<Step>)
    requires Waiting(s) && O.QueueOk(s.queue) && !HasLost(s)
    ensures OnTime(s, steps) && Run(s, steps).drained
  {
    hide O.QueueOk, Q.Run, Lost;
    var actions := LeasesCanEnd(s.queue, |s.queue.tasks|, s.clock);
    forall k | 0 <= k < |actions| ensures Q.Reading(actions[k]) == s.clock {
      assert actions[k] in actions;
    }
    WorksAreDone(s, actions, s.clock);
    NoneBusy(Q.Run(s.queue, actions).tasks);
    RunNext(s, Works(actions), See);
    steps := Works(actions) + [See];
  }

  /** The loop can return: some continuation, its clock never running backwards, drains the site. */
  ghost predicate CanDrain(s: Site) {
    exists steps :: OnTime(s, steps) && Run(s, steps).drained
  }

  /**
   The exact condition. A site that is draining with a consistent queue can be drained if and only
   if no task is in cancel_requested without an owner, or with a lease that is over.
   */
  lemma {:induction false} DrainsExactlyWithoutLost(s: Site)
    requires Waiting(s) && O.QueueOk(s.queue)
    ensures CanDrain(s) <==> !HasLost(s)
  {
    hide O.QueueOk, Run, Lost, OnTime;
    if HasLost(s) {
      var i :| 0 <= i < |s.queue.tasks| && Lost(s.queue.tasks[i], s.clock);
      NeverDrains(s, i);
    } else {
      var steps := DrainingCanFinish(s);
    }
  }

  lemma NeverDrains(s: Site, i: nat)
    requires WaitingFor(s, i)
    ensures !CanDrain(s)
  {
    hide Run, Lost, OnTime;
    forall steps | OnTime(s, steps) ensures !Run(s, steps).drained {
      LostCancellationBlocksDraining(s, steps, i);
    }
  }

  /** Sites reached from an empty queue have consistent queues, in use and in the snapshot. */
  lemma {:induction false} QueuesStayConsistent(s: Site, steps: seq<Step>)
    requires Initial(s) && s.queue == Q.EMPTY
    ensures var t := Run(s, steps);
            O.QueueOk(t.queue) && (t.snapshot.Some? ==> O.QueueOk(t.snapshot.value.0))
  {
    hide O.QueueOk, Q.Apply, BusyCount;
    if steps == [] {
      EmptyIsConsistent();
    } else {
      var here := Run(s, steps[..|steps| - 1]);
      QueuesStayConsistent(s, steps[..|steps| - 1]);
      match steps[|steps| - 1] {
        case Work(action) => O.ApplyOk(here.queue, action);
        case _ =>
      }
    }
  }

  lemma EmptyIsConsistent()
    ensures O.QueueOk(Q.EMPTY)
  {
  }

  /** The condition on every reachable site that is draining. */
  lemma {:induction false} ReachableSitesDrainExactly(s: Site, before: seq<Step>)
    requires Initial(s) && s.queue == Q.EMPTY
    requires Run(s, before).row.Draining? && !Run(s, before).drained
    ensures CanDrain(Run(s, before)) <==> !HasLost(Run(s, before))
  {
    hide O.QueueOk, HasLost, Run, CanDrain;
    QueuesStayConsistent(s, before);
    RunOk(s, before);
    DrainsExactlyWithoutLost(Run(s, before));
  }

  // ---- how an update gets there ------------------------------------------------------------

  /** Queue transactions at the gate's normal mode, and then the update begins to drain. */
  lemma ThenDraining(s: Site, actions: seq<Q.Action>, last: nat) returns (steps: seq<Step>)
    requires Initial(s) && s.queue == Q.EMPTY && s.marker.NoMarker? && s.clock == 0 && B.Until(actions, last)
    ensures OnTime(s, steps) && Waiting(Run(s, steps)) && Run(s, steps).queue == Q.Run(Q.EMPTY, actions)
    ensures Run(s, steps).clock <= last
  {
    hide Q.Run, Run, OnTime;
    WorksAreDone(s, actions, last);
    RunNext(s, Works(actions), Move(Op.Draining));
    steps := Works(actions) + [Move(Op.Draining)];
  }

  /**
   Cancellations without an owner are reached: a running task is asked to cancel, its worker dies,
   recovery ends the lease, and then the update begins to drain.
   */
  lemma {:induction false} OrphanIsReachable(s: Site) returns (steps: seq<Step>)
    requires Initial(s) && s.queue == Q.EMPTY && s.marker.NoMarker? && s.clock == 0
    ensures var t := Run(s, steps);
            && OnTime(s, steps) && Waiting(t) && |t.queue.tasks| == 1 && t.queue.tasks[0].lock.None?
            && HasLost(t) && !CanDrain(t)
  {
    hide Q.Run, O.QueueOk, Run, CanDrain, OnTime, B.Until, B.FromWorkers;
    var actions := B.FirstLoss(0);
    steps := ThenDraining(s, actions, 1);
    assert Lost(Run(s, steps).queue.tasks[0], Run(s, steps).clock);
    NeverDrains(Run(s, steps), 0);
  }

  /**
   And so are leases that are over: the update begins to drain after the cancellation, and the worker
   dies then. Until the lease ends the site can still be drained.
   */
  lemma {:induction false} ExpiredCancellationIsReachable(s: Site) returns (steps: seq<Step>, later: Step)
    requires Initial(s) && s.queue == Q.EMPTY && s.marker.NoMarker? && s.clock == 0
    ensures var t := Run(s, steps);
            && OnTime(s, steps) && Waiting(t) && |t.queue.tasks| == 1 && t.queue.tasks[0].lock.Some? && CanDrain(t)
    ensures var t := Run(s, steps + [later]);
            && OnTime(s, steps + [later]) && Waiting(t) && t.queue == Run(s, steps).queue
            && HasLost(t) && !CanDrain(t)
  {
    hide Q.Run, O.QueueOk, Run, CanDrain, OnTime, B.Until, B.FromWorkers;
    var actions, task := B.FirstCancellation(0);
    steps := ThenDraining(s, actions, 0);
    later := Tick(1);
    RunNext(s, steps, later);
    var t, u := Run(s, steps), Run(s, steps + [later]);
    assert t.queue.tasks == [task];
    DrainsExactlyWithoutLost(t);
    assert Lost(u.queue.tasks[0], u.clock);
    NeverDrains(u, 0);
  }
}
