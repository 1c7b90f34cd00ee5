/** What the queue promises over all its runs. */
module TaskSafety {
  import opened Prelude
  import opened Ordering
  import opened TaskQueue
  import opened TaskOwnership

  function ActiveRuns(t: Task): set<nat> {
    set k: nat | k < |t.runs| && t.runs[k].status.Active?
  }

  lemma EmptyIsOk()
    ensures QueueOk(EMPTY)
  {
  }

  // ---- ownership ---------------------------------------------------------------------------

  /** In every reachable queue a lock and the single active run mirror each other; runs are numbered 1 to n. */
  lemma {:induction false} OwnershipIsExact(actions: seq<Action>, i: nat)
    requires i < |Run(EMPTY, actions).tasks|
    ensures var t := Run(EMPTY, actions).tasks[i];
            && ActiveRuns(t) == (if t.lock.Some? then {|t.runs| - 1} else {})
            && (t.lock.Some? ==>
                  && t.runs[|t.runs| - 1].worker == t.lock.value.worker
                  && t.runs[|t.runs| - 1].token == t.lock.value.token
                  && t.status.Leased())
            && (t.status.Running? ==> t.lock.Some?)
            && (forall k :: 0 <= k < |t.runs| ==> t.runs[k].number == k + 1)
            && (t.completedAt.Some? <==> t.status.Terminal())
            && (t.nextAttemptAt.Some? ==> t.status.Queued())
  {
    hide Run, TokensOk;
    EmptyIsOk();
    RunOk(EMPTY, actions);
    assert TaskOk(Run(EMPTY, actions).tasks[i], Run(EMPTY, actions).issued);
  }

  lemma OwnedRunIsFound(t: Task, worker: string, token: nat, issued: nat)
    requires TaskOk(t, issued) && OwnedBy(t, worker, token)
    ensures FindRun(t.runs, worker, token) == Some(|t.runs| - 1)
  {
  }

  /** The arguments finish_run accepts, whoever calls it. */
  predicate FinishAccepted(a: Finish) {
    && a.worker != "" && CanTransition(a.expected, a.target)
    && (a.target.Pending? ==> a.expected.Running? && a.nextAttemptAt.Some? && a.continuation && !a.consume)
    && RunStatusFor(a.target) == Some(a.runStatus)
    && (a.consume ==> !a.target.Success? && !a.target.WaitingCredential? && !a.target.Cancelled?)
  }

  /**
   In every reachable queue the run behind a lease is there: a claim never meets an active run,
   and renewing, finishing or recovering a lease fails only for the reasons a caller can see.
   */
  lemma {:induction false} LeasesNeverMissTheirRun(actions: seq<Action>, i: nat, worker: string, token: nat, duration: nat, now: nat,
                                finish: Finish, lease: ExpiredLease, next: nat)
    requires i < |Run(EMPTY, actions).tasks|
    ensures var q := Run(EMPTY, actions);
            var t := q.tasks[i];
            && (ClaimNext(q, worker, duration, now).Ok? <==> ValidOwner(worker, duration))
            && (HeartbeatTask(t, worker, token, duration, now).Ok? <==>
                  ValidOwner(worker, duration) && OwnedBy(t, worker, token) && t.lock.value.leaseUntil > now)
            && (FinishTask(t, finish, now).Ok? <==>
                  && FinishAccepted(finish) && t.status == finish.expected && OwnedBy(t, finish.worker, finish.token)
                  && t.lock.value.leaseUntil > now && t.runs != [] && t.runs[|t.runs| - 1].id == finish.runId)
            && RecoverTask(t, lease, Some(next), now).Ok?
            && (RecoverTask(t, lease, Some(next), now).value.Some? <==> LeaseMatches(t, lease, now))
  {
    hide Run, TokensOk, ClaimNext, FindRun, Least;
    EmptyIsOk();
    RunOk(EMPTY, actions);
    var q := Run(EMPTY, actions);
    var t := q.tasks[i];
    assert TaskOk(t, q.issued);
    if ValidOwner(worker, duration) {
      ClaimOk(q, worker, duration, now);
    } else {
      InvalidOwnerIsRefused(q, worker, duration, now);
    }
    if t.lock.Some? {
      OwnedRunIsFound(t, t.lock.value.worker, t.lock.value.token, q.issued);
    }
  }

  // ---- history -----------------------------------------------------------------------------

  lemma ApplyKeepsHistory(q: Queue, a: Action)
    requires QueueOk(q)
    ensures |q.tasks| <= |Apply(q, a).tasks|
    ensures forall i :: 0 <= i < |q.tasks| ==> History(q.tasks[i].runs, Apply(q, a).tasks[i].runs)
  {
    hide TaskOk, TokensOk, Change, ClaimNext, Token, ClosesRow, Holds;
    if Target(a).Some? {
      var i := Target(a).value;
      if i < |q.tasks| && Change(q.tasks[i], a).Ok? {
        ChangeOfRow(q.tasks[i], a, q.issued);
      }
    } else if a.Take? {
      if ValidOwner(a.worker, a.duration) {
        ClaimOk(q, a.worker, a.duration, a.now);
      } else {
        InvalidOwnerIsRefused(q, a.worker, a.duration, a.now);
      }
    }
  }

  /** Runs are append-only history: rows keep place and identity, and a finished run never changes again. */
  lemma {:induction false} HistoryIsAppendOnly(q: Queue, actions: seq<Action>, i: nat)
    requires QueueOk(q) && i < |q.tasks|
    ensures i < |Run(q, actions).tasks| && History(q.tasks[i].runs, Run(q, actions).tasks[i].runs)
  {
    hide QueueOk, Apply;
    if actions != [] {
      var before := actions[..|actions| - 1];
      HistoryIsAppendOnly(q, before, i);
      RunOk(q, before);
      ApplyKeepsHistory(Run(q, before), actions[|actions| - 1]);
    }
  }

  // ---- fencing -----------------------------------------------------------------------------

  /** The token was drawn by a claim whose lease is over. */
  ghost predicate Spent(q: Queue, token: nat) {
    token < q.issued && forall i :: 0 <= i < |q.tasks| ==> !Holds(q.tasks[i], token)
  }

  /** The action succeeds in closing the lease of this token. */
  ghost predicate Closes(q: Queue, a: Action, token: nat) {
    Token(a) == Some(token) && Target(a).value < |q.tasks| && ClosesRow(q.tasks[Target(a).value], a)
  }

  lemma HoldersAreUnique(q: Queue, i: nat, j: nat, token: nat)
    requires QueueOk(q) && i < |q.tasks| && j < |q.tasks| && Holds(q.tasks[i], token) && Holds(q.tasks[j], token)
    ensures i == j && token < q.issued
  {
    assert TaskOk(q.tasks[i], q.issued) && TaskOk(q.tasks[j], q.issued);
    var a, b := |q.tasks[i].runs| - 1, |q.tasks[j].runs| - 1;
    assert q.tasks[i].runs[a].token == q.tasks[j].runs[b].token;
  }

  /** A spent token stays spent, and presenting it changes nothing. */
  lemma SpentStep(q: Queue, a: Action, token: nat)
    requires QueueOk(q) && Spent(q, token)
    ensures Spent(Apply(q, a), token) && !Closes(q, a, token)
    ensures Token(a) == Some(token) ==> Apply(q, a) == q
  {
    hide TaskOk, TokensOk, Change, ClaimNext, History;
    if Target(a).Some? {
      var i := Target(a).value;
      if i < |q.tasks| && Change(q.tasks[i], a).Ok? {
        ChangeOfRow(q.tasks[i], a, q.issued);
      } else if i < |q.tasks| {
        RefusedClosesNothing(q.tasks[i], a);
      }
    } else if a.Take? {
      if ValidOwner(a.worker, a.duration) {
        ClaimOk(q, a.worker, a.duration, a.now);
      } else {
        InvalidOwnerIsRefused(q, a.worker, a.duration, a.now);
      }
    }
  }

  lemma RefusedClosesNothing(t: Task, a: Action)
    requires Target(a).Some? && Change(t, a).Err?
    ensures !ClosesRow(t, a)
  {
  }

  /** Closing a lease spends its token. */
  lemma ClosingSpends(q: Queue, a: Action, token: nat)
    requires QueueOk(q) && Closes(q, a, token)
    ensures Spent(Apply(q, a), token)
  {
    hide TaskOk, TokensOk, Change, History, ClosesRow;
    var i := Target(a).value;
    if Change(q.tasks[i], a).Err? {
      RefusedClosesNothing(q.tasks[i], a);
    }
    ChangeOfRow(q.tasks[i], a, q.issued);
    HoldersAreUnique(q, i, i, token);
    forall j | 0 <= j < |q.tasks| && Holds(q.tasks[j], token) ensures j == i {
      HoldersAreUnique(q, i, j, token);
    }
  }

  /** How often a run of actions closes the lease of a token. */
  ghost function Closings(q: Queue, actions: seq<Action>, token: nat): nat {
    if actions == [] then 0
    else
      var n := |actions| - 1;
      Closings(q, actions[..n], token) + if Closes(Run(q, actions[..n]), actions[n], token) then 1 else 0
  }

  /** A token closes at most one lease, whoever presents it and however often; after that it is spent. */
  lemma {:induction false} ClaimIsClosedAtMostOnce(q: Queue, actions: seq<Action>, token: nat)
    requires QueueOk(q)
    ensures Closings(q, actions, token) <= 1
    ensures Closings(q, actions, token) == 1 ==> Spent(Run(q, actions), token)
  {
    hide QueueOk, Apply, Closes, Spent;
    if actions != [] {
      var n := |actions| - 1;
      var here := Run(q, actions[..n]);
      ClaimIsClosedAtMostOnce(q, actions[..n], token);
      RunOk(q, actions[..n]);
      if Spent(here, token) {
        SpentStep(here, actions[n], token);
      } else if Closes(here, actions[n], token) {
        ClosingSpends(here, actions[n], token);
      }
    }
  }

  /**
   Fencing. Once the lease of a token is closed, then in any later queue, whatever all workers did
   in between, an action that presents the token changes no row at all.
   */
  lemma {:induction false} SpentTokensAreFenced(q: Queue, actions: seq<Action>, stale: Action, token: nat)
    requires QueueOk(q) && Spent(q, token) && Token(stale) == Some(token)
    ensures Apply(Run(q, actions), stale) == Run(q, actions)
    ensures Spent(Run(q, actions), token)
  {
    hide QueueOk, Apply, Closes, Spent;
    if actions != [] {
      var n := |actions| - 1;
      SpentTokensAreFenced(q, actions[..n], stale, token);
      RunOk(q, actions[..n]);
      SpentStep(Run(q, actions[..n]), actions[n], token);
    }
    RunOk(q, actions);
    SpentStep(Run(q, actions), stale, token);
  }
}
