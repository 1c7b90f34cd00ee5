/** The polling loop of both container verifiers: healthy and unchanged for a whole stability window. */
module StabilityWindow {
  import opened Prelude

  /** One turn of the loop: the clock at the guard, what was observed, the clock after observing. */
  datatype Poll = Poll(at: int, seen: Option<nat>, after: int)

  datatype Verdict = Stable(polls: nat) | Changed(polls: nat) | TimedOut(polls: nat) | Polling

  /** Polls `m` to `n - 1` all saw the same fingerprint, and the one before `m` saw none. */
  ghost predicate Window(polls: seq<Poll>, m: int, n: int) {
    && 0 <= m < n <= |polls|
    && (m > 0 ==> polls[m - 1].seen.None?)
    && (forall k :: m <= k < n ==> polls[k].seen.Some? && polls[k].seen == polls[m].seen)
  }

  /** The window that ends just before poll `n` is not yet long enough. */
  ghost predicate StillShort(polls: seq<Poll>, n: nat, stableFor: int) {
    n <= |polls| && forall m, k :: Window(polls, m, k) && m < k - 1 && k <= n ==> polls[k - 1].after - polls[m].after < stableFor
  }

  /** No fingerprint changed from one poll to the next before poll `n`. */
  ghost predicate Unchanged(polls: seq<Poll>, n: nat) {
    n <= |polls| && forall k :: 0 < k < n && polls[k - 1].seen.Some? && polls[k].seen.Some? ==> polls[k].seen == polls[k - 1].seen
  }

  /** The deadline had not passed at the guard of any poll before poll `n`. */
  ghost predicate InTime(polls: seq<Poll>, n: nat, deadline: int) {
    n <= |polls| && forall k :: 0 <= k < n ==> polls[k].at <= deadline
  }

  /** Inside a window every poll saw something, just before it none. */
  lemma AroundWindow(polls: seq<Poll>, m: int, n: int, k: int)
    requires Window(polls, m, n)
    ensures 0 <= m < n <= |polls|
    ensures m <= k < n ==> polls[k].seen.Some?
    ensures m > 0 ==> polls[m - 1].seen.None?
  {
  }

  lemma NothingSeen(polls: seq<Poll>, stableFor: int)
    ensures Unchanged(polls, 0) && StillShort(polls, 0, stableFor)
  {
  }

  /** A poll that sees what the window saw belongs to it, and only then has nothing changed. */
  lemma WindowsGrow(polls: seq<Poll>, start: int, n: nat)
    requires n < |polls| && Window(polls, start, n) && Unchanged(polls, n) && polls[n].seen.Some?
    ensures polls[n - 1].seen.Some? && polls[n - 1].seen == polls[start].seen
    ensures polls[n].seen == polls[start].seen ==> Window(polls, start, n + 1) && Unchanged(polls, n + 1)
  {
  }

  lemma WindowEnds(polls: seq<Poll>, n: nat, stableFor: int)
    requires n < |polls| && Unchanged(polls, n) && StillShort(polls, n, stableFor) && polls[n].seen.None?
    ensures Unchanged(polls, n + 1) && StillShort(polls, n + 1, stableFor)
  {
    forall m, k | Window(polls, m, k) && m < k - 1 && k <= n + 1 ensures k <= n {
      assert polls[k - 1].seen.Some?;
    }
  }

  lemma WindowBegins(polls: seq<Poll>, n: nat, stableFor: int)
    requires n < |polls| && Unchanged(polls, n) && StillShort(polls, n, stableFor)
    requires polls[n].seen.Some? && (n == 0 || polls[n - 1].seen.None?)
    ensures Unchanged(polls, n + 1) && StillShort(polls, n + 1, stableFor) && Window(polls, n, n + 1)
  {
    forall m, k | Window(polls, m, k) && m < k - 1 && k <= n + 1 ensures k <= n {
      hide Window;
      AroundWindow(polls, m, k, n - 1);
    }
  }

  /** Two windows that end at the same poll begin at the same poll. */
  lemma WindowIsShort(polls: seq<Poll>, n: nat, start: int, stableFor: int)
    requires n < |polls| && StillShort(polls, n, stableFor) && 0 <= start < n && Window(polls, start, n + 1)
    requires polls[n].after - polls[start].after < stableFor
    ensures StillShort(polls, n + 1, stableFor)
  {
    forall m, k | Window(polls, m, k) && m < k - 1 && k <= n + 1
      ensures polls[k - 1].after - polls[m].after < stableFor
    {
      if k == n + 1 {
        assert m == start by { SameStart(polls, m, start, n + 1); }
      }
    }
  }

  lemma SameStart(polls: seq<Poll>, m: int, start: int, n: nat)
    requires Window(polls, m, n) && Window(polls, start, n)
    ensures m == start
  {
    hide Window;
    AroundWindow(polls, m, n, start - 1);
    AroundWindow(polls, start, n, m - 1);
  }

  /**
   The loop accepts at the first poll that completes a window of the required length in which every
   observation was the same, refuses at the first change, and gives up after the deadline.
   */
  method Verify(polls: seq<Poll>, deadline: int, stableFor: int) returns (v: Verdict)
    requires stableFor > 0
    ensures v.Stable? ==>
              && v.polls > 0 && Unchanged(polls, v.polls) && StillShort(polls, v.polls - 1, stableFor)
              && InTime(polls, v.polls, deadline)
              && exists m :: Window(polls, m, v.polls) && polls[v.polls - 1].after - polls[m].after >= stableFor
    ensures v.Changed? ==>
              && 1 < v.polls <= |polls| && Unchanged(polls, v.polls - 1) && StillShort(polls, v.polls - 1, stableFor)
              && polls[v.polls - 2].seen.Some? && polls[v.polls - 1].seen.Some?
              && polls[v.polls - 1].seen != polls[v.polls - 2].seen
              && InTime(polls, v.polls, deadline)
    ensures v.TimedOut? ==>
              && v.polls < |polls| && polls[v.polls].at > deadline && Unchanged(polls, v.polls)
              && StillShort(polls, v.polls, stableFor) && InTime(polls, v.polls, deadline)
    ensures v.Polling? ==>
              Unchanged(polls, |polls|) && StillShort(polls, |polls|, stableFor) && InTime(polls, |polls|, deadline)
  {
    hide Unchanged, StillShort, Window;
    var since: Option<int>, fingerprint: Option<nat> := None, None;
    ghost var start := 0;
    NothingSeen(polls, stableFor);
    var n := 0;
    while n < |polls|
      invariant 0 <= n <= |polls|
      invariant Unchanged(polls, n) && StillShort(polls, n, stableFor) && InTime(polls, n, deadline)
      invariant since.None? <==> n == 0 || polls[n - 1].seen.None?
      invariant since.Some? ==>
                  0 <= start < n && Window(polls, start, n)
                  && since == Some(polls[start].after) && fingerprint == polls[start].seen
    {
      var poll := polls[n];
      if poll.at > deadline {
        return TimedOut(n);
      }
      if poll.seen.None? {
        since, fingerprint := None, None;
        WindowEnds(polls, n, stableFor);
      } else if since.None? {
        since, fingerprint, start := Some(poll.after), poll.seen, n;
        WindowBegins(polls, n, stableFor);
      } else {
        WindowsGrow(polls, start, n);
        if poll.seen != fingerprint {
          return Changed(n + 1);
        }
        if poll.after - since.value >= stableFor {
          return Stable(n + 1);
        }
        WindowIsShort(polls, n, start, stableFor);
      }
      n := n + 1;
    }
    v := Polling;
  }
}
