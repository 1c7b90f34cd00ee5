/**
 Incremental scans visit a fixed number of folders, least recently scanned first, folders never
 scanned before all others. With the set of checkpoints fixed and every clock reading later than
 the one before, no folder waits longer than its share of the scans.
 */
module BatchScan {
  import opened Prelude
  import opened Ordering

  /** Last scan time of each checkpoint; the index is the row id. */
  type Rows = seq<Option<nat>>

  function ScanKey(last: Option<nat>, id: nat): Key {
    if last.None? then Key(0, 0, id, 0) else Key(1, last.value, id, 0)
  }

  function ScanKeys(rows: Rows): (keys: seq<Option<Key>>)
    ensures |keys| == |rows|
  {
    seq(|rows|, i requires 0 <= i < |rows| => Some(ScanKey(rows[i], i)))
  }

  function Picked(rows: Rows, batch: nat): seq<nat> {
    TakeLeast(ScanKeys(rows), batch)
  }

  /** Scan the picked rows one after the other; each gets a later time than the one before. */
  function Stamp(rows: Rows, picked: seq<nat>, times: seq<nat>): (r: Rows)
    requires |picked| == |times| && forall a :: 0 <= a < |picked| ==> picked[a] < |rows|
    ensures |r| == |rows|
  {
    if picked == [] then rows
    else
      var n := |picked| - 1;
      Stamp(rows, picked[..n], times[..n])[picked[n] := Some(times[n])]
  }

  ghost predicate Rising(times: seq<nat>, after: int) {
    && (forall a :: 0 <= a < |times| ==> times[a] > after)
    && (forall a, b :: 0 <= a < b < |times| ==> times[a] < times[b])
  }

  ghost predicate Before(rows: Rows, now: int) {
    forall i :: 0 <= i < |rows| && rows[i].Some? ==> rows[i].value <= now
  }

  lemma PickedAreFirst(rows: Rows, batch: nat)
    ensures FirstOf(ScanKeys(rows), Picked(rows, batch)) && |Picked(rows, batch)| == Min(batch, |rows|)
    ensures forall a :: 0 <= a < |Picked(rows, batch)| ==> Picked(rows, batch)[a] < |rows|
    ensures forall a, b :: 0 <= a < b < |Picked(rows, batch)| ==> Picked(rows, batch)[a] != Picked(rows, batch)[b]
  {
    hide TakeLeast, Precedes;
    TakeLeastIsFirst(ScanKeys(rows), batch);
    AllEligible(rows);
  }

  lemma AllEligible(rows: Rows)
    ensures |Eligible(ScanKeys(rows))| == |rows|
  {
    assert Eligible(ScanKeys(rows)) == UpTo(|rows|);
  }

  /** Row `i` comes before row `j`: never scanned, then scanned longer ago, then the smaller id. */
  ghost predicate Sooner(rows: Rows, i: nat, j: nat)
    requires i < |rows| && j < |rows|
  {
    if rows[i].None? then rows[j].Some? || i < j
    else rows[j].Some? && (rows[i].value < rows[j].value || (rows[i].value == rows[j].value && i < j))
  }

  /** These rows, in this order, come before each other and before all the rest. */
  ghost predicate Soonest(rows: Rows, batch: nat, picked: seq<nat>) {
    && |picked| == Min(batch, |rows|)
    && (forall a :: 0 <= a < |picked| ==> picked[a] < |rows|)
    && (forall a, b :: 0 <= a < b < |picked| ==> Sooner(rows, picked[a], picked[b]))
    && (forall a, r: nat :: 0 <= a < |picked| && r < |rows| && r !in picked ==> Sooner(rows, picked[a], r))
  }

  lemma PickedAreSoonest(rows: Rows, batch: nat)
    ensures Soonest(rows, batch, Picked(rows, batch))
  {
    hide Picked;
    PickedAreFirst(rows, batch);
    var picked, keys := Picked(rows, batch), ScanKeys(rows);
    forall a, r: nat | 0 <= a < |picked| && r < |rows| && r !in picked ensures Sooner(rows, picked[a], r) {
      assert Precedes(keys, picked[a], picked) && keys[r].Some?;
    }
  }

  function UpTo(n: nat): (s: set<nat>)
    ensures forall i: nat :: i in s <==> i < n
    ensures |s| == n
  {
    if n == 0 then {} else UpTo(n - 1) + {n - 1}
  }

  /** The rows in front of row `r` in scan order. */
  function Ahead(rows: Rows, r: nat): set<nat>
    requires r < |rows|
  {
    set i: nat | i < |rows| && Below(ScanKey(rows[i], i), ScanKey(rows[r], r))
  }

  lemma {:induction false} StampedRow(rows: Rows, picked: seq<nat>, times: seq<nat>, i: nat, now: int)
    requires |picked| == |times| && i < |rows| && Rising(times, now)
    requires forall a :: 0 <= a < |picked| ==> picked[a] < |rows|
    ensures var r := Stamp(rows, picked, times);
            if i in picked then r[i].Some? && r[i].value > now && r[i].value in times else r[i] == rows[i]
  {
    if picked != [] {
      var n := |picked| - 1;
      assert picked == picked[..n] + [picked[n]];
      StampedRow(rows, picked[..n], times[..n], i, now);
    }
  }

  /** Each scanned row carries its own time, in the order of the scans. */
  lemma {:induction false} StampedInOrder(rows: Rows, picked: seq<nat>, times: seq<nat>, a: nat)
    requires |picked| == |times| && a < |picked|
    requires forall b :: 0 <= b < |picked| ==> picked[b] < |rows|
    requires forall b, c :: 0 <= b < c < |picked| ==> picked[b] != picked[c]
    ensures Stamp(rows, picked, times)[picked[a]] == Some(times[a])
  {
    var n := |picked| - 1;
    if a < n {
      StampedInOrder(rows, picked[..n], times[..n], a);
    }
  }

  /** A row that is not picked moves up by the size of the batch. */
  lemma {:induction false} UnpickedMovesUp(rows: Rows, batch: nat, times: seq<nat>, r: nat, now: nat)
    requires r < |rows| && r !in Picked(rows, batch)
    requires |times| == |Picked(rows, batch)| && Rising(times, now) && Before(rows, now)
    ensures (forall a :: 0 <= a < |Picked(rows, batch)| ==> Picked(rows, batch)[a] < |rows|)
    ensures |Ahead(rows, r)| >= batch
    ensures |Ahead(Stamp(rows, Picked(rows, batch), times), r)| == |Ahead(rows, r)| - batch
  {
    hide Picked, FirstOf, Stamp;
    var picked := Picked(rows, batch);
    PickedAreFirst(rows, batch);
    var next := Stamp(rows, picked, times);
    var gone := set a: nat | a < |picked| :: picked[a];
    SetOfDistinct(picked);
    PickedAreAhead(rows, batch, r);
    assert Ahead(next, r) == Ahead(rows, r) - gone by {
      forall i: nat | i < |rows| ensures i in Ahead(next, r) <==> i in Ahead(rows, r) && i !in picked {
        StampedRow(rows, picked, times, i, now);
        StampedRow(rows, picked, times, r, now);
      }
    }
    SubsetSize(gone, Ahead(rows, r));
    NotAllPicked(picked, |rows|, r);
  }

  lemma {:induction false} SetOfDistinct(s: seq<nat>)
    requires forall a, b :: 0 <= a < b < |s| ==> s[a] != s[b]
    ensures |set a: nat | a < |s| :: s[a]| == |s|
  {
    if s != [] {
      var n := |s| - 1;
      SetOfDistinct(s[..n]);
      assert (set a: nat | a < |s| :: s[a]) == (set a: nat | a < n :: s[..n][a]) + {s[n]};
    }
  }

  lemma PickedAreAhead(rows: Rows, batch: nat, r: nat)
    requires r < |rows| && r !in Picked(rows, batch)
    ensures forall a :: 0 <= a < |Picked(rows, batch)| ==> Picked(rows, batch)[a] in Ahead(rows, r)
  {
    PickedAreFirst(rows, batch);
    var picked := Picked(rows, batch);
    forall a | 0 <= a < |picked| ensures picked[a] in Ahead(rows, r) {
      assert Precedes(ScanKeys(rows), picked[a], picked);
      assert ScanKeys(rows)[r].Some?;
    }
  }

  lemma NotAllPicked(picked: seq<nat>, n: nat, r: nat)
    requires (forall a, b :: 0 <= a < b < |picked| ==> picked[a] != picked[b]) && r < n && r !in picked
    requires forall a :: 0 <= a < |picked| ==> picked[a] < n
    ensures |picked| < n
  {
    var s := set a: nat | a < |picked| :: picked[a];
    SetOfDistinct(picked);
    SubsetSize(s + {r}, UpTo(n));
  }

  // ---- consecutive scans -------------------------------------------------------------------

  /** The clock readings of consecutive scans, each scan after everything before it. */
  ghost predicate Schedule(rows: Rows, batch: nat, scans: seq<seq<nat>>, now: nat)
    decreases |scans|
  {
    && Before(rows, now)
    && (scans != [] ==>
          && |scans[0]| == Min(batch, |rows|) && Rising(scans[0], now)
          && exists later: nat ::
               (forall t <- scans[0] :: t <= later) && later >= now
               && Schedule(After(rows, batch, scans[0]), batch, scans[1..], later))
  }

  function After(rows: Rows, batch: nat, times: seq<nat>): (r: Rows)
    requires |times| == Min(batch, |rows|)
    ensures |r| == |rows|
  {
    PickedAreFirst(rows, batch);
    Stamp(rows, Picked(rows, batch), times)
  }

  /** The scan at which row `r` is first picked, if any of them picks it. */
  function FirstScanOf(rows: Rows, batch: nat, scans: seq<seq<nat>>, r: nat): Option<nat>
    requires r < |rows| && forall k :: 0 <= k < |scans| ==> |scans[k]| == Min(batch, |rows|)
    decreases |scans|
  {
    if scans == [] then None
    else if r in Picked(rows, batch) then Some(0)
    else
      match FirstScanOf(After(rows, batch, scans[0]), batch, scans[1..], r)
      case Some(k) => Some(k + 1)
      case None => None
  }

  /** A row is scanned as soon as the scans have room for everything ahead of it. */
  lemma {:induction false} ScannedInTurn(rows: Rows, batch: nat, scans: seq<seq<nat>>, r: nat, now: nat)
    requires batch > 0 && r < |rows| && Schedule(rows, batch, scans, now)
    requires forall k :: 0 <= k < |scans| ==> |scans[k]| == Min(batch, |rows|)
    requires |Ahead(rows, r)| < |scans| * batch
    ensures FirstScanOf(rows, batch, scans, r).Some?
    decreases |scans|
  {
    hide Picked, Ahead, Before, Rising;
    if r !in Picked(rows, batch) {
      PickedAreFirst(rows, batch);
      UnpickedMovesUp(rows, batch, scans[0], r, now);
      var later: nat :| Schedule(After(rows, batch, scans[0]), batch, scans[1..], later);
      assert |scans| * batch == (|scans| - 1) * batch + batch;
      ScannedInTurn(After(rows, batch, scans[0]), batch, scans[1..], r, later);
    }
  }

  /**
   Fairness: with n checkpoints and batches of b, any m consecutive scans with m * b >= n, that is
   any ceil(n / b) of them, scan every folder, wherever the rows stood before.
   */
  lemma {:induction false} EveryFolderIsScanned(rows: Rows, batch: nat, scans: seq<seq<nat>>, r: nat, now: nat)
    requires batch > 0 && r < |rows| && Schedule(rows, batch, scans, now)
    requires forall k :: 0 <= k < |scans| ==> |scans[k]| == Min(batch, |rows|)
    requires |scans| * batch >= |rows|
    ensures FirstScanOf(rows, batch, scans, r).Some?
  {
    SubsetSize(Ahead(rows, r), UpTo(|rows|) - {r});
    ScannedInTurn(rows, batch, scans, r, now);
  }

  lemma StampedRows(rows: Rows, picked: seq<nat>, times: seq<nat>, after: int)
    requires |picked| == |times| && Rising(times, after)
    requires forall a :: 0 <= a < |picked| ==> picked[a] < |rows|
    requires forall a, b :: 0 <= a < b < |picked| ==> picked[a] != picked[b]
    ensures var r := Stamp(rows, picked, times);
            && (forall a :: 0 <= a < |picked| ==> r[picked[a]] == Some(times[a]))
            && (forall i: nat :: i < |rows| && i !in picked ==> r[i] == rows[i])
  {
    hide Stamp, Rising;
    forall a | 0 <= a < |picked| ensures Stamp(rows, picked, times)[picked[a]] == Some(times[a]) {
      StampedInOrder(rows, picked, times, a);
    }
    forall i: nat | i < |rows| && i !in picked ensures Stamp(rows, picked, times)[i] == rows[i] {
      StampedRow(rows, picked, times, i, after);
    }
  }

  lemma NothingStamped(rows: Rows, after: int)
    ensures Stamp(rows, [], []) == rows && Rising([], after)
  {
  }

  lemma OneMoreStamp(rows: Rows, picked: seq<nat>, k: nat, times: seq<nat>, t: nat, after: int)
    requires k < |picked| && |times| == k && Rising(times, after) && t > after
    requires forall a :: 0 <= a < |picked| ==> picked[a] < |rows|
    requires forall a :: 0 <= a < k ==> times[a] < t
    ensures Rising(times + [t], after)
    ensures Stamp(rows, picked[..k + 1], times + [t]) == Stamp(rows, picked[..k], times)[picked[k] := Some(t)]
  {
    assert picked[..k + 1][..k] == picked[..k] && (times + [t])[..k] == times;
  }

  // ---- the scans as they run ---------------------------------------------------------------

  class FolderBatches {
    var rows: Rows
    var clock: nat

    constructor (rows: Rows, clock: nat)
      requires Before(rows, clock)
      ensures this.rows == rows && this.clock == clock
    {
      this.rows, this.clock := rows, clock;
    }

    /** One incremental scan: the folders of the batch, each stamped when its contents were read. */
    method ScanBatch(batch: nat) returns (picked: seq<nat>, ghost times: seq<nat>)
      requires Before(rows, clock)
      modifies this
      ensures Soonest(old(rows), batch, picked)
      ensures |times| == |picked| && Rising(times, old(clock)) && |rows| == |old(rows)|
      ensures forall a :: 0 <= a < |picked| ==> rows[picked[a]] == Some(times[a])
      ensures forall i: nat :: i < |rows| && i !in picked ==> rows[i] == old(rows)[i]
      ensures rows == After(old(rows), batch, times) && Before(rows, clock) && clock >= old(clock)
      ensures forall t <- times :: t <= clock
    {
      hide Picked, FirstOf, Rising, Stamp, Soonest;
      PickedAreFirst(rows, batch);
      PickedAreSoonest(rows, batch);
      ghost var start := rows;
      NothingStamped(start, clock);
      picked := Picked(rows, batch);
      times := [];
      for k := 0 to |picked|
        invariant |times| == k && Rising(times, old(clock)) && clock >= old(clock)
        invariant forall a :: 0 <= a < k ==> times[a] <= clock
        invariant rows == Stamp(start, picked[..k], times) && Before(rows, clock)
      {
        clock := clock + 1;
        OneMoreStamp(start, picked, k, times, clock, old(clock));
        rows := rows[picked[k] := Some(clock)];
        times := times + [clock];
      }
      assert picked[..|picked|] == picked;
      StampedRows(start, picked, times, old(clock));
    }

    /** Consecutive incremental scans; enough of them scan every folder. */
    method IncrementalScans(batch: nat, count: nat) returns (ghost scans: seq<seq<nat>>)
      requires Before(rows, clock) && batch > 0
      modifies this
      ensures |scans| == count && Schedule(old(rows), batch, scans, old(clock))
      ensures |rows| == |old(rows)|
      ensures forall k :: 0 <= k < |scans| ==> |scans[k]| == Min(batch, |old(rows)|)
      ensures count * batch >= |old(rows)| ==>
                forall r: nat :: r < |old(rows)| ==> FirstScanOf(old(rows), batch, scans, r).Some?
      decreases count
    {
      ghost var start, now := rows, clock;
      if count == 0 {
        scans := [];
      } else {
        var picked; ghost var times;
        picked, times := ScanBatch(batch);
        ghost var later := clock;
        ghost var more := IncrementalScans(batch, count - 1);
        scans := [times] + more;
        assert scans[1..] == more && scans[0] == times;
      }
      if count * batch >= |start| {
        forall r: nat | r < |start| ensures FirstScanOf(start, batch, scans, r).Some? {
          EveryFolderIsScanned(start, batch, scans, r, now);
        }
      }
    }
  }
}
