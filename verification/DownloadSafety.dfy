/**
 What downloads promise, whatever the server sends. A published target is never replaced and a
 call after a crash reports success; it matches its hash exactly when the digests the call began
 with belonged to the bytes of the partial.
 */
module DownloadSafety {
  import opened Prelude
  import opened RangeDownload

  // ---- digests -----------------------------------------------------------------------------

  /** Digests are those of the first blocks of the content, which is long enough for all of them. */
  ghost predicate DigestsOf(digests: seq<Digest>, content: Bytes, size: nat, b: nat) {
    forall j :: 0 <= j < |digests| ==> DigestOf(digests[j], content, size, b, j)
  }

  ghost predicate DigestOf(digest: Digest, content: Bytes, size: nat, b: nat, j: nat) {
    j * b < size && Start(j + 1, b, size) <= |content| && digest == BlockDigest(content, size, b, j)
  }

  lemma {:induction false} TailAt(content: Bytes, b: nat, j: nat, k: nat)
    requires b > 0 && (j + k) * b < |content|
    ensures k < |Tail(content, b, j)| && Tail(content, b, j)[k] == BlockDigest(content, |content|, b, j + k)
    decreases k
  {
    assert (j + k) * b == j * b + k * b;
    if k > 0 {
      assert j + 1 + (k - 1) == j + k;
      TailAt(content, b, j + 1, k - 1);
    }
  }

  /** The tail from block `j` is what the whole leaves behind its first `j` digests. */
  lemma {:induction false} TailSplits(content: Bytes, b: nat, j: nat)
    requires b > 0 && (j > 0 ==> (j - 1) * b < |content|)
    ensures j <= |Tail(content, b, 0)| && Tail(content, b, 0)[j..] == Tail(content, b, j)
    decreases j
  {
    if j > 0 {
      assert (j - 1) * b >= 0 && (j > 1 ==> (j - 2) * b < |content|) by {
        if j > 1 { assert (j - 1) * b == (j - 2) * b + b; }
      }
      TailSplits(content, b, j - 1);
      var whole := Tail(content, b, 0);
      assert whole[j - 1..] == [BlockDigest(content, |content|, b, j - 1)] + Tail(content, b, j);
      assert whole[j..] == whole[j - 1..][1..];
    }
  }

  lemma LastBegins(digests: seq<Digest>, content: Bytes, b: nat)
    requires DigestsOf(digests, content, |content|, b)
    ensures |digests| > 0 ==> (|digests| - 1) * b < |content|
  {
    if |digests| > 0 {
      var j := |digests| - 1;
      assert DigestOf(digests[j], content, |content|, b, j);
    }
  }

  lemma OwnDigestsContinue(digests: seq<Digest>, content: Bytes, b: nat)
    requires b > 0 && DigestsOf(digests, content, |content|, b)
    ensures digests + Tail(content, b, |digests|) == Tail(content, b, 0)
  {
    hide Tail, BlockDigest;
    var n, whole := |digests|, Tail(content, b, 0);
    LastBegins(digests, content, b);
    TailSplits(content, b, n);
    forall j | 0 <= j < n ensures whole[j] == digests[j] {
      assert DigestOf(digests[j], content, |content|, b, j);
      TailAt(content, b, 0, j);
    }
    assert whole == whole[..n] + whole[n..];
  }

  lemma DigestsAreOwn(digests: seq<Digest>, content: Bytes, b: nat)
    requires b > 0 && digests <= Tail(content, b, 0)
    ensures DigestsOf(digests, content, |content|, b)
  {
    hide Tail, BlockDigest;
    forall j | 0 <= j < |digests|
      ensures DigestOf(digests[j], content, |content|, b, j)
    {
      TailIsShort(content, b, 0, j);
      TailAt(content, b, 0, j);
    }
  }

  /**
   Continuing from some digests gives the one-shot digests exactly when they were digests of the
   content's own blocks.
   */
  lemma ContinuedIsOneShotExactly(digests: seq<Digest>, content: Bytes, b: nat)
    requires b > 0
    ensures digests + Tail(content, b, |digests|) == Tail(content, b, 0) <==> DigestsOf(digests, content, |content|, b)
  {
    hide DigestsOf, Tail;
    if DigestsOf(digests, content, |content|, b) {
      OwnDigestsContinue(digests, content, b);
    } else if digests + Tail(content, b, |digests|) == Tail(content, b, 0) {
      DigestsAreOwn(digests, content, b);
    }
  }

  /** Every digest of a tail belongs to a block that begins inside the content. */
  /**
   The one-shot hash in the terms of the format: blocks of the one right size, every one whole but
   the last, in order and leaving nothing out.
   */
  lemma OneShotIsByBlocks(content: Bytes, block: nat)
    requires RightBlock(block, |content|)
    ensures var hash := OneShot(content);
            && (content == [] <==> hash.blocks == [])
            && (content != [] ==> (|hash.blocks| - 1) * block < |content| <= |hash.blocks| * block)
            && forall j: nat :: j < |hash.blocks| ==>
                 j * block < |content| && hash.blocks[j] == Sha1(content[j * block..Min((j + 1) * block, |content|)])
  {
    hide Tail;
    var n := |Tail(content, block, 0)|;
    RightBlockIsUnique(block, |content|);
    TailCovers(content, block, 0);
    forall j: nat | j < n
      ensures j * block < |content|
      ensures OneShot(content).blocks[j] == Sha1(content[j * block..Min((j + 1) * block, |content|)])
    {
      StartsApart(j, n - 1, block, |content|);
      TailAt(content, block, 0, j);
    }
  }

  lemma RightBlockIsUnique(block: nat, size: nat)
    requires RightBlock(block, size)
    ensures BlockSize(size) == block
  {
  }

  /** The blocks from `j` on reach just to the end. */
  lemma {:induction false} TailCovers(content: Bytes, b: nat, j: nat)
    requires b > 0 && j * b <= |content| + b
    ensures var n := |Tail(content, b, j)|;
            && (n == 0 <==> j * b >= |content|)
            && (n > 0 ==> (j + n - 1) * b < |content| <= (j + n) * b)
    decreases |content| - Start(j, b, |content|)
  {
    StartsGrow(j, b, |content|);
    if j * b < |content| {
      assert (j + 1) * b == j * b + b;
      TailCovers(content, b, j + 1);
    }
  }

  lemma {:induction false} TailIsShort(content: Bytes, b: nat, j: nat, k: nat)
    requires b > 0 && k < |Tail(content, b, j)|
    ensures (j + k) * b < |content|
    decreases k
  {
    if k > 0 {
      assert j + 1 + (k - 1) == j + k;
      TailIsShort(content, b, j + 1, k - 1);
    }
  }

  lemma DigestsOfLonger(digests: seq<Digest>, content: Bytes, longer: Bytes, size: nat, b: nat)
    requires DigestsOf(digests, content, size, b) && content <= longer
    ensures DigestsOf(digests, longer, size, b)
  {
    forall j | 0 <= j < |digests|
      ensures DigestOf(digests[j], longer, size, b, j)
    {
      assert DigestOf(digests[j], content, size, b, j);
      StartsGrow(j, b, size);
      assert content[Start(j, b, size)..Start(j + 1, b, size)] == longer[Start(j, b, size)..Start(j + 1, b, size)];
    }
  }

  // ---- the phases --------------------------------------------------------------------------

  lemma {:induction false} PumpExtends(d: Disk, state: State, q: Request, i: nat, end: nat, left: nat)
    requires d.partial.Some? && i <= |q.reply.body| && |Content(d)| <= end
    ensures var f := Pump(d, state, q, i, end, left);
            && Content(d) <= Content(f.disk) && d.clock <= f.disk.clock
            && (f.stop.None? ==> |Content(f.disk)| == end)
            && (f.stop.Some? && f.stop.value.Deferred? ==> |Content(f.disk)| > |Content(d)|)
            && (f.stop.Some? ==> !f.stop.value.Done?)
            && f.stop != Some(Failed(HashMismatch)) && f.stop != Some(Failed(TargetExists))
            && f.stop != Some(Failed(OtherProgress))
            && (f.disk == d || (f.disk.partial.value.inode == d.partial.value.inode
                                && d.clock <= f.disk.partial.value.mtime < f.disk.clock))
    decreases |q.reply.body| - i
  {
    if i < |q.reply.body| {
      var e := Rewritten(d, Content(d) + q.reply.body[i]);
      if |Content(e)| <= end {
        PumpExtends(e, state, q, i + 1, end, if left > 0 then left - 1 else 0);
      }
    }
  }

  /** What receiving leaves: a longer partial, or a new one after an ignored range. */
  lemma ReceiveExtends(d: Disk, state: State, q: Request, left: nat)
    requires d.partial.Some? && |Content(d)| < q.fp.size
    ensures var f := Receive(d, state, q, left);
            && (!Restarts(q, |Content(d)|) ==> Content(d) <= Content(f.disk) && f.state == state)
            && (Restarts(q, |Content(d)|) && f.stop != Some(Killed) ==> f.state == state.(digests := []))
            && (f.state == state || f.state == state.(digests := []))
            && (f.stop.Some? ==> !f.stop.value.Done?)
            && f.stop != Some(Failed(HashMismatch)) && f.stop != Some(Failed(TargetExists))
            && f.stop != Some(Failed(OtherProgress))
            && (q.reply.status == 206 && (f.stop.None? || f.stop.value.Deferred?) ==> |Content(f.disk)| > |Content(d)|)
            && d.clock <= f.disk.clock && f.disk.partial.value.inode == d.partial.value.inode
            && (f.disk == d || d.clock <= f.disk.partial.value.mtime < f.disk.clock)
  {
    var start := |Content(d)|;
    if q.reply.plain && q.reply.status == 206 && RangeFits(q, start) {
      PumpExtends(d, state, q, 0, q.reply.range.value.1 + 1, left);
    } else if q.reply.plain && q.reply.status == 200 {
      if start > 0 {
        PumpExtends(Rewritten(d, []), state.(digests := []), q, 0, q.fp.size, if left > 0 then left - 1 else 0);
      } else {
        PumpExtends(d, state, q, 0, q.fp.size, left);
      }
    }
  }

  /** Hashing appends the digests of the following blocks, all of them unless it stops. */
  lemma {:induction false} HashingContinues(content: Bytes, q: Request, digests: seq<Digest>, checked: nat, looks: nat)
    requires |content| == q.fp.size
    ensures var h, b := HashFrom(content, q, digests, checked, looks), BlockSize(q.fp.size);
            && digests <= h.digests
            && (h.stop.None? ==> h.digests == digests + Tail(content, b, |digests|))
            && (h.stop.Some? ==> h.stop.value.Deferred? || h.stop.value.Stopped?)
            && (h.stop.Some? && h.stop.value.Deferred? ==> |h.digests| > |digests|)
            && (q.chunk == 0 && NeverStops(q) ==> h.stop.None?)
    decreases q.fp.size - Start(|digests|, BlockSize(q.fp.size), q.fp.size)
  {
    hide BlockSize, Tail, BlockDigest;
    var size, b := q.fp.size, BlockSize(q.fp.size);
    var n := |digests|;
    StartsGrow(n, b, size);
    TailUnfolds(content, b, n, digests);
    var position := Start(n, b, size);
    if position < size && !q.readings.stopped(Verifying, looks) {
      var piece := content[position..Min(position + b, size)];
      HashingContinues(content, q, digests + [Sha1(piece)], checked + |piece|, looks + 1);
    }
  }

  lemma TailUnfolds(content: Bytes, b: nat, j: nat, digests: seq<Digest>)
    requires b > 0
    ensures var position := Start(j, b, |content|);
            digests + Tail(content, b, j) ==
            if position >= |content| then digests
            else (digests + [Sha1(content[position..Min(position + b, |content|)])]) + Tail(content, b, j + 1)
  {
    StartsGrow(j, b, |content|);
  }

  lemma {:induction false} HashingKeeps(content: Bytes, q: Request, digests: seq<Digest>, checked: nat, looks: nat)
    requires |content| == q.fp.size
    ensures var h, b := HashFrom(content, q, digests, checked, looks), BlockSize(q.fp.size);
            && (DigestsOf(digests, content, q.fp.size, b) ==> DigestsOf(h.digests, content, q.fp.size, b))
            && (Fits(digests, q.fp.size) ==> Fits(h.digests, q.fp.size))
    decreases q.fp.size - Start(|digests|, BlockSize(q.fp.size), q.fp.size)
  {
    hide BlockSize, DigestsOf;
    var size, b := q.fp.size, BlockSize(q.fp.size);
    var n := |digests|;
    StartsGrow(n, b, size);
    var position := Start(n, b, size);
    if position < size && !q.readings.stopped(Verifying, looks) {
      var piece := content[position..Min(position + b, size)];
      assert Sha1(piece) == BlockDigest(content, size, b, n);
      OneMoreDigest(digests, content, b);
      HashingKeeps(content, q, digests + [Sha1(piece)], checked + |piece|, looks + 1);
    }
  }

  ghost predicate NeverStops(q: Request) {
    forall phase, i :: !q.readings.stopped(phase, i)
  }

  /** There are no more digests than blocks. */
  ghost predicate Fits(digests: seq<Digest>, size: nat) {
    digests != [] ==> (|digests| - 1) * BlockSize(size) < size
  }

  lemma OneMoreDigest(digests: seq<Digest>, content: Bytes, b: nat)
    requires b > 0 && |digests| * b < |content|
    ensures var more := digests + [BlockDigest(content, |content|, b, |digests|)];
            DigestsOf(digests, content, |content|, b) ==> DigestsOf(more, content, |content|, b)
  {
    var n, size := |digests|, |content|;
    var more := digests + [BlockDigest(content, size, b, n)];
    if DigestsOf(digests, content, size, b) {
      forall j | 0 <= j < |more|
        ensures DigestOf(more[j], content, size, b, j)
      {
        if j < n {
          assert more[j] == digests[j] && DigestOf(digests[j], content, size, b, j);
        }
      }
    }
  }

  // ---- publication -------------------------------------------------------------------------

  /** The digests verification continues from; an ignored range discards them. */
  ghost function Begun(d: Disk, state: State, q: Request): seq<Digest> {
    if |Content(d)| < q.fp.size && Restarts(q, |Content(d)|) then [] else state.digests
  }

  /** The file has the expected size, and the continued digests have the expected hash. */
  ghost predicate Passed(fp: Fingerprint, begun: seq<Digest>, content: Bytes) {
    && |content| == fp.size
    && (fp.hash.Some? ==> fp.hash.value == Gcid(begun + Tail(content, BlockSize(fp.size), |begun|)))
  }

  /** The checkpoint vouches for the file at the target. */
  ghost predicate Published(d: Disk, fp: Fingerprint) {
    d.target.Some? && Checkpoint(d).identity == Some(fp) && Checkpoint(d).published == Some(d.target.value.Identity())
  }

  /** What may be at a target that was free before a call. */
  ghost predicate Appeared(d: Disk, q: Request, begun: seq<Digest>, restarted: bool, t: Disk, o: Outcome) {
    if t.target.None? then !o.Done?
    else if q.raced.Some? then t.target.value.content == q.raced.value && !o.Done?
    else
      && Published(t, q.fp) && Passed(q.fp, begun, t.target.value.content)
      && (!restarted ==> Content(d) <= t.target.value.content)
      && (o.Done? ==> o == Done(q.fp.size) && t.partial.None?)
  }

  lemma VerifyPasses(d: Disk, state: State, q: Request, left: nat)
    requires d.partial.Some? && |Content(d)| == q.fp.size
    ensures var f := Verify(d, state, q, left);
            && (f.stop.None? ==> f.disk == d && Passed(q.fp, state.digests, Content(d)))
            && (f.stop.Some? ==> !f.stop.value.Done? && f.stop != Some(Failed(TargetExists)))
            && f.state == state.(digests := f.state.digests)
  {
    HashingContinues(Content(d), q, state.digests, 0, 0);
  }

  lemma FetchPublishes(d: Disk, state: State, q: Request, left: nat)
    requires d.partial.Some? && |Content(d)| <= q.fp.size && d.target.None?
    requires state.identity == Some(q.fp) && d.saved == Some(state)
    ensures var f := Fetch(d, state, q, left);
            Appeared(d, q, Begun(d, state, q), |Content(d)| < q.fp.size && Restarts(q, |Content(d)|), f.disk, f.stop.value)
            && (f.disk.target.Some? ==> f.disk.saved == Some(f.state))
  {
    hide Verify, Receive, HashFrom, Passed, Tail;
    var r := if |Content(d)| < q.fp.size then Receive(d, state, q, left) else Flow(d, state, left, None);
    if |Content(d)| < q.fp.size {
      ReceiveExtends(d, state, q, left);
    }
    if r.stop.None? && |Content(r.disk)| == q.fp.size {
      VerifyPasses(r.disk, r.state, q, r.left);
    }
  }

  /** The digests a call begins with. */
  ghost function Begins(d: Disk, q: Request): seq<Digest> {
    if !Resumes(d, q.fp) || (|Content(d)| < q.fp.size && Restarts(q, |Content(d)|)) then [] else Checkpoint(d).digests
  }

  lemma CallPublishes(d: Disk, q: Request)
    requires d.target.None?
    ensures var a := Call(d, q);
            Appeared(d, q, Begins(d, q), !Resumes(d, q.fp) || (|Content(d)| < q.fp.size && Restarts(q, |Content(d)|)),
                     a.disk, a.outcome)
  {
    hide Fetch, Passed;
    var e := if d.partial.None? then d.(partial := Some(Created(d, [])), clock := d.clock + 1) else d;
    var old0 := Checkpoint(d);
    var g := if Resumes(e, q.fp) then e else Rewritten(e, []);
    var state := if Resumes(e, q.fp) then old0 else State(Some(q.fp), [], None);
    var left := if d.partial.None? then q.life - 1 else q.life;
    var rest := if Resumes(e, q.fp) then left else left - 1;
    if rest > 0 {
      FetchPublishes(g.(saved := Some(state)), state, q, rest - 1);
    }
  }

  // ---- the main results --------------------------------------------------------------------

  /**
   A file at the target is never replaced, by the call that finds it there or by any later one. That
   includes a file somebody else puts there between the check and the link; that call then reports
   no success.
   */
  lemma {:induction false} TargetIsNeverReplaced(d: Disk, q: Request, more: seq<Request>)
    ensures var a := Call(d, q);
            && (d.target.Some? ==> a.disk.target == d.target)
            && (d.target.None? && q.raced.Some? ==>
                  !a.outcome.Done? && (a.disk.target.Some? ==> a.disk.target.value.content == q.raced.value))
            && (a.disk.target.Some? ==> Calls(a.disk, more).target == a.disk.target)
    decreases |more|
  {
    hide Transfer, Begins, Passed, Published;
    if d.target.None? {
      CallPublishes(d, q);
    }
    if more != [] && Call(d, q).disk.target.Some? {
      hide Call;
      var n := |more| - 1;
      TargetIsNeverReplaced(d, q, more[..n]);
      CallKeepsTarget(Calls(Call(d, q).disk, more[..n]), more[n]);
    }
  }

  lemma CallKeepsTarget(d: Disk, q: Request)
    requires d.target.Some?
    ensures Call(d, q).disk.target == d.target
  {
  }

  /** After a crash around publication the next call of the same download reports success and rewrites nothing. */
  lemma PublishedIsReported(d: Disk, q: Request)
    requires Published(d, q.fp)
    ensures var a := Call(d, q);
            && (a.outcome == Done(q.fp.size) || a.outcome.Killed? || a.outcome.Stopped?)
            && a.disk.target == d.target && a.disk.saved == d.saved
            && (a.outcome == Done(q.fp.size) <==>
                  (d.partial.None? ==> q.life > 0) && !q.readings.stopped(Around, 0)
                  && q.life > (if d.partial.None? then 1 else 0))
  {
  }

  /** The digests at entry are those of the bytes of the partial. */
  ghost predicate OwnDigests(d: Disk, fp: Fingerprint) {
    Resumes(d, fp) ==> DigestsOf(Checkpoint(d).digests, Content(d), fp.size, BlockSize(fp.size))
  }

  /**
   What a call publishes matches its hash exactly when the digests it began with are those of the
   published bytes, whatever the server sent.
   */
  lemma PublishedMatchesExactly(d: Disk, q: Request)
    requires d.target.None? && q.raced.None? && Call(d, q).disk.target.Some? && q.fp.hash.Some?
    ensures var content := Call(d, q).disk.target.value.content;
            && |content| == q.fp.size
            && (OneShot(content) == q.fp.hash.value <==> DigestsOf(Begins(d, q), content, q.fp.size, BlockSize(q.fp.size)))
  {
    hide Call, Begins, DigestsOf, Tail;
    CallPublishes(d, q);
    ContinuedIsOneShotExactly(Begins(d, q), Call(d, q).disk.target.value.content, BlockSize(q.fp.size));
  }

  /** With its own digests at entry a call publishes only a complete and matching file. */
  lemma OwnDigestsPublishMatching(d: Disk, q: Request)
    requires d.target.None? && q.raced.None? && Call(d, q).disk.target.Some? && OwnDigests(d, q.fp)
    ensures var content := Call(d, q).disk.target.value.content;
            && |content| == q.fp.size && (q.fp.hash.Some? ==> OneShot(content) == q.fp.hash.value)
            && Published(Call(d, q).disk, q.fp)
  {
    hide Call, DigestsOf, Tail;
    CallPublishes(d, q);
    var content := Call(d, q).disk.target.value.content;
    if q.fp.hash.Some? {
      NoDigestsAreOwn(content, q.fp.size, BlockSize(q.fp.size));
      if Begins(d, q) != [] {
        DigestsOfLonger(Begins(d, q), Content(d), content, q.fp.size, BlockSize(q.fp.size));
      }
      PublishedMatchesExactly(d, q);
    }
  }

  lemma NoDigestsAreOwn(content: Bytes, size: nat, b: nat)
    ensures DigestsOf([], content, size, b)
  {
  }

  // ---- who keeps the digests right ---------------------------------------------------------

  /** The state in memory goes with the partial. */
  ghost predicate Goes(f: Flow, fp: Fingerprint) {
    && f.state.identity == Some(fp)
    && DigestsOf(f.state.digests, Content(f.disk), fp.size, BlockSize(fp.size))
  }

  lemma FetchKeepsDigests(d: Disk, state: State, q: Request, left: nat)
    requires d.partial.Some? && |Content(d)| <= q.fp.size && state.identity == Some(q.fp)
    requires DigestsOf(state.digests, Content(d), q.fp.size, BlockSize(q.fp.size))
    ensures var f := Fetch(d, state, q, left);
            f.disk.partial.Some? && !f.stop.value.Killed? ==> Goes(f, q.fp)
  {
    hide Receive, HashFrom, DigestsOf, BlockSize;
    var b := BlockSize(q.fp.size);
    var r := if |Content(d)| < q.fp.size then Receive(d, state, q, left) else Flow(d, state, left, None);
    NoDigestsAreOwn(Content(r.disk), q.fp.size, b);
    if |Content(d)| < q.fp.size {
      ReceiveExtends(d, state, q, left);
      if !Restarts(q, |Content(d)|) {
        DigestsOfLonger(state.digests, Content(d), Content(r.disk), q.fp.size, b);
      }
    }
    if r.stop.None? && |Content(r.disk)| == q.fp.size {
      HashingKeeps(Content(r.disk), q, r.state.digests, 0, 0);
      NoDigestsAreOwn([], q.fp.size, b);
    }
  }

  /** A call that is not killed leaves digests that belong to the partial, if it began with such digests. */
  lemma CallsKeepOwnDigests(d: Disk, q: Request, fp: Fingerprint)
    requires OwnDigests(d, fp) && OwnDigests(d, q.fp) && (d.target.Some? ==> Checkpoint(d).digests == [])
    requires !Call(d, q).outcome.Killed?
    ensures OwnDigests(Call(d, q).disk, fp)
  {
    hide Fetch, DigestsOf, BlockSize;
    var e := if d.partial.None? then d.(partial := Some(Created(d, [])), clock := d.clock + 1) else d;
    var g := if Resumes(e, q.fp) then e else Rewritten(e, []);
    var state := if Resumes(e, q.fp) then Checkpoint(d) else State(Some(q.fp), [], None);
    var left := if d.partial.None? then q.life - 1 else q.life;
    var rest := if Resumes(e, q.fp) then left else left - 1;
    NoDigestsAreOwn([], q.fp.size, BlockSize(q.fp.size));
    NoDigestsAreOwn([], fp.size, BlockSize(fp.size));
    if d.target.None? && rest > 0 {
      var h := g.(saved := Some(state));
      FetchKeepsDigests(h, state, q, rest - 1);
      FetchPublishes(h, state, q, rest - 1);
      FetchDropsOnlyWhenDone(h, state, q, rest - 1);
    }
  }

  lemma PublishingDropsDigests(d: Disk, q: Request)
    requires d.target.Some? ==> Checkpoint(d).digests == []
    ensures var t := Call(d, q).disk; t.target.Some? ==> Checkpoint(t).digests == []
  {
    hide Receive, Verify;
    var e := if d.partial.None? then d.(partial := Some(Created(d, [])), clock := d.clock + 1) else d;
    var g := if Resumes(e, q.fp) then e else Rewritten(e, []);
    var state := if Resumes(e, q.fp) then Checkpoint(d) else State(Some(q.fp), [], None);
  }

  lemma FetchDropsOnlyWhenDone(d: Disk, state: State, q: Request, left: nat)
    requires d.partial.Some? && |Content(d)| <= q.fp.size && d.saved == Some(state)
    ensures var f := Fetch(d, state, q, left); f.disk.partial.None? ==> Checkpoint(f.disk).digests == []
  {
    hide Receive, Verify;
  }

  // ---- exactly when a wrong file can be published ------------------------------------------

  /** The call publishes a file that does not have the expected hash. */
  ghost predicate PublishesWrong(d: Disk, q: Request) {
    && d.target.None? && q.raced.None? && q.fp.hash.Some?
    && Call(d, q).disk.target.Some? && OneShot(Call(d, q).disk.target.value.content) != q.fp.hash.value
  }

  /** A file that continues the partial and, behind the saved digests, has the expected blocks. */
  ghost predicate Passes(d: Disk, fp: Fingerprint, content: Bytes) {
    Content(d) <= content && Passed(fp, Checkpoint(d).digests, content)
  }

  /** A file that passes but whose first blocks are not those of the digests. */
  lemma {:induction false} WrongContent(digests: seq<Digest>, partial: Bytes, content: Bytes, b: nat) returns (wrong: Bytes)
    requires b > 0 && partial <= content && !DigestsOf(digests, partial, |content|, b)
    ensures partial <= wrong && |wrong| == |content| && Tail(wrong, b, |digests|) == Tail(content, b, |digests|)
    ensures !DigestsOf(digests, wrong, |content|, b)
  {
    if !DigestsOf(digests, content, |content|, b) {
      return content;
    }
    var size := |content|;
    var j := MissingBlock(digests, partial, content, b);
    StartsGrow(j, b, size);
    var x := Start(j + 1, b, size) - 1;
    assert Start(j, b, size) <= x < size && |partial| <= x;
    var other: Byte := if content[x] == 0 then 1 else 0;
    wrong := content[x := other];
    ChangedBlock(digests, content, wrong, b, j, x);
    StartsApart(j + 1, |digests|, b, size);
    TailDepends(wrong, content, b, |digests|);
  }

  /** If the digests fit the content but not the partial, some block is not wholly in the partial. */
  lemma MissingBlock(digests: seq<Digest>, partial: Bytes, content: Bytes, b: nat) returns (j: nat)
    requires b > 0 && partial <= content
    requires !DigestsOf(digests, partial, |content|, b) && DigestsOf(digests, content, |content|, b)
    ensures j < |digests| && j * b < |content| && Start(j + 1, b, |content|) > |partial|
  {
    j :| 0 <= j < |digests| && !DigestOf(digests[j], partial, |content|, b, j);
    StartsGrow(j, b, |content|);
    assert DigestOf(digests[j], content, |content|, b, j);
    SameBlock(partial, content, b, j);
  }

  lemma SameBlock(partial: Bytes, content: Bytes, b: nat, j: nat)
    requires partial <= content
    ensures Start(j + 1, b, |content|) <= |partial| ==>
              BlockDigest(partial, |content|, b, j) == BlockDigest(content, |content|, b, j)
  {
    StartsGrow(j, b, |content|);
    var from, to := Start(j, b, |content|), Start(j + 1, b, |content|);
    if to <= |partial| {
      assert partial[from..to] == content[from..to];
    }
  }

  lemma ChangedBlock(digests: seq<Digest>, content: Bytes, wrong: Bytes, b: nat, j: nat, x: nat)
    requires b > 0 && j < |digests| && |wrong| == |content| && DigestsOf(digests, content, |content|, b)
    requires Start(j, b, |content|) <= x < Start(j + 1, b, |content|) && wrong[x] != content[x]
    ensures !DigestsOf(digests, wrong, |content|, b)
  {
    var from, to := Start(j, b, |content|), Start(j + 1, b, |content|);
    assert wrong[from..to][x - from] != content[from..to][x - from];
    assert DigestOf(digests[j], content, |content|, b, j);
    assert !DigestOf(digests[j], wrong, |content|, b, j);
  }

  lemma StartsApart(i: nat, j: nat, b: nat, size: nat)
    requires i <= j
    ensures Start(i, b, size) <= Start(j, b, size)
  {
    assert i * b <= j * b by {
      assert j * b == i * b + (j - i) * b;
    }
  }

  lemma {:induction false} TailDepends(x: Bytes, y: Bytes, b: nat, j: nat)
    requires b > 0 && |x| == |y| && x[Start(j, b, |x|)..] == y[Start(j, b, |y|)..]
    ensures Tail(x, b, j) == Tail(y, b, j)
    decreases |x| - Start(j, b, |x|)
  {
    StartsGrow(j, b, |x|);
    if j * b < |x| {
      var from, to := Start(j, b, |x|), Start(j + 1, b, |x|);
      assert x[from..to] == x[from..][..to - from] && y[from..to] == y[from..][..to - from];
      assert x[to..] == x[from..][to - from..] && y[to..] == y[from..][to - from..];
      TailDepends(x, y, b, j + 1);
    }
  }

  /** One undisturbed call to which the server sends the rest of the given file. */
  function Rest(d: Disk, fp: Fingerprint, content: Bytes): Request {
    var start := |Content(d)|;
    var reply := if start < |content| && start < fp.size
                 then Reply(206, true, Some((start, fp.size - 1, fp.size)), [content[start..]])
                 else Reply(206, true, None, []);
    Request(fp, 0, reply, None, Readings((_, _) => false, (_, _) => false), 6)
  }

  lemma PassingFileIsPublished(d: Disk, fp: Fingerprint, content: Bytes)
    requires d.target.None? && Resumes(d, fp) && fp.hash.Some? && Passes(d, fp, content)
    ensures var t := Call(d, Rest(d, fp, content)).disk; t.target.Some? && t.target.value.content == content
  {
    hide Tail, BlockSize, HashFrom;
    var q := Rest(d, fp, content);
    var e := if d.partial.None? then d.(partial := Some(Created(d, [])), clock := d.clock + 1) else d;
    var state := Checkpoint(d);
    var h := e.(saved := Some(state));
    var left := if d.partial.None? then 4 else 5;
    var r := if |Content(h)| < fp.size then Receive(h, state, q, left) else Flow(h, state, left, None);
    assert Content(r.disk) == content && r.stop.None? && r.state == state && r.left >= 3 by {
      RestArrives(h, state, q, left, content);
    }
    HashingContinues(content, q, state.digests, 0, 0);
  }

  lemma RestArrives(d: Disk, state: State, q: Request, left: nat, content: Bytes)
    requires d.partial.Some? && Content(d) <= content && |content| == q.fp.size && left >= 4
    requires q.chunk == 0 && NeverStops(q) && q.reply.status == 206 && q.reply.plain
    requires |Content(d)| < q.fp.size ==> q.reply.range == Some((|Content(d)|, q.fp.size - 1, q.fp.size))
    requires |Content(d)| < q.fp.size ==> q.reply.body == [content[|Content(d)|..]]
    ensures var r := if |Content(d)| < q.fp.size then Receive(d, state, q, left) else Flow(d, state, left, None);
            Content(r.disk) == content && r.stop.None? && r.state == state && r.left >= 3
  {
    if |Content(d)| < q.fp.size {
      var e := Rewritten(d, Content(d) + q.reply.body[0]);
      assert Content(e) == content;
      assert Pump(e, state, q, 1, q.fp.size, left - 1) == Flow(e, state, left - 1, None);
    }
  }

  /**
   The exact condition. From a resumable partial some call can publish a file that does not have
   the expected hash if and only if the saved digests are not those of the partial, and some file
   continues the partial with the blocks that are still to be hashed.
   */
  lemma {:induction false} WrongPublicationExactly(d: Disk, fp: Fingerprint)
    requires d.target.None? && fp.hash.Some? && Resumes(d, fp)
    ensures (exists q: Request :: q.fp == fp && PublishesWrong(d, q)) <==>
            !OwnDigests(d, fp) && exists content :: Passes(d, fp, content)
  {
    hide Call, DigestsOf, Tail, BlockSize;
    var b := BlockSize(fp.size);
    if q: Request :| q.fp == fp && PublishesWrong(d, q) {
      CallPublishes(d, q);
      var content := Call(d, q).disk.target.value.content;
      PublishedMatchesExactly(d, q);
      NoDigestsAreOwn(content, fp.size, b);
      assert Passes(d, fp, content);
      if OwnDigests(d, fp) {
        OwnDigestsPublishMatching(d, q);
      }
    }
    if !OwnDigests(d, fp) && exists content :: Passes(d, fp, content) {
      var content :| Passes(d, fp, content);
      var wrong := WrongContent(Checkpoint(d).digests, Content(d), content, b);
      PassingFileIsPublished(d, fp, wrong);
      ContinuedIsOneShotExactly(Checkpoint(d).digests, wrong, b);
      assert PublishesWrong(d, Rest(d, fp, wrong));
    }
  }
}
