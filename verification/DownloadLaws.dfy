/**
 What each phase of a call does in closed form: which replies are refused, after how many pieces the
 body is left and why, after how many blocks the verification is left and why, what publication
 leaves, and with what a call begins.
 */
module DownloadLaws {
  import opened Prelude
  import opened RangeDownload
  import opened DownloadSafety

  // ---- the reply ---------------------------------------------------------------------------

  /** A Content-Range (section 14.4 of RFC 9110) that begins at the partial's end and stays in what was asked for. */
  ghost predicate AsAskedFor(q: Request, start: nat) {
    && q.reply.range.Some?
    && var (from, to, total) := q.reply.range.value;
       && from == start <= to && total == q.fp.size
       && to < q.fp.size && (q.chunk > 0 ==> to < start + q.chunk)
  }

  /** Every reply but a fitting 206 and an acceptable 200 is refused, and leaves the disk as it is. */
  lemma RepliesAreChecked(d: Disk, state: State, q: Request, left: nat)
    requires d.partial.Some? && |Content(d)| < q.fp.size
    ensures var f, start := Receive(d, state, q, left), |Content(d)|;
            && (!q.reply.plain ==> f == Flow(d, state, left, Some(Failed(Encoding))))
            && (q.reply.plain && q.reply.status != 206 && q.reply.status != 200 ==>
                  f == Flow(d, state, left, Some(Failed(HttpStatus))))
            && (q.reply.plain && q.reply.status == 206 ==>
                  if AsAskedFor(q, start) then f == Pump(d, state, q, 0, q.reply.range.value.1 + 1, left)
                  else f == Flow(d, state, left, Some(Failed(RangeMismatch))))
  {
    hide Pump;
  }

  /** An ignored range starts over, digests and all; a file that must come in chunks is refused even then. */
  lemma IgnoredRangesStartOver(d: Disk, state: State, q: Request, left: nat)
    requires d.partial.Some? && |Content(d)| < q.fp.size && q.reply.plain && q.reply.status == 200
    ensures var f, chunked := Receive(d, state, q, left), 0 < q.chunk < q.fp.size;
            && (Content(d) == [] && chunked ==> f == Flow(d, state, left, Some(Failed(RangeUnsupported))))
            && (Content(d) == [] && !chunked ==> f == Pump(d, state, q, 0, q.fp.size, left))
            && (Content(d) != [] && left == 0 ==> f == Flow(d, state, left, Some(Killed)))
            && (Content(d) != [] && left > 0 ==>
                  var e, none := Rewritten(d, []), state.(digests := []);
                  f == if chunked then Flow(e, none, left - 1, Some(Failed(RangeUnsupported)))
                       else Pump(e, none, q, 0, q.fp.size, left - 1))
  {
    hide Pump;
  }

  // ---- the body ----------------------------------------------------------------------------

  /** The first pieces, one after the other. */
  function Joined(body: seq<Piece>, from: nat, m: nat): Bytes
    requires from <= m <= |body|
    decreases m
  {
    if m == from then [] else Joined(body, from, m - 1) + body[m - 1]
  }

  /** After this many pieces the slice of the call is used up, with something still missing. */
  ghost predicate SliceIsUp(q: Request, before: nat, from: nat, m: nat)
    requires from <= m <= |q.reply.body|
  {
    m > from && q.chunk > 0 && before + |Joined(q.reply.body, from, m)| < q.fp.size && q.readings.late(Receiving, m - 1)
  }

  /** Piece `m` can be written: nobody cancelled, it fits, and the process lives. */
  ghost predicate CanWrite(q: Request, before: nat, from: nat, m: nat, end: nat, left: nat)
    requires from <= m < |q.reply.body|
  {
    && !q.readings.stopped(Receiving, m) && m - from < left
    && before + |Joined(q.reply.body, from, m)| + |q.reply.body[m]| <= end
  }

  /** Why the body is left after `m` pieces. */
  ghost predicate LeftAfter(q: Request, before: nat, from: nat, m: nat, end: nat, left: nat, stop: Option<Outcome>)
    requires from <= m <= |q.reply.body|
  {
    var written := before + |Joined(q.reply.body, from, m)|;
    if SliceIsUp(q, before, from, m) then stop == Some(Deferred(written))
    else if m == |q.reply.body| then stop == (if written == end then None else Some(Failed(Incomplete)))
    else if q.readings.stopped(Receiving, m) then stop == Some(Stopped)
    else if written + |q.reply.body[m]| > end then stop == Some(Failed(TooLong))
    else stop == Some(Killed) && left == m - from
  }

  /**
   The law of the body. The partial grows by the first `m` pieces, where `m` is the first number at
   which the slice is up, the body ends, or the next piece cannot be written; that is why it stops.
   */
  ghost predicate BodyIsWritten(d: Disk, state: State, q: Request, from: nat, end: nat, left: nat, m: nat, f: Flow)
    requires from <= m <= |q.reply.body|
  {
    && Content(f.disk) == Content(d) + Joined(q.reply.body, from, m)
    && f.state == state && f.left + (m - from) == left && f.disk.target == d.target && f.disk.saved == d.saved
    && (forall k :: from <= k < m ==> !SliceIsUp(q, |Content(d)|, from, k) && CanWrite(q, |Content(d)|, from, k, end, left))
    && LeftAfter(q, |Content(d)|, from, m, end, left, f.stop)
  }

  lemma {:induction false} JoinedFrom(body: seq<Piece>, from: nat, m: nat)
    requires from < m <= |body|
    ensures Joined(body, from, m) == body[from] + Joined(body, from + 1, m)
    decreases m
  {
    if m > from + 1 {
      JoinedFrom(body, from, m - 1);
    }
  }

  lemma {:induction false} BodiesAreWritten(d: Disk, state: State, q: Request, from: nat, end: nat, left: nat) returns (m: nat)
    requires d.partial.Some? && from <= |q.reply.body| && |Content(d)| <= end
    ensures from <= m <= |q.reply.body|
    ensures BodyIsWritten(d, state, q, from, end, left, m, Pump(d, state, q, from, end, left))
    decreases |q.reply.body| - from
  {
    assert Content(d) + Joined(q.reply.body, from, from) == Content(d);
    if from == |q.reply.body| || !CanWrite(q, |Content(d)|, from, from, end, left) {
      return from;
    }
    var e := Rewritten(d, Content(d) + q.reply.body[from]);
    JoinedFrom(q.reply.body, from, from + 1);
    if SliceIsUp(q, |Content(d)|, from, from + 1) {
      return from + 1;
    }
    m := BodiesAreWritten(e, state, q, from + 1, end, left - 1);
    OnePieceMore(d, e, state, q, from, end, left, m, Pump(e, state, q, from + 1, end, left - 1));
  }

  lemma OnePieceMore(d: Disk, e: Disk, state: State, q: Request, from: nat, end: nat, left: nat, m: nat, f: Flow)
    requires d.partial.Some? && from < m <= |q.reply.body| && left > 0
    requires Content(e) == Content(d) + q.reply.body[from] && e.target == d.target && e.saved == d.saved
    requires CanWrite(q, |Content(d)|, from, from, end, left) && !SliceIsUp(q, |Content(d)|, from, from + 1)
    requires BodyIsWritten(e, state, q, from + 1, end, left - 1, m, f)
    ensures BodyIsWritten(d, state, q, from, end, left, m, f)
  {
    JoinedFrom(q.reply.body, from, m);
    forall k | from <= k < m
      ensures !SliceIsUp(q, |Content(d)|, from, k) && CanWrite(q, |Content(d)|, from, k, end, left)
    {
      if k > from {
        JoinedFrom(q.reply.body, from, k);
        assert CanWrite(q, |Content(e)|, from + 1, k, end, left - 1);
        assert k > from + 1 ==> !SliceIsUp(q, |Content(e)|, from + 1, k);
      }
    }
  }

  // ---- the verification --------------------------------------------------------------------

  /** The slice is used up before block `j`, with blocks still to hash, in a call that began at block `begun`. */
  ghost predicate HashSliceIsUp(q: Request, begun: nat, j: nat) {
    var size, b := q.fp.size, BlockSize(q.fp.size);
    && begun < j && j * b < size && q.chunk > 0
    && (j * b - begun * b >= q.chunk || q.readings.late(Verifying, j - begun - 1))
  }

  /** There is a block `j`, and nobody cancelled before it. */
  ghost predicate CanHash(q: Request, begun: nat, j: nat) {
    begun <= j && j * BlockSize(q.fp.size) < q.fp.size && !q.readings.stopped(Verifying, j - begun)
  }

  /** Block `j` was hashed in its place. */
  ghost predicate HashedAt(content: Bytes, digests: seq<Digest>, b: nat, j: nat) {
    && j < |digests| && j * b < |content|
    && digests[j] == Sha1(content[j * b..Min((j + 1) * b, |content|)])
  }

  /**
   The law of the hashing. It adds the digests of the blocks up to block `m`, the first before which
   the slice is up, the file ends, or the call is cancelled; that is why it stops.
   */
  ghost predicate BlocksAreHashed(content: Bytes, q: Request, begun: seq<Digest>, m: nat, h: Hashed) {
    && |h.digests| == m && begun <= h.digests
    && (forall j :: |begun| <= j < m ==>
          CanHash(q, |begun|, j) && !HashSliceIsUp(q, |begun|, j) && HashedAt(content, h.digests, BlockSize(q.fp.size), j))
    && (if HashSliceIsUp(q, |begun|, m) then h.stop == Some(Deferred(q.fp.size))
        else if m * BlockSize(q.fp.size) >= q.fp.size then h.stop.None?
        else h.stop == Some(Stopped) && q.readings.stopped(Verifying, m - |begun|))
  }

  /** How much was hashed in this slice when block `j` is next. */
  function Checked(q: Request, begun: nat, j: nat): int {
    var b := BlockSize(q.fp.size);
    Start(j, b, q.fp.size) - Start(begun, b, q.fp.size)
  }

  lemma HashStops(content: Bytes, q: Request, begun: seq<Digest>, done: seq<Digest>)
    requires |content| == q.fp.size && begun <= done && !CanHash(q, |begun|, |done|)
    ensures Checked(q, |begun|, |done|) >= 0
    ensures HashFrom(content, q, done, Checked(q, |begun|, |done|), |done| - |begun|) ==
            Hashed(done, if |done| * BlockSize(q.fp.size) < q.fp.size then Some(Stopped) else None)
  {
    hide BlockSize;
    StartsApart(|begun|, |done|, BlockSize(q.fp.size), q.fp.size);
  }

  lemma HashGoesOn(content: Bytes, q: Request, begun: seq<Digest>, done: seq<Digest>) returns (more: seq<Digest>)
    requires |content| == q.fp.size && begun <= done && CanHash(q, |begun|, |done|)
    ensures |done| * BlockSize(q.fp.size) < q.fp.size
    ensures more == done + [Sha1(content[|done| * BlockSize(q.fp.size)..Min((|done| + 1) * BlockSize(q.fp.size), q.fp.size)])]
    ensures Checked(q, |begun|, |done|) >= 0 && Checked(q, |begun|, |more|) >= 0
    ensures HashFrom(content, q, done, Checked(q, |begun|, |done|), |done| - |begun|) ==
            if HashSliceIsUp(q, |begun|, |more|) then Hashed(more, Some(Deferred(q.fp.size)))
            else HashFrom(content, q, more, Checked(q, |begun|, |more|), |more| - |begun|)
  {
    hide BlockSize;
    var size, b := q.fp.size, BlockSize(q.fp.size);
    StartsApart(|begun|, |done|, b, size);
    StartsApart(|begun|, |done| + 1, b, size);
    StartsGrow(|done|, b, size);
    more := done + [Sha1(content[|done| * b..Min((|done| + 1) * b, size)])];
  }

  lemma {:induction false} HashingIsLawful(content: Bytes, q: Request, begun: seq<Digest>, done: seq<Digest>) returns (m: nat)
    requires |content| == q.fp.size && begun <= done && !HashSliceIsUp(q, |begun|, |done|)
    requires forall j :: |begun| <= j < |done| ==>
               CanHash(q, |begun|, j) && !HashSliceIsUp(q, |begun|, j) && HashedAt(content, done, BlockSize(q.fp.size), j)
    ensures Checked(q, |begun|, |done|) >= 0
    ensures BlocksAreHashed(content, q, begun, m,
                            HashFrom(content, q, done, Checked(q, |begun|, |done|), |done| - |begun|))
    decreases q.fp.size - Start(|done|, BlockSize(q.fp.size), q.fp.size)
  {
    hide BlockSize, HashFrom, Checked, HashSliceIsUp, HashedAt;
    m := |done|;
    if CanHash(q, |begun|, |done|) {
      var more := HashGoesOn(content, q, begun, done);
      OneMoreHashed(content, q, begun, done, more);
      m := |more|;
      if !HashSliceIsUp(q, |begun|, |more|) {
        StartsGrow(|done|, BlockSize(q.fp.size), q.fp.size);
        m := HashingIsLawful(content, q, begun, more);
      }
    } else {
      HashStops(content, q, begun, done);
    }
  }

  lemma OneMoreHashed(content: Bytes, q: Request, begun: seq<Digest>, done: seq<Digest>, more: seq<Digest>)
    requires |content| == q.fp.size && begun <= done && CanHash(q, |begun|, |done|) && !HashSliceIsUp(q, |begun|, |done|)
    requires forall j :: |begun| <= j < |done| ==>
               CanHash(q, |begun|, j) && !HashSliceIsUp(q, |begun|, j) && HashedAt(content, done, BlockSize(q.fp.size), j)
    requires more == done + [Sha1(content[|done| * BlockSize(q.fp.size)..Min((|done| + 1) * BlockSize(q.fp.size), q.fp.size)])]
    ensures forall j :: |begun| <= j < |more| ==>
              CanHash(q, |begun|, j) && !HashSliceIsUp(q, |begun|, j) && HashedAt(content, more, BlockSize(q.fp.size), j)
  {
    hide BlockSize, CanHash, HashSliceIsUp;
    assert |done| * BlockSize(q.fp.size) < q.fp.size by { BlockIsThere(q, |begun|, |done|); }
    forall j | |begun| <= j < |more| ensures HashedAt(content, more, BlockSize(q.fp.size), j) {
      if j < |done| {
        assert HashedAt(content, done, BlockSize(q.fp.size), j);
      }
    }
  }

  lemma BlockIsThere(q: Request, begun: nat, j: nat)
    requires CanHash(q, begun, j)
    ensures j * BlockSize(q.fp.size) < q.fp.size
  {
  }

  /** Verification looks at the hash only when there is one, and empties the partial on a mismatch. */
  lemma VerificationDecides(d: Disk, state: State, q: Request, left: nat) returns (m: nat)
    requires d.partial.Some? && |Content(d)| == q.fp.size
    ensures q.fp.hash.None? ==> Verify(d, state, q, left) == Flow(d, state, left, None)
    ensures q.fp.hash.Some? ==>
              exists h: Hashed ::
                && BlocksAreHashed(Content(d), q, state.digests, m, h)
                && var next := state.(digests := h.digests);
                   Verify(d, state, q, left) ==
                   (if h.stop.Some? then Flow(d, next, left, h.stop)
                    else if q.fp.hash == Some(Gcid(h.digests)) then Flow(d, next, left, None)
                    else if left == 0 then Flow(d, next, left, Some(Killed))
                    else Flow(Rewritten(d, []), state.(digests := []), left - 1, Some(Failed(HashMismatch))))
  {
    hide HashFrom, BlockSize;
    m := 0;
    if q.fp.hash.Some? {
      m := HashingIsLawful(Content(d), q, state.digests, state.digests);
      assert BlocksAreHashed(Content(d), q, state.digests, m, HashFrom(Content(d), q, state.digests, 0, 0));
    }
  }

  // ---- publication -------------------------------------------------------------------------

  /** The identity is recorded, then the file is linked, then the partial goes; each only if the process lives on. */
  lemma PublicationIsInOrder(d: Disk, state: State, q: Request, left: nat)
    requires d.partial.Some?
    ensures var f := Publish(d, state, q, left);
            var vouched := state.(digests := [], published := Some(d.partial.value.Identity()));
            var free := q.raced.None?;
            && (q.readings.stopped(Around, 1) ==> f == Flow(d, state, left, Some(Stopped)))
            && (!q.readings.stopped(Around, 1) && left == 0 ==> f.disk == d && f.stop == Some(Killed))
            && (!q.readings.stopped(Around, 1) && left > 0 ==>
                  && f.disk.saved == Some(vouched) && f.state == vouched
                  && (q.readings.stopped(Around, 2) ==> f.stop == Some(Stopped) && f.disk == d.(saved := f.disk.saved))
                  && (!q.readings.stopped(Around, 2) && !free ==>
                        f.stop == Some(Failed(TargetExists)) && f.disk.partial == d.partial && f.disk.target.Some?
                        && f.disk.target.value.content == q.raced.value)
                  && (!q.readings.stopped(Around, 2) && free ==>
                        && f.disk.target == (if left >= 2 then d.partial else d.target)
                        && f.disk.partial == (if left >= 3 then None else d.partial)
                        && f.stop == Some(if left >= 3 then Done(q.fp.size) else Killed)))
  {
  }

  // ---- the beginning -----------------------------------------------------------------------

  /** What a call that lives long enough meets at the path decides how it begins. */
  lemma CallsBegin(d: Disk, q: Request)
    requires q.life >= 4 && !q.readings.stopped(Around, 0)
    ensures var a, old0 := Call(d, q), Checkpoint(d);
            var mine := old0.identity == Some(q.fp);
            && (d.target.Some? && mine && old0.published == Some(d.target.value.Identity()) ==>
                  a.outcome == Done(q.fp.size) && a.disk.partial.None? && a.disk.target == d.target)
            && (d.target.Some? && !(mine && old0.published == Some(d.target.value.Identity())) ==>
                  a.outcome == Failed(TargetExists) && Content(a.disk) == Content(d) && a.disk.saved == d.saved)
            && (d.target.None? && old0.identity.Some? && !mine && Content(d) != [] ==>
                  a.outcome == Failed(OtherProgress) && Content(a.disk) == Content(d) && a.disk.saved == d.saved)
            && (d.target.None? && (old0.identity.None? || mine || Content(d) == []) ==>
                  a.outcome != Failed(OtherProgress) && Checkpoint(a.disk).identity == Some(q.fp))
  {
    hide Fetch;
    var e := if d.partial.None? then d.(partial := Some(Created(d, [])), clock := d.clock + 1) else d;
    var g := if Resumes(e, q.fp) then e else Rewritten(e, []);
    var state := if Resumes(e, q.fp) then Checkpoint(d) else State(Some(q.fp), [], None);
    var left := if d.partial.None? then q.life - 1 else q.life;
    var rest := if Resumes(e, q.fp) then left else left - 1;
    if d.target.None? {
      FetchKeepsIdentity(g.(saved := Some(state)), state, q, rest - 1);
    }
  }

  /** A fetched file goes on to verification and publication; a part of it is deferred with its length. */
  lemma FetchesGoOn(d: Disk, state: State, q: Request, left: nat)
    requires d.partial.Some? && |Content(d)| <= q.fp.size
    ensures var r := if |Content(d)| < q.fp.size then Receive(d, state, q, left) else Flow(d, state, left, None);
            var f := Fetch(d, state, q, left);
            && (r.stop.Some? ==> f == r)
            && (r.stop.None? && |Content(r.disk)| < q.fp.size ==> f == r.(stop := Some(Deferred(|Content(r.disk)|))))
            && (r.stop.None? && |Content(r.disk)| == q.fp.size ==>
                  var v := Verify(r.disk, r.state, q, r.left);
                  f == if v.stop.Some? then v else Publish(v.disk, v.state, q, v.left))
  {
    hide Receive, Verify, Publish;
  }

  /** The call goes on under the identity `fp`, on disk as in memory. */
  ghost predicate Keeps(f: Flow, fp: Fingerprint) {
    f.state.identity == Some(fp) && Checkpoint(f.disk).identity == Some(fp) && f.stop != Some(Failed(OtherProgress))
  }

  lemma VerifyAndPublishKeep(d: Disk, state: State, q: Request, left: nat)
    requires d.partial.Some? && |Content(d)| == q.fp.size && Keeps(Flow(d, state, left, None), q.fp)
    ensures Keeps(Verify(d, state, q, left), q.fp)
    ensures Verify(d, state, q, left).stop.None? ==> Verify(d, state, q, left).disk == d
    ensures Keeps(Publish(d, state, q, left), q.fp)
  {
    hide HashFrom;
    HashingContinues(Content(d), q, state.digests, 0, 0);
  }

  lemma FetchKeepsIdentity(d: Disk, state: State, q: Request, left: nat)
    requires d.partial.Some? && |Content(d)| <= q.fp.size && state.identity == Some(q.fp) && d.saved == Some(state)
    ensures Keeps(Fetch(d, state, q, left), q.fp)
  {
    hide Receive, Verify, Publish, Fetch;
    FetchesGoOn(d, state, q, left);
    var r := if |Content(d)| < q.fp.size then Receive(d, state, q, left) else Flow(d, state, left, None);
    if |Content(d)| < q.fp.size {
      ReceiveExtends(d, state, q, left);
    }
    if r.stop.None? && |Content(r.disk)| == q.fp.size {
      VerifyAndPublishKeep(r.disk, r.state, q, r.left);
      var v := Verify(r.disk, r.state, q, r.left);
      if v.stop.None? {
        VerifyAndPublishKeep(v.disk, v.state, q, v.left);
      }
    }
  }
}
