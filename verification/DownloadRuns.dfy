/**
 Downloads over many calls: a history in which a kill makes a later call publish a wrong file, what
 every history without such a kill guarantees, bounded deferrals, and servers that keep their word.
 */
module DownloadRuns {
  import opened Prelude
  import opened RangeDownload
  import opened DownloadSafety

  // ---- a kill at the wrong moment ----------------------------------------------------------

  const SIZE: nat := 512 * KIB

  function Zeros(n: nat): Bytes {
    seq(n, _ => 0)
  }

  /** Two blocks of zeros, and the same with a corrupt last byte. */
  function Genuine(): Bytes {
    Zeros(SIZE)
  }

  function Corrupt(): Bytes {
    Zeros(SIZE - 1) + [1]
  }

  function Expected(): Fingerprint {
    Fingerprint(0, SIZE, Some(OneShot(Genuine())))
  }

  /** The first call gets the corrupt file and defers after hashing its first, genuine block. */
  function FirstCall(): Request {
    Request(Expected(), SIZE, Reply(206, true, Some((0, SIZE - 1, SIZE)), [Corrupt()]), None,
            Readings((phase: Phase, _) => phase.Verifying?, (_, _) => false), 6)
  }

  /** The second call finds the mismatch, empties the partial and dies before the checkpoint. */
  function SecondCall(): Request {
    Request(Expected(), 0, Reply(206, true, None, []), None, Readings((_, _) => false, (_, _) => false), 2)
  }

  lemma FirstBlocksAgree()
    ensures |Genuine()| == |Corrupt()| == SIZE && BlockSize(SIZE) == SIZE / 2
    ensures Corrupt()[..SIZE / 2] == Genuine()[..SIZE / 2] && Corrupt()[SIZE / 2..] != Genuine()[SIZE / 2..]
  {
    assert Corrupt()[SIZE / 2..][SIZE / 2 - 1] == 1 && Genuine()[SIZE / 2..][SIZE / 2 - 1] == 0;
  }

  function FirstDigest(): Digest {
    FirstBlocksAgree();
    Sha1(Genuine()[..SIZE / 2])
  }

  /** A file of two whole blocks. */
  lemma TwoBlocks(content: Bytes, b: nat)
    requires b > 0 && |content| == 2 * b
    ensures Tail(content, b, 1) == [Sha1(content[b..])]
    ensures Tail(content, b, 0) == [Sha1(content[..b])] + Tail(content, b, 1) == [Sha1(content[..b]), Sha1(content[b..])]
  {
    assert Start(0, b, |content|) == 0 && Start(1, b, |content|) == b && Start(2, b, |content|) == 2 * b;
    assert Tail(content, b, 2) == [];
    assert content[b..2 * b] == content[b..] && content[0..b] == content[..b];
    assert Tail(content, b, 1) == [BlockDigest(content, |content|, b, 1)];
  }

  lemma HashOfGenuine()
    ensures var b := SIZE / 2;
            && [FirstDigest()] + Tail(Genuine(), b, 1) == Tail(Genuine(), b, 0)
            && Tail(Genuine(), b, 1) == [Sha1(Genuine()[b..])]
            && OneShot(Genuine()) == Gcid([FirstDigest(), Sha1(Genuine()[b..])])
  {
    hide Genuine, Tail;
    FirstBlocksAgree();
    TwoBlocks(Genuine(), SIZE / 2);
  }

  lemma FirstCallDefers()
    ensures var d := Call(EMPTY, FirstCall()).disk;
            && d.partial.Some? && Content(d) == Corrupt() && d.target.None?
            && d.saved == Some(State(Some(Expected()), [FirstDigest()], None))
  {
    hide Genuine, Corrupt, OneShot, Tail;
    FirstBlocksAgree();
    var q, state := FirstCall(), State(Some(Expected()), [], None);
    var e := Disk(Some(File(0, 1, [])), None, Some(state), 2);
    var f := Rewritten(e, [] + Corrupt());
    assert [] + Corrupt() == Corrupt();
    assert Pump(f, state, q, 1, SIZE, 2) == Flow(f, state, 2, None);
    assert Receive(e, state, q, 3) == Flow(f, state, 2, None);
    assert HashFrom(Corrupt(), q, [], 0, 0) == Hashed([FirstDigest()], Some(Deferred(SIZE)));
  }

  lemma SecondCallForgets(d: Disk)
    requires d.partial.Some? && Content(d) == Corrupt() && d.target.None?
    requires d.saved == Some(State(Some(Expected()), [FirstDigest()], None))
    ensures var t := Call(d, SecondCall()).disk;
            t.partial.Some? && Content(t) == [] && t.target.None? && t.saved == d.saved
  {
    hide Genuine, Corrupt, Tail;
    FirstBlocksAgree();
    var q, state, b := SecondCall(), d.saved.value, SIZE / 2;
    HashingContinues(Corrupt(), q, [FirstDigest()], 0, 0);
    TailUnfolds(Corrupt(), b, 1, [FirstDigest()]);
    HashOfGenuine();
    var h := HashFrom(Corrupt(), q, [FirstDigest()], 0, 0);
    assert h.stop.None? && h.digests[1] == Sha1(Corrupt()[b..]);
    assert Gcid(h.digests) != OneShot(Genuine());
  }

  /**
   Two calls from an empty disk, the second killed between emptying the partial and saving the
   checkpoint, leave a disk from which a third call publishes a file of another hash.
   */
  lemma KilledResetCanPublishWrongFile() returns (third: Request)
    ensures var d := Calls(EMPTY, [FirstCall(), SecondCall()]);
            third.fp == Expected() && !OwnDigests(d, Expected()) && PublishesWrong(d, third)
  {
    hide Call, Genuine, Corrupt, Tail, DigestsOf;
    FirstBlocksAgree();
    FirstCallDefers();
    var d1 := Call(EMPTY, FirstCall()).disk;
    SecondCallForgets(d1);
    var d := Call(d1, SecondCall()).disk;
    TwoCalls(EMPTY, FirstCall(), SecondCall());
    HashOfGenuine();
    assert Passes(d, Expected(), Genuine());
    StaleDigest(FirstDigest());
    WrongPublicationExactly(d, Expected());
    third :| third.fp == Expected() && PublishesWrong(d, third);
  }

  lemma StaleDigest(digest: Digest)
    ensures !DigestsOf([digest], [], SIZE, SIZE / 2)
  {
    assert !DigestOf([digest][0], [], SIZE, SIZE / 2, 0);
  }

  lemma TwoCalls(d: Disk, q: Request, r: Request)
    ensures Calls(d, [q, r]) == Call(Call(d, q).disk, r).disk
  {
    assert [q, r][..1] == [q] && [q][..0] == [];
    assert Calls(d, []) == d;
    assert Calls(d, [q]) == Call(d, q).disk;
  }

  // ---- histories without such a kill -------------------------------------------------------

  ghost predicate Good(fp: Fingerprint, content: Bytes) {
    |content| == fp.size && (fp.hash.Some? ==> OneShot(content) == fp.hash.value)
  }

  /** Whatever file has this identity is good. */
  ghost predicate Vouched(d: Disk, fp: Fingerprint, id: FileIdentity) {
    && id.mtime < d.clock
    && (d.partial.Some? && d.partial.value.Identity() == id ==> Good(fp, d.partial.value.content))
    && (d.target.Some? && d.target.value.Identity() == id ==> Good(fp, d.target.value.content))
  }

  ghost predicate StateVouched(d: Disk, state: State) {
    state.identity.Some? && state.published.Some? ==> Vouched(d, state.identity.value, state.published.value)
  }

  /** Time stamps are in the past, and the checkpoint vouches only for good files. */
  ghost predicate Sound(d: Disk) {
    && (d.partial.Some? ==> d.partial.value.mtime < d.clock)
    && (d.target.Some? ==> d.target.value.mtime < d.clock)
    && StateVouched(d, Checkpoint(d))
  }

  lemma PublishIsSound(d: Disk, state: State, q: Request, left: nat)
    requires d.partial.Some? && d.target.None? && Sound(d) && StateVouched(d, state) && state.identity == Some(q.fp)
    requires Good(q.fp, Content(d))
    ensures var f := Publish(d, state, q, left);
            && Sound(f.disk) && (f.disk.partial.Some? && !f.stop.value.Killed? ==> StateVouched(f.disk, f.state))
            && (f.stop.value.Done? ==> f.disk.target.Some? && Good(q.fp, f.disk.target.value.content))
  {
    hide Good;
  }

  /** Replacing the bytes of the partial, with a new time stamp, takes no vouched file away. */
  lemma RewritingIsSound(d: Disk, e: Disk, state: State)
    requires Sound(d) && StateVouched(d, state) && e.target == d.target && e.saved == d.saved && d.clock <= e.clock
    requires e.partial == d.partial || (e.partial.Some? && d.clock <= e.partial.value.mtime < e.clock)
    ensures Sound(e) && StateVouched(e, state)
  {
    hide Good;
  }

  lemma VerifyIsSound(d: Disk, state: State, q: Request, left: nat)
    requires d.partial.Some? && |Content(d)| == q.fp.size && Sound(d) && StateVouched(d, state)
    ensures var f := Verify(d, state, q, left); Sound(f.disk) && StateVouched(f.disk, f.state)
    ensures var f := Verify(d, state, q, left); f.stop.Some? ==> !f.stop.value.Done?
  {
    hide HashFrom, Good, Tail;
    HashingContinues(Content(d), q, state.digests, 0, 0);
    RewritingIsSound(d, Rewritten(d, []), state);
  }

  lemma FetchIsSound(d: Disk, state: State, q: Request, left: nat)
    requires d.partial.Some? && |Content(d)| <= q.fp.size && d.target.None? && d.saved == Some(state)
    requires Sound(d) && state.identity == Some(q.fp)
    requires DigestsOf(state.digests, Content(d), q.fp.size, BlockSize(q.fp.size))
    ensures var f := Fetch(d, state, q, left);
            && Sound(f.disk) && (f.disk.partial.Some? && !f.stop.value.Killed? ==> StateVouched(f.disk, f.state))
            && (f.stop.value.Done? ==> f.disk.target.Some? && Good(q.fp, f.disk.target.value.content))
  {
    hide Receive, Verify, Publish, DigestsOf, BlockSize, Good, Vouched;
    var r := if |Content(d)| < q.fp.size then Receive(d, state, q, left) else Flow(d, state, left, None);
    if |Content(d)| < q.fp.size {
      ReceiveExtends(d, state, q, left);
    }
    RewritingIsSound(d, r.disk, state);
    if r.stop.None? && |Content(r.disk)| == q.fp.size {
      VerifyIsSound(r.disk, r.state, q, r.left);
      VerifiedIsGood(d, state, q, left, r);
      var v := Verify(r.disk, r.state, q, r.left);
      if v.stop.None? {
        VerifyPasses(r.disk, r.state, q, r.left);
        PublishIsSound(v.disk, v.state, q, v.left);
      }
    }
  }

  lemma VerifiedIsGood(d: Disk, state: State, q: Request, left: nat, r: Flow)
    requires d.partial.Some? && |Content(d)| <= q.fp.size
    requires DigestsOf(state.digests, Content(d), q.fp.size, BlockSize(q.fp.size))
    requires r == if |Content(d)| < q.fp.size then Receive(d, state, q, left) else Flow(d, state, left, None)
    requires r.stop.None? && |Content(r.disk)| == q.fp.size
    ensures Verify(r.disk, r.state, q, r.left).stop.None? ==> Good(q.fp, Content(r.disk))
  {
    hide Receive, HashFrom, DigestsOf, BlockSize, Tail, Verify;
    var b, content := BlockSize(q.fp.size), Content(r.disk);
    VerifyPasses(r.disk, r.state, q, r.left);
    NoDigestsAreOwn(content, q.fp.size, b);
    if |Content(d)| < q.fp.size {
      ReceiveExtends(d, state, q, left);
    }
    if r.state.digests != [] {
      DigestsOfLonger(state.digests, Content(d), content, q.fp.size, b);
    }
    ContinuedIsOneShotExactly(r.state.digests, content, b);
  }

  /** A call that begins with its own digests reports success only with a good file at the target. */
  lemma CallIsSound(d: Disk, q: Request)
    requires Sound(d) && OwnDigests(d, q.fp)
    ensures var a := Call(d, q);
            && Sound(a.disk)
            && (a.outcome.Done? ==> a.disk.target.Some? && Good(q.fp, a.disk.target.value.content))
  {
    hide Fetch, DigestsOf, BlockSize, Good;
    var e := if d.partial.None? then d.(partial := Some(Created(d, [])), clock := d.clock + 1) else d;
    var g := if Resumes(e, q.fp) then e else Rewritten(e, []);
    var state := if Resumes(e, q.fp) then Checkpoint(d) else State(Some(q.fp), [], None);
    var left := if d.partial.None? then q.life - 1 else q.life;
    var rest := if Resumes(e, q.fp) then left else left - 1;
    NoDigestsAreOwn([], q.fp.size, BlockSize(q.fp.size));
    if d.target.None? && rest > 0 {
      RewritingIsSound(d, g, Checkpoint(d));
      FetchIsSound(g.(saved := Some(state)), state, q, rest - 1);
    }
  }

  /**
   In every history from an empty disk whose calls begin with digests of their own partial, each
   call that reports success has a complete file of the expected hash at its target.
   */
  lemma {:induction false} SuccessMeansMatching(qs: seq<Request>, q: Request)
    requires forall k :: 0 <= k < |qs| ==> OwnDigests(Calls(EMPTY, qs[..k]), qs[k].fp)
    requires OwnDigests(Calls(EMPTY, qs), q.fp)
    ensures var a := Call(Calls(EMPTY, qs), q);
            a.outcome.Done? ==> a.disk.target.Some? && Good(q.fp, a.disk.target.value.content)
  {
    hide Call, OwnDigests, Good;
    HistoryIsSound(qs);
    CallIsSound(Calls(EMPTY, qs), q);
  }

  lemma {:induction false} HistoryIsSound(qs: seq<Request>)
    requires forall k :: 0 <= k < |qs| ==> OwnDigests(Calls(EMPTY, qs[..k]), qs[k].fp)
    ensures Sound(Calls(EMPTY, qs))
  {
    hide Call, OwnDigests, Good;
    if qs != [] {
      var before := qs[..|qs| - 1];
      forall k | 0 <= k < |before| ensures OwnDigests(Calls(EMPTY, before[..k]), before[k].fp) {
        assert before[..k] == qs[..k];
      }
      HistoryIsSound(before);
      CallIsSound(Calls(EMPTY, before), qs[|qs| - 1]);
    }
  }

  /** Without kills every call begins with digests of its own partial. */
  lemma {:induction false} OnlyKillsSpoilDigests(qs: seq<Request>, fp: Fingerprint)
    requires forall k :: 0 <= k < |qs| ==> !Call(Calls(EMPTY, qs[..k]), qs[k]).outcome.Killed?
    ensures OwnDigests(Calls(EMPTY, qs), fp)
    decreases |qs|
  {
    hide Call, OwnDigests;
    if qs == [] {
      assert OwnDigests(EMPTY, fp) by { EmptyHasOwnDigests(fp); }
    } else {
      var before, q := qs[..|qs| - 1], qs[|qs| - 1];
      forall k | 0 <= k < |before| ensures !Call(Calls(EMPTY, before[..k]), before[k]).outcome.Killed? {
        assert before[..k] == qs[..k];
      }
      OnlyKillsSpoilDigests(before, fp);
      OnlyKillsSpoilDigests(before, q.fp);
      TargetsHaveNoDigests(before);
      CallsKeepOwnDigests(Calls(EMPTY, before), q, fp);
    }
  }

  /** When there is a target, the checkpoint has no digests left. */
  lemma {:induction false} TargetsHaveNoDigests(qs: seq<Request>)
    ensures Calls(EMPTY, qs).target.Some? ==> Checkpoint(Calls(EMPTY, qs)).digests == []
  {
    hide Call;
    if qs != [] {
      var d := Calls(EMPTY, qs[..|qs| - 1]);
      TargetsHaveNoDigests(qs[..|qs| - 1]);
      PublishingDropsDigests(d, qs[|qs| - 1]);
    }
  }

  lemma EmptyHasOwnDigests(fp: Fingerprint)
    ensures OwnDigests(EMPTY, fp)
  {
  }

  // ---- bounded deferrals -------------------------------------------------------------------

  /** Missing bytes and blocks not yet hashed, as far as a restart can tell. */
  ghost function Measure(d: Disk, fp: Fingerprint): int {
    var blocks := Blocks(fp.size, BlockSize(fp.size));
    if Resumes(d, fp) then fp.size - |Content(d)| + blocks - |Checkpoint(d).digests| else fp.size + blocks
  }

  ghost predicate AllFit(d: Disk) {
    Checkpoint(d).identity.Some? ==> Fits(Checkpoint(d).digests, Checkpoint(d).identity.value.size)
  }

  lemma VerifyGains(d: Disk, state: State, q: Request, left: nat)
    requires d.partial.Some? && |Content(d)| == q.fp.size && Fits(state.digests, q.fp.size)
    ensures var f := Verify(d, state, q, left);
            && Fits(f.state.digests, q.fp.size) && f.state.identity == state.identity
            && (f.stop.Some? && f.stop.value.Deferred? ==> f.disk == d && |f.state.digests| > |state.digests|)
  {
    hide HashFrom, BlockSize, Tail;
    HashingContinues(Content(d), q, state.digests, 0, 0);
    HashingKeeps(Content(d), q, state.digests, 0, 0);
  }

  /** What a deferred phase has gained over its beginning, and how many digests there can be. */
  lemma FetchGains(d: Disk, state: State, q: Request, left: nat)
    requires d.partial.Some? && |Content(d)| <= q.fp.size && d.target.None?
    requires d.saved == Some(state) && state.identity == Some(q.fp) && Fits(state.digests, q.fp.size)
    ensures var f := Fetch(d, state, q, left);
            && AllFit(f.disk) && Fits(f.state.digests, q.fp.size) && f.state.identity == Some(q.fp)
            && (f.stop.value.Deferred? ==> f.disk.partial.Some? && |Content(f.disk)| <= q.fp.size)
            && (f.stop.value.Deferred? && q.reply.status == 206 ==>
                  |Content(f.disk)| + |f.state.digests| > |Content(d)| + |state.digests|)
  {
    hide Receive, Verify, BlockSize, Fits;
    var r := if |Content(d)| < q.fp.size then Receive(d, state, q, left) else Flow(d, state, left, None);
    NoneFit(q.fp.size);
    if |Content(d)| < q.fp.size {
      ReceiveExtends(d, state, q, left);
    }
    if r.stop.None? && |Content(r.disk)| == q.fp.size {
      VerifyGains(r.disk, r.state, q, r.left);
    }
  }

  /**
   With a 206 reply (a Content-Range as in section 14.4 of RFC 9110) a call that defers has lowered
   the measure, whatever bytes the reply carried.
   */
  lemma DeferralsMakeProgress(d: Disk, q: Request)
    requires AllFit(d)
    ensures var a := Call(d, q);
            && AllFit(a.disk)
            && (a.outcome.Deferred? && q.reply.status == 206 ==> Measure(a.disk, q.fp) < Measure(d, q.fp))
  {
    hide Fetch, BlockSize, Fits, Blocks;
    var e := if d.partial.None? then d.(partial := Some(Created(d, [])), clock := d.clock + 1) else d;
    var g := if Resumes(e, q.fp) then e else Rewritten(e, []);
    var state := if Resumes(e, q.fp) then Checkpoint(d) else State(Some(q.fp), [], None);
    var left := if d.partial.None? then q.life - 1 else q.life;
    var rest := if Resumes(e, q.fp) then left else left - 1;
    NoneFit(q.fp.size);
    if d.target.None? && rest > 0 {
      FetchGains(g.(saved := Some(state)), state, q, rest - 1);
    }
  }

  lemma NoneFit(size: nat)
    ensures Fits([], size)
  {
  }

  lemma MeasureIsBounded(d: Disk, fp: Fingerprint)
    requires AllFit(d)
    ensures 0 <= Measure(d, fp) <= fp.size + Blocks(fp.size, BlockSize(fp.size))
  {
    if Resumes(d, fp) && Checkpoint(d).digests != [] {
      BlocksCover(fp.size, BlockSize(fp.size), |Checkpoint(d).digests|);
    }
  }

  lemma {:induction false} BlocksCover(size: nat, b: nat, n: nat)
    requires b > 0 && n > 0 && (n - 1) * b < size
    ensures n <= Blocks(size, b)
    decreases size
  {
    if n > 1 {
      assert (n - 1) * b == (n - 2) * b + b;
      assert (n - 2) * b >= 0;
      BlocksCover(size - b, b, n - 1);
    }
  }

  // ---- servers that keep their word --------------------------------------------------------

  function Offset(body: seq<Piece>, i: nat): nat
    requires i <= |body|
  {
    if i == 0 then 0 else Offset(body, i - 1) + |body[i - 1]|
  }

  /** The pieces are what the remote file holds from `from` on; the connection may end early. */
  ghost predicate Delivers(body: seq<Piece>, file: Bytes, from: nat) {
    forall i :: 0 <= i < |body| ==>
      var at := from + Offset(body, i);
      at + |body[i]| <= |file| && body[i] == file[at..at + |body[i]|]
  }

  ghost predicate Honest(reply: Reply, file: Bytes) {
    && (reply.status == 206 && reply.range.Some? ==> Delivers(reply.body, file, reply.range.value.0))
    && (reply.status == 200 ==> Delivers(reply.body, file, 0))
  }

  /** The partial is a prefix of the remote file, and the digests are those of its blocks. */
  ghost predicate FaithfulTo(fp: Fingerprint, content: Bytes, digests: seq<Digest>, file: Bytes) {
    content <= file && DigestsOf(digests, file, fp.size, BlockSize(fp.size))
  }

  ghost predicate Faithful(d: Disk, remote: nat -> Bytes) {
    Checkpoint(d).identity.Some? ==>
      var fp := Checkpoint(d).identity.value; FaithfulTo(fp, Content(d), Checkpoint(d).digests, remote(fp.identity))
  }

  lemma {:induction false} PumpIsFaithful(d: Disk, state: State, q: Request, i: nat, end: nat, left: nat, file: Bytes, from: nat)
    requires d.partial.Some? && i <= |q.reply.body| && |Content(d)| <= end
    requires Delivers(q.reply.body, file, from) && Content(d) <= file && |Content(d)| == from + Offset(q.reply.body, i)
    ensures Content(Pump(d, state, q, i, end, left).disk) <= file
    decreases |q.reply.body| - i
  {
    hide Delivers;
    if i < |q.reply.body| {
      var e := Rewritten(d, Content(d) + q.reply.body[i]);
      NextPiece(q.reply.body, file, from, i, Content(d));
      if |Content(e)| <= end {
        PumpIsFaithful(e, state, q, i + 1, end, if left > 0 then left - 1 else 0, file, from);
      }
    }
  }

  lemma NextPiece(body: seq<Piece>, file: Bytes, from: nat, i: nat, written: Bytes)
    requires Delivers(body, file, from) && i < |body| && written <= file && |written| == from + Offset(body, i)
    ensures written + body[i] <= file && |written + body[i]| == from + Offset(body, i + 1)
  {
    assert written == file[..|written|];
  }

  lemma ReceiveIsFaithful(d: Disk, state: State, q: Request, left: nat, file: Bytes)
    requires d.partial.Some? && |Content(d)| < q.fp.size && Content(d) <= file && Honest(q.reply, file)
    ensures Content(Receive(d, state, q, left).disk) <= file
  {
    hide Delivers;
    var start := |Content(d)|;
    if q.reply.plain && q.reply.status == 206 && RangeFits(q, start) {
      PumpIsFaithful(d, state, q, 0, q.reply.range.value.1 + 1, left, file, start);
    } else if q.reply.plain && q.reply.status == 200 {
      if start > 0 {
        PumpIsFaithful(Rewritten(d, []), state.(digests := []), q, 0, q.fp.size, if left > 0 then left - 1 else 0, file, 0);
      } else {
        PumpIsFaithful(d, state, q, 0, q.fp.size, left, file, 0);
      }
    }
  }

  lemma VerifyIsFaithful(d: Disk, state: State, q: Request, left: nat, file: Bytes)
    requires d.partial.Some? && |Content(d)| == q.fp.size && FaithfulTo(q.fp, Content(d), state.digests, file)
    ensures var f := Verify(d, state, q, left);
            && f.state.identity == state.identity && FaithfulTo(q.fp, Content(f.disk), f.state.digests, file)
            && Content(f.disk) <= Content(d)
            && FaithfulTo(q.fp, Content(f.disk), state.digests, file)
  {
    hide HashFrom, BlockSize, DigestsOf, Tail;
    NoDigestsAreOwn(file, q.fp.size, BlockSize(q.fp.size));
    HashingContinues(Content(d), q, state.digests, 0, 0);
    HashingIsFaithful(Content(d), q, state.digests, file);
  }

  lemma PublishIsFaithful(d: Disk, state: State, q: Request, left: nat, file: Bytes)
    requires d.partial.Some? && d.target.None? && state.identity == Some(q.fp) && Content(d) <= file
    requires Checkpoint(d).identity == Some(q.fp) && FaithfulTo(q.fp, Content(d), Checkpoint(d).digests, file)
    requires FaithfulTo(q.fp, Content(d), state.digests, file)
    ensures var f := Publish(d, state, q, left);
            && f.state.identity == Some(q.fp) && Checkpoint(f.disk).identity == Some(q.fp)
            && FaithfulTo(q.fp, Content(f.disk), f.state.digests, file)
            && FaithfulTo(q.fp, Content(f.disk), Checkpoint(f.disk).digests, file)
            && (f.disk.target.Some? && q.raced.None? ==> f.disk.target.value.content <= file)
  {
    hide BlockSize, DigestsOf;
    NoDigestsAreOwn(file, q.fp.size, BlockSize(q.fp.size));
  }

  lemma FetchIsFaithful(d: Disk, state: State, q: Request, left: nat, file: Bytes)
    requires d.partial.Some? && |Content(d)| <= q.fp.size && d.target.None? && d.saved == Some(state)
    requires state.identity == Some(q.fp) && Honest(q.reply, file) && FaithfulTo(q.fp, Content(d), state.digests, file)
    ensures var f := Fetch(d, state, q, left);
            && f.state.identity == Some(q.fp) && Checkpoint(f.disk).identity == Some(q.fp)
            && FaithfulTo(q.fp, Content(f.disk), f.state.digests, file)
            && FaithfulTo(q.fp, Content(f.disk), Checkpoint(f.disk).digests, file)
            && (f.disk.target.Some? && q.raced.None? ==> f.disk.target.value.content <= file)
  {
    hide Receive, Verify, Publish, BlockSize, DigestsOf, Honest;
    var r := if |Content(d)| < q.fp.size then Receive(d, state, q, left) else Flow(d, state, left, None);
    NoDigestsAreOwn(file, q.fp.size, BlockSize(q.fp.size));
    if |Content(d)| < q.fp.size {
      ReceiveExtends(d, state, q, left);
      ReceiveIsFaithful(d, state, q, left, file);
    }
    if r.stop.None? && |Content(r.disk)| == q.fp.size {
      VerifyIsFaithful(r.disk, r.state, q, r.left, file);
      PublishIsFaithful(Verify(r.disk, r.state, q, r.left).disk, Verify(r.disk, r.state, q, r.left).state, q,
                        Verify(r.disk, r.state, q, r.left).left, file);
    }
  }

  lemma HashingIsFaithful(content: Bytes, q: Request, digests: seq<Digest>, file: Bytes)
    requires |content| == q.fp.size && content <= file && DigestsOf(digests, file, q.fp.size, BlockSize(q.fp.size))
    ensures DigestsOf(HashFrom(content, q, digests, 0, 0).digests, file, q.fp.size, BlockSize(q.fp.size))
  {
    hide HashFrom, BlockSize;
    var b := BlockSize(q.fp.size);
    assert content == file[..q.fp.size];
    DigestsOfShorter(digests, content, file, q.fp.size, b);
    HashingKeeps(content, q, digests, 0, 0);
    DigestsOfLonger(HashFrom(content, q, digests, 0, 0).digests, content, file, q.fp.size, b);
  }

  lemma DigestsOfShorter(digests: seq<Digest>, content: Bytes, longer: Bytes, size: nat, b: nat)
    requires DigestsOf(digests, longer, size, b) && content <= longer && size <= |content|
    ensures DigestsOf(digests, content, size, b)
  {
    forall j | 0 <= j < |digests|
      ensures DigestOf(digests[j], content, size, b, j)
    {
      assert DigestOf(digests[j], longer, size, b, j);
      StartsGrow(j, b, size);
      assert content[Start(j, b, size)..Start(j + 1, b, size)] == longer[Start(j, b, size)..Start(j + 1, b, size)];
    }
  }

  lemma HonestCallIsSafe(d: Disk, q: Request, remote: nat -> Bytes)
    requires Faithful(d, remote) && Honest(q.reply, remote(q.fp.identity))
    ensures var t := Call(d, q).disk;
            && Faithful(t, remote)
            && (d.target.None? && t.target.Some? && q.raced.None? ==>
                  && t.target.value.content <= remote(q.fp.identity)
                  && (q.fp.hash.Some? ==> OneShot(t.target.value.content) == q.fp.hash.value))
  {
    hide Fetch, BlockSize, DigestsOf, Honest, OneShot;
    var e := if d.partial.None? then d.(partial := Some(Created(d, [])), clock := d.clock + 1) else d;
    var g := if Resumes(e, q.fp) then e else Rewritten(e, []);
    var state := if Resumes(e, q.fp) then Checkpoint(d) else State(Some(q.fp), [], None);
    var left := if d.partial.None? then q.life - 1 else q.life;
    var rest := if Resumes(e, q.fp) then left else left - 1;
    NoDigestsAreOwn(remote(q.fp.identity), q.fp.size, BlockSize(q.fp.size));
    if d.target.None? && rest > 0 {
      FetchIsFaithful(g.(saved := Some(state)), state, q, rest - 1, remote(q.fp.identity));
      if Call(d, q).disk.target.Some? && q.raced.None? && q.fp.hash.Some? {
        HonestPublicationMatches(d, q, remote(q.fp.identity));
      }
    }
  }

  lemma HonestPublicationMatches(d: Disk, q: Request, file: Bytes)
    requires d.target.None? && q.raced.None? && Call(d, q).disk.target.Some? && q.fp.hash.Some?
    requires Call(d, q).disk.target.value.content <= file && DigestsOf(Begins(d, q), file, q.fp.size, BlockSize(q.fp.size))
    ensures OneShot(Call(d, q).disk.target.value.content) == q.fp.hash.value
  {
    hide Call, Begins, OneShot, BlockSize;
    PublishedMatchesExactly(d, q);
    DigestsOfShorter(Begins(d, q), Call(d, q).disk.target.value.content, file, q.fp.size, BlockSize(q.fp.size));
  }

  /** The file this call puts at a free target: somebody else's, or the beginning of the remote file. */
  ghost predicate ComesFrom(content: Bytes, q: Request, remote: nat -> Bytes) {
    if q.raced.Some? then content == q.raced.value
    else
      && |content| == q.fp.size && content <= remote(q.fp.identity)
      && (q.fp.hash.Some? ==> OneShot(content) == q.fp.hash.value)
  }

  /**
   With servers that always send the same file for the same identity, over every history, kills
   included: the partial stays a prefix of the file of the checkpoint, and what stands at the target
   was put there by one of the calls, complete and with its hash, unless somebody else put it there.
   */
  lemma {:induction false} HonestServersAreSafe(qs: seq<Request>, remote: nat -> Bytes)
    requires forall k :: 0 <= k < |qs| ==> Honest(qs[k].reply, remote(qs[k].fp.identity))
    ensures var t := Calls(EMPTY, qs);
            && Faithful(t, remote)
            && (t.target.Some? ==> exists k :: 0 <= k < |qs| && ComesFrom(t.target.value.content, qs[k], remote))
  {
    hide Call, Honest, ComesFrom, Faithful;
    if qs == [] {
      assert Faithful(EMPTY, remote) by { EmptyIsFaithful(remote); }
    } else {
      var n := |qs| - 1;
      var d, q := Calls(EMPTY, qs[..n]), qs[n];
      HonestServersAreSafe(qs[..n], remote);
      HonestCallIsSafe(d, q, remote);
      if d.target.Some? {
        CallKeepsTarget(d, q);
      } else if Call(d, q).disk.target.Some? {
        PublicationComesFrom(d, q, remote);
      }
    }
  }

  lemma EmptyIsFaithful(remote: nat -> Bytes)
    ensures Faithful(EMPTY, remote)
  {
  }

  lemma PublicationComesFrom(d: Disk, q: Request, remote: nat -> Bytes)
    requires Faithful(d, remote) && Honest(q.reply, remote(q.fp.identity))
    requires d.target.None? && Call(d, q).disk.target.Some?
    ensures ComesFrom(Call(d, q).disk.target.value.content, q, remote)
  {
    hide Call, Honest, Faithful, Begins, BlockSize, Tail;
    HonestCallIsSafe(d, q, remote);
    CallPublishes(d, q);
  }
}
