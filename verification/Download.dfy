/**
 Resumable range downloads: a private partial file, a checkpoint beside it, block digests that
 survive deferrals, and publication by a link that never overwrites. `Call` is one call of the
 downloader as a function of the disk, of what the server sends, of the clock, and of the number
 of durable steps the process lives. Nothing is assumed about the bytes the server sends.
 */
module RangeDownload {
  import opened Prelude

  type Byte = b: int | 0 <= b < 256
  type Bytes = seq<Byte>

  /** Hashes are kept symbolic. */
  datatype Digest = Sha1(content: Bytes)
  datatype Gcid = Gcid(blocks: seq<Digest>)

  datatype Fingerprint = Fingerprint(identity: nat, size: nat, hash: Option<Gcid>)

  /** Inode, size and modification time. */
  datatype FileIdentity = FileIdentity(inode: nat, size: nat, mtime: nat)

  datatype File = File(inode: nat, mtime: nat, content: Bytes)
  {
    function Identity(): FileIdentity {
      FileIdentity(inode, |content|, mtime)
    }
  }

  datatype State = State(identity: Option<Fingerprint>, digests: seq<Digest>, published: Option<FileIdentity>)

  const NO_STATE := State(None, [], None)

  // ---- block digests -----------------------------------------------------------------------

  const KIB: nat := 1024

  function BlockSize(size: nat): (b: nat)
    ensures b > 0
  {
    if size <= 128 * KIB * KIB then 256 * KIB
    else if size <= 256 * KIB * KIB then 512 * KIB
    else if size <= 512 * KIB * KIB then 1024 * KIB
    else 2048 * KIB
  }

  /** A multiple of 256 KiB by a power of two: the least with at most 512 blocks, but never above 2 MiB. */
  predicate RightBlock(block: nat, size: nat) {
    && (block == 256 * 1024 || block == 512 * 1024 || block == 1024 * 1024 || block == 2048 * 1024)
    && (size <= 512 * block || block == 2048 * 1024)
    && (block > 256 * 1024 ==> size > 512 * (block / 2))
  }

  method ChooseBlock(size: nat) returns (block: nat)
    ensures RightBlock(block, size) && block == BlockSize(size)
  {
    block := 256 * KIB;
    while size > block * 512 && block < 2048 * KIB
      invariant block == 256 * KIB || (block == 512 * KIB && size > 128 * KIB * KIB)
                || (block == 1024 * KIB && size > 256 * KIB * KIB) || (block == 2048 * KIB && size > 512 * KIB * KIB)
      decreases 2048 * KIB - block
    {
      block := block * 2;
    }
  }

  /** Number of blocks of a file: the last one may be short. */
  function Blocks(size: nat, b: nat): nat
    requires b > 0
  {
    if size == 0 then 0 else if size <= b then 1 else 1 + Blocks(size - b, b)
  }

  /** Where block `j` starts in a file of this size. */
  function Start(j: nat, b: nat, size: nat): (p: nat)
    ensures p <= size
  {
    Min(j * b, size)
  }

  lemma StartsGrow(j: nat, b: nat, size: nat)
    ensures Start(j, b, size) <= Start(j + 1, b, size)
    ensures Start(j + 1, b, size) == Min(Start(j, b, size) + b, size)
  {
    assert (j + 1) * b == j * b + b;
  }

  /** The digest of block `j` of the first `size` bytes. */
  function BlockDigest(content: Bytes, size: nat, b: nat, j: nat): Digest
    requires Start(j + 1, b, size) <= |content|
  {
    StartsGrow(j, b, size);
    Sha1(content[Start(j, b, size)..Start(j + 1, b, size)])
  }

  /** The digests of all blocks from block `j` on. */
  function Tail(content: Bytes, b: nat, j: nat): seq<Digest>
    requires b > 0
    decreases |content| - Start(j, b, |content|)
  {
    StartsGrow(j, b, |content|);
    if j * b >= |content| then [] else [BlockDigest(content, |content|, b, j)] + Tail(content, b, j + 1)
  }

  /** The one-shot hash of a whole file. */
  function OneShot(content: Bytes): Gcid {
    Gcid(Tail(content, BlockSize(|content|), 0))
  }

  // ---- what a call meets -------------------------------------------------------------------

  /** A piece of a body as it is read; pieces are never empty. */
  type Piece = p: Bytes | p != [] witness [0]

  /** The reply after redirects. */
  datatype Reply = Reply(status: nat, plain: bool, range: Option<(nat, nat, nat)>, body: seq<Piece>)

  datatype Phase = Around | Receiving | Verifying

  /** Readings of the clock against the deadline, and of the cancellation probe. */
  datatype Readings = Readings(late: (Phase, nat) -> bool, stopped: (Phase, nat) -> bool)

  datatype DownloadError =
    | TargetExists | OtherProgress | Encoding | RangeMismatch | RangeUnsupported | HttpStatus | TooLong | Incomplete
    | HashMismatch

  datatype Outcome = Done(size: nat) | Deferred(count: nat) | Failed(error: DownloadError) | Stopped | Killed

  /**
   One call: `raced` is a file somebody else puts at the target between the check and the link,
   `life` the number of durable steps the process lives.
   */
  datatype Request = Request(
    fp: Fingerprint, chunk: nat, reply: Reply, raced: Option<Bytes>, readings: Readings, life: nat)

  // ---- the disk ----------------------------------------------------------------------------

  /** `clock` is the next unused inode number and time stamp. */
  datatype Disk = Disk(partial: Option<File>, target: Option<File>, saved: Option<State>, clock: nat)

  const EMPTY := Disk(None, None, None, 0)

  function Checkpoint(d: Disk): State {
    if d.saved.Some? then d.saved.value else NO_STATE
  }

  function Content(d: Disk): Bytes {
    if d.partial.Some? then d.partial.value.content else []
  }

  function Rewritten(d: Disk, content: Bytes): Disk
    requires d.partial.Some?
  {
    d.(partial := Some(d.partial.value.(mtime := d.clock, content := content)), clock := d.clock + 1)
  }

  function Created(d: Disk, content: Bytes): File {
    File(d.clock, d.clock, content)
  }

  // ---- receiving ---------------------------------------------------------------------------

  /** Where a phase of the call leaves the disk, the state in memory and the process. */
  datatype Flow = Flow(disk: Disk, state: State, left: nat, stop: Option<Outcome>)

  /** Write piece after piece, never past what the reply announced. */
  function Pump(d: Disk, state: State, q: Request, i: nat, end: nat, left: nat): (f: Flow)
    requires d.partial.Some? && i <= |q.reply.body| && |Content(d)| <= end
    ensures f.disk.partial.Some? && f.disk.target == d.target && f.disk.saved == d.saved && f.state == state
    ensures |Content(f.disk)| <= end
    decreases |q.reply.body| - i
  {
    if i == |q.reply.body| then
      Flow(d, state, left, if |Content(d)| != end then Some(Failed(Incomplete)) else None)
    else
      var written := |Content(d)| + |q.reply.body[i]|;
      if q.readings.stopped(Receiving, i) then Flow(d, state, left, Some(Stopped))
      else if written > end then Flow(d, state, left, Some(Failed(TooLong)))
      else if left == 0 then Flow(d, state, left, Some(Killed))
      else
        var e := Rewritten(d, Content(d) + q.reply.body[i]);
        if q.chunk > 0 && written < q.fp.size && q.readings.late(Receiving, i)
        then Flow(e, state, left - 1, Some(Deferred(written)))
        else Pump(e, state, q, i + 1, end, left - 1)
  }

  function LastByte(q: Request, start: nat): int {
    if q.chunk > 0 then Min(q.fp.size, start + q.chunk) - 1 else q.fp.size - 1
  }

  predicate RangeFits(q: Request, start: nat) {
    && q.reply.range.Some? && q.reply.range.value.0 == start
    && start <= q.reply.range.value.1 <= LastByte(q, start) && q.reply.range.value.2 == q.fp.size
  }

  /** A 200 reply to a resumed download: the range was ignored and the partial starts over. */
  predicate Restarts(q: Request, start: nat) {
    q.reply.plain && q.reply.status == 200 && start > 0
  }

  function Receive(d: Disk, state: State, q: Request, left: nat): (f: Flow)
    requires d.partial.Some? && |Content(d)| < q.fp.size
    ensures f.disk.partial.Some? && f.disk.target == d.target && f.disk.saved == d.saved
    ensures |Content(f.disk)| <= q.fp.size
  {
    var start := |Content(d)|;
    if !q.reply.plain then Flow(d, state, left, Some(Failed(Encoding)))
    else if q.reply.status == 206 then
      if !RangeFits(q, start) then Flow(d, state, left, Some(Failed(RangeMismatch)))
      else Pump(d, state, q, 0, q.reply.range.value.1 + 1, left)
    else if q.reply.status == 200 then
      if start > 0 && left == 0 then Flow(d, state, left, Some(Killed))
      else
        var e := if start > 0 then Rewritten(d, []) else d;
        var next := if start > 0 then state.(digests := []) else state;
        var rest := if start > 0 then left - 1 else left;
        if q.chunk > 0 && q.fp.size > q.chunk then Flow(e, next, rest, Some(Failed(RangeUnsupported)))
        else Pump(e, next, q, 0, q.fp.size, rest)
    else Flow(d, state, left, Some(Failed(HttpStatus)))
  }

  // ---- verifying ---------------------------------------------------------------------------

  datatype Hashed = Hashed(digests: seq<Digest>, stop: Option<Outcome>)

  /** Hash block after block, starting behind the digests that are there already. */
  function HashFrom(content: Bytes, q: Request, digests: seq<Digest>, checked: nat, looks: nat): Hashed
    requires |content| == q.fp.size
    decreases q.fp.size - Start(|digests|, BlockSize(q.fp.size), q.fp.size)
  {
    var size, b := q.fp.size, BlockSize(q.fp.size);
    StartsGrow(|digests|, b, size);
    var position := Start(|digests|, b, size);
    if position >= size then Hashed(digests, None)
    else if q.readings.stopped(Verifying, looks) then Hashed(digests, Some(Stopped))
    else
      var piece := content[position..Min(position + b, size)];
      var more := digests + [Sha1(piece)];
      if position + |piece| < size && q.chunk > 0 && (checked + |piece| >= q.chunk || q.readings.late(Verifying, looks))
      then Hashed(more, Some(Deferred(size)))
      else HashFrom(content, q, more, checked + |piece|, looks + 1)
  }

  function Verify(d: Disk, state: State, q: Request, left: nat): (f: Flow)
    requires d.partial.Some? && |Content(d)| == q.fp.size
    ensures f.disk.partial.Some? && f.disk.target == d.target && f.disk.saved == d.saved
  {
    if q.fp.hash.None? then Flow(d, state, left, None)
    else
      var h := HashFrom(Content(d), q, state.digests, 0, 0);
      var next := state.(digests := h.digests);
      if h.stop.Some? then Flow(d, next, left, h.stop)
      else if Gcid(h.digests) == q.fp.hash.value then Flow(d, next, left, None)
      else if left == 0 then Flow(d, next, left, Some(Killed))
      else Flow(Rewritten(d, []), next.(digests := []), left - 1, Some(Failed(HashMismatch)))
  }

  // ---- publishing --------------------------------------------------------------------------

  /** Record the identity, link, then drop the partial; the link fails where a file exists. */
  function Publish(d: Disk, state: State, q: Request, left: nat): (f: Flow)
    requires d.partial.Some?
    ensures f.stop.Some?
  {
    var next := state.(digests := [], published := Some(d.partial.value.Identity()));
    if q.readings.stopped(Around, 1) then Flow(d, state, left, Some(Stopped))
    else if left == 0 then Flow(d, next, left, Some(Killed))
    else
      var recorded := d.(saved := Some(next));
      if q.readings.stopped(Around, 2) then Flow(recorded, next, left - 1, Some(Stopped))
      else if q.raced.Some? then
        var taken := recorded.(target := Some(Created(d, q.raced.value)), clock := d.clock + 1);
        Flow(taken, next, left - 1, Some(Failed(TargetExists)))
      else if left == 1 then Flow(recorded, next, 0, Some(Killed))
      else if left == 2 then Flow(recorded.(target := d.partial), next, 0, Some(Killed))
      else Flow(recorded.(target := d.partial, partial := None), next, left - 3, Some(Done(q.fp.size)))
  }

  // ---- one call ----------------------------------------------------------------------------

  function Fetch(d: Disk, state: State, q: Request, left: nat): (f: Flow)
    requires d.partial.Some? && |Content(d)| <= q.fp.size
    ensures f.stop.Some?
  {
    var r := if |Content(d)| < q.fp.size then Receive(d, state, q, left) else Flow(d, state, left, None);
    if r.stop.Some? then r
    else if |Content(r.disk)| < q.fp.size then r.(stop := Some(Deferred(|Content(r.disk)|)))
    else
      var v := Verify(r.disk, r.state, q, r.left);
      if v.stop.Some? then v else Publish(v.disk, v.state, q, v.left)
  }

  /** The partial and the digests the transfer begins with; anything else at the path starts over. */
  predicate Resumes(d: Disk, fp: Fingerprint) {
    Checkpoint(d).identity == Some(fp) && |Content(d)| <= fp.size
  }

  datatype After = After(disk: Disk, outcome: Outcome)

  /** The work of a call whose partial exists and whose target does not. */
  function Transfer(d: Disk, q: Request, left: nat): After
    requires d.partial.Some?
  {
    var old0 := Checkpoint(d);
    if !Resumes(d, q.fp) && old0.identity.Some? && old0.identity != Some(q.fp) && Content(d) != [] then
      After(d, Failed(OtherProgress))
    else if !Resumes(d, q.fp) && left == 0 then After(d, Killed)
    else
      var e := if Resumes(d, q.fp) then d else Rewritten(d, []);
      var state := if Resumes(d, q.fp) then old0 else State(Some(q.fp), [], None);
      var rest := if Resumes(d, q.fp) then left else left - 1;
      if rest == 0 then After(e, Killed)
      else
        var f := Fetch(e.(saved := Some(state)), state, q, rest - 1);
        if f.stop.value.Killed? || f.disk.partial.None? then After(f.disk, f.stop.value)
        else if f.left == 0 then After(f.disk, Killed)
        else After(f.disk.(saved := Some(f.state)), f.stop.value)
  }

  function Call(d: Disk, q: Request): After {
    if d.partial.None? && q.life == 0 then After(d, Killed)
    else
      var e := if d.partial.None? then d.(partial := Some(Created(d, [])), clock := d.clock + 1) else d;
      var left := if d.partial.None? then q.life - 1 else q.life;
      if q.readings.stopped(Around, 0) then After(e, Stopped)
      else if e.target.Some? then
        if Checkpoint(d).identity != Some(q.fp) || Checkpoint(d).published != Some(e.target.value.Identity()) then
          After(e, Failed(TargetExists))
        else if left == 0 then After(e, Killed)
        else After(e.(partial := None), Done(q.fp.size))
      else Transfer(e, q, left)
  }

  function Calls(d: Disk, qs: seq<Request>): Disk {
    if qs == [] then d else Call(Calls(d, qs[..|qs| - 1]), qs[|qs| - 1]).disk
  }
}
