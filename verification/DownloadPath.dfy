/** The downloader as the loops and file operations it is, tied to the functions of a call. */
module DownloadPath {
  import opened Prelude
  import opened RangeDownload
  import opened DownloadRuns

  /** One turn of the hashing loop. */
  lemma HashesOn(content: Bytes, q: Request, digests: seq<Digest>, checked: nat, looks: nat)
    requires |content| == q.fp.size
    ensures var size, b := q.fp.size, BlockSize(q.fp.size);
            var position := Start(|digests|, b, size);
            var piece := content[position..Min(position + b, size)];
            var more := digests + [Sha1(piece)];
            var late := position + |piece| < size && q.chunk > 0
                        && (checked + |piece| >= q.chunk || q.readings.late(Verifying, looks));
            && Start(|more|, b, size) == position + |piece|
            && HashFrom(content, q, digests, checked, looks) ==
               (if position >= size then Hashed(digests, None)
                else if q.readings.stopped(Verifying, looks) then Hashed(digests, Some(Stopped))
                else if late then Hashed(more, Some(Deferred(size)))
                else HashFrom(content, q, more, checked + |piece|, looks + 1))
  {
    hide BlockSize;
    StartsGrow(|digests|, BlockSize(q.fp.size), q.fp.size);
  }

  class DownloadPath {
    var partial: Option<File>
    var target: Option<File>
    var saved: Option<State>
    var clock: nat

    ghost function State(): Disk
      reads this
    {
      Disk(partial, target, saved, clock)
    }

    constructor ()
      ensures State() == EMPTY
    {
      partial, target, saved, clock := None, None, None, 0;
    }

    method Write(content: Bytes)
      requires partial.Some?
      modifies this`partial, this`clock
      ensures State() == Rewritten(old(State()), content)
    {
      partial, clock := Some(partial.value.(mtime := clock, content := content)), clock + 1;
    }

    // ---- receiving -------------------------------------------------------------------------

    method PumpBody(q: Request, end: nat, life: nat, ghost state: State) returns (stop: Option<Outcome>, left: nat)
      requires partial.Some? && |partial.value.content| <= end
      modifies this`partial, this`clock
      ensures Flow(State(), state, left, stop) == Pump(old(State()), state, q, 0, end, life)
    {
      left := life;
      ghost var whole := Pump(State(), state, q, 0, end, life);
      for i := 0 to |q.reply.body|
        invariant partial.Some? && |partial.value.content| <= end
        invariant Pump(State(), state, q, i, end, left) == whole
      {
        var piece := q.reply.body[i];
        var written := |partial.value.content| + |piece|;
        if q.readings.stopped(Receiving, i) {
          return Some(Stopped), left;
        }
        if written > end {
          return Some(Failed(TooLong)), left;
        }
        if left == 0 {
          return Some(Killed), left;
        }
        left := left - 1;
        Write(partial.value.content + piece);
        if q.chunk > 0 && written < q.fp.size && q.readings.late(Receiving, i) {
          return Some(Deferred(written)), left;
        }
      }
      stop := if |partial.value.content| != end then Some(Failed(Incomplete)) else None;
    }

    method ReceiveReply(q: Request, life: nat, state: State) returns (stop: Option<Outcome>, next: State, left: nat)
      requires partial.Some? && |partial.value.content| < q.fp.size
      modifies this`partial, this`clock
      ensures Flow(State(), next, left, stop) == Receive(old(State()), state, q, life)
    {
      next, left := state, life;
      var start := |partial.value.content|;
      if !q.reply.plain {
        return Some(Failed(Encoding)), next, left;
      }
      var end;
      if q.reply.status == 206 {
        if !RangeFits(q, start) {
          return Some(Failed(RangeMismatch)), next, left;
        }
        end := q.reply.range.value.1 + 1;
      } else if q.reply.status == 200 {
        if start > 0 {
          if left == 0 {
            return Some(Killed), next, left;
          }
          left := left - 1;
          Write([]);
          next := next.(digests := []);
        }
        if q.chunk > 0 && q.fp.size > q.chunk {
          return Some(Failed(RangeUnsupported)), next, left;
        }
        end := q.fp.size;
      } else {
        return Some(Failed(HttpStatus)), next, left;
      }
      stop, left := PumpBody(q, end, left, next);
    }

    // ---- verifying -------------------------------------------------------------------------

    static method HashBlocks(content: Bytes, q: Request, from: seq<Digest>) returns (digests: seq<Digest>, stop: Option<Outcome>)
      requires |content| == q.fp.size
      ensures Hashed(digests, stop) == HashFrom(content, q, from, 0, 0)
    {
      hide HashFrom, BlockSize;
      var block := ChooseBlock(q.fp.size);
      digests := from;
      var position := Min(|digests| * block, q.fp.size);
      var checked: nat, looks: nat := 0, 0;
      while position < q.fp.size
        invariant position == Start(|digests|, block, q.fp.size)
        invariant HashFrom(content, q, digests, checked, looks) == HashFrom(content, q, from, 0, 0)
        decreases q.fp.size - position
      {
        HashesOn(content, q, digests, checked, looks);
        if q.readings.stopped(Verifying, looks) {
          return digests, Some(Stopped);
        }
        var piece := content[position..Min(position + block, q.fp.size)];
        digests := digests + [Sha1(piece)];
        checked, position := checked + |piece|, position + |piece|;
        if position < q.fp.size && q.chunk > 0 && (checked >= q.chunk || q.readings.late(Verifying, looks)) {
          return digests, Some(Deferred(q.fp.size));
        }
        looks := looks + 1;
      }
      HashesOn(content, q, digests, checked, looks);
      stop := None;
    }

    method VerifyPartial(q: Request, life: nat, state: State) returns (stop: Option<Outcome>, next: State, left: nat)
      requires partial.Some? && |partial.value.content| == q.fp.size
      modifies this`partial, this`clock
      ensures Flow(State(), next, left, stop) == Verify(old(State()), state, q, life)
    {
      hide HashFrom;
      next, left := state, life;
      if q.fp.hash.None? {
        return None, next, left;
      }
      var digests;
      digests, stop := HashBlocks(partial.value.content, q, state.digests);
      next := next.(digests := digests);
      if stop.None? && Gcid(digests) != q.fp.hash.value {
        if left == 0 {
          return Some(Killed), next, left;
        }
        Write([]);
        next, left, stop := next.(digests := []), left - 1, Some(Failed(HashMismatch));
      }
    }

    // ---- publishing ------------------------------------------------------------------------

    method PublishPartial(q: Request, life: nat, state: State) returns (o: Outcome, next: State, left: nat)
      requires partial.Some?
      modifies this
      ensures Flow(State(), next, left, Some(o)) == Publish(old(State()), state, q, life)
    {
      next, left := state, life;
      if q.readings.stopped(Around, 1) {
        return Stopped, next, left;
      }
      next := next.(digests := [], published := Some(partial.value.Identity()));
      if left == 0 {
        return Killed, next, left;
      }
      saved, left := Some(next), left - 1;
      if q.readings.stopped(Around, 2) {
        return Stopped, next, left;
      }
      if q.raced.Some? {
        target, clock := Some(File(clock, clock, q.raced.value)), clock + 1;
        return Failed(TargetExists), next, left;
      }
      if left == 0 {
        return Killed, next, left;
      }
      target, left := partial, left - 1;
      if left == 0 {
        return Killed, next, left;
      }
      partial, left := None, left - 1;
      o := Done(q.fp.size);
    }

    // ---- one call --------------------------------------------------------------------------

    method FetchFile(q: Request, life: nat, state: State) returns (o: Outcome, next: State, left: nat)
      requires partial.Some? && |partial.value.content| <= q.fp.size
      modifies this
      ensures Flow(State(), next, left, Some(o)) == Fetch(old(State()), state, q, life)
    {
      hide Receive, Verify, Publish;
      next, left := state, life;
      var stop: Option<Outcome> := None;
      if |partial.value.content| < q.fp.size {
        stop, next, left := ReceiveReply(q, left, next);
      }
      if stop.Some? {
        return stop.value, next, left;
      }
      if |partial.value.content| < q.fp.size {
        return Deferred(|partial.value.content|), next, left;
      }
      stop, next, left := VerifyPartial(q, left, next);
      if stop.Some? {
        return stop.value, next, left;
      }
      o, next, left := PublishPartial(q, left, next);
    }

    /**
     One call of stream_download, killed after `q.life` durable steps. Its result is the function
     Call; DownloadSafety and DownloadRuns say what that promises.
     */
    method StreamDownload(q: Request) returns (o: Outcome)
      modifies this
      ensures After(State(), o) == Call(old(State()), q)
    {
      hide Fetch;
      var left := q.life;
      if partial.None? {
        if left == 0 {
          return Killed;
        }
        left := left - 1;
        partial, clock := Some(File(clock, clock, [])), clock + 1;
      }
      if q.readings.stopped(Around, 0) {
        return Stopped;
      }
      var state := if saved.Some? then saved.value else NO_STATE;
      if target.Some? {
        if state.identity != Some(q.fp) || state.published != Some(target.value.Identity()) {
          return Failed(TargetExists);
        }
        if left == 0 {
          return Killed;
        }
        partial := None;
        return Done(q.fp.size);
      }
      if state.identity != Some(q.fp) || |partial.value.content| > q.fp.size {
        if state.identity.Some? && state.identity != Some(q.fp) && partial.value.content != [] {
          return Failed(OtherProgress);
        }
        if left == 0 {
          return Killed;
        }
        left := left - 1;
        Write([]);
        state := RangeDownload.State(Some(q.fp), [], None);
      }
      if left == 0 {
        return Killed;
      }
      saved, left := Some(state), left - 1;
      o, state, left := FetchFile(q, left, state);
      if o.Killed? || partial.None? {
        return;
      }
      if left == 0 {
        return Killed;
      }
      saved := Some(state);
    }

    /**
     Calling again while the call defers: with 206 replies the deferrals are at most the missing
     bytes plus the blocks not yet hashed, whatever the replies carry.
     */
    method DownloadToTheEnd(fp: Fingerprint, requests: nat -> Request) returns (o: Outcome, deferrals: nat)
      requires AllFit(State())
      requires forall i :: requests(i).fp == fp && requests(i).reply.status == 206
      modifies this
      ensures AllFit(State()) && !o.Deferred? && deferrals <= old(Measure(State(), fp))
    {
      hide AllFit, Measure, Call;
      MeasureIsBounded(State(), fp);
      o, deferrals := Deferred(0), 0;
      while o.Deferred?
        invariant AllFit(State()) && Measure(State(), fp) >= 0
        invariant if o.Deferred? then deferrals + Measure(State(), fp) <= old(Measure(State(), fp))
                  else deferrals <= old(Measure(State(), fp))
        decreases o.Deferred?, Measure(State(), fp)
      {
        DeferralsMakeProgress(State(), requests(deferrals));
        o := StreamDownload(requests(deferrals));
        MeasureIsBounded(State(), fp);
        if o.Deferred? {
          deferrals := deferrals + 1;
        }
      }
    }
  }
}
