/** Pushing a staged file into the drive: segments, the resend loop, and who
    tears the job down (upload, sendSegments, commit in internal/sync/transfer.go;
    PutSegment in internal/hostapi/hostapi.go). */
module Upload {
  import opened Wrappers
  import opened Decimal
  import opened Geometry
  import opened Missing

  const RESEND_ROUNDS: nat := 3
  const COMPLETE_ATTEMPTS: nat := 6
  const SEGMENT_CHUNK: int := 262144
  const REFUSED: string := "upload is still "

  /** The drive's own geometry: an empty file is one empty segment. */
  function SegmentCount(size: int, segmentSize: int): nat {
    if size == 0 then 1 else ChunkCount(size, segmentSize)
  }

  function SegmentLength(index: int, size: int, segmentSize: int): int {
    if size == 0 then 0 else Len(index - 1, size, segmentSize)
  }

  /** The bytes segment index carries. */
  ghost predicate IsSlice(segment: seq<int>, file: seq<int>, index: int, size: int, segmentSize: int)
    requires 0 <= size && 0 < segmentSize && 1 <= index <= SegmentCount(size, segmentSize)
  {
    if size == 0 then segment == []
    else
      var lo, hi := Lo(index - 1, segmentSize), Hi(index - 1, size, segmentSize);
      0 <= lo <= hi <= |file| && segment == file[lo..hi]
  }

  ghost function Concatenation(segments: map<int, seq<int>>, n: nat): seq<int>
    requires forall i :: 1 <= i <= n ==> i in segments
  {
    if n == 0 then [] else Concatenation(segments, n - 1) + segments[n]
  }

  ghost predicate HoldsSlices(segments: map<int, seq<int>>, file: seq<int>, size: int, segmentSize: int)
    requires 0 <= size && 0 < segmentSize
  {
    forall i :: i in segments ==>
      1 <= i <= SegmentCount(size, segmentSize) && IsSlice(segments[i], file, i, size, segmentSize)
  }

  lemma {:induction false} SlicesJoin(segments: map<int, seq<int>>, file: seq<int>, size: int, segmentSize: int, n: nat)
    requires 0 < size && 0 < segmentSize && 1 <= n <= ChunkCount(size, segmentSize)
    requires HoldsSlices(segments, file, size, segmentSize)
    requires forall i :: 1 <= i <= n ==> i in segments
    ensures 0 <= Hi(n - 1, size, segmentSize) <= |file|
    ensures Concatenation(segments, n) == file[..Hi(n - 1, size, segmentSize)]
  {
    ChunkIsInside(n - 1, size, segmentSize);
    ChunksTile(size, segmentSize);
    if n == 1 {
      assert Concatenation(segments, 0) == [];
      assert IsSlice(segments[1], file, 1, size, segmentSize);
    } else {
      SlicesJoin(segments, file, size, segmentSize, n - 1);
      assert IsSlice(segments[n], file, n, size, segmentSize);
      assert Hi(n - 2, size, segmentSize) == Lo(n - 1, segmentSize);
      assert file[..Lo(n - 1, segmentSize)] + file[Lo(n - 1, segmentSize)..Hi(n - 1, size, segmentSize)]
          == file[..Hi(n - 1, size, segmentSize)];
    }
  }

  /** A host that holds every segment, each the right slice, holds the file. */
  lemma AllSegmentsAreTheFile(segments: map<int, seq<int>>, file: seq<int>, size: int, segmentSize: int)
    requires 0 <= size && 0 < segmentSize && HoldsSlices(segments, file, size, segmentSize)
    requires forall i :: 1 <= i <= SegmentCount(size, segmentSize) ==> i in segments
    ensures size <= |file|
    ensures Concatenation(segments, SegmentCount(size, segmentSize)) == file[..size]
  {
    if size == 0 {
      assert Concatenation(segments, 0) == [];
      assert Concatenation(segments, 1) == segments[1];
    } else {
      CountBrackets(size, segmentSize);
      ChunksTile(size, segmentSize);
      SlicesJoin(segments, file, size, segmentSize, SegmentCount(size, segmentSize));
    }
  }

  datatype JobState = Open | Committed | Aborted

  datatype Reply = Done | Refused(message: string)

  /** What a job holds after some of the segments in flight have landed: flying landed on was,
      now is what has, left what has not yet. */
  ghost predicate Lands(was: map<int, seq<int>>, flying: map<int, seq<int>>, now: map<int, seq<int>>, left: map<int, seq<int>>) {
    && was.Keys <= now.Keys && flying.Keys <= now.Keys + left.Keys
    && (forall i :: i in now ==> (i in was && now[i] == was[i]) || (i in flying && now[i] == flying[i]))
    && (forall i :: i in left ==> i in flying && left[i] == flying[i])
  }

  lemma LandsTwice(a: map<int, seq<int>>, a': map<int, seq<int>>, b: map<int, seq<int>>, b': map<int, seq<int>>,
                   c: map<int, seq<int>>, c': map<int, seq<int>>)
    requires Lands(a, a', b, b') && Lands(b, b', c, c')
    ensures Lands(a, a', c, c')
  {
  }

  /** tdrive's side of one upload job. A segment whose stream has closed is in flight for as
      long as the drive likes, then stored; or the drive loses it without a word. Streams and
      calls may break. When replies are reliable an error means the call had no effect. */
  class Host {
    const size: int
    const segmentSize: int
    const repliesArrive: bool
    var segments: map<int, seq<int>>
    var landing: map<int, seq<int>>   // in flight
    var state: JobState
    var abortsIssued: nat
    var completions: nat
    ghost var delivered: set<int>   // segments a stream of the declared length has arrived for
    ghost var broken: nat           // streams and calls that broke, and cancellations
    ghost var lapsed: bool          // a segment has been lost since the last completion call
    ghost var lapses: nat           // stretches between completion calls in which one was lost
    ghost var unsettled: nat        // completion calls answered with a segment still in flight
    ghost var wasted: nat           // streams for a segment that was stored already

    ghost predicate Valid()
      reads this
    {
      && 0 <= size <= MAX_INT && 0 < segmentSize
      && segments.Keys <= delivered && landing.Keys <= delivered
      && (forall i :: i in landing ==> 1 <= i <= SegmentCount(size, segmentSize))
      && (state.Committed? ==> forall i :: 1 <= i <= SegmentCount(size, segmentSize) ==> i in segments)
    }

    /** Whatever it stores, or has in flight, is the right slice of the file. */
    ghost predicate Right(file: seq<int>)
      reads this
      requires Valid()
    {
      HoldsSlices(segments, file, size, segmentSize) && HoldsSlices(landing, file, size, segmentSize)
    }

    /** Nothing is lost: every segment is stored or in flight. */
    ghost predicate NothingLost()
      reads this
    {
      forall i :: 1 <= i <= SegmentCount(size, segmentSize) ==> i in segments || i in landing
    }

    ghost predicate MissingExactly(indices: seq<int>)
      reads this
    {
      forall i :: i in indices <==> 1 <= i <= SegmentCount(size, segmentSize) && i !in segments
    }

    constructor (size: int, segmentSize: int, repliesArrive: bool)
      requires 0 <= size <= MAX_INT && 0 < segmentSize
      ensures Valid() && segments == landing == map[] && state == Open && abortsIssued == 0 && completions == 0
      ensures !lapsed && broken == lapses == unsettled == wasted == 0
      ensures this.size == size && this.segmentSize == segmentSize && this.repliesArrive == repliesArrive
    {
      this.size := size;
      this.segmentSize := segmentSize;
      this.repliesArrive := repliesArrive;
      this.segments := map[];
      this.landing := map[];
      this.state := Open;
      this.abortsIssued := 0;
      this.completions := 0;
      this.delivered := {};
      lapsed, broken, lapses, unsettled, wasted := false, 0, 0, 0, 0;
    }

    /** The stream closed after sent bytes: a segment of the drive's own geometry is in flight,
        or lost; anything else is refused without a word. */
    method Receive(index: int, declared: int, sent: seq<int>)
      requires Valid()
      modifies this`landing, this`delivered, this`lapsed, this`lapses, this`wasted
      ensures Valid()
      ensures delivered == old(delivered) + if |sent| == declared then {index} else {}
      ensures var fits := state == Open && |sent| == declared
          && 1 <= index <= SegmentCount(size, segmentSize) && declared == SegmentLength(index, size, segmentSize);
        || (fits && landing == old(landing)[index := sent] && lapses == old(lapses) && lapsed == old(lapsed))
        || (fits && landing == old(landing) && lapses == old(lapses) + (if old(lapsed) then 0 else 1) && lapsed)
        || (!fits && landing == old(landing) && lapses == old(lapses) && lapsed == old(lapsed))
      ensures wasted == old(wasted) + if index in segments then 1 else 0
    {
      if |sent| == declared {
        delivered := delivered + {index};
      }
      if index in segments {
        wasted := wasted + 1;
      }
      if state == Open && 1 <= index <= SegmentCount(size, segmentSize)
         && declared == SegmentLength(index, size, segmentSize) && |sent| == declared {
        var kept: bool := *;
        if kept {
          landing := landing[index := sent];
        } else {
          lapses, lapsed := if lapsed then lapses else lapses + 1, true;
        }
      }
    }

    /** Time passes, and some of what is in flight lands. */
    method Land()
      requires Valid() && state == Open
      modifies this`segments, this`landing
      ensures Valid() && Lands(old(segments), old(landing), segments, landing)
    {
      var some: set<int> := *;
      segments := segments + map i | i in landing && i in some :: landing[i];
      landing := landing - some;
    }

    /** The indices it does not hold, in order. */
    method Absent() returns (missing: seq<nat>)
      requires Valid()
      ensures missing == [] <==> forall i :: 1 <= i <= SegmentCount(size, segmentSize) ==> i in segments
      ensures forall k :: 0 <= k < |missing| ==> 1 <= missing[k] <= SegmentCount(size, segmentSize) && missing[k] !in segments
      ensures forall i :: 1 <= i <= SegmentCount(size, segmentSize) && i !in segments ==> i in missing
      ensures forall k :: 0 <= k < |missing| ==> missing[k] <= MAX_INT
    {
      missing := [];
      var total := SegmentCount(size, segmentSize);
      CountFits(size, segmentSize);
      for index := 1 to total + 1
        invariant forall k :: 0 <= k < |missing| ==> 1 <= missing[k] < index && missing[k] !in segments
        invariant forall i :: 1 <= i < index && i !in segments ==> i in missing
      {
        if index !in segments {
          missing := missing + [index];
        }
      }
      if missing != [] {
        assert missing[0] !in segments;
      }
    }

    /** CompleteUpload: commits if every segment has been stored, and else says which have not. */
    method CompleteUpload() returns (reply: Reply)
      requires Valid()
      modifies this`segments, this`landing, this`state, this`completions, this`broken, this`lapsed, this`unsettled
      ensures Valid() && completions == old(completions) + 1 && !lapsed && old(broken) <= broken
      ensures Lands(old(segments), old(landing), segments, landing)
      ensures reply.Done? ==> state.Committed?
      ensures repliesArrive && reply.Refused? ==> state == old(state)
      ensures reply.Refused? ==> ParseMissing(reply.message) == [] || MissingExactly(ParseMissing(reply.message))
      ensures state == old(state) || state.Committed?
      ensures unsettled == old(unsettled) + if landing == map[] then 0 else 1
      ensures old(state) == Open && reply.Refused? && broken == old(broken) ==> ParseMissing(reply.message) != []
      ensures reply.Refused? && ParseMissing(reply.message) != [] ==> state == Open
    {
      completions, lapsed := completions + 1, false;
      if state == Open {
        Land();
      }
      unsettled := unsettled + if landing == map[] then 0 else 1;
      var reached: bool := *;
      if !reached || state != Open {
        broken := broken + 1;
        NoMatchWithoutBracket("connection lost", 0);
        return Refused("connection lost");
      }
      reply := Answer();
    }

    /** The call got through to an open job. */
    method Answer() returns (reply: Reply)
      requires Valid() && state == Open
      modifies this`state, this`broken
      ensures Valid() && old(broken) <= broken
      ensures reply.Done? ==> state.Committed?
      ensures repliesArrive && reply.Refused? ==> state == Open
      ensures reply.Refused? ==> ParseMissing(reply.message) == [] || MissingExactly(ParseMissing(reply.message))
      ensures state == Open || state.Committed?
      ensures reply.Refused? && broken == old(broken) ==> ParseMissing(reply.message) != []
      ensures reply.Refused? && ParseMissing(reply.message) != [] ==> state == Open
    {
      var missing := Absent();
      if missing != [] {
        NothingMatchesBefore(REFUSED, missing, "");
        ParsingInvertsTheRefusal(REFUSED, missing, "");
        return Refused(Refusal(REFUSED, missing, ""));
      }
      state := Committed;
      var lost: bool := *;
      if lost && !repliesArrive {
        broken := broken + 1;
        NoMatchWithoutBracket("deadline exceeded", 0);
        return Refused("deadline exceeded");
      }
      reply := Done;
    }

    method Abort()
      requires Valid()
      modifies this`state, this`abortsIssued
      ensures Valid() && abortsIssued == old(abortsIssued) + 1
      ensures state == old(state) || (old(state) == Open && state == Aborted)
    {
      abortsIssued := abortsIssued + 1;
      var reached: bool := *;
      if reached && state == Open {
        state := Aborted;
      }
    }
  }

  lemma CountFits(size: int, segmentSize: int)
    requires 0 <= size <= MAX_INT && 0 < segmentSize
    ensures SegmentCount(size, segmentSize) <= MAX_INT
  {
    if size > 0 {
      CountBrackets(size, segmentSize);
      var n := ChunkCount(size, segmentSize);
      MulMonotone(1, segmentSize, n - 1);
      assert (n - 1) * segmentSize == segmentSize * (n - 1);
    }
  }

  /** PutSegment: exactly size bytes go out, from the reader's position on, or the
      call fails; either way the stream is closed and the host sees what was sent. It fails
      only if the stream breaks or the file is too short. */
  method PutSegment(host: Host, index: int, size: int, file: seq<int>, position: nat) returns (ok: bool, written: int)
    requires host.Valid() && position <= |file|
    modifies host`landing, host`delivered, host`broken, host`lapsed, host`lapses, host`wasted
    ensures host.Valid() && old(host.delivered) <= host.delivered && old(host.broken) <= host.broken
    ensures ok ==> (written == size && index in host.delivered) || size < 0
    ensures 0 <= written && position + written <= |file|
    ensures ok && 0 <= size ==> position + size <= |file|
    ensures 0 <= size && position + size <= |file| && host.broken == old(host.broken) ==> ok
    ensures host.landing == old(host.landing)
         || (&& size == written && 1 <= index <= SegmentCount(host.size, host.segmentSize)
             && size == SegmentLength(index, host.size, host.segmentSize)
             && host.landing == old(host.landing)[index := file[position..position + written]])
    ensures ok ==> host.broken == old(host.broken)
    ensures ok && host.state == Open && 0 <= size && !host.lapsed ==>
      1 <= index <= SegmentCount(host.size, host.segmentSize) && size == SegmentLength(index, host.size, host.segmentSize) ==>
        index in host.landing
    ensures host.lapses == old(host.lapses) + if host.lapsed && !old(host.lapsed) then 1 else 0
    ensures old(host.lapsed) ==> host.lapsed
    ensures index !in host.segments ==> host.wasted == old(host.wasted)
  {
    written := 0;
    var streamOpen: bool := *;
    if !streamOpen {
      host.broken := host.broken + 1;
      return false, 0;
    }
    var sent: seq<int> := [];
    ok := true;
    while ok && written < size
      invariant 0 <= written && position + written <= |file| && (0 <= size ==> written <= size)
      invariant sent == file[position..position + written]
      invariant ok && 0 <= size ==> written <= size
      invariant host.Valid() && unchanged(host`landing, host`delivered, host`lapsed, host`lapses, host`wasted)
      invariant old(host.broken) <= host.broken && (ok ==> host.broken == old(host.broken))
      invariant !ok ==> host.broken > old(host.broken) || |file| < position + size
      decreases size - written, if ok then 1 else 0
    {
      var want := if size - written < SEGMENT_CHUNK then size - written else SEGMENT_CHUNK;
      var read := if |file| - position - written < want then |file| - position - written else want;
      var writeFails: bool := *;
      if read > 0 && writeFails {
        host.broken := host.broken + 1;
        ok := false;
      } else {
        assert file[position..position + written] + file[position + written..position + written + read]
            == file[position..position + written + read];
        sent := sent + file[position + written..position + written + read];
        written := written + read;
        ok := read == want;
      }
    }
    var closeFails: bool := *;
    if ok && closeFails {
      host.broken := host.broken + 1;
      ok := false;
    }
    host.Receive(index, size, sent);
  }

  /** A segment of the drive's own length, read from its own offset, is its slice. */
  lemma StoredSliceIsRight(segments: map<int, seq<int>>, file: seq<int>, index: int, size: int, segmentSize: int, sent: seq<int>)
    requires 0 < size && 0 < segmentSize && HoldsSlices(segments, file, size, segmentSize)
    requires 1 <= index <= SegmentCount(size, segmentSize)
    requires var offset := (index - 1) * segmentSize;
             0 <= offset <= offset + |sent| <= |file| && sent == file[offset..offset + |sent|]
    requires |sent| == SegmentLength(index, size, segmentSize)
    ensures HoldsSlices(segments[index := sent], file, size, segmentSize)
  {
    assert IsSlice(sent, file, index, size, segmentSize);
  }

  /** The body of the loop of sendSegments, for a file that is not empty. */
  method SendSegment(host: Host, file: seq<int>, index: int) returns (ok: bool)
    requires host.Valid() && host.Right(file) && 0 < host.size
    modifies host`landing, host`delivered, host`broken, host`lapsed, host`lapses, host`wasted
    ensures host.Valid() && host.Right(file)
    ensures old(host.landing).Keys <= host.landing.Keys && old(host.delivered) <= host.delivered
    ensures old(host.broken) <= host.broken && (ok ==> host.broken == old(host.broken)) && (old(host.lapsed) ==> host.lapsed)
    ensures ok && 1 <= index <= SegmentCount(host.size, host.segmentSize) ==>
      index in host.delivered && (host.state == Open && !host.lapsed ==> index in host.landing)
    ensures host.size <= |file| && host.broken == old(host.broken) && 1 <= index ==> ok
    ensures host.lapses == old(host.lapses) + if host.lapsed && !old(host.lapsed) then 1 else 0
    ensures index !in host.segments ==> host.wasted == old(host.wasted)
  {
    var offset := (index - 1) * host.segmentSize;
    var size := if host.size - offset < host.segmentSize then host.size - offset else host.segmentSize;
    OffsetInside(index, host.size, host.segmentSize);
    if size <= 0 {
      return true;
    }
    // Seeking before the start fails; past the end, the read that follows does.
    if offset < 0 || offset > |file| {
      return false;
    }
    ghost var before := host.landing;
    var written;
    ok, written := PutSegment(host, index, size, file, offset);
    if host.landing != before {
      StoredSliceIsRight(before, file, index, host.size, host.segmentSize, file[offset..offset + written]);
    }
  }

  /** sendSegments: the listed segments, one at a time, each cut as the drive cuts it. It
      fails only if something breaks or the file is too short. */
  method SendSegments(host: Host, file: seq<int>, indices: seq<int>) returns (ok: bool)
    requires host.Valid() && host.Right(file)
    modifies host`landing, host`delivered, host`broken, host`lapsed, host`lapses, host`wasted
    ensures host.Valid() && host.Right(file)
    ensures old(host.landing).Keys <= host.landing.Keys && old(host.delivered) <= host.delivered
    ensures old(host.broken) <= host.broken && (old(host.lapsed) ==> host.lapsed)
    ensures ok ==> forall index :: index in indices && 1 <= index <= SegmentCount(host.size, host.segmentSize) ==>
      index in host.delivered
    ensures host.size <= |file| && host.broken == old(host.broken) && (forall index :: index in indices ==> 1 <= index) ==> ok
    ensures ok && host.state == Open && !host.lapsed ==>
      forall index :: index in indices && 1 <= index <= SegmentCount(host.size, host.segmentSize) ==> index in host.landing
    ensures host.lapses == old(host.lapses) + if host.lapsed && !old(host.lapsed) then 1 else 0
    ensures (forall index :: index in indices ==> index !in host.segments) ==> host.wasted == old(host.wasted)
  {
    if host.size == 0 {
      for k := 0 to |indices|
        invariant unchanged(host) && forall j :: 0 <= j < k ==> indices[j] != 1
      {
        if indices[k] == 1 {
          var sent, _ := PutSegment(host, 1, 0, file, 0);
          return sent;
        }
      }
      return true;
    }
    for k := 0 to |indices|
      invariant host.Valid() && host.Right(file)
      invariant old(host.landing).Keys <= host.landing.Keys && old(host.delivered) <= host.delivered
      invariant host.broken == old(host.broken) && (old(host.lapsed) ==> host.lapsed)
      invariant forall j :: 0 <= j < k && 1 <= indices[j] <= SegmentCount(host.size, host.segmentSize) ==>
        indices[j] in host.delivered
      invariant host.state == Open && !host.lapsed ==>
        forall j :: 0 <= j < k && 1 <= indices[j] <= SegmentCount(host.size, host.segmentSize) ==> indices[j] in host.landing
      invariant host.lapses == old(host.lapses) + if host.lapsed && !old(host.lapsed) then 1 else 0
      invariant (forall index :: index in indices ==> index !in host.segments) ==> host.wasted == old(host.wasted)
    {
      var cancelled: bool := *;
      if cancelled {
        host.broken := host.broken + 1;
        return false;
      }
      assert indices[k] in indices;
      var sent := SendSegment(host, file, indices[k]);
      if !sent {
        return false;
      }
    }
    ok := true;
  }

  lemma OffsetInside(index: int, size: int, segmentSize: int)
    requires 0 < size && 0 < segmentSize
    ensures 0 <= (index - 1) * segmentSize <==> 1 <= index
    ensures size - (index - 1) * segmentSize > 0 <==> index <= ChunkCount(size, segmentSize)
  {
    CountBrackets(size, segmentSize);
    var n := ChunkCount(size, segmentSize);
    if index >= 1 { MulMonotone(0, index - 1, segmentSize); } else { MulMonotone(index - 1, -1, segmentSize); }
    if index <= n { MulMonotone(index - 1, n - 1, segmentSize); } else { MulMonotone(n, index - 1, segmentSize); }
  }

  /** commit: re-asks while segments are still landing; a refusal that names
      segments hands exactly those back for resending. Short of a break it gives up only
      after six refusals, and, if nothing was lost, only if segments were in flight at each. */
  method Commit(host: Host) returns (ok: bool, missing: seq<int>)
    requires host.Valid() && host.state == Open
    modifies host`segments, host`landing, host`state, host`completions, host`broken, host`lapsed, host`unsettled
    ensures old(host.completions) < host.completions <= old(host.completions) + COMPLETE_ATTEMPTS
    ensures host.Valid() && (ok ==> host.state.Committed? && missing == [])
    ensures host.state == Open || host.state.Committed?
    ensures !ok && host.repliesArrive ==> host.state == Open
    ensures !ok ==> missing == [] || host.MissingExactly(missing)
    ensures Lands(old(host.segments), old(host.landing), host.segments, host.landing) && !host.lapsed
    ensures old(host.broken) <= host.broken && old(host.unsettled) <= host.unsettled
    ensures missing != [] ==> host.state == Open
    ensures !ok && host.broken == old(host.broken) ==> missing != [] && host.completions == old(host.completions) + 6
    ensures !ok && host.broken == old(host.broken) && old(host.NothingLost()) ==> host.unsettled == old(host.unsettled) + 6
  {
    var attempt := 0;
    while attempt < COMPLETE_ATTEMPTS
      invariant 0 <= attempt <= COMPLETE_ATTEMPTS
      invariant host.Valid() && host.completions == old(host.completions) + attempt
      invariant host.state == Open
      invariant attempt > 0 ==> !host.lapsed
      invariant old(host.broken) <= host.broken && old(host.unsettled) <= host.unsettled
      invariant Lands(old(host.segments), old(host.landing), host.segments, host.landing)
      invariant host.broken == old(host.broken) && old(host.NothingLost()) ==> host.unsettled == old(host.unsettled) + attempt
      invariant attempt < COMPLETE_ATTEMPTS
    {
      ghost var segments, landing := host.segments, host.landing;
      var reply := host.CompleteUpload();
      LandsTwice(old(host.segments), old(host.landing), segments, landing, host.segments, host.landing);
      if reply.Done? {
        return true, [];
      }
      missing := ParseMissing(reply.message);
      if missing == [] {
        return false, [];
      }
      if old(host.NothingLost()) {
        assert missing[0] in missing && 1 <= missing[0] <= SegmentCount(host.size, host.segmentSize);
        assert missing[0] in old(host.segments).Keys + old(host.landing).Keys;
        assert missing[0] in host.landing;
      }
      if attempt == COMPLETE_ATTEMPTS - 1 {
        return false, missing;
      }
      var cancelled: bool := *;
      if cancelled {
        host.broken := host.broken + 1;
        return false, [];
      }
      attempt := attempt + 1;
    }
  }

  /** upload: success means the host committed, and what it holds is the staged file up to
      the size the queue recorded: all of it when the sizes agree, as they do for a file
      that was downloaded for that row. Failure leaves exactly one abort behind, and - as long as the host's
      replies arrive - never on a committed job. As long as nothing breaks, it fails only if
      in each of three rounds the drive lost a segment, or had one in flight whenever it was
      asked, six times; and never is a segment sent that the drive has stored. */
  method Run(host: Host, file: seq<int>) returns (ok: bool)
    requires host.Valid() && host.state == Open && host.segments == host.landing == map[] && host.abortsIssued == 0 && !host.lapsed
    modifies host
    ensures host.Valid()
    ensures ok ==> host.state.Committed? && host.abortsIssued == 0
    ensures ok ==> host.size <= |file|
    ensures ok ==> Concatenation(host.segments, SegmentCount(host.size, host.segmentSize)) == file[..host.size]
    ensures ok && |file| == host.size ==> Concatenation(host.segments, SegmentCount(host.size, host.segmentSize)) == file
    ensures ok ==> forall index :: 1 <= index <= SegmentCount(host.size, host.segmentSize) ==> index in host.delivered
    ensures host.completions <= old(host.completions) + RESEND_ROUNDS * COMPLETE_ATTEMPTS
    ensures !ok ==> host.abortsIssued == 1
    ensures !ok && host.repliesArrive ==> !host.state.Committed?
    ensures host.size <= |file| && host.broken == old(host.broken) ==>
      6 * (host.lapses - old(host.lapses)) + (host.unsettled - old(host.unsettled)) < 18 ==>
        ok
    ensures host.wasted == old(host.wasted)
  {
    var total := SegmentCount(host.size, host.segmentSize);
    var pending: seq<int> := [];
    for index := 1 to total + 1
      invariant |pending| == index - 1 && forall k :: 0 <= k < |pending| ==> pending[k] == k + 1
      invariant unchanged(host)
    {
      pending := pending + [index];
    }
    forall i | 1 <= i <= total ensures i in pending { assert pending[i - 1] == i; }
    var round := 0;
    while round < RESEND_ROUNDS
      invariant host.Valid() && host.abortsIssued == 0 && host.Right(file) && !host.lapsed
      invariant host.state == Open
      invariant host.MissingExactly(pending) && host.wasted == old(host.wasted)
      invariant old(host.broken) <= host.broken
      invariant host.broken == old(host.broken) ==>
        6 * round <= 6 * (host.lapses - old(host.lapses)) + (host.unsettled - old(host.unsettled))
      invariant 0 <= round <= RESEND_ROUNDS && host.completions <= old(host.completions) + round * COMPLETE_ATTEMPTS
    {
      var sent := SendSegments(host, file, pending);
      if !sent {
        host.Abort();
        return false;
      }
      ghost var segments, landing := host.segments, host.landing;
      var committed, missing := Commit(host);
      LandingKeepsSlices(segments, landing, host.segments, host.landing, file, host.size, host.segmentSize);
      if committed {
        AllSegmentsAreTheFile(host.segments, file, host.size, host.segmentSize);
        return true;
      }
      if missing == [] {
        host.Abort();
        return false;
      }
      pending := missing;
      round := round + 1;
    }
    host.Abort();
    ok := false;
  }

  lemma LandingKeepsSlices(was: map<int, seq<int>>, flying: map<int, seq<int>>, now: map<int, seq<int>>, left: map<int, seq<int>>,
                           file: seq<int>, size: int, segmentSize: int)
    requires 0 <= size && 0 < segmentSize && Lands(was, flying, now, left)
    requires HoldsSlices(was, file, size, segmentSize) && HoldsSlices(flying, file, size, segmentSize)
    ensures HoldsSlices(now, file, size, segmentSize) && HoldsSlices(left, file, size, segmentSize)
  {
  }
}
