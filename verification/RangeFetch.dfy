/** Fetching one chunk: the response checks, the write loop and the retries of
    source_download.go. The drive is an oracle that serves some prefix of the
    bytes asked for, or none. */
module RangeFetch {
  import opened Wrappers
  import opened Geometry
  import opened Checkpoint
  import opened CheckpointFiles
  import opened Disk
  import opened Flushers

  const BUFFER: int := 262144

  datatype Range = Range(begin: int, end: int, total: int)

  /** What came back: a status, the Content-Range header when it parses, and how
      many of the requested bytes the body holds. */
  datatype Response = NoAnswer | Answer(status: int, expiryText: bool, range: Option<Range>, count: nat)

  datatype Verdict = Fetched | Expired | SourceChanged | Broken

  /** The checks made before a single byte is written. */
  function Judge(r: Response, begin: int, end: int, total: int): Verdict {
    if r.NoAnswer? then Broken
    else if r.status == 401 || r.status == 403 || r.status == 410 then Expired
    else if r.status < 200 || r.status >= 300 then if r.expiryText then Expired else Broken
    else if r.status != 200 && r.status != 206 then Broken
    else if r.status == 200 && begin != 0 then Broken
    else if r.status == 206 then
      if r.range.None? || r.range.value.begin != begin || r.range.value.end != end - 1 then Broken
      else if total > 0 && r.range.value.total != total then SourceChanged
      else Fetched
    else Fetched
  }

  /** The responses that may put bytes in the file: a partial answer for just this range of
      a file of this size, or a whole answer from the start. */
  predicate Serves(r: Response, begin: int, end: int, total: int) {
    && r.Answer?
    && ((r.status == 206 && r.range == Some(Range(begin, end - 1, total))) || (r.status == 200 && begin == 0))
  }

  /** The body of downloadRange, noting each buffer after it is written. offset is
      where the chunk resumes; stopAt is the buffer on which the limiter or the
      write fails, if any. */
  method DownloadRange(file: DataFile, flusher: PartialFlusher, index: int, chunkBegin: int, offset: int, end: int,
                       src: seq<Byte>, response: Response, stopAt: Option<nat>)
    returns (verdict: Verdict, written: int)
    requires |file.content.vol| == |file.content.dur| == |src| && flusher.file == file
    requires 0 <= chunkBegin <= chunkBegin + offset <= end <= |src| && 0 <= offset
    modifies file, flusher
    ensures offset <= written <= end - chunkBegin
    ensures |file.content.vol| == |file.content.dur| == |src|
    ensures file.content == WriteAt(old(file.content), src[chunkBegin + offset..chunkBegin + written], chunkBegin + offset)
    ensures verdict == Fetched ==> written == end - chunkBegin
    ensures var begin := chunkBegin + offset;
      match response {
        case NoAnswer => verdict == Broken && written == offset
        case Answer(status, expiryText, range, count) =>
          if status == 401 || status == 403 || status == 410 then verdict == Expired && written == offset
          else if status < 200 || 300 <= status then verdict == (if expiryText then Expired else Broken) && written == offset
          else if status == 206 && range.Some? && range.value.begin == begin && range.value.end == end - 1
               && 0 < |src| && range.value.total != |src| then verdict == SourceChanged && written == offset
          else if (status == 206 && range.Some? && range.value.begin == begin && range.value.end == end - 1)
               || (status == 200 && begin == 0) then
            && verdict == (if written == end - chunkBegin then Fetched else Broken)
            && var most := if count < end - begin then count else end - begin;
              written == offset + if stopAt.Some? && stopAt.value * 262144 < most then stopAt.value * 262144 else most
          else verdict == Broken && written == offset
      }
    ensures written > offset ==> flusher.at == old(flusher.at)[index := written]
    ensures written == offset ==> flusher.at == old(flusher.at)
    ensures verdict == SourceChanged ==> written == offset
    ensures written > offset ==> Serves(response, chunkBegin + offset, end, |src|)
  {
    hide WriteAt;
    written := offset;
    var judged := Judge(response, chunkBegin + offset, end, |src|);
    assert src[chunkBegin + offset..chunkBegin + offset] == [];
    NothingWritten(file.content, chunkBegin + offset);
    if judged != Fetched {
      return judged, written;
    }
    verdict, written := WriteBody(file, flusher, index, chunkBegin, offset, end, src, response.count, stopAt);
  }

  /** The write loop: buffer after buffer, each noted once it is written, until the range is
      complete, the body ends, or buffer stopAt fails. */
  method WriteBody(file: DataFile, flusher: PartialFlusher, index: int, chunkBegin: int, offset: int, end: int,
                   src: seq<Byte>, count: nat, stopAt: Option<nat>)
    returns (verdict: Verdict, written: int)
    requires |file.content.vol| == |file.content.dur| == |src| && flusher.file == file
    requires 0 <= chunkBegin <= chunkBegin + offset <= end <= |src| && 0 <= offset
    modifies file, flusher
    ensures offset <= written <= end - chunkBegin
    ensures |file.content.vol| == |file.content.dur| == |src|
    ensures file.content == WriteAt(old(file.content), src[chunkBegin + offset..chunkBegin + written], chunkBegin + offset)
    ensures verdict == if written == end - chunkBegin then Fetched else Broken
    ensures var asked := end - chunkBegin - offset; var most := if count < asked then count else asked;
      written == offset + if stopAt.Some? && stopAt.value * 262144 < most then stopAt.value * 262144 else most
    ensures flusher.at == if written > offset then old(flusher.at)[index := written] else old(flusher.at)
  {
    hide WriteAt;
    written := offset;
    assert src[chunkBegin + offset..chunkBegin + offset] == [];
    NothingWritten(file.content, chunkBegin + offset);
    var available := count;
    var round: nat := 0;
    while written < end - chunkBegin
      invariant offset <= written <= end - chunkBegin
      invariant 0 <= available == count - (written - offset)
      invariant |file.content.vol| == |file.content.dur| == |src|
      invariant file.content == WriteAt(old(file.content), src[chunkBegin + offset..chunkBegin + written], chunkBegin + offset)
      invariant flusher.at == if written > offset then old(flusher.at)[index := written] else old(flusher.at)
      invariant written == offset + round * BUFFER || written == end - chunkBegin
      invariant written <= offset + round * BUFFER && (stopAt.Some? ==> round <= stopAt.value)
    {
      var remaining := end - chunkBegin - written;
      var want := if remaining < BUFFER then remaining else BUFFER;
      var read := if available < want then available else want;
      if read > 0 {
        if stopAt == Some(round) {
          return Broken, written;
        }
        var at := chunkBegin + written;
        file.Write(src[at..at + read], at);
        WritesJoin(old(file.content), src, chunkBegin + offset, at, at + read);
        written := written + read;
        available := available - read;
        flusher.Note(index, written);
        round := round + 1;
      }
      if read < want {
        return Broken, written;
      }
    }
    verdict := Fetched;
  }

  lemma ResumePointIsInside(r: Record, size: int, chunk: int, index: int)
    requires ValidRecord(r, size, chunk) && 0 < chunk && 0 <= index < |r.done|
    ensures 0 <= ResumeOffset(r, index) < Len(index, size, chunk)
  {
    ChunkIsInside(index, size, chunk);
  }

  /** Nothing outside [a, b) has changed. */
  predicate OnlyBetween(f: File, g: File, a: int, b: int) {
    |f.vol| == |g.vol| && forall k :: 0 <= k < |f.vol| && !(a <= k < b) ==> g.vol[k] == f.vol[k]
  }

  lemma WrittenBetween(f: File, data: seq<Byte>, at: int, end: int)
    requires |f.vol| == |f.dur| && 0 <= at <= at + |data| <= end <= |f.vol|
    ensures OnlyBetween(f, WriteAt(f, data, at), at, end)
  {
  }

  /** What one attempt does to the file. */
  lemma AttemptKeeps(f: File, src: seq<Byte>, at: int, n: int, end: int)
    requires |f.vol| == |f.dur| == |src| && 0 <= at <= at + n <= end <= |src|
    ensures var g := WriteAt(f, src[at..at + n], at);
      && g.dur == f.dur && OnlyBetween(f, g, at, end) && VolGood(g, src, at, at + n)
      && forall a, b :: VolGood(f, src, a, b) ==> VolGood(g, src, a, b)
  {
    StepsEvolve(f, src, at, n);
    WrittenBetween(f, src[at..at + n], at, end);
  }

  lemma NothingBetween(f: File, a: int, b: int)
    ensures OnlyBetween(f, f, a, b)
  {
  }

  lemma BetweenTwice(f: File, g: File, h: File, a: int, b: int)
    requires OnlyBetween(f, g, a, b) && OnlyBetween(g, h, a, b)
    ensures OnlyBetween(f, h, a, b)
  {
  }

  lemma HeadAndRest(f: File, src: seq<Byte>, a: int, b: int, c: int)
    requires |f.vol| == |f.dur| == |src| && VolGood(f, src, a, b) && VolGood(f, src, b, c)
    ensures VolGood(f, src, a, c)
  {
  }

  /** downloadChunkWithRetry, uninterrupted by other workers: each attempt resumes
      from the last durable offset, whatever earlier attempts wrote past it, and touches
      nothing before that offset or after the chunk. */
  method DownloadChunkWithRetry(file: DataFile, flusher: PartialFlusher, checkpoint: CheckpointFile, index: int,
                                src: seq<Byte>, retry: nat, responses: seq<Response>, stops: seq<Option<nat>>)
    returns (verdict: Verdict, attempts: nat)
    requires checkpoint.Valid() && flusher.file == file && flusher.checkpoint == checkpoint
    requires checkpoint.id.size == |src| && 0 <= index < checkpoint.done.Length && !checkpoint.done[index]
    requires |file.content.vol| == |file.content.dur| == |src|
    requires |responses| == |stops| == retry
    requires VolGood(file.content, src, Lo(index, checkpoint.id.chunkSize),
                     Lo(index, checkpoint.id.chunkSize) + ResumeOffset(checkpoint.Rec(), index))
    modifies file, flusher
    ensures attempts <= retry
    ensures |file.content.vol| == |file.content.dur| == |src| && file.content.dur == old(file.content.dur)
    ensures verdict == Fetched ==>
              VolGood(file.content, src, Lo(index, checkpoint.id.chunkSize), Hi(index, |src|, checkpoint.id.chunkSize))
    ensures forall a, b :: VolGood(old(file.content), src, a, b) ==> VolGood(file.content, src, a, b)
    ensures OnlyBetween(old(file.content), file.content,
                        Lo(index, checkpoint.id.chunkSize) + ResumeOffset(checkpoint.Rec(), index),
                        Hi(index, |src|, checkpoint.id.chunkSize))
    ensures verdict == SourceChanged ==> 0 < attempts
    ensures verdict == Broken || verdict == Expired ==> attempts == retry
    ensures var end := Hi(index, |src|, checkpoint.id.chunkSize);
      var begin := Lo(index, checkpoint.id.chunkSize) + ResumeOffset(checkpoint.Rec(), index);
      (verdict == Broken || verdict == Expired) ==>
        forall n :: 0 <= n < retry && stops[n].None? && responses[n].Answer? && end - begin <= responses[n].count ==>
          && !(responses[n].status == 206 && responses[n].range == Some(Range(begin, end - 1, |src|)))
          && !(responses[n].status == 200 && begin == 0)
  {
    hide WriteAt, Judge, Serves, OnlyBetween, VolGood;
    verdict, attempts := Broken, 0;
    var begin, end := Lo(index, checkpoint.id.chunkSize), Hi(index, |src|, checkpoint.id.chunkSize);
    ChunkIsInside(index, |src|, checkpoint.id.chunkSize);
    ResumePointIsInside(checkpoint.Rec(), |src|, checkpoint.id.chunkSize, index);
    NothingBetween(file.content, begin + ResumeOffset(checkpoint.Rec(), index), end);
    while attempts < retry
      invariant attempts <= retry
      invariant |file.content.vol| == |file.content.dur| == |src| && file.content.dur == old(file.content.dur)
      invariant forall a, b :: VolGood(old(file.content), src, a, b) ==> VolGood(file.content, src, a, b)
      invariant verdict == Broken || verdict == Expired
      invariant forall n :: 0 <= n < attempts && stops[n].None? && responses[n].Answer?
                            && end - begin - ResumeOffset(checkpoint.Rec(), index) <= responses[n].count ==>
        && !(responses[n].status == 206
             && responses[n].range == Some(Range(begin + ResumeOffset(checkpoint.Rec(), index), end - 1, |src|)))
        && !(responses[n].status == 200 && begin + ResumeOffset(checkpoint.Rec(), index) == 0)
      invariant OnlyBetween(old(file.content), file.content, begin + ResumeOffset(checkpoint.Rec(), index), end)
    {
      var offset := if index in checkpoint.partial then checkpoint.partial[index] else 0;
      ghost var before := file.content;
      var written;
      verdict, written := DownloadRange(file, flusher, index, begin, offset, end, src, responses[attempts], stops[attempts]);
      AttemptKeeps(before, src, begin + offset, written - offset, end);
      BetweenTwice(old(file.content), before, file.content, begin + offset, end);
      if verdict == Fetched { HeadAndRest(file.content, src, begin, begin + offset, end); }
      attempts := attempts + 1;
      if verdict == Fetched || verdict == SourceChanged {
        return;
      }
    }
  }
}
