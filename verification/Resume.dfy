/** The resumable download as a step system: workers, the flusher, retries,
    cancellation, process death and power loss, in any interleaving
    (internal/aliyunpan/source_download.go). One directory holds the .part file,
    its sidecar and the finished staged file. */
module Resume {
  import opened Wrappers
  import opened Geometry
  import opened Checkpoint
  import opened CheckpointFiles
  import opened Progress
  import opened Disk
  import opened Flushers

  datatype Worker =
    | Ready                              // between attempts
    | Fetching(written: int)             // bytes written and noted
    | Wrote(written: int, extra: int)    // extra bytes written, not yet counted
    | Tracked(written: int)              // counted by the tracker, not yet noted by the flusher
    | Received                           // the whole chunk has been written
    | Folded                             // counted by the tracker
    | Forgotten                          // dropped by the flusher
    | Durable                            // fsynced, not yet in the bitmap

  datatype Flush = Resting | Snapped(taken: map<int, int>) | Safe(taken: map<int, int>)

  /** downloadChunks while it runs. */
  datatype Pool = Pool(
    rec: Record,
    offsets: Offsets,
    flush: Flush,
    todo: set<int>,
    workers: map<int, Worker>,
    tracker: Tracker,
    folded: set<int>,
    failed: bool)

  /** Where one call of Download has got to. */
  datatype Phase =
    | Idle
    | DroppingPart | DroppingSidecar
    | Loading | Opening(rec: Record) | Sizing(rec: Record) | Saving(rec: Record)
    | Running(pool: Pool)
    | Closing(rec: Record) | Renamed
    | Returned

  /** era says beside which .part it was written. */
  datatype Sidecar = Sidecar(id: Identity, rec: Record, era: nat)

  /** id belongs to the latest attempt. past holds every sidecar version, for this file or
      an earlier one, that may still survive a power loss. era counts the .part files:
      it moves on whenever .part is given up, or taken over by an attempt for another
      file; owner is the file the present one belongs to. stagedFor is the content the
      staged file was downloaded as. */
  datatype State = State(
    id: Identity,
    part: Option<File>,
    staged: Option<File>,
    stagedFor: Content,
    sidecar: Option<Sidecar>,
    past: set<Sidecar>,
    era: nat,
    owner: Identity,
    phase: Phase)

  datatype PoolStep =
    | Pick(i: int) | Begin(i: int) | Write(i: int, n: int) | Track(i: int) | Note(i: int) | EndRange(i: int)
    | Retry(i: int) | FoldIn(i: int) | Forget(i: int) | SyncChunk(i: int) | MarkDone(i: int, writable: bool)
    | Fail(i: int)
    | Snapshot | SyncSnapshot | SyncFailed | Record_(writable: bool)
    | Finish | GiveUp

  datatype Step =
    | Start(id: Identity) | DropPart | DropSidecar
    | Load | Open | Truncate | Save(writable: bool)
    | InPool(step: PoolStep)
    | Rename | RemoveSidecar | Return
    | Abandon
    | PowerLoss(part: Option<File>, staged: Option<File>, sidecar: Option<Sidecar>)
    | DiscardSidecar | DiscardPart | DiscardStaged

  function Size(s: State): int { s.id.size }

  function Chunk(s: State): int { s.id.chunkSize }

  function Count(s: State): nat { ChunkCount(Size(s), Chunk(s)) }

  /** What identifies the content of a file; the chunk size does not. */
  function ContentOf(id: Identity): Content {
    Content(id.driveID, id.fileID, id.size, id.hash)
  }

  function Src(s: State): seq<Byte> { Source(ContentOf(s.id)) }

  predicate Full(s: State) {
    s.part.Some? && Sized(s.part.value, Size(s))
  }

  function NewPool(r: Record, size: int, chunk: int, base: int): Pool {
    Pool(r, Offsets(r.partial, false), Resting, Pending(r), map[], Tracker(base, r.partial), Finished(r.done), false)
  }

  function SaveSidecar(s: State, r: Record, writable: bool): State {
    if writable then s.(sidecar := Some(Sidecar(s.id, r, s.era)), past := s.past + {Sidecar(s.id, r, s.era)}) else s
  }

  // ----- enabledness

  ghost predicate PoolEnabled(s: State, p: Pool, step: PoolStep) {
    match step
    case Pick(i) => i in p.todo
    case Begin(i) => i in p.workers && p.workers[i].Ready?
    case Write(i, n) =>
      && i in p.workers && p.workers[i].Fetching? && 0 < n
      && p.workers[i].written + n <= Len(i, Size(s), Chunk(s))
    case Track(i) => i in p.workers && p.workers[i].Wrote?
    case Note(i) => i in p.workers && p.workers[i].Tracked?
    case EndRange(i) => i in p.workers && p.workers[i].Fetching? && p.workers[i].written == Len(i, Size(s), Chunk(s))
    case Retry(i) =>
      // The last buffer of a range is counted and noted and nothing can fail after it.
      && i in p.workers && (p.workers[i].Fetching? || p.workers[i].Wrote?)
      && (p.workers[i].Fetching? ==> p.workers[i].written < Len(i, Size(s), Chunk(s)))
    case FoldIn(i) => i in p.workers && p.workers[i].Received?
    case Forget(i) => i in p.workers && p.workers[i].Folded?
    case SyncChunk(i) => i in p.workers && p.workers[i].Forgotten?
    case MarkDone(i, _) => i in p.workers && p.workers[i].Durable?
    case Fail(i) => i in p.workers
    case Snapshot => p.flush.Resting? && p.offsets.changed
    case SyncSnapshot => p.flush.Snapped?
    case SyncFailed => p.flush.Snapped?
    case Record_(_) => p.flush.Safe?
    case Finish => p.workers == map[] && p.todo == {} && !p.failed && p.flush.Resting? && Pending(p.rec) == {}
    case GiveUp => p.workers == map[] && p.flush.Resting?
  }

  ghost predicate Enabled(s: State, step: Step) {
    match step
    case Start(id) => s.phase.Idle? && 0 <= id.size && 0 < id.chunkSize
    case DropPart => s.phase.DroppingPart?
    case DropSidecar => s.phase.DroppingSidecar?
    case Load => s.phase.Loading?
    case Open => s.phase.Opening?
    case Truncate => s.phase.Sizing? && s.part.Some? && |s.part.value.vol| == |s.part.value.dur|
    case Save(_) => s.phase.Saving?
    case InPool(p) => s.phase.Running? && Full(s) && PoolEnabled(s, s.phase.pool, p)
    case Rename => s.phase.Closing? && s.part.Some?
    case RemoveSidecar => s.phase.Renamed?
    case Return => s.phase.Returned?
    case Abandon => true
    case PowerLoss(part, staged, sidecar) =>
      && (s.part.None? ==> part.None?)
      && (s.part.Some? ==> part.Some? && Torn(s.part.value, part.value))
      && (s.staged.None? ==> staged.None?)
      && (s.staged.Some? ==> staged.Some? && Torn(s.staged.value, staged.value))
      && (sidecar.Some? ==> sidecar.value in s.past)
    case DiscardSidecar => s.phase.Idle?
    case DiscardPart => s.phase.Idle? && s.sidecar.None?
    case DiscardStaged => s.phase.Idle? && s.sidecar.None?
  }

  /** The early-reuse branch: a staged file of the right size is taken as it is. */
  predicate Reuses(s: State, id: Identity) {
    s.staged.Some? && |s.staged.value.vol| == id.size
  }

  /** The load branch: the sidecar is for a file that may be this one, and .part has its size. */
  predicate Accepts(s: State) {
    s.sidecar.Some? && SameFile(s.sidecar.value.id, s.id) && Full(s)
  }

  /** The sidecar was written for this very file since the present .part came to be. */
  predicate Attached(s: State) {
    s.sidecar.Some? && s.sidecar.value.era == s.era && s.owner == s.id
  }

  // ----- effects

  function PoolApply(s: State, p: Pool, step: PoolStep): State
    requires s.phase == Running(p) && Full(s) && 0 <= Size(s)
    requires PoolEnabled(s, p, step)
  {
    var size, chunk := Size(s), Chunk(s);
    match step
    case Pick(i) => s.(phase := Running(p.(todo := p.todo - {i}, workers := p.workers[i := Ready])))
    case Begin(i) =>
      var offset := ResumeOffset(p.rec, i);
      var q := p.(tracker := WithChunk(p.tracker, i, offset));
      s.(phase := Running(q.(workers := p.workers[i := if offset >= Len(i, size, chunk) then Received else Fetching(offset)])))
    case Write(i, n) =>
      var w := p.workers[i].written;
      if 0 <= Lo(i, chunk) + w && Lo(i, chunk) + w + n <= size then
        s.(part := Some(WriteAt(s.part.value, Src(s)[Lo(i, chunk) + w..Lo(i, chunk) + w + n], Lo(i, chunk) + w)),
           phase := Running(p.(workers := p.workers[i := Wrote(w, n)])))
      else s
    case Track(i) =>
      var w := p.workers[i].written + p.workers[i].extra;
      s.(phase := Running(p.(workers := p.workers[i := Tracked(w)], tracker := WithChunk(p.tracker, i, w))))
    case Note(i) =>
      var w := p.workers[i].written;
      s.(phase := Running(p.(workers := p.workers[i := Fetching(w)], offsets := Noted(p.offsets, i, w))))
    case EndRange(i) => s.(phase := Running(p.(workers := p.workers[i := Received])))
    case Retry(i) => s.(phase := Running(p.(workers := p.workers[i := Ready])))
    case FoldIn(i) =>
      s.(phase := Running(p.(workers := p.workers[i := Folded], folded := p.folded + {i},
                             tracker := Fold(p.tracker, i, Len(i, size, chunk)))))
    case Forget(i) =>
      s.(phase := Running(p.(workers := p.workers[i := Forgotten], offsets := Flushers.Forgotten(p.offsets, i))))
    case SyncChunk(i) =>
      s.(part := Some(Sync(s.part.value)), phase := Running(p.(workers := p.workers[i := Durable])))
    case MarkDone(i, writable) =>
      if 0 <= i < |p.rec.done| then
        var r := WithDone(p.rec, i);
        SaveSidecar(s, r, writable).(phase := Running(p.(rec := r, workers := p.workers - {i})))
      else s
    case Fail(i) => s.(phase := Running(p.(workers := p.workers - {i}, failed := true)))
    case Snapshot => s.(phase := Running(p.(flush := Snapped(p.offsets.at), offsets := p.offsets.(changed := false))))
    case SyncSnapshot => s.(part := Some(Sync(s.part.value)), phase := Running(p.(flush := Safe(p.flush.taken))))
    case SyncFailed => s.(phase := Running(p.(flush := Resting, offsets := p.offsets.(changed := true))))
    case Record_(writable) =>
      var r := WithPartials(p.rec, size, chunk, p.flush.taken);
      SaveSidecar(s, r, writable).(phase := Running(p.(rec := r, flush := Resting,
                                       offsets := if writable then p.offsets else p.offsets.(changed := true))))
    case Finish => s.(phase := Closing(p.rec))
    case GiveUp => s.(phase := Idle)
  }

  ghost function Apply(s: State, step: Step): State
    requires Enabled(s, step) && 0 <= Size(s)
  {
    match step
    case Start(id) =>
      if Reuses(s, id) then s.(id := id, phase := DroppingPart)
      else s.(id := id, staged := None, era := if s.staged.Some? then s.era + 1 else s.era, phase := Loading)
    case DropPart => s.(part := None, phase := DroppingSidecar)
    case DropSidecar => s.(sidecar := None, past := {}, phase := Returned)
    case Load =>
      if Accepts(s) then
        s.(era := if Attached(s) then s.era else s.era + 1, owner := s.id, phase := Opening(s.sidecar.value.rec))
      else s.(part := None, era := s.era + 1, owner := s.id, phase := Opening(EmptyRecord(Size(s), Chunk(s))))
    case Open => s.(part := if s.part.None? then Some(File([], [])) else s.part, phase := Sizing(s.phase.rec))
    case Truncate => s.(part := Some(Resize(s.part.value, Size(s))), phase := Saving(s.phase.rec))
    case Save(writable) =>
      var r := s.phase.rec;
      SaveSidecar(s, r, writable).(phase :=
        if Pending(r) == {} then Closing(r)
        else Running(NewPool(r, Size(s), Chunk(s), DoneBytes(r.done, Size(s), Chunk(s), |r.done|))))
    case InPool(p) => PoolApply(s, s.phase.pool, p)
    case Rename => s.(staged := s.part, stagedFor := ContentOf(s.id), part := None, phase := Renamed)
    case RemoveSidecar => s.(sidecar := None, past := {}, phase := Returned)
    case Return => s.(phase := Idle)
    case Abandon => s.(phase := Idle)
    case PowerLoss(part, staged, sidecar) =>
      s.(part := part, staged := staged, sidecar := sidecar,
         past := if sidecar.Some? then {sidecar.value} else {}, phase := Idle)
    case DiscardSidecar => s.(sidecar := None, past := {})
    case DiscardPart => s.(part := None)
    case DiscardStaged => s.(staged := None)
  }

  // ----- the invariant

  ghost predicate Backed(f: File, src: seq<Byte>, r: Record, size: int, chunk: int)
    requires |f.vol| == |f.dur| == |src|
  {
    && (forall i :: 0 <= i < |r.done| && r.done[i] ==> Good(f, src, Lo(i, chunk), Hi(i, size, chunk)))
    && (forall i :: i in r.partial ==> Good(f, src, Lo(i, chunk), Lo(i, chunk) + r.partial[i]))
  }

  ghost predicate HeadsWritten(f: File, src: seq<Byte>, at: map<int, int>, size: int, chunk: int)
    requires |f.vol| == |f.dur| == |src|
  {
    forall i :: i in at ==> VolGood(f, src, Lo(i, chunk), Lo(i, chunk) + at[i])
  }

  ghost predicate HeadsDurable(f: File, src: seq<Byte>, at: map<int, int>, size: int, chunk: int)
    requires |f.vol| == |f.dur| == |src|
  {
    forall i :: i in at ==> Good(f, src, Lo(i, chunk), Lo(i, chunk) + at[i])
  }

  ghost predicate WorkerOK(f: File, src: seq<Byte>, i: int, w: Worker, size: int, chunk: int)
    requires |f.vol| == |f.dur| == |src|
  {
    match w
    case Ready => true
    case Fetching(n) => 0 <= n <= Len(i, size, chunk) && VolGood(f, src, Lo(i, chunk), Lo(i, chunk) + n)
    case Tracked(n) => 0 <= n <= Len(i, size, chunk) && VolGood(f, src, Lo(i, chunk), Lo(i, chunk) + n)
    case Wrote(n, e) =>
      0 <= n && 0 < e && n + e <= Len(i, size, chunk) && VolGood(f, src, Lo(i, chunk), Lo(i, chunk) + n + e)
    case Durable => Good(f, src, Lo(i, chunk), Hi(i, size, chunk))
    case _ => VolGood(f, src, Lo(i, chunk), Hi(i, size, chunk))
  }

  predicate Counted(w: Worker) {
    w.Folded? || w.Forgotten? || w.Durable?
  }

  /** Which chunk belongs to whom, and what the tracker counts. */
  ghost predicate Books(p: Pool, size: int, chunk: int) {
    && ValidRecord(p.rec, size, chunk)
    && Exact(p.tracker, p.folded, size, chunk)
    && (forall i :: i in p.todo ==> 0 <= i < |p.rec.done| && !p.rec.done[i] && i !in p.folded && i !in p.workers)
    && (forall i :: i in p.workers ==> 0 <= i < |p.rec.done| && !p.rec.done[i] && (i in p.folded <==> Counted(p.workers[i])))
    && (forall i :: 0 <= i < |p.rec.done| && p.rec.done[i] ==> i in p.folded)
  }

  ghost predicate Contents(f: File, src: seq<Byte>, p: Pool, size: int, chunk: int)
    requires |f.vol| == |f.dur| == |src|
  {
    && Backed(f, src, p.rec, size, chunk)
    && HeadsWritten(f, src, p.offsets.at, size, chunk)
    && (p.flush.Snapped? ==> HeadsWritten(f, src, p.flush.taken, size, chunk))
    && (p.flush.Safe? ==> HeadsDurable(f, src, p.flush.taken, size, chunk))
    && (forall i :: i in p.workers ==> WorkerOK(f, src, i, p.workers[i], size, chunk))
  }

  ghost predicate RecordReady(s: State, r: Record)
    requires 0 <= Size(s)
  {
    && ValidRecord(r, Size(s), Chunk(s))
    && Full(s) && Backed(s.part.value, Src(s), r, Size(s), Chunk(s))
  }

  /** No sidecar version belongs to the present .part. */
  ghost predicate Fresh(s: State, r: Record) {
    r == EmptyRecord(Size(s), Chunk(s)) && forall c :: c in s.past ==> c.era < s.era
  }

  ghost predicate PhaseOK(s: State)
    requires 0 <= Size(s)
  {
    match s.phase
    case Idle => true
    case DroppingPart => s.staged.Some? && Complete(s.staged.value, Src(s))
    case DroppingSidecar => s.staged.Some? && s.part.None? && Complete(s.staged.value, Src(s))
    case Loading => s.staged.None?
    case Opening(r) => s.staged.None? && s.owner == s.id && ((Fresh(s, r) && s.part.None?) || RecordReady(s, r))
    case Sizing(r) =>
      && s.staged.None? && s.owner == s.id && s.part.Some?
      && ((Fresh(s, r) && s.part == Some(File([], []))) || RecordReady(s, r))
    case Saving(r) => s.staged.None? && s.owner == s.id && RecordReady(s, r)
    case Running(p) =>
      && s.staged.None? && s.owner == s.id && Full(s) && Books(p, Size(s), Chunk(s))
      && Contents(s.part.value, Src(s), p, Size(s), Chunk(s))
    case Closing(r) => s.staged.None? && s.owner == s.id && RecordReady(s, r) && Pending(r) == {}
    case Renamed => s.staged.Some? && s.part.None? && Complete(s.staged.value, Src(s))
    case Returned => s.staged.Some? && s.part.None? && s.past == {} && Complete(s.staged.value, Src(s))
  }

  ghost predicate Complete(f: File, src: seq<Byte>) {
    f.vol == src && f.dur == src
  }

  predicate WellFormed(id: Identity) {
    0 <= id.size && 0 < id.chunkSize
  }

  /** A sidecar version, whatever file it is for, is a valid record of that file. */
  ghost predicate Version(s: State, c: Sidecar) {
    WellFormed(c.id) && ValidRecord(c.rec, c.id.size, c.id.chunkSize) && c.era <= s.era && (c.era == s.era ==> c.id == s.owner)
  }

  /** One written beside the present .part is backed by it, unless it has become the staged file. */
  ghost predicate Held(s: State, c: Sidecar)
    requires 0 <= s.owner.size
  {
    s.staged.None? ==>
      && s.part.Some? && Sized(s.part.value, s.owner.size)
      && Backed(s.part.value, Source(ContentOf(s.owner)), c.rec, s.owner.size, s.owner.chunkSize)
  }

  ghost predicate DiskOK(s: State) {
    && WellFormed(s.owner)
    && (s.staged.Some? ==>
          s.part.None? && Complete(s.staged.value, Source(s.stagedFor)) && |s.staged.value.vol| == s.stagedFor.size)
    && (s.part.Some? ==> |s.part.value.vol| == |s.part.value.dur|)
    && (if s.sidecar.Some? then s.sidecar.value in s.past else s.past == {})
    && (forall c :: c in s.past ==> Version(s, c))
    && (forall c :: c in s.past && c.era == s.era ==> Held(s, c))
  }

  ghost predicate Inv(s: State) {
    WellFormed(s.id) && DiskOK(s) && PhaseOK(s)
  }

  /** Every byte the accepted sidecar claims was written, and synced, by attempts for the
      content now wanted since .part was created. */
  ghost predicate Grounded(s: State)
    requires 0 <= Size(s) && Accepts(s)
  {
    Backed(s.part.value, Src(s), s.sidecar.value.rec, Size(s), Chunk(s))
  }

  /** A run is sound as long as what an earlier attempt left behind is taken over only
      where it came from the same content: a staged file at Start, the bytes claimed by a
      sidecar that was not written beside the present .part at Load. */
  ghost predicate Sound(s: State, step: Step)
    requires 0 <= Size(s)
  {
    match step
    case Start(id) => Reuses(s, id) ==> s.stagedFor == ContentOf(id) || id.size == 0
    case Load => Accepts(s) && !Attached(s) ==> Grounded(s)
    case _ => true
  }

  // ----- preservation

  lemma AllInside(size: int, chunk: int)
    requires 0 < chunk
    ensures forall i :: 0 <= i < ChunkCount(size, chunk) ==>
              0 <= Lo(i, chunk) < Hi(i, size, chunk) <= size && 0 < Len(i, size, chunk)
  {
    forall i | 0 <= i < ChunkCount(size, chunk)
      ensures 0 <= Lo(i, chunk) < Hi(i, size, chunk) <= size && 0 < Len(i, size, chunk)
    {
      ChunkIsInside(i, size, chunk);
    }
  }

  lemma BackedPersists(f: File, g: File, src: seq<Byte>, r: Record, size: int, chunk: int)
    requires Evolves(f, g, src) && Backed(f, src, r, size, chunk)
    ensures Backed(g, src, r, size, chunk)
  {
  }

  /** A write of source bytes keeps everything already established. */
  lemma WriteKeepsContents(f: File, src: seq<Byte>, p: Pool, size: int, chunk: int, at: int, n: int)
    requires |f.vol| == |f.dur| == |src| && 0 <= at <= at + n <= |src|
    requires Contents(f, src, p, size, chunk)
    ensures Contents(WriteAt(f, src[at..at + n], at), src, p, size, chunk)
  {
    StepsEvolve(f, src, at, n);
    BackedPersists(f, WriteAt(f, src[at..at + n], at), src, p.rec, size, chunk);
  }

  lemma SyncKeepsContents(f: File, src: seq<Byte>, p: Pool, size: int, chunk: int)
    requires |f.vol| == |f.dur| == |src|
    requires Contents(f, src, p, size, chunk)
    ensures Contents(Sync(f), src, p, size, chunk)
    ensures p.flush.Snapped? ==> HeadsDurable(Sync(f), src, p.flush.taken, size, chunk)
    ensures forall i :: i in p.workers && p.workers[i].Forgotten? ==> WorkerOK(Sync(f), src, i, Durable, size, chunk)
  {
    StepsEvolve(f, src, 0, 0);
    BackedPersists(f, Sync(f), src, p.rec, size, chunk);
  }

  lemma NoSourceChange(f: File, g: File, s: State, t: State)
    requires Inv(s) && s.part == Some(f) && Full(s) && Evolves(f, g, Src(s))
    requires t == s.(part := Some(g), phase := t.phase) && s.owner == s.id && s.staged.None? && Sized(g, Size(s))
    ensures DiskOK(t)
  {
    hide Backed, Evolves, Version, PhaseOK;
    forall c | c in s.past && c.era == s.era ensures Held(t, c) {
      assert Held(s, c);
      BackedPersists(f, g, Src(s), c.rec, Size(s), Chunk(s));
    }
    forall c | c in s.past ensures Version(t, c) {
      VersionStays(s, t, c);
    }
  }

  lemma VersionStays(s: State, t: State, c: Sidecar)
    requires Version(s, c) && t.era == s.era && t.owner == s.owner
    ensures Version(t, c)
  {
  }

  /** A step that leaves the disk alone only has to keep the pool in order. */
  lemma PoolStepSuffices(s: State, q: Pool)
    requires Inv(s) && s.phase.Running? && Books(q, Size(s), Chunk(s))
    requires Contents(s.part.value, Src(s), q, Size(s), Chunk(s))
    ensures Inv(s.(phase := Running(q)))
  {
  }

  /** Everyone but chunk i's worker is where it was. */
  ghost predicate OnlyWorker(p: Pool, q: Pool, i: int) {
    && q.rec == p.rec && q.flush == p.flush
    && (forall j :: j in q.workers && j != i ==> j in p.workers && q.workers[j] == p.workers[j])
  }

  lemma WorkerKeepsContents(f: File, src: seq<Byte>, p: Pool, q: Pool, i: int, size: int, chunk: int)
    requires |f.vol| == |f.dur| == |src| && Contents(f, src, p, size, chunk)
    requires OnlyWorker(p, q, i) && HeadsWritten(f, src, q.offsets.at, size, chunk)
    requires i in q.workers ==> WorkerOK(f, src, i, q.workers[i], size, chunk)
    ensures Contents(f, src, q, size, chunk)
  {
  }

  lemma WorkerKeepsBooks(p: Pool, q: Pool, i: int, size: int, chunk: int)
    requires Books(p, size, chunk) && OnlyWorker(p, q, i) && 0 <= i < |p.rec.done| && !p.rec.done[i]
    requires Exact(q.tracker, q.folded, size, chunk)
    requires q.todo <= p.todo && i !in q.todo
    requires q.folded == p.folded || q.folded == p.folded + {i}
    requires i in q.workers ==> (i in q.folded <==> Counted(q.workers[i]))
    ensures Books(q, size, chunk)
  {
  }

  lemma WorkerStepKeepsInv(s: State, p: Pool, q: Pool, i: int)
    requires Inv(s) && s.phase == Running(p)
    requires OnlyWorker(p, q, i) && 0 <= i < |p.rec.done| && !p.rec.done[i]
    requires HeadsWritten(s.part.value, Src(s), q.offsets.at, Size(s), Chunk(s))
    requires i in q.workers ==> WorkerOK(s.part.value, Src(s), i, q.workers[i], Size(s), Chunk(s))
    requires Exact(q.tracker, q.folded, Size(s), Chunk(s))
    requires q.todo <= p.todo && i !in q.todo
    requires q.folded == p.folded || q.folded == p.folded + {i}
    requires i in q.workers ==> (i in q.folded <==> Counted(q.workers[i]))
    ensures Inv(s.(phase := Running(q)))
  {
    hide Contents, Books, Exact, HeadsWritten, WorkerOK, OnlyWorker;
    assert Contents(s.part.value, Src(s), p, Size(s), Chunk(s)) && Books(p, Size(s), Chunk(s));
    WorkerKeepsContents(s.part.value, Src(s), p, q, i, Size(s), Chunk(s));
    WorkerKeepsBooks(p, q, i, Size(s), Chunk(s));
    PoolStepSuffices(s, q);
  }

  lemma BeginKeepsInv(s: State, p: Pool, i: int)
    requires Inv(s) && s.phase == Running(p) && PoolEnabled(s, p, Begin(i))
    ensures Inv(PoolApply(s, p, Begin(i)))
  {
    var offset := ResumeOffset(p.rec, i);
    ChunkIsInside(i, Size(s), Chunk(s));
    WithChunkStaysExact(p, i, offset, Size(s), Chunk(s));
    WorkerStepKeepsInv(s, p, PoolApply(s, p, Begin(i)).phase.pool, i);
  }

  /** What the worker of chunk i may count on. */
  lemma WorkerStands(s: State, p: Pool, i: int)
    requires Inv(s) && s.phase == Running(p) && i in p.workers
    ensures Full(s) && 0 <= i < |p.rec.done| && !p.rec.done[i] && i !in p.todo
    ensures WorkerOK(s.part.value, Src(s), i, p.workers[i], Size(s), Chunk(s))
    ensures HeadsWritten(s.part.value, Src(s), p.offsets.at, Size(s), Chunk(s))
    ensures Exact(p.tracker, p.folded, Size(s), Chunk(s)) && (i in p.folded <==> Counted(p.workers[i]))
  {
  }

  lemma HeadIsNoted(f: File, src: seq<Byte>, o: Offsets, i: int, w: int, size: int, chunk: int)
    requires |f.vol| == |f.dur| == |src| && HeadsWritten(f, src, o.at, size, chunk)
    requires VolGood(f, src, Lo(i, chunk), Lo(i, chunk) + w)
    ensures HeadsWritten(f, src, Noted(o, i, w).at, size, chunk)
  {
  }

  /** What a worker has written reaches into its chunk. */
  lemma WrittenIsInside(s: State, p: Pool, i: int)
    requires Inv(s) && s.phase == Running(p) && i in p.workers && (p.workers[i].Wrote? || p.workers[i].Tracked?)
    ensures var w := p.workers[i].written + if p.workers[i].Wrote? then p.workers[i].extra else 0;
      && 0 <= w <= Len(i, Size(s), Chunk(s)) && Full(s)
      && VolGood(s.part.value, Src(s), Lo(i, Chunk(s)), Lo(i, Chunk(s)) + w)
  {
    assert WorkerOK(s.part.value, Src(s), i, p.workers[i], Size(s), Chunk(s));
    hide Books, Backed, HeadsWritten, HeadsDurable, DiskOK, Exact, VolGood;
  }

  lemma TrackKeepsInv(s: State, p: Pool, i: int)
    requires Inv(s) && s.phase == Running(p) && PoolEnabled(s, p, Track(i))
    ensures Inv(PoolApply(s, p, Track(i)))
  {
    hide Inv, Exact, HeadsWritten, VolGood, WithChunk, Books, Src;
    WrittenIsInside(s, p, i);
    WorkerStands(s, p, i);
    PoolIsBooked(s, p);
    WithChunkStaysExact(p, i, p.workers[i].written + p.workers[i].extra, Size(s), Chunk(s));
    var q := PoolApply(s, p, Track(i)).phase.pool;
    assert OnlyWorker(p, q, i);
    hide OnlyWorker;
    WorkerStepKeepsInv(s, p, q, i);
  }

  lemma PoolIsBooked(s: State, p: Pool)
    requires Inv(s) && s.phase == Running(p)
    ensures Books(p, Size(s), Chunk(s))
  {
  }

  /** The flusher may take its snapshot between the two: it then has the older offset. */
  lemma NoteKeepsInv(s: State, p: Pool, i: int)
    requires Inv(s) && s.phase == Running(p) && PoolEnabled(s, p, PoolStep.Note(i))
    ensures Inv(PoolApply(s, p, PoolStep.Note(i)))
  {
    hide Inv, Exact, HeadsWritten, VolGood, Noted;
    WrittenIsInside(s, p, i);
    WorkerStands(s, p, i);
    HeadIsNoted(s.part.value, Src(s), p.offsets, i, p.workers[i].written, Size(s), Chunk(s));
    var q := PoolApply(s, p, PoolStep.Note(i)).phase.pool;
    assert OnlyWorker(p, q, i);
    hide OnlyWorker;
    WorkerStepKeepsInv(s, p, q, i);
  }

  lemma MoveKeepsInv(s: State, p: Pool, step: PoolStep)
    requires Inv(s) && s.phase == Running(p) && PoolEnabled(s, p, step)
    requires step.EndRange? || step.Retry? || step.Fail? || step.Forget?
    ensures Inv(PoolApply(s, p, step))
  {
    assert WorkerOK(s.part.value, Src(s), step.i, p.workers[step.i], Size(s), Chunk(s));
    WorkerStepKeepsInv(s, p, PoolApply(s, p, step).phase.pool, step.i);
  }

  lemma PickKeepsInv(s: State, p: Pool, i: int)
    requires Inv(s) && s.phase == Running(p) && PoolEnabled(s, p, Pick(i))
    ensures Inv(PoolApply(s, p, Pick(i)))
  {
    WorkerStepKeepsInv(s, p, PoolApply(s, p, Pick(i)).phase.pool, i);
  }

  lemma WithChunkStaysExact(p: Pool, i: int, offset: int, size: int, chunk: int)
    requires Books(p, size, chunk) && i in p.workers && !Counted(p.workers[i]) && 0 <= offset <= Len(i, size, chunk)
    ensures Exact(WithChunk(p.tracker, i, offset), p.folded, size, chunk)
  {
    SetChunkKeepsExact(p.tracker, p.folded, size, chunk, i, offset);
  }

  lemma WriteFits(s: State, p: Pool, i: int, n: int)
    requires Inv(s) && s.phase == Running(p) && PoolEnabled(s, p, Write(i, n))
    ensures var at := Lo(i, Chunk(s)) + p.workers[i].written;
      && 0 <= i < |p.rec.done| && !p.rec.done[i] && i in p.workers && i !in p.folded
      && 0 <= p.workers[i].written && 0 <= at <= at + n <= Size(s)
      && VolGood(s.part.value, Src(s), Lo(i, Chunk(s)), at)
  {
    ChunkIsInside(i, Size(s), Chunk(s));
    assert WorkerOK(s.part.value, Src(s), i, p.workers[i], Size(s), Chunk(s));
  }

  lemma WriteKeepsInv(s: State, p: Pool, i: int, n: int)
    requires Inv(s) && s.phase == Running(p) && PoolEnabled(s, p, Write(i, n))
    ensures Inv(PoolApply(s, p, Write(i, n)))
  {
    var size, chunk, f, src := Size(s), Chunk(s), s.part.value, Src(s);
    var w := p.workers[i].written;
    var at := Lo(i, chunk) + w;
    WriteFits(s, p, i, n);
    var g := WriteAt(f, src[at..at + n], at);
    var t := PoolApply(s, p, Write(i, n));
    var q := t.phase.pool;
    assert Contents(f, src, p, size, chunk) && Books(p, size, chunk) && Full(s) && s.owner == s.id && s.staged.None?;
    hide Inv, DiskOK, PhaseOK, Contents, Books, Evolves, HeadsWritten, WorkerOK, Exact;
    StepsEvolve(f, src, at, n);
    WriteKeepsContents(f, src, p, size, chunk, at, n);
    assert Contents(g, src, q, size, chunk) by { WroteIsOK(g, src, p, q, i, n, size, chunk); }
    WorkerKeepsBooks(p, q, i, size, chunk) by { BooksAreExact(p, size, chunk); }
    NoSourceChange(f, g, s, t);
    PoolIsBack(t, q);
  }

  lemma BooksAreExact(p: Pool, size: int, chunk: int)
    requires Books(p, size, chunk)
    ensures Exact(p.tracker, p.folded, size, chunk)
    ensures forall i :: i in p.todo ==> i !in p.workers
  {
  }

  lemma WroteIsOK(g: File, src: seq<Byte>, p: Pool, q: Pool, i: int, n: int, size: int, chunk: int)
    requires |g.vol| == |g.dur| == |src| && Contents(g, src, p, size, chunk)
    requires i in p.workers && p.workers[i].Fetching? && 0 < n && p.workers[i].written + n <= Len(i, size, chunk)
    requires q == p.(workers := p.workers[i := Wrote(p.workers[i].written, n)])
    requires var at := Lo(i, chunk) + p.workers[i].written; VolGood(g, src, at, at + n)
    ensures Contents(g, src, q, size, chunk)
  {
    assert WorkerOK(g, src, i, p.workers[i], size, chunk);
  }

  lemma PoolIsBack(t: State, q: Pool)
    requires WellFormed(t.id) && DiskOK(t) && t.phase == Running(q) && t.staged.None? && t.owner == t.id && Full(t)
    requires Books(q, Size(t), Chunk(t)) && Contents(t.part.value, Src(t), q, Size(t), Chunk(t))
    ensures Inv(t)
  {
  }

  lemma FoldInKeepsInv(s: State, p: Pool, i: int)
    requires Inv(s) && s.phase == Running(p) && PoolEnabled(s, p, FoldIn(i))
    ensures Inv(PoolApply(s, p, FoldIn(i)))
  {
    FoldKeepsExact(p.tracker, p.folded, Size(s), Chunk(s), i);
    WorkerStepKeepsInv(s, p, PoolApply(s, p, FoldIn(i)).phase.pool, i);
  }

  /** fsync by a worker or by the flusher: what was written becomes durable. */
  lemma SyncKeepsInv(s: State, p: Pool, step: PoolStep)
    requires Inv(s) && s.phase == Running(p) && PoolEnabled(s, p, step)
    requires step.SyncChunk? || step.SyncSnapshot?
    ensures Inv(PoolApply(s, p, step))
  {
    var size, chunk, f := Size(s), Chunk(s), s.part.value;
    var t := PoolApply(s, p, step);
    SyncKeepsContents(f, Src(s), p, size, chunk);
    StepsEvolve(f, Src(s), 0, 0);
    NoSourceChange(f, Sync(f), s, t);
    assert Books(t.phase.pool, size, chunk);
    assert Contents(Sync(f), Src(s), t.phase.pool, size, chunk);
  }

  lemma SavedRecordKeepsDisk(s: State, r: Record, writable: bool)
    requires Inv(s) && s.staged.None? && s.owner == s.id && RecordReady(s, r)
    ensures DiskOK(SaveSidecar(s, r, writable))
  {
  }

  /** A better record, over the same files, with the same or fewer workers. */
  lemma NewRecordKeepsInv(s: State, p: Pool, q: Pool, writable: bool)
    requires Inv(s) && s.phase == Running(p) && RecordReady(s, q.rec)
    requires Books(q, Size(s), Chunk(s)) && Contents(s.part.value, Src(s), q, Size(s), Chunk(s))
    ensures Inv(SaveSidecar(s, q.rec, writable).(phase := Running(q)))
  {
    hide Contents, Books, Backed;
    SavedRecordKeepsDisk(s, q.rec, writable);
    assert DiskOK(SaveSidecar(s, q.rec, writable).(phase := Running(q)));
  }

  /** A synced chunk may be claimed. */
  lemma MarkedIsReady(s: State, p: Pool, i: int)
    requires Inv(s) && s.phase == Running(p) && PoolEnabled(s, p, MarkDone(i, true))
    ensures 0 <= i < |p.rec.done| && RecordReady(s, WithDone(p.rec, i))
  {
    WorkerStands(s, p, i);
    MutatorsKeepRecordsValid(p.rec, Size(s), Chunk(s), map[], i);
  }

  lemma MarkDoneKeepsInv(s: State, p: Pool, i: int, writable: bool)
    requires Inv(s) && s.phase == Running(p) && PoolEnabled(s, p, MarkDone(i, writable))
    ensures Inv(PoolApply(s, p, MarkDone(i, writable)))
  {
    var size, chunk, r := Size(s), Chunk(s), WithDone(p.rec, i);
    MarkedIsReady(s, p, i);
    var q := PoolApply(s, p, MarkDone(i, writable)).phase.pool;
    assert Books(q, size, chunk);
    assert Contents(s.part.value, Src(s), q, size, chunk);
    hide Inv, Books, Contents, RecordReady;
    NewRecordKeepsInv(s, p, q, writable);
  }

  /** What was snapshotted, and then synced, may be claimed. */
  lemma TakenIsReady(s: State, p: Pool)
    requires Inv(s) && s.phase == Running(p) && p.flush.Safe?
    ensures RecordReady(s, WithPartials(p.rec, Size(s), Chunk(s), p.flush.taken))
  {
    MutatorsKeepRecordsValid(p.rec, Size(s), Chunk(s), p.flush.taken, -1);
  }

  lemma RecordKeepsInv(s: State, p: Pool, writable: bool)
    requires Inv(s) && s.phase == Running(p) && PoolEnabled(s, p, Record_(writable))
    ensures Inv(PoolApply(s, p, Record_(writable)))
  {
    var q := PoolApply(s, p, Record_(writable)).phase.pool;
    TakenIsReady(s, p);
    assert Books(q, Size(s), Chunk(s));
    assert Contents(s.part.value, Src(s), q, Size(s), Chunk(s));
    hide Inv, Books, Contents, RecordReady;
    NewRecordKeepsInv(s, p, q, writable);
  }

  lemma FlushMoveKeepsInv(s: State, p: Pool, step: PoolStep)
    requires Inv(s) && s.phase == Running(p) && PoolEnabled(s, p, step)
    requires step.Snapshot? || step.SyncFailed? || step.Finish? || step.GiveUp?
    ensures Inv(PoolApply(s, p, step))
  {
    var t := PoolApply(s, p, step);
    if t.phase.Running? {
      assert Books(t.phase.pool, Size(s), Chunk(s));
      assert Contents(s.part.value, Src(s), t.phase.pool, Size(s), Chunk(s));
      PoolStepSuffices(s, t.phase.pool);
    }
  }

  /** All chunks done means every byte is the source's: the chunks tile the file. */
  lemma AllDoneIsComplete(s: State, r: Record)
    requires 0 <= Size(s) && 0 < Chunk(s) && RecordReady(s, r) && Pending(r) == {}
    ensures Complete(s.part.value, Src(s))
  {
    var f := s.part.value;
    forall k | 0 <= k < Size(s)
      ensures f.vol[k] == Src(s)[k] && f.dur[k] == Src(s)[k]
    {
      ByteHasOneChunk(k, Size(s), Chunk(s));
      var i := k / Chunk(s);
      assert i !in Pending(r);
      assert Good(f, Src(s), Lo(i, Chunk(s)), Hi(i, Size(s), Chunk(s)));
    }
  }

  lemma StartStepsKeepInv(s: State, step: Step)
    requires Inv(s) && Enabled(s, step) && Sound(s, step)
    requires step.Start? || step.DropPart? || step.DropSidecar? || step.Load?
    ensures Inv(Apply(s, step))
  {
  }

  lemma SizingStepsKeepInv(s: State, step: Step)
    requires Inv(s) && Enabled(s, step) && (step.Open? || step.Truncate?)
    ensures Inv(Apply(s, step))
  {
    if step.Truncate? {
      if Fresh(s, s.phase.rec) {
        assert Backed(Resize(File([], []), Size(s)), Src(s), s.phase.rec, Size(s), Chunk(s));
      }
      if RecordReady(s, s.phase.rec) {
        assert Resize(s.part.value, Size(s)) == s.part.value;
      }
    }
  }

  /** The pool starts from what the record claims. */
  lemma NewPoolIsInOrder(s: State, r: Record)
    requires WellFormed(s.id) && RecordReady(s, r)
    ensures var q := NewPool(r, Size(s), Chunk(s), DoneBytes(r.done, Size(s), Chunk(s), |r.done|));
      Books(q, Size(s), Chunk(s)) && Contents(s.part.value, Src(s), q, Size(s), Chunk(s))
  {
    AllInside(Size(s), Chunk(s));
    StartIsExact(r.done, r.partial, Size(s), Chunk(s));
  }

  lemma SaveKeepsInv(s: State, writable: bool)
    requires Inv(s) && Enabled(s, Save(writable))
    ensures Inv(Apply(s, Save(writable)))
  {
    var r, t := s.phase.rec, Apply(s, Save(writable));
    SavedRecordKeepsDisk(s, r, writable);
    NewPoolIsInOrder(s, r);
    assert RecordReady(s, r) && s.staged.None? && s.owner == s.id;
    hide Inv, RecordReady, Books, Contents, Version, Held;
    assert DiskOK(t) by { PhaseIsNoDisk(SaveSidecar(s, r, writable), t.phase); }
    if Pending(r) != {} {
      FullWhenReady(s, r);
      PoolIsBack(t, t.phase.pool);
    } else {
      ClosesWhenDone(s, t, r);
    }
  }

  lemma PhaseIsNoDisk(s: State, phase: Phase)
    requires DiskOK(s)
    ensures DiskOK(s.(phase := phase))
  {
    var t := s.(phase := phase);
    forall c | c in t.past ensures Version(t, c) && (c.era == t.era ==> Held(t, c)) {
      assert Version(s, c) && (c.era == s.era ==> Held(s, c));
    }
  }

  lemma FullWhenReady(s: State, r: Record)
    requires 0 <= Size(s) && RecordReady(s, r)
    ensures Full(s)
  {
  }

  lemma ClosesWhenDone(s: State, t: State, r: Record)
    requires WellFormed(s.id) && RecordReady(s, r) && Pending(r) == {} && DiskOK(t)
    requires t.id == s.id && t.owner == s.id && t.staged.None? && t.part == s.part && t.phase == Closing(r)
    ensures Inv(t)
  {
  }

  lemma PowerLossKeepsDisk(s: State, part: Option<File>, staged: Option<File>, sidecar: Option<Sidecar>)
    requires Inv(s) && Enabled(s, PowerLoss(part, staged, sidecar))
    ensures DiskOK(Apply(s, PowerLoss(part, staged, sidecar)))
  {
    var t := Apply(s, PowerLoss(part, staged, sidecar));
    hide PhaseOK, Backed;
    if s.staged.Some? {
      assert staged.value.vol == s.staged.value.vol;
    }
    forall c | c in t.past && c.era == t.era ensures Held(t, c) {
      assert Held(s, c);
      if s.staged.None? {
        var src := Source(ContentOf(s.owner));
        assert Evolves(s.part.value, part.value, src);
        BackedPersists(s.part.value, part.value, src, c.rec, s.owner.size, s.owner.chunkSize);
      }
    }
  }

  lemma OtherStepsKeepInv(s: State, step: Step)
    requires Inv(s) && Enabled(s, step)
    requires step.Rename? || step.RemoveSidecar? || step.Return? || step.Abandon? || step.PowerLoss?
             || step.DiscardSidecar? || step.DiscardPart? || step.DiscardStaged?
    ensures Inv(Apply(s, step))
  {
    match step {
      case Rename =>
        AllDoneIsComplete(s, s.phase.rec);
      case PowerLoss(part, staged, sidecar) =>
        PowerLossKeepsDisk(s, part, staged, sidecar);
      case _ =>
    }
  }

  lemma PoolStepKeepsInv(s: State, p: Pool, q: PoolStep)
    requires Inv(s) && s.phase == Running(p) && PoolEnabled(s, p, q)
    ensures Inv(PoolApply(s, p, q))
  {
    hide PhaseOK, DiskOK, PoolEnabled, PoolApply;
    match q {
      case Begin(i) => BeginKeepsInv(s, p, i);
      case Write(i, n) => WriteKeepsInv(s, p, i, n);
      case Track(i) => TrackKeepsInv(s, p, i);
      case Note(i) => NoteKeepsInv(s, p, i);
      case FoldIn(i) => FoldInKeepsInv(s, p, i);
      case SyncChunk(_) => SyncKeepsInv(s, p, q);
      case MarkDone(i, writable) => MarkDoneKeepsInv(s, p, i, writable);
      case SyncSnapshot => SyncKeepsInv(s, p, q);
      case Record_(writable) => RecordKeepsInv(s, p, writable);
      case Pick(i) => PickKeepsInv(s, p, i);
      case EndRange(_) => MoveKeepsInv(s, p, q);
      case Retry(_) => MoveKeepsInv(s, p, q);
      case Forget(_) => MoveKeepsInv(s, p, q);
      case Fail(_) => MoveKeepsInv(s, p, q);
      case _ => FlushMoveKeepsInv(s, p, q);
    }
  }

  /** Every step of every sound run keeps the invariant. */
  lemma StepKeepsInv(s: State, step: Step)
    requires Inv(s) && Enabled(s, step) && Sound(s, step)
    ensures Inv(Apply(s, step))
  {
    if step.InPool? {
      assert Full(s);
      PoolStepKeepsInv(s, s.phase.pool, step.step);
    } else if step.Save? {
      SaveKeepsInv(s, step.writable);
    } else if step.Open? || step.Truncate? {
      SizingStepsKeepInv(s, step);
    } else if step.Start? || step.DropPart? || step.DropSidecar? || step.Load? {
      StartStepsKeepInv(s, step);
    } else {
      OtherStepsKeepInv(s, step);
    }
  }

  // ----- whole runs

  /** A fresh directory; a leftover .part without a sidecar is allowed. */
  ghost predicate Initial(s: State) {
    && WellFormed(s.id) && WellFormed(s.owner)
    && s.phase.Idle? && s.staged.None? && s.sidecar.None? && s.past == {}
    && (s.part.Some? ==> |s.part.value.vol| == |s.part.value.dur|)
  }

  ghost predicate IsRun(states: seq<State>, steps: seq<Step>) {
    && |states| == |steps| + 1 && Initial(states[0])
    && forall k :: 0 <= k < |steps| ==>
         && 0 <= Size(states[k]) && Enabled(states[k], steps[k])
         && states[k + 1] == Apply(states[k], steps[k])
  }

  ghost predicate SoundRun(states: seq<State>, steps: seq<Step>) {
    IsRun(states, steps) && forall k :: 0 <= k < |steps| ==> Sound(states[k], steps[k])
  }

  lemma {:induction false} RunKeepsInv(states: seq<State>, steps: seq<Step>, k: nat)
    requires SoundRun(states, steps) && k < |states|
    ensures Inv(states[k])
  {
    if k > 0 {
      RunKeepsInv(states, steps, k - 1);
      StepKeepsInv(states[k - 1], steps[k - 1]);
    }
  }

  lemma BackedClaims(f: File, src: seq<Byte>, r: Record, size: int, chunk: int)
    requires |f.vol| == |f.dur| == |src| && Backed(f, src, r, size, chunk)
    ensures forall k :: 0 <= k < |src| && Claims(r, size, chunk, k) ==> f.dur[k] == src[k] && f.vol[k] == src[k]
  {
  }

  /** Crash-safe resume: in every state any sound run can reach, take any sidecar version
      that is stored, or that a power loss could bring back, and that was written beside
      the present .part. Each byte it claims is on the device and is its file's. */
  lemma CrashSafeResume(states: seq<State>, steps: seq<Step>, k: nat, c: Sidecar, b: int)
    requires SoundRun(states, steps) && k < |states|
    requires (states[k].sidecar == Some(c) || c in states[k].past) && c.era == states[k].era
    requires 0 <= b < c.id.size && Claims(c.rec, c.id.size, c.id.chunkSize, b)
    ensures states[k].part.Some? || states[k].staged.Some?
    ensures states[k].staged.None? ==>
      var f := states[k].part.value;
      Sized(f, c.id.size) && f.dur[b] == f.vol[b] == From(ContentOf(c.id), b)
  {
    RunKeepsInv(states, steps, k);
    var s := states[k];
    assert c in s.past && Version(s, c) && Held(s, c);
    if s.staged.None? {
      BackedClaims(s.part.value, Source(ContentOf(s.owner)), c.rec, s.owner.size, s.owner.chunkSize);
    }
  }

  /** A sidecar written for this very file since the present .part came to be is always
      grounded: the condition asks something of the others only. */
  lemma AttachedIsGrounded(s: State)
    requires Inv(s) && s.phase.Loading? && Accepts(s) && Attached(s)
    ensures Grounded(s)
  {
    var c := s.sidecar.value;
    assert Version(s, c) && Held(s, c);
  }

  /** A Download that returns success leaves the source, byte for byte, in cache
      and on the device, whatever happened to earlier attempts. */
  lemma SuccessMeansTheSource(states: seq<State>, steps: seq<Step>, k: nat)
    requires SoundRun(states, steps) && k < |states| && states[k].phase.Returned?
    ensures states[k].staged.Some? && Complete(states[k].staged.value, Source(ContentOf(states[k].id)))
  {
    RunKeepsInv(states, steps, k);
  }

  /** While chunks are fetched, the figure reported is the exact sum over disjoint
      chunks, within the file, and is the size once every chunk is done. */
  lemma ReportedProgressIsExact(states: seq<State>, steps: seq<Step>, k: nat)
    requires SoundRun(states, steps) && k < |states| && states[k].phase.Running?
    ensures var p, n := states[k].phase.pool, Count(states[k]);
            && 0 <= Sum(p.tracker, n) <= Size(states[k])
            && Sum(p.tracker, n) == Total(i => Contribution(p.tracker, p.folded, Size(states[k]), Chunk(states[k]), i), n)
            && (Pending(p.rec) == {} ==> Sum(p.tracker, n) == Size(states[k]))
  {
    RunKeepsInv(states, steps, k);
    var p, n := states[k].phase.pool, Count(states[k]);
    SumWithinFile(p.tracker, p.folded, Size(states[k]), Chunk(states[k]));
    SumIsContributions(p.tracker, p.folded, Size(states[k]), Chunk(states[k]));
    if Pending(p.rec) == {} {
      forall i | 0 <= i < n ensures i in p.folded { assert i !in Pending(p.rec); }
    }
  }

  /** A resumed download starts its progress at what the sidecar claims. */
  lemma ResumedProgressIsTheClaim(s: State, writable: bool)
    requires Inv(s) && Enabled(s, Save(writable)) && Apply(s, Save(writable)).phase.Running?
    ensures Sum(Apply(s, Save(writable)).phase.pool.tracker, Count(s)) == ClaimedBytes(s.phase.rec, Size(s), Chunk(s))
  {
    ClaimedSplits(s.phase.rec, Size(s), Chunk(s));
  }
}
