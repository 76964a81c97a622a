/** A download can always be brought to its end: from every state that earlier attempts,
    however they ended, have left, one undisturbed attempt leads to the finished file. */
module Arrivals {
  import opened Wrappers
  import opened Geometry
  import opened Checkpoint
  import opened CheckpointFiles
  import opened Progress
  import opened Disk
  import opened Flushers
  import opened Resume

  /** A stretch of a sound run, from any state on. */
  ghost predicate Goes(states: seq<State>, steps: seq<Step>) {
    && |states| == |steps| + 1
    && forall k :: 0 <= k < |steps| ==>
         && 0 <= Size(states[k]) && Enabled(states[k], steps[k]) && Sound(states[k], steps[k])
         && states[k + 1] == Apply(states[k], steps[k])
  }

  lemma Then(states: seq<State>, steps: seq<Step>, step: Step) returns (longer: seq<State>, done: seq<Step>, t: State)
    requires Goes(states, steps) && var s := states[|steps|]; Inv(s) && Enabled(s, step) && Sound(s, step)
    ensures Goes(longer, done) && longer == states + [t] && done == steps + [step] && longer[|done|] == t
    ensures t == Apply(states[|steps|], step) && Inv(t)
  {
    t := Apply(states[|steps|], step);
    StepKeepsInv(states[|steps|], step);
    SizesAreThere(states[|steps|]);
    hide Inv, Enabled, Sound, Apply;
    longer, done := states + [t], steps + [step];
  }

  // ----- one chunk

  /** Worker w is at chunk i, and nobody else at work. */
  ghost predicate At(s: State, id: Identity, rec: Record, i: int, w: Worker) {
    && s.phase.Running? && s.id == id
    && var p := s.phase.pool;
      p.workers == map[i := w] && p.todo == Pending(rec) - {i} && p.rec == rec && p.flush.Resting? && !p.failed
  }

  ghost predicate Between(s: State, id: Identity, rec: Record) {
    && s.phase.Running? && s.id == id
    && var p := s.phase.pool;
      p.workers == map[] && p.todo == Pending(rec) && p.rec == rec && p.flush.Resting? && !p.failed
  }

  /** How far the worker has to go. */
  function Left(w: Worker, length: int): int {
    match w
    case Ready => 4 * length + 9
    case Fetching(n) => 4 * (length - n) + 8
    case Wrote(n, extra) => 4 * (length - n - extra) + 10
    case Tracked(n) => 4 * (length - n) + 9
    case Received => 7
    case Folded => 6
    case Forgotten => 5
    case Durable => 0
  }

  lemma WorkerIsPlaced(s: State, id: Identity, rec: Record, i: int, w: Worker)
    requires Inv(s) && At(s, id, rec, i, w)
    ensures 0 <= Size(s) && Full(s) && 0 <= i < |rec.done| && !rec.done[i] && 0 <= ResumeOffset(rec, i) < Len(i, id.size, id.chunkSize)
    ensures 0 <= Lo(i, id.chunkSize) && Lo(i, id.chunkSize) + Len(i, id.size, id.chunkSize) <= id.size
    ensures w.Fetching? || w.Tracked? ==> 0 <= w.written <= Len(i, id.size, id.chunkSize)
    ensures w.Wrote? ==> 0 <= w.written && w.written + w.extra <= Len(i, id.size, id.chunkSize)
  {
    var p := s.phase.pool;
    assert i in p.workers && p.workers[i] == w;
    ChunkIsInside(i, id.size, id.chunkSize);
  }

  /** The worker's next step, and where it takes it. */
  function Next(w: Worker, i: int, offset: int, length: int): (PoolStep, Worker)
    requires !w.Durable?
  {
    match w
    case Ready => (Begin(i), Fetching(offset))
    case Fetching(n) => if n == length then (EndRange(i), Received) else (Write(i, length - n), Wrote(n, length - n))
    case Wrote(n, extra) => (Track(i), Tracked(n + extra))
    case Tracked(n) => (Note(i), Fetching(n))
    case Received => (FoldIn(i), Folded)
    case Folded => (Forget(i), Forgotten)
    case Forgotten => (SyncChunk(i), Durable)
  }

  /** The step is open to it, and takes it there. */
  ghost predicate Leads(s: State, id: Identity, rec: Record, i: int, step: PoolStep, next: Worker) {
    && 0 <= Size(s) && Enabled(s, InPool(step)) && Sound(s, InPool(step))
    && At(Apply(s, InPool(step)), id, rec, i, next)
  }

  lemma PoolLeads(s: State, id: Identity, rec: Record, i: int, step: PoolStep, next: Worker)
    requires 0 <= Size(s) && s.phase.Running? && Full(s) && PoolEnabled(s, s.phase.pool, step)
    requires At(PoolApply(s, s.phase.pool, step), id, rec, i, next)
    ensures Leads(s, id, rec, i, step, next)
  {
    hide PoolEnabled, PoolApply, At;
  }

  lemma ReadyGoesOn(s: State, id: Identity, rec: Record, i: int, w: Worker)
    requires 0 <= Size(s) && At(s, id, rec, i, w) && Full(s) && w.Ready? && 0 <= ResumeOffset(rec, i) < Len(i, id.size, id.chunkSize)
    ensures var (step, next) := Next(w, i, ResumeOffset(rec, i), Len(i, id.size, id.chunkSize)); Leads(s, id, rec, i, step, next)
  {
    hide WithChunk, Leads, Len, Lo;
    var (step, next) := Next(w, i, ResumeOffset(rec, i), Len(i, id.size, id.chunkSize));
    PoolLeads(s, id, rec, i, step, next);
  }

  lemma FetchingGoesOn(s: State, id: Identity, rec: Record, i: int, w: Worker)
    requires 0 <= Size(s) && At(s, id, rec, i, w) && Full(s) && w.Fetching?
    requires 0 <= w.written <= Len(i, id.size, id.chunkSize)
    requires 0 <= Lo(i, id.chunkSize) && Lo(i, id.chunkSize) + Len(i, id.size, id.chunkSize) <= id.size
    ensures var (step, next) := Next(w, i, ResumeOffset(rec, i), Len(i, id.size, id.chunkSize)); Leads(s, id, rec, i, step, next)
  {
    hide WriteAt, Leads, Len, Lo, Src;
    var (step, next) := Next(w, i, ResumeOffset(rec, i), Len(i, id.size, id.chunkSize));
    PoolLeads(s, id, rec, i, step, next);
  }

  lemma CountingGoesOn(s: State, id: Identity, rec: Record, i: int, w: Worker)
    requires 0 <= Size(s) && At(s, id, rec, i, w) && Full(s) && (w.Wrote? || w.Tracked?)
    ensures var (step, next) := Next(w, i, ResumeOffset(rec, i), Len(i, id.size, id.chunkSize)); Leads(s, id, rec, i, step, next)
  {
    hide WithChunk, Noted, Leads, Len, Lo;
    var (step, next) := Next(w, i, ResumeOffset(rec, i), Len(i, id.size, id.chunkSize));
    PoolLeads(s, id, rec, i, step, next);
  }

  lemma EndingGoesOn(s: State, id: Identity, rec: Record, i: int, w: Worker)
    requires 0 <= Size(s) && At(s, id, rec, i, w) && Full(s) && (w.Received? || w.Folded? || w.Forgotten?)
    ensures var (step, next) := Next(w, i, ResumeOffset(rec, i), Len(i, id.size, id.chunkSize)); Leads(s, id, rec, i, step, next)
  {
    hide Fold, Flushers.Forgotten, Sync, Leads, Len, Lo;
    var (step, next) := Next(w, i, ResumeOffset(rec, i), Len(i, id.size, id.chunkSize));
    PoolLeads(s, id, rec, i, step, next);
  }

  lemma StepBringsNearer(w: Worker, i: int, offset: int, length: int)
    requires !w.Durable? && 0 <= offset < length
    requires w.Fetching? || w.Tracked? ==> 0 <= w.written <= length
    requires w.Wrote? ==> w.written + w.extra <= length
    ensures 0 <= Left(Next(w, i, offset, length).1, length) < Left(w, length)
  {
  }

  lemma WorkerGoesOn(s: State, id: Identity, rec: Record, i: int, w: Worker)
    requires Inv(s) && At(s, id, rec, i, w) && !w.Durable?
    ensures var (step, next) := Next(w, i, ResumeOffset(rec, i), Len(i, id.size, id.chunkSize));
      && Leads(s, id, rec, i, step, next)
      && 0 <= Left(next, Len(i, id.size, id.chunkSize)) < Left(w, Len(i, id.size, id.chunkSize))
  {
    WorkerIsPlaced(s, id, rec, i, w);
    hide Inv, At, Leads, Len, Next, Left;
    StepBringsNearer(w, i, ResumeOffset(rec, i), Len(i, id.size, id.chunkSize));
    if w.Ready? { ReadyGoesOn(s, id, rec, i, w); }
    else if w.Fetching? { FetchingGoesOn(s, id, rec, i, w); }
    else if w.Wrote? || w.Tracked? { CountingGoesOn(s, id, rec, i, w); }
    else { EndingGoesOn(s, id, rec, i, w); }
  }

  /** The chunk arrives, and the sidecar says so. */
  lemma {:induction false} ChunkArrives(states: seq<State>, steps: seq<Step>, id: Identity, rec: Record, i: int, w: Worker)
      returns (longer: seq<State>, done: seq<Step>)
    requires Goes(states, steps) && Inv(states[|steps|]) && At(states[|steps|], id, rec, i, w)
    ensures Goes(longer, done) && states <= longer && steps <= done && Inv(longer[|done|])
    ensures 0 <= i < |rec.done| && !rec.done[i] && Between(longer[|done|], id, WithDone(rec, i))
    decreases Left(w, Len(i, id.size, id.chunkSize))
  {
    var s := states[|steps|];
    WorkerIsPlaced(s, id, rec, i, w);
    hide Inv, Goes, Len;
    if w.Durable? {
      ChunkIsMarked(s, id, rec, i);
      var t: State;
      longer, done, t := Then(states, steps, InPool(MarkDone(i, true)));
    } else {
      WorkerGoesOn(s, id, rec, i, w);
      var (step, next) := Next(w, i, ResumeOffset(rec, i), Len(i, id.size, id.chunkSize));
      var t: State;
      longer, done, t := Then(states, steps, InPool(step));
      longer, done := ChunkArrives(longer, done, id, rec, i, next);
    }
  }

  lemma ChunkIsMarked(s: State, id: Identity, rec: Record, i: int)
    requires Inv(s) && At(s, id, rec, i, Durable)
    ensures 0 <= Size(s) && Enabled(s, InPool(MarkDone(i, true))) && Sound(s, InPool(MarkDone(i, true)))
    ensures 0 <= i < |rec.done| && Between(Apply(s, InPool(MarkDone(i, true))), id, WithDone(rec, i))
  {
    WorkerIsPlaced(s, id, rec, i, Durable);
    assert Pending(WithDone(rec, i)) == Pending(rec) - {i};
  }

  // ----- all of them

  lemma ChunkIsPicked(s: State, id: Identity, rec: Record, i: int)
    requires Inv(s) && Between(s, id, rec) && i in Pending(rec)
    ensures 0 <= Size(s) && Enabled(s, InPool(Pick(i))) && Sound(s, InPool(Pick(i)))
    ensures At(Apply(s, InPool(Pick(i))), id, rec, i, Ready)
  {
  }

  lemma PickedArrives(states: seq<State>, steps: seq<Step>, id: Identity, rec: Record, i: int)
      returns (longer: seq<State>, done: seq<Step>)
    requires Goes(states, steps) && Inv(states[|steps|]) && Between(states[|steps|], id, rec) && i in Pending(rec)
    ensures Goes(longer, done) && states <= longer && steps <= done && Inv(longer[|done|])
    ensures 0 <= i < |rec.done| && Between(longer[|done|], id, WithDone(rec, i))
  {
    ChunkIsPicked(states[|steps|], id, rec, i);
    hide Inv, Goes, Between, At, Enabled, Sound, Apply;
    var t: State;
    longer, done, t := Then(states, steps, InPool(Pick(i)));
    longer, done := ChunkArrives(longer, done, id, rec, i, Ready);
  }

  lemma {:induction false} AllArrive(states: seq<State>, steps: seq<Step>, id: Identity, rec: Record)
      returns (longer: seq<State>, done: seq<Step>, last: Record)
    requires Goes(states, steps) && Inv(states[|steps|]) && Between(states[|steps|], id, rec)
    ensures Goes(longer, done) && states <= longer && steps <= done && Inv(longer[|done|])
    ensures Between(longer[|done|], id, last) && Pending(last) == {}
    decreases |Pending(rec)|
  {
    hide Inv, Goes, Between;
    longer, done, last := states, steps, rec;
    if i :| i in Pending(rec) {
      longer, done := PickedArrives(states, steps, id, rec, i);
      assert Pending(WithDone(rec, i)) == Pending(rec) - {i};
      longer, done, last := AllArrive(longer, done, id, WithDone(rec, i));
    }
  }

  // ----- a whole attempt

  lemma AttemptLoads(states: seq<State>, steps: seq<Step>, id: Identity)
      returns (longer: seq<State>, done: seq<Step>, rec: Record)
    requires Goes(states, steps) && var s := states[|steps|];
      && Inv(s) && s.phase.Idle? && WellFormed(id) && !Reuses(s, id) && Sound(Apply(s, Start(id)), Load)
    ensures Goes(longer, done) && states <= longer && steps <= done && Inv(longer[|done|])
    ensures longer[|done|].phase == Opening(rec) && longer[|done|].id == id
  {
    hide Inv, Goes;
    var t: State;
    longer, done, t := Then(states, steps, Start(id));
    longer, done, t := Then(longer, done, Load);
    rec := t.phase.rec;
  }

  /** Up to the pool, or past it when nothing is left to fetch. */
  lemma AttemptBegins(states: seq<State>, steps: seq<Step>, id: Identity, rec: Record)
      returns (longer: seq<State>, done: seq<Step>)
    requires Goes(states, steps) && var s := states[|steps|]; Inv(s) && s.phase == Opening(rec) && s.id == id
    ensures Goes(longer, done) && states <= longer && steps <= done && Inv(longer[|done|])
    ensures var t := longer[|done|]; (t.phase == Closing(rec) && t.id == id) || Between(t, id, rec)
  {
    hide Inv, Goes;
    var t: State;
    longer, done, t := Then(states, steps, Open);
    PartIsThere(t);
    longer, done, t := Then(longer, done, Truncate);
    longer, done, t := Then(longer, done, Save(true));
  }

  lemma PartIsThere(s: State)
    requires Inv(s) && (s.phase.Sizing? || s.phase.Closing?)
    ensures s.part.Some? && |s.part.value.vol| == |s.part.value.dur|
  {
  }

  lemma PoolEnds(s: State, id: Identity, rec: Record)
    requires Inv(s) && Between(s, id, rec) && Pending(rec) == {}
    ensures Enabled(s, InPool(Finish)) && 0 <= Size(s)
    ensures var t := Apply(s, InPool(Finish)); t.phase == Closing(rec) && t.id == id
  {
  }

  lemma AttemptEnds(states: seq<State>, steps: seq<Step>, rec: Record) returns (longer: seq<State>, done: seq<Step>)
    requires Goes(states, steps) && Inv(states[|steps|]) && states[|steps|].phase == Closing(rec)
    ensures Goes(longer, done) && states <= longer && steps <= done && Inv(longer[|done|])
    ensures longer[|done|].phase.Returned? && longer[|done|].id == states[|steps|].id && longer[|done|].sidecar.None?
  {
    PartIsThere(states[|steps|]);
    hide Inv, Goes;
    var t: State;
    longer, done, t := Then(states, steps, Rename);
    longer, done, t := Then(longer, done, RemoveSidecar);
  }

  lemma Reusing(states: seq<State>, steps: seq<Step>, id: Identity) returns (longer: seq<State>, done: seq<Step>)
    requires Goes(states, steps) && var s := states[|steps|];
      Inv(s) && s.phase.Idle? && WellFormed(id) && Reuses(s, id) && Sound(s, Start(id))
    ensures Goes(longer, done) && states <= longer && steps <= done && Inv(longer[|done|])
    ensures longer[|done|].phase.Returned? && longer[|done|].id == id && longer[|done|].sidecar.None?
  {
    hide Inv, Goes;
    var t: State;
    longer, done, t := Then(states, steps, Start(id));
    longer, done, t := Then(longer, done, DropPart);
    longer, done, t := Then(longer, done, DropSidecar);
  }

  lemma PoolArrives(states: seq<State>, steps: seq<Step>, id: Identity, rec: Record)
      returns (longer: seq<State>, done: seq<Step>)
    requires Goes(states, steps) && Inv(states[|steps|]) && Between(states[|steps|], id, rec)
    ensures Goes(longer, done) && states <= longer && steps <= done && Inv(longer[|done|])
    ensures longer[|done|].phase.Returned? && longer[|done|].id == id && longer[|done|].sidecar.None?
  {
    hide Inv, Between, Sound, Apply, Enabled;
    var last: Record, t: State;
    longer, done, last := AllArrive(states, steps, id, rec);
    PoolEnds(longer[|done|], id, last);
    FinishIsSound(longer[|done|]);
    longer, done, t := Then(longer, done, InPool(Finish));
    longer, done := AttemptEnds(longer, done, last);
  }

  lemma FinishIsSound(s: State)
    requires 0 <= Size(s)
    ensures Sound(s, InPool(Finish))
  {
  }

  lemma AttemptArrives(states: seq<State>, steps: seq<Step>, id: Identity) returns (longer: seq<State>, done: seq<Step>)
    requires Goes(states, steps) && var s := states[|steps|];
      && Inv(s) && s.phase.Idle? && WellFormed(id) && Sound(s, Start(id))
      && (!Reuses(s, id) ==> Sound(Apply(s, Start(id)), Load))
    ensures Goes(longer, done) && states <= longer && steps <= done && Inv(longer[|done|])
    ensures longer[|done|].phase.Returned? && longer[|done|].id == id && longer[|done|].sidecar.None?
  {
    hide Inv, Between, Sound, Apply, Enabled;
    if Reuses(states[|steps|], id) {
      longer, done := Reusing(states, steps, id);
    } else {
      var rec: Record;
      longer, done, rec := AttemptLoads(states, steps, id);
      longer, done := AttemptBegins(longer, done, id, rec);
      if longer[|done|].phase == Closing(rec) && longer[|done|].id == id {
        longer, done := AttemptEnds(longer, done, rec);
      } else {
        longer, done := PoolArrives(longer, done, id, rec);
      }
    }
  }

  // ----- what an attempt need not fetch

  /** A staged file of the right size is taken as it is: nothing is fetched, and only the
      leftovers of earlier attempts go. */
  lemma StagedFileIsReused(s: State, id: Identity) returns (states: seq<State>, steps: seq<Step>)
    requires Inv(s) && s.phase.Idle? && WellFormed(id) && Sound(s, Start(id))
    requires s.staged.Some? && |s.staged.value.vol| == id.size
    ensures Goes(states, steps) && states[0] == s && steps == [Start(id), DropPart, DropSidecar]
    ensures states[3].phase.Returned? && states[3].staged == s.staged && states[3].part.None? && states[3].sidecar.None?
  {
    hide Inv, Sound;
    var t: State;
    states, steps, t := Then([s], [], Start(id));
    NoSoundness(t, DropPart);
    states, steps, t := Then(states, steps, DropPart);
    NoSoundness(t, DropSidecar);
    states, steps, t := Then(states, steps, DropSidecar);
  }

  lemma NoSoundness(s: State, step: Step)
    requires 0 <= Size(s) && !step.Start? && !step.Load?
    ensures Sound(s, step)
  {
  }

  /** Exactly the chunks the record does not call finished are to be fetched, and the progress
      starts at what it claims. */
  ghost predicate FetchesTheRest(t: State, rec: Record) {
    if forall i :: 0 <= i < |rec.done| ==> rec.done[i] then t.phase == Closing(rec)
    else
      && t.phase.Running? && t.phase.pool.rec == rec && t.phase.pool.workers == map[]
      && (forall i :: i in t.phase.pool.todo <==> 0 <= i < |rec.done| && !rec.done[i])
      && Sum(t.phase.pool.tracker, Count(t)) == ClaimedBytes(rec, Size(t), Chunk(t))
  }

  /** A sidecar that may be for this file, beside a .part of its size, is resumed: .part stays
      byte for byte, and only the rest is fetched. */
  lemma SidecarIsResumed(s: State) returns (states: seq<State>, steps: seq<Step>)
    requires Inv(s) && s.phase.Loading? && Sound(s, Load) && s.sidecar.Some?
    requires s.part.Some? && |s.part.value.vol| == |s.part.value.dur| == Size(s)
    requires var was, want := s.sidecar.value.id, s.id;
      && was.driveID == want.driveID && was.fileID == want.fileID && was.size == want.size && was.chunkSize == want.chunkSize
      && (was.hash == want.hash || was.hash == "" || want.hash == "")
    ensures Goes(states, steps) && states[0] == s && steps == [Load, Open, Truncate, Save(true)]
    ensures states[4].part == s.part && states[4].id == s.id && FetchesTheRest(states[4], s.sidecar.value.rec)
  {
    var rec := s.sidecar.value.rec;
    SidecarIsTaken(s);
    hide *;
    states, steps := SidecarIsOpened(s, rec);
    states, steps := RestIsFetched(states, steps, rec);
    assert steps == [Load, Open, Truncate, Save(true)];
  }

  lemma SidecarIsOpened(s: State, rec: Record) returns (states: seq<State>, steps: seq<Step>)
    requires Inv(s) && Sound(s, Load) && Enabled(s, Load)
    requires var t := Apply(s, Load); t.phase == Opening(rec) && t.part == s.part && t.id == s.id && s.part.Some?
    ensures Goes(states, steps) && |states| == 3 && states[0] == s && steps == [Load, Open] && Inv(states[2])
    ensures var t := states[2]; t.phase == Sizing(rec) && t.part == s.part && t.id == s.id
  {
    hide Inv, Sound, Enabled, Apply;
    var t: State;
    states, steps, t := Then([s], [], Load);
    SizesAreThere(t);
    OpenSpares(t, rec);
    states, steps, t := Then(states, steps, Open);
  }

  lemma RestIsFetched(states: seq<State>, steps: seq<Step>, rec: Record) returns (longer: seq<State>, done: seq<Step>)
    requires Goes(states, steps) && var s := states[|steps|];
      && Inv(s) && s.phase == Sizing(rec) && s.part.Some? && |s.part.value.vol| == |s.part.value.dur| == Size(s)
    ensures Goes(longer, done) && states <= longer && |longer| == |states| + 2 && done == steps + [Truncate, Save(true)]
    ensures var s, t := states[|steps|], longer[|done|]; t.part == s.part && t.id == s.id && FetchesTheRest(t, rec)
  {
    hide Inv, Sound, Enabled, Apply, FetchesTheRest;
    var t := states[|steps|];
    SizesAreThere(t);
    TruncateSpares(t, rec);
    NoSoundness(t, Truncate);
    longer, done, t := Then(states, steps, Truncate);
    SizesAreThere(t);
    PoolStarts(t, rec);
    NoSoundness(t, Save(true));
    longer, done, t := Then(longer, done, Save(true));
  }

  lemma SizesAreThere(s: State)
    requires Inv(s)
    ensures 0 <= Size(s)
  {
  }

  lemma SidecarIsTaken(s: State)
    requires s.phase.Loading? && s.sidecar.Some? && s.part.Some? && |s.part.value.vol| == |s.part.value.dur| == Size(s)
    requires var was, want := s.sidecar.value.id, s.id;
      && was.driveID == want.driveID && was.fileID == want.fileID && was.size == want.size && was.chunkSize == want.chunkSize
      && (was.hash == want.hash || was.hash == "" || want.hash == "")
    ensures 0 <= Size(s) && Enabled(s, Load)
    ensures var t := Apply(s, Load); t.phase == Opening(s.sidecar.value.rec) && t.part == s.part && t.id == s.id
  {
  }

  lemma OpenSpares(s: State, rec: Record)
    requires s.phase == Opening(rec) && s.part.Some? && 0 <= Size(s)
    ensures Enabled(s, Open) && Sound(s, Open)
    ensures var t := Apply(s, Open); t.phase == Sizing(rec) && t.part == s.part && t.id == s.id
  {
  }

  lemma TruncateSpares(s: State, rec: Record)
    requires s.phase == Sizing(rec) && s.part.Some? && |s.part.value.vol| == |s.part.value.dur| == Size(s)
    ensures Enabled(s, Truncate)
    ensures var t := Apply(s, Truncate); t.phase == Saving(rec) && t.part == s.part && t.id == s.id
  {
    RightSizeStays(s.part.value, Size(s));
  }

  lemma PoolStarts(s: State, rec: Record)
    requires Inv(s) && s.phase == Saving(rec)
    ensures 0 <= Size(s) && Enabled(s, Save(true))
    ensures var t := Apply(s, Save(true)); t.part == s.part && t.id == s.id && FetchesTheRest(t, rec)
  {
    if i :| 0 <= i < |rec.done| && !rec.done[i] {
      assert i in Pending(rec);
      ResumedProgressIsTheClaim(s, true);
    }
  }

  lemma RightSizeStays(f: File, size: nat)
    requires |f.vol| == |f.dur| == size
    ensures Resize(f, size) == f
  {
  }

  /** Any other leftover is given up: an empty .part, and everything to be fetched. */
  lemma OtherLeftoversAreGivenUp(s: State)
    requires Inv(s) && s.phase.Loading?
    requires s.sidecar.None? || s.part.None? || |s.part.value.vol| != Size(s)
      || (var was, want := s.sidecar.value.id, s.id;
           || was.driveID != want.driveID || was.fileID != want.fileID || was.size != want.size
           || was.chunkSize != want.chunkSize || (was.hash != want.hash && was.hash != "" && want.hash != ""))
    ensures Enabled(s, Load) && 0 <= Size(s)
    ensures var t := Apply(s, Load);
      && t.part.None? && t.phase.Opening? && t.phase.rec.partial == map[]
      && |t.phase.rec.done| == Count(s) && forall i :: 0 <= i < Count(s) ==> !t.phase.rec.done[i]
  {
  }

  /** No sound run is stuck: whatever has happened to a download, kill it where it stands and
      start it again, for the same file or for another, and there is a way on that ends with
      the file wanted, complete in cache and on the device, and nothing else left behind. Only
      what that attempt takes over must be of the same content, as in every sound run. */
  lemma EveryDownloadCanFinish(states: seq<State>, steps: seq<Step>, id: Identity) returns (longer: seq<State>, done: seq<Step>)
    requires SoundRun(states, steps) && WellFormed(id)
    requires var s := states[|steps|].(phase := Idle);
      && 0 <= Size(s) && Sound(s, Start(id))
      && (!Reuses(s, id) ==> Sound(Apply(s, Start(id)), Load))
    ensures SoundRun(longer, done) && states <= longer && steps <= done
    ensures var t := longer[|done|];
      && t.phase.Returned? && t.id == id && t.part.None? && t.sidecar.None?
      && t.staged == Some(File(Source(ContentOf(id)), Source(ContentOf(id))))
  {
    RunKeepsInv(states, steps, |steps|);
    var t: State;
    assert Goes(states, steps);
    longer, done, t := Then(states, steps, Abandon);
    longer, done := AttemptArrives(longer, done, id);
    RunKeepsInv(longer, done, |done|);
  }
}
