/** When an attempt may take over what an earlier one left behind: the exact conditions
    under which the early-reuse branch and the load branch of Download return the right
    bytes. */
module Takeover {
  import opened Wrappers
  import opened Geometry
  import opened Checkpoint
  import opened CheckpointFiles
  import opened Progress
  import opened Disk
  import opened Flushers
  import opened Resume

  // ----- the reuse branch

  lemma SourcesDiffer(a: Content, b: Content)
    requires 0 <= a.size == b.size
    ensures Source(a) == Source(b) <==> a == b || a.size == 0
  {
    if a != b && a.size > 0 {
      assert Source(a)[0] != Source(b)[0];
    }
  }

  ghost function AfterReuse(s: State, id: Identity): State
    requires s.staged.Some? && 0 <= Size(s) && Enabled(s, Start(id)) && Reuses(s, id)
  {
    Apply(Apply(Apply(s, Start(id)), DropPart), DropSidecar)
  }

  /** The early-reuse branch compares sizes only. What it returns reads like the wanted
      file, whatever the files hold, exactly when the staged file was downloaded as that
      content (in chunks of any size), or is empty. */
  lemma ReuseIsRightExactlyForTheSameContent(s: State, id: Identity)
    requires Inv(s) && Enabled(s, Start(id)) && Reuses(s, id)
    ensures AfterReuse(s, id).phase.Returned? && AfterReuse(s, id).staged == s.staged
    ensures ReadAlike(s.staged.value.vol, Source(ContentOf(id))) <==> s.stagedFor == ContentOf(id) || id.size == 0
  {
    OriginsDecide(s.staged.value.vol, Source(ContentOf(id)));
    SourcesDiffer(s.stagedFor, ContentOf(id));
  }

  // ----- the load branch

  /** A step of the attempt that Load belongs to. */
  predicate InAttempt(step: Step) {
    !step.Start? && !step.Abandon? && !step.PowerLoss? && !step.DiscardSidecar? && !step.DiscardPart? && !step.DiscardStaged?
  }

  ghost predicate Attempt(states: seq<State>, steps: seq<Step>) {
    && |states| == |steps| + 1 && |steps| > 0 && steps[0].Load?
    && (forall i :: 0 <= i < |steps| ==>
          0 <= Size(states[i]) && Enabled(states[i], steps[i]) && InAttempt(steps[i]) && states[i + 1] == Apply(states[i], steps[i]))
  }

  /** Each byte the accepted sidecar claims reads as the wanted file's. */
  ghost predicate ClaimsAreRight(s: State)
    requires 0 <= Size(s) && Accepts(s)
  {
    forall k :: 0 <= k < Size(s) && Claims(s.sidecar.value.rec, Size(s), Chunk(s), k) ==> s.part.value.vol[k] == Src(s)[k]
  }

  lemma GroundedIsBoth(s: State)
    requires Inv(s) && s.phase.Loading? && Accepts(s)
    ensures Grounded(s) <==>
      forall k :: 0 <= k < Size(s) && Claims(s.sidecar.value.rec, Size(s), Chunk(s), k) ==>
        s.part.value.vol[k] == Src(s)[k] && s.part.value.dur[k] == Src(s)[k]
  {
    var c, f := s.sidecar.value, s.part.value;
    assert Version(s, c);
    if forall k :: 0 <= k < Size(s) && Claims(c.rec, Size(s), Chunk(s), k) ==> f.vol[k] == Src(s)[k] && f.dur[k] == Src(s)[k] {
      forall i | 0 <= i < |c.rec.done| && c.rec.done[i]
        ensures Good(f, Src(s), Lo(i, Chunk(s)), Hi(i, Size(s), Chunk(s)))
      {
        forall k | 0 <= k < Size(s) && Lo(i, Chunk(s)) <= k < Hi(i, Size(s), Chunk(s))
          ensures Claims(c.rec, Size(s), Chunk(s), k)
        {
        }
      }
      forall i | i in c.rec.partial ensures Good(f, Src(s), Lo(i, Chunk(s)), Lo(i, Chunk(s)) + c.rec.partial[i]) {
        forall k | 0 <= k < Size(s) && Lo(i, Chunk(s)) <= k < Lo(i, Chunk(s)) + c.rec.partial[i]
          ensures Claims(c.rec, Size(s), Chunk(s), k)
        {
        }
      }
    }
  }

  // ----- a wrong claimed byte stays

  predicate Skips(r: Record, i: int, k: int, chunk: int) {
    0 <= i < |r.done| && (r.done[i] || (i in r.partial && k < Lo(i, chunk) + r.partial[i]))
  }

  predicate Beyond(at: map<int, int>, i: int, k: int, size: int, chunk: int) {
    i in at && k < Lo(i, chunk) + at[i] && at[i] < Len(i, size, chunk) && 0 < at[i]
  }

  /** Chunk i may still be fetched from the offset its record holds. */
  predicate Going(p: Pool, i: int, size: int, chunk: int) {
    || i in p.todo
    || (i in p.workers &&
        (p.workers[i].Ready? || p.workers[i].Wrote?
         || ((p.workers[i].Fetching? || p.workers[i].Tracked?) && p.workers[i].written < Len(i, size, chunk))))
  }

  predicate Taken(p: Pool, i: int, k: int, size: int, chunk: int) {
    match p.flush
    case Resting => true
    case Snapped(taken) => Beyond(taken, i, k, size, chunk)
    case Safe(taken) => Beyond(taken, i, k, size, chunk)
  }

  /** The bookkeeping of the pool, whatever is in the file. */
  ghost predicate Ordered(p: Pool, size: int, chunk: int) {
    && ValidRecord(p.rec, size, chunk)
    && (forall i :: i in p.todo ==> 0 <= i < |p.rec.done| && !p.rec.done[i] && i !in p.workers)
    && (forall i :: i in p.workers ==> 0 <= i < |p.rec.done| && !p.rec.done[i] && Placed(p.workers[i], i, size, chunk))
  }

  predicate Placed(w: Worker, i: int, size: int, chunk: int) {
    match w
    case Fetching(n) => 0 <= n <= Len(i, size, chunk)
    case Tracked(n) => 0 < n <= Len(i, size, chunk)
    case Wrote(n, e) => 0 <= n && 0 < e && n + e <= Len(i, size, chunk)
    case _ => true
  }

  /** No worker will write at k, in chunk i, again. */
  predicate Spared(p: Pool, i: int, k: int, size: int, chunk: int) {
    && (Going(p, i, size, chunk) ==>
          Skips(p.rec, i, k, chunk) && Beyond(p.offsets.at, i, k, size, chunk) && Taken(p, i, k, size, chunk))
    && (i in p.workers && p.workers[i].Fetching? ==> k < Lo(i, chunk) + p.workers[i].written)
    && (i in p.workers && (p.workers[i].Wrote? || p.workers[i].Tracked?) ==> k < Lo(i, chunk) + p.workers[i].written)
  }

  lemma FetchingKeepsSpared(s: State, p: Pool, step: PoolStep, i: int, k: int)
    requires s.phase == Running(p) && Full(s) && WellFormed(s.id) && PoolEnabled(s, p, step)
    requires Ordered(p, Size(s), Chunk(s)) && Spared(p, i, k, Size(s), Chunk(s))
    requires step.Begin? || step.Write?
    ensures var t := PoolApply(s, p, step);
      t.phase.Running? && Ordered(t.phase.pool, Size(s), Chunk(s)) && Spared(t.phase.pool, i, k, Size(s), Chunk(s))
  {
    AllInside(Size(s), Chunk(s));
    hide Sync, WriteAt, Fold, WithChunk;
  }

  lemma CountingKeepsSpared(s: State, p: Pool, step: PoolStep, i: int, k: int)
    requires s.phase == Running(p) && Full(s) && WellFormed(s.id) && PoolEnabled(s, p, step)
    requires Ordered(p, Size(s), Chunk(s)) && Spared(p, i, k, Size(s), Chunk(s))
    requires step.Track? || step.Note?
    ensures var t := PoolApply(s, p, step);
      t.phase.Running? && Ordered(t.phase.pool, Size(s), Chunk(s)) && Spared(t.phase.pool, i, k, Size(s), Chunk(s))
  {
    AllInside(Size(s), Chunk(s));
    hide Sync, WriteAt, Fold, WithChunk;
  }

  lemma TurningKeepsSpared(s: State, p: Pool, step: PoolStep, i: int, k: int)
    requires s.phase == Running(p) && Full(s) && WellFormed(s.id) && PoolEnabled(s, p, step)
    requires Ordered(p, Size(s), Chunk(s)) && Spared(p, i, k, Size(s), Chunk(s))
    requires step.Pick? || step.Retry?
    ensures var t := PoolApply(s, p, step);
      t.phase.Running? && Ordered(t.phase.pool, Size(s), Chunk(s)) && Spared(t.phase.pool, i, k, Size(s), Chunk(s))
  {
    hide Sync, WriteAt, Fold, WithChunk;
  }

  lemma EndingKeepsSpared(s: State, p: Pool, step: PoolStep, i: int, k: int)
    requires s.phase == Running(p) && Full(s) && WellFormed(s.id) && PoolEnabled(s, p, step)
    requires Ordered(p, Size(s), Chunk(s)) && Spared(p, i, k, Size(s), Chunk(s))
    requires step.EndRange? || step.FoldIn? || step.Forget? || step.SyncChunk? || step.Fail?
    ensures var t := PoolApply(s, p, step);
      t.phase.Running? && Ordered(t.phase.pool, Size(s), Chunk(s)) && Spared(t.phase.pool, i, k, Size(s), Chunk(s))
  {
    AllInside(Size(s), Chunk(s));
    hide Sync, WriteAt, Fold, WithChunk;
  }

  lemma FlushKeepsSpared(s: State, p: Pool, step: PoolStep, i: int, k: int)
    requires s.phase == Running(p) && Full(s) && WellFormed(s.id) && PoolEnabled(s, p, step)
    requires Ordered(p, Size(s), Chunk(s)) && Spared(p, i, k, Size(s), Chunk(s))
    requires step.MarkDone? || step.Snapshot? || step.SyncSnapshot? || step.SyncFailed? || step.Record_?
    ensures var t := PoolApply(s, p, step);
      t.phase.Running? && Ordered(t.phase.pool, Size(s), Chunk(s)) && Spared(t.phase.pool, i, k, Size(s), Chunk(s))
  {
    hide Sync;
    if step.MarkDone? {
      MutatorsKeepRecordsValid(p.rec, Size(s), Chunk(s), map[], step.i);
    } else if step.Record_? {
      MutatorsKeepRecordsValid(p.rec, Size(s), Chunk(s), p.flush.taken, -1);
    }
  }

  /** The byte at k is not the wanted file's, and the attempt will not write there. */
  ghost predicate Stuck(s: State, k: int) {
    && WellFormed(s.id) && 0 <= k < Size(s)
    && var i, size, chunk := k / Chunk(s), Size(s), Chunk(s);
    match s.phase
    case Opening(r) => ValidRecord(r, size, chunk) && Skips(r, i, k, chunk) && WrongPart(s, k)
    case Sizing(r) => ValidRecord(r, size, chunk) && Skips(r, i, k, chunk) && WrongPart(s, k)
    case Saving(r) => ValidRecord(r, size, chunk) && Skips(r, i, k, chunk) && WrongPart(s, k)
    case Running(p) => Ordered(p, size, chunk) && Spared(p, i, k, size, chunk) && WrongPart(s, k)
    case Closing(_) => WrongPart(s, k)
    case Renamed => s.staged.Some? && k < |s.staged.value.vol| && s.staged.value.vol[k] != Src(s)[k]
    case Returned => s.staged.Some? && k < |s.staged.value.vol| && s.staged.value.vol[k] != Src(s)[k]
    case _ => s.phase.Idle?
  }

  ghost predicate WrongPart(s: State, k: int)
    requires 0 <= k < Size(s)
  {
    Full(s) && s.part.value.vol[k] != Src(s)[k]
  }

  /** A write by any worker leaves the byte at k alone. */
  lemma WriteSpares(s: State, p: Pool, j: int, n: int, k: int)
    requires s.phase == Running(p) && Full(s) && WellFormed(s.id) && PoolEnabled(s, p, Write(j, n)) && 0 <= k < Size(s)
    requires Ordered(p, Size(s), Chunk(s)) && Spared(p, k / Chunk(s), k, Size(s), Chunk(s))
    ensures var t := PoolApply(s, p, Write(j, n)); Full(t) && t.part.value.vol[k] == s.part.value.vol[k]
  {
    var size, chunk := Size(s), Chunk(s);
    ByteHasOneChunk(k, size, chunk);
    ChunkIsInside(j, size, chunk);
    var at := Lo(j, chunk) + p.workers[j].written;
    WrittenByte(s.part.value, Src(s)[at..at + n], at, k);
    if j != k / chunk {
      assert !(Lo(j, chunk) <= k < Hi(j, size, chunk));
    }
  }

  lemma PoolKeepsStuck(s: State, step: PoolStep, k: int)
    requires s.phase.Running? && Stuck(s, k) && Enabled(s, InPool(step)) && !step.Finish? && !step.GiveUp?
    ensures Stuck(PoolApply(s, s.phase.pool, step), k)
  {
    var p, i := s.phase.pool, k / Chunk(s);
    var t := PoolApply(s, p, step);
    if step.Write? { WriteSpares(s, p, step.i, step.n, k); }
    assert WrongPart(t, k) by { PartIsKept(s, p, step, k); }
    hide Ordered, Spared, PoolApply, WrongPart, PoolEnabled;
    if step.Pick? || step.Retry? {
      TurningKeepsSpared(s, p, step, i, k);
    } else if step.Track? || step.Note? {
      CountingKeepsSpared(s, p, step, i, k);
    } else if step.Begin? || step.Write? {
      FetchingKeepsSpared(s, p, step, i, k);
    } else if step.EndRange? || step.FoldIn? || step.Forget? || step.SyncChunk? || step.Fail? {
      EndingKeepsSpared(s, p, step, i, k);
    } else {
      FlushKeepsSpared(s, p, step, i, k);
    }
  }

  lemma PartIsKept(s: State, p: Pool, step: PoolStep, k: int)
    requires s.phase == Running(p) && Full(s) && PoolEnabled(s, p, step) && 0 <= k < Size(s) && WrongPart(s, k)
    requires step.Write? ==> var t := PoolApply(s, p, step); Full(t) && t.part.value.vol[k] == s.part.value.vol[k]
    ensures var t := PoolApply(s, p, step); t.id == s.id && WrongPart(t, k)
  {
    hide WriteAt;
  }

  lemma StepKeepsStuck(s: State, step: Step, k: int)
    requires Stuck(s, k) && Enabled(s, step) && InAttempt(step) && !s.phase.Idle?
    ensures Stuck(Apply(s, step), k)
  {
    if step.InPool? && !step.step.Finish? && !step.step.GiveUp? {
      hide Stuck;
      PoolKeepsStuck(s, step.step, k);
    } else if step.Save? {
      SaveKeepsStuck(s, step.writable, k);
    } else if step.Truncate? {
      assert Resize(s.part.value, Size(s)) == s.part.value;
    }
  }

  lemma SaveKeepsStuck(s: State, writable: bool, k: int)
    requires Stuck(s, k) && Enabled(s, Save(writable))
    ensures Stuck(Apply(s, Save(writable)), k)
  {
    var i, r := k / Chunk(s), s.phase.rec;
    ByteHasOneChunk(k, Size(s), Chunk(s));
    AllInside(Size(s), Chunk(s));
  }

  lemma {:induction false} StaysStuck(states: seq<State>, steps: seq<Step>, n: nat, k: int)
    requires Attempt(states, steps) && 0 < n < |states| && Stuck(states[1], k)
    requires forall m :: 0 <= m < n ==> !states[m].phase.Idle?
    ensures Stuck(states[n], k) && states[n].id == states[1].id
  {
    if n > 1 {
      StaysStuck(states, steps, n - 1, k);
      StepKeepsStuck(states[n - 1], steps[n - 1], k);
    }
  }

  /** An attempt that has gone idle stays idle. */
  lemma {:induction false} NeverIdle(states: seq<State>, steps: seq<Step>, n: nat)
    requires Attempt(states, steps) && n < |states| && !states[n].phase.Idle?
    ensures forall m :: 0 <= m <= n ==> !states[m].phase.Idle?
  {
    if n > 0 {
      assert Enabled(states[n - 1], steps[n - 1]) && InAttempt(steps[n - 1]);
      NeverIdle(states, steps, n - 1);
    }
  }

  // ----- a right one is enough

  /** The same state but for what is on the device. */
  predicate SameCache(f: Option<File>, g: Option<File>) {
    f.Some? == g.Some? && (f.Some? ==> f.value.vol == g.value.vol && |f.value.dur| == |g.value.dur|)
  }

  predicate Twins(s: State, t: State) {
    && t == s.(part := t.part, staged := t.staged)
    && SameCache(s.part, t.part) && SameCache(s.staged, t.staged)
  }

  lemma TwinPool(s: State, t: State, step: PoolStep)
    requires Twins(s, t) && 0 <= Size(s) && Enabled(s, InPool(step))
    ensures Enabled(t, InPool(step)) && Twins(PoolApply(s, s.phase.pool, step), PoolApply(t, t.phase.pool, step))
  {
  }

  lemma TwinStep(s: State, t: State, step: Step)
    requires Twins(s, t) && 0 <= Size(s) && Enabled(s, step) && InAttempt(step)
    ensures Enabled(t, step) && Twins(Apply(s, step), Apply(t, step))
  {
    if step.InPool? { TwinPool(s, t, step.step); }
  }

  lemma {:induction false} LoadsOnce(states: seq<State>, steps: seq<Step>, n: nat)
    requires Attempt(states, steps) && 0 < n < |states|
    ensures !states[n].phase.Loading?
  {
    assert Enabled(states[n - 1], steps[n - 1]) && InAttempt(steps[n - 1]);
    if n > 1 { LoadsOnce(states, steps, n - 1); }
  }

  lemma {:induction false} TwinRun(states: seq<State>, steps: seq<Step>, n: nat, t: State) returns (twin: State)
    requires Attempt(states, steps) && n < |states| && Twins(states[0], t) && Inv(t) && Sound(t, steps[0])
    ensures Twins(states[n], twin) && Inv(twin) && (n == 0 ==> twin == t)
  {
    if n == 0 {
      twin := t;
    } else {
      hide Inv, Grounded;
      var before := TwinRun(states, steps, n - 1, t);
      TwinStep(states[n - 1], before, steps[n - 1]);
      if n > 1 {
        LoadsOnce(states, steps, n - 1);
        assert InAttempt(steps[n - 1]) && !steps[n - 1].Load?;
      }
      StepKeepsInv(before, steps[n - 1]);
      twin := Apply(before, steps[n - 1]);
    }
  }

  /** With its part synced, a state whose claims are right is grounded. */
  lemma SyncedIsGrounded(s: State)
    requires Inv(s) && s.phase.Loading?
    requires Accepts(s) ==> ClaimsAreRight(s)
    ensures var t := s.(part := if s.part.Some? then Some(Sync(s.part.value)) else None); Inv(t) && Twins(s, t) && Sound(t, Load)
  {
    var t := s.(part := if s.part.Some? then Some(Sync(s.part.value)) else None);
    forall c | c in t.past ensures Version(t, c) && (c.era == t.era ==> Held(t, c)) {
      assert Version(s, c) && (c.era == s.era ==> Held(s, c));
    }
    if Accepts(t) {
      GroundedIsBoth(t);
    }
  }

  // ----- the outcome

  /** Take an attempt of any length that Load begins, in a state any sound run can reach,
      and that returns: whatever is retried, flushed or fails to be written in between,
      what it returns reads like the wanted file, whatever the files hold, exactly when the
      sidecar was refused or each byte it claims was written for that content since .part
      was created. */
  lemma AttemptIsRightExactlyWhenItsClaimsAre(states: seq<State>, steps: seq<Step>)
    requires Attempt(states, steps) && Inv(states[0]) && states[|steps|].phase.Returned?
    ensures states[|steps|].staged.Some?
    ensures ReadAlike(states[|steps|].staged.value.vol, Src(states[0])) <==> (Accepts(states[0]) ==> ClaimsAreRight(states[0]))
  {
    var s, last := states[0], states[|steps|];
    if Accepts(s) && !ClaimsAreRight(s) {
      WrongClaimIsReturned(states, steps);
    } else {
      SyncedIsGrounded(s);
      var t := s.(part := if s.part.Some? then Some(Sync(s.part.value)) else None);
      var twin := TwinRun(states, steps, |steps|, t);
      SameFileThroughout(states, steps, |steps|);
      OriginsDecide(last.staged.value.vol, Src(s));
    }
  }

  lemma {:induction false} SameFileThroughout(states: seq<State>, steps: seq<Step>, n: nat)
    requires Attempt(states, steps) && n < |states|
    ensures states[n].id == states[0].id
  {
    if n > 0 { SameFileThroughout(states, steps, n - 1); }
  }

  lemma WrongClaimIsReturned(states: seq<State>, steps: seq<Step>)
    requires Attempt(states, steps) && Inv(states[0]) && states[|steps|].phase.Returned?
    requires Accepts(states[0]) && !ClaimsAreRight(states[0])
    ensures states[|steps|].staged.Some? && !ReadAlike(states[|steps|].staged.value.vol, Src(states[0]))
  {
    var s, last := states[0], states[|steps|];
    var k :| 0 <= k < Size(s) && Claims(s.sidecar.value.rec, Size(s), Chunk(s), k) && s.part.value.vol[k] != Src(s)[k];
    ClaimIsSkipped(s, k);
    NeverIdle(states, steps, |steps|);
    StaysStuck(states, steps, |steps|, k);
    SameFileThroughout(states, steps, |steps|);
    OriginsDecide(last.staged.value.vol, Src(s));
  }

  lemma ClaimIsSkipped(s: State, k: int)
    requires Inv(s) && s.phase.Loading? && Accepts(s)
    requires 0 <= k < Size(s) && Claims(s.sidecar.value.rec, Size(s), Chunk(s), k) && s.part.value.vol[k] != Src(s)[k]
    ensures Stuck(Apply(s, Load), k)
  {
    var r, size, chunk := s.sidecar.value.rec, Size(s), Chunk(s);
    assert Version(s, s.sidecar.value);
    ByteHasOneChunk(k, size, chunk);
    AllInside(size, chunk);
    var i :| 0 <= i < |r.done| && Lo(i, chunk) <= k
             && k < (if r.done[i] then Hi(i, size, chunk) else Lo(i, chunk) + ResumeOffset(r, i));
    assert i == k / chunk;
  }

  /** What the accepted sidecar claims outlives any power loss exactly when it is grounded:
      written for this content and synced since .part was created. */
  lemma ClaimsOutliveAPowerLossExactlyWhenGrounded(s: State)
    requires Inv(s) && s.phase.Loading? && Accepts(s)
    ensures Grounded(s) <==>
      forall g :: Torn(s.part.value, g) ==>
        forall k :: 0 <= k < Size(s) && Claims(s.sidecar.value.rec, Size(s), Chunk(s), k) ==> g.vol[k] == Src(s)[k]
  {
    var f := s.part.value;
    GroundedIsBoth(s);
    assert Torn(f, File(f.vol, f.vol)) && Torn(f, File(f.dur, f.dur));
  }

  /** A sidecar of another content is never right about anything it claims. */
  lemma OtherContentIsNeverRight(s: State)
    requires Inv(s) && s.phase.Loading? && Accepts(s) && s.sidecar.value.era == s.era
    requires ContentOf(s.owner) != ContentOf(s.id)
    ensures ClaimsAreRight(s) <==> forall k :: 0 <= k < Size(s) ==> !Claims(s.sidecar.value.rec, Size(s), Chunk(s), k)
  {
    var c := s.sidecar.value;
    assert Version(s, c) && Held(s, c);
    BackedClaims(s.part.value, Source(ContentOf(s.owner)), c.rec, Size(s), Chunk(s));
    if k :| 0 <= k < Size(s) && Claims(c.rec, Size(s), Chunk(s), k) {
      assert s.part.value.vol[k] == From(ContentOf(s.owner), k) && Src(s)[k] == From(ContentOf(s.id), k);
    }
  }

  // ----- inputs

  ghost function Exec(s: State, steps: seq<Step>): Option<State>
    decreases |steps|
  {
    if steps == [] then Some(s)
    else if 0 <= Size(s) && Enabled(s, steps[0]) then Exec(Apply(s, steps[0]), steps[1..])
    else None
  }

  lemma ExecOne(s: State, step: Step, rest: seq<Step>)
    requires 0 <= Size(s) && Enabled(s, step)
    ensures Exec(s, [step] + rest) == Exec(Apply(s, step), rest)
  {
    assert ([step] + rest)[1..] == rest;
  }

  /** The fresh-start branch up to its truncate. */
  lemma FreshStart(s: State, other: Identity)
    requires Inv(s) && s.phase.Idle? && s.staged.None? && s.sidecar.Some?
    requires WellFormed(other) && !SameFile(s.sidecar.value.id, other)
    ensures var t := s.(id := other, owner := other, era := s.era + 1, part := Some(File([], [])),
                        phase := Sizing(EmptyRecord(other.size, other.chunkSize)));
      forall rest :: Exec(s, [Start(other), Load, Open] + rest) == Exec(t, rest)
  {
    hide PhaseOK, DiskOK;
    var t0 := Apply(s, Start(other));
    var t1 := Apply(t0, Load);
    forall rest ensures Exec(s, [Start(other), Load, Open] + rest) == Exec(Apply(t1, Open), rest) {
      ExecOne(t1, Open, rest);
      ExecOne(t0, Load, [Open] + rest);
      ExecOne(s, Start(other), [Load, Open] + rest);
      assert [Start(other)] + ([Load, Open] + rest) == [Start(other), Load, Open] + rest;
      assert [Load] + ([Open] + rest) == [Load, Open] + rest;
    }
  }

  /** The fresh-start branch, killed before its first save: a blank .part beside the
      earlier sidecar. */
  lemma FreshStartKilled(s: State, other: Identity)
    requires Inv(s) && s.phase.Idle? && s.staged.None? && s.sidecar.Some?
    requires WellFormed(other) && !SameFile(s.sidecar.value.id, other)
    ensures Exec(s, [Start(other), Load, Open, Truncate, Abandon]) ==
            Some(s.(id := other, owner := other, era := s.era + 1,
                    part := Some(File(Blanks(other.size), Blanks(other.size))), phase := Idle))
  {
    hide Inv, SameFile;
    FreshStart(s, other);
    var t := s.(id := other, owner := other, era := s.era + 1, part := Some(File([], [])),
                phase := Sizing(EmptyRecord(other.size, other.chunkSize)));
    var u := Apply(t, Truncate);
    assert u.part.value.vol == Blanks(other.size) && u.part.value.dur == Blanks(other.size);
    ExecOne(u, Abandon, []);
    ExecOne(t, Truncate, [Abandon]);
    assert [Start(other), Load, Open] + [Truncate, Abandon] == [Start(other), Load, Open, Truncate, Abandon];
    assert [Truncate] + [Abandon] == [Truncate, Abandon];
  }

  ghost function Returning(s: State, other: Identity): State
    requires WellFormed(other) && s.sidecar.Some? && 0 <= s.sidecar.value.id.size
  {
    s.(id := s.sidecar.value.id, owner := other, era := s.era + 1,
       part := Some(File(Blanks(other.size), Blanks(other.size))), phase := Loading)
  }

  /** Back to the first file after such a death: its sidecar is accepted exactly when the
      two sizes are equal, and then every byte it claims is blank. With another size the
      load branch starts over, and the run stays sound. */
  lemma ReturningAfterADeath(s: State, other: Identity)
    requires Inv(s) && s.phase.Idle? && s.staged.None? && s.sidecar.Some?
    requires WellFormed(other) && !SameFile(s.sidecar.value.id, other)
    ensures var died := Exec(s, [Start(other), Load, Open, Truncate, Abandon]);
      died.Some? && WellFormed(s.sidecar.value.id) && died.value.id == other && Enabled(died.value, Start(s.sidecar.value.id))
      && Apply(died.value, Start(s.sidecar.value.id)) == Returning(s, other)
    ensures Accepts(Returning(s, other)) <==> other.size == s.sidecar.value.id.size
    ensures Accepts(Returning(s, other)) ==> !Attached(Returning(s, other))
    ensures Accepts(Returning(s, other)) ==>
      forall k :: 0 <= k < other.size ==> Returning(s, other).part.value.vol[k] == Blank
  {
    assert Version(s, s.sidecar.value);
    FreshStartKilled(s, other);
  }
}
