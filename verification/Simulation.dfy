/** Each of the engine's locked sections is one move of the rows' lifecycles and the ledger
    that it mirrors: one lifecycle step of each row it changes, none of the others, and the
    ledger step it charges. */
module Simulation {
  import opened Wrappers
  import opened Items
  import opened Lifecycle
  import opened Engines
  import opened Mirroring
  import Dedup
  import Ledger

  // ----- sections on one row

  /** The sections that change one row and no counter. */
  datatype Section =
    | SetsStage(stage: Stage) | Fails(now: int) | Requeues(notBefore: int, charge: bool) | RecordsJob(job: nat)
    | TakesJob(job: nat) | TakesMarkOff | EndsRetry(job: nat, aborted: bool) | Watches | NotesErasure | ResetsDownload
    | TakesRunDown(who: nat)

  /** What each does to what is known of the row. */
  function Effect(x: Section, m: Mem): Mem {
    match x
    case SetsStage(stage) => WithStage(m, stage)
    case Fails(now) => Fail(m, now)
    case Requeues(notBefore, charge) => Requeue(m, notBefore, charge)
    case RecordsJob(job) => WithJob(m, Some(job))
    case TakesJob(job) => TakeJob(m, job)
    case TakesMarkOff => Unmarked(m)
    case EndsRetry(job, aborted) => RetryOutcome(m, job, aborted)
    case Watches => if m.run.Some? then Watch(m) else m
    case NotesErasure => OriginalGone(m)
    case ResetsDownload => NothingDownloaded(m)
    case TakesRunDown(who) => Release(m, who)
  }

  /** The point of a goroutine's life that each is, with what the goroutine knows there. */
  predicate Performs(c: Cell, step: Step, x: Section)
    requires Enabled(c, step)
  {
    match x
    case SetsStage(stage) =>
      || (step.Fetch? && step.fetch.SetStage? && stage.Downloading?)
      || (step.Fetch? && step.fetch.StageDone? && stage.WaitingUpload?)
      || (step.Fetch? && step.fetch.StartUpload? && stage.Uploading?)
      || (step.Push? && step.push.SetFinishing? && stage.Finishing?)
    case Fails(now) => step.Part? && step.part == FailLock(now)
    case Requeues(notBefore, charge) =>
      step.Part? && step.part == RequeueLock(notBefore) && c.actors[step.k].work.charge == charge
    case RecordsJob(job) => step.Push? && step.push.RecordJob? && c.actors[step.k].work.job == job
    case TakesJob(job) =>
      || (step.Push? && (step.push.ForgetJob? || step.push.SendFailed?) && c.actors[step.k].work.job == job)
      || (step.Clean? && step.clean.CancelAborts? && c.actors[step.k].chore.left == Some(job))
      || (step.Clean? && step.clean.RetryAborts? && c.actors[step.k].chore.job == job)
    case TakesMarkOff => (step.Settle? && step.settle.CompleteUnmark?) || (step.Clean? && step.clean.Unmark?)
    case EndsRetry(job, aborted) => step.Clean? && step.clean.RetryFinishes? && c.actors[step.k].chore == RResult(job, aborted)
    case Watches => step.Fetch? && step.fetch.WatchItem?
    case NotesErasure => (step.Settle? && step.settle.NoteErased?) || (step.Clean? && step.clean.CleanUpNotes?)
    case ResetsDownload => step.Clean? && step.clean.ResetDownloaded?
    case TakesRunDown(_) => step.Part? && step.part.ReleaseRun?
  }

  /** A worker takes down its own run record, by the number the engine gave it. */
  predicate Knows(w: Whole, id: nat, step: Step, x: Section) {
    x.TakesRunDown? ==> step.Part? && x.who in w.spots && w.spots[x.who] == (id, step.k)
  }

  /** The section's effect is its lifecycle step's. */
  lemma EffectIsTheSteps(c: Cell, step: Step, x: Section)
    requires Enabled(c, step) && Performs(c, step, x) && !x.TakesRunDown?
    ensures Apply(c, step).mem == Effect(x, c.mem) && !Bills(c, step)
  {
    hide WithStage, Fail, Requeue, WithJob, TakeJob, Unmarked, RetryOutcome, Watch, OriginalGone, NothingDownloaded;
    hide Refuses, Stopped, Aborted, Restored, CommitJob, Opens, Copy, Mine;
  }

  lemma EffectRenames(x: Section, m: Mem, spots: map<nat, (nat, nat)>)
    requires !x.TakesRunDown?
    ensures Renamed(Effect(x, m), spots) == Effect(x, Renamed(m, spots))
    ensures Effect(x, m).queued == m.queued
    ensures Effect(x, m).run.Some? ==> m.run.Some? && Effect(x, m).run.value.who == m.run.value.who
  {
  }

  lemma ReleaseIsTheSteps(s: Snap, w: Whole, id: nat, step: Step, who: nat)
    requires Mirrors(s, w) && id in s.views && Can(w, id, step) && step.Part? && step.part.ReleaseRun?
    requires who in w.spots && w.spots[who] == (id, step.k)
    ensures Renamed(Release(s.views[id], who), w.spots) == MemAfter(w, id, step) && !Bills(w.cells[id], step)
  {
    RowIsMirrored(s, w, id);
    hide Mirrors, Base, Bills;
    WorkerReleases(w.cells[id], step);
    RunIsTheWorkers(s, w, id, who, step.k);
    ReleaseRenames(s.views[id], w.spots, who, id, step.k);
  }

  lemma WorkerReleases(c: Cell, step: Step)
    requires Enabled(c, step) && step.Part? && step.part.ReleaseRun?
    ensures step.k < |c.actors| && c.actors[step.k].Working? && Apply(c, step).mem == Release(c.mem, step.k) && !Bills(c, step)
  {
  }

  lemma ReleaseRenames(m: Mem, spots: map<nat, (nat, nat)>, who: nat, id: nat, k: nat)
    requires m.run.Some? && m.run.value.who == who && who in spots && spots[who] == (id, k)
    ensures Renamed(Release(m, who), spots) == Release(Renamed(m, spots), k)
  {
  }

  lemma SectionMoves(s: Snap, w: Whole, id: nat, step: Step, x: Section)
    requires Mirrors(s, w) && id in s.views && Can(w, id, step) && Performs(w.cells[id], step, x) && Knows(w, id, step, x)
    ensures Renamed(Effect(x, s.views[id]), w.spots) == MemAfter(w, id, step) && !Bills(w.cells[id], step)
    ensures var m, n := s.views[id], Effect(x, s.views[id]);
      n.queued == m.queued && (n.run.Some? ==> m.run.Some? && n.run.value.who == m.run.value.who)
  {
    hide Mirrors, Renamed, Bills, Performs, Enabled, Apply;
    if x.TakesRunDown? {
      assert step.part.ReleaseRun? by { ReleaserReleases(w.cells[id], step, x); }
      ReleaseIsTheSteps(s, w, id, step, x.who);
    } else {
      RowIsMirrored(s, w, id);
      EffectIsTheSteps(w.cells[id], step, x);
      EffectRenames(x, s.views[id], w.spots);
    }
  }

  lemma ReleaserReleases(c: Cell, step: Step, x: Section)
    requires Enabled(c, step) && Performs(c, step, x) && x.TakesRunDown?
    ensures step.Part? && step.part.ReleaseRun?
  {
  }

  /** Runs one such section of the engine. */
  method Enter(e: Engine, id: nat, x: Section)
    requires e.Valid() && id in e.rows && (x.Watches? ==> id in e.runs)
    modifies e`rows, e`runs, e`cancelling, e`deleting, e`queueRevision, e`dirty
    ensures e.Valid() && e.rows.Keys == old(e.rows.Keys) && e.View(id) == Effect(x, old(e.View(id)))
    ensures forall other :: other in e.rows && other != id ==> e.View(other) == old(e.View(other))
  {
    hide WithStage, Fail, Requeue, WithJob, TakeJob, Unmarked, RetryOutcome, Watch, OriginalGone, NothingDownloaded, Release;
    match x {
      case SetsStage(stage) => e.SetStage(id, stage);
      case Fails(now) => e.FailRow(id, now);
      case Requeues(notBefore, charge) => e.RequeueRow(id, notBefore, charge);
      case RecordsJob(job) => e.RecordJob(id, job);
      case TakesJob(job) => var _ := e.ClaimJob(id, job);
      case TakesMarkOff => e.UnmarkDeleting(id);
      case EndsRetry(job, aborted) => e.FinishRetry(id, job, aborted);
      case Watches => e.WatchRun(id);
      case NotesErasure => e.NoteOriginalGone(id);
      case ResetsDownload => e.ResetDownloaded(id);
      case TakesRunDown(who) => e.ReleaseRun(id, who);
    }
  }

  /** Whichever of these sections a goroutine of a row has come to: it is that one step of
      the row's lifecycle, and every other row, and the ledger, stand still. */
  method Perform(e: Engine, ghost w: Whole, id: nat, ghost step: Step, x: Section) returns (ghost after: Whole)
    requires e.Valid() && Mirrors(State(e), w) && id in e.rows
    requires Can(w, id, step) && Performs(w.cells[id], step, x) && Knows(w, id, step, x)
    modifies e
    ensures Makes(w, OneRow(id, step), after) && Mirrors(State(e), after) && e.Valid()
  {
    hide Makes, Mirrors, Can, MemAfter, Moved, Renamed, Bills, Effect, Performs;
    ghost var s := State(e);
    SectionMoves(s, w, id, step, x);
    if x.Watches? { WatcherHasARun(s, w, id, step, x); }
    Enter(e, id, x);
    assert State(e) == s.(views := s.views[id := e.View(id)]);
    RowMoves(s, State(e), w, id, step);
    after := Moved(w, id, step);
  }

  lemma WatcherHasARun(s: Snap, w: Whole, id: nat, step: Step, x: Section)
    requires Mirrors(s, w) && id in s.views && Can(w, id, step) && Performs(w.cells[id], step, x) && x.Watches?
    ensures s.views[id].run.Some?
  {
    RowIsMirrored(s, w, id);
    hide Mirrors;
  }

  // ----- sections that move the ledger as well

  ghost method FinishBooked(e: Engine, s: Snap, w: Whole, id: nat, step: Step, n: nat) returns (after: Whole)
    requires Mirrors(s, w) && id in s.views && id in e.rows && CanBill(w, id, step, n)
    requires var b := Ledger.Apply(w.books, 0, Entry(step, n));
      State(e) == s.(views := s.views[id := e.View(id)], used := b.used, reserved := b.reserved, active := b.active)
    requires e.View(id).queued == s.views[id].queued && Renamed(e.View(id), w.spots) == MemAfter(w, id, step)
    requires e.View(id).run.Some? ==> s.views[id].run.Some? && e.View(id).run.value.who == s.views[id].run.value.who
    ensures Makes(w, Charging(id, step, n), after) && Mirrors(State(e), after)
  {
    hide Makes, Mirrors, Can, MemAfter, Moved, Renamed, Bills, Ledger.Apply, CanBill;
    BilledMoves(s, State(e), w, id, step, n);
    after := Charged(w, id, step, n);
  }

  lemma CompletionMoves(m: Mem, w: Whole, id: nat, now: int, step: Step)
    requires Can(w, id, step) && w.cells[id].mem == Renamed(m, w.spots) && step.Settle?
    requires step.settle == CompleteLock(now)
    requires Base(w.cells[id].mem, w.cells[id].actors)
    ensures Renamed(CompleteStart(m, now), w.spots) == MemAfter(w, id, step)
    ensures Refuses(m) == Refuses(w.cells[id].mem)
    ensures !Refuses(m) ==>
      && m.row.state.Running? && step.k < |w.cells[id].actors|
      && CellAfter(w, id, step).actors == w.cells[id].actors[step.k := Working(Completing(m.row.stage, m.row.finishedAt))]
  {
    WorkerHolds(w.cells[id].mem, w.cells[id].actors, step.k);
    hide Base;
  }

  lemma LocksOrRefuses(c: Cell, step: Step)
    requires step.Settle? && step.settle.CompleteLock?
    ensures Bills(c, step) <==> !Refuses(c.mem)
  {
  }

  /** complete marks the row and charges the worker's claim, or refuses. What it returns is
      what the goroutine keeps for a rollback. */
  method StartCompletion(e: Engine, ghost w: Whole, id: nat, now: int, ghost n: nat, ghost step: Step)
      returns (refused: bool, state: RowState, stage: Stage, finishedAt: int, ghost after: Whole)
    requires e.Valid() && Mirrors(State(e), w) && id in e.rows && Can(w, id, step) && step.Settle?
    requires step.settle == CompleteLock(now)
    requires n in w.spots && w.spots[n] == (id, step.k)
    modifies e
    ensures Mirrors(State(e), after) && e.Valid() && refused == Refuses(w.cells[id].mem)
    ensures refused ==> Makes(w, OneRow(id, step), after)
    ensures !refused ==>
      && Makes(w, Charging(id, step, n), after) && Entry(step, n) == Ledger.Charge(n)
      && state.Running? && step.k < |w.cells[id].actors|
      && CellAfter(w, id, step).actors == w.cells[id].actors[step.k := Working(Completing(stage, finishedAt))]
  {
    hide Makes, Mirrors, Can, MemAfter, CellAfter, Moved, Renamed, Bills, Refuses, CanBill;
    ghost var s := State(e);
    RowIsMirrored(s, w, id);
    CountersAreBooked(s, w);
    CompletionMoves(s.views[id], w, id, now, step);
    LocksOrRefuses(w.cells[id], step);
    if !Refuses(w.cells[id].mem) { EntryIsOpen(s, w, id, step, n); }
    refused, state, stage, finishedAt := e.StartCompletion(id, now);
    if refused {
      assert State(e) == s.(views := s.views[id := e.View(id)]);
      RowMoves(s, State(e), w, id, step);
      after := Moved(w, id, step);
    } else {
      SameSize(s.views[id], w, id);
      after := FinishBooked(e, s, w, id, step, n);
    }
  }

  lemma StoredMoves(w: Whole, id: nat, step: Step)
    requires Can(w, id, step) && step.Settle? && step.settle.PersistOk?
    ensures MemAfter(w, id, step) == w.cells[id].mem && Bills(w.cells[id], step)
  {
  }

  /** persistNow returned without an error: the completion is settled. */
  lemma CompletionIsStored(s: Snap, w: Whole, id: nat, n: nat, step: Step)
    requires Mirrors(s, w) && id in s.views && Can(w, id, step) && step.Settle? && step.settle.PersistOk?
    requires n in w.spots && w.spots[n] == (id, step.k)
    ensures Allowed(w, Charging(id, step, n)) && Mirrors(s, After(w, Charging(id, step, n)))
  {
    hide Mirrors, Renamed, Can, MemAfter, Bills, Charged, RowMirrors, Base, Ledger.Enabled;
    StoredMoves(w, id, step);
    RowIsMirrored(s, w, id);
    EntryIsOpen(s, w, id, step, n);
    CountersAreBooked(s, w);
    assert s == s.(views := s.views[id := s.views[id]]);
    BilledMoves(s, s, w, id, step, n);
  }

  lemma RollbackMoves(m: Mem, w: Whole, id: nat, stage: Stage, finishedAt: int, step: Step)
    requires Can(w, id, step) && w.cells[id].mem == Renamed(m, w.spots) && step.Settle? && step.settle.PersistFailed?
    requires w.cells[id].actors[step.k].work == Storing(stage, finishedAt)
    ensures Renamed(CompleteRollback(m, Running, stage, finishedAt), w.spots) == MemAfter(w, id, step)
  {
  }

  method RollBackCompletion(e: Engine, ghost w: Whole, id: nat, stage: Stage, finishedAt: int, ghost n: nat, ghost step: Step)
      returns (ghost after: Whole)
    requires e.Valid() && Mirrors(State(e), w) && id in e.rows && Can(w, id, step) && step.Settle? && step.settle.PersistFailed?
    requires w.cells[id].actors[step.k].work == Storing(stage, finishedAt)
    requires n in w.spots && w.spots[n] == (id, step.k)
    modifies e
    ensures Makes(w, Charging(id, step, n), after) && Entry(step, n) == Ledger.Rollback(n)
    ensures Mirrors(State(e), after) && e.Valid()
  {
    hide Makes, Mirrors, Can, MemAfter, Moved, Renamed;
    ghost var s := State(e);
    RowIsMirrored(s, w, id);
    CountersAreBooked(s, w);
    RollbackMoves(s.views[id], w, id, stage, finishedAt, step);
    EntryIsOpen(s, w, id, step, n);
    SameSize(s.views[id], w, id);
    hide Bills;
    e.RollBackCompletion(id, Running, stage, finishedAt);
    after := FinishBooked(e, s, w, id, step, n);
  }

  lemma UnreserveMoves(m: Mem, w: Whole, id: nat, step: Step)
    requires Can(w, id, step) && w.cells[id].mem == Renamed(m, w.spots) && step.Unreserve?
    ensures Renamed(m, w.spots) == MemAfter(w, id, step)
  {
  }

  method ReleaseReservation(e: Engine, ghost w: Whole, id: nat, ghost n: nat, ghost step: Step)
        returns (ghost after: Whole)
    requires e.Valid() && Mirrors(State(e), w) && id in e.rows && Can(w, id, step) && step.Unreserve?
    requires n in w.spots && w.spots[n] == (id, step.k)
    modifies e
    ensures Makes(w, Charging(id, step, n), after) && Entry(step, n) == Ledger.Release(n)
    ensures Mirrors(State(e), after) && e.Valid()
  {
    hide Makes, Mirrors, Can, MemAfter, Moved, Renamed;
    ghost var s := State(e);
    RowIsMirrored(s, w, id);
    CountersAreBooked(s, w);
    UnreserveMoves(s.views[id], w, id, step);
    EntryIsOpen(s, w, id, step, n);
    SameSize(s.views[id], w, id);
    hide Bills;
    e.ReleaseReservation(e.rows[id].size);
    after := FinishBooked(e, s, w, id, step, n);
  }

  /** The worker numbered n has given its reservation back, and not yet its place. */
  predicate Departing(w: Whole, n: nat) {
    && n in w.spots && w.spots[n].0 in w.cells && w.spots[n].1 < |w.cells[w.spots[n].0].actors|
    && w.cells[w.spots[n].0].actors[w.spots[n].1].Gone? && n < |w.books.claims| && !w.books.claims[n].finished
  }

  lemma DepartingMayFinish(s: Snap, w: Whole, n: nat)
    requires Mirrors(s, w) && Departing(w, n)
    ensures Ledger.Enabled(w.books, 0, Ledger.Finish(n))
  {
    hide RowMirrors, Numbered;
    assert Billed(w, n);
  }

  method FinishActive(e: Engine, ghost w: Whole, ghost n: nat) returns (ghost after: Whole)
    requires e.Valid() && Mirrors(State(e), w) && Departing(w, n)
    modifies e
    ensures Makes(w, Departure(n), after) && Mirrors(State(e), after) && e.Valid()
  {
    hide Makes, Mirrors;
    ghost var s := State(e);
    CountersAreBooked(s, w);
    DepartingMayFinish(s, w, n);
    e.FinishActive();
    assert State(e) == s.(active := e.active);
    BooksMove(s, State(e), w, Ledger.Finish(n));
    after := Booked(w, 0, Ledger.Finish(n));
  }

  method RollQuota(e: Engine, ghost w: Whole) returns (ghost after: Whole)
    requires e.Valid() && Mirrors(State(e), w)
    modifies e
    ensures Makes(w, Rolling, after) && Mirrors(State(e), after) && e.Valid()
  {
    hide Makes, Mirrors;
    ghost var s := State(e);
    CountersAreBooked(s, w);
    e.RollQuota();
    assert State(e) == s.(used := 0);
    BooksMove(s, State(e), w, Ledger.Roll);
    after := Booked(w, 0, Ledger.Roll);
  }

  /** takeNext: nothing happens, or one ready row's worker begins, with the next run
      number, and the ledger admits it. */
  method TakeNextRow(e: Engine, ghost w: Whole, now: int, workers: int, limit: int, jobs: set<string>)
      returns (taken: Option<nat>, ghost after: Whole)
    requires Mirrors(State(e), w) && e.Valid()
    modifies e
    ensures Mirrors(State(e), after) && e.Valid()
    ensures var first := old(e.First(e.queue, now, jobs));
      if first.None? || old(e.paused) || w.books.active >= workers then taken.None?
      else
        var size, used, reserved := old(e.rows)[first.value].size, w.books.used, w.books.reserved;
          if limit <= 0 || used + reserved + size <= limit || (size > limit && used == 0 && reserved == 0) then taken == first
          else taken.None?
    ensures taken.None? ==> after == w
    ensures taken.Some? ==>
      taken.value in e.rows && Makes(w, Claiming(taken.value, e.rows[taken.value].size, limit), after)
  {
    hide Makes, Mirrors, Can, MemAfter, Moved, Renamed, Mirroring.Claimed, CanClaim, Engine.First, Claim, Ledger.Apply;
    ghost var s := State(e);
    CountersAreBooked(s, w);
    ghost var first := e.First(e.queue, now, jobs);
    ghost var at;
    taken, at := e.TakeNext(now, workers, limit, jobs);
    after := w;
    if taken.Some? {
      ghost var id := taken.value;
      assert State(e) == s.(views := s.views[id := Claim(s.views[id], s.nextRun)], reserved := s.reserved + e.rows[id].size,
                            active := s.active + 1, nextRun := s.nextRun + 1);
      ClaimKeepsMirrors(s, State(e), w, id, limit, e.rows[id].size);
      after := Mirroring.Claimed(w, id, s.nextRun, limit, e.rows[id].size);
    } else {
      assert State(e) == s;
    }
  }

  // ----- sections over many rows

  /** The sections that go over the queue, and do the same to every row they take. */
  datatype Sweep = Cancels(now: int) | Retries | MarksStaged | MarksCleanups | Clears | Trims | Drops

  function StepOf(x: Sweep): Step {
    match x
    case Cancels(now) => Begin(CancelRow(now))
    case Retries => Begin(RetryRow)
    case MarksStaged => Begin(DeleteStagedRow)
    case MarksCleanups => Begin(CleanUpRow)
    case Clears => Begin(ClearRow)
    case Trims => Begin(TrimRow)
    case Drops => Begin(DropRow)
  }

  /** The rows it may take, and what it does to them. */
  predicate Takes(x: Sweep, m: Mem) {
    match x
    case Cancels(_) => CanCancel(m)
    case Retries => CanRetry(m)
    case MarksStaged => CanDeleteStaged(m)
    case MarksCleanups => CanCleanUp(m)
    case Clears => CanClear(m)
    case Trims => CanTrim(m)
    case Drops => CanDrop(m)
  }

  function Swept(x: Sweep, m: Mem): Mem {
    match x
    case Cancels(now) => Cancel(m, now)
    case Retries => Engine.RetryStart(m)
    case MarksStaged => Marked(m)
    case MarksCleanups => Marked(m)
    case Clears => Dropped(m)
    case Trims => Dropped(m)
    case Drops => Dropped(m)
  }

  lemma SweepMoves(x: Sweep, m: Mem, w: Whole, id: nat)
    requires id in w.cells && w.cells[id].mem == Renamed(m, w.spots) && Takes(x, m)
    ensures Can(w, id, StepOf(x)) && Renamed(Swept(x, m), w.spots) == MemAfter(w, id, StepOf(x))
    ensures Swept(x, m).run.Some? ==> m.run.Some? && Swept(x, m).run.value.who == m.run.value.who
  {
  }

  /** The rows in changed each take the step of their lifecycle; the others, and the ledger,
      stand still. */
  ghost method Sweeps(e: Engine, s: Snap, w: Whole, changed: set<nat>, x: Sweep) returns (after: Whole)
    requires e.Valid() && Mirrors(s, w) && e.rows.Keys == s.views.Keys
    requires State(e) == s.(queue := e.queue, views := State(e).views)
    requires forall id :: id in changed ==> id in s.views && Takes(x, s.views[id])
    requires forall id :: id in e.rows ==> e.View(id) == if id in changed then Swept(x, s.views[id]) else s.views[id]
    ensures Makes(w, ManyRows(changed, StepOf(x)), after) && Mirrors(State(e), after)
  {
    hide Makes, Mirrors, Can, MemAfter, Renamed, ManyMoved, Takes, Swept;
    forall id | id in changed
      ensures Can(w, id, StepOf(x)) && Renamed(Swept(x, s.views[id]), w.spots) == MemAfter(w, id, StepOf(x))
      ensures var m, n := s.views[id], Swept(x, s.views[id]); n.run.Some? ==> m.run.Some? && n.run.value.who == m.run.value.who
    {
      RowIsMirrored(s, w, id);
      SweepMoves(x, s.views[id], w, id);
    }
    ManyMove(s, State(e), w, changed, StepOf(x));
    after := ManyMoved(w, changed, StepOf(x));
  }

  lemma CancelTakes(m: Mem, now: int)
    requires m.queued && !m.row.state.Complete? && (m.run.Some? || m.deleting == 0)
    ensures Takes(Cancels(now), m)
  {
  }

  lemma CancelSweeps(m: Mem, n: Mem, now: int)
    requires Engine.CancelledAs(m, n, now)
    ensures n == Swept(Cancels(now), m)
  {
  }

  method CancelRows(e: Engine, ghost w: Whole, wanted: set<nat>, now: int)
      returns (interrupted: map<nat, nat>, idle: map<nat, Option<nat>>, ghost changed: set<nat>, ghost after: Whole)
    requires e.Valid() && Mirrors(State(e), w)
    modifies e
    ensures e.Valid() && Mirrors(State(e), after) && Makes(w, ManyRows(changed, StepOf(Cancels(now))), after)
    ensures changed == set id | id in wanted && id in old(e.queue) && !old(e.rows)[id].state.Complete? &&
                                (id in old(e.runs) || old(e.Marks(id)) == 0)
  {
    hide Makes, Mirrors, Takes, Swept, Engine.CancelledAs;
    ghost var s := State(e);
    changed := set id | id in wanted && id in e.queue && !e.rows[id].state.Complete? && (id in e.runs || e.Marks(id) == 0);
    forall id | id in changed ensures Takes(Cancels(now), s.views[id]) { CancelTakes(s.views[id], now); }
    interrupted, idle := e.CancelRows(wanted, now);
    forall id | id in changed ensures e.View(id) == Swept(Cancels(now), s.views[id]) {
      CancelSweeps(s.views[id], e.View(id), now);
    }
    after := Sweeps(e, s, w, changed, Cancels(now));
  }

  method RetryRows(e: Engine, ghost w: Whole, wanted: set<nat>)
      returns (stale: seq<(nat, nat)>, requeued: nat, ghost changed: set<nat>, ghost after: Whole)
    requires e.Valid() && Mirrors(State(e), w)
    modifies e
    ensures e.Valid() && Mirrors(State(e), after) && Makes(w, ManyRows(changed, StepOf(Retries)), after)
    ensures changed == set id |
      && id in wanted && id in old(e.queue) && !old(e.rows)[id].state.Running? && !old(e.rows)[id].state.Complete?
      && id !in old(e.runs) && old(e.Marks(id)) == 0
  {
    hide Makes, Mirrors;
    ghost var s := State(e);
    changed := set id |
      && id in wanted && id in e.queue && !e.rows[id].state.Running? && !e.rows[id].state.Complete?
      && id !in e.runs && e.Marks(id) == 0;
    stale, requeued := e.RetryRows(wanted);
    after := Sweeps(e, s, w, changed, Retries);
  }

  method MarkStaged(e: Engine, ghost w: Whole, wanted: set<nat>)
      returns (targets: seq<nat>, running: nat, ghost changed: set<nat>, ghost after: Whole)
    requires e.Valid() && Mirrors(State(e), w)
    modifies e
    ensures e.Valid() && Mirrors(State(e), after) && Makes(w, ManyRows(changed, StepOf(MarksStaged)), after)
    ensures changed == set id |
      id in wanted && id in old(e.queue) && !old(e.rows)[id].state.Running? && id !in old(e.runs) && old(e.Marks(id)) == 0
  {
    hide Makes, Mirrors;
    ghost var s := State(e);
    changed := set id | id in wanted && id in e.queue && !e.rows[id].state.Running? && id !in e.runs && e.Marks(id) == 0;
    targets, running := e.MarkStaged(wanted);
    after := Sweeps(e, s, w, changed, MarksStaged);
  }

  method MarkCleanups(e: Engine, ghost w: Whole)
      returns (pending: seq<nat>, ghost changed: set<nat>, ghost after: Whole)
    requires e.Valid() && Mirrors(State(e), w)
    modifies e
    ensures e.Valid() && Mirrors(State(e), after) && Makes(w, ManyRows(changed, StepOf(MarksCleanups)), after)
    ensures changed == set id |
      id in old(e.queue) && old(e.rows)[id].state.Complete? && old(e.rows)[id].deleteAfter && old(e.Marks(id)) == 0
  {
    hide Makes, Mirrors;
    ghost var s := State(e);
    changed := set id | id in e.queue && e.rows[id].state.Complete? && e.rows[id].deleteAfter && e.Marks(id) == 0;
    pending := e.MarkCleanups();
    after := Sweeps(e, s, w, changed, MarksCleanups);
  }

  method ClearFinished(e: Engine, ghost w: Whole, wanted: Option<set<nat>>)
      returns (dropped: seq<nat>, ghost changed: set<nat>, ghost after: Whole)
    requires e.Valid() && Mirrors(State(e), w)
    modifies e
    ensures e.Valid() && Mirrors(State(e), after) && Makes(w, ManyRows(changed, StepOf(Clears)), after)
    ensures changed == set id |
      && id in old(e.queue)
      && (old(e.rows)[id].state.Complete? || old(e.rows)[id].state.Failed? || old(e.rows)[id].state.Cancelled?)
      && id !in old(e.runs) && old(e.Marks(id)) == 0 && (wanted.Some? ==> id in wanted.value)
  {
    hide Makes, Mirrors, Takes, Swept;
    ghost var s := State(e);
    changed := set id |
      && id in e.queue && (e.rows[id].state.Complete? || e.rows[id].state.Failed? || e.rows[id].state.Cancelled?)
      && id !in e.runs && e.Marks(id) == 0 && (wanted.Some? ==> id in wanted.value);
    forall id | id in changed ensures Takes(Clears, s.views[id]) && Swept(Clears, s.views[id]) == s.views[id].(queued := false) {
      HistoryLeaves(s.views[id]);
    }
    dropped := e.ClearFinished(wanted);
    after := Sweeps(e, s, w, changed, Clears);
  }

  method ApplySettings(e: Engine, ghost w: Whole, stale: set<string>)
      returns (ghost changed: set<nat>, ghost after: Whole)
    requires e.Valid() && Mirrors(State(e), w)
    modifies e
    ensures e.Valid() && Mirrors(State(e), after) && Makes(w, ManyRows(changed, StepOf(Drops)), after)
    ensures changed == set id |
      id in old(e.queue) && var row := old(e.rows)[id]; row.jobID in stale && !row.state.Running? && !row.state.Complete?
  {
    hide Makes, Mirrors, Unique, Without;
    ghost var s := State(e);
    changed := set id |
      id in e.queue && var row := e.rows[id]; row.jobID in stale && !row.state.Running? && !row.state.Complete?;
    e.ApplySettings(stale);
    after := Sweeps(e, s, w, changed, Drops);
  }

  /** A row of the history may be cleared, and trimmed if its original needs no deletion. */
  lemma HistoryLeaves(m: Mem)
    requires m.queued && (m.row.state.Complete? || m.row.state.Failed? || m.row.state.Cancelled?)
    requires m.run.None? && m.deleting == 0
    ensures Takes(Clears, m) && (!m.row.deleteAfter ==> Takes(Trims, m))
    ensures Swept(Clears, m) == Swept(Trims, m) == m.(queued := false)
  {
  }

  method TrimHistory(e: Engine, ghost w: Whole) returns (dropped: seq<nat>, ghost after: Whole)
    requires e.Valid() && Mirrors(State(e), w)
    modifies e
    ensures e.Valid() && Mirrors(State(e), after) && Makes(w, ManyRows(Members(dropped), StepOf(Trims)), after)
    ensures forall id :: id in dropped ==>
      && id in old(e.queue) && id in e.rows
      && (e.rows[id].state.Complete? || e.rows[id].state.Failed? || e.rows[id].state.Cancelled?)
      && !e.rows[id].deleteAfter && id !in e.runs && e.Marks(id) == 0
  {
    hide Makes, Mirrors, Takes, Swept;
    ghost var s := State(e);
    forall id | id in e.Trimmable() ensures Takes(Trims, s.views[id]) && Swept(Trims, s.views[id]) == s.views[id].(queued := false) {
      HistoryLeaves(s.views[id]);
    }
    dropped := e.TrimHistory();
    after := Sweeps(e, s, w, Members(dropped), Trims);
  }

  // ----- new rows, and a restart

  method Consider(e: Engine, ghost w: Whole, id: nat, row: Row, jobIsCurrent: bool, ghost max: nat)
      returns (queued: bool, ghost after: Whole)
    requires e.Valid() && Mirrors(State(e), w) && id !in e.rows && Fresh(Born(row, max))
    modifies e
    ensures e.Valid() && (queued <==>
      && jobIsCurrent
      && forall other :: other in old(e.queue) && KeyOf(old(e.rows)[other]) == KeyOf(row) ==> old(e.rows)[other].state.Complete?)
    ensures if queued then Makes(w, Appending(id, row, max), after) else after == w
    ensures Mirrors(State(e), after)
  {
    hide Makes, Mirrors, Fresh, Born, Unique, KeyOf;
    ghost var s := State(e);
    queued := e.Consider(id, row, jobIsCurrent);
    after := w;
    if queued {
      assert State(e) == s.(queue := s.queue + [id], views := s.views[id := Mem(row, true, None, false, 0)]);
      NewRowMirrors(s, State(e), w, id, row, max);
      after := w.(cells := w.cells[id := Born(row, max)]);
    } else {
      assert State(e) == s;
    }
  }

  /** The process died in state w and a new engine loads what was stored: every row's
      lifecycle takes the restart, and the ledger starts from the counter Load restores. */
  method Load(e: Engine, ghost w: Whole, ids: seq<nat>, stored: map<nat, Row>, counter: int, now: int, periodStart: int)
      returns (ghost after: Whole)
    requires Unique(ids) && (forall id :: id in ids ==> id in stored)
    requires forall id :: id in ids <==> id in w.cells && w.cells[id].stored.Some?
    requires forall id :: id in ids ==> w.cells[id].stored == Some(stored[id])
    requires e.active == e.reserved == 0 && e.nextRun == 0
    modifies e
    ensures 0 <= e.used && Makes(w, Restarting(now, e.used), after) && Mirrors(State(e), after) && e.Valid()
  {
    hide Makes, Mirrors, Restarted;
    e.Load(ids, stored, counter, now, periodStart);
    RestartMirrors(State(e), w, now, e.used);
    after := Restarted(w, now, e.used);
  }
}
