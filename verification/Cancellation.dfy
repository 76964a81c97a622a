/** Cancelling one row beside everything else that can happen to it. */
module Cancellation {
  import opened Wrappers
  import opened Items
  import opened Lifecycle
  import Budget

  lemma WorkLeavesCancelled(c: Cell, step: Step)
    requires Base(c.mem, c.actors) && Enabled(c, step) && c.mem.row.state.Cancelled?
    requires step.Fetch? || step.Push? || step.Settle? || step.Part?
    ensures Apply(c, step).mem.row.state.Cancelled?
  {
    WorkerHolds(c.mem, c.actors, step.k);
    hide Base, HoldsMark;
    match step {
      case Fetch(k, f) =>
      case Push(k, p) =>
      case Settle(k, t) =>
      case Part(k, p) =>
    }
  }

  lemma CleanLeavesCancelled(c: Cell, k: nat, step: CleanStep)
    requires k < |c.actors| && c.actors[k].Tidying? && CleanEnabled(c.actors[k].chore, c, step)
    requires step.RetryFinishes? ==> !c.actors[k].chore.aborted || c.mem.run.Some?
    ensures CleanApply(c, k, step).mem.row.state == c.mem.row.state
  {
    hide Aborted, Restored;
  }

  /** No step of a worker, a cleaner, the scheduler or a writer takes a row out of the
      cancelled state; only a manual retry or a restart does. */
  lemma CancelledSticks(c: Cell, step: Step)
    requires Base(c.mem, c.actors) && Enabled(c, step) && !Budget.Renews(c, step) && !Restarts(step)
    requires c.mem.row.state.Cancelled?
    ensures Apply(c, step).mem.row.state.Cancelled?
  {
    hide Base;
    match step {
      case Clean(k, t) => CleanLeavesCancelled(c, k, t);
      case Unreserve(k) =>
      case Begin(b) =>
      case World(w) =>
      case _ => WorkLeavesCancelled(c, step);
    }
  }

  lemma {:induction false} CancelledUntilRetry(cells: seq<Cell>, steps: seq<Step>, from: nat, to: nat)
    requires IsRun(cells, steps) && Fresh(cells[0]) && from <= to < |cells|
    requires cells[from].mem.row.state.Cancelled?
    requires forall i :: from <= i < to ==> !Budget.Renews(cells[i], steps[i]) && !Restarts(steps[i])
    ensures cells[to].mem.row.state.Cancelled?
  {
    if from < to {
      CancelledUntilRetry(cells, steps, from, to - 1);
      RunKeepsBase(cells, steps, to - 1);
      CancelledSticks(cells[to - 1], steps[to - 1]);
    }
  }

  /** A Cancel waits for a goroutine that is, or was, the worker. */
  ghost predicate Waiting(actors: seq<Pc>) {
    forall k :: 0 <= k < |actors| && actors[k].Tidying? && actors[k].chore.CWaiting? ==>
      actors[k].chore.who < |actors| && !actors[actors[k].chore.who].Tidying?
  }

  /** A goroutine that moves on starts no new wait. */
  lemma MovingKeepsWaiting(actors: seq<Pc>, k: nat, pc: Pc)
    requires Waiting(actors) && k < |actors| && (pc.Tidying? ==> actors[k].Tidying? && !pc.chore.CWaiting?)
    ensures Waiting(actors[k := pc])
  {
  }

  lemma WorldKeepsWaiting(c: Cell, step: WorldStep)
    requires Waiting(c.actors) && WorldEnabled(c, step)
    ensures Waiting(WorldApply(c, step).actors)
  {
  }

  lemma CleanKeepsWaiting(c: Cell, k: nat, step: CleanStep)
    requires Waiting(c.actors) && k < |c.actors| && c.actors[k].Tidying? && CleanEnabled(c.actors[k].chore, c, step)
    ensures Waiting(CleanApply(c, k, step).actors)
  {
    hide Waiting, Aborted, Restored;
    MovingKeepsWaiting(c.actors, k, CleanApply(c, k, step).actors[k]);
  }

  lemma BeginKeepsWaiting(c: Cell, step: BeginStep)
    requires Base(c.mem, c.actors) && Waiting(c.actors) && BeginEnabled(c, step)
    ensures Waiting(BeginApply(c, step).actors)
  {
    RunIsEmployed(c.mem, c.actors);
    hide Base;
    var d := BeginApply(c, step);
    assert forall k :: 0 <= k < |c.actors| ==> d.actors[k] == c.actors[k];
  }

  lemma FetchKeepsWaiting(c: Cell, k: nat, step: FetchStep)
    requires Waiting(c.actors) && k < |c.actors| && c.actors[k].Working? && FetchEnabled(c.actors[k].work, c, step)
    ensures Waiting(FetchApply(c, k, step).actors)
  {
    hide Waiting;
    MovingKeepsWaiting(c.actors, k, FetchApply(c, k, step).actors[k]);
  }

  lemma PushKeepsWaiting(c: Cell, k: nat, step: PushStep)
    requires Waiting(c.actors) && k < |c.actors| && c.actors[k].Working? && PushEnabled(c.actors[k].work, step)
    ensures Waiting(PushApply(c, k, step).actors)
  {
    hide Waiting;
    MovingKeepsWaiting(c.actors, k, PushApply(c, k, step).actors[k]);
  }

  lemma SettleKeepsWaiting(c: Cell, k: nat, step: SettleStep)
    requires Waiting(c.actors) && k < |c.actors| && c.actors[k].Working? && SettleEnabled(c.actors[k].work, c, k, step)
    ensures Waiting(SettleApply(c, k, step).actors)
  {
    hide Waiting;
    MovingKeepsWaiting(c.actors, k, SettleApply(c, k, step).actors[k]);
  }

  lemma PartKeepsWaiting(c: Cell, k: nat, step: PartStep)
    requires Waiting(c.actors) && k < |c.actors| && c.actors[k].Working? && PartEnabled(c.actors[k].work, step)
    ensures Waiting(PartApply(c, k, step).actors)
  {
    hide Waiting;
    MovingKeepsWaiting(c.actors, k, PartApply(c, k, step).actors[k]);
  }

  lemma StepKeepsWaiting(c: Cell, step: Step)
    requires Base(c.mem, c.actors) && Waiting(c.actors) && Enabled(c, step)
    ensures Waiting(Apply(c, step).actors)
  {
    hide Base, Waiting;
    match step {
      case Begin(b) => BeginKeepsWaiting(c, b);
      case World(w) => WorldKeepsWaiting(c, w);
      case Clean(k, t) => CleanKeepsWaiting(c, k, t);
      case Unreserve(k) => MovingKeepsWaiting(c.actors, k, Gone);
      case Fetch(k, f) => FetchKeepsWaiting(c, k, f);
      case Push(k, p) => PushKeepsWaiting(c, k, p);
      case Settle(k, t) => SettleKeepsWaiting(c, k, t);
      case Part(k, p) => PartKeepsWaiting(c, k, p);
    }
  }

  lemma {:induction false} RunKeepsWaiting(cells: seq<Cell>, steps: seq<Step>, i: nat)
    requires IsRun(cells, steps) && Fresh(cells[0]) && i < |cells|
    ensures Waiting(cells[i].actors)
  {
    if i > 0 {
      RunKeepsWaiting(cells, steps, i - 1);
      RunKeepsBase(cells, steps, i - 1);
      StepKeepsWaiting(cells[i - 1], steps[i - 1]);
    }
  }

  /** Cancel goes on only when the worker it interrupted has discarded what it meant to
      discard and taken down its run record. */
  lemma CancelWaitsForTheWorker(cells: seq<Cell>, steps: seq<Step>, i: nat)
    requires IsRun(cells, steps) && Fresh(cells[0]) && i < |steps|
    requires steps[i].Clean? && steps[i].clean.CancelResumes?
    ensures var actors := cells[i].actors; var who := actors[steps[i].k].chore.who;
      who < |actors| && (actors[who].Released? || actors[who].Gone?)
  {
    var c := cells[i];
    RunKeepsBase(cells, steps, i);
    RunKeepsWaiting(cells, steps, i);
    assert Enabled(c, steps[i]);
    var who := c.actors[steps[i].k].chore.who;
    if c.actors[who].Working? { WorkerHolds(c.mem, c.actors, who); }
  }

  /** It does not wait for the reservation: whenever the worker takes down its record
      while a Cancel waits, that Cancel may return before the reservation does. */
  lemma CancelDoesNotWaitForTheReservation(c: Cell, k: nat, who: nat)
    requires Base(c.mem, c.actors) && k < |c.actors| && who < |c.actors|
    requires c.actors[k] == Tidying(CWaiting(who)) && c.actors[who] == Working(Exiting)
    ensures var c1 := PartApply(c, who, ReleaseRun);
      && c1.actors[who].Released? && c1.actors[k] == c.actors[k] && CleanEnabled(c1.actors[k].chore, c1, CancelResumes)
  {
    WorkerHolds(c.mem, c.actors, who);
  }

  /** At most one goroutine works on the row; while it does, nobody is about to remove
      the row's files, and no step puts the row back in the queue under it. */
  lemma OneWorker(cells: seq<Cell>, steps: seq<Step>, i: nat, j: nat, k: nat)
    requires IsRun(cells, steps) && Fresh(cells[0]) && i < |cells|
    requires j < |cells[i].actors| && k < |cells[i].actors| && cells[i].actors[j].Working?
    ensures cells[i].actors[k].Working? ==> k == j
    ensures cells[i].actors[k].Tidying? ==>
      var chore := cells[i].actors[k].chore; chore.CWaiting? || chore.PDelete? || chore.PErased? || chore.Unmarking?
    ensures i < |steps| ==> !Budget.Retries(steps[i])
    ensures i < |steps| && steps[i].Begin? ==>
      !steps[i].begin.TakeNext? && !steps[i].begin.ClearRow? && !steps[i].begin.TrimRow? && !steps[i].begin.DeleteStagedRow?
  {
    RunKeepsBase(cells, steps, i);
    WorkerHolds(cells[i].mem, cells[i].actors, j);
    OthersArePolite(cells[i].mem, cells[i].actors, k);
    if i < |steps| {
      assert Enabled(cells[i], steps[i]);
      if steps[i].Clean? { OthersArePolite(cells[i].mem, cells[i].actors, steps[i].k); }
    }
  }

  /** Nobody claims the row while any cleaner is at it. */
  lemma ClaimFindsNoCleaner(cells: seq<Cell>, steps: seq<Step>, i: nat, k: nat)
    requires IsRun(cells, steps) && Fresh(cells[0]) && i < |steps| && steps[i] == Begin(TakeNext)
    requires k < |cells[i].actors|
    ensures !cells[i].actors[k].Working? && !cells[i].actors[k].Tidying?
  {
    var c := cells[i];
    assert Enabled(c, steps[i]);
    RunKeepsBase(cells, steps, i);
    OthersArePolite(c.mem, c.actors, k);
    if HoldsMark(c.actors[k]) { MarkedRow(c.mem, c.actors, k); }
  }
}
