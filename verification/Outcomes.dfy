/** How things end for one row: what takes it out of the queue, what cancels it, what a
    broken attempt, a retry, a clean-up and a restart leave, and that a file can be
    delivered at all. Everything here is said of the row's own fields. */
module Outcomes {
  import opened Wrappers
  import opened Items
  import opened Lifecycle
  import Cancellation
  import Budget

  // ----- leaving the queue

  /** Still in its place; and if it waits, it waits on as before. */
  predicate Stays(m: Mem, n: Mem) {
    && n.queued == m.queued
    && (m.row.state.Pending? ==>
          n.row.state.Pending? && n.row.notBefore == m.row.notBefore && n.row.attempts == m.row.attempts)
  }

  lemma FetchStays(c: Cell, k: nat, step: FetchStep)
    requires k < |c.actors| && c.actors[k].Working? && FetchEnabled(c.actors[k].work, c, step)
    ensures Stays(c.mem, FetchApply(c, k, step).mem)
  {
    hide Stopped;
  }

  lemma PushStays(c: Cell, k: nat, step: PushStep)
    requires k < |c.actors| && c.actors[k].Working? && PushEnabled(c.actors[k].work, step)
    ensures Stays(c.mem, PushApply(c, k, step).mem)
  {
    PushKeepsState(c, k, step);
    PushKeepsSchedule(c, k, step);
    hide PushApply;
  }

  lemma PushKeepsSchedule(c: Cell, k: nat, step: PushStep)
    requires k < |c.actors| && c.actors[k].Working? && PushEnabled(c.actors[k].work, step)
    ensures var m, n := c.mem, PushApply(c, k, step).mem; n.row.notBefore == m.row.notBefore && n.row.attempts == m.row.attempts
  {
    hide CommitJob, Aborted, Opens, Stopped;
  }

  lemma SettleStays(c: Cell, k: nat, step: SettleStep)
    requires k < |c.actors| && c.actors[k].Working? && SettleEnabled(c.actors[k].work, c, k, step)
    requires Fits(c.actors[k].work, c.mem.row.state)
    ensures Stays(c.mem, SettleApply(c, k, step).mem)
  {
    hide Mine, Copy, Refuses;
  }

  lemma PartStays(c: Cell, k: nat, step: PartStep)
    requires k < |c.actors| && c.actors[k].Working? && PartEnabled(c.actors[k].work, step)
    requires Fits(c.actors[k].work, c.mem.row.state)
    ensures Stays(c.mem, PartApply(c, k, step).mem)
  {
    hide Stopped, Refuses;
  }

  lemma CleanStays(c: Cell, k: nat, step: CleanStep)
    requires k < |c.actors| && c.actors[k].Tidying? && CleanEnabled(c.actors[k].chore, c, step) && !step.RetryFinishes?
    ensures Stays(c.mem, CleanApply(c, k, step).mem)
  {
    hide Aborted;
  }

  lemma RetryKeepsPlace(c: Cell, k: nat)
    requires k < |c.actors| && c.actors[k].Tidying? && c.actors[k].chore.RResult?
    ensures CleanApply(c, k, RetryFinishes).mem.queued == c.mem.queued
  {
    hide Restored;
  }

  lemma WorldStays(c: Cell, step: WorldStep)
    requires WorldEnabled(c, step) && !step.Crash?
    ensures Stays(c.mem, WorldApply(c, step).mem)
  {
  }

  lemma ToldStays(c: Cell, step: BeginStep)
    requires BeginEnabled(c, step) && (step.DeleteStagedRow? || step.CleanUpRow?)
    ensures Stays(c.mem, BeginApply(c, step).mem)
  {
  }

  /** What puts a row that waits to another use, or changes what it waits for. */
  predicate Disturbs(step: Step) {
    || (step.Begin? && !step.begin.DeleteStagedRow? && !step.begin.CleanUpRow?)
    || (step.Clean? && step.clean.RetryFinishes?)
    || (step.World? && step.world.Crash?)
  }

  lemma RowStays(c: Cell, step: Step)
    requires Base(c.mem, c.actors) && Enabled(c, step) && !Disturbs(step)
    ensures Stays(c.mem, Apply(c, step).mem)
  {
    hide Stays, FetchApply, PushApply, SettleApply, PartApply, CleanApply, BeginApply, WorldApply;
    if !step.Begin? && !step.World? && c.actors[step.k].Working? { WorkerHolds(c.mem, c.actors, step.k); }
    hide Base;
    match step {
      case Fetch(k, f) => FetchStays(c, k, f);
      case Push(k, p) => PushStays(c, k, p);
      case Settle(k, t) => SettleStays(c, k, t);
      case Part(k, p) => PartStays(c, k, p);
      case Clean(k, t) => CleanStays(c, k, t);
      case Unreserve(k) => assert Stays(c.mem, c.mem) by { StaysItself(c.mem); }
      case Begin(b) => ToldStays(c, b);
      case World(w) => WorldStays(c, w);
    }
  }

  lemma StaysItself(m: Mem)
    ensures Stays(m, m)
  {
  }

  lemma OnlyTheseLeave(c: Cell, step: Step)
    requires Base(c.mem, c.actors) && Enabled(c, step) && !Restarts(step)
    ensures Apply(c, step).mem.queued ==
      (c.mem.queued && !(step.Begin? && (step.begin.ClearRow? || step.begin.TrimRow? || step.begin.DropRow?)))
  {
    if step.Begin? {
      BeginLeaves(c, step.begin);
    } else if step.Clean? && step.clean.RetryFinishes? {
      RetryKeepsPlace(c, step.k);
    } else {
      RowStays(c, step);
      hide Apply, Enabled;
    }
  }

  lemma BeginLeaves(c: Cell, step: BeginStep)
    requires BeginEnabled(c, step)
    ensures BeginApply(c, step).mem.queued == (c.mem.queued && !(step.ClearRow? || step.TrimRow? || step.DropRow?))
  {
  }

  /** A row that is still there may be cleared, or trimmed, exactly if it is delivered, has
      failed or was cancelled, and nobody works on it; a trim spares one whose original is
      still to be deleted. An edit of its job takes it unless it runs or is delivered. */
  lemma LeavingIsAllowedExactly(c: Cell)
    requires c.mem.queued
    ensures var row, idle := c.mem.row, c.mem.run.None? && c.mem.deleting == 0;
      && (Enabled(c, Begin(ClearRow)) <==> idle && !row.state.Pending? && !row.state.Running?)
      && (Enabled(c, Begin(TrimRow)) <==> idle && !row.state.Pending? && !row.state.Running? && !row.deleteAfter)
      && (Enabled(c, Begin(DropRow)) <==> row.state.Pending? || row.state.Failed? || row.state.Cancelled?)
  {
  }

  /** In every run a row leaves the queue, restarts apart, in three ways only. Cleared or
      trimmed: then it was delivered, had failed or was cancelled, and no goroutine worked on
      it or cleaned up after it. Or its job was edited: then it was not delivered, and not
      running. So a waiting row leaves by an edit of its job alone. */
  lemma LeavingTheQueue(cells: seq<Cell>, steps: seq<Step>, i: nat, k: nat)
    requires IsRun(cells, steps) && Fresh(cells[0]) && i < |steps| && !Restarts(steps[i])
    requires cells[i].mem.queued && !cells[i + 1].mem.queued
    ensures var row := cells[i].mem.row;
      || (&& (steps[i] == Begin(ClearRow) || (steps[i] == Begin(TrimRow) && !row.deleteAfter))
          && (row.state.Complete? || row.state.Failed? || row.state.Cancelled?)
          && (k < |cells[i].actors| ==> !cells[i].actors[k].Working? && !cells[i].actors[k].Tidying?))
      || (steps[i] == Begin(DropRow) && (row.state.Pending? || row.state.Failed? || row.state.Cancelled?))
    ensures cells[i].mem.row.state.Pending? ==> steps[i] == Begin(DropRow)
  {
    var c := cells[i];
    RunKeepsBase(cells, steps, i);
    OnlyTheseLeave(c, steps[i]);
    assert Enabled(c, steps[i]);
    if k < |c.actors| && !steps[i].begin.DropRow? {
      OthersArePolite(c.mem, c.actors, k);
      if HoldsMark(c.actors[k]) { MarkedRow(c.mem, c.actors, k); }
    }
  }

  lemma RowStaysInRuns(cells: seq<Cell>, steps: seq<Step>, i: nat)
    requires IsRun(cells, steps) && Fresh(cells[0]) && i < |steps| && !Disturbs(steps[i])
    ensures Stays(cells[i].mem, cells[i + 1].mem)
  {
    RunKeepsBase(cells, steps, i);
    RowStays(cells[i], steps[i]);
  }

  /** A row put back in the queue, after a broken attempt, keeps the time it is not to be
      tried before, and its attempts, until it is claimed, cancelled, retried or dropped, or
      the process restarts. */
  lemma {:induction false} BackoffIsKept(cells: seq<Cell>, steps: seq<Step>, from: nat, to: nat)
    requires IsRun(cells, steps) && Fresh(cells[0]) && from <= to < |cells| && cells[from].mem.row.state.Pending?
    requires forall i :: from <= i < to ==> !Disturbs(steps[i])
    ensures var row, was := cells[to].mem.row, cells[from].mem.row;
      row.state.Pending? && row.notBefore == was.notBefore && row.attempts == was.attempts
    ensures cells[to].mem.queued == cells[from].mem.queued
  {
    if from < to {
      BackoffIsKept(cells, steps, from, to - 1);
      RowStaysInRuns(cells, steps, to - 1);
      hide IsRun, Fresh, Disturbs;
    }
  }

  // ----- cancelling

  /** Cancel takes every row of the queue but a delivered one and one that a cleaner holds
      and no worker does. The row is then cancelled at once, its worker, if it has one, is
      told to stop, and no worker can claim it. */
  lemma CancelTakesHold(c: Cell, now: int)
    ensures Enabled(c, Begin(CancelRow(now))) <==>
      c.mem.queued && !c.mem.row.state.Complete? && (c.mem.run.Some? || c.mem.deleting == 0)
    ensures Enabled(c, Begin(CancelRow(now))) ==>
      var d := Apply(c, Begin(CancelRow(now)));
        && d.mem.row == c.mem.row.(state := Cancelled, stage := Idle, notBefore := 0, finishedAt := now)
        && (c.mem.run.Some? ==> d.mem.run == Some(Run(c.mem.run.value.who, true)) && d.mem.cancelling)
        && (c.mem.run.None? ==> d.mem.run.None? && !d.mem.cancelling)
        && d.mem.queued && d.mem.deleting == c.mem.deleting + 1 && !Enabled(d, Begin(TakeNext))
  {
  }

  /** What Cancel has taken stays cancelled, and is never claimed, until somebody retries it
      or the process restarts. */
  lemma CancelledIsNotClaimed(cells: seq<Cell>, steps: seq<Step>, from: nat, to: nat)
    requires IsRun(cells, steps) && Fresh(cells[0]) && from < to < |steps|
    requires steps[from].Begin? && steps[from].begin.CancelRow?
    requires forall i :: from < i < to ==>
      steps[i] != Begin(RetryRow) && !(steps[i].Clean? && steps[i].clean.RetryFinishes?) && !(steps[i].World? && steps[i].world.Crash?)
    ensures cells[to].mem.row.state.Cancelled? && steps[to] != Begin(TakeNext)
  {
    CancelTakesHold(cells[from], steps[from].begin.now);
    assert Enabled(cells[from], steps[from]);
    forall i | from < i < to ensures !Budget.Renews(cells[i], steps[i]) && !Restarts(steps[i]) {
      assert Enabled(cells[i], steps[i]);
    }
    Cancellation.CancelledUntilRetry(cells, steps, from + 1, to);
    assert Enabled(cells[to], steps[to]);
  }

  // ----- what a goroutine's sections come to, one after the other

  /** One more step; the lemmas after it are its forms. */
  lemma Then(cells: seq<Cell>, steps: seq<Step>, step: Step) returns (longer: seq<Cell>, done: seq<Step>, d: Cell)
    requires IsRun(cells, steps) && Enabled(cells[|steps|], step)
    ensures IsRun(longer, done) && done == steps + [step] && d == Apply(cells[|steps|], step) && longer == cells + [d]
  {
    longer, done := Extend(cells, steps, step);
    d := longer[|done|];
  }

  lemma ThenPart(cells: seq<Cell>, steps: seq<Step>, k: nat, step: PartStep)
      returns (longer: seq<Cell>, done: seq<Step>, d: Cell)
    requires IsRun(cells, steps) && var c := cells[|steps|];
      k < |c.actors| && c.actors[k].Working? && PartEnabled(c.actors[k].work, step)
    ensures IsRun(longer, done) && done == steps + [Part(k, step)]
    ensures d == PartApply(cells[|steps|], k, step) && longer == cells + [d]
  {
    longer, done, d := Then(cells, steps, Part(k, step));
  }

  lemma ThenFetch(cells: seq<Cell>, steps: seq<Step>, k: nat, step: FetchStep)
      returns (longer: seq<Cell>, done: seq<Step>, d: Cell)
    requires IsRun(cells, steps) && var c := cells[|steps|];
      k < |c.actors| && c.actors[k].Working? && FetchEnabled(c.actors[k].work, c, step)
    ensures IsRun(longer, done) && done == steps + [Fetch(k, step)]
    ensures d == FetchApply(cells[|steps|], k, step) && longer == cells + [d]
  {
    longer, done, d := Then(cells, steps, Fetch(k, step));
  }

  lemma ThenPush(cells: seq<Cell>, steps: seq<Step>, k: nat, step: PushStep)
      returns (longer: seq<Cell>, done: seq<Step>, d: Cell)
    requires IsRun(cells, steps) && var c := cells[|steps|];
      k < |c.actors| && c.actors[k].Working? && PushEnabled(c.actors[k].work, step)
    ensures IsRun(longer, done) && done == steps + [Push(k, step)]
    ensures d == PushApply(cells[|steps|], k, step) && longer == cells + [d]
  {
    longer, done, d := Then(cells, steps, Push(k, step));
  }

  lemma ThenSettle(cells: seq<Cell>, steps: seq<Step>, k: nat, step: SettleStep)
      returns (longer: seq<Cell>, done: seq<Step>, d: Cell)
    requires IsRun(cells, steps) && var c := cells[|steps|];
      k < |c.actors| && c.actors[k].Working? && SettleEnabled(c.actors[k].work, c, k, step)
    ensures IsRun(longer, done) && done == steps + [Settle(k, step)]
    ensures d == SettleApply(cells[|steps|], k, step) && longer == cells + [d]
  {
    longer, done, d := Then(cells, steps, Settle(k, step));
  }

  lemma ThenClean(cells: seq<Cell>, steps: seq<Step>, k: nat, step: CleanStep)
      returns (longer: seq<Cell>, done: seq<Step>, d: Cell)
    requires IsRun(cells, steps) && var c := cells[|steps|];
      k < |c.actors| && c.actors[k].Tidying? && CleanEnabled(c.actors[k].chore, c, step)
    ensures IsRun(longer, done) && done == steps + [Clean(k, step)]
    ensures d == CleanApply(cells[|steps|], k, step) && longer == cells + [d]
  {
    longer, done, d := Then(cells, steps, Clean(k, step));
  }

  lemma ThenBegin(cells: seq<Cell>, steps: seq<Step>, step: BeginStep)
      returns (longer: seq<Cell>, done: seq<Step>, d: Cell)
    requires IsRun(cells, steps) && BeginEnabled(cells[|steps|], step)
    ensures IsRun(longer, done) && done == steps + [Begin(step)]
    ensures d == BeginApply(cells[|steps|], step) && longer == cells + [d]
  {
    longer, done, d := Then(cells, steps, Begin(step));
  }

  /** Nobody has told the worker to stop. */
  predicate Undisturbed(m: Mem) {
    m.run.Some? && !m.run.value.cancelRequested && !m.cancelling && !m.row.state.Cancelled?
  }

  lemma TroubleIsWeighed(c: Cell, k: nat, trouble: Trouble)
    requires k < |c.actors| && c.actors[k] == Working(Broken(trouble)) && Undisturbed(c.mem)
    ensures PartApply(c, k, AfterTrouble) == c.(actors := c.actors[k := Working(Deciding(trouble))])
  {
  }

  lemma TroubleIsDecided(c: Cell, k: nat, trouble: Trouble, stopping: bool)
    requires k < |c.actors| && c.actors[k] == Working(Deciding(trouble))
    ensures PartApply(c, k, Decide(stopping)) == c.(actors := c.actors[k := Working(
        if trouble.NeedsLogin? || trouble.NeedsRoom? || (trouble.Transient? && stopping) then Requeueing(false)
        else if trouble.Transient? && c.mem.row.attempts < c.max then Requeueing(true)
        else Failing)])
  {
  }

  lemma RowGoesBack(c: Cell, k: nat, charge: bool, notBefore: int)
    requires k < |c.actors| && c.actors[k] == Working(Requeueing(charge)) && Undisturbed(c.mem)
    ensures PartApply(c, k, RequeueLock(notBefore)) ==
      c.(mem := c.mem.(row := c.mem.row.(state := Pending, stage := Idle, uploaded := 0, uploadJob := None, finishedAt := 0,
                         notBefore := notBefore,
                         attempts := if charge || c.mem.row.attempts == 0 then c.mem.row.attempts else c.mem.row.attempts - 1)),
         actors := c.actors[k := Working(Leaving(false))], charged := c.charged + (if charge then 1 else 0))
  {
  }

  lemma RowFails(c: Cell, k: nat, now: int)
    requires k < |c.actors| && c.actors[k] == Working(Failing) && Undisturbed(c.mem)
    ensures PartApply(c, k, FailLock(now)) ==
      c.(mem := c.mem.(row := c.mem.row.(state := Failed, stage := Idle, finishedAt := now, notBefore := 0)),
         actors := c.actors[k := Working(Leaving(false))], charged := c.charged + 1)
  {
  }

  /** How a broken attempt ends. One that only wants for a login or for room, or that a
      stop of the whole engine broke, goes back to the queue with its attempt given back. A
      transient failure costs the attempt, and goes back as long as any are left; otherwise,
      and for a permanent failure at once, the row has failed. */
  lemma TroubleIsSettled(c: Cell, k: nat, trouble: Trouble, stopping: bool, notBefore: int, now: int)
      returns (cells: seq<Cell>, steps: seq<Step>)
    requires k < |c.actors| && c.actors[k] == Working(Broken(trouble)) && Undisturbed(c.mem)
    ensures IsRun(cells, steps) && cells[0] == c
    ensures var free := trouble.NeedsLogin? || trouble.NeedsRoom? || (trouble.Transient? && stopping);
      var again := free || (trouble.Transient? && c.mem.row.attempts < c.max);
      && steps == [Part(k, AfterTrouble), Part(k, Decide(stopping)), Part(k, if again then RequeueLock(notBefore) else FailLock(now))]
      && cells[3].mem.row == (
           if again
           then c.mem.row.(state := Pending, stage := Idle, uploaded := 0, uploadJob := None, finishedAt := 0,
                           notBefore := notBefore,
                           attempts := if free && c.mem.row.attempts > 0 then c.mem.row.attempts - 1 else c.mem.row.attempts)
           else c.mem.row.(state := Failed, stage := Idle, finishedAt := now, notBefore := 0))
      && cells[3].mem == c.mem.(row := cells[3].mem.row) && cells[3].charged == c.charged + (if free then 0 else 1)
      && cells[3].actors == c.actors[k := Working(Leaving(false))]
  {
    hide Enabled, Apply, PartApply;
    var d: Cell;
    TroubleIsWeighed(c, k, trouble);
    cells, steps, d := ThenPart([c], [], k, AfterTrouble);
    TroubleIsDecided(d, k, trouble, stopping);
    cells, steps, d := ThenPart(cells, steps, k, Decide(stopping));
    if d.actors[k].work.Requeueing? {
      RowGoesBack(d, k, d.actors[k].work.charge, notBefore);
      cells, steps, d := ThenPart(cells, steps, k, RequeueLock(notBefore));
    } else {
      RowFails(d, k, now);
      cells, steps, d := ThenPart(cells, steps, k, FailLock(now));
    }
  }

  /** A worker that was told to stop leaves its row as it is, charges nothing, and clears
      away what it has staged before it takes down its record. */
  lemma InterruptedWorkerClearsUp(c: Cell, k: nat, trouble: Trouble) returns (cells: seq<Cell>, steps: seq<Step>)
    requires k < |c.actors| && c.actors[k] == Working(Broken(trouble))
    requires c.mem.run == Some(Run(k, true))
    ensures IsRun(cells, steps) && cells[0] == c
    ensures steps == [Part(k, AfterTrouble), Part(k, Unwind), Part(k, DiscardOwn), Part(k, ReleaseRun)]
    ensures cells[3].mem == c.mem && cells[4].mem == c.mem.(run := None, cancelling := false)
    ensures cells[4].charged == c.charged && cells[4].actors == c.actors[k := Released]
  {
    hide Enabled, Apply;
    var d: Cell;
    cells, steps, d := ThenPart([c], [], k, AfterTrouble);
    cells, steps, d := ThenPart(cells, steps, k, Unwind);
    cells, steps, d := ThenPart(cells, steps, k, DiscardOwn);
    cells, steps, d := ThenPart(cells, steps, k, ReleaseRun);
  }

  lemma CompletionRollsBack(c: Cell, k: nat, stage: Stage, finishedAt: int)
    requires k < |c.actors| && c.actors[k] == Working(Storing(stage, finishedAt))
    requires c.writing.Some? && c.writing.value.writer == Some(k)
    ensures SettleEnabled(c.actors[k].work, c, k, PersistFailed)
    ensures SettleApply(c, k, PersistFailed) ==
      c.(mem := c.mem.(row := c.mem.row.(state := Running, stage := stage, finishedAt := finishedAt)),
         actors := c.actors[k := Working(Settling(false))], writing := None)
  {
  }

  lemma RollbackIsSettled(c: Cell, k: nat)
    requires k < |c.actors| && c.actors[k] == Working(Settling(false))
    ensures SettleApply(c, k, CompleteUnmark) ==
      c.(mem := c.mem.(deleting := if c.mem.deleting == 0 then 0 else c.mem.deleting - 1), actors := c.actors[k := Working(Work.Refusal)])
  {
  }

  lemma RefusalIsWeighed(c: Cell, k: nat)
    requires k < |c.actors| && c.actors[k] == Working(Work.Refusal) && Undisturbed(c.mem)
    ensures SettleApply(c, k, AfterRefusal) == c.(actors := c.actors[k := Working(Requeueing(false))])
  {
  }

  /** A completion that could not be stored: the row goes back to the queue as if the attempt
      had never been made, so it is delivered again, and no failure is charged. */
  lemma CompletionIsTakenBack(c: Cell, k: nat, stage: Stage, finishedAt: int, notBefore: int)
      returns (cells: seq<Cell>, steps: seq<Step>)
    requires k < |c.actors| && c.actors[k] == Working(Storing(stage, finishedAt)) && Undisturbed(c.mem)
    requires c.writing.Some? && c.writing.value.writer == Some(k) && c.mem.deleting > 0
    ensures IsRun(cells, steps) && cells[0] == c
    ensures steps == [Settle(k, PersistFailed), Settle(k, CompleteUnmark), Settle(k, AfterRefusal), Part(k, RequeueLock(notBefore))]
    ensures cells[4] ==
      c.(mem := c.mem.(row := c.mem.row.(state := Pending, stage := Idle, uploaded := 0, uploadJob := None, finishedAt := 0,
                         notBefore := notBefore,
                         attempts := if c.mem.row.attempts == 0 then 0 else c.mem.row.attempts - 1),
                       deleting := c.mem.deleting - 1),
         actors := c.actors[k := Working(Leaving(false))], writing := None)
  {
    hide Enabled, Apply, SettleApply, PartApply;
    var d: Cell;
    CompletionRollsBack(c, k, stage, finishedAt);
    cells, steps, d := ThenSettle([c], [], k, PersistFailed);
    RollbackIsSettled(d, k);
    cells, steps, d := ThenSettle(cells, steps, k, CompleteUnmark);
    RefusalIsWeighed(d, k);
    cells, steps, d := ThenSettle(cells, steps, k, AfterRefusal);
    RowGoesBack(d, k, false, notBefore);
    cells, steps, d := ThenPart(cells, steps, k, RequeueLock(notBefore));
  }

  /** A worker told to stop once its upload is through: the row is not completed, and what was
      staged goes before the worker does. */
  lemma StoppedAfterTheUpload(c: Cell, k: nat) returns (cells: seq<Cell>, steps: seq<Step>)
    requires k < |c.actors| && c.actors[k] == Working(Work.Uploaded) && c.mem.run == Some(Run(k, true))
    ensures IsRun(cells, steps) && cells[0] == c
    ensures steps == [Push(k, CheckStop), Part(k, Unwind), Part(k, DiscardOwn), Part(k, ReleaseRun)]
    ensures cells[4] == c.(mem := c.mem.(run := None, cancelling := false), actors := c.actors[k := Released])
  {
    hide Enabled, Apply;
    var d: Cell;
    cells, steps, d := ThenPush([c], [], k, CheckStop);
    cells, steps, d := ThenPart(cells, steps, k, Unwind);
    cells, steps, d := ThenPart(cells, steps, k, DiscardOwn);
    cells, steps, d := ThenPart(cells, steps, k, ReleaseRun);
  }

  lemma StoppedAtCompleteIsRefused(c: Cell, k: nat, now: int)
    requires k < |c.actors| && c.actors[k] == Working(AtComplete) && c.mem.run == Some(Run(k, true))
    ensures SettleApply(c, k, CompleteLock(now)) == c.(actors := c.actors[k := Working(Work.Refusal)])
  {
  }

  lemma RefusalIsLeft(c: Cell, k: nat)
    requires k < |c.actors| && c.actors[k] == Working(Work.Refusal) && c.mem.run == Some(Run(k, true))
    ensures SettleApply(c, k, AfterRefusal) == c.(actors := c.actors[k := Working(Leaving(false))])
  {
  }

  /** One told to stop later still: complete refuses, and the row stays cancelled. */
  lemma StoppedAtComplete(c: Cell, k: nat, now: int) returns (cells: seq<Cell>, steps: seq<Step>)
    requires k < |c.actors| && c.actors[k] == Working(AtComplete) && c.mem.run == Some(Run(k, true))
    ensures IsRun(cells, steps) && cells[0] == c
    ensures steps == [Settle(k, CompleteLock(now)), Settle(k, AfterRefusal), Part(k, Unwind), Part(k, DiscardOwn), Part(k, ReleaseRun)]
    ensures cells[5] == c.(mem := c.mem.(run := None, cancelling := false), actors := c.actors[k := Released])
  {
    hide Enabled, Apply, SettleApply;
    var d: Cell;
    StoppedAtCompleteIsRefused(c, k, now);
    cells, steps, d := ThenSettle([c], [], k, CompleteLock(now));
    RefusalIsLeft(d, k);
    cells, steps, d := ThenSettle(cells, steps, k, AfterRefusal);
    cells, steps, d := ThenPart(cells, steps, k, Unwind);
    cells, steps, d := ThenPart(cells, steps, k, DiscardOwn);
    cells, steps, d := ThenPart(cells, steps, k, ReleaseRun);
  }

  // ----- the cleaners

  /** A row on which a Retry, or a DeleteStaged, may begin. */
  predicate Idles(m: Mem) {
    m.queued && !m.row.state.Running? && m.run.None? && m.deleting == 0
  }

  lemma RetryBegins(c: Cell, job: nat)
    requires Idles(c.mem) && !c.mem.row.state.Complete? && c.mem.row.uploadJob == Some(job)
    ensures BeginEnabled(c, RetryRow)
    ensures BeginApply(c, RetryRow) == c.(mem := c.mem.(deleting := 1), actors := c.actors + [Tidying(RAbort(job))])
  {
  }

  lemma RetryTakesTheJob(c: Cell, k: nat, job: nat)
    requires k < |c.actors| && c.actors[k] == Tidying(RAbort(job)) && c.mem.row.uploadJob == Some(job)
    ensures CleanApply(c, k, RetryAborts) ==
      c.(mem := c.mem.(row := c.mem.row.(uploadJob := None)), actors := c.actors[k := Tidying(RAborting(job))])
  {
  }

  lemma RetryHasItAborted(c: Cell, k: nat, job: nat, ok: bool)
    requires k < |c.actors| && c.actors[k] == Tidying(RAborting(job)) && job < |c.jobs|
    ensures CleanApply(c, k, RetryHostAborts(ok)) ==
      c.(jobs := c.jobs[job := c.jobs[job].(aborted := true, aborts := c.jobs[job].aborts + 1)],
         actors := c.actors[k := Tidying(RResult(job, ok))])
  {
  }

  lemma RetryStartsOver(c: Cell, k: nat, job: nat)
    requires k < |c.actors| && c.actors[k] == Tidying(RResult(job, true)) && c.mem.run.None? && c.mem.deleting == 1
    ensures CleanApply(c, k, RetryFinishes) ==
      c.(mem := c.mem.(row := c.mem.row.(state := Pending, stage := Idle, downloaded := 0, uploaded := 0, uploadJob := None,
                                         finishedAt := 0, attempts := 0, notBefore := 0),
                       cancelling := false, deleting := 0),
         actors := c.actors[k := Gone], charged := 0, slack := 0)
  {
  }

  lemma RetryPutsItBack(c: Cell, k: nat, job: nat)
    requires k < |c.actors| && c.actors[k] == Tidying(RResult(job, false)) && c.mem.row.uploadJob.None? && c.mem.deleting == 1
    requires job < |c.jobs|
    ensures CleanApply(c, k, RetryFinishes) ==
      c.(mem := c.mem.(row := c.mem.row.(uploadJob := Some(job)), deleting := 0),
         actors := c.actors[k := Gone], jobs := c.jobs[job := c.jobs[job].(restored := true)])
  {
  }

  /** A Retry with an old upload job: only once that job has been aborted does the row start
      over; when it cannot be, the row keeps its state, and the job. */
  lemma RetryWithAJob(c: Cell, job: nat, ok: bool) returns (cells: seq<Cell>, steps: seq<Step>)
    requires Idles(c.mem) && !c.mem.row.state.Complete? && c.mem.row.uploadJob == Some(job) && job < |c.jobs|
    ensures IsRun(cells, steps) && cells[0] == c
    ensures var k := |c.actors|;
      steps == [Begin(RetryRow), Clean(k, RetryAborts), Clean(k, RetryHostAborts(ok)), Clean(k, RetryFinishes)]
    ensures cells[1].mem == c.mem.(deleting := 1) && cells[2].mem.row.uploadJob.None?
    ensures var d := cells[4];
      && d.mem.queued && d.mem.run.None? && d.mem.deleting == 0 && d.actors == c.actors + [Gone]
      && |d.jobs| == |c.jobs| && d.jobs[job].aborts == c.jobs[job].aborts + 1 && d.charged == (if ok then 0 else c.charged)
      && d.mem.row == (
           if ok
           then c.mem.row.(state := Pending, stage := Idle, downloaded := 0, uploaded := 0, uploadJob := None, finishedAt := 0,
                           attempts := 0, notBefore := 0)
           else c.mem.row)
  {
    hide Enabled, Apply, BeginApply, CleanApply;
    var k, d := |c.actors|, c;
    RetryBegins(c, job);
    cells, steps, d := ThenBegin([c], [], RetryRow);
    RetryTakesTheJob(d, k, job);
    cells, steps, d := ThenClean(cells, steps, k, RetryAborts);
    RetryHasItAborted(d, k, job, ok);
    cells, steps, d := ThenClean(cells, steps, k, RetryHostAborts(ok));
    if ok { RetryStartsOver(d, k, job); } else { RetryPutsItBack(d, k, job); }
    cells, steps, d := ThenClean(cells, steps, k, RetryFinishes);
  }

  /** A Retry without one: the row starts over at once, and the account with it. */
  lemma RetryAtOnce(c: Cell)
    requires Idles(c.mem) && !c.mem.row.state.Complete? && c.mem.row.uploadJob.None?
    ensures Enabled(c, Begin(RetryRow))
    ensures Apply(c, Begin(RetryRow)) ==
      c.(mem := c.mem.(row := c.mem.row.(state := Pending, stage := Idle, downloaded := 0, uploaded := 0, finishedAt := 0,
                                         attempts := 0, notBefore := 0), cancelling := false),
         charged := 0, slack := 0)
  {
  }

  lemma StagedIsMarked(c: Cell)
    requires Idles(c.mem)
    ensures BeginEnabled(c, DeleteStagedRow)
    ensures BeginApply(c, DeleteStagedRow) == c.(mem := c.mem.(deleting := 1), actors := c.actors + [Tidying(DDiscard)])
  {
  }

  /** DeleteStaged: the row is marked while its files go, shows nothing downloaded after
      that, and is otherwise as before. */
  lemma StagedIsDeleted(c: Cell) returns (cells: seq<Cell>, steps: seq<Step>)
    requires Idles(c.mem)
    ensures IsRun(cells, steps) && cells[0] == c
    ensures var k := |c.actors|;
      steps == [Begin(DeleteStagedRow), Clean(k, CleanerDiscards), Clean(k, ResetDownloaded), Clean(k, Unmark)]
    ensures cells[1].mem.deleting == cells[2].mem.deleting == cells[3].mem.deleting == 1
    ensures cells[4] == c.(mem := c.mem.(row := c.mem.row.(downloaded := 0)), actors := c.actors + [Gone])
  {
    hide Enabled, Apply, BeginApply;
    var k, d := |c.actors|, c;
    StagedIsMarked(c);
    cells, steps, d := ThenBegin([c], [], DeleteStagedRow);
    cells, steps, d := ThenClean(cells, steps, k, CleanerDiscards);
    cells, steps, d := ThenClean(cells, steps, k, ResetDownloaded);
    cells, steps, d := ThenClean(cells, steps, k, Unmark);
  }

  lemma CleanUpBegins(c: Cell)
    requires c.mem.queued && c.mem.row.state.Complete? && c.mem.row.deleteAfter && c.mem.deleting == 0
    ensures BeginEnabled(c, CleanUpRow)
    ensures BeginApply(c, CleanUpRow) == c.(mem := c.mem.(deleting := 1), actors := c.actors + [Tidying(PDelete)])
  {
  }

  /** The clean-up of a delivered row whose original is still there: the row is to be cleaned
      up no more exactly if the original has been deleted. */
  lemma CleanUpSucceeds(c: Cell) returns (cells: seq<Cell>, steps: seq<Step>)
    requires c.mem.queued && c.mem.row.state.Complete? && c.mem.row.deleteAfter && c.mem.deleting == 0
    ensures IsRun(cells, steps) && cells[0] == c
    ensures var k := |c.actors|;
      steps == [Begin(CleanUpRow), Clean(k, CleanUpErases(true)), Clean(k, CleanUpNotes), Clean(k, Unmark)]
    ensures cells[4] == c.(mem := c.mem.(row := c.mem.row.(deleteAfter := false)), actors := c.actors + [Gone], deleted := true)
  {
    hide Enabled, Apply, BeginApply;
    var k, d := |c.actors|, c;
    CleanUpBegins(c);
    cells, steps, d := ThenBegin([c], [], CleanUpRow);
    cells, steps, d := ThenClean(cells, steps, k, CleanUpErases(true));
    cells, steps, d := ThenClean(cells, steps, k, CleanUpNotes);
    cells, steps, d := ThenClean(cells, steps, k, Unmark);
  }

  lemma CleanUpFails(c: Cell) returns (cells: seq<Cell>, steps: seq<Step>)
    requires c.mem.queued && c.mem.row.state.Complete? && c.mem.row.deleteAfter && c.mem.deleting == 0
    ensures IsRun(cells, steps) && cells[0] == c
    ensures var k := |c.actors|; steps == [Begin(CleanUpRow), Clean(k, CleanUpErases(false)), Clean(k, Unmark)]
    ensures cells[3] == c.(actors := c.actors + [Gone])
  {
    hide Enabled, Apply, BeginApply;
    var k, d := |c.actors|, c;
    CleanUpBegins(c);
    cells, steps, d := ThenBegin([c], [], CleanUpRow);
    cells, steps, d := ThenClean(cells, steps, k, CleanUpErases(false));
    cells, steps, d := ThenClean(cells, steps, k, Unmark);
  }

  lemma CancelBegins(c: Cell, now: int)
    requires c.mem.queued && !c.mem.row.state.Complete? && c.mem.run.None? && c.mem.deleting == 0
    ensures BeginEnabled(c, CancelRow(now))
    ensures BeginApply(c, CancelRow(now)) ==
      c.(mem := c.mem.(row := c.mem.row.(state := Cancelled, stage := Idle, notBefore := 0, finishedAt := now),
                       cancelling := false, deleting := 1),
         actors := c.actors + [Tidying(CDiscard(c.mem.row.uploadJob))])
  {
  }

  /** Cancel of a row nobody works on: its files go, then the upload job it may still name is
      aborted, once, and only then is the row free for a Retry. */
  lemma IdleRowIsCancelled(c: Cell, now: int) returns (cells: seq<Cell>, steps: seq<Step>)
    requires c.mem.queued && !c.mem.row.state.Complete? && c.mem.run.None? && c.mem.deleting == 0
    requires c.mem.row.uploadJob.Some? ==> c.mem.row.uploadJob.value < |c.jobs|
    ensures IsRun(cells, steps) && cells[0] == c
    ensures var k, job := |c.actors|, c.mem.row.uploadJob;
      && steps == [Begin(CancelRow(now)), Clean(k, CleanerDiscards), Clean(k, CancelAborts)]
                  + (if job.Some? then [Clean(k, CancelHostAborts)] else []) + [Clean(k, Unmark)]
      && var d := cells[|steps|];
        && d.mem == Mem(c.mem.row.(state := Cancelled, stage := Idle, notBefore := 0, finishedAt := now, uploadJob := None),
                        true, None, false, 0)
        && d.actors == c.actors + [Gone]
        && d.jobs == if job.None? then c.jobs
                     else c.jobs[job.value := c.jobs[job.value].(aborted := true, aborts := c.jobs[job.value].aborts + 1)]
  {
    hide Enabled, Apply, BeginApply;
    var k, d := |c.actors|, c;
    CancelBegins(c, now);
    cells, steps, d := ThenBegin([c], [], CancelRow(now));
    cells, steps, d := ThenClean(cells, steps, k, CleanerDiscards);
    cells, steps, d := ThenClean(cells, steps, k, CancelAborts);
    if c.mem.row.uploadJob.Some? {
      cells, steps, d := ThenClean(cells, steps, k, CancelHostAborts);
    }
    cells, steps, d := ThenClean(cells, steps, k, Unmark);
  }

  lemma CancelGoesOn(c: Cell, k: nat)
    requires k < |c.actors| && c.actors[k].Tidying? && c.actors[k].chore.CWaiting? && c.mem.run.None?
    ensures CleanEnabled(c.actors[k].chore, c, CancelResumes)
    ensures CleanApply(c, k, CancelResumes) == c.(actors := c.actors[k := Tidying(CAbort(c.mem.row.uploadJob))])
  {
  }

  /** Cancel of a row whose worker has gone: the upload job the worker left on the row, if any,
      is taken off it and aborted, once. */
  lemma InterruptedCancelEnds(c: Cell, k: nat) returns (cells: seq<Cell>, steps: seq<Step>)
    requires k < |c.actors| && c.actors[k].Tidying? && c.actors[k].chore.CWaiting? && c.mem.run.None? && c.mem.deleting > 0
    requires c.mem.row.uploadJob.Some? ==> c.mem.row.uploadJob.value < |c.jobs|
    ensures IsRun(cells, steps) && cells[0] == c
    ensures var job := c.mem.row.uploadJob;
      && steps == [Clean(k, CancelResumes), Clean(k, CancelAborts)]
                  + (if job.Some? then [Clean(k, CancelHostAborts)] else []) + [Clean(k, Unmark)]
      && var d := cells[|steps|];
        && d.mem == c.mem.(row := c.mem.row.(uploadJob := None), deleting := c.mem.deleting - 1)
        && d.actors == c.actors[k := Gone]
        && d.jobs == if job.None? then c.jobs
                     else c.jobs[job.value := c.jobs[job.value].(aborted := true, aborts := c.jobs[job.value].aborts + 1)]
  {
    hide Enabled, Apply;
    var d: Cell;
    CancelGoesOn(c, k);
    cells, steps, d := ThenClean([c], [], k, CancelResumes);
    cells, steps, d := ThenClean(cells, steps, k, CancelAborts);
    if c.mem.row.uploadJob.Some? {
      cells, steps, d := ThenClean(cells, steps, k, CancelHostAborts);
    }
    cells, steps, d := ThenClean(cells, steps, k, Unmark);
  }

  // ----- a restart

  /** What a restart brings back: the stored row and nothing else. A running one goes back
      to the queue with its attempt given back, unless its upload had been committed: then it
      is delivered. */
  lemma RestartBringsBack(c: Cell, now: int)
    ensures Enabled(c, World(Crash(now)))
    ensures var d := Apply(c, World(Crash(now)));
      && d.actors == [] && d.mem == Mem(d.mem.row, c.stored.Some?, None, false, 0) && d.stored == c.stored && d.charged == c.charged
      && d.committed == c.committed && d.deleted == c.deleted
      && (c.stored.Some? ==>
            var was := c.stored.value;
              d.mem.row ==
                if !was.state.Running? then was
                else if was.stage.Finishing? then was.(state := Complete, stage := Idle, finishedAt := now, uploaded := was.size)
                else was.(state := Pending, stage := Idle, uploaded := 0, uploadJob := None, notBefore := 0,
                          attempts := if was.attempts == 0 then 0 else was.attempts - 1))
  {
  }

  // ----- a delivery

  /** A row appended by a scan is claimed, staged, and its upload opened. */
  lemma SendingBegins(c: Cell) returns (cells: seq<Cell>, steps: seq<Step>)
    requires Fresh(c) && c.mem.row.state.Pending?
    ensures IsRun(cells, steps) && cells[0] == c
    ensures cells[|steps|] ==
      c.(mem := Mem(c.mem.row.(state := Running, stage := Uploading, attempts := 1, notBefore := 0, uploadJob := Some(0)),
                    true, Some(Run(0, false)), false, 0),
         actors := [Working(Sending(0))], jobs := [Job(false, false, 0, false, false, false, false, 0, c.epoch)])
  {
    hide Enabled, Apply;
    var d := c;
    cells, steps, d := ThenBegin([c], [], TakeNext);
    cells, steps, d := ThenFetch(cells, steps, 0, WatchItem);
    cells, steps, d := ThenFetch(cells, steps, 0, StageDone);
    cells, steps, d := ThenFetch(cells, steps, 0, StartUpload);
    cells, steps, d := ThenPush(cells, steps, 0, HostOpens);
    cells, steps, d := ThenPush(cells, steps, 0, RecordJob);
  }

  /** The host commits it. */
  lemma CommitFollows(cells: seq<Cell>, steps: seq<Step>) returns (longer: seq<Cell>, done: seq<Step>)
    requires IsRun(cells, steps) && var c := cells[|steps|];
      && c.actors == [Working(Sending(0))] && |c.jobs| == 1 && c.mem.row.uploadJob == Some(0) && Undisturbed(c.mem)
    ensures IsRun(longer, done) && longer[0] == cells[0]
    ensures var c := cells[|steps|];
      longer[|done|] ==
        c.(mem := c.mem.(row := c.mem.row.(stage := Finishing, uploadJob := None)),
           actors := [Working(AtComplete)], jobs := [c.jobs[0].(committed := true)], committed := true)
  {
    hide Enabled, Apply;
    var d := cells[|steps|];
    longer, done, d := ThenPush(cells, steps, 0, HostCommits);
    longer, done, d := ThenPush(longer, done, 0, ForgetJob);
    longer, done, d := ThenPush(longer, done, 0, CheckStop);
    longer, done, d := ThenPush(longer, done, 0, SetFinishing);
  }

  /** The completed row is stored before anything else happens to it. */
  lemma CompletionFollows(cells: seq<Cell>, steps: seq<Step>, now: int) returns (longer: seq<Cell>, done: seq<Step>)
    requires IsRun(cells, steps) && var c := cells[|steps|];
      && c.actors == [Working(AtComplete)] && Undisturbed(c.mem) && c.mem.queued && c.mem.deleting == 0 && c.writing.None?
    ensures IsRun(longer, done) && longer[0] == cells[0]
    ensures var c := cells[|steps|]; var row := c.mem.row.(state := Complete, stage := Idle, finishedAt := now);
      longer[|done|] == c.(mem := c.mem.(row := row), actors := [Working(Work.Delivered)], stored := Some(row))
  {
    hide Enabled, Apply;
    var d := cells[|steps|];
    longer, done, d := ThenSettle(cells, steps, 0, CompleteLock(now));
    longer, done, d := ThenSettle(longer, done, 0, PersistTakes);
    assert Enabled(d, World(WriterStores)) && Apply(d, World(WriterStores)) == WorldApply(d, WriterStores) by {
      WriterMayStore(d);
    }
    longer, done, d := Then(longer, done, World(WriterStores));
    longer, done, d := ThenSettle(longer, done, 0, PersistOk);
    longer, done, d := ThenSettle(longer, done, 0, CompleteUnmark);
  }

  lemma WriterMayStore(c: Cell)
    requires c.writing.Some? && !c.writing.value.reached
    ensures Enabled(c, World(WriterStores)) && Apply(c, World(WriterStores)) == WorldApply(c, WriterStores)
  {
  }

  /** The original is deleted if the job asks for it, and the worker leaves. */
  lemma WorkerFinishes(cells: seq<Cell>, steps: seq<Step>) returns (longer: seq<Cell>, done: seq<Step>)
    requires IsRun(cells, steps) && var c := cells[|steps|];
      c.actors == [Working(Work.Delivered)] && c.mem.run == Some(Run(0, false)) && !c.mem.cancelling
    ensures IsRun(longer, done) && longer[0] == cells[0]
    ensures var c := cells[|steps|];
      longer[|done|] == c.(mem := c.mem.(row := c.mem.row.(deleteAfter := false), run := None), actors := [Gone],
                           deleted := c.deleted || c.mem.row.deleteAfter)
  {
    hide Enabled, Apply;
    var d := cells[|steps|];
    longer, done := cells, steps;
    if d.mem.row.deleteAfter {
      longer, done, d := ThenSettle(longer, done, 0, EraseOriginal);
      longer, done, d := ThenSettle(longer, done, 0, NoteErased);
    }
    longer, done, d := ThenSettle(longer, done, 0, Depart(false));
    longer, done, d := ThenPart(longer, done, 0, Unwind);
    longer, done, d := ThenPart(longer, done, 0, ReleaseRun);
    WorkerMayGo(d);
    longer, done, d := Then(longer, done, Unreserve(0));
  }

  lemma WorkerMayGo(c: Cell)
    requires c.actors == [Released]
    ensures Enabled(c, Unreserve(0)) && Apply(c, Unreserve(0)) == c.(actors := [Gone])
  {
  }

  /** Every file a scan has queued can be delivered: its job committed and never aborted, the
      delivery stored, its original deleted if and only if the job asks for that, and nobody
      left working on the row. */
  lemma DeliveryHappens(c: Cell, now: int) returns (cells: seq<Cell>, steps: seq<Step>)
    requires Fresh(c) && c.mem.row.state.Pending?
    ensures IsRun(cells, steps) && cells[0] == c
    ensures var d := cells[|steps|]; var row := c.mem.row.(state := Complete, stage := Idle, attempts := 1, notBefore := 0, finishedAt := now);
      && d.mem == Mem(row.(deleteAfter := false), true, None, false, 0) && d.stored == Some(row)
      && d.committed && d.deleted == row.deleteAfter && d.actors == [Gone] && d.charged == 0
      && d.jobs == [Job(true, false, 0, false, false, false, false, 0, c.epoch)]
  {
    hide Enabled, Apply;
    cells, steps := SendingBegins(c);
    cells, steps := CommitFollows(cells, steps);
    cells, steps := CompletionFollows(cells, steps, now);
    cells, steps := WorkerFinishes(cells, steps);
  }

  // ----- the cloud original

  predicate Erases(pc: Pc) {
    (pc.Working? && pc.work.Erased?) || (pc.Tidying? && (pc.chore.PDelete? || pc.chore.PErased?))
  }

  predicate Unasked(row: Option<Row>) {
    row.Some? ==> !row.value.deleteAfter
  }

  /** Nobody has asked for the original to go, and nobody is about to delete it. */
  ghost predicate KeepsOriginal(c: Cell) {
    && !c.deleted && !c.mem.row.deleteAfter && Unasked(c.stored) && (c.writing.Some? ==> Unasked(c.writing.value.row))
    && forall k :: 0 <= k < |c.actors| ==> !Erases(c.actors[k])
  }

  /** Goroutine k alone moves on. */
  ghost predicate MovesOn(c: Cell, d: Cell, k: nat) {
    && k < |c.actors| && |d.actors| == |c.actors| && d.actors == c.actors[k := d.actors[k]] && !Erases(d.actors[k])
    && d.deleted == c.deleted && d.mem.row.deleteAfter == c.mem.row.deleteAfter && d.stored == c.stored
    && (d.writing == c.writing || d.writing.None? || (d.writing.Some? && d.writing.value.row == Copy(c)))
  }

  lemma MovingOnKeepsOriginal(c: Cell, d: Cell, k: nat)
    requires KeepsOriginal(c) && MovesOn(c, d, k)
    ensures KeepsOriginal(d)
  {
    hide Erases;
  }

  lemma FetchMovesOn(c: Cell, k: nat, step: FetchStep)
    requires k < |c.actors| && c.actors[k].Working? && FetchEnabled(c.actors[k].work, c, step)
    ensures MovesOn(c, FetchApply(c, k, step), k)
  {
    hide Stopped;
  }

  lemma PushMoves(c: Cell, k: nat, step: PushStep)
    requires k < |c.actors| && c.actors[k].Working? && PushEnabled(c.actors[k].work, step)
    ensures MovesOn(c, PushApply(c, k, step), k)
  {
    hide CommitJob, Aborted, Opens, Stopped, Copy;
  }

  lemma SettleMovesOn(c: Cell, k: nat, step: SettleStep)
    requires k < |c.actors| && c.actors[k].Working? && SettleEnabled(c.actors[k].work, c, k, step)
    requires !c.mem.row.deleteAfter && !Erases(c.actors[k])
    ensures MovesOn(c, SettleApply(c, k, step), k)
  {
    hide Mine, Copy, Refuses, Stopped;
  }

  lemma PartMovesOn(c: Cell, k: nat, step: PartStep)
    requires k < |c.actors| && c.actors[k].Working? && PartEnabled(c.actors[k].work, step)
    ensures MovesOn(c, PartApply(c, k, step), k)
  {
    hide Stopped, Refuses, Copy;
  }

  lemma CleanMovesOn(c: Cell, k: nat, step: CleanStep)
    requires k < |c.actors| && c.actors[k].Tidying? && CleanEnabled(c.actors[k].chore, c, step)
    requires !Erases(c.actors[k]) && !c.mem.row.deleteAfter
    ensures MovesOn(c, CleanApply(c, k, step), k)
  {
    hide Aborted, Restored, Copy;
  }

  lemma BeginKeepsOriginal(c: Cell, step: BeginStep)
    requires KeepsOriginal(c) && BeginEnabled(c, step)
    ensures KeepsOriginal(BeginApply(c, step))
  {
    var d := BeginApply(c, step);
    forall k | 0 <= k < |d.actors| ensures !Erases(d.actors[k]) {
      if k < |c.actors| { assert d.actors[k] == c.actors[k]; }
    }
  }

  lemma WorldKeepsOriginal(c: Cell, step: WorldStep)
    requires KeepsOriginal(c) && WorldEnabled(c, step)
    ensures KeepsOriginal(WorldApply(c, step))
  {
    hide Erases;
  }

  lemma StepKeepsOriginal(c: Cell, step: Step)
    requires KeepsOriginal(c) && Enabled(c, step)
    ensures KeepsOriginal(Apply(c, step))
  {
    hide KeepsOriginal, FetchApply, PushApply, SettleApply, PartApply, CleanApply, BeginApply, WorldApply;
    if !step.Begin? && !step.World? {
      OriginalIsKept(c, step.k);
      assert !Erases(c.actors[step.k]);
    }
    hide Erases, MovesOn;
    match step {
      case Fetch(k, f) => FetchMovesOn(c, k, f); MovingOnKeepsOriginal(c, FetchApply(c, k, f), k);
      case Push(k, p) => PushMoves(c, k, p); MovingOnKeepsOriginal(c, PushApply(c, k, p), k);
      case Settle(k, t) => SettleMovesOn(c, k, t); MovingOnKeepsOriginal(c, SettleApply(c, k, t), k);
      case Part(k, p) => PartMovesOn(c, k, p); MovingOnKeepsOriginal(c, PartApply(c, k, p), k);
      case Clean(k, t) => CleanMovesOn(c, k, t); MovingOnKeepsOriginal(c, CleanApply(c, k, t), k);
      case Unreserve(k) => GoingMovesOn(c, k); MovingOnKeepsOriginal(c, Ends(c, k, Gone, c.mem), k);
      case Begin(b) => BeginKeepsOriginal(c, b);
      case World(w) => WorldKeepsOriginal(c, w);
    }
  }

  lemma OriginalIsKept(c: Cell, k: nat)
    requires KeepsOriginal(c)
    ensures !c.mem.row.deleteAfter && !c.deleted && (k < |c.actors| ==> !Erases(c.actors[k]))
  {
  }

  lemma GoingMovesOn(c: Cell, k: nat)
    requires k < |c.actors|
    ensures MovesOn(c, Ends(c, k, Gone, c.mem), k)
  {
  }

  lemma {:induction false} RunKeepsOriginal(cells: seq<Cell>, steps: seq<Step>, i: nat)
    requires IsRun(cells, steps) && Fresh(cells[0]) && !cells[0].mem.row.deleteAfter && i < |cells|
    ensures KeepsOriginal(cells[i])
  {
    if i > 0 {
      RunKeepsOriginal(cells, steps, i - 1);
      StepKeepsOriginal(cells[i - 1], steps[i - 1]);
    }
  }

  /** In every run, through crashes and clean-ups, the cloud original of a row whose job does
      not ask for its deletion is never deleted. */
  lemma OriginalIsDeletedOnlyIfAsked(cells: seq<Cell>, steps: seq<Step>, i: nat)
    requires IsRun(cells, steps) && Fresh(cells[0]) && i < |cells| && cells[i].deleted
    ensures cells[0].mem.row.deleteAfter
  {
    if !cells[0].mem.row.deleteAfter {
      RunKeepsOriginal(cells, steps, i);
      assert false;
    }
  }
}
