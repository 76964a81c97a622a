/** The attempt budget of one row over every run, restarts included, for a fixed retry
    policy. */
module Budget {
  import opened Wrappers
  import opened Items
  import opened Lifecycle

  /** What any row, in memory or stored, may say about its attempts. */
  predicate WithinBudget(row: Row, max: nat) {
    && row.attempts <= max
    && (row.state.Pending? ==> row.attempts < max)
    && (row.state.Running? ==> row.attempts > 0)
  }

  /** attempts is what has been charged, plus one while a claim is open, plus slack. */
  predicate Accounted(row: Row, charged: nat, slack: int) {
    && (row.state.Pending? ==> row.attempts == charged + slack)
    && (row.state.Running? ==> row.attempts == charged + slack + 1)
  }

  predicate Claiming(c: Cell, pc: Pc) {
    pc.Working? ==>
      && (pc.work.Completing? || pc.work.Storing? ==> 1 <= c.mem.row.attempts == c.charged + c.slack + 1)
      && (pc.work.Requeueing? && pc.work.charge && c.mem.row.state.Running? ==> c.mem.row.attempts < c.max)
  }

  predicate Bounded(copy: Option<Row>, max: nat) {
    copy.Some? ==> WithinBudget(copy.value, max)
  }

  ghost predicate Budgeted(c: Cell) {
    && 1 <= c.max && c.charged + c.slack <= c.max
    && WithinBudget(c.mem.row, c.max) && Accounted(c.mem.row, c.charged, c.slack)
    && Bounded(c.stored, c.max) && (c.writing.Some? ==> Bounded(c.writing.value.row, c.max))
    && (forall k :: 0 <= k < |c.actors| ==> Claiming(c, c.actors[k]))
  }

  lemma FetchKeepsBudget(c: Cell, k: nat, step: FetchStep)
    requires Budgeted(c) && k < |c.actors| && c.actors[k].Working? && FetchEnabled(c.actors[k].work, c, step)
    ensures Budgeted(FetchApply(c, k, step))
  {
  }

  lemma PushKeepsBudget(c: Cell, k: nat, step: PushStep)
    requires Budgeted(c) && k < |c.actors| && c.actors[k].Working? && PushEnabled(c.actors[k].work, step)
    ensures Budgeted(PushApply(c, k, step))
  {
  }

  lemma SettleKeepsBudget(c: Cell, k: nat, step: SettleStep)
    requires Base(c.mem, c.actors) && Budgeted(c)
    requires k < |c.actors| && c.actors[k].Working? && SettleEnabled(c.actors[k].work, c, k, step)
    ensures Budgeted(SettleApply(c, k, step))
  {
    WorkerHolds(c.mem, c.actors, k);
    WorkerIsAlone(c.mem, c.actors, k);
    hide Base;
  }

  lemma WorkerIsAlone(m: Mem, actors: seq<Pc>, k: nat)
    requires Base(m, actors) && k < |actors| && actors[k].Working?
    ensures forall j :: 0 <= j < |actors| && actors[j].Working? ==> j == k
  {
  }

  lemma PartKeepsBudget(c: Cell, k: nat, step: PartStep)
    requires Base(c.mem, c.actors) && Budgeted(c)
    requires k < |c.actors| && c.actors[k].Working? && PartEnabled(c.actors[k].work, step)
    ensures Budgeted(PartApply(c, k, step))
  {
    WorkerHolds(c.mem, c.actors, k);
    WorkerIsAlone(c.mem, c.actors, k);
    hide Base;
  }

  /** A step of a cleaner that leaves the row's state and attempts alone. */
  lemma NothingIsCharged(c: Cell, k: nat, d: Cell)
    requires Budgeted(c) && k < |c.actors| && |d.actors| == |c.actors| && !d.actors[k].Working?
    requires forall j :: 0 <= j < |c.actors| && j != k ==> d.actors[j] == c.actors[j]
    requires d.charged == c.charged && d.slack == c.slack && d.max == c.max && d.stored == c.stored
    requires d.writing == c.writing
    requires d.mem.row.state == c.mem.row.state && d.mem.row.attempts == c.mem.row.attempts
    ensures Budgeted(d)
  {
  }

  lemma RetryKeepsBudget(c: Cell, k: nat)
    requires Base(c.mem, c.actors) && Budgeted(c) && k < |c.actors| && c.actors[k].Tidying?
    requires c.actors[k].chore.RResult?
    ensures Budgeted(CleanApply(c, k, RetryFinishes))
  {
    OthersArePolite(c.mem, c.actors, k);
    NoWorkerWithoutRun(c.mem, c.actors);
    hide Base, Restored;
  }

  lemma NoWorkerWithoutRun(m: Mem, actors: seq<Pc>)
    requires Base(m, actors) && m.run.None?
    ensures forall k :: 0 <= k < |actors| ==> !actors[k].Working?
  {
  }

  lemma CleanKeepsBudget(c: Cell, k: nat, step: CleanStep)
    requires Base(c.mem, c.actors) && Budgeted(c)
    requires k < |c.actors| && c.actors[k].Tidying? && CleanEnabled(c.actors[k].chore, c, step)
    ensures Budgeted(CleanApply(c, k, step))
  {
    if step.RetryFinishes? {
      RetryKeepsBudget(c, k);
    } else {
      hide Base, Budgeted, Aborted;
      NothingIsCharged(c, k, CleanApply(c, k, step));
    }
  }

  /** A new goroutine that is no worker, or none, over a row whose account is in order. */
  lemma Rebooked(c: Cell, d: Cell)
    requires Budgeted(c) && d.max == c.max && d.stored == c.stored && d.writing == c.writing
    requires WithinBudget(d.mem.row, d.max) && Accounted(d.mem.row, d.charged, d.slack) && d.charged + d.slack <= d.max
    requires c.actors <= d.actors && forall k :: |c.actors| <= k < |d.actors| ==> Claiming(d, d.actors[k])
    requires forall k :: 0 <= k < |c.actors| ==> Claiming(d, c.actors[k])
    ensures Budgeted(d)
  {
  }

  lemma StartKeepsBudget(c: Cell, step: BeginStep)
    requires Base(c.mem, c.actors) && Budgeted(c) && BeginEnabled(c, step) && (step.TakeNext? || step.RetryRow?)
    ensures Budgeted(BeginApply(c, step))
  {
    NoWorkerWithoutRun(c.mem, c.actors);
    hide Base;
    Rebooked(c, BeginApply(c, step));
  }

  lemma BeginKeepsBudget(c: Cell, step: BeginStep)
    requires Base(c.mem, c.actors) && Budgeted(c) && BeginEnabled(c, step)
    ensures Budgeted(BeginApply(c, step))
  {
    if step.TakeNext? || step.RetryRow? {
      StartKeepsBudget(c, step);
    } else {
      hide Base;
      var d := BeginApply(c, step);
      forall k | 0 <= k < |c.actors| ensures Claiming(d, c.actors[k]) {
        assert Claiming(c, c.actors[k]);
      }
      hide Budgeted;
      Rebooked(c, d);
    }
  }

  lemma WorldKeepsBudget(c: Cell, step: WorldStep)
    requires Budgeted(c) && WorldEnabled(c, step)
    ensures Budgeted(WorldApply(c, step))
  {
  }

  lemma StepKeepsBudget(c: Cell, step: Step)
    requires Base(c.mem, c.actors) && Budgeted(c) && Enabled(c, step)
    ensures Budgeted(Apply(c, step))
  {
    hide Base;
    match step {
      case Fetch(k, f) => FetchKeepsBudget(c, k, f);
      case Push(k, p) => PushKeepsBudget(c, k, p);
      case Settle(k, t) => SettleKeepsBudget(c, k, t);
      case Part(k, p) => PartKeepsBudget(c, k, p);
      case Clean(k, t) => CleanKeepsBudget(c, k, t);
      case Unreserve(k) => NothingIsCharged(c, k, Apply(c, step));
      case Begin(b) => BeginKeepsBudget(c, b);
      case World(w) => WorldKeepsBudget(c, w);
    }
  }

  /** In every reachable state a waiting row has an attempt left and a running one is on
      attempt 1 to max, in memory and stored; and attempts are what was charged, plus an
      open claim, plus the slack restarts have left. */
  lemma {:induction false} RunKeepsBudget(cells: seq<Cell>, steps: seq<Step>, i: nat)
    requires IsRun(cells, steps) && Fresh(cells[0]) && i < |cells|
    ensures Budgeted(cells[i])
  {
    if i > 0 {
      hide Base, Budgeted;
      RunKeepsBudget(cells, steps, i - 1);
      RunKeepsBase(cells, steps, i - 1);
      StepKeepsBudget(cells[i - 1], steps[i - 1]);
    }
  }

  // ----- what restarts forget

  /** A section of Retry that may put the row back in the queue. */
  predicate Retries(step: Step) {
    (step.Begin? && step.begin.RetryRow?) || (step.Clean? && step.clean.RetryFinishes?)
  }

  /** A manual retry that puts the row back, at once or after the abort of an old job,
      renews the budget; one whose abort fails does not. */
  predicate Renews(c: Cell, step: Step)
    requires Enabled(c, step)
  {
    || (step.Begin? && step.begin.RetryRow? && c.mem.row.uploadJob.None?)
    || (step.Clean? && step.clean.RetryFinishes? && c.actors[step.k].chore.aborted && c.mem.run.None?)
  }

  /** This restart brings back a waiting row that shows fewer attempts than were charged. */
  predicate Forgets(c: Cell, step: Step) {
    Restarts(step) && c.stored.Some? && LoadRow(c.stored.value, step.world.now).state.Pending?
    && LoadRow(c.stored.value, step.world.now).attempts < c.charged
  }

  /** Short of restarts and manual retries the account stays as exact as it was: what is
      not charged is given back. */
  lemma SlackChangesOnlyAtRestarts(c: Cell, step: Step)
    requires Enabled(c, step) && !Renews(c, step) && !Restarts(step)
    ensures Apply(c, step).slack == c.slack
  {
  }

  lemma SlackStaysNonNegative(c: Cell, step: Step)
    requires Enabled(c, step) && c.slack >= 0
    ensures Apply(c, step).slack >= 0 <==> !Forgets(c, step)
  {
    if Renews(c, step) {
    } else if !Restarts(step) {
      SlackChangesOnlyAtRestarts(c, step);
    }
  }

  lemma {:induction false} NothingIsForgotten(cells: seq<Cell>, steps: seq<Step>, i: nat)
    requires IsRun(cells, steps) && cells[0].slack >= 0 && i < |cells|
    requires forall k :: 0 <= k < i ==> !Forgets(cells[k], steps[k])
    ensures cells[i].slack >= 0
  {
    if i > 0 {
      NothingIsForgotten(cells, steps, i - 1);
      SlackStaysNonNegative(cells[i - 1], steps[i - 1]);
    }
  }

  // ----- counting failures

  /** This step charges a failed attempt: fail, or a requeue that costs one. */
  predicate Charges(c: Cell, step: Step)
    requires Enabled(c, step)
  {
    step.Part? && !Refuses(c.mem) && (step.part.FailLock? || (step.part.RequeueLock? && c.actors[step.k].work.charge))
  }

  ghost function Failures(cells: seq<Cell>, steps: seq<Step>): nat
    requires IsRun(cells, steps)
  {
    var n := |steps| - 1;
    if steps == [] then 0 else Failures(cells[..n + 1], steps[..n]) + if Charges(cells[n], steps[n]) then 1 else 0
  }

  lemma WorkCharges(c: Cell, step: Step)
    requires Enabled(c, step) && (step.Fetch? || step.Push? || step.Settle? || step.Part?)
    ensures Apply(c, step).charged == c.charged + (if Charges(c, step) then 1 else 0)
  {
    hide Marks, HoldsMark, Fits;
    match step { case Fetch(k, f) => case Push(k, p) => case Settle(k, t) => case Part(k, p) => }
  }

  lemma StepCharges(c: Cell, step: Step)
    requires Enabled(c, step) && !Renews(c, step)
    ensures Apply(c, step).charged == c.charged + (if Charges(c, step) then 1 else 0)
  {
    match step {
      case Clean(k, t) => hide Aborted;
      case Unreserve(k) =>
      case Begin(b) =>
      case World(w) =>
      case _ => WorkCharges(c, step);
    }
  }

  /** Each failure is charged once, across restarts too. */
  lemma {:induction false} FailuresAreCharged(cells: seq<Cell>, steps: seq<Step>)
    requires IsRun(cells, steps) && (forall i :: 0 <= i < |steps| ==> !Renews(cells[i], steps[i]))
    ensures cells[|steps|].charged == cells[0].charged + Failures(cells, steps)
  {
    if steps != [] {
      var n := |steps| - 1;
      hide Enabled, Apply, Charges, Renews;
      FailuresAreCharged(cells[..n + 1], steps[..n]);
      StepCharges(cells[n], steps[n]);
    }
  }

  lemma {:induction false} MaxIsFixed(cells: seq<Cell>, steps: seq<Step>, i: nat)
    requires IsRun(cells, steps) && i < |cells|
    ensures cells[i].max == cells[0].max
  {
    if i > 0 {
      MaxIsFixed(cells, steps, i - 1);
      assert Enabled(cells[i - 1], steps[i - 1]);
    }
  }

  lemma RenewalIsExact(c: Cell, step: Step)
    requires Enabled(c, step) && Renews(c, step)
    ensures Apply(c, step).slack == 0 && Apply(c, step).charged == 0
  {
    hide RetryOutcome, ResetForRetry, Restored;
  }

  /** Between manual retries at most max failures are charged, however the run interleaves
      and however often it restarts, as long as no restart since the last renewal forgets a
      charge; what was forgotten before that does not matter. */
  lemma FailuresAreBounded(cells: seq<Cell>, steps: seq<Step>, since: nat, from: nat)
    requires IsRun(cells, steps) && Fresh(cells[0]) && since <= from <= |steps|
    requires since > 0 ==> Renews(cells[since - 1], steps[since - 1])
    requires forall i :: from <= i < |steps| ==> !Renews(cells[i], steps[i])
    requires forall i :: since <= i < |steps| ==> !Forgets(cells[i], steps[i])
    ensures IsRun(cells[from..], steps[from..])
    ensures Failures(cells[from..], steps[from..]) <= cells[0].max
  {
    if since > 0 { RenewalIsExact(cells[since - 1], steps[since - 1]); }
    FailuresAreCharged(cells[from..], steps[from..]);
    RunKeepsBudget(cells, steps, |steps|);
    NothingIsForgotten(cells[since..], steps[since..], |steps| - since);
    MaxIsFixed(cells, steps, |steps|);
  }

  // ----- exactly when a restart lets the budget be exceeded

  /** Without another manual retry, and without another forgetful restart, the failures
      charged can come to exceed the budget. */
  ghost predicate MayOverspend(c: Cell) {
    exists cells: seq<Cell>, steps: seq<Step> :: Overspends(c, cells, steps)
  }

  ghost predicate Overspends(c: Cell, cells: seq<Cell>, steps: seq<Step>) {
    && IsRun(cells, steps) && cells[0] == c
    && (forall i :: 0 <= i < |steps| ==> !Renews(cells[i], steps[i]) && !Forgets(cells[i], steps[i]))
    && cells[|steps|].charged > c.max
  }

  predicate Waits(c: Cell) {
    c.mem.queued && c.mem.row.state.Pending? && c.mem.run.None? && !c.mem.cancelling && c.mem.deleting == 0
  }

  ghost predicate Plain(cells: seq<Cell>, steps: seq<Step>) {
    IsRun(cells, steps) && forall i :: 0 <= i < |steps| ==> !Retries(steps[i]) && !Restarts(steps[i])
  }

  lemma PlainStep(cells: seq<Cell>, steps: seq<Step>, step: Step) returns (longer: seq<Cell>, done: seq<Step>)
    requires Plain(cells, steps) && Enabled(cells[|steps|], step) && !Retries(step) && !Restarts(step)
    ensures Plain(longer, done) && longer[0] == cells[0] && |done| == |steps| + 1
    ensures longer[|done|] == Apply(cells[|steps|], step)
  {
    longer, done := Extend(cells, steps, step);
  }

  /** One attempt that breaks while staging. */
  lemma OneBreaks(cells: seq<Cell>, steps: seq<Step>) returns (longer: seq<Cell>, done: seq<Step>)
    requires Plain(cells, steps) && Waits(cells[|steps|])
    ensures Plain(longer, done) && longer[0] == cells[0]
    ensures var c, d, k := cells[|steps|], longer[|done|], |cells[|steps|].actors|;
      && |d.actors| == k + 1 && d.actors[k] == Working(Deciding(Transient))
      && d.mem == Claim(c.mem, k) && d.charged == c.charged && d.slack == c.slack && d.max == c.max && d.stored == c.stored
  {
    var k := |cells[|steps|].actors|;
    longer, done := PlainStep(cells, steps, Begin(TakeNext));
    longer, done := PlainStep(longer, done, Fetch(k, WatchItem));
    longer, done := PlainStep(longer, done, Fetch(k, StageFailed(Transient)));
    longer, done := PlainStep(longer, done, Part(k, AfterTrouble));
  }

  /** Failing over and over until the budget the row shows is spent. */
  lemma {:induction false} Exhaust(cells: seq<Cell>, steps: seq<Step>) returns (longer: seq<Cell>, done: seq<Step>)
    requires Plain(cells, steps) && Waits(cells[|steps|]) && cells[|steps|].mem.row.attempts < cells[|steps|].max
    ensures Plain(longer, done) && longer[0] == cells[0]
    ensures var c := cells[|steps|]; longer[|done|].charged == c.charged + c.max - c.mem.row.attempts
    decreases cells[|steps|].max - cells[|steps|].mem.row.attempts
  {
    var c := cells[|steps|];
    var k := |c.actors|;
    longer, done := OneBreaks(cells, steps);
    longer, done := PlainStep(longer, done, Part(k, Decide(false)));
    if c.mem.row.attempts + 1 < c.max {
      longer, done := PlainStep(longer, done, Part(k, RequeueLock(0)));
      longer, done := PlainStep(longer, done, Part(k, Unwind));
      longer, done := PlainStep(longer, done, Part(k, ReleaseRun));
      longer, done := Exhaust(longer, done);
    } else {
      longer, done := PlainStep(longer, done, Part(k, FailLock(0)));
    }
  }

  lemma ForgettingOverspends(c: Cell, step: Step)
    requires Budgeted(c) && Enabled(c, step) && Forgets(c, step)
    ensures MayOverspend(Apply(c, step))
  {
    var d := Apply(c, step);
    WorldKeepsBudget(c, step.world);
    var cells, steps := Exhaust([d], []);
    assert Overspends(d, cells, steps);
  }

  lemma {:induction false} StretchKeepsBudget(cells: seq<Cell>, steps: seq<Step>, i: nat)
    requires IsRun(cells, steps) && Base(cells[0].mem, cells[0].actors) && Budgeted(cells[0]) && i < |cells|
    ensures Base(cells[i].mem, cells[i].actors) && Budgeted(cells[i])
  {
    if i > 0 {
      hide Base, Budgeted;
      StretchKeepsBudget(cells, steps, i - 1);
      StepKeepsBase(cells[i - 1], steps[i - 1]);
      StepKeepsBudget(cells[i - 1], steps[i - 1]);
    }
  }

  /** Wherever nothing has been forgotten, a step makes it possible to exceed the budget
      exactly when it is a restart that brings back a waiting row with fewer attempts than
      were charged. */
  lemma BudgetIsExceededExactlyByForgetting(c: Cell, step: Step)
    requires Base(c.mem, c.actors) && Budgeted(c) && c.slack >= 0 && Enabled(c, step)
    ensures MayOverspend(Apply(c, step)) <==> Forgets(c, step)
  {
    hide Base;
    if Forgets(c, step) {
      ForgettingOverspends(c, step);
    } else if MayOverspend(Apply(c, step)) {
      var cells: seq<Cell>, steps: seq<Step> :| Overspends(Apply(c, step), cells, steps);
      StepKeepsBase(c, step);
      StepKeepsBudget(c, step);
      SlackStaysNonNegative(c, step);
      StretchKeepsBudget(cells, steps, |steps|);
      NothingIsForgotten(cells, steps, |steps|);
      MaxIsFixed(cells, steps, |steps|);
    }
  }

  lemma StoredWaiting(c: Cell) returns (cells: seq<Cell>, steps: seq<Step>)
    requires Fresh(c) && c.mem.row.state.Pending?
    ensures Plain(cells, steps) && cells[0] == c
    ensures var d := cells[|steps|]; Waits(d) && d.stored == Some(c.mem.row) && d.mem == c.mem && d.charged == 0 && d.max == c.max
  {
    cells, steps := PlainStep([c], [], World(WriterCopies));
    cells, steps := PlainStep(cells, steps, World(WriterStores));
  }

  /** Such restarts happen, whatever the budget: store the waiting row, fail once, and die
      before the next write. */
  lemma ForgettingHappens(c: Cell, now: int) returns (cells: seq<Cell>, steps: seq<Step>)
    requires Fresh(c) && c.mem.row.state.Pending?
    ensures Plain(cells, steps) && cells[0] == c && Forgets(cells[|steps|], World(Crash(now)))
  {
    cells, steps := StoredWaiting(c);
    var k := |cells[|steps|].actors|;
    cells, steps := OneBreaks(cells, steps);
    cells, steps := PlainStep(cells, steps, Part(k, Decide(false)));
    cells, steps := PlainStep(cells, steps, Part(k, if 1 < c.max then RequeueLock(0) else FailLock(0)));
  }
}
