/** The cloud original goes only after the drive has committed the upload and a
    stored snapshot can say so: an invariant of every run of one row. */
module Delivery {
  import opened Wrappers
  import opened Items
  import opened Lifecycle

  /** A goroutine that acts on the belief that the upload was committed. */
  predicate Believes(pc: Pc) {
    match pc
    case Working(w) =>
      w.Landed? || w.Uploaded? || w.Accepted? || w.AtComplete? || w.Completing? || w.Storing? || w.Settling? || w.Refusal?
      || w.Delivered? || w.Erased?
    case Tidying(t) => t.PDelete? || t.PErased?
    case _ => false
  }

  predicate Claims(row: Row) {
    row.state.Complete? || row.stage.Finishing?
  }

  /** Nothing anywhere says that the upload was committed. */
  ghost predicate NoClaim(c: Cell) {
    && !Claims(c.mem.row) && !c.deleted
    && (c.stored.Some? ==> !Claims(c.stored.value))
    && (c.writing.Some? && c.writing.value.row.Some? ==> !Claims(c.writing.value.row.value))
    && (forall k :: 0 <= k < |c.actors| ==> !Believes(c.actors[k]))
  }

  ghost predicate Truthful(c: Cell) {
    c.committed || NoClaim(c)
  }

  /** The worker is between marking the row complete and having that stored. */
  predicate InWindow(c: Cell) {
    && c.mem.run.Some? && c.mem.run.value.who < |c.actors|
    && var pc := c.actors[c.mem.run.value.who]; pc.Working? && (pc.work.Completing? || pc.work.Storing?)
  }

  predicate Final(c: Cell) {
    c.mem.row.state.Complete? && !InWindow(c)
  }

  /** A copy that, if it holds the row at all, records its delivery. */
  predicate Records(copy: Option<Row>) {
    copy.Some? ==> RecordsDelivery(copy.value)
  }

  predicate Stores(actors: seq<Pc>, k: nat) {
    k < |actors| && actors[k].Working? && actors[k].work.Storing?
  }

  /** The write lock is held by the worker that waits for the write, whose copy was taken
      after the row was marked; what the host has stored is the copy being written. */
  ghost predicate Locked(c: Cell) {
    && (c.writing.Some? && c.writing.value.reached ==> c.stored == c.writing.value.row)
    && (c.writing.Some? && c.writing.value.writer.Some? ==> Stores(c.actors, c.writing.value.writer.value))
    && (forall k :: 0 <= k < |c.actors| && c.actors[k].Working? && c.actors[k].work.Storing? ==>
          Mine(c, k) && Records(c.writing.value.row))
  }

  /** No snapshot, stored or on its way, would bring the row back undelivered. */
  predicate Remembered(c: Cell) {
    && Records(c.stored)
    && (c.writing.Some? ==> Records(c.writing.value.row))
  }

  /** A Cancel or a Retry that may still abort a leftover upload job. */
  predicate MayAbort(chore: Chore) {
    chore.CWaiting? || chore.CDiscard? || chore.CAbort? || chore.CAborting?
    || chore.RAbort? || chore.RAborting? || chore.RResult?
  }

  ghost predicate Durable(c: Cell) {
    && Locked(c)
    && (Final(c) ==> Remembered(c))
    && (c.deleted ==> Remembered(c) && (c.mem.queued ==> Final(c)))
    && (forall k :: 0 <= k < |c.actors| && c.actors[k].Tidying? ==>
          && (c.actors[k].chore.PDelete? ==> Final(c))
          && (MayAbort(c.actors[k].chore) ==> !c.mem.row.state.Complete?))
  }

  lemma FetchIsTruthful(c: Cell, k: nat, step: FetchStep)
    requires Truthful(c) && k < |c.actors| && c.actors[k].Working? && FetchEnabled(c.actors[k].work, c, step)
    ensures Truthful(FetchApply(c, k, step))
  {
  }

  lemma PushIsTruthful(c: Cell, k: nat, step: PushStep)
    requires Truthful(c) && k < |c.actors| && c.actors[k].Working? && PushEnabled(c.actors[k].work, step)
    ensures Truthful(PushApply(c, k, step))
  {
  }

  lemma SettleIsTruthful(c: Cell, k: nat, step: SettleStep)
    requires Truthful(c) && k < |c.actors| && c.actors[k].Working? && SettleEnabled(c.actors[k].work, c, k, step)
    ensures Truthful(SettleApply(c, k, step))
  {
  }

  lemma PartIsTruthful(c: Cell, k: nat, step: PartStep)
    requires Truthful(c) && k < |c.actors| && c.actors[k].Working? && PartEnabled(c.actors[k].work, step)
    ensures Truthful(PartApply(c, k, step))
  {
  }

  lemma CleanIsTruthful(c: Cell, k: nat, step: CleanStep)
    requires Truthful(c) && k < |c.actors| && c.actors[k].Tidying? && CleanEnabled(c.actors[k].chore, c, step)
    ensures Truthful(CleanApply(c, k, step))
  {
  }

  lemma BeginIsTruthful(c: Cell, step: BeginStep)
    requires Truthful(c) && BeginEnabled(c, step)
    ensures Truthful(BeginApply(c, step))
  {
  }

  lemma WorldIsTruthful(c: Cell, step: WorldStep)
    requires Truthful(c) && WorldEnabled(c, step)
    ensures Truthful(WorldApply(c, step))
  {
  }

  lemma FetchKeepsDurable(c: Cell, k: nat, step: FetchStep)
    requires Base(c.mem, c.actors) && Durable(c)
    requires k < |c.actors| && c.actors[k].Working? && FetchEnabled(c.actors[k].work, c, step)
    ensures Durable(FetchApply(c, k, step))
  {
    hide Base;
    WorkerHolds(c.mem, c.actors, k);
  }

  lemma PushKeepsDurable(c: Cell, k: nat, step: PushStep)
    requires Base(c.mem, c.actors) && Durable(c)
    requires k < |c.actors| && c.actors[k].Working? && PushEnabled(c.actors[k].work, step)
    ensures Durable(PushApply(c, k, step))
  {
    hide Base, PushApply, Durable;
    PushKeepsState(c, k, step);
    PushIsMild(c, k, step);
    UploadKeepsDurable(c, k, PushApply(c, k, step));
  }

  /** An upload section is outside the window of complete and touches no snapshot. */
  lemma PushIsMild(c: Cell, k: nat, step: PushStep)
    requires k < |c.actors| && c.actors[k].Working? && PushEnabled(c.actors[k].work, step)
    ensures var d := PushApply(c, k, step);
      && d.actors == c.actors[k := d.actors[k]] && d.actors[k].Working? && !Persists(c.actors[k]) && !Persists(d.actors[k])
      && d.stored == c.stored && d.writing == c.writing && d.deleted == c.deleted
  {
    hide TakeJob, WithJob, WithStage;
  }

  predicate Persists(pc: Pc) {
    pc.Working? && (pc.work.Completing? || pc.work.Storing?)
  }

  lemma UploadKeepsDurable(c: Cell, k: nat, d: Cell)
    requires Base(c.mem, c.actors) && Durable(c) && k < |c.actors| && c.actors[k].Working?
    requires |d.actors| == |c.actors| && d.actors == c.actors[k := d.actors[k]] && d.actors[k].Working?
    requires !Persists(c.actors[k]) && !Persists(d.actors[k])
    requires d.mem.row.state == c.mem.row.state && d.mem.(row := c.mem.row) == c.mem
    requires d.stored == c.stored && d.writing == c.writing && d.deleted == c.deleted
    ensures Durable(d)
  {
    WorkerHolds(c.mem, c.actors, k);
    hide Base;
  }

  /** A write that is acknowledged to complete has stored the delivery: the copy was
      taken under the lock after the row was marked, and nobody stored another since. */
  lemma AcknowledgedIsRemembered(c: Cell, k: nat)
    requires Locked(c) && k < |c.actors| && c.actors[k].Working?
    requires SettleEnabled(c.actors[k].work, c, k, PersistOk)
    ensures Remembered(SettleApply(c, k, PersistOk))
    ensures var d := SettleApply(c, k, PersistOk);
      d.writing.None? && (d.stored.Some? ==> d.stored.value.state.Complete? || d.stored.value.stage.Finishing?)
  {
  }

  lemma PersistKeepsDurable(c: Cell, k: nat, step: SettleStep)
    requires Base(c.mem, c.actors) && Durable(c)
    requires k < |c.actors| && c.actors[k].Working? && SettleEnabled(c.actors[k].work, c, k, step)
    requires step.PersistTakes? || step.PersistOk? || step.PersistFailed?
    ensures Durable(SettleApply(c, k, step))
  {
    WorkerHolds(c.mem, c.actors, k);
    WorkerIsAlone(c.mem, c.actors, k);
    hide Base;
    if step.PersistOk? { AcknowledgedIsRemembered(c, k); }
  }

  lemma WorkerIsAlone(m: Mem, actors: seq<Pc>, k: nat)
    requires Base(m, actors) && k < |actors| && actors[k].Working?
    ensures forall j :: 0 <= j < |actors| && actors[j].Working? ==> j == k
    ensures forall j :: 0 <= j < |actors| && actors[j].Tidying? && actors[j].chore.CWaiting? ==> m.run.value.cancelRequested
    ensures forall j :: 0 <= j < |actors| && actors[j].Tidying? ==> !OwnsRow(actors[j].chore)
  {
    forall j | 0 <= j < |actors| && actors[j].Tidying? ensures Polite(m, actors[j]) {
      OthersArePolite(m, actors, j);
    }
  }

  lemma SettleKeepsDurable(c: Cell, k: nat, step: SettleStep)
    requires Base(c.mem, c.actors) && Durable(c)
    requires k < |c.actors| && c.actors[k].Working? && SettleEnabled(c.actors[k].work, c, k, step)
    ensures Durable(SettleApply(c, k, step))
  {
    if step.PersistTakes? || step.PersistOk? || step.PersistFailed? {
      PersistKeepsDurable(c, k, step);
    } else {
      WorkerHolds(c.mem, c.actors, k);
      WorkerIsAlone(c.mem, c.actors, k);
      hide Base;
    }
  }

  lemma PartKeepsDurable(c: Cell, k: nat, step: PartStep)
    requires Base(c.mem, c.actors) && Durable(c)
    requires k < |c.actors| && c.actors[k].Working? && PartEnabled(c.actors[k].work, step)
    ensures Durable(PartApply(c, k, step))
  {
    hide Base;
    WorkerHolds(c.mem, c.actors, k);
  }

  /** A cleaner's step that rewrites no state. */
  lemma CleanerKeepsDurable(c: Cell, k: nat, d: Cell)
    requires Base(c.mem, c.actors) && Durable(c) && k < |c.actors| && c.actors[k].Tidying?
    requires |d.actors| == |c.actors| && !d.actors[k].Working?
    requires forall j :: 0 <= j < |c.actors| && j != k ==> d.actors[j] == c.actors[j]
    requires d.actors[k].Tidying? ==>
      var t := d.actors[k].chore;
      !t.PDelete? && (MayAbort(t) ==> MayAbort(c.actors[k].chore))
    requires d.mem.row.state == c.mem.row.state && d.mem.run == c.mem.run && d.mem.queued == c.mem.queued
    requires d.stored == c.stored && d.writing == c.writing
    requires d.deleted ==> c.deleted || c.actors[k].chore.PDelete?
    ensures Durable(d)
  {
    RunIsEmployed(c.mem, c.actors);
    hide Base;
  }

  lemma RetryKeepsDurable(c: Cell, k: nat)
    requires Base(c.mem, c.actors) && Durable(c)
    requires k < |c.actors| && c.actors[k].Tidying? && c.actors[k].chore.RResult?
    ensures Durable(CleanApply(c, k, RetryFinishes))
  {
    OthersArePolite(c.mem, c.actors, k);
    hide Base, Restored;
  }

  /** Only a Retry's last section rewrites the row's state. */
  lemma CleanerIsMild(c: Cell, k: nat, step: CleanStep)
    requires k < |c.actors| && c.actors[k].Tidying? && CleanEnabled(c.actors[k].chore, c, step) && !step.RetryFinishes?
    ensures var d := CleanApply(c, k, step);
      && d.actors == c.actors[k := d.actors[k]] && !d.actors[k].Working?
      && (d.actors[k].Tidying? ==>
            !d.actors[k].chore.PDelete? && (MayAbort(d.actors[k].chore) ==> MayAbort(c.actors[k].chore)))
      && d.mem.row.state == c.mem.row.state && d.mem.run == c.mem.run && d.mem.queued == c.mem.queued
      && d.stored == c.stored && d.writing == c.writing && (d.deleted ==> c.deleted || c.actors[k].chore.PDelete?)
  {
  }

  lemma CleanKeepsDurable(c: Cell, k: nat, step: CleanStep)
    requires Base(c.mem, c.actors) && Durable(c)
    requires k < |c.actors| && c.actors[k].Tidying? && CleanEnabled(c.actors[k].chore, c, step)
    ensures Durable(CleanApply(c, k, step))
  {
    hide Base, Durable, CleanApply;
    if step.RetryFinishes? {
      RetryKeepsDurable(c, k);
    } else {
      CleanerIsMild(c, k, step);
      CleanerKeepsDurable(c, k, CleanApply(c, k, step));
    }
  }

  lemma BeginKeepsDurable(c: Cell, step: BeginStep)
    requires Base(c.mem, c.actors) && Durable(c) && BeginEnabled(c, step)
    ensures Durable(BeginApply(c, step))
  {
    RunIsEmployed(c.mem, c.actors);
    if InWindow(c) { MarkedRow(c.mem, c.actors, c.mem.run.value.who); }
    hide Base;
  }

  lemma WorldKeepsDurable(c: Cell, step: WorldStep)
    requires Base(c.mem, c.actors) && Durable(c) && WorldEnabled(c, step)
    ensures Durable(WorldApply(c, step))
  {
  }

  ghost predicate Kept(c: Cell) {
    Base(c.mem, c.actors) && Truthful(c) && Durable(c)
  }

  lemma StepIsTruthful(c: Cell, step: Step)
    requires Truthful(c) && Enabled(c, step)
    ensures Truthful(Apply(c, step))
  {
    match step {
      case Fetch(k, f) => FetchIsTruthful(c, k, f);
      case Push(k, p) => PushIsTruthful(c, k, p);
      case Settle(k, t) => SettleIsTruthful(c, k, t);
      case Part(k, p) => PartIsTruthful(c, k, p);
      case Clean(k, t) => CleanIsTruthful(c, k, t);
      case Unreserve(k) =>
      case Begin(b) => BeginIsTruthful(c, b);
      case World(w) => WorldIsTruthful(c, w);
    }
  }

  lemma StepKeepsDurable(c: Cell, step: Step)
    requires Base(c.mem, c.actors) && Durable(c) && Enabled(c, step)
    ensures Durable(Apply(c, step))
  {
    match step {
      case Fetch(k, f) => FetchKeepsDurable(c, k, f);
      case Push(k, p) => PushKeepsDurable(c, k, p);
      case Settle(k, t) => SettleKeepsDurable(c, k, t);
      case Part(k, p) => PartKeepsDurable(c, k, p);
      case Clean(k, t) => CleanKeepsDurable(c, k, t);
      case Unreserve(k) => RunIsEmployed(c.mem, c.actors);
      case Begin(b) => BeginKeepsDurable(c, b);
      case World(w) => WorldKeepsDurable(c, w);
    }
  }

  lemma {:induction false} RunKeeps(cells: seq<Cell>, steps: seq<Step>, i: nat)
    requires IsRun(cells, steps) && Fresh(cells[0]) && i < |cells|
    ensures Kept(cells[i])
  {
    if i == 0 {
      FreshHasBase(cells[0]);
    } else {
      hide Base, Truthful, Durable;
      RunKeeps(cells, steps, i - 1);
      StepKeepsBase(cells[i - 1], steps[i - 1]);
      StepIsTruthful(cells[i - 1], steps[i - 1]);
      StepKeepsDurable(cells[i - 1], steps[i - 1]);
    }
  }

  /** Whatever says an upload is done, in memory or stored, is right; the cloud
      original is deleted only after the drive committed; and from then on no crash
      can make the row look undelivered. */
  lemma OriginalOutlivesTheUpload(cells: seq<Cell>, steps: seq<Step>, i: nat, now: int)
    requires IsRun(cells, steps) && Fresh(cells[0]) && i < |cells|
    ensures var c := cells[i];
      && (c.mem.row.state.Complete? || c.mem.row.stage.Finishing? ==> c.committed)
      && (c.stored.Some? && (c.stored.value.state.Complete? || c.stored.value.stage.Finishing?) ==> c.committed)
      && (c.deleted ==> c.committed && (c.mem.queued ==> c.mem.row.state.Complete?))
      && (c.deleted && Reload(c, now).mem.queued ==> Reload(c, now).mem.row.state.Complete?)
  {
    hide Base;
    RunKeeps(cells, steps, i);
  }
}
