/** One queue row over whole runs: its worker, every operator action and cleaner
    that can touch it, the drive's upload jobs, the stored snapshot, and crashes.
    Each step is one locked section, or one call made between two of them, of
    internal/sync/engine.go, transfer.go and downloads.go. A section that handles
    several rows is one step per row, which only adds interleavings. */
module Lifecycle {
  import opened Wrappers
  import opened Items

  datatype Trouble = NeedsLogin | NeedsRoom | Permanent | Transient

  /** Where the worker has got to: transfer, upload, complete, and the ways out. */
  datatype Work =
    | Claimed | Staging | Ready | Opening | Opened(job: nat) | Sending(job: nat) | Landed(job: nat) | Uploaded
    | Accepted | AtComplete | Completing(stage: Stage, finishedAt: int) | Storing(stage: Stage, finishedAt: int)
    | Settling(ok: bool) | Refusal | Delivered | Erased
    | Broken(trouble: Trouble) | Deciding(trouble: Trouble) | Requeueing(charge: bool) | Failing | Aborting(job: nat)
    | Leaving(discard: bool) | Discarding | Exiting

  /** Where a cleaner has got to: C is Cancel, R is Retry with an old upload job, D is
      DeleteStaged, F is ClearFinished or the history trim, P the cloud clean-up. */
  datatype Chore =
    | CWaiting(who: nat) | CDiscard(left: Option<nat>) | CAbort(left: Option<nat>) | CAborting(job: nat)
    | RAbort(job: nat) | RAborting(job: nat) | RResult(job: nat, aborted: bool)
    | DDiscard | DReset | FDiscard | PDelete | PErased | Unmarking

  /** One goroutine. A released worker has taken down its run record but still
      holds its reservation. */
  datatype Pc = Working(work: Work) | Released | Tidying(chore: Chore) | Gone

  /** A drive upload job, opened by goroutine opener in epoch. aborts counts the aborts
      issued. restored: a failed Retry put it back on the row; revived: a restart
      brought back a row naming it after an abort; orphaned: a restart brought back none
      naming it while it was still to be committed or aborted; unheard: the reply to the call
      that opened it was lost. */
  datatype Job = Job(committed: bool, aborted: bool, aborts: nat, restored: bool, revived: bool, orphaned: bool,
                     unheard: bool, opener: nat, epoch: nat)

  /** The write of a snapshot in progress: the copy, whether the host has stored it, and
      the worker that waits for it, if it is complete's. */
  datatype Write = Write(row: Option<Row>, reached: bool, writer: Option<nat>)

  /** stored is the row in the stored snapshot; writing is the write that holds the
      write lock. deleted: the cloud original has been deleted. charged: failures charged
      since the last manual retry; slack: attempts the row shows beyond those, below zero
      when a restart forgot some. max is the configured attempt budget. */
  datatype Cell = Cell(
    mem: Mem,
    actors: seq<Pc>,
    jobs: seq<Job>,
    committed: bool,
    deleted: bool,
    stored: Option<Row>,
    writing: Option<Write>,
    epoch: nat,
    charged: nat,
    slack: int,
    max: nat)

  datatype FetchStep =
    | WatchItem | SetStage | StageDone | StageFailed(trouble: Trouble) | SlotFailed | StartUpload | OpenFailed

  datatype PushStep =
    | HostOpens | OpenReplyLost | RecordJob | HostCommits | ReplyLost | ForgetJob | SendFailed | HostAborts | CheckStop | SetFinishing

  datatype SettleStep =
    | CompleteLock(now: int) | PersistTakes | PersistOk | PersistFailed | CompleteUnmark
    | EraseOriginal | NoteErased | Depart(discard: bool) | AfterRefusal

  datatype PartStep =
    | AfterTrouble | Decide(stopping: bool) | RequeueLock(notBefore: int) | FailLock(now: int)
    | Unwind | DiscardOwn | ReleaseRun

  datatype CleanStep =
    | CancelResumes | CleanerDiscards | CancelAborts | CancelHostAborts
    | RetryAborts | RetryHostAborts(ok: bool) | RetryFinishes
    | ResetDownloaded | CleanUpErases(ok: bool) | CleanUpNotes | Unmark

  datatype BeginStep =
    | TakeNext | CancelRow(now: int) | RetryRow | DeleteStagedRow | ClearRow | TrimRow | DropRow | CleanUpRow

  datatype WorldStep = WriterCopies | WriterStores | WriterEnds | LoadErases | Crash(now: int)

  /** A step of goroutine k, the start of a new one, or the world's move. */
  datatype Step =
    | Fetch(k: nat, fetch: FetchStep)
    | Push(k: nat, push: PushStep)
    | Settle(k: nat, settle: SettleStep)
    | Part(k: nat, part: PartStep)
    | Clean(k: nat, clean: CleanStep)
    | Unreserve(k: nat)
    | Begin(begin: BeginStep)
    | World(world: WorldStep)

  // ----- what the goroutines hold

  predicate HoldsMark(pc: Pc) {
    match pc
    case Working(work) => work.Completing? || work.Storing? || work.Settling?
    case Tidying(chore) => !chore.FDiscard?
    case _ => false
  }

  /** A cleaner between its check and its mark coming off: it owns the row's files
      and its leftover upload job. */
  predicate OwnsRow(chore: Chore) {
    !chore.CWaiting? && !chore.PDelete? && !chore.PErased? && !chore.Unmarking?
  }

  /** A cleaner about to remove the row's staged files. */
  predicate RemovesFiles(chore: Chore) {
    chore.CDiscard? || chore.DDiscard? || chore.FDiscard?
  }

  predicate Delivering(work: Work) {
    work.Completing? || work.Storing? || work == Settling(true) || work.Delivered? || work.Erased?
  }

  /** The row states a worker may find. */
  predicate Fits(work: Work, state: RowState) {
    if Delivering(work) then state.Complete?
    else if work.Leaving? || work.Discarding? || work.Exiting? then !state.Running?
    else state.Running? || state.Cancelled?
  }

  function Marks(actors: seq<Pc>): nat {
    if actors == [] then 0 else Marks(actors[..|actors| - 1]) + if HoldsMark(actors[|actors| - 1]) then 1 else 0
  }

  // ----- steps

  function Works(c: Cell, k: nat, work: Work, m: Mem): Cell
    requires k < |c.actors|
  {
    c.(mem := m, actors := c.actors[k := Working(work)])
  }

  function Tidies(c: Cell, k: nat, chore: Chore, m: Mem): Cell
    requires k < |c.actors|
  {
    c.(mem := m, actors := c.actors[k := Tidying(chore)])
  }

  function Ends(c: Cell, k: nat, pc: Pc, m: Mem): Cell
    requires k < |c.actors|
  {
    c.(mem := m, actors := c.actors[k := pc])
  }

  function Spawn(c: Cell, pc: Pc, m: Mem): Cell {
    c.(mem := m, actors := c.actors + [pc])
  }

  function Aborted(c: Cell, j: nat): (d: Cell)
    ensures d == c.(jobs := d.jobs) && |d.jobs| == |c.jobs|
  {
    if j < |c.jobs| then c.(jobs := c.jobs[j := c.jobs[j].(aborted := true, aborts := c.jobs[j].aborts + 1)]) else c
  }

  function Opens(c: Cell, k: nat, unheard: bool): (d: Cell)
    ensures d == c.(jobs := d.jobs) && |d.jobs| == |c.jobs| + 1
  {
    c.(jobs := c.jobs + [Job(false, false, 0, false, false, false, unheard, k, c.epoch)])
  }

  function CommitJob(c: Cell, j: nat): (d: Cell)
    ensures d == c.(jobs := d.jobs, committed := true) && |d.jobs| == |c.jobs|
  {
    c.(committed := true, jobs := if j < |c.jobs| then c.jobs[j := c.jobs[j].(committed := true)] else c.jobs)
  }

  function Restored(c: Cell, j: nat): (d: Cell)
    ensures d == c.(jobs := d.jobs) && |d.jobs| == |c.jobs|
  {
    if j < |c.jobs| then c.(jobs := c.jobs[j := c.jobs[j].(restored := true)]) else c
  }

  /** A stored row that records the delivery. */
  predicate RecordsDelivery(row: Row) {
    row.state.Complete? || (row.state.Running? && row.stage.Finishing?)
  }

  predicate FetchEnabled(w: Work, c: Cell, step: FetchStep) {
    match step
    case WatchItem => w.Claimed? && c.mem.run.Some?
    case SetStage => w.Staging?
    case StageDone => w.Staging?
    case StageFailed(_) => w.Staging?
    case SlotFailed => w.Ready?
    case StartUpload => w.Ready?
    case OpenFailed => w.Opening?
  }

  function FetchApply(c: Cell, k: nat, step: FetchStep): Cell
    requires k < |c.actors| && c.actors[k].Working? && FetchEnabled(c.actors[k].work, c, step)
  {
    match step
    case WatchItem => Works(c, k, Staging, Watch(c.mem))
    case SetStage => Works(c, k, Staging, WithStage(c.mem, Downloading))
    case StageDone => Works(c, k, Ready, WithStage(c.mem, WaitingUpload))
    case StageFailed(trouble) => Works(c, k, Broken(trouble), c.mem)
    case SlotFailed => Works(c, k, Broken(Transient), c.mem)
    case StartUpload => Works(c, k, Opening, WithStage(c.mem, Uploading))
    case OpenFailed => Works(c, k, Broken(Transient), c.mem)
  }

  predicate PushEnabled(w: Work, step: PushStep) {
    match step
    case HostOpens => w.Opening?
    case OpenReplyLost => w.Opening?
    case RecordJob => w.Opened?
    case HostCommits => w.Sending?
    case ReplyLost => w.Sending?
    case ForgetJob => w.Landed?
    case SendFailed => w.Sending?
    case HostAborts => w.Aborting?
    case CheckStop => w.Uploaded?
    case SetFinishing => w.Accepted?
  }

  function PushApply(c: Cell, k: nat, step: PushStep): Cell
    requires k < |c.actors| && c.actors[k].Working? && PushEnabled(c.actors[k].work, step)
  {
    var w, m := c.actors[k].work, c.mem;
    match step
    case HostOpens => Works(Opens(c, k, false), k, Opened(|c.jobs|), m)
    case OpenReplyLost => Works(Opens(c, k, true), k, Broken(Transient), m)
    case RecordJob => Works(c, k, Sending(w.job), WithJob(m, Some(w.job)))
    case HostCommits => Works(CommitJob(c, w.job), k, Landed(w.job), m)
    case ReplyLost => CommitJob(c, w.job)
    case ForgetJob => Works(c, k, Uploaded, TakeJob(m, w.job))
    case SendFailed =>
      Works(c, k, if m.row.uploadJob == Some(w.job) then Aborting(w.job) else Broken(Transient), TakeJob(m, w.job))
    case HostAborts => Works(Aborted(c, w.job), k, Broken(Transient), m)
    case CheckStop => Works(c, k, if Stopped(m) then Leaving(true) else Accepted, m)
    case SetFinishing => Works(c, k, AtComplete, WithStage(m, Finishing))
  }

  /** Goroutine k holds the write lock. */
  predicate Mine(c: Cell, k: nat) {
    c.writing.Some? && c.writing.value.writer == Some(k)
  }

  function Copy(c: Cell): Option<Row> {
    if c.mem.queued then Some(c.mem.row) else None
  }

  predicate SettleEnabled(w: Work, c: Cell, k: nat, step: SettleStep) {
    match step
    case CompleteLock(_) => w.AtComplete?
    case PersistTakes => w.Completing? && c.writing.None?
    case PersistOk => w.Storing? && Mine(c, k) && c.writing.value.reached
    case PersistFailed => w.Storing? && Mine(c, k)
    case CompleteUnmark => w.Settling?
    case EraseOriginal => w.Delivered? && c.mem.row.deleteAfter
    case NoteErased => w.Erased?
    case Depart(_) => w.Delivered?
    case AfterRefusal => w.Refusal?
  }

  function SettleApply(c: Cell, k: nat, step: SettleStep): Cell
    requires k < |c.actors| && c.actors[k].Working? && SettleEnabled(c.actors[k].work, c, k, step)
  {
    var w, m := c.actors[k].work, c.mem;
    match step
    case CompleteLock(now) =>
      Works(c, k, if Refuses(m) then Refusal else Completing(m.row.stage, m.row.finishedAt), CompleteStart(m, now))
    case PersistTakes => Works(c, k, Storing(w.stage, w.finishedAt), m).(writing := Some(Write(Copy(c), false, Some(k))))
    case PersistOk => Works(c, k, Settling(true), m).(writing := None)
    case PersistFailed =>
      Works(c, k, Settling(false), CompleteRollback(m, Running, w.stage, w.finishedAt)).(writing := None)
    case CompleteUnmark => Works(c, k, if w.ok then Delivered else Refusal, Unmarked(m))
    case EraseOriginal => Works(c, k, Erased, m).(deleted := true)
    case NoteErased => Works(c, k, Delivered, OriginalGone(m))
    case Depart(discard) => Works(c, k, Leaving(discard), m)
    case AfterRefusal => Works(c, k, if Stopped(m) then Leaving(false) else Requeueing(false), m)
  }

  predicate PartEnabled(w: Work, step: PartStep) {
    match step
    case AfterTrouble => w.Broken?
    case Decide(_) => w.Deciding?
    case RequeueLock(_) => w.Requeueing?
    case FailLock(_) => w.Failing?
    case Unwind => w.Leaving?
    case DiscardOwn => w.Discarding?
    case ReleaseRun => w.Exiting?
  }

  function PartApply(c: Cell, k: nat, step: PartStep): Cell
    requires k < |c.actors| && c.actors[k].Working? && PartEnabled(c.actors[k].work, step)
  {
    var w, m := c.actors[k].work, c.mem;
    match step
    case AfterTrouble => Works(c, k, if Stopped(m) then Leaving(true) else Deciding(w.trouble), m)
    case Decide(stopping) =>
      Works(c, k,
        if w.trouble.NeedsLogin? || w.trouble.NeedsRoom? then Requeueing(false)
        else if w.trouble.Permanent? then Failing
        else if stopping then Requeueing(false)
        else if m.row.attempts < c.max then Requeueing(true) else Failing, m)
    case RequeueLock(notBefore) =>
      Works(c, k, Leaving(false), Requeue(m, notBefore, w.charge))
        .(charged := if w.charge && !Refuses(m) then c.charged + 1 else c.charged)
    case FailLock(now) =>
      Works(c, k, Leaving(false), Fail(m, now)).(charged := if Refuses(m) then c.charged else c.charged + 1)
    case Unwind => Works(c, k, if w.discard || Stopped(m) then Discarding else Exiting, m)
    case DiscardOwn => Works(c, k, Exiting, m)
    case ReleaseRun => Ends(c, k, Released, Release(m, k))
  }

  predicate CleanEnabled(t: Chore, c: Cell, step: CleanStep) {
    match step
    case CancelResumes => t.CWaiting? && !(c.mem.run.Some? && c.mem.run.value.who == t.who)
    case CleanerDiscards => RemovesFiles(t)
    case CancelAborts => t.CAbort?
    case CancelHostAborts => t.CAborting?
    case RetryAborts => t.RAbort?
    case RetryHostAborts(_) => t.RAborting?
    case RetryFinishes => t.RResult?
    case ResetDownloaded => t.DReset?
    case CleanUpErases(_) => t.PDelete?
    case CleanUpNotes => t.PErased?
    case Unmark => t.Unmarking?
  }

  function CleanApply(c: Cell, k: nat, step: CleanStep): Cell
    requires k < |c.actors| && c.actors[k].Tidying? && CleanEnabled(c.actors[k].chore, c, step)
  {
    var t, m := c.actors[k].chore, c.mem;
    match step
    case CancelResumes => Tidies(c, k, CAbort(m.row.uploadJob), m)
    case CleanerDiscards =>
      if t.FDiscard? then Ends(c, k, Gone, m) else Tidies(c, k, if t.CDiscard? then CAbort(t.left) else DReset, m)
    case CancelAborts =>
      if t.left.None? then Tidies(c, k, Unmarking, m)
      else Tidies(c, k, if m.row.uploadJob == t.left then CAborting(t.left.value) else Unmarking, TakeJob(m, t.left.value))
    case CancelHostAborts => Tidies(Aborted(c, t.job), k, Unmarking, m)
    case RetryAborts =>
      Tidies(c, k, if m.row.uploadJob == Some(t.job) then RAborting(t.job) else RResult(t.job, true), TakeJob(m, t.job))
    case RetryHostAborts(ok) => Tidies(Aborted(c, t.job), k, RResult(t.job, ok), m)
    case RetryFinishes =>
      Ends(if !t.aborted && m.row.uploadJob.None? then Restored(c, t.job) else c, k, Gone, RetryOutcome(m, t.job, t.aborted))
        .(charged := if t.aborted && m.run.None? then 0 else c.charged,
          slack := if t.aborted && m.run.None? then 0 else c.slack)
    case ResetDownloaded => Tidies(c, k, Unmarking, NothingDownloaded(m))
    case CleanUpErases(ok) => if ok then Tidies(c, k, PErased, m).(deleted := true) else Tidies(c, k, Unmarking, m)
    case CleanUpNotes => Tidies(c, k, Unmarking, OriginalGone(m))
    case Unmark => Ends(c, k, Gone, Unmarked(m))
  }

  predicate BeginEnabled(c: Cell, step: BeginStep) {
    match step
    case TakeNext => CanClaim(c.mem)
    case CancelRow(_) => CanCancel(c.mem)
    case RetryRow => CanRetry(c.mem)
    case DeleteStagedRow => CanDeleteStaged(c.mem)
    case ClearRow => CanClear(c.mem)
    case TrimRow => CanTrim(c.mem)
    case DropRow => CanDrop(c.mem)
    case CleanUpRow => CanCleanUp(c.mem)
  }

  function BeginApply(c: Cell, step: BeginStep): Cell
    requires BeginEnabled(c, step)
  {
    var m := c.mem;
    match step
    case TakeNext => Spawn(c, Working(Claimed), Claim(m, |c.actors|))
    case CancelRow(now) =>
      Spawn(c, Tidying(if m.run.Some? then CWaiting(m.run.value.who) else CDiscard(m.row.uploadJob)), Cancel(m, now))
    case RetryRow =>
      if m.row.uploadJob.None? then c.(mem := ResetForRetry(m), charged := 0, slack := 0)
      else Spawn(c, Tidying(RAbort(m.row.uploadJob.value)), Marked(m))
    case DeleteStagedRow => Spawn(c, Tidying(DDiscard), Marked(m))
    case ClearRow => Spawn(c, Tidying(FDiscard), Dropped(m))
    case TrimRow => Spawn(c, Tidying(FDiscard), Dropped(m))
    case DropRow => c.(mem := Dropped(m))
    case CleanUpRow => Spawn(c, Tidying(PDelete), Marked(m))
  }

  predicate WorldEnabled(c: Cell, step: WorldStep) {
    match step
    case WriterCopies => c.writing.None?
    case WriterStores => c.writing.Some? && !c.writing.value.reached
    case WriterEnds => c.writing.Some? && c.writing.value.writer.None?
    case LoadErases => c.actors == [] && c.mem.row.state.Complete? && c.mem.row.deleteAfter
    case Crash(_) => true
  }

  function WorldApply(c: Cell, step: WorldStep): Cell
    requires WorldEnabled(c, step)
  {
    match step
    case WriterCopies => c.(writing := Some(Write(Copy(c), false, None)))
    case WriterStores => c.(stored := c.writing.value.row, writing := Some(c.writing.value.(reached := true)))
    case WriterEnds => c.(writing := None)
    case LoadErases => c.(deleted := true)
    case Crash(now) => Reload(c, now)
  }

  predicate Enabled(c: Cell, step: Step) {
    match step
    case Fetch(k, f) => k < |c.actors| && c.actors[k].Working? && FetchEnabled(c.actors[k].work, c, f)
    case Push(k, p) => k < |c.actors| && c.actors[k].Working? && PushEnabled(c.actors[k].work, p)
    case Settle(k, t) => k < |c.actors| && c.actors[k].Working? && SettleEnabled(c.actors[k].work, c, k, t)
    case Part(k, p) => k < |c.actors| && c.actors[k].Working? && PartEnabled(c.actors[k].work, p)
    case Clean(k, t) => k < |c.actors| && c.actors[k].Tidying? && CleanEnabled(c.actors[k].chore, c, t)
    case Unreserve(k) => k < |c.actors| && c.actors[k].Released?
    case Begin(b) => BeginEnabled(c, b)
    case World(w) => WorldEnabled(c, w)
  }

  function Apply(c: Cell, step: Step): Cell
    requires Enabled(c, step)
  {
    match step
    case Fetch(k, f) => FetchApply(c, k, f)
    case Push(k, p) => PushApply(c, k, p)
    case Settle(k, t) => SettleApply(c, k, t)
    case Part(k, p) => PartApply(c, k, p)
    case Clean(k, t) => CleanApply(c, k, t)
    case Unreserve(k) => Ends(c, k, Gone, c.mem)
    case Begin(b) => BeginApply(c, b)
    case World(w) => WorldApply(c, w)
  }

  /** The row Load makes of the stored one. */
  function Loaded(c: Cell, now: int): Row {
    if c.stored.Some? then LoadRow(c.stored.value, now) else c.mem.row.(state := Failed, uploadJob := None)
  }

  function AfterRestart(job: Job, named: bool): Job {
    job.(revived := job.revived || (named && job.aborts > 0),
         orphaned := job.orphaned || (!named && !job.committed && job.aborts == 0))
  }

  /** Process death and the next Load: only the stored row comes back. */
  function Reload(c: Cell, now: int): Cell {
    var row := Loaded(c, now);
    var jobs := seq(|c.jobs|, j requires 0 <= j < |c.jobs| => AfterRestart(c.jobs[j], row.uploadJob == Some(j)));
    Cell(Mem(row, c.stored.Some?, None, false, 0), [], jobs, c.committed, c.deleted, c.stored, None, c.epoch + 1,
         c.charged, if row.state.Pending? then row.attempts - c.charged else c.slack, c.max)
  }

  // ----- who works, and who may clean

  /** The run record, the cancellation flag and the row's state agree with the
      worker, of which there is at most one. */
  ghost predicate Ownership(m: Mem, actors: seq<Pc>) {
    && (forall k :: 0 <= k < |actors| && actors[k].Working? ==> m.run.Some? && m.run.value.who == k)
    && (m.run.Some? ==> m.run.value.who < |actors| && Employed(m, actors[m.run.value.who]))
    && (m.run.None? ==> !m.cancelling && !m.row.state.Running?)
  }

  predicate Employed(m: Mem, pc: Pc)
    requires m.run.Some?
  {
    && pc.Working?
    && Fits(pc.work, m.row.state)
    && m.run.value.cancelRequested == m.row.state.Cancelled? == m.cancelling
  }

  /** What a goroutine that is no worker may count on. A cleaner that owns the row
      has it to itself; a Cancel is waiting for the very run it interrupted. */
  predicate Polite(m: Mem, pc: Pc) {
    pc.Tidying? ==>
      && (OwnsRow(pc.chore) ==> m.run.None?)
      && (pc.chore.FDiscard? ==> !m.queued)
      && (pc.chore.CWaiting? && m.run.Some? ==> m.run.value == Run(pc.chore.who, true))
  }

  ghost predicate Exclusion(m: Mem, actors: seq<Pc>) {
    && m.deleting == Marks(actors)
    && (forall k :: 0 <= k < |actors| ==> Polite(m, actors[k]))
  }

  ghost predicate Base(m: Mem, actors: seq<Pc>) {
    Ownership(m, actors) && Exclusion(m, actors)
  }

  lemma {:induction false} MarksChange(actors: seq<Pc>, k: nat, pc: Pc)
    requires k < |actors|
    ensures Marks(actors[k := pc]) == Marks(actors) - (if HoldsMark(actors[k]) then 1 else 0) + (if HoldsMark(pc) then 1 else 0)
    ensures HoldsMark(actors[k]) ==> Marks(actors) > 0
  {
    var n := |actors| - 1;
    if k == n {
      assert actors[k := pc][..n] == actors[..n];
    } else {
      MarksChange(actors[..n], k, pc);
      assert actors[k := pc][..n] == actors[..n][k := pc];
    }
  }

  lemma MarksAppend(actors: seq<Pc>, pc: Pc)
    ensures Marks(actors + [pc]) == Marks(actors) + (if HoldsMark(pc) then 1 else 0)
  {
    assert (actors + [pc])[..|actors|] == actors;
  }

  predicate Remarked(m: Mem, n: Mem, pc: Pc, pc': Pc) {
    n.deleting + (if HoldsMark(pc) then 1 else 0) == m.deleting + if HoldsMark(pc') then 1 else 0
  }

  /** A worker moves on. */
  lemma WorkerMoves(m: Mem, actors: seq<Pc>, k: nat, work: Work, n: Mem)
    requires Base(m, actors) && k < |actors| && actors[k].Working?
    requires n.queued == m.queued && Remarked(m, n, actors[k], Working(work))
    requires n.run.Some? && n.run.value.who == k && Employed(n, Working(work))
    requires m.run.Some? && m.run.value.cancelRequested ==> n.run.value.cancelRequested
    ensures Base(n, actors[k := Working(work)])
  {
    hide Marks, HoldsMark, OwnsRow, Fits;
    MarksChange(actors, k, Working(work));
  }

  /** A worker takes down its run record. */
  lemma WorkerRetires(m: Mem, actors: seq<Pc>, k: nat)
    requires Base(m, actors) && k < |actors| && actors[k] == Working(Exiting)
    ensures Base(Release(m, k), actors[k := Released])
  {
    hide Marks, OwnsRow;
    MarksChange(actors, k, Released);
  }

  /** Any other goroutine moves on; it may rewrite the row only when there is no worker. */
  lemma OtherMoves(m: Mem, actors: seq<Pc>, k: nat, pc: Pc, n: Mem)
    requires Base(m, actors) && k < |actors| && !actors[k].Working? && !pc.Working?
    requires n.queued == m.queued && n.run == m.run && Remarked(m, n, actors[k], pc) && Polite(n, pc)
    requires m.run.Some? ==> n.row.state == m.row.state && n.cancelling == m.cancelling
    requires m.run.None? ==> !n.cancelling && !n.row.state.Running?
    ensures Base(n, actors[k := pc])
  {
    hide Marks, HoldsMark, OwnsRow, Fits;
    MarksChange(actors, k, pc);
  }

  /** A cleaner starts. It may cancel the row of a worker that has not delivered. */
  lemma CleanerStarts(m: Mem, actors: seq<Pc>, pc: Pc, n: Mem)
    requires Base(m, actors) && !pc.Working?
    requires (n.queued ==> m.queued) && n.deleting == m.deleting + (if HoldsMark(pc) then 1 else 0) && Polite(n, pc)
    requires n.run.Some? == m.run.Some?
    requires n.run.Some? ==> n.run.value.who == m.run.value.who && (m.run.value.cancelRequested ==> n.run.value.cancelRequested)
    requires n.run.Some? && m.run.value.who < |actors| ==> Employed(n, actors[m.run.value.who])
    requires n.run.None? ==> !n.cancelling && !n.row.state.Running?
    ensures Base(n, actors + [pc])
  {
    hide Marks, HoldsMark, OwnsRow, Fits;
    MarksAppend(actors, pc);
    var after := actors + [pc];
    assert forall k :: 0 <= k < |actors| ==> after[k] == actors[k];
    assert after[|actors|] == pc;
  }

  lemma MarkedRow(m: Mem, actors: seq<Pc>, k: nat)
    requires Base(m, actors) && k < |actors| && HoldsMark(actors[k])
    ensures m.deleting > 0
  {
    MarksChange(actors, k, actors[k]);
  }

  /** The worker holds the run record. */
  lemma WorkerHolds(m: Mem, actors: seq<Pc>, k: nat)
    requires Base(m, actors) && k < |actors| && actors[k].Working?
    ensures m.run.Some? && m.run.value.who == k && Employed(m, actors[k])
  {
  }

  lemma FetchKeepsBase(c: Cell, k: nat, step: FetchStep)
    requires Base(c.mem, c.actors) && k < |c.actors| && c.actors[k].Working? && FetchEnabled(c.actors[k].work, c, step)
    ensures var d := FetchApply(c, k, step); Base(d.mem, d.actors)
  {
    hide Base;
    var d := FetchApply(c, k, step);
    WorkerHolds(c.mem, c.actors, k);
    WorkerMoves(c.mem, c.actors, k, d.actors[k].work, d.mem);
  }

  /** An upload section rewrites neither the row's state nor anything beside the row. */
  lemma PushKeepsState(c: Cell, k: nat, step: PushStep)
    requires k < |c.actors| && c.actors[k].Working? && PushEnabled(c.actors[k].work, step)
    ensures var m, n := c.mem, PushApply(c, k, step).mem; n.row.state == m.row.state && n.(row := m.row) == m
  {
    hide CommitJob, Aborted, Stopped;
  }

  lemma PushMovesOn(c: Cell, k: nat, step: PushStep)
    requires k < |c.actors| && c.actors[k].Working? && PushEnabled(c.actors[k].work, step)
    requires c.mem.run.Some? && Employed(c.mem, c.actors[k])
    ensures var d := PushApply(c, k, step);
      && d.actors == c.actors[k := d.actors[k]] && Employed(c.mem, d.actors[k])
      && !HoldsMark(c.actors[k]) && !HoldsMark(d.actors[k])
  {
    hide CommitJob, Aborted, TakeJob, WithJob, WithStage;
  }

  lemma PushKeepsBase(c: Cell, k: nat, step: PushStep)
    requires Base(c.mem, c.actors) && k < |c.actors| && c.actors[k].Working? && PushEnabled(c.actors[k].work, step)
    ensures var d := PushApply(c, k, step); Base(d.mem, d.actors)
  {
    hide Base, PushApply, HoldsMark;
    var d := PushApply(c, k, step);
    WorkerHolds(c.mem, c.actors, k);
    PushKeepsState(c, k, step);
    PushMovesOn(c, k, step);
    WorkerMoves(c.mem, c.actors, k, d.actors[k].work, d.mem);
  }

  lemma SettleKeepsBase(c: Cell, k: nat, step: SettleStep)
    requires Base(c.mem, c.actors) && k < |c.actors| && c.actors[k].Working?
    requires SettleEnabled(c.actors[k].work, c, k, step)
    ensures var d := SettleApply(c, k, step); Base(d.mem, d.actors)
  {
    hide Base;
    var d := SettleApply(c, k, step);
    WorkerHolds(c.mem, c.actors, k);
    if step.CompleteUnmark? { MarkedRow(c.mem, c.actors, k); }
    WorkerMoves(c.mem, c.actors, k, d.actors[k].work, d.mem);
  }

  lemma PartKeepsBase(c: Cell, k: nat, step: PartStep)
    requires Base(c.mem, c.actors) && k < |c.actors| && c.actors[k].Working? && PartEnabled(c.actors[k].work, step)
    ensures var d := PartApply(c, k, step); Base(d.mem, d.actors)
  {
    hide Base;
    var d := PartApply(c, k, step);
    WorkerHolds(c.mem, c.actors, k);
    if step.ReleaseRun? {
      WorkerRetires(c.mem, c.actors, k);
    } else {
      WorkerMoves(c.mem, c.actors, k, d.actors[k].work, d.mem);
    }
  }

  lemma RetryKeepsBase(c: Cell, k: nat)
    requires Base(c.mem, c.actors) && k < |c.actors| && c.actors[k].Tidying? && c.actors[k].chore.RResult?
    ensures var d := CleanApply(c, k, RetryFinishes); Base(d.mem, d.actors)
  {
    hide Base, Restored;
    MarkedRow(c.mem, c.actors, k);
    OthersArePolite(c.mem, c.actors, k);
    OtherMoves(c.mem, c.actors, k, Gone, CleanApply(c, k, RetryFinishes).mem);
  }

  lemma CleanKeepsBase(c: Cell, k: nat, step: CleanStep)
    requires Base(c.mem, c.actors) && k < |c.actors| && c.actors[k].Tidying? && CleanEnabled(c.actors[k].chore, c, step)
    ensures var d := CleanApply(c, k, step); Base(d.mem, d.actors)
  {
    hide Base, Aborted;
    if step.RetryFinishes? {
      RetryKeepsBase(c, k);
    } else {
      var d := CleanApply(c, k, step);
      if !c.actors[k].chore.FDiscard? { MarkedRow(c.mem, c.actors, k); }
      OthersArePolite(c.mem, c.actors, k);
      OtherMoves(c.mem, c.actors, k, d.actors[k], d.mem);
    }
  }

  lemma OthersArePolite(m: Mem, actors: seq<Pc>, k: nat)
    requires Base(m, actors) && k < |actors|
    ensures Polite(m, actors[k])
    ensures m.run.None? ==> !m.cancelling && !m.row.state.Running?
  {
  }

  lemma WorkerStarts(m: Mem, actors: seq<Pc>)
    requires Base(m, actors) && CanClaim(m)
    ensures Base(Claim(m, |actors|), actors + [Working(Claimed)])
  {
    var pc := Working(Claimed);
    forall k | 0 <= k < |actors| ensures !actors[k].Tidying? {
      OthersArePolite(m, actors, k);
      if HoldsMark(actors[k]) { MarkedRow(m, actors, k); }
    }
    MarksAppend(actors, pc);
    var after := actors + [pc];
    assert forall k :: 0 <= k < |actors| ==> after[k] == actors[k];
  }

  /** A claimed row that has no worker keeps its files and its place. */
  lemma RowIsRewritten(m: Mem, actors: seq<Pc>, n: Mem)
    requires Base(m, actors) && n.deleting == m.deleting && (n.queued ==> m.queued) && n.run == m.run
    requires m.run.Some? ==> n.row.state == m.row.state && n.cancelling == m.cancelling
    requires m.run.None? ==> !n.cancelling && !n.row.state.Running?
    ensures Base(n, actors)
  {
    hide Marks, OwnsRow, HoldsMark;
  }

  lemma BeginKeepsBase(c: Cell, step: BeginStep)
    requires Base(c.mem, c.actors) && BeginEnabled(c, step)
    ensures var d := BeginApply(c, step); Base(d.mem, d.actors)
  {
    var m, d := c.mem, BeginApply(c, step);
    RunIsEmployed(m, c.actors);
    hide Base;
    if step.TakeNext? {
      WorkerStarts(m, c.actors);
    } else if |d.actors| == |c.actors| {
      RowIsRewritten(m, c.actors, d.mem);
    } else {
      CleanerStarts(m, c.actors, d.actors[|c.actors|], d.mem);
    }
  }

  lemma RunIsEmployed(m: Mem, actors: seq<Pc>)
    requires Base(m, actors)
    ensures m.run.Some? ==> m.run.value.who < |actors| && Employed(m, actors[m.run.value.who])
    ensures m.run.None? ==> !m.cancelling && !m.row.state.Running?
  {
  }

  lemma WorldKeepsBase(c: Cell, step: WorldStep)
    requires Base(c.mem, c.actors) && WorldEnabled(c, step)
    ensures var d := WorldApply(c, step); Base(d.mem, d.actors)
  {
  }

  lemma StepKeepsBase(c: Cell, step: Step)
    requires Base(c.mem, c.actors) && Enabled(c, step)
    ensures var d := Apply(c, step); Base(d.mem, d.actors)
  {
    hide Base;
    match step {
      case Fetch(k, f) => FetchKeepsBase(c, k, f);
      case Push(k, p) => PushKeepsBase(c, k, p);
      case Settle(k, t) => SettleKeepsBase(c, k, t);
      case Part(k, p) => PartKeepsBase(c, k, p);
      case Clean(k, t) => CleanKeepsBase(c, k, t);
      case Unreserve(k) =>
        OthersArePolite(c.mem, c.actors, k);
        RunIsEmployed(c.mem, c.actors);
        OtherMoves(c.mem, c.actors, k, Gone, c.mem);
      case Begin(b) => BeginKeepsBase(c, b);
      case World(w) => WorldKeepsBase(c, w);
    }
  }

  // ----- runs

  /** What a scan appends: a waiting row, or one that failed for its name. */
  predicate Fresh(c: Cell) {
    var row := c.mem.row;
    && c.mem == Mem(row, true, None, false, 0) && (row.state.Pending? || row.state.Failed?)
    && row.stage.Idle? && row.attempts == 0 && row.uploadJob.None?
    && c.actors == [] && c.jobs == [] && !c.committed && !c.deleted && c.stored.None? && c.writing.None?
    && c.charged == 0 && c.slack == 0 && c.max >= 1
  }

  ghost predicate IsRun(cells: seq<Cell>, steps: seq<Step>) {
    && |cells| == |steps| + 1
    && (forall i :: 0 <= i < |steps| ==> Enabled(cells[i], steps[i]) && cells[i + 1] == Apply(cells[i], steps[i]))
  }

  predicate Restarts(step: Step) {
    step.World? && step.world.Crash?
  }

  /** One more step at the end of a run. */
  lemma Extend(cells: seq<Cell>, steps: seq<Step>, step: Step) returns (longer: seq<Cell>, done: seq<Step>)
    requires IsRun(cells, steps) && Enabled(cells[|steps|], step)
    ensures done == steps + [step] && longer == cells + [Apply(cells[|steps|], step)] && IsRun(longer, done)
  {
    longer, done := cells + [Apply(cells[|steps|], step)], steps + [step];
  }

  lemma FreshHasBase(c: Cell)
    requires Fresh(c)
    ensures Base(c.mem, c.actors)
  {
  }

  /** In every reachable state there is at most one worker, it owns the run record,
      and no cleaner that acts on the row's files does so beside it. */
  lemma {:induction false} RunKeepsBase(cells: seq<Cell>, steps: seq<Step>, i: nat)
    requires IsRun(cells, steps) && Fresh(cells[0]) && i < |cells|
    ensures Base(cells[i].mem, cells[i].actors)
  {
    if i == 0 {
      FreshHasBase(cells[0]);
    } else {
      RunKeepsBase(cells, steps, i - 1);
      StepKeepsBase(cells[i - 1], steps[i - 1]);
    }
  }
}
