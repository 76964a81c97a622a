/** Who aborts an upload job, over whole runs and across restarts. */
module UploadJobs {
  import opened Wrappers
  import opened Items
  import opened Lifecycle
  import opened Delivery
  import opened JobNames

  // ----- every job is accounted for

  predicate Touches(pc: Pc, j: nat) {
    Uploads(pc) == Some(j) || Holds(pc) == Some(j)
  }

  predicate InHands(actors: seq<Pc>, j: nat) {
    exists k :: 0 <= k < |actors| && Touches(actors[k], j)
  }

  predicate Done(job: Job) {
    job.committed || job.aborts > 0 || job.orphaned || job.unheard
  }

  /** A worker has landed only a committed job; a Retry sees only an issued abort fail. */
  predicate Knows(pc: Pc, jobs: seq<Job>) {
    && (pc.Working? && pc.work.Landed? ==> pc.work.job < |jobs| && jobs[pc.work.job].committed)
    && (pc.Tidying? && pc.chore.RResult? && !pc.chore.aborted ==>
          pc.chore.job < |jobs| && jobs[pc.chore.job].aborts > 0)
  }

  /** Every job is committed, or has had its abort, or is on the row or in somebody's
      hands, or was orphaned by a restart, or nobody ever heard of it. */
  ghost predicate Accounted(c: Cell) {
    && (forall j :: 0 <= j < |c.jobs| ==> Done(c.jobs[j]) || c.mem.row.uploadJob == Some(j) || InHands(c.actors, j))
    && (forall k :: 0 <= k < |c.actors| ==> Knows(c.actors[k], c.jobs))
  }

  /** Goroutine k moves: what it or the row lets go of is settled, or taken by the other. */
  lemma MovesAccounted(c: Cell, k: nat, d: Cell)
    requires Accounted(c) && k < |c.actors| == |d.actors| && |c.jobs| == |d.jobs|
    requires forall l :: 0 <= l < |c.actors| && l != k ==> d.actors[l] == c.actors[l]
    requires forall j :: 0 <= j < |c.jobs| && Done(c.jobs[j]) ==> Done(d.jobs[j])
    requires forall j :: 0 <= j < |c.jobs| && c.jobs[j].committed ==> d.jobs[j].committed
    requires forall j :: 0 <= j < |c.jobs| ==> c.jobs[j].aborts <= d.jobs[j].aborts
    requires forall j :: 0 <= j < |c.jobs| && (Touches(c.actors[k], j) || c.mem.row.uploadJob == Some(j)) ==>
      Touches(d.actors[k], j) || d.mem.row.uploadJob == Some(j) || Done(d.jobs[j])
    requires Knows(d.actors[k], d.jobs)
    ensures Accounted(d)
  {
    forall j | 0 <= j < |d.jobs| && !Done(d.jobs[j]) && d.mem.row.uploadJob != Some(j) ensures InHands(d.actors, j) {
      if Touches(c.actors[k], j) || c.mem.row.uploadJob == Some(j) {
        assert Touches(d.actors[k], j);
      } else {
        var l :| 0 <= l < |c.actors| && Touches(c.actors[l], j);
        assert l != k && Touches(d.actors[l], j);
      }
    }
    forall l | 0 <= l < |d.actors| ensures Knows(d.actors[l], d.jobs) {
      assert Knows(c.actors[l], c.jobs);
    }
  }

  /** What a goroutine's step may count on. */
  predicate MoverNamed(c: Cell, k: nat)
    requires k < |c.actors|
  {
    ActorNamed(c.mem, c.actors[k], |c.jobs|) && WellNamed(Some(c.mem.row), |c.jobs|)
    && (c.actors[k].Working? ==> c.mem.run.Some? && Employed(c.mem, c.actors[k]))
  }

  lemma MoverIsNamed(c: Cell, k: nat)
    requires Base(c.mem, c.actors) && Named(c) && k < |c.actors|
    ensures MoverNamed(c, k)
  {
    if c.actors[k].Working? { WorkerHolds(c.mem, c.actors, k); }
  }

  lemma OpeningAccounted(c: Cell, k: nat, step: PushStep)
    requires Accounted(c) && k < |c.actors| && c.actors[k] == Working(Opening) && (step.HostOpens? || step.OpenReplyLost?)
    ensures Accounted(PushApply(c, k, step))
  {
    var d := PushApply(c, k, step);
    assert Uploads(Working(Opening)).None? && Holds(Working(Opening)).None?;
    assert d.mem == c.mem && (step.HostOpens? ==> Touches(d.actors[k], |c.jobs|));
    forall j | 0 <= j < |c.jobs| && !Done(d.jobs[j]) && d.mem.row.uploadJob != Some(j) ensures InHands(d.actors, j) {
      var l :| 0 <= l < |c.actors| && Touches(c.actors[l], j);
      assert !Touches(c.actors[k], j);
      assert Touches(d.actors[l], j);
    }
    forall l | 0 <= l < |d.actors| ensures Knows(d.actors[l], d.jobs) {
      assert Knows(c.actors[l], c.jobs);
    }
  }

  lemma PushAccounted(c: Cell, k: nat, step: PushStep)
    requires Accounted(c) && k < |c.actors| && MoverNamed(c, k)
    requires c.actors[k].Working? && PushEnabled(c.actors[k].work, step)
    ensures Accounted(PushApply(c, k, step))
  {
    if step.HostOpens? || step.OpenReplyLost? {
      OpeningAccounted(c, k, step);
    } else {
      var d := PushApply(c, k, step);
      assert Knows(c.actors[k], c.jobs);
      assert forall j :: 0 <= j < |c.jobs| && Done(c.jobs[j]) ==> Done(d.jobs[j]);
      hide Accounted;
      MovesAccounted(c, k, d);
    }
  }

  lemma WorkAccounted(c: Cell, k: nat, d: Cell)
    requires Accounted(c) && k < |c.actors| == |d.actors| && d.jobs == c.jobs && d.actors == c.actors[k := d.actors[k]]
    requires MoverNamed(c, k) && c.actors[k].Working? && Uploads(c.actors[k]).None? && OnRow(c.actors[k]).None?
    requires d.actors[k].Working? ==> !d.actors[k].work.Landed?
    requires !d.actors[k].Tidying?
    ensures Accounted(d)
  {
    hide Accounted;
    MovesAccounted(c, k, d);
  }

  /** A cleaner's step that leaves the jobs as they are. */
  lemma TidyAccounted(c: Cell, k: nat, d: Cell)
    requires Accounted(c) && k < |c.actors| == |d.actors| && MoverNamed(c, k) && c.actors[k].Tidying?
    requires d.actors == c.actors[k := d.actors[k]] && !d.actors[k].Working? && d.jobs == c.jobs
    requires forall j :: Holds(c.actors[k]) == Some(j) || c.mem.row.uploadJob == Some(j) ==>
      Holds(d.actors[k]) == Some(j) || d.mem.row.uploadJob == Some(j)
    requires d.actors[k].Tidying? && d.actors[k].chore.RResult? ==> d.actors[k].chore.aborted
    ensures Accounted(d)
  {
    hide Accounted;
    MovesAccounted(c, k, d);
  }

  lemma HostAbortAccounted(c: Cell, k: nat, step: CleanStep)
    requires Accounted(c) && k < |c.actors| && MoverNamed(c, k) && c.actors[k].Tidying?
    requires CleanEnabled(c.actors[k].chore, c, step) && (step.CancelHostAborts? || step.RetryHostAborts?)
    ensures Accounted(CleanApply(c, k, step))
  {
    hide Accounted;
    MovesAccounted(c, k, CleanApply(c, k, step));
  }

  lemma RestoringAccounted(c: Cell, k: nat)
    requires Accounted(c) && k < |c.actors| && MoverNamed(c, k) && c.actors[k].Tidying? && c.actors[k].chore.RResult?
    ensures Accounted(CleanApply(c, k, RetryFinishes))
  {
    hide Accounted;
    MovesAccounted(c, k, CleanApply(c, k, RetryFinishes));
  }

  lemma CleanAccounted(c: Cell, k: nat, step: CleanStep)
    requires Accounted(c) && k < |c.actors| && MoverNamed(c, k)
    requires c.actors[k].Tidying? && CleanEnabled(c.actors[k].chore, c, step)
    ensures Accounted(CleanApply(c, k, step))
  {
    hide Accounted;
    if step.CancelHostAborts? || step.RetryHostAborts? {
      HostAbortAccounted(c, k, step);
    } else if step.RetryFinishes? {
      RestoringAccounted(c, k);
    } else {
      TidyAccounted(c, k, CleanApply(c, k, step));
    }
  }

  lemma JoinsAccounted(c: Cell, d: Cell)
    requires Accounted(c) && c.actors <= d.actors && d.jobs == c.jobs && d.mem.row.uploadJob == c.mem.row.uploadJob
    requires forall k :: |c.actors| <= k < |d.actors| ==> Knows(d.actors[k], d.jobs)
    ensures Accounted(d)
  {
    forall k | 0 <= k < |d.actors| ensures Knows(d.actors[k], d.jobs) {
      assert k < |c.actors| ==> Knows(c.actors[k], c.jobs);
    }
    forall j | 0 <= j < |d.jobs| && !Done(d.jobs[j]) && d.mem.row.uploadJob != Some(j) ensures InHands(d.actors, j) {
      var k :| 0 <= k < |c.actors| && Touches(c.actors[k], j);
      assert Touches(d.actors[k], j);
    }
  }

  lemma BeginAccounted(c: Cell, step: BeginStep)
    requires Accounted(c) && WellNamed(Some(c.mem.row), |c.jobs|) && BeginEnabled(c, step)
    ensures Accounted(BeginApply(c, step))
  {
    hide Accounted;
    JoinsAccounted(c, BeginApply(c, step));
  }

  lemma WorldAccounted(c: Cell, step: WorldStep)
    requires Accounted(c) && WorldEnabled(c, step)
    ensures Accounted(WorldApply(c, step))
  {
    if !step.Crash? {
      hide Accounted;
      JoinsAccounted(c, WorldApply(c, step));
    }
  }

  lemma FetchAccounted(c: Cell, k: nat, step: FetchStep)
    requires Accounted(c) && k < |c.actors| && MoverNamed(c, k)
    requires c.actors[k].Working? && FetchEnabled(c.actors[k].work, c, step)
    ensures Accounted(FetchApply(c, k, step))
  {
    hide Accounted, MoverNamed;
    WorkAccounted(c, k, FetchApply(c, k, step));
  }

  lemma SettleAccounted(c: Cell, k: nat, step: SettleStep)
    requires Accounted(c) && k < |c.actors| && MoverNamed(c, k)
    requires c.actors[k].Working? && SettleEnabled(c.actors[k].work, c, k, step)
    ensures Accounted(SettleApply(c, k, step))
  {
    hide Accounted, MoverNamed;
    WorkAccounted(c, k, SettleApply(c, k, step));
  }

  lemma PartAccounted(c: Cell, k: nat, step: PartStep)
    requires Accounted(c) && k < |c.actors| && MoverNamed(c, k)
    requires c.actors[k].Working? && PartEnabled(c.actors[k].work, step)
    ensures Accounted(PartApply(c, k, step))
  {
    hide Accounted, MoverNamed;
    WorkAccounted(c, k, PartApply(c, k, step));
  }

  lemma StepKeepsAccounted(c: Cell, step: Step)
    requires Base(c.mem, c.actors) && Named(c) && Accounted(c) && Enabled(c, step)
    ensures Accounted(Apply(c, step))
  {
    assert WellNamed(Some(c.mem.row), |c.jobs|);
    hide Base, Named, Accounted, MoverNamed;
    match step {
      case Begin(b) => BeginAccounted(c, b);
      case World(w) => WorldAccounted(c, w);
      case Push(k, p) => MoverIsNamed(c, k); PushAccounted(c, k, p);
      case Clean(k, t) => MoverIsNamed(c, k); CleanAccounted(c, k, t);
      case Fetch(k, f) => MoverIsNamed(c, k); FetchAccounted(c, k, f);
      case Settle(k, t) => MoverIsNamed(c, k); SettleAccounted(c, k, t);
      case Part(k, p) => MoverIsNamed(c, k); PartAccounted(c, k, p);
      case Unreserve(k) => MovesAccounted(c, k, Apply(c, step));
    }
  }

  lemma StepKeepsNamed(c: Cell, step: Step)
    requires Base(c.mem, c.actors) && Durable(c) && Named(c) && Enabled(c, step)
    ensures Named(Apply(c, step))
  {
    hide Base, Durable, Named;
    match step {
      case Fetch(k, f) => FetchKeepsNamed(c, k, f);
      case Push(k, p) => PushKeepsNamed(c, k, p);
      case Settle(k, t) => SettleKeepsNamed(c, k, t);
      case Part(k, p) => PartKeepsNamed(c, k, p);
      case Clean(k, t) => CleanKeepsNamed(c, k, t);
      case Unreserve(k) => UnreserveKeepsNamed(c, k);
      case Begin(b) => BeginKeepsNamed(c, b);
      case World(w) => WorldKeepsNamed(c, w);
    }
  }

  lemma UnreserveKeepsNamed(c: Cell, k: nat)
    requires Named(c) && k < |c.actors| && c.actors[k].Released?
    ensures Named(Ends(c, k, Gone, c.mem))
  {
  }

  ghost predicate Sound(c: Cell) {
    Base(c.mem, c.actors) && Durable(c) && Named(c)
  }

  lemma StepKeepsSound(c: Cell, step: Step)
    requires Sound(c) && Enabled(c, step)
    ensures Sound(Apply(c, step))
  {
    hide Base, Durable, Named;
    StepKeepsBase(c, step);
    StepKeepsDurable(c, step);
    StepKeepsNamed(c, step);
  }

  lemma {:induction false} RunKeepsAccounted(cells: seq<Cell>, steps: seq<Step>, i: nat)
    requires IsRun(cells, steps) && Fresh(cells[0]) && i < |cells|
    ensures Sound(cells[i]) && Accounted(cells[i])
  {
    if i == 0 {
      FreshHasBase(cells[0]);
    } else {
      RunKeepsAccounted(cells, steps, i - 1);
      hide Base, Durable, Named, Accounted;
      StepKeepsSound(cells[i - 1], steps[i - 1]);
      StepKeepsAccounted(cells[i - 1], steps[i - 1]);
    }
  }

  // ----- clean hands, while no commit is lost track of

  predicate Abortable(job: Job) {
    !job.committed && (job.aborts == 0 || job.restored || job.revived)
  }

  predicate HandsAreClean(pc: Pc, k: nat, jobs: seq<Job>, epoch: nat) {
    && (Uploads(pc).Some? && Uploads(pc).value < |jobs| ==>
          jobs[Uploads(pc).value] == Job(false, false, 0, false, false, false, false, k, epoch))
    && (Holds(pc).Some? && Holds(pc).value < |jobs| ==> !jobs[Holds(pc).value].committed)
    && (pc.Tidying? && (pc.chore.CAborting? || pc.chore.RAborting?) && pc.chore.job < |jobs| ==> Abortable(jobs[pc.chore.job]))
  }

  predicate JobIsClean(job: Job) {
    (job.committed ==> !job.aborted) && (job.aborts >= 2 ==> job.restored || job.revived)
  }

  /** The worker whose upload the drive has just committed. */
  predicate JustLanded(m: Mem, actors: seq<Pc>, j: nat) {
    m.run.Some? && m.run.value.who < |actors| && actors[m.run.value.who] == Working(Landed(j))
  }

  predicate RowIsClean(m: Mem, actors: seq<Pc>, jobs: seq<Job>) {
    m.row.uploadJob.Some? && m.row.uploadJob.value < |jobs| ==>
      Abortable(jobs[m.row.uploadJob.value]) || JustLanded(m, actors, m.row.uploadJob.value)
  }

  ghost predicate Spotless(c: Cell) {
    && RowIsClean(c.mem, c.actors, c.jobs)
    && (forall k :: 0 <= k < |c.actors| ==> HandsAreClean(c.actors[k], k, c.jobs, c.epoch))
    && (forall j :: 0 <= j < |c.jobs| ==> JobIsClean(c.jobs[j]))
  }

  /** Goroutine k moves and touches at most the one job. */
  lemma MovesClean(c: Cell, k: nat, d: Cell, touched: Option<nat>)
    requires Spotless(c) && k < |c.actors| == |d.actors| && d.epoch == c.epoch && |c.jobs| == |d.jobs|
    requires forall l :: 0 <= l < |c.actors| && l != k ==> d.actors[l] == c.actors[l]
    requires forall j :: 0 <= j < |c.jobs| && touched != Some(j) ==> d.jobs[j] == c.jobs[j]
    requires touched.Some? ==> forall l :: 0 <= l < |c.actors| && l != k ==>
      Uploads(c.actors[l]) != touched && Holds(c.actors[l]) != touched
    requires touched.Some? && touched.value < |d.jobs| ==> JobIsClean(d.jobs[touched.value])
    requires HandsAreClean(d.actors[k], k, d.jobs, d.epoch) && RowIsClean(d.mem, d.actors, d.jobs)
    ensures Spotless(d)
  {
    forall l | 0 <= l < |d.actors| ensures HandsAreClean(d.actors[l], l, d.jobs, d.epoch) {
      assert HandsAreClean(c.actors[l], l, c.jobs, c.epoch);
    }
  }

  /** A worker's step that has to do with no job. */
  lemma AsideClean(c: Cell, k: nat, d: Cell)
    requires Spotless(c) && k < |c.actors| == |d.actors| && MoverNamed(c, k) && c.actors[k].Working?
    requires OnRow(c.actors[k]).None? && d.jobs == c.jobs && d.epoch == c.epoch
    requires d.actors == c.actors[k := d.actors[k]]
    requires Uploads(d.actors[k]).None? && Holds(d.actors[k]).None? && !d.actors[k].Tidying?
    requires d.mem.row.uploadJob == c.mem.row.uploadJob || d.mem.row.uploadJob.None?
    ensures Spotless(d)
  {
    hide Spotless, RowIsClean, JobIsClean;
    assert RowIsClean(d.mem, d.actors, d.jobs) by { NoJobIsClean(d.mem, d.actors, d.jobs); }
    MovesClean(c, k, d, None);
  }

  lemma NoJobIsClean(m: Mem, actors: seq<Pc>, jobs: seq<Job>)
    requires m.row.uploadJob.None?
    ensures RowIsClean(m, actors, jobs)
  {
  }

  lemma FetchKeepsClean(c: Cell, k: nat, step: FetchStep)
    requires Spotless(c) && k < |c.actors| && MoverNamed(c, k)
    requires c.actors[k].Working? && FetchEnabled(c.actors[k].work, c, step)
    ensures Spotless(FetchApply(c, k, step))
  {
    hide Spotless, MoverNamed;
    AsideClean(c, k, FetchApply(c, k, step));
  }

  lemma SettleKeepsClean(c: Cell, k: nat, step: SettleStep)
    requires Spotless(c) && k < |c.actors| && MoverNamed(c, k)
    requires c.actors[k].Working? && SettleEnabled(c.actors[k].work, c, k, step)
    ensures Spotless(SettleApply(c, k, step))
  {
    hide Spotless, MoverNamed;
    AsideClean(c, k, SettleApply(c, k, step));
  }

  lemma PartKeepsClean(c: Cell, k: nat, step: PartStep)
    requires Spotless(c) && k < |c.actors| && MoverNamed(c, k)
    requires c.actors[k].Working? && PartEnabled(c.actors[k].work, step)
    ensures Spotless(PartApply(c, k, step))
  {
    hide Spotless, MoverNamed;
    AsideClean(c, k, PartApply(c, k, step));
  }

  lemma OpeningKeepsClean(c: Cell, k: nat, step: PushStep)
    requires Base(c.mem, c.actors) && Named(c) && Spotless(c) && k < |c.actors| && c.actors[k] == Working(Opening)
    requires step.HostOpens? || step.OpenReplyLost?
    ensures Spotless(PushApply(c, k, step))
  {
    var d := PushApply(c, k, step);
    WorkerHolds(c.mem, c.actors, k);
    WorkerHasTheRow(c.mem, c.actors, k);
    hide Base;
    assert ActorNamed(c.mem, c.actors[k], |c.jobs|);
    forall l | 0 <= l < |d.actors| ensures HandsAreClean(d.actors[l], l, d.jobs, d.epoch) {
      assert l != k ==> HandsAreClean(c.actors[l], l, c.jobs, c.epoch) && ActorNamed(c.mem, c.actors[l], |c.jobs|);
    }
    forall j | 0 <= j < |d.jobs| ensures JobIsClean(d.jobs[j]) {
      if j < |c.jobs| { assert JobIsClean(c.jobs[j]); }
    }
  }

  /** The worker deals with the one job it uploads to. */
  lemma UploadingKeepsClean(c: Cell, k: nat, step: PushStep)
    requires Base(c.mem, c.actors) && Spotless(c) && k < |c.actors| && MoverNamed(c, k)
    requires c.actors[k].Working? && PushEnabled(c.actors[k].work, step)
    requires step.RecordJob? || step.HostCommits? || step.ForgetJob? || step.SendFailed? || step.HostAborts?
    ensures Spotless(PushApply(c, k, step))
  {
    WorkerHasTheRow(c.mem, c.actors, k);
    var d, j := PushApply(c, k, step), c.actors[k].work.job;
    assert HandsAreClean(c.actors[k], k, c.jobs, c.epoch) && JobIsClean(c.jobs[j]);
    assert HandsAreClean(d.actors[k], k, d.jobs, d.epoch) && RowIsClean(d.mem, d.actors, d.jobs);
    assert JobIsClean(d.jobs[j]);
    hide Base, Spotless, HandsAreClean, RowIsClean, JobIsClean, MoverNamed;
    MovesClean(c, k, d, Some(j));
  }

  lemma PushKeepsClean(c: Cell, k: nat, step: PushStep)
    requires Base(c.mem, c.actors) && Named(c) && Spotless(c) && !step.ReplyLost? && k < |c.actors|
    requires c.actors[k].Working? && PushEnabled(c.actors[k].work, step)
    ensures Spotless(PushApply(c, k, step))
  {
    MoverIsNamed(c, k);
    hide Base, Named, Spotless, MoverNamed;
    match step {
      case HostOpens => OpeningKeepsClean(c, k, step);
      case OpenReplyLost => OpeningKeepsClean(c, k, step);
      case CheckStop => AsideClean(c, k, PushApply(c, k, step));
      case SetFinishing => AsideClean(c, k, PushApply(c, k, step));
      case OtherStep => UploadingKeepsClean(c, k, step);
    }
  }

  /** The hands of others are empty when this goroutine's are not. */
  lemma OthersAreEmpty(c: Cell, k: nat)
    requires Named(c) && k < |c.actors| && Holds(c.actors[k]).Some?
    ensures c.mem.row.uploadJob.None? && forall l :: 0 <= l < |c.actors| && l != k ==> Holds(c.actors[l]).None?
  {
    assert ActorNamed(c.mem, c.actors[k], |c.jobs|);
  }

  lemma HostAbortKeepsClean(c: Cell, k: nat, step: CleanStep)
    requires Base(c.mem, c.actors) && Named(c) && Spotless(c) && k < |c.actors| && c.actors[k].Tidying?
    requires CleanEnabled(c.actors[k].chore, c, step) && (step.CancelHostAborts? || step.RetryHostAborts?)
    ensures Spotless(CleanApply(c, k, step))
  {
    NobodyWorks(c.mem, c.actors, k);
    OthersAreEmpty(c, k);
    var d, j := CleanApply(c, k, step), c.actors[k].chore.job;
    assert ActorNamed(c.mem, c.actors[k], |c.jobs|) && HandsAreClean(c.actors[k], k, c.jobs, c.epoch);
    assert JobIsClean(c.jobs[j]);
    assert HandsAreClean(d.actors[k], k, d.jobs, d.epoch) && RowIsClean(d.mem, d.actors, d.jobs);
    assert JobIsClean(d.jobs[j]);
    hide Base, Named, Spotless, HandsAreClean, RowIsClean, JobIsClean;
    MovesClean(c, k, d, Some(j));
  }

  lemma RestoringKeepsClean(c: Cell, k: nat)
    requires Base(c.mem, c.actors) && Named(c) && Spotless(c) && k < |c.actors| && c.actors[k].Tidying?
    requires c.actors[k].chore.RResult?
    ensures Spotless(CleanApply(c, k, RetryFinishes))
  {
    NobodyWorks(c.mem, c.actors, k);
    var d, j := CleanApply(c, k, RetryFinishes), c.actors[k].chore.job;
    assert ActorNamed(c.mem, c.actors[k], |c.jobs|) && HandsAreClean(c.actors[k], k, c.jobs, c.epoch);
    if c.actors[k].chore.aborted {
      assert RowIsClean(d.mem, d.actors, d.jobs);
      hide Base, Named, Spotless, RowIsClean, JobIsClean;
      MovesClean(c, k, d, None);
    } else {
      OthersAreEmpty(c, k);
      assert JobIsClean(c.jobs[j]) && JobIsClean(d.jobs[j]) && RowIsClean(d.mem, d.actors, d.jobs);
      hide Base, Named, Spotless, RowIsClean, JobIsClean;
      MovesClean(c, k, d, Some(j));
    }
  }

  /** A leftover job that a cleaner takes off the row may be aborted. */
  lemma TakingKeepsClean(c: Cell, k: nat, job: nat, chore: Chore)
    requires Base(c.mem, c.actors) && Spotless(c) && k < |c.actors| && c.actors[k].Tidying?
    requires OwnsRow(c.actors[k].chore)
    requires c.mem.row.uploadJob == Some(job) && (chore == CAborting(job) || chore == RAborting(job))
    ensures Spotless(Tidies(c, k, chore, TakeJob(c.mem, job)))
  {
    NobodyWorks(c.mem, c.actors, k);
    var d := Tidies(c, k, chore, TakeJob(c.mem, job));
    assert RowIsClean(c.mem, c.actors, c.jobs);
    assert HandsAreClean(d.actors[k], k, d.jobs, d.epoch);
    NoJobIsClean(d.mem, d.actors, d.jobs);
    hide Base, Spotless, RowIsClean, JobIsClean, HandsAreClean;
    MovesClean(c, k, d, None);
  }

  /** A cleaner's step that has to do with no job. */
  lemma TidyKeepsClean(c: Cell, k: nat, d: Cell)
    requires Spotless(c) && k < |c.actors| == |d.actors| && c.actors[k].Tidying?
    requires d.actors == c.actors[k := d.actors[k]]
    requires !d.actors[k].Working? && Holds(d.actors[k]).None? && d.jobs == c.jobs && d.epoch == c.epoch
    requires d.mem.row.uploadJob == c.mem.row.uploadJob && d.mem.run == c.mem.run
    ensures Spotless(d)
  {
    assert RowIsClean(d.mem, d.actors, d.jobs);
    hide Spotless, RowIsClean, JobIsClean;
    MovesClean(c, k, d, None);
  }

  lemma TidyLeavesJobs(c: Cell, k: nat, step: CleanStep)
    requires k < |c.actors| && c.actors[k].Tidying? && CleanEnabled(c.actors[k].chore, c, step)
    requires !step.CancelHostAborts? && !step.RetryHostAborts? && !step.RetryFinishes? && !step.RetryAborts?
    requires step.CancelAborts? && c.actors[k].chore.left.Some? ==> c.mem.row.uploadJob != c.actors[k].chore.left
    ensures var d := CleanApply(c, k, step);
      && d.actors == c.actors[k := d.actors[k]] && !d.actors[k].Working? && Holds(d.actors[k]).None?
      && d.jobs == c.jobs && d.epoch == c.epoch && d.mem.row.uploadJob == c.mem.row.uploadJob && d.mem.run == c.mem.run
  {
  }

  lemma OtherKeepsClean(c: Cell, k: nat, step: CleanStep)
    requires Base(c.mem, c.actors) && Named(c) && Spotless(c) && k < |c.actors| && c.actors[k].Tidying?
    requires CleanEnabled(c.actors[k].chore, c, step)
    requires !step.CancelHostAborts? && !step.RetryHostAborts? && !step.RetryFinishes?
    ensures Spotless(CleanApply(c, k, step))
  {
    assert ActorNamed(c.mem, c.actors[k], |c.jobs|);
    hide Base, Named, Spotless, ActorNamed;
    var t := c.actors[k].chore;
    if t.RAbort? {
      RetryNamesItsJob(c.mem, t.job, |c.jobs|);
      TakingKeepsClean(c, k, t.job, RAborting(t.job));
    } else if t.CAbort? && t.left.Some? && c.mem.row.uploadJob == t.left {
      TakingKeepsClean(c, k, t.left.value, CAborting(t.left.value));
    } else {
      TidyLeavesJobs(c, k, step);
      hide CleanApply;
      TidyKeepsClean(c, k, CleanApply(c, k, step));
    }
  }

  lemma CleanKeepsClean(c: Cell, k: nat, step: CleanStep)
    requires Base(c.mem, c.actors) && Named(c) && Spotless(c) && k < |c.actors| && c.actors[k].Tidying?
    requires CleanEnabled(c.actors[k].chore, c, step)
    ensures Spotless(CleanApply(c, k, step))
  {
    hide Base, Named, Spotless, CleanApply;
    if step.CancelHostAborts? || step.RetryHostAborts? {
      HostAbortKeepsClean(c, k, step);
    } else if step.RetryFinishes? {
      RestoringKeepsClean(c, k);
    } else {
      OtherKeepsClean(c, k, step);
    }
  }

  /** A goroutine joins that has no job in its hands. */
  lemma JoinsClean(c: Cell, d: Cell)
    requires Spotless(c) && c.actors <= d.actors && d.jobs == c.jobs && d.epoch == c.epoch
    requires d.mem.row.uploadJob == c.mem.row.uploadJob
    requires c.mem.run.Some? && c.mem.run.value.who < |c.actors| ==> d.mem.run.Some? && d.mem.run.value.who == c.mem.run.value.who
    requires forall k :: |c.actors| <= k < |d.actors| ==> Uploads(d.actors[k]).None? && Holds(d.actors[k]).None?
    ensures Spotless(d)
  {
    forall k | 0 <= k < |d.actors| ensures HandsAreClean(d.actors[k], k, d.jobs, d.epoch) {
      assert k < |c.actors| ==> HandsAreClean(c.actors[k], k, c.jobs, c.epoch);
    }
    assert RowIsClean(d.mem, d.actors, d.jobs);
  }

  lemma BeginKeepsClean(c: Cell, step: BeginStep)
    requires Base(c.mem, c.actors) && Spotless(c) && BeginEnabled(c, step)
    ensures Spotless(BeginApply(c, step))
  {
    RunIsEmployed(c.mem, c.actors);
    hide Base, Spotless;
    JoinsClean(c, BeginApply(c, step));
  }

  /** A stored row that names a job the drive has committed. */
  predicate Stale(c: Cell, now: int) {
    c.stored.Some? && var job := Loaded(c, now).uploadJob; job.Some? && job.value < |c.jobs| && c.jobs[job.value].committed
  }

  lemma WorldKeepsClean(c: Cell, step: WorldStep)
    requires Spotless(c) && WorldEnabled(c, step) && (step.Crash? ==> !Stale(c, step.now))
    ensures Spotless(WorldApply(c, step))
  {
    if step.Crash? {
      var d := WorldApply(c, step);
      forall j | 0 <= j < |d.jobs| ensures JobIsClean(d.jobs[j]) {
        assert JobIsClean(c.jobs[j]);
      }
    }
  }

  /** A lost reply to CompleteUpload, and a restart that brings back a row naming a job
      committed since, are the two ways to lose track of a commit. */
  predicate Orderly(c: Cell, step: Step) {
    && !(step.Push? && step.push.ReplyLost?)
    && (Restarts(step) ==> !Stale(c, step.world.now))
  }

  lemma StepKeepsClean(c: Cell, step: Step)
    requires Base(c.mem, c.actors) && Named(c) && Spotless(c) && Enabled(c, step) && Orderly(c, step)
    ensures Spotless(Apply(c, step))
  {
    hide Base, Named, Spotless, MoverNamed;
    match step {
      case Fetch(k, f) => MoverIsNamed(c, k); FetchKeepsClean(c, k, f);
      case Push(k, p) => PushKeepsClean(c, k, p);
      case Settle(k, t) => MoverIsNamed(c, k); SettleKeepsClean(c, k, t);
      case Part(k, p) => MoverIsNamed(c, k); PartKeepsClean(c, k, p);
      case Clean(k, t) => CleanKeepsClean(c, k, t);
      case Unreserve(k) => UnreserveKeepsClean(c, k);
      case Begin(b) => BeginKeepsClean(c, b);
      case World(w) => WorldKeepsClean(c, w);
    }
  }

  lemma UnreserveKeepsClean(c: Cell, k: nat)
    requires Spotless(c) && k < |c.actors| && c.actors[k].Released?
    ensures Spotless(Ends(c, k, Gone, c.mem))
  {
  }
}
