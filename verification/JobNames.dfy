/** Where an upload job may be named: on the row, in one goroutine's hands, in stored
    snapshots. Holds in every run, whatever replies are lost and however it restarts. */
module JobNames {
  import opened Wrappers
  import opened Items
  import opened Lifecycle
  import opened Delivery

  /** The job a worker is uploading to, from opening it to its end. */
  function Uploads(pc: Pc): Option<nat> {
    if pc.Working? && (pc.work.Opened? || pc.work.Sending? || pc.work.Aborting?) then Some(pc.work.job) else None
  }

  /** The job a worker has on the row. */
  function OnRow(pc: Pc): Option<nat> {
    if pc.Working? && (pc.work.Sending? || pc.work.Landed?) then Some(pc.work.job) else None
  }

  /** The job in a goroutine's own hands, off the row. */
  function Holds(pc: Pc): Option<nat> {
    if pc.Working? && (pc.work.Opened? || pc.work.Aborting?) then Some(pc.work.job)
    else if pc.Tidying? && (pc.chore.CAborting? || pc.chore.RAborting? || (pc.chore.RResult? && !pc.chore.aborted))
    then Some(pc.chore.job)
    else None
  }

  predicate Retrying(pc: Pc) {
    pc.Tidying? && (pc.chore.RAbort? || pc.chore.RAborting? || pc.chore.RResult?)
  }

  /** A worker that has not come to mark the row as finishing. */
  predicate Early(work: Work) {
    work.Claimed? || work.Staging? || work.Ready? || work.Opening? || work.Opened? || work.Sending? || work.Landed?
    || work.Uploaded? || work.Accepted?
  }

  predicate Below(job: Option<nat>, n: nat) {
    job.Some? ==> job.value < n
  }

  /** A waiting row, and one that records its delivery, name no job. */
  predicate WellNamed(copy: Option<Row>, n: nat) {
    copy.Some? ==>
      && Below(copy.value.uploadJob, n)
      && (copy.value.state.Pending? || RecordsDelivery(copy.value) ==> copy.value.uploadJob.None?)
  }

  predicate ActorNamed(m: Mem, pc: Pc, n: nat) {
    && Below(Uploads(pc), n) && Below(OnRow(pc), n) && Below(Holds(pc), n)
    && (Holds(pc).Some? ==> m.row.uploadJob.None?)
    && (pc.Working? ==> m.row.uploadJob == OnRow(pc))
    && (pc.Working? && Early(pc.work) ==> !(m.row.state.Running? && m.row.stage.Finishing?))
    && (Retrying(pc) ==> !m.row.state.Pending?)
    && (Retrying(pc) ==> m.row.uploadJob == if pc.chore.RAbort? then Some(pc.chore.job) else None)
  }

  /** One pair of hands, and a Retry that deals with an old job has the row to itself. */
  ghost predicate Apart(actors: seq<Pc>) {
    forall k, l :: 0 <= k < |actors| && 0 <= l < |actors| && k != l ==>
      && (Holds(actors[k]).Some? ==> Holds(actors[l]).None?)
      && (Retrying(actors[k]) ==> !HoldsMark(actors[l]))
  }

  ghost predicate Named(c: Cell) {
    && WellNamed(Some(c.mem.row), |c.jobs|) && WellNamed(c.stored, |c.jobs|)
    && (c.writing.Some? ==> WellNamed(c.writing.value.row, |c.jobs|))
    && (forall k :: 0 <= k < |c.actors| ==> ActorNamed(c.mem, c.actors[k], |c.jobs|))
    && Apart(c.actors)
  }

  /** While there is a worker nobody else works, and no cleaner owns the row. */
  lemma WorkerHasTheRow(m: Mem, actors: seq<Pc>, k: nat)
    requires Base(m, actors) && k < |actors| && actors[k].Working?
    ensures forall l :: 0 <= l < |actors| && l != k ==>
              && !actors[l].Working? && Uploads(actors[l]).None? && OnRow(actors[l]).None? && Holds(actors[l]).None?
              && !Retrying(actors[l])
  {
    WorkerHolds(m, actors, k);
    forall l | 0 <= l < |actors| && l != k
      ensures !actors[l].Working? && Uploads(actors[l]).None? && OnRow(actors[l]).None? && Holds(actors[l]).None?
      ensures !Retrying(actors[l])
    {
      OthersArePolite(m, actors, l);
    }
  }

  /** A cleaner that owns the row has no worker beside it. */
  lemma NobodyWorks(m: Mem, actors: seq<Pc>, k: nat)
    requires Base(m, actors) && k < |actors| && actors[k].Tidying? && OwnsRow(actors[k].chore)
    ensures m.run.None? && !m.row.state.Running?
    ensures forall l :: 0 <= l < |actors| ==> !actors[l].Working? && Uploads(actors[l]).None? && OnRow(actors[l]).None?
  {
    OthersArePolite(m, actors, k);
  }

  /** The worker's step, given what holds of it afterwards. */
  lemma WorkerRenames(c: Cell, k: nat, d: Cell)
    requires Base(c.mem, c.actors) && Named(c) && k < |c.actors| && c.actors[k].Working?
    requires |d.actors| == |c.actors| && |c.jobs| <= |d.jobs|
    requires forall l :: 0 <= l < |c.actors| && l != k ==> d.actors[l] == c.actors[l]
    requires WellNamed(Some(d.mem.row), |d.jobs|) && ActorNamed(d.mem, d.actors[k], |d.jobs|) && !Retrying(d.actors[k])
    requires WellNamed(d.stored, |d.jobs|) && (d.writing.Some? ==> WellNamed(d.writing.value.row, |d.jobs|))
    ensures Named(d)
  {
    WorkerHasTheRow(c.mem, c.actors, k);
    hide Base, WellNamed;
    forall l | 0 <= l < |d.actors| ensures ActorNamed(d.mem, d.actors[l], |d.jobs|) {}
  }

  lemma Kept(c: Cell, d: Cell)
    requires Named(c) && |c.jobs| <= |d.jobs| && d.stored == c.stored && d.writing == c.writing
    ensures WellNamed(d.stored, |d.jobs|) && (d.writing.Some? ==> WellNamed(d.writing.value.row, |d.jobs|))
  {
  }

  /** All that a worker's step needs to know. */
  predicate WorkerNamed(c: Cell, k: nat)
    requires k < |c.actors|
  {
    && c.actors[k].Working? && c.mem.run.Some? && Employed(c.mem, c.actors[k])
    && ActorNamed(c.mem, c.actors[k], |c.jobs|) && WellNamed(Some(c.mem.row), |c.jobs|)
  }

  lemma WorkerIsNamed(c: Cell, k: nat)
    requires Base(c.mem, c.actors) && Named(c) && k < |c.actors| && c.actors[k].Working?
    ensures WorkerNamed(c, k)
  {
    WorkerHolds(c.mem, c.actors, k);
  }

  predicate Renamed(d: Cell, k: nat)
    requires k < |d.actors|
  {
    WellNamed(Some(d.mem.row), |d.jobs|) && ActorNamed(d.mem, d.actors[k], |d.jobs|) && !Retrying(d.actors[k])
  }

  lemma FetchRenames(c: Cell, k: nat, step: FetchStep)
    requires k < |c.actors| && WorkerNamed(c, k) && FetchEnabled(c.actors[k].work, c, step)
    ensures var d := FetchApply(c, k, step); Renamed(d, k) && |c.jobs| <= |d.jobs|
  {
  }

  lemma FetchKeepsNamed(c: Cell, k: nat, step: FetchStep)
    requires Base(c.mem, c.actors) && Named(c)
    requires k < |c.actors| && c.actors[k].Working? && FetchEnabled(c.actors[k].work, c, step)
    ensures Named(FetchApply(c, k, step))
  {
    WorkerIsNamed(c, k);
    FetchRenames(c, k, step);
    var d := FetchApply(c, k, step);
    Kept(c, d);
    hide Base, Named, ActorNamed, WellNamed, WorkerNamed;
    WorkerRenames(c, k, d);
  }

  lemma SendingRenames(c: Cell, k: nat, step: PushStep)
    requires k < |c.actors| && WorkerNamed(c, k) && PushEnabled(c.actors[k].work, step)
    requires step.HostCommits? || step.ReplyLost? || step.ForgetJob? || step.SendFailed?
    ensures var d := PushApply(c, k, step); Renamed(d, k) && |c.jobs| <= |d.jobs|
  {
  }

  lemma AsideRenames(c: Cell, k: nat, step: PushStep)
    requires k < |c.actors| && WorkerNamed(c, k) && PushEnabled(c.actors[k].work, step)
    requires step.HostOpens? || step.OpenReplyLost? || step.RecordJob? || step.HostAborts? || step.CheckStop? || step.SetFinishing?
    ensures var d := PushApply(c, k, step); Renamed(d, k) && |c.jobs| <= |d.jobs|
  {
  }

  lemma PushRenames(c: Cell, k: nat, step: PushStep)
    requires k < |c.actors| && WorkerNamed(c, k) && PushEnabled(c.actors[k].work, step)
    ensures var d := PushApply(c, k, step); Renamed(d, k) && |c.jobs| <= |d.jobs|
  {
    hide PushApply, WorkerNamed;
    if step.HostOpens? || step.OpenReplyLost? || step.RecordJob? || step.HostAborts? || step.CheckStop? || step.SetFinishing? {
      AsideRenames(c, k, step);
    } else {
      SendingRenames(c, k, step);
    }
  }

  lemma PushKeepsNamed(c: Cell, k: nat, step: PushStep)
    requires Base(c.mem, c.actors) && Named(c)
    requires k < |c.actors| && c.actors[k].Working? && PushEnabled(c.actors[k].work, step)
    ensures Named(PushApply(c, k, step))
  {
    WorkerIsNamed(c, k);
    PushRenames(c, k, step);
    var d := PushApply(c, k, step);
    Kept(c, d);
    hide Base, Named, ActorNamed, WellNamed, WorkerNamed;
    WorkerRenames(c, k, d);
  }

  lemma CompletingRenames(c: Cell, k: nat, step: SettleStep)
    requires k < |c.actors| && WorkerNamed(c, k) && SettleEnabled(c.actors[k].work, c, k, step)
    requires step.CompleteLock? || step.PersistTakes? || step.PersistOk? || step.PersistFailed?
    ensures var d := SettleApply(c, k, step); Renamed(d, k) && |c.jobs| <= |d.jobs|
  {
  }

  lemma LeavingRenames(c: Cell, k: nat, step: SettleStep)
    requires k < |c.actors| && WorkerNamed(c, k) && SettleEnabled(c.actors[k].work, c, k, step)
    requires step.CompleteUnmark? || step.EraseOriginal? || step.NoteErased? || step.Depart? || step.AfterRefusal?
    ensures var d := SettleApply(c, k, step); Renamed(d, k) && |c.jobs| <= |d.jobs|
  {
  }

  lemma SettleRenames(c: Cell, k: nat, step: SettleStep)
    requires k < |c.actors| && WorkerNamed(c, k) && SettleEnabled(c.actors[k].work, c, k, step)
    ensures var d := SettleApply(c, k, step); Renamed(d, k) && |c.jobs| <= |d.jobs|
  {
    hide SettleApply, WorkerNamed;
    if step.CompleteLock? || step.PersistTakes? || step.PersistOk? || step.PersistFailed? {
      CompletingRenames(c, k, step);
    } else {
      LeavingRenames(c, k, step);
    }
  }

  lemma CopiesAreNamed(c: Cell, k: nat, step: SettleStep)
    requires Named(c) && k < |c.actors| && c.actors[k].Working? && SettleEnabled(c.actors[k].work, c, k, step)
    ensures var d := SettleApply(c, k, step);
      WellNamed(d.stored, |d.jobs|) && (d.writing.Some? ==> WellNamed(d.writing.value.row, |d.jobs|))
  {
    hide ActorNamed, WellNamed, Apart, HoldsMark, Fits;
    assert WellNamed(None, |c.jobs|) by { NothingIsNamed(|c.jobs|); }
  }

  lemma NothingIsNamed(n: nat)
    ensures WellNamed(None, n)
  {
  }

  lemma SettleKeepsNamed(c: Cell, k: nat, step: SettleStep)
    requires Base(c.mem, c.actors) && Named(c)
    requires k < |c.actors| && c.actors[k].Working? && SettleEnabled(c.actors[k].work, c, k, step)
    ensures Named(SettleApply(c, k, step))
  {
    WorkerIsNamed(c, k);
    SettleRenames(c, k, step);
    var d := SettleApply(c, k, step);
    CopiesAreNamed(c, k, step);
    hide Base, Named, ActorNamed, WellNamed, WorkerNamed;
    WorkerRenames(c, k, d);
  }

  lemma PartRenames(c: Cell, k: nat, step: PartStep)
    requires k < |c.actors| && WorkerNamed(c, k) && PartEnabled(c.actors[k].work, step)
    ensures var d := PartApply(c, k, step); Renamed(d, k) && |c.jobs| <= |d.jobs|
  {
  }

  lemma PartKeepsNamed(c: Cell, k: nat, step: PartStep)
    requires Base(c.mem, c.actors) && Named(c)
    requires k < |c.actors| && c.actors[k].Working? && PartEnabled(c.actors[k].work, step)
    ensures Named(PartApply(c, k, step))
  {
    WorkerIsNamed(c, k);
    PartRenames(c, k, step);
    var d := PartApply(c, k, step);
    Kept(c, d);
    hide Base, Named, ActorNamed, WellNamed, WorkerNamed;
    WorkerRenames(c, k, d);
  }

  /** A cleaner's step, given that it changes nothing the others rely on. */
  lemma CleanerRenames(c: Cell, k: nat, d: Cell)
    requires Named(c) && k < |c.actors| && c.actors[k].Tidying? && |d.actors| == |c.actors| && |d.jobs| == |c.jobs|
    requires forall l :: 0 <= l < |c.actors| && l != k ==> d.actors[l] == c.actors[l]
    requires d.stored == c.stored && d.writing == c.writing
    requires WellNamed(Some(d.mem.row), |d.jobs|) && ActorNamed(d.mem, d.actors[k], |d.jobs|)
    requires forall l :: 0 <= l < |c.actors| && l != k ==> ActorNamed(d.mem, c.actors[l], |d.jobs|)
    requires Holds(d.actors[k]).Some? ==> forall l :: 0 <= l < |c.actors| && l != k ==> Holds(c.actors[l]).None?
    requires Retrying(d.actors[k]) ==> Retrying(c.actors[k])
    requires HoldsMark(d.actors[k]) ==> HoldsMark(c.actors[k])
    ensures Named(d)
  {
    hide WellNamed, ActorNamed, HoldsMark;
    forall l | 0 <= l < |d.actors| ensures ActorNamed(d.mem, d.actors[l], |d.jobs|) {}
  }

  /** A goroutine with no stake in the row's job, or a row that stays as it was for it. */
  lemma Unaffected(m: Mem, n: Mem, pc: Pc, jobs: nat)
    requires ActorNamed(m, pc, jobs)
    requires
      || (!pc.Working? && Holds(pc).None? && !Retrying(pc))
      || (n.row.uploadJob == m.row.uploadJob && n.row.state == m.row.state && n.row.stage == m.row.stage)
      || (n.row.uploadJob == m.row.uploadJob && n.row.state.Cancelled?)
    ensures ActorNamed(n, pc, jobs)
  {
  }

  /** A cleaner takes the leftover job off the row: nobody else has one in hand. */
  lemma TakingKeepsNamed(c: Cell, k: nat, job: nat, chore: Chore)
    requires Base(c.mem, c.actors) && Named(c) && k < |c.actors| && c.actors[k].Tidying?
    requires c.mem.row.uploadJob == Some(job)
    requires (c.actors[k].chore.CAbort? && chore == CAborting(job)) || (c.actors[k].chore == RAbort(job) && chore == RAborting(job))
    ensures Named(Tidies(c, k, chore, TakeJob(c.mem, job)))
  {
    NobodyWorks(c.mem, c.actors, k);
    var d := Tidies(c, k, chore, TakeJob(c.mem, job));
    assert ActorNamed(c.mem, c.actors[k], |c.jobs|) && WellNamed(Some(c.mem.row), |c.jobs|);
    forall l | 0 <= l < |c.actors| && l != k
      ensures ActorNamed(d.mem, c.actors[l], |d.jobs|) && Holds(c.actors[l]).None?
    {
      assert ActorNamed(c.mem, c.actors[l], |c.jobs|);
      assert HoldsMark(c.actors[k]) && !Retrying(c.actors[l]);
      Unaffected(c.mem, d.mem, c.actors[l], |d.jobs|);
    }
    hide Base, Named;
    CleanerRenames(c, k, d);
  }

  lemma RestoringKeepsNamed(c: Cell, k: nat)
    requires Base(c.mem, c.actors) && Durable(c) && Named(c)
    requires k < |c.actors| && c.actors[k].Tidying? && c.actors[k].chore.RResult?
    ensures Named(CleanApply(c, k, RetryFinishes))
  {
    NobodyWorks(c.mem, c.actors, k);
    var d := CleanApply(c, k, RetryFinishes);
    assert ActorNamed(c.mem, c.actors[k], |c.jobs|) && !c.mem.row.state.Complete?;
    forall l | 0 <= l < |c.actors| && l != k ensures ActorNamed(d.mem, c.actors[l], |d.jobs|) {
      assert ActorNamed(c.mem, c.actors[l], |c.jobs|);
      assert Retrying(c.actors[k]) && !HoldsMark(c.actors[l]);
      Unaffected(c.mem, d.mem, c.actors[l], |d.jobs|);
    }
    hide Base, Named, Durable, ActorNamed;
    assert Holds(d.actors[k]).None? && ActorNamed(d.mem, Gone, |d.jobs|) by { NobodyIsNamed(d.mem, |d.jobs|); }
    CleanerRenames(c, k, d);
  }

  lemma NobodyIsNamed(m: Mem, n: nat)
    ensures ActorNamed(m, Gone, n)
  {
  }

  /** A cleaner that leaves the row's job, state and stage alone. */
  lemma TidyKeepsNamed(c: Cell, k: nat, d: Cell)
    requires Named(c) && k < |c.actors| == |d.actors| && c.actors[k].Tidying? && |d.jobs| == |c.jobs|
    requires !d.actors[k].Working? && d.actors == c.actors[k := d.actors[k]]
    requires d.stored == c.stored && d.writing == c.writing
    requires d.mem.row.uploadJob == c.mem.row.uploadJob && d.mem.row.state == c.mem.row.state
    requires d.mem.row.stage == c.mem.row.stage
    requires d.actors[k].Tidying? ==>
      var s, t := c.actors[k].chore, d.actors[k].chore;
      && !s.FDiscard? && !t.FDiscard? && !t.RAbort? && !t.CAborting? && !t.RAborting?
      && (t.RResult? ==> (s.RAborting? && t.job == s.job) || (s.RAbort? && t.aborted && d.mem.row.uploadJob.None?))
    ensures Named(d)
  {
    assert ActorNamed(c.mem, c.actors[k], |c.jobs|);
    forall l | 0 <= l < |c.actors| && l != k ensures ActorNamed(d.mem, c.actors[l], |d.jobs|) {
      assert ActorNamed(c.mem, c.actors[l], |c.jobs|);
      Unaffected(c.mem, d.mem, c.actors[l], |d.jobs|);
    }
    assert Holds(d.actors[k]).Some? ==> Holds(c.actors[k]).Some?;
    CleanerRenames(c, k, d);
  }

  lemma OtherCleanKeepsNamed(c: Cell, k: nat, step: CleanStep)
    requires Named(c) && k < |c.actors| && c.actors[k].Tidying? && CleanEnabled(c.actors[k].chore, c, step)
    requires !step.CancelAborts? && !step.RetryAborts? && !step.RetryFinishes?
    ensures Named(CleanApply(c, k, step))
  {
    hide Named, Aborted;
    TidyKeepsNamed(c, k, CleanApply(c, k, step));
  }

  lemma AbortStartKeepsNamed(c: Cell, k: nat, step: CleanStep)
    requires Base(c.mem, c.actors) && Named(c) && k < |c.actors| && c.actors[k].Tidying?
    requires CleanEnabled(c.actors[k].chore, c, step) && (step.CancelAborts? || step.RetryAborts?)
    ensures Named(CleanApply(c, k, step))
  {
    assert ActorNamed(c.mem, c.actors[k], |c.jobs|);
    hide Base, Named, ActorNamed;
    var t := c.actors[k].chore;
    if t.RAbort? {
      assert c.mem.row.uploadJob == Some(t.job) by { RetryNamesItsJob(c.mem, t.job, |c.jobs|); }
      TakingKeepsNamed(c, k, t.job, RAborting(t.job));
    } else if t.left.Some? && c.mem.row.uploadJob == t.left {
      TakingKeepsNamed(c, k, t.left.value, CAborting(t.left.value));
    } else {
      TidyKeepsNamed(c, k, CleanApply(c, k, step));
    }
  }

  lemma RetryNamesItsJob(m: Mem, job: nat, n: nat)
    requires ActorNamed(m, Tidying(RAbort(job)), n)
    ensures m.row.uploadJob == Some(job)
  {
  }

  lemma CleanKeepsNamed(c: Cell, k: nat, step: CleanStep)
    requires Base(c.mem, c.actors) && Durable(c) && Named(c)
    requires k < |c.actors| && c.actors[k].Tidying? && CleanEnabled(c.actors[k].chore, c, step)
    ensures Named(CleanApply(c, k, step))
  {
    hide Base, Durable, Named, CleanApply;
    if step.RetryFinishes? {
      RestoringKeepsNamed(c, k);
    } else if step.CancelAborts? || step.RetryAborts? {
      AbortStartKeepsNamed(c, k, step);
    } else {
      OtherCleanKeepsNamed(c, k, step);
    }
  }

  /** A new goroutine that has no job yet. */
  lemma Joins(c: Cell, d: Cell)
    requires Named(c) && c.actors <= d.actors <= c.actors + d.actors[|c.actors|..] && |d.actors| <= |c.actors| + 1
    requires d.jobs == c.jobs && d.stored == c.stored && d.writing == c.writing
    requires WellNamed(Some(d.mem.row), |d.jobs|)
    requires forall k :: |c.actors| <= k < |d.actors| ==> ActorNamed(d.mem, d.actors[k], |d.jobs|) && Holds(d.actors[k]).None?
    requires forall k :: 0 <= k < |c.actors| ==> ActorNamed(d.mem, c.actors[k], |d.jobs|)
    requires forall k, l :: 0 <= k < |c.actors| <= l < |d.actors| ==>
      && (Retrying(c.actors[k]) ==> !HoldsMark(d.actors[l])) && (Retrying(d.actors[l]) ==> !HoldsMark(c.actors[k]))
    ensures Named(d)
  {
    hide WellNamed, ActorNamed, HoldsMark;
    forall k | 0 <= k < |c.actors| ensures d.actors[k] == c.actors[k] {}
  }

  /** Nobody at all is marked when no mark is counted. */
  lemma NobodyIsMarked(m: Mem, actors: seq<Pc>)
    requires Base(m, actors) && m.deleting == 0
    ensures forall k :: 0 <= k < |actors| ==> !HoldsMark(actors[k]) && !Retrying(actors[k])
  {
    forall k | 0 <= k < |actors| ensures !HoldsMark(actors[k]) {
      if HoldsMark(actors[k]) { MarkedRow(m, actors, k); }
    }
  }

  /** A cleaner with no job to name. */
  lemma NewcomerIsNamed(m: Mem, pc: Pc, n: nat)
    requires pc.Tidying? && !pc.chore.CAborting? && !pc.chore.RAbort? && !pc.chore.RAborting? && !pc.chore.RResult?
    ensures ActorNamed(m, pc, n) && !Retrying(pc)
  {
  }

  lemma CancelKeepsNamed(c: Cell, now: int)
    requires Base(c.mem, c.actors) && Named(c) && BeginEnabled(c, CancelRow(now))
    ensures Named(BeginApply(c, CancelRow(now)))
  {
    var d := BeginApply(c, CancelRow(now));
    if c.mem.run.None? {
      NobodyIsMarked(c.mem, c.actors);
    } else {
      RunIsEmployed(c.mem, c.actors);
      WorkerHasTheRow(c.mem, c.actors, c.mem.run.value.who);
    }
    assert forall k :: 0 <= k < |c.actors| ==> !Retrying(c.actors[k]);
    hide Base, Retrying;
    forall k | 0 <= k < |c.actors| ensures ActorNamed(d.mem, c.actors[k], |d.jobs|) {
      assert ActorNamed(c.mem, c.actors[k], |c.jobs|);
      Unaffected(c.mem, d.mem, c.actors[k], |d.jobs|);
    }
    assert ActorNamed(d.mem, d.actors[|c.actors|], |d.jobs|) && !Retrying(d.actors[|c.actors|]) by {
      NewcomerIsNamed(d.mem, d.actors[|c.actors|], |d.jobs|);
    }
    hide ActorNamed;
    Joins(c, d);
  }

  /** A new goroutine where nobody else is marked. */
  lemma JoinsUnmarked(c: Cell, d: Cell)
    requires Named(c) && c.actors <= d.actors && |d.actors| <= |c.actors| + 1
    requires forall k :: 0 <= k < |c.actors| ==> !HoldsMark(c.actors[k]) && !Retrying(c.actors[k])
    requires d.jobs == c.jobs && d.stored == c.stored && d.writing == c.writing
    requires WellNamed(Some(d.mem.row), |d.jobs|)
    requires |d.actors| > |c.actors| ==>
      ActorNamed(d.mem, d.actors[|c.actors|], |d.jobs|) && Holds(d.actors[|c.actors|]).None?
    requires forall k :: 0 <= k < |c.actors| ==> ActorNamed(d.mem, c.actors[k], |d.jobs|)
    ensures Named(d)
  {
    hide WellNamed, ActorNamed, HoldsMark, Retrying, Holds;
    Joins(c, d);
  }

  /** A step that starts on a row without marks. */
  lemma UnmarkedKeepsNamed(c: Cell, step: BeginStep)
    requires Base(c.mem, c.actors) && Named(c) && BeginEnabled(c, step)
    requires !step.CancelRow? && !step.DropRow? && !step.TakeNext? && !step.RetryRow?
    ensures Named(BeginApply(c, step))
  {
    NobodyIsMarked(c.mem, c.actors);
    hide Base, HoldsMark, Retrying;
    var d := BeginApply(c, step);
    forall k | 0 <= k < |c.actors| ensures ActorNamed(d.mem, c.actors[k], |d.jobs|) {
      Unaffected(c.mem, d.mem, c.actors[k], |d.jobs|);
    }
    assert ActorNamed(d.mem, d.actors[|c.actors|], |d.jobs|) by {
      NewcomerIsNamed(d.mem, d.actors[|c.actors|], |d.jobs|);
    }
    JoinsUnmarked(c, d);
  }

  /** A claim, or a retry, of a row nobody is at. */
  lemma StartKeepsNamed(c: Cell, step: BeginStep)
    requires Base(c.mem, c.actors) && Named(c) && BeginEnabled(c, step) && (step.TakeNext? || step.RetryRow?)
    ensures Named(BeginApply(c, step))
  {
    NobodyIsMarked(c.mem, c.actors);
    forall k | 0 <= k < |c.actors| ensures !c.actors[k].Working? && Holds(c.actors[k]).None? {
      Idle(c.mem, c.actors, k);
    }
    hide Base, HoldsMark;
    var d := BeginApply(c, step);
    forall k | 0 <= k < |c.actors| ensures ActorNamed(d.mem, c.actors[k], |d.jobs|) {
      assert ActorNamed(c.mem, c.actors[k], |c.jobs|);
      Unaffected(c.mem, d.mem, c.actors[k], |d.jobs|);
    }
    assert WellNamed(Some(d.mem.row), |d.jobs|);
    if |d.actors| > |c.actors| {
      assert ActorNamed(d.mem, d.actors[|c.actors|], |d.jobs|);
    }
    hide ActorNamed, WellNamed, Retrying;
    JoinsUnmarked(c, d);
  }

  lemma Idle(m: Mem, actors: seq<Pc>, k: nat)
    requires Base(m, actors) && m.run.None? && m.deleting == 0 && k < |actors|
    ensures !actors[k].Working? && Holds(actors[k]).None? && !Retrying(actors[k])
  {
    if HoldsMark(actors[k]) { MarkedRow(m, actors, k); }
  }

  lemma BeginKeepsNamed(c: Cell, step: BeginStep)
    requires Base(c.mem, c.actors) && Named(c) && BeginEnabled(c, step)
    ensures Named(BeginApply(c, step))
  {
    if step.CancelRow? {
      CancelKeepsNamed(c, step.now);
    } else if step.TakeNext? || step.RetryRow? {
      StartKeepsNamed(c, step);
    } else if !step.DropRow? {
      UnmarkedKeepsNamed(c, step);
    } else {
      var d := BeginApply(c, step);
      forall k | 0 <= k < |c.actors| ensures ActorNamed(d.mem, c.actors[k], |d.jobs|) {
        Unaffected(c.mem, d.mem, c.actors[k], |d.jobs|);
      }
    }
  }

  lemma WorldKeepsNamed(c: Cell, step: WorldStep)
    requires Named(c) && WorldEnabled(c, step)
    ensures Named(WorldApply(c, step))
  {
  }
}
