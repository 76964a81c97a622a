/** What becomes of upload jobs: over whole runs, and exactly when a commit or an abort
    is lost. */
module JobFates {
  import opened Wrappers
  import opened Items
  import opened Lifecycle
  import opened Delivery
  import opened JobNames
  import opened UploadJobs

  /** Whatever replies are lost and however often it restarts: every job the drive ever
      opened is committed, or has had its abort, or is named by the row, or is in the hands
      of the worker that opened it or of a cleaner; or the reply that named it was lost, or a
      restart brought back no row naming it. */
  lemma EveryJobIsAccountedFor(cells: seq<Cell>, steps: seq<Step>, i: nat, j: nat)
    requires IsRun(cells, steps) && Fresh(cells[0]) && i < |cells| && j < |cells[i].jobs|
    ensures var c := cells[i]; var job := c.jobs[j];
      job.committed || job.aborts > 0 || job.unheard || job.orphaned || c.mem.row.uploadJob == Some(j) || InHands(c.actors, j)
  {
    hide Sound;
    RunKeepsAccounted(cells, steps, i);
  }

  lemma {:induction false} RunKeepsClean(cells: seq<Cell>, steps: seq<Step>, i: nat)
    requires IsRun(cells, steps) && Fresh(cells[0]) && i < |cells|
    requires forall s :: 0 <= s < i ==> Orderly(cells[s], steps[s])
    ensures Spotless(cells[i])
  {
    if i > 0 {
      RunKeepsClean(cells, steps, i - 1);
      RunKeepsAccounted(cells, steps, i - 1);
      hide Base, Durable, Named, Spotless, Accounted;
      StepKeepsClean(cells[i - 1], steps[i - 1]);
    }
  }

  /** While no commit is lost track of: no committed job is ever aborted; a job is aborted
      more than once only if a failed Retry put it back, or a restart brought back a row
      naming it after an abort; and it is in one pair of hands at most, off the row. */
  lemma EveryJobHasOneOwner(cells: seq<Cell>, steps: seq<Step>, i: nat, j: nat)
    requires IsRun(cells, steps) && Fresh(cells[0]) && i < |cells| && j < |cells[i].jobs|
    requires forall s :: 0 <= s < i ==> Orderly(cells[s], steps[s])
    ensures var c := cells[i]; var job := c.jobs[j];
      && !(job.committed && job.aborted)
      && (job.aborts >= 2 ==> job.restored || job.revived)
      && (forall k, l :: 0 <= k < |c.actors| && 0 <= l < |c.actors| && k != l ==>
            Holds(c.actors[k]).None? || Holds(c.actors[l]).None?)
      && (forall k :: 0 <= k < |c.actors| && Holds(c.actors[k]).Some? ==> c.mem.row.uploadJob.None?)
  {
    RunKeepsClean(cells, steps, i);
    RunKeepsAccounted(cells, steps, i);
    var c := cells[i];
    hide Base, Durable;
    forall k | 0 <= k < |c.actors| && Holds(c.actors[k]).Some? ensures c.mem.row.uploadJob.None? {
      assert ActorNamed(c.mem, c.actors[k], |c.jobs|);
    }
    assert JobIsClean(c.jobs[j]);
  }

  // ----- exactly when a commit is lost track of

  /** From c, orderly steps alone can lead to the abort of a committed job. */
  ghost predicate MayAbortACommit(c: Cell) {
    exists cells: seq<Cell>, steps: seq<Step> :: Aborts(c, cells, steps)
  }

  ghost predicate Aborts(c: Cell, cells: seq<Cell>, steps: seq<Step>) {
    && IsRun(cells, steps) && cells[0] == c
    && (forall s :: 0 <= s < |steps| ==> Orderly(cells[s], steps[s]))
    && var jobs := cells[|steps|].jobs; exists j :: 0 <= j < |jobs| && jobs[j].committed && jobs[j].aborted
  }

  lemma {:induction false} OrderlyRunsKeepTrack(cells: seq<Cell>, steps: seq<Step>, i: nat)
    requires IsRun(cells, steps) && Sound(cells[0]) && Spotless(cells[0])
    requires i < |cells| && forall s :: 0 <= s < i ==> Orderly(cells[s], steps[s])
    ensures Sound(cells[i]) && Spotless(cells[i])
  {
    if i > 0 {
      hide Base, Durable, Named, Spotless;
      OrderlyRunsKeepTrack(cells, steps, i - 1);
      StepKeepsSound(cells[i - 1], steps[i - 1]);
      StepKeepsClean(cells[i - 1], steps[i - 1]);
    }
  }

  lemma CleanJobsAreSafe(c: Cell)
    requires Spotless(c)
    ensures forall j :: 0 <= j < |c.jobs| ==> !(c.jobs[j].committed && c.jobs[j].aborted)
  {
    forall j | 0 <= j < |c.jobs| ensures !(c.jobs[j].committed && c.jobs[j].aborted) {
      assert JobIsClean(c.jobs[j]);
    }
  }

  lemma OrderlyStepsKeepTrack(c: Cell, step: Step)
    requires Sound(c) && Spotless(c) && Enabled(c, step) && Orderly(c, step)
    ensures !MayAbortACommit(Apply(c, step))
  {
    hide Base, Durable, Named, Spotless;
    var d := Apply(c, step);
    if MayAbortACommit(d) {
      var cells: seq<Cell>, steps: seq<Step> :| Aborts(d, cells, steps);
      StepKeepsSound(c, step);
      StepKeepsClean(c, step);
      OrderlyRunsKeepTrack(cells, steps, |steps|);
      CleanJobsAreSafe(cells[|steps|]);
    }
  }

  ghost predicate OrderlyRun(cells: seq<Cell>, steps: seq<Step>) {
    IsRun(cells, steps) && forall s :: 0 <= s < |steps| ==> Orderly(cells[s], steps[s])
  }

  lemma OneMore(cells: seq<Cell>, steps: seq<Step>, step: Step) returns (longer: seq<Cell>, done: seq<Step>)
    requires OrderlyRun(cells, steps) && Enabled(cells[|steps|], step) && Orderly(cells[|steps|], step)
    ensures OrderlyRun(longer, done) && longer[0] == cells[0] && done == steps + [step]
    ensures longer[|done|] == Apply(cells[|steps|], step)
  {
    longer, done := Extend(cells, steps, step);
  }

  /** A lost reply can always be followed by the abort of the committed job. */
  lemma LostReplyLosesTrack(c: Cell, k: nat)
    requires Sound(c) && k < |c.actors| && c.actors[k].Working? && c.actors[k].work.Sending?
    ensures MayAbortACommit(PushApply(c, k, ReplyLost))
  {
    var c1, j := PushApply(c, k, ReplyLost), c.actors[k].work.job;
    assert ActorNamed(c.mem, c.actors[k], |c.jobs|);
    hide Base, Durable, Named;
    var cells, steps := OneMore([c1], [], Push(k, SendFailed));
    cells, steps := OneMore(cells, steps, Push(k, HostAborts));
    assert cells[|steps|].jobs[j].committed && cells[|steps|].jobs[j].aborted;
    assert Aborts(c1, cells, steps);
  }

  /** A manual retry of a row that a restart brought back aborts the job it names. */
  lemma ReloadedJobIsAborted(c: Cell, now: int, j: nat) returns (cells: seq<Cell>, steps: seq<Step>)
    requires Sound(c) && Loaded(c, now).uploadJob == Some(j)
    ensures OrderlyRun(cells, steps) && cells[0] == Reload(c, now) && j < |c.jobs| == |cells[|steps|].jobs|
    ensures cells[|steps|].jobs[j].aborted && cells[|steps|].jobs[j].aborts == c.jobs[j].aborts + 1
    ensures cells[|steps|].jobs[j].committed == c.jobs[j].committed
  {
    ReloadMayBeRetried(c, now, j);
    hide Base, Durable, Named, Reload;
    cells, steps := OneMore([Reload(c, now)], [], Begin(RetryRow));
    assert cells[1].actors == [Tidying(RAbort(j))];
    cells, steps := OneMore(cells, steps, Clean(0, RetryAborts));
    cells, steps := OneMore(cells, steps, Clean(0, RetryHostAborts(true)));
  }

  lemma ReloadMayBeRetried(c: Cell, now: int, j: nat)
    requires Named(c) && Loaded(c, now).uploadJob == Some(j)
    ensures var d := Reload(c, now);
      && CanRetry(d.mem) && d.mem.row.uploadJob == Some(j) && d.actors == [] && j < |c.jobs| == |d.jobs|
      && d.jobs[j].aborts == c.jobs[j].aborts && d.jobs[j].committed == c.jobs[j].committed
  {
    assert WellNamed(c.stored, |c.jobs|);
  }

  /** Wherever every commit is still accounted for, a step puts a committed job in danger
      of an abort exactly when the reply to CompleteUpload is lost, or a restart brings
      back a row naming a job committed since. */
  lemma TrackIsLostExactlyByDisorder(c: Cell, step: Step)
    requires Sound(c) && Spotless(c) && Enabled(c, step)
    ensures MayAbortACommit(Apply(c, step)) <==> !Orderly(c, step)
  {
    hide Sound, Spotless;
    if Orderly(c, step) {
      OrderlyStepsKeepTrack(c, step);
    } else if step.Push? {
      LostReplyLosesTrack(c, step.k);
    } else {
      var now, j := step.world.now, Loaded(c, step.world.now).uploadJob.value;
      var cells, steps := ReloadedJobIsAborted(c, now, j);
      assert cells[|steps|].jobs[j].committed && cells[|steps|].jobs[j].aborted;
      assert Aborts(Apply(c, step), cells, steps);
    }
  }

  // ----- inputs

  lemma OpeningHappens(c: Cell) returns (cells: seq<Cell>, steps: seq<Step>)
    requires Fresh(c) && c.mem.row.state.Pending?
    ensures OrderlyRun(cells, steps) && cells[0] == c && forall i :: 0 <= i < |steps| ==> !Restarts(steps[i])
    ensures var d := cells[|steps|];
      && d.actors == [Working(Opening)] && d.jobs == [] && d.mem.row.uploadJob.None? && d.mem.row.state.Running?
      && d.mem.run == Some(Run(0, false)) && d.mem.queued && d.mem.deleting == 0
      && d.writing.None? && d.stored.None? && d.epoch == c.epoch
  {
    cells, steps := OneMore([c], [], Begin(TakeNext));
    assert cells[1].actors == [Working(Claimed)];
    cells, steps := OneMore(cells, steps, Fetch(0, WatchItem));
    cells, steps := OneMore(cells, steps, Fetch(0, StageDone));
    cells, steps := OneMore(cells, steps, Fetch(0, StartUpload));
  }

  lemma SendingHappens(c: Cell) returns (cells: seq<Cell>, steps: seq<Step>)
    requires Fresh(c) && c.mem.row.state.Pending?
    ensures OrderlyRun(cells, steps) && cells[0] == c
    ensures var d := cells[|steps|];
      && d.actors == [Working(Sending(0))] && d.jobs == [Job(false, false, 0, false, false, false, false, 0, c.epoch)]
      && d.mem.row.uploadJob == Some(0) && d.mem.row.state.Running? && d.mem.run == Some(Run(0, false)) && d.mem.queued
      && d.writing.None? && d.stored.None?
  {
    cells, steps := OpeningHappens(c);
    cells, steps := OneMore(cells, steps, Push(0, HostOpens));
    cells, steps := OneMore(cells, steps, Push(0, RecordJob));
  }

  /** Cancelled while sending, and the cancelled row stored with its job. */
  lemma CancelledRowIsStored(c: Cell, now: int) returns (cells: seq<Cell>, steps: seq<Step>)
    requires Fresh(c) && c.mem.row.state.Pending?
    ensures OrderlyRun(cells, steps) && cells[0] == c
    ensures var d := cells[|steps|];
      && |d.actors| == 2 && d.actors[0] == Working(Sending(0)) && d.jobs == [Job(false, false, 0, false, false, false, false, 0, c.epoch)]
      && d.mem.row.uploadJob == Some(0) && d.stored == Some(d.mem.row) && d.mem.row.state.Cancelled?
  {
    cells, steps := SendingHappens(c);
    cells, steps := OneMore(cells, steps, Begin(CancelRow(now)));
    cells, steps := OneMore(cells, steps, World(WriterCopies));
    cells, steps := OneMore(cells, steps, World(WriterStores));
  }

  /** A stale row comes about by orderly steps alone: the drive commits before the abort
      of the cancelled job. */
  lemma StaleRowsHappen(c: Cell, now: int) returns (cells: seq<Cell>, steps: seq<Step>)
    requires Fresh(c) && c.mem.row.state.Pending?
    ensures OrderlyRun(cells, steps) && cells[0] == c && Stale(cells[|steps|], now)
  {
    cells, steps := CancelledRowIsStored(c, now);
    cells, steps := OneMore(cells, steps, Push(0, HostCommits));
  }

  lemma CancelledJobIsAborted(c: Cell, now: int) returns (cells: seq<Cell>, steps: seq<Step>)
    requires Fresh(c) && c.mem.row.state.Pending?
    ensures OrderlyRun(cells, steps) && cells[0] == c
    ensures var d := cells[|steps|];
      && |d.jobs| == 1 && d.jobs[0] == Job(false, true, 1, false, false, false, false, 0, c.epoch)
      && d.stored.Some? && d.stored.value.state.Cancelled? && d.stored.value.uploadJob == Some(0)
  {
    cells, steps := CancelledRowIsStored(c, now);
    cells, steps := OneMore(cells, steps, Push(0, SendFailed));
    cells, steps := OneMore(cells, steps, Push(0, HostAborts));
  }

  /** One job aborted twice without a failed Retry: the abort takes it off the row, but a
      restart brings back the row stored before. */
  lemma AbortedAgainAfterARestart(c: Cell, now: int) returns (cells: seq<Cell>, steps: seq<Step>)
    requires Fresh(c) && c.mem.row.state.Pending?
    ensures OrderlyRun(cells, steps) && cells[0] == c
    ensures var d := cells[|steps|]; |d.jobs| == 1 && d.jobs[0].aborts == 2 && !d.jobs[0].restored && d.jobs[0].revived
  {
    cells, steps := CancelledJobIsAborted(c, now);
    cells, steps := OneMore(cells, steps, World(Crash(now)));
    cells, steps := OneMore(cells, steps, Begin(RetryRow));
    cells, steps := OneMore(cells, steps, Clean(0, RetryAborts));
    cells, steps := OneMore(cells, steps, Clean(0, RetryHostAborts(true)));
  }

  /** Cancel, and not only Retry, may abort a job again that a failed Retry put back. */
  lemma CancelAbortsAgain(c: Cell, now: int, j: nat)
    requires CanCancel(c.mem) && c.mem.run.None? && c.mem.row.uploadJob == Some(j) && j < |c.jobs|
    requires c.jobs[j].restored && c.jobs[j].aborts >= 1
    ensures var k := |c.actors|; var c1 := BeginApply(c, CancelRow(now));
      && |c1.actors| == k + 1 && c1.actors[k] == Tidying(CDiscard(Some(j)))
      && var c2 := CleanApply(c1, k, CleanerDiscards);
      && c2.actors[k] == Tidying(CAbort(Some(j)))
      && var c3 := CleanApply(c2, k, CancelAborts);
      && c3.actors[k] == Tidying(CAborting(j))
      && CleanApply(c3, k, CancelHostAborts).jobs[j].aborts == c.jobs[j].aborts + 1
  {
  }
}
