/** Upload jobs that nobody will ever abort: exactly which, over whole runs. */
module Leftovers {
  import opened Wrappers
  import opened Items
  import opened Lifecycle
  import opened Delivery
  import opened JobNames
  import opened UploadJobs
  import opened JobFates

  // ----- where a job may still be found

  predicate Mentions(pc: Pc, j: nat) {
    Uploads(pc) == Some(j) || OnRow(pc) == Some(j) || Holds(pc) == Some(j)
  }

  /** A cleaner that will take job j off a row that names it. */
  predicate Seeks(pc: Pc, j: nat) {
    pc.Tidying? &&
    (pc.chore.CWaiting? || ((pc.chore.CDiscard? || pc.chore.CAbort?) && pc.chore.left == Some(j)) || pc.chore == RAbort(j))
  }

  /** A stored row that a restart would bring back naming job j. */
  predicate Reloads(copy: Option<Row>, j: nat) {
    copy.Some? && LoadRow(copy.value, 0).uploadJob == Some(j)
  }

  predicate Snapshots(c: Cell, j: nat) {
    Reloads(c.stored, j) || (c.writing.Some? && Reloads(c.writing.value.row, j))
  }

  /** The row may still name the job, but it has left the queue and nobody is at it. */
  ghost predicate OffRow(c: Cell, j: nat) {
    c.mem.row.uploadJob == Some(j) ==> !c.mem.queued && forall k :: 0 <= k < |c.actors| ==> !Seeks(c.actors[k], j)
  }

  /** No snapshot, no goroutine and no row in the queue has the job. */
  ghost predicate Lost(c: Cell, j: nat) {
    && j < |c.jobs| && !Snapshots(c, j) && OffRow(c, j)
    && (forall k :: 0 <= k < |c.actors| ==> !Mentions(c.actors[k], j))
  }

  /** A dropped row is the last to name the job. */
  ghost predicate Forsaken(c: Cell, j: nat) {
    && c.mem.row.uploadJob == Some(j) && !c.mem.queued && !Snapshots(c, j)
    && (forall k :: 0 <= k < |c.actors| ==> !Mentions(c.actors[k], j) && !Seeks(c.actors[k], j))
  }

  // ----- what is lost stays lost

  /** What Lost says to goroutine k, the row not naming the job. */
  predicate KeepsAway(c: Cell, k: nat, j: nat)
    requires k < |c.actors|
  {
    j < |c.jobs| && c.mem.row.uploadJob != Some(j) && !Mentions(c.actors[k], j) && !Snapshots(c, j)
  }

  /** Goroutine k goes on without coming by the job. */
  predicate StaysAway(c: Cell, d: Cell, k: nat, j: nat)
    requires k < |c.actors| && j < |c.jobs|
  {
    && |c.jobs| <= |d.jobs| && d.jobs[j].aborts == c.jobs[j].aborts
    && |d.actors| == |c.actors| && d.actors == c.actors[k := d.actors[k]] && !Mentions(d.actors[k], j)
    && d.mem.row.uploadJob != Some(j) && !Snapshots(d, j)
  }

  lemma MovesLost(c: Cell, k: nat, d: Cell, j: nat)
    requires Lost(c, j) && k < |c.actors| && StaysAway(c, d, k, j)
    ensures Lost(d, j)
  {
    hide Mentions, Snapshots, Seeks;
  }

  lemma FetchStaysAway(c: Cell, k: nat, step: FetchStep, j: nat)
    requires k < |c.actors| && KeepsAway(c, k, j) && c.actors[k].Working? && FetchEnabled(c.actors[k].work, c, step)
    ensures StaysAway(c, FetchApply(c, k, step), k, j)
  {
    hide Reloads;
  }

  lemma PushStaysAway(c: Cell, k: nat, step: PushStep, j: nat)
    requires k < |c.actors| && KeepsAway(c, k, j) && c.actors[k].Working? && PushEnabled(c.actors[k].work, step)
    ensures StaysAway(c, PushApply(c, k, step), k, j)
  {
    hide Reloads;
  }

  lemma SettleStaysAway(c: Cell, k: nat, step: SettleStep, j: nat)
    requires k < |c.actors| && KeepsAway(c, k, j) && c.actors[k].Working? && SettleEnabled(c.actors[k].work, c, k, step)
    ensures StaysAway(c, SettleApply(c, k, step), k, j)
  {
  }

  lemma PartStaysAway(c: Cell, k: nat, step: PartStep, j: nat)
    requires k < |c.actors| && KeepsAway(c, k, j) && c.actors[k].Working? && PartEnabled(c.actors[k].work, step)
    ensures StaysAway(c, PartApply(c, k, step), k, j)
  {
    hide Reloads;
  }

  lemma AbortStaysAway(c: Cell, k: nat, step: CleanStep, j: nat)
    requires k < |c.actors| && KeepsAway(c, k, j) && c.actors[k].Tidying? && CleanEnabled(c.actors[k].chore, c, step)
    requires step.CancelHostAborts? || step.RetryHostAborts? || step.RetryFinishes?
    ensures StaysAway(c, CleanApply(c, k, step), k, j)
  {
    hide Reloads;
  }

  lemma TidyStaysAway(c: Cell, k: nat, step: CleanStep, j: nat)
    requires k < |c.actors| && KeepsAway(c, k, j) && c.actors[k].Tidying? && CleanEnabled(c.actors[k].chore, c, step)
    requires !step.CancelHostAborts? && !step.RetryHostAborts? && !step.RetryFinishes?
    ensures StaysAway(c, CleanApply(c, k, step), k, j)
  {
    hide Reloads;
  }

  lemma CleanStaysAway(c: Cell, k: nat, step: CleanStep, j: nat)
    requires k < |c.actors| && KeepsAway(c, k, j) && c.actors[k].Tidying? && CleanEnabled(c.actors[k].chore, c, step)
    ensures StaysAway(c, CleanApply(c, k, step), k, j)
  {
    hide CleanApply, StaysAway, KeepsAway;
    if step.CancelHostAborts? || step.RetryHostAborts? || step.RetryFinishes? {
      AbortStaysAway(c, k, step, j);
    } else {
      TidyStaysAway(c, k, step, j);
    }
  }

  lemma BeginKeepsLost(c: Cell, step: BeginStep, j: nat)
    requires Lost(c, j) && BeginEnabled(c, step)
    ensures Lost(BeginApply(c, step), j) && BeginApply(c, step).jobs == c.jobs
  {
    hide Reloads;
  }

  lemma WorldKeepsLost(c: Cell, step: WorldStep, j: nat)
    requires Lost(c, j) && WorldEnabled(c, step)
    ensures Lost(WorldApply(c, step), j) && WorldApply(c, step).jobs[j].aborts == c.jobs[j].aborts
  {
  }

  lemma UnreserveKeepsLost(c: Cell, k: nat, j: nat)
    requires Lost(c, j) && k < |c.actors| && c.actors[k].Released?
    ensures Lost(Ends(c, k, Gone, c.mem), j)
  {
  }

  /** With the job on a dropped row: a cleaner that is still about has other business. */
  lemma BystanderKeepsLost(c: Cell, k: nat, step: CleanStep, j: nat)
    requires Lost(c, j) && k < |c.actors| && ActorNamed(c.mem, c.actors[k], |c.jobs|) && c.mem.row.uploadJob == Some(j)
    requires c.actors[k].Tidying? && CleanEnabled(c.actors[k].chore, c, step)
    ensures var d := CleanApply(c, k, step); Lost(d, j) && d.jobs == c.jobs
  {
    assert !Seeks(c.actors[k], j);
    BystanderPassesBy(c, k, step, j);
    hide CleanApply, Seeks, Mentions, Snapshots;
  }

  lemma BystanderPassesBy(c: Cell, k: nat, step: CleanStep, j: nat)
    requires k < |c.actors| && ActorNamed(c.mem, c.actors[k], |c.jobs|) && c.mem.row.uploadJob == Some(j)
    requires !Seeks(c.actors[k], j) && c.actors[k].Tidying? && CleanEnabled(c.actors[k].chore, c, step)
    ensures var d := CleanApply(c, k, step);
      && d.jobs == c.jobs && d.stored == c.stored && d.writing == c.writing && d.mem.queued == c.mem.queued
      && d.actors == c.actors[k := d.actors[k]] && !Mentions(d.actors[k], j) && !Seeks(d.actors[k], j)
  {
    hide Aborted, Restored, RetryOutcome, Below;
  }

  lemma StepKeepsLost(c: Cell, step: Step, j: nat)
    requires Sound(c) && Lost(c, j) && Enabled(c, step)
    ensures Lost(Apply(c, step), j) && Apply(c, step).jobs[j].aborts == c.jobs[j].aborts
  {
    if !step.Begin? && !step.World? {
      assert ActorNamed(c.mem, c.actors[step.k], |c.jobs|) && !Mentions(c.actors[step.k], j);
      if c.mem.row.uploadJob != Some(j) { assert KeepsAway(c, step.k, j); }
    }
    hide Sound, Lost, Mentions, KeepsAway, ActorNamed;
    match step {
      case Begin(b) => BeginKeepsLost(c, b, j);
      case World(w) => WorldKeepsLost(c, w, j);
      case Unreserve(k) => UnreserveKeepsLost(c, k, j);
      case Fetch(k, f) => FetchStaysAway(c, k, f, j); MovesLost(c, k, FetchApply(c, k, f), j);
      case Push(k, p) => PushStaysAway(c, k, p, j); MovesLost(c, k, PushApply(c, k, p), j);
      case Settle(k, t) => SettleStaysAway(c, k, t, j); MovesLost(c, k, SettleApply(c, k, t), j);
      case Part(k, p) => PartStaysAway(c, k, p, j); MovesLost(c, k, PartApply(c, k, p), j);
      case Clean(k, t) =>
        if c.mem.row.uploadJob == Some(j) {
          BystanderKeepsLost(c, k, t, j);
        } else {
          CleanStaysAway(c, k, t, j);
          MovesLost(c, k, CleanApply(c, k, t), j);
        }
    }
  }

  /** A job that only a dropped row names, or nothing at all, is never aborted again, in
      any run. */
  lemma {:induction false} LostForGood(cells: seq<Cell>, steps: seq<Step>, i: nat, j: nat)
    requires IsRun(cells, steps) && Sound(cells[0]) && Lost(cells[0], j) && i < |cells|
    ensures Sound(cells[i]) && Lost(cells[i], j) && cells[i].jobs[j].aborts == cells[0].jobs[j].aborts
  {
    if i > 0 {
      hide Lost, Sound;
      LostForGood(cells, steps, i - 1, j);
      StepKeepsLost(cells[i - 1], steps[i - 1], j);
      StepKeepsSound(cells[i - 1], steps[i - 1]);
    }
  }

  // ----- what is not lost can be aborted

  /** Some run from c, of any steps at all, issues an abort for job j. */
  ghost predicate MayBeAborted(c: Cell, j: nat) {
    exists cells: seq<Cell>, steps: seq<Step> :: IssuesAbort(c, cells, steps, j)
  }

  ghost predicate IssuesAbort(c: Cell, cells: seq<Cell>, steps: seq<Step>, j: nat) {
    && IsRun(cells, steps) && cells[0] == c && j < |c.jobs| && j < |cells[|steps|].jobs|
    && cells[|steps|].jobs[j].aborts > c.jobs[j].aborts
  }

  lemma AtOnce(c: Cell, step: Step, j: nat)
    requires Enabled(c, step) && j < |c.jobs| && j < |Apply(c, step).jobs|
    requires Apply(c, step).jobs[j].aborts > c.jobs[j].aborts
    ensures MayBeAborted(c, j)
  {
    hide Enabled, Apply;
    assert IssuesAbort(c, [c, Apply(c, step)], [step], j);
  }

  lemma Later(c: Cell, step: Step, j: nat)
    requires Enabled(c, step) && j < |c.jobs| && MayBeAborted(Apply(c, step), j)
    requires j < |Apply(c, step).jobs| ==> Apply(c, step).jobs[j].aborts == c.jobs[j].aborts
    ensures MayBeAborted(c, j)
  {
    hide Enabled, Apply;
    var cells: seq<Cell>, steps: seq<Step> :| IssuesAbort(Apply(c, step), cells, steps, j);
    var longer, more := [c] + cells, [step] + steps;
    assert longer[|more|] == cells[|steps|];
    assert IssuesAbort(c, longer, more, j);
  }

  lemma UploaderMayAbort(c: Cell, k: nat, j: nat)
    requires k < |c.actors| && j < |c.jobs| && Uploads(c.actors[k]) == Some(j)
    requires ActorNamed(c.mem, c.actors[k], |c.jobs|)
    ensures MayBeAborted(c, j)
    decreases if c.actors[k].work.Opened? then 2 else if c.actors[k].work.Sending? then 1 else 0
  {
    var w := c.actors[k].work;
    hide MayBeAborted, ActorNamed;
    if w.Aborting? {
      AtOnce(c, Push(k, HostAborts), j);
    } else if w.Sending? {
      assert c.mem.row.uploadJob == Some(j) by { SenderIsOnTheRow(c, k); }
      var d := Apply(c, Push(k, SendFailed));
      AtOnce(d, Push(k, HostAborts), j);
      Later(c, Push(k, SendFailed), j);
    } else {
      var d := Apply(c, Push(k, RecordJob));
      var e := Apply(d, Push(k, SendFailed));
      AtOnce(e, Push(k, HostAborts), j);
      Later(d, Push(k, SendFailed), j);
      Later(c, Push(k, RecordJob), j);
    }
  }

  lemma SenderIsOnTheRow(c: Cell, k: nat)
    requires k < |c.actors| && ActorNamed(c.mem, c.actors[k], |c.jobs|) && c.actors[k].Working? && c.actors[k].work.Sending?
    ensures c.mem.row.uploadJob == Some(c.actors[k].work.job)
  {
  }

  /** A goroutine that has an open job in its hands is about to abort it, or may be. */
  lemma HolderMayAbort(c: Cell, k: nat, j: nat)
    requires Sound(c) && Accounted(c) && k < |c.actors| && Mentions(c.actors[k], j)
    requires j < |c.jobs| && !c.jobs[j].committed && c.jobs[j].aborts == 0
    ensures MayBeAborted(c, j)
  {
    assert ActorNamed(c.mem, c.actors[k], |c.jobs|) && Knows(c.actors[k], c.jobs);
    hide Sound, Accounted, MayBeAborted, ActorNamed;
    if c.actors[k].Working? {
      UploaderMayAbort(c, k, j);
    } else if c.actors[k].chore.CAborting? {
      AtOnce(c, Clean(k, CancelHostAborts), j);
    } else {
      AtOnce(c, Clean(k, RetryHostAborts(true)), j);
    }
  }

  /** So is a cleaner at a row that names the job, once there is no worker. */
  lemma SeekerMayAbort(c: Cell, k: nat, j: nat)
    requires k < |c.actors| && Seeks(c.actors[k], j) && c.mem.row.uploadJob == Some(j) && c.mem.run.None?
    requires j < |c.jobs|
    ensures MayBeAborted(c, j)
  {
    var t := c.actors[k].chore;
    hide MayBeAborted;
    if t.RAbort? {
      AtOnce(Apply(c, Clean(k, RetryAborts)), Clean(k, RetryHostAborts(true)), j);
      Later(c, Clean(k, RetryAborts), j);
    } else if t.CAbort? {
      CancellerMayAbort(c, k, j);
    } else {
      var step := Clean(k, if t.CWaiting? then CancelResumes else CleanerDiscards);
      CancellerMayAbort(Apply(c, step), k, j);
      Later(c, step, j);
    }
  }

  lemma CancellerMayAbort(c: Cell, k: nat, j: nat)
    requires k < |c.actors| && c.actors[k] == Tidying(CAbort(Some(j))) && c.mem.row.uploadJob == Some(j) && j < |c.jobs|
    ensures MayBeAborted(c, j)
  {
    hide MayBeAborted;
    AtOnce(Apply(c, Clean(k, CancelAborts)), Clean(k, CancelHostAborts), j);
    Later(c, Clean(k, CancelAborts), j);
  }

  /** A stored row that names the job can come back at a restart. */
  lemma StoredMayBeAborted(c: Cell, j: nat)
    requires Sound(c) && j < |c.jobs| && Reloads(c.stored, j)
    ensures MayBeAborted(c, j)
  {
    hide Sound;
    var cells, steps := ReloadedJobIsAborted(c, 0, j);
    assert IssuesAbort(Reload(c, 0), cells, steps, j);
    hide MayBeAborted;
    Later(c, World(Crash(0)), j);
  }

  lemma SnapshotMayBeAborted(c: Cell, j: nat)
    requires Sound(c) && j < |c.jobs| && Snapshots(c, j)
    ensures MayBeAborted(c, j)
  {
    if Reloads(c.stored, j) {
      StoredMayBeAborted(c, j);
    } else {
      var step := World(WriterStores);
      assert !c.writing.value.reached;
      hide Sound, MayBeAborted;
      StepKeepsSound(c, step);
      StoredMayBeAborted(Apply(c, step), j);
      Later(c, step, j);
    }
  }

  /** A row in the queue that nobody works on can be stored as it is. */
  lemma QueuedMayBeAborted(c: Cell, j: nat)
    requires Sound(c) && j < |c.jobs| && c.mem.queued && c.mem.row.uploadJob == Some(j) && c.mem.run.None?
    ensures MayBeAborted(c, j)
  {
    var ended := if c.writing.Some? then Apply(c, World(WriterEnds)) else c;
    hide MayBeAborted;
    if c.writing.Some? {
      NoWriterWorks(c);
      StepKeepsSound(c, World(WriterEnds));
    }
    RunIsEmployed(ended.mem, ended.actors);
    hide Sound, Base;
    var copied := Apply(ended, World(WriterCopies));
    StepKeepsSound(ended, World(WriterCopies));
    assert Snapshots(copied, j);
    SnapshotMayBeAborted(copied, j);
    Later(ended, World(WriterCopies), j);
    if c.writing.Some? { Later(c, World(WriterEnds), j); }
  }

  lemma NoWriterWorks(c: Cell)
    requires Sound(c) && c.mem.run.None? && c.writing.Some?
    ensures c.writing.value.writer.None?
  {
    assert forall k :: 0 <= k < |c.actors| ==> !c.actors[k].Working?;
  }

  lemma WorkersMention(c: Cell, j: nat)
    requires Named(c) && c.mem.row.uploadJob == Some(j)
    ensures forall k :: 0 <= k < |c.actors| && c.actors[k].Working? ==> Mentions(c.actors[k], j)
  {
    forall k | 0 <= k < |c.actors| && c.actors[k].Working? ensures Mentions(c.actors[k], j) {
      assert ActorNamed(c.mem, c.actors[k], |c.jobs|);
    }
  }

  lemma NobodyMentionsNobodyWorks(c: Cell, j: nat)
    requires Sound(c) && c.mem.row.uploadJob == Some(j) && forall k :: 0 <= k < |c.actors| ==> !Mentions(c.actors[k], j)
    ensures c.mem.run.None?
  {
    RunIsEmployed(c.mem, c.actors);
    WorkersMention(c, j);
  }

  lemma FoundMayBeAborted(c: Cell, j: nat)
    requires Sound(c) && Accounted(c) && j < |c.jobs| && !c.jobs[j].committed && c.jobs[j].aborts == 0 && !Lost(c, j)
    ensures MayBeAborted(c, j)
  {
    if k :| 0 <= k < |c.actors| && Mentions(c.actors[k], j) {
      HolderMayAbort(c, k, j);
    } else if Snapshots(c, j) {
      SnapshotMayBeAborted(c, j);
    } else {
      NobodyMentionsNobodyWorks(c, j);
      if c.mem.queued {
        QueuedMayBeAborted(c, j);
      } else {
        var k :| 0 <= k < |c.actors| && Seeks(c.actors[k], j);
        SeekerMayAbort(c, k, j);
      }
    }
  }

  /** An open job can never be aborted exactly when no snapshot, no goroutine, and no row
      in the queue has it. */
  lemma OpenJobIsLostExactly(c: Cell, j: nat)
    requires Sound(c) && Accounted(c) && j < |c.jobs| && !c.jobs[j].committed && c.jobs[j].aborts == 0
    ensures MayBeAborted(c, j) <==> !Lost(c, j)
  {
    hide Sound, Accounted;
    if Lost(c, j) {
      LostIsNotAborted(c, j);
    } else {
      FoundMayBeAborted(c, j);
    }
  }

  lemma LostIsNotAborted(c: Cell, j: nat)
    requires Sound(c) && Lost(c, j)
    ensures !MayBeAborted(c, j)
  {
    hide Sound, Lost;
    if MayBeAborted(c, j) {
      var cells: seq<Cell>, steps: seq<Step> :| IssuesAbort(c, cells, steps, j);
      LostForGood(cells, steps, |steps|, j);
    }
  }

  // ----- restarts

  /** After a restart an old job can be aborted - for the first time if it was open, once
      more if it was aborted before - exactly when the reloaded row names it. */
  lemma RestartDecidesTheAbort(c: Cell, now: int, j: nat)
    requires Sound(c) && j < |c.jobs|
    ensures MayBeAborted(Reload(c, now), j) <==> Loaded(c, now).uploadJob == Some(j)
  {
    var d := Reload(c, now);
    if Loaded(c, now).uploadJob == Some(j) {
      var cells, steps := ReloadedJobIsAborted(c, now, j);
      assert IssuesAbort(d, cells, steps, j);
    } else {
      StepKeepsSound(c, World(Crash(now)));
      assert Lost(d, j);
      LostIsNotAborted(d, j);
    }
  }

  /** A restart orphans exactly the open jobs that can then never get their abort. */
  lemma OrphansAreNeverAborted(c: Cell, now: int, j: nat)
    requires Sound(c) && j < |c.jobs| && !c.jobs[j].committed && c.jobs[j].aborts == 0 && !c.jobs[j].orphaned
    ensures Reload(c, now).jobs[j].orphaned <==> !MayBeAborted(Reload(c, now), j)
  {
    RestartDecidesTheAbort(c, now, j);
  }

  // ----- over whole runs

  predicate Stray(job: Job) {
    job.unheard || job.orphaned
  }

  ghost predicate StraysAreLost(c: Cell) {
    forall j :: 0 <= j < |c.jobs| && Stray(c.jobs[j]) ==> Lost(c, j)
  }

  /** Jobs go astray when the reply to the opening call is lost, and at a restart. */
  lemma OnlyTwoGoAstray(c: Cell, step: Step, j: nat)
    requires Enabled(c, step) && j < |Apply(c, step).jobs| && Stray(Apply(c, step).jobs[j])
    ensures (j < |c.jobs| && Stray(c.jobs[j])) || Restarts(step) || (step.Push? && step.push.OpenReplyLost? && j == |c.jobs|)
  {
    hide CleanApply, PushApply, Stray;
    if step.Clean? {
      CleaningKeepsStrays(c, step.k, step.clean, j);
    } else if step.Push? {
      PushingKeepsStrays(c, step.k, step.push, j);
    }
  }

  lemma CleaningKeepsStrays(c: Cell, k: nat, step: CleanStep, j: nat)
    requires k < |c.actors| && c.actors[k].Tidying? && CleanEnabled(c.actors[k].chore, c, step)
    ensures var d := CleanApply(c, k, step); |d.jobs| == |c.jobs| && (j < |c.jobs| ==> Stray(d.jobs[j]) == Stray(c.jobs[j]))
  {
    hide TakeJob, RetryOutcome;
  }

  lemma PushingKeepsStrays(c: Cell, k: nat, step: PushStep, j: nat)
    requires k < |c.actors| && c.actors[k].Working? && PushEnabled(c.actors[k].work, step)
    ensures var d := PushApply(c, k, step);
      && (j < |c.jobs| ==> j < |d.jobs| && Stray(d.jobs[j]) == Stray(c.jobs[j]))
      && (|c.jobs| <= j < |d.jobs| && Stray(d.jobs[j]) ==> step.OpenReplyLost? && j == |c.jobs|)
  {
    hide TakeJob, WithJob, WithStage;
  }

  lemma UnheardIsLost(c: Cell, k: nat)
    requires Sound(c) && k < |c.actors| && c.actors[k] == Working(Opening)
    ensures Lost(PushApply(c, k, OpenReplyLost), |c.jobs|)
  {
    hide Base, Durable;
    var d, j := PushApply(c, k, OpenReplyLost), |c.jobs|;
    forall l | 0 <= l < |d.actors| ensures !Mentions(d.actors[l], j) {
      assert ActorNamed(c.mem, c.actors[l], |c.jobs|);
    }
    assert WellNamed(Some(c.mem.row), j) && WellNamed(c.stored, j);
  }

  lemma StrayAtRestartIsLost(c: Cell, now: int, j: nat)
    requires Sound(c) && StraysAreLost(c) && j < |c.jobs| && Stray(Reload(c, now).jobs[j])
    ensures Lost(Reload(c, now), j)
  {
    if Stray(c.jobs[j]) { WorldKeepsLost(c, Crash(now), j); }
  }

  lemma StepKeepsStrays(c: Cell, step: Step)
    requires Sound(c) && StraysAreLost(c) && Enabled(c, step)
    ensures StraysAreLost(Apply(c, step))
  {
    var d := Apply(c, step);
    hide Sound, Lost, Stray;
    forall j | 0 <= j < |d.jobs| && Stray(d.jobs[j]) ensures Lost(d, j) {
      OnlyTwoGoAstray(c, step, j);
      if j < |c.jobs| && Stray(c.jobs[j]) {
        StepKeepsLost(c, step, j);
      } else if Restarts(step) {
        StrayAtRestartIsLost(c, step.world.now, j);
      } else {
        UnheardIsLost(c, step.k);
      }
    }
  }

  lemma {:induction false} RunKeepsStrays(cells: seq<Cell>, steps: seq<Step>, i: nat)
    requires IsRun(cells, steps) && Fresh(cells[0]) && i < |cells|
    ensures StraysAreLost(cells[i])
  {
    if i > 0 {
      hide StraysAreLost, Sound, Accounted;
      RunKeepsStrays(cells, steps, i - 1);
      RunKeepsAccounted(cells, steps, i - 1);
      StepKeepsStrays(cells[i - 1], steps[i - 1]);
    } else {
      assert cells[0].jobs == [];
    }
  }

  lemma LostIsInNoHands(c: Cell, j: nat)
    requires Lost(c, j)
    ensures !InHands(c.actors, j)
  {
    forall k | 0 <= k < |c.actors| ensures !Touches(c.actors[k], j) { assert !Mentions(c.actors[k], j); }
  }

  /** In every reachable state an open job can be aborted by no run at all exactly when the
      reply to the call that opened it was lost, or a restart brought back a row not naming
      it, or the last row to name it was dropped from the queue and from the snapshots. */
  lemma OpenJobIsNeverAbortedExactly(cells: seq<Cell>, steps: seq<Step>, i: nat, j: nat)
    requires IsRun(cells, steps) && Fresh(cells[0]) && i < |cells| && j < |cells[i].jobs|
    requires !cells[i].jobs[j].committed && cells[i].jobs[j].aborts == 0
    ensures var c := cells[i];
      !MayBeAborted(c, j) <==> c.jobs[j].unheard || c.jobs[j].orphaned || Forsaken(c, j)
  {
    var c := cells[i];
    RunKeepsAccounted(cells, steps, i);
    RunKeepsStrays(cells, steps, i);
    OpenJobIsLostExactly(c, j);
    hide Sound;
    if Lost(c, j) { LostIsInNoHands(c, j); }
  }

  // ----- inputs

  /** Dying while a job is open, with nothing stored that names it, orphans it. */
  lemma OrphansHappen(c: Cell, now: int) returns (cells: seq<Cell>, steps: seq<Step>)
    requires Fresh(c) && c.mem.row.state.Pending?
    ensures OrderlyRun(cells, steps) && cells[0] == c
    ensures var d := cells[|steps|]; |d.jobs| == 1 && d.jobs[0].orphaned && !d.jobs[0].committed && d.jobs[0].aborts == 0
    ensures !MayBeAborted(cells[|steps|], 0)
  {
    cells, steps := SendingHappens(c);
    ghost var before, n := cells[|steps|], |steps|;
    RunKeepsAccounted(cells, steps, n);
    hide Sound, Accounted;
    cells, steps := OneMore(cells, steps, World(Crash(now)));
    RestartDecidesTheAbort(before, now, 0);
  }

  /** Cancel fires the context of the call that is opening the job: the drive has opened it,
      and nobody will ever know. */
  lemma UnheardHappens(c: Cell, now: int) returns (cells: seq<Cell>, steps: seq<Step>)
    requires Fresh(c) && c.mem.row.state.Pending?
    ensures OrderlyRun(cells, steps) && cells[0] == c && (forall i :: 0 <= i < |steps| ==> !Restarts(steps[i]))
    ensures var d := cells[|steps|]; |d.jobs| == 1 && d.jobs[0].unheard && !d.jobs[0].committed && d.jobs[0].aborts == 0
    ensures !MayBeAborted(cells[|steps|], 0)
  {
    cells, steps := OpeningHappens(c);
    cells, steps := OneMore(cells, steps, Begin(CancelRow(now)));
    cells, steps := OneMore(cells, steps, Push(0, OpenReplyLost));
    RunKeepsAccounted(cells, steps, |steps|);
    RunKeepsStrays(cells, steps, |steps|);
    hide Sound, Accounted;
    LostIsNotAborted(cells[|steps|], 0);
  }

  lemma ClearedAndStored(cells: seq<Cell>, steps: seq<Step>) returns (longer: seq<Cell>, done: seq<Step>)
    requires OrderlyRun(cells, steps)
    requires var c := cells[|steps|]; CanClear(c.mem) && c.actors == [] && c.writing.None?
    ensures OrderlyRun(longer, done) && longer[0] == cells[0] && longer[|done|].jobs == cells[|steps|].jobs
    ensures cells[|steps|].mem.row.uploadJob.Some? ==> Forsaken(longer[|done|], cells[|steps|].mem.row.uploadJob.value)
  {
    longer, done := OneMore(cells, steps, Begin(ClearRow));
    assert longer[|done|].actors == [Tidying(FDiscard)];
    longer, done := OneMore(longer, done, World(WriterCopies));
    longer, done := OneMore(longer, done, World(WriterStores));
  }

  /** A cancelled row comes back naming an open job, and is cleared with its history. */
  lemma ForsakingHappens(c: Cell, now: int) returns (cells: seq<Cell>, steps: seq<Step>)
    requires Fresh(c) && c.mem.row.state.Pending?
    ensures OrderlyRun(cells, steps) && cells[0] == c
    ensures var d := cells[|steps|];
      |d.jobs| == 1 && !d.jobs[0].committed && d.jobs[0].aborts == 0 && !Stray(d.jobs[0]) && Forsaken(d, 0)
    ensures !MayBeAborted(cells[|steps|], 0)
  {
    cells, steps := CancelledRowIsStored(c, now);
    cells, steps := OneMore(cells, steps, World(Crash(now)));
    var back := cells[|steps|];
    assert CanClear(back.mem) && back.jobs == [Job(false, false, 0, false, false, false, false, 0, c.epoch)];
    cells, steps := ClearedAndStored(cells, steps);
    RunKeepsAccounted(cells, steps, |steps|);
    hide Sound, Accounted;
    LostIsNotAborted(cells[|steps|], 0);
  }
}
