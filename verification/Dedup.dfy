/** The whole queue beside the scans that feed it: no file is queued twice
    (internal/sync/scan.go, consider and inspectLocked). */
module Dedup {
  import opened Wrappers
  import opened Items
  import Lifecycle
  import Delivery

  /** A row in the queue. window: complete has marked it but not yet stored it, and
      may still take that back. */
  datatype Entry = Entry(row: Row, window: bool)

  predicate Settled(entry: Entry) {
    entry.row.state.Complete? && !entry.window
  }

  /** No two rows that are, or may yet be, undelivered share a key. */
  ghost predicate Distinct(queue: seq<Entry>) {
    forall i, j :: 0 <= i < j < |queue| && KeyOf(queue[i].row) == KeyOf(queue[j].row) ==>
      Settled(queue[i]) || Settled(queue[j])
  }

  // ----- the look a scan takes

  /** What the locked look concludes: the file is queued already, or the other
      directories it was delivered to. */
  ghost predicate Stops(queue: seq<Entry>, key: string) {
    exists i :: 0 <= i < |queue| && KeyOf(queue[i].row) == key && !queue[i].row.state.Complete?
  }

  function Delivered(queue: seq<Entry>, key: string, targetDir: string): seq<string> {
    if queue == [] then []
    else
      var last := queue[|queue| - 1].row;
      Delivered(queue[..|queue| - 1], key, targetDir)
      + if KeyOf(last) == key && last.state.Complete? && last.targetDir != targetDir then [last.targetDir] else []
  }

  lemma DeliveredNext(queue: seq<Entry>, n: nat, key: string, targetDir: string)
    requires n < |queue|
    ensures Delivered(queue[..n + 1], key, targetDir) ==
      Delivered(queue[..n], key, targetDir)
      + if KeyOf(queue[n].row) == key && queue[n].row.state.Complete? && queue[n].row.targetDir != targetDir
        then [queue[n].row.targetDir] else []
  {
    assert queue[..n + 1][..n] == queue[..n];
  }

  method InspectLocked(queue: seq<Entry>, jobIsCurrent: bool, key: string, targetDir: string)
      returns (stop: bool, delivered: seq<string>)
    ensures stop <==> !jobIsCurrent || exists i :: 0 <= i < |queue| && KeyOf(queue[i].row) == key && !queue[i].row.state.Complete?
    ensures delivered == if stop then [] else Delivered(queue, key, targetDir)
  {
    hide Key, KeyOf;
    if !jobIsCurrent {
      return true, [];
    }
    delivered := [];
    for n := 0 to |queue|
      invariant forall i :: 0 <= i < n && KeyOf(queue[i].row) == key ==> queue[i].row.state.Complete?
      invariant delivered == Delivered(queue[..n], key, targetDir)
    {
      DeliveredNext(queue, n, key, targetDir);
      var row := queue[n].row;
      if KeyOf(row) == key {
        if Active(row) || row.state.Failed? || row.state.Cancelled? {
          return true, [];
        }
        if row.state.Complete? && row.targetDir != targetDir {
          delivered := delivered + [row.targetDir];
        }
      }
    }
    assert queue[..|queue|] == queue;
    stop := false;
  }

  /** The directories reported are exactly those of delivered copies elsewhere. */
  lemma {:induction false} DeliveredIsExact(queue: seq<Entry>, key: string, targetDir: string, dir: string)
    ensures dir in Delivered(queue, key, targetDir) <==>
      exists i :: 0 <= i < |queue| && KeyOf(queue[i].row) == key && queue[i].row.state.Complete?
        && queue[i].row.targetDir == dir != targetDir
  {
    if queue != [] {
      var n := |queue| - 1;
      DeliveredIsExact(queue[..n], key, targetDir, dir);
      assert forall i :: 0 <= i < n ==> queue[..n][i] == queue[i];
    }
  }

  // ----- the machine

  /** stored is the stored queue; writing is the copy a writer holds. */
  datatype State = State(queue: seq<Entry>, stored: seq<Row>, writing: Option<seq<Row>>)

  datatype Step =
    | Append(row: Row)
    | Change(i: nat, after: Entry)
    | Remove(i: nat)
    | Copy
    | Store
    | WriteFails
    | Crash(now: int)

  /** What one row's own steps may do to it while the process lives. */
  predicate Allowed(before: Entry, after: Entry) {
    KeyOf(after.row) == KeyOf(before.row) && (Settled(before) ==> Settled(after))
  }

  ghost predicate Enabled(s: State, step: Step) {
    match step
    case Append(row) => (row.state.Pending? || row.state.Failed?) && !Stops(s.queue, KeyOf(row))
    case Change(i, after) => i < |s.queue| && Allowed(s.queue[i], after)
    case Remove(i) => i < |s.queue|
    case Copy => s.writing.None?
    case Store => s.writing.Some?
    case WriteFails => s.writing.Some?
    case Crash(_) => true
  }

  function Rows(queue: seq<Entry>): seq<Row> {
    seq(|queue|, i requires 0 <= i < |queue| => queue[i].row)
  }

  function Reloaded(stored: seq<Row>, now: int): seq<Entry> {
    seq(|stored|, i requires 0 <= i < |stored| => Entry(LoadRow(stored[i], now), false))
  }

  ghost function Apply(s: State, step: Step): State
    requires Enabled(s, step)
  {
    match step
    case Append(row) => s.(queue := s.queue + [Entry(row, false)])
    case Change(i, after) => s.(queue := s.queue[i := after])
    case Remove(i) => s.(queue := s.queue[..i] + s.queue[i + 1..])
    case Copy => s.(writing := Some(Rows(s.queue)))
    case Store => s.(stored := s.writing.value, writing := None)
    case WriteFails => s.(writing := None)
    case Crash(now) => State(Reloaded(s.stored, now), s.stored, None)
  }

  /** The same file, and not undelivered again. */
  predicate Upholds(c: Lifecycle.Cell, d: Lifecycle.Cell) {
    && var row, next := c.mem.row, d.mem.row;
    && next.jobID == row.jobID && next.remotePath == row.remotePath && next.sha1 == row.sha1 && next.size == row.size
    && (Delivery.Final(c) ==> Delivery.Final(d))
  }

  lemma FetchUpholds(c: Lifecycle.Cell, k: nat, step: Lifecycle.FetchStep)
    requires Lifecycle.Base(c.mem, c.actors)
    requires k < |c.actors| && c.actors[k].Working? && Lifecycle.FetchEnabled(c.actors[k].work, c, step)
    ensures Upholds(c, Lifecycle.FetchApply(c, k, step))
  {
    Lifecycle.WorkerHolds(c.mem, c.actors, k);
    hide Lifecycle.Base;
  }

  lemma PushUpholds(c: Lifecycle.Cell, k: nat, step: Lifecycle.PushStep)
    requires Lifecycle.Base(c.mem, c.actors)
    requires k < |c.actors| && c.actors[k].Working? && Lifecycle.PushEnabled(c.actors[k].work, step)
    ensures Upholds(c, Lifecycle.PushApply(c, k, step))
  {
    Lifecycle.WorkerHolds(c.mem, c.actors, k);
    hide Lifecycle.Base;
  }

  lemma SettleUpholds(c: Lifecycle.Cell, k: nat, step: Lifecycle.SettleStep)
    requires Lifecycle.Base(c.mem, c.actors)
    requires k < |c.actors| && c.actors[k].Working? && Lifecycle.SettleEnabled(c.actors[k].work, c, k, step)
    ensures Upholds(c, Lifecycle.SettleApply(c, k, step))
  {
    Lifecycle.WorkerHolds(c.mem, c.actors, k);
    hide Lifecycle.Base;
  }

  lemma PartUpholds(c: Lifecycle.Cell, k: nat, step: Lifecycle.PartStep)
    requires Lifecycle.Base(c.mem, c.actors)
    requires k < |c.actors| && c.actors[k].Working? && Lifecycle.PartEnabled(c.actors[k].work, step)
    ensures Upholds(c, Lifecycle.PartApply(c, k, step))
  {
    Lifecycle.WorkerHolds(c.mem, c.actors, k);
    hide Lifecycle.Base;
  }

  lemma CleanUpholds(c: Lifecycle.Cell, k: nat, step: Lifecycle.CleanStep)
    requires Lifecycle.Base(c.mem, c.actors) && Delivery.Durable(c)
    requires k < |c.actors| && c.actors[k].Tidying? && Lifecycle.CleanEnabled(c.actors[k].chore, c, step)
    ensures Upholds(c, Lifecycle.CleanApply(c, k, step))
  {
    Lifecycle.RunIsEmployed(c.mem, c.actors);
    hide Lifecycle.Base, Lifecycle.Aborted, Lifecycle.Restored;
  }

  lemma BeginUpholds(c: Lifecycle.Cell, step: Lifecycle.BeginStep)
    requires Lifecycle.Base(c.mem, c.actors) && Lifecycle.BeginEnabled(c, step)
    ensures Upholds(c, Lifecycle.BeginApply(c, step))
  {
    Lifecycle.RunIsEmployed(c.mem, c.actors);
    hide Lifecycle.Base;
  }

  /** Every step of one row's lifecycle, short of a crash, is an allowed change of its
      entry: keys never change, and a delivery that has been stored is never undone. */
  lemma LifecycleIsAllowed(c: Lifecycle.Cell, step: Lifecycle.Step)
    requires Lifecycle.Base(c.mem, c.actors) && Delivery.Durable(c) && Lifecycle.Enabled(c, step)
    requires !(step.World? && step.world.Crash?)
    ensures var d := Lifecycle.Apply(c, step);
      Allowed(Entry(c.mem.row, Delivery.InWindow(c)), Entry(d.mem.row, Delivery.InWindow(d)))
  {
    Lifecycle.RunIsEmployed(c.mem, c.actors);
    hide Lifecycle.Base, Delivery.Durable;
    var d := Lifecycle.Apply(c, step);
    assert Upholds(c, d) by {
      match step {
        case Clean(k, t) => CleanUpholds(c, k, t);
        case Begin(b) => BeginUpholds(c, b);
        case World(w) =>
        case Unreserve(k) =>
        case Fetch(k, f) => FetchUpholds(c, k, f);
        case Push(k, p) => PushUpholds(c, k, p);
        case Settle(k, t) => SettleUpholds(c, k, t);
        case Part(k, p) => PartUpholds(c, k, p);
      }
    }
  }

  // ----- when a scan is safe

  ghost predicate InWindow(queue: seq<Entry>, key: string) {
    exists i :: 0 <= i < |queue| && KeyOf(queue[i].row) == key && queue[i].row.state.Complete? && queue[i].window
  }

  lemma AppendOutsideTheWindow(queue: seq<Entry>, row: Row)
    requires Distinct(queue) && !row.state.Complete? && !Stops(queue, KeyOf(row)) && !InWindow(queue, KeyOf(row))
    ensures Distinct(queue + [Entry(row, false)])
  {
    var next := queue + [Entry(row, false)];
    assert forall i :: 0 <= i < |queue| ==> next[i] == queue[i];
  }

  /** A copy keeps its rows apart if, once reloaded, it would be free of duplicates. */
  ghost predicate Apart(rows: seq<Row>) {
    forall i, j :: 0 <= i < j < |rows| && KeyOf(rows[i]) == KeyOf(rows[j]) ==>
      rows[i].state.Complete? || rows[j].state.Complete?
  }

  ghost predicate Inv(s: State) {
    Distinct(s.queue) && Apart(s.stored) && (s.writing.Some? ==> Apart(s.writing.value))
  }

  ghost predicate Safe(s: State, step: Step) {
    step.Append? ==> !InWindow(s.queue, KeyOf(step.row))
  }

  lemma LoadKeepsKeys(row: Row, now: int)
    ensures KeyOf(LoadRow(row, now)) == KeyOf(row) && (row.state.Complete? ==> LoadRow(row, now).state.Complete?)
  {
  }

  lemma StepKeepsInv(s: State, step: Step)
    requires Inv(s) && Enabled(s, step) && Safe(s, step)
    ensures Inv(Apply(s, step))
  {
    hide Key, KeyOf, LoadRow;
    match step {
      case Append(row) => AppendOutsideTheWindow(s.queue, row);
      case Crash(now) =>
        forall i | 0 <= i < |s.stored|
          ensures KeyOf(LoadRow(s.stored[i], now)) == KeyOf(s.stored[i])
          ensures s.stored[i].state.Complete? ==> LoadRow(s.stored[i], now).state.Complete?
        {
          LoadKeepsKeys(s.stored[i], now);
        }
      case _ =>
    }
  }

  ghost predicate IsRun(states: seq<State>, steps: seq<Step>) {
    && |states| == |steps| + 1
    && (forall i :: 0 <= i < |steps| ==> Enabled(states[i], steps[i]) && states[i + 1] == Apply(states[i], steps[i]))
  }

  /** Whatever scans, retries, cancels, clean-ups and restarts interleave, no two
      undelivered rows share a key, in memory or in any stored queue, as long as no scan
      appends a file that is inside complete at that moment. */
  lemma {:induction false} NoFileIsQueuedTwice(states: seq<State>, steps: seq<Step>, i: nat)
    requires IsRun(states, steps) && states[0] == State([], [], None) && i < |states|
    requires forall k :: 0 <= k < i ==> Safe(states[k], steps[k])
    ensures Inv(states[i])
  {
    if i > 0 {
      NoFileIsQueuedTwice(states, steps, i - 1);
      StepKeepsInv(states[i - 1], steps[i - 1]);
    }
  }

  // ----- exactly when a scan is not safe

  /** Two rows for one file, both to be delivered. */
  ghost predicate Doubled(queue: seq<Entry>) {
    exists i, j :: 0 <= i < j < |queue| && Twins(queue[i].row, queue[j].row)
  }

  predicate Twins(a: Row, b: Row) {
    KeyOf(a) == KeyOf(b) && !a.state.Complete? && !b.state.Complete?
  }

  /** Some run from here, in which every further scan is safe, queues a file twice. */
  ghost predicate MayDouble(s: State) {
    exists states: seq<State>, steps: seq<Step> :: Doubles(s, states, steps)
  }

  ghost predicate Doubles(s: State, states: seq<State>, steps: seq<Step>) {
    && IsRun(states, steps) && states[0] == s && (forall k :: 0 <= k < |steps| ==> Safe(states[k], steps[k]))
    && Doubled(states[|steps|].queue)
  }

  lemma {:induction false} SafeRunsKeepInv(states: seq<State>, steps: seq<Step>, i: nat)
    requires IsRun(states, steps) && Inv(states[0]) && i < |states|
    requires forall k :: 0 <= k < i ==> Safe(states[k], steps[k])
    ensures Inv(states[i])
  {
    if i > 0 {
      SafeRunsKeepInv(states, steps, i - 1);
      StepKeepsInv(states[i - 1], steps[i - 1]);
    }
  }

  lemma DistinctIsNotDoubled(queue: seq<Entry>)
    requires Distinct(queue)
    ensures !Doubled(queue)
  {
  }

  /** What a completion leaves of row i that could not be stored. */
  function TakenBack(entry: Entry): Entry {
    Entry(entry.row.(state := Running), false)
  }

  lemma TakingBackDoubles(s: State, row: Row)
    requires Inv(s) && Enabled(s, Append(row)) && InWindow(s.queue, KeyOf(row))
    ensures MayDouble(Apply(s, Append(row)))
  {
    var d, n := Apply(s, Append(row)), |s.queue|;
    var i :| 0 <= i < n && KeyOf(s.queue[i].row) == KeyOf(row) && s.queue[i].row.state.Complete? && s.queue[i].window;
    assert d.queue[i] == s.queue[i] && d.queue[n].row == row;
    var step := Change(i, TakenBack(d.queue[i]));
    var e := Apply(d, step);
    assert KeyOf(e.queue[i].row) == KeyOf(row) && e.queue[n].row == row;
    assert Twins(e.queue[i].row, e.queue[n].row);
    assert Doubles(d, [d, e], [step]);
  }

  /** The look a scan takes cannot see a completion that may still be taken back. In any
      state without duplicates, what a scan appends can lead to a file that is queued twice,
      by steps that are safe themselves, exactly when that file is inside complete. */
  lemma AppendIsSafeExactlyOutsideTheWindow(s: State, row: Row)
    requires Inv(s) && Enabled(s, Append(row))
    ensures MayDouble(Apply(s, Append(row))) <==> InWindow(s.queue, KeyOf(row))
  {
    var d := Apply(s, Append(row));
    if InWindow(s.queue, KeyOf(row)) {
      TakingBackDoubles(s, row);
    } else if MayDouble(d) {
      var states: seq<State>, steps: seq<Step> :| Doubles(d, states, steps);
      StepKeepsInv(s, Append(row));
      SafeRunsKeepInv(states, steps, |steps|);
      DistinctIsNotDoubled(states[|steps|].queue);
    }
  }

  /** Taking back is what the failed write does to a row inside complete. */
  lemma FailedWriteTakesBack(c: Lifecycle.Cell, k: nat)
    requires Lifecycle.Base(c.mem, c.actors) && k < |c.actors| && c.actors[k].Working?
    requires Lifecycle.SettleEnabled(c.actors[k].work, c, k, Lifecycle.PersistFailed)
    ensures var d, w := Lifecycle.SettleApply(c, k, Lifecycle.PersistFailed), c.actors[k].work;
      && c.mem.row.state.Complete? && Delivery.InWindow(c)
      && Entry(d.mem.row, Delivery.InWindow(d)) ==
           TakenBack(Entry(c.mem.row.(stage := w.stage, finishedAt := w.finishedAt), true))
  {
    Lifecycle.WorkerHolds(c.mem, c.actors, k);
  }

  lemma Extend(states: seq<State>, steps: seq<Step>, step: Step) returns (longer: seq<State>, done: seq<Step>)
    requires IsRun(states, steps) && Enabled(states[|steps|], step)
    ensures done == steps + [step] && longer == states + [Apply(states[|steps|], step)] && IsRun(longer, done)
  {
    longer, done := states + [Apply(states[|steps|], step)], steps + [step];
  }

  /** From an empty queue: a file is queued, claimed and completed, a second scan looks in
      between, the write fails, and the file is queued twice. */
  lemma ScanInsideAFailingCompletion(row: Row) returns (states: seq<State>, steps: seq<Step>)
    requires row.state.Pending?
    ensures IsRun(states, steps) && states[0] == State([], [], None) && |steps| == 5
    ensures steps[0] == Append(row) && steps[3] == Append(row)
    ensures forall k :: 0 <= k < |steps| ==> k == 3 || Safe(states[k], steps[k])
    ensures Doubled(states[5].queue)
  {
    var running, complete := row.(state := Running), row.(state := Complete);
    assert KeyOf(running) == KeyOf(complete) == KeyOf(row);
    hide Key, KeyOf;
    states, steps := Extend([State([], [], None)], [], Append(row));
    assert states[1].queue == [Entry(row, false)];
    states, steps := Extend(states, steps, Change(0, Entry(running, false)));
    assert states[2].queue == [Entry(running, false)];
    states, steps := Extend(states, steps, Change(0, Entry(complete, true)));
    assert states[3].queue == [Entry(complete, true)];
    states, steps := Extend(states, steps, Append(row));
    assert states[4].queue == [Entry(complete, true), Entry(row, false)];
    states, steps := Extend(states, steps, Change(0, Entry(running, false)));
    assert states[5].queue == [Entry(running, false), Entry(row, false)];
    assert Twins(states[5].queue[0].row, states[5].queue[1].row);
  }
}
