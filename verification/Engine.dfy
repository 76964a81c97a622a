/** The engine's locked sections over the whole queue (internal/sync/engine.go,
    transfer.go, downloads.go, scan.go). Each is stated, row by row, by the functions
    of Items that the lifecycle of one row is built from. */
module Engines {
  import opened Wrappers
  import opened Items
  import Dedup
  import Ledger

  const HISTORY_LIMIT := 500

  predicate Unique(ids: seq<nat>) {
    forall i, j :: 0 <= i < j < |ids| ==> ids[i] != ids[j]
  }

  /** The queue with some rows gone: in-place compaction keeps the order. */
  function Without(ids: seq<nat>, gone: set<nat>): (left: seq<nat>)
    ensures forall id :: id in left <==> id in ids && id !in gone
    ensures Unique(ids) ==> Unique(left)
  {
    if ids == [] then []
    else Without(ids[..|ids| - 1], gone) + if ids[|ids| - 1] in gone then [] else [ids[|ids| - 1]]
  }

  /** What Load charges for rows whose upload was committed before the process died. */
  function FinishingBytes(ids: seq<nat>, stored: map<nat, Row>): nat
    requires forall id :: id in ids ==> id in stored
  {
    if ids == [] then 0
    else
      var row := stored[ids[|ids| - 1]];
      FinishingBytes(ids[..|ids| - 1], stored) + if row.state.Running? && row.stage.Finishing? then row.size else 0
  }

  function CompletedBytes(ids: seq<nat>, rows: map<nat, Row>, periodStart: int): nat
    requires forall id :: id in ids ==> id in rows
  {
    if ids == [] then 0
    else
      var row := rows[ids[|ids| - 1]];
      CompletedBytes(ids[..|ids| - 1], rows, periodStart)
      + if row.state.Complete? && row.finishedAt >= periodStart then row.size else 0
  }

  function Members(ids: seq<nat>): set<nat> {
    set id | id in ids
  }

  class Engine {
    var queue: seq<nat>
    var rows: map<nat, Row>
    var runs: map<nat, Run>
    var cancelling: set<nat>
    var deleting: map<nat, nat>
    var active: int
    var reserved: int
    var used: int
    var paused: bool
    var nextRun: nat
    var queueRevision: nat
    var dirty: bool

    ghost predicate Valid()
      reads this
    {
      && Unique(queue) && (forall id :: id in queue ==> id in rows)
      && (forall id :: id in runs || id in cancelling || id in deleting ==> id in rows)
    }

    /** Everything the engine knows of one row. */
    function View(id: nat): Mem
      reads this
      requires id in rows
    {
      Mem(rows[id], id in queue, if id in runs then Some(runs[id]) else None, id in cancelling, Marks(id))
    }

    /** How many goroutines have marked the row. */
    function Marks(id: nat): nat
      reads this
    {
      if id in deleting then deleting[id] else 0
    }

    // ----- claiming

    predicate Ready(id: nat, now: int, jobs: set<string>)
      reads this
      requires id in rows
    {
      CanClaim(View(id)) && rows[id].notBefore <= now && rows[id].jobID in jobs
    }

    /** The first row in the order of the queue that may start. */
    function First(ids: seq<nat>, now: int, jobs: set<string>): (first: Option<nat>)
      reads this
      requires forall id :: id in ids ==> id in rows
      ensures first.Some? ==> first.value in ids && first.value in rows && Ready(first.value, now, jobs)
      ensures first.None? ==> forall id :: id in ids ==> !Ready(id, now, jobs)
    {
      if ids == [] then None else if Ready(ids[0], now, jobs) then Some(ids[0]) else First(ids[1..], now, jobs)
    }

    lemma {:induction false} FirstIsInOrder(ids: seq<nat>, now: int, jobs: set<string>) returns (n: nat)
      requires forall id :: id in ids ==> id in rows
      requires First(ids, now, jobs).Some?
      ensures n < |ids| && First(ids, now, jobs) == Some(ids[n]) && forall i :: 0 <= i < n ==> !Ready(ids[i], now, jobs)
    {
      if Ready(ids[0], now, jobs) {
        n := 0;
      } else {
        var rest := FirstIsInOrder(ids[1..], now, jobs);
        n := rest + 1;
      }
    }

    /** Where in the queue it stands. */
    lemma FirstPlace(now: int, jobs: set<string>) returns (at: nat)
      requires Valid()
      ensures at <= |queue| && (forall n :: 0 <= n < at ==> !Ready(queue[n], now, jobs))
      ensures First(queue, now, jobs) == if at < |queue| then Some(queue[at]) else None
    {
      if First(queue, now, jobs).Some? {
        at := FirstIsInOrder(queue, now, jobs);
      } else {
        at := |queue|;
      }
    }

    lemma PlaceOfTheFirst(at: nat, now: int, jobs: set<string>)
      requires Valid() && at <= |queue| && (forall n :: 0 <= n < at ==> !Ready(queue[n], now, jobs))
      requires at < |queue| ==> Ready(queue[at], now, jobs)
      ensures First(queue, now, jobs) == if at < |queue| then Some(queue[at]) else None
    {
      hide Ready, First;
      var place := FirstPlace(now, jobs);
      if place < |queue| { FirstIsReady(now, jobs); }
    }

    lemma FirstIsReady(now: int, jobs: set<string>)
      requires Valid() && First(queue, now, jobs).Some?
      ensures var first := First(queue, now, jobs).value; first in rows && Ready(first, now, jobs)
    {
    }

    method StartRow(id: nat)
      requires Valid() && id in rows
      modifies `rows, `runs, `active, `reserved, `nextRun, `queueRevision, `dirty
      ensures Valid() && rows.Keys == old(rows.Keys)
      ensures View(id) == Claim(old(View(id)), old(nextRun)) && nextRun == old(nextRun) + 1
      ensures active == old(active) + 1 && reserved == old(reserved) + rows[id].size
      ensures forall other :: other in rows && other != id ==> View(other) == old(View(other))
      ensures dirty && queueRevision == old(queueRevision) + 1
    {
      var row := rows[id];
      rows := rows[id := row.(state := Running, stage := Idle, attempts := row.attempts + 1, notBefore := 0)];
      active := active + 1;
      reserved := reserved + row.size;
      runs := runs[id := Run(nextRun, false)];
      nextRun := nextRun + 1;
      queueRevision, dirty := queueRevision + 1, true;
    }

    /** Rows are taken in order: one that waits out a backoff lets others pass, one that
        does not fit the quota holds them all. at is the place of the first row that may
        start; it does start exactly if the engine is not paused, a worker is free, and
        there is no limit, or it fits beside what is used and reserved, or it is larger than
        the whole limit and nothing is used or reserved. */
    method TakeNext(now: int, workers: int, limit: int, jobs: set<string>) returns (taken: Option<nat>, ghost at: nat)
      requires Valid()
      modifies `rows, `runs, `active, `reserved, `nextRun, `queueRevision, `dirty
      ensures Valid() && rows.Keys == old(rows.Keys)
      ensures taken ==
        if old(paused) || old(active) >= workers then None
        else
          var first := old(First(queue, now, jobs));
          if first.Some? && Ledger.QuotaAllows(limit, used, old(reserved), rows[first.value].size) then first else None
      ensures at <= |queue| && forall n :: 0 <= n < at ==>
        var id := queue[n]; var row := old(rows)[id];
          !row.state.Pending? || row.notBefore > now || id in old(runs) || Marks(id) > 0 || row.jobID !in jobs
      ensures at < |queue| ==>
        var id := queue[at]; var row := old(rows)[id];
          row.state.Pending? && row.notBefore <= now && id !in old(runs) && Marks(id) == 0 && row.jobID in jobs
      ensures taken.Some? <==>
        && !paused && old(active) < workers && at < |queue|
        && var size := old(rows)[queue[at]].size;
          limit <= 0 || used + old(reserved) + size <= limit || (size > limit && used == 0 && old(reserved) == 0)
      ensures taken.Some? ==> at < |queue| && taken.value == queue[at]
      ensures taken.None? ==> unchanged(this)
      ensures taken.Some? ==>
        && rows[taken.value] == old(rows[taken.value]).(state := Running, stage := Idle, notBefore := 0,
                                                        attempts := old(rows[taken.value]).attempts + 1)
        && taken.value in runs && runs[taken.value] == Run(old(nextRun), false)
      ensures taken.Some? ==>
        && View(taken.value) == Claim(old(View(taken.value)), old(nextRun)) && nextRun == old(nextRun) + 1
        && active == old(active) + 1 <= workers && reserved == old(reserved) + rows[taken.value].size
        && (forall id :: id in rows && id != taken.value ==> View(id) == old(View(id)))
        && dirty && queueRevision == old(queueRevision) + 1
    {
      if paused || active >= workers {
        at := FirstPlace(now, jobs);
        return None, at;
      }
      var n := FindReady(now, jobs);
      at := n;
      if n == |queue| || !Ledger.QuotaAllows(limit, used, reserved, rows[queue[n]].size) {
        return None, at;
      }
      StartRow(queue[n]);
      taken := Some(queue[n]);
    }

    /** The loop of takeNext, up to the first row that may start. */
    method FindReady(now: int, jobs: set<string>) returns (at: nat)
      requires Valid()
      ensures at <= |queue| && forall n :: 0 <= n < at ==>
        var row := rows[queue[n]];
          !row.state.Pending? || row.notBefore > now || queue[n] in runs || Marks(queue[n]) > 0 || row.jobID !in jobs
      ensures at < |queue| ==>
        var row := rows[queue[at]];
          row.state.Pending? && row.notBefore <= now && queue[at] !in runs && Marks(queue[at]) == 0 && row.jobID in jobs
      ensures First(queue, now, jobs) == if at < |queue| then Some(queue[at]) else None
    {
      at := 0;
      while at < |queue|
        invariant 0 <= at <= |queue| && forall n :: 0 <= n < at ==>
          var row := rows[queue[n]];
            !row.state.Pending? || row.notBefore > now || queue[n] in runs || Marks(queue[n]) > 0 || row.jobID !in jobs
      {
        var id := queue[at];
        var row := rows[id];
        if row.state.Pending? && row.notBefore <= now && id !in runs && !(id in deleting && deleting[id] > 0)
          && row.jobID in jobs
        {
          break;
        }
        at := at + 1;
      }
      PlaceOfTheFirst(at, now, jobs);
    }

    // ----- one worker's sections

    method MarkDeleting(id: nat)
      requires Valid() && id in rows
      modifies `deleting
      ensures Valid()
      ensures View(id) == Marked(old(View(id)))
      ensures Marks(id) == old(Marks(id)) + 1
      ensures forall other :: other in rows && other != id ==> View(other) == old(View(other))
    {
      deleting := deleting[id := (if id in deleting then deleting[id] else 0) + 1];
    }

    method UnmarkDeleting(id: nat)
      requires Valid() && id in rows
      modifies `deleting
      ensures Valid()
      ensures View(id) == Unmarked(old(View(id)))
      ensures Marks(id) == if old(Marks(id)) == 0 then 0 else old(Marks(id)) - 1
      ensures forall other :: other in rows && other != id ==> View(other) == old(View(other))
    {
      if id in deleting {
        if deleting[id] <= 1 {
          deleting := deleting - {id};
        } else {
          deleting := deleting[id := deleting[id] - 1];
        }
      }
    }

    predicate CancellationRequested(id: nat)
      reads this
    {
      (id in runs && runs[id].cancelRequested) || id in cancelling
    }

    /** watchItem, for a claimed row: a cancellation that came before the worker did is
        carried over to its run. */
    method WatchRun(id: nat)
      requires Valid() && id in rows && id in runs
      modifies `runs, `cancelling
      ensures Valid()
      ensures View(id) == Watch(old(View(id)))
      ensures var asked := old(runs[id]).cancelRequested || id in old(cancelling);
        id in runs && runs[id] == Run(old(runs[id]).who, asked) && (id in cancelling <==> asked)
      ensures forall other :: other in rows && other != id ==> View(other) == old(View(other))
    {
      if CancellationRequested(id) {
        runs := runs[id := runs[id].(cancelRequested := true)];
        cancelling := cancelling + {id};
      }
    }

    method SetStage(id: nat, stage: Stage)
      requires Valid() && id in rows
      modifies `rows, `queueRevision, `dirty
      ensures Valid() && rows.Keys == old(rows.Keys) && dirty
      ensures View(id) == WithStage(old(View(id)), stage)
      ensures rows == old(rows)[id := old(rows[id]).(stage := stage)]
      ensures forall other :: other in rows && other != id ==> View(other) == old(View(other))
    {
      rows := rows[id := rows[id].(stage := stage)];
      queueRevision, dirty := queueRevision + 1, true;
    }

    method RecordJob(id: nat, job: nat)
      requires Valid() && id in rows
      modifies `rows
      ensures Valid() && rows.Keys == old(rows.Keys)
      ensures View(id) == WithJob(old(View(id)), Some(job))
      ensures rows == old(rows)[id := old(rows[id]).(uploadJob := Some(job))]
      ensures forall other :: other in rows && other != id ==> View(other) == old(View(other))
    {
      rows := rows[id := rows[id].(uploadJob := Some(job))];
    }

    /** The cloud original has been deleted, by the worker or by the clean-up. */
    method NoteOriginalGone(id: nat)
      requires Valid() && id in rows
      modifies `rows, `queueRevision, `dirty
      ensures Valid() && rows.Keys == old(rows.Keys)
      ensures View(id) == OriginalGone(old(View(id)))
      ensures rows == old(rows)[id := old(rows[id]).(deleteAfter := false)]
      ensures forall other :: other in rows && other != id ==> View(other) == old(View(other))
    {
      rows := rows[id := rows[id].(deleteAfter := false)];
      queueRevision, dirty := queueRevision + 1, true;
    }

    /** DeleteStaged has removed the row's staged files. */
    method ResetDownloaded(id: nat)
      requires Valid() && id in rows
      modifies `rows, `queueRevision, `dirty
      ensures Valid() && rows.Keys == old(rows.Keys)
      ensures View(id) == NothingDownloaded(old(View(id)))
      ensures rows == old(rows)[id := old(rows[id]).(downloaded := 0)]
      ensures forall other :: other in rows && other != id ==> View(other) == old(View(other))
    {
      rows := rows[id := rows[id].(downloaded := 0)];
      queueRevision, dirty := queueRevision + 1, true;
    }

    /** The first locked section of complete; what it returns is what a rollback needs. */
    method StartCompletion(id: nat, now: int) returns (refused: bool, state: RowState, stage: Stage, finishedAt: int)
      requires Valid() && id in rows
      modifies `rows, `deleting, `used, `queueRevision, `dirty
      ensures Valid() && rows.Keys == old(rows.Keys)
      ensures refused == Refuses(old(View(id))) && View(id) == CompleteStart(old(View(id)), now)
      ensures refused <==> old((id in runs && runs[id].cancelRequested) || id in cancelling || rows[id].state.Cancelled?)
      ensures rows == if refused then old(rows) else old(rows)[id := old(rows[id]).(state := Complete, stage := Idle, finishedAt := now)]
      ensures Marks(id) == old(Marks(id)) + if refused then 0 else 1
      ensures used == old(used) + if refused then 0 else rows[id].size
      ensures state == old(rows[id].state) && stage == old(rows[id].stage) && finishedAt == old(rows[id].finishedAt)
      ensures forall other :: other in rows && other != id ==> View(other) == old(View(other))
    {
      var row := rows[id];
      state, stage, finishedAt := row.state, row.stage, row.finishedAt;
      if CancellationRequested(id) || state.Cancelled? {
        return true, state, stage, finishedAt;
      }
      MarkDeleting(id);
      rows := rows[id := row.(state := Complete, stage := Idle, finishedAt := now)];
      used := used + row.size;
      queueRevision, dirty := queueRevision + 1, true;
      refused := false;
    }

    /** A completion that could not be stored puts row and counter back as they were. */
    method RollBackCompletion(id: nat, state: RowState, stage: Stage, finishedAt: int)
      requires Valid() && id in rows
      modifies `rows, `used, `queueRevision, `dirty
      ensures Valid() && rows.Keys == old(rows.Keys)
      ensures View(id) == CompleteRollback(old(View(id)), state, stage, finishedAt) && used == old(used) - rows[id].size
      ensures rows == old(rows)[id := old(rows[id]).(state := state, stage := stage, finishedAt := finishedAt)]
      ensures forall other :: other in rows && other != id ==> View(other) == old(View(other))
    {
      rows := rows[id := rows[id].(state := state, stage := stage, finishedAt := finishedAt)];
      used := used - rows[id].size;
      queueRevision, dirty := queueRevision + 1, true;
    }

    /** complete as a whole, with nothing between its sections: a failed write leaves
        every row and the counter as they were, marks apart from the revision. */
    method CompleteRow(id: nat, now: int, stored: bool) returns (done: bool)
      requires Valid() && id in rows
      modifies `rows, `deleting, `used, `queueRevision, `dirty
      ensures Valid() && rows.Keys == old(rows.Keys)
      ensures done == (stored && !Refuses(old(View(id))))
      ensures done <==> stored && !old((id in runs && runs[id].cancelRequested) || id in cancelling || rows[id].state.Cancelled?)
      ensures rows == if done then old(rows)[id := old(rows[id]).(state := Complete, stage := Idle, finishedAt := now)] else old(rows)
      ensures Marks(id) == old(Marks(id))
      ensures View(id) == if done then Unmarked(CompleteStart(old(View(id)), now)) else old(View(id))
      ensures used == old(used) + if done then rows[id].size else 0
      ensures forall other :: other in rows && other != id ==> View(other) == old(View(other))
    {
      var refused, state, stage, finishedAt := StartCompletion(id, now);
      if refused {
        return false;
      }
      if !stored {
        RollBackCompletion(id, state, stage, finishedAt);
      }
      UnmarkDeleting(id);
      done := stored;
    }

    method FailRow(id: nat, now: int)
      requires Valid() && id in rows
      modifies `rows, `queueRevision, `dirty
      ensures Valid() && rows.Keys == old(rows.Keys)
      ensures View(id) == Fail(old(View(id)), now)
      ensures rows ==
        if old((id in runs && runs[id].cancelRequested) || id in cancelling || rows[id].state.Cancelled?) then old(rows)
        else old(rows)[id := old(rows[id]).(state := Failed, stage := Idle, finishedAt := now, notBefore := 0)]
      ensures forall other :: other in rows && other != id ==> View(other) == old(View(other))
    {
      if CancellationRequested(id) || rows[id].state.Cancelled? {
        return;
      }
      rows := rows[id := rows[id].(state := Failed, stage := Idle, finishedAt := now, notBefore := 0)];
      queueRevision, dirty := queueRevision + 1, true;
    }

    method RequeueRow(id: nat, notBefore: int, charge: bool)
      requires Valid() && id in rows
      modifies `rows, `queueRevision, `dirty
      ensures Valid() && rows.Keys == old(rows.Keys)
      ensures View(id) == Requeue(old(View(id)), notBefore, charge)
      ensures var spent := old(rows[id]).attempts;
        rows ==
          if old((id in runs && runs[id].cancelRequested) || id in cancelling || rows[id].state.Cancelled?) then old(rows)
          else
            old(rows)[id := old(rows[id]).(state := Pending, stage := Idle, uploaded := 0, uploadJob := None, finishedAt := 0,
                                           notBefore := notBefore, attempts := if charge || spent == 0 then spent else spent - 1)]
      ensures forall other :: other in rows && other != id ==> View(other) == old(View(other))
    {
      if CancellationRequested(id) || rows[id].state.Cancelled? {
        return;
      }
      var row := rows[id].(state := Pending, stage := Idle, uploaded := 0, uploadJob := None, finishedAt := 0,
                           notBefore := notBefore);
      if !charge && row.attempts > 0 {
        row := row.(attempts := row.attempts - 1);
      }
      rows := rows[id := row];
      queueRevision, dirty := queueRevision + 1, true;
    }

    /** The end of a watch: a worker takes down its own record, never a later one's. */
    method ReleaseRun(id: nat, who: nat)
      requires Valid() && id in rows
      modifies `runs, `cancelling
      ensures Valid()
      ensures View(id) == Release(old(View(id)), who)
      ensures var mine := id in old(runs) && old(runs)[id].who == who;
        && runs == (if mine then old(runs) - {id} else old(runs))
        && cancelling == (if mine then old(cancelling) - {id} else old(cancelling))
      ensures forall other :: other in rows && other != id ==> View(other) == old(View(other))
    {
      if id in runs && runs[id].who == who {
        runs := runs - {id};
        cancelling := cancelling - {id};
      }
    }

    method ReleaseReservation(size: nat)
      modifies `reserved
      ensures reserved == if old(reserved) < size then 0 else old(reserved) - size
    {
      reserved := reserved - size;
      if reserved < 0 {
        reserved := 0;
      }
    }

    /** rollQuota, when the period has turned over. */
    method RollQuota()
      modifies `used
      ensures used == 0
    {
      used := 0;
    }

    method FinishActive()
      modifies `active
      ensures active == if old(active) < 1 then 0 else old(active) - 1
    {
      active := active - 1;
      if active < 0 {
        active := 0;
      }
    }

    // ----- operator actions

    /** A live run is told; without one no request is left behind that nobody would clear. */
    method RequestCancellation(id: nat)
      requires Valid() && id in rows
      modifies `runs, `cancelling
      ensures Valid()
      ensures var m := old(View(id));
        && View(id).run == (if m.run.Some? then Some(m.run.value.(cancelRequested := true)) else None)
        && View(id) == m.(run := View(id).run, cancelling := m.run.Some?)
      ensures forall other :: other in rows && other != id ==> View(other) == old(View(other))
    {
      if id in runs {
        runs := runs[id := runs[id].(cancelRequested := true)];
        cancelling := cancelling + {id};
      } else {
        cancelling := cancelling - {id};
      }
    }

    /** What Cancel does to one row it has matched. */
    method CancelRow(id: nat, now: int) returns (touched: bool)
      requires Valid() && id in rows && id in queue
      modifies `rows, `runs, `cancelling, `deleting
      ensures Valid() && rows.Keys == old(rows.Keys)
      ensures touched == CanCancel(old(View(id)))
      ensures View(id) == if touched then Cancel(old(View(id)), now) else old(View(id))
      ensures forall other :: other in rows && other != id ==> View(other) == old(View(other))
    {
      var row := rows[id];
      if row.state.Complete? || (id !in runs && id in deleting && deleting[id] > 0) {
        return false;
      }
      RequestCancellation(id);
      MarkDeleting(id);
      rows := rows[id := row.(state := Cancelled, stage := Idle, notBefore := 0, finishedAt := now)];
      touched := true;
    }

    /** What a cancelled row comes to: a live run is told, and the row is marked. */
    static predicate CancelledAs(m: Mem, n: Mem, now: int) {
      && n.row == m.row.(state := Cancelled, stage := Idle, notBefore := 0, finishedAt := now)
      && n.run == (if m.run.Some? then Some(Run(m.run.value.who, true)) else None)
      && n.cancelling == m.run.Some? && n.deleting == m.deleting + 1 && n.queued == m.queued
    }

    static lemma CancelMeans(m: Mem, now: int)
      ensures CancelledAs(m, Cancel(m, now), now)
      ensures CanCancel(m) <==> m.queued && !m.row.state.Complete? && (m.run.Some? || m.deleting == 0)
    {
    }

    /** The loop of Cancel. */
    method CancelEach(wanted: set<nat>, now: int) returns (touched: set<nat>)
      requires Valid()
      modifies `rows, `runs, `cancelling, `deleting
      ensures Valid() && rows.Keys == old(rows.Keys)
      ensures forall id :: id in touched <==>
        id in wanted && id in queue && !old(rows[id]).state.Complete? && (id in old(runs) || old(Marks(id)) == 0)
      ensures forall id :: id in rows ==>
        if id in touched then CancelledAs(old(View(id)), View(id), now) else View(id) == old(View(id))
    {
      hide Cancel, CanCancel, CancelledAs;
      OutsideTheQueue();
      touched := {};
      for n := 0 to |queue|
        invariant Valid() && rows.Keys == old(rows.Keys)
        invariant forall id :: id in touched <==> id in queue[..n] && id in wanted && CanCancel(old(View(id)))
        invariant forall id :: id in rows ==> View(id) == if id in touched then Cancel(old(View(id)), now) else old(View(id))
      {
        var id := queue[n];
        assert queue[..n + 1] == queue[..n] + [id];
        if id in wanted {
          assert id !in queue[..n];
          var cancelled := CancelRow(id, now);
          if cancelled {
            touched := touched + {id};
          }
        }
      }
      assert queue[..|queue|] == queue;
      forall id | id in rows
        ensures CancelledAs(old(View(id)), Cancel(old(View(id)), now), now)
        ensures CanCancel(old(View(id))) <==>
          id in queue && !old(rows[id]).state.Complete? && (id in old(runs) || old(Marks(id)) == 0)
      {
        CancelMeans(old(View(id)), now);
      }
    }

    /** The locked section of Cancel. Every wanted row of the queue is cancelled unless it
        is delivered, or a cleaner holds it and no worker does. One with a live run is to be
        waited for; one without is the caller's to clean up, with the upload job it had. */
    method CancelRows(wanted: set<nat>, now: int) returns (interrupted: map<nat, nat>, idle: map<nat, Option<nat>>)
      requires Valid()
      modifies `rows, `runs, `cancelling, `deleting, `queueRevision, `dirty
      ensures Valid() && rows.Keys == old(rows.Keys)
      ensures forall id :: id in rows ==>
        if id in wanted && id in queue && !old(rows[id]).state.Complete? && (id in old(runs) || old(Marks(id)) == 0)
        then CancelledAs(old(View(id)), View(id), now)
        else View(id) == old(View(id))
      ensures forall id :: id in interrupted <==>
        id in wanted && id in queue && !old(rows[id]).state.Complete? && id in old(runs)
      ensures forall id :: id in idle <==>
        id in wanted && id in queue && !old(rows[id]).state.Complete? && id !in old(runs) && old(Marks(id)) == 0
      ensures forall id :: id in interrupted ==> interrupted[id] == old(runs[id]).who
      ensures forall id :: id in idle ==> idle[id] == old(rows[id]).uploadJob
      ensures interrupted != map[] || idle != map[] ==> dirty
    {
      hide CancelledAs, Unique;
      var touched := CancelEach(wanted, now);
      if touched != {} {
        queueRevision, dirty := queueRevision + 1, true;
      }
      forall id | id in touched
        ensures (id in runs <==> id in old(runs)) && (id in runs ==> runs[id].who == old(runs[id]).who)
        ensures rows[id].uploadJob == old(rows[id]).uploadJob
      {
        CancelKeepsRunAndJob(old(View(id)), View(id), now);
      }
      interrupted, idle := SplitCancelled(touched);
    }

    /** Which of these rows have a live run, and the upload jobs of the others. */
    method SplitCancelled(touched: set<nat>) returns (interrupted: map<nat, nat>, idle: map<nat, Option<nat>>)
      requires touched <= rows.Keys
      ensures forall id :: id in interrupted <==> id in touched && id in runs
      ensures forall id :: id in idle <==> id in touched && id !in runs
      ensures forall id :: id in interrupted ==> interrupted[id] == runs[id].who
      ensures forall id :: id in idle ==> idle[id] == rows[id].uploadJob
      ensures interrupted != map[] || idle != map[] ==> touched != {}
    {
      interrupted := map id | id in touched && id in runs :: runs[id].who;
      idle := map id | id in touched && id !in runs :: rows[id].uploadJob;
    }

    static lemma CancelKeepsRunAndJob(m: Mem, n: Mem, now: int)
      requires CancelledAs(m, n, now)
      ensures n.run.Some? == m.run.Some? && (m.run.Some? ==> n.run.value.who == m.run.value.who)
      ensures n.row.uploadJob == m.row.uploadJob
    {
    }

    method ResetRow(id: nat)
      requires Valid() && id in rows
      modifies `rows, `cancelling
      ensures Valid() && rows.Keys == old(rows.Keys)
      ensures View(id) == ResetForRetry(old(View(id)))
      ensures forall other :: other in rows && other != id ==> View(other) == old(View(other))
    {
      cancelling := cancelling - {id};
      rows := rows[id := rows[id].(state := Pending, stage := Idle, downloaded := 0, uploaded := 0, uploadJob := None,
                                   finishedAt := 0, attempts := 0, notBefore := 0)];
    }

    /** A waiting row again, with nothing done and nothing charged. */
    static predicate StartsOver(m: Mem, n: Mem) {
      && n.row == m.row.(state := Pending, stage := Idle, downloaded := 0, uploaded := 0, uploadJob := None, finishedAt := 0,
                         attempts := 0, notBefore := 0)
      && n == m.(row := n.row, cancelling := false)
    }

    static lemma RetryMeans(m: Mem)
      ensures CanRetry(m) <==> m.queued && !m.row.state.Running? && !m.row.state.Complete? && m.run.None? && m.deleting == 0
      ensures var n := RetryStart(m);
        if CanRetry(m) then if m.row.uploadJob.Some? then n == m.(deleting := 1) else StartsOver(m, n) else n == m
    {
    }

    /** What the first section of Retry does to one row. */
    static function RetryStart(m: Mem): Mem {
      if !CanRetry(m) then m else if m.row.uploadJob.Some? then Marked(m) else ResetForRetry(m)
    }

    method RetryRow(id: nat) returns (stale: bool, requeued: bool)
      requires Valid() && id in rows && id in queue
      modifies `rows, `cancelling, `deleting
      ensures Valid() && rows.Keys == old(rows.Keys)
      ensures View(id) == RetryStart(old(View(id)))
      ensures stale == (CanRetry(old(View(id))) && old(rows[id]).uploadJob.Some?)
      ensures requeued == (CanRetry(old(View(id))) && old(rows[id]).uploadJob.None?)
      ensures forall other :: other in rows && other != id ==> View(other) == old(View(other))
    {
      var row := rows[id];
      if row.state.Running? || row.state.Complete? || id in runs || (id in deleting && deleting[id] > 0) {
        return false, false;
      }
      if row.uploadJob.Some? {
        MarkDeleting(id);
        return true, false;
      }
      ResetRow(id);
      return false, true;
    }

    /** The loop of Retry. */
    method RetryEach(wanted: set<nat>) returns (stale: seq<(nat, nat)>, requeued: nat)
      requires Valid()
      modifies `rows, `cancelling, `deleting
      ensures Valid() && rows.Keys == old(rows.Keys)
      ensures forall id :: id in rows ==> View(id) == if id in wanted then RetryStart(old(View(id))) else old(View(id))
      ensures forall id, job :: (id, job) in stale <==>
        id in rows && id in wanted && CanRetry(old(View(id))) && old(rows[id]).uploadJob == Some(job)
      ensures requeued > 0 <==> exists id :: id in queue && id in wanted && CanRetry(old(View(id))) && old(rows[id]).uploadJob.None?
    {
      hide CanRetry, RetryStart;
      stale, requeued := [], 0;
      for n := 0 to |queue|
        invariant Valid() && rows.Keys == old(rows.Keys)
        invariant forall id :: id in rows ==>
          View(id) == if id in queue[..n] && id in wanted then RetryStart(old(View(id))) else old(View(id))
        invariant forall id, job :: (id, job) in stale <==>
          id in rows && id in queue[..n] && id in wanted && CanRetry(old(View(id))) && old(rows[id]).uploadJob == Some(job)
        invariant requeued > 0 <==>
          exists id :: id in queue[..n] && id in wanted && CanRetry(old(View(id))) && old(rows[id]).uploadJob.None?
      {
        var id := queue[n];
        assert queue[..n + 1] == queue[..n] + [id];
        if id in wanted {
          assert id !in queue[..n];
          assert View(id) == old(View(id));
          var job := rows[id].uploadJob;
          var isStale, isRequeued := RetryRow(id);
          if isStale {
            stale := stale + [(id, job.value)];
          }
          if isRequeued {
            requeued := requeued + 1;
          }
        }
      }
      assert queue[..|queue|] == queue;
      OutsideTheQueue();
      forall id | id in rows && id !in queue ensures RetryStart(old(View(id))) == old(View(id)) {
        RetryMeans(old(View(id)));
      }
    }

    /** The first locked section of Retry, for every wanted row of the queue that is neither
        running nor delivered and that nobody works on. One that still names an upload job
        is only reserved, until that job has been aborted; the others start over. */
    method RetryRows(wanted: set<nat>) returns (stale: seq<(nat, nat)>, requeued: nat)
      requires Valid()
      modifies `rows, `cancelling, `deleting, `queueRevision, `dirty
      ensures Valid() && rows.Keys == old(rows.Keys)
      ensures forall id :: id in rows ==>
        var row := old(rows[id]);
          if id in wanted && id in queue && !row.state.Running? && !row.state.Complete? && id !in runs && old(Marks(id)) == 0
          then
            if row.uploadJob.Some? then View(id) == old(View(id)).(deleting := 1)
            else StartsOver(old(View(id)), View(id))
          else View(id) == old(View(id))
      ensures forall id, job :: (id, job) in stale <==>
        var row := if id in rows then Some(old(rows)[id]) else None;
          && row.Some? && id in wanted && id in queue && !row.value.state.Running? && !row.value.state.Complete?
          && id !in runs && old(Marks(id)) == 0 && row.value.uploadJob == Some(job)
      ensures forall id :: id in wanted && id in queue && View(id) != old(View(id)) && old(rows[id]).uploadJob.None? ==> dirty
    {
      hide StartsOver, CanRetry, RetryStart;
      stale, requeued := RetryEach(wanted);
      if requeued > 0 {
        queueRevision, dirty := queueRevision + 1, true;
      }
      forall id | id in rows ensures
        var m, n := old(View(id)), RetryStart(old(View(id)));
          && (CanRetry(m) <==> m.queued && !m.row.state.Running? && !m.row.state.Complete? && m.run.None? && m.deleting == 0)
          && if CanRetry(m) then if m.row.uploadJob.Some? then n == m.(deleting := 1) else StartsOver(m, n) else n == m
      {
        RetryMeans(old(View(id)));
      }
    }

    lemma OutsideTheQueue()
      ensures forall id :: id in rows && id !in queue ==>
        && !CanCancel(View(id)) && !CanRetry(View(id)) && !CanDeleteStaged(View(id))
        && !CanCleanUp(View(id)) && !CanClear(View(id)) && !CanTrim(View(id))
    {
    }

    /** The locked section of DeleteStaged, for rows the queue knows: it marks every one
        that is not being worked on, and counts the rest. */
    method MarkStaged(wanted: set<nat>) returns (targets: seq<nat>, running: nat)
      requires Valid()
      modifies `deleting
      ensures Valid()
      ensures forall id :: id in rows ==>
        View(id) == if id in targets then old(View(id)).(deleting := 1) else old(View(id))
      ensures Unique(targets) && forall id :: id in targets <==>
        id in wanted && id in queue && !rows[id].state.Running? && id !in runs && old(Marks(id)) == 0
      ensures running > 0 <==> exists id :: id in queue && id in wanted && id !in targets
    {
      targets, running := [], 0;
      for n := 0 to |queue|
        invariant Valid()
        invariant forall id :: id in rows ==>
          View(id) == if id in queue[..n] && id in wanted && CanDeleteStaged(old(View(id))) then Marked(old(View(id)))
                      else old(View(id))
        invariant Unique(targets)
        invariant forall id :: id in targets <==> id in queue[..n] && id in wanted && CanDeleteStaged(old(View(id)))
        invariant running > 0 <==> exists id :: id in queue[..n] && id in wanted && !CanDeleteStaged(old(View(id)))
      {
        var id := queue[n];
        assert queue[..n + 1] == queue[..n] + [id];
        if id in wanted {
          assert id !in queue[..n];
          assert View(id) == old(View(id));
          if rows[id].state.Running? || id in runs || (id in deleting && deleting[id] > 0) {
            assert !CanDeleteStaged(old(View(id)));
            running := running + 1;
          } else {
            assert CanDeleteStaged(old(View(id)));
            targets := targets + [id];
            MarkDeleting(id);
          }
        }
      }
      assert queue[..|queue|] == queue;
      OutsideTheQueue();
    }

    /** The first locked section of retryPendingCleanups. */
    method MarkCleanups() returns (pending: seq<nat>)
      requires Valid()
      modifies `deleting
      ensures Valid()
      ensures forall id :: id in rows ==>
        View(id) == if id in pending then old(View(id)).(deleting := 1) else old(View(id))
      ensures Unique(pending) && forall id :: id in pending <==>
        id in queue && rows[id].state.Complete? && rows[id].deleteAfter && old(Marks(id)) == 0
    {
      pending := [];
      for n := 0 to |queue|
        invariant Valid()
        invariant forall id :: id in rows ==>
          View(id) == if id in queue[..n] && CanCleanUp(old(View(id))) then Marked(old(View(id))) else old(View(id))
        invariant Unique(pending)
        invariant forall id :: id in pending <==> id in queue[..n] && CanCleanUp(old(View(id)))
      {
        var id := queue[n];
        assert queue[..n + 1] == queue[..n] + [id];
        assert id !in queue[..n];
        assert View(id) == old(View(id));
        if rows[id].state.Complete? && rows[id].deleteAfter && !(id in deleting && deleting[id] > 0) {
          assert CanCleanUp(old(View(id)));
          pending := pending + [id];
          MarkDeleting(id);
        } else {
          assert !CanCleanUp(old(View(id)));
        }
      }
      assert queue[..|queue|] == queue;
      OutsideTheQueue();
    }

    /** The first locked section of abort: of several who want a job gone, one gets it. */
    method ClaimJob(id: nat, job: nat) returns (mine: bool)
      requires Valid() && id in rows
      modifies `rows
      ensures Valid() && rows.Keys == old(rows.Keys)
      ensures mine == (old(rows[id]).uploadJob == Some(job)) && View(id) == TakeJob(old(View(id)), job)
      ensures rows == if mine then old(rows)[id := old(rows[id]).(uploadJob := None)] else old(rows)
      ensures forall other :: other in rows && other != id ==> View(other) == old(View(other))
    {
      mine := rows[id].uploadJob == Some(job);
      if mine {
        rows := rows[id := rows[id].(uploadJob := None)];
      }
    }

    /** The last locked section of a Retry that had an old upload job to abort. */
    method FinishRetry(id: nat, job: nat, aborted: bool)
      requires Valid() && id in rows
      modifies `rows, `cancelling, `deleting, `queueRevision, `dirty
      ensures Valid() && rows.Keys == old(rows.Keys)
      ensures View(id) == RetryOutcome(old(View(id)), job, aborted)
      ensures var m := old(View(id)).(deleting := View(id).deleting);
        if aborted then if id in runs then View(id) == m else StartsOver(m, View(id))
        else View(id) == m.(row := m.row.(uploadJob := if m.row.uploadJob.Some? then m.row.uploadJob else Some(job)))
      ensures Marks(id) == if old(Marks(id)) == 0 then 0 else old(Marks(id)) - 1
      ensures forall other :: other in rows && other != id ==> View(other) == old(View(other))
    {
      if !aborted {
        if rows[id].uploadJob.None? {
          rows := rows[id := rows[id].(uploadJob := Some(job))];
          queueRevision, dirty := queueRevision + 1, true;
        }
      } else if id !in runs {
        ResetRow(id);
        queueRevision, dirty := queueRevision + 1, true;
      }
      UnmarkDeleting(id);
    }

    // ----- scanning and loading

    function Entries(): seq<Dedup.Entry>
      reads this
      requires forall id :: id in queue ==> id in rows
    {
      seq(|queue|, i requires 0 <= i < |queue| && queue[i] in rows reads this => Dedup.Entry(rows[queue[i]], false))
    }

    lemma EntriesAreTheQueue(key: string)
      requires Valid()
      ensures (exists i :: 0 <= i < |Entries()| && KeyOf(Entries()[i].row) == key && !Entries()[i].row.state.Complete?) <==>
              (exists id :: id in queue && KeyOf(rows[id]) == key && !rows[id].state.Complete?)
    {
      hide KeyOf;
      forall id | id in queue ensures exists i :: 0 <= i < |Entries()| && Entries()[i].row == rows[id] {
        var i :| 0 <= i < |queue| && queue[i] == id;
        assert Entries()[i].row == rows[id];
      }
    }

    /** The second locked section of consider: look again, and append only if every row of
        the same file has been delivered. */
    method Consider(id: nat, row: Row, jobIsCurrent: bool) returns (queued: bool)
      requires Valid() && id !in rows
      modifies `queue, `rows, `queueRevision, `dirty
      ensures Valid()
      ensures queued <==>
        && jobIsCurrent
        && forall other :: other in old(queue) && KeyOf(old(rows[other])) == KeyOf(row) ==> old(rows[other]).state.Complete?
      ensures if queued then queue == old(queue) + [id] && rows == old(rows)[id := row] && dirty else unchanged(this)
    {
      EntriesAreTheQueue(KeyOf(row));
      var stop, _ := Dedup.InspectLocked(Entries(), jobIsCurrent, KeyOf(row), row.targetDir);
      if stop {
        return false;
      }
      rows := rows[id := row];
      queue := queue + [id];
      queueRevision, dirty := queueRevision + 1, true;
      queued := true;
    }

    /** Load: running rows are put back, or completed if their upload was committed, and
        the counter covers at least what was completed in the current period. */
    method Load(ids: seq<nat>, stored: map<nat, Row>, counter: int, now: int, periodStart: int)
      requires Unique(ids) && forall id :: id in ids ==> id in stored
      modifies this
      ensures Valid() && queue == ids && rows.Keys == Members(ids) && unchanged(`active, `reserved, `nextRun)
      ensures forall id :: id in ids ==> id in rows && View(id) == Mem(LoadRow(stored[id], now), true, None, false, 0)
      ensures forall id :: id in ids ==>
        var was := stored[id];
          rows[id] ==
            if !was.state.Running? then was
            else if was.stage.Finishing? then was.(state := Complete, stage := Idle, finishedAt := now, uploaded := was.size)
            else was.(state := Pending, stage := Idle, uploaded := 0, uploadJob := None, notBefore := 0,
                      attempts := if was.attempts == 0 then 0 else was.attempts - 1)
      ensures CompletedBytes(ids, rows, periodStart) <= used
      ensures var charged := counter + FinishingBytes(ids, stored);
        used == charged || (charged < used == CompletedBytes(ids, rows, periodStart))
      ensures !dirty && queueRevision == 0
    {
      var loaded, charged := LoadRows(ids, stored, now);
      var today := CountCompleted(ids, loaded, periodStart);
      queue, rows, runs, cancelling, deleting := ids, loaded, map[], {}, map[];
      used := if today > counter + charged then today else counter + charged;
      queueRevision, dirty := 0, false;
    }

    static method Reset(stored: Row, now: int) returns (row: Row)
      ensures row == LoadRow(stored, now)
    {
      row := stored;
      if row.state.Running? {
        if row.stage.Finishing? {
          row := row.(state := Complete, stage := Idle, finishedAt := now, uploaded := row.size);
        } else {
          row := row.(state := Pending, stage := Idle, uploaded := 0, uploadJob := None, notBefore := 0);
          if row.attempts > 0 {
            row := row.(attempts := row.attempts - 1);
          }
        }
      }
    }

    static method LoadRows(ids: seq<nat>, stored: map<nat, Row>, now: int) returns (loaded: map<nat, Row>, charged: nat)
      requires forall id :: id in ids ==> id in stored
      ensures forall id :: id in loaded <==> id in ids
      ensures forall id :: id in ids ==> loaded[id] == LoadRow(stored[id], now)
      ensures charged == FinishingBytes(ids, stored)
    {
      hide LoadRow;
      loaded, charged := map[], 0;
      for n := 0 to |ids|
        invariant forall id :: id in loaded <==> id in ids[..n]
        invariant forall id :: id in ids[..n] ==> loaded[id] == LoadRow(stored[id], now)
        invariant charged == FinishingBytes(ids[..n], stored)
      {
        var id := ids[n];
        assert ids[..n + 1][..n] == ids[..n];
        assert ids[..n + 1] == ids[..n] + [id];
        if stored[id].state.Running? && stored[id].stage.Finishing? {
          charged := charged + stored[id].size;
        }
        var row := Reset(stored[id], now);
        loaded := loaded[id := row];
      }
      assert ids[..|ids|] == ids;
    }

    static method CountCompleted(ids: seq<nat>, rows: map<nat, Row>, periodStart: int) returns (bytes: nat)
      requires forall id :: id in ids ==> id in rows
      ensures bytes == CompletedBytes(ids, rows, periodStart)
    {
      bytes := 0;
      for n := 0 to |ids|
        invariant bytes == CompletedBytes(ids[..n], rows, periodStart)
      {
        assert ids[..n + 1][..n] == ids[..n];
        if rows[ids[n]].state.Complete? && rows[ids[n]].finishedAt >= periodStart {
          bytes := bytes + rows[ids[n]].size;
        }
      }
      assert ids[..|ids|] == ids;
    }

    // ----- history

    /** ClearFinished: finished rows nobody works on leave, all of them or the wanted
        ones; the rest keep their order. */
    method ClearFinished(wanted: Option<set<nat>>) returns (dropped: seq<nat>)
      requires Valid()
      modifies `queue, `queueRevision, `dirty
      ensures Valid() && dirty && queueRevision == old(queueRevision) + 1
      ensures forall id :: id in dropped <==>
        && id in old(queue) && (rows[id].state.Complete? || rows[id].state.Failed? || rows[id].state.Cancelled?)
        && id !in runs && Marks(id) == 0 && (wanted.Some? ==> id in wanted.value)
      ensures queue == Without(old(queue), Members(dropped))
      ensures forall id :: id in rows ==> View(id) == if id in dropped then old(View(id)).(queued := false) else old(View(id))
    {
      hide Without, Unique;
      var kept: seq<nat>;
      kept, dropped := SplitHistory(wanted);
      WithoutKeepsOthers(queue, Members(dropped));
      queue := kept;
      queueRevision, dirty := queueRevision + 1, true;
    }

    method SplitHistory(wanted: Option<set<nat>>) returns (kept: seq<nat>, dropped: seq<nat>)
      requires Valid()
      ensures forall id :: id in dropped <==>
        && id in queue && (rows[id].state.Complete? || rows[id].state.Failed? || rows[id].state.Cancelled?)
        && id !in runs && Marks(id) == 0 && (wanted.Some? ==> id in wanted.value)
      ensures kept == Without(queue, Members(dropped))
    {
      hide Without;
      kept, dropped := [], [];
      ghost var gone: set<nat> := {};
      WithoutNothing(gone);
      for n := 0 to |queue|
        invariant forall id :: id in dropped <==>
          && id in queue[..n] && (rows[id].state.Complete? || rows[id].state.Failed? || rows[id].state.Cancelled?)
          && id !in runs && Marks(id) == 0 && (wanted.Some? ==> id in wanted.value)
        invariant forall id :: id in dropped <==> id in gone
        invariant kept == Without(queue[..n], gone)
      {
        var id := queue[n];
        assert queue[..n + 1] == queue[..n] + [id];
        if !Finished(rows[id]) || id in runs || (id in deleting && deleting[id] > 0)
          || (wanted.Some? && id !in wanted.value)
        {
          kept := kept + [id];
        } else {
          WithoutOther(queue[..n], gone, id);
          gone := gone + {id};
          dropped := dropped + [id];
        }
        WithoutLast(queue[..n], id, gone);
      }
      assert queue[..|queue|] == queue;
      assert gone == Members(dropped);
    }

    /** The queue's part of applySettings: the rows of jobs that were edited or removed
        leave, unless they run or are delivered. */
    method ApplySettings(stale: set<string>)
      requires Valid()
      modifies `queue, `queueRevision, `dirty
      ensures Valid()
      ensures forall id :: id in rows ==>
        View(id) ==
          if rows[id].jobID in stale && !rows[id].state.Running? && !rows[id].state.Complete?
          then old(View(id)).(queued := false) else old(View(id))
      ensures queue == Without(old(queue), old(StaleRows(stale)))
      ensures dirty == (old(dirty) || |queue| != |old(queue)|)
    {
      var remaining := Remaining(stale);
      WithoutIsShorter(queue, StaleRows(stale));
      if |remaining| != |queue| {
        queue := remaining;
        queueRevision, dirty := queueRevision + 1, true;
      }
    }

    method Remaining(stale: set<string>) returns (remaining: seq<nat>)
      requires Valid()
      ensures remaining == Without(queue, StaleRows(stale))
    {
      hide Without;
      remaining := [];
      ghost var gone := StaleRows(stale);
      WithoutNothing(gone);
      for n := 0 to |queue|
        invariant remaining == Without(queue[..n], gone)
      {
        var id := queue[n];
        assert queue[..n + 1] == queue[..n] + [id];
        WithoutLast(queue[..n], id, gone);
        if !(rows[id].jobID in stale && !rows[id].state.Running? && !rows[id].state.Complete?) {
          remaining := remaining + [id];
        }
      }
      assert queue[..|queue|] == queue;
    }

    ghost function StaleRows(stale: set<string>): set<nat>
      reads this
    {
      set id | id in queue && id in rows && rows[id].jobID in stale && !rows[id].state.Running? && !rows[id].state.Complete?
    }

    /** The history: rows that are done for and that nobody works on, without those whose
        cloud original is still to be deleted. */
    ghost function Trimmable(): set<nat>
      reads this
      requires Valid()
    {
      set id |
        && id in queue && (rows[id].state.Complete? || rows[id].state.Failed? || rows[id].state.Cancelled?)
        && !rows[id].deleteAfter && id !in runs && Marks(id) == 0
    }

    method TrimCandidates() returns (finished: seq<nat>)
      requires Valid()
      ensures Unique(finished) && Members(finished) == Trimmable()
    {
      finished := [];
      for n := 0 to |queue|
        invariant Unique(finished) && forall id :: id in finished <==> id in queue[..n] && id in Trimmable()
      {
        var id := queue[n];
        assert queue[..n + 1] == queue[..n] + [id];
        assert id !in queue[..n];
        if Finished(rows[id]) && !rows[id].deleteAfter && id !in runs && !(id in deleting && deleting[id] > 0) {
          finished := finished + [id];
        }
      }
      assert queue[..|queue|] == queue;
    }

    /** Which rows trimHistoryLocked drops. */
    method Oldest() returns (dropped: seq<nat>)
      requires Valid()
      ensures Unique(dropped) && forall id :: id in dropped ==> id in rows && id in Trimmable()
      ensures forall id, other :: id in dropped && other in Trimmable() && other !in dropped ==>
        rows[id].finishedAt <= rows[other].finishedAt
      ensures var left := |Trimmable() - Members(dropped)|; left <= HISTORY_LIMIT && (dropped != [] ==> left == HISTORY_LIMIT)
    {
      var finished := TrimCandidates();
      MembersOfUnique(finished);
      if |finished| <= HISTORY_LIMIT {
        return [];
      }
      assert forall id :: id in finished ==> id in Members(finished);
      var sorted := SortByFinished(finished, rows);
      var excess := |sorted| - HISTORY_LIMIT;
      dropped := sorted[..excess];
      SplitInOrder(sorted, rows, excess);
      MembersOfUnique(sorted[excess..]);
      assert forall id :: id in sorted <==> id in Members(finished);
      assert Trimmable() - Members(dropped) == Members(sorted[excess..]);
    }

    /** trimHistoryLocked: beyond the limit, the rows that finished first leave. */
    method TrimHistory() returns (dropped: seq<nat>)
      requires Valid()
      modifies `queue
      ensures Valid() && Unique(dropped) && forall id :: id in dropped ==> id in rows && id in old(Trimmable())
      ensures forall id, other :: id in dropped && other in Trimmable() ==> rows[id].finishedAt <= rows[other].finishedAt
      ensures queue == Without(old(queue), Members(dropped))
      ensures |Trimmable()| <= HISTORY_LIMIT && (dropped != [] ==> |Trimmable()| == HISTORY_LIMIT)
      ensures forall id :: id in rows ==> View(id) == if id in dropped then old(View(id)).(queued := false) else old(View(id))
    {
      dropped := Oldest();
      LeaveQueue(dropped);
    }

    method LeaveQueue(dropped: seq<nat>)
      requires Valid()
      modifies `queue
      ensures Valid() && queue == Without(old(queue), Members(dropped))
      ensures Trimmable() == old(Trimmable()) - Members(dropped)
      ensures forall id :: id in rows ==> View(id) == if id in dropped then old(View(id)).(queued := false) else old(View(id))
    {
      queue := Without(queue, Members(dropped));
    }
  }

  predicate InOrder(ids: seq<nat>, rows: map<nat, Row>)
    requires forall id :: id in ids ==> id in rows
  {
    forall i, j :: 0 <= i < j < |ids| ==> rows[ids[i]].finishedAt <= rows[ids[j]].finishedAt
  }

  method SortByFinished(ids: seq<nat>, rows: map<nat, Row>) returns (sorted: seq<nat>)
    requires Unique(ids) && forall id :: id in ids ==> id in rows
    ensures |sorted| == |ids| && Unique(sorted) && (forall id :: id in sorted <==> id in ids)
    ensures InOrder(sorted, rows)
  {
    sorted := [];
    for n := 0 to |ids|
      invariant |sorted| == n && Unique(sorted) && (forall id :: id in sorted <==> id in ids[..n])
      invariant InOrder(sorted, rows)
    {
      assert ids[..n + 1] == ids[..n] + [ids[n]];
      assert ids[n] !in ids[..n];
      sorted := Insert(sorted, ids[n], rows);
    }
    assert ids[..|ids|] == ids;
  }

  lemma InsertedOnce(ids: seq<nat>, at: nat, id: nat)
    requires Unique(ids) && id !in ids && at <= |ids|
    ensures var next := ids[..at] + [id] + ids[at..]; Unique(next) && forall i :: i in next <==> i == id || i in ids
  {
    var next := ids[..at] + [id] + ids[at..];
    assert forall i :: 0 <= i < |next| ==> next[i] == if i < at then ids[i] else if i == at then id else ids[i - 1];
    assert ids == ids[..at] + ids[at..];
  }

  lemma InsertedInOrder(ids: seq<nat>, at: nat, id: nat, rows: map<nat, Row>)
    requires id in rows && (forall i :: i in ids ==> i in rows) && InOrder(ids, rows) && at <= |ids|
    requires forall i :: 0 <= i < at ==> rows[ids[i]].finishedAt <= rows[id].finishedAt
    requires at < |ids| ==> rows[id].finishedAt < rows[ids[at]].finishedAt
    ensures InOrder(ids[..at] + [id] + ids[at..], rows)
  {
    var next := ids[..at] + [id] + ids[at..];
    forall i, j | 0 <= i < j < |next| ensures rows[next[i]].finishedAt <= rows[next[j]].finishedAt {
      assert next[i] == if i < at then ids[i] else if i == at then id else ids[i - 1];
      assert next[j] == if j < at then ids[j] else if j == at then id else ids[j - 1];
    }
  }

  method Insert(ids: seq<nat>, id: nat, rows: map<nat, Row>) returns (next: seq<nat>)
    requires Unique(ids) && id !in ids && id in rows && (forall i :: i in ids ==> i in rows) && InOrder(ids, rows)
    ensures |next| == |ids| + 1 && Unique(next) && (forall i :: i in next <==> i == id || i in ids)
    ensures InOrder(next, rows)
  {
    var at := 0;
    while at < |ids| && rows[ids[at]].finishedAt <= rows[id].finishedAt
      invariant 0 <= at <= |ids| && forall i :: 0 <= i < at ==> rows[ids[i]].finishedAt <= rows[id].finishedAt
    {
      at := at + 1;
    }
    InsertedOnce(ids, at, id);
    InsertedInOrder(ids, at, id, rows);
    next := ids[..at] + [id] + ids[at..];
  }

  lemma SplitInOrder(ids: seq<nat>, rows: map<nat, Row>, at: nat)
    requires Unique(ids) && (forall id :: id in ids ==> id in rows) && InOrder(ids, rows) && at <= |ids|
    ensures Unique(ids[..at]) && Unique(ids[at..])
    ensures forall id :: id in ids <==> id in ids[..at] || id in ids[at..]
    ensures forall id :: id in ids[..at] ==> id !in ids[at..]
    ensures forall id, other :: id in ids[..at] && other in ids[at..] ==> rows[id].finishedAt <= rows[other].finishedAt
  {
    assert ids == ids[..at] + ids[at..];
  }

  lemma {:induction false} MembersOfUnique(ids: seq<nat>)
    requires Unique(ids)
    ensures |Members(ids)| == |ids|
  {
    if ids != [] {
      var n := |ids| - 1;
      MembersOfUnique(ids[..n]);
      assert Members(ids) == Members(ids[..n]) + {ids[n]};
    }
  }

  lemma WithoutKeepsOthers(ids: seq<nat>, gone: set<nat>)
    ensures forall id :: id in Without(ids, gone) <==> id in ids && id !in gone
    ensures Unique(ids) ==> Unique(Without(ids, gone))
  {
  }

  lemma WithoutNothing(gone: set<nat>)
    ensures Without([], gone) == []
  {
  }

  lemma WithoutLast(ids: seq<nat>, id: nat, gone: set<nat>)
    ensures Without(ids + [id], gone) == Without(ids, gone) + if id in gone then [] else [id]
  {
    assert (ids + [id])[..|ids|] == ids;
  }

  lemma {:induction false} WithoutOther(ids: seq<nat>, gone: set<nat>, id: nat)
    requires id !in ids
    ensures Without(ids, gone + {id}) == Without(ids, gone)
  {
    if ids != [] { WithoutOther(ids[..|ids| - 1], gone, id); }
  }

  lemma {:induction false} WithoutIsShorter(ids: seq<nat>, gone: set<nat>)
    ensures |Without(ids, gone)| <= |ids| && (|Without(ids, gone)| == |ids| ==> Without(ids, gone) == ids)
  {
    if ids != [] {
      var n := |ids| - 1;
      WithoutIsShorter(ids[..n], gone);
      assert ids == ids[..n] + [ids[n]];
    }
  }

  // ----- what Load counts twice

  /** The bytes of those rows that are among these. */
  function BytesOf(ids: seq<nat>, stored: map<nat, Row>, these: set<nat>): nat
    requires forall id :: id in ids ==> id in stored
  {
    if ids == [] then 0
    else
      BytesOf(ids[..|ids| - 1], stored, these) + if ids[|ids| - 1] in these then stored[ids[|ids| - 1]].size else 0
  }

  predicate Finishes(row: Row) {
    row.state.Running? && row.stage.Finishing?
  }

  lemma {:induction false} DeliveredBytes(ids: seq<nat>, stored: map<nat, Row>, rows: map<nat, Row>, charged: set<nat>,
                                          now: int, periodStart: int)
    requires forall id :: id in ids ==> id in stored && id in rows && rows[id] == LoadRow(stored[id], now)
    requires periodStart <= now
    requires forall id :: id in ids && stored[id].state.Complete? ==> periodStart <= stored[id].finishedAt
    requires forall id :: id in ids && id in charged ==> stored[id].state.Complete? || Finishes(stored[id])
    ensures var finishing := set id | id in charged && id in stored && Finishes(stored[id]);
      var uncharged := set id | id in stored && id !in charged && stored[id].state.Complete?;
      BytesOf(ids, stored, charged) + FinishingBytes(ids, stored) + BytesOf(ids, stored, uncharged)
      == CompletedBytes(ids, rows, periodStart) + BytesOf(ids, stored, finishing)
  {
    if ids != [] {
      var n := |ids| - 1;
      DeliveredBytes(ids[..n], stored, rows, charged, now, periodStart);
      assert ids[n] in ids;
    }
  }

  /** The stored counter may cover a row whose upload was committed, and which Load then
      charges again, because the counter is also stored on behalf of other rows. With
      everything delivered in this period: Load counts more than was delivered exactly when
      the bytes it so charges twice exceed those of delivered rows the counter had missed. */
  lemma LoadCountsTwiceExactly(ids: seq<nat>, stored: map<nat, Row>, rows: map<nat, Row>, charged: set<nat>,
                               now: int, periodStart: int)
    requires forall id :: id in ids ==> id in stored && id in rows && rows[id] == LoadRow(stored[id], now)
    requires periodStart <= now
    requires forall id :: id in ids && stored[id].state.Complete? ==> periodStart <= stored[id].finishedAt
    requires forall id :: id in ids && id in charged ==> stored[id].state.Complete? || Finishes(stored[id])
    ensures var counter := BytesOf(ids, stored, charged);
      var finishing := set id | id in charged && id in stored && Finishes(stored[id]);
      var uncharged := set id | id in stored && id !in charged && stored[id].state.Complete?;
      counter + FinishingBytes(ids, stored) > CompletedBytes(ids, rows, periodStart)
      <==> BytesOf(ids, stored, finishing) > BytesOf(ids, stored, uncharged)
  {
    DeliveredBytes(ids, stored, rows, charged, now, periodStart);
  }
}
