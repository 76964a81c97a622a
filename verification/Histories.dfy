/** Whole histories of the engine, from an empty queue on: its locked sections in any
    order, with the steps of goroutines, drive and host between them, and restarts. Every
    row lives a run of its lifecycle, and between restarts the counters live a run of the
    ledger, so all that is proved of those runs holds of every row of the engine at once. */
module Histories {
  import opened Wrappers
  import opened Items
  import opened Lifecycle
  import opened Mirroring
  import Cancellation
  import Delivery
  import Leftovers
  import Outcomes
  import Ledger

  /** An engine that has never queued anything. */
  ghost predicate Empty(w: Whole) {
    w == Whole(map[], map[], Ledger.Books(0, 0, 0, 0, 0, []))
  }

  /** limit is the quota in force throughout. */
  ghost predicate IsHistory(ws: seq<Whole>, moves: seq<Move>, limit: int) {
    && |ws| == |moves| + 1 && Empty(ws[0])
    && (forall i :: 0 <= i < |moves| ==> Makes(ws[i], moves[i], ws[i + 1]))
    && (forall i :: 0 <= i < |moves| && moves[i].Claiming? ==> moves[i].limit == limit)
  }

  // ----- rows

  /** A row in this state has lived a run of its lifecycle, restarts included. */
  ghost predicate Reached(c: Cell) {
    exists cells: seq<Cell>, steps: seq<Step> :: LeadsTo(cells, steps, c)
  }

  ghost predicate LeadsTo(cells: seq<Cell>, steps: seq<Step>, c: Cell) {
    IsRun(cells, steps) && Fresh(cells[0]) && cells[|steps|] == c
  }

  lemma FreshIsReached(c: Cell)
    requires Fresh(c)
    ensures Reached(c)
  {
    assert LeadsTo([c], [], c);
  }

  lemma StepIsReached(c: Cell, step: Step)
    requires Reached(c) && Enabled(c, step)
    ensures Reached(Apply(c, step))
  {
    hide Enabled, Apply, Fresh;
    var cells: seq<Cell>, steps: seq<Step> :| LeadsTo(cells, steps, c);
    var longer, done := Extend(cells, steps, step);
    assert LeadsTo(longer, done, Apply(c, step));
  }

  /** What a move does to one row: nothing, one step, or bringing it into being. */
  lemma RowAfter(w: Whole, m: Move, id: nat)
    requires Allowed(w, m) && id in After(w, m).cells
    ensures var c := After(w, m).cells[id];
      || (id in w.cells && c == w.cells[id])
      || (id in w.cells && exists step :: Enabled(w.cells[id], step) && c == Apply(w.cells[id], step))
      || Fresh(c)
  {
    hide Enabled, Fresh, Bills, Entry, Ledger.Enabled, Ledger.Apply;
    match m {
      case OneRow(other, step) => if other == id { assert Can(w, id, step); }
      case Charging(other, step, n) => if other == id { assert Can(w, id, step); }
      case ManyRows(changed, step) => if id in changed { assert Can(w, id, step); }
      case Claiming(other, size, _) => if other == id { assert Can(w, id, Begin(TakeNext)); }
      case Restarting(now, _) => RestartIsAStep(w.cells[id], now);
      case _ =>
    }
  }

  lemma RestartIsAStep(c: Cell, now: int)
    ensures Enabled(c, World(Crash(now)))
  {
  }

  /** Every row of the engine lives a run of its lifecycle. */
  lemma {:induction false} EveryRowLivesARun(ws: seq<Whole>, moves: seq<Move>, limit: int, i: nat, id: nat)
    requires IsHistory(ws, moves, limit) && i < |ws| && id in ws[i].cells
    ensures Reached(ws[i].cells[id])
  {
    if i > 0 {
      hide Reached, Enabled, Apply, Fresh, Allowed, After;
      RowAfter(ws[i - 1], moves[i - 1], id);
      var w, c := ws[i - 1], ws[i].cells[id];
      if id in w.cells {
        EveryRowLivesARun(ws, moves, limit, i - 1, id);
        if c != w.cells[id] && !Fresh(c) {
          var step :| Enabled(w.cells[id], step) && c == Apply(w.cells[id], step);
          StepIsReached(w.cells[id], step);
        }
      }
      if Fresh(c) { FreshIsReached(c); }
    }
  }

  // ----- the ledger

  function EntryOf(m: Move): Option<Ledger.Step> {
    match m
    case Charging(_, step, n) => Some(Entry(step, n))
    case Claiming(_, size, _) => Some(Ledger.Admit(size))
    case Departure(n) => Some(Ledger.Finish(n))
    case Rolling => Some(Ledger.Roll)
    case _ => None
  }

  lemma BooksAfter(w: Whole, m: Move, limit: int)
    requires Allowed(w, m) && !m.Restarting? && (m.Claiming? ==> m.limit == limit)
    ensures EntryOf(m).None? ==> After(w, m).books == w.books
    ensures EntryOf(m).Some? ==>
      Ledger.Enabled(w.books, limit, EntryOf(m).value) && After(w, m).books == Ledger.Apply(w.books, limit, EntryOf(m).value)
  {
    hide Enabled, Apply, Fresh, Bills, Restarts;
  }

  /** No completion is rolled back after the period it was charged in. */
  predicate Calm(w: Whole, m: Move) {
    EntryOf(m).Some? ==> Ledger.Orderly(w.books, EntryOf(m).value)
  }

  ghost predicate AllCalm(ws: seq<Whole>, moves: seq<Move>, i: nat)
    requires i <= |ws| && i <= |moves|
  {
    forall j :: 0 <= j < i ==> Calm(ws[j], moves[j])
  }

  ghost predicate AllOrderly(states: seq<Ledger.Books>, steps: seq<Ledger.Step>)
    requires |states| == |steps| + 1
  {
    forall k :: 0 <= k < |steps| ==> Ledger.Orderly(states[k], steps[k])
  }

  lemma OneMoreEntry(states: seq<Ledger.Books>, steps: seq<Ledger.Step>, limit: int, entry: Ledger.Step)
      returns (longer: seq<Ledger.Books>, done: seq<Ledger.Step>)
    requires Ledger.IsRun(states, steps, limit) && Ledger.Enabled(states[|steps|], limit, entry)
    ensures Ledger.IsRun(longer, done, limit) && longer[|done|] == Ledger.Apply(states[|steps|], limit, entry)
    ensures AllOrderly(states, steps) && Ledger.Orderly(states[|steps|], entry) ==> AllOrderly(longer, done)
  {
    hide Ledger.Enabled, Ledger.Apply, Ledger.Orderly;
    longer, done := states + [Ledger.Apply(states[|steps|], limit, entry)], steps + [entry];
  }

  /** Since the last restart the counters live a run of the ledger, an orderly one if the
      history is calm. */
  lemma {:induction false} CountersLiveARun(ws: seq<Whole>, moves: seq<Move>, limit: int, i: nat)
      returns (states: seq<Ledger.Books>, steps: seq<Ledger.Step>)
    requires IsHistory(ws, moves, limit) && i < |ws|
    ensures Ledger.IsRun(states, steps, limit) && states[|steps|] == ws[i].books
    ensures AllCalm(ws, moves, i) ==> AllOrderly(states, steps)
  {
    if i == 0 || moves[i - 1].Restarting? {
      states, steps := [ws[i].books], [];
    } else {
      states, steps := CountersLiveARun(ws, moves, limit, i - 1);
      var entry := EntryOf(moves[i - 1]);
      BooksAfter(ws[i - 1], moves[i - 1], limit);
      assert AllCalm(ws, moves, i) ==> AllCalm(ws, moves, i - 1) && Calm(ws[i - 1], moves[i - 1]);
      hide Ledger.Enabled, Ledger.Apply, Ledger.Orderly, Ledger.IsRun, AllOrderly, AllCalm, EntryOf;
      if entry.Some? {
        states, steps := OneMoreEntry(states, steps, limit, entry.value);
      }
    }
  }

  // ----- what the engine inherits

  /** In every history of the engine, of every row: at most one worker, and no cleaner that
      owns the row beside it; whatever says it was delivered, in memory or stored, is right;
      its cloud original is gone only if it was delivered, and then no crash makes it look
      undelivered. */
  lemma EveryRowIsSafe(ws: seq<Whole>, moves: seq<Move>, limit: int, i: nat, id: nat, now: int)
    requires IsHistory(ws, moves, limit) && i < |ws| && id in ws[i].cells
    ensures var c := ws[i].cells[id];
      && (forall j, k :: 0 <= j < |c.actors| && 0 <= k < |c.actors| && c.actors[j].Working? && j != k ==>
            && !c.actors[k].Working?
            && (c.actors[k].Tidying? ==>
                  var chore := c.actors[k].chore; chore.CWaiting? || chore.PDelete? || chore.PErased? || chore.Unmarking?))
      && (c.mem.row.state.Complete? || c.mem.row.stage.Finishing? ==> c.committed)
      && (c.stored.Some? && (c.stored.value.state.Complete? || c.stored.value.stage.Finishing?) ==> c.committed)
      && (c.deleted ==> c.committed && (c.mem.queued ==> c.mem.row.state.Complete?))
      && (c.deleted && Reload(c, now).mem.queued ==> Reload(c, now).mem.row.state.Complete?)
  {
    hide IsRun, Fresh, Reload;
    EveryRowLivesARun(ws, moves, limit, i, id);
    var c := ws[i].cells[id];
    var cells: seq<Cell>, steps: seq<Step> :| LeadsTo(cells, steps, c);
    RunLength(cells, steps);
    Delivery.OriginalOutlivesTheUpload(cells, steps, |steps|, now);
    forall j, k | 0 <= j < |c.actors| && 0 <= k < |c.actors| && c.actors[j].Working? && j != k
      ensures !c.actors[k].Working?
      ensures c.actors[k].Tidying? ==>
        var chore := c.actors[k].chore; chore.CWaiting? || chore.PDelete? || chore.PErased? || chore.Unmarking?
    {
      Cancellation.OneWorker(cells, steps, |steps|, j, k);
    }
  }

  lemma ReachedHasBase(c: Cell)
    requires Reached(c)
    ensures Base(c.mem, c.actors)
  {
    hide IsRun, Fresh, Base;
    var cells: seq<Cell>, steps: seq<Step> :| LeadsTo(cells, steps, c);
    RunLength(cells, steps);
    RunKeepsBase(cells, steps, |steps|);
  }

  /** In every history a row that waits leaves the queue only when its job is edited, or with
      a restart; one that is not waiting only then, or when it has been delivered, has failed
      or was cancelled, and nobody works on it. */
  lemma RowsLeaveByEditsOrAsHistory(ws: seq<Whole>, moves: seq<Move>, limit: int, i: nat, id: nat)
    requires IsHistory(ws, moves, limit) && i < |moves| && id in ws[i].cells && id in ws[i + 1].cells
    requires ws[i].cells[id].mem.queued && !ws[i + 1].cells[id].mem.queued && !moves[i].Restarting?
    ensures moves[i].OneRow? || moves[i].ManyRows?
    ensures var m, step := ws[i].cells[id].mem, moves[i].step;
      if m.row.state.Pending? then step == Begin(DropRow)
      else
        || (step == Begin(DropRow) && (m.row.state.Failed? || m.row.state.Cancelled?))
        || ((step == Begin(ClearRow) || step == Begin(TrimRow)) && m.run.None? && m.deleting == 0
            && (m.row.state.Complete? || m.row.state.Failed? || m.row.state.Cancelled?))
  {
    hide Reached;
    EveryRowLivesARun(ws, moves, limit, i, id);
    var w, c, d := ws[i], ws[i].cells[id], ws[i + 1].cells[id];
    ReachedHasBase(c);
    var step := StepOfTheMove(w, moves[i], id);
    hide IsHistory, Base, Allowed, After, Apply, Enabled;
    Outcomes.OnlyTheseLeave(c, step);
    Outcomes.LeavingIsAllowedExactly(c);
  }

  /** The step a move has one row take. */
  lemma StepOfTheMove(w: Whole, m: Move, id: nat) returns (step: Step)
    requires Allowed(w, m) && id in w.cells && id in After(w, m).cells && After(w, m).cells[id] != w.cells[id] && !m.Restarting?
    ensures Enabled(w.cells[id], step) && !Restarts(step) && After(w, m).cells[id] == Apply(w.cells[id], step)
    ensures step.Begin? && !step.begin.TakeNext? ==> (m.OneRow? || m.ManyRows?) && m.step == step
  {
    hide Enabled, Fresh, Bills, Entry, Ledger.Enabled, Ledger.Apply, Apply;
    match m {
      case OneRow(other, s) => step := s;
      case Charging(other, s, n) => step := s; assert !s.Begin? by { BillsBeginsNothing(w.cells[id], s); }
      case ManyRows(changed, s) => step := s;
      case Claiming(other, size, _) => step := Begin(TakeNext);
      case _ => assert false;
    }
  }

  lemma BillsBeginsNothing(c: Cell, step: Step)
    requires Bills(c, step)
    ensures !step.Begin?
  {
  }

  lemma RunLength(cells: seq<Cell>, steps: seq<Step>)
    requires IsRun(cells, steps)
    ensures |cells| == |steps| + 1
  {
  }

  /** And of every upload job any row ever opened: open and beyond every abort exactly if the
      reply that named it was lost, a restart brought back no row naming it, or the last row
      to name it has left the queue. */
  lemma EveryJobIsFound(ws: seq<Whole>, moves: seq<Move>, limit: int, i: nat, id: nat, j: nat)
    requires IsHistory(ws, moves, limit) && i < |ws| && id in ws[i].cells && j < |ws[i].cells[id].jobs|
    requires !ws[i].cells[id].jobs[j].committed && ws[i].cells[id].jobs[j].aborts == 0
    ensures var c := ws[i].cells[id];
      !Leftovers.MayBeAborted(c, j) <==> c.jobs[j].unheard || c.jobs[j].orphaned || Leftovers.Forsaken(c, j)
  {
    hide IsRun, Fresh;
    EveryRowLivesARun(ws, moves, limit, i, id);
    var c := ws[i].cells[id];
    var cells: seq<Cell>, steps: seq<Step> :| LeadsTo(cells, steps, c);
    RunLength(cells, steps);
    Leftovers.OpenJobIsNeverAbortedExactly(cells, steps, |steps|, j);
  }

  /** In every history the engine's reservations are the sum of its unreleased claims, and
      its active count the number of its unfinished ones; in a calm one, with a limit, what
      the period has spent and what is open stay within it, or add nothing to what the last
      restart found, or are one oversize file. */
  lemma CountersAreSafe(ws: seq<Whole>, moves: seq<Move>, limit: int, i: nat)
    requires IsHistory(ws, moves, limit) && i < |ws|
    ensures ws[i].books.reserved == Ledger.Reserved(ws[i].books) && ws[i].books.active == Ledger.Unfinished(ws[i].books)
    ensures 0 < limit && AllCalm(ws, moves, i) ==>
      var b := ws[i].books;
      && b.used == Ledger.SpentBytes(b)
      && (|| b.used + Ledger.OpenBytes(b) <= limit
          || b.used + Ledger.OpenBytes(b) == b.carried
          || exists j :: 0 <= j < |b.claims| && b.claims[j].size > limit && b.used + Ledger.OpenBytes(b) == b.claims[j].size)
  {
    var states, steps := CountersLiveARun(ws, moves, limit, i);
    Ledger.ReservationsAreExact(states, steps, limit, |steps|);
    if 0 < limit && AllCalm(ws, moves, i) {
      Ledger.QuotaSafety(states, steps, limit, |steps|);
    }
  }
}
