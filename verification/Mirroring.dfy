/** The engine is the sum of its rows' lifecycles and the quota ledger. This module says
    what it is for the engine's state to mirror them, what the moves of that sum are, and
    that each move keeps it a mirror. */
module Mirroring {
  import opened Wrappers
  import opened Items
  import opened Lifecycle
  import opened Engines
  import Ledger

  /** The engine's state as a value. */
  datatype Snap = Snap(queue: seq<nat>, views: map<nat, Mem>, used: int, reserved: int, active: int, nextRun: nat)

  /** cells: the lifecycle each row is in. spots: which goroutine of which row the run
      numbered n is. books: the ledger, whose claims are numbered like the runs. */
  datatype Whole = Whole(cells: map<nat, Cell>, spots: map<nat, (nat, nat)>, books: Ledger.Books)

  ghost function State(e: Engine): Snap
    reads e
  {
    Snap(e.queue, map id | id in e.rows :: e.View(id), e.used, e.reserved, e.active, e.nextRun)
  }

  function Renamed(m: Mem, spots: map<nat, (nat, nat)>): Mem {
    if m.run.Some? && m.run.value.who in spots
    then m.(run := Some(Run(spots[m.run.value.who].1, m.run.value.cancelRequested)))
    else m
  }

  ghost predicate RowMirrors(m: Mem, id: nat, c: Cell, spots: map<nat, (nat, nat)>) {
    && c.mem == Renamed(m, spots) && Base(c.mem, c.actors)
    && (m.run.Some? ==> m.run.value.who in spots && spots[m.run.value.who].0 == id)
  }

  ghost predicate Numbered(spots: map<nat, (nat, nat)>, nextRun: nat) {
    && (forall n :: n in spots ==> n < nextRun)
    && (forall n, o :: n in spots && o in spots && n != o ==> spots[n] != spots[o])
  }

  /** A worker that has yet to come to complete. */
  predicate Ahead(work: Work) {
    work.Claimed? || work.Staging? || work.Ready? || work.Opening? || work.Opened? || work.Sending? || work.Landed?
    || work.Uploaded? || work.Accepted? || work.AtComplete?
  }

  /** A goroutine that claimed a row, and its claim in the ledger. */
  predicate Agrees(pc: Pc, c: Ledger.Claim) {
    match pc
    case Working(work) =>
      && !c.released && (Ledger.InWindow(c) <==> work.Completing? || work.Storing?)
      && (Ahead(work) ==> !c.charged && !c.settled)
    case Released => !c.released && !Ledger.InWindow(c)
    case Tidying(_) => false
    case Gone => c.released
  }

  /** Run number n names a goroutine that has started, and the claim it made. */
  predicate Billed(w: Whole, n: nat)
    requires n in w.spots
  {
    var id, k := w.spots[n].0, w.spots[n].1;
    && n < |w.books.claims| && id in w.cells && k < |w.cells[id].actors|
    && Agrees(w.cells[id].actors[k], w.books.claims[n]) && w.books.claims[n].size == w.cells[id].mem.row.size
  }

  ghost predicate AllBilled(w: Whole) {
    forall n :: n in w.spots ==> Billed(w, n)
  }

  ghost predicate Mirrors(s: Snap, w: Whole) {
    && AllBilled(w)
    && Unique(s.queue) && (forall id :: id in s.queue ==> id in s.views)
    && w.cells.Keys == s.views.Keys
    && (forall id :: id in s.views ==> RowMirrors(s.views[id], id, w.cells[id], w.spots))
    && (forall id :: id in s.views ==> s.views[id].queued == (id in s.queue))
    && Numbered(w.spots, s.nextRun)
    && w.books.used == s.used && w.books.reserved == s.reserved && w.books.active == s.active
    && |w.books.claims| == s.nextRun
  }

  // ----- the moves

  predicate Can(w: Whole, id: nat, step: Step) {
    id in w.cells && Enabled(w.cells[id], step) && !Restarts(step)
  }

  /** The row's memory after its step. */
  function MemAfter(w: Whole, id: nat, step: Step): Mem
    requires Can(w, id, step)
  {
    Apply(w.cells[id], step).mem
  }

  function CellAfter(w: Whole, id: nat, step: Step): Cell
    requires Can(w, id, step)
  {
    Apply(w.cells[id], step)
  }

  function Moved(w: Whole, id: nat, step: Step): Whole
    requires Can(w, id, step)
  {
    w.(cells := w.cells[id := CellAfter(w, id, step)])
  }

  function Booked(w: Whole, limit: int, step: Ledger.Step): Whole
    requires Ledger.Enabled(w.books, limit, step)
  {
    w.(books := Ledger.Apply(w.books, limit, step))
  }

  /** The sections that move the ledger as they move the row. */
  predicate Bills(c: Cell, step: Step) {
    || (step.Settle? && step.settle.CompleteLock? && !Refuses(c.mem))
    || (step.Settle? && (step.settle.PersistOk? || step.settle.PersistFailed?))
    || step.Unreserve?
  }

  function Entry(step: Step, n: nat): Ledger.Step {
    if step.Unreserve? then Ledger.Release(n)
    else if step.Settle? && step.settle.PersistOk? then Ledger.Settle(n)
    else if step.Settle? && step.settle.PersistFailed? then Ledger.Rollback(n)
    else Ledger.Charge(n)
  }

  /** A goroutine's section and its entry in the ledger. */
  ghost predicate CanBill(w: Whole, id: nat, step: Step, n: nat) {
    && Can(w, id, step) && Bills(w.cells[id], step) && n in w.spots && w.spots[n] == (id, step.k)
    && Ledger.Enabled(w.books, 0, Entry(step, n))
  }

  function Charged(w: Whole, id: nat, step: Step, n: nat): Whole
    requires CanBill(w, id, step, n)
  {
    Booked(Moved(w, id, step), 0, Entry(step, n))
  }

  /** A row claimed as run n: its lifecycle begins a worker, which gets that number, and
      the ledger admits its size. */
  function Claimed(w: Whole, id: nat, n: nat, limit: int, size: nat): Whole
    requires Can(w, id, Begin(TakeNext)) && Ledger.Enabled(w.books, limit, Ledger.Admit(size))
  {
    Booked(Moved(w, id, Begin(TakeNext)).(spots := w.spots[n := (id, |w.cells[id].actors|)]), limit, Ledger.Admit(size))
  }

  /** The rows in changed each take the step; the others stay. */
  function ManyMoved(w: Whole, changed: set<nat>, step: Step): Whole
    requires forall id :: id in changed ==> Can(w, id, step)
  {
    w.(cells := map id | id in w.cells :: if id in changed then CellAfter(w, id, step) else w.cells[id])
  }

  /** The lifecycle of a row as a scan appends it. */
  function Born(row: Row, max: nat): Cell {
    Cell(Mem(row, true, None, false, 0), [], [], false, false, None, None, 0, 0, 0, max)
  }

  /** The process has died and started again: the stored rows come back, with a counter. */
  function Restarted(w: Whole, now: int, used: nat): Whole {
    Whole(map id | id in w.cells && w.cells[id].stored.Some? :: Lifecycle.Apply(w.cells[id], World(Crash(now))),
          map[], Ledger.Books(used, 0, 0, 0, used, []))
  }

  /** What one locked section, or one step between sections, does: to one row; to one row and
      its claim; to many rows; a claim by takeNext; the end of a worker; a new period; a new
      row; or a restart. */
  datatype Move =
    | OneRow(id: nat, step: Step)
    | Charging(id: nat, step: Step, n: nat)
    | ManyRows(changed: set<nat>, step: Step)
    | Claiming(id: nat, size: nat, limit: int)
    | Departure(n: nat)
    | Rolling
    | Appending(id: nat, row: Row, max: nat)
    | Restarting(now: int, used: nat)

  ghost predicate Allowed(w: Whole, m: Move) {
    match m
    case OneRow(id, step) => Can(w, id, step) && !Bills(w.cells[id], step)
    case Charging(id, step, n) => CanBill(w, id, step, n)
    case ManyRows(changed, step) => forall id :: id in changed ==> Can(w, id, step)
    case Claiming(id, size, limit) => Can(w, id, Begin(TakeNext)) && Ledger.Enabled(w.books, limit, Ledger.Admit(size))
    case Departure(n) => Ledger.Enabled(w.books, 0, Ledger.Finish(n))
    case Rolling => true
    case Appending(id, row, max) => id !in w.cells && Fresh(Born(row, max))
    case Restarting(_, _) => true
  }

  ghost function After(w: Whole, m: Move): Whole
    requires Allowed(w, m)
  {
    match m
    case OneRow(id, step) => Moved(w, id, step)
    case Charging(id, step, n) => Charged(w, id, step, n)
    case ManyRows(changed, step) => ManyMoved(w, changed, step)
    case Claiming(id, size, limit) => Claimed(w, id, |w.books.claims|, limit, size)
    case Departure(n) => Booked(w, 0, Ledger.Finish(n))
    case Rolling => Booked(w, 0, Ledger.Roll)
    case Appending(id, row, max) => w.(cells := w.cells[id := Born(row, max)])
    case Restarting(now, used) => Restarted(w, now, used)
  }

  ghost predicate Makes(w: Whole, m: Move, after: Whole) {
    Allowed(w, m) && after == After(w, m)
  }

  // ----- one row

  lemma CellMoves(w: Whole, id: nat, step: Step, m: Mem, n: Mem)
    requires Can(w, id, step) && RowMirrors(m, id, w.cells[id], w.spots) && Renamed(n, w.spots) == MemAfter(w, id, step)
    requires n.run.Some? ==> m.run.Some? && n.run.value.who == m.run.value.who
    ensures RowMirrors(n, id, Apply(w.cells[id], step), w.spots)
  {
    hide Base, Enabled, Apply, Renamed;
    StepKeepsBase(w.cells[id], step);
  }

  /** Goroutine k moves; the others stand, and the row keeps its size. */
  predicate Follows(c: Cell, d: Cell, k: nat) {
    k < |c.actors| == |d.actors| && d.actors == c.actors[k := d.actors[k]] && d.mem.row.size == c.mem.row.size
  }

  ghost predicate Keeps(pc: Pc, pc': Pc) {
    forall claim :: Agrees(pc, claim) ==> Agrees(pc', claim)
  }

  lemma FetchFollows(c: Cell, k: nat, step: FetchStep)
    requires k < |c.actors| && c.actors[k].Working? && FetchEnabled(c.actors[k].work, c, step)
    ensures Follows(c, FetchApply(c, k, step), k) && Keeps(c.actors[k], FetchApply(c, k, step).actors[k])
  {
    hide Ledger.InWindow;
  }

  lemma PushFollows(c: Cell, k: nat, step: PushStep)
    requires k < |c.actors| && c.actors[k].Working? && PushEnabled(c.actors[k].work, step)
    ensures Follows(c, PushApply(c, k, step), k)
  {
    hide CommitJob, Aborted, Opens;
  }

  lemma PushAgrees(c: Cell, k: nat, step: PushStep)
    requires k < |c.actors| && c.actors[k].Working? && PushEnabled(c.actors[k].work, step)
    ensures k < |PushApply(c, k, step).actors| && Keeps(c.actors[k], PushApply(c, k, step).actors[k])
  {
    hide CommitJob, Aborted, TakeJob, WithJob, WithStage, Ledger.InWindow;
  }

  lemma SettleFollows(c: Cell, k: nat, step: SettleStep)
    requires k < |c.actors| && c.actors[k].Working? && SettleEnabled(c.actors[k].work, c, k, step)
    ensures Follows(c, SettleApply(c, k, step), k)
  {
  }

  lemma SettleAgrees(c: Cell, k: nat, step: SettleStep)
    requires k < |c.actors| && c.actors[k].Working? && SettleEnabled(c.actors[k].work, c, k, step)
    requires !step.PersistOk? && !step.PersistFailed? && (step.CompleteLock? ==> Refuses(c.mem))
    ensures k < |SettleApply(c, k, step).actors| && Keeps(c.actors[k], SettleApply(c, k, step).actors[k])
  {
    hide CompleteStart, CompleteRollback, Refuses, Unmarked, OriginalGone, Mine, Copy, Ledger.InWindow;
  }

  lemma PartFollows(c: Cell, k: nat, step: PartStep)
    requires k < |c.actors| && c.actors[k].Working? && PartEnabled(c.actors[k].work, step)
    ensures Follows(c, PartApply(c, k, step), k)
  {
  }

  lemma PartAgrees(c: Cell, k: nat, step: PartStep)
    requires k < |c.actors| && c.actors[k].Working? && PartEnabled(c.actors[k].work, step)
    ensures k < |PartApply(c, k, step).actors| && Keeps(c.actors[k], PartApply(c, k, step).actors[k])
  {
    hide Requeue, Fail, Release, Refuses, Ledger.InWindow;
  }

  lemma CleanFollows(c: Cell, k: nat, step: CleanStep)
    requires k < |c.actors| && c.actors[k].Tidying? && CleanEnabled(c.actors[k].chore, c, step)
    ensures Follows(c, CleanApply(c, k, step), k)
  {
    hide Aborted, Restored;
  }

  lemma CleanersJoin(c: Cell, step: BeginStep)
    requires BeginEnabled(c, step)
    ensures c.actors <= BeginApply(c, step).actors && BeginApply(c, step).mem.row.size == c.mem.row.size
  {
  }

  lemma JoinersCome(c: Cell, step: Step)
    requires Enabled(c, step) && !Restarts(step) && (step.Begin? || step.World?)
    ensures c.actors <= Apply(c, step).actors && Apply(c, step).mem.row.size == c.mem.row.size
  {
    hide BeginApply, BeginEnabled, Copy;
    if step.Begin? { CleanersJoin(c, step.begin); }
  }

  /** A section that leaves the ledger alone, as a goroutine with a claim sees it. */
  lemma AgreesStays(c: Cell, step: Step, k: nat, claim: Ledger.Claim)
    requires Enabled(c, step) && !Restarts(step) && !Bills(c, step) && k < |c.actors| && Agrees(c.actors[k], claim)
    ensures var d := Apply(c, step);
      k < |d.actors| && Agrees(d.actors[k], claim) && d.mem.row.size == c.mem.row.size
  {
    if step.Clean? && step.k == k { assert false; }
    hide Agrees, FetchApply, PushApply, SettleApply, PartApply, CleanApply, Refuses;
    match step {
      case Fetch(l, f) => FetchFollows(c, l, f);
      case Push(l, p) => PushFollows(c, l, p); PushAgrees(c, l, p);
      case Settle(l, t) => SettleFollows(c, l, t); SettleAgrees(c, l, t);
      case Part(l, p) => PartFollows(c, l, p); PartAgrees(c, l, p);
      case Clean(l, t) => CleanFollows(c, l, t);
      case _ => JoinersCome(c, step);
    }
  }

  lemma BilledStays(w: Whole, v: Whole, id: nat, step: Step, n: nat)
    requires n in w.spots && Billed(w, n) && v.spots == w.spots && v.books == w.books
    requires w.spots[n].0 == id && Can(w, id, step) && !Bills(w.cells[id], step)
    requires id in v.cells && v.cells[id] == Apply(w.cells[id], step)
    ensures Billed(v, n)
  {
    hide Agrees, Enabled, Apply, Bills, Restarts;
    AgreesStays(w.cells[id], step, w.spots[n].1, w.books.claims[n]);
  }

  /** One row changes as its lifecycle does, and nothing else changes. */
  lemma RowMoves(s: Snap, t: Snap, w: Whole, id: nat, step: Step)
    requires Mirrors(s, w) && id in s.views && id in t.views && Can(w, id, step) && !Bills(w.cells[id], step)
    requires t == s.(views := s.views[id := t.views[id]]) && t.views[id].queued == s.views[id].queued
    requires Renamed(t.views[id], w.spots) == MemAfter(w, id, step)
    requires t.views[id].run.Some? ==> s.views[id].run.Some? && t.views[id].run.value.who == s.views[id].run.value.who
    ensures Makes(w, OneRow(id, step), Moved(w, id, step)) && Mirrors(t, Moved(w, id, step))
  {
    hide Base, Enabled, Apply, Renamed, RowMirrors, Numbered, Restarts, Agrees, Bills;
    CellMoves(w, id, step, s.views[id], t.views[id]);
    var v := Moved(w, id, step);
    forall n | n in v.spots ensures Billed(v, n) {
      assert Billed(w, n);
      if w.spots[n].0 == id { BilledStays(w, v, id, step, n); }
    }
  }

  /** A row has a lifecycle, which it mirrors. */
  lemma RowIsMirrored(s: Snap, w: Whole, id: nat)
    requires Mirrors(s, w) && id in s.views
    ensures id in w.cells && w.cells[id].mem == Renamed(s.views[id], w.spots)
    ensures Base(w.cells[id].mem, w.cells[id].actors)
    ensures s.views[id].run.Some? ==> s.views[id].run.value.who in w.spots && w.spots[s.views[id].run.value.who].0 == id
  {
    hide Base;
    assert RowMirrors(s.views[id], id, w.cells[id], w.spots);
  }

  lemma SameSize(m: Mem, w: Whole, id: nat)
    requires id in w.cells && w.cells[id].mem == Renamed(m, w.spots)
    ensures w.cells[id].mem.row.size == m.row.size
  {
  }

  // ----- the ledger

  /** The rows as they were; the counters as the ledger moves. */
  lemma BooksMove(s: Snap, t: Snap, w: Whole, step: Ledger.Step)
    requires Mirrors(s, w) && Ledger.Enabled(w.books, 0, step) && (step.Finish? || step.Roll?)
    requires var b := Ledger.Apply(w.books, 0, step); t == s.(used := b.used, reserved := b.reserved, active := b.active)
    ensures Makes(w, if step.Roll? then Rolling else Departure(step.k), Booked(w, 0, step)) && Mirrors(t, Booked(w, 0, step))
  {
    hide RowMirrors, Numbered;
    var v := Booked(w, 0, step);
    forall n | n in v.spots ensures Billed(v, n) { assert Billed(w, n); }
  }

  /** The ledger's entry is open to a goroutine whenever its section is, and moves its
      claim along with it. */
  lemma EntryFits(b: Ledger.Books, c: Cell, step: Step, n: nat)
    requires Enabled(c, step) && Bills(c, step) && n < |b.claims| && Agrees(c.actors[step.k], b.claims[n])
    ensures Ledger.Enabled(b, 0, Entry(step, n))
    ensures var e, d := Ledger.Apply(b, 0, Entry(step, n)), Apply(c, step);
      && |e.claims| == |b.claims| && e.claims == b.claims[n := e.claims[n]] && e.claims[n].size == b.claims[n].size
      && Follows(c, d, step.k) && Agrees(d.actors[step.k], e.claims[n])
  {
    hide CompleteStart, CompleteRollback, Refuses, Mine, Copy, Follows;
    if step.Settle? {
      SettleFollows(c, step.k, step.settle);
      assert c.actors[step.k].Working?;
    } else {
      assert Follows(c, Apply(c, step), step.k) by { UnreserveFollows(c, step.k); }
    }
    assert Follows(c, Apply(c, step), step.k);
  }

  lemma UnreserveFollows(c: Cell, k: nat)
    requires k < |c.actors|
    ensures Follows(c, Ends(c, k, Gone, c.mem), k)
  {
  }

  lemma EntryIsOpen(s: Snap, w: Whole, id: nat, step: Step, n: nat)
    requires Mirrors(s, w) && Can(w, id, step) && Bills(w.cells[id], step) && n in w.spots && w.spots[n] == (id, step.k)
    ensures CanBill(w, id, step, n)
    ensures n < |w.books.claims| && w.books.claims[n].size == w.cells[id].mem.row.size
  {
    hide Agrees, Apply, Enabled, RowMirrors, Numbered, Bills;
    assert Billed(w, n);
    EntryFits(w.books, w.cells[id], step, n);
  }

  lemma ChargeKeepsBilled(w: Whole, id: nat, step: Step, n: nat, o: nat)
    requires CanBill(w, id, step, n) && AllBilled(w) && o in w.spots && (o != n ==> w.spots[o] != w.spots[n])
    ensures o in Charged(w, id, step, n).spots && Billed(Charged(w, id, step, n), o)
  {
    hide Agrees, Apply, Enabled, Bills, Ledger.Enabled, Ledger.Apply;
    assert Billed(w, n) && Billed(w, o);
    EntryFits(w.books, w.cells[id], step, n);
  }

  /** A row and the ledger move in one section. */
  lemma BilledMoves(s: Snap, t: Snap, w: Whole, id: nat, step: Step, n: nat)
    requires Mirrors(s, w) && id in s.views && id in t.views && CanBill(w, id, step, n)
    requires var b := Ledger.Apply(w.books, 0, Entry(step, n));
      t == s.(views := s.views[id := t.views[id]], used := b.used, reserved := b.reserved, active := b.active)
    requires t.views[id].queued == s.views[id].queued && Renamed(t.views[id], w.spots) == MemAfter(w, id, step)
    requires t.views[id].run.Some? ==> s.views[id].run.Some? && t.views[id].run.value.who == s.views[id].run.value.who
    ensures Makes(w, Charging(id, step, n), Charged(w, id, step, n)) && Mirrors(t, Charged(w, id, step, n))
  {
    hide Base, Enabled, Apply, Renamed, RowMirrors, Restarts, Agrees, Bills, Billed, Ledger.Enabled, Ledger.Apply, Entry;
    CellMoves(w, id, step, s.views[id], t.views[id]);
    var v := Charged(w, id, step, n);
    forall o | o in v.spots ensures Billed(v, o) { ChargeKeepsBilled(w, id, step, n, o); }
    EntryKeepsCount(w, id, step, n);
    hide Numbered;
  }

  lemma EntryKeepsCount(w: Whole, id: nat, step: Step, n: nat)
    requires CanBill(w, id, step, n)
    ensures |Charged(w, id, step, n).books.claims| == |w.books.claims|
  {
  }

  /** What the counters are. */
  lemma CountersAreBooked(s: Snap, w: Whole)
    requires Mirrors(s, w)
    ensures w.books.used == s.used && w.books.reserved == s.reserved && w.books.active == s.active
    ensures |w.books.claims| == s.nextRun
  {
  }

  // ----- claiming

  lemma NumbersAreApart(w: Whole, nextRun: nat, n: nat, o: nat)
    requires Numbered(w.spots, nextRun) && n in w.spots && o in w.spots && w.spots[n] == w.spots[o]
    ensures n == o
  {
  }

  /** The run on the row is the worker's own: run numbers name goroutines one to one. */
  lemma RunIsTheWorkers(s: Snap, w: Whole, id: nat, who: nat, k: nat)
    requires Mirrors(s, w) && id in s.views && k < |w.cells[id].actors| && w.cells[id].actors[k].Working?
    requires who in w.spots && w.spots[who] == (id, k)
    ensures s.views[id].run.Some? && s.views[id].run.value.who == who
  {
    RowIsMirrored(s, w, id);
    WorkerHolds(w.cells[id].mem, w.cells[id].actors, k);
    hide Base, RowMirrors, AllBilled, Numbered, Unique;
    NumbersAreApart(w, s.nextRun, who, s.views[id].run.value.who);
  }

  lemma ClaimMoves(m: Mem, w: Whole, id: nat, who: nat)
    requires id in w.cells && w.cells[id].mem == Renamed(m, w.spots) && CanClaim(m)
    ensures Can(w, id, Begin(TakeNext))
    ensures Renamed(Claim(m, who), w.spots[who := (id, |w.cells[id].actors|)]) == MemAfter(w, id, Begin(TakeNext))
  {
  }

  lemma SpotsGrow(m: Mem, id: nat, c: Cell, spots: map<nat, (nat, nat)>, n: nat, spot: (nat, nat))
    requires RowMirrors(m, id, c, spots) && n !in spots
    ensures RowMirrors(m, id, c, spots[n := spot])
  {
    hide Base;
  }

  lemma NewNumber(w: Whole, id: nat, nextRun: nat, views: map<nat, Mem>)
    requires Numbered(w.spots, nextRun) && id in w.cells
    requires forall n :: n in w.spots && w.spots[n].0 == id ==> w.spots[n].1 < |w.cells[id].actors|
    ensures Numbered(w.spots[nextRun := (id, |w.cells[id].actors|)], nextRun + 1)
  {
  }

  lemma ClaimedParts(w: Whole, id: nat, n: nat, limit: int, size: nat)
    requires Can(w, id, Begin(TakeNext)) && Ledger.Enabled(w.books, limit, Ledger.Admit(size))
    ensures var v := Claimed(w, id, n, limit, size);
      && v.cells == w.cells[id := Apply(w.cells[id], Begin(TakeNext))] && v.spots == w.spots[n := (id, |w.cells[id].actors|)]
      && v.books.used == w.books.used && v.books.reserved == w.books.reserved + size && v.books.active == w.books.active + 1
      && |v.books.claims| == |w.books.claims| + 1 && |Apply(w.cells[id], Begin(TakeNext)).actors| == |w.cells[id].actors| + 1
  {
  }

  lemma ClaimKeepsBilled(w: Whole, id: nat, n: nat, limit: int, size: nat)
    requires Can(w, id, Begin(TakeNext)) && Ledger.Enabled(w.books, limit, Ledger.Admit(size))
    requires AllBilled(w) && n == |w.books.claims| && n !in w.spots && size == w.cells[id].mem.row.size
    ensures AllBilled(Claimed(w, id, n, limit, size))
  {
    var v := Claimed(w, id, n, limit, size);
    JoinersCome(w.cells[id], Begin(TakeNext));
    hide Agrees;
    assert Agrees(Working(Work.Claimed), Ledger.Claim(size, false, w.books.period, false, false, false)) by {
      FirstAgrees(size, w.books.period);
    }
    forall o | o in v.spots ensures Billed(v, o) {
      if o != n { assert Billed(w, o); }
    }
  }

  lemma FirstAgrees(size: nat, period: nat)
    ensures Agrees(Working(Work.Claimed), Ledger.Claim(size, false, period, false, false, false))
  {
  }

  lemma ClaimKeepsMirrors(s: Snap, t: Snap, w: Whole, id: nat, limit: int, size: nat)
    requires Mirrors(s, w) && id in s.views && CanClaim(s.views[id])
    requires Ledger.Enabled(w.books, limit, Ledger.Admit(size)) && size == s.views[id].row.size
    requires t == s.(views := s.views[id := Claim(s.views[id], s.nextRun)], reserved := s.reserved + size,
                     active := s.active + 1, nextRun := s.nextRun + 1)
    ensures Can(w, id, Begin(TakeNext)) && var v := Claimed(w, id, s.nextRun, limit, size);
      Makes(w, Claiming(id, size, limit), v) && Mirrors(t, v)
  {
    hide Base, Can, MemAfter, Enabled, Apply, Renamed, Claim, CanClaim, RowMirrors, Moved, Booked, Claimed;
    hide Ledger.Enabled, Ledger.Apply;
    var n := s.nextRun;
    RowIsMirrored(s, w, id);
    ClaimMoves(s.views[id], w, id, n);
    NewNumber(w, id, n, s.views);
    ClaimedParts(w, id, n, limit, size);
    var v := Claimed(w, id, n, limit, size);
    SameSize(s.views[id], w, id);
    ClaimKeepsBilled(w, id, n, limit, size);
    ClaimStaysQueued(s.views[id], n);
    forall other | other in t.views ensures RowMirrors(t.views[other], other, v.cells[other], v.spots) {
      if other != id {
        SpotsGrow(s.views[other], other, w.cells[other], w.spots, n, (id, |w.cells[id].actors|));
      } else {
        ClaimIsMirrored(s.views[id], w, id, n);
      }
    }
    hide Numbered, AllBilled;
  }

  lemma ClaimStaysQueued(m: Mem, n: nat)
    ensures Claim(m, n).queued == m.queued
  {
  }

  lemma ClaimIsMirrored(m: Mem, w: Whole, id: nat, n: nat)
    requires id in w.cells && RowMirrors(m, id, w.cells[id], w.spots) && CanClaim(m) && Can(w, id, Begin(TakeNext))
    ensures RowMirrors(Claim(m, n), id, Apply(w.cells[id], Begin(TakeNext)), w.spots[n := (id, |w.cells[id].actors|)])
  {
    ClaimMoves(m, w, id, n);
    StepKeepsBase(w.cells[id], Begin(TakeNext));
    hide Base;
  }

  // ----- many rows, new rows, and a restart

  lemma ManyMove(s: Snap, t: Snap, w: Whole, changed: set<nat>, step: Step)
    requires Mirrors(s, w) && t == s.(queue := t.queue, views := t.views) && t.views.Keys == s.views.Keys && step.Begin?
    requires Unique(t.queue) && (forall id :: id in t.queue ==> id in t.views)
    requires forall id :: id in changed ==> id in s.views && Can(w, id, step)
    requires forall id :: id in t.views ==> t.views[id].queued == (id in t.queue)
    requires forall id :: id in t.views && id !in changed ==> t.views[id] == s.views[id]
    requires forall id :: id in changed ==> Renamed(t.views[id], w.spots) == MemAfter(w, id, step)
    requires forall id :: id in changed && t.views[id].run.Some? ==>
      s.views[id].run.Some? && t.views[id].run.value.who == s.views[id].run.value.who
    ensures Makes(w, ManyRows(changed, step), ManyMoved(w, changed, step)) && Mirrors(t, ManyMoved(w, changed, step))
  {
    hide Base, Enabled, Apply, Renamed, RowMirrors, Numbered, MemAfter, Can, Agrees;
    var v := ManyMoved(w, changed, step);
    forall id | id in t.views ensures RowMirrors(t.views[id], id, v.cells[id], v.spots) {
      if id in changed { CellMoves(w, id, step, s.views[id], t.views[id]); }
    }
    forall n | n in v.spots ensures Billed(v, n) {
      assert Billed(w, n);
      if w.spots[n].0 in changed { BilledStays(w, v, w.spots[n].0, step, n); }
    }
  }

  lemma NewRowIsNumbered(w: Whole, id: nat, c: Cell)
    requires AllBilled(w) && id !in w.cells
    ensures AllBilled(w.(cells := w.cells[id := c]))
  {
    var v := w.(cells := w.cells[id := c]);
    forall n | n in v.spots ensures Billed(v, n) { assert Billed(w, n); }
  }

  lemma AppendIsUnique(queue: seq<nat>, id: nat)
    requires Unique(queue) && id !in queue
    ensures Unique(queue + [id])
  {
  }

  lemma NewRowIsMirrored(row: Row, id: nat, max: nat, spots: map<nat, (nat, nat)>)
    requires Fresh(Born(row, max))
    ensures RowMirrors(Mem(row, true, None, false, 0), id, Born(row, max), spots)
  {
    FreshHasBase(Born(row, max));
    hide Base;
  }

  lemma NewRowMirrors(s: Snap, t: Snap, w: Whole, id: nat, row: Row, max: nat)
    requires Mirrors(s, w) && id !in s.views && Fresh(Born(row, max))
    requires t == s.(queue := s.queue + [id], views := s.views[id := Mem(row, true, None, false, 0)])
    ensures var v := w.(cells := w.cells[id := Born(row, max)]); Makes(w, Appending(id, row, max), v) && Mirrors(t, v)
  {
    hide AllBilled, Unique, RowMirrors, Numbered, Born, Fresh;
    var v := w.(cells := w.cells[id := Born(row, max)]);
    NewRowIsNumbered(w, id, Born(row, max));
    AppendIsUnique(s.queue, id);
    NewRowIsMirrored(row, id, max, w.spots);
    forall other | other in t.views ensures RowMirrors(t.views[other], other, v.cells[other], v.spots) {
      if other != id { assert RowMirrors(s.views[other], other, w.cells[other], w.spots); }
    }
  }

  lemma RestartMirrors(t: Snap, w: Whole, now: int, used: nat)
    requires Unique(t.queue) && (forall id :: id in t.queue <==> id in t.views)
    requires forall id :: id in t.views <==> id in w.cells && w.cells[id].stored.Some?
    requires forall id :: id in t.views ==> t.views[id] == Mem(LoadRow(w.cells[id].stored.value, now), true, None, false, 0)
    requires t.used == used && t.reserved == t.active == 0 && t.nextRun == 0
    ensures Makes(w, Restarting(now, used), Restarted(w, now, used)) && Mirrors(t, Restarted(w, now, used))
  {
    var v := Restarted(w, now, used);
    assert v.cells.Keys == t.views.Keys;
    hide Restarted, RowMirrors, Reload;
    forall id | id in t.views ensures RowMirrors(t.views[id], id, v.cells[id], v.spots) {
      RestartedRow(w, id, now, used);
      ReloadedRow(w.cells[id], id, now);
    }
    RestartedParts(w, now, used);
  }

  lemma RestartedParts(w: Whole, now: int, used: nat)
    ensures var v := Restarted(w, now, used);
      v.spots == map[] && v.books.used == used && v.books.reserved == v.books.active == 0 && v.books.claims == []
  {
  }

  lemma RestartedRow(w: Whole, id: nat, now: int, used: nat)
    requires id in w.cells && w.cells[id].stored.Some?
    ensures var v := Restarted(w, now, used); id in v.cells && v.cells[id] == Reload(w.cells[id], now) && v.spots == map[]
  {
  }

  lemma ReloadedRow(c: Cell, id: nat, now: int)
    requires c.stored.Some?
    ensures RowMirrors(Mem(LoadRow(c.stored.value, now), true, None, false, 0), id, Reload(c, now), map[])
  {
    hide LoadRow;
    RunningIsReset(c.stored.value, now);
  }

  lemma RunningIsReset(row: Row, now: int)
    ensures !LoadRow(row, now).state.Running?
  {
  }

  // ----- what goes on between sections

  /** Calls made between sections, looks at the row, and what drive, host and writers do. */
  predicate Elsewhere(step: Step) {
    match step
    case Fetch(_, f) => f.StageFailed? || f.SlotFailed? || f.OpenFailed?
    case Push(_, p) => p.HostOpens? || p.OpenReplyLost? || p.HostCommits? || p.ReplyLost? || p.HostAborts? || p.CheckStop?
    case Settle(_, t) => t.PersistTakes? || t.EraseOriginal? || t.Depart? || t.AfterRefusal?
    case Part(_, p) => p.AfterTrouble? || p.Decide? || p.Unwind? || p.DiscardOwn?
    case Clean(_, t) =>
      t.CancelResumes? || t.CleanerDiscards? || t.CancelHostAborts? || t.RetryHostAborts? || t.CleanUpErases?
    case World(v) => !v.Crash?
    case _ => false
  }

  lemma ElsewhereIsAside(c: Cell, step: Step)
    requires Enabled(c, step) && Elsewhere(step)
    ensures Apply(c, step).mem == c.mem && !Bills(c, step)
  {
    hide Aborted, CommitJob, Copy;
  }

  lemma AsideMoves(w: Whole, id: nat, step: Step)
    requires Can(w, id, step) && Elsewhere(step)
    ensures MemAfter(w, id, step) == w.cells[id].mem && !Bills(w.cells[id], step)
  {
    ElsewhereIsAside(w.cells[id], step);
  }

  /** None of that changes a row in memory or a counter. */
  lemma StepsElsewhere(s: Snap, w: Whole, id: nat, step: Step)
    requires Mirrors(s, w) && id in s.views && Can(w, id, step) && Elsewhere(step)
    ensures Makes(w, OneRow(id, step), Moved(w, id, step)) && Mirrors(s, Moved(w, id, step))
  {
    hide Mirrors, Can, MemAfter, Moved, Renamed, Bills, Base, Elsewhere;
    RowIsMirrored(s, w, id);
    AsideMoves(w, id, step);
    assert s == s.(views := s.views[id := s.views[id]]);
    RowMoves(s, s, w, id, step);
  }

  /** Whatever sections have interleaved: a row with a run record has its worker and no
      cleaner that owns it, a mark count that is the number of marks held, and a worker's
      row is its own. */
  lemma RowsAreExclusive(s: Snap, w: Whole, id: nat, k: nat)
    requires Mirrors(s, w) && id in s.views && k < |w.cells[id].actors|
    ensures s.views[id].deleting == Marks(w.cells[id].actors)
    ensures w.cells[id].actors[k].Working? ==> s.views[id].run.Some? && w.spots[s.views[id].run.value.who] == (id, k)
    ensures w.cells[id].actors[k].Tidying? && s.views[id].run.Some? ==>
      var chore := w.cells[id].actors[k].chore; chore.CWaiting? || chore.PDelete? || chore.PErased? || chore.Unmarking?
  {
    RowIsMirrored(s, w, id);
    OthersArePolite(w.cells[id].mem, w.cells[id].actors, k);
    if w.cells[id].actors[k].Working? { WorkerHolds(w.cells[id].mem, w.cells[id].actors, k); }
  }
}
