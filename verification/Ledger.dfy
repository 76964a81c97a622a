/** The daily quota: what the counter, the reservations and the admission test do
    between them (takeNextWithRun, quotaAllowsLocked, complete, releaseReservation
    and rollQuota in internal/sync/engine.go). */
module Ledger {
  import opened Wrappers

  /** One claimed transfer. charged: complete has added it to the counter, in the
      period named; settled: that completion has been persisted; released and finished:
      the reservation, and then the worker's place, have been given back. */
  datatype Claim = Claim(size: nat, charged: bool, period: nat, settled: bool, released: bool, finished: bool)

  /** carried: what the counter held of the current period when the process started. */
  datatype Books = Books(used: int, reserved: int, active: int, period: nat, carried: nat, claims: seq<Claim>)

  datatype Step =
    | Admit(size: nat)
    | Charge(k: nat)
    | Settle(k: nat)
    | Rollback(k: nat)
    | Release(k: nat)
    | Finish(k: nat)
    | Roll

  /** quotaAllowsLocked. */
  predicate QuotaAllows(limit: int, used: int, reserved: int, size: int) {
    if limit <= 0 then true
    else if used + reserved + size <= limit then true
    else size > limit && used == 0 && reserved == 0
  }

  /** The window inside complete between charging the counter and knowing whether
      the queue could be stored. */
  predicate InWindow(c: Claim) {
    c.charged && !c.settled && !c.released
  }

  predicate Enabled(b: Books, limit: int, step: Step) {
    match step
    case Admit(size) => QuotaAllows(limit, b.used, b.reserved, size)
    case Charge(k) => k < |b.claims| && !b.claims[k].charged && !b.claims[k].released
    case Settle(k) => k < |b.claims| && InWindow(b.claims[k])
    case Rollback(k) => k < |b.claims| && InWindow(b.claims[k])
    case Release(k) => k < |b.claims| && !b.claims[k].released && !InWindow(b.claims[k])
    case Finish(k) => k < |b.claims| && b.claims[k].released && !b.claims[k].finished
    case Roll => true
  }

  function Apply(b: Books, limit: int, step: Step): Books
    requires Enabled(b, limit, step)
  {
    match step
    case Admit(size) =>
      b.(reserved := b.reserved + size, active := b.active + 1,
         claims := b.claims + [Claim(size, false, b.period, false, false, false)])
    case Charge(k) =>
      b.(used := b.used + b.claims[k].size, claims := b.claims[k := b.claims[k].(charged := true, period := b.period)])
    case Settle(k) => b.(claims := b.claims[k := b.claims[k].(settled := true)])
    case Rollback(k) =>
      b.(used := b.used - b.claims[k].size, claims := b.claims[k := b.claims[k].(charged := false)])
    case Release(k) =>
      var left := b.reserved - b.claims[k].size;
      b.(reserved := if left < 0 then 0 else left, claims := b.claims[k := b.claims[k].(released := true)])
    case Finish(k) =>
      b.(active := if b.active - 1 < 0 then 0 else b.active - 1, claims := b.claims[k := b.claims[k].(finished := true)])
    case Roll => b.(used := 0, carried := 0, period := b.period + 1)
  }

  // ----- sums over claims

  /** Bytes a claim still reserves, has open, or has spent in the current period. */
  function Held(c: Claim): nat { if c.released then 0 else c.size }

  function Open(c: Claim): nat { if c.released || c.charged then 0 else c.size }

  function Spent(c: Claim, period: nat): nat { if c.charged && c.period == period then c.size else 0 }

  function Running(c: Claim): nat { if c.finished then 0 else 1 }

  ghost function Sum(claims: seq<Claim>, f: Claim -> nat): nat {
    if claims == [] then 0 else Sum(claims[..|claims| - 1], f) + f(claims[|claims| - 1])
  }

  lemma {:induction false} SumChanges(claims: seq<Claim>, f: Claim -> nat, k: nat, c: Claim)
    requires k < |claims|
    ensures Sum(claims[k := c], f) == Sum(claims, f) - f(claims[k]) + f(c)
    ensures f(claims[k]) <= Sum(claims, f)
  {
    var n := |claims| - 1;
    if k == n {
      assert claims[k := c][..n] == claims[..n];
    } else {
      SumChanges(claims[..n], f, k, c);
      assert claims[k := c][..n] == claims[..n][k := c];
    }
  }

  lemma SumAppends(claims: seq<Claim>, f: Claim -> nat, c: Claim)
    ensures Sum(claims + [c], f) == Sum(claims, f) + f(c)
  {
    assert (claims + [c])[..|claims|] == claims;
  }

  lemma {:induction false} SumOrders(claims: seq<Claim>, f: Claim -> nat, g: Claim -> nat)
    requires forall k :: 0 <= k < |claims| ==> f(claims[k]) <= g(claims[k])
    ensures Sum(claims, f) <= Sum(claims, g)
  {
    if claims != [] { SumOrders(claims[..|claims| - 1], f, g); }
  }

  lemma {:induction false} SumIsNothing(claims: seq<Claim>, f: Claim -> nat)
    requires forall k :: 0 <= k < |claims| ==> f(claims[k]) == 0
    ensures Sum(claims, f) == 0
  {
    if claims != [] { SumIsNothing(claims[..|claims| - 1], f); }
  }

  ghost function Reserved(b: Books): nat { Sum(b.claims, Held) }

  ghost function OpenBytes(b: Books): nat { Sum(b.claims, Open) }

  ghost function SpentBytes(b: Books): nat { b.carried + Sum(b.claims, c => Spent(c, b.period)) }

  ghost function Unfinished(b: Books): nat { Sum(b.claims, Running) }

  // ----- the invariant

  /** Within the allowance, or nothing beyond what was there at the start, or one oversize
      file and nothing else. */
  ghost predicate WithinAllowance(b: Books, limit: int) {
    || SpentBytes(b) + OpenBytes(b) <= limit
    || SpentBytes(b) + OpenBytes(b) == b.carried
    || exists k :: 0 <= k < |b.claims| && b.claims[k].size > limit && Alone(b, b.claims[k])
  }

  ghost predicate Alone(b: Books, c: Claim) {
    SpentBytes(b) + OpenBytes(b) == c.size == Spent(c, b.period) + Open(c)
  }

  ghost predicate Counters(b: Books) {
    && b.reserved == Reserved(b)
    && b.active == Unfinished(b)
    && (forall k :: 0 <= k < |b.claims| ==> b.claims[k].period <= b.period)
  }

  ghost predicate Inv(b: Books, limit: int) {
    Counters(b) && b.used == SpentBytes(b) && (0 < limit ==> WithinAllowance(b, limit))
  }

  lemma Rearranges(b: Books, k: nat, c: Claim)
    requires k < |b.claims|
    ensures var d := b.(claims := b.claims[k := c]);
            && Reserved(d) == Reserved(b) - Held(b.claims[k]) + Held(c)
            && OpenBytes(d) == OpenBytes(b) - Open(b.claims[k]) + Open(c)
            && SpentBytes(d) == SpentBytes(b) - Spent(b.claims[k], b.period) + Spent(c, b.period)
            && Unfinished(d) == Unfinished(b) - (if b.claims[k].finished then 0 else 1) + (if c.finished then 0 else 1)
    ensures Held(b.claims[k]) <= Reserved(b) && (b.claims[k].finished || 1 <= Unfinished(b))
    ensures Open(b.claims[k]) <= OpenBytes(b) && Spent(b.claims[k], b.period) <= SpentBytes(b)
  {
    SumChanges(b.claims, Held, k, c);
    SumChanges(b.claims, Open, k, c);
    SumChanges(b.claims, x => Spent(x, b.period), k, c);
    SumChanges(b.claims, Running, k, c);
  }

  /** Reservations and the active count are exact in every run, so neither clamp in
      releaseReservation and finishActive ever fires. */
  lemma CountersAreKept(b: Books, limit: int, step: Step)
    requires Counters(b) && Enabled(b, limit, step)
    ensures Counters(Apply(b, limit, step))
    ensures step.Release? ==> b.claims[step.k].size <= b.reserved
    ensures step.Finish? ==> 1 <= b.active
  {
    if step.Admit? {
      var c := Claim(step.size, false, b.period, false, false, false);
      SumAppends(b.claims, Held, c);
      SumAppends(b.claims, Running, c);
    } else if !step.Roll? {
      Rearranges(b, step.k, Apply(b, limit, step).claims[step.k]);
    }
  }

  lemma AdmitKeepsInv(b: Books, limit: int, size: nat)
    requires Inv(b, limit) && Enabled(b, limit, Admit(size))
    ensures Inv(Apply(b, limit, Admit(size)), limit)
  {
    var d := Apply(b, limit, Admit(size));
    var c := Claim(size, false, b.period, false, false, false);
    CountersAreKept(b, limit, Admit(size));
    SumAppends(b.claims, Open, c);
    SumAppends(b.claims, x => Spent(x, b.period), c);
    OpenIsReserved(b);
    if 0 < limit && b.used + b.reserved + size > limit {
      assert d.claims[|b.claims|] == c && Alone(d, c);
    }
  }

  lemma OpenIsReserved(b: Books)
    ensures OpenBytes(b) <= Reserved(b)
  {
    SumOrders(b.claims, Open, Held);
  }

  lemma MoveKeepsInv(b: Books, limit: int, step: Step)
    requires Inv(b, limit) && Enabled(b, limit, step)
    requires step.Charge? || step.Settle? || step.Release? || step.Finish? || step.Rollback?
    requires step.Rollback? ==> b.claims[step.k].period == b.period
    ensures Inv(Apply(b, limit, step), limit)
  {
    var d := Apply(b, limit, step);
    CountersAreKept(b, limit, step);
    Rearranges(b, step.k, d.claims[step.k]);
    if 0 < limit && SpentBytes(b) + OpenBytes(b) > limit && SpentBytes(b) + OpenBytes(b) != b.carried {
      var j :| 0 <= j < |b.claims| && b.claims[j].size > limit && Alone(b, b.claims[j]);
      OversizeStaysAlone(b, limit, step, j);
    }
  }

  lemma OthersAreEmpty(b: Books, j: nat, k: nat)
    requires j < |b.claims| && k < |b.claims| && j != k && Alone(b, b.claims[j])
    ensures Open(b.claims[k]) == 0 && Spent(b.claims[k], b.period) == 0
  {
    var gone := Claim(0, false, 0, false, true, true);
    Rearranges(b, j, gone);
    Rearranges(b.(claims := b.claims[j := gone]), k, gone);
  }

  /** Whatever happens to the one oversize file, or to the empty files beside it,
      it is still the only thing counted. */
  lemma OversizeStaysAlone(b: Books, limit: int, step: Step, j: nat)
    requires Inv(b, limit) && Enabled(b, limit, step) && 0 < limit
    requires step.Charge? || step.Settle? || step.Release? || step.Finish? || step.Rollback?
    requires step.Rollback? ==> b.claims[step.k].period == b.period
    requires j < |b.claims| && b.claims[j].size > limit && Alone(b, b.claims[j])
    ensures WithinAllowance(Apply(b, limit, step), limit)
  {
    var d := Apply(b, limit, step);
    Rearranges(b, step.k, d.claims[step.k]);
    if SpentBytes(d) + OpenBytes(d) > limit {
      if step.k != j { OthersAreEmpty(b, j, step.k); }
      assert Alone(d, d.claims[j]);
    }
  }

  lemma RollKeepsInv(b: Books, limit: int)
    requires Inv(b, limit)
    ensures Inv(Apply(b, limit, Roll), limit)
  {
    var d := Apply(b, limit, Roll);
    CountersAreKept(b, limit, Roll);
    SumIsNothing(d.claims, c => Spent(c, d.period));
    if 0 < limit && OpenBytes(d) > limit && SpentBytes(b) + OpenBytes(b) != b.carried {
      var j :| 0 <= j < |b.claims| && b.claims[j].size > limit && Alone(b, b.claims[j]);
      OpenOfTheAlone(b, j);
      assert Alone(d, d.claims[j]);
    }
  }

  lemma OpenOfTheAlone(b: Books, j: nat)
    requires j < |b.claims| && Alone(b, b.claims[j]) && OpenBytes(b) > 0
    ensures Open(b.claims[j]) == b.claims[j].size == OpenBytes(b)
  {
    Rearranges(b, j, b.claims[j]);
  }

  /** A step is orderly unless it rolls back a completion the counter charged in a
      period that has since rolled over. */
  predicate Orderly(b: Books, step: Step) {
    step.Rollback? && step.k < |b.claims| ==> b.claims[step.k].period == b.period || b.claims[step.k].size == 0
  }

  lemma StepKeepsInv(b: Books, limit: int, step: Step)
    requires Inv(b, limit) && Enabled(b, limit, step) && Orderly(b, step)
    ensures Inv(Apply(b, limit, step), limit)
  {
    match step {
      case Admit(size) => AdmitKeepsInv(b, limit, size);
      case Roll => RollKeepsInv(b, limit);
      case Rollback(k) =>
        if b.claims[k].period == b.period {
          MoveKeepsInv(b, limit, step);
        } else {
          EmptyRollbackKeepsInv(b, limit, k);
        }
      case _ => MoveKeepsInv(b, limit, step);
    }
  }

  lemma EmptyRollbackKeepsInv(b: Books, limit: int, k: nat)
    requires Inv(b, limit) && Enabled(b, limit, Rollback(k)) && b.claims[k].size == 0
    ensures Inv(Apply(b, limit, Rollback(k)), limit)
  {
    var d := Apply(b, limit, Rollback(k));
    CountersAreKept(b, limit, Rollback(k));
    Rearranges(b, k, d.claims[k]);
    if 0 < limit && SpentBytes(b) + OpenBytes(b) > limit && SpentBytes(b) + OpenBytes(b) != b.carried {
      var j :| 0 <= j < |b.claims| && b.claims[j].size > limit && Alone(b, b.claims[j]);
      assert Alone(d, d.claims[j]);
    }
  }

  /** A rollback leaves the counter true to what was spent exactly when the period
      has not rolled over since the charge (an empty file is no matter). */
  lemma RollbackIsExactUnlessRolled(b: Books, limit: int, k: nat)
    requires Inv(b, limit) && Enabled(b, limit, Rollback(k))
    ensures var d := Apply(b, limit, Rollback(k));
            d.used == SpentBytes(d) <==> b.claims[k].period == b.period || b.claims[k].size == 0
  {
    Rearranges(b, k, Apply(b, limit, Rollback(k)).claims[k]);
  }

  ghost predicate IsRun(states: seq<Books>, steps: seq<Step>, limit: int) {
    && |states| == |steps| + 1
    && states[0].used == states[0].carried && states[0].reserved == states[0].active == 0 && states[0].claims == []
    && forall k :: 0 <= k < |steps| ==>
         Enabled(states[k], limit, steps[k]) && states[k + 1] == Apply(states[k], limit, steps[k])
  }

  lemma {:induction false} RunKeepsCounters(states: seq<Books>, steps: seq<Step>, limit: int, k: nat)
    requires IsRun(states, steps, limit) && k < |states|
    ensures Counters(states[k])
  {
    if k > 0 {
      RunKeepsCounters(states, steps, limit, k - 1);
      CountersAreKept(states[k - 1], limit, steps[k - 1]);
    }
  }

  lemma {:induction false} RunKeepsInv(states: seq<Books>, steps: seq<Step>, limit: int, k: nat)
    requires IsRun(states, steps, limit) && k < |states|
    requires forall j :: 0 <= j < k ==> Orderly(states[j], steps[j])
    ensures Inv(states[k], limit)
  {
    if k > 0 {
      RunKeepsInv(states, steps, limit, k - 1);
      StepKeepsInv(states[k - 1], limit, steps[k - 1]);
    }
  }

  /** Quota safety over whole runs, for any number of workers, across period rolls, and
      whatever the counter held at the start: what this period spent plus what is still
      open stays within the limit, or adds nothing to what the counter held, or is exactly
      one oversize file alone. */
  lemma QuotaSafety(states: seq<Books>, steps: seq<Step>, limit: int, k: nat)
    requires IsRun(states, steps, limit) && k < |states| && 0 < limit
    requires forall j :: 0 <= j < k ==> Orderly(states[j], steps[j])
    ensures states[k].used == SpentBytes(states[k])
    ensures states[k].used + OpenBytes(states[k]) <= limit || states[k].used + OpenBytes(states[k]) == states[k].carried ||
            exists j :: 0 <= j < |states[k].claims| && states[k].claims[j].size > limit
                        && states[k].used + OpenBytes(states[k]) == states[k].claims[j].size
  {
    RunKeepsInv(states, steps, limit, k);
    var b := states[k];
    if b.used + OpenBytes(b) > limit && b.used + OpenBytes(b) != b.carried {
      var j :| 0 <= j < |b.claims| && b.claims[j].size > limit && Alone(b, b.claims[j]);
    }
  }

  /** reserved is the sum of the unreleased claims after every run, orderly or not. */
  lemma ReservationsAreExact(states: seq<Books>, steps: seq<Step>, limit: int, k: nat)
    requires IsRun(states, steps, limit) && k < |states|
    ensures states[k].reserved == Reserved(states[k]) && states[k].active == Unfinished(states[k])
    ensures k < |steps| && steps[k].Release? ==> states[k].reserved >= states[k].claims[steps[k].k].size
    ensures k < |steps| && steps[k].Finish? ==> states[k].active >= 1
  {
    RunKeepsCounters(states, steps, limit, k);
    if k < |steps| {
      CountersAreKept(states[k], limit, steps[k]);
    }
  }

  /** In every orderly run a file is admitted exactly if there is no limit, or it fits beside
      what the claims have spent in this period and what they still hold, or it is larger than
      the whole limit and they have spent and hold nothing. */
  lemma AdmissionIsExact(states: seq<Books>, steps: seq<Step>, limit: int, k: nat, size: nat)
    requires IsRun(states, steps, limit) && k < |states|
    requires forall j :: 0 <= j < k ==> Orderly(states[j], steps[j])
    ensures var b := states[k];
      Enabled(b, limit, Admit(size)) <==>
        || limit <= 0 || SpentBytes(b) + Reserved(b) + size <= limit
        || (size > limit && SpentBytes(b) == 0 && Reserved(b) == 0)
  {
    RunKeepsInv(states, steps, limit, k);
  }

  lemma Extend(states: seq<Books>, steps: seq<Step>, limit: int, step: Step) returns (longer: seq<Books>, done: seq<Step>)
    requires IsRun(states, steps, limit) && Enabled(states[|steps|], limit, step)
    ensures IsRun(longer, done, limit) && done == steps + [step]
    ensures longer == states + [Apply(states[|steps|], limit, step)]
  {
    longer, done := states + [Apply(states[|steps|], limit, step)], steps + [step];
  }

  /** The transfers under way come to an end: each of the first n claims, if it has not, gives
      its reservation back, once its completion, if one is pending, has been stored. */
  lemma {:induction false} ReleasesAll(states: seq<Books>, steps: seq<Step>, limit: int, n: nat)
      returns (longer: seq<Books>, done: seq<Step>)
    requires IsRun(states, steps, limit) && n <= |states[|steps|].claims|
    ensures IsRun(longer, done, limit) && states <= longer && steps <= done
    ensures forall i :: |steps| <= i < |done| ==> done[i].Settle? || done[i].Release?
    ensures var b, d := states[|steps|], longer[|done|];
      && |d.claims| == |b.claims| && (forall j :: 0 <= j < n ==> d.claims[j].released)
      && forall j :: n <= j < |b.claims| ==> d.claims[j] == b.claims[j]
    decreases n
  {
    longer, done := states, steps;
    if n > 0 {
      if InWindow(longer[|done|].claims[n - 1]) {
        longer, done := Extend(longer, done, limit, Settle(n - 1));
      }
      if !longer[|done|].claims[n - 1].released {
        longer, done := Extend(longer, done, limit, Release(n - 1));
      }
      longer, done := ReleasesAll(longer, done, limit, n - 1);
    }
  }

  lemma NothingHeldNothingUsed(states: seq<Books>, steps: seq<Step>, limit: int, k: nat, size: nat)
    requires IsRun(states, steps, limit) && k < |states| && states[k].used == 0
    requires forall j :: 0 <= j < |states[k].claims| ==> states[k].claims[j].released
    ensures Enabled(states[k], limit, Admit(size))
  {
    RunKeepsCounters(states, steps, limit, k);
    SumIsNothing(states[k].claims, Held);
  }

  /** No file is kept out for good, whatever its size and the limit: from every state of every
      run, once the transfers under way have ended and the period has rolled over, it is
      admitted, with no other file let in before it. */
  lemma EveryFileHasItsTurn(states: seq<Books>, steps: seq<Step>, limit: int, size: nat)
      returns (longer: seq<Books>, done: seq<Step>)
    requires IsRun(states, steps, limit)
    ensures IsRun(longer, done, limit) && states <= longer && steps <= done
    ensures |done| >= |steps| + 2 && done[|done| - 2] == Roll && done[|done| - 1] == Admit(size)
    ensures forall i :: |steps| <= i < |done| - 2 ==> done[i].Settle? || done[i].Release?
  {
    longer, done := ReleasesAll(states, steps, limit, |states[|steps|].claims|);
    longer, done := Extend(longer, done, limit, Roll);
    NothingHeldNothingUsed(longer, done, limit, |done|, size);
    longer, done := Extend(longer, done, limit, Admit(size));
  }

  /** The disorderly case is reachable: a roll between the charge and a failed
      write drives the counter below zero, and more than the limit gets admitted. */
  lemma RollInsideAFailedCompletionOvershoots()
    ensures var limit := 10;
            var start := Books(0, 0, 0, 0, 0, []);
            var b := Apply(Apply(Apply(Apply(start, limit, Admit(10)), limit, Charge(0)), limit, Roll), limit, Rollback(0));
            && b.used == -10
            && Enabled(b, limit, Release(0))
            && Enabled(Apply(b, limit, Release(0)), limit, Admit(20))
  {
  }
}
