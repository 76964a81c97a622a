/** Writing the queue out: revisions, the dirty flag and the write lock
    (markQueueDirtyLocked and persistNow in internal/sync/engine.go). View is what a
    snapshot holds of the queue, upload job IDs apart: those change unmarked. */
module Persistence {
  import opened Wrappers

  datatype Version<V> = Version(revision: nat, view: V)

  /** The write in progress; reached is set once the host has stored it. */
  datatype Write<V> = Write(version: Version<V>, reached: bool)

  datatype Store<V> = Store(view: V, revision: nat, dirty: bool, stored: Version<V>, write: Option<Write<V>>)

  datatype Step<V> =
    | Mutate(view: V)     // any change made and marked in one locked section
    | Snapshot            // the writer copies the queue
    | Reach               // the host stores it
    | Refuse              // the host answers with an error, having stored nothing
    | LoseReply           // the host stores it, the answer is an error
    | Acknowledge         // the writer compares revisions

  predicate Enabled<V(==)>(s: Store<V>, step: Step<V>) {
    match step
    case Mutate(_) => true
    case Snapshot => s.write.None?
    case Reach => s.write.Some? && !s.write.value.reached
    case Refuse => s.write.Some? && !s.write.value.reached
    case LoseReply => s.write.Some? && !s.write.value.reached
    case Acknowledge => s.write.Some? && s.write.value.reached
  }

  function Apply<V(==)>(s: Store<V>, step: Step<V>): Store<V>
    requires Enabled(s, step)
  {
    match step
    case Mutate(view) => s.(view := view, revision := s.revision + 1, dirty := true)
    case Snapshot => s.(write := Some(Write(Version(s.revision, s.view), false)))
    case Reach => s.(stored := s.write.value.version, write := Some(s.write.value.(reached := true)))
    case Refuse => s.(write := None)
    case LoseReply => s.(stored := s.write.value.version, write := None)
    case Acknowledge =>
      s.(write := None, dirty := if s.revision == s.write.value.version.revision then false else s.dirty)
  }

  ghost predicate Inv<V>(s: Store<V>) {
    && s.stored.revision <= s.revision
    && (s.stored.revision == s.revision > 0 ==> s.stored.view == s.view)
    && (!s.dirty && s.revision > 0 ==> s.stored.revision == s.revision)
    && (s.write.Some? ==>
          var w := s.write.value;
          && s.stored.revision <= w.version.revision <= s.revision
          && (w.version.revision == s.revision ==> w.version.view == s.view)
          && (w.reached ==> s.stored == w.version))
  }

  /** As Load leaves it: nothing marked yet, whatever is stored. */
  ghost predicate Loaded<V>(s: Store<V>) {
    s.revision == 0 && !s.dirty && s.write.None? && s.stored.revision == 0
  }

  ghost predicate IsRun<V>(states: seq<Store<V>>, steps: seq<Step<V>>) {
    && |states| == |steps| + 1 && Loaded(states[0])
    && forall k :: 0 <= k < |steps| ==> Enabled(states[k], steps[k]) && states[k + 1] == Apply(states[k], steps[k])
  }

  lemma {:induction false} RunKeepsInv<V>(states: seq<Store<V>>, steps: seq<Step<V>>, k: nat)
    requires IsRun(states, steps) && k < |states|
    ensures Inv(states[k])
  {
    if k > 0 {
      RunKeepsInv(states, steps, k - 1);
      assert Enabled(states[k - 1], steps[k - 1]);
    }
  }

  /** Nothing marked is forgotten: a clean flag means the stored snapshot is the
      queue as it stands, for every interleaving of changes and writers. */
  lemma CleanMeansStored<V>(states: seq<Store<V>>, steps: seq<Step<V>>, k: nat)
    requires IsRun(states, steps) && k < |states|
    requires !states[k].dirty && states[k].revision > 0
    ensures states[k].stored == Version(states[k].revision, states[k].view)
  {
    RunKeepsInv(states, steps, k);
  }

  /** Stored snapshots never go backwards. */
  lemma {:induction false} StoredOnlyAdvances<V>(states: seq<Store<V>>, steps: seq<Step<V>>, j: nat, k: nat)
    requires IsRun(states, steps) && j <= k < |states|
    ensures states[j].stored.revision <= states[k].stored.revision
  {
    if j < k {
      StoredOnlyAdvances(states, steps, j, k - 1);
      RunKeepsInv(states, steps, k - 1);
      assert Enabled(states[k - 1], steps[k - 1]);
    }
  }

  /** A change is stored for good by one write that nothing comes between: from then on, until
      the next change, the flag is clear. */
  lemma OneWriteStoresIt<V>(states: seq<Store<V>>, steps: seq<Step<V>>) returns (longer: seq<Store<V>>, done: seq<Step<V>>)
    requires IsRun(states, steps) && states[|steps|].write.None?
    ensures IsRun(longer, done) && done == steps + [Snapshot, Reach, Acknowledge] && states <= longer
    ensures var s, d := states[|steps|], longer[|done|];
      !d.dirty && d.write.None? && d.view == s.view && d.revision == s.revision && d.stored == Version(s.revision, s.view)
  {
    var s := states[|steps|];
    var s1 := Apply(s, Snapshot);
    var s2 := Apply(s1, Reach);
    longer, done := states + [s1, s2, Apply(s2, Acknowledge)], steps + [Snapshot, Reach, Acknowledge];
  }

  /** The engine's fields behind persistNow; writing stands for the write lock. */
  class QueueStore<V(==)> {
    var view: V
    var queueRevision: nat
    var dirty: bool
    var stored: Version<V>
    var writing: bool
    var snapshot: Version<V>
    ghost var reached: bool

    ghost function Value(): Store<V>
      reads this
    {
      Store(view, queueRevision, dirty, stored, if writing then Some(Write(snapshot, reached)) else None)
    }

    constructor (view: V, stored: Version<V>)
      requires stored.revision == 0
      ensures Loaded(Value()) && Inv(Value()) && this.view == view && this.stored == stored
    {
      this.view := view;
      this.stored := stored;
      this.snapshot := stored;
      queueRevision, dirty, writing, reached := 0, false, false, false;
    }

    method Change(next: V)
      requires Inv(Value())
      modifies this
      ensures Inv(Value()) && Value() == Apply(old(Value()), Mutate(next))
      ensures view == next && queueRevision == old(queueRevision) + 1 && dirty && stored == old(stored)
      ensures writing == old(writing) && snapshot == old(snapshot)
    {
      view := next;
      queueRevision := queueRevision + 1;
      dirty := true;
    }

    /** The first locked section of persistNow. */
    method TakeSnapshot()
      requires Inv(Value()) && !writing
      modifies this
      ensures Inv(Value()) && Value() == Apply(old(Value()), Snapshot)
      ensures writing && !reached && snapshot == Version(queueRevision, view)
      ensures view == old(view) && queueRevision == old(queueRevision) && dirty == old(dirty) && stored == old(stored)
    {
      snapshot := Version(queueRevision, view);
      writing := true;
      reached := false;
    }

    /** The host call, outside the lock. */
    method SetData(stores: bool, answers: bool) returns (ok: bool)
      requires Inv(Value()) && writing && !reached
      modifies this
      ensures Inv(Value()) && ok == (stores && answers)
      ensures Value() == Apply(old(Value()), if stores && answers then Reach else if stores then LoseReply else Refuse)
      ensures stored == (if stores then old(snapshot) else old(stored)) && writing == reached == ok
      ensures view == old(view) && queueRevision == old(queueRevision) && dirty == old(dirty)
    {
      if stores {
        stored := snapshot;
      }
      ok := stores && answers;
      reached := ok;
      writing := ok;
    }

    /** The second locked section: clean only if nothing changed meanwhile. */
    method Confirm()
      requires Inv(Value()) && writing && reached
      modifies this
      ensures Inv(Value()) && Value() == Apply(old(Value()), Acknowledge)
      ensures !writing && dirty == (old(dirty) && queueRevision != old(snapshot).revision)
      ensures view == old(view) && queueRevision == old(queueRevision) && stored == old(stored)
    {
      if queueRevision == snapshot.revision {
        dirty := false;
      }
      writing := false;
    }
  }
}
