/** Back to a file after an attempt for another one was made in its place: what the sidecar
    that stayed behind is then worth. */
module Detours {
  import opened Wrappers
  import opened Geometry
  import opened Checkpoint
  import opened CheckpointFiles
  import opened Disk
  import opened Resume
  import opened Takeover

  // ----- by owner and era

  ghost predicate ClaimsNothing(c: Sidecar) {
    forall k :: 0 <= k < c.id.size ==> !Claims(c.rec, c.id.size, c.id.chunkSize, k)
  }

  /** What an accepted sidecar claims, by the two things that can be told of it: whether it
      was written beside the present .part, and for which file that is. Written beside it,
      the sidecar is right exactly if that file has the wanted content, or it claims
      nothing. Wrong it can be in two ways only: it is for another content, let in by a
      blank hash, or .part has been given up or taken over since. */
  lemma AcceptedByOwnerAndEra(s: State)
    requires Inv(s) && s.phase.Loading? && Accepts(s)
    ensures s.sidecar.value.era == s.era ==>
      (ClaimsAreRight(s) <==> ContentOf(s.owner) == ContentOf(s.id) || ClaimsNothing(s.sidecar.value))
    ensures !ClaimsAreRight(s) ==>
      ContentOf(s.sidecar.value.id) != ContentOf(s.id) || s.sidecar.value.era < s.era
  {
    var c := s.sidecar.value;
    assert Version(s, c) && c.id.size == Size(s) && c.id.chunkSize == Chunk(s);
    if c.era == s.era {
      if ContentOf(s.owner) == ContentOf(s.id) {
        assert Held(s, c);
        BackedClaims(s.part.value, Src(s), c.rec, Size(s), Chunk(s));
      } else {
        OtherContentIsNeverRight(s);
      }
    }
  }

  // ----- a detour whose sidecar is never stored

  /** Every byte is blank, or was written from this content. */
  ghost predicate Pure(f: File, content: Content)
    requires 0 <= content.size
  {
    && |f.vol| == |f.dur| <= content.size
    && (forall k :: 0 <= k < |f.vol| ==> f.vol[k] == Blank || f.vol[k] == From(content, k))
    && (forall k :: 0 <= k < |f.dur| ==> f.dur[k] == Blank || f.dur[k] == From(content, k))
  }

  /** A step of the other file's attempt, up to its end or its death, that stores no sidecar. */
  predicate Unstored(step: Step) {
    match step
    case Open => true
    case Truncate => true
    case Save(writable) => !writable
    case InPool(p) => (p.MarkDone? ==> !p.writable) && (p.Record_? ==> !p.writable)
    case Abandon => true
    case _ => false
  }

  ghost predicate Detour(states: seq<State>, steps: seq<Step>, other: Identity) {
    && |states| == |steps| + 1 && |steps| >= 2 && steps[0] == Start(other) && steps[1] == Load
    && (forall i :: 0 <= i < |steps| ==>
          0 <= Size(states[i]) && Enabled(states[i], steps[i]) && states[i + 1] == Apply(states[i], steps[i]))
    && (forall i :: 2 <= i < |steps| ==> Unstored(steps[i]))
  }

  /** .part has been sized. */
  predicate Sizable(phase: Phase) {
    phase.Saving? || phase.Running? || phase.Closing?
  }

  /** The first file's sidecar is still there, beside a .part of the other's bytes. */
  ghost predicate Away(s: State, t: State, other: Identity)
    requires WellFormed(other)
  {
    && t.id == t.owner == other && t.era == s.era + 1 && t.sidecar == s.sidecar && t.past == s.past && t.staged.None?
    && (t.phase.Opening? || t.phase.Sizing? || Sizable(t.phase) || t.phase.Idle?)
    && (t.phase.Sizing? ==> t.part.Some?) && (Sizable(t.phase) ==> Full(t))
    && (t.part.Some? ==> Pure(t.part.value, ContentOf(other)))
  }

  lemma WriteStaysPure(f: File, content: Content, at: int, n: int)
    requires 0 <= content.size && Pure(f, content) && |f.vol| == content.size && 0 <= at <= at + n <= content.size
    ensures Pure(WriteAt(f, Source(content)[at..at + n], at), content)
  {
    var data := Source(content)[at..at + n];
    var g := WriteAt(f, data, at);
    forall k | 0 <= k < content.size ensures g.vol[k] == Blank || g.vol[k] == From(content, k) {
      WrittenByte(f, data, at, k);
    }
  }

  lemma PoolStaysAway(s: State, t: State, step: PoolStep, other: Identity)
    requires WellFormed(other) && Away(s, t, other) && Enabled(t, InPool(step)) && Unstored(InPool(step))
    ensures Away(s, PoolApply(t, t.phase.pool, step), other)
  {
    hide Pure;
    if step.Write? {
      var at := Lo(step.i, Chunk(t)) + t.phase.pool.workers[step.i].written;
      if 0 <= at && at + step.n <= Size(t) { WriteStaysPure(t.part.value, ContentOf(other), at, step.n); }
    } else if step.SyncChunk? || step.SyncSnapshot? {
      SyncStaysPure(t.part.value, ContentOf(other));
    }
    hide WriteAt;
  }

  lemma SyncStaysPure(f: File, content: Content)
    requires 0 <= content.size && Pure(f, content)
    ensures Pure(Sync(f), content)
  {
  }

  lemma StepStaysAway(s: State, t: State, step: Step, other: Identity)
    requires WellFormed(other) && Away(s, t, other) && 0 <= Size(t) && Enabled(t, step) && Unstored(step)
    ensures Away(s, Apply(t, step), other)
  {
    if step.InPool? { PoolStaysAway(s, t, step.step, other); }
  }

  lemma {:induction false} StaysAway(states: seq<State>, steps: seq<Step>, other: Identity, n: nat)
    requires WellFormed(other) && Detour(states, steps, other)
    requires Inv(states[0]) && states[0].staged.None? && states[0].sidecar.Some?
    requires !SameFile(states[0].sidecar.value.id, other)
    requires 2 <= n < |states|
    ensures Away(states[0], states[n], other)
  {
    assert Enabled(states[0], steps[0]) && Enabled(states[1], steps[1]);
    if n > 2 {
      StaysAway(states, steps, other, n - 1);
      StepStaysAway(states[0], states[n - 1], steps[n - 1], other);
    }
  }

  /** Back to the first file after an attempt for another, of any length and however it went,
      that died without ever storing its sidecar. The old sidecar is accepted exactly when
      .part has the old size. It is then right exactly if each byte it claims has been
      fetched in the meantime, and the other file has the same content; with another
      content, exactly if it claims nothing. */
  lemma ReturningFromADetour(states: seq<State>, steps: seq<Step>, other: Identity)
    requires WellFormed(other) && Detour(states, steps, other)
    requires Inv(states[0]) && states[0].staged.None? && states[0].sidecar.Some?
    requires !SameFile(states[0].sidecar.value.id, other)
    requires states[|steps|].phase.Idle?
    ensures var c, last := states[0].sidecar.value, states[|steps|];
      && 0 <= Size(last) && Enabled(last, Start(c.id)) && var back := Apply(last, Start(c.id));
      && back.phase.Loading? && 0 <= Size(back)
      && (Accepts(back) <==> last.part.Some? && |last.part.value.vol| == c.id.size)
      && (Accepts(back) ==>
            (ClaimsAreRight(back) <==>
               ClaimsNothing(c) || (ContentOf(other) == ContentOf(c.id) && AllFetched(last.part.value, c))))
  {
    var s, last := states[0], states[|steps|];
    var c := s.sidecar.value;
    assert Version(s, c);
    StaysAway(states, steps, other, |steps|);
    var back := Apply(last, Start(c.id));
    if Accepts(back) { PureClaims(last.part.value, c, ContentOf(other)); }
  }

  /** No byte the sidecar claims is blank. */
  ghost predicate AllFetched(f: File, c: Sidecar)
    requires |f.vol| == c.id.size
  {
    forall k :: 0 <= k < c.id.size && Claims(c.rec, c.id.size, c.id.chunkSize, k) ==> f.vol[k] != Blank
  }

  lemma PureClaims(f: File, c: Sidecar, content: Content)
    requires 0 <= content.size && Pure(f, content) && |f.vol| == c.id.size
    ensures (forall k :: 0 <= k < c.id.size && Claims(c.rec, c.id.size, c.id.chunkSize, k) ==>
               f.vol[k] == From(ContentOf(c.id), k))
            <==> ClaimsNothing(c) || (content == ContentOf(c.id) && AllFetched(f, c))
  {
  }
}
