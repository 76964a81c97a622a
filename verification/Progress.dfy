/** One absolute progress figure out of several concurrent chunks
    (downloadProgress in internal/aliyunpan/source_download.go). */
module Progress {
  import opened Geometry
  import opened CheckpointFiles

  /** base: bytes of the chunks folded in; chunks: how far the others have got. */
  datatype Tracker = Tracker(base: int, chunks: map<int, int>)

  function At(t: Tracker, i: int): int {
    if i in t.chunks then t.chunks[i] else 0
  }

  function WithChunk(t: Tracker, i: int, offset: int): Tracker {
    if At(t, i) == offset then t else t.(chunks := t.chunks[i := offset])
  }

  function Fold(t: Tracker, i: int, length: int): Tracker {
    Tracker(t.base + length, t.chunks - {i})
  }

  ghost function Sum(t: Tracker, n: nat): int {
    t.base + PartialBytes(t.chunks, n)
  }

  function Clamp(value: int, total: int): int {
    var capped := if value > total then total else value;
    if capped < 0 then 0 else capped
  }

  function Contribution(t: Tracker, folded: set<int>, size: int, chunk: int, i: int): int {
    if i in folded then Len(i, size, chunk) else At(t, i)
  }

  /** The tracker counts the folded chunks whole, and each other chunk once, by
      how far it has got. */
  ghost predicate Exact(t: Tracker, folded: set<int>, size: int, chunk: int) {
    && 0 < chunk && 0 <= size
    && (forall i :: i in folded ==> 0 <= i < ChunkCount(size, chunk))
    && t.base == Total(i => if i in folded then Len(i, size, chunk) else 0, ChunkCount(size, chunk))
    && forall i :: i in t.chunks ==> 0 <= i < ChunkCount(size, chunk) && i !in folded && 0 <= t.chunks[i] <= Len(i, size, chunk)
  }

  lemma SumIsContributions(t: Tracker, folded: set<int>, size: int, chunk: int)
    requires Exact(t, folded, size, chunk)
    ensures Sum(t, ChunkCount(size, chunk)) ==
            Total(i => Contribution(t, folded, size, chunk, i), ChunkCount(size, chunk))
  {
    TotalAdds(i => if i in folded then Len(i, size, chunk) else 0,
              i => if i in t.chunks then t.chunks[i] else 0,
              i => Contribution(t, folded, size, chunk, i), ChunkCount(size, chunk));
  }

  /** An exact tracker's sum lies within the file, so the clamps never fire, and
      it reaches the size only when every chunk is folded in or fully received. */
  lemma SumWithinFile(t: Tracker, folded: set<int>, size: int, chunk: int)
    requires Exact(t, folded, size, chunk)
    ensures 0 <= Sum(t, ChunkCount(size, chunk)) <= size
    ensures Clamp(Sum(t, ChunkCount(size, chunk)), size) == Sum(t, ChunkCount(size, chunk))
    ensures Sum(t, ChunkCount(size, chunk)) == size <==>
            forall i :: 0 <= i < ChunkCount(size, chunk) ==> i in folded || At(t, i) == Len(i, size, chunk)
  {
    var n := ChunkCount(size, chunk);
    SumIsContributions(t, folded, size, chunk);
    var f := i => Contribution(t, folded, size, chunk, i);
    var length := i => Len(i, size, chunk);
    forall i | 0 <= i < n
      ensures 0 <= f(i) <= length(i)
    {
      ChunkIsInside(i, size, chunk);
    }
    TotalBelow(f, length, n);
    TotalBelow(i => 0, f, n);
    ZeroTotal(n);
    LengthsSumToSize(size, chunk);
    if forall i :: 0 <= i < n ==> f(i) == length(i) {
      forall i | 0 <= i < n ensures i in folded || At(t, i) == Len(i, size, chunk) { assert f(i) == length(i); }
    }
  }

  lemma SetChunkKeepsExact(t: Tracker, folded: set<int>, size: int, chunk: int, i: int, offset: int)
    requires Exact(t, folded, size, chunk)
    requires 0 <= i < ChunkCount(size, chunk) && i !in folded && 0 <= offset <= Len(i, size, chunk)
    ensures Exact(WithChunk(t, i, offset), folded, size, chunk)
  {
  }

  lemma FoldKeepsExact(t: Tracker, folded: set<int>, size: int, chunk: int, i: int)
    requires Exact(t, folded, size, chunk)
    requires 0 <= i < ChunkCount(size, chunk) && i !in folded
    ensures Exact(Fold(t, i, Len(i, size, chunk)), folded + {i}, size, chunk)
  {
    TotalChangesOne(k => if k in folded then Len(k, size, chunk) else 0,
                    k => if k in folded + {i} then Len(k, size, chunk) else 0, ChunkCount(size, chunk), i);
  }

  function Finished(done: seq<bool>): set<int> {
    set i | 0 <= i < |done| && done[i]
  }

  /** The tracker a resumed download starts from counts what the record claims. */
  lemma StartIsExact(done: seq<bool>, seed: map<int, int>, size: int, chunk: int)
    requires 0 < chunk && 0 <= size && |done| == ChunkCount(size, chunk)
    requires forall i :: i in seed ==> 0 <= i < |done| && !done[i] && 0 <= seed[i] <= Len(i, size, chunk)
    ensures Exact(Tracker(DoneBytes(done, size, chunk, |done|), seed), Finished(done), size, chunk)
  {
    var folded := Finished(done);
    TotalAgrees(i => if 0 <= i < |done| && done[i] then Len(i, size, chunk) else 0,
                i => if i in folded then Len(i, size, chunk) else 0, |done|);
  }

  /** downloadProgress: every report is made under the lock. */
  class DownloadProgress {
    var base: int
    var chunks: map<int, int>
    const total: int
    var reports: seq<int>

    ghost function Value(): Tracker
      reads this
    {
      Tracker(base, chunks)
    }

    constructor (base: int, total: int, seed: map<int, int>)
      ensures Value() == Tracker(base, seed) && this.total == total && reports == []
    {
      this.base := base;
      this.chunks := seed;
      this.total := total;
      this.reports := [];
    }

    method Emit(ghost folded: set<int>, ghost chunk: int)
      requires Exact(Value(), folded, total, chunk)
      modifies this`reports
      ensures reports == old(reports) + [Sum(Value(), ChunkCount(total, chunk))]
      ensures 0 <= reports[|reports| - 1] <= total
    {
      SumWithinFile(Value(), folded, total, chunk);
      var parts := SumOffsets(chunks, ChunkCount(total, chunk));
      var value := base + parts;
      if value > total {
        value := total;
      }
      if value < 0 {
        value := 0;
      }
      reports := reports + [value];
    }

    method SetChunk(index: int, offset: int, ghost folded: set<int>, ghost chunk: int)
      requires Exact(Value(), folded, total, chunk)
      requires 0 <= index < ChunkCount(total, chunk) && index !in folded && 0 <= offset <= Len(index, total, chunk)
      modifies this
      ensures Value() == WithChunk(old(Value()), index, offset) && Exact(Value(), folded, total, chunk)
      ensures base == old(base) && chunks - {index} == old(chunks) - {index}
      ensures (if index in chunks then chunks[index] else 0) == offset
      ensures Value() == old(Value()) ==> reports == old(reports)
      ensures Value() != old(Value()) ==> reports == old(reports) + [Sum(Value(), ChunkCount(total, chunk))]
    {
      var current := if index in chunks then chunks[index] else 0;
      if current == offset {
        return;
      }
      SetChunkKeepsExact(Value(), folded, total, chunk, index, offset);
      chunks := chunks[index := offset];
      Emit(folded, chunk);
    }

    method Complete(index: int, size: int, ghost folded: set<int>, ghost chunk: int)
      requires Exact(Value(), folded, total, chunk)
      requires 0 <= index < ChunkCount(total, chunk) && index !in folded && size == Len(index, total, chunk)
      modifies this
      ensures Value() == Fold(old(Value()), index, size) && Exact(Value(), folded + {index}, total, chunk)
      ensures base == old(base) + size && chunks == old(chunks) - {index}
      ensures reports == old(reports) + [Sum(Value(), ChunkCount(total, chunk))]
    {
      FoldKeepsExact(Value(), folded, total, chunk, index);
      chunks := chunks - {index};
      base := base + size;
      Emit(folded + {index}, chunk);
    }
  }
}
