/** The mutable checkpoint of a running download, and the byte counts every
    reader of it agrees on. */
module CheckpointFiles {
  import opened Wrappers
  import opened Decimal
  import opened Geometry
  import opened Checkpoint

  /** Bytes one chunk contributes: all of a finished one, the durable head of another. */
  function Credit(r: Record, size: int, chunk: int, i: int): int {
    if 0 <= i < |r.done| && r.done[i] then Len(i, size, chunk) else ResumeOffset(r, i)
  }

  ghost function DoneBytes(done: seq<bool>, size: int, chunk: int, n: nat): int {
    Total(i => if 0 <= i < |done| && done[i] then Len(i, size, chunk) else 0, n)
  }

  ghost function PartialBytes(partial: map<int, int>, n: nat): int {
    Total(i => if i in partial then partial[i] else 0, n)
  }

  ghost function ClaimedBytes(r: Record, size: int, chunk: int): int {
    Total(i => Credit(r, size, chunk, i), ChunkCount(size, chunk))
  }

  lemma ClaimedSplits(r: Record, size: int, chunk: int)
    requires ValidRecord(r, size, chunk)
    ensures ClaimedBytes(r, size, chunk) == DoneBytes(r.done, size, chunk, |r.done|) + PartialBytes(r.partial, |r.done|)
  {
    TotalAdds(i => if 0 <= i < |r.done| && r.done[i] then Len(i, size, chunk) else 0,
              i => if i in r.partial then r.partial[i] else 0,
              i => Credit(r, size, chunk, i), |r.done|);
  }

  /** What a valid record claims never exceeds the file, and reaches its size only
      when every chunk is done. */
  lemma ClaimedWithinFile(r: Record, size: int, chunk: int)
    requires 0 < chunk && 0 <= size && ValidRecord(r, size, chunk)
    ensures 0 <= ClaimedBytes(r, size, chunk) <= size
    ensures ClaimedBytes(r, size, chunk) == size <==> forall i :: 0 <= i < |r.done| ==> r.done[i]
  {
    var n := ChunkCount(size, chunk);
    var credit := i => Credit(r, size, chunk, i);
    var length := i => Len(i, size, chunk);
    forall i | 0 <= i < n
      ensures 0 <= credit(i) <= length(i) && (credit(i) == length(i) <==> r.done[i])
    {
      ChunkIsInside(i, size, chunk);
    }
    TotalBelow(credit, length, n);
    TotalBelow(i => 0, credit, n);
    ZeroTotal(n);
    LengthsSumToSize(size, chunk);
    if forall i :: 0 <= i < n ==> credit(i) == length(i) {
      forall i | 0 <= i < |r.done| ensures r.done[i] { assert credit(i) == length(i); }
    }
  }

  /** The byte at k is one the record says is on disk. */
  ghost predicate Claims(r: Record, size: int, chunk: int, k: int) {
    exists i ::
      && 0 <= i < |r.done| && Lo(i, chunk) <= k
      && k < (if r.done[i] then Hi(i, size, chunk) else Lo(i, chunk) + ResumeOffset(r, i))
  }

  /** The positions a record claims, up to a chunk. */
  ghost function Claimed(r: Record, size: int, chunk: int, chunks: nat): set<int>
    requires 0 < chunk
  {
    set k | 0 <= k < size && k / chunk < chunks && Claims(r, size, chunk, k)
  }

  ghost function Stretch(from: int, n: nat): (s: set<int>)
    ensures |s| == n && forall k :: k in s <==> from <= k < from + n
  {
    if n == 0 then {} else Stretch(from, n - 1) + {from + n - 1}
  }

  lemma ClaimsInChunk(r: Record, size: int, chunk: int, i: nat, k: int)
    requires 0 < chunk && 0 <= size && ValidRecord(r, size, chunk) && i < |r.done| && 0 <= k < size
    ensures k / chunk == i <==> Lo(i, chunk) <= k < Hi(i, size, chunk)
    ensures k / chunk == i ==> (Claims(r, size, chunk, k) <==> k < Lo(i, chunk) + Credit(r, size, chunk, i))
  {
    ByteHasOneChunk(k, size, chunk);
    if k / chunk == i && Claims(r, size, chunk, k) {
      var j :| && 0 <= j < |r.done| && Lo(j, chunk) <= k
               && k < (if r.done[j] then Hi(j, size, chunk) else Lo(j, chunk) + ResumeOffset(r, j));
      ChunkIsInside(j, size, chunk);
      assert j == i;
    }
  }

  lemma ClaimedOfChunk(r: Record, size: int, chunk: int, i: nat)
    requires 0 < chunk && 0 <= size && ValidRecord(r, size, chunk) && i < |r.done|
    ensures 0 <= Credit(r, size, chunk, i) <= Len(i, size, chunk)
    ensures Claimed(r, size, chunk, i + 1) == Claimed(r, size, chunk, i) + Stretch(Lo(i, chunk), Credit(r, size, chunk, i))
    ensures Claimed(r, size, chunk, i) !! Stretch(Lo(i, chunk), Credit(r, size, chunk, i))
  {
    ChunkIsInside(i, size, chunk);
    CreditFits(r, size, chunk, i);
    hide Claims, Credit, ValidRecord, ChunkCount;
    forall k
      ensures k in Claimed(r, size, chunk, i + 1) <==>
        k in Claimed(r, size, chunk, i) || k in Stretch(Lo(i, chunk), Credit(r, size, chunk, i))
      ensures k in Claimed(r, size, chunk, i) ==> k !in Stretch(Lo(i, chunk), Credit(r, size, chunk, i))
    {
      if 0 <= k < size { ClaimsInChunk(r, size, chunk, i, k); }
    }
  }

  lemma CreditFits(r: Record, size: int, chunk: int, i: nat)
    requires 0 < chunk && ValidRecord(r, size, chunk) && i < |r.done|
    ensures 0 <= Credit(r, size, chunk, i) <= Len(i, size, chunk)
  {
    ChunkIsInside(i, size, chunk);
  }

  lemma NothingIsClaimed(r: Record, size: int, chunk: int)
    requires 0 < chunk
    ensures Claimed(r, size, chunk, 0) == {}
  {
    forall k | 0 <= k < size ensures k / chunk >= 0 { ByteHasOneChunk(k, size, chunk); }
  }

  /** What a record is said to claim is the number of bytes of the file it does claim: those
      of finished chunks, and of each other chunk those before its offset. */
  lemma {:induction false} ClaimIsCounted(r: Record, size: int, chunk: int, n: nat)
    requires 0 < chunk && 0 <= size && ValidRecord(r, size, chunk) && n <= |r.done|
    ensures Total(i => Credit(r, size, chunk, i), n) == |Claimed(r, size, chunk, n)|
    ensures n == |r.done| ==> ClaimedBytes(r, size, chunk) == |Claimed(r, size, chunk, n)|
  {
    hide Claimed;
    if n == 0 {
      NothingIsClaimed(r, size, chunk);
    } else {
      ClaimIsCounted(r, size, chunk, n - 1);
      ClaimedOfChunk(r, size, chunk, n - 1);
    }
  }

  lemma {:induction false} ZeroTotal(n: nat)
    ensures Total(i => 0, n) == 0
  {
    if n > 0 { ZeroTotal(n - 1); }
  }

  method SumOffsets(partial: map<int, int>, ghost n: nat) returns (total: int)
    requires forall i :: i in partial ==> 0 <= i < n
    ensures total == PartialBytes(partial, n)
  {
    total := 0;
    var keys := partial.Keys;
    ghost var left := partial;
    EmptyPartialBytes(n);
    while keys != {}
      invariant left.Keys == keys <= partial.Keys && forall i :: i in keys ==> left[i] == partial[i]
      invariant total + PartialBytes(left, n) == PartialBytes(partial, n)
      decreases |keys|
    {
      EmptyWhenNothingIsInside(keys);
      var index :| index in keys;
      ghost var rest := left - {index};
      TotalChangesOne(i => if i in left then left[i] else 0, i => if i in rest then rest[i] else 0, n, index);
      total := total + partial[index];
      left := rest;
      keys := keys - {index};
    }
    assert left == map[];
  }

  lemma EmptyPartialBytes(n: nat)
    ensures PartialBytes(map[], n) == 0
  {
    ZeroTotal(n);
    var none: map<int, int> := map[];
    TotalAgrees(i => 0, i => if i in none then none[i] else 0, n);
  }

  method SumDone(done: seq<bool>, size: int, chunk: int) returns (chunks: nat, bytes: int)
    ensures chunks == |set i | 0 <= i < |done| && done[i]|
    ensures bytes == DoneBytes(done, size, chunk, |done|)
  {
    chunks, bytes := 0, 0;
    ghost var seen: set<int> := {};
    for index := 0 to |done|
      invariant seen == set i | 0 <= i < index && done[i]
      invariant chunks == |seen|
      invariant bytes == DoneBytes(done, size, chunk, index)
    {
      if done[index] {
        chunks := chunks + 1;
        bytes := bytes + Len(index, size, chunk);
        seen := seen + {index};
      }
    }
  }

  /** A geometry the sidecar reader accepts without knowing the cloud file. */
  predicate Readable(doc: Document, size: int) {
    && 1 <= doc.version <= CHECKPOINT_VERSION
    && doc.id.size == size && 0 < doc.id.chunkSize
    && BitmapOfText(doc.done, ChunkCount(size, doc.id.chunkSize)).Some?
  }

  ghost predicate Reports(doc: Document, size: int, total: int) {
    && Readable(doc, size)
    && var done := BitmapOfText(doc.done, ChunkCount(size, doc.id.chunkSize)).value;
    && exists p ::
      && Decoded(doc.partial, done, size, doc.id.chunkSize, p)
      && total == ClaimedBytes(Record(done, p), size, doc.id.chunkSize)
  }

  /** checkpointBytesForSize: what a sidecar claims, as the queue view counts it. */
  method CheckpointBytesForSize(file: Option<Document>, size: int) returns (total: int)
    ensures
      if && file.Some? && (file.value.version == 1 || file.value.version == 2)
         && file.value.id.size == size && 0 < file.value.id.chunkSize
         && BitmapOfText(file.value.done, ChunkCount(size, file.value.id.chunkSize)).Some?
      then Reports(file.value, size, total) else total == 0
  {
    if file.None? || !(1 <= file.value.version <= CHECKPOINT_VERSION)
       || file.value.id.size != size || file.value.id.chunkSize <= 0 {
      return 0;
    }
    var chunk := file.value.id.chunkSize;
    var done := DecodeChunkBitmap(file.value.done, ChunkCount(size, chunk));
    if done.None? {
      return 0;
    }
    var _, whole := SumDone(done.value, size, chunk);
    var partial := DecodePartial(file.value.partial, done.value, size, chunk);
    var parts := SumOffsets(partial, |done.value|);
    DecodingYieldsValid(file.value.partial, done.value, size, chunk, partial);
    ClaimedSplits(Record(done.value, partial), size, chunk);
    total := whole + parts;
    assert Decoded(file.value.partial, done.value, size, chunk, partial)
        && total == ClaimedBytes(Record(done.value, partial), size, chunk);
  }

  /** The queue view and the downloader count the same bytes from one record. */
  lemma ReportsWhatWasWritten(id: Identity, r: Record, total: int)
    requires ValidRecord(r, id.size, id.chunkSize) && |r.done| <= MAX_INT
    requires Reports(Written(id, r), id.size, total)
    ensures total == ClaimedBytes(r, id.size, id.chunkSize)
  {
    BitmapRoundTrip(r.done);
    var p :| && Decoded(EncodePartial(r.partial), r.done, id.size, id.chunkSize, p)
             && total == ClaimedBytes(Record(r.done, p), id.size, id.chunkSize);
    PartialRoundTrip(r, id.size, id.chunkSize, p);
  }

  /** checkpointFile: the record in memory and the document at its path. Each
      method is one critical section of the lock, held across the write. */
  class CheckpointFile {
    const id: Identity
    const done: array<bool>
    var partial: map<int, int>
    var sidecar: Option<Document>

    ghost predicate Valid()
      reads this, done
    {
      && 0 <= id.size && 0 < id.chunkSize && done.Length <= MAX_INT
      && ValidRecord(Rec(), id.size, id.chunkSize)
    }

    ghost function Rec(): Record
      reads this, done
    {
      Record(done[..], partial)
    }

    constructor (id: Identity, record: Record, sidecar: Option<Document>)
      requires 0 <= id.size && 0 < id.chunkSize && |record.done| <= MAX_INT
      requires ValidRecord(record, id.size, id.chunkSize)
      ensures Valid() && fresh(done)
      ensures this.id == id && Rec() == record && this.sidecar == sidecar
    {
      this.id := id;
      var flags := new bool[|record.done|](i requires 0 <= i < |record.done| => record.done[i]);
      this.done := flags;
      this.partial := record.partial;
      this.sidecar := sidecar;
      new;
      assert done[..] == record.done;
    }

    method WriteLocked(writable: bool) returns (ok: bool)
      requires Valid()
      modifies this`sidecar
      ensures Valid() && ok == writable
      ensures sidecar == if writable then Some(Written(id, Rec())) else old(sidecar)
    {
      ok := writable;
      if writable {
        var text := EncodeChunkBitmap(done[..]);
        sidecar := Some(Document(CHECKPOINT_VERSION, id, text, EncodePartial(partial)));
      }
    }

    /** Replaces the part-way offsets, keeping only those of unfinished chunks. */
    method SetPartials(offsets: map<int, int>, writable: bool) returns (ok: bool)
      requires Valid()
      modifies this
      ensures Valid() && ok == writable
      ensures Rec() == WithPartials(old(Rec()), id.size, id.chunkSize, offsets)
      ensures partial == map i |
        i in offsets && 0 <= i < done.Length && !done[i] && 0 < offsets[i] < Len(i, id.size, id.chunkSize) :: offsets[i]
      ensures done[..] == old(done[..])
      ensures sidecar == if writable then Some(Written(id, Rec())) else old(sidecar)
    {
      var kept: map<int, int> := map[];
      var keys := offsets.Keys;
      while keys != {}
        invariant keys <= offsets.Keys && unchanged(this, done)
        invariant kept == map i | i in offsets && i !in keys
                              && Usable(done[..], id.size, id.chunkSize, i, offsets[i]) :: offsets[i]
        decreases |keys|
      {
        EmptyWhenNothingIsInside(keys);
        var index :| index in keys;
        if 0 <= index < done.Length && !done[index] && 0 < offsets[index] < Len(index, id.size, id.chunkSize) {
          kept := kept[index := offsets[index]];
        }
        keys := keys - {index};
      }
      partial := kept;
      MutatorsKeepRecordsValid(old(Rec()), id.size, id.chunkSize, offsets, 0);
      assert Rec() == WithPartials(old(Rec()), id.size, id.chunkSize, offsets);
      ok := WriteLocked(writable);
    }

    /** Hands a finished chunk to the bitmap; out-of-range indices change nothing. */
    method MarkDone(index: int, writable: bool) returns (ok: bool)
      requires Valid()
      modifies this, done
      ensures Valid()
      ensures !(0 <= index < done.Length) ==> !ok && Rec() == old(Rec()) && sidecar == old(sidecar)
      ensures 0 <= index < done.Length ==> ok == writable && Rec() == WithDone(old(Rec()), index)
      ensures 0 <= index < done.Length ==> done[..] == old(done[..])[index := true] && partial == old(partial) - {index}
      ensures 0 <= index < done.Length ==> sidecar == if writable then Some(Written(id, Rec())) else old(sidecar)
    {
      if index < 0 || index >= done.Length {
        return false;
      }
      done[index] := true;
      partial := partial - {index};
      ok := WriteLocked(writable);
    }

    method Save(writable: bool) returns (ok: bool)
      requires Valid()
      modifies this`sidecar
      ensures Valid() && ok == writable
      ensures sidecar == if writable then Some(Written(id, Rec())) else old(sidecar)
    {
      ok := WriteLocked(writable);
    }

    /** completed: finished chunks, their bytes, and the bytes of the others. */
    method Completed() returns (chunks: nat, bytes: int, parts: int)
      requires Valid()
      ensures chunks + |Pending(Rec())| == |Rec().done|
      ensures bytes + parts == ClaimedBytes(Rec(), id.size, id.chunkSize)
      ensures bytes == DoneBytes(Rec().done, id.size, id.chunkSize, done.Length)
      ensures 0 <= bytes + parts <= id.size
    {
      chunks, bytes := SumDone(done[..], id.size, id.chunkSize);
      parts := SumOffsets(partial, done.Length);
      ClaimedSplits(Rec(), id.size, id.chunkSize);
      ClaimedWithinFile(Rec(), id.size, id.chunkSize);
      DoneAndPendingSplit(done[..]);
    }

    /** pending: the chunks still to fetch, in file order. */
    method PendingChunks() returns (missing: seq<int>)
      requires Valid()
      ensures forall k :: 0 <= k < |missing| ==> 0 <= missing[k] < done.Length && !done[missing[k]]
      ensures forall i :: 0 <= i < done.Length && !done[i] ==> i in missing
      ensures forall j, k :: 0 <= j < k < |missing| ==> missing[j] < missing[k]
    {
      missing := [];
      for index := 0 to done.Length
        invariant forall k :: 0 <= k < |missing| ==> 0 <= missing[k] < index && !done[missing[k]]
        invariant forall i :: 0 <= i < index && !done[i] ==> i in missing
        invariant forall j, k :: 0 <= j < k < |missing| ==> missing[j] < missing[k]
      {
        if !done[index] {
          missing := missing + [index];
        }
      }
    }
  }

  ghost function Interval(n: nat): (s: set<int>)
    ensures |s| == n && forall i :: i in s <==> 0 <= i < n
  {
    if n == 0 then {} else Interval(n - 1) + {n - 1}
  }

  lemma DoneAndPendingSplit(done: seq<bool>)
    ensures |set i | 0 <= i < |done| && done[i]| + |Pending(Record(done, map[]))| == |done|
    ensures forall p: map<int, int> :: Pending(Record(done, p)) == Pending(Record(done, map[]))
  {
    var yes := set i | 0 <= i < |done| && done[i];
    var no := Pending(Record(done, map[]));
    assert yes + no == Interval(|done|);
    assert yes !! no;
  }

  /** Every change a running download makes keeps the record valid, so loading
      drops nothing (decodePartial only ever filters foreign entries). */
  lemma MutatorsKeepRecordsValid(r: Record, size: int, chunk: int, offsets: map<int, int>, index: int)
    requires ValidRecord(r, size, chunk)
    ensures ValidRecord(EmptyRecord(size, chunk), size, chunk)
    ensures ValidRecord(WithPartials(r, size, chunk, offsets), size, chunk)
    ensures 0 <= index < |r.done| ==> ValidRecord(WithDone(r, index), size, chunk)
  {
  }
}
