/** How a file is cut into chunks, and sums over them. */
module Geometry {
  function ChunkCount(size: int, chunk: int): (n: nat) {
    if size <= 0 || chunk <= 0 then 0 else (size + chunk - 1) / chunk
  }

  function Lo(index: int, chunk: int): int {
    index * chunk
  }

  function Hi(index: int, size: int, chunk: int): int {
    if Lo(index, chunk) + chunk > size then size else Lo(index, chunk) + chunk
  }

  function Len(index: int, size: int, chunk: int): int {
    Hi(index, size, chunk) - Lo(index, chunk)
  }

  lemma CountBrackets(size: int, chunk: int)
    requires 0 < size && 0 < chunk
    ensures (ChunkCount(size, chunk) - 1) * chunk < size <= ChunkCount(size, chunk) * chunk
    ensures 0 < ChunkCount(size, chunk)
  {
    var n := ChunkCount(size, chunk);
    var r := (size + chunk - 1) % chunk;
    assert size + chunk - 1 == n * chunk + r;
    assert (n - 1) * chunk == n * chunk - chunk;
    if n <= 0 {
      MulMonotone(n, 0, chunk);
    }
  }

  lemma MulMonotone(a: int, b: int, c: int)
    requires a <= b && 0 <= c
    ensures a * c <= b * c
  {
  }

  /** Every chunk is a non-empty range inside the file. */
  lemma ChunkIsInside(index: int, size: int, chunk: int)
    requires 0 < chunk && 0 <= index < ChunkCount(size, chunk)
    ensures 0 <= Lo(index, chunk) < Hi(index, size, chunk) <= size
    ensures 0 < Len(index, size, chunk) <= chunk
  {
    CountBrackets(size, chunk);
    MulMonotone(index, ChunkCount(size, chunk) - 1, chunk);
    MulMonotone(0, index, chunk);
  }

  /** Consecutive chunks meet, the first starts at 0 and the last ends at the
      file's end, so together they tile the file with no gap and no overlap. */
  lemma ChunksTile(size: int, chunk: int)
    requires 0 < chunk && 0 < size
    ensures Lo(0, chunk) == 0
    ensures Hi(ChunkCount(size, chunk) - 1, size, chunk) == size
    ensures forall i :: 0 <= i < ChunkCount(size, chunk) - 1 ==> Hi(i, size, chunk) == Lo(i + 1, chunk)
  {
    var n := ChunkCount(size, chunk);
    CountBrackets(size, chunk);
    assert n * chunk == (n - 1) * chunk + chunk;
    forall i | 0 <= i < n - 1
      ensures Hi(i, size, chunk) == Lo(i + 1, chunk)
    {
      assert (i + 1) * chunk == i * chunk + chunk;
      MulMonotone(i + 1, n - 1, chunk);
    }
  }

  /** Each byte of the file lies in exactly one chunk. */
  lemma ByteHasOneChunk(k: int, size: int, chunk: int)
    requires 0 < chunk && 0 <= k < size
    ensures 0 <= k / chunk < ChunkCount(size, chunk)
    ensures forall i :: 0 <= i < ChunkCount(size, chunk) ==>
              (Lo(i, chunk) <= k < Hi(i, size, chunk) <==> i == k / chunk)
  {
    var n, q := ChunkCount(size, chunk), k / chunk;
    CountBrackets(size, chunk);
    assert k == q * chunk + k % chunk;
    assert (q + 1) * chunk == q * chunk + chunk;
    if q >= n { MulMonotone(n, q, chunk); }
    if q < 0 { MulMonotone(q, -1, chunk); }
    forall i | 0 <= i < n
      ensures Lo(i, chunk) <= k < Hi(i, size, chunk) <==> i == q
    {
      assert (i + 1) * chunk == i * chunk + chunk;
      if i < q { MulMonotone(i + 1, q, chunk); }
      if i > q { MulMonotone(q + 1, i, chunk); }
    }
  }

  /** The bytes of the chunks below n that f credits. */
  ghost function Total(f: int -> int, n: nat): int {
    if n == 0 then 0 else Total(f, n - 1) + f(n - 1)
  }

  lemma {:induction false} TotalAgrees(f: int -> int, g: int -> int, n: nat)
    requires forall i :: 0 <= i < n ==> f(i) == g(i)
    ensures Total(f, n) == Total(g, n)
  {
    if n > 0 { TotalAgrees(f, g, n - 1); }
  }

  lemma {:induction false} TotalChangesOne(f: int -> int, g: int -> int, n: nat, at: int)
    requires 0 <= at < n && forall i :: 0 <= i < n && i != at ==> f(i) == g(i)
    ensures Total(g, n) == Total(f, n) - f(at) + g(at)
  {
    if at == n - 1 {
      TotalAgrees(f, g, n - 1);
    } else {
      TotalChangesOne(f, g, n - 1, at);
    }
  }

  lemma {:induction false} TotalAdds(f: int -> int, g: int -> int, h: int -> int, n: nat)
    requires forall i :: 0 <= i < n ==> h(i) == f(i) + g(i)
    ensures Total(h, n) == Total(f, n) + Total(g, n)
  {
    if n > 0 { TotalAdds(f, g, h, n - 1); }
  }

  lemma {:induction false} TotalBelow(f: int -> int, g: int -> int, n: nat)
    requires forall i :: 0 <= i < n ==> f(i) <= g(i)
    ensures Total(f, n) <= Total(g, n)
    ensures Total(f, n) == Total(g, n) <==> forall i :: 0 <= i < n ==> f(i) == g(i)
  {
    if n > 0 { TotalBelow(f, g, n - 1); }
  }

  lemma {:induction false} LengthsBelow(size: int, chunk: int, n: nat)
    requires 0 < chunk && n <= ChunkCount(size, chunk)
    ensures Total(i => Len(i, size, chunk), n) == if n == 0 then 0 else Hi(n - 1, size, chunk)
  {
    if n > 0 {
      LengthsBelow(size, chunk, n - 1);
      CountBrackets(size, chunk);
      ChunksTile(size, chunk);
    }
  }

  /** The chunk lengths add up to the file. */
  lemma LengthsSumToSize(size: int, chunk: int)
    requires 0 < chunk && 0 <= size
    ensures Total(i => Len(i, size, chunk), ChunkCount(size, chunk)) == size
  {
    LengthsBelow(size, chunk, ChunkCount(size, chunk));
    if size > 0 {
      CountBrackets(size, chunk);
      ChunksTile(size, chunk);
    }
  }
}
