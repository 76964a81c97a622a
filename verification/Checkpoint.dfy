/** The resume record of a partial download: which chunks are on disk, how far
    the others have got, and how that is written to and read from the sidecar
    (internal/aliyunpan/source_checkpoint.go). */
module Checkpoint {
  import opened Wrappers
  import opened Decimal
  import opened Geometry
  import Base64

  const CHECKPOINT_VERSION: int := 2

  datatype Identity = Identity(driveID: string, fileID: string, size: int, hash: string, chunkSize: int)

  /** The JSON document, taken as a record. */
  datatype Document = Document(version: int, id: Identity, done: string, partial: map<string, int>)

  /** What the sidecar claims: finished chunks, and bytes from the start of unfinished ones. */
  datatype Record = Record(done: seq<bool>, partial: map<int, int>)

  /** A part-way offset that describes a chunk which still has to be fetched. */
  predicate Usable(done: seq<bool>, size: int, chunk: int, index: int, offset: int) {
    0 <= index < |done| && !done[index] && 0 < offset < Len(index, size, chunk)
  }

  ghost predicate ValidRecord(r: Record, size: int, chunk: int) {
    && |r.done| == ChunkCount(size, chunk)
    && forall i :: i in r.partial ==> Usable(r.done, size, chunk, i, r.partial[i])
  }

  function EmptyRecord(size: int, chunk: int): Record {
    Record(seq(ChunkCount(size, chunk), _ => false), map[])
  }

  function WithPartials(r: Record, size: int, chunk: int, offsets: map<int, int>): Record {
    r.(partial := map i | i in offsets && Usable(r.done, size, chunk, i, offsets[i]) :: offsets[i])
  }

  function WithDone(r: Record, index: int): Record
    requires 0 <= index < |r.done|
  {
    Record(r.done[index := true], r.partial - {index})
  }

  function ResumeOffset(r: Record, index: int): int {
    if index in r.partial then r.partial[index] else 0
  }

  function Pending(r: Record): set<int> {
    set i | 0 <= i < |r.done| && !r.done[i]
  }

  // ----- bits

  /** Bit k of a byte, least significant first. */
  function Bit(b: nat, k: nat): bool {
    if k == 0 then b % 2 == 1 else Bit(b / 2, k - 1)
  }

  /** b | 1 << k. */
  function SetBit(b: nat, k: nat): nat {
    if k == 0 then b / 2 * 2 + 1 else b % 2 + 2 * SetBit(b / 2, k - 1)
  }

  lemma {:induction false} SetBitSetsOne(b: nat, k: nat, j: nat)
    ensures Bit(SetBit(b, k), j) <==> j == k || Bit(b, j)
  {
    if k > 0 && j > 0 {
      SetBitSetsOne(b / 2, k - 1, j - 1);
      assert SetBit(b, k) / 2 == SetBit(b / 2, k - 1);
    }
  }

  function PowerOfTwo(k: nat): nat {
    if k == 0 then 1 else 2 * PowerOfTwo(k - 1)
  }

  lemma {:induction false} SetBitStaysSmall(b: nat, k: nat, w: nat)
    requires b < PowerOfTwo(w) && k < w
    ensures SetBit(b, k) < PowerOfTwo(w)
  {
    if k > 0 {
      SetBitStaysSmall(b / 2, k - 1, w - 1);
    }
  }

  lemma {:induction false} BitsDetermine(a: nat, b: nat, w: nat)
    requires a < PowerOfTwo(w) && b < PowerOfTwo(w)
    requires forall j: nat :: j < w ==> Bit(a, j) == Bit(b, j)
    ensures a == b
  {
    if w > 0 {
      forall j: nat | j < w - 1
        ensures Bit(a / 2, j) == Bit(b / 2, j)
      {
        assert Bit(a, j + 1) == Bit(b, j + 1);
      }
      BitsDetermine(a / 2, b / 2, w - 1);
      assert Bit(a, 0) == Bit(b, 0);
    }
  }

  lemma EightBits()
    ensures PowerOfTwo(8) == 256
  {
    assert PowerOfTwo(4) == 16;
  }

  /** Bit k counts PowerOfTwo(k). */
  lemma {:induction false} BitIsArithmetic(b: nat, k: nat)
    ensures PowerOfTwo(k) > 0 && (Bit(b, k) <==> b / PowerOfTwo(k) % 2 == 1)
  {
    if k > 0 {
      BitIsArithmetic(b / 2, k - 1);
      DividedTwice(b, PowerOfTwo(k - 1));
    }
  }

  lemma DividedTwice(b: nat, m: nat)
    requires m > 0
    ensures b / 2 / m == b / (2 * m)
  {
    var q := b / 2 / m;
    assert b / 2 == q * m + b / 2 % m && b == 2 * (b / 2) + b % 2;
    assert b == q * (2 * m) + (2 * (b / 2 % m) + b % 2) by { assert q * (2 * m) == 2 * (q * m); }
    QuotientIs(b, 2 * m, q, 2 * (b / 2 % m) + b % 2);
  }

  lemma QuotientIs(b: nat, m: nat, q: nat, r: nat)
    requires 0 <= r < m && b == q * m + r
    ensures b / m == q
  {
    var p := b / m;
    assert b == p * m + b % m && (p + 1) * m == p * m + m && (q + 1) * m == q * m + m;
    if p < q { MulMonotone(p + 1, q, m); }
    if p > q { MulMonotone(q + 1, p, m); }
  }

  // ----- the bitmap

  /** The byte whose bit j says whether chunk from + j is done. */
  function PackByte(done: seq<bool>, from: nat, bits: nat): (b: nat)
    ensures b < PowerOfTwo(bits)
    decreases bits
  {
    if bits == 0 then 0
    else (if from < |done| && done[from] then 1 else 0) + 2 * PackByte(done, from + 1, bits - 1)
  }

  lemma HalfOfByte(b: nat, rest: nat)
    requires b < 2
    ensures (b + 2 * rest) / 2 == rest && (b + 2 * rest) % 2 == b
  {
  }

  lemma {:induction false} PackedBit(done: seq<bool>, from: nat, bits: nat, j: nat)
    requires j < bits
    ensures Bit(PackByte(done, from, bits), j) <==> from + j < |done| && done[from + j]
    decreases bits
  {
    HalfOfByte(if from < |done| && done[from] then 1 else 0, PackByte(done, from + 1, bits - 1));
    if j > 0 {
      PackedBit(done, from + 1, bits - 1, j - 1);
    }
  }

  function BitmapByte(done: seq<bool>, k: nat): Base64.Byte {
    EightBits();
    PackByte(done, 8 * k, 8)
  }

  function BitmapBytes(done: seq<bool>): seq<Base64.Byte> {
    seq((|done| + 7) / 8, k requires k >= 0 => BitmapByte(done, k))
  }

  function BitmapText(done: seq<bool>): string {
    Base64.Encode(BitmapBytes(done))
  }

  /** Rebuilds the bitmap; a text of the wrong length belongs to another geometry. */
  function BitmapOfText(text: string, total: nat): Option<seq<bool>> {
    if total == 0 then if text == "" then Some([]) else None
    else
      match Base64.Decode(text)
      case None => None
      case Some(raw) =>
        if |raw| != (total + 7) / 8 then None
        else Some(seq(total, i requires 0 <= i < total => Bit(raw[i / 8], i % 8)))
  }

  lemma BitmapBit(done: seq<bool>, i: nat)
    requires i < |done|
    ensures Bit(BitmapByte(done, i / 8), i % 8) == done[i]
    ensures PowerOfTwo(i % 8) > 0 && (BitmapByte(done, i / 8) / PowerOfTwo(i % 8) % 2 == 1 <==> done[i])
  {
    hide PackByte, Bit, PowerOfTwo;
    var k, j := i / 8, i % 8;
    assert 8 * k + j == i;
    PackedBit(done, 8 * k, 8, j);
    BitIsArithmetic(BitmapByte(done, k), j);
  }

  lemma BitmapRoundTrip(done: seq<bool>)
    ensures BitmapOfText(BitmapText(done), |done|) == Some(done)
  {
    hide Base64.Encode, Base64.Decode, BitmapByte, Bit;
    var raw := BitmapBytes(done);
    Base64.RoundTrip(raw);
    if |done| > 0 {
      forall i | 0 <= i < |done|
        ensures Bit(raw[i / 8], i % 8) == done[i]
      {
        BitmapBit(done, i);
      }
      assert seq(|done|, i requires 0 <= i < |done| => Bit(raw[i / 8], i % 8)) == done;
    } else {
      assert raw == [];
      EmptyBitmap();
    }
  }

  lemma EmptyBitmap()
    ensures Base64.Encode([]) == ""
  {
  }

  method EncodeChunkBitmap(done: seq<bool>) returns (text: string)
    ensures text == BitmapText(done)
  {
    if |done| == 0 {
      return "";
    }
    hide Bit, SetBit, PowerOfTwo, BitmapBytes, Base64.Encode;
    var bytes := new int[(|done| + 7) / 8](_ => 0);
    forall j: nat ensures !Bit(0, j) { ZeroHasNoBits(j); }
    EightBits();
    for index := 0 to |done|
      invariant forall k :: 0 <= k < bytes.Length ==> 0 <= bytes[k] < PowerOfTwo(8)
      invariant forall k, j: nat :: 0 <= k < bytes.Length && j < 8 ==>
                  (Bit(bytes[k], j) <==> 8 * k + j < index && done[8 * k + j])
    {
      if done[index] {
        var at, bit := index / 8, index % 8;
        forall j: nat ensures Bit(SetBit(bytes[at], bit), j) <==> j == bit || Bit(bytes[at], j) {
          SetBitSetsOne(bytes[at], bit, j);
        }
        SetBitStaysSmall(bytes[at], bit, 8);
        bytes[at] := SetBit(bytes[at], bit);
      }
    }
    AllBitsSet(bytes[..], done);
    text := Base64.Encode(bytes[..]);
  }

  /** Bytes whose bits are the flags are the bitmap's. */
  lemma AllBitsSet(bytes: seq<int>, done: seq<bool>)
    requires |bytes| == (|done| + 7) / 8
    requires forall k :: 0 <= k < |bytes| ==> 0 <= bytes[k] < PowerOfTwo(8)
    requires forall k, j: nat :: 0 <= k < |bytes| && j < 8 ==>
               (Bit(bytes[k], j) <==> 8 * k + j < |done| && done[8 * k + j])
    ensures bytes == BitmapBytes(done)
  {
    hide Bit, PackByte, PowerOfTwo;
    forall k | 0 <= k < |bytes|
      ensures bytes[k] == BitmapByte(done, k)
    {
      forall j: nat | j < 8
        ensures Bit(bytes[k], j) == Bit(PackByte(done, 8 * k, 8), j)
      {
        PackedBit(done, 8 * k, 8, j);
      }
      BitsDetermine(bytes[k], PackByte(done, 8 * k, 8), 8);
    }
  }

  lemma {:induction false} ZeroHasNoBits(j: nat)
    ensures !Bit(0, j)
  {
    if j > 0 { ZeroHasNoBits(j - 1); }
  }

  method DecodeChunkBitmap(text: string, total: nat) returns (done: Option<seq<bool>>)
    ensures done == BitmapOfText(text, total)
  {
    if total == 0 {
      return if text == "" then Some([]) else None;
    }
    var raw := Base64.Decode(text);
    if raw.None? || |raw.value| != (total + 7) / 8 {
      return None;
    }
    var flags := new bool[total](_ => false);
    for index := 0 to total
      invariant forall i :: 0 <= i < index ==> flags[i] == Bit(raw.value[i / 8], i % 8)
    {
      flags[index] := Bit(raw.value[index / 8], index % 8);
    }
    assert flags[..] == BitmapOfText(text, total).value;
    done := Some(flags[..]);
  }

  // ----- part-way offsets

  function EncodePartial(partial: map<int, int>): map<string, int>
    requires forall i :: i in partial ==> 0 <= i
  {
    map key | key in (set i | i in partial :: Itoa(i)) :: partial[KeyOf(partial, key)]
  }

  function KeyOf(partial: map<int, int>, key: string): (i: int)
    requires forall i :: i in partial ==> 0 <= i
    requires exists i :: i in partial && Itoa(i) == key
    ensures i in partial && Itoa(i) == key
  {
    KeyIsUnique(partial, key);
    var i :| i in partial && Itoa(i) == key;
    i
  }

  lemma KeyIsUnique(partial: map<int, int>, key: string)
    requires forall i :: i in partial ==> 0 <= i
    ensures forall i, j :: i in partial && j in partial && Itoa(i) == key && Itoa(j) == key ==> i == j
  {
    forall i, j | i in partial && j in partial && Itoa(i) == key && Itoa(j) == key
      ensures i == j
    {
      ItoaInjective(i, j);
    }
  }

  /** One stored entry names a chunk that still has to be fetched. */
  predicate Kept(stored: map<string, int>, done: seq<bool>, size: int, chunk: int, key: string) {
    key in stored && Atoi(key).Some? && Usable(done, size, chunk, Atoi(key).value, stored[key])
  }

  /** p holds exactly the stored entries worth keeping. Two spellings of one index
      ("7" and "07") leave either offset, as the map iteration order decides. */
  ghost predicate Decoded(stored: map<string, int>, done: seq<bool>, size: int, chunk: int, p: map<int, int>) {
    && (forall key :: Kept(stored, done, size, chunk, key) ==> Atoi(key).value in p)
    && (forall i :: i in p ==>
          exists key :: Kept(stored, done, size, chunk, key) && Atoi(key).value == i && p[i] == stored[key])
  }

  method DecodePartial(stored: map<string, int>, done: seq<bool>, size: int, chunk: int)
    returns (partial: map<int, int>)
    ensures Decoded(stored, done, size, chunk, partial)
    ensures forall i :: i in partial ==> 0 <= i < |done| && !done[i] && 0 < partial[i] < Len(i, size, chunk)
    ensures forall key :: key in stored && Atoi(key).Some? ==>
      var i := Atoi(key).value;
        0 <= i < |done| && !done[i] && 0 < stored[key] < Len(i, size, chunk) ==> i in partial
  {
    partial := map[];
    var left := stored;
    while left != map[]
      invariant forall key :: key in left ==> key in stored && left[key] == stored[key]
      invariant forall key :: Kept(stored, done, size, chunk, key) && key !in left ==> Atoi(key).value in partial
      invariant forall i :: i in partial ==>
                  exists key :: Kept(stored, done, size, chunk, key) && Atoi(key).value == i && partial[i] == stored[key]
      decreases |left|
    {
      var key :| key in left;
      var index := Atoi(key);
      if index.Some? && Usable(done, size, chunk, index.value, left[key]) {
        assert Kept(stored, done, size, chunk, key);
        partial := partial[index.value := left[key]];
      }
      left := left - {key};
    }
  }

  lemma DecodingYieldsValid(stored: map<string, int>, done: seq<bool>, size: int, chunk: int, p: map<int, int>)
    requires |done| == ChunkCount(size, chunk) && Decoded(stored, done, size, chunk, p)
    ensures ValidRecord(Record(done, p), size, chunk)
  {
  }

  lemma EncodedEntries(partial: map<int, int>)
    requires forall i :: i in partial ==> 0 <= i <= MAX_INT
    ensures forall key :: key in EncodePartial(partial) ==>
              exists i :: i in partial && Itoa(i) == key && EncodePartial(partial)[key] == partial[i]
    ensures forall i :: i in partial ==>
              Itoa(i) in EncodePartial(partial) && EncodePartial(partial)[Itoa(i)] == partial[i] && Atoi(Itoa(i)) == Some(i)
  {
    forall i | i in partial
      ensures Itoa(i) in EncodePartial(partial) && EncodePartial(partial)[Itoa(i)] == partial[i]
      ensures Atoi(Itoa(i)) == Some(i)
    {
      AtoiOfItoa(i);
      KeyIsUnique(partial, Itoa(i));
    }
  }

  /** Nothing a valid record holds is dropped on the way through decimal keys. */
  lemma PartialRoundTrip(r: Record, size: int, chunk: int, p: map<int, int>)
    requires ValidRecord(r, size, chunk) && |r.done| <= MAX_INT
    requires Decoded(EncodePartial(r.partial), r.done, size, chunk, p)
    ensures p == r.partial
  {
    hide Atoi, Itoa, Len, EncodePartial;
    var stored := EncodePartial(r.partial);
    EncodedEntries(r.partial);
    forall i | i in p
      ensures i in r.partial && p[i] == r.partial[i]
    {
      var key :| Kept(stored, r.done, size, chunk, key) && Atoi(key).value == i && p[i] == stored[key];
      var j :| j in r.partial && Itoa(j) == key && stored[key] == r.partial[j];
    }
    forall i | i in r.partial
      ensures i in p
    {
      assert Kept(stored, r.done, size, chunk, Itoa(i));
    }
  }

  // ----- the document

  function Written(id: Identity, r: Record): Document
    requires forall i :: i in r.partial ==> 0 <= i
  {
    Document(CHECKPOINT_VERSION, id, BitmapText(r.done), EncodePartial(r.partial))
  }

  /** The identity test of loadCheckpoint: a hash rules a record out only when
      both sides have one and they differ. */
  predicate SameFile(stored: Identity, want: Identity) {
    && stored.driveID == want.driveID
    && stored.fileID == want.fileID
    && stored.size == want.size
    && stored.chunkSize == want.chunkSize
    && (stored.hash == "" || want.hash == "" || stored.hash == want.hash)
  }

  predicate Accepted(doc: Document, want: Identity) {
    && 1 <= doc.version <= CHECKPOINT_VERSION
    && SameFile(doc.id, want)
    && BitmapOfText(doc.done, ChunkCount(want.size, want.chunkSize)).Some?
  }

  ghost predicate Loads(doc: Document, want: Identity, r: Record) {
    && Accepted(doc, want)
    && Some(r.done) == BitmapOfText(doc.done, ChunkCount(want.size, want.chunkSize))
    && Decoded(doc.partial, r.done, want.size, want.chunkSize, r.partial)
  }

  method LoadCheckpoint(file: Option<Document>, want: Identity) returns (r: Option<Record>)
    ensures r.Some? <==> file.Some? && Accepted(file.value, want)
    ensures r.Some? <==>
      && file.Some? && var doc := file.value;
      && (doc.version == 1 || doc.version == 2)
      && doc.id.driveID == want.driveID && doc.id.fileID == want.fileID
      && doc.id.size == want.size && doc.id.chunkSize == want.chunkSize
      && (doc.id.hash != want.hash ==> doc.id.hash == "" || want.hash == "")
      && BitmapOfText(doc.done, ChunkCount(want.size, want.chunkSize)).Some?
    ensures r.Some? ==> Loads(file.value, want, r.value) && ValidRecord(r.value, want.size, want.chunkSize)
    ensures r.Some? ==> (file.value.id == want <==> file.value.id.hash == want.hash)
  {
    if file.None? || !(1 <= file.value.version <= CHECKPOINT_VERSION) || !SameFile(file.value.id, want) {
      return None;
    }
    var done := DecodeChunkBitmap(file.value.done, ChunkCount(want.size, want.chunkSize));
    if done.None? {
      return None;
    }
    var partial := DecodePartial(file.value.partial, done.value, want.size, want.chunkSize);
    r := Some(Record(done.value, partial));
  }

  /** Loading what was written returns the very record that was written, through
      bit packing, base64 and decimal keys, for every valid record. */
  lemma LoadAfterWrite(id: Identity, r: Record, want: Identity, back: Record)
    requires ValidRecord(r, id.size, id.chunkSize) && |r.done| <= MAX_INT
    requires SameFile(id, want)
    ensures Accepted(Written(id, r), want)
    ensures Loads(Written(id, r), want, back) ==> back == r
    ensures Loads(Written(id, r), want, r)
  {
    BitmapRoundTrip(r.done);
    EncodedEntries(r.partial);
    var doc := Written(id, r);
    if Loads(doc, want, back) {
      PartialRoundTrip(r, id.size, id.chunkSize, back.partial);
    }
    forall i | i in r.partial
      ensures exists key :: Kept(doc.partial, r.done, want.size, want.chunkSize, key) && Atoi(key).value == i
                            && r.partial[i] == doc.partial[key]
    {
      assert Kept(doc.partial, r.done, want.size, want.chunkSize, Itoa(i));
    }
  }

  /** A blank hash on one side lets another revision in. */
  lemma BlankHashAcceptsAnotherRevision()
    ensures exists stored: Identity, want: Identity :: SameFile(stored, want) && stored != want
  {
    var stored := Identity("d", "f", 1, "", 1);
    var want := Identity("d", "f", 1, "h", 1);
    assert SameFile(stored, want) && stored != want;
  }
}
