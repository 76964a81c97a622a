/** A file under a page cache: what reads return now, and what is on the device. */
module Disk {
  /** What identifies the content of a cloud file. */
  datatype Content = Content(driveID: string, fileID: string, size: int, hash: string)

  /** A byte on disk by where it came from: never written since its file was created, or
      position at of that content. */
  datatype Byte = Blank | From(content: Content, at: int)

  function Source(content: Content): (src: seq<Byte>)
    ensures |src| == if content.size < 0 then 0 else content.size
    ensures forall k :: 0 <= k < |src| ==> src[k] == From(content, k)
  {
    seq(if content.size < 0 then 0 else content.size, k => From(content, k))
  }

  /** One way the cloud files' bytes may turn out; a blank byte reads as zero. */
  type World = (Content, int) -> int

  function Value(w: World, b: Byte): int {
    if b.Blank? then 0 else w(b.content, b.at)
  }

  /** Two bytes read alike whatever the files hold exactly when they came from the same
      place. */
  lemma OriginDecides(a: Byte, b: Byte)
    ensures (forall w: World :: Value(w, a) == Value(w, b)) <==> a == b
  {
    if a != b {
      var here := if a.Blank? then b else a;
      var w: World := (content, at) => if here == From(content, at) then 1 else 0;
      assert Value(w, a) != Value(w, b);
    }
  }

  /** The same for whole files. */
  ghost predicate ReadAlike(a: seq<Byte>, b: seq<Byte>) {
    |a| == |b| && forall w: World, k :: 0 <= k < |a| ==> Value(w, a[k]) == Value(w, b[k])
  }

  lemma OriginsDecide(a: seq<Byte>, b: seq<Byte>)
    ensures ReadAlike(a, b) <==> a == b
  {
    if ReadAlike(a, b) {
      forall k | 0 <= k < |a| ensures a[k] == b[k] {
        OriginDecides(a[k], b[k]);
      }
    }
  }

  datatype File = File(vol: seq<Byte>, dur: seq<Byte>)

  predicate Sized(f: File, size: int) {
    |f.vol| == |f.dur| == size
  }

  /** Bytes [a, b) equal the source in the cache and on the device. */
  ghost predicate Good(f: File, src: seq<Byte>, a: int, b: int)
    requires |f.vol| == |f.dur| == |src|
  {
    forall k :: 0 <= k < |src| && a <= k < b ==> f.vol[k] == src[k] && f.dur[k] == src[k]
  }

  /** Bytes [a, b) equal the source as far as a reader of the live file can tell. */
  ghost predicate VolGood(f: File, src: seq<Byte>, a: int, b: int)
    requires |f.vol| == |f.dur| == |src|
  {
    forall k :: 0 <= k < |src| && a <= k < b ==> f.vol[k] == src[k]
  }

  function WriteAt(f: File, data: seq<Byte>, at: int): (g: File)
    requires |f.vol| == |f.dur| && 0 <= at <= at + |data| <= |f.vol|
    ensures |g.vol| == |g.dur| == |f.vol| && g.dur == f.dur
  {
    f.(vol := f.vol[..at] + data + f.vol[at + |data|..])
  }

  function Sync(f: File): File {
    f.(dur := f.vol)
  }

  function Blanks(n: nat): seq<Byte> {
    seq(n, _ => Blank)
  }

  /** ftruncate: cuts, or extends with zeros; sizes are metadata and durable. */
  function Resize(f: File, size: nat): File
    requires |f.vol| == |f.dur|
  {
    if |f.vol| >= size then File(f.vol[..size], f.dur[..size])
    else File(f.vol + Blanks(size - |f.vol|), f.dur + Blanks(size - |f.vol|))
  }

  /** Power loss: every byte comes back as its cached or its device value. */
  ghost predicate Torn(f: File, g: File) {
    && |f.vol| == |f.dur| == |g.vol| == |g.dur|
    && g.vol == g.dur
    && forall k :: 0 <= k < |g.vol| ==> g.vol[k] == f.vol[k] || g.vol[k] == f.dur[k]
  }

  /** Each byte of g is one of the bytes f held there, or the source's. */
  ghost predicate Evolves(f: File, g: File, src: seq<Byte>) {
    && |f.vol| == |f.dur| == |g.vol| == |g.dur| == |src|
    && forall k :: 0 <= k < |src| ==>
         && (g.vol[k] == f.vol[k] || g.vol[k] == f.dur[k] || g.vol[k] == src[k])
         && (g.dur[k] == f.vol[k] || g.dur[k] == f.dur[k] || g.dur[k] == src[k])
  }

  lemma StepsEvolve(f: File, src: seq<Byte>, at: int, n: int)
    requires |f.vol| == |f.dur| == |src| && 0 <= at <= at + n <= |src|
    ensures Evolves(f, WriteAt(f, src[at..at + n], at), src) && Evolves(f, Sync(f), src)
    ensures VolGood(WriteAt(f, src[at..at + n], at), src, at, at + n)
    ensures forall a, b :: VolGood(f, src, a, b) ==> VolGood(WriteAt(f, src[at..at + n], at), src, a, b)
    ensures forall a, b :: VolGood(f, src, a, b) ==> Good(Sync(f), src, a, b)
  {
    var g := WriteAt(f, src[at..at + n], at);
    assert forall k :: 0 <= k < |src| ==> g.vol[k] == if at <= k < at + n then src[k] else f.vol[k];
  }

  lemma NothingWritten(f: File, at: int)
    requires |f.vol| == |f.dur| && 0 <= at <= |f.vol|
    ensures WriteAt(f, [], at) == f
  {
  }

  lemma WrittenByte(f: File, data: seq<Byte>, at: int, k: int)
    requires |f.vol| == |f.dur| && 0 <= at <= at + |data| <= |f.vol| && 0 <= k < |f.vol|
    ensures WriteAt(f, data, at).vol[k] == if at <= k < at + |data| then data[k - at] else f.vol[k]
  {
  }

  lemma WritesJoin(f: File, src: seq<Byte>, a: int, b: int, c: int)
    requires |f.vol| == |f.dur| == |src| && 0 <= a <= b <= c <= |src|
    ensures WriteAt(WriteAt(f, src[a..b], a), src[b..c], b) == WriteAt(f, src[a..c], a)
  {
    var once := WriteAt(f, src[a..c], a);
    var twice := WriteAt(WriteAt(f, src[a..b], a), src[b..c], b);
    forall k | 0 <= k < |src| ensures twice.vol[k] == once.vol[k] {
      WrittenByte(f, src[a..c], a, k);
      WrittenByte(f, src[a..b], a, k);
      WrittenByte(WriteAt(f, src[a..b], a), src[b..c], b, k);
    }
    assert twice.vol == once.vol && twice.dur == once.dur;
  }

  class DataFile {
    var content: File

    constructor (content: File)
      ensures this.content == content
    {
      this.content := content;
    }

    method Write(data: seq<Byte>, at: int)
      requires |content.vol| == |content.dur| && 0 <= at <= at + |data| <= |content.vol|
      modifies this
      ensures content == WriteAt(old(content), data, at)
    {
      content := WriteAt(content, data, at);
    }

    method Flush(works: bool) returns (ok: bool)
      modifies this
      ensures ok == works
      ensures content == if works then Sync(old(content)) else old(content)
    {
      ok := works;
      if works {
        content := Sync(content);
      }
    }
  }
}
