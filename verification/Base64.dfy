/** Standard padded base64 (section 4 of RFC 4648), decoded the way Go's
    StdEncoding does: line breaks are skipped and stray low bits tolerated. */
module Base64 {
  import opened Wrappers

  type Byte = x: int | 0 <= x < 256

  predicate InAlphabet(c: char) {
    'A' <= c <= 'Z' || 'a' <= c <= 'z' || '0' <= c <= '9' || c == '+' || c == '/'
  }

  function CharOf(v: int): (c: char)
    requires 0 <= v < 64
    ensures InAlphabet(c)
  {
    if v < 26 then ('A' as int + v) as char
    else if v < 52 then ('a' as int + v - 26) as char
    else if v < 62 then ('0' as int + v - 52) as char
    else if v == 62 then '+' else '/'
  }

  function ValueOf(c: char): (v: int)
    requires InAlphabet(c)
    ensures 0 <= v < 64 && CharOf(v) == c
  {
    if 'A' <= c <= 'Z' then c as int - 'A' as int
    else if 'a' <= c <= 'z' then c as int - 'a' as int + 26
    else if '0' <= c <= '9' then c as int - '0' as int + 52
    else if c == '+' then 62 else 63
  }

  function Encode(b: seq<Byte>): string {
    if |b| == 0 then ""
    else if |b| == 1 then [CharOf(b[0] / 4), CharOf(b[0] % 4 * 16), '=', '=']
    else if |b| == 2 then
      [CharOf(b[0] / 4), CharOf(b[0] % 4 * 16 + b[1] / 16), CharOf(b[1] % 16 * 4), '=']
    else
      [CharOf(b[0] / 4), CharOf(b[0] % 4 * 16 + b[1] / 16),
       CharOf(b[1] % 16 * 4 + b[2] / 64), CharOf(b[2] % 64)] + Encode(b[3..])
  }

  function WithoutLineBreaks(s: string): string {
    if s == "" then ""
    else (if s[0] == '\r' || s[0] == '\n' then "" else [s[0]]) + WithoutLineBreaks(s[1..])
  }

  function DecodeQuanta(s: string): Option<seq<Byte>> {
    if s == "" then Some([])
    else if |s| < 4 || !InAlphabet(s[0]) || !InAlphabet(s[1]) then None
    else
      var b0 := ValueOf(s[0]) * 4 + ValueOf(s[1]) / 16;
      if s[2] == '=' then if s[3] == '=' && |s| == 4 then Some([b0]) else None
      else if !InAlphabet(s[2]) then None
      else
        var b1 := ValueOf(s[1]) % 16 * 16 + ValueOf(s[2]) / 4;
        if s[3] == '=' then if |s| == 4 then Some([b0, b1]) else None
        else if !InAlphabet(s[3]) then None
        else
          match DecodeQuanta(s[4..])
          case None => None
          case Some(rest) => Some([b0, b1, ValueOf(s[2]) % 4 * 64 + ValueOf(s[3])] + rest)
  }

  function Decode(s: string): Option<seq<Byte>> {
    DecodeQuanta(WithoutLineBreaks(s))
  }

  lemma ValueOfCharOf(v: int)
    requires 0 <= v < 64
    ensures ValueOf(CharOf(v)) == v
  {
  }

  predicate Clean(s: string) {
    forall k :: 0 <= k < |s| ==> s[k] != '\r' && s[k] != '\n'
  }

  lemma {:induction false} CleanIsUntouched(s: string)
    requires Clean(s)
    ensures WithoutLineBreaks(s) == s
  {
    if s != "" {
      CleanIsUntouched(s[1..]);
      assert s == [s[0]] + s[1..];
    }
  }

  lemma {:induction false} EncodeIsClean(b: seq<Byte>)
    ensures Clean(Encode(b))
  {
    if |b| >= 3 {
      EncodeIsClean(b[3..]);
    }
  }

  /** The four sextets v0..v3 and the three bytes b0..b2 carry the same 24 bits. */
  predicate SameBits(b0: Byte, b1: Byte, b2: Byte, v0: int, v1: int, v2: int, v3: int) {
    && 0 <= v0 < 64 && 0 <= v1 < 64 && 0 <= v2 < 64 && 0 <= v3 < 64
    && v0 * 4 + v1 / 16 == b0 && v1 % 16 * 16 + v2 / 4 == b1 && v2 % 4 * 64 + v3 == b2
  }

  lemma Regroup(b0: Byte, b1: Byte, b2: Byte)
    ensures SameBits(b0, b1, b2, b0 / 4, b0 % 4 * 16 + b1 / 16, b1 % 16 * 4 + b2 / 64, b2 % 64)
  {
  }

  lemma DecodeThreeBytes(b0: Byte, b1: Byte, b2: Byte, v0: int, v1: int, v2: int, v3: int, rest: string)
    requires SameBits(b0, b1, b2, v0, v1, v2, v3)
    requires DecodeQuanta(rest).Some?
    ensures DecodeQuanta([CharOf(v0), CharOf(v1), CharOf(v2), CharOf(v3)] + rest) ==
            Some([b0, b1, b2] + DecodeQuanta(rest).value)
  {
    ValueOfCharOf(v0);
    ValueOfCharOf(v1);
    ValueOfCharOf(v2);
    ValueOfCharOf(v3);
    assert ([CharOf(v0), CharOf(v1), CharOf(v2), CharOf(v3)] + rest)[4..] == rest;
  }

  lemma DecodeTail(b0: Byte, b1: Byte, v0: int, v1: int, v2: int)
    requires SameBits(b0, b1, 0, v0, v1, v2, 0)
    ensures DecodeQuanta([CharOf(v0), CharOf(v1), CharOf(v2), '=']) == Some([b0, b1])
    ensures b1 == 0 ==> DecodeQuanta([CharOf(v0), CharOf(v1), '=', '=']) == Some([b0])
  {
    ValueOfCharOf(v0);
    ValueOfCharOf(v1);
    ValueOfCharOf(v2);
    assert CharOf(v2) != '=';
  }

  lemma {:induction false} QuantaRoundTrip(b: seq<Byte>)
    ensures DecodeQuanta(Encode(b)) == Some(b)
  {
    hide DecodeQuanta, CharOf, ValueOf, InAlphabet, SameBits;
    if |b| >= 3 {
      Regroup(b[0], b[1], b[2]);
      QuantaRoundTrip(b[3..]);
      DecodeThreeBytes(b[0], b[1], b[2], b[0] / 4, b[0] % 4 * 16 + b[1] / 16, b[1] % 16 * 4 + b[2] / 64, b[2] % 64,
                       Encode(b[3..]));
      assert b == [b[0], b[1], b[2]] + b[3..];
    } else if |b| == 2 {
      Regroup(b[0], b[1], 0);
      DecodeTail(b[0], b[1], b[0] / 4, b[0] % 4 * 16 + b[1] / 16, b[1] % 16 * 4);
      assert b == [b[0], b[1]];
    } else if |b| == 1 {
      Regroup(b[0], 0, 0);
      DecodeTail(b[0], 0, b[0] / 4, b[0] % 4 * 16, 0);
      assert b == [b[0]];
    } else {
      EmptyRoundTrip();
    }
  }

  lemma EmptyRoundTrip()
    ensures DecodeQuanta("") == Some([])
  {
  }

  lemma RoundTrip(b: seq<Byte>)
    ensures Decode(Encode(b)) == Some(b)
  {
    EncodeIsClean(b);
    CleanIsUntouched(Encode(b));
    QuantaRoundTrip(b);
  }

  /** The alphabet of table 1 of RFC 4648, by its character codes. */
  lemma TheAlphabet(v: int)
    requires 0 <= v < 64
    ensures CharOf(v) as int ==
      if v < 26 then 65 + v else if v < 52 then 97 + (v - 26) else if v < 62 then 48 + (v - 52) else if v == 62 then 43 else 47
  {
  }

  /** The test vectors of section 10 of RFC 4648. */
  lemma TestVectors()
    ensures Encode([]) == "" && Encode([102]) == "Zg==" && Encode([102, 111]) == "Zm8="
    ensures Encode([102, 111, 111]) == "Zm9v" && Encode([102, 111, 111, 98, 97, 114]) == "Zm9vYmFy"
  {
    hide Encode, CharOf;
    ShortVectors();
    FullGroup(102, 111, 111, []);
    FullGroup(98, 97, 114, []);
    FullGroup(102, 111, 111, [98, 97, 114]);
    SomeChars();
    assert [102, 111, 111] + [] == [102, 111, 111] && [98, 97, 114] + [] == [98, 97, 114];
    assert [102, 111, 111] + [98, 97, 114] == [102, 111, 111, 98, 97, 114];
  }

  lemma ShortVectors()
    ensures Encode([]) == "" && Encode([102]) == "Zg==" && Encode([102, 111]) == "Zm8="
  {
  }

  lemma SomeChars()
    ensures CharOf(25) == 'Z' && CharOf(38) == 'm' && CharOf(61) == '9' && CharOf(47) == 'v'
    ensures CharOf(24) == 'Y' && CharOf(5) == 'F' && CharOf(50) == 'y'
  {
  }

  lemma FullGroup(b0: Byte, b1: Byte, b2: Byte, rest: seq<Byte>)
    ensures Encode([b0, b1, b2] + rest) ==
      [CharOf(b0 / 4), CharOf(b0 % 4 * 16 + b1 / 16), CharOf(b1 % 16 * 4 + b2 / 64), CharOf(b2 % 64)] + Encode(rest)
  {
    assert ([b0, b1, b2] + rest)[3..] == rest;
  }

  lemma OneByte(a: char, b: char)
    requires InAlphabet(a) && InAlphabet(b)
    ensures DecodeQuanta([a, b, '=', '=']) == Some([ValueOf(a) * 4 + ValueOf(b) / 16])
  {
    hide InAlphabet, ValueOf;
  }

  lemma SomeValues()
    ensures InAlphabet('Z') && InAlphabet('g') && InAlphabet('h')
    ensures ValueOf('Z') == 25 && ValueOf('g') == 32 && ValueOf('h') == 33
  {
  }

  /** The decoder lets pass low bits that belong to no byte. */
  lemma StrayBitsPass()
    ensures Decode(['Z', 'h', '=', '=']) == Decode(['Z', 'g', '=', '=']) == Some([102])
  {
    hide DecodeQuanta, ValueOf, InAlphabet, WithoutLineBreaks;
    SomeValues();
    OneByte('Z', 'g');
    OneByte('Z', 'h');
    CleanIsUntouched(['Z', 'h', '=', '=']);
    CleanIsUntouched(['Z', 'g', '=', '=']);
  }

  /** It skips line breaks, wherever they stand. */
  lemma LineBreaksPass(s: string, at: nat, c: char)
    requires at <= |s| && (c == '\r' || c == '\n')
    ensures Decode(s[..at] + [c] + s[at..]) == Decode(s)
  {
    hide DecodeQuanta;
    BreakIsSkipped(s, at, c);
  }

  lemma {:induction false} BreakIsSkipped(s: string, at: nat, c: char)
    requires at <= |s| && (c == '\r' || c == '\n')
    ensures WithoutLineBreaks(s[..at] + [c] + s[at..]) == WithoutLineBreaks(s)
  {
    var longer := s[..at] + [c] + s[at..];
    if at == 0 {
      assert longer[0] == c && longer[1..] == s;
    } else {
      BreakIsSkipped(s[1..], at - 1, c);
      assert longer[0] == s[0] && longer[1..] == s[1..][..at - 1] + [c] + s[1..][at - 1..];
    }
  }

  lemma DecoderRefuses(s: string)
    requires Clean(s) && 0 < |s|
    requires |s| < 4 || !InAlphabet(s[0]) || !InAlphabet(s[1]) || (s[2] == '=' && (s[3] != '=' || |s| > 4))
    ensures Decode(s) == None
  {
    CleanIsUntouched(s);
  }
}
