/** The only channel the host has for segments it lost: the text of its refusal
    to complete an upload (parseMissingSegments in internal/sync/transfer.go). */
module Missing {
  import opened Wrappers
  import opened Decimal

  const PATTERN: string := "missing segments ["

  predicate Listed(c: char) {
    IsDigit(c) || c == ' '
  }

  /** Length of the longest prefix of digits and spaces. */
  function Span(s: string): (n: nat)
    ensures n <= |s|
  {
    if s == "" || !Listed(s[0]) then 0 else 1 + Span(s[1..])
  }

  /** The captured list when the pattern matches exactly at i. */
  function MatchAt(s: string, i: nat): Option<string>
    requires i <= |s|
  {
    if |s| - i < |PATTERN| || s[i..i + |PATTERN|] != PATTERN then None
    else
      var rest := s[i + |PATTERN|..];
      var n := Span(rest);
      if n < |rest| && rest[n] == ']' then Some(rest[..n]) else None
  }

  /** The leftmost match at or after i. */
  function FindFrom(s: string, i: nat): Option<string>
    requires i <= |s|
    decreases |s| - i
  {
    if MatchAt(s, i).Some? then MatchAt(s, i)
    else if i == |s| then None
    else FindFrom(s, i + 1)
  }

  function Word(s: string): (n: nat)
    ensures n <= |s|
  {
    if s == "" || s[0] == ' ' then 0 else 1 + Word(s[1..])
  }

  function Fields(s: string): seq<string>
    decreases |s|
  {
    if s == "" then []
    else if s[0] == ' ' then Fields(s[1..])
    else [s[..Word(s)]] + Fields(s[Word(s)..])
  }

  function Numbers(fields: seq<string>): seq<int> {
    if fields == [] then []
    else (match Atoi(fields[0]) case None => [] case Some(v) => [v]) + Numbers(fields[1..])
  }

  function ParseMissing(message: string): seq<int> {
    match FindFrom(message, 0)
    case None => []
    case Some(list) => Numbers(Fields(list))
  }

  /** The %v rendering of a list of indices, without its brackets. */
  function Join(indices: seq<nat>): string {
    if indices == [] then ""
    else if |indices| == 1 then Itoa(indices[0])
    else Itoa(indices[0]) + " " + Join(indices[1..])
  }

  function Refusal(before: string, indices: seq<nat>, after: string): string {
    before + "missing segments [" + Join(indices) + "]" + after
  }

  lemma {:induction false} WordEnds(w: string, rest: string)
    requires ' ' !in w && (rest == "" || rest[0] == ' ')
    ensures Word(w + rest) == |w|
  {
    if w != "" {
      WordEnds(w[1..], rest);
      assert (w + rest)[1..] == w[1..] + rest;
    } else {
      assert w + rest == rest;
    }
  }

  lemma FieldsOfWord(w: string, rest: string)
    requires w != "" && ' ' !in w && (rest == "" || rest[0] == ' ')
    ensures Fields(w + rest) == [w] + Fields(rest)
  {
    WordEnds(w, rest);
    assert (w + rest)[..|w|] == w && (w + rest)[|w|..] == rest;
  }

  lemma FieldsOfJoin(indices: seq<nat>)
    requires indices != []
    ensures Fields(Join(indices)) == [Itoa(indices[0])] + Fields(Join(indices[1..]))
  {
    hide Word, Itoa;
    var w, tail := Itoa(indices[0]), indices[1..];
    assert ' ' !in w;
    if |indices| == 1 {
      FieldsOfWord(w, "");
      assert w + "" == w;
    } else {
      FieldsOfWord(w, " " + Join(tail));
      assert w + (" " + Join(tail)) == Join(indices);
      assert (" " + Join(tail))[1..] == Join(tail);
    }
  }

  lemma {:induction false} NumbersOfJoin(indices: seq<nat>)
    requires forall k :: 0 <= k < |indices| ==> indices[k] <= MAX_INT
    ensures Numbers(Fields(Join(indices))) == indices
  {
    hide Fields, Join, Itoa, Atoi;
    if indices == [] {
      NothingListed();
    } else {
      FieldsOfJoin(indices);
      NumbersOfJoin(indices[1..]);
      AtoiOfItoa(indices[0]);
      assert ([Itoa(indices[0])] + Fields(Join(indices[1..])))[1..] == Fields(Join(indices[1..]));
      assert indices == [indices[0]] + indices[1..];
    }
  }

  /** A field that is no number costs no other. */
  lemma {:induction false} OddFieldsAreSkipped(before: seq<string>, field: string, after: seq<string>)
    requires Atoi(field).None?
    ensures Numbers(before + [field] + after) == Numbers(before) + Numbers(after)
  {
    hide Atoi;
    var all := before + [field] + after;
    if before == [] {
      assert all[0] == field && all[1..] == after;
    } else {
      OddFieldsAreSkipped(before[1..], field, after);
      assert all[0] == before[0] && all[1..] == before[1..] + [field] + after;
    }
  }

  lemma NothingListed()
    ensures Fields(Join([])) == []
  {
  }

  lemma {:induction false} JoinIsListed(indices: seq<nat>)
    ensures forall k :: 0 <= k < |Join(indices)| ==> Listed(Join(indices)[k])
  {
    if |indices| > 1 { JoinIsListed(indices[1..]); }
  }

  lemma {:induction false} SpanStops(s: string, after: string)
    requires forall k :: 0 <= k < |s| ==> Listed(s[k])
    ensures Span(s + "]" + after) == |s|
  {
    if s != "" {
      SpanStops(s[1..], after);
      assert (s + "]" + after)[1..] == s[1..] + "]" + after;
    } else {
      assert s + "]" + after == "]" + after;
    }
  }

  lemma {:induction false} FirstMatch(message: string, i: nat, at: nat)
    requires i <= at <= |message| && MatchAt(message, at).Some?
    requires forall k :: i <= k < at ==> MatchAt(message, k).None?
    ensures FindFrom(message, i) == MatchAt(message, at)
    decreases at - i
  {
    if i < at { FirstMatch(message, i + 1, at); }
  }

  /** Parsing inverts the host's rendering of any list of missing indices, wherever
      it stands in the message, provided nothing before it matches the pattern itself. */
  lemma ParsingInvertsTheRefusal(before: string, indices: seq<nat>, after: string)
    requires forall k :: 0 <= k < |before| ==> MatchAt(Refusal(before, indices, after), k).None?
    requires forall k :: 0 <= k < |indices| ==> indices[k] <= MAX_INT
    ensures ParseMissing(Refusal(before, indices, after)) == indices
  {
    var message := Refusal(before, indices, after);
    var at := |before|;
    var list := Join(indices);
    var rest := list + "]" + after;
    assert message == before + PATTERN + rest;
    assert message[at..at + |PATTERN|] == PATTERN;
    assert message[at + |PATTERN|..] == rest;
    JoinIsListed(indices);
    SpanStops(list, after);
    assert rest[..|list|] == list && rest[|list|] == ']';
    FirstMatch(message, 0, at);
    NumbersOfJoin(indices);
  }

  predicate Occurs(s: string, k: nat) {
    k + |PATTERN| <= |s| && s[k..k + |PATTERN|] == PATTERN
  }

  /** A prefix in which the pattern does not occur, brackets or not, matches nowhere. */
  lemma NothingMatchesBefore(before: string, indices: seq<nat>, after: string)
    requires forall k: nat :: !Occurs(before, k)
    ensures forall k :: 0 <= k < |before| ==> MatchAt(Refusal(before, indices, after), k).None?
  {
    var message := Refusal(before, indices, after);
    assert message == before + PATTERN + (Join(indices) + "]" + after);
    assert PATTERN[17] == '[' && forall j :: 0 <= j < 17 ==> PATTERN[j] != '[';
    forall k: nat | k < |before| ensures MatchAt(message, k).None? {
      BracketEnds(message, k);
      if k + 17 < |before| {
        assert before[k..k + |PATTERN|] == message[k..k + |PATTERN|];
        assert !Occurs(before, k);
      }
    }
  }

  lemma BracketEnds(s: string, k: nat)
    ensures Occurs(s, k) ==> s[k + 17] == '['
  {
    if Occurs(s, k) {
      assert s[k..k + |PATTERN|][17] == PATTERN[17];
    }
  }

  lemma MatchShowsBracket(message: string, i: nat)
    requires i <= |message| && MatchAt(message, i).Some?
    ensures '[' in message
  {
    assert message[i..i + |PATTERN|][17] == '[';
  }

  lemma {:induction false} NoMatchWithoutBracket(message: string, i: nat)
    requires i <= |message| && '[' !in message
    ensures FindFrom(message, i).None?
    decreases |message| - i
  {
    if MatchAt(message, i).Some? {
      MatchShowsBracket(message, i);
    }
    if i < |message| { NoMatchWithoutBracket(message, i + 1); }
  }

  /** The drive's own words, and what is read from them. */
  lemma TheDrivesWords()
    ensures ParseMissing("upload is still " + "missing segments [" + "3 7" + "]" + "") == [3, 7]
    ensures ParseMissing("rpc error: still " + "missing segments [" + "12" + "]" + ": retry") == [12]
    ensures ParseMissing("upload is still " + "missing segments [" + "" + "]" + "") == []
    ensures ParseMissing("upload not found") == []
  {
    hide ParseMissing, Itoa;
    SomeLists();
    RefusalReads("upload is still ", [3, 7], "");
    RefusalReads("rpc error: still ", [12], ": retry");
    RefusalReads("upload is still ", [], "");
    NothingIsRead("upload not found");
  }

  lemma SomeLists()
    ensures Join([3, 7]) == "3 7" && Join([12]) == "12" && Join([]) == ""
  {
    assert Itoa(12) == "12" && [3, 7][1..] == [7];
  }

  lemma RefusalReads(before: string, indices: seq<nat>, after: string)
    requires '[' !in before
    requires forall k :: 0 <= k < |indices| ==> indices[k] <= MAX_INT
    ensures ParseMissing(Refusal(before, indices, after)) == indices
  {
    forall k: nat ensures !Occurs(before, k) { BracketEnds(before, k); }
    NothingMatchesBefore(before, indices, after);
    ParsingInvertsTheRefusal(before, indices, after);
  }

  lemma NothingIsRead(message: string)
    requires '[' !in message
    ensures ParseMissing(message) == []
  {
    NoMatchWithoutBracket(message, 0);
  }
}
