/** Decimal rendering and parsing as strconv does it, with the round trips the
    checkpoint keys, the row key and the missing-segment list rely on. */
module Decimal {
  import opened Wrappers

  const MAX_INT: int := 0x7FFF_FFFF_FFFF_FFFF

  predicate IsDigit(c: char) {
    '0' <= c <= '9'
  }

  predicate AllDigits(s: string) {
    forall k :: 0 <= k < |s| ==> IsDigit(s[k])
  }

  function Digit(d: nat): (c: char)
    requires d < 10
    ensures IsDigit(c)
  {
    ('0' as int + d) as char
  }

  function Itoa(n: nat): (s: string)
    ensures |s| > 0 && AllDigits(s)
  {
    if n < 10 then [Digit(n)] else Itoa(n / 10) + [Digit(n % 10)]
  }

  function FormatInt(n: int): string {
    if n < 0 then "-" + Itoa(-n) else Itoa(n)
  }

  function DigitsValue(s: string): nat
    requires AllDigits(s)
  {
    if s == [] then 0 else 10 * DigitsValue(s[..|s| - 1]) + (s[|s| - 1] as int - '0' as int)
  }

  /** strconv.Atoi: an optional sign, at least one digit, nothing else, and a
      value that fits 64 bits. */
  function Atoi(s: string): Option<int> {
    var signed := s != [] && (s[0] == '-' || s[0] == '+');
    var body := if signed then s[1..] else s;
    if body == [] || !AllDigits(body) then None
    else
      var v: int := if signed && s[0] == '-' then 0 - DigitsValue(body) else DigitsValue(body);
      if -MAX_INT - 1 <= v <= MAX_INT then Some(v) else None
  }

  lemma {:induction false} DigitsValueOfItoa(n: nat)
    ensures DigitsValue(Itoa(n)) == n
  {
    if n >= 10 {
      var s := Itoa(n);
      DigitsValueOfItoa(n / 10);
      assert s[..|s| - 1] == Itoa(n / 10);
      assert s[|s| - 1] == Digit(n % 10);
    }
  }

  lemma AtoiOfItoa(n: nat)
    requires n <= MAX_INT
    ensures Atoi(Itoa(n)) == Some(n)
  {
    DigitsValueOfItoa(n);
    assert IsDigit(Itoa(n)[0]);
  }

  /** Some numbers in full: what strconv renders and accepts, and what it refuses. */
  lemma SomeNumbers()
    ensures FormatInt(0) == "0" && FormatInt(15) == "15" && FormatInt(-2) == "-2"
    ensures Atoi("-7") == Some(-7) && Atoi("+7") == Some(7) && Atoi("07") == Some(7)
    ensures Atoi("") == None && Atoi("-") == None && Atoi("1 2") == None
  {
    assert Itoa(15) == Itoa(1) + [Digit(5)];
    assert DigitsValue("7") == 7 && DigitsValue("0") == 0 && "07"[..1] == "0" && DigitsValue("07") == 7;
    assert "-7"[1..] == "7" && "+7"[1..] == "7" && "-"[1..] == "" && !IsDigit("1 2"[1]);
  }

  lemma ItoaInjective(a: nat, b: nat)
    requires Itoa(a) == Itoa(b)
    ensures a == b
  {
    DigitsValueOfItoa(a);
    DigitsValueOfItoa(b);
  }

  lemma FormatIntInjective(a: int, b: int)
    requires FormatInt(a) == FormatInt(b)
    ensures a == b
  {
    assert IsDigit(Itoa(if a < 0 then -a else a)[0]) && IsDigit(Itoa(if b < 0 then -b else b)[0]);
    if a < 0 && b < 0 {
      assert Itoa(-a) == FormatInt(a)[1..] && Itoa(-b) == FormatInt(b)[1..];
      ItoaInjective(-a, -b);
    } else if a >= 0 && b >= 0 {
      ItoaInjective(a, b);
    }
  }

  lemma FormatIntHasNoNul(n: int)
    ensures '\0' !in FormatInt(n)
  {
    assert AllDigits(Itoa(if n < 0 then -n else n));
  }
}
