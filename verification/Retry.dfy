/** The retry policy's exponential wait (internal/settings/settings.go, Backoff). */
module Retry {
  const MAX_BACKOFF_SECONDS := 24 * 60 * 60
  const SECOND := 1_000_000_000
  const INT64_MAX := 0x7FFF_FFFF_FFFF_FFFF

  datatype Policy = Policy(maxAttempts: int, initialSeconds: int, maxSeconds: int)

  /** What Normalize lets through. */
  predicate Normal(p: Policy) {
    1 <= p.maxAttempts && 1 <= p.initialSeconds <= p.maxSeconds <= MAX_BACKOFF_SECONDS
  }

  function Doubled(wait: nat, times: nat): nat {
    if times == 0 then wait else 2 * Doubled(wait, times - 1)
  }

  lemma {:induction false} DoubledGrows(wait: nat, a: nat, b: nat)
    requires a <= b
    ensures Doubled(wait, a) <= Doubled(wait, b)
  {
    if a < b { DoubledGrows(wait, a, b - 1); }
  }

  /** Every further attempt waits twice as long as the one before: after n of them the wait
      has grown by a factor that doubles n times. */
  lemma {:induction false} DoubledIsAMultiple(wait: nat, n: nat)
    ensures Doubled(wait, n) == wait * Doubled(1, n) && Doubled(1, n) > n
  {
    if n > 0 { DoubledIsAMultiple(wait, n - 1); }
  }

  /** The first retry waits initial, each later one twice as long, and none more than
      maximum; no intermediate value leaves 64 bits, however many attempts were made. */
  method Backoff(p: Policy, attempts: int) returns (wait: int)
    requires Normal(p)
    ensures var times := if attempts < 1 then 0 else attempts - 1; var full := Doubled(p.initialSeconds * SECOND, times);
      wait == if full < p.maxSeconds * SECOND then full else p.maxSeconds * SECOND
    ensures attempts <= 1 ==> wait == p.initialSeconds * 1_000_000_000
    ensures attempts == 2 ==> wait == (if 2 * p.initialSeconds < p.maxSeconds then 2 * p.initialSeconds else p.maxSeconds) * 1_000_000_000
  {
    var made := if attempts < 1 then 1 else attempts;
    var initial, maximum := p.initialSeconds * SECOND, p.maxSeconds * SECOND;
    wait := initial;
    var step := 1;
    while step < made
      invariant 1 <= step <= made
      invariant wait == Doubled(initial, step - 1) <= maximum
    {
      assert 2 * wait <= INT64_MAX;
      wait := wait * 2;
      if wait >= maximum {
        DoubledGrows(initial, step, made - 1);
        return maximum;
      }
      step := step + 1;
    }
    if wait > maximum {
      return maximum;
    }
  }
}
