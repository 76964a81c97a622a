/** The aggregate download limiter (byteRateLimiter in
    internal/aliyunpan/source_client.go), in exact arithmetic. */
module RateLimiter {
  import opened Wrappers

  /** One granted request: its bytes may flow from start on. */
  datatype Grant = Grant(start: real, bytes: int)

  function Duration(bytes: int, rate: int): real
    requires 0 < rate
  {
    bytes as real / rate as real
  }

  /** Reserved intervals follow one another without overlap. */
  ghost predicate Disjoint(grants: seq<Grant>, rate: int)
    requires 0 < rate
  {
    && (forall k :: 0 <= k < |grants| ==> 0 < grants[k].bytes)
    && (forall k :: 0 < k < |grants| ==>
          grants[k - 1].start + Duration(grants[k - 1].bytes, rate) <= grants[k].start)
  }

  function End(g: Grant, rate: int): real
    requires 0 < rate
  {
    g.start + Duration(g.bytes, rate)
  }

  ghost function InWindow(grants: seq<Grant>, from: real, until: real): int {
    if grants == [] then 0
    else
      var last := grants[|grants| - 1];
      InWindow(grants[..|grants| - 1], from, until) + if from <= last.start < until then last.bytes else 0
  }

  lemma DurationAdds(a: int, b: int, rate: int)
    requires 0 < rate
    ensures Duration(a + b, rate) == Duration(a, rate) + Duration(b, rate)
    ensures a > 0 ==> Duration(a, rate) > 0.0
    ensures a <= b ==> Duration(a, rate) <= Duration(b, rate)
  {
    if a <= b { DurationMonotone(a, b, rate); }
    if a > 0 { assert Duration(a, rate) * rate as real == a as real; }
  }

  lemma DurationMonotone(a: int, b: int, rate: int)
    requires 0 < rate && a <= b
    ensures Duration(a, rate) <= Duration(b, rate)
  {
  }

  /** Where the window's last grant stands: everything before it in the window was
      reserved between the window's start and its own. */
  lemma {:induction false} WindowReaches(grants: seq<Grant>, rate: int, from: real, until: real)
        returns (last: Option<Grant>)
    requires 0 < rate && Disjoint(grants, rate)
    ensures last.None? ==> InWindow(grants, from, until) == 0
    ensures last.Some? ==> last.value in grants && from <= last.value.start < until
    ensures last.Some? ==> Duration(InWindow(grants, from, until) - last.value.bytes, rate) <= last.value.start - from
    ensures last.Some? ==>
              last.value.start + Duration(last.value.bytes, rate) <= End(grants[|grants| - 1], rate)
  {
    if grants == [] {
      return None;
    }
    var rest, g := grants[..|grants| - 1], grants[|grants| - 1];
    last := WindowReaches(rest, rate, from, until);
    DurationAdds(g.bytes, 0, rate);
    assert rest != [] ==> rest[|rest| - 1].start + Duration(rest[|rest| - 1].bytes, rate) <= g.start;
    if from <= g.start < until {
      if last.Some? {
        DurationAdds(InWindow(rest, from, until) - last.value.bytes, last.value.bytes, rate);
      }
      last := Some(g);
    }
  }

  /** Durations turned back into bytes. */
  lemma TimeToBytes(bytes: int, largest: int, rate: int, time: real)
    requires 0 < rate && Duration(bytes, rate) <= time + Duration(largest, rate)
    ensures bytes as real <= rate as real * time + largest as real
  {
    var r := rate as real;
    var d, l := Duration(bytes, rate), Duration(largest, rate);
    assert d * r == bytes as real && l * r == largest as real;
    Scale(d, time + l, r);
    assert (time + l) * r == r * time + l * r;
  }

  lemma Scale(a: real, b: real, r: real)
    requires a <= b && 0.0 < r
    ensures a * r <= b * r
  {
  }

  /** The aggregate bound: whatever the callers and however many, the bytes granted
      with a start in any window are at most rate times its length plus one request. */
  lemma WindowIsBounded(grants: seq<Grant>, rate: int, from: real, until: real, largest: int)
    requires 0 < rate && Disjoint(grants, rate) && from <= until
    requires 0 <= largest && forall k :: 0 <= k < |grants| ==> grants[k].bytes <= largest
    ensures InWindow(grants, from, until) as real <= rate as real * (until - from) + largest as real
  {
    hide Duration, InWindow;
    var total := InWindow(grants, from, until);
    var last := WindowReaches(grants, rate, from, until);
    DurationMonotone(0, largest, rate);
    DurationAdds(0, 0, rate);
    if last.Some? {
      var own := last.value.bytes;
      DurationAdds(total - own, own, rate);
      DurationMonotone(own, largest, rate);
    }
    TimeToBytes(total, largest, rate, until - from);
  }

  /** byteRateLimiter. granted records the paced requests since the rate was last
      changed; now is the clock reading taken under the lock. */
  class ByteRateLimiter {
    var bytesPerSecond: int
    var nextAvailable: real
    ghost var granted: seq<Grant>

    ghost predicate Valid()
      reads this
    {
      0 < bytesPerSecond ==>
        && Disjoint(granted, bytesPerSecond)
        && (granted != [] ==>
              var last := granted[|granted| - 1];
              last.start + Duration(last.bytes, bytesPerSecond) <= nextAvailable)
    }

    constructor ()
      ensures Valid() && bytesPerSecond == 0 && granted == []
    {
      bytesPerSecond := 0;
      nextAvailable := 0.0;
      granted := [];
    }

    method SetRate(rate: int, now: real)
      requires Valid()
      modifies this
      ensures Valid() && bytesPerSecond == rate
      ensures rate == old(bytesPerSecond) ==> nextAvailable == old(nextAvailable) && granted == old(granted)
      ensures rate != old(bytesPerSecond) ==> nextAvailable == now && granted == []
    {
      if bytesPerSecond == rate {
        return;
      }
      bytesPerSecond := rate;
      nextAvailable := now;
      granted := [];
    }

    /** The locked half of Wait: the moment this request may proceed. */
    method Wait(byteCount: int, now: real) returns (start: real)
      requires Valid()
      modifies this`nextAvailable, this`granted
      ensures Valid() && now <= start
      ensures byteCount <= 0 || bytesPerSecond <= 0 ==>
                start == now && nextAvailable == old(nextAvailable) && granted == old(granted)
      ensures byteCount > 0 && bytesPerSecond > 0 ==>
                && start == (if old(nextAvailable) < now then now else old(nextAvailable))
                && nextAvailable == start + byteCount as real / bytesPerSecond as real
                && granted == old(granted) + [Grant(start, byteCount)]
    {
      if byteCount <= 0 || bytesPerSecond <= 0 {
        return now;
      }
      if nextAvailable < now {
        nextAvailable := now;
      }
      start := nextAvailable;
      nextAvailable := start + byteCount as real / bytesPerSecond as real;
      granted := granted + [Grant(start, byteCount)];
    }

    /** At a constant rate the limiter's own history meets the bound. */
    lemma AggregateBound(from: real, until: real, largest: int)
      requires Valid() && 0 < bytesPerSecond && from <= until
      requires 0 <= largest && forall k :: 0 <= k < |granted| ==> granted[k].bytes <= largest
      ensures InWindow(granted, from, until) as real <= bytesPerSecond as real * (until - from) + largest as real
    {
      WindowIsBounded(granted, bytesPerSecond, from, until, largest);
    }
  }
}
