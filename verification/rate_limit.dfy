/** The token bucket that paces REST calls. */
module RateLimit {
  import opened Common
  import opened RealFacts

  datatype Bucket = Bucket(rate: real, capacity: real, tokens: real, updated: real)

  /** The tokens that accrue between two times. */
  function Earned(from: real, to: real, rate: real): real {
    (to - from) * rate
  }

  lemma EarnedGrows(from: real, to: real, rate: real)
    requires from <= to && rate >= 0.0
    ensures Earned(from, to, rate) >= 0.0
  {
    ProductSign(to - from, rate);
  }

  lemma EarnedAdds(from: real, mid: real, to: real, rate: real)
    ensures Earned(from, mid, rate) + Earned(mid, to, rate) == Earned(from, to, rate)
  {
  }

  function Refilled(b: Bucket, now: real): Bucket {
    b.(tokens := Min(b.capacity, b.tokens + Earned(b.updated, now, b.rate)), updated := now)
  }

  /** One turn of the acquire loop: refill, then take a token if there is a whole one. */
  function Attempt(b: Bucket, now: real): Bucket {
    var r := Refilled(b, now);
    if r.tokens >= 1.0 then r.(tokens := r.tokens - 1.0) else r
  }

  predicate Granted(b: Bucket, now: real) {
    Refilled(b, now).tokens >= 1.0
  }

  predicate Valid(b: Bucket) {
    b.rate > 0.0 && 0.0 <= b.tokens <= b.capacity
  }

  /** The clock never goes back. */
  predicate Forward(from: real, times: seq<real>)
    decreases |times|
  {
    times == [] || (from <= times[0] && Forward(times[0], times[1..]))
  }

  function Attempts(b: Bucket, times: seq<real>): Bucket
    decreases |times|
  {
    if times == [] then b else Attempts(Attempt(b, times[0]), times[1..])
  }

  function Grants(b: Bucket, times: seq<real>): nat
    decreases |times|
  {
    if times == [] then 0
    else (if Granted(b, times[0]) then 1 else 0) + Grants(Attempt(b, times[0]), times[1..])
  }

  lemma AttemptAccounts(b: Bucket, now: real)
    requires Valid(b) && b.updated <= now
    ensures var a := Attempt(b, now);
            && Valid(a) && a.updated == now && a.rate == b.rate && a.capacity == b.capacity
            && (if Granted(b, now) then 1.0 else 0.0) + a.tokens <= b.tokens + Earned(b.updated, now, b.rate)
  {
    EarnedGrows(b.updated, now, b.rate);
    hide Earned;
  }

  /** Grants and the tokens left are paid for by the tokens at the start and the refill
      since; the bucket never leaves [0, capacity]. */
  lemma {:induction false} GrantsArePaid(b: Bucket, times: seq<real>)
    requires Valid(b) && Forward(b.updated, times)
    ensures var a := Attempts(b, times);
            && Valid(a) && a.capacity == b.capacity && a.rate == b.rate && b.updated <= a.updated
            && Grants(b, times) as real + a.tokens <= b.tokens + Earned(b.updated, a.updated, b.rate)
    decreases |times|
  {
    hide Attempt, Granted, Earned;
    if times == [] {
      EarnedGrows(b.updated, b.updated, b.rate);
    } else {
      AttemptAccounts(b, times[0]);
      var a := Attempt(b, times[0]);
      GrantsArePaid(a, times[1..]);
      EarnedAdds(b.updated, times[0], Attempts(b, times).updated, b.rate);
    }
  }

  // ---- to the token ----

  /** The tokens of the bucket with what has accrued since, were there room for them. */
  function Accrued(b: Bucket, now: real): real {
    b.tokens + (now - b.updated) * b.rate
  }

  /** What a refill loses because the bucket is full. */
  function Spill(b: Bucket, now: real): real {
    if Accrued(b, now) > b.capacity then Accrued(b, now) - b.capacity else 0.0
  }

  function Spilled(b: Bucket, times: seq<real>): real
    decreases |times|
  {
    if times == [] then 0.0 else Spill(b, times[0]) + Spilled(Attempt(b, times[0]), times[1..])
  }

  lemma AccruedIs(b: Bucket, now: real)
    ensures Accrued(b, now) == b.tokens + Earned(b.updated, now, b.rate)
  {
  }

  /** An attempt is granted exactly when the capacity and the tokens with what has accrued
      both hold a whole token; it then takes exactly one. */
  lemma AttemptExact(b: Bucket, now: real)
    ensures var a := Attempt(b, now);
            && (Granted(b, now) <==> b.capacity >= 1.0 && Accrued(b, now) >= 1.0)
            && (if Granted(b, now) then 1.0 else 0.0) + a.tokens + Spill(b, now) == Accrued(b, now)
            && a == b.(tokens := a.tokens, updated := now)
  {
    AccruedIs(b, now);
    hide Accrued, Earned;
  }

  /** Over any attempts every token is accounted for: those granted, those left and those
      spilled are those of the start and those that accrued. */
  lemma {:induction false} EveryTokenCounts(b: Bucket, times: seq<real>)
    ensures Grants(b, times) as real + Attempts(b, times).tokens + Spilled(b, times)
            == Accrued(b, Attempts(b, times).updated)
    decreases |times|
  {
    if times == [] {
      assert (b.updated - b.updated) * b.rate == 0.0;
    } else {
      var a, end := Attempt(b, times[0]), Attempts(b, times).updated;
      AttemptExact(b, times[0]);
      EveryTokenCounts(a, times[1..]);
      hide Attempt, Granted, Spill, Earned, Accrued;
      AccruedIs(b, times[0]);
      AccruedIs(a, end);
      AccruedIs(b, end);
      EarnedAdds(b.updated, times[0], end, b.rate);
    }
  }

  lemma {:induction false} EndsAtLast(b: Bucket, times: seq<real>)
    requires times != []
    ensures Attempts(b, times).updated == times[|times| - 1]
    decreases |times|
  {
    hide Earned;
    if |times| > 1 {
      EndsAtLast(Attempt(b, times[0]), times[1..]);
    }
  }

  /** Refilling first at the time of an attempt makes no difference to it. */
  lemma RefillTwice(b: Bucket, now: real)
    requires Valid(b) && b.updated <= now
    ensures var full := Refilled(b, now);
            && Valid(full) && full.updated == now && full.capacity == b.capacity && full.rate == b.rate
            && Attempt(full, now) == Attempt(b, now) && Granted(full, now) == Granted(b, now)
  {
    EarnedGrows(b.updated, now, b.rate);
    assert Earned(now, now, b.rate) == 0.0;
    hide Earned;
  }

  /** Any window of attempts, from any reachable bucket, sees at most
      capacity + rate * length grants. */
  lemma WindowBound(b: Bucket, times: seq<real>)
    requires Valid(b) && times != [] && Forward(b.updated, times)
    ensures Grants(b, times) as real <= b.capacity + (times[|times| - 1] - times[0]) * b.rate
  {
    assert Earned(times[0], times[|times| - 1], b.rate) == (times[|times| - 1] - times[0]) * b.rate;
    hide Attempt, Granted, Earned, Refilled;
    var full := Refilled(b, times[0]);
    RefillTwice(b, times[0]);
    GrantsArePaid(full, times);
    EndsAtLast(full, times);
  }

  /** After sleeping for the deficit, or longer, the next turn is granted exactly when the
      capacity holds a whole token: one sleep suffices, or acquire never returns. */
  lemma OneSleepSuffices(b: Bucket, now: real, wake: real)
    requires Valid(b) && b.updated <= now && !Granted(b, now)
    requires wake >= now + (1.0 - Refilled(b, now).tokens) / b.rate
    ensures Granted(Attempt(b, now), wake) <==> b.capacity >= 1.0
  {
    var a := Attempt(b, now);
    DivideMultiply(1.0 - a.tokens, b.rate);
    MultiplyMonotone((1.0 - a.tokens) / b.rate, wake - now, b.rate);
    assert Earned(now, wake, b.rate) >= 1.0 - a.tokens;
    hide Earned;
  }

  /** Below a capacity of one, no attempt at any time is ever granted. */
  lemma {:induction false} TooSmallNeverGrants(b: Bucket, times: seq<real>)
    requires b.capacity < 1.0
    ensures Grants(b, times) == 0
    decreases |times|
  {
    if times != [] {
      TooSmallNeverGrants(Attempt(b, times[0]), times[1..]);
    }
  }

  class RateLimiter {
    const rate: real
    const capacity: real
    var tokens: real
    var updated: real

    constructor (rate: int, capacity: Option<int>, now: real)
      requires rate > 0
      ensures Now() == Bucket(rate as real, capacity.GetOr(rate) as real, capacity.GetOr(rate) as real, now)
    {
      this.rate, this.capacity := rate as real, capacity.GetOr(rate) as real;
      tokens, updated := capacity.GetOr(rate) as real, now;
    }

    function Now(): Bucket
      reads this
    {
      Bucket(rate, capacity, tokens, updated)
    }

    method Refill(now: real)
      modifies this
      ensures Now() == Refilled(old(Now()), now)
    {
      var elapsed := now - updated;
      updated := now;
      tokens := Min(capacity, tokens + elapsed * rate);
      assert elapsed * rate == Earned(old(updated), now, rate);
    }

    /** acquire, started at `now`, with every sleep overrunning by `late`, until it is
        granted or its caller gives up after `patience` turns. With room for a whole token it
        needs at most two turns, one sleep apart; without it no patience is enough. */
    method Acquire(now: real, late: real, patience: nat) returns (done: Option<real>, turns: nat)
      requires Sound(Now()) && updated <= now && late >= 0.0
      modifies this
      ensures Sound(Now()) && turns <= patience && (done.None? ==> turns == patience)
      ensures capacity < 1.0 ==> done.None?
      ensures capacity >= 1.0 && patience >= 2 ==> done.Some?
      ensures done.Some? ==>
                if Granted(old(Now()), now) then
                  turns == 1 && done.value == now && Now() == Attempt(old(Now()), now)
                else
                  && turns == 2
                  && done.value == now + (1.0 - Refilled(old(Now()), now).tokens) / rate + late
                  && Now() == Attempt(Attempt(old(Now()), now), done.value)
    {
      hide Refilled;
      ghost var start := Now();
      var wake := now;
      turns := 0;
      while turns < patience
        invariant Sound(Now()) && updated <= wake && turns <= patience
        invariant turns == 0 ==> Now() == start && wake == now
        invariant turns == 1 ==>
                    && !Granted(start, now) && Now() == Attempt(start, now)
                    && wake == now + (1.0 - Refilled(start, now).tokens) / rate + late
        invariant turns >= 1 ==> !Granted(start, now)
        invariant turns >= 2 ==> capacity < 1.0
      {
        ghost var before := Now();
        AttemptSound(before, wake);
        if turns == 1 && capacity >= 1.0 {
          DeficitSleep(start, now);
          OneSleepSuffices(start, now, wake);
        }
        Refill(wake);
        turns := turns + 1;
        if tokens >= 1.0 {
          tokens := tokens - 1.0;
          return Some(wake), turns;
        }
        var deficit := 1.0 - tokens;
        QuotientSign(deficit, rate);
        wake := wake + deficit / rate + late;
      }
      done := None;
    }
  }

  /** What construction establishes: with a non-negative capacity this is Valid. */
  predicate Sound(b: Bucket) {
    b.rate > 0.0 && b.tokens <= b.capacity && (b.capacity >= 0.0 ==> b.tokens >= 0.0)
  }

  /** An attempt keeps the bucket sound, and is granted only with room for a token. */
  lemma AttemptSound(b: Bucket, now: real)
    requires Sound(b) && b.updated <= now
    ensures Sound(Attempt(b, now)) && Attempt(b, now).updated == now
    ensures Sound(Refilled(b, now)) && (Granted(b, now) ==> b.capacity >= 1.0)
  {
    EarnedGrows(b.updated, now, b.rate);
    hide Earned;
  }

  lemma DeficitSleep(b: Bucket, now: real)
    requires Valid(b) && b.updated <= now && !Granted(b, now)
    ensures (1.0 - Refilled(b, now).tokens) / b.rate >= 0.0
  {
    QuotientSign(1.0 - Refilled(b, now).tokens, b.rate);
  }
}
