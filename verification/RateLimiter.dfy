/** The token bucket in front of the broker's request limit, and the most requests any window can see. */
module RateLimiter {
  import opened Domain

  /** Tokens saved up, when they were last counted, and how often a caller had to wait. */
  datatype Bucket = Bucket(tokens: real, updated: real, waits: nat)

  datatype Limits = Limits(rate: real, burst: real)
  {
    predicate Sane() {
      rate > 0.0 && burst >= 0.0
    }
  }

  function Earned(rate: real, elapsed: real): real {
    elapsed * rate
  }

  /** Tokens at a reading of the clock, before one is taken. */
  function Refilled(l: Limits, b: Bucket, now: real): real {
    Min(l.burst, b.tokens + Earned(l.rate, now - b.updated))
  }

  predicate Grants(l: Limits, b: Bucket, now: real) {
    Refilled(l, b, now) >= 1.0
  }

  /** One turn of the waiting loop. */
  function Turn(l: Limits, b: Bucket, now: real): Bucket {
    if Grants(l, b, now) then Bucket(Refilled(l, b, now) - 1.0, now, b.waits)
    else Bucket(Refilled(l, b, now), now, b.waits + 1)
  }

  /** How long the loop sleeps after a turn without a grant. */
  function Sleep(l: Limits, b: Bucket): real
    requires l.rate > 0.0
  {
    (1.0 - b.tokens) / l.rate
  }

  function Start(l: Limits, at: real): Bucket {
    Bucket(l.burst, at, 0)
  }

  /** All readings of the clock, over any number of acquire calls one after another. */
  function Turns(l: Limits, b: Bucket, clock: seq<real>): Bucket {
    if clock == [] then b else Turn(l, Turns(l, b, clock[..|clock| - 1]), clock[|clock| - 1])
  }

  /** Grants among the readings from i on. */
  function GrantsIn(l: Limits, b: Bucket, clock: seq<real>, i: nat): nat {
    if |clock| <= i then 0
    else
      var n := |clock| - 1;
      GrantsIn(l, b, clock[..n], i) + if Grants(l, Turns(l, b, clock[..n]), clock[n]) then 1 else 0
  }

  predicate Rising(clock: seq<real>) {
    forall i, j :: 0 <= i < j < |clock| ==> clock[i] <= clock[j]
  }

  class Limiter {
    const limits: Limits
    var tokens: real
    var updated: real
    var waits: nat

    constructor (limits: Limits, now: real)
      ensures this.limits == limits && State() == Start(limits, now)
    {
      this.limits := limits;
      tokens, updated, waits := limits.burst, now, 0;
    }

    function State(): Bucket
      reads this
    {
      Bucket(tokens, updated, waits)
    }

    /** Turn after turn, one per reading of the clock, until one is granted or the readings end. */
    method Acquire(clock: seq<real>) returns (granted: bool, used: nat)
      modifies this`tokens, this`updated, this`waits
      ensures used <= |clock| && (!granted ==> used == |clock|)
      ensures State() == Turns(limits, old(State()), clock[..used])
      ensures GrantsIn(limits, old(State()), clock[..used], 0) == if granted then 1 else 0
      ensures waits == old(waits) + used - if granted then 1 else 0
    {
      ghost var b := State();
      used := 0;
      while used < |clock|
        invariant used <= |clock| && State() == Turns(limits, b, clock[..used])
        invariant GrantsIn(limits, b, clock[..used], 0) == 0 && waits == old(waits) + used
        decreases |clock| - used
      {
        assert clock[..used + 1][..used] == clock[..used];
        var now := clock[used];
        hide Earned;
        tokens := Min(limits.burst, tokens + Earned(limits.rate, now - updated));
        updated := now;
        used := used + 1;
        if tokens >= 1.0 {
          tokens := tokens - 1.0;
          return true, used;
        }
        waits := waits + 1;
      }
      granted := false;
    }
  }

  lemma EarnedAdds(rate: real, a: real, b: real)
    ensures Earned(rate, a + b) == Earned(rate, a) + Earned(rate, b)
  {
  }

  lemma EarnedPositive(rate: real, elapsed: real)
    requires rate > 0.0 && elapsed >= 0.0
    ensures Earned(rate, elapsed) >= 0.0
  {
  }

  /** Tokens never go below zero or above the burst. */
  lemma {:induction false} TokensStayInRange(l: Limits, b: Bucket, clock: seq<real>)
    requires l.Sane() && 0.0 <= b.tokens <= l.burst && Rising(clock)
    requires clock != [] ==> b.updated <= clock[0]
    ensures var e := Turns(l, b, clock);
      && 0.0 <= e.tokens <= l.burst
      && e.updated == if clock == [] then b.updated else clock[|clock| - 1]
  {
    if clock != [] {
      var n := |clock| - 1;
      TokensStayInRange(l, b, clock[..n]);
      EarnedPositive(l.rate, clock[n] - Turns(l, b, clock[..n]).updated);
      hide Earned;
    }
  }

  /** From one reading to a later one: grants are paid for by the burst and by what was earned in between. */
  lemma {:induction false} GrantsArePaidFor(l: Limits, b: Bucket, clock: seq<real>, i: nat)
    requires l.Sane() && 0.0 <= b.tokens <= l.burst && Rising(clock) && i < |clock| && b.updated <= clock[0]
    ensures GrantsIn(l, b, clock, i) as real + Turns(l, b, clock).tokens
         <= l.burst + Earned(l.rate, clock[|clock| - 1] - clock[i])
    decreases |clock|
  {
    var n := |clock| - 1;
    TokensStayInRange(l, b, clock[..n]);
    var before := Turns(l, b, clock[..n]);
    if i < n {
      GrantsArePaidFor(l, b, clock[..n], i);
      EarnedAdds(l.rate, clock[n - 1] - clock[i], clock[n] - clock[n - 1]);
      hide Earned;
    } else {
      assert GrantsIn(l, b, clock[..n], i) == 0;
      assert Earned(l.rate, 0.0) == 0.0;
      hide Earned;
    }
  }

  /** In any window of any run there are at most burst + rate * length grants. */
  lemma WindowIsBounded(l: Limits, at: real, clock: seq<real>, i: nat, j: nat)
    requires l.Sane() && Rising(clock) && i <= j < |clock| && at <= clock[0]
    ensures GrantsIn(l, Start(l, at), clock[..j + 1], i) as real <= l.burst + Earned(l.rate, clock[j] - clock[i])
  {
    GrantsArePaidFor(l, Start(l, at), clock[..j + 1], i);
    TokensStayInRange(l, Start(l, at), clock[..j + 1]);
  }

  /** A caller that slept as long as told gets its token at the next turn, exactly when the bucket can hold one. */
  lemma SleepEnds(l: Limits, b: Bucket, now: real, later: real)
    requires l.Sane() && 0.0 <= b.tokens <= l.burst && b.updated <= now && !Grants(l, b, now)
    requires later >= now + Sleep(l, Turn(l, b, now))
    ensures Grants(l, Turn(l, b, now), later) <==> l.burst >= 1.0
  {
    var b1 := Turn(l, b, now);
    var gap := Sleep(l, b1);
    assert gap * l.rate == 1.0 - b1.tokens;
    EarnedAdds(l.rate, gap, later - now - gap);
    EarnedPositive(l.rate, later - now - gap);
    assert Earned(l.rate, gap) == 1.0 - b1.tokens;
    hide Earned;
  }

  /** Acquire calls one after another are one run over all their readings: states and grants simply add up. */
  lemma {:induction false} CallsCompose(l: Limits, b: Bucket, first: seq<real>, second: seq<real>)
    ensures Turns(l, b, first + second) == Turns(l, Turns(l, b, first), second)
    ensures GrantsIn(l, b, first + second, 0) == GrantsIn(l, b, first, 0) + GrantsIn(l, Turns(l, b, first), second, 0)
    decreases |second|
  {
    if second == [] {
      assert first + second == first;
    } else {
      var n := |second| - 1;
      assert (first + second)[..|first + second| - 1] == first + second[..n];
      CallsCompose(l, b, first, second[..n]);
    }
  }
}
