/**
 Ticks to bars, and bars to longer bars. Building minute bars and resampling them gives the bars that building the
 longer ones from the ticks would give.
 */
module Bars {
  import opened Domain
  import opened SeqSums

  type Ticker = nat

  datatype Tick = Tick(ticker: Ticker, ts: real, price: real, volume: real)

  /** ts is the start of the bar, in whole seconds. */
  datatype Bar = Bar(
    ticker: Ticker, ts: int, open: real, high: real, low: real, close: real, volume: real, value: real)

  /** Start of the period of the given length that contains the time. */
  function Bucket(ts: real, seconds: nat): int
    requires seconds > 0
  {
    (ts / seconds as real).Floor * seconds
  }

  function Started(t: Tick, bucket: int): Bar {
    Bar(t.ticker, bucket, t.price, t.price, t.price, t.price, t.volume, t.price * t.volume)
  }

  function Grown(b: Bar, t: Tick): Bar {
    b.(high := Max(t.price, b.high), low := Min(t.price, b.low), close := t.price,
       volume := b.volume + t.volume, value := b.value + t.price * t.volume)
  }

  function Merged(a: Bar, b: Bar): Bar {
    a.(high := Max(a.high, b.high), low := Min(a.low, b.low), close := b.close,
       volume := a.volume + b.volume, value := a.value + b.value)
  }

  /** Bars finished so far and the one still open. */
  datatype Building = Building(done: seq<Bar>, current: Option<Bar>)
  {
    function Flushed(): seq<Bar> {
      if current.Some? then done + [current.value] else done
    }
  }

  const Nothing := Building([], None)

  /** The next tick of the same ticker, not before the open bar. */
  function Absorbed(s: Building, t: Tick, seconds: nat): Building
    requires seconds > 0
  {
    var b := Bucket(t.ts, seconds);
    if s.current.None? then s.(current := Some(Started(t, b)))
    else if b == s.current.value.ts then s.(current := Some(Grown(s.current.value, t)))
    else Building(s.done + [s.current.value], Some(Started(t, b)))
  }

  /** The ticks of one ticker, in order. */
  function Build(ticks: seq<Tick>, seconds: nat): Building
    requires seconds > 0
  {
    if ticks == [] then Nothing
    else Absorbed(Build(ticks[..|ticks| - 1], seconds), ticks[|ticks| - 1], seconds)
  }

  /** A bar joins the open longer bar, or closes it and starts the next. */
  function Joined(s: Building, b: Bar, seconds: nat): Building
    requires seconds > 0
  {
    var start := Bucket(b.ts as real, seconds);
    if s.current.None? then s.(current := Some(b.(ts := start)))
    else if start != s.current.value.ts || b.ticker != s.current.value.ticker
    then Building(s.done + [s.current.value], Some(b.(ts := start)))
    else s.(current := Some(Merged(s.current.value, b)))
  }

  function Resampling(bars: seq<Bar>, seconds: nat): Building
    requires seconds > 0
  {
    if bars == [] then Nothing
    else Joined(Resampling(bars[..|bars| - 1], seconds), bars[|bars| - 1], seconds)
  }

  function Resampled(bars: seq<Bar>, seconds: nat): seq<Bar>
    requires seconds > 0
  {
    Resampling(bars, seconds).Flushed()
  }

  method Resample(bars: seq<Bar>, seconds: nat) returns (out: seq<Bar>)
    requires seconds > 0
    ensures out == Resampled(bars, seconds)
  {
    out := [];
    var current: Option<Bar> := None;
    for i := 0 to |bars|
      invariant Building(out, current) == Resampling(bars[..i], seconds)
    {
      hide Bucket;
      assert bars[..i + 1][..i] == bars[..i];
      var b := bars[i];
      var start := Bucket(b.ts as real, seconds);
      if current.None? || start != current.value.ts || b.ticker != current.value.ticker {
        if current.Some? {
          out := out + [current.value];
        }
        current := Some(b.(ts := start));
      } else {
        current := Some(current.value.(high := Max(current.value.high, b.high), low := Min(current.value.low, b.low),
                                       close := b.close, volume := current.value.volume + b.volume,
                                       value := current.value.value + b.value));
      }
    }
    assert bars[..|bars|] == bars;
    if current.Some? {
      out := out + [current.value];
    }
  }

  // ------------------------------------------------------------------
  // Buckets within buckets
  // ------------------------------------------------------------------

  /** Rounding down twice is rounding down once. */
  lemma FloorOfQuotient(x: real, k: nat)
    requires k > 0
    ensures (x / k as real).Floor == x.Floor / k
  {
    var q := x.Floor / k;
    var r := x.Floor % k;
    assert x.Floor == q * k + r;
    var y := x / k as real;
    assert y * k as real == x;
    AboveFloor(x, y, q, k, r);
  }

  lemma AboveFloor(x: real, y: real, q: int, k: nat, r: int)
    requires k > 0 && y * k as real == x && x.Floor == q * k + r && 0 <= r < k
    ensures y.Floor == q
  {
    var (kr, qr) := (k as real, q as real);
    assert (q * k) as real == qr * kr;
    assert (qr + 1.0) * kr == qr * kr + kr;
    assert qr * kr <= x < qr * kr + kr;
    Cancel(y, qr + 1.0, kr);
    CancelEq(qr, y, kr);
  }

  lemma Scale(a: real, b: real, k: real)
    requires k > 0.0
    ensures a <= b ==> a * k <= b * k
    ensures a < b ==> a * k < b * k
  {
    assert a <= b ==> (b - a) * k >= 0.0;
    assert a < b ==> (b - a) * k > 0.0;
  }

  lemma Cancel(a: real, b: real, k: real)
    requires k > 0.0 && a * k < b * k
    ensures a < b
  {
    Scale(b, a, k);
  }

  lemma CancelEq(a: real, b: real, k: real)
    requires k > 0.0 && a * k <= b * k
    ensures a <= b
  {
    Scale(b, a, k);
  }

  /** The longer period of a time is the longer period of its shorter period. */
  lemma BucketOfBucket(ts: real, seconds: nat, k: nat)
    requires seconds > 0 && k > 0
    ensures seconds * k > 0
    ensures Bucket(Bucket(ts, seconds) as real, seconds * k) == Bucket(ts, seconds * k)
  {
    var s := seconds as real;
    var n := (ts / s).Floor;
    assert seconds * k > 0;
    QuotientOfProduct(ts, seconds, k);
    FloorOfQuotient(ts / s, k);
    var t2 := (n * seconds) as real;
    QuotientOfProduct(t2, seconds, k);
    ExactQuotient(n, seconds);
    FloorOfQuotient(n as real, k);
  }

  lemma QuotientOfProduct(x: real, s: nat, k: nat)
    requires s > 0 && k > 0 && s * k > 0
    ensures x / (s * k) as real == (x / s as real) / k as real
  {
    var sr := s as real;
    var kr := k as real;
    var p := (s * k) as real;
    assert p == sr * kr;
    var y := (x / sr) / kr;
    assert y * kr == x / sr;
    assert (x / sr) * sr == x;
    Regroup(y, kr, sr);
    assert y * p == x;
    Unique(x, p, y);
  }

  lemma Regroup(y: real, k: real, s: real)
    ensures (y * k) * s == y * (s * k)
  {
  }

  lemma Unique(x: real, p: real, y: real)
    requires p > 0.0 && y * p == x
    ensures x / p == y
  {
  }

  lemma ExactQuotient(n: int, s: nat)
    requires s > 0
    ensures (n * s) as real / s as real == n as real
  {
    assert (n * s) as real == n as real * s as real;
    Unique((n * s) as real, s as real, n as real);
  }

  lemma BucketMonotone(a: real, b: real, seconds: nat)
    requires seconds > 0 && a <= b
    ensures Bucket(a, seconds) <= Bucket(b, seconds)
  {
    var s := seconds as real;
    assert b / s - a / s == (b - a) / s >= 0.0;
    assert (a / s).Floor <= (b / s).Floor;
  }

  // ------------------------------------------------------------------
  // The homomorphism
  // ------------------------------------------------------------------

  /** One ticker's ticks in time order. */
  predicate InOrder(ticks: seq<Tick>, ticker: Ticker) {
    && (forall i :: 0 <= i < |ticks| ==> ticks[i].ticker == ticker)
    && (forall i, j :: 0 <= i < j < |ticks| ==> ticks[i].ts <= ticks[j].ts)
  }

  /** The open bar is the bar of the last tick. */
  lemma OpenBarIsLast(ticks: seq<Tick>, seconds: nat)
    requires seconds > 0
    ensures ticks == [] ==> Build(ticks, seconds) == Nothing
    ensures ticks != [] ==>
      var s := Build(ticks, seconds);
      var t := ticks[|ticks| - 1];
      s.current.Some? && s.current.value.ts == Bucket(t.ts, seconds)
  {
  }

  lemma {:induction false} OpenBarTicker(ticks: seq<Tick>, seconds: nat, ticker: Ticker)
    requires seconds > 0 && ticks != [] && InOrder(ticks, ticker)
    ensures Build(ticks, seconds).current.Some? && Build(ticks, seconds).current.value.ticker == ticker
  {
    hide Bucket;
    if |ticks| > 1 {
      OpenBarTicker(ticks[..|ticks| - 1], seconds, ticker);
    }
  }

  /** A tick joining both bars, or the merge of them: the same. */
  lemma GrowAfterMerge(a: Bar, b: Bar, t: Tick)
    ensures Merged(a, Grown(b, t)) == Grown(Merged(a, b), t)
  {
  }

  lemma MergeStarted(a: Bar, t: Tick, bucket: int)
    requires a.ticker == t.ticker
    ensures Merged(a, Started(t, bucket)) == Grown(a, t)
  {
  }

  lemma ResamplingAppend(bars: seq<Bar>, b: Bar, seconds: nat)
    requires seconds > 0
    ensures Resampling(bars + [b], seconds) == Joined(Resampling(bars, seconds), b, seconds)
  {
    assert (bars + [b])[..|bars|] == bars;
  }

  /** After every tick, the bars so far, resampled, are where building the longer bars has got to. */
  lemma {:induction false} BuildThenResample(ticks: seq<Tick>, ticker: Ticker, seconds: nat, k: nat)
    requires seconds > 0 && k > 0 && InOrder(ticks, ticker)
    ensures seconds * k > 0
    ensures Resampling(Build(ticks, seconds).Flushed(), seconds * k) == Build(ticks, seconds * k)
  {
    hide Bucket, Absorbed, Resampling;
    ProductPositive(seconds, k);
    if ticks == [] {
      ResamplingNothing(seconds * k);
    } else {
      var n := |ticks| - 1;
      BuildThenResample(ticks[..n], ticker, seconds, k);
      OpenBarIsLast(ticks[..n], seconds);
      OpenBarIsLast(ticks[..n], seconds * k);
      var t := ticks[n];
      BucketOfBucket(t.ts, seconds, k);
      if n > 0 {
        OpenBarTicker(ticks[..n], seconds, ticker);
        OpenBarTicker(ticks[..n], seconds * k, ticker);
        BucketOfBucket(ticks[n - 1].ts, seconds, k);
      }
      NextTick(Build(ticks[..n], seconds), Build(ticks[..n], seconds * k), t, seconds, seconds * k);
    }
  }

  lemma ProductPositive(m: nat, k: nat)
    requires m > 0 && k > 0
    ensures m * k > 0
  {
  }

  /** One more tick on both sides. */
  lemma NextTick(s: Building, l: Building, t: Tick, short: nat, long: nat)
    requires short > 0 && long > 0
    requires Resampling(s.Flushed(), long) == l
    requires s.current.None? ==> s == Nothing
    requires s.current.Some? ==> s.current.value.ticker == t.ticker
    requires s.current.Some? ==> l.current.Some? && l.current.value.ticker == t.ticker
    requires s.current.Some? ==> Bucket(s.current.value.ts as real, long) == l.current.value.ts
    requires Bucket(Bucket(t.ts, short) as real, long) == Bucket(t.ts, long)
    ensures Resampling(Absorbed(s, t, short).Flushed(), long) == Absorbed(l, t, long)
  {
    hide Bucket, Merged, Grown, Resampling;
    var b := Bucket(t.ts, short);
    StartedAt(t, b);
    StartedAt(t, Bucket(t.ts, long));
    if s.current.None? {
      ResamplingAppend([], Started(t, b), long);
      assert [] + [Started(t, b)] == [Started(t, b)];
      ResamplingNothing(long);
    } else {
      var cur := s.current.value;
      ResamplingAppend(s.done, cur, long);
      if b == cur.ts {
        ResamplingAppend(s.done, Grown(cur, t), long);
        SameBarGrows(Resampling(s.done, long), cur, t, long);
      } else {
        ResamplingAppend(s.Flushed(), Started(t, b), long);
        MergeStarted(l.current.value, t, b);
      }
    }
  }

  lemma ResamplingNothing(seconds: nat)
    requires seconds > 0
    ensures Resampling([], seconds) == Nothing
  {
  }

  lemma StartedAt(t: Tick, bucket: int)
    ensures Started(t, bucket).ts == bucket && Started(t, bucket).ticker == t.ticker
    ensures forall b: int :: Started(t, bucket).(ts := b) == Started(t, b)
  {
  }

  lemma SameBarGrows(s: Building, cur: Bar, t: Tick, long: nat)
    requires long > 0
    ensures var l := Joined(s, cur, long);
      && l.current.Some?
      && Joined(s, Grown(cur, t), long) == l.(current := Some(Grown(l.current.value, t)))
  {
    hide Bucket;
    if s.current.Some? {
      GrowAfterMerge(s.current.value, cur, t);
    }
  }

  /** Building minute bars and resampling them to any multiple equals building that resolution from the ticks. */
  lemma ResampleIsBuild(ticks: seq<Tick>, ticker: Ticker, seconds: nat, k: nat)
    requires seconds > 0 && k > 0 && InOrder(ticks, ticker)
    ensures seconds * k > 0
    ensures Resampled(Build(ticks, seconds).Flushed(), seconds * k) == Build(ticks, seconds * k).Flushed()
  {
    BuildThenResample(ticks, ticker, seconds, k);
  }

  // ------------------------------------------------------------------
  // Nothing is lost
  // ------------------------------------------------------------------

  function VolumeOf(b: Bar): real {
    b.volume
  }

  function ValueOf(b: Bar): real {
    b.value
  }

  function TickVolume(t: Tick): real {
    t.volume
  }

  function TickValue(t: Tick): real {
    t.price * t.volume
  }

  /** A tick adds its share to the total over the bars. */
  ghost predicate Adds(s: Building, t: Tick, seconds: nat, f: Bar -> real, g: Tick -> real)
    requires seconds > 0
  {
    SumBy(Absorbed(s, t, seconds).Flushed(), f) == SumBy(s.Flushed(), f) + g(t)
  }

  lemma {:induction false} TotalIsKept(ticks: seq<Tick>, seconds: nat, f: Bar -> real, g: Tick -> real)
    requires seconds > 0 && forall s, t :: Adds(s, t, seconds, f, g)
    ensures SumBy(Build(ticks, seconds).Flushed(), f) == SumBy(ticks, g)
  {
    if ticks == [] {
      assert Build(ticks, seconds).Flushed() == [];
    } else {
      var n := |ticks| - 1;
      TotalIsKept(ticks[..n], seconds, f, g);
      assert Adds(Build(ticks[..n], seconds), ticks[n], seconds, f, g);
    }
  }

  /** Every tick's volume and value is in exactly one bar. */
  lemma NothingIsLost(ticks: seq<Tick>, seconds: nat)
    requires seconds > 0
    ensures SumBy(Build(ticks, seconds).Flushed(), VolumeOf) == SumBy(ticks, TickVolume)
    ensures SumBy(Build(ticks, seconds).Flushed(), ValueOf) == SumBy(ticks, TickValue)
  {
    forall s, t
      ensures Adds(s, t, seconds, VolumeOf, TickVolume) && Adds(s, t, seconds, ValueOf, TickValue)
    {
      AbsorbedAdds(s, t, seconds);
    }
    hide Adds;
    TotalIsKept(ticks, seconds, VolumeOf, TickVolume);
    TotalIsKept(ticks, seconds, ValueOf, TickValue);
  }

  lemma AbsorbedAdds(s: Building, t: Tick, seconds: nat)
    requires seconds > 0
    ensures SumBy(Absorbed(s, t, seconds).Flushed(), VolumeOf) == SumBy(s.Flushed(), VolumeOf) + t.volume
    ensures SumBy(Absorbed(s, t, seconds).Flushed(), ValueOf) == SumBy(s.Flushed(), ValueOf) + TickValue(t)
  {
    hide Bucket, SumBy;
    var s' := Absorbed(s, t, seconds);
    var last := s'.current.value;
    SumAppend(s'.done, last, VolumeOf);
    SumAppend(s'.done, last, ValueOf);
    if s.current.Some? {
      SumAppend(s.done, s.current.value, VolumeOf);
      SumAppend(s.done, s.current.value, ValueOf);
    }
  }

  /** Bars come in strictly rising order of time, and every tick lies within the bar of its period. */
  predicate Ascending(bars: seq<Bar>) {
    forall i, j :: 0 <= i < j < |bars| ==> bars[i].ts < bars[j].ts
  }

  predicate Holds(b: Bar, t: Tick, seconds: nat)
    requires seconds > 0
  {
    b.ts == Bucket(t.ts, seconds) && b.low <= t.price <= b.high
  }

  ghost predicate HasBarFor(bars: seq<Bar>, t: Tick, seconds: nat)
    requires seconds > 0
  {
    exists b :: b in bars && Holds(b, t, seconds)
  }

  lemma {:induction false} EveryTickInItsBar(ticks: seq<Tick>, ticker: Ticker, seconds: nat)
    requires seconds > 0 && InOrder(ticks, ticker)
    ensures Ascending(Build(ticks, seconds).Flushed())
    ensures forall t :: t in ticks ==> HasBarFor(Build(ticks, seconds).Flushed(), t, seconds)
  {
    if ticks != [] {
      var n := |ticks| - 1;
      var t := ticks[n];
      EveryTickInItsBar(ticks[..n], ticker, seconds);
      OpenBarIsLast(ticks[..n], seconds);
      if n > 0 {
        BucketMonotone(ticks[n - 1].ts, t.ts, seconds);
      }
      var (before, after) := (Build(ticks[..n], seconds).Flushed(), Build(ticks, seconds).Flushed());
      hide Bucket;
      NewTickHasBar(Build(ticks[..n], seconds), t, seconds);
      forall x | x in ticks
        ensures HasBarFor(after, x, seconds)
      {
        if x != t {
          assert x in ticks[..n];
          KeepsBar(Build(ticks[..n], seconds), t, x, seconds);
        }
      }
    }
  }

  lemma NewTickHasBar(s: Building, t: Tick, seconds: nat)
    requires seconds > 0
    requires Ascending(s.Flushed()) && (s.current.None? ==> s == Nothing)
    requires s.current.Some? ==> s.current.value.ts <= Bucket(t.ts, seconds)
    ensures Ascending(Absorbed(s, t, seconds).Flushed()) && HasBarFor(Absorbed(s, t, seconds).Flushed(), t, seconds)
  {
    hide Bucket;
    var s' := Absorbed(s, t, seconds);
    assert s'.current.value in s'.Flushed() && Holds(s'.current.value, t, seconds);
    if s.current.Some? {
      assert s.Flushed()[|s.done|] == s.current.value;
      forall i | 0 <= i < |s.done|
        ensures s.done[i].ts < s.current.value.ts
      {
        assert s.Flushed()[i] == s.done[i];
      }
      forall i, j | 0 <= i < j < |s.done|
        ensures s.done[i].ts < s.done[j].ts
      {
        assert s.Flushed()[i] == s.done[i] && s.Flushed()[j] == s.done[j];
      }
    }
  }

  lemma KeepsBar(s: Building, t: Tick, x: Tick, seconds: nat)
    requires seconds > 0 && HasBarFor(s.Flushed(), x, seconds)
    ensures HasBarFor(Absorbed(s, t, seconds).Flushed(), x, seconds)
  {
    hide Bucket;
    var s' := Absorbed(s, t, seconds);
    var b :| b in s.Flushed() && Holds(b, x, seconds);
    if b in s.done {
      assert b in s'.Flushed();
    } else if Bucket(t.ts, seconds) == b.ts {
      assert Grown(b, t) in s'.Flushed() && Holds(Grown(b, t), x, seconds);
    } else {
      assert b in s'.Flushed();
    }
  }

  // ------------------------------------------------------------------
  // What a bar says
  // ------------------------------------------------------------------

  /** The ticks of one period, in order. */
  function InPeriod(ticks: seq<Tick>, start: int, seconds: nat): seq<Tick>
    requires seconds > 0
  {
    if ticks == [] then [] else
    var n := |ticks| - 1;
    InPeriod(ticks[..n], start, seconds) + if Bucket(ticks[n].ts, seconds) == start then [ticks[n]] else []
  }

  /** First, last, highest and lowest price, and the totals. */
  ghost predicate IsSummary(b: Bar, xs: seq<Tick>) {
    && xs != [] && b.open == xs[0].price && b.close == xs[|xs| - 1].price
    && (forall x :: x in xs ==> b.low <= x.price <= b.high)
    && (exists x :: x in xs && x.price == b.high) && (exists x :: x in xs && x.price == b.low)
    && b.volume == SumBy(xs, TickVolume) && b.value == SumBy(xs, TickValue)
  }

  lemma StartedIsSummary(t: Tick, bucket: int)
    ensures IsSummary(Started(t, bucket), [t])
  {
    assert [] + [t] == [t];
    SumAppend([], t, TickVolume);
    SumAppend([], t, TickValue);
    assert t in [t];
  }

  lemma GrownIsSummary(b: Bar, xs: seq<Tick>, t: Tick)
    requires IsSummary(b, xs)
    ensures IsSummary(Grown(b, t), xs + [t])
  {
    SumAppend(xs, t, TickVolume);
    SumAppend(xs, t, TickValue);
    hide SumBy;
    var hi :| hi in xs && hi.price == b.high;
    var lo :| lo in xs && lo.price == b.low;
    assert t in xs + [t] && hi in xs + [t] && lo in xs + [t];
    assert Grown(b, t).high == t.price || Grown(b, t).high == hi.price;
    assert Grown(b, t).low == t.price || Grown(b, t).low == lo.price;
  }

  lemma {:induction false} NoTickYet(ticks: seq<Tick>, start: int, seconds: nat)
    requires seconds > 0 && forall i :: 0 <= i < |ticks| ==> Bucket(ticks[i].ts, seconds) < start
    ensures InPeriod(ticks, start, seconds) == []
  {
    if ticks != [] {
      NoTickYet(ticks[..|ticks| - 1], start, seconds);
    }
  }

  ghost predicate AllSummaries(bars: seq<Bar>, ticks: seq<Tick>, seconds: nat)
    requires seconds > 0
  {
    forall b :: b in bars ==> IsSummary(b, InPeriod(ticks, b.ts, seconds))
  }

  /** Every bar is the summary of exactly the ticks of its period. */
  lemma {:induction false} EveryBarIsSummary(ticks: seq<Tick>, ticker: Ticker, seconds: nat)
    requires seconds > 0 && InOrder(ticks, ticker)
    ensures AllSummaries(Build(ticks, seconds).Flushed(), ticks, seconds)
  {
    if ticks != [] {
      var init := ticks[..|ticks| - 1];
      PrefixInOrder(ticks, ticker);
      hide AllSummaries, Build, InOrder;
      EveryBarIsSummary(init, ticker, seconds);
      SplitLast(ticks);
      OneMoreTick(init, ticks[|ticks| - 1], ticker, seconds);
    }
  }

  lemma PrefixInOrder(ticks: seq<Tick>, ticker: Ticker)
    requires InOrder(ticks, ticker) && ticks != []
    ensures InOrder(ticks[..|ticks| - 1], ticker)
  {
  }

  lemma OneMoreTick(init: seq<Tick>, t: Tick, ticker: Ticker, seconds: nat)
    requires seconds > 0 && InOrder(init, ticker) && InOrder(init + [t], ticker)
    requires AllSummaries(Build(init, seconds).Flushed(), init, seconds)
    ensures AllSummaries(Build(init + [t], seconds).Flushed(), init + [t], seconds)
  {
    hide Bucket, AllSummaries, Absorbed, Ascending;
    EveryTickInItsBar(init, ticker, seconds);
    OpenBarIsLast(init, seconds);
    BucketsRise(init, t, ticker, seconds);
    BuildAppend(init, t, seconds);
    hide Build, InOrder;
    NextSummaries(Build(init, seconds), init, t, seconds);
  }

  lemma BuildAppend(init: seq<Tick>, t: Tick, seconds: nat)
    requires seconds > 0
    ensures Build(init + [t], seconds) == Absorbed(Build(init, seconds), t, seconds)
  {
    hide Absorbed;
    assert (init + [t])[..|init|] == init;
  }

  /** No tick is in a later period than the ticks after it. */
  lemma BucketsRise(init: seq<Tick>, t: Tick, ticker: Ticker, seconds: nat)
    requires seconds > 0 && InOrder(init + [t], ticker)
    ensures init != [] ==> Bucket(init[|init| - 1].ts, seconds) <= Bucket(t.ts, seconds)
    ensures forall i :: 0 <= i < |init| ==> Bucket(init[i].ts, seconds) <= Bucket(init[|init| - 1].ts, seconds)
  {
    hide Bucket;
    var ticks := init + [t];
    forall i | 0 <= i < |init|
      ensures Bucket(init[i].ts, seconds) <= Bucket(init[|init| - 1].ts, seconds) <= Bucket(t.ts, seconds)
    {
      assert ticks[i] == init[i] && ticks[|init| - 1] == init[|init| - 1] && ticks[|init|] == t;
      BucketMonotone(init[i].ts, init[|init| - 1].ts, seconds);
      BucketMonotone(init[|init| - 1].ts, t.ts, seconds);
    }
  }

  lemma InPeriodAppend(ticks: seq<Tick>, t: Tick, start: int, seconds: nat)
    requires seconds > 0
    ensures InPeriod(ticks + [t], start, seconds)
         == InPeriod(ticks, start, seconds) + if Bucket(t.ts, seconds) == start then [t] else []
  {
    assert (ticks + [t])[..|ticks|] == ticks;
  }

  lemma NextSummaries(s: Building, ticks: seq<Tick>, t: Tick, seconds: nat)
    requires seconds > 0 && AllSummaries(s.Flushed(), ticks, seconds) && Ascending(s.Flushed())
    requires s.current.None? ==> s == Nothing && ticks == []
    requires s.current.Some? ==> s.current.value.ts <= Bucket(t.ts, seconds)
    requires s.current.Some? ==> forall i :: 0 <= i < |ticks| ==> Bucket(ticks[i].ts, seconds) <= s.current.value.ts
    ensures AllSummaries(Absorbed(s, t, seconds).Flushed(), ticks + [t], seconds)
  {
    hide Bucket, IsSummary, InPeriod, Grown, Started;
    var bucket := Bucket(t.ts, seconds);
    var s' := Absorbed(s, t, seconds);
    StartedAt(t, bucket);
    StartedIsSummary(t, bucket);
    forall b | b in s'.Flushed()
      ensures IsSummary(b, InPeriod(ticks + [t], b.ts, seconds))
    {
      InPeriodAppend(ticks, t, b.ts, seconds);
      if b in s.Flushed() && b.ts < bucket {
        assert InPeriod(ticks, b.ts, seconds) + [] == InPeriod(ticks, b.ts, seconds);
      } else {
        NewOrGrown(s, ticks, t, b, seconds);
      }
    }
  }

  lemma NewOrGrown(s: Building, ticks: seq<Tick>, t: Tick, b: Bar, seconds: nat)
    requires seconds > 0 && AllSummaries(s.Flushed(), ticks, seconds) && Ascending(s.Flushed())
    requires s.current.None? ==> s == Nothing && ticks == []
    requires s.current.Some? ==> s.current.value.ts <= Bucket(t.ts, seconds)
    requires s.current.Some? ==> forall i :: 0 <= i < |ticks| ==> Bucket(ticks[i].ts, seconds) <= s.current.value.ts
    requires b in Absorbed(s, t, seconds).Flushed() && !(b in s.Flushed() && b.ts < Bucket(t.ts, seconds))
    ensures b.ts == Bucket(t.ts, seconds) && IsSummary(b, InPeriod(ticks, b.ts, seconds) + [t])
  {
    hide Bucket, IsSummary, InPeriod;
    var bucket := Bucket(t.ts, seconds);
    assert forall x :: x in s.done ==> x in s.Flushed() && x.ts < s.current.value.ts by {
      forall i | 0 <= i < |s.done|
        ensures s.done[i] in s.Flushed() && s.done[i].ts < s.current.value.ts
      {
        assert s.Flushed()[i] == s.done[i] && s.Flushed()[|s.done|] == s.current.value;
      }
    }
    if s.current.Some? && s.current.value.ts == bucket {
      var cur := s.current.value;
      assert cur in s.Flushed();
      GrownIsSummary(cur, InPeriod(ticks, bucket, seconds), t);
      assert Grown(cur, t).ts == bucket;
      assert b == Grown(cur, t);
    } else {
      NoTickYet(ticks, bucket, seconds);
      StartedIsSummary(t, bucket);
      assert s.current.Some? ==> s.current.value in s.Flushed();
      assert b == Started(t, bucket);
      assert [] + [t] == [t];
    }
  }
}
