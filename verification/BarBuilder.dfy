/** The bar builder as an object: many tickers at once, each as if it were alone. */
module BarBuilder {
  import opened Domain
  import opened Bars

  datatype TickResult = Completed(bars: seq<Bar>) | OutOfOrder

  function OpenOf(open: map<Ticker, Bar>, ticker: Ticker): Option<Bar> {
    if ticker in open then Some(open[ticker]) else None
  }

  /** The tick is before the ticker's open bar. */
  predicate IsLate(open: map<Ticker, Bar>, t: Tick, seconds: nat)
    requires seconds > 0
  {
    t.ticker in open && Bucket(t.ts, seconds) < open[t.ticker].ts
  }

  /** The tick's own ticker before and after it. */
  function Advanced(open: map<Ticker, Bar>, t: Tick, seconds: nat): Building
    requires seconds > 0
  {
    Absorbed(Building([], OpenOf(open, t.ticker)), t, seconds)
  }

  class Builder {
    const seconds: nat
    var open: map<Ticker, Bar>

    ghost predicate Valid()
      reads this
    {
      seconds > 0 && forall t :: t in open ==> open[t].ticker == t
    }

    constructor (seconds: nat)
      requires seconds > 0
      ensures Valid() && this.seconds == seconds && open == map[]
    {
      this.seconds := seconds;
      open := map[];
    }

    /** A late tick raises and changes nothing; any other moves its own ticker on, and only that. */
    method OnTick(t: Tick) returns (r: TickResult)
      requires Valid()
      modifies this`open
      ensures Valid()
      ensures r.OutOfOrder? <==> IsLate(old(open), t, seconds)
      ensures r.OutOfOrder? ==> open == old(open)
      ensures r.Completed? ==>
        var s := Advanced(old(open), t, seconds);
        s.current.Some? && r.bars == s.done && open == old(open)[t.ticker := s.current.value]
    {
      hide Bucket;
      var bucket := Bucket(t.ts, seconds);
      if t.ticker !in open {
        open := open[t.ticker := Started(t, bucket)];
        return Completed([]);
      }
      var ob := open[t.ticker];
      if bucket == ob.ts {
        open := open[t.ticker := Grown(ob, t)];
        return Completed([]);
      }
      if bucket < ob.ts {
        return OutOfOrder;
      }
      open := open[t.ticker := Started(t, bucket)];
      r := Completed([ob]);
    }

    /** Close one ticker's open bar. */
    method FlushOne(ticker: Ticker) returns (out: seq<Bar>)
      requires Valid()
      modifies this`open
      ensures Valid() && open == old(open) - {ticker}
      ensures out == if ticker in old(open) then [old(open)[ticker]] else []
    {
      out := if ticker in open then [open[ticker]] else [];
      open := open - {ticker};
    }

    /** Close all open bars, each once. */
    method FlushAll() returns (out: seq<Bar>)
      requires Valid()
      modifies this`open
      ensures Valid() && open == map[]
      ensures forall t :: BarsOf(out, t) == if t in old(open) then [old(open)[t]] else []
    {
      out := [];
      ghost var before := open;
      while open.Keys != {}
        invariant Valid() && open.Keys <= before.Keys && forall t :: t in open ==> open[t] == before[t]
        invariant forall t :: BarsOf(out, t) == if t in before && t !in open then [before[t]] else []
        decreases |open.Keys|
      {
        var t :| t in open.Keys;
        assert (out + [open[t]])[..|out|] == out;
        out := out + [open[t]];
        open := open - {t};
      }
    }
  }

  // ------------------------------------------------------------------
  // Tickers do not mix
  // ------------------------------------------------------------------

  /** Bars emitted so far and bars open. */
  datatype Board = Board(done: seq<Bar>, open: map<Ticker, Bar>)

  /** What OnTick does to the board, a late tick aside. */
  function Fed(b: Board, t: Tick, seconds: nat): Board
    requires seconds > 0
  {
    var s := Advanced(b.open, t, seconds);
    Board(b.done + s.done, b.open[t.ticker := s.current.value])
  }

  function FeedAll(ticks: seq<Tick>, seconds: nat): Board
    requires seconds > 0
  {
    if ticks == [] then Board([], map[]) else Fed(FeedAll(ticks[..|ticks| - 1], seconds), ticks[|ticks| - 1], seconds)
  }

  function TicksOf(ticks: seq<Tick>, ticker: Ticker): seq<Tick> {
    if ticks == [] then [] else
    var n := |ticks| - 1;
    TicksOf(ticks[..n], ticker) + if ticks[n].ticker == ticker then [ticks[n]] else []
  }

  function BarsOf(bars: seq<Bar>, ticker: Ticker): seq<Bar> {
    if bars == [] then [] else
    var n := |bars| - 1;
    BarsOf(bars[..n], ticker) + if bars[n].ticker == ticker then [bars[n]] else []
  }

  lemma {:induction false} BarsOfConcat(xs: seq<Bar>, ys: seq<Bar>, ticker: Ticker)
    ensures BarsOf(xs + ys, ticker) == BarsOf(xs, ticker) + BarsOf(ys, ticker)
  {
    if ys == [] {
      assert xs + ys == xs;
    } else {
      var n := |ys| - 1;
      assert (xs + ys)[..|xs + ys| - 1] == xs + ys[..n];
      BarsOfConcat(xs, ys[..n], ticker);
    }
  }

  /** What a stream of many tickers gives for one of them is what that ticker's ticks alone would give. */
  lemma {:induction false} TickersDoNotMix(ticks: seq<Tick>, ticker: Ticker, seconds: nat)
    requires seconds > 0
    ensures var b := FeedAll(ticks, seconds);
      && Building(BarsOf(b.done, ticker), OpenOf(b.open, ticker)) == Build(TicksOf(ticks, ticker), seconds)
      && (forall t :: t in b.open ==> b.open[t].ticker == t)
  {
    hide Bucket, Absorbed;
    if ticks != [] {
      var n := |ticks| - 1;
      TickersDoNotMix(ticks[..n], ticker, seconds);
      var b := FeedAll(ticks[..n], seconds);
      var t := ticks[n];
      var s := Advanced(b.open, t, seconds);
      BarsOfConcat(b.done, s.done, ticker);
      AdvancedBars(b.open, t, ticker, seconds);
      if t.ticker == ticker {
        var own := TicksOf(ticks[..n], ticker);
        assert (own + [t])[..|own|] == own;
        AbsorbedBehind(Build(own, seconds), t, seconds);
      } else {
        assert TicksOf(ticks, ticker) == TicksOf(ticks[..n], ticker);
      }
    }
  }

  /** Bars already emitted play no part. */
  lemma AbsorbedBehind(s: Building, t: Tick, seconds: nat)
    requires seconds > 0
    ensures var r := Absorbed(s.(done := []), t, seconds);
      Absorbed(s, t, seconds) == r.(done := s.done + r.done)
  {
    hide Bucket;
  }

  lemma AdvancedBars(open: map<Ticker, Bar>, t: Tick, ticker: Ticker, seconds: nat)
    requires seconds > 0 && forall k :: k in open ==> open[k].ticker == k
    ensures var s := Advanced(open, t, seconds);
      s.current.Some? && s.current.value.ticker == t.ticker && BarsOf(s.done, ticker) == if t.ticker == ticker then s.done else []
  {
    hide Bucket;
    var s := Advanced(open, t, seconds);
    if s.done != [] {
      assert s.done == [open[t.ticker]] && s.done[..0] == [];
    }
  }

  /** Every ticker's ticks come in order of time. */
  predicate InOrderPerTicker(ticks: seq<Tick>) {
    forall i, j :: 0 <= i < j < |ticks| && ticks[i].ticker == ticks[j].ticker ==> ticks[i].ts <= ticks[j].ts
  }

  lemma {:induction false} LastOfTicker(ticks: seq<Tick>, t: Tick)
    requires InOrderPerTicker(ticks + [t])
    ensures var own := TicksOf(ticks, t.ticker);
      own != [] ==> own[|own| - 1].ts <= t.ts
  {
    if ticks != [] {
      var n := |ticks| - 1;
      var all := ticks + [t];
      assert all[n] == ticks[n] && all[|ticks|] == t;
      forall i, j | 0 <= i < j < |ticks[..n] + [t]| && (ticks[..n] + [t])[i].ticker == (ticks[..n] + [t])[j].ticker
        ensures (ticks[..n] + [t])[i].ts <= (ticks[..n] + [t])[j].ts
      {
        assert (ticks[..n] + [t])[i] == all[i];
        assert (ticks[..n] + [t])[j] == if j < n then all[j] else all[|ticks|];
      }
      LastOfTicker(ticks[..n], t);
    }
  }

  /** A stream in order never raises: no tick is ever before its ticker's open bar. */
  lemma InOrderNeverRaises(ticks: seq<Tick>, t: Tick, seconds: nat)
    requires seconds > 0 && InOrderPerTicker(ticks + [t])
    ensures !IsLate(FeedAll(ticks, seconds).open, t, seconds)
  {
    var own := TicksOf(ticks, t.ticker);
    TickersDoNotMix(ticks, t.ticker, seconds);
    OpenBarIsLast(own, seconds);
    LastOfTicker(ticks, t);
    if own != [] {
      BucketMonotone(own[|own| - 1].ts, t.ts, seconds);
    }
  }
}
