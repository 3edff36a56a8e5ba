/**
 Domestic price ticks and the notional cap on entries. A price is aligned before an order is sized and once more when
 it is sent; the second alignment must not move it, or the cap the size was cut to would be broken.
 */
module TickSize {
  import opened Domain

  /** Upper bound of each price band and the tick used below it; the top tick is used above the last. */
  const BANDS: seq<(real, real)> :=
    [(2000.0, 5.0), (5000.0, 5.0), (20000.0, 10.0), (50000.0, 50.0), (200000.0, 100.0), (500000.0, 500.0)]
  const TOP_TICK := 1000.0

  function BandTick(price: real, bands: seq<(real, real)>): real {
    if bands == [] then TOP_TICK else if price < bands[0].0 then bands[0].1 else BandTick(price, bands[1..])
  }

  /** The tick of a price: the first band it falls below. */
  function TickOf(price: real): (tick: real)
    ensures tick == Tick(price) as real
  {
    TableIsCases(price);
    BandTick(price, BANDS)
  }

  /** The table read as cases. */
  function Tick(price: real): (tick: int)
    ensures tick > 0
  {
    if price < 5000.0 then 5
    else if price < 20000.0 then 10
    else if price < 50000.0 then 50
    else if price < 200000.0 then 100
    else if price < 500000.0 then 500
    else 1000
  }

  lemma TableIsCases(price: real)
    ensures BandTick(price, BANDS) == Tick(price) as real
  {
    var b1 := BANDS[1..];
    var b2 := b1[1..];
    var b3 := b2[1..];
    var b4 := b3[1..];
    var b5 := b4[1..];
    assert BandTick(price, b5[1..]) == TOP_TICK;
    assert BandTick(price, b4) == if price < 200000.0 then 100.0 else BandTick(price, b5);
    assert BandTick(price, b2) == if price < 20000.0 then 10.0 else BandTick(price, b3);
    assert BandTick(price, b1) == if price < 5000.0 then 5.0 else BandTick(price, b2);
  }

  function Ceil(x: real): int {
    -((-x).Floor)
  }

  /** Whole number towards zero. */
  function RoundDown(x: real): int {
    if x >= 0.0 then x.Floor else Ceil(x)
  }

  /** Whole number away from zero. */
  function RoundUp(x: real): int {
    if x >= 0.0 then Ceil(x) else x.Floor
  }

  function Steps(price: real, side: Side): int {
    if side.Buy? then RoundUp(price / TickOf(price)) else RoundDown(price / TickOf(price))
  }

  function Times(a: real, b: real): real {
    a * b
  }

  /** Buys are aligned up, sells down, and never below one tick. */
  function RoundToTick(price: real, side: Side): real {
    Max(Times(Steps(price, side) as real, TickOf(price)), TickOf(price))
  }

  // ------------------------------------------------------------------
  // What alignment does
  // ------------------------------------------------------------------

  function BandLow(price: real): int {
    if price < 5000.0 then 0
    else if price < 20000.0 then 5000
    else if price < 50000.0 then 20000
    else if price < 200000.0 then 50000
    else if price < 500000.0 then 200000
    else 500000
  }

  predicate OnTick(price: real) {
    price.Floor as real == price && price.Floor % Tick(price) == 0
  }

  lemma Scale(a: real, b: real, t: real)
    requires t > 0.0
    ensures a <= b <==> Times(a, t) <= Times(b, t)
  {
    if a <= b {
      assert (b - a) * t >= 0.0;
    } else {
      assert (a - b) * t > 0.0;
    }
  }

  lemma TimesNext(n: real, t: real)
    ensures Times(n + 1.0, t) == Times(n, t) + t && Times(n - 1.0, t) == Times(n, t) - t
    ensures Times(0.0, t) == 0.0 && Times(1.0, t) == t
  {
  }

  lemma QuotientTimes(a: real, t: real)
    requires t > 0.0
    ensures Times(a / t, t) == a
  {
  }

  lemma QuotientBracket(price: real, t: real, x: real)
    requires t > 0.0 && price > 0.0 && Times(x, t) == price
    ensures x >= 0.0
    ensures Times(RoundDown(x) as real, t) <= price < Times(RoundDown(x) as real, t) + t
    ensures Times(RoundUp(x) as real, t) - t < price <= Times(RoundUp(x) as real, t)
  {
    hide Times;
    TimesNext(0.0, t);
    Scale(x, 0.0, t);
    var n := RoundDown(x) as real;
    Scale(n, x, t);
    Scale(n + 1.0, x, t);
    TimesNext(n, t);
    var m := RoundUp(x) as real;
    Scale(x, m, t);
    Scale(x, m - 1.0, t);
    TimesNext(m, t);
  }

  /** The aligned steps bracket the price from the side that makes the order fill. */
  lemma StepsBracket(price: real, side: Side)
    requires price > 0.0
    ensures var t := TickOf(price); var r := Times(Steps(price, side) as real, t);
            if side.Buy? then price <= r < price + t else price - t < r <= price
    ensures Steps(price, side) >= 0
  {
    hide Times;
    var t := TickOf(price);
    QuotientTimes(price, t);
    QuotientBracket(price, t, price / t);
  }

  function BandHigh(price: real): int
    requires price < 500000.0
  {
    if price < 5000.0 then 5000
    else if price < 20000.0 then 20000
    else if price < 50000.0 then 50000
    else if price < 200000.0 then 200000
    else 500000
  }

  predicate IsTick(t: int) {
    t == 5 || t == 10 || t == 50 || t == 100 || t == 500 || t == 1000
  }

  lemma MultipleModulo(n: int, t: int)
    requires IsTick(t)
    ensures (n * t) % t == 0
  {
    if t == 5 {
      assert (n * 5) % 5 == 0;
    } else if t == 10 {
      assert (n * 10) % 10 == 0;
    } else if t == 50 {
      assert (n * 50) % 50 == 0;
    } else if t == 100 {
      assert (n * 100) % 100 == 0;
    } else if t == 500 {
      assert (n * 500) % 500 == 0;
    } else {
      assert (n * 1000) % 1000 == 0;
    }
  }

  /** Band borders are whole multiples of the ticks on both sides, so aligning never jumps over a border. */
  lemma StaysInBand(price: real, n: int)
    requires price > 0.0
    ensures price < ((n + 1) * Tick(price)) as real ==> n * Tick(price) >= BandLow(price)
    ensures price < 500000.0 && ((n - 1) * Tick(price)) as real < price ==> n * Tick(price) <= BandHigh(price)
  {
  }

  /** A positive multiple of the price's tick that does not leave its band, the upper border included, is on tick. */
  lemma MultipleIsOnTick(price: real, n: int)
    requires n >= 1 && BandLow(price) <= n * Tick(price)
    requires price < 500000.0 ==> n * Tick(price) <= BandHigh(price)
    ensures OnTick((n * Tick(price)) as real)
  {
    var v := n * Tick(price);
    MultipleModulo(n, Tick(price));
    BorderDivides(v, price);
  }

  lemma BorderDivides(v: int, price: real)
    requires BandLow(price) <= v && v % Tick(price) == 0
    requires price < 500000.0 ==> v <= BandHigh(price)
    ensures OnTick(v as real)
  {
    assert (v as real).Floor == v;
  }

  /** The number of ticks an aligned price is worth, in the tick of the price it came from. */
  function AlignedSteps(price: real, side: Side): int {
    if Steps(price, side) < 1 then 1 else Steps(price, side)
  }

  lemma AlignedIsMultiple(price: real, side: Side)
    ensures RoundToTick(price, side) == (AlignedSteps(price, side) * Tick(price)) as real
  {
    hide Times;
    var n := Steps(price, side);
    Scale(n as real, 1.0, TickOf(price));
    TimesNext(0.0, TickOf(price));
    IntProduct(n, Tick(price));
  }

  lemma IntProduct(n: int, t: int)
    ensures (n * t) as real == Times(n as real, t as real)
  {
  }

  /** Aligned prices are valid ticks of the band they land in. */
  lemma LandsOnTick(price: real, side: Side)
    ensures OnTick(RoundToTick(price, side)) && RoundToTick(price, side) >= 5.0
  {
    var n := AlignedSteps(price, side);
    hide Times;
    AlignedIsMultiple(price, side);
    TimesNext(0.0, TickOf(price));
    Scale(1.0, n as real, TickOf(price));
    IntProduct(n, Tick(price));
    if price > 0.0 {
      StepsBracket(price, side);
      IntProduct(Steps(price, side), Tick(price));
      NextSteps(n, Tick(price));
      StaysInBand(price, n);
      MultipleIsOnTick(price, n);
    } else {
      NonPositiveSteps(price, side);
      MultipleIsOnTick(price, 1);
    }
  }

  lemma NextSteps(n: int, t: int)
    ensures (n + 1) * t == n * t + t && (n - 1) * t == n * t - t
  {
  }

  lemma NonPositiveSteps(price: real, side: Side)
    requires price <= 0.0
    ensures Steps(price, side) <= 0
  {
    hide Times;
    QuotientTimes(price, TickOf(price));
    TimesNext(0.0, TickOf(price));
    Scale(price / TickOf(price), 0.0, TickOf(price));
  }

  /** Aligning an aligned price changes nothing, whichever side asks. */
  lemma OnTickIsFixed(price: real, side: Side)
    requires OnTick(price) && price >= 5.0
    ensures RoundToTick(price, side) == price
  {
    hide Times;
    var t := Tick(price);
    var n := price.Floor / t;
    assert price.Floor == n * t;
    var k := Steps(price, side);
    StepsBracket(price, side);
    IntProduct(n, t);
    IntProduct(k, t);
    SameMultiple(n, k, t);
    AlignedIsMultiple(price, side);
    TimesNext(0.0, t as real);
    Scale(1.0, n as real, t as real);
  }

  lemma IntScale(a: int, b: int, t: int)
    requires t > 0 && a <= b
    ensures a * t <= b * t
  {
    assert (b - a) * t >= 0;
  }

  lemma SameMultiple(n: int, k: int, t: int)
    requires t > 0 && -t < k * t - n * t < t
    ensures k == n
  {
    NextSteps(n, t);
    if k > n {
      IntScale(n + 1, k, t);
    } else if k < n {
      IntScale(k, n - 1, t);
    }
  }

  /** Idempotent across all bands. */
  lemma AlignmentIsIdempotent(price: real, side: Side, again: Side)
    ensures RoundToTick(RoundToTick(price, side), again) == RoundToTick(price, side)
  {
    LandsOnTick(price, side);
    OnTickIsFixed(RoundToTick(price, side), again);
  }

  /** A buy moves up and a sell down by less than one tick, except that nothing goes below the smallest tick. */
  lemma MovesLessThanOneTick(price: real, side: Side)
    ensures price > 0.0 && side.Buy? ==> price <= RoundToTick(price, Buy) < price + TickOf(price)
    ensures price >= 5.0 && side.Sell? ==> price - TickOf(price) < RoundToTick(price, Sell) <= price
    ensures price <= 0.0 || (side.Sell? && price < 5.0) ==> RoundToTick(price, side) == 5.0
  {
    hide Times;
    AlignedIsMultiple(price, side);
    TimesNext(0.0, TickOf(price));
    if price > 0.0 {
      StepsBracket(price, side);
      IntProduct(Steps(price, side), Tick(price));
      if Steps(price, side) < 1 {
        Scale(Steps(price, side) as real, 0.0, TickOf(price));
      }
    } else {
      NonPositiveSteps(price, side);
    }
  }

  /** An aligned price stays between the borders of the band its raw price was in. */
  lemma AlignedInBand(price: real, side: Side)
    ensures RoundToTick(price, side) >= BandLow(price) as real
    ensures price < 500000.0 ==> RoundToTick(price, side) <= BandHigh(price) as real
  {
    AlignedIsMultiple(price, side);
    MovesLessThanOneTick(price, side);
    if price >= 5.0 {
      StaysInBand(price, AlignedSteps(price, side));
      NextSteps(AlignedSteps(price, side), Tick(price));
    }
  }

  /** A higher price is never aligned below a lower one. */
  lemma AlignmentIsMonotone(p: real, q: real, side: Side)
    requires p <= q
    ensures RoundToTick(p, side) <= RoundToTick(q, side)
  {
    AlignedInBand(p, side);
    AlignedInBand(q, side);
    MovesLessThanOneTick(p, side);
    MovesLessThanOneTick(q, side);
    LandsOnTick(q, side);
    if BandLow(p) == BandLow(q) {
      SameTickMonotone(p, q, side);
    }
  }

  lemma SameTickMonotone(p: real, q: real, side: Side)
    requires p <= q && Tick(p) == Tick(q)
    ensures RoundToTick(p, side) <= RoundToTick(q, side)
  {
    hide Times;
    var t := TickOf(p);
    QuotientTimes(p, t);
    QuotientTimes(q, t);
    Scale(p / t, q / t, t);
    assert Steps(p, side) <= Steps(q, side);
    Scale(Steps(p, side) as real, Steps(q, side) as real, t);
  }

  // ------------------------------------------------------------------
  // The cap
  // ------------------------------------------------------------------

  /** Shrink an entry so that its value fits the cap; fractional shares exist overseas only. */
  function CapEntryQty(qty: real, overseas: bool, price: real, fx: real, cap: Option<real>): real {
    if cap.None? || price <= 0.0 || fx <= 0.0 then qty
    else if price * qty * fx <= cap.value then qty
    else
      var capped := cap.value / (price * fx);
      Max(if overseas then capped else RoundDown(capped) as real, 0.0)
  }

  lemma Regroup(price: real, qty: real, fx: real)
    ensures price * qty * fx == Times(qty, price * fx)
  {
  }

  lemma UnitPositive(price: real, fx: real)
    requires price > 0.0 && fx > 0.0
    ensures price * fx > 0.0
  {
  }

  /** The capped quantity fits the cap and is not more than asked. */
  lemma CappedFits(qty: real, overseas: bool, price: real, fx: real, cap: real)
    requires price > 0.0 && fx > 0.0 && cap >= 0.0
    ensures price * CapEntryQty(qty, overseas, price, fx, Some(cap)) * fx <= cap
    ensures CapEntryQty(qty, overseas, price, fx, Some(cap)) <= qty || qty < 0.0
  {
    hide Times;
    var unit := price * fx;
    UnitPositive(price, fx);
    Regroup(price, qty, fx);
    if price * qty * fx > cap {
      var most := cap / unit;
      var q := CapEntryQty(qty, overseas, price, fx, Some(cap));
      QuotientTimes(cap, unit);
      TimesNext(0.0, unit);
      Scale(0.0, most, unit);
      assert q <= most;
      Regroup(price, q, fx);
      Scale(q, most, unit);
      Scale(most, qty, unit);
    }
  }

  /** Among whole share counts that fit the cap, the capped count is the largest not above what was asked. */
  lemma CappedIsLargest(qty: real, price: real, fx: real, cap: real, other: int)
    requires price > 0.0 && fx > 0.0 && cap >= 0.0
    requires 0.0 <= other as real <= qty && price * other as real * fx <= cap
    ensures other as real <= CapEntryQty(qty, false, price, fx, Some(cap))
  {
    hide Times;
    var unit := price * fx;
    UnitPositive(price, fx);
    if price * qty * fx > cap {
      Regroup(price, other as real, fx);
      QuotientTimes(cap, unit);
      Scale(other as real, cap / unit, unit);
      FloorKeeps(other, cap / unit);
    }
  }

  lemma FloorKeeps(n: int, x: real)
    requires 0.0 <= n as real <= x
    ensures n <= RoundDown(x)
  {
  }

  /** Aligned, cut to the cap, aligned again on the way out: a domestic entry still fits the cap. */
  lemma CappedOrderStaysCapped(close: real, qty: real, fx: real, cap: real)
    requires fx > 0.0 && cap >= 0.0
    ensures var px := RoundToTick(close, Buy);
            var sent := RoundToTick(px, Buy);
            sent * CapEntryQty(qty, false, px, fx, Some(cap)) * fx <= cap
  {
    AlignmentIsIdempotent(close, Buy, Buy);
    LandsOnTick(close, Buy);
    hide RoundToTick, CapEntryQty, Tick;
    CappedAtPrice(RoundToTick(close, Buy), RoundToTick(RoundToTick(close, Buy), Buy), qty, fx, cap);
  }

  lemma CappedAtPrice(px: real, sent: real, qty: real, fx: real, cap: real)
    requires sent == px && px > 0.0 && fx > 0.0 && cap >= 0.0
    ensures sent * CapEntryQty(qty, false, px, fx, Some(cap)) * fx <= cap
  {
    CappedFits(qty, false, px, fx, cap);
  }
}
