/** Replaying a tape: simulated fills, the cash they move, and the trades they close. No money appears or disappears. */
module Backtest {
  import opened Domain
  import opened Sums
  import opened SeqSums
  import opened Position
  import opened Costs

  type Ticker = nat

  datatype IntentKind = Enter | Add | Trim | Exit | Hold

  datatype Intent = Intent(kind: IntentKind, side: Side, qty: Option<real>, fraction: Option<real>)

  /** Everything bought and sold for one lot. */
  datatype Track = Track(
    buyQty: real, buyNotional: real, buyFee: real, sellQty: real, sellNotional: real, sellFee: real, sellTax: real)
  {
    /** Cash the lot has brought in so far, net of what it took. */
    function Flow(): real {
      sellNotional - sellFee - sellTax - buyNotional - buyFee
    }
  }

  const EmptyTrack := Track(0.0, 0.0, 0.0, 0.0, 0.0, 0.0, 0.0)

  datatype Trade = Trade(
    ticker: Ticker, entryPrice: real, exitPrice: real, qty: real, grossPnl: real, fees: real, tax: real, netPnl: real)

  /** A ticker's current lot with its track. */
  datatype Slot = Slot(lot: Lot, track: Track)

  const FreshSlot := Slot(NewLot, EmptyTrack)

  datatype Bar = Bar(ticker: Ticker, high: real, close: real)

  function Ratio(notional: real, qty: real): real {
    if qty > 0.0 then notional / qty else 0.0
  }

  function MakeTrade(t: Ticker, k: Track): Trade {
    Trade(t, Ratio(k.buyNotional, k.buyQty), Ratio(k.sellNotional, k.sellQty), k.buyQty,
          k.sellNotional - k.buyNotional, k.buyFee + k.sellFee, k.sellTax, k.Flow())
  }

  // ------------------------------------------------------------------
  // One intent
  // ------------------------------------------------------------------

  datatype Outcome = Outcome(slot: Slot, cash: real, trade: Option<Trade>)

  function Asked(i: Intent): real {
    if i.qty.Some? then i.qty.value else 0.0
  }

  /** An exit sells everything; a trim its own quantity or its fraction of all that was bought. */
  function SellQty(i: Intent, s: Slot): real {
    var wanted := if i.kind.Exit? then s.lot.qty
                  else if i.qty.Some? then i.qty.value
                  else (if i.fraction.Some? then i.fraction.value else 0.0) * s.track.buyQty;
    Min(wanted, s.lot.qty)
  }

  /** A buy for which the cash suffices. */
  predicate Buys(cost: CostModel, i: Intent, close: real, cash: real) {
    var notional := Notional(cost.BuyPrice(close), Asked(i));
    i.side.Buy? && Asked(i) > 0.0 && cash >= notional + cost.Fee(notional)
  }

  function AfterBuy(cost: CostModel, i: Intent, s: Slot, close: real, cash: real): Outcome {
    var price := cost.BuyPrice(close);
    var notional := Notional(price, Asked(i));
    var fee := cost.Fee(notional);
    Outcome(Slot(AfterFill(s.lot, FillEvent(Buy, Asked(i), price, 0.0, 0.0, i.kind.Add?)),
                 s.track.(buyQty := s.track.buyQty + Asked(i), buyNotional := s.track.buyNotional + notional,
                          buyFee := s.track.buyFee + fee)),
            cash - (notional + fee), None)
  }

  function AfterSell(cost: CostModel, domestic: bool, t: Ticker, qty: real, s: Slot, close: real, cash: real): Outcome {
    var price := cost.SellPrice(close);
    var notional := Notional(price, qty);
    var fee := cost.Fee(notional);
    var tax := cost.SellTax(notional, domestic);
    var track := s.track.(sellQty := s.track.sellQty + qty, sellNotional := s.track.sellNotional + notional,
                          sellFee := s.track.sellFee + fee, sellTax := s.track.sellTax + tax);
    var lot := AfterFill(s.lot, FillEvent(Sell, qty, price, fee, tax, false));
    Outcome(Slot(lot, track), cash + notional - fee - tax,
            if lot.state.Closed? then Some(MakeTrade(t, track)) else None)
  }

  function Executed(cost: CostModel, domestic: bool, t: Ticker, i: Intent, s: Slot, close: real, cash: real): Outcome {
    if i.side.Buy? then
      if Buys(cost, i, close, cash) then AfterBuy(cost, i, s, close, cash) else Outcome(s, cash, None)
    else if SellQty(i, s) <= 0.0 then Outcome(s, cash, None)
    else AfterSell(cost, domestic, t, SellQty(i, s), s, close, cash)
  }

  /** What a slot still owes the books: nothing once its trade is booked. */
  function Carried(s: Slot): real {
    if s.lot.state.Closed? then 0.0 else s.track.Flow()
  }

  function NetOf(trade: Option<Trade>): real {
    if trade.Some? then trade.value.netPnl else 0.0
  }

  /** Lot and track tell the same story. */
  predicate SlotOk(s: Slot) {
    && Coherent(s.lot) && 0.0 <= s.track.sellQty && s.lot.qty == s.track.buyQty - s.track.sellQty
    && (s.lot.state.Watching? ==> s.track == EmptyTrack)
  }

  lemma ExecutedKeepsSlot(cost: CostModel, domestic: bool, t: Ticker, i: Intent, s: Slot, close: real, cash: real)
    requires SlotOk(s)
    ensures SlotOk(Executed(cost, domestic, t, i, s, close, cash).slot)
  {
    hide Blend, Gain, CostModel.BuyPrice, CostModel.SellPrice, CostModel.Fee, CostModel.SellTax, SellQty;
    SellsAtMostHeld(i, s);
  }

  lemma SellsAtMostHeld(i: Intent, s: Slot)
    ensures SellQty(i, s) <= s.lot.qty
    ensures i.kind.Exit? ==> SellQty(i, s) == s.lot.qty
  {
  }

  /** Every unit of cash moved is in a booked trade or carried by an open lot. */
  predicate Conserves(s: Slot, cash: real, out: Outcome) {
    out.cash - cash == Carried(out.slot) - Carried(s) + NetOf(out.trade)
  }

  /**
   One intent conserves cash exactly when it does not buy into a lot whose trade is already booked: such a buy would
   count the booked flow twice (unless it was zero).
   */
  lemma ConservesExactlyWhen(cost: CostModel, domestic: bool, t: Ticker, i: Intent, s: Slot, close: real, cash: real)
    requires SlotOk(s)
    ensures Conserves(s, cash, Executed(cost, domestic, t, i, s, close, cash))
            <==> !(s.lot.state.Closed? && Buys(cost, i, close, cash) && s.track.Flow() != 0.0)
  {
    hide Blend, Gain, CostModel.BuyPrice, CostModel.SellPrice, CostModel.Fee, CostModel.SellTax, SellQty;
    SellsAtMostHeld(i, s);
  }

  /** Cash never goes below zero. */
  lemma ExecutedStaysSolvent(cost: CostModel, domestic: bool, t: Ticker, i: Intent, s: Slot, close: real, cash: real)
    requires cost.Sane() && close >= 0.0 && cash >= 0.0
    ensures Executed(cost, domestic, t, i, s, close, cash).cash >= 0.0
  {
    var qty := SellQty(i, s);
    if !i.side.Buy? && qty > 0.0 {
      SaleBringsIn(cost, domestic, close, qty);
    }
  }

  lemma SaleBringsIn(cost: CostModel, domestic: bool, close: real, qty: real)
    requires cost.Sane() && close >= 0.0 && qty > 0.0
    ensures var notional := Notional(cost.SellPrice(close), qty);
      notional - cost.Fee(notional) - cost.SellTax(notional, domestic) >= 0.0
  {
    SaleBringsInExactlyWhen(cost, domestic, close, qty);
  }

  /** A sale costs no money exactly when it is worth nothing or fee and tax together leave something of it. */
  lemma SaleBringsInExactlyWhen(cost: CostModel, domestic: bool, close: real, qty: real)
    requires 0.0 <= cost.slippageBps <= 10000.0 && close >= 0.0 && qty > 0.0
    ensures var notional := Notional(cost.SellPrice(close), qty);
      && notional >= 0.0
      && (notional - cost.Fee(notional) - cost.SellTax(notional, domestic) >= 0.0
          <==> notional == 0.0 || cost.feeBps + (if domestic then cost.sellTaxBps else 0.0) <= 10000.0)
  {
    ProductNonNegative(close, 1.0 - cost.slippageBps / 10000.0);
    ProductNonNegative(cost.SellPrice(close), qty);
    KeepsPart(Notional(cost.SellPrice(close), qty), cost.feeBps, if domestic then cost.sellTaxBps else 0.0);
  }

  /** With costs above the proceeds a sale makes the cash negative. */
  lemma CostlySaleOverdraws()
    ensures var dear := CostModel(6000.0, 6000.0, 0.0);
            var held := Slot(NewLot.(state := Holding, qty := 1.0), Track(1.0, 100.0, 0.0, 0.0, 0.0, 0.0, 0.0));
      SlotOk(held) && !dear.Sane()
      && Executed(dear, true, 7, Intent(Exit, Sell, None, None), held, 100.0, 0.0).cash == -20.0
  {
    var dear := CostModel(6000.0, 6000.0, 0.0);
    assert dear.SellPrice(100.0) == 100.0 && Notional(100.0, 1.0) == 100.0;
    assert dear.Fee(100.0) == 60.0 && dear.SellTax(100.0, true) == 60.0;
  }

  /** A booked trade is square: as much sold as bought, and its net is its gross less its costs. */
  lemma BookedTradeIsSquare(cost: CostModel, domestic: bool, t: Ticker, i: Intent, s: Slot, close: real, cash: real)
    requires SlotOk(s) && Executed(cost, domestic, t, i, s, close, cash).trade.Some?
    ensures var out := Executed(cost, domestic, t, i, s, close, cash);
      && out.slot.lot.state.Closed? && out.slot.track.sellQty == out.slot.track.buyQty == out.trade.value.qty > 0.0
      && out.trade.value.netPnl == out.trade.value.grossPnl - out.trade.value.fees - out.trade.value.tax
      && out.trade.value.entryPrice * out.trade.value.qty == out.slot.track.buyNotional
      && out.trade.value.exitPrice * out.trade.value.qty == out.slot.track.sellNotional
  {
    ExecutedKeepsSlot(cost, domestic, t, i, s, close, cash);
    var k := Executed(cost, domestic, t, i, s, close, cash).slot.track;
    SellsAtMostHeld(i, s);
    assert k.sellQty > 0.0;
    RatioTimes(k.buyNotional, k.buyQty);
    RatioTimes(k.sellNotional, k.sellQty);
  }

  lemma RatioTimes(notional: real, qty: real)
    requires qty > 0.0
    ensures Ratio(notional, qty) * qty == notional
  {
  }

  // ------------------------------------------------------------------
  // The books of a run
  // ------------------------------------------------------------------

  /** order lists the tickers as they first appeared. */
  datatype Book = Book(
    cash: real, slots: map<Ticker, Slot>, order: seq<Ticker>, last: map<Ticker, real>, trades: seq<Trade>)

  function TradeNet(t: Trade): real {
    t.netPnl
  }

  function CarriedBy(slots: map<Ticker, Slot>, t: Ticker): real {
    if t in slots then Carried(slots[t]) else 0.0
  }

  ghost function OpenFlow(slots: map<Ticker, Slot>): real {
    Sum(slots.Keys, (t: Ticker) => CarriedBy(slots, t))
  }

  function Booked(trades: seq<Trade>): real {
    SumBy(trades, TradeNet)
  }

  ghost predicate BookOk(b: Book, start: real) {
    && (forall t :: t in b.slots ==> SlotOk(b.slots[t]))
    && b.cash == start + Booked(b.trades) + OpenFlow(b.slots)
  }

  /** A new lot is armed when there is none or the last one is finished. */
  function Armed(b: Book, bar: Bar): Book {
    var b1 := b.(last := b.last[bar.ticker := bar.close]);
    if bar.ticker !in b.slots || b.slots[bar.ticker].lot.state.Closed? || b.slots[bar.ticker].lot.state.Cancelled?
    then b1.(slots := b.slots[bar.ticker := FreshSlot],
             order := if bar.ticker in b.slots then b.order else b.order + [bar.ticker])
    else b1
  }

  function Took(b: Book, t: Ticker, out: Outcome): Book {
    b.(cash := out.cash, slots := b.slots[t := out.slot],
       trades := if out.trade.Some? then b.trades + [out.trade.value] else b.trades)
  }

  function Act(cost: CostModel, domestic: bool, b: Book, bar: Bar, i: Intent): Book
    requires bar.ticker in b.slots
  {
    if i.kind.Hold? then b
    else Took(b, bar.ticker, Executed(cost, domestic, bar.ticker, i, b.slots[bar.ticker], bar.close, b.cash))
  }

  function ActAll(cost: CostModel, domestic: bool, b: Book, bar: Bar, asks: seq<Intent>): (r: Book)
    requires bar.ticker in b.slots
    ensures bar.ticker in r.slots
  {
    if asks == [] then b
    else Act(cost, domestic, ActAll(cost, domestic, b, bar, asks[..|asks| - 1]), bar, asks[|asks| - 1])
  }

  /** A bar and what the strategy asks for on it. */
  datatype Step = Step(bar: Bar, intents: seq<Intent>)

  function AfterStep(cost: CostModel, domestic: bool, b: Book, s: Step): Book {
    var b1 := OnBar(Armed(b, s.bar), s.bar);
    ActAll(cost, domestic, b1, s.bar, s.intents)
  }

  /** on_bar of an open lot: time held and the highest high. */
  function Watched(lot: Lot, high: real): Lot {
    if lot.IsOpen() then lot.(barsHeld := lot.barsHeld + 1, peakPrice := Max(lot.peakPrice, high)) else lot
  }

  function OnBar(b: Book, bar: Bar): Book
    requires bar.ticker in b.slots
  {
    var s := b.slots[bar.ticker];
    b.(slots := b.slots[bar.ticker := s.(lot := Watched(s.lot, bar.high))])
  }

  function RunTape(cost: CostModel, domestic: bool, start: real, tape: seq<Step>): Book {
    if tape == [] then Book(start, map[], [], map[], [])
    else AfterStep(cost, domestic, RunTape(cost, domestic, start, tape[..|tape| - 1]), tape[|tape| - 1])
  }

  /** On one bar no buy follows a sell; a strategy with at most one intent per bar always does so. */
  predicate BuysFirst(asks: seq<Intent>) {
    forall i, j :: 0 <= i < j < |asks| ==> !SellThenBuy(asks[i], asks[j])
  }

  predicate SellThenBuy(first: Intent, second: Intent) {
    first.side.Sell? && !first.kind.Hold? && second.side.Buy? && !second.kind.Hold?
  }

  lemma OneIntentIsBuysFirst(asks: seq<Intent>)
    requires |asks| <= 1
    ensures BuysFirst(asks)
  {
  }

  // ------------------------------------------------------------------
  // Conservation over a run
  // ------------------------------------------------------------------

  /** One slot changed: the open flow changes by as much. */
  lemma SlotChanged(slots: map<Ticker, Slot>, t: Ticker, s: Slot)
    ensures OpenFlow(slots[t := s]) == OpenFlow(slots) - CarriedBy(slots, t) + Carried(s)
  {
    var slots' := slots[t := s];
    var (f, g) := ((k: Ticker) => CarriedBy(slots, k), (k: Ticker) => CarriedBy(slots', k));
    if t in slots {
      assert slots'.Keys == slots.Keys;
      Change(slots.Keys, f, g, t);
    } else {
      assert slots'.Keys == slots.Keys + {t};
      Insert(slots.Keys, f, g, t);
    }
  }

  lemma TookConserves(b: Book, t: Ticker, out: Outcome, start: real)
    requires BookOk(b, start) && t in b.slots && SlotOk(out.slot) && Conserves(b.slots[t], b.cash, out)
    ensures BookOk(Took(b, t, out), start)
  {
    hide Carried, SlotOk, OpenFlow, Booked, CarriedBy;
    SlotChanged(b.slots, t, out.slot);
    CarriedByIs(b.slots, t);
    if out.trade.Some? {
      BookedAppend(b.trades, out.trade.value);
    }
  }

  lemma CarriedByIs(slots: map<Ticker, Slot>, t: Ticker)
    ensures CarriedBy(slots, t) == if t in slots then Carried(slots[t]) else 0.0
  {
  }

  lemma BookedAppend(trades: seq<Trade>, t: Trade)
    ensures Booked(trades + [t]) == Booked(trades) + t.netPnl
  {
    SumAppend(trades, t, TradeNet);
  }

  lemma RearmedKeepsBook(b: Book, t: Ticker, order: seq<Ticker>, start: real)
    requires BookOk(b, start) && CarriedBy(b.slots, t) == 0.0
    ensures BookOk(b.(slots := b.slots[t := FreshSlot], order := order), start)
  {
    FreshSlotIsOk();
    hide Carried, SlotOk, OpenFlow, Booked, CarriedBy;
    SlotChanged(b.slots, t, FreshSlot);
  }

  lemma ArmedKeepsBook(b: Book, bar: Bar, start: real)
    requires BookOk(b, start)
    ensures BookOk(Armed(b, bar), start) && bar.ticker in Armed(b, bar).slots
    ensures !Armed(b, bar).slots[bar.ticker].lot.state.Closed?
  {
    hide OpenFlow, Booked;
    var b1 := b.(last := b.last[bar.ticker := bar.close]);
    assert bar.ticker in b.slots ==> SlotOk(b.slots[bar.ticker]);
    if Armed(b, bar) != b1 {
      RearmedKeepsBook(b1, bar.ticker, Armed(b, bar).order, start);
    }
  }

  lemma FreshSlotIsOk()
    ensures SlotOk(FreshSlot) && Carried(FreshSlot) == 0.0
  {
  }

  lemma OnBarKeepsBook(b: Book, bar: Bar, start: real)
    requires BookOk(b, start) && bar.ticker in b.slots
    ensures BookOk(OnBar(b, bar), start)
    ensures OnBar(b, bar).slots[bar.ticker].lot.state == b.slots[bar.ticker].lot.state
  {
    var s := b.slots[bar.ticker];
    SlotChanged(b.slots, bar.ticker, s.(lot := Watched(s.lot, bar.high)));
  }

  /** Within a bar: conserved so far, and the lot is not closed while only buys have come. */
  lemma {:induction false} IntentsKeepBook(cost: CostModel, domestic: bool, b: Book, bar: Bar, asks: seq<Intent>, start: real)
    requires BookOk(b, start) && bar.ticker in b.slots && !b.slots[bar.ticker].lot.state.Closed? && BuysFirst(asks)
    ensures BookOk(ActAll(cost, domestic, b, bar, asks), start)
    ensures ActAll(cost, domestic, b, bar, asks).slots[bar.ticker].lot.state.Closed? ==>
      exists i :: 0 <= i < |asks| && asks[i].side.Sell? && !asks[i].kind.Hold?
  {
    if asks != [] {
      var n := |asks| - 1;
      var i := asks[n];
      IntentsKeepBook(cost, domestic, b, bar, asks[..n], start);
      var b1 := ActAll(cost, domestic, b, bar, asks[..n]);
      if b1.slots[bar.ticker].lot.state.Closed? {
        var x :| 0 <= x < n && asks[x].side.Sell? && !asks[x].kind.Hold?;
        assert !SellThenBuy(asks[x], i);
      }
      IntentKeepsBook(cost, domestic, b1, bar, i, start);
    }
  }

  lemma IntentKeepsBook(cost: CostModel, domestic: bool, b: Book, bar: Bar, i: Intent, start: real)
    requires BookOk(b, start) && bar.ticker in b.slots
    requires b.slots[bar.ticker].lot.state.Closed? && !i.kind.Hold? ==> i.side.Sell?
    ensures BookOk(Act(cost, domestic, b, bar, i), start)
    ensures Act(cost, domestic, b, bar, i).slots[bar.ticker].lot.state.Closed? ==>
      b.slots[bar.ticker].lot.state.Closed? || (i.side.Sell? && !i.kind.Hold?)
  {
    if !i.kind.Hold? {
      var s := b.slots[bar.ticker];
      ExecutedKeepsSlot(cost, domestic, bar.ticker, i, s, bar.close, b.cash);
      ConservesExactlyWhen(cost, domestic, bar.ticker, i, s, bar.close, b.cash);
      BuyLeavesOpen(cost, i, s, bar.close, b.cash);
      hide Executed, SlotOk;
      TookConserves(b, bar.ticker, Executed(cost, domestic, bar.ticker, i, s, bar.close, b.cash), start);
      if i.side.Buy? {
        ExecutedBuy(cost, domestic, bar.ticker, i, s, bar.close, b.cash);
      }
    }
  }

  lemma ExecutedBuy(cost: CostModel, domestic: bool, t: Ticker, i: Intent, s: Slot, close: real, cash: real)
    requires i.side.Buy?
    ensures Executed(cost, domestic, t, i, s, close, cash).slot
         == if Buys(cost, i, close, cash) then AfterBuy(cost, i, s, close, cash).slot else s
  {
  }

  lemma BuyLeavesOpen(cost: CostModel, i: Intent, s: Slot, close: real, cash: real)
    requires SlotOk(s)
    ensures Buys(cost, i, close, cash) ==> !AfterBuy(cost, i, s, close, cash).slot.lot.state.Closed?
  {
    hide Blend;
  }

  lemma StepKeepsBook(cost: CostModel, domestic: bool, b: Book, s: Step, start: real)
    requires BookOk(b, start) && BuysFirst(s.intents)
    ensures BookOk(AfterStep(cost, domestic, b, s), start)
  {
    hide BookOk, BuysFirst;
    ArmedKeepsBook(b, s.bar, start);
    OnBarKeepsBook(Armed(b, s.bar), s.bar, start);
    IntentsKeepBook(cost, domestic, OnBar(Armed(b, s.bar), s.bar), s.bar, s.intents, start);
  }

  lemma {:induction false} EveryBarConserves(cost: CostModel, domestic: bool, start: real, tape: seq<Step>)
    requires forall i :: 0 <= i < |tape| ==> BuysFirst(tape[i].intents)
    ensures BookOk(RunTape(cost, domestic, start, tape), start)
  {
    if tape == [] {
      NothingYet(start);
    } else {
      var n := |tape| - 1;
      hide BuysFirst, BookOk;
      EveryBarConserves(cost, domestic, start, tape[..n]);
      StepKeepsBook(cost, domestic, RunTape(cost, domestic, start, tape[..n]), tape[n], start);
    }
  }

  lemma NothingYet(start: real)
    ensures BookOk(Book(start, map[], [], map[], []), start)
  {
  }

  lemma {:induction false} IntentsStaySolvent(cost: CostModel, domestic: bool, b: Book, bar: Bar, asks: seq<Intent>)
    requires cost.Sane() && bar.close >= 0.0 && b.cash >= 0.0 && bar.ticker in b.slots
    ensures ActAll(cost, domestic, b, bar, asks).cash >= 0.0
  {
    if asks != [] {
      var n := |asks| - 1;
      IntentsStaySolvent(cost, domestic, b, bar, asks[..n]);
      var b1 := ActAll(cost, domestic, b, bar, asks[..n]);
      ExecutedStaysSolvent(cost, domestic, bar.ticker, asks[n], b1.slots[bar.ticker], bar.close, b1.cash);
    }
  }

  /** Whatever the strategy asks, on every tape, cash never goes below zero. */
  lemma {:induction false} EveryBarIsSolvent(cost: CostModel, domestic: bool, start: real, tape: seq<Step>)
    requires cost.Sane() && start >= 0.0 && forall i :: 0 <= i < |tape| ==> tape[i].bar.close >= 0.0
    ensures RunTape(cost, domestic, start, tape).cash >= 0.0
  {
    if tape != [] {
      var n := |tape| - 1;
      EveryBarIsSolvent(cost, domestic, start, tape[..n]);
      var b := RunTape(cost, domestic, start, tape[..n]);
      IntentsStaySolvent(cost, domestic, OnBar(Armed(b, tape[n].bar), tape[n].bar), tape[n].bar, tape[n].intents);
    }
  }

  // ------------------------------------------------------------------
  // Liquidation and equity
  // ------------------------------------------------------------------

  const ExitAll := Intent(Exit, Sell, None, None)

  function PriceOf(b: Book, t: Ticker): real
    requires t in b.slots
  {
    if t in b.last then b.last[t] else b.slots[t].lot.avgEntry
  }

  /** Sell out one ticker at its last price. */
  function SoldOut(cost: CostModel, domestic: bool, b: Book, t: Ticker): Book
    requires t in b.slots
  {
    if b.slots[t].lot.IsOpen()
    then Took(b, t, Executed(cost, domestic, t, ExitAll, b.slots[t], PriceOf(b, t), b.cash)) else b
  }

  function Liquidated(cost: CostModel, domestic: bool, b: Book, ts: seq<Ticker>): (r: Book)
    requires forall t :: t in ts ==> t in b.slots
    ensures r.slots.Keys == b.slots.Keys && r.order == b.order && r.last == b.last
  {
    if ts == [] then b
    else SoldOut(cost, domestic, Liquidated(cost, domestic, b, ts[..|ts| - 1]), ts[|ts| - 1])
  }

  /** Shares at the last price. */
  function Worth(b: Book, t: Ticker): real {
    if t in b.slots && b.slots[t].lot.qty > 0.0 then b.slots[t].lot.qty * PriceOf(b, t) else 0.0
  }

  function Worths(b: Book): Ticker -> real {
    (t: Ticker) => Worth(b, t)
  }

  function Equity(b: Book): real {
    b.cash + SumBy(b.order, Worths(b))
  }

  lemma SoldOutKeepsBook(cost: CostModel, domestic: bool, b: Book, t: Ticker, start: real)
    requires BookOk(b, start) && t in b.slots
    ensures BookOk(SoldOut(cost, domestic, b, t), start)
    ensures !SoldOut(cost, domestic, b, t).slots[t].lot.IsOpen()
    ensures forall k :: k in b.slots && k != t ==> SoldOut(cost, domestic, b, t).slots[k] == b.slots[k]
  {
    var s := b.slots[t];
    if s.lot.IsOpen() {
      var price := PriceOf(b, t);
      ExecutedKeepsSlot(cost, domestic, t, ExitAll, s, price, b.cash);
      ConservesExactlyWhen(cost, domestic, t, ExitAll, s, price, b.cash);
      TookConserves(b, t, Executed(cost, domestic, t, ExitAll, s, price, b.cash), start);
      ExitCloses(cost, domestic, t, s, price, b.cash);
    }
  }

  lemma ExitCloses(cost: CostModel, domestic: bool, t: Ticker, s: Slot, close: real, cash: real)
    requires SlotOk(s) && s.lot.IsOpen()
    ensures Executed(cost, domestic, t, ExitAll, s, close, cash).slot.lot.state.Closed?
  {
    hide Gain, CostModel.SellPrice, CostModel.Fee, CostModel.SellTax;
  }

  lemma {:induction false} LiquidatedKeepsBook(cost: CostModel, domestic: bool, b: Book, ts: seq<Ticker>, start: real)
    requires BookOk(b, start) && forall t :: t in ts ==> t in b.slots
    ensures BookOk(Liquidated(cost, domestic, b, ts), start)
    ensures forall t :: t in ts ==> !Liquidated(cost, domestic, b, ts).slots[t].lot.IsOpen()
  {
    if ts != [] {
      var n := |ts| - 1;
      LiquidatedKeepsBook(cost, domestic, b, ts[..n], start);
      hide BookOk, SoldOut;
      SoldOutKeepsBook(cost, domestic, Liquidated(cost, domestic, b, ts[..n]), ts[n], start);
      assert forall t :: t in ts ==> t in ts[..n] || t == ts[n];
    }
  }

  /** Equity beyond the start is the booked trades, plus what the open lots took and are worth. */
  lemma EquityIs(b: Book, start: real)
    requires BookOk(b, start)
    ensures Equity(b) - start == Booked(b.trades) + OpenFlow(b.slots) + SumBy(b.order, Worths(b))
  {
  }

  /** With no lot open the books carry nothing. */
  lemma NothingCarried(b: Book, start: real)
    requires BookOk(b, start) && forall t :: t in b.slots ==> !b.slots[t].lot.IsOpen()
    ensures OpenFlow(b.slots) == 0.0 && SumBy(b.order, Worths(b)) == 0.0
  {
    forall t | t in b.slots
      ensures CarriedBy(b.slots, t) == 0.0 && Worth(b, t) == 0.0
    {
      assert SlotOk(b.slots[t]);
    }
    AllZero(b.slots.Keys, (t: Ticker) => CarriedBy(b.slots, t));
    SumConstant(b.order, Worths(b), 0.0);
  }

  /** The tickers in order are those with a slot. */
  ghost predicate OrderOk(b: Book) {
    forall t :: t in b.order <==> t in b.slots
  }

  lemma {:induction false} ActAllKeepsOrder(cost: CostModel, domestic: bool, b: Book, bar: Bar, asks: seq<Intent>)
    requires bar.ticker in b.slots
    ensures ActAll(cost, domestic, b, bar, asks).order == b.order
    ensures ActAll(cost, domestic, b, bar, asks).slots.Keys == b.slots.Keys
  {
    if asks != [] {
      ActAllKeepsOrder(cost, domestic, b, bar, asks[..|asks| - 1]);
    }
  }

  lemma {:induction false} RunKeepsOrder(cost: CostModel, domestic: bool, start: real, tape: seq<Step>)
    ensures OrderOk(RunTape(cost, domestic, start, tape))
  {
    if tape != [] {
      var n := |tape| - 1;
      RunKeepsOrder(cost, domestic, start, tape[..n]);
      var b := RunTape(cost, domestic, start, tape[..n]);
      var b1 := OnBar(Armed(b, tape[n].bar), tape[n].bar);
      assert OrderOk(b1);
      ActAllKeepsOrder(cost, domestic, b1, tape[n].bar, tape[n].intents);
    }
  }

  /** A whole run: the tape, then the forced liquidation if asked for and if there was a tape. */
  function WholeRun(cost: CostModel, domestic: bool, start: real, liquidate: bool, tape: seq<Step>): (b: Book)
    ensures OrderOk(b)
  {
    RunKeepsOrder(cost, domestic, start, tape);
    var b := RunTape(cost, domestic, start, tape);
    if liquidate && tape != [] then Liquidated(cost, domestic, b, b.order) else b
  }

  /** With liquidation, end cash less the budget is the sum of the trades' net profits, exactly, and all equity is cash. */
  lemma LiquidatedRunReconciles(cost: CostModel, domestic: bool, start: real, tape: seq<Step>)
    requires forall i :: 0 <= i < |tape| ==> BuysFirst(tape[i].intents)
    ensures var b := WholeRun(cost, domestic, start, true, tape);
      Equity(b) == b.cash == start + Booked(b.trades)
  {
    LiquidatedRunIsFlat(cost, domestic, start, tape);
    hide BookOk, BuysFirst, WholeRun;
    var e := WholeRun(cost, domestic, start, true, tape);
    NothingCarried(e, start);
    BookSays(e, start);
    EquityIs(e, start);
  }

  lemma LiquidatedRunIsFlat(cost: CostModel, domestic: bool, start: real, tape: seq<Step>)
    requires forall i :: 0 <= i < |tape| ==> BuysFirst(tape[i].intents)
    ensures var b := WholeRun(cost, domestic, start, true, tape);
      BookOk(b, start) && forall t :: t in b.slots ==> !b.slots[t].lot.IsOpen()
  {
    var b := RunTape(cost, domestic, start, tape);
    EveryBarConserves(cost, domestic, start, tape);
    RunKeepsOrder(cost, domestic, start, tape);
    hide BookOk, BuysFirst;
    if tape != [] {
      LiquidatedKeepsBook(cost, domestic, b, b.order, start);
    }
  }

  lemma BookSays(b: Book, start: real)
    requires BookOk(b, start)
    ensures b.cash == start + Booked(b.trades) + OpenFlow(b.slots)
  {
  }

  // ------------------------------------------------------------------
  // The campaign report
  // ------------------------------------------------------------------

  datatype CampaignReport = CampaignReport(
    initialBudget: real, endCash: real, realizedPnl: real, totalFees: real, totalTax: real, numTrades: nat, trades: seq<Trade>)
  {
    function TradePnlSum(): real {
      SumBy(trades, TradeNet)
    }

    predicate Reconciles() {
      var gap := realizedPnl - TradePnlSum();
      -0.01 <= gap <= 0.01
    }
  }

  function BuildReport(budget: real, finalEquity: real, trades: seq<Trade>): CampaignReport {
    CampaignReport(budget, finalEquity, finalEquity - budget,
                   SumBy(trades, (t: Trade) => t.fees), SumBy(trades, (t: Trade) => t.tax), |trades|, trades)
  }

  /** A liquidated run's report reconciles exactly when its budget is the run's start, up to a cent. */
  lemma ReportReconcilesExactlyWhen(cost: CostModel, domestic: bool, start: real, tape: seq<Step>, budget: real)
    requires forall i :: 0 <= i < |tape| ==> BuysFirst(tape[i].intents)
    ensures var b := WholeRun(cost, domestic, start, true, tape);
      BuildReport(budget, Equity(b), b.trades).Reconciles() <==> -0.01 <= start - budget <= 0.01
  {
    LiquidatedRunReconciles(cost, domestic, start, tape);
  }

  // ------------------------------------------------------------------
  // A strategy that does not keep buys first
  // ------------------------------------------------------------------

  /** Buying again into a lot closed on the same bar counts its flow twice: from then on the books are off by that flow. */
  lemma RebuyShiftsBooks(cost: CostModel, domestic: bool, b: Book, bar: Bar, i: Intent, start: real)
    requires BookOk(b, start) && bar.ticker in b.slots && b.slots[bar.ticker].lot.state.Closed?
    requires !i.kind.Hold? && Buys(cost, i, bar.close, b.cash)
    ensures BookOk(Act(cost, domestic, b, bar, i), start - b.slots[bar.ticker].track.Flow())
  {
    var s := b.slots[bar.ticker];
    var out := Executed(cost, domestic, bar.ticker, i, s, bar.close, b.cash);
    ExecutedKeepsSlot(cost, domestic, bar.ticker, i, s, bar.close, b.cash);
    RebuyCarriesTwice(cost, domestic, bar.ticker, i, s, bar.close, b.cash);
    SlotChanged(b.slots, bar.ticker, out.slot);
    CarriedByIs(b.slots, bar.ticker);
    hide Executed, SlotOk, OpenFlow, Booked, CarriedBy;
    assert Act(cost, domestic, b, bar, i) == Took(b, bar.ticker, out);
  }

  lemma RebuyCarriesTwice(cost: CostModel, domestic: bool, t: Ticker, i: Intent, s: Slot, close: real, cash: real)
    requires SlotOk(s) && s.lot.state.Closed? && Buys(cost, i, close, cash)
    ensures var out := Executed(cost, domestic, t, i, s, close, cash);
      out.trade.None? && Carried(s) == 0.0 && Carried(out.slot) == s.track.Flow() + out.cash - cash
  {
    hide Blend, CostModel.BuyPrice, CostModel.Fee;
  }

  /** One share bought at 10, sold at 20 and bought again on that bar: the profit of 10 would be counted twice. */
  lemma RoundTripCountedTwice()
    ensures var free := CostModel(0.0, 0.0, 0.0);
            var sold := Slot(NewLot.(state := Closed, avgEntry := 10.0), Track(1.0, 10.0, 0.0, 1.0, 20.0, 0.0, 0.0));
            var again := Intent(Enter, Buy, Some(1.0), None);
            SlotOk(sold) && !Conserves(sold, 110.0, Executed(free, true, 7, again, sold, 20.0, 110.0))
  {
    var free := CostModel(0.0, 0.0, 0.0);
    assert free.BuyPrice(20.0) == 20.0 && free.Fee(20.0) == 0.0;
  }
}
