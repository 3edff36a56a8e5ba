/** The replay loop itself, proved against the books. */
module Backtester {
  import opened Domain
  import opened SeqSums
  import opened Position
  import opened Costs
  import opened Backtest

  class Replay {
    const cost: CostModel
    const domestic: bool
    const start: real
    const liquidateAtEnd: bool
    var cash: real
    var slots: map<Ticker, Slot>
    var order: seq<Ticker>
    var last: map<Ticker, real>
    var trades: seq<Trade>
    var curve: seq<real>

    constructor (cost: CostModel, domestic: bool, start: real, liquidateAtEnd: bool)
      ensures this.cost == cost && this.domestic == domestic && this.start == start && this.liquidateAtEnd == liquidateAtEnd
    {
      this.cost, this.domestic, this.start, this.liquidateAtEnd := cost, domestic, start, liquidateAtEnd;
    }

    function Books(): Book
      reads this
    {
      Book(cash, slots, order, last, trades)
    }

    method EquityNow() returns (total: real)
      ensures total == Equity(Books())
    {
      total := cash;
      for i := 0 to |order|
        invariant total == cash + SumBy(order[..i], Worths(Books()))
      {
        var t := order[i];
        SumAppend(order[..i], t, Worths(Books()));
        assert order[..i + 1] == order[..i] + [t];
        if t in slots && slots[t].lot.qty > 0.0 {
          total := total + slots[t].lot.qty * (if t in last then last[t] else slots[t].lot.avgEntry);
        }
      }
      assert order[..|order|] == order;
    }

    /** Fill an intent against the bar's close, if the cash or the holding allows it. */
    method Execute(t: Ticker, intent: Intent, close: real)
      requires t in slots
      modifies this`cash, this`slots, this`trades
      ensures Books() == Took(old(Books()), t, Executed(cost, domestic, t, intent, old(slots[t]), close, old(cash)))
    {
      hide AfterFill, Notional, CostModel.BuyPrice, CostModel.SellPrice, CostModel.Fee, CostModel.SellTax;
      var (lot, track) := (slots[t].lot, slots[t].track);
      assert slots[t := slots[t]] == slots;
      if intent.side.Buy? {
        var qty := Asked(intent);
        if qty <= 0.0 {
          return;
        }
        var price := cost.BuyPrice(close);
        var notional := Notional(price, qty);
        var fee := cost.Fee(notional);
        assert Buys(cost, intent, close, cash) <==> cash >= notional + fee;
        if cash < notional + fee {
          return;
        }
        cash := cash - (notional + fee);
        track := track.(buyQty := track.buyQty + qty, buyNotional := track.buyNotional + notional, buyFee := track.buyFee + fee);
        lot := AfterFill(lot, FillEvent(Buy, qty, price, 0.0, 0.0, intent.kind.Add?));
        slots := slots[t := Slot(lot, track)];
        return;
      }
      var qty := SellQty(intent, slots[t]);
      if qty <= 0.0 {
        return;
      }
      var price := cost.SellPrice(close);
      var notional := Notional(price, qty);
      var fee := cost.Fee(notional);
      var tax := cost.SellTax(notional, domestic);
      cash := cash + notional - fee - tax;
      track := track.(sellQty := track.sellQty + qty, sellNotional := track.sellNotional + notional,
                      sellFee := track.sellFee + fee, sellTax := track.sellTax + tax);
      lot := AfterFill(lot, FillEvent(Sell, qty, price, fee, tax, false));
      slots := slots[t := Slot(lot, track)];
      if lot.state.Closed? {
        trades := trades + [MakeTrade(t, track)];
      }
    }

    /** One bar: price, bar count of an open lot, a fresh lot if needed, then what the strategy asks for. */
    method ProcessBar(step: Step)
      modifies this`cash, this`slots, this`trades, this`order, this`last
      ensures Books() == AfterStep(cost, domestic, old(Books()), step)
    {
      hide Executed;
      var t := step.bar.ticker;
      ghost var before := Books();
      last := last[t := step.bar.close];
      if t in slots && slots[t].lot.IsOpen() {
        slots := slots[t := slots[t].(lot := Watched(slots[t].lot, step.bar.high))];
      }
      if t !in slots || slots[t].lot.state.Closed? || slots[t].lot.state.Cancelled? {
        order := if t in slots then order else order + [t];
        slots := slots[t := FreshSlot];
      }
      ghost var armed := OnBar(Armed(before, step.bar), step.bar);
      assert Books() == armed by {
        assert slots == armed.slots;
      }
      for i := 0 to |step.intents|
        invariant t in slots && Books() == ActAll(cost, domestic, armed, step.bar, step.intents[..i])
      {
        assert step.intents[..i + 1][..i] == step.intents[..i];
        if !step.intents[i].kind.Hold? {
          Execute(t, step.intents[i], step.bar.close);
        }
      }
      assert step.intents[..|step.intents|] == step.intents;
    }

    method Liquidate()
      requires OrderOk(Books())
      modifies this`cash, this`slots, this`trades
      ensures Books() == Liquidated(cost, domestic, old(Books()), old(order))
    {
      hide Executed;
      ghost var before := Books();
      for i := 0 to |order|
        invariant Books() == Liquidated(cost, domestic, before, order[..i])
        invariant order == before.order && slots.Keys == before.slots.Keys
      {
        assert order[..i + 1][..i] == order[..i];
        var t := order[i];
        assert t in order;
        if slots[t].lot.IsOpen() {
          Execute(t, ExitAll, if t in last then last[t] else slots[t].lot.avgEntry);
        }
      }
      assert order[..|order|] == order;
    }

    /** The whole replay: the books of the run, one equity per bar, and the equity at the end. */
    method Run(tape: seq<Step>) returns (finalEquity: real)
      modifies this
      ensures Books() == WholeRun(cost, domestic, start, liquidateAtEnd, tape)
      ensures finalEquity == Equity(Books())
      ensures |curve| == |tape| + if liquidateAtEnd && tape != [] then 1 else 0
      ensures forall i :: 0 <= i < |tape| ==> curve[i] == Equity(RunTape(cost, domestic, start, tape[..i + 1]))
    {
      hide AfterStep;
      cash, slots, order, last, trades, curve := start, map[], [], map[], [], [];
      for n := 0 to |tape|
        invariant Books() == RunTape(cost, domestic, start, tape[..n])
        invariant |curve| == n
        invariant forall i :: 0 <= i < n ==> curve[i] == Equity(RunTape(cost, domestic, start, tape[..i + 1]))
        invariant n > 0 ==> curve[n - 1] == Equity(Books())
      {
        assert tape[..n + 1][..n] == tape[..n];
        ProcessBar(tape[n]);
        var equity := EquityNow();
        curve := curve + [equity];
      }
      assert tape[..|tape|] == tape;
      RunKeepsOrder(cost, domestic, start, tape);
      if liquidateAtEnd && tape != [] {
        Liquidate();
        var equity := EquityNow();
        curve := curve + [equity];
      }
      finalEquity := if curve != [] then curve[|curve| - 1] else start;
    }

    /** The report of a liquidated run: exact, whatever the tape and the strategy. */
    method RunCampaign(tape: seq<Step>, budget: real) returns (report: CampaignReport)
      requires liquidateAtEnd
      modifies this
      ensures (forall i :: 0 <= i < |tape| ==> BuysFirst(tape[i].intents)) && budget == start ==>
        report.realizedPnl == report.TradePnlSum() && report.Reconciles() && report.endCash == cash
    {
      var finalEquity := Run(tape);
      report := BuildReport(budget, finalEquity, trades);
      if forall i :: 0 <= i < |tape| ==> BuysFirst(tape[i].intents) {
        LiquidatedRunReconciles(cost, domestic, start, tape);
      }
    }
  }
}
