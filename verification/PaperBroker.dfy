/** The simulated broker as an object, proved against the desk. */
module PaperBroker {
  import opened Domain
  import opened Sums
  import opened SeqSums
  import opened Costs
  import opened Paper

  /** An execution record: quantity, fee and tax are cumulative per order. */
  datatype Execution = Execution(no: OrderNo, qty: real, price: real, fee: real, tax: real)

  function FilledFee(fills: seq<Fill>, no: OrderNo): real {
    if fills == [] then 0.0
    else FilledFee(fills[..|fills| - 1], no) + if fills[|fills| - 1].no == no then fills[|fills| - 1].fee else 0.0
  }

  function FilledTax(fills: seq<Fill>, no: OrderNo): real {
    if fills == [] then 0.0
    else FilledTax(fills[..|fills| - 1], no) + if fills[|fills| - 1].no == no then fills[|fills| - 1].tax else 0.0
  }

  /** The record that follows the latest fill. */
  function Record(fills: seq<Fill>): Execution
    requires fills != []
  {
    var last := fills[|fills| - 1];
    Execution(last.no, FilledQty(fills, last.no), last.price, FilledFee(fills, last.no), FilledTax(fills, last.no))
  }

  function ValueOf(m: map<OrderNo, real>, no: OrderNo): real {
    if no in m then m[no] else 0.0
  }

  class PaperBrokerAdapter {
    const cfg: Config
    var cash: map<Currency, real>
    var holdings: map<(Ticker, Market), Stock>
    var prices: map<Ticker, real>
    var seqNo: nat
    var resting: map<OrderNo, Request>
    var reserved: map<OrderNo, real>
    var execCum: map<OrderNo, real>
    var execFeeCum: map<OrderNo, real>
    var execTaxCum: map<OrderNo, real>
    var executions: seq<Execution>
    var fills: seq<Fill>

    constructor (cfg: Config)
      ensures this.cfg == cfg && State() == NewDesk(cfg) && Records()
    {
      this.cfg := cfg;
      cash, holdings, prices, seqNo := map[Krw := cfg.initialCash], map[], map[], 0;
      resting, reserved, executions, fills := map[], map[], [], [];
      execCum, execFeeCum, execTaxCum := map[], map[], map[];
    }

    function State(): Desk
      reads this
    {
      Desk(cash, holdings, prices, seqNo, resting, reserved, fills)
    }

    /** One cumulative record per fill, and the running sums it is taken from. */
    ghost predicate Records()
      reads this
    {
      && |executions| == |fills|
      && (forall k :: 0 <= k < |fills| ==> executions[k] == Record(fills[..k + 1]))
      && (forall no :: ValueOf(execCum, no) == FilledQty(fills, no))
      && (forall no :: ValueOf(execFeeCum, no) == FilledFee(fills, no))
      && (forall no :: ValueOf(execTaxCum, no) == FilledTax(fills, no))
    }

    method AvailableCash(ccy: Currency) returns (free: real)
      requires reserved.Keys <= resting.Keys
      ensures free == Available(State(), ccy)
    {
      free := CashOf(State(), ccy);
      ghost var f := ReservedBy(State(), ccy);
      var todo := reserved.Keys;
      while todo != {}
        invariant todo <= reserved.Keys
        invariant free == Available(State(), ccy) + Sum(todo, f)
        decreases |todo|
      {
        var no :| no in todo;
        Extract(todo, f, no);
        if resting[no].market.Currency() == ccy {
          free := free - reserved[no];
        }
        todo := todo - {no};
      }
    }

    method Chunk(qty: real) returns (out: seq<real>)
      ensures out == Chunks(qty, cfg.maxFillChunks)
    {
      var chunks := if cfg.maxFillChunks > 1 then cfg.maxFillChunks else 1;
      if chunks == 1 {
        return [qty];
      }
      var even := EvenChunk(qty, chunks);
      out := [];
      var remaining := qty;
      for i := 0 to chunks
        invariant i < chunks ==> remaining == Left(qty, i, even) && out == if even > 0.0 then Repeat(even, i) else []
        invariant i == chunks ==> out == Chunks(qty, cfg.maxFillChunks)
      {
        var q := if i == chunks - 1 then remaining else even;
        LeftNext(qty, i, even);
        if q > 0.0 {
          out := out + [q];
        }
        remaining := remaining - q;
      }
    }

    /** One piece: holdings, cash, the running sums, the record and the fill. */
    method ApplyAndEmit(req: Request, price: real, qty: real, no: OrderNo)
      requires Records()
      modifies this`cash, this`holdings, this`fills, this`execCum, this`execFeeCum, this`execTaxCum, this`executions
      ensures Records() && State() == Apply(cfg, old(State()), req, price, qty, no)
    {
      hide Bought, Config.Fee, Config.Tax, Costs.Notional, FilledQty, FilledFee, FilledTax;
      var notional := Notional(price, qty);
      var fee := cfg.Fee(notional);
      var tax := cfg.Tax(req, notional);
      var key := (req.ticker, req.market);
      var ccy := req.market.Currency();
      var holding := if key in holdings then holdings[key] else Stock(0.0, 0.0);
      if req.side.Buy? {
        holdings := holdings[key := Bought(holding, price, qty)];
        cash := cash[ccy := (if ccy in cash then cash[ccy] else 0.0) - notional - fee];
      } else {
        holdings := holdings[key := holding.(qty := holding.qty - qty)];
        cash := cash[ccy := (if ccy in cash then cash[ccy] else 0.0) + notional - fee - tax];
      }
      EmitRecord(no, qty, price, fee, tax);
    }

    /** The running sums grow by the fill, and their new values are the record. */
    method EmitRecord(no: OrderNo, qty: real, price: real, fee: real, tax: real)
      requires Records()
      modifies this`fills, this`execCum, this`execFeeCum, this`execTaxCum, this`executions
      ensures Records() && fills == old(fills) + [Fill(no, qty, price, fee, tax)]
    {
      ghost var before := fills;
      execCum := execCum[no := ValueOf(execCum, no) + qty];
      execFeeCum := execFeeCum[no := ValueOf(execFeeCum, no) + fee];
      execTaxCum := execTaxCum[no := ValueOf(execTaxCum, no) + tax];
      executions := executions + [Execution(no, execCum[no], price, execFeeCum[no], execTaxCum[no])];
      fills := fills + [Fill(no, qty, price, fee, tax)];
      assert fills[..|before|] == before;
      forall k | 0 <= k < |fills|
        ensures executions[k] == Record(fills[..k + 1])
      {
        if k < |before| {
          assert fills[..k + 1] == before[..k + 1];
        } else {
          assert fills[..k + 1] == fills;
        }
      }
    }

    method FillPieces(req: Request, price: real, no: OrderNo)
      requires Records()
      modifies this`cash, this`holdings, this`fills, this`execCum, this`execFeeCum, this`execTaxCum, this`executions
      ensures Records() && State() == ApplyAll(cfg, old(State()), req, price, Chunks(req.qty, cfg.maxFillChunks), no)
    {
      hide Records, Apply;
      ghost var before := State();
      var qs := Chunk(req.qty);
      for i := 0 to |qs|
        invariant Records() && State() == ApplyAll(cfg, before, req, price, qs[..i], no)
      {
        assert qs[..i + 1][..i] == qs[..i];
        ApplyAndEmit(req, price, qs[i], no);
      }
      assert qs[..|qs|] == qs;
    }

    method SubmitOrder(req: Request) returns (ack: Ack)
      requires Records() && reserved.Keys <= resting.Keys
      modifies this
      ensures Records() && (State(), ack) == Submitted(cfg, old(State()), req)
    {
      hide Available, Chunks, ApplyAll, Config.EstimatedCost, FilledQty, FilledFee, FilledTax;
      var ref := PriceOf(State(), req.ticker);
      if req.IsMarket() && ref.None? {
        return NoMarketPrice;
      }
      var fillPrice := cfg.FillPrice(req, ref);
      if req.side.Buy? && cfg.enforceFunds {
        var free := AvailableCash(req.market.Currency());
        if cfg.EstimatedCost(fillPrice, req.qty) > free {
          return InsufficientFunds;
        }
      }
      seqNo := seqNo + 1;
      var no := seqNo;
      if cfg.restingLimits && !req.IsMarket() && !Crosses(req, ref) {
        resting := resting[no := req];
        if req.side.Buy? {
          reserved := reserved[no := cfg.EstimatedCost(req.price, req.qty)];
        }
        return Accepted(no);
      }
      FillPieces(req, fillPrice, no);
      ack := Accepted(no);
    }

    method CancelOrder(no: Option<OrderNo>)
      requires Records()
      modifies this`resting, this`reserved
      ensures Records() && State() == if no.Some? then Taken(old(State()), no.value) else old(State())
    {
      if no.Some? {
        resting := resting - {no.value};
        reserved := reserved - {no.value};
      }
    }

    /** Resting orders are met in the order they came. */
    method OnMarketPrice(ticker: Ticker, price: real, low: Option<real>, high: Option<real>)
      requires Records()
      modifies this
      ensures Records() && State() == Priced(cfg, old(State()), ticker, price, low, high)
    {
      hide Records, ApplyAll, Chunks;
      NewPrice(ticker, price);
      ghost var before := State();
      for no := 1 to seqNo + 1
        invariant Records() && seqNo == before.seqNo
        invariant State() == MetAll(cfg, before, no - 1, ticker, price, low, high)
      {
        MeetOne(no, ticker, price, low, high);
      }
    }

    method NewPrice(ticker: Ticker, price: real)
      requires Records()
      modifies this`prices
      ensures Records() && State() == old(State()).(prices := old(prices)[ticker := price])
    {
      prices := prices[ticker := price];
    }

    method MeetOne(no: OrderNo, ticker: Ticker, price: real, low: Option<real>, high: Option<real>)
      requires Records()
      modifies this
      ensures Records() && State() == Met(cfg, old(State()), no, ticker, price, low, high) && seqNo == old(seqNo)
    {
      if no in resting {
        var req := resting[no];
        var extreme := if req.side.Buy? then low else high;
        var touch := if extreme.Some? && extreme.value != 0.0 then extreme.value else price;
        if req.ticker == ticker && Crosses(req, Some(touch)) {
          CancelOrder(Some(no));
          FilledPiecesKeepNumbers(cfg, State(), req, req.price, no);
          FillPieces(req, req.price, no);
        }
      }
    }
  }

  lemma FilledPiecesKeepNumbers(cfg: Config, d: Desk, req: Request, price: real, no: OrderNo)
    ensures ApplyAll(cfg, d, req, price, Chunks(req.qty, cfg.maxFillChunks), no).seqNo == d.seqNo
  {
    PiecesFill(cfg, d, req, price, Chunks(req.qty, cfg.maxFillChunks), no, no);
  }

  lemma LeftNext(qty: real, i: nat, even: real)
    ensures Left(qty, i, even) - even == Left(qty, i + 1, even)
    ensures even > 0.0 ==> Repeat(even, i) + [even] == Repeat(even, i + 1)
    ensures Left(qty, 0, even) == qty
  {
  }
}
