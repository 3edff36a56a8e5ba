/** The simulated broker: cash, reservations for resting buys, and fills cut into chunks. */
module Paper {
  import opened Domain
  import opened Sums
  import opened SeqSums
  import opened Costs
  type OrderNo = nat

  type Ticker = nat
  type Currency = nat

  const Krw: Currency := 0

  /** The domestic market, and the overseas ones by their currency. */
  datatype Market = Krx | Overseas(foreign: Currency)
  {
    function Currency(): Currency {
      if Krx? then Krw else foreign
    }
  }

  datatype Request = Request(ticker: Ticker, market: Market, side: Side, qty: real, price: real, marketOrder: bool)
  {
    predicate IsMarket() {
      marketOrder || price <= 0.0
    }
  }

  datatype Config = Config(
    initialCash: real, slippageBps: real, feeBps: real, sellTaxBps: real, maxFillChunks: int, enforceFunds: bool, restingLimits: bool)
  {
    predicate Sane() {
      0.0 <= slippageBps <= 10000.0 && feeBps >= 0.0 && sellTaxBps >= 0.0 && feeBps + sellTaxBps <= 10000.0 && initialCash >= 0.0
    }

    function Fee(notional: real): real {
      notional * feeBps / 10000.0
    }

    function Tax(req: Request, notional: real): real {
      if req.side.Sell? && req.market.Krx? then notional * sellTaxBps / 10000.0 else 0.0
    }

    function EstimatedCost(price: real, qty: real): real {
      Notional(price, qty) + Fee(Notional(price, qty))
    }

    /** A market order slips against the customer. */
    function FillPrice(req: Request, ref: Option<real>): real {
      if !req.IsMarket() || ref.None? then req.price
      else if req.side.Buy? then ref.value + ref.value * slippageBps / 10000.0
      else ref.value - ref.value * slippageBps / 10000.0
    }
  }

  datatype Stock = Stock(qty: real, avgPrice: real)

  datatype Fill = Fill(no: OrderNo, qty: real, price: real, fee: real, tax: real)

  /** Everything the broker keeps; nos are handed out in sequence. */
  datatype Desk = Desk(
    cash: map<Currency, real>, holdings: map<(Ticker, Market), Stock>, prices: map<Ticker, real>, seqNo: nat,
    resting: map<OrderNo, Request>, reserved: map<OrderNo, real>, fills: seq<Fill>)

  function NewDesk(cfg: Config): Desk {
    Desk(map[Krw := cfg.initialCash], map[], map[], 0, map[], map[], [])
  }

  function CashOf(d: Desk, ccy: Currency): real {
    if ccy in d.cash then d.cash[ccy] else 0.0
  }

  /** Part of the reservation of one order in a currency. */
  function ReservedIn(d: Desk, ccy: Currency, no: OrderNo): real {
    if no in d.reserved && no in d.resting && d.resting[no].market.Currency() == ccy then d.reserved[no] else 0.0
  }

  function ReservedBy(d: Desk, ccy: Currency): OrderNo -> real {
    (no: OrderNo) => ReservedIn(d, ccy, no)
  }

  /** Cash less what resting buys will need. */
  ghost function Available(d: Desk, ccy: Currency): real {
    CashOf(d, ccy) - Sum(d.reserved.Keys, ReservedBy(d, ccy))
  }

  predicate Crosses(req: Request, ref: Option<real>) {
    ref.Some? && if req.side.Buy? then ref.value <= req.price else ref.value >= req.price
  }

  // ------------------------------------------------------------------
  // Chunks
  // ------------------------------------------------------------------

  /** Towards zero. */
  function Truncated(x: real): real {
    if x >= 0.0 then x.Floor as real else -((-x).Floor as real)
  }

  predicate Whole(x: real) {
    x == Truncated(x)
  }

  function EvenChunk(qty: real, n: nat): real
    requires n > 0
  {
    if Whole(qty) then Truncated(qty / n as real) else qty / n as real
  }

  /** Even pieces first, the rest last; pieces of nothing are left out. */
  function Chunks(qty: real, max: int): seq<real> {
    if max <= 1 then [qty] else Pieces(qty, max - 1, EvenChunk(qty, max))
  }

  function Pieces(qty: real, n: nat, even: real): seq<real> {
    var rest := Left(qty, n, even);
    (if even > 0.0 then Repeat(even, n) else []) + if rest > 0.0 then [rest] else []
  }

  function Left(qty: real, n: nat, even: real): real {
    qty - n as real * even
  }

  function Id(): real -> real {
    x => x
  }

  lemma EvenChunkFits(qty: real, n: nat)
    requires n > 0 && qty >= 0.0
    ensures 0.0 <= EvenChunk(qty, n) && n as real * EvenChunk(qty, n) <= qty
    ensures Whole(qty) ==> EvenChunk(qty, n).Floor as real == EvenChunk(qty, n)
  {
    var r := n as real;
    var even := EvenChunk(qty, n);
    var share := qty / r;
    assert r * share == qty;
    assert share >= 0.0;
    assert share.Floor as real <= share;
    MultipliesUp(r, even, share);
  }

  lemma MultipliesUp(r: real, x: real, y: real)
    requires r >= 0.0 && x <= y
    ensures r * x <= r * y
  {
  }

  /** The pieces add up to the order, each is positive, there are at most as many as allowed, and whole stays whole. */
  lemma ChunksAddUp(qty: real, max: int)
    requires qty >= 0.0
    ensures SumBy(Chunks(qty, max), Id()) == qty
    ensures |Chunks(qty, max)| <= if max <= 1 then 1 else max
    ensures qty > 0.0 ==> Chunks(qty, max) != [] && forall q :: q in Chunks(qty, max) ==> q > 0.0
    ensures forall q :: q in Chunks(qty, max) ==> q >= 0.0
    ensures Whole(qty) ==> forall q :: q in Chunks(qty, max) ==> q.Floor as real == q
  {
    hide EvenChunk, SumBy, Pieces;
    if max <= 1 {
      PiecesAddUp([], qty);
      assert [] + [qty] == [qty];
      SumConstant([], Id(), 0.0);
    } else {
      EvenChunkFits(qty, max);
      LessOne(max, EvenChunk(qty, max));
      PiecesAreWhole(qty, max - 1, EvenChunk(qty, max));
    }
  }

  lemma PiecesAreWhole(qty: real, n: nat, even: real)
    requires n > 0 && even >= 0.0 && n as real * even + even <= qty
    ensures SumBy(Pieces(qty, n, even), Id()) == qty && |Pieces(qty, n, even)| <= n + 1
    ensures qty > 0.0 ==> Pieces(qty, n, even) != []
    ensures forall q :: q in Pieces(qty, n, even) ==> q > 0.0
    ensures Whole(qty) && even.Floor as real == even ==> forall q :: q in Pieces(qty, n, even) ==> q.Floor as real == q
  {
    hide SumBy;
    var front := if even > 0.0 then Repeat(even, n) else [];
    SumConstant(front, Id(), even);
    assert even > 0.0 || n as real * even == 0.0;
    PiecesAddUp(front, Left(qty, n, even));
    if Whole(qty) && even.Floor as real == even {
      WholeRest(qty, n, even);
    }
  }

  lemma LessOne(n: nat, x: real)
    requires n > 0
    ensures n as real * x == (n - 1) as real * x + x
  {
  }

  lemma PiecesAddUp(front: seq<real>, rest: real)
    requires rest >= 0.0
    ensures SumBy(front + if rest > 0.0 then [rest] else [], Id()) == SumBy(front, Id()) + rest
    ensures SumBy(front + [rest], Id()) == SumBy(front, Id()) + rest
  {
    SumAppend(front, rest, Id());
    assert front + [] == front;
  }

  lemma WholeRest(qty: real, n: nat, even: real)
    requires qty >= 0.0 && Whole(qty) && even.Floor as real == even
    ensures (qty - n as real * even).Floor as real == qty - n as real * even
  {
    var whole := qty.Floor - n * even.Floor;
    assert whole as real == qty - n as real * even;
  }

  // ------------------------------------------------------------------
  // Fills
  // ------------------------------------------------------------------

  function Bought(h: Stock, price: real, qty: real): Stock {
    Stock(h.qty + qty, if h.qty + qty > 0.0 then (h.avgPrice * h.qty + price * qty) / (h.qty + qty) else h.avgPrice)
  }

  /** One piece: holdings, cash and the fill. */
  function Apply(cfg: Config, d: Desk, req: Request, price: real, qty: real, no: OrderNo): Desk {
    var notional := Notional(price, qty);
    var fee := cfg.Fee(notional);
    var tax := cfg.Tax(req, notional);
    var key := (req.ticker, req.market);
    var ccy := req.market.Currency();
    var h := if key in d.holdings then d.holdings[key] else Stock(0.0, 0.0);
    d.(holdings := d.holdings[key := if req.side.Buy? then Bought(h, price, qty) else h.(qty := h.qty - qty)],
       cash := d.cash[ccy := if req.side.Buy? then CashOf(d, ccy) - notional - fee else CashOf(d, ccy) + notional - fee - tax],
       fills := d.fills + [Fill(no, qty, price, fee, tax)])
  }

  function ApplyAll(cfg: Config, d: Desk, req: Request, price: real, qs: seq<real>, no: OrderNo): Desk {
    if qs == [] then d
    else Apply(cfg, ApplyAll(cfg, d, req, price, qs[..|qs| - 1], no), req, price, qs[|qs| - 1], no)
  }

  /** The fills of one order. */
  function FilledQty(fills: seq<Fill>, no: OrderNo): real {
    if fills == [] then 0.0
    else FilledQty(fills[..|fills| - 1], no) + if fills[|fills| - 1].no == no then fills[|fills| - 1].qty else 0.0
  }

  // ------------------------------------------------------------------
  // The operations
  // ------------------------------------------------------------------

  datatype Ack = NoMarketPrice | InsufficientFunds | Accepted(no: OrderNo)

  function PriceOf(d: Desk, t: Ticker): Option<real> {
    if t in d.prices then Some(d.prices[t]) else None
  }

  ghost function Submitted(cfg: Config, d: Desk, req: Request): (Desk, Ack) {
    var ref := PriceOf(d, req.ticker);
    var price := cfg.FillPrice(req, ref);
    if req.IsMarket() && ref.None? then (d, NoMarketPrice)
    else if req.side.Buy? && cfg.enforceFunds && cfg.EstimatedCost(price, req.qty) > Available(d, req.market.Currency())
    then (d, InsufficientFunds)
    else
      var no := d.seqNo + 1;
      var d1 := d.(seqNo := no);
      if cfg.restingLimits && !req.IsMarket() && !Crosses(req, ref) then (Rested(cfg, d1, req, no), Accepted(no))
      else (ApplyAll(cfg, d1, req, price, Chunks(req.qty, cfg.maxFillChunks), no), Accepted(no))
  }

  /** Waiting for the market; a buy reserves its cost. */
  function Rested(cfg: Config, d: Desk, req: Request, no: OrderNo): Desk {
    d.(resting := d.resting[no := req],
       reserved := if req.side.Buy? then d.reserved[no := cfg.EstimatedCost(req.price, req.qty)] else d.reserved)
  }

  function Taken(d: Desk, no: OrderNo): Desk {
    d.(resting := d.resting - {no}, reserved := d.reserved - {no})
  }

  /** The price that may touch a resting order: the bar's extreme if there is one, else the price. Zero counts as none. */
  function Touch(req: Request, price: real, low: Option<real>, high: Option<real>): real {
    var extreme := if req.side.Buy? then low else high;
    if extreme.Some? && extreme.value != 0.0 then extreme.value else price
  }

  /** One resting order meets a new price. */
  function Met(cfg: Config, d: Desk, no: OrderNo, t: Ticker, price: real, low: Option<real>, high: Option<real>): Desk {
    if no in d.resting && d.resting[no].ticker == t && Crosses(d.resting[no], Some(Touch(d.resting[no], price, low, high)))
    then ApplyAll(cfg, Taken(d, no), d.resting[no], d.resting[no].price, Chunks(d.resting[no].qty, cfg.maxFillChunks), no)
    else d
  }

  function MetAll(cfg: Config, d: Desk, n: nat, t: Ticker, price: real, low: Option<real>, high: Option<real>): Desk {
    if n == 0 then d else Met(cfg, MetAll(cfg, d, n - 1, t, price, low, high), n, t, price, low, high)
  }

  function Priced(cfg: Config, d: Desk, t: Ticker, price: real, low: Option<real>, high: Option<real>): Desk {
    MetAll(cfg, d.(prices := d.prices[t := price]), d.seqNo, t, price, low, high)
  }

  // ------------------------------------------------------------------
  // Solvency
  // ------------------------------------------------------------------

  /** Reservations belong to resting buys and are exactly their cost. */
  ghost predicate ReservationsOk(cfg: Config, d: Desk) {
    && (forall no :: no in d.resting ==> GoodRequest(d.resting[no]) && !d.resting[no].IsMarket() && 0 < no <= d.seqNo)
    && (forall no :: no in d.reserved <==> no in d.resting && d.resting[no].side.Buy?)
    && (forall no :: no in d.reserved ==> d.reserved[no] == cfg.EstimatedCost(d.resting[no].price, d.resting[no].qty))
  }

  predicate GoodRequest(req: Request) {
    req.qty >= 0.0
  }

  ghost predicate Solvent(d: Desk) {
    forall ccy :: Available(d, ccy) >= 0.0
  }

  ghost predicate DeskOk(cfg: Config, d: Desk) {
    && ReservationsOk(cfg, d)
    && (forall t :: t in d.prices ==> d.prices[t] >= 0.0)
    && (cfg.enforceFunds ==> Solvent(d))
  }

  /** Cost of the pieces together is the cost of the whole. */
  lemma {:induction false} PiecesCost(cfg: Config, d: Desk, req: Request, price: real, qs: seq<real>, no: OrderNo, ccy: Currency)
    ensures var d' := ApplyAll(cfg, d, req, price, qs, no);
      && d' == d.(holdings := d'.holdings, cash := d'.cash, fills := d'.fills)
      && CashOf(d', ccy) == CashOf(d, ccy) +
           if ccy == req.market.Currency() then CashFlow(cfg, req, price, SumBy(qs, Id())) else 0.0
  {
    hide CashFlow;
    FlowOfNothing(cfg, req, price);
    if qs != [] {
      var n := |qs| - 1;
      PiecesCost(cfg, d, req, price, qs[..n], no, ccy);
      OnePieceFlow(cfg, ApplyAll(cfg, d, req, price, qs[..n], no), req, price, qs[n], no, ccy);
      FlowAdds(cfg, req, price, SumBy(qs[..n], Id()), qs[n]);
    }
  }

  /** What a trade of this size moves. */
  function CashFlow(cfg: Config, req: Request, price: real, qty: real): real {
    var notional := Notional(price, qty);
    if req.side.Buy? then -cfg.EstimatedCost(price, qty) else notional - cfg.Fee(notional) - cfg.Tax(req, notional)
  }

  lemma FlowOfNothing(cfg: Config, req: Request, price: real)
    ensures CashFlow(cfg, req, price, 0.0) == 0.0
  {
  }

  lemma FlowAdds(cfg: Config, req: Request, price: real, a: real, b: real)
    ensures CashFlow(cfg, req, price, a + b) == CashFlow(cfg, req, price, a) + CashFlow(cfg, req, price, b)
  {
    assert Notional(price, a + b) == Notional(price, a) + Notional(price, b);
    assert cfg.Fee(Notional(price, a) + Notional(price, b)) == cfg.Fee(Notional(price, a)) + cfg.Fee(Notional(price, b));
    assert cfg.Tax(req, Notional(price, a) + Notional(price, b)) == cfg.Tax(req, Notional(price, a)) + cfg.Tax(req, Notional(price, b));
  }

  lemma OnePieceFlow(cfg: Config, d: Desk, req: Request, price: real, qty: real, no: OrderNo, ccy: Currency)
    ensures var d' := Apply(cfg, d, req, price, qty, no);
      && d' == d.(holdings := d'.holdings, cash := d'.cash, fills := d'.fills)
      && CashOf(d', ccy) == CashOf(d, ccy) + if ccy == req.market.Currency() then CashFlow(cfg, req, price, qty) else 0.0
  {
    hide Notional, Config.Fee, Config.Tax, Bought;
  }

  /** A sale never costs money. */
  lemma SaleBringsIn(cfg: Config, req: Request, price: real, qty: real)
    requires cfg.Sane() && req.side.Sell? && price >= 0.0 && qty >= 0.0
    ensures CashFlow(cfg, req, price, qty) >= 0.0
  {
    SaleBringsInExactlyWhen(cfg, req, price, qty);
  }

  /** A sale costs no money exactly when it is worth nothing or fee and tax together leave something of it. */
  lemma SaleBringsInExactlyWhen(cfg: Config, req: Request, price: real, qty: real)
    requires req.side.Sell? && price >= 0.0 && qty >= 0.0
    ensures CashFlow(cfg, req, price, qty) >= 0.0
       <==> price * qty == 0.0 || cfg.feeBps + (if req.market.Krx? then cfg.sellTaxBps else 0.0) <= 10000.0
  {
    ProductNonNegative(price, qty);
    KeepsPart(Notional(price, qty), cfg.feeBps, if req.market.Krx? then cfg.sellTaxBps else 0.0);
  }

  /** With costs above the proceeds a sale leaves the desk with less than nothing. */
  lemma CostlySaleOverdraws()
    ensures var dear := Config(0.0, 0.0, 6000.0, 6000.0, 1, true, false);
            var sale := Request(7, Krx, Sell, 1.0, 100.0, false);
            var after := Submitted(dear, NewDesk(dear), sale).0;
      GoodRequest(sale) && Solvent(NewDesk(dear)) && Available(after, Krw) == -20.0
  {
    var dear := Config(0.0, 0.0, 6000.0, 6000.0, 1, true, false);
    var sale := Request(7, Krx, Sell, 1.0, 100.0, false);
    var start := NewDesk(dear).(seqNo := 1);
    FilledFlow(dear, start, sale, 100.0, 1, Krw);
    assert Notional(100.0, 1.0) == 100.0 && CashFlow(dear, sale, 100.0, 1.0) == -20.0;
  }

  lemma KeptPart(notional: real, fee: real, tax: real)
    requires notional >= 0.0 && fee >= 0.0 && tax >= 0.0 && fee + tax <= 10000.0
    ensures notional - notional * fee / 10000.0 - notional * tax / 10000.0 >= 0.0
    ensures notional - notional * fee / 10000.0 >= 0.0
    ensures notional * fee / 10000.0 >= 0.0
  {
    assert notional * (10000.0 - fee - tax) >= 0.0;
    assert notional * tax >= 0.0;
    assert notional * fee >= 0.0;
    assert notional * (10000.0 - fee - tax) == notional * 10000.0 - notional * fee - notional * tax;
  }

  lemma SlippedPriceIsPositive(cfg: Config, req: Request, ref: Option<real>)
    requires cfg.Sane() && (ref.Some? ==> ref.value >= 0.0) && (req.IsMarket() ==> ref.Some?)
    ensures cfg.FillPrice(req, ref) >= 0.0
  {
    if req.IsMarket() {
      KeptPart(ref.value, cfg.slippageBps, 0.0);
    }
  }

  /** Same reservations: what is available moves with the cash. */
  lemma SameReservations(d: Desk, d': Desk, ccy: Currency)
    requires d'.reserved == d.reserved && d'.resting == d.resting
    ensures Available(d', ccy) - Available(d, ccy) == CashOf(d', ccy) - CashOf(d, ccy)
  {
    Congruent(d.reserved.Keys, ReservedBy(d, ccy), ReservedBy(d', ccy));
  }

  /** Filling a whole order moves the available cash by its flow. */
  lemma FilledFlow(cfg: Config, d: Desk, req: Request, price: real, no: OrderNo, ccy: Currency)
    requires GoodRequest(req)
    ensures var d' := ApplyAll(cfg, d, req, price, Chunks(req.qty, cfg.maxFillChunks), no);
      && d' == d.(holdings := d'.holdings, cash := d'.cash, fills := d'.fills)
      && Available(d', ccy) == Available(d, ccy) +
           if ccy == req.market.Currency() then CashFlow(cfg, req, price, req.qty) else 0.0
  {
    hide CashFlow, Chunks, ApplyAll, Available;
    var qs := Chunks(req.qty, cfg.maxFillChunks);
    var d' := ApplyAll(cfg, d, req, price, qs, no);
    ChunksAddUp(req.qty, cfg.maxFillChunks);
    PiecesCost(cfg, d, req, price, qs, no, ccy);
    SameReservations(d, d', ccy);
  }

  /** A new reservation takes its amount out of what is available. */
  lemma RestedReserves(cfg: Config, d: Desk, req: Request, no: OrderNo, ccy: Currency)
    requires no !in d.resting && no !in d.reserved
    ensures Available(Rested(cfg, d, req, no), ccy) == Available(d, ccy) -
      if req.side.Buy? && ccy == req.market.Currency() then cfg.EstimatedCost(req.price, req.qty) else 0.0
  {
    hide Config.EstimatedCost;
    var d' := Rested(cfg, d, req, no);
    if req.side.Buy? {
      assert d'.reserved.Keys == d.reserved.Keys + {no};
      Insert(d.reserved.Keys, ReservedBy(d, ccy), ReservedBy(d', ccy), no);
    } else {
      Congruent(d.reserved.Keys, ReservedBy(d, ccy), ReservedBy(d', ccy));
    }
  }

  /** Taking an order off gives its reservation back. */
  lemma TakenReleases(d: Desk, no: OrderNo, ccy: Currency)
    requires no in d.reserved ==> no in d.resting
    ensures Available(Taken(d, no), ccy) == Available(d, ccy) +
      if no in d.reserved && d.resting[no].market.Currency() == ccy then d.reserved[no] else 0.0
  {
    var d' := Taken(d, no);
    if no in d.reserved {
      assert d'.reserved.Keys == d.reserved.Keys - {no};
      Remove(d.reserved.Keys, ReservedBy(d, ccy), ReservedBy(d', ccy), no);
    } else {
      assert d'.reserved == d.reserved;
      Congruent(d.reserved.Keys, ReservedBy(d, ccy), ReservedBy(d', ccy));
    }
  }

  lemma CostNonNegative(cfg: Config, price: real, qty: real)
    requires cfg.Sane() && price >= 0.0 && qty >= 0.0
    ensures cfg.EstimatedCost(price, qty) >= 0.0
  {
    assert Notional(price, qty) >= 0.0;
    KeptPart(Notional(price, qty), cfg.feeBps, 0.0);
  }

  /** A submit keeps the books in order, whatever it is for and whether it fills, rests or is refused. */
  lemma SubmitKeepsDesk(cfg: Config, d: Desk, req: Request)
    requires cfg.Sane() && DeskOk(cfg, d) && GoodRequest(req)
    ensures DeskOk(cfg, Submitted(cfg, d, req).0)
  {
    hide Available, Config.EstimatedCost, Config.FillPrice, Chunks, ApplyAll;
    var ref := PriceOf(d, req.ticker);
    var price := cfg.FillPrice(req, ref);
    var (d', ack) := Submitted(cfg, d, req);
    if ack.Accepted? {
      var no := d.seqNo + 1;
      var d1 := d.(seqNo := no);
      SlippedPriceIsPositive(cfg, req, ref);
      LimitPrice(cfg, req, ref);
      var rests := cfg.restingLimits && !req.IsMarket() && !Crosses(req, ref);
      SubmitMoves(cfg, d1, req, price, no, rests, Krw);
      forall ccy
        ensures cfg.enforceFunds ==> Available(d', ccy) >= 0.0
      {
        SameReservations(d, d1, ccy);
        SubmitMoves(cfg, d1, req, price, no, rests, ccy);
      }
    }
  }

  lemma LimitPrice(cfg: Config, req: Request, ref: Option<real>)
    ensures !req.IsMarket() ==> cfg.FillPrice(req, ref) == req.price
  {
  }

  lemma SubmitMoves(cfg: Config, d: Desk, req: Request, price: real, no: OrderNo, rests: bool, ccy: Currency)
    requires cfg.Sane() && GoodRequest(req) && price >= 0.0 && no !in d.resting && no !in d.reserved
    requires rests ==> price == req.price
    ensures var d' := if rests then Rested(cfg, d, req, no) else ApplyAll(cfg, d, req, price, Chunks(req.qty, cfg.maxFillChunks), no);
      && (!rests ==> d' == d.(holdings := d'.holdings, cash := d'.cash, fills := d'.fills))
      && Available(d', ccy) >= Available(d, ccy) -
           if req.side.Buy? && ccy == req.market.Currency() then cfg.EstimatedCost(price, req.qty) else 0.0
  {
    if rests {
      RestedReserves(cfg, d, req, no, ccy);
    } else {
      FilledFlow(cfg, d, req, price, no, ccy);
      if req.side.Sell? {
        SaleBringsIn(cfg, req, price, req.qty);
      }
    }
  }

  lemma CancelKeepsDesk(cfg: Config, d: Desk, no: OrderNo)
    requires cfg.Sane() && DeskOk(cfg, d)
    ensures DeskOk(cfg, Taken(d, no))
  {
    hide Available, Config.EstimatedCost;
    forall ccy
      ensures cfg.enforceFunds ==> Available(Taken(d, no), ccy) >= 0.0
    {
      TakenReleases(d, no, ccy);
      if no in d.reserved {
        CostNonNegative(cfg, d.resting[no].price, d.resting[no].qty);
      }
    }
  }

  /** A touched order is filled out of its own reservation. */
  lemma MetKeepsDesk(cfg: Config, d: Desk, no: OrderNo, t: Ticker, price: real, low: Option<real>, high: Option<real>)
    requires cfg.Sane() && DeskOk(cfg, d)
    ensures DeskOk(cfg, Met(cfg, d, no, t, price, low, high)) && Met(cfg, d, no, t, price, low, high).seqNo == d.seqNo
  {
    hide Available, Config.EstimatedCost, Chunks, ApplyAll, CashFlow;
    var d' := Met(cfg, d, no, t, price, low, high);
    if d' != d {
      var req := d.resting[no];
      var d1 := Taken(d, no);
      CancelKeepsDesk(cfg, d, no);
      FilledFlow(cfg, d1, req, req.price, no, Krw);
      forall ccy
        ensures cfg.enforceFunds ==> Available(d', ccy) >= 0.0
      {
        TakenReleases(d, no, ccy);
        FilledFlow(cfg, d1, req, req.price, no, ccy);
        FlowIs(cfg, req, req.price);
        if req.side.Sell? {
          SaleBringsIn(cfg, req, req.price, req.qty);
        }
      }
    }
  }

  lemma FlowIs(cfg: Config, req: Request, price: real)
    ensures req.side.Buy? ==> CashFlow(cfg, req, price, req.qty) == -cfg.EstimatedCost(price, req.qty)
  {
  }

  lemma {:induction false} MetAllKeepsDesk(cfg: Config, d: Desk, n: nat, t: Ticker, price: real, low: Option<real>, high: Option<real>)
    requires cfg.Sane() && DeskOk(cfg, d)
    ensures DeskOk(cfg, MetAll(cfg, d, n, t, price, low, high))
  {
    if n > 0 {
      MetAllKeepsDesk(cfg, d, n - 1, t, price, low, high);
      hide DeskOk, Met;
      MetKeepsDesk(cfg, MetAll(cfg, d, n - 1, t, price, low, high), n, t, price, low, high);
    }
  }

  lemma PriceKeepsDesk(cfg: Config, d: Desk, t: Ticker, price: real, low: Option<real>, high: Option<real>)
    requires cfg.Sane() && DeskOk(cfg, d) && price >= 0.0
    ensures DeskOk(cfg, Priced(cfg, d, t, price, low, high))
  {
    var d1 := d.(prices := d.prices[t := price]);
    assert DeskOk(cfg, d1) by {
      hide Available;
      forall ccy
        ensures Available(d1, ccy) == Available(d, ccy)
      {
        SameReservations(d, d1, ccy);
      }
    }
    MetAllKeepsDesk(cfg, d1, d.seqNo, t, price, low, high);
  }

  // ------------------------------------------------------------------
  // Runs
  // ------------------------------------------------------------------

  datatype Op =
    | Submit(req: Request)
    | Cancel(no: OrderNo)
    | MarketPrice(ticker: Ticker, price: real, low: Option<real>, high: Option<real>)

  /** What the broker's customers and its price feed may send. */
  predicate GoodOp(op: Op) {
    match op
    case Submit(req) => GoodRequest(req)
    case Cancel(_) => true
    case MarketPrice(_, price, _, _) => price >= 0.0
  }

  ghost function After(cfg: Config, d: Desk, op: Op): Desk {
    match op
    case Submit(req) => Submitted(cfg, d, req).0
    case Cancel(no) => Taken(d, no)
    case MarketPrice(t, price, low, high) => Priced(cfg, d, t, price, low, high)
  }

  ghost function RunOf(cfg: Config, ops: seq<Op>): Desk {
    if ops == [] then NewDesk(cfg) else After(cfg, RunOf(cfg, ops[..|ops| - 1]), ops[|ops| - 1])
  }

  /** With funds enforced, every interleaving leaves cash less reservations at zero or more, in every currency. */
  lemma {:induction false} EveryRunIsSolvent(cfg: Config, ops: seq<Op>)
    requires cfg.Sane() && forall i :: 0 <= i < |ops| ==> GoodOp(ops[i])
    ensures DeskOk(cfg, RunOf(cfg, ops))
    ensures cfg.enforceFunds ==> Solvent(RunOf(cfg, ops))
  {
    if ops == [] {
      forall ccy
        ensures Available(NewDesk(cfg), ccy) >= 0.0
      {
      }
    } else {
      var n := |ops| - 1;
      EveryRunIsSolvent(cfg, ops[..n]);
      var d := RunOf(cfg, ops[..n]);
      match ops[n]
      case Submit(req) => SubmitKeepsDesk(cfg, d, req);
      case Cancel(no) => CancelKeepsDesk(cfg, d, no);
      case MarketPrice(t, price, low, high) => PriceKeepsDesk(cfg, d, t, price, low, high);
    }
  }

  // ------------------------------------------------------------------
  // Every order fills in full, at once, or not at all
  // ------------------------------------------------------------------

  /** Fills belong to numbers handed out, and an order still resting has none. */
  ghost predicate FillsOk(d: Desk) {
    && (forall no :: no in d.resting ==> 0 < no <= d.seqNo)
    && (forall no :: no in d.resting || no > d.seqNo ==> FilledQty(d.fills, no) == 0.0)
  }

  lemma {:induction false} PiecesFill(cfg: Config, d: Desk, req: Request, price: real, qs: seq<real>, no: OrderNo, other: OrderNo)
    ensures FilledQty(ApplyAll(cfg, d, req, price, qs, no).fills, other)
         == FilledQty(d.fills, other) + if other == no then SumBy(qs, Id()) else 0.0
    ensures ApplyAll(cfg, d, req, price, qs, no).resting == d.resting
    ensures ApplyAll(cfg, d, req, price, qs, no).seqNo == d.seqNo
  {
    if qs != [] {
      var n := |qs| - 1;
      PiecesFill(cfg, d, req, price, qs[..n], no, other);
      var d1 := ApplyAll(cfg, d, req, price, qs[..n], no);
      var d2 := Apply(cfg, d1, req, price, qs[n], no);
      assert d2.fills[..|d1.fills|] == d1.fills;
    }
  }

  lemma FillsTheWholeOrder(cfg: Config, d: Desk, req: Request, price: real, no: OrderNo, other: OrderNo)
    requires GoodRequest(req)
    ensures var d' := ApplyAll(cfg, d, req, price, Chunks(req.qty, cfg.maxFillChunks), no);
      && FilledQty(d'.fills, other) == FilledQty(d.fills, other) + (if other == no then req.qty else 0.0)
      && d'.resting == d.resting && d'.seqNo == d.seqNo
  {
    ChunksAddUp(req.qty, cfg.maxFillChunks);
    PiecesFill(cfg, d, req, price, Chunks(req.qty, cfg.maxFillChunks), no, other);
  }

  /** A submit that is accepted either rests unfilled or is filled to its whole quantity; other orders are untouched. */
  lemma SubmitFillsAllOrNothing(cfg: Config, d: Desk, req: Request)
    requires FillsOk(d) && GoodRequest(req)
    ensures var (d', ack) := Submitted(cfg, d, req);
      && FillsOk(d')
      && (ack.Accepted? ==> FilledQty(d'.fills, ack.no) == if ack.no in d'.resting then 0.0 else req.qty)
      && (forall other :: !(ack.Accepted? && other == ack.no) ==> FilledQty(d'.fills, other) == FilledQty(d.fills, other))
  {
    hide Available, Chunks, ApplyAll, FilledQty, Config.EstimatedCost, Config.FillPrice;
    var (d', ack) := Submitted(cfg, d, req);
    if ack.Accepted? {
      var d1 := d.(seqNo := ack.no);
      var price := cfg.FillPrice(req, PriceOf(d, req.ticker));
      FillsTheWholeOrder(cfg, d1, req, price, ack.no, ack.no);
      forall other
        ensures FilledQty(d'.fills, other) == FilledQty(d.fills, other) + if other == ack.no && ack.no !in d'.resting then req.qty else 0.0
      {
        FillsTheWholeOrder(cfg, d1, req, price, ack.no, other);
      }
    }
  }

  /** A touched resting order is filled to its whole quantity and leaves the book; other orders are untouched. */
  lemma MetFillsAllOrNothing(
    cfg: Config, d: Desk, no: OrderNo, t: Ticker, price: real, low: Option<real>, high: Option<real>)
    requires FillsOk(d) && forall n :: n in d.resting ==> GoodRequest(d.resting[n])
    ensures var d' := Met(cfg, d, no, t, price, low, high);
      && FillsOk(d')
      && (no in d.resting ==> FilledQty(d'.fills, no) == if no in d'.resting then 0.0 else d.resting[no].qty)
      && (forall other :: other != no ==> FilledQty(d'.fills, other) == FilledQty(d.fills, other))
      && (forall n :: n in d'.resting ==> n in d.resting && d'.resting[n] == d.resting[n])
  {
    hide Chunks, ApplyAll, FilledQty, Config.EstimatedCost;
    var d' := Met(cfg, d, no, t, price, low, high);
    if d' != d {
      var d1 := Taken(d, no);
      FillsTheWholeOrder(cfg, d1, d.resting[no], d.resting[no].price, no, no);
      forall other
        ensures FilledQty(d'.fills, other) == FilledQty(d.fills, other) + if other == no then d.resting[no].qty else 0.0
      {
        FillsTheWholeOrder(cfg, d1, d.resting[no], d.resting[no].price, no, other);
      }
    }
  }

  ghost predicate GoodResting(d: Desk) {
    forall n :: n in d.resting ==> GoodRequest(d.resting[n])
  }

  lemma {:induction false} MetAllKeepsFills(cfg: Config, d: Desk, n: nat, t: Ticker, price: real, low: Option<real>, high: Option<real>)
    requires FillsOk(d) && GoodResting(d)
    ensures var d' := MetAll(cfg, d, n, t, price, low, high);
      FillsOk(d') && GoodResting(d')
  {
    if n > 0 {
      MetAllKeepsFills(cfg, d, n - 1, t, price, low, high);
      hide Met, FillsOk;
      MetFillsAllOrNothing(cfg, MetAll(cfg, d, n - 1, t, price, low, high), n, t, price, low, high);
    }
  }

  /** In every run an order that rests has no fill yet, and one that was filled no longer rests. */
  lemma {:induction false} EveryRunFillsAllOrNothing(cfg: Config, ops: seq<Op>)
    requires forall i :: 0 <= i < |ops| ==> GoodOp(ops[i])
    ensures FillsOk(RunOf(cfg, ops)) && GoodResting(RunOf(cfg, ops))
  {
    if ops != [] {
      var n := |ops| - 1;
      EveryRunFillsAllOrNothing(cfg, ops[..n]);
      var d := RunOf(cfg, ops[..n]);
      assert GoodOp(ops[n]);
      match ops[n]
      case Submit(req) =>
        SubmitFillsAllOrNothing(cfg, d, req);
        SubmitRestsOnlyItsOwn(cfg, d, req);
      case Cancel(no) =>
      case MarketPrice(t, price, low, high) =>
        MetAllKeepsFills(cfg, d.(prices := d.prices[t := price]), d.seqNo, t, price, low, high);
    }
  }

  lemma SubmitRestsOnlyItsOwn(cfg: Config, d: Desk, req: Request)
    ensures var d' := Submitted(cfg, d, req).0;
      forall n :: n in d'.resting ==> (n in d.resting && d'.resting[n] == d.resting[n]) || d'.resting[n] == req
  {
    hide Available, Chunks, ApplyAll, Config.EstimatedCost;
    var price := cfg.FillPrice(req, PriceOf(d, req.ticker));
    PiecesFill(cfg, d.(seqNo := d.seqNo + 1), req, price, Chunks(req.qty, cfg.maxFillChunks), d.seqNo + 1, 0);
  }
}
