/**
 What survives a crash: the orders the broker really has, and the orders and positions tables. The functions are the
 single writes the engine or the broker makes to them; Durable is what each of these writes keeps.
 */
module Account {
  import opened Domain
  import opened Ledgers
  import opened FillPoller
  import opened Sums

  /** An order as the broker has it. It can still execute while it is working and not fully executed. */
  datatype BrokerOrder = BrokerOrder(no: OrderNo, overseas: bool, qty: real, exec: real, working: bool)

  /** A row of the orders table; totals are the column sums over its fill rows. */
  datatype OrderRow = OrderRow(
    lot: LotId, side: Side, qty: real, price: real, createdAt: nat,
    no: Option<OrderNo>, state: OrderState, totals: Totals)

  /** broker is the truth nobody in the engine can read directly; orders and positions are the tables. */
  datatype Account = Account(
    broker: map<Cid, BrokerOrder>,
    orders: map<Cid, OrderRow>,
    positions: map<LotId, PositionRow>)

  /** Shares of the order the broker has executed. */
  function Exec(a: Account, c: Cid): real {
    if c in a.broker then a.broker[c].exec else 0.0
  }

  /** Executed but not yet in the fills table. */
  function Unread(a: Account, c: Cid): real
    requires c in a.orders
  {
    Exec(a, c) - a.orders[c].totals.qty
  }

  /** The broker can still execute part of the order. */
  predicate Live(a: Account, c: Cid)
    requires c in a.orders
  {
    c in a.broker && a.broker[c].working && a.broker[c].exec < a.orders[c].qty
  }

  function Sign(s: Side): real {
    if s.Buy? then 1.0 else -1.0
  }

  /** Contribution of one order to the shares the broker holds for the lot. */
  function Executed(a: Account, l: LotId, c: Cid): real {
    if c in a.orders && a.orders[c].lot == l then Sign(a.orders[c].side) * Exec(a, c) else 0.0
  }

  /** Contribution of one order to the shares the tables record for the lot. */
  function Recorded(a: Account, l: LotId, c: Cid): real {
    if c in a.orders && a.orders[c].lot == l then Sign(a.orders[c].side) * a.orders[c].totals.qty else 0.0
  }

  /** Shares the broker really holds for a lot. */
  ghost function BrokerHolding(a: Account, l: LotId): real {
    Sum(a.orders.Keys, (c: Cid) => Executed(a, l, c))
  }

  ghost function RecordedHolding(a: Account, l: LotId): real {
    Sum(a.orders.Keys, (c: Cid) => Recorded(a, l, c))
  }

  // ------------------------------------------------------------------
  // The invariant
  // ------------------------------------------------------------------

  ghost predicate OrderOk(a: Account, c: Cid)
    requires c in a.orders
  {
    var o := a.orders[c];
    && o.lot in a.positions
    && 0.0 <= o.totals.qty <= Exec(a, c) <= o.qty && 0.0 < o.qty
    && (o.state.Expired? || (o.no.Some? <==> o.state.HasNumber()))
    && (c in a.broker ==> a.broker[c].qty == o.qty && a.broker[c].overseas == a.positions[o.lot].overseas)
    && (o.no.Some? ==> c in a.broker && a.broker[c].no == o.no.value)
    && (o.state.IsOpen() ==> o.totals.qty < o.qty)
    && (o.state.Filled? ==> o.totals.qty == o.qty)
    && (o.state.CancelledOrder? ==> !a.broker[c].working)
    && (o.state.Rejected? ==> c !in a.broker)
    && (o.state.Expired? ==> ReadAndStopped(a, c))
  }

  /** An order of an earlier day: read to the end, and nothing of it works any more. */
  predicate ReadAndStopped(a: Account, c: Cid)
    requires c in a.orders
  {
    Unread(a, c) == 0.0 && if a.orders[c].no.Some? then c in a.broker && !a.broker[c].working else c !in a.broker
  }

  ghost predicate OrdersOk(a: Account) {
    && a.broker.Keys <= a.orders.Keys
    && (forall c :: c in a.orders ==> OrderOk(a, c))
    && DistinctNumbers(a)
  }

  ghost predicate DistinctNumbers(a: Account) {
    forall c, d :: c in a.broker && d in a.broker && a.broker[c].no == a.broker[d].no ==> c == d
  }

  predicate SameSlot(a: Account, c: Cid, d: Cid)
    requires c in a.orders && d in a.orders
  {
    a.orders[c].lot == a.orders[d].lot && a.orders[c].side == a.orders[d].side
  }

  predicate BothOpen(a: Account, c: Cid, d: Cid)
    requires c in a.orders && d in a.orders
  {
    SameSlot(a, c, d) && a.orders[c].state.IsOpen() && a.orders[d].state.IsOpen()
  }

  ghost predicate OneOpenPerSide(a: Account) {
    forall c, d :: c in a.orders && d in a.orders && BothOpen(a, c, d) ==> c == d
  }

  /** Shares the recorded position may still lose to the order. */
  function AtRisk(a: Account, c: Cid): real
    requires c in a.orders
  {
    if a.orders[c].state.IsOpen() then a.orders[c].qty - a.orders[c].totals.qty else Unread(a, c)
  }

  predicate Covered(a: Account, c: Cid)
    requires c in a.orders
  {
    var o := a.orders[c];
    o.side.Sell? && o.lot in a.positions ==> AtRisk(a, c) <= a.positions[o.lot].qtyFilled
  }

  predicate BothAtRisk(a: Account, c: Cid, d: Cid)
    requires c in a.orders && d in a.orders
  {
    SameSlot(a, c, d) && a.orders[c].side.Sell? && AtRisk(a, c) > 0.0 && AtRisk(a, d) > 0.0
  }

  /** A sell puts no more at risk than is recorded, and at most one sell of a lot puts anything at risk. */
  ghost predicate SellsCovered(a: Account) {
    && (forall c :: c in a.orders ==> Covered(a, c))
    && (forall c, d :: c in a.orders && d in a.orders && BothAtRisk(a, c, d) ==> c == d)
  }

  predicate RowOk(row: PositionRow) {
    && row.state in {Watching, Holding, Closed}
    && row.qtyFilled >= 0.0
    && (row.state.Holding? <==> row.qtyFilled > 0.0)
  }

  ghost predicate PositionsOk(a: Account) {
    forall l :: l in a.positions ==> RowOk(a.positions[l]) && a.positions[l].qtyFilled == RecordedHolding(a, l)
  }

  ghost predicate Durable(a: Account) {
    OrdersOk(a) && OneOpenPerSide(a) && SellsCovered(a) && PositionsOk(a)
  }

  // ------------------------------------------------------------------
  // What Durable means for the account
  // ------------------------------------------------------------------

  /** At most one order per lot and side can still execute, and its row is open. */
  lemma SingleLiveOrder(a: Account, c: Cid, d: Cid)
    requires Durable(a) && c in a.orders && d in a.orders && SameSlot(a, c, d)
    requires Live(a, c) && Live(a, d)
    ensures c == d && a.orders[c].state.IsOpen()
  {
    assert OrderOk(a, c) && OrderOk(a, d);
  }

  /** Signed unread shares of one order of the lot. */
  function Gap(a: Account, l: LotId, c: Cid): real {
    Executed(a, l, c) - Recorded(a, l, c)
  }

  /** Broker holding minus recorded holding is the signed sum of what has not been read yet. */
  lemma HoldingGap(a: Account, l: LotId)
    ensures BrokerHolding(a, l) - RecordedHolding(a, l) == Sum(a.orders.Keys, (c: Cid) => Gap(a, l, c))
  {
    Difference(a.orders.Keys, (c: Cid) => Executed(a, l, c), (c: Cid) => Recorded(a, l, c),
               (c: Cid) => Gap(a, l, c));
  }

  /** If no sell of the lot but c puts shares at risk, the broker holds at least the recorded shares less c's unread. */
  lemma GapAtLeast(a: Account, l: LotId, c: Cid)
    requires Durable(a) && l in a.positions && c in a.orders
    requires forall d :: d in a.orders && d != c && a.orders[d].lot == l && a.orders[d].side.Sell? ==> AtRisk(a, d) <= 0.0
    ensures BrokerHolding(a, l) >= a.positions[l].qtyFilled + Min(0.0, Gap(a, l, c))
  {
    forall d | d in a.orders.Keys && d != c
      ensures Gap(a, l, d) >= 0.0
    {
      assert OrderOk(a, d);
    }
    AtLeast(a.orders.Keys, (d: Cid) => Gap(a, l, d), c);
    HoldingGap(a, l);
  }

  /** The unfilled rest of a live sell never exceeds the shares the broker really holds for the lot. */
  lemma NoOversell(a: Account, c: Cid)
    requires Durable(a) && c in a.orders && a.orders[c].side.Sell? && Live(a, c)
    ensures a.orders[c].qty - Exec(a, c) <= BrokerHolding(a, a.orders[c].lot)
  {
    assert OrderOk(a, c);
    forall d | d in a.orders && d != c && a.orders[d].lot == a.orders[c].lot && a.orders[d].side.Sell?
      ensures AtRisk(a, d) <= 0.0
    {
      assert !BothAtRisk(a, c, d);
    }
    GapAtLeast(a, a.orders[c].lot, c);
    assert Covered(a, c);
  }

  /** With every execution of the lot's orders read, the tables hold exactly what the broker holds. */
  lemma ReadMeansEqual(a: Account, l: LotId)
    requires forall c :: c in a.orders && a.orders[c].lot == l ==> Unread(a, c) == 0.0
    ensures BrokerHolding(a, l) == RecordedHolding(a, l)
  {
    HoldingGap(a, l);
    AllZero(a.orders.Keys, (c: Cid) => Gap(a, l, c));
  }

  /** Nothing is ever sold short, however much of what the broker did is still unread. */
  lemma NeverShort(a: Account, l: LotId)
    requires Durable(a) && l in a.positions
    ensures BrokerHolding(a, l) >= 0.0
  {
    if c :| c in a.orders && a.orders[c].lot == l && a.orders[c].side.Sell? && AtRisk(a, c) > 0.0 {
      forall d | d in a.orders && d != c && a.orders[d].lot == l && a.orders[d].side.Sell?
        ensures AtRisk(a, d) <= 0.0
      {
        assert !BothAtRisk(a, c, d);
      }
      GapAtLeast(a, l, c);
      assert OrderOk(a, c) && Covered(a, c);
    } else if c :| c in a.orders {
      GapAtLeast(a, l, c);
      assert OrderOk(a, c);
    } else {
      assert a.orders.Keys == {};
    }
  }
}
