/** Every write to the account, by the engine or by the broker, and why it keeps the account durable. */
module AccountSteps {
  import opened Domain
  import opened Position
  import opened Ledgers
  import opened FillPoller
  import opened Sums
  import opened Account

  // ------------------------------------------------------------------
  // The broker: an adversary inside a contract
  // ------------------------------------------------------------------

  /**
   Whatever the broker does on its own or in answer to a request: it may execute any order that is working, stop any
   order, and take in an order whose submit is still unanswered. It never takes back an execution, never works an
   order it has stopped, and never reuses a number.
   */
  ghost predicate BrokerMoves(a: Account, b: map<Cid, BrokerOrder>) {
    && (forall c :: c in a.broker ==> c in b && SameOrderLater(a.broker[c], b[c]))
    && (forall c :: c in b ==> c in a.orders && 0.0 <= b[c].exec <= b[c].qty)
    && (forall c :: c in b && c !in a.broker ==> IsCopyOf(b[c], a, c))
    && (forall c, d :: c in b && d in b && b[c].no == b[d].no ==> c == d)
  }

  /** A newly taken order is the one whose submit is unanswered. */
  predicate IsCopyOf(b: BrokerOrder, a: Account, c: Cid)
    requires c in a.orders
  {
    var o := a.orders[c];
    && (o.state.PendingNew? || o.state.Unknown?) && b.qty == o.qty
    && (o.lot in a.positions ==> b.overseas == a.positions[o.lot].overseas)
  }

  predicate SameOrderLater(x: BrokerOrder, y: BrokerOrder) {
    && y.no == x.no && y.overseas == x.overseas && y.qty == x.qty && x.exec <= y.exec
    && (!x.working ==> !y.working && y.exec == x.exec)
  }

  lemma SameHolding(a: Account, b: Account, l: LotId)
    requires a.orders.Keys == b.orders.Keys
    requires forall c :: c in a.orders ==> Recorded(a, l, c) == Recorded(b, l, c)
    ensures RecordedHolding(a, l) == RecordedHolding(b, l)
  {
    Congruent(a.orders.Keys, (c: Cid) => Recorded(a, l, c), (c: Cid) => Recorded(b, l, c));
  }

  lemma SameRecord(a: Account, b: Account)
    requires a.orders.Keys == b.orders.Keys && a.positions.Keys == b.positions.Keys && PositionsOk(a)
    requires forall l :: l in b.positions ==> RowOk(b.positions[l]) && b.positions[l].qtyFilled == a.positions[l].qtyFilled
    requires forall c :: c in a.orders ==>
      && a.orders[c].lot == b.orders[c].lot && a.orders[c].side == b.orders[c].side
      && a.orders[c].totals == b.orders[c].totals
    ensures PositionsOk(b)
  {
    forall l | l in b.positions
      ensures RecordedHolding(b, l) == RecordedHolding(a, l)
    {
      SameHolding(a, b, l);
    }
  }

  /** No order opens, none puts more at risk, and the recorded quantities stay. */
  ghost predicate Narrower(a: Account, b: Account) {
    && a.orders.Keys == b.orders.Keys && a.positions.Keys <= b.positions.Keys
    && (forall c :: c in a.orders ==> NarrowerOrder(a, b, c))
    && (forall l :: l in a.positions ==> a.positions[l].qtyFilled == b.positions[l].qtyFilled)
  }

  predicate NarrowerOrder(a: Account, b: Account, c: Cid)
    requires c in a.orders && c in b.orders
  {
    && a.orders[c].lot == b.orders[c].lot && a.orders[c].side == b.orders[c].side
    && (b.orders[c].state.IsOpen() ==> a.orders[c].state.IsOpen())
    && AtRisk(b, c) <= AtRisk(a, c)
  }

  lemma NarrowerKeepsCover(a: Account, b: Account)
    requires OneOpenPerSide(a) && SellsCovered(a) && Narrower(a, b)
    requires forall c :: c in a.orders ==> a.orders[c].lot in a.positions
    ensures OneOpenPerSide(b) && SellsCovered(b)
  {
    forall c | c in b.orders
      ensures Covered(b, c)
    {
      assert NarrowerOrder(a, b, c) && Covered(a, c);
    }
    forall c, d | c in b.orders && d in b.orders && BothAtRisk(b, c, d)
      ensures c == d
    {
      assert NarrowerOrder(a, b, c) && NarrowerOrder(a, b, d) && BothAtRisk(a, c, d);
    }
    forall c, d | c in b.orders && d in b.orders && BothOpen(b, c, d)
      ensures c == d
    {
      assert NarrowerOrder(a, b, c) && NarrowerOrder(a, b, d) && BothOpen(a, c, d);
    }
  }

  /** An order that is in order afterwards, with nothing more at risk and the same record. */
  ghost predicate StaysOk(a: Account, b: Account, c: Cid)
    requires c in a.orders && c in b.orders
  {
    OrderOk(b, c) && NarrowerOrder(a, b, c) && a.orders[c].totals == b.orders[c].totals
  }

  /** The same rows with the same quantities. */
  ghost predicate SameRows(a: Account, b: Account) {
    && a.positions.Keys == b.positions.Keys
    && forall l :: l in a.positions ==> RowOk(b.positions[l]) && b.positions[l].qtyFilled == a.positions[l].qtyFilled
  }

  lemma UnchangedRows(a: Account, b: Account)
    requires PositionsOk(a) && b.positions == a.positions
    ensures SameRows(a, b)
  {
    hide RowOk;
  }

  /** A change that widens nothing and records nothing keeps the account durable. */
  lemma NarrowerKeepsDurable(a: Account, b: Account)
    requires Durable(a) && a.orders.Keys == b.orders.Keys && SameRows(a, b)
    requires b.broker.Keys <= b.orders.Keys && DistinctNumbers(b)
    requires forall c :: c in a.orders ==> StaysOk(a, b, c)
    ensures Durable(b)
  {
    hide OneOpenPerSide, SellsCovered, PositionsOk, DistinctNumbers;
    forall c | c in a.orders
      ensures NarrowerOrder(a, b, c) && OrderOk(b, c) && a.orders[c].lot in a.positions
    {
      assert StaysOk(a, b, c) && OrderOk(a, c);
    }
    forall c | c in a.orders
      ensures a.orders[c].lot == b.orders[c].lot && a.orders[c].side == b.orders[c].side
      ensures a.orders[c].totals == b.orders[c].totals
    {
      assert StaysOk(a, b, c);
    }
    hide OrderOk, StaysOk, NarrowerOrder;
    NarrowerKeepsCover(a, b);
    SameRecord(a, b);
  }

  lemma BrokerKeepsDurable(a: Account, b: map<Cid, BrokerOrder>)
    requires Durable(a) && BrokerMoves(a, b)
    ensures Durable(a.(broker := b))
  {
    hide OneOpenPerSide, SellsCovered, PositionsOk;
    var a' := a.(broker := b);
    forall c | c in a.orders
      ensures StaysOk(a, a', c)
    {
      assert OrderOk(a, c);
    }
    UnchangedRows(a, a');
    hide OrderOk, StaysOk;
    NarrowerKeepsDurable(a, a');
  }

  // ------------------------------------------------------------------
  // The engine's writes
  // ------------------------------------------------------------------

  /** submit, first commit: the row exists before the broker hears of the order. */
  function Persisted(a: Account, c: Cid, lot: LotId, side: Side, qty: real, price: real, at: nat): Account {
    a.(orders := a.orders[c := OrderRow(lot, side, qty, price, at, None, PendingNew, Nothing)])
  }

  /** What must be true for a new order to be safe. */
  ghost predicate MayPlace(a: Account, c: Cid, lot: LotId, side: Side, qty: real) {
    && c !in a.orders && lot in a.positions && qty > 0.0
    && (forall d :: d in a.orders && a.orders[d].lot == lot && a.orders[d].side == side ==> !a.orders[d].state.IsOpen())
    && (side.Sell? ==>
          && qty <= a.positions[lot].qtyFilled
          && forall d :: d in a.orders && a.orders[d].lot == lot && a.orders[d].side.Sell? ==> AtRisk(a, d) <= 0.0)
  }

  lemma PersistKeepsDurable(a: Account, c: Cid, lot: LotId, side: Side, qty: real, price: real, at: nat)
    requires Durable(a) && MayPlace(a, c, lot, side, qty)
    ensures Durable(Persisted(a, c, lot, side, qty, price, at))
  {
    hide OneOpenPerSide, SellsCovered, PositionsOk, DistinctNumbers;
    var a' := Persisted(a, c, lot, side, qty, price, at);
    forall d | d in a'.orders
      ensures OrderOk(a', d)
      ensures d != c ==> AtRisk(a', d) == AtRisk(a, d)
    {
      assert d != c ==> OrderOk(a, d);
      assert c !in a.broker;
    }
    SameBrokerSameNumbers(a, a');
    hide OrderOk, MayPlace;
    PersistKeepsCover(a, c, lot, side, qty, price, at);
    PersistKeepsPositions(a, c, lot, side, qty, price, at);
  }

  lemma PersistKeepsPositions(a: Account, c: Cid, lot: LotId, side: Side, qty: real, price: real, at: nat)
    requires PositionsOk(a) && c !in a.orders
    ensures PositionsOk(Persisted(a, c, lot, side, qty, price, at))
  {
    hide RowOk;
    var a' := Persisted(a, c, lot, side, qty, price, at);
    forall l | l in a'.positions
      ensures RecordedHolding(a', l) == RecordedHolding(a, l)
    {
      UnfilledRowAddsNothing(a, c, lot, side, qty, price, at, l);
    }
  }

  lemma UnfilledRowAddsNothing(
    a: Account, c: Cid, lot: LotId, side: Side, qty: real, price: real, at: nat, l: LotId)
    requires c !in a.orders
    ensures RecordedHolding(Persisted(a, c, lot, side, qty, price, at), l) == RecordedHolding(a, l)
  {
    var a' := Persisted(a, c, lot, side, qty, price, at);
    assert a'.orders.Keys == a.orders.Keys + {c};
    Insert(a.orders.Keys, (d: Cid) => Recorded(a, l, d), (d: Cid) => Recorded(a', l, d), c);
  }

  lemma PersistKeepsCover(a: Account, c: Cid, lot: LotId, side: Side, qty: real, price: real, at: nat)
    requires OneOpenPerSide(a) && SellsCovered(a) && MayPlace(a, c, lot, side, qty)
    requires forall d :: d in a.orders ==> AtRisk(Persisted(a, c, lot, side, qty, price, at), d) == AtRisk(a, d)
    ensures OneOpenPerSide(Persisted(a, c, lot, side, qty, price, at))
    ensures SellsCovered(Persisted(a, c, lot, side, qty, price, at))
  {
    var a' := Persisted(a, c, lot, side, qty, price, at);
    forall d | d in a'.orders
      ensures Covered(a', d)
    {
      assert d != c ==> Covered(a, d);
    }
    forall d, e | d in a'.orders && e in a'.orders && BothAtRisk(a', d, e)
      ensures d == e
    {
      assert d != c && e != c ==> BothAtRisk(a, d, e);
    }
    forall d, e | d in a'.orders && e in a'.orders && BothOpen(a', d, e)
      ensures d == e
    {
      assert d != c && e != c ==> BothOpen(a, d, e);
    }
  }

  /** A row moved to another state, with the order number it is stored with. */
  function Moved(a: Account, c: Cid, to: OrderState, no: Option<OrderNo>): Account
    requires c in a.orders
  {
    a.(orders := a.orders[c := a.orders[c].(state := to, no := no)])
  }

  /** The moves the engine makes besides fills, each with what it knows about the broker. */
  ghost predicate MayMove(a: Account, c: Cid, to: OrderState, no: Option<OrderNo>) {
    && c in a.orders
    && var o := a.orders[c];
       match to
       case New => (o.state.PendingNew? || o.state.Unknown?) && c in a.broker && no == Some(a.broker[c].no)
       case Unknown => o.state.PendingNew? && no == o.no
       case Rejected => (o.state.PendingNew? || o.state.Unknown?) && c !in a.broker && no == o.no
       case CancelledOrder =>
         (o.state.New? || o.state.PartiallyFilled?) && c in a.broker && !a.broker[c].working && no == o.no
       case _ => false
  }

  lemma MoveKeepsDurable(a: Account, c: Cid, to: OrderState, no: Option<OrderNo>)
    requires Durable(a) && MayMove(a, c, to, no)
    ensures Durable(Moved(a, c, to, no))
  {
    hide OneOpenPerSide, SellsCovered, PositionsOk, DistinctNumbers;
    var a' := Moved(a, c, to, no);
    forall d | d in a.orders
      ensures StaysOk(a, a', d)
    {
      assert OrderOk(a, d);
    }
    UnchangedRows(a, a');
    SameBrokerSameNumbers(a, a');
    hide OrderOk, StaysOk, MayMove;
    NarrowerKeepsDurable(a, a');
  }

  lemma SameBrokerSameNumbers(a: Account, b: Account)
    requires DistinctNumbers(a) && b.broker == a.broker
    ensures DistinctNumbers(b)
  {
  }

  /** The order state after a fill brings the recorded quantity to filled. */
  function StateAfterFill(state: OrderState, filled: real, qty: real): OrderState {
    match state
    case CancelledOrder => CancelledOrder
    case Expired => Expired
    case _ => if filled >= qty then Filled else PartiallyFilled
  }

  function EventOf(side: Side, f: FillRow, isAdd: bool): FillEvent {
    FillEvent(side, f.qty, f.price, f.fee, f.tax, isAdd)
  }

  /** handle_fill: fill row, order state and position projection in one commit. */
  function FillRecorded(a: Account, c: Cid, f: FillRow): Account
    requires c in a.orders && a.orders[c].lot in a.positions
  {
    var o := a.orders[c];
    var totals := Add(o.totals, f);
    a.(orders := a.orders[c := o.(totals := totals, state := StateAfterFill(o.state, totals.qty, o.qty))],
       positions := a.positions[o.lot := ApplyToPosition(a.positions[o.lot], EventOf(o.side, f, false))])
  }

  /** A fill that the broker has really executed and nobody has recorded yet. */
  ghost predicate OwedFill(a: Account, c: Cid, f: FillRow) {
    c in a.orders && a.orders[c].no.Some? && f.qty > 0.0 && f.qty <= Unread(a, c)
  }

  /** Recording what the broker executed: a sell always finds the shares it sold. */
  lemma OwedSellIsHeld(a: Account, c: Cid, f: FillRow)
    requires Durable(a) && OwedFill(a, c, f) && a.orders[c].side.Sell?
    ensures a.orders[c].lot in a.positions && f.qty <= a.positions[a.orders[c].lot].qtyFilled
  {
    assert OrderOk(a, c) && Covered(a, c);
  }

  lemma RecordedAfterFill(a: Account, c: Cid, f: FillRow, l: LotId)
    requires c in a.orders && a.orders[c].lot in a.positions
    ensures RecordedHolding(FillRecorded(a, c, f), l)
            == RecordedHolding(a, l) + if a.orders[c].lot == l then Sign(a.orders[c].side) * f.qty else 0.0
  {
    var a' := FillRecorded(a, c, f);
    assert a'.orders.Keys == a.orders.Keys;
    Change(a.orders.Keys, (d: Cid) => Recorded(a, l, d), (d: Cid) => Recorded(a', l, d), c);
  }

  lemma FillKeepsOrders(a: Account, c: Cid, f: FillRow)
    requires OrdersOk(a) && OneOpenPerSide(a) && OwedFill(a, c, f)
    ensures a.orders[c].lot in a.positions
    ensures OrdersOk(FillRecorded(a, c, f)) && OneOpenPerSide(FillRecorded(a, c, f))
    ensures AtRisk(FillRecorded(a, c, f), c) <= AtRisk(a, c) - f.qty
    ensures forall d :: d in a.orders && d != c ==> AtRisk(FillRecorded(a, c, f), d) == AtRisk(a, d)
  {
    FilledOrderIsOk(a, c, f);
    hide OneOpenPerSide, DistinctNumbers, ApplyToPosition, StateAfterFill;
    var a' := FillRecorded(a, c, f);
    forall d | d in a.orders && d != c
      ensures OrderOk(a', d) && AtRisk(a', d) == AtRisk(a, d)
    {
      assert OrderOk(a, d);
    }
    SameBrokerSameNumbers(a, a');
    hide OrderOk;
    FillOpensNothing(a, c, f);
  }

  /** The filled order itself: one fill nearer to its end, with that much less at risk. */
  lemma FilledOrderIsOk(a: Account, c: Cid, f: FillRow)
    requires OrdersOk(a) && OwedFill(a, c, f)
    ensures a.orders[c].lot in a.positions
    ensures OrderOk(FillRecorded(a, c, f), c)
    ensures AtRisk(FillRecorded(a, c, f), c) <= AtRisk(a, c) - f.qty
    ensures FillRecorded(a, c, f).orders[c].state.IsOpen() ==> a.orders[c].state.IsOpen()
  {
    assert OrderOk(a, c);
    hide ApplyToPosition;
  }

  lemma FillOpensNothing(a: Account, c: Cid, f: FillRow)
    requires OneOpenPerSide(a) && c in a.orders && a.orders[c].lot in a.positions
    requires FillRecorded(a, c, f).orders[c].state.IsOpen() ==> a.orders[c].state.IsOpen()
    ensures OneOpenPerSide(FillRecorded(a, c, f))
  {
    hide ApplyToPosition, StateAfterFill;
    var a' := FillRecorded(a, c, f);
    forall d, e | d in a'.orders && e in a'.orders && BothOpen(a', d, e)
      ensures d == e
    {
      assert BothOpen(a, d, e);
    }
  }

  lemma FillKeepsCover(a: Account, c: Cid, f: FillRow)
    requires Durable(a) && OwedFill(a, c, f) && a.orders[c].lot in a.positions
    requires AtRisk(FillRecorded(a, c, f), c) <= AtRisk(a, c) - f.qty
    requires forall d :: d in a.orders && d != c ==> AtRisk(FillRecorded(a, c, f), d) == AtRisk(a, d)
    ensures SellsCovered(FillRecorded(a, c, f))
  {
    var a' := FillRecorded(a, c, f);
    var l := a.orders[c].lot;
    assert OrderOk(a, c) && Covered(a, c);
    assert AtRisk(a, c) >= Unread(a, c) >= f.qty;
    forall d | d in a'.orders
      ensures Covered(a', d)
    {
      assert Covered(a, d);
      assert RowOk(a.positions[l]);
      if d != c && a.orders[d].lot == l && a.orders[d].side.Sell? && a.orders[c].side.Sell? {
        assert !BothAtRisk(a, c, d);
      }
    }
    forall d, e | d in a'.orders && e in a'.orders && BothAtRisk(a', d, e)
      ensures d == e
    {
      assert BothAtRisk(a, d, e);
    }
  }

  lemma FillKeepsDurable(a: Account, c: Cid, f: FillRow)
    requires Durable(a) && OwedFill(a, c, f)
    ensures a.orders[c].lot in a.positions && Durable(FillRecorded(a, c, f))
  {
    assert OrderOk(a, c);
    FillKeepsOrders(a, c, f);
    FillKeepsCover(a, c, f);
    if a.orders[c].side.Sell? {
      OwedSellIsHeld(a, c, f);
    }
    var a' := FillRecorded(a, c, f);
    forall l | l in a'.positions
      ensures RowOk(a'.positions[l]) && a'.positions[l].qtyFilled == RecordedHolding(a', l)
    {
      RecordedAfterFill(a, c, f, l);
      assert RowOk(a.positions[l]);
    }
  }

  /** A new position row for a lot nobody has traded yet. */
  function Spawned(a: Account, l: LotId, overseas: bool): Account {
    a.(positions := a.positions[l := NewRow(overseas)])
  }

  lemma SpawnKeepsDurable(a: Account, l: LotId, overseas: bool)
    requires Durable(a) && l !in a.positions
    ensures Durable(Spawned(a, l, overseas))
  {
    hide OneOpenPerSide, SellsCovered, PositionsOk, DistinctNumbers;
    var a' := Spawned(a, l, overseas);
    forall c | c in a'.orders
      ensures OrderOk(a', c) && NarrowerOrder(a, a', c) && a.orders[c].lot in a.positions
    {
      assert OrderOk(a, c);
    }
    SameBrokerSameNumbers(a, a');
    SpawnedHolding(a, l, overseas);
    hide OrderOk, NarrowerOrder;
    NarrowerKeepsCover(a, a');
  }

  lemma SpawnedHolding(a: Account, l: LotId, overseas: bool)
    requires OrdersOk(a) && PositionsOk(a) && l !in a.positions
    ensures PositionsOk(Spawned(a, l, overseas))
  {
    var a' := Spawned(a, l, overseas);
    forall k | k in a'.positions
      ensures RowOk(a'.positions[k]) && a'.positions[k].qtyFilled == RecordedHolding(a', k)
    {
      SameHolding(a, a', k);
      if k == l {
        UntradedLotHoldsNothing(a, l);
      } else {
        assert RowOk(a.positions[k]);
      }
    }
  }

  lemma UntradedLotHoldsNothing(a: Account, l: LotId)
    requires OrdersOk(a) && l !in a.positions
    ensures RecordedHolding(a, l) == 0.0
  {
    forall c | c in a.orders.Keys
      ensures Recorded(a, l, c) == 0.0
    {
      assert OrderOk(a, c);
    }
    AllZero(a.orders.Keys, (c: Cid) => Recorded(a, l, c));
  }

  /** Columns that only the runtime sync writes; the safety of orders does not depend on them. */
  function RuntimeWritten(a: Account, l: LotId, stop: real, peak: real, rungs: nat, original: real): Account
    requires l in a.positions
  {
    a.(positions := a.positions[l := a.positions[l].(initialStop := stop, peakPrice := peak,
                                                     tpRungsTaken := rungs, originalQty := original)])
  }

  lemma RuntimeKeepsDurable(a: Account, l: LotId, stop: real, peak: real, rungs: nat, original: real)
    requires Durable(a) && l in a.positions
    ensures Durable(RuntimeWritten(a, l, stop, peak, rungs, original))
  {
    var a' := RuntimeWritten(a, l, stop, peak, rungs, original);
    forall k | k in a.positions
      ensures RowOk(a'.positions[k]) && a'.positions[k].qtyFilled == a.positions[k].qtyFilled
    {
      assert RowOk(a.positions[k]);
    }
    hide OneOpenPerSide, SellsCovered, PositionsOk, DistinctNumbers;
    forall c | c in a.orders
      ensures StaysOk(a, a', c)
    {
      assert OrderOk(a, c);
    }
    SameBrokerSameNumbers(a, a');
    hide OrderOk, StaysOk;
    NarrowerKeepsDurable(a, a');
  }
}
