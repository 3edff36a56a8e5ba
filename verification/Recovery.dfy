/** Restart: what memory is rebuilt from the tables, and what a crash can and cannot take away. */
module Recovery {
  import opened Domain
  import opened Position
  import opened Ledgers
  import opened FillPoller
  import opened Account
  import opened AccountSteps
  import opened Engine
  import opened EngineFills

  /** Orders found halfway through their submit become Unknown. */
  function Orphaned(a: Account): Account {
    a.(orders := map c | c in a.orders ::
                   if a.orders[c].state.PendingNew? then a.orders[c].(state := Unknown) else a.orders[c])
  }

  lemma OrphanedKeepsDurable(a: Account)
    requires Durable(a)
    ensures Durable(Orphaned(a))
    ensures forall c :: c in a.orders ==> !Orphaned(a).orders[c].state.PendingNew?
  {
    hide OneOpenPerSide, SellsCovered, PositionsOk, DistinctNumbers;
    var a' := Orphaned(a);
    assert a'.orders.Keys == a.orders.Keys;
    forall c | c in a.orders
      ensures StaysOk(a, a', c)
    {
      assert OrderOk(a, c);
    }
    UnchangedRows(a, a');
    SameBrokerSameNumbers(a, a');
    hide OrderOk, StaysOk;
    NarrowerKeepsDurable(a, a');
  }

  /** Lots a restart loads: every row not closed, and the lot of every order that may still be working. */
  function LoadedLots(a: Account): set<LotId> {
    (set l | l in a.positions && !a.positions[l].state.Closed?)
    + (set c | c in a.orders && a.orders[c].state.IsOpen() && a.orders[c].lot in a.positions :: a.orders[c].lot)
  }

  /** Memory right after a restart, before the first poll: nothing but what the tables say, behind the start barrier. */
  ghost predicate IsHydrated(a: Account, m: Memory) {
    && m.lots.Keys == LoadedLots(a)
    && (forall l :: l in m.lots ==> l in a.positions && m.lots[l] == LotFromRow(a.positions[l]))
    && (forall c :: c in a.orders && a.orders[c].state.IsOpen() ==>
          KeyOf(a.orders[c]) in m.pending && m.pending[KeyOf(a.orders[c])] == c)
    && (forall k :: k in m.pending ==>
          m.pending[k] in a.orders && a.orders[m.pending[k]].state.IsOpen() && KeyOf(a.orders[m.pending[k]]) == k)
    && (forall c :: c in m.coMap <==> c in a.orders && a.orders[c].state.IsOpen())
    && (forall c :: c in m.coMap ==> m.coMap[c] == MetaOf(a, c))
    && m.refreshBeforeSell == {} && m.unconfirmedBuyCancels == {} && m.startupRefreshPending && m.synced == map[]
  }

  lemma HydratedLocks(a: Account, m: Memory)
    requires IsHydrated(a, m)
    requires forall c :: c in a.orders ==> a.orders[c].lot in a.positions
    ensures LocksOk(a, m) && MetasOk(a, m) && BarriersOk(a, m) && SyncedOk(a, m)
  {
    forall c | c in a.orders
      ensures LockFits(m, a.orders[c], c) && BarrierFits(a, m, c)
    {
    }
    forall k | k in m.pending
      ensures LockNames(a, m, k)
    {
    }
    forall c | c in m.coMap
      ensures MetaOk(a, m, c)
    {
      assert a.orders[c].lot in LoadedLots(a);
    }
  }

  /** From any durable account, whatever the crash interrupted, the restart reaches a sound state. */
  lemma HydratedKeepsInv(a: Account, m: Memory)
    requires Durable(a) && IsHydrated(a, m)
    ensures Inv(World(a, m))
  {
    forall c | c in a.orders
      ensures a.orders[c].lot in a.positions
    {
      assert OrderOk(a, c);
    }
    HydratedLocks(a, m);
    HydratedLots(a, m);
  }

  lemma HydratedLots(a: Account, m: Memory)
    requires PositionsOk(a) && IsHydrated(a, m)
    ensures LotsOk(a, m)
  {
    forall l | l in m.lots
      ensures Agrees(m.lots[l], a.positions[l]) && (m.lots[l].state.Watching? ==> m.lots[l].initialStop.None?)
    {
      assert RowOk(a.positions[l]);
      RestoredLotAgrees(a.positions[l]);
    }
  }

  // ------------------------------------------------------------------
  // Crash is invisible
  // ------------------------------------------------------------------

  /** The stop in force, or, before the entry has filled, the stop it will get. */
  function StopInForce(lot: Lot): Option<real> {
    if lot.state.Watching? then lot.pendingStop else lot.initialStop
  }

  /** A stop the positions table can express: its zero means "none". */
  predicate Storable(stop: Option<real>) {
    stop.Some? ==> stop.value > 0.0
  }

  /** The runtime columns say what memory says: true of every lot once a bar or a fill has been processed to its end. */
  ghost predicate EndOfBar(w: World) {
    forall l :: l in w.mem.lots && l in w.acct.positions ==> RowHolds(w.acct.positions[l], SnapshotOf(w.mem.lots[l]))
  }

  /** Nothing the strategy or the risk checks look at differs; Holding and Scaling are not told apart. */
  predicate Twin(x: Lot, y: Lot) {
    && x.qty == y.qty && x.avgEntry == y.avgEntry && x.realizedPnl == y.realizedPnl
    && x.tpRungsTaken == y.tpRungsTaken && StopInForce(x) == StopInForce(y)
    && (x.state.Watching? <==> y.state.Watching?) && (x.state.Closed? <==> y.state.Closed?)
    && (x.state.Watching? ==> x.initialStop.None? && y.initialStop.None?)
    && x.state in {Watching, Holding, Scaling, Exiting, Closed} && y.state in {Watching, Holding, Scaling, Exiting, Closed}
  }

  lemma RestoredRow(lot: Lot, row: PositionRow)
    requires Agrees(lot, row) && RowHolds(row, SnapshotOf(lot)) && (lot.state.Watching? ==> lot.initialStop.None?)
    ensures Twin(lot, LotFromRow(row)) <==> Storable(StopInForce(lot))
    ensures lot.peakPrice > 0.0 ==> LotFromRow(row).peakPrice == lot.peakPrice
    ensures !lot.state.Watching? && lot.originalQty > 0.0 ==> LotFromRow(row).originalQty == lot.originalQty
  {
  }

  /** A stop of zero is written and never read back. */
  lemma ZeroStopIsLost()
    ensures var lot := NewLot.(pendingStop := Some(0.0));
            var row := NewRow(false);
      && Agrees(lot, row) && RowHolds(row, SnapshotOf(lot))
      && StopInForce(lot) == Some(0.0) && StopInForce(LotFromRow(row)) == None
  {
  }

  /**
   Discard memory at the end of a bar or fill and rebuild it: every lot still watching or holding comes back with its
   quantity, cost, profit, rungs and stop. The stop comes back exactly when it is positive.
   */
  lemma CrashKeepsLots(w: World, m: Memory, l: LotId)
    requires LotsOk(w.acct, w.mem) && EndOfBar(w) && IsHydrated(Orphaned(w.acct), m)
    requires l in w.mem.lots && !w.mem.lots[l].state.Closed?
    ensures l in m.lots && (Twin(w.mem.lots[l], m.lots[l]) <==> Storable(StopInForce(w.mem.lots[l])))
  {
    assert l in LoadedLots(Orphaned(w.acct));
    RestoredRow(w.mem.lots[l], w.acct.positions[l]);
  }

  /** And every order that may still be working comes back with its lock and its filled count. */
  lemma CrashKeepsLocks(w: World, m: Memory, c: Cid)
    requires LocksOk(w.acct, w.mem) && MetasOk(w.acct, w.mem) && IsHydrated(Orphaned(w.acct), m)
    requires c in w.acct.orders && w.acct.orders[c].state.IsOpen()
    ensures var k := KeyOf(w.acct.orders[c]);
      && k in m.pending && k in w.mem.pending && m.pending[k] == w.mem.pending[k] == c
      && c in m.coMap && m.coMap[c].filledQty == w.acct.orders[c].totals.qty
      && (c in w.mem.coMap ==> m.coMap[c].filledQty == w.mem.coMap[c].filledQty
                               && m.coMap[c].requestedQty == w.mem.coMap[c].requestedQty)
  {
    var a := Orphaned(w.acct);
    assert a.orders[c].state.IsOpen() && KeyOf(a.orders[c]) == KeyOf(w.acct.orders[c]);
    assert LockFits(w.mem, w.acct.orders[c], c);
    assert c in w.mem.coMap ==> MetaOk(w.acct, w.mem, c);
  }

  /** No lock appears that was not there for an order still open. */
  lemma CrashAddsNoLocks(w: World, m: Memory, k: LockKey)
    requires LocksOk(w.acct, w.mem) && IsHydrated(Orphaned(w.acct), m) && k in m.pending
    ensures k in w.mem.pending && w.mem.pending[k] == m.pending[k] && w.acct.orders[m.pending[k]].state.IsOpen()
  {
    assert LockFits(w.mem, w.acct.orders[m.pending[k]], m.pending[k]);
  }

  /** Twins stay twins through any further fill, even if only one of them thinks it is an add-on. */
  lemma TwinsStayTwins(x: Lot, y: Lot, side: Side, f: FillRow, p: bool, q: bool)
    requires Twin(x, y)
    ensures Twin(AfterFill(x, EventOf(side, f, p)), AfterFill(y, EventOf(side, f, q)))
  {
  }

  /** The same fills, read by an engine that never crashed and by one that restarted first. */
  lemma {:induction false} TwinsReadTheSameFills(x: Lot, y: Lot, xs: seq<FillEvent>, ys: seq<FillEvent>)
    requires Twin(x, y) && |xs| == |ys|
    requires forall i :: 0 <= i < |xs| ==> ys[i] == xs[i].(isAdd := ys[i].isAdd)
    ensures Twin(AfterFills(x, xs), AfterFills(y, ys))
    decreases |xs|
  {
    if xs != [] {
      var n := |xs| - 1;
      TwinsReadTheSameFills(x, y, xs[..n], ys[..n]);
      var f := FillRow(xs[n].qty, xs[n].price, xs[n].fee, xs[n].tax);
      assert xs[n] == EventOf(xs[n].side, f, xs[n].isAdd) && ys[n] == EventOf(xs[n].side, f, ys[n].isAdd);
      TwinsStayTwins(AfterFills(x, xs[..n]), AfterFills(y, ys[..n]), xs[n].side, f, xs[n].isAdd, ys[n].isAdd);
    }
  }

  /** A closed lot forgotten by the restart and reopened by a late buy is rebuilt as the twin of the one remembered. */
  lemma RebuiltLotIsTwin(lot: Lot, row: PositionRow, f: FillRow, isAdd: bool)
    requires Agrees(lot, row) && lot.state.Closed? && RowHolds(row, SnapshotOf(lot)) && Storable(StopInForce(lot))
    requires f.qty > 0.0
    ensures Twin(AfterFill(lot, EventOf(Buy, f, isAdd)), LotFromRow(ApplyToPosition(row, EventOf(Buy, f, isAdd))))
  {
    FillKeepsAgreement(lot, row, EventOf(Buy, f, isAdd));
    var after := AfterFill(lot, EventOf(Buy, f, isAdd));
    assert RowHolds(ApplyToPosition(row, EventOf(Buy, f, isAdd)), SnapshotOf(after));
    RestoredRow(after, ApplyToPosition(row, EventOf(Buy, f, isAdd)));
  }
}
