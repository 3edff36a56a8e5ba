/** A recorded fill on its way into memory, including the lot or the metadata memory does not have. */
module EngineFills {
  import opened Domain
  import opened Position
  import opened Ledgers
  import opened FillPoller
  import opened Account
  import opened AccountSteps
  import opened Engine

  /** A memory lot made from its row. A Watching row keeps the stop of the waiting entry in the same columns. */
  function LotFromRow(row: PositionRow): Lot {
    var stop := if row.initialStop > 0.0 then Some(row.initialStop) else None;
    var original := if row.originalQty > 0.0 then row.originalQty else row.qtyFilled;
    Lot(row.state, row.qtyFilled, row.avgEntryPrice, row.realizedPnl,
        if row.peakPrice > 0.0 then row.peakPrice else row.avgEntryPrice, 0,
        if row.state.Watching? then None else stop,
        original, row.tpRungsTaken,
        if row.state.Watching? then stop else None,
        if row.state.Watching? && row.originalQty > 0.0 then Some(row.originalQty) else None)
  }

  lemma RestoredLotAgrees(row: PositionRow)
    requires RowOk(row) && (row.state.Holding? || row.qtyFilled == 0.0)
    ensures Agrees(LotFromRow(row), row)
    ensures row.state.Watching? ==> LotFromRow(row).initialStop.None?
  {
  }

  /** A buy is an add-on unless it is the lot's first buy order. */
  predicate IsAddOn(a: Account, c: Cid)
    requires c in a.orders
  {
    var o := a.orders[c];
    o.side.Buy? && exists d :: d in a.orders && a.orders[d].lot == o.lot && a.orders[d].side.Buy?
                            && a.orders[d].createdAt < o.createdAt
  }

  /** Metadata rebuilt from the order row and its fills. */
  function MetaOf(a: Account, c: Cid): Meta
    requires c in a.orders
  {
    var o := a.orders[c];
    Meta(o.lot, o.side, IsAddOn(a, c), o.qty, o.totals.qty, o.price)
  }

  /** The lock and metadata part of reflecting a fill: a completed order gives up its lock. */
  function Counted(m: Memory, c: Cid, f: FillRow, meta: Meta): Memory {
    var filled := meta.filledQty + f.qty;
    if filled >= meta.requestedQty then Forgotten(Unlocked(m, (meta.lot, meta.side), c), c)
    else if c in m.coMap then m.(coMap := m.coMap[c := meta.(filledQty := filled)]) else m
  }

  /** The lot becomes what the fill made of it, the runtime columns follow, and the order is counted. */
  function ReflectedAs(w: World, c: Cid, f: FillRow, meta: Meta, lot: Lot): World {
    var w1 := Synced(Evaluated(w, meta.lot, lot), meta.lot);
    w1.(mem := Counted(w1.mem, c, f, meta))
  }

  function Reflected(w: World, c: Cid, f: FillRow, meta: Meta): World
    requires meta.lot in w.mem.lots
  {
    ReflectedAs(w, c, f, meta, AfterFill(w.mem.lots[meta.lot], EventOf(meta.side, f, meta.isAdd)))
  }

  /** The lot is not in memory: rebuild it from its row, which already contains this fill. */
  function Rebuilt(w: World, c: Cid): World
    requires c in w.acct.orders && w.acct.orders[c].lot in w.acct.positions
  {
    var o := w.acct.orders[c];
    var row := w.acct.positions[o.lot];
    if row.qtyFilled <= 0.0 || !IsOpenState(row.state) then w
    else
      var m := w.mem.(lots := w.mem.lots[o.lot := LotFromRow(row)]);
      var meta := MetaOf(w.acct, c);
      w.(mem := if meta.filledQty < meta.requestedQty && !o.state.IsTerminal()
                then m.(coMap := m.coMap[c := meta], pending := m.pending[KeyOf(o) := c]) else m)
  }

  /** Metadata recovered for a lot that is in memory; the row already counts this fill. */
  function Recovered(w: World, c: Cid, f: FillRow): (World, Meta)
    requires c in w.acct.orders
  {
    var o := w.acct.orders[c];
    var full := MetaOf(w.acct, c);
    var meta := full.(filledQty := full.filledQty - f.qty);
    var m1 := if !o.state.IsTerminal() || o.state.Filled? then w.mem.(coMap := w.mem.coMap[c := meta]) else w.mem;
    var m2 := if o.state.IsOpen() && KeyOf(o) !in m1.pending then m1.(pending := m1.pending[KeyOf(o) := c]) else m1;
    (w.(mem := m2), meta)
  }

  /** _on_fill: the tables first, then whichever way memory has to be brought along. */
  function OnFill(w: World, c: Cid, f: FillRow): World
    requires c in w.acct.orders && w.acct.orders[c].lot in w.acct.positions
    requires c in w.mem.coMap ==> w.mem.coMap[c].lot in w.mem.lots
  {
    var w1 := w.(acct := FillRecorded(w.acct, c, f));
    if c in w.mem.coMap then Reflected(w1, c, f, w.mem.coMap[c])
    else if w.acct.orders[c].lot !in w.mem.lots then Rebuilt(w1, c)
    else var (w2, meta) := Recovered(w1, c, f); Reflected(w2, c, f, meta)
  }

  // ------------------------------------------------------------------
  // Why it keeps the invariant
  // ------------------------------------------------------------------

  /** Metadata as it stands between the table's commit and memory's update. */
  predicate MetaBehind(meta: Meta, o: OrderRow, f: FillRow) {
    && meta.lot == o.lot && meta.side == o.side && meta.requestedQty == o.qty
    && meta.filledQty + f.qty == o.totals.qty
  }

  /** Locks, barriers and metadata between the table's commit of a fill of c and memory's own update. */
  ghost predicate LocksBehind(w: World, c: Cid, f: FillRow) {
    && c in w.acct.orders && w.acct.orders[c].lot in w.mem.lots
    && (forall d :: d in w.acct.orders ==> LockFits(w.mem, w.acct.orders[d], d) && BarrierFits(w.acct, w.mem, d))
    && (forall k :: k in w.mem.pending ==> LockNames(w.acct, w.mem, k))
    && (forall d :: d in w.mem.coMap && d != c ==> MetaOk(w.acct, w.mem, d))
    && (c in w.mem.coMap ==> MetaBehind(w.mem.coMap[c], w.acct.orders[c], f))
  }

  /** Memory between the table's commit of a fill of c and its own update: right except for c and its lot. */
  ghost predicate Behind(a0: Account, w: World, c: Cid, f: FillRow) {
    && c in a0.orders && a0.orders[c].lot in a0.positions && a0.orders[c].lot in w.mem.lots
    && w.acct == FillRecorded(a0, c, f)
    && LotsOk(a0, w.mem) && SyncedOk(a0, w.mem)
    && LocksBehind(w, c, f)
  }

  /** An order that is owed a fill is working or cancelled in the table. */
  lemma OwedOrderState(a: Account, c: Cid, f: FillRow)
    requires Durable(a) && OwedFill(a, c, f)
    ensures a.orders[c].lot in a.positions
    ensures var s := a.orders[c].state; s.New? || s.PartiallyFilled? || s.CancelledOrder?
    ensures var o := FillRecorded(a, c, f).orders[c]; o.state.IsOpen() ==> o.totals.qty < o.qty
  {
    assert OrderOk(a, c);
  }

  /** Locks and barriers still fit once the table has the fill. */
  lemma CommitLeavesBehind(w: World, c: Cid, f: FillRow)
    requires MemOk(w.acct, w.mem) && c in w.acct.orders && f.qty > 0.0
    requires var s := w.acct.orders[c].state; s.New? || s.PartiallyFilled? || s.CancelledOrder?
    requires w.acct.orders[c].lot in w.mem.lots && w.acct.orders[c].lot in w.acct.positions
    ensures Behind(w.acct, w.(acct := FillRecorded(w.acct, c, f)), c, f)
  {
    var w1 := w.(acct := FillRecorded(w.acct, c, f));
    forall d | d in w1.acct.orders
      ensures LockFits(w1.mem, w1.acct.orders[d], d) && BarrierFits(w1.acct, w1.mem, d)
    {
      assert LockFits(w.mem, w.acct.orders[d], d) && BarrierFits(w.acct, w.mem, d);
    }
    forall k | k in w1.mem.pending
      ensures LockNames(w1.acct, w1.mem, k)
    {
      assert LockNames(w.acct, w.mem, k);
    }
    forall d | d in w1.mem.coMap
      ensures d != c ==> MetaOk(w1.acct, w1.mem, d)
      ensures d == c ==> MetaBehind(w1.mem.coMap[c], w1.acct.orders[c], f)
    {
      assert MetaOk(w.acct, w.mem, d);
    }
  }

  /** Recovering metadata does not disturb what is already right. */
  lemma RecoveredStaysBehind(a0: Account, w: World, c: Cid, f: FillRow)
    requires Behind(a0, w, c, f) && c !in w.mem.coMap
    ensures var (w2, meta) := Recovered(w, c, f);
            Behind(a0, w2, c, f) && MetaBehind(meta, w.acct.orders[c], f)
            && (c in w2.mem.coMap ==> w2.mem.coMap[c] == meta) && w2.acct == w.acct
  {
    RecordedKeys(a0, c, f);
    hide FillRecorded, LocksBehind;
    RecoveredLocksBehind(w, c, f);
    RecoveredMeta(w, c, f);
    var (w2, meta) := Recovered(w, c, f);
    SameLotsOk(a0, w.mem, w2.mem);
  }

  lemma RecoveredMeta(w: World, c: Cid, f: FillRow)
    requires c in w.acct.orders && c !in w.mem.coMap
    ensures var (w2, meta) := Recovered(w, c, f);
      && MetaBehind(meta, w.acct.orders[c], f) && (c in w2.mem.coMap ==> w2.mem.coMap[c] == meta)
      && w2.acct == w.acct && w2.mem.lots == w.mem.lots && w2.mem.synced == w.mem.synced
      && w2.mem.startupRefreshPending == w.mem.startupRefreshPending
      && w2.mem.refreshBeforeSell == w.mem.refreshBeforeSell && w2.mem.unconfirmedBuyCancels == w.mem.unconfirmedBuyCancels
  {
    hide IsAddOn;
  }

  lemma RecoveredLocksBehind(w: World, c: Cid, f: FillRow)
    requires LocksBehind(w, c, f) && c !in w.mem.coMap
    ensures LocksBehind(Recovered(w, c, f).0, c, f)
  {
    RecoveredMeta(w, c, f);
    hide IsAddOn, MetaOf;
    var w2 := Recovered(w, c, f).0;
    assert LockFits(w.mem, w.acct.orders[c], c);
    forall d | d in w2.acct.orders
      ensures LockFits(w2.mem, w2.acct.orders[d], d) && BarrierFits(w2.acct, w2.mem, d)
    {
      assert LockFits(w.mem, w.acct.orders[d], d) && BarrierFits(w.acct, w.mem, d);
    }
    forall k | k in w2.mem.pending
      ensures LockNames(w2.acct, w2.mem, k)
    {
      assert k in w.mem.pending ==> LockNames(w.acct, w.mem, k);
    }
    forall d | d in w2.mem.coMap && d != c
      ensures MetaOk(w2.acct, w2.mem, d)
    {
      assert MetaOk(w.acct, w.mem, d);
    }
  }

  lemma ProjectionIgnoresAddOn(row: PositionRow, side: Side, f: FillRow, isAdd: bool)
    ensures ApplyToPosition(row, EventOf(side, f, isAdd)) == ApplyToPosition(row, EventOf(side, f, false))
  {
  }

  /** The lot after the fill agrees with the row after the fill. */
  lemma LotCatchesUp(a0: Account, w: World, c: Cid, f: FillRow, meta: Meta)
    requires Behind(a0, w, c, f) && MetaBehind(meta, w.acct.orders[c], f) && f.qty > 0.0
    requires a0.orders[c].side.Sell? ==> a0.positions[a0.orders[c].lot].qtyFilled > 0.0
    ensures meta.lot == a0.orders[c].lot
    ensures var lot := AfterFill(w.mem.lots[meta.lot], EventOf(meta.side, f, meta.isAdd));
            Agrees(lot, w.acct.positions[meta.lot]) && !lot.state.Watching?
  {
    var l := meta.lot;
    var e := EventOf(meta.side, f, meta.isAdd);
    FillKeepsAgreement(w.mem.lots[l], a0.positions[l], e);
    ProjectionIgnoresAddOn(a0.positions[l], a0.orders[c].side, f, meta.isAdd);
  }

  /** Counting and syncing touch different things, so their order does not matter. */
  lemma ReflectedIsSyncedCount(w: World, c: Cid, f: FillRow, meta: Meta, lot: Lot)
    ensures var w1 := World(w.acct, Counted(Evaluated(w, meta.lot, lot).mem, c, f, meta));
            meta.lot in w1.mem.lots && ReflectedAs(w, c, f, meta, lot) == Synced(w1, meta.lot)
  {
  }

  /** Memory catches up: the lot agrees with its row again and locks and metadata count the fill. */
  lemma ReflectedCatchesUp(a0: Account, w: World, c: Cid, f: FillRow, meta: Meta)
    requires Behind(a0, w, c, f) && MetaBehind(meta, w.acct.orders[c], f) && f.qty > 0.0
    requires c in w.mem.coMap ==> w.mem.coMap[c] == meta
    requires w.acct.orders[c].state.IsOpen() ==> w.acct.orders[c].totals.qty < w.acct.orders[c].qty
    requires a0.orders[c].side.Sell? ==> a0.positions[a0.orders[c].lot].qtyFilled > 0.0
    ensures meta.lot in w.mem.lots
    ensures MemOk(Reflected(w, c, f, meta).acct, Reflected(w, c, f, meta).mem)
  {
    LotCatchesUp(a0, w, c, f, meta);
    var lot := AfterFill(w.mem.lots[meta.lot], EventOf(meta.side, f, meta.isAdd));
    LotsFollow(a0, w, c, f, lot);
    var m1 := Counted(Evaluated(w, meta.lot, lot).mem, c, f, meta);
    CountedFollows(a0, w, c, f, meta, lot);
    SyncedKeepsMem(World(w.acct, m1), meta.lot);
    ReflectedIsSyncedCount(w, c, f, meta, lot);
  }

  lemma CountedFollows(a0: Account, w: World, c: Cid, f: FillRow, meta: Meta, lot: Lot)
    requires Behind(a0, w, c, f) && MetaBehind(meta, w.acct.orders[c], f)
    requires c in w.mem.coMap ==> w.mem.coMap[c] == meta
    requires w.acct.orders[c].state.IsOpen() ==> w.acct.orders[c].totals.qty < w.acct.orders[c].qty
    requires LotsOk(w.acct, w.mem.(lots := w.mem.lots[meta.lot := lot])) && SyncedOk(w.acct, w.mem)
    ensures MemOk(w.acct, Counted(Evaluated(w, meta.lot, lot).mem, c, f, meta))
  {
    var m1 := Counted(Evaluated(w, meta.lot, lot).mem, c, f, meta);
    assert m1.lots == w.mem.lots[meta.lot := lot] && m1.synced == w.mem.synced;
    CountedLocks(w, c, f, meta, lot);
    SameLotsOk(w.acct, w.mem.(lots := w.mem.lots[meta.lot := lot]), m1);
  }

  lemma SameLotsOk(a: Account, m: Memory, m1: Memory)
    requires LotsOk(a, m) && SyncedOk(a, m) && m1.lots == m.lots && m1.synced == m.synced
    ensures LotsOk(a, m1) && SyncedOk(a, m1)
  {
  }

  lemma CountedLocks(w: World, c: Cid, f: FillRow, meta: Meta, lot: Lot)
    requires LocksBehind(w, c, f) && MetaBehind(meta, w.acct.orders[c], f)
    requires c in w.mem.coMap ==> w.mem.coMap[c] == meta
    requires w.acct.orders[c].state.IsOpen() ==> w.acct.orders[c].totals.qty < w.acct.orders[c].qty
    ensures var m1 := Counted(Evaluated(w, meta.lot, lot).mem, c, f, meta);
            LocksOk(w.acct, m1) && MetasOk(w.acct, m1) && BarriersOk(w.acct, m1)
  {
    CountedShape(w, c, f, meta, lot);
    hide LocksBehind, Counted;
    LocksFollow(w, c, f, Counted(Evaluated(w, meta.lot, lot).mem, c, f, meta));
  }

  /** What counting the fill does to locks and metadata, in the words of LocksFollow. */
  lemma CountedShape(w: World, c: Cid, f: FillRow, meta: Meta, lot: Lot)
    requires LocksBehind(w, c, f) && MetaBehind(meta, w.acct.orders[c], f)
    requires c in w.mem.coMap ==> w.mem.coMap[c] == meta
    requires w.acct.orders[c].state.IsOpen() ==> w.acct.orders[c].totals.qty < w.acct.orders[c].qty
    ensures var (m0, m1, k) := (w.mem, Counted(Evaluated(w, meta.lot, lot).mem, c, f, meta), KeyOf(w.acct.orders[c]));
      && m1.lots.Keys == m0.lots.Keys && m1.startupRefreshPending == m0.startupRefreshPending
      && m1.refreshBeforeSell == m0.refreshBeforeSell && m1.unconfirmedBuyCancels == m0.unconfirmedBuyCancels
      && (m1.pending == m0.pending
          || (m1.pending == m0.pending - {k} && !w.acct.orders[c].state.IsOpen() && k in m0.pending && m0.pending[k] == c))
      && (m1.coMap == m0.coMap - {c}
          || (c !in m0.coMap && m1.coMap == m0.coMap)
          || (exists meta :: MetaFits(meta, w.acct.orders[c]) && m1.coMap == m0.coMap[c := meta]))
  {
    assert w.acct.orders[c].lot in w.mem.lots;
    hide LocksBehind;
    var m1 := Counted(Evaluated(w, meta.lot, lot).mem, c, f, meta);
    assert MetaFits(meta.(filledQty := meta.filledQty + f.qty), w.acct.orders[c]);
    assert KeyOf(w.acct.orders[c]) == (meta.lot, meta.side);
    assert m1.lots.Keys == w.mem.lots.Keys;
  }

  lemma LotsFollow(a0: Account, w: World, c: Cid, f: FillRow, lot: Lot)
    requires Behind(a0, w, c, f)
    requires Agrees(lot, w.acct.positions[a0.orders[c].lot]) && !lot.state.Watching?
    ensures LotsOk(w.acct, w.mem.(lots := w.mem.lots[a0.orders[c].lot := lot]))
    ensures SyncedOk(w.acct, w.mem)
  {
  }

  lemma LocksFollow(w: World, c: Cid, f: FillRow, m1: Memory)
    requires LocksBehind(w, c, f)
    requires m1.lots.Keys == w.mem.lots.Keys && m1.startupRefreshPending == w.mem.startupRefreshPending
    requires m1.refreshBeforeSell == w.mem.refreshBeforeSell && m1.unconfirmedBuyCancels == w.mem.unconfirmedBuyCancels
    requires var k := KeyOf(w.acct.orders[c]);
             m1.pending == w.mem.pending
             || (m1.pending == w.mem.pending - {k} && !w.acct.orders[c].state.IsOpen()
                 && k in w.mem.pending && w.mem.pending[k] == c)
    requires m1.coMap == w.mem.coMap - {c}
             || (c !in w.mem.coMap && m1.coMap == w.mem.coMap)
             || (exists meta :: MetaFits(meta, w.acct.orders[c]) && m1.coMap == w.mem.coMap[c := meta])
    ensures LocksOk(w.acct, m1) && MetasOk(w.acct, m1) && BarriersOk(w.acct, m1)
  {
    forall d | d in w.acct.orders
      ensures LockFits(m1, w.acct.orders[d], d) && BarrierFits(w.acct, m1, d)
    {
      assert LockFits(w.mem, w.acct.orders[d], d) && BarrierFits(w.acct, w.mem, d);
    }
    forall k | k in m1.pending
      ensures LockNames(w.acct, m1, k)
    {
      assert LockNames(w.acct, w.mem, k);
    }
    forall d | d in m1.coMap
      ensures MetaOk(w.acct, m1, d)
    {
      if d != c {
        assert MetaOk(w.acct, w.mem, d);
      }
    }
  }

  /** The lot was not in memory, so it was closed: only a buy can have been owed, and the rebuilt lot is open. */
  lemma RebuiltKeepsMem(w: World, c: Cid, f: FillRow)
    requires Inv(w) && OwedFill(w.acct, c, f)
    requires w.acct.orders[c].lot in w.acct.positions && w.acct.orders[c].lot !in w.mem.lots
    ensures MemOk(OnFill(w, c, f).acct, OnFill(w, c, f).mem)
  {
    var o := w.acct.orders[c];
    var l := o.lot;
    assert OrderOk(w.acct, c) && LockFits(w.mem, o, c);
    assert c in w.mem.coMap ==> MetaOk(w.acct, w.mem, c);
    OwedOrderState(w.acct, c, f);
    assert RowOk(w.acct.positions[l]) && w.acct.positions[l].qtyFilled == 0.0;
    if o.side.Sell? {
      OwedSellIsHeld(w.acct, c, f);
    }
    var w1 := w.(acct := FillRecorded(w.acct, c, f));
    var row := w1.acct.positions[l];
    assert row.qtyFilled == f.qty && row.state.Holding?;
    RestoredLotAgrees(row);
    RebuiltLocks(w, c, f);
  }

  lemma RebuiltLocks(w: World, c: Cid, f: FillRow)
    requires MemOk(w.acct, w.mem) && c in w.acct.orders && c !in w.mem.coMap
    requires w.acct.orders[c].lot in w.acct.positions && w.acct.orders[c].lot !in w.mem.lots
    requires !w.acct.orders[c].state.IsOpen() && !w.acct.orders[c].state.Rejected? && f.qty > 0.0
    requires !w.acct.orders[c].state.Filled?
    requires var row := FillRecorded(w.acct, c, f).positions[w.acct.orders[c].lot];
             row.qtyFilled > 0.0 && row.state.Holding? && Agrees(LotFromRow(row), row)
    ensures MemOk(OnFill(w, c, f).acct, OnFill(w, c, f).mem)
  {
    var w' := OnFill(w, c, f);
    assert w'.acct == FillRecorded(w.acct, c, f);
    assert w'.mem.pending == w.mem.pending && w'.mem.coMap == w.mem.coMap;
    forall d | d in w'.acct.orders
      ensures LockFits(w'.mem, w'.acct.orders[d], d) && BarrierFits(w'.acct, w'.mem, d)
    {
      assert LockFits(w.mem, w.acct.orders[d], d) && BarrierFits(w.acct, w.mem, d);
    }
    forall k | k in w'.mem.pending
      ensures LockNames(w'.acct, w'.mem, k)
    {
      assert LockNames(w.acct, w.mem, k);
    }
    forall d | d in w'.mem.coMap
      ensures MetaOk(w'.acct, w'.mem, d)
    {
      assert MetaOk(w.acct, w.mem, d);
    }
  }

  lemma OnFillKeepsMem(w: World, c: Cid, f: FillRow)
    requires Inv(w) && OwedFill(w.acct, c, f)
    requires w.acct.orders[c].lot in w.acct.positions
    requires c in w.mem.coMap ==> w.mem.coMap[c].lot in w.mem.lots
    ensures MemOk(OnFill(w, c, f).acct, OnFill(w, c, f).mem)
  {
    var w1 := w.(acct := FillRecorded(w.acct, c, f));
    OwedOrderState(w.acct, c, f);
    if w.acct.orders[c].side.Sell? {
      OwedSellIsHeld(w.acct, c, f);
    }
    if w.acct.orders[c].lot !in w.mem.lots {
      RebuiltKeepsMem(w, c, f);
    } else {
      CommitLeavesBehind(w, c, f);
      if c in w.mem.coMap {
        ReflectedCatchesUp(w.acct, w1, c, f, w.mem.coMap[c]);
      } else {
        RecoveredStaysBehind(w.acct, w1, c, f);
        var (w2, meta) := Recovered(w1, c, f);
        ReflectedCatchesUp(w.acct, w2, c, f, meta);
      }
    }
  }

  lemma OnFillKeepsInv(w: World, c: Cid, f: FillRow)
    requires Inv(w) && OwedFill(w.acct, c, f)
    ensures w.acct.orders[c].lot in w.acct.positions
    ensures c in w.mem.coMap ==> w.mem.coMap[c].lot in w.mem.lots
    ensures Inv(OnFill(w, c, f))
  {
    FillKeepsDurable(w.acct, c, f);
    assert c in w.mem.coMap ==> MetaOk(w.acct, w.mem, c);
    OnFillKeepsMem(w, c, f);
    OnFillAccount(w, c, f);
  }

  /** The runtime sync writes runtime columns and nothing else of the account. */
  lemma SyncedAccount(w: World, l: LotId)
    requires l in w.mem.lots && Durable(w.acct)
    ensures Durable(Synced(w, l).acct)
    ensures Synced(w, l).acct.orders == w.acct.orders && Synced(w, l).acct.broker == w.acct.broker
    ensures Synced(w, l).acct.positions.Keys == w.acct.positions.Keys
  {
    if Synced(w, l) != w {
      var row := Synced(w, l).acct.positions[l];
      RuntimeKeepsDurable(w.acct, l, row.initialStop, row.peakPrice, row.tpRungsTaken, row.originalQty);
      assert Synced(w, l).acct
          == RuntimeWritten(w.acct, l, row.initialStop, row.peakPrice, row.tpRungsTaken, row.originalQty);
    }
  }

  /** Besides the recorded fill, only runtime columns of the positions table may have been written. */
  lemma OnFillAccount(w: World, c: Cid, f: FillRow)
    requires c in w.acct.orders && w.acct.orders[c].lot in w.acct.positions
    requires c in w.mem.coMap ==> w.mem.coMap[c].lot in w.mem.lots
    requires Durable(FillRecorded(w.acct, c, f))
    ensures Durable(OnFill(w, c, f).acct)
    ensures OnFill(w, c, f).acct.orders == FillRecorded(w.acct, c, f).orders
    ensures OnFill(w, c, f).acct.broker == w.acct.broker
    ensures OnFill(w, c, f).acct.positions.Keys == w.acct.positions.Keys
  {
    hide Durable, FillRecorded, Reflected, IsAddOn;
    RecordedKeys(w.acct, c, f);
    var w1 := w.(acct := FillRecorded(w.acct, c, f));
    if c in w.mem.coMap {
      ReflectedFillAccount(w1, c, f, w.mem.coMap[c]);
    } else if w.acct.orders[c].lot in w.mem.lots {
      var (w2, meta) := Recovered(w1, c, f);
      ReflectedFillAccount(w2, c, f, meta);
    }
  }

  lemma RecordedKeys(a: Account, c: Cid, f: FillRow)
    requires c in a.orders && a.orders[c].lot in a.positions
    ensures var a' := FillRecorded(a, c, f);
      && a'.positions.Keys == a.positions.Keys && a'.broker == a.broker && c in a'.orders
      && a'.orders[c].lot == a.orders[c].lot
  {
  }

  lemma ReflectedFillAccount(w: World, c: Cid, f: FillRow, meta: Meta)
    requires meta.lot in w.mem.lots && Durable(w.acct)
    ensures var a' := Reflected(w, c, f, meta).acct;
            Durable(a') && a'.orders == w.acct.orders && a'.broker == w.acct.broker
            && a'.positions.Keys == w.acct.positions.Keys
  {
    ReflectedAccount(w, c, f, meta, AfterFill(w.mem.lots[meta.lot], EventOf(meta.side, f, meta.isAdd)));
  }

  lemma ReflectedAccount(w: World, c: Cid, f: FillRow, meta: Meta, lot: Lot)
    requires Durable(w.acct)
    ensures var a' := ReflectedAs(w, c, f, meta, lot).acct;
            Durable(a') && a'.orders == w.acct.orders && a'.broker == w.acct.broker
            && a'.positions.Keys == w.acct.positions.Keys
  {
    SyncedAccount(Evaluated(w, meta.lot, lot), meta.lot);
  }

  // ------------------------------------------------------------------
  // One report of a poll
  // ------------------------------------------------------------------

  /** A fill the books lack, if any, is brought in. */
  function DeliveredFill(w: World, c: Cid, f: Option<FillRow>): World
    requires c in w.acct.orders && w.acct.orders[c].lot in w.acct.positions
    requires c in w.mem.coMap ==> w.mem.coMap[c].lot in w.mem.lots
  {
    match f
    case None => w
    case Some(row) => OnFill(w, c, row)
  }

  /** A report about an order: delivered if the books lack something, otherwise dropped. */
  function Delivered(w: World, c: Cid, ex: Execution): World
    requires c in w.acct.orders && w.acct.orders[c].lot in w.acct.positions
    requires c in w.mem.coMap ==> w.mem.coMap[c].lot in w.mem.lots
  {
    DeliveredFill(w, c, Missing(w.acct.orders[c].totals, ex))
  }

  /** A report is honest if the broker has executed at least what it says for the order of that number. */
  ghost predicate Honest(a: Account, c: Cid, ex: Execution) {
    c in a.orders && a.orders[c].no == Some(ex.no) && ex.qty <= Exec(a, c)
  }

  /** What one report changes in the account: the order's books reach the report, nothing else moves. */
  ghost predicate OneBooked(a: Account, b: Account, c: Cid, qty: real)
    requires c in a.orders
  {
    && b.broker == a.broker && b.orders.Keys == a.orders.Keys && b.positions.Keys == a.positions.Keys
    && (forall d :: d in a.orders && d != c ==> b.orders[d] == a.orders[d])
    && b.orders[c].totals.qty == qty
    && b.orders[c].no == a.orders[c].no && KeyOf(b.orders[c]) == KeyOf(a.orders[c])
    && b.orders[c].qty == a.orders[c].qty
    && (b.orders[c].state.IsOpen() ==> a.orders[c].state.IsOpen())
    && (b.orders[c].state.PendingNew? ==> a.orders[c].state.PendingNew?)
  }

  lemma DeliveredKeepsInv(w: World, c: Cid, ex: Execution)
    requires Inv(w) && Honest(w.acct, c, ex)
    ensures w.acct.orders[c].lot in w.acct.positions
    ensures c in w.mem.coMap ==> w.mem.coMap[c].lot in w.mem.lots
    ensures Inv(Delivered(w, c, ex))
    ensures OneBooked(w.acct, Delivered(w, c, ex).acct, c, Max(w.acct.orders[c].totals.qty, ex.qty))
  {
    MissingIsOwed(w.acct, c, ex);
    DeliveredFillKeepsInv(w, c, Missing(w.acct.orders[c].totals, ex), Max(w.acct.orders[c].totals.qty, ex.qty));
  }

  lemma DeliveredFillKeepsInv(w: World, c: Cid, f: Option<FillRow>, qty: real)
    requires Inv(w) && c in w.acct.orders
    requires match f
      case None => qty == w.acct.orders[c].totals.qty
      case Some(row) => OwedFill(w.acct, c, row) && qty == w.acct.orders[c].totals.qty + row.qty
    ensures w.acct.orders[c].lot in w.acct.positions
    ensures c in w.mem.coMap ==> w.mem.coMap[c].lot in w.mem.lots
    ensures Inv(DeliveredFill(w, c, f))
    ensures OneBooked(w.acct, DeliveredFill(w, c, f).acct, c, qty)
  {
    assert OrderOk(w.acct, c);
    assert c in w.mem.coMap ==> MetaOk(w.acct, w.mem, c);
    if f.Some? {
      OnFillBooksOne(w, c, f.value);
    }
  }

  lemma OnFillBooksOne(w: World, c: Cid, f: FillRow)
    requires Inv(w) && OwedFill(w.acct, c, f)
    ensures w.acct.orders[c].lot in w.acct.positions
    ensures c in w.mem.coMap ==> w.mem.coMap[c].lot in w.mem.lots
    ensures Inv(OnFill(w, c, f))
    ensures OneBooked(w.acct, OnFill(w, c, f).acct, c, w.acct.orders[c].totals.qty + f.qty)
  {
    OnFillKeepsInv(w, c, f);
    FillKeepsDurable(w.acct, c, f);
    OnFillAccount(w, c, f);
    OwedOrderState(w.acct, c, f);
    RecordedBooksOne(w.acct, OnFill(w, c, f).acct, c, f);
  }

  lemma MissingIsOwed(a: Account, c: Cid, ex: Execution)
    requires Honest(a, c, ex)
    ensures var f := Missing(a.orders[c].totals, ex);
            && (f.Some? ==> OwedFill(a, c, f.value) && a.orders[c].totals.qty + f.value.qty == ex.qty)
            && (f.None? <==> ex.qty <= a.orders[c].totals.qty)
  {
  }

  lemma RecordedBooksOne(a: Account, b: Account, c: Cid, f: FillRow)
    requires c in a.orders && a.orders[c].lot in a.positions
    requires a.orders[c].state.IsOpen() || a.orders[c].state.CancelledOrder?
    requires b.orders == FillRecorded(a, c, f).orders
    requires b.broker == a.broker && b.positions.Keys == a.positions.Keys
    ensures OneBooked(a, b, c, a.orders[c].totals.qty + f.qty)
  {
  }

  /** A report leaves the barriers alone and forgets no lot. */
  lemma DeliveredKeepsBarriers(w: World, c: Cid, f: Option<FillRow>)
    requires c in w.acct.orders && w.acct.orders[c].lot in w.acct.positions
    requires c in w.mem.coMap ==> w.mem.coMap[c].lot in w.mem.lots
    ensures SameBarriers(w.mem, DeliveredFill(w, c, f).mem)
  {
    if f.Some? {
      var w1 := w.(acct := FillRecorded(w.acct, c, f.value));
      if c in w.mem.coMap {
        var meta := w.mem.coMap[c];
        ReflectedKeepsBarriers(w1, c, f.value, meta,
                               AfterFill(w1.mem.lots[meta.lot], EventOf(meta.side, f.value, meta.isAdd)));
      } else if w.acct.orders[c].lot in w.mem.lots {
        RecoveredKeepsBarriers(w1, c, f.value);
      }
    }
  }

  lemma RecoveredKeepsBarriers(w: World, c: Cid, f: FillRow)
    requires c in w.acct.orders && w.acct.orders[c].lot in w.mem.lots
    ensures var (w2, meta) := Recovered(w, c, f);
            meta.lot in w2.mem.lots && SameBarriers(w.mem, Reflected(w2, c, f, meta).mem)
  {
    var (w2, meta) := Recovered(w, c, f);
    ReflectedKeepsBarriers(w2, c, f, meta, AfterFill(w2.mem.lots[meta.lot], EventOf(meta.side, f, meta.isAdd)));
  }

  ghost predicate SameBarriers(m: Memory, m': Memory) {
    && m'.refreshBeforeSell == m.refreshBeforeSell && m'.unconfirmedBuyCancels == m.unconfirmedBuyCancels
    && m'.startupRefreshPending == m.startupRefreshPending
    && m.lots.Keys <= m'.lots.Keys
  }

  lemma ReflectedKeepsBarriers(w: World, c: Cid, f: FillRow, meta: Meta, lot: Lot)
    ensures SameBarriers(w.mem, ReflectedAs(w, c, f, meta, lot).mem)
  {
    var w1 := Evaluated(w, meta.lot, lot);
    assert SameBarriers(w.mem, w1.mem);
    var w2 := Synced(w1, meta.lot);
    assert SameBarriers(w.mem, w2.mem);
  }
}
