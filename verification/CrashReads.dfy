/**
 A restart ends with a read of the executions. An engine that crashed, restarted and read the same reports as one that
 never crashed holds the same lots and the same locks; so does one that died between the two commits of a fill.
 */
module CrashReads {
  import opened Domain
  import opened Position
  import opened Ledgers
  import opened FillPoller
  import opened Account
  import opened AccountSteps
  import opened Engine
  import opened EngineFills
  import opened Recovery
  import opened Runs
  import opened CrashRuns
  import opened Exchange
  import opened Reading

  /** Rows that differ in nothing but the runtime columns. */
  predicate SameBookRow(r: PositionRow, s: PositionRow) {
    s == r.(initialStop := s.initialStop, peakPrice := s.peakPrice, tpRungsTaken := s.tpRungsTaken, originalQty := s.originalQty)
  }

  predicate SameRestored(r: PositionRow, s: PositionRow) {
    r.initialStop == s.initialStop && r.tpRungsTaken == s.tpRungsTaken
  }

  // ------------------------------------------------------------------
  // What one fill does to lots and rows
  // ------------------------------------------------------------------

  /** The lot after the fill: taken by the lot in memory, or the lot rebuilt from the row that has the fill. */
  function LotAfter(w: World, c: Cid, f: FillRow, isAdd: bool): Lot
    requires c in w.acct.orders && w.acct.orders[c].lot in w.acct.positions
  {
    var o := w.acct.orders[c];
    if o.lot in w.mem.lots then AfterFill(w.mem.lots[o.lot], EventOf(o.side, f, isAdd))
    else LotFromRow(RowAfter(w, c, f))
  }

  /** The row after the first commit of the fill. */
  function RowAfter(w: World, c: Cid, f: FillRow): PositionRow
    requires c in w.acct.orders && w.acct.orders[c].lot in w.acct.positions
  {
    var o := w.acct.orders[c];
    ApplyToPosition(w.acct.positions[o.lot], EventOf(o.side, f, false))
  }

  /** One lot moves, one row moves, and all orders keep their metadata while they are open. */
  ghost predicate FillShape(w: World, w': World, c: Cid, f: FillRow, isAdd: bool)
    requires c in w.acct.orders && w.acct.orders[c].lot in w.acct.positions
  {
    var l := w.acct.orders[c].lot;
    && w'.mem.lots == w.mem.lots[l := LotAfter(w, c, f, isAdd)]
    && w'.acct.positions.Keys == w.acct.positions.Keys
    && (forall k :: k in w.acct.positions && k != l ==> w'.acct.positions[k] == w.acct.positions[k])
    && SameBookRow(RowAfter(w, c, f), w'.acct.positions[l])
    && (l !in w.mem.lots ==> w'.acct.positions[l] == RowAfter(w, c, f))
    && w'.acct.orders == FillRecorded(w.acct, c, f).orders
    && (forall d :: d in w'.acct.orders && w'.acct.orders[d].state.IsOpen() && d in w.mem.coMap ==> d in w'.mem.coMap)
  }

  lemma SyncedShape(w: World, l: LotId)
    requires l in w.mem.lots && l in w.acct.positions
    ensures var w' := Synced(w, l);
      && w'.mem.lots == w.mem.lots && w'.mem.coMap == w.mem.coMap && w'.acct.orders == w.acct.orders
      && w'.acct.positions.Keys == w.acct.positions.Keys
      && (forall k :: k in w.acct.positions && k != l ==> w'.acct.positions[k] == w.acct.positions[k])
      && SameBookRow(w.acct.positions[l], w'.acct.positions[l])
  {
  }

  /** Reflecting a fill whose metadata is right. */
  lemma ReflectedShape(w: World, c: Cid, f: FillRow, meta: Meta)
    requires c in w.acct.orders && w.acct.orders[c].lot in w.acct.positions && w.acct.orders[c].lot in w.mem.lots
    requires MetaBehind(meta, w.acct.orders[c], f)
    requires w.acct.orders[c].state.IsOpen() ==> w.acct.orders[c].totals.qty < w.acct.orders[c].qty
    ensures var w' := Reflected(w, c, f, meta);
            var l := w.acct.orders[c].lot;
      && w'.mem.lots == w.mem.lots[l := AfterFill(w.mem.lots[l], EventOf(meta.side, f, meta.isAdd))]
      && w'.acct.orders == w.acct.orders && w'.acct.positions.Keys == w.acct.positions.Keys
      && (forall k :: k in w.acct.positions && k != l ==> w'.acct.positions[k] == w.acct.positions[k])
      && SameBookRow(w.acct.positions[l], w'.acct.positions[l])
      && (forall d :: d in w.mem.coMap && (d == c ==> w.acct.orders[c].state.IsOpen()) ==> d in w'.mem.coMap)
  {
    hide AfterFill, SnapshotOf;
    var lot := AfterFill(w.mem.lots[meta.lot], EventOf(meta.side, f, meta.isAdd));
    SyncedShape(Evaluated(w, meta.lot, lot), meta.lot);
    hide Synced;
  }

  lemma OnFillShape(w: World, c: Cid, f: FillRow) returns (isAdd: bool)
    requires Inv(w) && OwedFill(w.acct, c, f)
    ensures w.acct.orders[c].lot in w.acct.positions && (c in w.mem.coMap ==> w.mem.coMap[c].lot in w.mem.lots)
    ensures FillShape(w, OnFill(w, c, f), c, f, isAdd)
    ensures w.acct.orders[c].lot !in w.mem.lots ==> w.acct.orders[c].side.Buy?
  {
    isAdd := false;
    OwedOrderState(w.acct, c, f);
    InvIsMemOk(w);
    var l := w.acct.orders[c].lot;
    assert c in w.mem.coMap ==> MetaOk(w.acct, w.mem, c);
    hide Durable, LotsOk, MetasOk, BarriersOk, SyncedOk, LocksOk, FillShape, OwedFill, Reflected, Recovered, Rebuilt;
    if l !in w.mem.lots {
      RebuiltShape(w, c, f);
    } else {
      isAdd := RememberedShape(w, c, f);
    }
  }

  lemma RememberedShape(w: World, c: Cid, f: FillRow) returns (isAdd: bool)
    requires MemOk(w.acct, w.mem) && c in w.acct.orders && f.qty > 0.0
    requires w.acct.orders[c].lot in w.acct.positions && w.acct.orders[c].lot in w.mem.lots
    requires c in w.mem.coMap ==> w.mem.coMap[c].lot in w.mem.lots
    requires var s := w.acct.orders[c].state; s.New? || s.PartiallyFilled? || s.CancelledOrder?
    requires var o := FillRecorded(w.acct, c, f).orders[c]; o.state.IsOpen() ==> o.totals.qty < o.qty
    ensures FillShape(w, OnFill(w, c, f), c, f, isAdd)
  {
    var w1 := w.(acct := FillRecorded(w.acct, c, f));
    CommitLeavesBehind(w, c, f);
    hide MemOk, FillShape, Reflected, IsAddOn;
    if c in w.mem.coMap {
      isAdd := w.mem.coMap[c].isAdd;
      KnownShape(w, c, f, w1, w.mem.coMap[c]);
    } else {
      RecoveredStaysBehind(w.acct, w1, c, f);
      var (w2, meta) := Recovered(w1, c, f);
      isAdd := meta.isAdd;
      KnownShape(w, c, f, w2, meta);
    }
  }

  lemma KnownShape(w: World, c: Cid, f: FillRow, w2: World, meta: Meta)
    requires c in w.acct.orders && w.acct.orders[c].lot in w.acct.positions && w.acct.orders[c].lot in w.mem.lots
    requires w2.acct == FillRecorded(w.acct, c, f) && w2.mem.lots == w.mem.lots && w.mem.coMap.Keys <= w2.mem.coMap.Keys
    requires MetaBehind(meta, w2.acct.orders[c], f)
    requires w2.acct.orders[c].state.IsOpen() ==> w2.acct.orders[c].totals.qty < w2.acct.orders[c].qty
    ensures meta.lot in w2.mem.lots
    ensures FillShape(w, Reflected(w2, c, f, meta), c, f, meta.isAdd)
  {
    hide AfterFill, ApplyToPosition, Reflected;
    ReflectedShape(w2, c, f, meta);
  }

  lemma RebuiltShape(w: World, c: Cid, f: FillRow)
    requires Inv(w) && OwedFill(w.acct, c, f)
    requires w.acct.orders[c].lot in w.acct.positions && w.acct.orders[c].lot !in w.mem.lots
    ensures c !in w.mem.coMap && w.acct.orders[c].side.Buy?
    ensures FillShape(w, OnFill(w, c, f), c, f, false)
  {
    ForgottenLotIsBought(w, c, f);
    hide Inv, ApplyToPosition;
    RebuiltFromRow(w, c, f);
  }

  /** A lot memory has forgotten was closed, so only a buy can be owed, and it opens the row. */
  lemma ForgottenLotIsBought(w: World, c: Cid, f: FillRow)
    requires Inv(w) && OwedFill(w.acct, c, f)
    requires w.acct.orders[c].lot in w.acct.positions && w.acct.orders[c].lot !in w.mem.lots
    ensures c !in w.mem.coMap && w.acct.orders[c].side.Buy?
    ensures w.acct.positions[w.acct.orders[c].lot].state.Closed?
    ensures RowAfter(w, c, f).qtyFilled > 0.0 && RowAfter(w, c, f).state.Holding?
  {
    var o := w.acct.orders[c];
    assert c in w.mem.coMap ==> MetaOk(w.acct, w.mem, c);
    assert RowOk(w.acct.positions[o.lot]) && w.acct.positions[o.lot].qtyFilled == 0.0;
    if o.side.Sell? {
      OwedSellIsHeld(w.acct, c, f);
    }
  }

  lemma RebuiltFromRow(w: World, c: Cid, f: FillRow)
    requires c in w.acct.orders && w.acct.orders[c].lot in w.acct.positions && w.acct.orders[c].lot !in w.mem.lots
    requires c !in w.mem.coMap && RowAfter(w, c, f).qtyFilled > 0.0 && RowAfter(w, c, f).state.Holding?
    ensures FillShape(w, OnFill(w, c, f), c, f, false)
  {
    hide ApplyToPosition, LotFromRow;
    var w1 := w.(acct := FillRecorded(w.acct, c, f));
    var w' := OnFill(w, c, f);
    assert w'.acct == w1.acct && w.mem.coMap.Keys <= w'.mem.coMap.Keys;
  }

  // ------------------------------------------------------------------
  // Two engines side by side
  // ------------------------------------------------------------------

  /** The lot and its row, in an engine that never crashed and in one that did. */
  ghost predicate SameLot(w: World, v: World, l: LotId) {
    && (l in v.mem.lots ==> l in w.mem.lots && Twin(w.mem.lots[l], v.mem.lots[l]))
    && (l in v.acct.positions ==> l in w.acct.positions && SameBookRow(w.acct.positions[l], v.acct.positions[l]))
    && (l in w.acct.positions ==> l in v.acct.positions)
    && (l in v.acct.positions && l !in v.mem.lots ==>
          if l in w.mem.lots then SameRuntime(v.acct.positions[l], w.mem.lots[l])
          else SameRestored(w.acct.positions[l], v.acct.positions[l]))
  }

  /** The same tables but for runtime columns, and the restarted engine knows every open order. */
  ghost predicate SideBySide(w: World, v: World, l: LotId) {
    && Inv(w) && Inv(v) && w.acct.broker == v.acct.broker && v.acct.orders == Orphaned(w.acct).orders
    && KnowsOpenOrders(v) && SameLot(w, v, l)
  }

  ghost predicate KnowsOpenOrders(v: World) {
    forall c :: c in v.acct.orders && v.acct.orders[c].state.IsOpen() ==> c in v.mem.coMap
  }

  /** Right after the restart: the tables are shared and memory comes from them. */
  lemma RestartIsSideBySide(w: World, m: Memory, l: LotId)
    requires Inv(w) && IsHydrated(Orphaned(w.acct), m) && (l in w.mem.lots ==> Clean(w, l))
    ensures SideBySide(w, World(Orphaned(w.acct), m), l)
  {
    OrphanedKeepsDurable(w.acct);
    HydratedKeepsInv(Orphaned(w.acct), m);
    InvIsMemOk(w);
    LoadedAreRemembered(w);
    hide Inv, Durable, LocksOk, MetasOk, BarriersOk, SyncedOk;
    RestartedLotIsSame(w, m, l);
  }

  lemma RestartedLotIsSame(w: World, m: Memory, l: LotId)
    requires LotsOk(w.acct, w.mem) && IsHydrated(Orphaned(w.acct), m) && (l in w.mem.lots ==> Clean(w, l))
    requires LoadedLots(Orphaned(w.acct)) <= w.mem.lots.Keys
    ensures SameLot(w, World(Orphaned(w.acct), m), l)
  {
    hide Twin, LotFromRow, LoadedLots;
    if l in m.lots {
      RowRestoresExactlyWhen(w.mem.lots[l], w.acct.positions[l]);
    }
  }

  /** What a restart loads the engine already had: an open lot, or the lot of an open order. */
  lemma LoadedAreRemembered(w: World)
    requires LotsOk(w.acct, w.mem) && LocksOk(w.acct, w.mem)
    ensures LoadedLots(Orphaned(w.acct)) <= w.mem.lots.Keys
  {
    forall c | c in w.acct.orders && w.acct.orders[c].state.IsOpen()
      ensures w.acct.orders[c].lot in w.mem.lots
    {
      assert LockFits(w.mem, w.acct.orders[c], c);
    }
  }

  lemma RestoredTwins(r: PositionRow, s: PositionRow)
    requires SameBookRow(r, s) && SameRestored(r, s) && r.state.Holding?
    ensures Twin(LotFromRow(r), LotFromRow(s))
  {
  }

  /** A fill leaves every other lot as it was. */
  lemma OtherLotStaysSame(w: World, v: World, w': World, v': World, c: Cid, f: FillRow, x: bool, y: bool, l: LotId)
    requires c in w.acct.orders && c in v.acct.orders && w.acct.orders[c].lot == v.acct.orders[c].lot != l
    requires w.acct.orders[c].lot in w.acct.positions && v.acct.orders[c].lot in v.acct.positions
    requires FillShape(w, w', c, f, x) && FillShape(v, v', c, f, y) && SameLot(w, v, l)
    ensures SameLot(w', v', l)
  {
    hide Twin, SameRuntime, SameRestored, FillRecorded, LotAfter, RowAfter;
  }

  /** Both engines remember the lot: their twins stay twins. */
  lemma RememberedLotStaysSame(w: World, v: World, w': World, v': World, c: Cid, f: FillRow, x: bool, y: bool)
    requires c in w.acct.orders && c in v.acct.orders && w.acct.orders[c] == v.acct.orders[c]
    requires w.acct.orders[c].lot in w.acct.positions && v.acct.orders[c].lot in v.acct.positions
    requires FillShape(w, w', c, f, x) && FillShape(v, v', c, f, y) && SameLot(w, v, w.acct.orders[c].lot)
    requires w.acct.orders[c].lot in v.mem.lots
    ensures SameLot(w', v', w.acct.orders[c].lot)
  {
    var o := w.acct.orders[c];
    TwinsStayTwins(w.mem.lots[o.lot], v.mem.lots[o.lot], o.side, f, x, y);
    SameRowsAfterFill(w.acct.positions[o.lot], v.acct.positions[o.lot], EventOf(o.side, f, false));
    hide Twin, AfterFill, ApplyToPosition, FillRecorded;
  }

  lemma SameRowsAfterFill(r: PositionRow, s: PositionRow, e: FillEvent)
    requires SameBookRow(r, s)
    ensures SameBookRow(ApplyToPosition(r, e), ApplyToPosition(s, e))
    ensures SameRestored(r, s) ==> SameRestored(ApplyToPosition(r, e), ApplyToPosition(s, e))
  {
  }

  /** The restarted engine has forgotten the closed lot: a late buy rebuilds the twin of the one remembered. */
  lemma ForgottenLotComesBack(w: World, v: World, w': World, v': World, c: Cid, f: FillRow, x: bool, y: bool)
    requires c in w.acct.orders && c in v.acct.orders && w.acct.orders[c] == v.acct.orders[c]
    requires w.acct.orders[c].lot in w.acct.positions && v.acct.orders[c].lot in v.acct.positions
    requires FillShape(w, w', c, f, x) && FillShape(v, v', c, f, y) && SameLot(w, v, w.acct.orders[c].lot)
    requires w.acct.orders[c].lot !in v.mem.lots && w.acct.orders[c].side.Buy? && f.qty > 0.0
    requires var l := w.acct.orders[c].lot;
      v.acct.positions[l].state.Closed? && (l in w.mem.lots ==> Agrees(w.mem.lots[l], w.acct.positions[l]))
    requires RowAfter(v, c, f).state.Holding?
    ensures SameLot(w', v', w.acct.orders[c].lot)
  {
    var o := w.acct.orders[c];
    var (r, s) := (w.acct.positions[o.lot], v.acct.positions[o.lot]);
    SameRowsAfterFill(r, s, EventOf(o.side, f, false));
    if o.lot in w.mem.lots {
      ReopenedIsRebuilt(w.mem.lots[o.lot], s, f, x);
    } else {
      RestoredTwins(RowAfter(w, c, f), RowAfter(v, c, f));
    }
    hide Twin, AfterFill, ApplyToPosition, LotFromRow, FillRecorded;
  }

  lemma ReopenedIsRebuilt(lot: Lot, row: PositionRow, f: FillRow, isAdd: bool)
    requires Agrees(lot, row) && lot.state.Closed? && SameRuntime(row, lot) && f.qty > 0.0
    ensures Twin(AfterFill(lot, EventOf(Buy, f, isAdd)), LotFromRow(ApplyToPosition(row, EventOf(Buy, f, false))))
  {
    FillKeepsAgreement(lot, row, EventOf(Buy, f, isAdd));
    ProjectionIgnoresAddOn(row, Buy, f, isAdd);
    RowRestoresExactlyWhen(AfterFill(lot, EventOf(Buy, f, isAdd)), ApplyToPosition(row, EventOf(Buy, f, false)));
  }

  /** The same fill in both engines. */
  lemma FillKeepsSideBySide(w: World, v: World, c: Cid, f: FillRow, l: LotId)
    requires SideBySide(w, v, l) && OwedFill(w.acct, c, f) && OwedFill(v.acct, c, f)
    ensures Readable(w, c) && Readable(v, c)
    ensures SideBySide(OnFill(w, c, f), OnFill(v, c, f), l)
  {
    OwedOrderState(w.acct, c, f);
    OnFillBooksOne(w, c, f);
    OnFillBooksOne(v, c, f);
    var x := OnFillShape(w, c, f);
    var y := OnFillShape(v, c, f);
    FillKeepsLotSame(w, v, c, f, l, x, y);
    SameOrdersAfterFill(w, v, c, f);
    hide Inv, FillRecorded, SameLot, OnFill;
    assert KnowsOpenOrders(OnFill(v, c, f)) by {
      OpenBefore(v.acct, c, f);
    }
  }

  lemma OpenBefore(a: Account, c: Cid, f: FillRow)
    requires c in a.orders && a.orders[c].lot in a.positions && !a.orders[c].state.Rejected? && !a.orders[c].state.Filled?
    ensures forall d :: d in a.orders && FillRecorded(a, c, f).orders[d].state.IsOpen() ==> a.orders[d].state.IsOpen()
    ensures FillRecorded(a, c, f).orders.Keys == a.orders.Keys
  {
  }

  lemma SameOrdersAfterFill(w: World, v: World, c: Cid, f: FillRow)
    requires c in w.acct.orders && v.acct.orders == Orphaned(w.acct).orders && !w.acct.orders[c].state.PendingNew?
    requires w.acct.orders[c].lot in w.acct.positions && w.acct.orders[c].lot in v.acct.positions
    ensures c in v.acct.orders && v.acct.orders[c] == w.acct.orders[c]
    ensures FillRecorded(v.acct, c, f).orders == Orphaned(FillRecorded(w.acct, c, f)).orders
  {
  }

  lemma FillKeepsLotSame(w: World, v: World, c: Cid, f: FillRow, l: LotId, x: bool, y: bool)
    requires SideBySide(w, v, l) && OwedFill(w.acct, c, f) && OwedFill(v.acct, c, f)
    requires w.acct.orders[c].lot in w.acct.positions && v.acct.orders[c].lot in v.acct.positions
    requires Readable(w, c) && Readable(v, c)
    requires FillShape(w, OnFill(w, c, f), c, f, x) && FillShape(v, OnFill(v, c, f), c, f, y)
    ensures SameLot(OnFill(w, c, f), OnFill(v, c, f), l)
  {
    OwedOrderState(w.acct, c, f);
    SameOrdersAfterFill(w, v, c, f);
    var o := w.acct.orders[c];
    var (w', v') := (OnFill(w, c, f), OnFill(v, c, f));
    if o.lot != l {
      hide Inv, OnFill, FillShape, SameLot;
      OtherLotStaysSame(w, v, w', v', c, f, x, y, l);
    } else if l in v.mem.lots {
      hide Inv, OnFill, FillShape, SameLot;
      RememberedLotStaysSame(w, v, w', v', c, f, x, y);
    } else {
      ForgottenLotIsBought(v, c, f);
      InvIsMemOk(w);
      hide Inv, OnFill, FillShape, SameLot;
      ForgottenLotComesBack(w, v, w', v', c, f, x, y);
    }
  }

  /** The same report in both engines. */
  lemma ReportKeepsSideBySide(w: World, v: World, ex: Execution, l: LotId)
    requires SideBySide(w, v, l) && TrueReport(w.acct.broker, ex)
    ensures SideBySide(ReadReport(w, ex), ReadReport(v, ex), l)
  {
    hide Inv, SameLot, OnFill, KnowsOpenOrders;
    SameOrderOf(w, v, ex);
    if OrderOf(w.acct, ex.no).Some? {
      var c := OrderOf(w.acct, ex.no).value;
      OrderOfIsHonest(w, ex);
      OrderOfIsHonest(v, ex);
      MissingIsOwed(w.acct, c, ex);
      MissingIsOwed(v.acct, c, ex);
      if Missing(w.acct.orders[c].totals, ex).Some? {
        FillKeepsSideBySide(w, v, c, Missing(w.acct.orders[c].totals, ex).value, l);
      }
    }
  }

  lemma SameOrderOf(w: World, v: World, ex: Execution)
    requires Inv(w) && Inv(v) && v.acct.orders == Orphaned(w.acct).orders
    ensures OrderOf(v.acct, ex.no) == OrderOf(w.acct, ex.no)
    ensures OrderOf(w.acct, ex.no).Some? ==> SameBooksOf(w, v, OrderOf(w.acct, ex.no).value)
  {
    hide Inv, Durable, Orphaned, OrderOf;
    InvIsDurable(w);
    InvIsDurable(v);
    SameNumbers(w, v);
    SameNumberSameOrder(w.acct, v.acct, ex.no);
  }

  lemma SameNumberSameOrder(a: Account, b: Account, no: OrderNo)
    requires Durable(a) && Durable(b) && b.orders.Keys == a.orders.Keys
    requires forall c :: c in a.orders ==> b.orders[c].no == a.orders[c].no
    ensures OrderOf(b, no) == OrderOf(a, no)
    ensures OrderOf(a, no).Some? ==> OrderOf(a, no).value in a.orders
  {
    hide Durable;
    if c :| c in a.orders && a.orders[c].no == Some(no) {
      NumberFindsOne(a, c, no);
      NumberFindsOne(b, c, no);
    }
  }

  predicate SameBooksOf(w: World, v: World, c: Cid) {
    c in w.acct.orders && c in v.acct.orders && v.acct.orders[c].totals == w.acct.orders[c].totals
  }

  lemma SameNumbers(w: World, v: World)
    requires v.acct.orders == Orphaned(w.acct).orders
    ensures v.acct.orders.Keys == w.acct.orders.Keys
    ensures forall c :: c in w.acct.orders ==> SameBooksOf(w, v, c) && v.acct.orders[c].no == w.acct.orders[c].no
  {
  }

  lemma {:induction false} ReportsKeepSideBySide(w: World, v: World, reports: seq<Execution>, l: LotId)
    requires SideBySide(w, v, l) && AllTrue(w.acct.broker, reports)
    ensures SideBySide(ReadReports(w, reports), ReadReports(v, reports), l)
  {
    hide SideBySide, ReadReport, Inv, TrueReport;
    SideBySideInv(w, v, l);
    if reports != [] {
      var n := |reports| - 1;
      PrefixIsTrue(w.acct.broker, reports);
      ReportsKeepSideBySide(w, v, reports[..n], l);
      ReportKeepsSideBySide(ReadReports(w, reports[..n]), ReadReports(v, reports[..n]), reports[n], l);
    }
  }

  lemma PrefixIsTrue(book: map<Cid, BrokerOrder>, reports: seq<Execution>)
    requires AllTrue(book, reports) && reports != []
    ensures AllTrue(book, reports[..|reports| - 1]) && TrueReport(book, reports[|reports| - 1])
  {
    hide TrueReport;
  }

  lemma SideBySideInv(w: World, v: World, l: LotId)
    requires SideBySide(w, v, l)
    ensures Inv(w) && Inv(v) && w.acct.broker == v.acct.broker
  {
  }

  // ------------------------------------------------------------------
  // The theorems
  // ------------------------------------------------------------------

  /** Every lot still held or watched is the same; so are the lock and the filled count of every open order. */
  ghost predicate SameToItsOwner(w: World, v: World, l: LotId) {
    && (l in w.mem.lots && !w.mem.lots[l].state.Closed? ==> l in v.mem.lots && Twin(w.mem.lots[l], v.mem.lots[l]))
    && forall c :: c in w.acct.orders && w.acct.orders[c].state.IsOpen() ==> SameOrder(w, v, c)
  }

  ghost predicate SameOrder(w: World, v: World, c: Cid)
    requires c in w.acct.orders
  {
    var k := KeyOf(w.acct.orders[c]);
    && k in w.mem.pending && k in v.mem.pending && w.mem.pending[k] == v.mem.pending[k] == c
    && c in v.mem.coMap && v.mem.coMap[c].filledQty == w.acct.orders[c].totals.qty
    && (c in w.mem.coMap ==> w.mem.coMap[c].filledQty == v.mem.coMap[c].filledQty)
  }

  lemma SideBySideIsSame(w: World, v: World, l: LotId)
    requires SideBySide(w, v, l)
    ensures SameToItsOwner(w, v, l)
  {
    InvIsMemOk(w);
    InvIsMemOk(v);
    hide Inv, Durable, Twin, BarriersOk, SyncedOk;
    if l in w.mem.lots && !w.mem.lots[l].state.Closed? {
      OpenLotIsKnown(w, v, l);
    }
    hide SameLot, LotsOk;
    forall c | c in w.acct.orders && w.acct.orders[c].state.IsOpen()
      ensures SameOrder(w, v, c)
    {
      OpenOrderIsSame(w, v, c);
    }
  }

  lemma OpenLotIsKnown(w: World, v: World, l: LotId)
    requires LotsOk(w.acct, w.mem) && LotsOk(v.acct, v.mem) && SameLot(w, v, l)
    requires l in w.mem.lots && !w.mem.lots[l].state.Closed?
    ensures l in v.mem.lots && Twin(w.mem.lots[l], v.mem.lots[l])
  {
    hide Twin;
    assert Agrees(w.mem.lots[l], w.acct.positions[l]);
  }

  lemma OpenOrderIsSame(w: World, v: World, c: Cid)
    requires LocksOk(w.acct, w.mem) && LocksOk(v.acct, v.mem) && MetasOk(w.acct, w.mem) && MetasOk(v.acct, v.mem)
    requires v.acct.orders == Orphaned(w.acct).orders && KnowsOpenOrders(v)
    requires c in w.acct.orders && w.acct.orders[c].state.IsOpen()
    ensures SameOrder(w, v, c)
  {
    assert c in v.acct.orders && v.acct.orders[c].state.IsOpen() && KeyOf(v.acct.orders[c]) == KeyOf(w.acct.orders[c]);
    assert LockFits(w.mem, w.acct.orders[c], c) && LockFits(v.mem, v.acct.orders[c], c);
    assert MetaOk(v.acct, v.mem, c);
    assert c in w.mem.coMap ==> MetaOk(w.acct, w.mem, c);
  }

  /**
   Crash is invisible. In any state of any run, for any lot not in the middle of a bar: restart, read whatever the broker
   reports, and the engine has the lot, locks and filled counts it would have had without the crash.
   */
  lemma CrashAndReadIsInvisible(ws: seq<World>, es: seq<Event>, n: nat, m: Memory, reports: seq<Execution>, l: LotId)
    requires IsRun(ws, es) && StorableSyncs(ws, es) && n < |ws| && l !in Dirty(ws, es, n)
    requires IsHydrated(Orphaned(ws[n].acct), m) && AllTrue(ws[n].acct.broker, reports)
    ensures Inv(ws[n]) && Inv(World(Orphaned(ws[n].acct), m))
    ensures SameToItsOwner(ReadReports(ws[n], reports), ReadReports(World(Orphaned(ws[n].acct), m), reports), l)
  {
    hide IsRun, StorableSyncs, Dirty, Inv, SideBySide, SameToItsOwner;
    EveryStateIsSound(ws, es, n);
    if l in ws[n].mem.lots {
      RunKeepsClean(ws, es, n, l);
    }
    var v := World(Orphaned(ws[n].acct), m);
    RestartIsSideBySide(ws[n], m, l);
    SideBySideInv(ws[n], v, l);
    ReportsKeepSideBySide(ws[n], v, reports, l);
    SideBySideIsSame(ReadReports(ws[n], reports), ReadReports(v, reports), l);
  }

  /** Died between the commit of a fill and its runtime columns: what comes back is the lot the finished read would have left. */
  lemma CrashInReadIsInvisible(w: World, c: Cid, ex: Execution, m: Memory, l: LotId)
    requires Inv(w) && Honest(w.acct, c, ex) && Readable(w, c) && Missing(w.acct.orders[c].totals, ex).Some?
    requires IsHydrated(Orphaned(Committed(w.acct, c, ex)), m) && (l in w.mem.lots ==> Clean(w, l))
    ensures var w' := Delivered(w, c, ex);
      l in w'.mem.lots && !w'.mem.lots[l].state.Closed? ==> l in m.lots && Twin(w'.mem.lots[l], m.lots[l])
  {
    MissingIsOwed(w.acct, c, ex);
    hide Inv, OnFill, Clean, Twin, IsHydrated, Orphaned, FillRecorded, OwedFill;
    CommittedFillIsTwin(w, c, Missing(w.acct.orders[c].totals, ex).value, m, l);
  }

  lemma CommittedFillIsTwin(w: World, c: Cid, f: FillRow, m: Memory, l: LotId)
    requires Inv(w) && OwedFill(w.acct, c, f) && Readable(w, c) && (l in w.mem.lots ==> Clean(w, l))
    requires IsHydrated(Orphaned(FillRecorded(w.acct, c, f)), m)
    ensures Readable(w, c)
    ensures var w' := OnFill(w, c, f);
      l in w'.mem.lots && !w'.mem.lots[l].state.Closed? ==> l in m.lots && Twin(w'.mem.lots[l], m.lots[l])
  {
    assert c in w.acct.orders;
    hide Inv, OnFill, Clean, Twin, IsHydrated, Orphaned, FillRecorded, OwedFill, FillShape;
    var x := OnFillShape(w, c, f);
    OnFillKeepsInv(w, c, f);
    InvIsMemOk(w);
    InvIsMemOk(OnFill(w, c, f));
    CommittedIsTwin(w, c, f, x, OnFill(w, c, f), m, l);
  }

  lemma CommittedIsTwin(w: World, c: Cid, f: FillRow, x: bool, w': World, m: Memory, l: LotId)
    requires c in w.acct.orders && w.acct.orders[c].lot in w.acct.positions && FillShape(w, w', c, f, x)
    requires MemOk(w.acct, w.mem) && MemOk(w'.acct, w'.mem) && (l in w.mem.lots ==> Clean(w, l))
    requires IsHydrated(Orphaned(FillRecorded(w.acct, c, f)), m)
    ensures l in w'.mem.lots && !w'.mem.lots[l].state.Closed? ==> l in m.lots && Twin(w'.mem.lots[l], m.lots[l])
  {
    hide LocksOk, MetasOk, BarriersOk, SyncedOk, FillShape, Twin, Clean, FillRecorded, LotFromRow;
    if l in w'.mem.lots && !w'.mem.lots[l].state.Closed? {
      CommittedRestores(w, c, f, x, w', l);
      RecordedKeys(w.acct, c, f);
      assert l in LoadedLots(Orphaned(FillRecorded(w.acct, c, f)));
    }
  }

  lemma CommittedRestores(w: World, c: Cid, f: FillRow, x: bool, w': World, l: LotId)
    requires c in w.acct.orders && w.acct.orders[c].lot in w.acct.positions && FillShape(w, w', c, f, x)
    requires LotsOk(w.acct, w.mem) && LotsOk(w'.acct, w'.mem) && (l in w.mem.lots ==> Clean(w, l))
    requires l in w'.mem.lots && !w'.mem.lots[l].state.Closed?
    ensures l in w.acct.positions
    ensures var row := FillRecorded(w.acct, c, f).positions[l];
      !row.state.Closed? && Twin(w'.mem.lots[l], LotFromRow(row))
  {
    var o := w.acct.orders[c];
    var row := FillRecorded(w.acct, c, f).positions[l];
    var lot := w'.mem.lots[l];
    assert Agrees(lot, row);
    if l == o.lot && l in w.mem.lots {
      FillKeepsStop(w.mem.lots[l], EventOf(o.side, f, x));
    }
    RowRestoresExactlyWhen(lot, row);
  }
}
