/**
 The engine's memory beside the account: lots, locks on (lot, side), order metadata, and the three barriers that stand
 while memory may lag the broker. The functions are the engine's steps; Inv is what every step keeps.
 */
module Engine {
  import opened Domain
  import opened Position
  import opened Ledgers
  import opened FillPoller
  import opened Account
  import opened AccountSteps

  type LockKey = (LotId, Side)

  /** What the engine remembers of an order it placed. */
  datatype Meta = Meta(lot: LotId, side: Side, isAdd: bool, requestedQty: real, filledQty: real, price: real)

  /** The runtime columns as last written. */
  datatype Snapshot = Snapshot(stop: Option<real>, peakPrice: real, tpRungsTaken: nat, originalQty: real)

  datatype Memory = Memory(
    lots: map<LotId, Lot>,
    pending: map<LockKey, Cid>,
    coMap: map<Cid, Meta>,
    refreshBeforeSell: set<LotId>,
    unconfirmedBuyCancels: set<LotId>,
    startupRefreshPending: bool,
    synced: map<LotId, Snapshot>)

  datatype World = World(acct: Account, mem: Memory)

  // ------------------------------------------------------------------
  // Invariant
  // ------------------------------------------------------------------

  ghost predicate LotsOk(a: Account, m: Memory) {
    && m.lots.Keys <= a.positions.Keys
    && (forall l :: l in m.lots ==> Agrees(m.lots[l], a.positions[l]))
    && (forall l :: l in m.lots && m.lots[l].state.Watching? ==> m.lots[l].initialStop.None?)
    && (forall l :: l in a.positions && l !in m.lots ==> a.positions[l].state.Closed?)
  }

  function KeyOf(o: OrderRow): LockKey {
    (o.lot, o.side)
  }

  /** An open order is named by the lock of its lot and side. */
  predicate LockFits(m: Memory, o: OrderRow, c: Cid) {
    o.state.IsOpen() ==> o.lot in m.lots && KeyOf(o) in m.pending && m.pending[KeyOf(o)] == c
  }

  /** A lock names an order of its own lot and side. */
  predicate LockNames(a: Account, m: Memory, k: LockKey)
    requires k in m.pending
  {
    m.pending[k] in a.orders && KeyOf(a.orders[m.pending[k]]) == k
  }

  ghost predicate LocksOk(a: Account, m: Memory) {
    && (forall c :: c in a.orders ==> LockFits(m, a.orders[c], c))
    && (forall k :: k in m.pending ==> LockNames(a, m, k))
  }

  predicate MetaOk(a: Account, m: Memory, c: Cid)
    requires c in m.coMap
  {
    c in a.orders && MetaFits(m.coMap[c], a.orders[c]) && a.orders[c].lot in m.lots
  }

  ghost predicate MetasOk(a: Account, m: Memory) {
    forall c :: c in m.coMap ==> MetaOk(a, m, c)
  }

  predicate MetaFits(meta: Meta, o: OrderRow) {
    meta.lot == o.lot && meta.side == o.side && meta.requestedQty == o.qty && meta.filledQty == o.totals.qty
  }

  /** A cancelled order with executions nobody has read is announced by a barrier. */
  predicate BarrierFits(a: Account, m: Memory, c: Cid)
    requires c in a.orders
  {
    a.orders[c].state.CancelledOrder? && Unread(a, c) > 0.0 ==> Announced(m, a.orders[c])
  }

  ghost predicate BarriersOk(a: Account, m: Memory) {
    forall c :: c in a.orders ==> BarrierFits(a, m, c)
  }

  predicate Announced(m: Memory, o: OrderRow) {
    m.startupRefreshPending
    || (o.lot in m.lots && o.lot in if o.side.Buy? then m.unconfirmedBuyCancels else m.refreshBeforeSell)
  }

  predicate RowHolds(row: PositionRow, s: Snapshot) {
    && row.initialStop == (if s.stop.Some? then s.stop.value else 0.0)
    && row.peakPrice == s.peakPrice && row.tpRungsTaken == s.tpRungsTaken && row.originalQty == s.originalQty
  }

  ghost predicate SyncedOk(a: Account, m: Memory) {
    forall l :: l in m.synced ==> l in a.positions && RowHolds(a.positions[l], m.synced[l])
  }

  ghost predicate MemOk(a: Account, m: Memory) {
    LotsOk(a, m) && LocksOk(a, m) && MetasOk(a, m) && BarriersOk(a, m) && SyncedOk(a, m)
  }

  ghost predicate Inv(w: World) {
    Durable(w.acct) && MemOk(w.acct, w.mem)
  }

  lemma InvIsDurable(w: World)
    requires Inv(w)
    ensures Durable(w.acct) && w.mem.lots.Keys <= w.acct.positions.Keys
  {
  }

  lemma InvIsBoth(w: World)
    requires Durable(w.acct) && MemOk(w.acct, w.mem)
    ensures Inv(w)
  {
  }

  lemma InvIsMemOk(w: World)
    requires Inv(w)
    ensures MemOk(w.acct, w.mem)
  {
  }

  // ------------------------------------------------------------------
  // Locks
  // ------------------------------------------------------------------

  /** Drop the key's lock if it names the order. */
  function Unlocked(m: Memory, k: LockKey, c: Cid): Memory {
    if k in m.pending && m.pending[k] == c then m.(pending := m.pending - {k}) else m
  }

  function Forgotten(m: Memory, c: Cid): Memory {
    m.(coMap := m.coMap - {c})
  }

  /** submit: lock, metadata and row, all before the broker hears of the order. */
  function Placed(w: World, c: Cid, lot: LotId, side: Side, qty: real, price: real, isAdd: bool, at: nat): World {
    World(Persisted(w.acct, c, lot, side, qty, price, at),
          w.mem.(pending := w.mem.pending[(lot, side) := c],
                 coMap := w.mem.coMap[c := Meta(lot, side, isAdd, qty, 0.0, price)]))
  }

  lemma PlacedKeepsMem(w: World, c: Cid, lot: LotId, side: Side, qty: real, price: real, isAdd: bool, at: nat)
    requires MemOk(w.acct, w.mem) && c !in w.acct.orders && lot in w.mem.lots
    requires forall d :: d in w.acct.orders && KeyOf(w.acct.orders[d]) == (lot, side) ==> !w.acct.orders[d].state.IsOpen()
    ensures MemOk(Placed(w, c, lot, side, qty, price, isAdd, at).acct, Placed(w, c, lot, side, qty, price, isAdd, at).mem)
  {
    var w' := Placed(w, c, lot, side, qty, price, isAdd, at);
    forall d | d in w'.acct.orders
      ensures LockFits(w'.mem, w'.acct.orders[d], d) && BarrierFits(w'.acct, w'.mem, d)
    {
      if d != c {
        assert LockFits(w.mem, w.acct.orders[d], d) && BarrierFits(w.acct, w.mem, d);
      }
    }
    forall k | k in w'.mem.pending
      ensures LockNames(w'.acct, w'.mem, k)
    {
      assert k != (lot, side) ==> LockNames(w.acct, w.mem, k);
    }
    forall d | d in w'.mem.coMap
      ensures MetaOk(w'.acct, w'.mem, d)
    {
      assert d != c ==> MetaOk(w.acct, w.mem, d);
    }
  }

  lemma PlacedKeepsInv(w: World, c: Cid, lot: LotId, side: Side, qty: real, price: real, isAdd: bool, at: nat)
    requires Inv(w) && MayPlace(w.acct, c, lot, side, qty) && lot in w.mem.lots
    ensures Inv(Placed(w, c, lot, side, qty, price, isAdd, at))
  {
    PersistKeepsDurable(w.acct, c, lot, side, qty, price, at);
    PlacedKeepsMem(w, c, lot, side, qty, price, isAdd, at);
  }

  /** A row moved; memory untouched except that a rejected or cancelled order gives up its lock and metadata. */
  function Settled(w: World, c: Cid, to: OrderState, no: Option<OrderNo>): World
    requires c in w.acct.orders
  {
    var o := w.acct.orders[c];
    var m := match to
      case Rejected => Forgotten(Unlocked(w.mem, KeyOf(o), c), c)
      case CancelledOrder =>
        var freed := Forgotten(Unlocked(w.mem, KeyOf(o), c), c);
        if o.side.Buy? then freed.(unconfirmedBuyCancels := freed.unconfirmedBuyCancels + {o.lot})
        else freed.(refreshBeforeSell := freed.refreshBeforeSell + {o.lot})
      case _ => w.mem;
    World(Moved(w.acct, c, to, no), m)
  }

  /** One row moved out of, or within, the open states; locks and metadata only lose what named it. */
  lemma MovedKeepsMem(w: World, c: Cid, to: OrderState, no: Option<OrderNo>, m: Memory)
    requires MemOk(w.acct, w.mem) && c in w.acct.orders && w.acct.orders[c].state.IsOpen()
    requires m.lots == w.mem.lots && m.synced == w.mem.synced && m.startupRefreshPending == w.mem.startupRefreshPending
    requires m.pending == w.mem.pending || (!to.IsOpen() && m.pending == w.mem.pending - {KeyOf(w.acct.orders[c])})
    requires m.coMap == w.mem.coMap || m.coMap == w.mem.coMap - {c}
    requires w.mem.refreshBeforeSell <= m.refreshBeforeSell && w.mem.unconfirmedBuyCancels <= m.unconfirmedBuyCancels
    requires to.CancelledOrder? ==> Announced(m, w.acct.orders[c])
    ensures MemOk(Moved(w.acct, c, to, no), m)
  {
    var a' := Moved(w.acct, c, to, no);
    assert LockFits(w.mem, w.acct.orders[c], c);
    forall d | d in a'.orders
      ensures LockFits(m, a'.orders[d], d) && BarrierFits(a', m, d)
    {
      assert LockFits(w.mem, w.acct.orders[d], d) && BarrierFits(w.acct, w.mem, d);
    }
    forall k | k in m.pending
      ensures LockNames(a', m, k)
    {
      assert LockNames(w.acct, w.mem, k);
    }
    forall d | d in m.coMap
      ensures MetaOk(a', m, d)
    {
      assert MetaOk(w.acct, w.mem, d);
    }
  }

  lemma OpenOrderIsLocked(w: World, c: Cid)
    requires LocksOk(w.acct, w.mem) && c in w.acct.orders && w.acct.orders[c].state.IsOpen()
    ensures w.acct.orders[c].lot in w.mem.lots
    ensures KeyOf(w.acct.orders[c]) in w.mem.pending && w.mem.pending[KeyOf(w.acct.orders[c])] == c
  {
    assert LockFits(w.mem, w.acct.orders[c], c);
  }

  lemma SettledKeepsMem(w: World, c: Cid, to: OrderState, no: Option<OrderNo>)
    requires MemOk(w.acct, w.mem) && c in w.acct.orders && w.acct.orders[c].state.IsOpen()
    requires to.New? || to.Unknown? || to.Rejected? || to.CancelledOrder?
    ensures MemOk(Settled(w, c, to, no).acct, Settled(w, c, to, no).mem)
  {
    OpenOrderIsLocked(w, c);
    var m := Settled(w, c, to, no).mem;
    if to.Rejected? || to.CancelledOrder? {
      assert m.pending == w.mem.pending - {KeyOf(w.acct.orders[c])};
      MovedKeepsMem(w, c, to, no, m);
    } else {
      MovedKeepsMem(w, c, to, no, w.mem);
    }
  }

  lemma SettledKeepsInv(w: World, c: Cid, to: OrderState, no: Option<OrderNo>)
    requires Inv(w) && MayMove(w.acct, c, to, no)
    ensures Inv(Settled(w, c, to, no))
  {
    MoveKeepsDurable(w.acct, c, to, no);
    SettledKeepsMem(w, c, to, no);
  }

  /** The resolver found the order absent at the broker: the row is rejected, the lock stays until released. */
  function ExpiredRow(w: World, c: Cid): World
    requires c in w.acct.orders
  {
    World(Moved(w.acct, c, Rejected, w.acct.orders[c].no), w.mem)
  }

  lemma ExpiredRowKeepsInv(w: World, c: Cid)
    requires Inv(w) && c in w.acct.orders && MayMove(w.acct, c, Rejected, w.acct.orders[c].no)
    ensures Inv(ExpiredRow(w, c))
  {
    MoveKeepsDurable(w.acct, c, Rejected, w.acct.orders[c].no);
    MovedKeepsMem(w, c, Rejected, w.acct.orders[c].no, w.mem);
  }

  /** A lock whose order can no longer fill is dropped, with its metadata. */
  function Released(w: World, k: LockKey): World
    requires k in w.mem.pending
  {
    var c := w.mem.pending[k];
    if c !in w.acct.orders || w.acct.orders[c].state.IsTerminal()
    then w.(mem := Forgotten(Unlocked(w.mem, k, c), c)) else w
  }

  lemma ReleasedKeepsMem(w: World, k: LockKey)
    requires MemOk(w.acct, w.mem) && k in w.mem.pending
    ensures MemOk(Released(w, k).acct, Released(w, k).mem) && Released(w, k).acct == w.acct
    ensures w.mem.pending[k] in w.acct.orders
    ensures k !in Released(w, k).mem.pending <==> !w.acct.orders[w.mem.pending[k]].state.IsOpen()
  {
    var w' := Released(w, k);
    assert LockNames(w.acct, w.mem, k);
    forall d | d in w.acct.orders
      ensures LockFits(w'.mem, w.acct.orders[d], d) && BarrierFits(w.acct, w'.mem, d)
    {
      assert LockFits(w.mem, w.acct.orders[d], d) && BarrierFits(w.acct, w.mem, d);
    }
    forall j | j in w'.mem.pending
      ensures LockNames(w.acct, w'.mem, j)
    {
      assert LockNames(w.acct, w.mem, j);
    }
    forall d | d in w'.mem.coMap
      ensures MetaOk(w.acct, w'.mem, d)
    {
      assert MetaOk(w.acct, w.mem, d);
    }
  }

  // ------------------------------------------------------------------
  // The broker
  // ------------------------------------------------------------------

  /** Same orders table, same barriers: locks, metadata and barriers stay right when lots are only added. */
  lemma SameTablesSameMem(w: World, a: Account, lots: map<LotId, Lot>, synced: map<LotId, Snapshot>)
    requires MemOk(w.acct, w.mem) && a.orders == w.acct.orders && w.mem.lots.Keys <= lots.Keys
    requires forall c :: c in a.orders ==> BarrierFits(a, w.mem, c)
    requires LotsOk(a, w.mem.(lots := lots)) && SyncedOk(a, w.mem.(synced := synced))
    ensures MemOk(a, w.mem.(lots := lots, synced := synced))
  {
    var m := w.mem.(lots := lots, synced := synced);
    forall d | d in a.orders
      ensures LockFits(m, a.orders[d], d) && BarrierFits(a, m, d)
    {
      assert LockFits(w.mem, w.acct.orders[d], d) && BarrierFits(a, w.mem, d);
    }
    forall k | k in m.pending
      ensures LockNames(a, m, k)
    {
      assert LockNames(w.acct, w.mem, k);
    }
    forall d | d in m.coMap
      ensures MetaOk(a, m, d)
    {
      assert MetaOk(w.acct, w.mem, d);
    }
  }

  lemma BrokerKeepsInv(w: World, b: map<Cid, BrokerOrder>)
    requires Inv(w) && BrokerMoves(w.acct, b)
    ensures Inv(w.(acct := w.acct.(broker := b)))
  {
    BrokerKeepsDurable(w.acct, b);
    var w' := w.(acct := w.acct.(broker := b));
    forall d | d in w'.acct.orders
      ensures BarrierFits(w'.acct, w'.mem, d) && LockFits(w'.mem, w'.acct.orders[d], d)
    {
      assert OrderOk(w.acct, d) && BarrierFits(w.acct, w.mem, d) && LockFits(w.mem, w.acct.orders[d], d);
    }
    SameTablesSameMem(w, w'.acct, w.mem.lots, w.mem.synced);
  }

  // ------------------------------------------------------------------
  // Barriers
  // ------------------------------------------------------------------

  /** Everything the broker executed for this order has been read, unless its number is still unknown. */
  predicate ReadUp(a: Account, c: Cid)
    requires c in a.orders
  {
    a.orders[c].no.Some? ==> Unread(a, c) == 0.0
  }

  function OverseasLots(w: World): set<LotId>
    requires w.mem.lots.Keys <= w.acct.positions.Keys
  {
    set l | l in w.mem.lots && w.acct.positions[l].overseas
  }

  /** After a poll that every leg answered all barriers go; after a domestic-only poll the overseas ones stay. */
  function Lowered(w: World, complete: bool): World
    requires w.mem.lots.Keys <= w.acct.positions.Keys
  {
    if complete then
      w.(mem := w.mem.(refreshBeforeSell := {}, unconfirmedBuyCancels := {}, startupRefreshPending := false))
    else
      w.(mem := w.mem.(refreshBeforeSell := w.mem.refreshBeforeSell * OverseasLots(w),
                       unconfirmedBuyCancels := w.mem.unconfirmedBuyCancels * OverseasLots(w)))
  }

  /** The poll has read everything on the legs that answered. */
  ghost predicate ReadThrough(a: Account, complete: bool) {
    forall c :: c in a.orders && a.orders[c].lot in a.positions && (complete || !a.positions[a.orders[c].lot].overseas)
      ==> ReadUp(a, c)
  }

  lemma LoweredKeepsInv(w: World, complete: bool)
    requires Inv(w) && ReadThrough(w.acct, complete)
    ensures Inv(Lowered(w, complete))
  {
    var w' := Lowered(w, complete);
    forall c | c in w.acct.orders
      ensures BarrierFits(w.acct, w'.mem, c) && LockFits(w'.mem, w.acct.orders[c], c)
    {
      assert OrderOk(w.acct, c) && BarrierFits(w.acct, w.mem, c) && LockFits(w.mem, w.acct.orders[c], c);
      assert ReadUp(w.acct, c) || (!complete && w.acct.positions[w.acct.orders[c].lot].overseas);
    }
    forall k | k in w'.mem.pending
      ensures LockNames(w.acct, w'.mem, k)
    {
      assert LockNames(w.acct, w.mem, k);
    }
    forall c | c in w'.mem.coMap
      ensures MetaOk(w.acct, w'.mem, c)
    {
      assert MetaOk(w.acct, w.mem, c);
    }
  }

  /** The barrier raised for the lot of a cancelled order. */
  function Marked(w: World, k: LockKey): World {
    w.(mem := if k.1.Buy? then w.mem.(unconfirmedBuyCancels := w.mem.unconfirmedBuyCancels + {k.0})
              else w.mem.(refreshBeforeSell := w.mem.refreshBeforeSell + {k.0}))
  }

  lemma MarkedKeepsInv(w: World, k: LockKey)
    requires Inv(w)
    ensures Inv(Marked(w, k))
  {
    var m := Marked(w, k).mem;
    forall c | c in w.acct.orders
      ensures LockFits(m, w.acct.orders[c], c) && BarrierFits(w.acct, m, c)
    {
      assert LockFits(w.mem, w.acct.orders[c], c) && BarrierFits(w.acct, w.mem, c);
    }
    forall j | j in m.pending
      ensures LockNames(w.acct, m, j)
    {
      assert LockNames(w.acct, w.mem, j);
    }
    forall c | c in m.coMap
      ensures MetaOk(w.acct, m, c)
    {
      assert MetaOk(w.acct, w.mem, c);
    }
  }

  // ------------------------------------------------------------------
  // Runtime columns
  // ------------------------------------------------------------------

  function SnapshotOf(lot: Lot): Snapshot {
    if lot.state.Watching? then
      Snapshot(lot.pendingStop, lot.peakPrice, lot.tpRungsTaken,
               if lot.pendingOriginalQty.Some? then lot.pendingOriginalQty.value else 0.0)
    else Snapshot(lot.initialStop, lot.peakPrice, lot.tpRungsTaken, lot.originalQty)
  }

  function RowAfterSync(row: PositionRow, s: Snapshot): PositionRow {
    row.(initialStop := if s.stop.Some? then s.stop.value else 0.0,
         peakPrice := s.peakPrice, tpRungsTaken := s.tpRungsTaken, originalQty := s.originalQty)
  }

  /** Write the lot's runtime state unless the last write already said the same. */
  function Synced(w: World, l: LotId): World
    requires l in w.mem.lots
  {
    var s := SnapshotOf(w.mem.lots[l]);
    if (l in w.mem.synced && w.mem.synced[l] == s) || l !in w.acct.positions then w
    else World(w.acct.(positions := w.acct.positions[l := RowAfterSync(w.acct.positions[l], s)]),
               w.mem.(synced := w.mem.synced[l := s]))
  }

  lemma SyncedKeepsInv(w: World, l: LotId)
    requires Inv(w) && l in w.mem.lots
    ensures Inv(Synced(w, l))
    ensures l in Synced(w, l).acct.positions
    ensures RowHolds(Synced(w, l).acct.positions[l], SnapshotOf(w.mem.lots[l]))
    ensures Synced(w, l).acct.orders == w.acct.orders && Synced(w, l).acct.broker == w.acct.broker
    ensures Synced(w, l).mem == w.mem.(synced := Synced(w, l).mem.synced)
  {
    var s := SnapshotOf(w.mem.lots[l]);
    var w' := Synced(w, l);
    if w' != w {
      RuntimeKeepsDurable(w.acct, l, if s.stop.Some? then s.stop.value else 0.0, s.peakPrice, s.tpRungsTaken, s.originalQty);
      SyncedKeepsMem(w, l);
    }
  }

  lemma SyncedKeepsMem(w: World, l: LotId)
    requires MemOk(w.acct, w.mem) && l in w.mem.lots
    ensures MemOk(Synced(w, l).acct, Synced(w, l).mem)
  {
    var w' := Synced(w, l);
    forall d | d in w.acct.orders
      ensures BarrierFits(w'.acct, w.mem, d)
    {
      assert BarrierFits(w.acct, w.mem, d);
    }
    SameTablesSameMem(w, w'.acct, w.mem.lots, w'.mem.synced);
  }

  /** evaluate and on_bar touch only runtime fields of the lot. */
  predicate SameBooks(x: Lot, y: Lot) {
    && x.state == y.state && x.qty == y.qty && x.avgEntry == y.avgEntry && x.realizedPnl == y.realizedPnl
    && x.initialStop == y.initialStop
  }

  function Evaluated(w: World, l: LotId, lot: Lot): World {
    w.(mem := w.mem.(lots := w.mem.lots[l := lot]))
  }

  lemma EvaluatedKeepsInv(w: World, l: LotId, lot: Lot)
    requires Inv(w) && l in w.mem.lots && SameBooks(w.mem.lots[l], lot)
    ensures Inv(Evaluated(w, l, lot))
  {
    hide Durable;
    EvaluatedKeepsLots(w, l, lot);
    hide LotsOk, LocksOk, MetasOk, SyncedOk;
    SameTablesSameMem(w, w.acct, Evaluated(w, l, lot).mem.lots, w.mem.synced);
  }

  lemma EvaluatedKeepsLots(w: World, l: LotId, lot: Lot)
    requires LotsOk(w.acct, w.mem) && SyncedOk(w.acct, w.mem) && l in w.mem.lots && SameBooks(w.mem.lots[l], lot)
    ensures LotsOk(w.acct, w.mem.(lots := Evaluated(w, l, lot).mem.lots))
    ensures SyncedOk(w.acct, w.mem.(synced := w.mem.synced))
  {
    assert Agrees(lot, w.acct.positions[l]);
    hide Agrees;
  }

  /** A fresh lot and its row. */
  function SpawnedLot(w: World, l: LotId, overseas: bool): World {
    World(Spawned(w.acct, l, overseas), w.mem.(lots := w.mem.lots[l := NewLot]))
  }

  lemma SpawnedLotKeepsInv(w: World, l: LotId, overseas: bool)
    requires Inv(w) && l !in w.acct.positions
    ensures Inv(SpawnedLot(w, l, overseas))
  {
    SpawnKeepsDurable(w.acct, l, overseas);
    SpawnedKeepsMem(w, l, overseas);
  }

  lemma SpawnedKeepsMem(w: World, l: LotId, overseas: bool)
    requires MemOk(w.acct, w.mem) && l !in w.acct.positions
    ensures MemOk(SpawnedLot(w, l, overseas).acct, SpawnedLot(w, l, overseas).mem)
  {
    var w' := SpawnedLot(w, l, overseas);
    forall d | d in w.acct.orders
      ensures BarrierFits(w'.acct, w.mem, d)
    {
      assert BarrierFits(w.acct, w.mem, d);
    }
    SameTablesSameMem(w, w'.acct, w'.mem.lots, w.mem.synced);
  }
}
