/** Whole runs of the protocol, and what holds in every state they reach. */
module Runs {
  import opened Domain
  import opened Position
  import opened Ledgers
  import opened FillPoller
  import opened Account
  import opened AccountSteps
  import opened Engine
  import opened EngineFills
  import opened Recovery

  /** Every write, read, answer and failure of one session, each with what the outside world chose. */
  datatype Event =
    | BrokerActs(b: map<Cid, BrokerOrder>)
    | Place(c: Cid, lot: LotId, side: Side, qty: real, price: real, isAdd: bool, at: nat)
    | Acknowledge(c: Cid)
    | TimeOut(c: Cid)
    | Refuse(c: Cid)
    | ConfirmCancel(c: Cid)
    | Adopt(c: Cid)
    | Relock(c: Cid)
    | Expire(c: Cid)
    | Release(k: LockKey)
    | Read(c: Cid, ex: Execution)
    | LowerBarriers(complete: bool)
    | Evaluate(l: LotId, evaluated: Lot)
    | SyncRuntime(l: LotId)
    | SpawnLot(l: LotId, overseas: bool)
    | RaiseBarrier(k: LockKey)
    | CrashAndHydrate(m: Memory)
    | CrashInRead(c: Cid, ex: Execution, m: Memory)
  {
    predicate IsCrash() {
      CrashAndHydrate? || CrashInRead?
    }
  }

  /** Lock and metadata set again for an order that is open. */
  function Relocked(w: World, c: Cid): World
    requires c in w.acct.orders
  {
    w.(mem := w.mem.(pending := w.mem.pending[KeyOf(w.acct.orders[c]) := c],
                     coMap := w.mem.coMap[c := MetaOf(w.acct, c)]))
  }

  lemma RelockedKeepsInv(w: World, c: Cid)
    requires Inv(w) && c in w.acct.orders && w.acct.orders[c].state.IsOpen()
    ensures Inv(Relocked(w, c)) && Relocked(w, c).mem.pending == w.mem.pending
  {
    InvIsDurable(w);
    InvIsMemOk(w);
    RelockedChangesNothing(w, c);
    hide Inv, Durable, MemOk;
    RelockedKeepsMem(w, c);
    InvIsBoth(Relocked(w, c));
  }

  /** An open order is locked already. */
  lemma RelockedChangesNothing(w: World, c: Cid)
    requires MemOk(w.acct, w.mem) && c in w.acct.orders && w.acct.orders[c].state.IsOpen()
    ensures w.acct.orders[c].lot in w.mem.lots
    ensures Relocked(w, c).mem.pending == w.mem.pending
  {
    hide Durable, MetasOk, BarriersOk, SyncedOk, LotsOk;
    OpenOrderIsLocked(w, c);
    hide LocksOk;
  }

  lemma RelockedKeepsMem(w: World, c: Cid)
    requires MemOk(w.acct, w.mem) && c in w.acct.orders && w.acct.orders[c].lot in w.mem.lots
    requires Relocked(w, c).mem.pending == w.mem.pending
    ensures MemOk(w.acct, Relocked(w, c).mem)
  {
    var m := Relocked(w, c).mem;
    forall d | d in w.acct.orders
      ensures LockFits(m, w.acct.orders[d], d) && BarrierFits(w.acct, m, d)
    {
      assert LockFits(w.mem, w.acct.orders[d], d) && BarrierFits(w.acct, w.mem, d);
    }
    forall k | k in m.pending
      ensures LockNames(w.acct, m, k)
    {
      assert LockNames(w.acct, w.mem, k);
    }
    forall d | d in m.coMap
      ensures MetaOk(w.acct, m, d)
    {
      assert d != c ==> MetaOk(w.acct, w.mem, d);
    }
  }

  /** The order's lot is known, in the table and, if memory has its metadata, in memory. */
  predicate Readable(w: World, c: Cid)
    requires c in w.acct.orders
  {
    w.acct.orders[c].lot in w.acct.positions && (c in w.mem.coMap ==> w.mem.coMap[c].lot in w.mem.lots)
  }

  /** The tables between the two commits of a read: the fill is booked, the runtime columns are not written. */
  function Committed(a: Account, c: Cid, ex: Execution): Account
    requires c in a.orders && a.orders[c].lot in a.positions && Missing(a.orders[c].totals, ex).Some?
  {
    FillRecorded(a, c, Missing(a.orders[c].totals, ex).value)
  }

  lemma CommittedKeepsDurable(a: Account, c: Cid, ex: Execution)
    requires Durable(a) && Honest(a, c, ex) && a.orders[c].lot in a.positions && Missing(a.orders[c].totals, ex).Some?
    ensures Durable(Committed(a, c, ex))
  {
    MissingIsOwed(a, c, ex);
    FillKeepsDurable(a, c, Missing(a.orders[c].totals, ex).value);
  }

  /** When a step may happen: the engine's own checks, and honesty of the broker's answers. */
  ghost predicate Enabled(w: World, e: Event) {
    match e
    case BrokerActs(b) => BrokerMoves(w.acct, b)
    case Place(c, lot, side, qty, price, isAdd, at) => MayPlace(w.acct, c, lot, side, qty) && lot in w.mem.lots
    case Acknowledge(c) =>
      c in w.acct.orders && c in w.acct.broker && w.acct.orders[c].state.PendingNew?
    case TimeOut(c) => c in w.acct.orders && w.acct.orders[c].state.PendingNew?
    case Refuse(c) => c in w.acct.orders && c !in w.acct.broker && w.acct.orders[c].state.PendingNew?
    case ConfirmCancel(c) =>
      && c in w.acct.orders && (w.acct.orders[c].state.New? || w.acct.orders[c].state.PartiallyFilled?)
      && c in w.acct.broker && !w.acct.broker[c].working
    case Adopt(c) => c in w.acct.orders && c in w.acct.broker && w.acct.orders[c].state.Unknown?
    case Relock(c) => c in w.acct.orders && w.acct.orders[c].state.IsOpen()
    case Expire(c) => c in w.acct.orders && c !in w.acct.broker && w.acct.orders[c].state.Unknown?
    case Release(k) => k in w.mem.pending
    case Read(c, ex) => Honest(w.acct, c, ex) && Readable(w, c)
    case LowerBarriers(complete) => ReadThrough(w.acct, complete) && w.mem.lots.Keys <= w.acct.positions.Keys
    case Evaluate(l, lot) => l in w.mem.lots && SameBooks(w.mem.lots[l], lot)
    case SyncRuntime(l) => l in w.mem.lots
    case SpawnLot(l, overseas) => l !in w.acct.positions
    case RaiseBarrier(k) => true
    case CrashAndHydrate(m) => IsHydrated(Orphaned(w.acct), m)
    case CrashInRead(c, ex, m) =>
      && Honest(w.acct, c, ex) && Readable(w, c) && Missing(w.acct.orders[c].totals, ex).Some?
      && IsHydrated(Orphaned(Committed(w.acct, c, ex)), m)
  }

  /** Order number the broker gave the order. */
  function BrokerNo(a: Account, c: Cid): Option<OrderNo> {
    if c in a.broker then Some(a.broker[c].no) else None
  }

  ghost function Next(w: World, e: Event): World
    requires Enabled(w, e)
  {
    match e
    case BrokerActs(b) => w.(acct := w.acct.(broker := b))
    case Place(c, lot, side, qty, price, isAdd, at) => Placed(w, c, lot, side, qty, price, isAdd, at)
    case Acknowledge(c) => Settled(w, c, New, BrokerNo(w.acct, c))
    case TimeOut(c) => Settled(w, c, Unknown, w.acct.orders[c].no)
    case Refuse(c) => Settled(w, c, Rejected, w.acct.orders[c].no)
    case ConfirmCancel(c) => Settled(w, c, CancelledOrder, w.acct.orders[c].no)
    case Adopt(c) => Settled(w, c, New, BrokerNo(w.acct, c))
    case Relock(c) => Relocked(w, c)
    case Expire(c) => ExpiredRow(w, c)
    case Release(k) => Released(w, k)
    case Read(c, ex) => Delivered(w, c, ex)
    case LowerBarriers(complete) => Lowered(w, complete)
    case Evaluate(l, lot) => Evaluated(w, l, lot)
    case SyncRuntime(l) => Synced(w, l)
    case SpawnLot(l, overseas) => SpawnedLot(w, l, overseas)
    case RaiseBarrier(k) => Marked(w, k)
    case CrashAndHydrate(m) => World(Orphaned(w.acct), m)
    case CrashInRead(c, ex, m) => World(Orphaned(Committed(w.acct, c, ex)), m)
  }

  /** Every step keeps the invariant, whatever came before it. */
  lemma StepKeepsInv(w: World, e: Event)
    requires Inv(w) && Enabled(w, e)
    ensures Inv(Next(w, e))
  {
    match e
    case BrokerActs(b) => BrokerKeepsInv(w, b);
    case Place(c, lot, side, qty, price, isAdd, at) => PlacedKeepsInv(w, c, lot, side, qty, price, isAdd, at);
    case Acknowledge(c) => SettledKeepsInv(w, c, New, BrokerNo(w.acct, c));
    case TimeOut(c) => SettledKeepsInv(w, c, Unknown, w.acct.orders[c].no);
    case Refuse(c) => SettledKeepsInv(w, c, Rejected, w.acct.orders[c].no);
    case ConfirmCancel(c) => SettledKeepsInv(w, c, CancelledOrder, w.acct.orders[c].no);
    case Adopt(c) => SettledKeepsInv(w, c, New, BrokerNo(w.acct, c));
    case Relock(c) => RelockedKeepsInv(w, c);
    case Expire(c) => ExpiredRowKeepsInv(w, c);
    case Release(k) => ReleasedKeepsMem(w, k);
    case Read(c, ex) => DeliveredKeepsInv(w, c, ex);
    case LowerBarriers(complete) => LoweredKeepsInv(w, complete);
    case Evaluate(l, lot) => EvaluatedKeepsInv(w, l, lot);
    case SyncRuntime(l) => SyncedKeepsInv(w, l);
    case SpawnLot(l, overseas) => SpawnedLotKeepsInv(w, l, overseas);
    case RaiseBarrier(k) => MarkedKeepsInv(w, k);
    case CrashAndHydrate(m) => OrphanedKeepsDurable(w.acct); HydratedKeepsInv(Orphaned(w.acct), m);
    case CrashInRead(c, ex, m) =>
      CommittedKeepsDurable(w.acct, c, ex);
      OrphanedKeepsDurable(Committed(w.acct, c, ex));
      HydratedKeepsInv(Orphaned(Committed(w.acct, c, ex)), m);
  }

  /** A run: a session starts from a freshly hydrated engine and takes enabled steps. */
  ghost predicate IsRun(ws: seq<World>, es: seq<Event>) {
    IsPath(ws, es) && Durable(ws[0].acct) && IsHydrated(ws[0].acct, ws[0].mem)
  }

  ghost predicate Takes(w: World, e: Event, w': World) {
    Enabled(w, e) && w' == Next(w, e)
  }

  /** Some sequence of enabled steps leads from one state to the other. */
  ghost predicate Reaches(w: World, w': World) {
    exists ws: seq<World>, es: seq<Event> :: IsPath(ws, es) && ws[0] == w && ws[|es|] == w'
  }

  ghost predicate IsPath(ws: seq<World>, es: seq<Event>) {
    |ws| == |es| + 1 && forall i :: 0 <= i < |es| ==> Takes(ws[i], es[i], ws[i + 1])
  }

  lemma ReachesItself(w: World)
    ensures Reaches(w, w)
  {
    var ws: seq<World>, es: seq<Event> := [w], [];
    assert IsPath(ws, es);
  }

  lemma ReachesNext(w: World, e: Event)
    requires Enabled(w, e)
    ensures Reaches(w, Next(w, e))
  {
    hide Enabled, Next;
    var (ws, es) := ([w, Next(w, e)], [e]);
    assert IsPath(ws, es);
  }

  lemma PathsJoin(x: World, y: World, z: World)
    requires Reaches(x, y) && Reaches(y, z)
    ensures Reaches(x, z)
  {
    hide Takes;
    var ws: seq<World>, es: seq<Event> :| IsPath(ws, es) && ws[0] == x && ws[|es|] == y;
    var vs: seq<World>, fs: seq<Event> :| IsPath(vs, fs) && vs[0] == y && vs[|fs|] == z;
    var us := ws + vs[1..];
    forall i | 0 <= i < |es + fs|
      ensures Takes(us[i], (es + fs)[i], us[i + 1])
    {
      if i < |es| {
        assert us[i] == ws[i] && us[i + 1] == ws[i + 1] && Takes(ws[i], es[i], ws[i + 1]);
      } else {
        var j := i - |es|;
        assert us[i] == vs[j] && us[i + 1] == vs[j + 1] && Takes(vs[j], fs[j], vs[j + 1]);
      }
    }
    assert IsPath(us, es + fs);
  }

  /** Steps compose, and no step is a path too. */
  lemma ReachesComposes()
    ensures forall w :: Reaches(w, w)
    ensures forall x, y, z :: Reaches(x, y) && Reaches(y, z) ==> Reaches(x, z)
  {
    hide Reaches;
    forall w
      ensures Reaches(w, w)
    {
      ReachesItself(w);
    }
    forall x, y, z | Reaches(x, y) && Reaches(y, z)
      ensures Reaches(x, z)
    {
      PathsJoin(x, y, z);
    }
  }

  lemma {:induction false} EveryStateIsSound(ws: seq<World>, es: seq<Event>, n: nat)
    requires IsRun(ws, es) && n < |ws|
    ensures Inv(ws[n])
    decreases n
  {
    if n == 0 {
      HydratedKeepsInv(ws[0].acct, ws[0].mem);
    } else {
      EveryStateIsSound(ws, es, n - 1);
      assert Takes(ws[n - 1], es[n - 1], ws[n - 1 + 1]);
      StepKeepsInv(ws[n - 1], es[n - 1]);
    }
  }

  // ------------------------------------------------------------------
  // The three safety statements
  // ------------------------------------------------------------------

  /** is_flat: no shares in any lot, no locks, no buy cancel to confirm, no start barrier. */
  predicate IsFlat(m: Memory) {
    && (forall l :: l in m.lots ==> !(m.lots[l].qty > 0.0))
    && m.pending == map[]
    && m.unconfirmedBuyCancels == {}
    && !m.startupRefreshPending
  }

  /** The broker holds nothing and has nothing it could still execute. */
  ghost predicate BrokerIsFlat(a: Account) {
    && (forall l :: l in a.positions ==> BrokerHolding(a, l) == 0.0)
    && (forall c :: c in a.orders ==> !Live(a, c))
  }

  lemma FlatMemoryHasReadAll(w: World, c: Cid)
    requires Inv(w) && IsFlat(w.mem) && c in w.acct.orders
    ensures Unread(w.acct, c) == 0.0 && !Live(w.acct, c)
    ensures w.acct.orders[c].lot in w.acct.positions && w.acct.positions[w.acct.orders[c].lot].qtyFilled == 0.0
  {
    assert OrderOk(w.acct, c) && LockFits(w.mem, w.acct.orders[c], c) && BarrierFits(w.acct, w.mem, c);
    FlatMemoryMeansEmptyRow(w, w.acct.orders[c].lot);
    assert Covered(w.acct, c);
  }

  lemma FlatMemoryMeansEmptyRow(w: World, l: LotId)
    requires Inv(w) && IsFlat(w.mem) && l in w.acct.positions
    ensures w.acct.positions[l].qtyFilled == 0.0
  {
    assert RowOk(w.acct.positions[l]);
    if l in w.mem.lots {
      assert Agrees(w.mem.lots[l], w.acct.positions[l]);
    }
  }

  /** Truthful flat: when the engine believes it is flat, the broker is. */
  lemma TruthfulFlat(w: World)
    requires Inv(w) && IsFlat(w.mem)
    ensures BrokerIsFlat(w.acct)
  {
    forall l | l in w.acct.positions
      ensures BrokerHolding(w.acct, l) == 0.0
    {
      forall c | c in w.acct.orders && w.acct.orders[c].lot == l
        ensures Unread(w.acct, c) == 0.0
      {
        FlatMemoryHasReadAll(w, c);
      }
      ReadMeansEqual(w.acct, l);
      FlatMemoryMeansEmptyRow(w, l);
    }
    forall c | c in w.acct.orders
      ensures !Live(w.acct, c)
    {
      FlatMemoryHasReadAll(w, c);
    }
  }

  /** An order that can still execute is the one its lock names. */
  lemma LiveOrderIsLocked(w: World, c: Cid)
    requires Inv(w) && c in w.acct.orders && Live(w.acct, c)
    ensures KeyOf(w.acct.orders[c]) in w.mem.pending && w.mem.pending[KeyOf(w.acct.orders[c])] == c
  {
    SingleLiveOrder(w.acct, c, c);
    OpenOrderIsLocked(w, c);
  }

  /** Everything a state owes its owner. */
  ghost predicate Safe(w: World) {
    && (IsFlat(w.mem) ==> BrokerIsFlat(w.acct))
    && (forall c :: c in w.acct.orders ==> SafeOrder(w, c))
    && (forall c, d :: c in w.acct.orders && d in w.acct.orders && BothLive(w.acct, c, d) ==> c == d)
    && (forall l :: l in w.acct.positions ==> BrokerHolding(w.acct, l) >= 0.0)
  }

  /** A live order is named by its lock; a live sell's rest is covered by what the broker holds for its lot. */
  ghost predicate SafeOrder(w: World, c: Cid)
    requires c in w.acct.orders
  {
    var o := w.acct.orders[c];
    Live(w.acct, c) ==>
      && KeyOf(o) in w.mem.pending && w.mem.pending[KeyOf(o)] == c
      && (o.side.Sell? ==> o.qty - Exec(w.acct, c) <= BrokerHolding(w.acct, o.lot))
  }

  predicate BothLive(a: Account, c: Cid, d: Cid)
    requires c in a.orders && d in a.orders
  {
    SameSlot(a, c, d) && Live(a, c) && Live(a, d)
  }

  lemma InvIsSafe(w: World)
    requires Inv(w)
    ensures Safe(w)
  {
    if IsFlat(w.mem) {
      TruthfulFlat(w);
    }
    forall c | c in w.acct.orders
      ensures SafeOrder(w, c)
    {
      if Live(w.acct, c) {
        LiveOrderIsLocked(w, c);
        if w.acct.orders[c].side.Sell? {
          NoOversell(w.acct, c);
        }
      }
    }
    forall c, d | c in w.acct.orders && d in w.acct.orders && BothLive(w.acct, c, d)
      ensures c == d
    {
      SingleLiveOrder(w.acct, c, d);
    }
    forall l | l in w.acct.positions
      ensures BrokerHolding(w.acct, l) >= 0.0
    {
      NeverShort(w.acct, l);
    }
  }

  /** In every state of every run: flat is truthful, no sell exceeds the holding, at most one live order per key. */
  lemma EveryRunIsSafe(ws: seq<World>, es: seq<Event>, n: nat)
    requires IsRun(ws, es) && n < |ws|
    ensures Safe(ws[n])
  {
    EveryStateIsSound(ws, es, n);
    InvIsSafe(ws[n]);
  }

  /** Whatever a freshly hydrated process reaches is safe. */
  lemma ReachedIsSafe(a: Account, m: Memory, w: World)
    requires Durable(a) && IsHydrated(a, m) && Reaches(World(a, m), w)
    ensures Inv(w) && Safe(w)
  {
    hide Durable, IsHydrated, Inv, Safe, Takes;
    var ws: seq<World>, es: seq<Event> :| IsPath(ws, es) && ws[0] == World(a, m) && ws[|es|] == w;
    assert IsRun(ws, es);
    EveryStateIsSound(ws, es, |es|);
    InvIsSafe(w);
  }
}
