/**
 Crashes inside whole runs: in any state of any run, a restart rebuilds a lot unchanged exactly when its row has its stop
 and rungs, which is so for every lot whose last bar or fill was processed to its end.
 */
module CrashRuns {
  import opened Domain
  import opened Position
  import opened Ledgers
  import opened FillPoller
  import opened Account
  import opened AccountSteps
  import opened Engine
  import opened EngineFills
  import opened Recovery
  import opened Runs

  /** The stop a restart reads back from a row. */
  function StoredStop(row: PositionRow): Option<real> {
    if row.initialStop > 0.0 then Some(row.initialStop) else None
  }

  /** What a restart needs from a row is what memory has. */
  predicate SameRuntime(row: PositionRow, lot: Lot) {
    row.tpRungsTaken == lot.tpRungsTaken && StopInForce(lot) == StoredStop(row)
  }

  ghost predicate Clean(w: World, l: LotId) {
    l in w.mem.lots && l in w.acct.positions && SameRuntime(w.acct.positions[l], w.mem.lots[l])
  }

  /** A row restores the twin of a lot it agrees with exactly when it has the lot's stop and rungs. */
  lemma RowRestoresExactlyWhen(lot: Lot, row: PositionRow)
    requires Agrees(lot, row) && (lot.state.Watching? ==> lot.initialStop.None?)
    ensures Twin(lot, LotFromRow(row)) <==> SameRuntime(row, lot)
  {
  }

  lemma HydratedIsClean(a: Account, m: Memory, l: LotId)
    requires IsHydrated(a, m) && l in m.lots
    ensures Clean(World(a, m), l)
  {
  }

  /** After a sync the row holds the snapshot, whether it was written now or before. */
  lemma SyncedHolds(w: World, l: LotId)
    requires SyncedOk(w.acct, w.mem) && l in w.mem.lots && l in w.acct.positions
    ensures RowHolds(Synced(w, l).acct.positions[l], SnapshotOf(w.mem.lots[l]))
    ensures forall k :: k in w.acct.positions && k != l ==>
      k in Synced(w, l).acct.positions && Synced(w, l).acct.positions[k] == w.acct.positions[k]
    ensures Synced(w, l).mem.lots == w.mem.lots
  {
  }

  lemma HeldSnapshotIsClean(row: PositionRow, lot: Lot)
    requires RowHolds(row, SnapshotOf(lot)) && Storable(StopInForce(lot))
    ensures SameRuntime(row, lot)
  {
  }

  lemma FillKeepsStop(lot: Lot, e: FillEvent)
    requires lot.state.Watching? ==> lot.initialStop.None?
    ensures StopInForce(AfterFill(lot, e)) == StopInForce(lot)
  {
  }

  /** The lot of the fill is synced at the end, every other lot and row is left alone. */
  lemma ReflectedIsClean(w: World, c: Cid, f: FillRow, meta: Meta, lot: Lot, l: LotId)
    requires SyncedOk(w.acct, w.mem) && meta.lot in w.acct.positions
    requires l in w.mem.lots && (if l == meta.lot then Storable(StopInForce(lot)) else Clean(w, l))
    ensures Clean(ReflectedAs(w, c, f, meta, lot), l)
  {
    hide StopInForce;
    var w1 := Evaluated(w, meta.lot, lot);
    SyncedHolds(w1, meta.lot);
    if l == meta.lot {
      HeldSnapshotIsClean(Synced(w1, meta.lot).acct.positions[meta.lot], lot);
    }
  }

  /** Recording a fill leaves the runtime columns of every row alone. */
  lemma CommitLeavesRuntime(w: World, c: Cid, f: FillRow)
    requires SyncedOk(w.acct, w.mem) && c in w.acct.orders && w.acct.orders[c].lot in w.acct.positions
    ensures var a := FillRecorded(w.acct, c, f);
      && SyncedOk(a, w.mem) && a.positions.Keys == w.acct.positions.Keys
      && (forall l {:trigger Clean(w.(acct := a), l)} :: Clean(w, l) ==> Clean(w.(acct := a), l))
  {
  }

  /** The lot was in step already, or this step brings it there and its stop can be stored. */
  ghost predicate CleanOr(w: World, l: LotId, synced: bool) {
    l in w.mem.lots ==> Clean(w, l) || (synced && Storable(StopInForce(w.mem.lots[l])))
  }

  lemma OnFillKeepsClean(w: World, c: Cid, f: FillRow, l: LotId)
    requires MemOk(w.acct, w.mem) && c in w.acct.orders && Readable(w, c)
    requires l in OnFill(w, c, f).mem.lots && CleanOr(w, l, l == w.acct.orders[c].lot)
    ensures Clean(OnFill(w, c, f), l)
  {
    hide AfterFill, FillRecorded, ReflectedAs, Rebuilt, Recovered, StopInForce;
    var o := w.acct.orders[c];
    var w1 := w.(acct := FillRecorded(w.acct, c, f));
    CommitLeavesRuntime(w, c, f);
    RecordedOrderKeepsLot(w.acct, c, f);
    if c in w.mem.coMap {
      var meta := w.mem.coMap[c];
      assert MetaOk(w.acct, w.mem, c);
      ReflectedKeepsClean(w1, c, f, meta, l);
    } else if o.lot in w.mem.lots {
      var (w2, meta) := Recovered(w1, c, f);
      RecoveredLeavesRuntime(w1, c, f);
      assert Clean(w1, l) ==> Clean(w2, l);
      ReflectedKeepsClean(w2, c, f, meta, l);
    } else {
      RebuiltIsClean(w1, c, l);
    }
  }

  lemma ReflectedKeepsClean(w: World, c: Cid, f: FillRow, meta: Meta, l: LotId)
    requires SyncedOk(w.acct, w.mem) && meta.lot in w.acct.positions && meta.lot in w.mem.lots
    requires forall k :: k in w.mem.lots && w.mem.lots[k].state.Watching? ==> w.mem.lots[k].initialStop.None?
    requires l in Reflected(w, c, f, meta).mem.lots && CleanOr(w, l, l == meta.lot)
    ensures Clean(Reflected(w, c, f, meta), l)
  {
    var e := EventOf(meta.side, f, meta.isAdd);
    var lot := AfterFill(w.mem.lots[meta.lot], e);
    ReflectedKeepsLots(w, c, f, meta, lot);
    hide AfterFill, ReflectedAs;
    if l == meta.lot {
      FillKeepsStop(w.mem.lots[l], e);
    }
    ReflectedIsClean(w, c, f, meta, lot, l);
  }

  lemma ReflectedKeepsLots(w: World, c: Cid, f: FillRow, meta: Meta, lot: Lot)
    ensures ReflectedAs(w, c, f, meta, lot).mem.lots == w.mem.lots[meta.lot := lot]
  {
  }

  lemma RecoveredLeavesRuntime(w: World, c: Cid, f: FillRow)
    requires c in w.acct.orders
    ensures var (w2, meta) := Recovered(w, c, f);
      w2.acct == w.acct && w2.mem.lots == w.mem.lots && w2.mem.synced == w.mem.synced && meta.lot == w.acct.orders[c].lot
  {
  }

  lemma RebuiltIsClean(w: World, c: Cid, l: LotId)
    requires c in w.acct.orders && w.acct.orders[c].lot in w.acct.positions
    requires l in Rebuilt(w, c).mem.lots && (l in w.mem.lots ==> Clean(w, l))
    requires w.acct.orders[c].lot !in w.mem.lots
    ensures Clean(Rebuilt(w, c), l)
  {
  }

  lemma RecordedOrderKeepsLot(a: Account, c: Cid, f: FillRow)
    requires c in a.orders && a.orders[c].lot in a.positions
    ensures c in FillRecorded(a, c, f).orders && FillRecorded(a, c, f).orders[c].lot == a.orders[c].lot
    ensures FillRecorded(a, c, f).positions.Keys == a.positions.Keys
  {
  }

  /** Lots whose runtime columns the step writes: at the end of a bar, or of a fill. */
  function SyncedBy(w: World, e: Event): set<LotId> {
    match e
    case SyncRuntime(l) => {l}
    case Read(c, ex) =>
      if c in w.acct.orders && Missing(w.acct.orders[c].totals, ex).Some? then {w.acct.orders[c].lot} else {}
    case _ => {}
  }

  /** No step but the lot's own evaluation can part its row from its memory; its sync brings them together again. */
  lemma StepKeepsClean(w: World, e: Event, l: LotId)
    requires Inv(w) && Enabled(w, e) && l in Next(w, e).mem.lots
    requires CleanOr(w, l, l in SyncedBy(w, e)) && !(e.Evaluate? && e.l == l)
    ensures Clean(Next(w, e), l)
  {
    InvIsMemOk(w);
    hide Inv, Enabled, Next, Clean, CleanOr, SyncedBy;
    if e.Read? {
      ReadStepKeepsClean(w, e, l);
    } else if e.SyncRuntime? {
      SyncStepKeepsClean(w, e, l);
    } else if e.IsCrash() {
      CrashStepIsClean(w, e, l);
    } else {
      NothingSynced(w, e, l);
      OtherStepsLeaveRuntime(w, e, l);
    }
  }

  lemma ReadStepKeepsClean(w: World, e: Event, l: LotId)
    requires MemOk(w.acct, w.mem) && e.Read? && Enabled(w, e) && l in Next(w, e).mem.lots
    requires CleanOr(w, l, l in SyncedBy(w, e))
    ensures Clean(Next(w, e), l)
  {
    hide OnFill, Clean, MemOk, Missing, Storable;
    var f := Missing(w.acct.orders[e.c].totals, e.ex);
    if f.Some? {
      OnFillKeepsClean(w, e.c, f.value, l);
    }
  }

  lemma SyncStepKeepsClean(w: World, e: Event, l: LotId)
    requires MemOk(w.acct, w.mem) && e.SyncRuntime? && Enabled(w, e) && l in Next(w, e).mem.lots
    requires CleanOr(w, l, l in SyncedBy(w, e))
    ensures Clean(Next(w, e), l)
  {
    hide Clean, LocksOk, MetasOk, BarriersOk, Storable, SnapshotOf, RowAfterSync;
    SyncKeepsClean(w, e.l, l);
  }

  lemma NothingSynced(w: World, e: Event, l: LotId)
    requires !e.Read? && !e.SyncRuntime? && CleanOr(w, l, l in SyncedBy(w, e))
    ensures l in w.mem.lots ==> Clean(w, l)
  {
    hide Clean;
  }

  lemma SyncKeepsClean(w: World, k: LotId, l: LotId)
    requires LotsOk(w.acct, w.mem) && SyncedOk(w.acct, w.mem) && k in w.mem.lots && l in w.mem.lots
    requires CleanOr(w, l, k == l)
    ensures Clean(Synced(w, k), l)
  {
    SyncedHolds(w, k);
    if k == l {
      HeldSnapshotIsClean(Synced(w, l).acct.positions[l], w.mem.lots[l]);
    }
  }

  lemma OtherStepsLeaveRuntime(w: World, e: Event, l: LotId)
    requires LotsOk(w.acct, w.mem) && Enabled(w, e) && l in Next(w, e).mem.lots && (l in w.mem.lots ==> Clean(w, l))
    requires !e.Read? && !e.SyncRuntime? && !e.IsCrash() && !(e.Evaluate? && e.l == l)
    ensures Clean(Next(w, e), l)
  {
    hide SameRuntime, BrokerMoves, MayPlace, ReadThrough, MetaOf;
    match e
    case SpawnLot(k, overseas) => SpawnedIsClean(w, k, overseas, l);
    case Evaluate(_, _) =>
    case _ => NothingOfLots(w, e);
  }

  lemma SpawnedIsClean(w: World, k: LotId, overseas: bool, l: LotId)
    requires k !in w.acct.positions && (l in w.mem.lots ==> Clean(w, l)) && l in SpawnedLot(w, k, overseas).mem.lots
    ensures Clean(SpawnedLot(w, k, overseas), l)
  {
  }

  /** Steps that touch neither lots nor rows. */
  predicate LeavesLots(e: Event) {
    OrderStep(e) || LockStep(e)
  }

  predicate OrderStep(e: Event) {
    e.BrokerActs? || e.Place? || e.Acknowledge? || e.TimeOut? || e.Refuse? || e.ConfirmCancel? || e.Adopt? || e.Expire?
  }

  predicate LockStep(e: Event) {
    e.Relock? || e.Release? || e.LowerBarriers? || e.RaiseBarrier?
  }

  lemma NothingOfLots(w: World, e: Event)
    requires Enabled(w, e) && LeavesLots(e)
    ensures Next(w, e).mem.lots == w.mem.lots && Next(w, e).acct.positions == w.acct.positions
  {
    hide Enabled, Next;
    if OrderStep(e) {
      OrderStepLeavesLots(w, e);
    } else {
      LockStepLeavesLots(w, e);
    }
  }

  lemma OrderStepLeavesLots(w: World, e: Event)
    requires Enabled(w, e) && OrderStep(e)
    ensures Next(w, e).mem.lots == w.mem.lots && Next(w, e).acct.positions == w.acct.positions
  {
    hide BrokerMoves, MayPlace;
  }

  lemma LockStepLeavesLots(w: World, e: Event)
    requires Enabled(w, e) && LockStep(e)
    ensures Next(w, e).mem.lots == w.mem.lots && Next(w, e).acct.positions == w.acct.positions
  {
    hide ReadThrough, MetaOf;
  }

  /** Lots evaluated since their last sync: the ones in the middle of a bar, or left there by a failed submit. */
  ghost function Dirty(ws: seq<World>, es: seq<Event>, n: nat): set<LotId>
    requires n <= |es| < |ws|
  {
    if n == 0 then {} else
    var before := Dirty(ws, es, n - 1);
    match es[n - 1]
    case Evaluate(l, _) => before + {l}
    case SyncRuntime(_) => before - SyncedBy(ws[n - 1], es[n - 1])
    case Read(_, _) => before - SyncedBy(ws[n - 1], es[n - 1])
    case CrashAndHydrate(_) => {}
    case CrashInRead(_, _, _) => {}
    case _ => before
  }

  /** Every stop that is written is one the table can express. */
  ghost predicate StorableSyncs(ws: seq<World>, es: seq<Event>)
    requires |ws| == |es| + 1
  {
    forall i, l :: 0 <= i < |es| && l in SyncedBy(ws[i], es[i]) && l in ws[i].mem.lots ==> Storable(StopInForce(ws[i].mem.lots[l]))
  }

  lemma {:induction false} RunKeepsClean(ws: seq<World>, es: seq<Event>, n: nat, l: LotId)
    requires IsRun(ws, es) && StorableSyncs(ws, es) && n < |ws|
    requires l in ws[n].mem.lots && l !in Dirty(ws, es, n)
    ensures Clean(ws[n], l)
    decreases n
  {
    hide Inv, Enabled, Next, Clean, Storable, IsHydrated;
    if n == 0 {
      HydratedIsClean(ws[0].acct, ws[0].mem, l);
    } else {
      var w := ws[n - 1];
      var e := es[n - 1];
      EveryStateIsSound(ws, es, n - 1);
      assert Takes(w, e, ws[n - 1 + 1]);
      if l in w.mem.lots && l !in SyncedBy(w, e) && !e.IsCrash() {
        RunKeepsClean(ws, es, n - 1, l);
      }
      if e.IsCrash() {
        CrashStepIsClean(w, e, l);
      } else {
        StepKeepsClean(w, e, l);
      }
    }
  }

  lemma CrashStepIsClean(w: World, e: Event, l: LotId)
    requires e.IsCrash() && Enabled(w, e) && l in Next(w, e).mem.lots
    ensures Clean(Next(w, e), l)
  {
    HydratedIsClean(Next(w, e).acct, e.m, l);
  }

  /**
   In every state of every run: a lot is restored as its own twin exactly when its row has its stop and rungs, and so is
   every lot that is not in the middle of a bar.
   */
  lemma CrashIsInvisible(ws: seq<World>, es: seq<Event>, n: nat, m: Memory, l: LotId)
    requires IsRun(ws, es) && n < |ws| && IsHydrated(Orphaned(ws[n].acct), m)
    requires l in ws[n].mem.lots && !ws[n].mem.lots[l].state.Closed?
    ensures l in m.lots && (Twin(ws[n].mem.lots[l], m.lots[l]) <==> Clean(ws[n], l))
    ensures StorableSyncs(ws, es) && l !in Dirty(ws, es, n) ==> Twin(ws[n].mem.lots[l], m.lots[l])
  {
    EveryStateIsSound(ws, es, n);
    RestoredExactlyWhenClean(ws[n], m, l);
    if StorableSyncs(ws, es) && l !in Dirty(ws, es, n) {
      RunKeepsClean(ws, es, n, l);
    }
  }

  lemma RestoredExactlyWhenClean(w: World, m: Memory, l: LotId)
    requires LotsOk(w.acct, w.mem) && IsHydrated(Orphaned(w.acct), m)
    requires l in w.mem.lots && !w.mem.lots[l].state.Closed?
    ensures l in m.lots && (Twin(w.mem.lots[l], m.lots[l]) <==> Clean(w, l))
  {
    assert l in LoadedLots(Orphaned(w.acct));
    RowRestoresExactlyWhen(w.mem.lots[l], w.acct.positions[l]);
  }

  // ------------------------------------------------------------------
  // What the service leaves to its strategies
  // ------------------------------------------------------------------

  /**
   With everything read and nothing open on the lot, a new sell is covered by the broker's holding exactly when it
   asks for no more than the lot holds: the one check the service leaves to its strategies.
   */
  lemma NewSellIsCoveredExactlyWhenHeld(w: World, c: Cid, l: LotId, qty: real, price: real, at: nat, b: BrokerOrder)
    requires Inv(w) && l in w.mem.lots && c !in w.acct.orders && qty > 0.0
    requires forall d :: d in w.acct.orders && w.acct.orders[d].lot == l ==> Unread(w.acct, d) == 0.0
    requires b.qty == qty && b.exec == 0.0 && b.working
    ensures var w1 := Placed(w, c, l, Sell, qty, price, false, at);
            var a := w1.acct.(broker := w1.acct.broker[c := b]);
            && Live(a, c)
            && (a.orders[c].qty - Exec(a, c) <= BrokerHolding(a, l) <==> qty <= w.mem.lots[l].qty)
  {
    hide Durable, MemOk, PositionsOk;
    var w1 := Placed(w, c, l, Sell, qty, price, false, at);
    var a := w1.acct.(broker := w1.acct.broker[c := b]);
    forall d | d in a.orders && a.orders[d].lot == l
      ensures Unread(a, d) == 0.0
    {
      if d != c {
        assert Unread(w.acct, d) == 0.0;
      }
    }
    ReadMeansEqual(a, l);
    UnfilledRowAddsNothing(w.acct, c, l, Sell, qty, price, at, l);
    SameHolding(w1.acct, a, l);
    MemoryKnowsRecordedHolding(w, l);
  }

  lemma MemoryKnowsRecordedHolding(w: World, l: LotId)
    requires Inv(w) && l in w.mem.lots
    ensures w.mem.lots[l].qty == RecordedHolding(w.acct, l)
  {
    assert Agrees(w.mem.lots[l], w.acct.positions[l]);
    assert RowOk(w.acct.positions[l]);
  }
}
