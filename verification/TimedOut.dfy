/**
 A submit that times out leaves its bar before the runtime columns are written. What a crash then takes away: the stop
 chosen for an entry, or the rung a take-profit trim had moved to; and exactly when it takes nothing. At the end, with
 the same holder, a trim that asks for too much.
 */
module TimedOut {
  import opened Domain
  import opened Sums
  import opened Position
  import opened Ledgers
  import opened FillPoller
  import opened Account
  import opened AccountSteps
  import opened Engine
  import opened EngineFills
  import opened Recovery
  import opened CrashRuns

  /** The bar evaluated the lot, the order was placed, and its answer never came. */
  function LeftInDoubt(w: World, l: LotId, lot: Lot, c: Cid, side: Side, qty: real, price: real, isAdd: bool, at: nat): World {
    Settled(Placed(Evaluated(w, l, lot), c, l, side, qty, price, isAdd, at), c, Unknown, None)
  }

  /**
   A crash after the time-out restores the evaluated lot exactly when the evaluation changed neither the stop nor the
   rungs. The order comes back locked in any case.
   */
  lemma RestoredExactlyWhenNothingWasNew(
    w: World, l: LotId, lot: Lot, c: Cid, side: Side, qty: real, price: real, isAdd: bool, at: nat, m: Memory)
    requires Inv(w) && Clean(w, l) && !w.mem.lots[l].state.Closed? && SameBooks(w.mem.lots[l], lot)
    requires MayPlace(w.acct, c, l, side, qty)
    requires IsHydrated(Orphaned(LeftInDoubt(w, l, lot, c, side, qty, price, isAdd, at).acct), m)
    ensures l in m.lots
    ensures Twin(lot, m.lots[l])
       <==> StopInForce(lot) == StopInForce(w.mem.lots[l]) && lot.tpRungsTaken == w.mem.lots[l].tpRungsTaken
    ensures (l, side) in m.pending && m.pending[(l, side)] == c
  {
    hide Durable, BarriersOk, MetasOk, SyncedOk, LocksOk;
    var w3 := LeftInDoubt(w, l, lot, c, side, qty, price, isAdd, at);
    InDoubtIsLocked(w, l, lot, c, side, qty, price, isAdd, at, m);
    var row := w.acct.positions[l];
    assert w3.acct.positions == w.acct.positions;
    assert l in LoadedLots(Orphaned(w3.acct));
    assert Agrees(lot, row);
    RowRestoresExactlyWhen(lot, row);
  }

  lemma InDoubtIsLocked(
    w: World, l: LotId, lot: Lot, c: Cid, side: Side, qty: real, price: real, isAdd: bool, at: nat, m: Memory)
    requires IsHydrated(Orphaned(LeftInDoubt(w, l, lot, c, side, qty, price, isAdd, at).acct), m)
    ensures (l, side) in m.pending && m.pending[(l, side)] == c
  {
    var a := Orphaned(LeftInDoubt(w, l, lot, c, side, qty, price, isAdd, at).acct);
    assert a.orders[c].state.IsOpen() && KeyOf(a.orders[c]) == (l, side);
  }

  // ------------------------------------------------------------------
  // An entry without its stop
  // ------------------------------------------------------------------

  /** One lot watching, nothing traded yet. */
  const Watcher := World(
    Account(map[], map[], map[1 := NewRow(false)]),
    Memory(map[1 := NewLot], map[], map[], {}, {}, false, map[]))

  lemma WatcherIsSound()
    ensures Inv(Watcher) && Clean(Watcher, 1) && MayPlace(Watcher.acct, 7, 1, Buy, 10.0)
  {
    assert RecordedHolding(Watcher.acct, 1) == 0.0;
    assert LotsOk(Watcher.acct, Watcher.mem);
  }

  /** The entry order 7 and the lot's row as they are when the process dies. */
  const EntryInDoubt := LeftInDoubt(Watcher, 1, NewLot.(pendingStop := Some(90.0)), 7, Buy, 10.0, 100.0, false, 0)

  const RestartedWatcher := Memory(
    map[1 := NewLot], map[(1, Buy) := 7], map[7 := Meta(1, Buy, false, 10.0, 0.0, 100.0)], {}, {}, true, map[])

  /** The entry may still fill, but the stop of 90 chosen for it is gone. */
  lemma TimedOutEntryLosesItsStop()
    ensures Inv(Watcher) && Clean(Watcher, 1) && MayPlace(Watcher.acct, 7, 1, Buy, 10.0)
    ensures SameBooks(Watcher.mem.lots[1], EntryInDoubt.mem.lots[1])
    ensures IsHydrated(Orphaned(EntryInDoubt.acct), RestartedWatcher)
    ensures StopInForce(EntryInDoubt.mem.lots[1]) == Some(90.0)
    ensures StopInForce(RestartedWatcher.lots[1]) == None && RestartedWatcher.pending[(1, Buy)] == 7
  {
    WatcherIsSound();
    EntryTables();
    hide Inv, Durable, MayPlace, LeftInDoubt, Orphaned;
    EntryRestarts(Orphaned(EntryInDoubt.acct));
  }

  lemma EntryTables()
    ensures var a := Orphaned(EntryInDoubt.acct);
      && a.orders == map[7 := OrderRow(1, Buy, 10.0, 100.0, 0, None, Unknown, Nothing)] && a.positions == map[1 := NewRow(false)]
    ensures EntryInDoubt.mem.lots[1] == NewLot.(pendingStop := Some(90.0))
  {
  }

  lemma EntryRestarts(a: Account)
    requires a.orders == map[7 := OrderRow(1, Buy, 10.0, 100.0, 0, None, Unknown, Nothing)]
    requires a.positions == map[1 := NewRow(false)]
    ensures IsHydrated(a, RestartedWatcher)
  {
    assert !IsAddOn(a, 7);
    assert LoadedLots(a) == {1};
    assert LotFromRow(NewRow(false)) == NewLot;
    hide LotFromRow;
  }

  // ------------------------------------------------------------------
  // A take-profit that can fire twice
  // ------------------------------------------------------------------

  const HeldRow := PositionRow(false, Holding, 10.0, 100.0, 0.0, 90.0, 120.0, 0, 10.0)

  /** Ten shares held, bought by the filled order 3. */
  const Holder := World(
    Account(map[3 := BrokerOrder(5, false, 10.0, 10.0, false)],
            map[3 := OrderRow(1, Buy, 10.0, 100.0, 0, Some(5), Filled, Totals(10.0, 1000.0, 0.0, 0.0))],
            map[1 := HeldRow]),
    Memory(map[1 := LotFromRow(HeldRow)], map[], map[], {}, {}, false, map[]))

  lemma HolderHoldsTen()
    ensures RecordedHolding(Holder.acct, 1) == 10.0
  {
    var a := Holder.acct;
    assert a.orders.Keys == {3} + {} && {3} - {3} == {};
    Extract(a.orders.Keys, (c: Cid) => Recorded(a, 1, c), 3);
    assert a.orders.Keys - {3} == {};
  }

  lemma HolderIsSound()
    ensures Inv(Holder) && Clean(Holder, 1) && MayPlace(Holder.acct, 7, 1, Sell, 5.0)
  {
    var a := Holder.acct;
    HolderHoldsTen();
    hide RecordedHolding;
    assert OrderOk(a, 3);
    assert Durable(a) by {
      hide LotFromRow;
    }
    assert LotsOk(a, Holder.mem);
  }

  /** The evaluation that asked for the trim has moved to the next rung; the sell of half the shares times out. */
  const TrimInDoubt :=
    LeftInDoubt(Holder, 1, LotFromRow(HeldRow).(tpRungsTaken := 1), 7, Sell, 5.0, 110.0, false, 1)

  const RestartedHolder := Memory(
    map[1 := LotFromRow(HeldRow)], map[(1, Sell) := 7], map[7 := Meta(1, Sell, false, 5.0, 0.0, 110.0)], {}, {}, true, map[])

  /** The trim may have filled, but after the restart its rung can fire again. */
  lemma TimedOutTrimLosesItsRung()
    ensures Inv(Holder) && Clean(Holder, 1) && MayPlace(Holder.acct, 7, 1, Sell, 5.0)
    ensures SameBooks(Holder.mem.lots[1], TrimInDoubt.mem.lots[1])
    ensures IsHydrated(Orphaned(TrimInDoubt.acct), RestartedHolder)
    ensures TrimInDoubt.mem.lots[1].tpRungsTaken == 1 && RestartedHolder.lots[1].tpRungsTaken == 0
    ensures RestartedHolder.pending[(1, Sell)] == 7
  {
    HolderIsSound();
    InDoubtTables();
    hide Inv, Durable, MayPlace, LeftInDoubt;
    var a := Orphaned(TrimInDoubt.acct);
    assert LoadedLots(a) == {1};
    RestartedFits(a);
  }

  /** The tables the restart finds. */
  lemma InDoubtTables()
    ensures var a := Orphaned(TrimInDoubt.acct);
      && a.orders == map[3 := Holder.acct.orders[3], 7 := OrderRow(1, Sell, 5.0, 110.0, 1, None, Unknown, Nothing)]
      && a.positions == map[1 := HeldRow]
    ensures TrimInDoubt.mem.lots[1] == LotFromRow(HeldRow).(tpRungsTaken := 1)
  {
    hide LotFromRow;
  }

  lemma RestartedFits(a: Account)
    requires a.orders == map[3 := Holder.acct.orders[3], 7 := OrderRow(1, Sell, 5.0, 110.0, 1, None, Unknown, Nothing)]
    requires a.positions == map[1 := HeldRow] && LoadedLots(a) == {1}
    ensures IsHydrated(a, RestartedHolder)
  {
    hide LotFromRow;
    assert !IsAddOn(a, 7);
    assert MetaOf(a, 7) == RestartedHolder.coMap[7];
  }

  // ------------------------------------------------------------------
  // A trim that asks for too much
  // ------------------------------------------------------------------

  /** With ten shares held and everything read, a trim of twelve goes uncovered. */
  lemma OversizedTrimIsNotCovered()
    ensures Inv(Holder) && Holder.mem.lots[1].qty == 10.0
    ensures var w := Placed(Holder, 7, 1, Sell, 12.0, 110.0, false, 1);
            var a := w.acct.(broker := w.acct.broker[7 := BrokerOrder(9, false, 12.0, 0.0, true)]);
      && Live(a, 7) && a.orders[7].qty - Exec(a, 7) > BrokerHolding(a, 1)
  {
    HolderIsSound();
    hide Inv, BrokerHolding;
    forall d | d in Holder.acct.orders && Holder.acct.orders[d].lot == 1
      ensures Unread(Holder.acct, d) == 0.0
    {
    }
    NewSellIsCoveredExactlyWhenHeld(Holder, 7, 1, 12.0, 110.0, 1, BrokerOrder(9, false, 12.0, 0.0, true));
  }
}
