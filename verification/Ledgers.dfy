/**
 The weighted-average book is kept three times: by the memory lot, by the positions table, and by the replay
 that rebuilds today's realized profit after a restart. This module shows that the three never disagree.
 */
module Ledgers {
  import opened Domain
  import opened Position
  import opened Sums

  type LotId = nat

  /** A row of the positions table. A stop of zero stands for "no stop". */
  datatype PositionRow = PositionRow(
    overseas: bool,
    state: PositionState,
    qtyFilled: real,
    avgEntryPrice: real,
    realizedPnl: real,
    initialStop: real,
    peakPrice: real,
    tpRungsTaken: nat,
    originalQty: real)

  function NewRow(overseas: bool): PositionRow {
    PositionRow(overseas, Watching, 0.0, 0.0, 0.0, 0.0, 0.0, 0, 0.0)
  }

  /** The order manager's projection of one fill; it knows only the edges into Holding and into Closed. */
  function ApplyToPosition(row: PositionRow, f: FillEvent): PositionRow {
    if f.side.Buy? then
      var newQty := row.qtyFilled + f.qty;
      row.(qtyFilled := newQty,
           avgEntryPrice := if newQty > 0.0 then Blend(row.avgEntryPrice, row.qtyFilled, f.price, f.qty)
                            else row.avgEntryPrice,
           state := if row.state.Watching? || row.state.Closed? then Holding else row.state)
    else
      var left := Max(0.0, row.qtyFilled - f.qty);
      row.(realizedPnl := row.realizedPnl + Gain(row.avgEntryPrice, row.qtyFilled, f.qty, f.price, f.fee, f.tax),
           qtyFilled := left,
           state := if left == 0.0 then Closed else row.state)
  }

  function Projected(row: PositionRow, fills: seq<FillEvent>): PositionRow {
    if fills == [] then row else ApplyToPosition(Projected(row, fills[..|fills| - 1]), fills[|fills| - 1])
  }

  /** Same numbers in memory and in the table. */
  predicate SameNumbers(lot: Lot, row: PositionRow) {
    lot.qty == row.qtyFilled && lot.avgEntry == row.avgEntryPrice && lot.realizedPnl == row.realizedPnl
  }

  /** Same numbers and same status; the table does not tell Scaling and Exiting from Holding. */
  predicate Agrees(lot: Lot, row: PositionRow) {
    && SameNumbers(lot, row)
    && row.state in {Watching, Holding, Closed}
    && (lot.state.Watching? <==> row.state.Watching?)
    && (lot.state.Closed? <==> row.state.Closed?)
    && Coherent(lot)
  }

  /** One fill keeps memory and table together, unless it sells with nothing held. */
  lemma FillKeepsAgreement(lot: Lot, row: PositionRow, f: FillEvent)
    requires Agrees(lot, row) && f.qty > 0.0 && (f.side.Sell? ==> lot.qty > 0.0)
    ensures !FillRaises(lot, f)
    ensures Agrees(AfterFill(lot, f), ApplyToPosition(row, f))
  {
    FillKeepsCoherence(lot, f);
    assert AfterFill(lot, f).realizedPnl == ApplyToPosition(row, f).realizedPnl;
  }

  /** Memory and table agree on quantity, cost, profit and status after every such run, reopenings included. */
  lemma {:induction false} MemoryAndTableAgree(lot: Lot, row: PositionRow, fills: seq<FillEvent>)
    requires Agrees(lot, row) && SellsWhileHeld(lot, fills)
    ensures Agrees(AfterFills(lot, fills), Projected(row, fills))
    decreases |fills|
  {
    if fills != [] {
      var last := |fills| - 1;
      var init := fills[..last];
      PrefixSellsWhileHeld(lot, fills, last);
      MemoryAndTableAgree(lot, row, init);
      FillKeepsAgreement(AfterFills(lot, init), Projected(row, init), fills[last]);
    }
  }

  /** A fill row of the account with the trading day it was stamped with. */
  datatype DatedFill = DatedFill(lot: LotId, fill: FillEvent, day: int)

  /** The fills of one lot, in order. */
  function FillsOf(rows: seq<DatedFill>, lot: LotId): seq<FillEvent> {
    if rows == [] then [] else
    var last := |rows| - 1;
    FillsOf(rows[..last], lot) + if rows[last].lot == lot then [rows[last].fill] else []
  }

  function MemoryLot(rows: seq<DatedFill>, lot: LotId): Lot {
    AfterFills(NewLot, FillsOf(rows, lot))
  }

  /** What the running engine adds to its daily profit for the last row. */
  function LastContribution(rows: seq<DatedFill>, today: int): real
    requires rows != []
  {
    var r := rows[|rows| - 1];
    if r.day == today
    then MemoryLot(rows, r.lot).realizedPnl - MemoryLot(rows[..|rows| - 1], r.lot).realizedPnl
    else 0.0
  }

  /** The engine's daily profit after these rows, had it never restarted. */
  function DailyRealized(rows: seq<DatedFill>, today: int): real {
    if rows == [] then 0.0 else DailyRealized(rows[..|rows| - 1], today) + LastContribution(rows, today)
  }

  function SoldOn(rows: seq<DatedFill>, today: int): (s: set<LotId>) {
    set i | 0 <= i < |rows| && rows[i].fill.side.Sell? && rows[i].day == today :: rows[i].lot
  }

  /** A lot that sold nothing today contributed nothing today, so the replay may skip it. */
  lemma BuyContributesNothing(rows: seq<DatedFill>, today: int)
    requires rows != [] && rows[|rows| - 1].fill.side.Buy?
    ensures LastContribution(rows, today) == 0.0
  {
    var last := |rows| - 1;
    var fills := FillsOf(rows, rows[last].lot);
    assert fills == FillsOf(rows[..last], rows[last].lot) + [rows[last].fill];
    assert fills[..|fills| - 1] == FillsOf(rows[..last], rows[last].lot);
  }

  lemma MemoryStep(rows: seq<DatedFill>)
    requires rows != []
    ensures var last := rows[|rows| - 1];
            MemoryLot(rows, last.lot) == AfterFill(MemoryLot(rows[..|rows| - 1], last.lot), last.fill)
    ensures forall l {:trigger MemoryLot(rows, l)} ::
              l != rows[|rows| - 1].lot ==> MemoryLot(rows, l) == MemoryLot(rows[..|rows| - 1], l)
  {
    var last := |rows| - 1;
    var fills := FillsOf(rows, rows[last].lot);
    assert fills[..|fills| - 1] == FillsOf(rows[..last], rows[last].lot);
    forall l | l != rows[last].lot
      ensures MemoryLot(rows, l) == MemoryLot(rows[..last], l)
    {
      assert FillsOf(rows, l) == FillsOf(rows[..last], l);
    }
  }

  type Book = map<LotId, (real, real)>

  function Entry(book: Book, lot: LotId): (real, real) {
    if lot in book then book[lot] else (0.0, 0.0)
  }

  /** The book holds the memory lots' quantity and cost for every lot it watches. */
  ghost predicate Mirrors(book: Book, rows: seq<DatedFill>, lots: set<LotId>) {
    forall l :: l in lots ==> Entry(book, l) == (MemoryLot(rows, l).qty, MemoryLot(rows, l).avgEntry)
  }

  /** The book's arithmetic for one fill. */
  function Booked(entry: (real, real), f: FillEvent): (real, real) {
    var (qty, avg) := entry;
    if f.side.Buy? then (qty + f.qty, Blend(avg, qty, f.price, f.qty)) else (Max(0.0, qty - f.qty), avg)
  }

  lemma BookedMirrors(lot: Lot, f: FillEvent)
    ensures Booked((lot.qty, lot.avgEntry), f) == (AfterFill(lot, f).qty, AfterFill(lot, f).avgEntry)
    ensures f.side.Sell? ==>
      AfterFill(lot, f).realizedPnl - lot.realizedPnl == Gain(lot.avgEntry, lot.qty, f.qty, f.price, f.fee, f.tax)
  {
  }

  /** One replayed row: the book stays a mirror, and the profit it books is what the engine had booked. */
  lemma ReplayStep(book: Book, rows: seq<DatedFill>, lots: set<LotId>, today: int)
    requires rows != [] && Mirrors(book, rows[..|rows| - 1], lots)
    requires var r := rows[|rows| - 1]; r.fill.side.Sell? && r.day == today ==> r.lot in lots
    ensures var r := rows[|rows| - 1];
      && (r.lot in lots ==> Mirrors(book[r.lot := Booked(Entry(book, r.lot), r.fill)], rows, lots))
      && (r.lot !in lots ==> Mirrors(book, rows, lots))
      && LastContribution(rows, today)
         == if r.fill.side.Sell? && r.day == today then Gain(Entry(book, r.lot).1, Entry(book, r.lot).0,
                   r.fill.qty, r.fill.price, r.fill.fee, r.fill.tax) else 0.0
  {
    var r := rows[|rows| - 1];
    MemoryStep(rows);
    BookedMirrors(MemoryLot(rows[..|rows| - 1], r.lot), r.fill);
    if r.fill.side.Buy? {
      BuyContributesNothing(rows, today);
    }
  }

  /** The restart replay: it walks all fill rows once, keeping only (quantity, average) per lot sold today. */
  method RestoreRiskState(rows: seq<DatedFill>, today: int) returns (realized: real, book: Book)
    ensures realized == DailyRealized(rows, today)
    ensures Mirrors(book, rows, SoldOn(rows, today))
  {
    var soldToday := SoldOn(rows, today);
    realized := 0.0;
    book := map[];
    assert rows[..0] == [];
    for i := 0 to |rows|
      invariant realized == DailyRealized(rows[..i], today)
      invariant Mirrors(book, rows[..i], soldToday)
    {
      var r := rows[i];
      ghost var seen := rows[..i + 1];
      assert seen[..i] == rows[..i] && seen[i] == r;
      ReplayStep(book, seen, soldToday, today);
      assert DailyRealized(seen, today) == DailyRealized(rows[..i], today) + LastContribution(seen, today);
      if r.lot in soldToday {
        var entry := Entry(book, r.lot);
        if r.fill.side.Sell? && r.day == today {
          realized := realized + Gain(entry.1, entry.0, r.fill.qty, r.fill.price, r.fill.fee, r.fill.tax);
        }
        book := book[r.lot := Booked(entry, r.fill)];
      }
    }
    assert rows[..|rows|] == rows;
  }

  /** The dated fills of one lot, in order. */
  function DatedFillsOf(rows: seq<DatedFill>, lot: LotId): seq<DatedFill> {
    if rows == [] then [] else
    var last := |rows| - 1;
    DatedFillsOf(rows[..last], lot) + if rows[last].lot == lot then [rows[last]] else []
  }

  lemma {:induction false} FilterTwice(rows: seq<DatedFill>, lot: LotId)
    ensures FillsOf(DatedFillsOf(rows, lot), lot) == FillsOf(rows, lot)
    decreases |rows|
  {
    if rows != [] {
      var last := |rows| - 1;
      FilterTwice(rows[..last], lot);
      var rest := DatedFillsOf(rows[..last], lot);
      if rows[last].lot == lot {
        assert (rest + [rows[last]])[..|rest|] == rest;
      } else {
        assert DatedFillsOf(rows, lot) == rest;
        assert FillsOf(rows, lot) == FillsOf(rows[..last], lot);
      }
    }
  }

  /** The daily profit is a sum of one figure per lot. */
  lemma {:induction false} DailyIsSumOverLots(rows: seq<DatedFill>, today: int, lots: set<LotId>)
    requires forall i :: 0 <= i < |rows| ==> rows[i].lot in lots
    ensures DailyRealized(rows, today) == Sum(lots, (l: LotId) => DailyRealized(DatedFillsOf(rows, l), today))
    decreases |rows|
  {
    var f := (l: LotId) => DailyRealized(DatedFillsOf(rows, l), today);
    if rows == [] {
      AllZero(lots, f);
    } else {
      var last := |rows| - 1;
      var r := rows[last];
      var g := (l: LotId) => DailyRealized(DatedFillsOf(rows[..last], l), today);
      DailyIsSumOverLots(rows[..last], today, lots);
      forall l | l in lots && l != r.lot
        ensures f(l) == g(l)
      {
        assert DatedFillsOf(rows, l) == DatedFillsOf(rows[..last], l);
      }
      Change(lots, g, f, r.lot);
      var mine := DatedFillsOf(rows, r.lot);
      assert mine[..|mine| - 1] == DatedFillsOf(rows[..last], r.lot);
      FilterTwice(rows, r.lot);
      FilterTwice(rows[..last], r.lot);
    }
  }

  /** The replay may read the lots one after the other: any two orders that keep each lot's own order agree. */
  lemma ReplayOrderIsIrrelevant(a: seq<DatedFill>, b: seq<DatedFill>, today: int)
    requires forall l :: DatedFillsOf(a, l) == DatedFillsOf(b, l)
    ensures DailyRealized(a, today) == DailyRealized(b, today)
  {
    var lots := (set i | 0 <= i < |a| :: a[i].lot) + (set i | 0 <= i < |b| :: b[i].lot);
    DailyIsSumOverLots(a, today, lots);
    DailyIsSumOverLots(b, today, lots);
    Congruent(lots, (l: LotId) => DailyRealized(DatedFillsOf(a, l), today),
                    (l: LotId) => DailyRealized(DatedFillsOf(b, l), today));
  }
}
