/**
 Fill delivery by polling. The broker reports per order what has been executed so far; the poller turns each
 cumulative report into the fill that is still missing from the fills table. However often a report is repeated,
 delayed or overtaken, every share is booked exactly once.
 */
module FillPoller {
  import opened Domain

  type Cid = nat
  type OrderNo = nat

  /** One execution report: cumulative quantity, fee and tax of an order, and its average price so far. */
  datatype Execution = Execution(no: OrderNo, qty: real, price: real, fee: real, tax: real)

  /** The adapter builds a report's id from the order number and the cumulative quantity. */
  type ExecId = (OrderNo, real)

  function IdOf(ex: Execution): ExecId {
    (ex.no, ex.qty)
  }

  datatype FillRow = FillRow(qty: real, price: real, fee: real, tax: real)

  /** Column sums over the fill rows of one order. */
  datatype Totals = Totals(qty: real, notional: real, fee: real, tax: real)

  const Nothing := Totals(0.0, 0.0, 0.0, 0.0)

  function Notional(qty: real, price: real): real {
    qty * price
  }

  function Add(t: Totals, row: FillRow): Totals {
    Totals(t.qty + row.qty, t.notional + Notional(row.qty, row.price), t.fee + row.fee, t.tax + row.tax)
  }

  function TotalsOf(rows: seq<FillRow>): Totals {
    if rows == [] then Nothing else Add(TotalsOf(rows[..|rows| - 1]), rows[|rows| - 1])
  }

  /** Price of the missing part, so that the books reach the reported notional; the average if they cannot. */
  function DeltaPrice(already: Totals, ex: Execution): real
    requires ex.qty > already.qty
  {
    var missing := Notional(ex.qty, ex.price) - already.notional;
    if missing <= 0.0 then ex.price else missing / (ex.qty - already.qty)
  }

  /** The fill a report still owes the books, if any. */
  function Missing(already: Totals, ex: Execution): Option<FillRow> {
    if ex.qty - already.qty <= 0.0 then None
    else Some(FillRow(ex.qty - already.qty, DeltaPrice(already, ex),
                      Max(0.0, ex.fee - already.fee), Max(0.0, ex.tax - already.tax)))
  }

  function Book(already: Totals, ex: Execution): Totals {
    match Missing(already, ex)
    case None => already
    case Some(row) => Add(already, row)
  }

  function BookAll(already: Totals, reports: seq<Execution>): Totals {
    if reports == [] then already else Book(BookAll(already, reports[..|reports| - 1]), reports[|reports| - 1])
  }

  /** An order as the poller looks it up: its number may not have been stored yet. */
  datatype OrderRecord = OrderRecord(cid: Cid, no: Option<OrderNo>, createdAt: int, inSession: bool)

  /** The newest order of the current session that carries the number. */
  function Resolve(orders: seq<OrderRecord>, no: OrderNo): (r: Option<OrderRecord>)
    ensures r.Some? ==> r.value in orders && r.value.no == Some(no) && r.value.inSession
    ensures r.None? ==> forall o :: o in orders ==> o.no != Some(no) || !o.inSession
    ensures r.Some? ==> forall o :: o in orders && o.no == Some(no) && o.inSession ==> o.createdAt <= r.value.createdAt
  {
    if orders == [] then None else
    var rest := Resolve(orders[1..], no);
    if orders[0].no == Some(no) && orders[0].inSession
       && (rest.None? || rest.value.createdAt <= orders[0].createdAt)
    then Some(orders[0]) else rest
  }

  datatype Books = Books(seen: set<ExecId>, fills: map<Cid, seq<FillRow>>)

  function RowsOf(fills: map<Cid, seq<FillRow>>, c: Cid): seq<FillRow> {
    if c in fills then fills[c] else []
  }

  /** One report against the books. */
  function Receive(b: Books, orders: seq<OrderRecord>, ex: Execution): Books {
    if IdOf(ex) in b.seen then b else
    match Resolve(orders, ex.no)
    case None => b
    case Some(o) =>
      var rows := RowsOf(b.fills, o.cid);
      match Missing(TotalsOf(rows), ex)
      case None => b.(seen := b.seen + {IdOf(ex)})
      case Some(row) => Books(b.seen + {IdOf(ex)}, b.fills[o.cid := rows + [row]])
  }

  function ReceiveAll(b: Books, orders: seq<OrderRecord>, reports: seq<Execution>): Books {
    if reports == [] then b
    else Receive(ReceiveAll(b, orders, reports[..|reports| - 1]), orders, reports[|reports| - 1])
  }

  class Poller {
    var seen: set<ExecId>
    /** The fills table, by client order id. */
    var fills: map<Cid, seq<FillRow>>

    ghost function View(): Books
      reads this
    {
      Books(seen, fills)
    }

    /** A fresh poller over an existing table, as after a restart. */
    constructor (table: map<Cid, seq<FillRow>>)
      ensures View() == Books({}, table)
    {
      seen := {};
      fills := table;
    }

    method PollLocked(orders: seq<OrderRecord>, executions: seq<Execution>) returns (applied: nat)
      modifies this
      ensures View() == ReceiveAll(old(View()), orders, executions)
    {
      applied := 0;
      for i := 0 to |executions|
        invariant View() == ReceiveAll(old(View()), orders, executions[..i])
      {
        var ex := executions[i];
        assert executions[..i + 1][..i] == executions[..i];
        if IdOf(ex) in seen {
          continue;
        }
        var resolved := Resolve(orders, ex.no);
        if resolved.None? {
          continue;
        }
        var c := resolved.value.cid;
        var row := Missing(TotalsOf(RowsOf(fills, c)), ex);
        if row.None? {
          seen := seen + {IdOf(ex)};
          continue;
        }
        fills := fills[c := RowsOf(fills, c) + [row.value]];
        seen := seen + {IdOf(ex)};
        applied := applied + 1;
      }
      assert executions[..|executions|] == executions;
    }
  }

  // ------------------------------------------------------------------
  // Whole histories: polls over changing order tables, and restarts
  // ------------------------------------------------------------------

  datatype PollEvent = Report(orders: seq<OrderRecord>, ex: Execution) | Restart

  function Run(table: map<Cid, seq<FillRow>>, events: seq<PollEvent>): Books {
    if events == [] then Books({}, table) else
    var before := Run(table, events[..|events| - 1]);
    match events[|events| - 1]
    case Restart => before.(seen := {})
    case Report(orders, ex) => Receive(before, orders, ex)
  }

  /** Within a session an order number stands for one client order: its owner. */
  ghost predicate NumbersBelongTo(owner: OrderNo -> Cid, events: seq<PollEvent>) {
    forall i, o :: 0 <= i < |events| && events[i].Report? && o in events[i].orders && o.inSession && o.no.Some?
      ==> o.cid == owner(o.no.value)
  }

  /** The reports of a history that could be matched to the order, in arrival order. */
  function ReportsFor(events: seq<PollEvent>, c: Cid): seq<Execution> {
    if events == [] then [] else
    var before := ReportsFor(events[..|events| - 1], c);
    match events[|events| - 1]
    case Restart => before
    case Report(orders, ex) =>
      var r := Resolve(orders, ex.no);
      if r.Some? && r.value.cid == c then before + [ex] else before
  }

  /** What a remembered id stands for has been booked, so skipping it loses nothing. */
  ghost predicate SeenIsBooked(b: Books, owner: OrderNo -> Cid) {
    forall id :: id in b.seen ==> id.1 <= TotalsOf(RowsOf(b.fills, owner(id.0))).qty
  }

  lemma BookedIsMax(already: Totals, ex: Execution)
    ensures Book(already, ex).qty == Max(already.qty, ex.qty)
    ensures ex.qty > already.qty ==>
      Book(already, ex).fee == Max(already.fee, ex.fee) && Book(already, ex).tax == Max(already.tax, ex.tax)
    ensures ex.qty <= already.qty ==> Book(already, ex) == already
  {
  }

  /** One report books what it owes to its own order and nothing to any other, remembered or not. */
  lemma ReceiveBooks(b: Books, orders: seq<OrderRecord>, ex: Execution, owner: OrderNo -> Cid, c: Cid)
    requires SeenIsBooked(b, owner)
    requires forall o :: o in orders && o.inSession && o.no.Some? ==> o.cid == owner(o.no.value)
    ensures SeenIsBooked(Receive(b, orders, ex), owner)
    ensures TotalsOf(RowsOf(Receive(b, orders, ex).fills, c))
            == var r := Resolve(orders, ex.no);
               var t := TotalsOf(RowsOf(b.fills, c));
               if r.Some? && r.value.cid == c then Book(t, ex) else t
  {
    var r := Resolve(orders, ex.no);
    if r.Some? {
      var rows := RowsOf(b.fills, r.value.cid);
      var row := Missing(TotalsOf(rows), ex);
      if row.Some? {
        assert (rows + [row.value])[..|rows|] == rows;
      }
    }
  }

  /** Exactly once: after any history the books of an order are its reports, each booked in turn once. */
  lemma {:induction false} HistoryBooksEachReportOnce(
    table: map<Cid, seq<FillRow>>, events: seq<PollEvent>, owner: OrderNo -> Cid, c: Cid)
    requires NumbersBelongTo(owner, events)
    ensures SeenIsBooked(Run(table, events), owner)
    ensures TotalsOf(RowsOf(Run(table, events).fills, c))
            == BookAll(TotalsOf(RowsOf(table, c)), ReportsFor(events, c))
    decreases |events|
  {
    if events != [] {
      var last := |events| - 1;
      HistoryBooksEachReportOnce(table, events[..last], owner, c);
      match events[last]
      case Restart =>
      case Report(orders, ex) =>
        var before := ReportsFor(events[..last], c);
        ReceiveBooks(Run(table, events[..last]), orders, ex, owner, c);
        assert (before + [ex])[..|before|] == before;
    }
  }

  // ------------------------------------------------------------------
  // What booking in turn amounts to
  // ------------------------------------------------------------------

  function MaxQty(start: real, reports: seq<Execution>): real {
    if reports == [] then start else Max(MaxQty(start, reports[..|reports| - 1]), reports[|reports| - 1].qty)
  }

  /** The reports that raised the executed quantity: the only ones that reach the books. */
  function Applied(start: Totals, reports: seq<Execution>): seq<Execution> {
    if reports == [] then [] else
    var init := reports[..|reports| - 1];
    var ex := reports[|reports| - 1];
    Applied(start, init) + if ex.qty > BookAll(start, init).qty then [ex] else []
  }

  function MaxFee(start: real, reports: seq<Execution>): real {
    if reports == [] then start else Max(MaxFee(start, reports[..|reports| - 1]), reports[|reports| - 1].fee)
  }

  function MaxTax(start: real, reports: seq<Execution>): real {
    if reports == [] then start else Max(MaxTax(start, reports[..|reports| - 1]), reports[|reports| - 1].tax)
  }

  lemma AppliedStep(start: Totals, reports: seq<Execution>)
    requires reports != []
    ensures var init := reports[..|reports| - 1];
            var ex := reports[|reports| - 1];
            if ex.qty > BookAll(start, init).qty then
              && MaxFee(start.fee, Applied(start, reports)) == Max(MaxFee(start.fee, Applied(start, init)), ex.fee)
              && MaxTax(start.tax, Applied(start, reports)) == Max(MaxTax(start.tax, Applied(start, init)), ex.tax)
            else Applied(start, reports) == Applied(start, init)
  {
    var before := Applied(start, reports[..|reports| - 1]);
    assert (before + [reports[|reports| - 1]])[..|before|] == before;
    assert before + [] == before;
  }

  /** Recorded quantity is the largest reported one; fee and tax are the largest seen on applied reports. */
  lemma {:induction false} RecordedIsRunningMaximum(start: Totals, reports: seq<Execution>)
    ensures BookAll(start, reports).qty == MaxQty(start.qty, reports)
    ensures BookAll(start, reports).fee == MaxFee(start.fee, Applied(start, reports))
    ensures BookAll(start, reports).tax == MaxTax(start.tax, Applied(start, reports))
    decreases |reports|
  {
    if reports != [] {
      var init := reports[..|reports| - 1];
      RecordedIsRunningMaximum(start, init);
      BookedIsMax(BookAll(start, init), reports[|reports| - 1]);
      AppliedStep(start, reports);
    }
  }

  /** The main statement: after any history of polls and restarts, an order's row totals are running maxima. */
  lemma ExactlyOnce(table: map<Cid, seq<FillRow>>, events: seq<PollEvent>, owner: OrderNo -> Cid, c: Cid)
    requires NumbersBelongTo(owner, events)
    ensures var before := TotalsOf(RowsOf(table, c));
            var now := TotalsOf(RowsOf(Run(table, events).fills, c));
            var reports := ReportsFor(events, c);
            && now.qty == MaxQty(before.qty, reports)
            && now.fee == MaxFee(before.fee, Applied(before, reports))
            && now.tax == MaxTax(before.tax, Applied(before, reports))
  {
    HistoryBooksEachReportOnce(table, events, owner, c);
    RecordedIsRunningMaximum(TotalsOf(RowsOf(table, c)), ReportsFor(events, c));
  }

  /** Every fill has a positive quantity, and a positive price exactly when the report's average price is positive. */
  lemma FillsArePositive(already: Totals, ex: Execution)
    requires Missing(already, ex).Some? && already.qty >= 0.0 && already.notional >= 0.0
    ensures Missing(already, ex).value.qty > 0.0
    ensures Missing(already, ex).value.price > 0.0 <==> ex.price > 0.0
    ensures Missing(already, ex).value.fee >= 0.0 && Missing(already, ex).value.tax >= 0.0
  {
    var missing := Notional(ex.qty, ex.price) - already.notional;
    if ex.price <= 0.0 {
      assert ex.qty * ex.price <= 0.0;
    } else if missing > 0.0 {
      QuotientPositive(missing, ex.qty - already.qty);
    }
  }

  /** A report without an average price books its shares at a price of zero. */
  lemma UnpricedReportBooksFreeShares()
    ensures Missing(Nothing, Execution(900, 5.0, 0.0, 1.0, 2.0)) == Some(FillRow(5.0, 0.0, 1.0, 2.0))
  {
  }

  /** With positive average prices the booked quantity and notional never turn negative. */
  lemma {:induction false} BooksStayNonNegative(start: Totals, reports: seq<Execution>)
    requires start.qty >= 0.0 && start.notional >= 0.0
    requires forall ex :: ex in reports ==> ex.price > 0.0
    ensures BookAll(start, reports).qty >= 0.0 && BookAll(start, reports).notional >= 0.0
    decreases |reports|
  {
    if reports != [] {
      var init := reports[..|reports| - 1];
      BooksStayNonNegative(start, init);
      var row := Missing(BookAll(start, init), reports[|reports| - 1]);
      if row.Some? {
        FillsArePositive(BookAll(start, init), reports[|reports| - 1]);
        ProductPositive(row.value.qty, row.value.price);
      }
    }
  }

  lemma ProductPositive(a: real, b: real)
    requires a > 0.0 && b > 0.0
    ensures Notional(a, b) > 0.0
  {
  }

  lemma QuotientPositive(a: real, b: real)
    requires a > 0.0 && b > 0.0
    ensures a / b > 0.0
  {
  }

  lemma QuotientTimes(a: real, b: real)
    requires b > 0.0
    ensures Notional(b, a / b) == a
  {
  }

  /** When the reported notional exceeds the booked one, the fill closes the gap to the last cent. */
  lemma GrowingReportBooksItsNotional(already: Totals, ex: Execution)
    requires ex.qty > already.qty
    ensures Notional(ex.qty, ex.price) > already.notional
            ==> Book(already, ex).notional == Notional(ex.qty, ex.price)
  {
    var missing := Notional(ex.qty, ex.price) - already.notional;
    if missing > 0.0 {
      QuotientTimes(missing, ex.qty - already.qty);
    }
  }

  /** Each applied report raised the cumulative notional. */
  ghost predicate NotionalGrows(start: Totals, reports: seq<Execution>) {
    forall i :: 0 <= i < |reports| && reports[i].qty > BookAll(start, reports[..i]).qty
      ==> Notional(reports[i].qty, reports[i].price) > BookAll(start, reports[..i]).notional
  }

  /** Then the books end at the last applied report: quantity times average price. */
  lemma {:induction false} RecordedNotionalIsLastReport(start: Totals, reports: seq<Execution>)
    requires NotionalGrows(start, reports)
    ensures var applied := Applied(start, reports);
            BookAll(start, reports).notional
            == if applied == [] then start.notional
               else Notional(applied[|applied| - 1].qty, applied[|applied| - 1].price)
    decreases |reports|
  {
    if reports != [] {
      var last := |reports| - 1;
      var init := reports[..last];
      GrowsBefore(start, reports);
      RecordedNotionalIsLastReport(start, init);
      hide Applied, NotionalGrows, Book, Notional;
      AppliedLast(start, reports);
      BookAllNext(start, reports);
      if reports[last].qty > BookAll(start, init).qty {
        GrowingReportBooksItsNotional(BookAll(start, init), reports[last]);
      }
      BookedIsMax(BookAll(start, init), reports[last]);
    }
  }

  lemma BookAllNext(start: Totals, reports: seq<Execution>)
    requires reports != []
    ensures BookAll(start, reports) == Book(BookAll(start, reports[..|reports| - 1]), reports[|reports| - 1])
  {
  }

  lemma AppliedLast(start: Totals, reports: seq<Execution>)
    requires reports != []
    ensures var (init, ex) := (reports[..|reports| - 1], reports[|reports| - 1]);
      Applied(start, reports) == Applied(start, init) + if ex.qty > BookAll(start, init).qty then [ex] else []
  {
  }

  lemma GrowsBefore(start: Totals, reports: seq<Execution>)
    requires NotionalGrows(start, reports) && reports != []
    ensures var (init, ex) := (reports[..|reports| - 1], reports[|reports| - 1]);
      NotionalGrows(start, init)
      && (ex.qty > BookAll(start, init).qty ==> Notional(ex.qty, ex.price) > BookAll(start, init).notional)
  {
    hide BookAll, Notional;
    var init := reports[..|reports| - 1];
    assert forall i :: 0 <= i < |init| ==> init[..i] == reports[..i] && init[i] == reports[i];
  }

  // ------------------------------------------------------------------
  // Fees and taxes of reports that bring no new shares
  // ------------------------------------------------------------------

  lemma {:induction false} MaxFeeIsLeast(start: real, reports: seq<Execution>, m: real)
    ensures MaxFee(start, reports) <= m <==> start <= m && forall ex :: ex in reports ==> ex.fee <= m
  {
    if reports != [] {
      var last := |reports| - 1;
      MaxFeeIsLeast(start, reports[..last], m);
      assert reports == reports[..last] + [reports[last]];
    }
  }

  lemma {:induction false} MaxTaxIsLeast(start: real, reports: seq<Execution>, m: real)
    ensures MaxTax(start, reports) <= m <==> start <= m && forall ex :: ex in reports ==> ex.tax <= m
  {
    if reports != [] {
      var last := |reports| - 1;
      MaxTaxIsLeast(start, reports[..last], m);
      assert reports == reports[..last] + [reports[last]];
    }
  }

  lemma {:induction false} AppliedAreReports(start: Totals, reports: seq<Execution>)
    ensures forall ex :: ex in Applied(start, reports) ==> ex in reports
  {
    if reports != [] {
      AppliedAreReports(start, reports[..|reports| - 1]);
      assert reports == reports[..|reports| - 1] + [reports[|reports| - 1]];
    }
  }

  /** When report i arrives, no share of it is missing. */
  predicate AddsNothing(start: Totals, reports: seq<Execution>, i: nat)
    requires i < |reports|
  {
    reports[i].qty <= MaxQty(start.qty, reports[..i])
  }

  lemma {:induction false} AppliedUnlessItAddsNothing(start: Totals, reports: seq<Execution>, i: nat)
    requires i < |reports|
    ensures AddsNothing(start, reports, i) || reports[i] in Applied(start, reports)
  {
    var last := |reports| - 1;
    RecordedIsRunningMaximum(start, reports[..last]);
    if i < last {
      AppliedUnlessItAddsNothing(start, reports[..last], i);
      assert reports[..last][..i] == reports[..i];
    }
  }

  /**
   The recorded fee and tax are the largest of all reports exactly when no report that adds no shares claims more than
   the reports that do.
   */
  lemma CostsAreMaximaExactlyWhen(start: Totals, reports: seq<Execution>)
    ensures BookAll(start, reports).fee == MaxFee(start.fee, reports)
       <==> forall i :: 0 <= i < |reports| && AddsNothing(start, reports, i) ==>
              reports[i].fee <= MaxFee(start.fee, Applied(start, reports))
    ensures BookAll(start, reports).tax == MaxTax(start.tax, reports)
       <==> forall i :: 0 <= i < |reports| && AddsNothing(start, reports, i) ==>
              reports[i].tax <= MaxTax(start.tax, Applied(start, reports))
  {
    RecordedIsRunningMaximum(start, reports);
    AppliedAreReports(start, reports);
    var applied := Applied(start, reports);
    var (fee, tax) := (MaxFee(start.fee, applied), MaxTax(start.tax, applied));
    MaxFeeIsLeast(start.fee, reports, fee);
    MaxFeeIsLeast(start.fee, applied, fee);
    MaxFeeIsLeast(start.fee, applied, MaxFee(start.fee, reports));
    MaxFeeIsLeast(start.fee, reports, MaxFee(start.fee, reports));
    MaxTaxIsLeast(start.tax, reports, tax);
    MaxTaxIsLeast(start.tax, applied, tax);
    MaxTaxIsLeast(start.tax, applied, MaxTax(start.tax, reports));
    MaxTaxIsLeast(start.tax, reports, MaxTax(start.tax, reports));
    hide MaxFee, MaxTax, Applied, AddsNothing, BookAll;
    forall i | 0 <= i < |reports|
      ensures AddsNothing(start, reports, i) || reports[i] in applied
    {
      AppliedUnlessItAddsNothing(start, reports, i);
    }
  }

  /** A fee or tax that arrives after all shares have been reported is never booked. */
  lemma LateCostsAreNotBooked()
    ensures var first := Execution(900, 5.0, 100.0, 1.0, 2.0);
            var corrected := first.(fee := 3.0, tax := 4.0);
      && BookAll(Nothing, [first, corrected]).fee == 1.0 && MaxFee(0.0, [first, corrected]) == 3.0
      && BookAll(Nothing, [first, corrected]).tax == 2.0 && MaxTax(0.0, [first, corrected]) == 4.0
  {
    hide Book;
    var first := Execution(900, 5.0, 100.0, 1.0, 2.0);
    var corrected := first.(fee := 3.0, tax := 4.0);
    TwoReports(Nothing, first, corrected);
    BookedIsMax(Nothing, first);
    BookedIsMax(Book(Nothing, first), corrected);
  }

  lemma TwoReports(start: Totals, x: Execution, y: Execution)
    ensures BookAll(start, [x, y]) == Book(Book(start, x), y)
    ensures MaxFee(start.fee, [x, y]) == Max(Max(start.fee, x.fee), y.fee)
    ensures MaxTax(start.tax, [x, y]) == Max(Max(start.tax, x.tax), y.tax)
  {
    hide Book;
    assert [x, y][..1] == [x] && [x][..0] == [];
    assert BookAll(start, []) == start && MaxFee(start.fee, []) == start.fee && MaxTax(start.tax, []) == start.tax;
  }
}
