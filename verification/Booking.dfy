/** The poller over its fills table and the engine over its order rows book the same reports the same way. */
module Booking {
  import opened Domain
  import opened FillPoller
  import opened Account
  import opened AccountSteps
  import opened Engine
  import opened EngineFills
  import opened Exchange
  import opened Reading

  /** The poller looks up exactly the account's orders, all of this session. */
  ghost predicate LooksUp(records: seq<OrderRecord>, a: Account) {
    && (forall o :: o in records ==> o.cid in a.orders && o.no == a.orders[o.cid].no && o.inSession)
    && (forall c :: c in a.orders ==> exists o :: o in records && o.cid == c)
  }

  /** An order's totals are the sums over its fill rows. */
  ghost predicate SameTotals(b: Books, a: Account) {
    forall c :: c in a.orders ==> a.orders[c].totals == TotalsOf(RowsOf(b.fills, c))
  }

  /** A remembered report has been booked. */
  ghost predicate SeenAreBooked(b: Books, a: Account) {
    forall id, c :: id in b.seen && c in a.orders && a.orders[c].no == Some(id.0) ==> id.1 <= a.orders[c].totals.qty
  }

  /** Both resolve a number to the same order. */
  lemma SameResolution(records: seq<OrderRecord>, a: Account, no: OrderNo)
    requires Durable(a) && LooksUp(records, a)
    ensures match Resolve(records, no)
      case None => OrderOf(a, no) == None
      case Some(o) => o.cid in a.orders && OrderOf(a, no) == Some(o.cid)
  {
    var r := Resolve(records, no);
    if r.Some? {
      NumberFindsOne(a, r.value.cid, no);
    } else {
      forall c | c in a.orders
        ensures a.orders[c].no != Some(no)
      {
        var o :| o in records && o.cid == c;
      }
    }
  }

  /** One report: the same totals on both sides, for every order. */
  lemma ReportBooksTheSame(b: Books, records: seq<OrderRecord>, w: World, ex: Execution)
    requires Inv(w) && TrueReport(w.acct.broker, ex)
    requires LooksUp(records, w.acct) && SameTotals(b, w.acct) && SeenAreBooked(b, w.acct)
    ensures var (b', a') := (Receive(b, records, ex), ReadReport(w, ex).acct);
      LooksUp(records, a') && SameTotals(b', a') && SeenAreBooked(b', a')
  {
    hide Inv, Durable, ReadReport, LooksUp, SameTotals, SeenAreBooked;
    InvIsDurable(w);
    SameResolution(records, w.acct, ex.no);
    if OrderOf(w.acct, ex.no).Some? {
      var c := OrderOf(w.acct, ex.no).value;
      ReadOrders(w, c, ex);
      NumberFindsOne(w.acct, c, ex.no);
      AddedLooksUp(records, w.acct, ReadReport(w, ex).acct, c, ex);
      AddedIsReceived(b, records, w.acct, ReadReport(w, ex).acct, c, ex);
    } else {
      NothingReceived(b, records, w, ex);
    }
  }

  lemma NothingReceived(b: Books, records: seq<OrderRecord>, w: World, ex: Execution)
    requires Inv(w) && TrueReport(w.acct.broker, ex) && OrderOf(w.acct, ex.no).None? && Resolve(records, ex.no).None?
    ensures Receive(b, records, ex) == b && ReadReport(w, ex) == w
  {
  }

  /** Only the order of the report changed, and it took what was missing. */
  ghost predicate Added(a: Account, a': Account, c: Cid, ex: Execution) {
    && c in a.orders && a.orders[c].no == Some(ex.no) && a'.orders.Keys == a.orders.Keys
    && (forall d :: d in a.orders && d != c ==> a'.orders[d] == a.orders[d])
    && a'.orders[c].no == a.orders[c].no
    && var f := Missing(a.orders[c].totals, ex);
       a'.orders[c].totals == if f.Some? then Add(a.orders[c].totals, f.value) else a.orders[c].totals
  }

  lemma AddedLooksUp(records: seq<OrderRecord>, a: Account, a': Account, c: Cid, ex: Execution)
    requires LooksUp(records, a) && Added(a, a', c, ex)
    ensures LooksUp(records, a')
  {
  }

  lemma AddedIsReceived(b: Books, records: seq<OrderRecord>, a: Account, a': Account, c: Cid, ex: Execution)
    requires Added(a, a', c, ex) && SameTotals(b, a) && SeenAreBooked(b, a)
    requires Resolve(records, ex.no).Some? && Resolve(records, ex.no).value.cid == c
    requires forall d :: d in a.orders && a.orders[d].no == Some(ex.no) ==> d == c
    ensures SameTotals(Receive(b, records, ex), a') && SeenAreBooked(Receive(b, records, ex), a')
  {
    MissingUnlessBooked(a.orders[c].totals, ex);
    hide Resolve, Missing, Add, TotalsOf;
    var f := Missing(a.orders[c].totals, ex);
    if f.Some? {
      NewRowAdds(RowsOf(b.fills, c), f.value);
      ReceivedTotals(b, records, a, a', c, ex);
      ReceivedSeen(b, records, a, a', c, ex);
    }
  }

  lemma MissingUnlessBooked(t: Totals, ex: Execution)
    ensures Missing(t, ex).None? <==> ex.qty <= t.qty
    ensures Missing(t, ex).Some? ==> Add(t, Missing(t, ex).value).qty == ex.qty
  {
  }

  /** The report is new: its order gets the row. */
  ghost predicate GetsRow(b: Books, records: seq<OrderRecord>, c: Cid, ex: Execution, row: FillRow) {
    Receive(b, records, ex) == Books(b.seen + {IdOf(ex)}, b.fills[c := RowsOf(b.fills, c) + [row]])
  }

  lemma ReceivedTotals(b: Books, records: seq<OrderRecord>, a: Account, a': Account, c: Cid, ex: Execution)
    requires Added(a, a', c, ex) && SameTotals(b, a) && Missing(a.orders[c].totals, ex).Some?
    requires GetsRow(b, records, c, ex, Missing(a.orders[c].totals, ex).value)
    ensures SameTotals(Receive(b, records, ex), a')
  {
    hide Missing, Add, TotalsOf, Receive;
    NewRowAdds(RowsOf(b.fills, c), Missing(a.orders[c].totals, ex).value);
  }

  lemma ReceivedSeen(b: Books, records: seq<OrderRecord>, a: Account, a': Account, c: Cid, ex: Execution)
    requires Added(a, a', c, ex) && SeenAreBooked(b, a) && Missing(a.orders[c].totals, ex).Some?
    requires forall d :: d in a.orders && a.orders[d].no == Some(ex.no) ==> d == c
    requires GetsRow(b, records, c, ex, Missing(a.orders[c].totals, ex).value)
    ensures SeenAreBooked(Receive(b, records, ex), a')
  {
    MissingUnlessBooked(a.orders[c].totals, ex);
    hide Missing, Add, TotalsOf, Receive;
    forall id, d | id in Receive(b, records, ex).seen && d in a'.orders && a'.orders[d].no == Some(id.0)
      ensures id.1 <= a'.orders[d].totals.qty
    {
      if id in b.seen {
        assert id.1 <= a.orders[d].totals.qty;
      }
    }
  }

  lemma NewRowAdds(rows: seq<FillRow>, row: FillRow)
    ensures TotalsOf(rows + [row]) == Add(TotalsOf(rows), row)
  {
    assert (rows + [row])[..|rows|] == rows;
  }

  /** The order rows after a report: the missing part is added to the totals of its own order. */
  lemma ReadOrders(w: World, c: Cid, ex: Execution)
    requires Inv(w) && TrueReport(w.acct.broker, ex) && OrderOf(w.acct, ex.no) == Some(c)
    ensures Added(w.acct, ReadReport(w, ex).acct, c, ex)
  {
    OrderOfIsHonest(w, ex);
    DeliveredKeepsInv(w, c, ex);
    MissingIsOwed(w.acct, c, ex);
    var f := Missing(w.acct.orders[c].totals, ex);
    if f.Some? {
      FillKeepsDurable(w.acct, c, f.value);
      OnFillAccount(w, c, f.value);
    }
  }

  /** A whole poll: the poller's table and the engine's order rows end with the same totals. */
  lemma {:induction false} PollBooksTheSame(b: Books, records: seq<OrderRecord>, w: World, reports: seq<Execution>)
    requires Inv(w) && AllTrue(w.acct.broker, reports)
    requires LooksUp(records, w.acct) && SameTotals(b, w.acct) && SeenAreBooked(b, w.acct)
    ensures var (b', a') := (ReceiveAll(b, records, reports), ReadReports(w, reports).acct);
      LooksUp(records, a') && SameTotals(b', a') && SeenAreBooked(b', a')
  {
    hide Inv, ReadReport, TrueReport, LooksUp, SameTotals, SeenAreBooked, Receive;
    if reports != [] {
      var n := |reports| - 1;
      assert AllTrue(w.acct.broker, reports[..n]) by {
        assert forall i :: 0 <= i < n ==> reports[..n][i] == reports[i];
      }
      PollBooksTheSame(b, records, w, reports[..n]);
      ReportBooksTheSame(ReceiveAll(b, records, reports[..n]), records, ReadReports(w, reports[..n]), reports[n]);
    }
  }
}
