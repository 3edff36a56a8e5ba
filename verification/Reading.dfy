/** What a list of reports does to the engine, one after the other: the fold that a poll performs. */
module Reading {
  import opened Domain
  import opened FillPoller
  import opened Account
  import opened Engine
  import opened EngineFills
  import opened Runs
  import opened Exchange

  /** The order that carries the number, if it is stored yet. */
  ghost function OrderOf(a: Account, no: OrderNo): Option<Cid> {
    if exists c :: c in a.orders && a.orders[c].no == Some(no) then
      var c :| c in a.orders && a.orders[c].no == Some(no);
      Some(c)
    else None
  }

  /** In a durable account a stored number belongs to one order. */
  lemma NumberFindsOne(a: Account, c: Cid, no: OrderNo)
    requires Durable(a) && c in a.orders && a.orders[c].no == Some(no)
    ensures forall d :: d in a.orders && a.orders[d].no == Some(no) ==> d == c
    ensures OrderOf(a, no) == Some(c)
  {
    forall d | d in a.orders && a.orders[d].no == Some(no)
      ensures d == c
    {
      assert OrderOk(a, c) && OrderOk(a, d);
    }
  }

  /** A true report about a stored number is about that very order. */
  lemma TrueReportIsHonest(a: Account, c: Cid, ex: Execution)
    requires Durable(a) && c in a.orders && a.orders[c].no == Some(ex.no) && TrueReport(a.broker, ex)
    ensures Honest(a, c, ex)
  {
    assert OrderOk(a, c);
  }

  lemma OrderOfIsHonest(w: World, ex: Execution)
    requires Inv(w) && TrueReport(w.acct.broker, ex) && OrderOf(w.acct, ex.no).Some?
    ensures var c := OrderOf(w.acct, ex.no).value;
      && Honest(w.acct, c, ex) && Readable(w, c)
      && Inv(Delivered(w, c, ex)) && Delivered(w, c, ex).acct.broker == w.acct.broker
  {
    var c := OrderOf(w.acct, ex.no).value;
    TrueReportIsHonest(w.acct, c, ex);
    DeliveredKeepsInv(w, c, ex);
  }

  /** A report whose number is not stored yet waits for the next poll. */
  ghost function ReadReport(w: World, ex: Execution): (r: World)
    requires Inv(w) && TrueReport(w.acct.broker, ex)
    ensures Inv(r) && r.acct.broker == w.acct.broker
  {
    match OrderOf(w.acct, ex.no)
    case None => w
    case Some(c) => OrderOfIsHonest(w, ex); Delivered(w, c, ex)
  }

  ghost function ReadReports(w: World, reports: seq<Execution>): (r: World)
    requires Inv(w) && AllTrue(w.acct.broker, reports)
    ensures Inv(r) && r.acct.broker == w.acct.broker
  {
    if reports == [] then w
    else
      var n := |reports| - 1;
      assert TrueReport(w.acct.broker, reports[n]);
      assert forall i :: 0 <= i < n ==> reports[..n][i] == reports[i];
      ReadReport(ReadReports(w, reports[..n]), reports[n])
  }

  /** Reading a report is a step, or nothing. */
  lemma ReportIsAStep(w: World, ex: Execution)
    requires Inv(w) && TrueReport(w.acct.broker, ex)
    ensures Reaches(w, ReadReport(w, ex))
  {
    hide Inv, Reaches, Delivered;
    ReachesItself(w);
    if OrderOf(w.acct, ex.no).Some? {
      var c := OrderOf(w.acct, ex.no).value;
      OrderOfIsHonest(w, ex);
      ReachesNext(w, Read(c, ex));
    }
  }
}
