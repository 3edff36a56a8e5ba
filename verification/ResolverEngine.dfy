/** The resolver inside the protocol: a whole pass over the engine's tables is a sequence of allowed adopt and expire steps. */
module ResolverEngine {
  import opened Domain
  import opened Ledgers
  import opened FillPoller
  import opened Account
  import opened Engine
  import opened Runs
  import R = Resolver
  import opened ResolverRuns

  /** An order row as the resolver reads it, joined with its position. */
  function RowOf(a: Account, ticker: map<LotId, R.Ticker>, o: OrderRow): R.Row {
    R.Row(if o.lot in a.positions && o.lot in ticker then Some(ticker[o.lot]) else None,
          o.side, o.qty, o.no, o.state, o.createdAt as real, true)
  }

  function RowsOf(a: Account, ticker: map<LotId, R.Ticker>): map<Cid, R.Row> {
    map c | c in a.orders :: RowOf(a, ticker, a.orders[c])
  }

  /** Which order each of the broker's numbers belongs to. */
  ghost predicate OwnersOf(a: Account, owner: Owners) {
    && (forall no :: no in owner ==> owner[no] in a.broker && a.broker[owner[no]].no == no)
    && (forall c :: c in a.broker ==> a.broker[c].no in owner && owner[a.broker[c].no] == c)
  }

  ghost predicate NothingInFlight(a: Account) {
    forall c :: c in a.orders ==> !a.orders[c].state.PendingNew?
  }

  lemma TablesTellTheTruth(a: Account, ticker: map<LotId, R.Ticker>, presumed: set<Cid>, owner: Owners)
    requires Durable(a) && NothingInFlight(a) && OwnersOf(a, owner) && a.positions.Keys <= ticker.Keys
    ensures Truth(RowsOf(a, ticker), presumed, owner)
  {
    var rows := RowsOf(a, ticker);
    forall no | no in owner
      ensures OwnerOk(rows, presumed, owner, no)
    {
      assert OrderOk(a, owner[no]);
    }
    forall c | c in rows
      ensures LinkOk(rows, owner, c)
    {
      assert OrderOk(a, c);
    }
  }

  /** The protocol step a verdict stands for. */
  function StepOf(c: Cid, v: R.Verdict): Option<Event> {
    match v
    case Keep => None
    case Adopt(_) => Some(Event.Adopt(c))
    case Expire => Some(Event.Expire(c))
  }

  /** Each verdict is a step the protocol allows, and the step writes what the resolver writes. */
  lemma VerdictIsAllowed(w: World, w': World, ticker: map<LotId, R.Ticker>, p: R.Pass, owner: Owners, c: Cid)
    requires Inv(w) && NothingInFlight(w.acct) && OwnersOf(w.acct, owner) && w.acct.positions.Keys <= ticker.Keys
    requires p.rows == RowsOf(w.acct, ticker)
    requires Listed(p.rows, owner, p.records) && CompleteList(owner, p.records)
    requires Inv(w') && w'.acct.broker == w.acct.broker && w'.acct.positions == w.acct.positions
    requires c in w.acct.orders && c in w'.acct.orders && w'.acct.orders[c] == w.acct.orders[c]
    ensures Performs(w, w', ticker, p, c)
  {
    hide Inv, Enabled, Next, Listed, CompleteList, Truth, R.Pass.VerdictOf, NothingInFlight;
    TruthOf(w, ticker, p.presumed, owner);
    VerdictFacts(p, c);
    match p.VerdictOf(c)
    case Keep =>
    case Adopt(no) =>
      AdoptsItsOwn(p, owner, c);
      AdoptIsAllowed(w', c, no);
    case Expire =>
      ExpiredNeverReached(p, owner, c);
      NotOwnedNotTaken(w.acct, owner, c);
      ExpireIsAllowed(w', c);
  }

  /** Taken in a state reached by earlier verdicts of the pass, the verdict's step is allowed and writes what it says. */
  ghost predicate Performs(w: World, w': World, ticker: map<LotId, R.Ticker>, p: R.Pass, c: Cid)
    requires c in p.rows && c in w'.acct.orders
  {
    match StepOf(c, p.VerdictOf(c))
    case None => p.Resolved()[c] == p.rows[c]
    case Some(e) =>
      && Enabled(w', e) && Inv(Next(w', e))
      && var a := Next(w', e).acct;
         && a.broker == w'.acct.broker && a.positions == w'.acct.positions
         && a.orders.Keys == w'.acct.orders.Keys && (forall d :: d in a.orders && d != c ==> a.orders[d] == w'.acct.orders[d])
         && RowOf(w.acct, ticker, a.orders[c]) == p.Resolved()[c]
  }

  lemma TruthOf(w: World, ticker: map<LotId, R.Ticker>, presumed: set<Cid>, owner: Owners)
    requires Inv(w) && NothingInFlight(w.acct) && OwnersOf(w.acct, owner) && w.acct.positions.Keys <= ticker.Keys
    ensures Truth(RowsOf(w.acct, ticker), presumed, owner)
  {
    TablesTellTheTruth(w.acct, ticker, presumed, owner);
  }

  lemma NotOwnedNotTaken(a: Account, owner: Owners, c: Cid)
    requires OwnersOf(a, owner) && c !in owner.Values
    ensures c !in a.broker
  {
    forall d | d in a.broker
      ensures d in owner.Values
    {
      assert owner[a.broker[d].no] == d;
    }
  }

  lemma VerdictFacts(p: R.Pass, c: Cid)
    requires c in p.rows
    ensures p.VerdictOf(c).Adopt? ==> R.Adoptable(p.rows[c].state)
    ensures p.VerdictOf(c).Expire? ==> p.rows[c].state.Unknown?
    ensures p.Resolved()[c] == R.Judged(p.rows[c], p.VerdictOf(c))
  {
  }

  lemma AdoptIsAllowed(w: World, c: Cid, no: OrderNo)
    requires Inv(w) && c in w.acct.orders && c in w.acct.broker && w.acct.broker[c].no == no
    requires w.acct.orders[c].state.Unknown? || w.acct.orders[c].state.Rejected?
    ensures var e := Event.Adopt(c);
      && Enabled(w, e) && Inv(Next(w, e))
      && Next(w, e).acct == w.acct.(orders := w.acct.orders[c := w.acct.orders[c].(state := New, no := Some(no))])
  {
    assert OrderOk(w.acct, c);
    StepKeepsInv(w, Event.Adopt(c));
  }

  lemma ExpireIsAllowed(w: World, c: Cid)
    requires Inv(w) && c in w.acct.orders && c !in w.acct.broker && w.acct.orders[c].state.Unknown?
    ensures var e := Event.Expire(c);
      && Enabled(w, e) && Inv(Next(w, e))
      && Next(w, e).acct == w.acct.(orders := w.acct.orders[c := w.acct.orders[c].(state := Rejected)])
  {
    StepKeepsInv(w, Event.Expire(c));
  }

  /** The pass taken order by order. */
  ghost predicate CarriesOut(w: World, w': World, ticker: map<LotId, R.Ticker>, p: R.Pass, done: set<Cid>) {
    && w'.acct.broker == w.acct.broker && w'.acct.positions == w.acct.positions
    && w'.acct.orders.Keys == w.acct.orders.Keys == p.rows.Keys
    && forall c :: c in w.acct.orders ==>
         if c in done then RowOf(w.acct, ticker, w'.acct.orders[c]) == p.Resolved()[c]
         else w'.acct.orders[c] == w.acct.orders[c]
  }

  /** A pass with a complete list is a run of the protocol: it ends in a sound state whose tables are what it wrote. */
  lemma {:induction false} PassIsARun(
    w: World, ticker: map<LotId, R.Ticker>, p: R.Pass, owner: Owners, done: set<Cid>) returns (ws: seq<World>, es: seq<Event>)
    requires Inv(w) && NothingInFlight(w.acct) && OwnersOf(w.acct, owner) && w.acct.positions.Keys <= ticker.Keys
    requires p.rows == RowsOf(w.acct, ticker) && done <= w.acct.orders.Keys
    requires Listed(p.rows, owner, p.records) && CompleteList(owner, p.records)
    ensures |ws| == |es| + 1 && ws[0] == w && Inv(ws[|es|])
    ensures forall i :: 0 <= i < |es| ==> Takes(ws[i], es[i], ws[i + 1])
    ensures CarriesOut(w, ws[|es|], ticker, p, done)
    decreases |done|
  {
    hide Inv, Enabled, Next, CompleteList, Listed, OwnersOf, NothingInFlight, R.Pass.VerdictOf, Performs, CarriesOut;
    if done == {} {
      ws, es := [w], [];
      NothingCarriedOut(w, ticker, p);
    } else {
      var c :| c in done;
      ws, es := PassIsARun(w, ticker, p, owner, done - {c});
      var w' := ws[|es|];
      CarriedOutSoFar(w, w', ticker, p, done - {c});
      VerdictIsAllowed(w, w', ticker, p, owner, c);
      OneMore(w, w', ticker, p, done - {c}, c);
      assert done - {c} + {c} == done;
      var e := StepOf(c, p.VerdictOf(c));
      if e.Some? {
        ws, es := ws + [Next(w', e.value)], es + [e.value];
      }
    }
  }

  lemma NothingCarriedOut(w: World, ticker: map<LotId, R.Ticker>, p: R.Pass)
    requires p.rows == RowsOf(w.acct, ticker)
    ensures CarriesOut(w, w, ticker, p, {})
  {
  }

  lemma CarriedOutSoFar(w: World, w': World, ticker: map<LotId, R.Ticker>, p: R.Pass, done: set<Cid>)
    requires CarriesOut(w, w', ticker, p, done)
    ensures w'.acct.broker == w.acct.broker && w'.acct.positions == w.acct.positions
    ensures w'.acct.orders.Keys == w.acct.orders.Keys == p.rows.Keys
    ensures forall c :: c in w.acct.orders && c !in done ==> w'.acct.orders[c] == w.acct.orders[c]
  {
  }

  lemma OneMore(w: World, w': World, ticker: map<LotId, R.Ticker>, p: R.Pass, done: set<Cid>, c: Cid)
    requires CarriesOut(w, w', ticker, p, done) && p.rows == RowsOf(w.acct, ticker)
    requires c in w.acct.orders && c in w'.acct.orders && c !in done && Performs(w, w', ticker, p, c)
    ensures match StepOf(c, p.VerdictOf(c))
      case None => CarriesOut(w, w', ticker, p, done + {c})
      case Some(e) => Enabled(w', e) && Inv(Next(w', e)) && CarriesOut(w, Next(w', e), ticker, p, done + {c})
  {
    hide Inv, Enabled, Next, R.Pass.VerdictOf;
  }

  /** With every order dealt with, the tables are exactly what the resolver wrote. */
  lemma CarriedOutInFull(w: World, w': World, ticker: map<LotId, R.Ticker>, p: R.Pass)
    requires CarriesOut(w, w', ticker, p, w.acct.orders.Keys)
    ensures RowsOf(w'.acct, ticker) == p.Resolved()
  {
    hide R.Pass.VerdictOf;
    forall c | c in w.acct.orders
      ensures RowOf(w'.acct, ticker, w'.acct.orders[c]) == p.Resolved()[c]
    {
    }
  }
}
