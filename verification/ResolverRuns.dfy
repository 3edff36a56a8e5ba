/**
 Why the resolver is right. The truth it cannot see is which local order each broker number really belongs to; when
 every broker order of the day comes from a local order and no submit is in flight, it never links a wrong one.
 */
module ResolverRuns {
  import opened Domain
  import opened FillPoller
  import opened Resolver

  /** The local order that really caused each broker order of today. */
  type Owners = map<OrderNo, Cid>

  /** A broker order belongs to an order of today that carries its number, or is stranded. */
  ghost predicate OwnerOk(rows: map<Cid, Row>, presumed: set<Cid>, owner: Owners, no: OrderNo)
    requires no in owner
  {
    var c := owner[no];
    && c in rows && rows[c].inSession && rows[c].ticker.Some?
    && (rows[c].no == Some(no) || IsStranded(rows, presumed, c))
  }

  /** A number an order of today carries is the order's own. */
  predicate LinkOk(rows: map<Cid, Row>, owner: Owners, c: Cid)
    requires c in rows
  {
    rows[c].inSession && rows[c].no.Some? ==> rows[c].no.value in owner && owner[rows[c].no.value] == c
  }

  ghost predicate Truth(rows: map<Cid, Row>, presumed: set<Cid>, owner: Owners) {
    && (forall no :: no in owner ==> OwnerOk(rows, presumed, owner, no))
    && (forall c :: c in rows ==> LinkOk(rows, owner, c))
    && (forall m, n :: m in owner && n in owner && owner[m] == owner[n] ==> m == n)
  }

  /** The broker lists only real orders of today, each once, as they were sent. */
  ghost predicate Listed(rows: map<Cid, Row>, owner: Owners, records: seq<Record>) {
    && (forall r :: r in records ==> IsRecordOf(rows, owner, r))
    && (forall i, j :: 0 <= i < j < |records| ==> records[i].no != records[j].no)
  }

  predicate IsRecordOf(rows: map<Cid, Row>, owner: Owners, r: Record) {
    r.no in owner && owner[r.no] in rows && rows[owner[r.no]].ticker.Some?
    && RecordSignature(r) == SignatureOf(rows[owner[r.no]])
  }

  /** It lists all of them: every leg answered. */
  ghost predicate CompleteList(owner: Owners, records: seq<Record>) {
    forall no :: no in owner ==> exists r :: r in records && r.no == no
  }

  lemma {:induction false} FoundIsListed(records: seq<Record>, linked: set<OrderNo>, sig: Signature, no: OrderNo)
    ensures no in Found(records, linked, sig) <==>
      no !in linked && exists r :: r in records && r.no == no && RecordSignature(r) == sig
  {
    if records != [] {
      var n := |records| - 1;
      assert records == records[..n] + [records[n]];
      FoundIsListed(records[..n], linked, sig, no);
    }
  }

  /** An adopted order gets the number that is really its own. */
  lemma AdoptsItsOwn(p: Pass, owner: Owners, c: Cid)
    requires Truth(p.rows, p.presumed, owner) && Listed(p.rows, owner, p.records)
    requires c in p.rows && p.VerdictOf(c).Adopt?
    ensures p.VerdictOf(c).no in owner && owner[p.VerdictOf(c).no] == c
  {
    var no := p.VerdictOf(c).no;
    var sig := SignatureOf(p.rows[c]);
    assert no in p.FoundFor(sig);
    FoundIsListed(p.records, Linked(p.rows), sig, no);
    var d := owner[no];
    assert OwnerOk(p.rows, p.presumed, owner, no);
    assert d in p.GroupOf(sig);
    assert c in p.GroupOf(sig);
    assert |p.GroupOf(sig) - {c}| == 0;
    assert p.GroupOf(sig) == {c};
  }

  /** A stranded order that did reach the broker is in the list, unlinked, if the list is complete. */
  lemma ReachedIsFound(p: Pass, owner: Owners, no: OrderNo)
    requires Truth(p.rows, p.presumed, owner) && Listed(p.rows, owner, p.records) && CompleteList(owner, p.records)
    requires no in owner && owner[no] in Stranded(p.rows, p.presumed)
    ensures no in p.FoundFor(SignatureOf(p.rows[owner[no]]))
  {
    var c := owner[no];
    var r :| r in p.records && r.no == no;
    assert IsRecordOf(p.rows, owner, r);
    forall d | d in p.rows && p.rows[d].no == Some(no)
      ensures !p.rows[d].inSession
    {
      assert LinkOk(p.rows, owner, d);
    }
    FoundIsListed(p.records, Linked(p.rows), SignatureOf(p.rows[c]), no);
  }

  /** Given up means it never reached the broker, if the list is complete. */
  lemma ExpiredNeverReached(p: Pass, owner: Owners, c: Cid)
    requires Truth(p.rows, p.presumed, owner) && Listed(p.rows, owner, p.records) && CompleteList(owner, p.records)
    requires c in p.rows && p.VerdictOf(c).Expire?
    ensures c !in owner.Values
  {
    if no :| no in owner && owner[no] == c {
      ReachedIsFound(p, owner, no);
    }
  }

  /** Alone in its signature and listed, a stranded order is adopted. */
  lemma {:induction false} LoneOrderIsAdopted(p: Pass, owner: Owners, no: OrderNo)
    requires Truth(p.rows, p.presumed, owner) && Listed(p.rows, owner, p.records) && CompleteList(owner, p.records)
    requires no in owner && owner[no] in Stranded(p.rows, p.presumed)
    requires forall c :: c in Stranded(p.rows, p.presumed) && SignatureOf(p.rows[c]) == SignatureOf(p.rows[owner[no]])
               ==> c == owner[no]
    ensures p.VerdictOf(owner[no]) == Adopt(no)
  {
    var c := owner[no];
    var sig := SignatureOf(p.rows[c]);
    ReachedIsFound(p, owner, no);
    assert p.GroupOf(sig) == {c};
    forall m | m in p.FoundFor(sig)
      ensures m == no
    {
      FoundIsListed(p.records, Linked(p.rows), sig, m);
      UnlinkedOwnerIsStranded(p, owner, m);
    }
    FoundOnce(p.records, Linked(p.rows), sig);
    SameTwice(p.FoundFor(sig), no);
  }

  lemma SameTwice(found: seq<OrderNo>, no: OrderNo)
    requires forall m :: m in found ==> m == no
    ensures |found| > 1 ==> found[0] == found[1]
  {
    assert |found| > 1 ==> found[0] in found && found[1] in found;
  }

  lemma UnlinkedOwnerIsStranded(p: Pass, owner: Owners, no: OrderNo)
    requires Truth(p.rows, p.presumed, owner) && no in owner && no !in Linked(p.rows)
    ensures owner[no] in Stranded(p.rows, p.presumed)
  {
    assert OwnerOk(p.rows, p.presumed, owner, no);
  }

  lemma {:induction false} FoundOnce(records: seq<Record>, linked: set<OrderNo>, sig: Signature)
    requires forall i, j :: 0 <= i < j < |records| ==> records[i].no != records[j].no
    ensures forall i, j :: 0 <= i < j < |Found(records, linked, sig)| ==>
      Found(records, linked, sig)[i] != Found(records, linked, sig)[j]
  {
    if records != [] {
      var n := |records| - 1;
      FoundOnce(records[..n], linked, sig);
      FoundIsListed(records[..n], linked, sig, records[n].no);
      assert forall r :: r in records[..n] ==> r.no != records[n].no;
    }
  }

  /**
   Exactly which passes are safe for a reached, stranded order past its grace period: it is wrongly given up if and
   only if no unlinked broker order of its signature is listed, which a complete list rules out.
   */
  lemma GivenUpExactlyWhenNothingListed(p: Pass, c: Cid)
    requires c in Stranded(p.rows, p.presumed) && p.rows[c].state.Unknown? && p.now - p.rows[c].createdAt >= p.grace
    ensures p.VerdictOf(c).Expire? <==>
      forall r :: r in p.records && RecordSignature(r) == SignatureOf(p.rows[c]) ==> r.no in Linked(p.rows)
  {
    var sig := SignatureOf(p.rows[c]);
    if p.FoundFor(sig) != [] {
      FoundIsListed(p.records, Linked(p.rows), sig, p.FoundFor(sig)[0]);
    }
    forall r | r in p.records && RecordSignature(r) == sig && r.no !in Linked(p.rows)
      ensures p.FoundFor(sig) != []
    {
      FoundIsListed(p.records, Linked(p.rows), sig, r.no);
    }
  }

  /** An unanswered leg lists nothing: an order that is live at the broker is given up. */
  lemma UnansweredLegExpiresLiveOrder()
    ensures var row := Row(Some(7), Buy, 10.0, None, Unknown, 0.0, true);
            var p := Pass(map[1 := row], {}, [], 200.0, 180.0);
            var owner := map[900 := 1];
            Truth(p.rows, p.presumed, owner) && Listed(p.rows, owner, p.records) && p.VerdictOf(1).Expire?
  {
    var row := Row(Some(7), Buy, 10.0, None, Unknown, 0.0, true);
    var p := Pass(map[1 := row], {}, [], 200.0, 180.0);
    assert p.rows[1] == row && 1 in Stranded(p.rows, p.presumed);
    assert p.FoundFor(SignatureOf(row)) == [];
  }

  // ------------------------------------------------------------------
  // Over a whole session
  // ------------------------------------------------------------------

  /** A pass keeps the truth: links stay right and every reached order stays within the resolver's reach. */
  lemma PassKeepsTruth(p: Pass, owner: Owners)
    requires Truth(p.rows, p.presumed, owner) && Listed(p.rows, owner, p.records)
    ensures Truth(p.Resolved(), p.presumed + p.Expired(), owner)
  {
    var rows := p.Resolved();
    var presumed := p.presumed + p.Expired();
    forall c | c in rows
      ensures LinkOk(rows, owner, c)
    {
      assert LinkOk(p.rows, owner, c);
      if p.VerdictOf(c).Adopt? {
        AdoptsItsOwn(p, owner, c);
      }
    }
    forall no | no in owner
      ensures OwnerOk(rows, presumed, owner, no)
    {
      assert OwnerOk(p.rows, p.presumed, owner, no);
      var c := owner[no];
      if p.VerdictOf(c).Adopt? {
        AdoptsItsOwn(p, owner, c);
      }
    }
  }

  /** No number is linked to two orders of the session. */
  lemma NoNumberTwice(rows: map<Cid, Row>, presumed: set<Cid>, owner: Owners, c: Cid, d: Cid)
    requires Truth(rows, presumed, owner) && c in rows && d in rows && rows[c].inSession && rows[d].inSession
    requires rows[c].no.Some? && rows[c].no == rows[d].no
    ensures c == d
  {
    assert LinkOk(rows, owner, c) && LinkOk(rows, owner, d);
  }

  datatype Tables = Tables(rows: map<Cid, Row>, presumed: set<Cid>, owner: Owners)

  /**
   What can happen between two passes: a submit that ends acknowledged, refused or unanswered, a stranded order the
   broker takes in late, fills and cancels of numbered orders, and the pass itself.
   */
  datatype Happening =
    | Acknowledged(c: Cid, ticker: Ticker, side: Side, qty: real, at: real, no: OrderNo)
    | RefusedSubmit(c: Cid, ticker: Ticker, side: Side, qty: real, at: real)
    | Unanswered(c: Cid, ticker: Ticker, side: Side, qty: real, at: real, reached: Option<OrderNo>)
    | TakenLate(c: Cid, no: OrderNo)
    | Progress(c: Cid, to: OrderState)
    | PassRun(records: seq<Record>, now: real, grace: real)

  ghost predicate Possible(t: Tables, h: Happening) {
    match h
    case Acknowledged(c, _, _, _, _, no) => c !in t.rows && no !in t.owner
    case RefusedSubmit(c, _, _, _, _) => c !in t.rows
    case Unanswered(c, _, _, _, _, reached) => c !in t.rows && (reached.Some? ==> reached.value !in t.owner)
    case TakenLate(c, no) =>
      c in t.rows && t.rows[c].inSession && IsStranded(t.rows, t.presumed, c) && no !in t.owner && c !in t.owner.Values
    case Progress(c, to) => c in t.rows && t.rows[c].no.Some?
    case PassRun(records, _, _) => Listed(t.rows, t.owner, records)
  }

  function Then(t: Tables, h: Happening): Tables {
    match h
    case Acknowledged(c, ticker, side, qty, at, no) =>
      Tables(t.rows[c := Row(Some(ticker), side, qty, Some(no), New, at, true)], t.presumed, t.owner[no := c])
    case RefusedSubmit(c, ticker, side, qty, at) =>
      t.(rows := t.rows[c := Row(Some(ticker), side, qty, None, Rejected, at, true)])
    case Unanswered(c, ticker, side, qty, at, reached) =>
      Tables(t.rows[c := Row(Some(ticker), side, qty, None, Unknown, at, true)], t.presumed,
             if reached.Some? then t.owner[reached.value := c] else t.owner)
    case TakenLate(c, no) => t.(owner := t.owner[no := c])
    case Progress(c, to) => if c in t.rows then t.(rows := t.rows[c := t.rows[c].(state := to)]) else t
    case PassRun(records, now, grace) =>
      var p := Pass(t.rows, t.presumed, records, now, grace);
      Tables(p.Resolved(), t.presumed + p.Expired(), t.owner)
  }

  ghost predicate Sound(t: Tables) {
    Truth(t.rows, t.presumed, t.owner) && t.owner.Values <= t.rows.Keys
  }

  lemma HappeningKeepsTruth(t: Tables, h: Happening)
    requires Sound(t) && Possible(t, h)
    ensures Sound(Then(t, h))
  {
    if h.PassRun? {
      var p := Pass(t.rows, t.presumed, h.records, h.now, h.grace);
      PassKeepsTruth(p, t.owner);
    } else {
      OtherHappeningsKeepTruth(t, h);
    }
  }

  lemma OtherHappeningsKeepTruth(t: Tables, h: Happening)
    requires Sound(t) && Possible(t, h) && !h.PassRun?
    ensures Sound(Then(t, h))
  {
    var t' := Then(t, h);
    forall no | no in t'.owner
      ensures OwnerOk(t'.rows, t'.presumed, t'.owner, no)
    {
      assert no in t.owner ==> OwnerOk(t.rows, t.presumed, t.owner, no);
    }
    forall c | c in t'.rows
      ensures LinkOk(t'.rows, t'.owner, c)
    {
      assert c in t.rows ==> LinkOk(t.rows, t.owner, c);
    }
  }

  ghost predicate IsSession(ts: seq<Tables>, hs: seq<Happening>) {
    && |ts| == |hs| + 1
    && ts[0].owner == map[] && (forall c :: c in ts[0].rows ==> !ts[0].rows[c].inSession)
    && (forall i :: 0 <= i < |hs| ==> Leads(ts[i], hs[i], ts[i + 1]))
  }

  ghost predicate Leads(t: Tables, h: Happening, t': Tables) {
    Possible(t, h) && t' == Then(t, h)
  }

  lemma {:induction false} SessionIsSound(ts: seq<Tables>, hs: seq<Happening>, n: nat)
    requires IsSession(ts, hs) && n < |ts|
    ensures Sound(ts[n])
    decreases n
  {
    if n > 0 {
      SessionIsSound(ts, hs, n - 1);
      assert Leads(ts[n - 1], hs[n - 1], ts[n - 1 + 1]);
      HappeningKeepsTruth(ts[n - 1], hs[n - 1]);
    }
  }

  /** In every session, at every moment: linked numbers are the orders' own, and none is linked twice. */
  lemma EverySessionLinksRight(ts: seq<Tables>, hs: seq<Happening>, n: nat, c: Cid, d: Cid)
    requires IsSession(ts, hs) && n < |ts|
    requires c in ts[n].rows && ts[n].rows[c].inSession && ts[n].rows[c].no.Some?
    requires d in ts[n].rows && ts[n].rows[d].inSession && ts[n].rows[d].no == ts[n].rows[c].no
    ensures ts[n].rows[c].no.value in ts[n].owner && ts[n].owner[ts[n].rows[c].no.value] == c == d
  {
    SessionIsSound(ts, hs, n);
    assert LinkOk(ts[n].rows, ts[n].owner, c) && LinkOk(ts[n].rows, ts[n].owner, d);
  }
}
