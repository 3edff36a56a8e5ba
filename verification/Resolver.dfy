/**
 Recovery of orders stranded by a lost submit answer: match them, by ticker, side and quantity, with the broker's list
 of today's orders, adopt what matches one to one, and give up on what the broker does not know after a grace period.
 */
module Resolver {
  import opened Domain
  import opened FillPoller

  type Ticker = nat

  type Signature = (Ticker, Side, real)

  /** An order row joined with its position: no ticker means no position row. */
  datatype Row = Row(
    ticker: Option<Ticker>, side: Side, qty: real, no: Option<OrderNo>, state: OrderState, createdAt: real, inSession: bool)

  /** One line of the broker's list of today's orders. */
  datatype Record = Record(no: OrderNo, ticker: Ticker, side: Side, qty: real)

  predicate Adoptable(s: OrderState) {
    s.Unknown? || s.Rejected?
  }

  /** An order the resolver still cares for: stranded, or of today and given up on by the resolver itself. */
  predicate IsStranded(rows: map<Cid, Row>, presumed: set<Cid>, c: Cid)
    requires c in rows
  {
    var r := rows[c];
    && r.ticker.Some? && Adoptable(r.state) && r.no.None?
    && (r.state.Unknown? || (c in presumed && r.inSession))
  }

  function Stranded(rows: map<Cid, Row>, presumed: set<Cid>): set<Cid> {
    set c | c in rows && IsStranded(rows, presumed, c)
  }

  /** Numbers that today's orders already carry. */
  function Linked(rows: map<Cid, Row>): set<OrderNo> {
    set c | c in rows && rows[c].no.Some? && rows[c].inSession :: rows[c].no.value
  }

  function SignatureOf(r: Row): Signature
    requires r.ticker.Some?
  {
    (r.ticker.value, r.side, r.qty)
  }

  function RecordSignature(r: Record): Signature {
    (r.ticker, r.side, r.qty)
  }

  /** Unlinked broker orders of a signature, in the order listed. */
  function Found(records: seq<Record>, linked: set<OrderNo>, sig: Signature): seq<OrderNo> {
    if records == [] then [] else
    var n := |records| - 1;
    var before := Found(records[..n], linked, sig);
    if records[n].no !in linked && RecordSignature(records[n]) == sig then before + [records[n].no] else before
  }

  /** Stranded orders of a signature. */
  function Group(rows: map<Cid, Row>, presumed: set<Cid>, sig: Signature): set<Cid> {
    set c | c in Stranded(rows, presumed) && SignatureOf(rows[c]) == sig
  }

  /** What a pass decides about one order. */
  datatype Verdict = Keep | Adopt(no: OrderNo) | Expire

  function Decide(r: Row, group: set<Cid>, found: seq<OrderNo>, now: real, grace: real): Verdict {
    if |group| == 1 && |found| == 1 then Adopt(found[0])
    else if found == [] && r.state.Unknown? && now - r.createdAt >= grace then Expire
    else Keep
  }

  /** One pass: the tables it starts from, what the broker listed, the time and the grace period. */
  datatype Pass = Pass(rows: map<Cid, Row>, presumed: set<Cid>, records: seq<Record>, now: real, grace: real)
  {
    function FoundFor(sig: Signature): seq<OrderNo> {
      Found(records, Linked(rows), sig)
    }

    function GroupOf(sig: Signature): set<Cid> {
      Group(rows, presumed, sig)
    }

    function VerdictOf(c: Cid): Verdict
      requires c in rows
    {
      if c !in Stranded(rows, presumed) then Keep else
      var sig := SignatureOf(rows[c]);
      Decide(rows[c], GroupOf(sig), FoundFor(sig), now, grace)
    }

    /** All rows after the pass. */
    function Resolved(): map<Cid, Row> {
      map c | c in rows :: Judged(rows[c], VerdictOf(c))
    }

    function Expired(): set<Cid> {
      set c | c in rows && VerdictOf(c).Expire?
    }

    function Adopted(): set<Cid> {
      set c | c in rows && VerdictOf(c).Adopt?
    }
  }

  function Judged(r: Row, v: Verdict): Row {
    match v
    case Keep => r
    case Adopt(no) => r.(no := Some(no), state := New)
    case Expire => r.(state := Rejected)
  }

  /** The list seen so far, grouped by signature. */
  ghost predicate Grouped(candidates: map<Signature, seq<OrderNo>>, records: seq<Record>, linked: set<OrderNo>) {
    forall sig :: Found(records, linked, sig) == if sig in candidates then candidates[sig] else []
  }

  lemma GroupedAppend(
    candidates: map<Signature, seq<OrderNo>>, records: seq<Record>, linked: set<OrderNo>, r: Record)
    requires Grouped(candidates, records, linked)
    ensures r.no in linked ==> Grouped(candidates, records + [r], linked)
    ensures r.no !in linked ==>
      var key := RecordSignature(r);
      Grouped(candidates[key := (if key in candidates then candidates[key] else []) + [r.no]], records + [r], linked)
  {
    assert (records + [r])[..|records|] == records;
  }

  /** The stranded orders visited so far, grouped by signature. */
  ghost predicate Bundled(rows: map<Cid, Row>, bySig: map<Signature, set<Cid>>, seen: set<Cid>)
    requires seen <= rows.Keys
    requires forall c :: c in seen ==> rows[c].ticker.Some?
  {
    && (forall c :: c in seen ==> SignatureOf(rows[c]) in bySig)
    && (forall sig :: sig in bySig ==> bySig[sig] == set c | c in seen && SignatureOf(rows[c]) == sig)
  }

  /** A pass that has dealt with some of the stranded orders. */
  ghost predicate HalfWay(p: Pass, settled: set<Cid>, rows: map<Cid, Row>, adopted: set<Cid>, expired: set<Cid>) {
    && settled <= p.rows.Keys == rows.Keys
    && (forall c :: c in p.rows ==>
          rows[c] == if c in settled then Judged(p.rows[c], p.VerdictOf(c)) else p.rows[c])
    && adopted == (set c | c in settled && p.VerdictOf(c).Adopt?)
    && expired == (set c | c in settled && p.VerdictOf(c).Expire?)
  }

  lemma AdoptOne(p: Pass, settled: set<Cid>, rows: map<Cid, Row>, adopted: set<Cid>, expired: set<Cid>, c: Cid)
    requires HalfWay(p, settled, rows, adopted, expired) && c in p.rows && c !in settled && p.VerdictOf(c).Adopt?
    ensures c in rows && rows[c] == p.rows[c] && |adopted + {c}| == |adopted| + 1
    ensures HalfWay(p, settled + {c}, rows[c := Judged(rows[c], p.VerdictOf(c))], adopted + {c}, expired)
  {
    hide Pass.VerdictOf;
  }

  lemma ExpireOne(p: Pass, settled: set<Cid>, rows: map<Cid, Row>, adopted: set<Cid>, expired: set<Cid>, c: Cid)
    requires HalfWay(p, settled, rows, adopted, expired) && c in p.rows && c !in settled && p.VerdictOf(c).Expire?
    ensures c in rows && |expired + {c}| == |expired| + 1
    ensures HalfWay(p, settled + {c}, rows[c := rows[c].(state := Rejected)], adopted, expired + {c})
  {
    hide Pass.VerdictOf;
  }

  lemma UntouchedSoFar(p: Pass, settled: set<Cid>, rows: map<Cid, Row>, adopted: set<Cid>, expired: set<Cid>)
    requires HalfWay(p, settled, rows, adopted, expired)
    ensures rows.Keys == p.rows.Keys && forall c :: c in p.rows && c !in settled ==> rows[c] == p.rows[c]
  {
    hide Pass.VerdictOf;
  }

  lemma KeepAll(
    p: Pass, settled: set<Cid>, rows: map<Cid, Row>, adopted: set<Cid>, expired: set<Cid>, group: set<Cid>)
    requires HalfWay(p, settled, rows, adopted, expired) && group <= p.rows.Keys && group !! settled
    requires forall c :: c in group ==> p.VerdictOf(c).Keep?
    ensures HalfWay(p, settled + group, rows, adopted, expired)
  {
    hide Pass.VerdictOf;
  }

  lemma GroupVerdicts(p: Pass, sig: Signature)
    ensures p.GroupOf(sig) <= p.rows.Keys
    ensures forall c :: c in p.GroupOf(sig) ==>
      p.VerdictOf(c) == Decide(p.rows[c], p.GroupOf(sig), p.FoundFor(sig), p.now, p.grace)
  {
  }

  predicate GivenUp(p: Pass, c: Cid)
    requires c in p.rows
  {
    p.rows[c].state.Unknown? && p.now - p.rows[c].createdAt >= p.grace
  }

  lemma NothingFoundVerdicts(p: Pass, sig: Signature)
    requires p.FoundFor(sig) == []
    ensures p.GroupOf(sig) <= p.rows.Keys
    ensures forall c :: c in p.GroupOf(sig) ==> p.VerdictOf(c) == if GivenUp(p, c) then Expire else Keep
  {
    GroupVerdicts(p, sig);
  }

  lemma NothingSettled(p: Pass)
    ensures HalfWay(p, {}, p.rows, {}, {})
  {
  }

  lemma AllSettled(p: Pass, settled: set<Cid>, rows: map<Cid, Row>, adopted: set<Cid>, expired: set<Cid>)
    requires HalfWay(p, settled, rows, adopted, expired) && settled == Stranded(p.rows, p.presumed)
    ensures rows == p.Resolved() && adopted == p.Adopted() && expired == p.Expired()
  {
  }

  class UnknownOrderResolver {
    var rows: map<Cid, Row>
    var presumed: set<Cid>
    const grace: real

    constructor (rows: map<Cid, Row>, presumed: set<Cid>, grace: real)
      ensures this.rows == rows && this.presumed == presumed && this.grace == grace
    {
      this.rows, this.presumed, this.grace := rows, presumed, grace;
    }

    method PollOnce(records: seq<Record>, now: real) returns (resolved: nat, adopted: set<Cid>)
      modifies this
      ensures var p := old(Pass(rows, presumed, records, now, grace));
        && rows == p.Resolved() && adopted == p.Adopted() && presumed == old(presumed) + p.Expired()
        && resolved == |p.Adopted()| + |p.Expired()|
    {
      hide Decide, Found, Linked, HalfWay;
      var unknowns := Stranded(rows, presumed);
      ghost var p := Pass(rows, presumed, records, now, grace);
      resolved, adopted := 0, {};
      NothingSettled(p);
      if unknowns == {} {
        AllSettled(p, {}, rows, {}, {});
        return;
      }
      var candidates := Candidates(records, Linked(rows));
      var bySig := BySignature(unknowns);
      var todo := bySig.Keys;
      ghost var settled, expired: set<Cid> := {}, {};
      while todo != {}
        invariant todo <= bySig.Keys
        invariant settled == set c | c in unknowns && SignatureOf(p.rows[c]) !in todo
        invariant HalfWay(p, settled, rows, adopted, expired)
        invariant presumed == p.presumed + expired && resolved == |adopted| + |expired|
        decreases |todo|
      {
        var sig :| sig in todo;
        var found := if sig in candidates then candidates[sig] else [];
        var count;
        count, adopted, expired := ResolveSignature(p, sig, bySig[sig], found, now, settled, adopted, expired);
        resolved := resolved + count;
        settled := settled + bySig[sig];
        todo := todo - {sig};
      }
      AllSettled(p, settled, rows, adopted, expired);
    }

    /** One signature: adopt a lone match, expire what is not found, otherwise never guess. */
    method ResolveSignature(
      ghost p: Pass, ghost sig: Signature, group: set<Cid>, found: seq<OrderNo>, now: real,
      ghost settled: set<Cid>, adopted: set<Cid>, ghost expired: set<Cid>)
      returns (count: nat, adopted': set<Cid>, ghost expired': set<Cid>)
      requires HalfWay(p, settled, rows, adopted, expired) && p.now == now && p.grace == grace
      requires presumed == p.presumed + expired
      requires group == p.GroupOf(sig) && found == p.FoundFor(sig) && group !! settled
      modifies this
      ensures HalfWay(p, settled + group, rows, adopted', expired')
      ensures presumed == p.presumed + expired' && count == |adopted'| + |expired'| - |adopted| - |expired|
    {
      hide HalfWay, Found, Linked, Group, Stranded, IsStranded;
      GroupVerdicts(p, sig);
      count, adopted', expired' := 0, adopted, expired;
      if |group| == 1 && |found| == 1 {
        var c :| c in group;
        assert group == {c} by {
          assert |group - {c}| == 0;
        }
        assert p.VerdictOf(c) == Adopt(found[0]);
        AdoptOne(p, settled, rows, adopted, expired, c);
        rows := rows[c := rows[c].(no := Some(found[0]), state := New)];
        count, adopted' := 1, adopted + {c};
      } else if found == [] {
        count, expired' := ExpireGroup(p, sig, group, now, settled, adopted, expired);
      } else {
        KeepAll(p, settled, rows, adopted, expired, group);
      }
    }

    /** Nothing found for the signature: what is still Unknown and old enough is given up. */
    method ExpireGroup(
      ghost p: Pass, ghost sig: Signature, group: set<Cid>, now: real,
      ghost settled: set<Cid>, ghost adopted: set<Cid>, ghost expired: set<Cid>)
      returns (count: nat, ghost expired': set<Cid>)
      requires HalfWay(p, settled, rows, adopted, expired) && p.now == now && p.grace == grace
      requires presumed == p.presumed + expired
      requires group == p.GroupOf(sig) && p.FoundFor(sig) == [] && group !! settled
      modifies this
      ensures HalfWay(p, settled + group, rows, adopted, expired')
      ensures presumed == p.presumed + expired' && count == |expired'| - |expired|
    {
      hide HalfWay, Found, Linked, Group, Stranded, IsStranded;
      NothingFoundVerdicts(p, sig);
      hide Decide, Pass.VerdictOf, Pass.GroupOf, Pass.FoundFor;
      count, expired' := 0, expired;
      var rest := group;
      ghost var done := settled;
      while rest != {}
        invariant rest <= group && rest !! done && done + rest == settled + group
        invariant HalfWay(p, done, rows, adopted, expired')
        invariant presumed == p.presumed + expired' && count == |expired'| - |expired|
        decreases |rest|
      {
        var c :| c in rest;
        var n;
        n, expired' := GiveUp(p, c, now, done, adopted, expired');
        count := count + n;
        done := done + {c};
        rest := rest - {c};
      }
    }

    /** One order nothing was found for. */
    method GiveUp(
      ghost p: Pass, c: Cid, now: real, ghost settled: set<Cid>, ghost adopted: set<Cid>, ghost expired: set<Cid>)
      returns (count: nat, ghost expired': set<Cid>)
      requires HalfWay(p, settled, rows, adopted, expired) && p.now == now && p.grace == grace
      requires presumed == p.presumed + expired
      requires c in p.rows && c !in settled && p.VerdictOf(c) == if GivenUp(p, c) then Expire else Keep
      modifies this
      ensures HalfWay(p, settled + {c}, rows, adopted, expired')
      ensures presumed == p.presumed + expired' && count == |expired'| - |expired|
    {
      hide HalfWay, Pass.VerdictOf;
      UntouchedSoFar(p, settled, rows, adopted, expired);
      if rows[c].state.Unknown? && now - rows[c].createdAt >= grace {
        ExpireOne(p, settled, rows, adopted, expired, c);
        rows := rows[c := rows[c].(state := Rejected)];
        presumed := presumed + {c};
        count, expired' := 1, expired + {c};
      } else {
        KeepAll(p, settled, rows, adopted, expired, {c});
        count, expired' := 0, expired;
      }
    }

    method Candidates(records: seq<Record>, linked: set<OrderNo>) returns (candidates: map<Signature, seq<OrderNo>>)
      ensures Grouped(candidates, records, linked)
    {
      candidates := map[];
      for i := 0 to |records|
        invariant Grouped(candidates, records[..i], linked)
      {
        var r := records[i];
        GroupedAppend(candidates, records[..i], linked, r);
        assert records[..i] + [r] == records[..i + 1];
        if r.no !in linked {
          var key := RecordSignature(r);
          candidates := candidates[key := (if key in candidates then candidates[key] else []) + [r.no]];
        }
      }
      assert records[..|records|] == records;
    }

    method BySignature(unknowns: set<Cid>) returns (bySig: map<Signature, set<Cid>>)
      requires unknowns <= rows.Keys && forall c :: c in unknowns ==> rows[c].ticker.Some?
      ensures Bundled(rows, bySig, unknowns)
    {
      bySig := map[];
      var todo := unknowns;
      while todo != {}
        invariant todo <= unknowns && Bundled(rows, bySig, unknowns - todo)
        decreases |todo|
      {
        var c :| c in todo;
        var key := SignatureOf(rows[c]);
        bySig := bySig[key := (if key in bySig then bySig[key] else {}) + {c}];
        todo := todo - {c};
      }
      assert unknowns - {} == unknowns;
    }
  }
}
