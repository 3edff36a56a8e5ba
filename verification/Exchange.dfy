/**
 The broker as the engine meets it: answers may be lost, polls may fail, and working orders fill whenever they like.
 Every choice below is left open; the contracts say only what an honest broker cannot do.
 */
module Exchange {
  import opened Domain
  import opened FillPoller
  import opened Account
  import opened AccountSteps

  datatype SubmitReply = Accepted(no: OrderNo) | Refused | NoAnswer

  datatype CancelReply = CancelAccepted | CancelRefused | CancelLost

  /** A poll either fails, perhaps after some reports were handled, or answers for the legs it could reach. */
  datatype PollReply = PollFailed(handled: seq<Execution>) | PollAnswered(reports: seq<Execution>, complete: bool)

  /** A call the engine made, with the answer it saw. */
  datatype Call =
    | SubmitCall(c: Cid, qty: real, submitted: SubmitReply)
    | CancelCall(c: Cid, cancelled: CancelReply)
    | PollCall(polled: PollReply)

  lemma MovesReflexive(a: Account)
    requires Durable(a)
    ensures BrokerMoves(a, a.broker)
  {
    forall c | c in a.broker
      ensures c in a.orders && 0.0 <= a.broker[c].exec <= a.broker[c].qty
    {
      assert OrderOk(a, c);
    }
  }

  lemma MovesTransitive(a: Account, b: map<Cid, BrokerOrder>, d: map<Cid, BrokerOrder>)
    requires BrokerMoves(a, b) && BrokerMoves(a.(broker := b), d)
    ensures BrokerMoves(a, d)
  {
    var a1 := a.(broker := b);
    forall c | c in a.broker
      ensures c in d && SameOrderLater(a.broker[c], d[c])
    {
      assert SameOrderLater(a.broker[c], b[c]) && SameOrderLater(b[c], d[c]);
    }
    forall c | c in d && c !in a.broker
      ensures IsCopyOf(d[c], a, c)
    {
      if c in b {
        assert IsCopyOf(b[c], a, c) && SameOrderLater(b[c], d[c]);
      } else {
        assert IsCopyOf(d[c], a1, c);
      }
    }
  }

  lemma StoppedMove(a: Account, b: map<Cid, BrokerOrder>, c: Cid)
    requires BrokerMoves(a, b) && c in b
    ensures BrokerMoves(a, b[c := b[c].(working := false)])
  {
    var d := b[c := b[c].(working := false)];
    forall e | e in a.broker
      ensures e in d && SameOrderLater(a.broker[e], d[e])
    {
      assert SameOrderLater(a.broker[e], b[e]);
    }
  }

  lemma ExecutedMove(a: Account, b: map<Cid, BrokerOrder>, c: Cid, o: BrokerOrder)
    requires BrokerMoves(a, b) && c in b && b[c].working && SameOrderLater(b[c], o) && o.exec <= o.qty
    ensures BrokerMoves(a, b[c := o])
  {
    var d := b[c := o];
    forall e | e in a.broker
      ensures e in d && SameOrderLater(a.broker[e], d[e])
    {
      assert SameOrderLater(a.broker[e], b[e]);
    }
    forall e | e in d && e !in a.broker
      ensures IsCopyOf(d[e], a, e)
    {
      assert IsCopyOf(b[e], a, e);
    }
  }

  /** The broker forgets no order and gives it no other number. */
  lemma MovedLater(a: Account, b: map<Cid, BrokerOrder>, c: Cid)
    requires BrokerMoves(a, b) && c in a.broker
    ensures c in b && b[c].no == a.broker[c].no
  {
    assert SameOrderLater(a.broker[c], b[c]);
  }

  lemma TakenMove(a: Account, c: Cid, o: BrokerOrder)
    requires Durable(a) && c in a.orders && c !in a.broker && IsCopyOf(o, a, c) && o.exec == 0.0
    requires forall d :: d in a.broker ==> a.broker[d].no != o.no
    ensures BrokerMoves(a, a.broker[c := o])
  {
    MovesReflexive(a);
    assert OrderOk(a, c);
  }

  /** A report repeats at most what the broker has executed under that number. */
  ghost predicate TrueReport(book: map<Cid, BrokerOrder>, ex: Execution) {
    exists c :: c in book && book[c].no == ex.no && ex.qty <= book[c].exec
  }

  /** Some report carries the order's whole executed quantity. */
  ghost predicate Reported(book: map<Cid, BrokerOrder>, c: Cid, reports: seq<Execution>)
    requires c in book
  {
    exists ex :: ex in reports && ex.no == book[c].no && ex.qty >= book[c].exec
  }

  ghost predicate AllTrue(book: map<Cid, BrokerOrder>, reports: seq<Execution>) {
    forall i :: 0 <= i < |reports| ==> TrueReport(book, reports[i])
  }

  ghost predicate HonestReply(book: map<Cid, BrokerOrder>, reply: PollReply) {
    match reply
    case PollFailed(handled) => AllTrue(book, handled)
    case PollAnswered(reports, complete) =>
      && AllTrue(book, reports)
      && (forall c :: c in book && (complete || !book[c].overseas) ==> Reported(book, c, reports))
  }

  class Broker {
    var book: map<Cid, BrokerOrder>
    /** Every call so far. */
    var calls: seq<Call>

    constructor ()
      ensures book == map[] && calls == []
    {
      book, calls := map[], [];
    }

    /** Time passes: any working orders execute further or stop. */
    method Act(ghost a: Account)
      requires Durable(a) && a.broker == book
      modifies this`book
      ensures BrokerMoves(a, book)
    {
      MovesReflexive(a);
      var moves: nat :| 0 <= moves;
      for i := 0 to moves
        invariant BrokerMoves(a, book)
      {
        var c: Cid :| 0 <= c;
        var exec: real := *;
        if c in book && book[c].working && book[c].exec <= exec <= book[c].qty {
          var stays: bool := *;
          ExecutedMove(a, book, c, book[c].(exec := exec, working := stays));
          book := book[c := book[c].(exec := exec, working := stays)];
        }
      }
    }

    /** The order is taken in under a fresh number, and may execute before anyone hears of it. */
    method TakeIn(c: Cid, no: OrderNo, qty: real, overseas: bool, ghost a: Account)
      requires Durable(a) && a.broker == book
      requires c in a.orders && c !in book && IsCopyOf(BrokerOrder(no, overseas, qty, 0.0, true), a, c)
      requires forall d :: d in book ==> book[d].no != no
      modifies this`book
      ensures BrokerMoves(a, book) && c in book && book[c].no == no
    {
      hide Durable, BrokerMoves, IsCopyOf;
      var taken := BrokerOrder(no, overseas, qty, 0.0, true);
      TakenMove(a, c, taken);
      book := book[c := taken];
      ghost var b1 := book;
      BrokerKeepsDurable(a, b1);
      Act(a.(broker := b1));
      MovesTransitive(a, b1, book);
      MovedLater(a.(broker := b1), book, c);
    }

    /** A submit reaches the broker or not, and its answer arrives or not. A refusal means it was not taken in. */
    method SubmitOrder(c: Cid, qty: real, overseas: bool, ghost a: Account) returns (reply: SubmitReply)
      requires Durable(a) && a.broker == book
      requires c in a.orders && c !in book && a.orders[c].state.PendingNew? && a.orders[c].qty == qty
      requires a.orders[c].lot in a.positions && a.positions[a.orders[c].lot].overseas == overseas
      modifies this
      ensures BrokerMoves(a, book)
      ensures reply.Accepted? ==> c in book && book[c].no == reply.no
      ensures reply.Refused? ==> c !in book
      ensures calls == old(calls) + [SubmitCall(c, qty, reply)]
    {
      MovesReflexive(a);
      hide Durable, BrokerMoves;
      var no: OrderNo :| 0 <= no;
      var taken: bool := *;
      var heard: bool := *;
      if taken && forall d | d in book :: book[d].no != no {
        TakeIn(c, no, qty, overseas, a);
        reply := if heard then Accepted(no) else NoAnswer;
      } else {
        reply := if heard then Refused else NoAnswer;
      }
      calls := calls + [SubmitCall(c, qty, reply)];
    }

    /** A cancel is accepted and the order stops, refused and it does not, or lost and nobody knows. */
    method CancelOrder(c: Cid, ghost a: Account) returns (reply: CancelReply)
      requires Durable(a) && a.broker == book && c in book
      modifies this
      ensures BrokerMoves(a, book)
      ensures reply.CancelAccepted? ==> c in book && !book[c].working
      ensures calls == old(calls) + [CancelCall(c, reply)]
    {
      hide Durable, BrokerMoves;
      Act(a);
      MovedLater(a, book, c);
      var stop: bool := *;
      var heard: bool := *;
      if stop {
        StoppedMove(a, book, c);
        book := book[c := book[c].(working := false)];
        reply := if heard then CancelAccepted else CancelLost;
      } else {
        reply := if heard then CancelRefused else CancelLost;
      }
      calls := calls + [CancelCall(c, reply)];
    }

    method Poll() returns (reply: PollReply)
      modifies this`calls
      ensures HonestReply(book, reply)
      ensures calls == old(calls) + [PollCall(reply)]
    {
      reply := GetExecutions();
      calls := calls + [PollCall(reply)];
    }

    /** The execution reports of today, repeated and in any order, from the legs that answer. */
    method GetExecutions() returns (reply: PollReply)
      ensures HonestReply(book, reply)
    {
      var reports: seq<Execution> := [];
      var complete: bool := *;
      var todo := book.Keys;
      while todo != {}
        invariant todo <= book.Keys
        invariant forall ex :: ex in reports ==> TrueReport(book, ex)
        invariant forall c :: c in book && c !in todo && (complete || !book[c].overseas) ==> Reported(book, c, reports)
        decreases |todo|
      {
        var c :| c in todo;
        var price: real := *;
        var fee: real := *;
        var tax: real := *;
        var stale: real := *;
        if complete || !book[c].overseas {
          var now := Execution(book[c].no, book[c].exec, price, fee, tax);
          var before := Execution(book[c].no, Min(stale, book[c].exec), price, fee, tax);
          assert TrueReport(book, now) && TrueReport(book, before);
          ghost var earlier := reports;
          var heard: bool := *;
          reports := if heard then [now] + reports + [before] else [before] + reports + [now];
          assert now in reports && forall ex :: ex in earlier ==> ex in reports;
          assert Reported(book, c, reports);
          forall d | d in book && d !in todo && (complete || !book[d].overseas)
            ensures Reported(book, d, reports)
          {
            assert Reported(book, d, earlier);
          }
        }
        todo := todo - {c};
      }
      var handled: nat :| 0 <= handled;
      if handled <= |reports| {
        var heard: bool := *;
        reply := if heard then PollFailed(reports[..handled]) else PollAnswered(reports, complete);
      } else {
        reply := PollAnswered(reports, complete);
      }
    }
  }
}
