/** Two legs behind one broker: the overseas one may fail without holding up the domestic one, and says so. */
module Routing {
  import opened Domain
  import opened FillPoller
  import opened Account
  import opened Exchange

  /** A leg's answer to a read; None when the call raised. */
  type Answer<T> = Option<T>

  datatype Leg = DomesticLeg | OverseasLeg

  const FailLimit: nat := 3

  /** What a poll of the executions returns: nothing if the domestic leg raised, else the reports that arrived. */
  datatype Outcome = Raised | Reports(all: seq<Execution>)

  /** The overseas leg is asked unless it failed too often in a row. */
  predicate Asked(fails: nat) {
    fails < FailLimit
  }

  function FailsAfter(fails: nat, answered: bool): nat {
    if !Asked(fails) then fails else if answered then 0 else fails + 1
  }

  class RoutingBroker {
    const hasOverseas: bool
    var overseasFail: nat
    var executionsComplete: bool

    constructor (hasOverseas: bool)
      ensures this.hasOverseas == hasOverseas && overseasFail == 0 && executionsComplete
    {
      this.hasOverseas := hasOverseas;
      overseasFail, executionsComplete := 0, true;
    }

    /** Ask the overseas leg; on failure, or while it rests, use the default. */
    method OverseasCall<T>(answer: Answer<T>, default: T) returns (result: T)
      modifies this`overseasFail
      ensures result == if Asked(old(overseasFail)) && answer.Some? then answer.value else default
      ensures overseasFail == FailsAfter(old(overseasFail), answer.Some?)
    {
      if overseasFail >= FailLimit {
        return default;
      }
      match answer
      case None =>
        overseasFail := overseasFail + 1;
        result := default;
      case Some(value) =>
        overseasFail := 0;
        result := value;
    }

    method ResumeOverseasReads()
      modifies this`overseasFail
      ensures Asked(overseasFail)
      ensures Asked(old(overseasFail)) ==> overseasFail == old(overseasFail)
      ensures !Asked(old(overseasFail)) ==> FailsAfter(overseasFail, false) >= FailLimit
    {
      if overseasFail >= FailLimit {
        overseasFail := FailLimit - 1;
      }
    }

    /** The leg of the order's market; None when there is no overseas leg for an overseas order, which raises. */
    method LegFor(overseas: bool) returns (leg: Option<Leg>)
      ensures leg == if !overseas then Some(DomesticLeg) else if hasOverseas then Some(OverseasLeg) else None
    {
      if !overseas {
        return Some(DomesticLeg);
      }
      leg := if hasOverseas then Some(OverseasLeg) else None;
    }

    /** An overseas order going out wakes the overseas reads; the order goes to the leg of its market. */
    method SubmitOrder(overseas: bool) returns (leg: Option<Leg>)
      modifies this`overseasFail
      ensures overseasFail == if overseas then 0 else old(overseasFail)
      ensures leg.None? <==> overseas && !hasOverseas
      ensures leg.Some? ==> (leg.value.OverseasLeg? <==> overseas)
    {
      if overseas {
        overseasFail := 0;
      }
      leg := LegFor(overseas);
    }

    /** Complete means exactly: there is no overseas leg, or it was asked and it answered. */
    method GetExecutions(domestic: Answer<seq<Execution>>, overseas: Answer<seq<Execution>>) returns (r: Outcome)
      modifies this
      ensures r.Raised? <==> domestic.None?
      ensures r.Raised? ==> executionsComplete == old(executionsComplete) && overseasFail == old(overseasFail)
      ensures r.Reports? ==>
        && (executionsComplete <==> !hasOverseas || (Asked(old(overseasFail)) && overseas.Some?))
        && r.all == domestic.value + (if hasOverseas && executionsComplete then overseas.value else [])
      ensures overseasFail ==
        if r.Raised? || !hasOverseas then old(overseasFail) else FailsAfter(old(overseasFail), overseas.Some?)
    {
      match domestic
      case None =>
        r := Raised;
      case Some(reports) =>
        executionsComplete := true;
        var all := reports;
        if hasOverseas {
          var before := overseasFail;
          var more := OverseasCall(overseas, []);
          all := all + more;
          if overseasFail > before || overseasFail >= FailLimit {
            executionsComplete := false;
          }
        }
        r := Reports(all);
    }
  }

  /** An answer of one leg is honest: true reports, and all executions of the orders on that leg. */
  ghost predicate HonestLeg(book: map<Cid, BrokerOrder>, overseas: bool, reports: seq<Execution>) {
    && (forall ex :: ex in reports ==> TrueReport(book, ex))
    && (forall c :: c in book && book[c].overseas == overseas ==> Reported(book, c, reports))
  }

  /**
   Barriers that wait for the overseas leg fall only when it answered: whatever the legs do, the merged answer and its
   completeness flag are an honest reply in the sense the engine relies on.
   */
  method PollIsHonest(broker: RoutingBroker, book: map<Cid, BrokerOrder>,
                      domestic: Answer<seq<Execution>>, overseas: Answer<seq<Execution>>) returns (reply: PollReply)
    requires domestic.Some? ==> HonestLeg(book, false, domestic.value)
    requires overseas.Some? ==> HonestLeg(book, true, overseas.value)
    requires broker.hasOverseas || forall c :: c in book ==> !book[c].overseas
    modifies broker
    ensures HonestReply(book, reply)
    ensures reply.PollAnswered? <==> domestic.Some?
    ensures reply.PollAnswered? && broker.hasOverseas ==> (reply.complete <==> Asked(old(broker.overseasFail)) && overseas.Some?)
  {
    var r := broker.GetExecutions(domestic, overseas);
    match r
    case Raised => reply := PollFailed([]);
    case Reports(all) =>
      reply := PollAnswered(all, broker.executionsComplete);
      forall c | c in book && (broker.executionsComplete || !book[c].overseas)
        ensures Reported(book, c, all)
      {
        var leg := if book[c].overseas then overseas.value else domestic.value;
        assert Reported(book, c, leg);
        var ex :| ex in leg && ex.no == book[c].no && ex.qty >= book[c].exec;
        assert ex in all;
      }
  }

  // ------------------------------------------------------------------
  // The breaker over a run of reads
  // ------------------------------------------------------------------

  function FailsAfterRun(fails: nat, answers: seq<bool>): nat {
    if answers == [] then fails
    else FailsAfter(FailsAfterRun(fails, answers[..|answers| - 1]), answers[|answers| - 1])
  }

  /** Reads that really reached the leg. */
  function AskedIn(fails: nat, answers: seq<bool>): nat {
    if answers == [] then 0
    else
      var before := answers[..|answers| - 1];
      AskedIn(fails, before) + if Asked(FailsAfterRun(fails, before)) then 1 else 0
  }

  /** A leg that answers nothing is asked until the limit and then left alone, however many reads follow. */
  lemma {:induction false} DeadLegIsLeftAlone(fails: nat, answers: seq<bool>)
    requires fails <= FailLimit && forall i :: 0 <= i < |answers| ==> !answers[i]
    ensures FailsAfterRun(fails, answers) == if fails + |answers| <= FailLimit then fails + |answers| else FailLimit
    ensures AskedIn(fails, answers) == FailsAfterRun(fails, answers) - fails
  {
    if answers != [] {
      DeadLegIsLeftAlone(fails, answers[..|answers| - 1]);
    }
  }

  /** A leg is given up only after the limit of failures in a row: one answer among any three reads keeps it in use. */
  lemma {:induction false} AnsweringLegStaysInUse(fails: nat, answers: seq<bool>, n: nat)
    requires Asked(fails) && n < |answers| && answers[n] && |answers| - n <= FailLimit
    requires Asked(FailsAfterRun(fails, answers[..n]))
    ensures FailsAfterRun(fails, answers) <= |answers| - n - 1 && Asked(FailsAfterRun(fails, answers))
    decreases |answers|
  {
    if n < |answers| - 1 {
      var before := answers[..|answers| - 1];
      assert before[..n] == answers[..n];
      AnsweringLegStaysInUse(fails, before, n);
    }
  }
}
