/**
 The trading service over its tables: the loops and checks through which orders are placed, cancelled, replaced,
 liquidated and recovered. What these methods owe is that every write they make is an allowed step of the protocol,
 so that the invariant, and with it every safety statement of the runs, holds after each of them.
 */
module Service {
  import opened Domain
  import opened Position
  import opened Ledgers
  import opened FillPoller
  import opened Account
  import opened AccountSteps
  import opened Engine
  import opened EngineFills
  import opened Recovery
  import opened Runs
  import opened Exchange
  import opened Reading
  import opened TickSize

  // ------------------------------------------------------------------
  // What the engine may conclude from its memory
  // ------------------------------------------------------------------

  /** No lock on a key means no open order of that key. */
  lemma NoLockNoOpen(w: World, k: LockKey)
    requires LocksOk(w.acct, w.mem) && k !in w.mem.pending
    ensures forall c :: c in w.acct.orders && KeyOf(w.acct.orders[c]) == k ==> !w.acct.orders[c].state.IsOpen()
  {
    forall c | c in w.acct.orders && KeyOf(w.acct.orders[c]) == k
      ensures !w.acct.orders[c].state.IsOpen()
    {
      assert LockFits(w.mem, w.acct.orders[c], c);
    }
  }

  /** No unread execution is left on the finished sells of a lot. */
  ghost predicate SellsRead(a: Account, l: LotId) {
    forall c :: c in a.orders && a.orders[c].lot == l && a.orders[c].side.Sell? && !a.orders[c].state.IsOpen()
      ==> Unread(a, c) <= 0.0
  }

  /** Without a barrier on the lot its finished sells have been read. */
  lemma NoBarrierMeansRead(w: World, l: LotId)
    requires Inv(w) && l !in w.mem.refreshBeforeSell && !w.mem.startupRefreshPending
    ensures SellsRead(w.acct, l)
  {
    forall c | c in w.acct.orders && w.acct.orders[c].lot == l && w.acct.orders[c].side.Sell?
               && !w.acct.orders[c].state.IsOpen()
      ensures Unread(w.acct, c) <= 0.0
    {
      assert OrderOk(w.acct, c) && BarrierFits(w.acct, w.mem, c);
    }
  }

  /** Everything executed for the lot has been read, orders without a number aside. */
  ghost predicate LotRead(a: Account, l: LotId) {
    forall c :: c in a.orders && a.orders[c].lot == l ==> ReadUp(a, c)
  }

  lemma LotReadMeansSellsRead(a: Account, l: LotId)
    requires Durable(a) && LotRead(a, l)
    ensures SellsRead(a, l)
  {
    forall c | c in a.orders && a.orders[c].lot == l && a.orders[c].side.Sell? && !a.orders[c].state.IsOpen()
      ensures Unread(a, c) <= 0.0
    {
      assert OrderOk(a, c) && ReadUp(a, c);
    }
  }

  /** The checks before a submit add up to a safe placement. */
  lemma ChecksAllowPlacement(w: World, c: Cid, l: LotId, side: Side, qty: real)
    requires Inv(w) && c !in w.acct.orders && l in w.mem.lots && qty > 0.0
    requires (l, side) !in w.mem.pending
    requires side.Sell? ==> qty <= w.mem.lots[l].qty && SellsRead(w.acct, l)
    ensures MayPlace(w.acct, c, l, side, qty)
  {
    NoLockNoOpen(w, (l, side));
    forall d | d in w.acct.orders && w.acct.orders[d].lot == l && w.acct.orders[d].side == side
      ensures !w.acct.orders[d].state.IsOpen()
    {
      assert KeyOf(w.acct.orders[d]) == (l, side);
    }
    assert Agrees(w.mem.lots[l], w.acct.positions[l]);
  }

  lemma OpenedIsTidy(orders: map<Cid, OrderRow>, n: nat)
    requires Tidy(orders, n)
    ensures n !in orders
  {
  }

  lemma AnsweredIsTidy(orders: map<Cid, OrderRow>, c: Cid, l: LotId, side: Side, qty: real, price: real, reply: SubmitReply)
    requires Tidy(orders, c)
    ensures Tidy(orders[c := AnsweredRow(l, side, qty, price, c, reply)], c + 1)
  {
  }

  /** What a poll may change: books grow and orders finish, but none appears, opens or changes hands. */
  ghost predicate Polled(w: World, w': World) {
    && w'.acct.broker == w.acct.broker && PolledAll(w.acct.orders, w'.acct.orders)
    && w'.mem.refreshBeforeSell == w.mem.refreshBeforeSell
    && w'.mem.unconfirmedBuyCancels == w.mem.unconfirmedBuyCancels
    && w'.mem.startupRefreshPending == w.mem.startupRefreshPending
    && w.mem.lots.Keys <= w'.mem.lots.Keys
  }

  ghost predicate PolledAll(before: map<Cid, OrderRow>, now: map<Cid, OrderRow>) {
    before.Keys == now.Keys && forall c :: c in before ==> PolledOrder(before[c], now[c])
  }

  lemma PolledAllTransitive(x: map<Cid, OrderRow>, y: map<Cid, OrderRow>, z: map<Cid, OrderRow>)
    requires PolledAll(x, y) && PolledAll(y, z)
    ensures PolledAll(x, z)
  {
    forall c | c in x
      ensures PolledOrder(x[c], z[c])
    {
      assert PolledOrder(x[c], y[c]) && PolledOrder(y[c], z[c]);
    }
  }

  lemma PolledAllReflexive(x: map<Cid, OrderRow>)
    ensures PolledAll(x, x)
  {
  }

  predicate PolledOrder(o: OrderRow, o': OrderRow) {
    && KeyOf(o') == KeyOf(o) && o'.no == o.no && o'.qty == o.qty && o.totals.qty <= o'.totals.qty
    && (o'.state.IsOpen() ==> o.state.IsOpen()) && (o'.state.PendingNew? ==> o.state.PendingNew?)
  }

  lemma DeliveredIsPolled(w: World, c: Cid, ex: Execution)
    requires Inv(w) && Honest(w.acct, c, ex)
    ensures Readable(w, c) && Inv(Delivered(w, c, ex)) && Polled(w, Delivered(w, c, ex))
    ensures Delivered(w, c, ex).acct.orders[c].totals.qty >= ex.qty
  {
    DeliveredKeepsInv(w, c, ex);
    DeliveredKeepsBarriers(w, c, Missing(w.acct.orders[c].totals, ex));
    OneBookedIsPolled(w.acct, Delivered(w, c, ex).acct, c, ex);
  }

  lemma OneBookedIsPolled(a: Account, b: Account, c: Cid, ex: Execution)
    requires c in a.orders && OneBooked(a, b, c, Max(a.orders[c].totals.qty, ex.qty))
    ensures PolledAll(a.orders, b.orders)
    ensures b.orders[c].totals.qty >= ex.qty
  {
  }

  lemma PolledTransitive(x: World, y: World, z: World)
    requires Polled(x, y) && Polled(y, z)
    ensures Polled(x, z)
  {
    PolledAllTransitive(x.acct.orders, y.acct.orders, z.acct.orders);
  }

  /** The books of the order have reached the report, if it is about that order. */
  predicate BooksReach(a: Account, c: Cid, ex: Execution)
    requires c in a.orders
  {
    a.orders[c].no == Some(ex.no) ==> a.orders[c].totals.qty >= ex.qty
  }

  /** The books have reached every report handled so far. */
  ghost predicate CaughtUp(a: Account, reports: seq<Execution>) {
    forall c, ex :: c in a.orders && ex in reports ==> BooksReach(a, c, ex)
  }

  lemma CaughtUpStays(a: Account, b: Account, reports: seq<Execution>)
    requires CaughtUp(a, reports) && PolledAll(a.orders, b.orders)
    ensures CaughtUp(b, reports)
  {
    forall c, ex | c in b.orders && ex in reports
      ensures BooksReach(b, c, ex)
    {
      assert PolledOrder(a.orders[c], b.orders[c]) && BooksReach(a, c, ex);
    }
  }

  /** Having caught up with all reports of the legs that answered, nothing on those legs is unread. */
  lemma CaughtUpMeansReadThrough(a: Account, reports: seq<Execution>, complete: bool)
    requires Durable(a) && CaughtUp(a, reports) && HonestReply(a.broker, PollAnswered(reports, complete))
    ensures ReadThrough(a, complete)
  {
    forall c | c in a.orders && a.orders[c].lot in a.positions && (complete || !a.positions[a.orders[c].lot].overseas)
      ensures ReadUp(a, c)
    {
      assert OrderOk(a, c);
      if a.orders[c].no.Some? {
        assert Reported(a.broker, c, reports);
        var ex :| ex in reports && ex.no == a.broker[c].no && ex.qty >= a.broker[c].exec;
        assert BooksReach(a, c, ex);
      }
    }
  }

  datatype Outcome = Submitted | NotSubmitted | Raised

  datatype CancelOutcome = Gone | Kept | Lost

  /** The last call was a submit of the order, refused. */
  predicate RefusedLast(calls: seq<Call>, c: Cid) {
    calls != [] && calls[|calls| - 1].SubmitCall? && calls[|calls| - 1].c == c && calls[|calls| - 1].submitted.Refused?
  }

  /** The last call got no answer. */
  predicate LostLast(calls: seq<Call>) {
    && calls != []
    && (calls[|calls| - 1].SubmitCall? ==> calls[|calls| - 1].submitted.NoAnswer?)
    && (calls[|calls| - 1].CancelCall? ==> calls[|calls| - 1].cancelled.CancelLost?)
    && !calls[|calls| - 1].PollCall?
  }

  /** The last call was a cancel of the order, refused. */
  predicate KeptLast(calls: seq<Call>, c: Cid) {
    calls != [] && calls[|calls| - 1] == CancelCall(c, CancelRefused)
  }

  lemma LostIsLast(calls: seq<Call>)
    ensures calls != [] && calls[|calls| - 1].CancelCall? && calls[|calls| - 1].cancelled.CancelLost? ==> LostLast(calls)
  {
  }

  /** A sell of the lot waits until what may be unread has been read. */
  predicate SellBarred(m: Memory, l: LotId) {
    l in m.refreshBeforeSell || m.startupRefreshPending
  }

  /** Why an order was not sent: nothing to trade, a standing order, an unread execution, or the broker's refusal. */
  predicate Excused(m: Memory, calls: seq<Call>, c: Cid, l: LotId, side: Side, asked: real) {
    || asked <= 0.0 || (l, side) in m.pending || RefusedLast(calls, c)
    || (side.Sell? && (SellBarred(m, l) || (l in m.lots && m.lots[l].qty <= 0.0)))
  }

  /** Exactly one order was sent, and the table has it with the broker's answer. */
  predicate SentOne(before: map<Cid, OrderRow>, now: map<Cid, OrderRow>, calls: seq<Call>,
                    c: Cid, l: LotId, side: Side, qty: real, price: real) {
    && calls != [] && calls[|calls| - 1].SubmitCall? && calls[|calls| - 1].c == c && calls[|calls| - 1].qty == qty
    && now == before[c := AnsweredRow(l, side, qty, price, c, calls[|calls| - 1].submitted)]
  }

  /** The lock of the key is free, or its order can no longer fill. */
  predicate LockFree(orders: map<Cid, OrderRow>, pending: map<LockKey, Cid>, k: LockKey) {
    k in pending ==> pending[k] !in orders || orders[pending[k]].state.IsTerminal()
  }

  /** Nothing to cancel is as good as cancelled; an order nobody knows is left alone; otherwise it is the broker's answer. */
  function CancelOutcomeOf(state: OrderState, reply: Option<CancelReply>): CancelOutcome {
    match reply
    case None => if state.IsTerminal() then Gone else Kept
    case Some(CancelAccepted) => Gone
    case Some(CancelRefused) => Kept
    case Some(CancelLost) => Lost
  }

  /** The reports a poll handed over before it ended or failed. */
  function ReportsIn(reply: PollReply): seq<Execution> {
    match reply
    case PollFailed(handled) => handled
    case PollAnswered(reports, _) => reports
  }

  /** The broker moved, and then exactly these reports were read; only barriers may differ besides. */
  ghost predicate ReadsFrom(before: World, book: map<Cid, BrokerOrder>, now: World, reports: seq<Execution>) {
    var w := before.(acct := before.acct.(broker := book));
    && Inv(w) && AllTrue(book, reports)
    && var r := ReadReports(w, reports);
       && now.acct == r.acct && now.mem.lots == r.mem.lots && now.mem.synced == r.mem.synced
       && now.mem.pending == r.mem.pending && now.mem.coMap == r.mem.coMap
  }

  /** A poll confirms a domestic lot if it answered, anything else only if all legs answered. */
  predicate Confirms(reply: PollReply, domesticLot: bool) {
    reply.PollAnswered? && (reply.complete || domesticLot)
  }

  function OverseasOf(positions: map<LotId, PositionRow>, lots: map<LotId, Lot>): set<LotId> {
    set l | l in lots && l in positions && positions[l].overseas
  }

  /** A failed poll leaves the barriers, a complete one takes them all down, an incomplete one all but the overseas ones. */
  ghost predicate BarriersFollow(before: Memory, now: Memory, reply: PollReply, overseas: set<LotId>) {
    match reply
    case PollFailed(_) => SameBarriers(before, now)
    case PollAnswered(_, complete) =>
      if complete then !now.startupRefreshPending && now.refreshBeforeSell == {} && now.unconfirmedBuyCancels == {}
      else
        && now.startupRefreshPending == before.startupRefreshPending
        && now.refreshBeforeSell == before.refreshBeforeSell * overseas
        && now.unconfirmedBuyCancels == before.unconfirmedBuyCancels * overseas
  }

  /** Lowering barriers changes nothing else. */
  lemma LoweredSameTables(before: World, book: map<Cid, BrokerOrder>, w: World, complete: bool, reports: seq<Execution>)
    requires w.mem.lots.Keys <= w.acct.positions.Keys && PolledLoosely(before, w) && ReadsFrom(before, book, w, reports)
    ensures PolledLoosely(before, Lowered(w, complete)) && ReadsFrom(before, book, Lowered(w, complete), reports)
    ensures Lowered(w, complete).acct == w.acct && Lowered(w, complete).mem.lots == w.mem.lots
  {
    hide Inv, ReadReports, PolledAll;
  }

  /** What was read through is read for every lot of a leg that answered. */
  lemma ReadLots(a: Account, complete: bool)
    requires ReadThrough(a, complete)
    ensures forall l :: l in a.positions && (complete || !a.positions[l].overseas) ==> LotRead(a, l)
  {
  }

  lemma RepliesAreTrue(book: map<Cid, BrokerOrder>, reply: PollReply)
    requires HonestReply(book, reply)
    ensures AllTrue(book, ReportsIn(reply))
  {
    hide TrueReport, Reported;
  }

  /** The broker's own moves are a step. */
  lemma BrokerStep(w: World, b: map<Cid, BrokerOrder>)
    requires Inv(w) && BrokerMoves(w.acct, b)
    ensures var w' := w.(acct := w.acct.(broker := b)); Inv(w') && Reaches(w, w')
  {
    hide Inv, Reaches, BrokerMoves;
    BrokerKeepsInv(w, b);
    ReachesNext(w, BrokerActs(b));
  }

  /** Between steps no submit is half done, and ids yet to come are fresh. */
  ghost predicate Tidy(orders: map<Cid, OrderRow>, nextId: nat) {
    forall c :: c in orders ==> c < nextId && !orders[c].state.PendingNew?
  }

  /** Old orders are as a poll or a cancel leaves them; new ones have the given key and price and are no larger than asked. */
  ghost predicate Grown(before: map<Cid, OrderRow>, now: map<Cid, OrderRow>, k: LockKey, qty: real, price: real) {
    && before.Keys <= now.Keys
    && (forall c :: c in before ==> PolledOrder(before[c], now[c]))
    && (forall c :: c in now && c !in before ==> KeyOf(now[c]) == k && now[c].qty <= qty && now[c].price == price)
  }

  lemma GrownAfterPoll(before: map<Cid, OrderRow>, mid: map<Cid, OrderRow>, now: map<Cid, OrderRow>,
                       k: LockKey, qty: real, asked: real, price: real)
    requires PolledAll(before, mid)
    requires Grown(mid, now, k, qty, price) && qty <= asked
    ensures Grown(before, now, k, asked, price)
  {
    forall c | c in before
      ensures PolledOrder(before[c], now[c])
    {
      assert PolledOrder(before[c], mid[c]) && PolledOrder(mid[c], now[c]);
    }
  }

  lemma UnchangedIsGrown(before: map<Cid, OrderRow>, now: map<Cid, OrderRow>, k: LockKey, qty: real, price: real)
    requires PolledAll(before, now)
    ensures Grown(before, now, k, qty, price)
  {
  }

  lemma PlacedIsGrown(before: map<Cid, OrderRow>, now: map<Cid, OrderRow>, l: LotId, side: Side,
                      qty: real, price: real, reply: SubmitReply)
    requires exists c :: c !in before && now == before[c := AnsweredRow(l, side, qty, price, c, reply)]
    ensures Grown(before, now, (l, side), qty, price)
  {
  }

  /** The row of a submit on its way. */
  predicate AwaitsAnswer(o: OrderRow, c: Cid) {
    o.state.PendingNew? && o.no.None? && o.createdAt == c && o.totals == Nothing
  }

  function Answered(o: OrderRow, reply: SubmitReply): OrderRow {
    AnsweredRow(o.lot, o.side, o.qty, o.price, o.createdAt, reply)
  }

  /** The row of an order whose submit has been answered, or not. */
  function AnsweredRow(l: LotId, side: Side, qty: real, price: real, c: Cid, reply: SubmitReply): OrderRow {
    OrderRow(l, side, qty, price, c, if reply.Accepted? then Some(reply.no) else None,
             match reply
             case Accepted(_) => New
             case Refused => Rejected
             case NoAnswer => Unknown,
             Nothing)
  }

  datatype IntentKind = Enter | AddOn | Trim | Exit

  /** What a strategy asks for: an absolute quantity or, for a trim, a fraction of what is held. */
  datatype Intent = Intent(kind: IntentKind, qty: Option<real>, fraction: Option<real>, takeProfit: bool)
  {
    predicate IsEntry() {
      kind.Enter? || kind.AddOn?
    }

    function Side(): Side {
      if IsEntry() then Buy else Sell
    }
  }

  /** Shares an intent means for the lot; a fractional trim never exceeds what is held. */
  function IntendedQty(intent: Intent, held: real, overseas: bool): real {
    if intent.kind.Exit? then held
    else if intent.qty.Some? then intent.qty.value
    else if intent.fraction.Some? then
      var raw := held * intent.fraction.value;
      Min(if overseas then raw else RoundDown(raw) as real, held)
    else 0.0
  }

  /** A sell asks for no more than the lot holds, if a trim's own quantity does not; an exit asks for all of it. */
  lemma SellFits(intent: Intent, held: real, overseas: bool)
    requires intent.kind.Trim? && intent.qty.Some? ==> intent.qty.value <= held
    ensures intent.kind.Exit? ==> IntendedQty(intent, held, overseas) == held
    ensures !intent.IsEntry() && IntendedQty(intent, held, overseas) > 0.0 ==> IntendedQty(intent, held, overseas) <= held
  {
  }

  class TradingService {
    /** The tables. */
    var orders: map<Cid, OrderRow>
    var positions: map<LotId, PositionRow>
    /** Memory. */
    var lots: map<LotId, Lot>
    var pending: map<LockKey, Cid>
    var coMap: map<Cid, Meta>
    var refreshBeforeSell: set<LotId>
    var unconfirmedBuyCancels: set<LotId>
    var startupRefreshPending: bool
    var synced: map<LotId, Snapshot>
    /** Source of fresh client order ids, and the creation time stored with an order. */
    var nextId: nat
    var flatAllRequested: bool
    const broker: Broker

    /** A process over existing tables; memory is empty until hydrate. */
    constructor (b: Broker, orders: map<Cid, OrderRow>, positions: map<LotId, PositionRow>, nextId: nat)
      ensures broker == b && this.orders == orders && this.positions == positions && this.nextId == nextId
      ensures Mem() == Memory(map[], map[], map[], {}, {}, false, map[]) && !flatAllRequested
    {
      broker, this.orders, this.positions, this.nextId := b, orders, positions, nextId;
      lots, pending, coMap, synced := map[], map[], map[], map[];
      refreshBeforeSell, unconfirmedBuyCancels, startupRefreshPending := {}, {}, false;
      flatAllRequested := false;
    }

    ghost function Acct(): Account
      reads this, broker
    {
      Account(broker.book, orders, positions)
    }

    ghost function Mem(): Memory
      reads this
    {
      Memory(lots, pending, coMap, refreshBeforeSell, unconfirmedBuyCancels, startupRefreshPending, synced)
    }

    ghost function State(): World
      reads this, broker
    {
      World(Acct(), Mem())
    }

    ghost predicate Valid()
      reads this, broker
    {
      Inv(State()) && Tidy(orders, nextId)
    }

    // ----------------------------------------------------------------
    // Locks
    // ----------------------------------------------------------------

    /** Free a lock whose order can no longer fill; working and unknown orders stay locked. */
    method ReleaseIfTerminal(k: LockKey) returns (free: bool)
      requires Valid()
      modifies this`pending, this`coMap
      ensures Valid()
      ensures State() == if k in old(pending) then Released(old(State()), k) else old(State())
      ensures free <==> k !in pending
      ensures free <==> LockFree(old(orders), old(pending), k)
      ensures Reaches(old(State()), State())
    {
      hide Inv, Reaches;
      ghost var w := State();
      ReachesItself(w);
      if k !in pending {
        return true;
      }
      ReleasedIsAStep(w, k);
      var c := pending[k];
      if c !in orders || orders[c].state.IsTerminal() {
        pending := pending - {k};
        coMap := coMap - {c};
        assert State() == Released(w, k);
        return true;
      }
      return false;
    }

    // ----------------------------------------------------------------
    // Fills
    // ----------------------------------------------------------------

    /** Write the lot's runtime columns unless the last write said the same. */
    method SyncRuntime(l: LotId)
      requires l in lots
      modifies this`positions, this`synced
      ensures State() == Synced(old(State()), l)
    {
      var lot := lots[l];
      var stop := lot.initialStop;
      var originalQty := lot.originalQty;
      if lot.state.Watching? {
        stop := lot.pendingStop;
        originalQty := if lot.pendingOriginalQty.Some? then lot.pendingOriginalQty.value else 0.0;
      }
      var snapshot := Snapshot(stop, lot.peakPrice, lot.tpRungsTaken, originalQty);
      if l in synced && synced[l] == snapshot {
        return;
      }
      if l !in positions {
        return;
      }
      positions := positions[l := positions[l].(
        initialStop := if stop.Some? then stop.value else 0.0,
        peakPrice := lot.peakPrice, tpRungsTaken := lot.tpRungsTaken, originalQty := originalQty)];
      synced := synced[l := snapshot];
    }

    /** Fill row, order state and position projection, in one commit. */
    method HandleFill(c: Cid, f: FillRow)
      requires c in orders && orders[c].lot in positions
      modifies this`orders, this`positions
      ensures Acct() == FillRecorded(old(Acct()), c, f)
    {
      var o := orders[c];
      var totals := Add(o.totals, f);
      var state := o.state;
      if !(state.CancelledOrder? || state.Expired?) {
        state := if totals.qty >= o.qty then Filled else PartiallyFilled;
      }
      orders := orders[c := o.(totals := totals, state := state)];
      positions := positions[o.lot := ApplyToPosition(positions[o.lot], EventOf(o.side, f, false))];
    }

    /** Find or rebuild what memory lacks for a fill the tables already have; None when nothing is left to reflect. */
    method RecoverMeta(c: Cid, f: FillRow) returns (meta: Option<Meta>)
      requires c in orders && orders[c].lot in positions && c !in coMap
      modifies this`lots, this`pending, this`coMap
      ensures old(orders[c].lot !in lots) ==> meta == None && State() == Rebuilt(old(State()), c)
      ensures old(orders[c].lot in lots) ==>
        meta.Some? && (State(), meta.value) == Recovered(old(State()), c, f) && lots == old(lots)
    {
      var o := orders[c];
      var full := MetaOf(Account(map[], orders, positions), c);
      assert full == MetaOf(Acct(), c);
      if o.lot !in lots {
        var row := positions[o.lot];
        if row.qtyFilled <= 0.0 || !IsOpenState(row.state) {
          return None;
        }
        lots := lots[o.lot := LotFromRow(row)];
        if full.filledQty < full.requestedQty && !o.state.IsTerminal() {
          coMap := coMap[c := full];
          pending := pending[(o.lot, o.side) := c];
        }
        return None;
      }
      var behind := full.(filledQty := full.filledQty - f.qty);
      if !o.state.IsTerminal() || o.state.Filled? {
        coMap := coMap[c := behind];
      }
      if o.state.IsOpen() && (o.lot, o.side) !in pending {
        pending := pending[(o.lot, o.side) := c];
      }
      return Some(behind);
    }

    /** The lot takes the fill; a completed order gives up its lock and metadata. */
    method Reflect(c: Cid, f: FillRow, meta: Meta)
      requires meta.lot in lots
      modifies this`positions, this`lots, this`pending, this`coMap, this`synced
      ensures State() == Reflected(old(State()), c, f, meta)
    {
      lots := lots[meta.lot := AfterFill(lots[meta.lot], EventOf(meta.side, f, meta.isAdd))];
      assert State() == Evaluated(old(State()), meta.lot, lots[meta.lot]);
      SyncRuntime(meta.lot);
      ghost var w1 := State();
      var key := (meta.lot, meta.side);
      var filled := meta.filledQty + f.qty;
      if filled >= meta.requestedQty {
        if key in pending && pending[key] == c {
          pending := pending - {key};
        }
        coMap := coMap - {c};
      } else if c in coMap {
        coMap := coMap[c := meta.(filledQty := filled)];
      }
      assert State() == w1.(mem := Counted(w1.mem, c, f, meta));
    }

    /** Bring one fill through the tables into memory. */
    method ReceiveFill(c: Cid, f: FillRow)
      requires c in orders && orders[c].lot in positions
      requires c in coMap ==> coMap[c].lot in lots
      modifies this`orders, this`positions, this`lots, this`pending, this`coMap, this`synced
      ensures State() == OnFill(old(State()), c, f)
    {
      HandleFill(c, f);
      if c in coMap {
        Reflect(c, f, coMap[c]);
        return;
      }
      var meta := RecoverMeta(c, f);
      if meta.Some? {
        Reflect(c, f, meta.value);
      }
    }

    // ----------------------------------------------------------------
    // Polling
    // ----------------------------------------------------------------

    /** One report: what the books of its order lack becomes a fill. A number not stored yet waits for the next poll. */
    method HandleReport(ex: Execution)
      requires Valid() && TrueReport(broker.book, ex)
      modifies this`orders, this`positions, this`lots, this`pending, this`coMap, this`synced
      ensures Valid() && Handled(old(State()), State(), ex)
      ensures State() == ReadReport(old(State()), ex)
      ensures Reaches(old(State()), State())
    {
      hide Inv, Reaches, ReadReport, OnFill, Handled, TrueReport, PolledAll;
      ghost var w := State();
      ReportIsAStep(w, ex);
      if c :| c in orders && orders[c].no == Some(ex.no) {
        ReportHandled(w, c, ex);
        var row := Missing(orders[c].totals, ex);
        if row.Some? {
          ReceiveFill(c, row.value);
        }
      } else {
        NothingToHandle(w, ex);
      }
    }

    /** Handle reports one after the other. */
    method HandleReports(reports: seq<Execution>)
      requires Valid() && AllTrue(broker.book, reports)
      modifies this`orders, this`positions, this`lots, this`pending, this`coMap, this`synced
      ensures Valid() && HandledAll(old(State()), State(), reports)
      ensures State() == ReadReports(old(State()), reports)
      ensures Reaches(old(State()), State())
    {
      hide Inv, ReadReport, Tidy, Handled, HandledAll, Reaches;
      ReachesComposes();
      ghost var start := State();
      NothingHandled(start);
      assert reports[..0] == [];
      for i := 0 to |reports|
        invariant Valid() && State().acct.broker == start.acct.broker && AllTrue(start.acct.broker, reports[..i])
        invariant HandledAll(start, State(), reports[..i])
        invariant State() == ReadReports(start, reports[..i])
        invariant Reaches(start, State())
      {
        ghost var w := State();
        assert TrueReport(broker.book, reports[i]);
        HandleReport(reports[i]);
        HandledAppend(start, w, State(), reports, i);
        ReadNext(start, reports, i);
      }
      assert reports[..|reports|] == reports;
    }

    /** Ask for the executions and handle what comes back. */
    method PollOnce() returns (reply: PollReply)
      requires Valid()
      modifies this`orders, this`positions, this`lots, this`pending, this`coMap, this`synced, broker
      ensures Valid() && PolledLoosely(old(State()), State()) && lots.Keys <= positions.Keys
      ensures broker.calls == old(broker.calls) + [PollCall(reply)] && HonestReply(broker.book, reply)
      ensures CaughtUp(Acct(), ReportsIn(reply))
      ensures ReadsFrom(old(State()), broker.book, State(), ReportsIn(reply))
      ensures Reaches(old(State()), State())
    {
      hide Inv, Reaches, ReadReports, HonestReply, Tidy, HandledAll;
      ReachesComposes();
      ghost var w := State();
      InvIsDurable(w);
      broker.Act(w.acct);
      BrokerStep(w, broker.book);
      ghost var w1 := State();
      reply := broker.Poll();
      RepliesAreTrue(broker.book, reply);
      match reply {
        case PollFailed(handled) => HandleReports(handled);
        case PollAnswered(reports, _) => HandleReports(reports);
      }
      PolledAfterMove(w, w1, State(), ReportsIn(reply));
      InvIsDurable(State());
    }

    /** After a poll: every barrier falls if all legs answered, only the domestic ones if not. */
    method LowerBarriers(complete: bool)
      requires Valid() && ReadThrough(Acct(), complete) && lots.Keys <= positions.Keys
      modifies this`refreshBeforeSell, this`unconfirmedBuyCancels, this`startupRefreshPending
      ensures Valid() && State() == Lowered(old(State()), complete)
      ensures Reaches(old(State()), State())
    {
      hide Inv, Reaches, ReadThrough, Tidy;
      ghost var w := State();
      LoweredKeepsInv(w, complete);
      ReachesNext(w, Event.LowerBarriers(complete));
      if complete {
        refreshBeforeSell := {};
        unconfirmedBuyCancels := {};
        startupRefreshPending := false;
      } else {
        var overseas := OverseasOf(positions, lots);
        assert overseas == OverseasLots(w);
        refreshBeforeSell := refreshBeforeSell * overseas;
        unconfirmedBuyCancels := unconfirmedBuyCancels * overseas;
      }
      assert State() == Lowered(w, complete);
    }

    /** One confirmed read of the executions: true if everything executed for the lot, or for all lots, is now read. */
    method RefreshFills(lot: Option<LotId>) returns (ok: bool, ghost reply: PollReply)
      requires Valid() && (lot.Some? ==> lot.value in lots)
      modifies this`orders, this`positions, this`lots, this`pending, this`coMap, this`synced
      modifies this`refreshBeforeSell, this`unconfirmedBuyCancels, this`startupRefreshPending, broker
      ensures Valid() && PolledLoosely(old(State()), State())
      ensures ok && lot.Some? ==> LotRead(Acct(), lot.value)
      ensures ok && lot.None? ==> !startupRefreshPending && unconfirmedBuyCancels == {} && refreshBeforeSell == {}
      ensures old(startupRefreshPending) && !startupRefreshPending ==> ReadThrough(Acct(), true)
      ensures broker.calls == old(broker.calls) + [PollCall(reply)]
      ensures CaughtUp(Acct(), ReportsIn(reply))
      ensures ok == Confirms(reply, lot.Some? && !(lot.value in positions && positions[lot.value].overseas))
      ensures lots.Keys <= positions.Keys
      ensures ReadsFrom(old(State()), broker.book, State(), ReportsIn(reply))
      ensures BarriersFollow(old(Mem()), Mem(), reply, OverseasOf(positions, lots))
      ensures Reaches(old(State()), State())
    {
      hide Inv, Reaches, Tidy, CaughtUp, HonestReply, PolledAll;
      ReachesComposes();
      ghost var w := State();
      var answer := PollOnce();
      reply := answer;
      if answer.PollFailed? {
        return false, reply;
      }
      ghost var w2 := State();
      PollReadsThrough(w2, answer.reports, answer.complete);
      LowerBarriers(answer.complete);
      LoweredSameTables(w, broker.book, w2, answer.complete, ReportsIn(reply));
      ReadLots(Acct(), answer.complete);
      hide ReadsFrom, LotRead, ReadThrough;
      ok := answer.complete || (lot.Some? && lot.value !in OverseasOf(positions, lots));
    }

    // ----------------------------------------------------------------
    // Cancelling
    // ----------------------------------------------------------------

    /**
     Cancel the order behind a lock. Once that is done its lock is gone and nothing of it can execute any more; but
     what it executed before may be unread, so the caller owes the lot a barrier.
     */
    method CancelPending(k: LockKey) returns (r: CancelOutcome, ghost reply: Option<CancelReply>)
      requires Valid() && k in pending
      modifies this`orders, this`pending, this`coMap, broker
      ensures PolledAll(old(orders), orders) && Tidy(orders, nextId)
      ensures r != Gone ==> Valid() && orders == old(orders) && pending == old(pending)
      ensures r == Gone ==> pending == old(pending) - {k} && Inv(Marked(State(), k))
      ensures old(pending[k]) in old(orders) && KeyOf(old(orders)[old(pending[k])]) == k
      ensures var (c, o) := (old(pending[k]), old(orders)[old(pending[k])]);
        && (reply.Some? <==> o.state.New? || o.state.PartiallyFilled?)
        && broker.calls == old(broker.calls) + (if reply.Some? then [CancelCall(c, reply.value)] else [])
        && r == CancelOutcomeOf(o.state, reply)
        && orders == if reply == Some(CancelAccepted) then old(orders)[c := o.(state := CancelledOrder)] else old(orders)
      ensures Reaches(old(State()), if r == Gone then Marked(State(), k) else State())
    {
      hide Inv, Durable, Reaches, PolledAll;
      ReachesComposes();
      ghost var w := State();
      LockedOrder(w, k);
      PolledAllReflexive(orders);
      reply := None;
      var c := pending[k];
      if orders[c].state.IsTerminal() {
        ReleasedKeepsInv(w, k);
        MarkedKeepsInv(Released(w, k), k);
        ReachesNext(w, Release(k));
        ReachesNext(Released(w, k), RaiseBarrier(k));
        pending := pending - {k};
        coMap := coMap - {c};
        return Gone, None;
      }
      if orders[c].state.Unknown? {
        return Kept, None;
      }
      var answer := AskToCancel(k, c);
      reply := Some(answer);
      r := CancelOutcomeOf(New, Some(answer));
    }

    /** The order is known to the broker: ask, and if the cancel is accepted, write it and free the lock. */
    method AskToCancel(k: LockKey, c: Cid) returns (answer: CancelReply)
      requires Valid() && k in pending && pending[k] == c && c in orders && c in broker.book && KeyOf(orders[c]) == k
      requires orders[c].state.New? || orders[c].state.PartiallyFilled?
      modifies this`orders, this`pending, this`coMap, broker
      ensures PolledAll(old(orders), orders) && Tidy(orders, nextId)
      ensures !answer.CancelAccepted? ==> Inv(State()) && pending == old(pending)
      ensures answer.CancelAccepted? ==> pending == old(pending) - {k} && Inv(Marked(State(), k))
      ensures broker.calls == old(broker.calls) + [CancelCall(c, answer)]
      ensures orders == if answer.CancelAccepted? then old(orders)[c := old(orders[c]).(state := CancelledOrder)] else old(orders)
      ensures Reaches(old(State()), if answer.CancelAccepted? then Marked(State(), k) else State())
    {
      hide Inv, Durable, Reaches, PolledAll, BrokerMoves, MayMove;
      ReachesComposes();
      ghost var w := State();
      InvIsDurable(w);
      PolledAllReflexive(orders);
      answer := broker.CancelOrder(c, w.acct);
      ghost var w1 := State();
      BrokerKeepsInv(w, broker.book);
      ReachesNext(w, BrokerActs(broker.book));
      if answer.CancelAccepted? {
        CancelIsAllowed(w1, c);
        CancelledIsPolled(orders, c);
        orders := orders[c := orders[c].(state := CancelledOrder)];
        pending := pending - {k};
        coMap := coMap - {c};
        assert Marked(State(), k) == Settled(w1, c, CancelledOrder, w1.acct.orders[c].no);
      }
    }

    // ----------------------------------------------------------------
    // Placing
    // ----------------------------------------------------------------

    /** The answer, or its absence, on the order's row; a refusal also gives the lock back. */
    method RecordOutcome(c: Cid, reply: SubmitReply)
      requires Inv(State()) && c in orders && AwaitsAnswer(orders[c], c)
      requires KeyOf(orders[c]) in pending && pending[KeyOf(orders[c])] == c
      requires reply.Accepted? ==> c in broker.book && broker.book[c].no == reply.no
      requires reply.Refused? ==> c !in broker.book
      modifies this`orders, this`pending, this`coMap
      ensures Inv(State())
      ensures orders == old(orders)[c := Answered(old(orders[c]), reply)]
      ensures pending == if reply.Refused? then old(pending) - {KeyOf(old(orders[c]))} else old(pending)
      ensures Reaches(old(State()), State())
    {
      hide Inv, Reaches;
      ReachesComposes();
      ghost var w := State();
      match reply
      case Accepted(no) =>
        SettledKeepsInv(w, c, New, Some(no));
        ReachesNext(w, Acknowledge(c));
        orders := orders[c := orders[c].(no := Some(no), state := New)];
        assert State() == Settled(w, c, New, Some(no));
      case NoAnswer =>
        SettledKeepsInv(w, c, Unknown, None);
        ReachesNext(w, TimeOut(c));
        orders := orders[c := orders[c].(state := Unknown)];
        assert State() == Settled(w, c, Unknown, None);
      case Refused =>
        SettledKeepsInv(w, c, Rejected, None);
        ReachesNext(w, Refuse(c));
        var k := KeyOf(orders[c]);
        orders := orders[c := orders[c].(state := Rejected)];
        pending := pending - {k};
        coMap := coMap - {c};
        assert State() == Settled(w, c, Rejected, None);
    }

    /** Lock, metadata and row under a fresh id, before the broker hears of the order. */
    method PersistOrder(l: LotId, side: Side, qty: real, price: real, isAdd: bool) returns (c: Cid)
      requires Valid() && l in lots && MayPlace(Acct(), nextId, l, side, qty)
      modifies this`orders, this`pending, this`coMap, this`nextId
      ensures Inv(State()) && c == old(nextId) && nextId == c + 1
      ensures orders == old(orders)[c := OrderRow(l, side, qty, price, c, None, PendingNew, Nothing)]
      ensures pending == old(pending)[(l, side) := c]
      ensures c !in old(orders) && c !in broker.book && l in positions
      ensures Reaches(old(State()), State())
    {
      hide Inv, Durable, Reaches;
      ReachesComposes();
      ghost var w := State();
      c := nextId;
      PlacedKeepsInv(w, c, l, side, qty, price, isAdd, c);
      ReachesNext(w, Place(c, l, side, qty, price, isAdd, c));
      NewOrderIsUnknownToBroker(w, c);
      nextId := nextId + 1;
      pending := pending[(l, side) := c];
      coMap := coMap[c := Meta(l, side, isAdd, qty, 0.0, price)];
      orders := orders[c := OrderRow(l, side, qty, price, c, None, PendingNew, Nothing)];
      assert State() == Placed(w, c, l, side, qty, price, isAdd, c);
    }

    /** Lock, row, broker call, outcome. A timeout keeps the lock: the order may be alive. */
    method PlaceOrder(l: LotId, side: Side, qty: real, price: real, isAdd: bool) returns (r: Outcome, ghost reply: SubmitReply)
      requires Valid() && l in lots && MayPlace(Acct(), nextId, l, side, qty)
      modifies this`orders, this`pending, this`coMap, this`nextId, broker
      ensures Valid()
      ensures orders == old(orders)[old(nextId) := AnsweredRow(l, side, qty, price, old(nextId), reply)]
      ensures (r == Submitted <==> reply.Accepted?) && (r == Raised <==> reply.NoAnswer?)
      ensures r != NotSubmitted ==> (l, side) in pending && pending[(l, side)] == old(nextId)
      ensures r == NotSubmitted ==> (l, side) !in pending
      ensures broker.calls == old(broker.calls) + [SubmitCall(old(nextId), qty, reply)]
      ensures lots == old(lots) && refreshBeforeSell == old(refreshBeforeSell) && nextId == old(nextId) + 1
      ensures unconfirmedBuyCancels == old(unconfirmedBuyCancels) && startupRefreshPending == old(startupRefreshPending)
      ensures Reaches(old(State()), State())
    {
      hide Inv, Durable, MayPlace, BrokerMoves, Reaches, Tidy;
      ReachesComposes();
      OpenedIsTidy(orders, nextId);
      ghost var before := orders;
      var c := PersistOrder(l, side, qty, price, isAdd);
      ghost var w1 := State();
      InvIsDurable(w1);
      var answer := broker.SubmitOrder(c, qty, positions[l].overseas, w1.acct);
      BrokerStep(w1, broker.book);
      RecordOutcome(c, answer);
      reply := answer;
      assert orders == before[c := AnsweredRow(l, side, qty, price, c, answer)];
      AnsweredIsTidy(before, c, l, side, qty, price, answer);
      r := match answer case Accepted(_) => Submitted case Refused => NotSubmitted case NoAnswer => Raised;
    }

    /** The limit actually sent: domestic prices are aligned to their tick. */
    function LimitPrice(l: LotId, side: Side, price: real): real
      reads this
    {
      if l in positions && positions[l].overseas then price else RoundToTick(price, side)
    }

    /** Send one order that the checks allow. */
    method Send(l: LotId, side: Side, qty: real, limit: real, isAdd: bool) returns (r: Outcome)
      requires Valid() && l in lots && MayPlace(Acct(), nextId, l, side, qty)
      modifies this`orders, this`pending, this`coMap, this`nextId, broker
      ensures Valid() && SentOne(old(orders), orders, broker.calls, old(nextId), l, side, qty, limit)
      ensures Grown(old(orders), orders, (l, side), qty, limit)
      ensures r == Submitted ==>
        (l, side) in pending && pending[(l, side)] == old(nextId) && !RefusedLast(broker.calls, old(nextId))
      ensures r == NotSubmitted ==> RefusedLast(broker.calls, old(nextId))
      ensures old(broker.calls) <= broker.calls
      ensures r == Raised ==> LostLast(broker.calls)
      ensures Reaches(old(State()), State())
    {
      hide Inv, Durable, MayPlace, Grown, Reaches;
      ReachesComposes();
      ghost var before := orders;
      ghost var reply;
      r, reply := PlaceOrder(l, side, qty, limit, isAdd);
      assert old(nextId) !in before;
      PlacedIsGrown(before, orders, l, side, qty, limit, reply);
    }

    /** Behind a barrier: read first. Unless everything executed for the lot is now known, the barrier is still there. */
    method ReadBeforeSell(l: LotId) returns (ok: bool)
      requires Valid() && l in lots && SellBarred(Mem(), l)
      modifies this`orders, this`positions, this`lots, this`pending, this`coMap, this`synced
      modifies this`refreshBeforeSell, this`unconfirmedBuyCancels, this`startupRefreshPending, broker
      ensures Valid() && old(lots.Keys) <= lots.Keys && PolledAll(old(orders), orders)
      ensures old(broker.calls) <= broker.calls
      ensures if ok then SellsRead(Acct(), l) && LotRead(Acct(), l) else SellBarred(Mem(), l)
      ensures Reaches(old(State()), State())
    {
      hide Inv, Durable, LotRead, SellsRead, PolledAll, Reaches;
      ReachesComposes();
      ghost var reply;
      ok, reply := RefreshFills(Some(l));
      InvIsDurable(State());
      if ok {
        LotReadMeansSellsRead(Acct(), l);
      }
    }

    /**
     One order per lot and side. A sell first waits for whatever may be unread on the lot; a replacing sell first gets
     the standing order out of the way and then sells only what is left. If nothing is sent there is a reason for it.
     */
    method Submit(l: LotId, side: Side, asked: real, limit: real, isAdd: bool, replace: bool) returns (r: Outcome)
      requires Valid() && l in lots && (side.Sell? ==> asked <= lots[l].qty) && (replace ==> side.Sell?)
      modifies this, broker
      ensures Valid() && old(lots.Keys) <= lots.Keys
      ensures Grown(old(orders), orders, (l, side), asked, limit)
      ensures r == Submitted ==>
        (l, side) in pending && pending[(l, side)] == old(nextId) && !RefusedLast(broker.calls, old(nextId))
      ensures r == NotSubmitted ==> Excused(Mem(), broker.calls, old(nextId), l, side, asked)
      ensures r == Raised ==> LostLast(broker.calls)
      ensures old(asked > 0.0 && LockFree(orders, pending, (l, side)) && !(side.Sell? && SellBarred(Mem(), l))) ==>
        SentOne(old(orders), orders, broker.calls, old(nextId), l, side, asked, limit)
      ensures side.Buy? && old(asked <= 0.0 || !LockFree(orders, pending, (l, side))) ==>
        orders == old(orders) && broker.calls == old(broker.calls)
      ensures old(broker.calls) <= broker.calls
      ensures flatAllRequested == old(flatAllRequested)
      ensures Reaches(old(State()), State())
    {
      hide Inv, Durable, MayPlace, LotRead, SellsRead, PolledAll, Grown, SentOne, RefusedLast, LostLast, Reaches;
      ReachesComposes();
      var qty := asked;
      PolledAllReflexive(orders);
      UnchangedIsGrown(orders, orders, (l, side), asked, limit);
      if qty <= 0.0 {
        return NotSubmitted;
      }
      if side.Sell? && (l in refreshBeforeSell || startupRefreshPending) {
        var ok := ReadBeforeSell(l);
        UnchangedIsGrown(old(orders), orders, (l, side), asked, limit);
        if !ok {
          return NotSubmitted;
        }
        qty := Min(qty, lots[l].qty);
        if qty <= 0.0 {
          return NotSubmitted;
        }
      } else if side.Sell? {
        NoBarrierMeansRead(State(), l);
      }
      ghost var polled := orders;
      var free := ReleaseIfTerminal((l, side));
      if free {
        ChecksAllowPlacement(State(), nextId, l, side, qty);
        r := Send(l, side, qty, limit, isAdd);
      } else if replace {
        r := ReplaceSell(l, qty, limit);
      } else {
        return NotSubmitted;
      }
      GrownAfterPoll(old(orders), polled, orders, (l, side), qty, asked, limit);
    }

    /** Cancel the standing sell and read what it executed. */
    method ClearStandingSell(l: LotId) returns (r: CancelOutcome)
      requires Valid() && l in lots && (l, Sell) in pending && !LockFree(orders, pending, (l, Sell))
      modifies this`orders, this`positions, this`lots, this`pending, this`coMap, this`synced
      modifies this`refreshBeforeSell, this`unconfirmedBuyCancels, this`startupRefreshPending, broker
      ensures Valid() && old(lots.Keys) <= lots.Keys && PolledAll(old(orders), orders)
      ensures r == Gone ==> LotRead(Acct(), l) && NothingOpen(Acct(), (l, Sell))
      ensures r == Kept ==> (l, Sell) in pending || SellBarred(Mem(), l)
      ensures old(broker.calls) <= broker.calls
      ensures r == Lost ==> LostLast(broker.calls)
      ensures Reaches(old(State()), State())
    {
      hide Inv, Durable, LotRead, SellsRead, PolledAll, NothingOpen, Reaches;
      ReachesComposes();
      ghost var reply;
      r, reply := CancelPending((l, Sell));
      if r != Gone {
        return;
      }
      ghost var w := State();
      refreshBeforeSell := refreshBeforeSell + {l};
      assert State() == Marked(w, (l, Sell));
      ghost var w1 := State();
      NoLockNoOpenInv(w1, (l, Sell));
      var ok := ReadBeforeSell(l);
      PolledAllTransitive(old(orders), w1.acct.orders, orders);
      NothingOpenedByPoll(w1, State(), (l, Sell));
      if !ok {
        return Kept;
      }
    }

    /** The standing sell is cancelled, what it executed is read, and only what is left is sold again. */
    method ReplaceSell(l: LotId, asked: real, limit: real) returns (r: Outcome)
      requires Valid() && l in lots && (l, Sell) in pending && asked > 0.0 && !LockFree(orders, pending, (l, Sell))
      modifies this, broker
      ensures Valid() && old(lots.Keys) <= lots.Keys
      ensures Grown(old(orders), orders, (l, Sell), asked, limit)
      ensures r == Submitted ==>
        (l, Sell) in pending && pending[(l, Sell)] == old(nextId) && !RefusedLast(broker.calls, old(nextId))
      ensures r == NotSubmitted ==> Excused(Mem(), broker.calls, old(nextId), l, Sell, asked)
      ensures r == Raised ==> LostLast(broker.calls)
      ensures old(broker.calls) <= broker.calls
      ensures flatAllRequested == old(flatAllRequested)
      ensures Reaches(old(State()), State())
    {
      hide Inv, Durable, MayPlace, LotRead, SellsRead, PolledAll, Grown, NothingOpen, SentOne, RefusedLast, LostLast, Reaches;
      ReachesComposes();
      var cleared := ClearStandingSell(l);
      UnchangedIsGrown(old(orders), orders, (l, Sell), asked, limit);
      if cleared.Lost? {
        return Raised;
      }
      if cleared.Kept? {
        return NotSubmitted;
      }
      var qty := Min(asked, lots[l].qty);
      if qty <= 0.0 {
        return NotSubmitted;
      }
      InvIsDurable(State());
      LotReadMeansSellsRead(Acct(), l);
      ReadLotAllowsSell(State(), nextId, l, qty);
      ghost var polled := orders;
      r := Send(l, Sell, qty, limit, false);
      GrownAfterPoll(old(orders), polled, orders, (l, Sell), qty, asked, limit);
    }

    // ----------------------------------------------------------------
    // Liquidation
    // ----------------------------------------------------------------

    /**
     Before shares are sold off, the lot's standing buy is cancelled and what it executed is read. A buy still locked
     afterwards is one nobody knows the state of, or one the broker would not cancel.
     */
    method CancelOpenBuy(l: LotId) returns (raised: bool)
      requires Valid() && l in lots
      modifies this, broker
      ensures Valid() && old(lots.Keys) <= lots.Keys && PolledAll(old(orders), orders)
      ensures raised ==> LostLast(broker.calls)
      ensures !raised && (l, Buy) in pending && !(l in unconfirmedBuyCancels || LotRead(Acct(), l)) ==>
        old((l, Buy) in pending) && pending[(l, Buy)] == old(pending[(l, Buy)])
        && (orders[pending[(l, Buy)]].state.Unknown? || KeptLast(broker.calls, pending[(l, Buy)]))
      ensures !raised && old((l, Buy) in pending && !LockFree(orders, pending, (l, Buy))) && (l, Buy) !in pending ==>
        l in unconfirmedBuyCancels || LotRead(Acct(), l)
      ensures old(broker.calls) <= broker.calls
      ensures !raised ==> BuysStopped(orders, broker.calls, |old(broker.calls)|, l)
      ensures flatAllRequested == old(flatAllRequested) && nextId == old(nextId)
      ensures Reaches(old(State()), State())
    {
      hide Inv, Durable, PolledAll, LotRead, LostLast, BuysStopped, OnlySellsAdded, Reaches;
      ReachesComposes();
      PolledAllReflexive(orders);
      var free := ReleaseIfTerminal((l, Buy));
      if free {
        NothingToStop(State(), broker.calls, |broker.calls|, l);
        return false;
      }
      ghost var reply;
      var cancelled;
      cancelled, reply := CancelPending((l, Buy));
      if !cancelled.Gone? {
        LostIsLast(broker.calls);
        if cancelled.Kept? {
          InvIsDurable(State());
          NumberedMeansWorking(Acct(), pending[(l, Buy)]);
          OnlyLockedBuy(State(), broker.calls, |old(broker.calls)|, l);
        }
        return cancelled.Lost?;
      }
      ghost var mid := orders;
      ConfirmBuyCancel(l);
      PolledAllTransitive(old(orders), mid, orders);
      return false;
    }

    /** The buy is gone; until what it executed has been read, the lot is marked. */
    method ConfirmBuyCancel(l: LotId)
      requires Inv(Marked(State(), (l, Buy))) && Tidy(orders, nextId) && (l, Buy) !in pending && l in lots
      modifies this`orders, this`positions, this`lots, this`pending, this`coMap, this`synced
      modifies this`refreshBeforeSell, this`unconfirmedBuyCancels, this`startupRefreshPending, broker
      ensures Valid() && old(lots.Keys) <= lots.Keys && PolledAll(old(orders), orders)
      ensures l in unconfirmedBuyCancels || LotRead(Acct(), l)
      ensures old(broker.calls) <= broker.calls
      ensures forall since: nat :: BuysStopped(orders, broker.calls, since, l)
      ensures Reaches(Marked(old(State()), (l, Buy)), State())
    {
      hide Inv, Durable, PolledAll, LotRead, BuysStopped, OnlySellsAdded, Reaches;
      ReachesComposes();
      ghost var w := State();
      unconfirmedBuyCancels := unconfirmedBuyCancels + {l};
      assert State() == Marked(w, (l, Buy));
      ghost var (mid, stopped) := (orders, broker.calls);
      ghost var marked := State();
      var ok, _ := RefreshFills(Some(l));
      UnchangedAddsNoBuys(mid, orders);
      forall since: nat
        ensures BuysStopped(orders, broker.calls, since, l)
      {
        NothingToStop(marked, stopped, since, l);
        StoppedStays(mid, stopped, orders, broker.calls, since, l);
      }
    }

    /** Clear finished locks, so that a flat engine can find out that it is flat. */
    method ReleaseFinishedLocks()
      requires Valid()
      modifies this`pending, this`coMap
      ensures Valid()
      ensures forall k :: k in pending ==> pending[k] in orders && orders[pending[k]].state.IsOpen()
      ensures Reaches(old(State()), State())
    {
      hide Inv, Reaches;
      ReachesComposes();
      var todo := pending.Keys;
      while todo != {}
        invariant Valid() && Reaches(old(State()), State())
        invariant forall k :: k in pending && k !in todo ==> pending[k] in orders && orders[pending[k]].state.IsOpen()
        decreases |todo|
      {
        var k :| k in todo;
        var free := ReleaseIfTerminal(k);
        if !free {
          LockedOrder(State(), k);
          StillLockedIsOpen(State(), k);
        }
        todo := todo - {k};
      }
    }

    /**
     One lot of a liquidation pass: its buy is cancelled, its shares are sold at the current price. Afterwards, shares
     it still holds have a standing sell, or something unread or refused is in the way.
     */
    method FlatLot(l: LotId, lastPrice: map<LotId, real>) returns (raised: bool)
      requires Valid() && l in lots
      modifies this, broker
      ensures Valid() && old(lots.Keys) <= lots.Keys && OnlySellsAdded(old(orders), orders)
      ensures flatAllRequested == old(flatAllRequested)
      ensures old(broker.calls) <= broker.calls
      ensures !raised ==> BuysStopped(orders, broker.calls, |old(broker.calls)|, l)
      ensures raised ==> LostLast(broker.calls)
      ensures !raised && l in lots && lots[l].qty > 0.0 ==>
        (l, Sell) in pending || SellBarred(Mem(), l) || RefusedLast(broker.calls, old(nextId))
      ensures Reaches(old(State()), State())
    {
      hide Inv, Durable, PolledAll, Grown, OnlySellsAdded, LostLast, RefusedLast, LotRead, BuysStopped, Reaches;
      ReachesComposes();
      raised := CancelOpenBuy(l);
      UnchangedAddsNoBuys(old(orders), orders);
      if raised {
        return;
      }
      HoldsWhileOpen(State(), l);
      if lots[l].IsOpen() {
        var limit := LimitPrice(l, Sell, if l in lastPrice then lastPrice[l] else lots[l].avgEntry);
        var standing := (l, Sell) in pending && pending[(l, Sell)] in coMap
                        && coMap[pending[(l, Sell)]].price == limit
                        && coMap[pending[(l, Sell)]].requestedQty >= lots[l].qty;
        if !standing {
          ghost var (mid, stopped) := (orders, broker.calls);
          var qty := lots[l].qty;
          var r := Submit(l, Sell, qty, limit, false, true);
          SellIsOnlySell(mid, orders, l, qty, limit);
          AddingSellsTwice(old(orders), mid, orders);
          StoppedStays(mid, stopped, orders, broker.calls, |old(broker.calls)|, l);
          raised := r == Raised;
        }
      }
    }

    /** Finished orders give up their locks, and what is still unconfirmed is read. */
    method CleanUp()
      requires Valid()
      modifies this, broker
      ensures Valid() && OnlySellsAdded(old(orders), orders) && old(lots.Keys) <= lots.Keys
      ensures flatAllRequested == old(flatAllRequested) && old(broker.calls) <= broker.calls
      ensures Reaches(old(State()), State())
    {
      hide Inv, Durable, PolledAll, Grown, OnlySellsAdded, Reaches;
      ReachesComposes();
      ReleaseFinishedLocks();
      PolledAllReflexive(orders);
      if unconfirmedBuyCancels != {} || startupRefreshPending {
        var _, _ := RefreshFills(None);
      }
      UnchangedAddsNoBuys(old(orders), orders);
    }

    /**
     One liquidation pass over all lots, in or out of their slots. It never buys, and unless an answer was lost every
     numbered buy still open afterwards is one the broker refused to cancel in this pass.
     */
    method FlatAll(lastPrice: map<LotId, real>) returns (raised: bool)
      requires Valid()
      modifies this, broker
      ensures Valid() && OnlySellsAdded(old(orders), orders)
      ensures raised ==> LostLast(broker.calls)
      ensures !raised ==> forall l :: l in old(lots) ==> BuysStopped(orders, broker.calls, |old(broker.calls)|, l)
      ensures flatAllRequested == old(flatAllRequested)
      ensures Reaches(old(State()), State())
    {
      hide Inv, Durable, PolledAll, Grown, OnlySellsAdded, LostLast, BuysStopped, Reaches;
      ReachesComposes();
      CleanUp();
      var tracked := lots.Keys;
      while tracked != {}
        invariant Reaches(old(State()), State())
        invariant Valid() && tracked <= lots.Keys && OnlySellsAdded(old(orders), orders)
        invariant flatAllRequested == old(flatAllRequested) && old(broker.calls) <= broker.calls
        invariant forall l :: l in old(lots.Keys) - tracked ==> BuysStopped(orders, broker.calls, |old(broker.calls)|, l)
        decreases |tracked|
      {
        var l :| l in tracked;
        ghost var (before, sofar) := (orders, broker.calls);
        raised := FlatLot(l, lastPrice);
        AddingSellsTwice(old(orders), before, orders);
        if raised {
          return;
        }
        StoppedEarlier(orders, broker.calls, |old(broker.calls)|, |sofar|, l);
        AllStayStopped(before, sofar, orders, broker.calls, |old(broker.calls)|, old(lots.Keys) - tracked);
        tracked := tracked - {l};
      }
      raised := false;
    }

    /** Nothing held, nothing working, nothing unconfirmed: the engine may stop. If it says so, it is true. */
    method IsFlat() returns (flat: bool)
      requires Valid()
      ensures flat <==> Runs.IsFlat(Mem())
      ensures flat ==> BrokerIsFlat(Acct())
    {
      flat := (forall l :: l in lots ==> !(lots[l].qty > 0.0))
              && pending == map[] && unconfirmedBuyCancels == {} && !startupRefreshPending;
      if flat {
        TruthfulFlat(State());
      }
    }

    /** The kill switch on a bar: liquidate, and take the request back only when the broker is truly flat. */
    method KillSwitchBar(lastPrice: map<LotId, real>) returns (raised: bool)
      requires Valid()
      modifies this, broker
      ensures Valid() && OnlySellsAdded(old(orders), orders)
      ensures old(flatAllRequested) && !flatAllRequested ==> BrokerIsFlat(Acct())
      ensures raised ==> flatAllRequested == old(flatAllRequested)
      ensures old(flatAllRequested) && !raised ==> (flatAllRequested <==> !Runs.IsFlat(Mem()))
      ensures old(flatAllRequested) && !raised ==>
        forall l :: l in old(lots) ==> BuysStopped(orders, broker.calls, |old(broker.calls)|, l)
      ensures Reaches(old(State()), State())
    {
      hide Inv, OnlySellsAdded, BrokerIsFlat, PolledAll, BuysStopped, LostLast, Reaches;
      ReachesComposes();
      raised := false;
      if !flatAllRequested {
        PolledAllReflexive(orders);
        UnchangedAddsNoBuys(orders, orders);
        return;
      }
      raised := FlatAll(lastPrice);
      if raised {
        return;
      }
      var flat := IsFlat();
      if flat {
        flatAllRequested := false;
      }
    }

    // ----------------------------------------------------------------
    // Intents and bars
    // ----------------------------------------------------------------

    /**
     Turn an intent into at most one order. The strategy may not ask to trim more than is held; everything else is
     checked here: the lock, the caps, the risk gate, and for an exit the standing buy.
     */
    method HandleIntent(l: LotId, intent: Intent, close: real, fx: real, cap: Option<real>, gates: bool)
      returns (raised: bool)
      requires Valid() && l in lots && l in positions
      requires intent.kind.Trim? && intent.qty.Some? ==> intent.qty.value <= lots[l].qty
      modifies this, broker
      ensures Valid() && old(lots.Keys) <= lots.Keys
      ensures intent.IsEntry() && cap.Some? && cap.value >= 0.0 && fx > 0.0 && !old(positions[l].overseas) ==>
        forall c :: c in orders && c !in old(orders) ==> orders[c].price * orders[c].qty * fx <= cap.value
      ensures raised ==> LostLast(broker.calls)
      ensures intent.kind.Exit? && !raised && lots[l].qty > 0.0 && old(lots[l].qty > 0.0) ==>
        (l, Sell) in pending || SellBarred(Mem(), l) || RefusedLast(broker.calls, old(nextId))
      ensures var qty := IntendedQty(intent, old(lots[l].qty), old(positions[l].overseas));
        intent.kind.Trim? && qty > 0.0 && old(LockFree(orders, pending, (l, Sell)) && !SellBarred(Mem(), l)) ==>
        exists limit :: SentOne(old(orders), orders, broker.calls, old(nextId), l, Sell, qty, limit)
      ensures Reaches(old(State()), State())
    {
      hide Inv, Durable, PolledAll, Grown, RoundToTick, CapEntryQty, SentOne, LostLast, RefusedLast, Reaches, IntendedQty;
      ReachesComposes();
      var overseas := positions[l].overseas;
      var qty := IntendedQty(intent, lots[l].qty, overseas);
      SellFits(intent, lots[l].qty, overseas);
      if qty <= 0.0 {
        return false;
      }
      if overseas && fx <= 0.0 && intent.IsEntry() {
        return false;
      }
      var px := if overseas then close else RoundToTick(close, intent.Side());
      if intent.IsEntry() {
        raised := HandleEntry(l, intent, qty, px, fx, cap, gates);
        if cap.Some? && cap.value >= 0.0 && fx > 0.0 && !overseas {
          EntryFitsCap(old(orders), orders, l, close, qty, fx, cap.value);
        }
        return;
      }
      raised := HandleSell(l, intent, qty, px);
    }

    /** The selling half: an exit first cancels the standing buy and then sells all there is. */
    method HandleSell(l: LotId, intent: Intent, wanted: real, px: real) returns (raised: bool)
      requires Valid() && l in lots && l in positions && !intent.IsEntry() && 0.0 < wanted <= lots[l].qty
      modifies this, broker
      ensures Valid() && old(lots.Keys) <= lots.Keys
      ensures raised ==> LostLast(broker.calls)
      ensures intent.kind.Exit? && !raised && lots[l].qty > 0.0 ==>
        (l, Sell) in pending || SellBarred(Mem(), l) || RefusedLast(broker.calls, old(nextId))
      ensures var limit := if old(positions[l].overseas) then px else RoundToTick(px, Sell);
        intent.kind.Trim? && old(LockFree(orders, pending, (l, Sell)) && !SellBarred(Mem(), l)) ==>
        SentOne(old(orders), orders, broker.calls, old(nextId), l, Sell, wanted, limit)
      ensures Reaches(old(State()), State())
    {
      hide Inv, Durable, PolledAll, Grown, RoundToTick, SentOne, LostLast, RefusedLast, Reaches, Tidy, LotRead, BuysStopped;
      ReachesComposes();
      var overseas := positions[l].overseas;
      var limit := if overseas then px else RoundToTick(px, Sell);
      var qty := wanted;
      if intent.kind.Exit? {
        raised := CancelOpenBuy(l);
        if raised {
          return;
        }
        qty := lots[l].qty;
        if qty <= 0.0 {
          return;
        }
      }
      var r := Submit(l, Sell, qty, limit, false, intent.kind.Exit?);
      if r == NotSubmitted && intent.kind.Trim? && intent.takeProfit {
        GiveRungBack(l);
      }
      raised := r == Raised;
    }

    /** The trim did not go out, so its rung may fire again. */
    method GiveRungBack(l: LotId)
      requires Valid() && l in lots
      modifies this`lots
      ensures Valid() && lots == old(lots)[l := old(lots[l]).(tpRungsTaken := if old(lots[l]).tpRungsTaken == 0 then 0 else old(lots[l]).tpRungsTaken - 1)]
      ensures Reaches(old(State()), State())
    {
      hide Inv, Reaches, Tidy;
      ghost var w := State();
      var lot := lots[l].(tpRungsTaken := if lots[l].tpRungsTaken == 0 then 0 else lots[l].tpRungsTaken - 1);
      EvaluatedKeepsInv(w, l, lot);
      ReachesNext(w, Evaluate(l, lot));
      lots := lots[l := lot];
      assert State() == Evaluated(w, l, lot);
    }

    /** The entry half: skip behind a standing buy, shrink to the cap, pass the gates, buy. */
    method HandleEntry(l: LotId, intent: Intent, wanted: real, px: real, fx: real, cap: Option<real>, gates: bool)
      returns (raised: bool)
      requires Valid() && l in lots && l in positions && intent.IsEntry()
      modifies this, broker
      ensures Valid() && old(lots.Keys) <= lots.Keys
      ensures var limit := if old(positions[l].overseas) then px else RoundToTick(px, Buy);
              Grown(old(orders), orders, (l, Buy), CapEntryQty(wanted, old(positions[l].overseas), px, fx, cap), limit)
      ensures var limit := if old(positions[l].overseas) then px else RoundToTick(px, Buy);
              var capped := CapEntryQty(wanted, old(positions[l].overseas), px, fx, cap);
        if old(LockFree(orders, pending, (l, Buy))) && capped > 0.0 && gates
        then SentOne(old(orders), orders, broker.calls, old(nextId), l, Buy, capped, limit)
        else orders == old(orders) && broker.calls == old(broker.calls)
      ensures raised ==> LostLast(broker.calls)
      ensures Reaches(old(State()), State())
    {
      hide Inv, Durable, PolledAll, Grown, RoundToTick, CapEntryQty, SentOne, LostLast, Reaches;
      ReachesComposes();
      var overseas := positions[l].overseas;
      var limit := if overseas then px else RoundToTick(px, Buy);
      var capped := CapEntryQty(wanted, overseas, px, fx, cap);
      PolledAllReflexive(orders);
      UnchangedIsGrown(orders, orders, (l, Buy), capped, limit);
      var free := ReleaseIfTerminal((l, Buy));
      if !free {
        return false;
      }
      if capped < wanted && intent.kind.Enter? {
        ReachesNext(State(), Evaluate(l, lots[l].(pendingOriginalQty := Some(capped))));
        EvaluatedKeepsInv(State(), l, lots[l].(pendingOriginalQty := Some(capped)));
        lots := lots[l := lots[l].(pendingOriginalQty := Some(capped))];
      }
      if capped <= 0.0 || !gates {
        return false;
      }
      var r := Submit(l, Buy, capped, limit, intent.kind.AddOn?, false);
      raised := r == Raised;
    }

    /**
     A bar for one lot: the strategy moves runtime fields and may ask for one thing, and unless the submit was left in
     doubt the runtime columns are written at the end.
     */
    method ProcessBar(l: LotId, evaluated: Lot, intent: Option<Intent>, close: real, fx: real, cap: Option<real>, gates: bool)
      returns (raised: bool)
      requires Valid() && l in lots && l in positions && SameBooks(lots[l], evaluated)
      requires intent.Some? && intent.value.kind.Trim? && intent.value.qty.Some? ==>
        intent.value.qty.value <= lots[l].qty
      modifies this, broker
      ensures Valid() && l in lots
      ensures intent.None? ==> !raised && orders == old(orders) && lots == old(lots)[l := evaluated]
      ensures !raised ==> l in positions && RowHolds(positions[l], SnapshotOf(lots[l]))
      ensures Reaches(old(State()), State())
    {
      hide Inv, Durable, PolledAll, Grown, RoundToTick, CapEntryQty, Reaches;
      ReachesComposes();
      ReachesNext(State(), Evaluate(l, evaluated));
      EvaluatedKeepsInv(State(), l, evaluated);
      lots := lots[l := evaluated];
      raised := false;
      if intent.Some? {
        raised := HandleIntent(l, intent.value, close, fx, cap, gates);
        if raised {
          return;
        }
      }
      ReachesNext(State(), Event.SyncRuntime(l));
      SyncedKeepsInv(State(), l);
      SyncRuntime(l);
    }

    /** A new lot with its row. */
    method Spawn(l: LotId, overseas: bool)
      requires Valid() && l !in positions
      modifies this`positions, this`lots
      ensures Valid() && State() == SpawnedLot(old(State()), l, overseas)
      ensures Reaches(old(State()), State())
    {
      hide Inv, Reaches;
      ghost var w := State();
      ReachesNext(w, SpawnLot(l, overseas));
      SpawnedLotKeepsInv(w, l, overseas);
      lots := lots[l := NewLot];
      positions := positions[l := NewRow(overseas)];
      assert State() == SpawnedLot(w, l, overseas);
    }

    /** The resolver adopted an order: lock and metadata at once. */
    method RelockOrder(c: Cid)
      requires Valid()
      modifies this`pending, this`coMap
      ensures Valid()
      ensures c in orders && orders[c].state.IsOpen() ==> State() == Relocked(old(State()), c)
      ensures Reaches(old(State()), State())
    {
      hide Inv, Reaches;
      ReachesComposes();
      if c !in orders || !orders[c].state.IsOpen() {
        return;
      }
      ReachesNext(State(), Relock(c));
      RelockedKeepsInv(State(), c);
      var meta := MetaOf(Account(map[], orders, positions), c);
      assert meta == MetaOf(Acct(), c);
      pending := pending[(orders[c].lot, orders[c].side) := c];
      coMap := coMap[c := meta];
    }

    // ----------------------------------------------------------------
    // Restart
    // ----------------------------------------------------------------

    /** Submits the crash interrupted become unknown. */
    method OrphanPendingToUnknown()
      modifies this`orders
      ensures Acct() == Orphaned(old(Acct()))
    {
      ghost var before := orders;
      var todo := orders.Keys;
      while todo != {}
        invariant orders.Keys == before.Keys && todo <= before.Keys
        invariant forall c :: c in before ==>
          orders[c] == if c !in todo && before[c].state.PendingNew? then before[c].(state := Unknown) else before[c]
        decreases |todo|
      {
        var c :| c in todo;
        if orders[c].state.PendingNew? {
          orders := orders[c := orders[c].(state := Unknown)];
        }
        todo := todo - {c};
      }
      assert orders == Orphaned(old(Acct())).orders;
    }

    /** Rows that are not closed become lots. */
    method RestoreLots()
      modifies this`lots
      ensures lots.Keys == set l | l in positions && !positions[l].state.Closed?
      ensures forall l :: l in lots ==> lots[l] == LotFromRow(positions[l])
    {
      lots := map[];
      var todo := positions.Keys;
      while todo != {}
        invariant todo <= positions.Keys
        invariant lots.Keys == set l | l in positions && l !in todo && !positions[l].state.Closed?
        invariant forall l :: l in lots ==> lots[l] == LotFromRow(positions[l])
        decreases |todo|
      {
        var l :| l in todo;
        if !positions[l].state.Closed? {
          lots := lots[l := LotFromRow(positions[l])];
        }
        todo := todo - {l};
      }
    }

    /** Orders that may still be working get their lot, lock and metadata back. */
    method RestoreLocks()
      requires Durable(Acct())
      requires lots.Keys == set l | l in positions && !positions[l].state.Closed?
      requires forall l :: l in lots ==> lots[l] == LotFromRow(positions[l])
      modifies this`lots, this`pending, this`coMap
      ensures RestoredUpTo(Acct(), lots, pending, coMap, {})
    {
      hide Durable, RestoredUpTo;
      pending := map[];
      coMap := map[];
      var todo := orders.Keys;
      RestoreStarts(Acct(), lots, todo);
      while todo != {}
        invariant todo <= orders.Keys
        invariant RestoredUpTo(Acct(), lots, pending, coMap, todo)
        decreases |todo|
      {
        var c :| c in todo;
        RestoreOne(Acct(), lots, pending, coMap, todo, c);
        if orders[c].state.IsOpen() {
          var o := orders[c];
          var meta := MetaOf(Account(map[], orders, positions), c);
          assert meta == MetaOf(Acct(), c);
          if o.lot !in lots {
            lots := lots[o.lot := LotFromRow(positions[o.lot])];
          }
          pending := pending[(o.lot, o.side) := c];
          coMap := coMap[c := meta];
        }
        todo := todo - {c};
      }
    }

    /** Restart: memory from the tables, the start barrier up, and a first read of the executions. */
    method Hydrate() returns (ghost m: Memory, ghost reply: PollReply)
      requires Durable(Acct()) && forall c :: c in orders ==> c < nextId
      modifies this, broker
      ensures Valid() && IsHydrated(Orphaned(old(Acct())), m)
      ensures PolledLoosely(World(Orphaned(old(Acct())), m), State())
      ensures broker.calls == old(broker.calls) + [PollCall(reply)] && CaughtUp(Acct(), ReportsIn(reply))
      ensures ReadsFrom(World(Orphaned(old(Acct())), m), broker.book, State(), ReportsIn(reply))
      ensures BarriersFollow(m, Mem(), reply, OverseasOf(positions, lots))
      ensures Reaches(World(Orphaned(old(Acct())), m), State())
    {
      hide Inv, Durable, RestoredUpTo, IsHydrated, Orphaned, Reaches;
      ReachesComposes();
      OrphanedKeepsDurable(Acct());
      OrphanedIsTidy(Acct(), nextId);
      OrphanPendingToUnknown();
      RestoreLots();
      RestoreLocks();
      refreshBeforeSell := {};
      unconfirmedBuyCancels := {};
      synced := map[];
      startupRefreshPending := true;
      RestoredIsHydrated(Acct(), Mem());
      HydratedKeepsInv(Acct(), Mem());
      m := Mem();
      var ok;
      ok, reply := RefreshFills(None);
    }
  }

  ghost predicate Handled(w: World, w': World, ex: Execution) {
    Polled(w, w') && CaughtUp(w'.acct, [ex])
  }

  lemma NothingHandled(w: World)
    ensures HandledAll(w, w, [])
  {
  }

  lemma ReadNext(w: World, reports: seq<Execution>, i: nat)
    requires Inv(w) && i < |reports| && AllTrue(w.acct.broker, reports)
    ensures AllTrue(w.acct.broker, reports[..i]) && AllTrue(w.acct.broker, reports[..i + 1])
    ensures ReadReports(w, reports[..i + 1]) == ReadReport(ReadReports(w, reports[..i]), reports[i])
  {
    hide Inv, ReadReport, TrueReport;
    var seen := reports[..i + 1];
    assert forall j :: 0 <= j <= i ==> seen[j] == reports[j];
    assert AllTrue(w.acct.broker, seen);
    assert seen[..i] == reports[..i];
  }

  ghost predicate HandledAll(w: World, w': World, reports: seq<Execution>) {
    Polled(w, w') && CaughtUp(w'.acct, reports)
  }

  lemma HandledAppend(x: World, y: World, z: World, reports: seq<Execution>, i: nat)
    requires i < |reports| && HandledAll(x, y, reports[..i]) && Handled(y, z, reports[i])
    ensures HandledAll(x, z, reports[..i + 1])
  {
    PolledTransitive(x, y, z);
    CaughtUpStays(y.acct, z.acct, reports[..i]);
    assert reports[..i + 1] == reports[..i] + [reports[i]];
  }

  /** What handling a report amounts to, and that it stays tidy. */
  lemma ReportHandled(w: World, c: Cid, ex: Execution)
    requires Inv(w) && c in w.acct.orders && w.acct.orders[c].no == Some(ex.no) && TrueReport(w.acct.broker, ex)
    ensures Readable(w, c)
    ensures ReadReport(w, ex) == match Missing(w.acct.orders[c].totals, ex) case None => w case Some(f) => OnFill(w, c, f)
    ensures Handled(w, ReadReport(w, ex), ex)
    ensures forall n: nat :: Tidy(w.acct.orders, n) ==> Tidy(ReadReport(w, ex).acct.orders, n)
  {
    hide Inv, OnFill, TrueReport;
    InvIsDurable(w);
    NumberFindsOne(w.acct, c, ex.no);
    ReportIsHandled(w, c, ex);
    PolledStaysTidy(w, ReadReport(w, ex));
  }

  lemma PolledStaysTidy(w: World, w': World)
    requires Polled(w, w')
    ensures forall n: nat :: Tidy(w.acct.orders, n) ==> Tidy(w'.acct.orders, n)
  {
    forall n: nat | Tidy(w.acct.orders, n)
      ensures Tidy(w'.acct.orders, n)
    {
      forall c | c in w'.acct.orders
        ensures c < n && !w'.acct.orders[c].state.PendingNew?
      {
        assert PolledOrder(w.acct.orders[c], w'.acct.orders[c]);
      }
    }
  }

  lemma NothingToHandle(w: World, ex: Execution)
    requires Inv(w) && TrueReport(w.acct.broker, ex) && forall c :: c in w.acct.orders ==> w.acct.orders[c].no != Some(ex.no)
    ensures ReadReport(w, ex) == w && Handled(w, w, ex)
  {
    hide Inv, TrueReport, Delivered;
    assert OrderOf(w.acct, ex.no) == None;
    hide ReadReport;
    PolledAllReflexive(w.acct.orders);
    NotReached(w.acct, ex);
    hide PolledAll, CaughtUp;
  }

  lemma NotReached(a: Account, ex: Execution)
    requires forall c :: c in a.orders ==> a.orders[c].no != Some(ex.no)
    ensures CaughtUp(a, [ex])
  {
  }

  lemma ReportIsHandled(w: World, c: Cid, ex: Execution)
    requires Inv(w) && c in w.acct.orders && w.acct.orders[c].no == Some(ex.no) && TrueReport(w.acct.broker, ex)
    ensures Readable(w, c) && Inv(Delivered(w, c, ex)) && Handled(w, Delivered(w, c, ex), ex)
  {
    TrueReportIsHonest(w.acct, c, ex);
    DeliveredIsPolled(w, c, ex);
    NumberFindsOne(w.acct, c, ex.no);
    var a := Delivered(w, c, ex).acct;
    forall d | d in a.orders
      ensures BooksReach(a, d, ex)
    {
      assert PolledOrder(w.acct.orders[d], a.orders[d]);
    }
  }

  /** A poll, with the broker moving before it and barriers possibly lowered after it. */
  ghost predicate PolledLoosely(w: World, w': World) {
    && PolledAll(w.acct.orders, w'.acct.orders)
    && w.mem.lots.Keys <= w'.mem.lots.Keys
  }

  lemma PolledAfterMove(w: World, w1: World, w2: World, reports: seq<Execution>)
    requires w1 == w.(acct := w.acct.(broker := w1.acct.broker)) && HandledAll(w1, w2, reports)
    requires Inv(w1) && AllTrue(w1.acct.broker, reports) && w2 == ReadReports(w1, reports)
    ensures PolledLoosely(w, w2) && CaughtUp(w2.acct, reports) && ReadsFrom(w, w1.acct.broker, w2, reports)
  {
    hide Inv, ReadReports, AllTrue, CaughtUp, PolledAll;
  }

  lemma PollReadsThrough(w: World, reports: seq<Execution>, complete: bool)
    requires Inv(w) && CaughtUp(w.acct, reports) && HonestReply(w.acct.broker, PollAnswered(reports, complete))
    ensures ReadThrough(w.acct, complete)
  {
    CaughtUpMeansReadThrough(w.acct, reports, complete);
  }

  lemma ReleasedIsAStep(w: World, k: LockKey)
    requires Inv(w) && k in w.mem.pending
    ensures Inv(Released(w, k)) && Reaches(w, Released(w, k)) && w.mem.pending[k] in w.acct.orders
  {
    hide Inv, Reaches;
    LockedOrder(w, k);
    ReleasedKeepsInv(w, k);
    ReachesNext(w, Release(k));
  }

  lemma ReleasedKeepsInv(w: World, k: LockKey)
    requires Inv(w) && k in w.mem.pending
    ensures Inv(Released(w, k)) && Released(w, k).acct == w.acct
    ensures k !in Released(w, k).mem.pending <==> !w.acct.orders[w.mem.pending[k]].state.IsOpen()
  {
    ReleasedKeepsMem(w, k);
  }

  lemma CancelIsAllowed(w: World, c: Cid)
    requires Inv(w) && c in w.acct.orders && c in w.acct.broker && !w.acct.broker[c].working
    requires w.acct.orders[c].state.New? || w.acct.orders[c].state.PartiallyFilled?
    ensures Inv(Settled(w, c, CancelledOrder, w.acct.orders[c].no))
    ensures Reaches(w, Settled(w, c, CancelledOrder, w.acct.orders[c].no))
  {
    hide Inv, Reaches;
    SettledKeepsInv(w, c, CancelledOrder, w.acct.orders[c].no);
    ReachesNext(w, ConfirmCancel(c));
  }

  lemma CancelledIsPolled(orders: map<Cid, OrderRow>, c: Cid)
    requires c in orders && orders[c].state.IsOpen()
    ensures PolledAll(orders, orders[c := orders[c].(state := CancelledOrder)])
  {
  }

  lemma LockedOrder(w: World, k: LockKey)
    requires Inv(w) && k in w.mem.pending
    ensures w.mem.pending[k] in w.acct.orders && KeyOf(w.acct.orders[w.mem.pending[k]]) == k
    ensures var o := w.acct.orders[w.mem.pending[k]];
            o.state.New? || o.state.PartiallyFilled? ==> w.mem.pending[k] in w.acct.broker
  {
    assert LockNames(w.acct, w.mem, k) && OrderOk(w.acct, w.mem.pending[k]);
  }

  lemma NewOrderIsUnknownToBroker(w: World, c: Cid)
    requires Inv(w) && c !in w.acct.orders
    ensures c !in w.acct.broker
  {
  }

  /** No open order of the key. */
  ghost predicate NothingOpen(a: Account, k: LockKey) {
    forall c :: c in a.orders && KeyOf(a.orders[c]) == k ==> !a.orders[c].state.IsOpen()
  }

  lemma NoLockNoOpenInv(w: World, k: LockKey)
    requires Inv(w) && k !in w.mem.pending
    ensures NothingOpen(w.acct, k)
  {
    NoLockNoOpen(w, k);
  }

  lemma NothingOpenedByPoll(w: World, w': World, k: LockKey)
    requires PolledLoosely(w, w') && NothingOpen(w.acct, k)
    ensures NothingOpen(w'.acct, k)
  {
    forall c | c in w'.acct.orders && KeyOf(w'.acct.orders[c]) == k
      ensures !w'.acct.orders[c].state.IsOpen()
    {
      assert PolledOrder(w.acct.orders[c], w'.acct.orders[c]);
    }
  }

  lemma ReadLotAllowsSell(w: World, c: Cid, l: LotId, qty: real)
    requires Inv(w) && c !in w.acct.orders && l in w.mem.lots && 0.0 < qty <= w.mem.lots[l].qty
    requires NothingOpen(w.acct, (l, Sell)) && SellsRead(w.acct, l)
    ensures MayPlace(w.acct, c, l, Sell, qty)
  {
    forall d | d in w.acct.orders && w.acct.orders[d].lot == l && w.acct.orders[d].side.Sell?
      ensures !w.acct.orders[d].state.IsOpen()
    {
      assert KeyOf(w.acct.orders[d]) == (l, Sell);
    }
    assert Agrees(w.mem.lots[l], w.acct.positions[l]);
  }

  lemma NumberedMeansWorking(a: Account, c: Cid)
    requires Durable(a) && c in a.orders && a.orders[c].state.IsOpen()
    ensures a.orders[c].no.Some? ==> a.orders[c].state.New? || a.orders[c].state.PartiallyFilled?
  {
    assert OrderOk(a, c);
  }

  lemma HoldsWhileOpen(w: World, l: LotId)
    requires Inv(w) && l in w.mem.lots
    ensures w.mem.lots[l].IsOpen() <==> w.mem.lots[l].qty > 0.0
  {
    assert Agrees(w.mem.lots[l], w.acct.positions[l]) && RowOk(w.acct.positions[l]);
  }

  lemma StillLockedIsOpen(w: World, k: LockKey)
    requires Inv(w) && k in w.mem.pending && k in Released(w, k).mem.pending
    ensures w.mem.pending[k] in w.acct.orders && w.acct.orders[w.mem.pending[k]].state.IsOpen()
  {
    ReleasedKeepsMem(w, k);
  }

  /** Every numbered buy of the lot that is still open is one the broker refused to cancel since. */
  ghost predicate BuysStopped(orders: map<Cid, OrderRow>, calls: seq<Call>, since: nat, l: LotId) {
    forall c :: c in orders && IsNumberedBuy(orders[c], l) ==> RefusedSince(calls, since, c)
  }

  predicate IsNumberedBuy(o: OrderRow, l: LotId) {
    KeyOf(o) == (l, Buy) && o.state.IsOpen() && o.no.Some?
  }

  ghost predicate RefusedSince(calls: seq<Call>, since: nat, c: Cid) {
    exists i :: since <= i < |calls| && calls[i] == CancelCall(c, CancelRefused)
  }

  lemma NothingToStop(w: World, calls: seq<Call>, since: nat, l: LotId)
    requires (l, Buy) !in w.mem.pending && (Inv(w) || Inv(Marked(w, (l, Buy))))
    ensures BuysStopped(w.acct.orders, calls, since, l)
  {
    if Inv(w) {
      NoLockNoOpen(w, (l, Buy));
    } else {
      NoLockNoOpen(Marked(w, (l, Buy)), (l, Buy));
    }
  }

  /** The locked order is the only open one, and the broker has just refused to cancel it unless it has no number. */
  lemma OnlyLockedBuy(w: World, calls: seq<Call>, since: nat, l: LotId)
    requires Inv(w) && (l, Buy) in w.mem.pending && w.mem.pending[(l, Buy)] in w.acct.orders
    requires w.acct.orders[w.mem.pending[(l, Buy)]].no.Some? ==> since < |calls| && KeptLast(calls, w.mem.pending[(l, Buy)])
    ensures BuysStopped(w.acct.orders, calls, since, l)
  {
    forall c | c in w.acct.orders && IsNumberedBuy(w.acct.orders[c], l)
      ensures RefusedSince(calls, since, c)
    {
      assert LockFits(w.mem, w.acct.orders[c], c);
      assert calls[|calls| - 1] == CancelCall(c, CancelRefused);
    }
  }

  lemma StoppedStays(before: map<Cid, OrderRow>, calls: seq<Call>, now: map<Cid, OrderRow>, later: seq<Call>, since: nat, l: LotId)
    requires BuysStopped(before, calls, since, l) && OnlySellsAdded(before, now) && calls <= later
    ensures BuysStopped(now, later, since, l)
  {
    forall c | c in now && IsNumberedBuy(now[c], l)
      ensures RefusedSince(later, since, c)
    {
      assert c in before && PolledOrder(before[c], now[c]);
      assert RefusedSince(calls, since, c);
      var i :| since <= i < |calls| && calls[i] == CancelCall(c, CancelRefused);
      assert later[i] == calls[i];
    }
  }

  lemma AllStayStopped(
    before: map<Cid, OrderRow>, calls: seq<Call>, now: map<Cid, OrderRow>, later: seq<Call>, since: nat, ls: set<LotId>)
    requires OnlySellsAdded(before, now) && calls <= later
    requires forall l :: l in ls ==> BuysStopped(before, calls, since, l)
    ensures forall l :: l in ls ==> BuysStopped(now, later, since, l)
  {
    forall l | l in ls
      ensures BuysStopped(now, later, since, l)
    {
      StoppedStays(before, calls, now, later, since, l);
    }
  }

  lemma StoppedEarlier(orders: map<Cid, OrderRow>, calls: seq<Call>, since: nat, later: nat, l: LotId)
    requires BuysStopped(orders, calls, later, l) && since <= later
    ensures BuysStopped(orders, calls, since, l)
  {
    forall c | c in orders && IsNumberedBuy(orders[c], l)
      ensures RefusedSince(calls, since, c)
    {
      assert RefusedSince(calls, later, c);
    }
  }

  /** Old orders are as polls and cancels leave them; every new one is a sell. */
  ghost predicate OnlySellsAdded(before: map<Cid, OrderRow>, now: map<Cid, OrderRow>) {
    && before.Keys <= now.Keys
    && (forall c :: c in before ==> PolledOrder(before[c], now[c]))
    && (forall c :: c in now && c !in before ==> now[c].side.Sell?)
  }

  lemma UnchangedAddsNoBuys(before: map<Cid, OrderRow>, now: map<Cid, OrderRow>)
    requires PolledAll(before, now)
    ensures OnlySellsAdded(before, now)
  {
  }

  lemma SellIsOnlySell(before: map<Cid, OrderRow>, now: map<Cid, OrderRow>, l: LotId, qty: real, price: real)
    requires Grown(before, now, (l, Sell), qty, price)
    ensures OnlySellsAdded(before, now)
  {
    forall c | c in now && c !in before
      ensures now[c].side.Sell?
    {
      assert KeyOf(now[c]) == (l, Sell);
    }
  }

  lemma AddingSellsTwice(x: map<Cid, OrderRow>, y: map<Cid, OrderRow>, z: map<Cid, OrderRow>)
    requires OnlySellsAdded(x, y) && OnlySellsAdded(y, z)
    ensures OnlySellsAdded(x, z)
  {
    forall c | c in x
      ensures PolledOrder(x[c], z[c])
    {
      assert PolledOrder(x[c], y[c]) && PolledOrder(y[c], z[c]);
    }
    forall c | c in z && c !in x
      ensures z[c].side.Sell?
    {
      assert c in y ==> PolledOrder(y[c], z[c]);
    }
  }

  /** Whatever an entry added is priced and sized inside the cap. */
  lemma EntryFitsCap(before: map<Cid, OrderRow>, now: map<Cid, OrderRow>, l: LotId, close: real, wanted: real, fx: real, cap: real)
    requires fx > 0.0 && cap >= 0.0
    requires var px := RoundToTick(close, Buy);
             Grown(before, now, (l, Buy), CapEntryQty(wanted, false, px, fx, Some(cap)), RoundToTick(px, Buy))
    ensures forall c :: c in now && c !in before ==> now[c].price * now[c].qty * fx <= cap
  {
    hide RoundToTick, CapEntryQty;
    var px := RoundToTick(close, Buy);
    var sent := RoundToTick(px, Buy);
    CappedOrderStaysCapped(close, wanted, fx, cap);
    LandsOnTick(close, Buy);
    LandsOnTick(px, Buy);
    forall c | c in now && c !in before
      ensures now[c].price * now[c].qty * fx <= cap
    {
      SmallerFits(sent, now[c].qty, CapEntryQty(wanted, false, px, fx, Some(cap)), fx, cap);
    }
  }

  lemma SmallerFits(price: real, qty: real, most: real, fx: real, cap: real)
    requires price > 0.0 && fx > 0.0 && qty <= most && price * most * fx <= cap
    ensures price * qty * fx <= cap
  {
    Regroup(price, qty, fx);
    Regroup(price, most, fx);
    UnitPositive(price, fx);
    Scale(qty, most, price * fx);
  }

  lemma OpenOrdersHaveRows(a: Account)
    requires Durable(a)
    ensures forall c :: c in a.orders ==> a.orders[c].lot in a.positions
  {
    forall c | c in a.orders
      ensures a.orders[c].lot in a.positions
    {
      assert OrderOk(a, c);
    }
  }

  lemma OnlyOpenOfItsKey(a: Account, c: Cid)
    requires Durable(a) && c in a.orders && a.orders[c].state.IsOpen()
    ensures forall d :: d in a.orders && a.orders[d].state.IsOpen() && KeyOf(a.orders[d]) == KeyOf(a.orders[c]) ==> d == c
  {
    forall d | d in a.orders && a.orders[d].state.IsOpen() && KeyOf(a.orders[d]) == KeyOf(a.orders[c])
      ensures d == c
    {
      assert BothOpen(a, d, c);
    }
  }

  /** Memory rebuilt so far: every lot not closed, and for orders no longer to do their lot, lock and metadata. */
  ghost predicate RestoredUpTo(a: Account, lots: map<LotId, Lot>, pending: map<LockKey, Cid>, coMap: map<Cid, Meta>, todo: set<Cid>) {
    && lots.Keys <= LoadedLots(a)
    && (forall l :: l in lots ==> l in a.positions && lots[l] == LotFromRow(a.positions[l]))
    && (forall l :: l in a.positions && !a.positions[l].state.Closed? ==> l in lots)
    && (forall c :: c in a.orders && a.orders[c].state.IsOpen() && c !in todo ==> Restored(a.orders[c], lots, pending, coMap, c))
    && (forall k :: k in pending ==>
          pending[k] in a.orders && a.orders[pending[k]].state.IsOpen() && KeyOf(a.orders[pending[k]]) == k)
    && (forall c :: c in coMap ==> c in a.orders && a.orders[c].state.IsOpen() && coMap[c] == MetaOf(a, c))
  }

  predicate Restored(o: OrderRow, lots: map<LotId, Lot>, pending: map<LockKey, Cid>, coMap: map<Cid, Meta>, c: Cid) {
    o.lot in lots && KeyOf(o) in pending && pending[KeyOf(o)] == c && c in coMap
  }

  lemma RestoreStarts(a: Account, lots: map<LotId, Lot>, todo: set<Cid>)
    requires lots.Keys == set l | l in a.positions && !a.positions[l].state.Closed?
    requires forall l :: l in lots ==> lots[l] == LotFromRow(a.positions[l])
    requires todo == a.orders.Keys
    ensures RestoredUpTo(a, lots, map[], map[], todo)
  {
  }

  lemma RestoreOne(a: Account, lots: map<LotId, Lot>, pending: map<LockKey, Cid>, coMap: map<Cid, Meta>, todo: set<Cid>, c: Cid)
    requires Durable(a) && RestoredUpTo(a, lots, pending, coMap, todo) && c in todo && c in a.orders
    ensures a.orders[c].lot in a.positions
    ensures var o := a.orders[c];
            var lots' := if o.lot in lots then lots else lots[o.lot := LotFromRow(a.positions[o.lot])];
            if o.state.IsOpen() then RestoredUpTo(a, lots', pending[KeyOf(o) := c], coMap[c := MetaOf(a, c)], todo - {c})
            else RestoredUpTo(a, lots, pending, coMap, todo - {c})
  {
    OpenOrdersHaveRows(a);
    if a.orders[c].state.IsOpen() {
      OnlyOpenOfItsKey(a, c);
      RestoreOpen(a, lots, pending, coMap, todo, c);
    }
  }

  lemma RestoreOpen(a: Account, lots: map<LotId, Lot>, pending: map<LockKey, Cid>, coMap: map<Cid, Meta>, todo: set<Cid>, c: Cid)
    requires RestoredUpTo(a, lots, pending, coMap, todo) && c in todo && c in a.orders
    requires a.orders[c].state.IsOpen() && a.orders[c].lot in a.positions
    requires forall d :: d in a.orders && a.orders[d].state.IsOpen() && KeyOf(a.orders[d]) == KeyOf(a.orders[c]) ==> d == c
    ensures var o := a.orders[c];
            var lots' := if o.lot in lots then lots else lots[o.lot := LotFromRow(a.positions[o.lot])];
            RestoredUpTo(a, lots', pending[KeyOf(o) := c], coMap[c := MetaOf(a, c)], todo - {c})
  {
    var o := a.orders[c];
    var lots' := if o.lot in lots then lots else lots[o.lot := LotFromRow(a.positions[o.lot])];
    assert o.lot in LoadedLots(a);
    forall d | d in a.orders && a.orders[d].state.IsOpen() && d !in todo - {c}
      ensures Restored(a.orders[d], lots', pending[KeyOf(o) := c], coMap[c := MetaOf(a, c)], d)
    {
      assert d != c ==> Restored(a.orders[d], lots, pending, coMap, d);
    }
  }

  lemma RestoredIsHydrated(a: Account, m: Memory)
    requires RestoredUpTo(a, m.lots, m.pending, m.coMap, {})
    requires m.refreshBeforeSell == {} && m.unconfirmedBuyCancels == {} && m.startupRefreshPending && m.synced == map[]
    ensures IsHydrated(a, m)
  {
    forall c | c in a.orders && a.orders[c].state.IsOpen()
      ensures Restored(a.orders[c], m.lots, m.pending, m.coMap, c)
    {
    }
    assert m.lots.Keys == LoadedLots(a);
  }

  lemma OrphanedIsTidy(a: Account, nextId: nat)
    requires forall c :: c in a.orders ==> c < nextId
    ensures Tidy(Orphaned(a).orders, nextId)
  {
  }
}
