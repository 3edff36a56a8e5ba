/**
 One position lot: the transition table, the fill arithmetic, and the mutable object that carries them.
 Lot and the functions on it are the specification; class PositionLot is proved against them.
 */
module Position {
  import opened Domain

  /** The transition table. Closed and Cancelled are terminal: no row leaves them. */
  predicate Allowed(from: PositionState, to: PositionState) {
    match from
    case Watching => to in {Holding, Cancelled, Error}
    case Holding => to in {Scaling, Exiting, Closed, Error}
    case Scaling => to in {Holding, Exiting, Closed, Error}
    case Exiting => to in {Closed, Holding, Error}
    case Error => to in {Holding, Exiting, Closed, Cancelled}
    case Closed => false
    case Cancelled => false
  }

  predicate IsOpenState(s: PositionState) {
    s.Holding? || s.Scaling? || s.Exiting?
  }

  datatype Lot = Lot(
    state: PositionState,
    qty: real,
    avgEntry: real,
    realizedPnl: real,
    peakPrice: real,
    barsHeld: nat,
    initialStop: Option<real>,
    originalQty: real,
    tpRungsTaken: nat,
    pendingStop: Option<real>,
    pendingOriginalQty: Option<real>)
  {
    predicate IsOpen() {
      IsOpenState(state)
    }
  }

  const NewLot := Lot(Watching, 0.0, 0.0, 0.0, 0.0, 0, None, 0.0, 0, None, None)

  datatype FillEvent = FillEvent(side: Side, qty: real, price: real, fee: real, tax: real, isAdd: bool)

  /** Cost basis after buying on top of what is held. */
  function Blend(avg: real, held: real, price: real, qty: real): real {
    if held + qty > 0.0 then (avg * held + price * qty) / (held + qty) else avg
  }

  /** Shares of a sell that were really held: only those realize profit. */
  function HeldPart(held: real, qty: real): real {
    if held > 0.0 then Min(qty, held) else 0.0
  }

  /** Profit one sale realizes, costs included. */
  function Gain(avg: real, held: real, qty: real, price: real, fee: real, tax: real): real {
    (price - avg) * HeldPart(held, qty) - fee - tax
  }

  /** The object's fields after apply_fill, also when it raised halfway. */
  function AfterFill(lot: Lot, f: FillEvent): Lot {
    if f.side.Buy? then
      var bought := lot.(qty := lot.qty + f.qty, avgEntry := Blend(lot.avgEntry, lot.qty, f.price, f.qty));
      match lot.state
      case Closed => if bought.qty > 0.0 then bought.(state := Holding) else bought
      case Watching =>
        bought.(state := Holding,
                peakPrice := if lot.peakPrice <= 0.0 then f.price else lot.peakPrice,
                initialStop := if lot.pendingStop.Some? then lot.pendingStop else lot.initialStop,
                originalQty := if lot.pendingOriginalQty.Some? then lot.pendingOriginalQty.value else f.qty)
      case Holding => if f.isAdd then bought.(state := Scaling) else bought
      case _ => bought
    else
      var left := Max(0.0, lot.qty - f.qty);
      var sold := lot.(qty := left,
                       realizedPnl := lot.realizedPnl + Gain(lot.avgEntry, lot.qty, f.qty, f.price, f.fee, f.tax));
      if left == 0.0 && Allowed(lot.state, Closed) then sold.(state := Closed) else sold
  }

  /** apply_fill raises IllegalTransition. */
  predicate FillRaises(lot: Lot, f: FillEvent) {
    f.side.Sell? && Max(0.0, lot.qty - f.qty) == 0.0 && !Allowed(lot.state, Closed)
  }

  /** State and quantity tell the same story. */
  predicate Coherent(lot: Lot) {
    && lot.state in {Watching, Holding, Scaling, Exiting, Closed}
    && (lot.IsOpen() <==> lot.qty > 0.0)
    && (!lot.IsOpen() ==> lot.qty == 0.0)
  }

  function AfterFills(lot: Lot, fills: seq<FillEvent>): Lot {
    if fills == [] then lot else AfterFill(AfterFills(lot, fills[..|fills| - 1]), fills[|fills| - 1])
  }

  /** Every sell arrives while something is held; quantities are positive. */
  predicate SellsWhileHeld(lot: Lot, fills: seq<FillEvent>) {
    forall i :: 0 <= i < |fills| ==>
      && fills[i].qty > 0.0
      && (fills[i].side.Sell? ==> AfterFills(lot, fills[..i]).qty > 0.0)
  }

  /** On a coherent lot a fill raises exactly when it sells with nothing held, and otherwise keeps the lot coherent. */
  lemma FillKeepsCoherence(lot: Lot, f: FillEvent)
    requires Coherent(lot) && f.qty > 0.0
    ensures FillRaises(lot, f) <==> f.side.Sell? && lot.qty == 0.0
    ensures !FillRaises(lot, f) ==> Coherent(AfterFill(lot, f))
    ensures !FillRaises(lot, f) ==> (AfterFill(lot, f).state.Closed? <==> f.side.Sell? && f.qty >= lot.qty)
  {
  }

  /** A run that sells only what is held does so on every prefix. */
  lemma PrefixSellsWhileHeld(lot: Lot, fills: seq<FillEvent>, n: nat)
    requires SellsWhileHeld(lot, fills) && n <= |fills|
    ensures SellsWhileHeld(lot, fills[..n])
  {
    forall i | 0 <= i < n
      ensures fills[..n][..i] == fills[..i]
    {
    }
  }

  /** Over any such run the lot stays coherent: open exactly while it holds shares. */
  lemma {:induction false} RunKeepsCoherence(lot: Lot, fills: seq<FillEvent>)
    requires Coherent(lot) && SellsWhileHeld(lot, fills)
    ensures Coherent(AfterFills(lot, fills))
    decreases |fills|
  {
    if fills != [] {
      var last := |fills| - 1;
      PrefixSellsWhileHeld(lot, fills, last);
      RunKeepsCoherence(lot, fills[..last]);
      FillKeepsCoherence(AfterFills(lot, fills[..last]), fills[last]);
    }
  }

  /** And no fill of the run raises. */
  lemma NoFillRaises(lot: Lot, fills: seq<FillEvent>, i: nat)
    requires Coherent(lot) && SellsWhileHeld(lot, fills) && i < |fills|
    ensures !FillRaises(AfterFills(lot, fills[..i]), fills[i])
  {
    PrefixSellsWhileHeld(lot, fills, i);
    RunKeepsCoherence(lot, fills[..i]);
    FillKeepsCoherence(AfterFills(lot, fills[..i]), fills[i]);
  }

  /** The object a strategy is bound to. */
  class PositionLot {
    var state: PositionState
    var qty: real
    var avgEntry: real
    var realizedPnl: real
    var peakPrice: real
    var barsHeld: nat
    var initialStop: Option<real>
    var originalQty: real
    var tpRungsTaken: nat
    var pendingStop: Option<real>
    var pendingOriginalQty: Option<real>

    ghost function View(): Lot
      reads this
    {
      Lot(state, qty, avgEntry, realizedPnl, peakPrice, barsHeld, initialStop, originalQty, tpRungsTaken,
          pendingStop, pendingOriginalQty)
    }

    constructor ()
      ensures View() == NewLot
    {
      state, qty, avgEntry, realizedPnl, peakPrice := Watching, 0.0, 0.0, 0.0, 0.0;
      barsHeld, initialStop, originalQty, tpRungsTaken := 0, None, 0.0, 0;
      pendingStop, pendingOriginalQty := None, None;
    }

    /** Refuses moves outside the table, and refuses to close while shares are held. */
    method TransitionTo(to: PositionState) returns (ok: bool)
      modifies this`state
      ensures ok == (Allowed(old(state), to) && !(to.Closed? && qty > 0.0))
      ensures state == if ok then to else old(state)
    {
      if !Allowed(state, to) {
        return false;
      }
      if to.Closed? && qty > 0.0 {
        return false;
      }
      state := to;
      return true;
    }

    /** The one way round the table: Closed becomes Holding when shares turned up after all. */
    method ReopenOrphan()
      modifies this`state
      ensures state == if old(state).Closed? && qty > 0.0 then Holding else old(state)
    {
      if state.Closed? && qty > 0.0 {
        state := Holding;
      }
    }

    method RestorePendingEntry(stop: Option<real>, original: Option<real>)
      modifies this
      ensures View() == old(View()).(pendingStop := stop, pendingOriginalQty := original)
    {
      pendingStop := stop;
      pendingOriginalQty := original;
    }

    method ApplyFill(f: FillEvent) returns (ok: bool)
      modifies this
      ensures ok == !FillRaises(old(View()), f)
      ensures View() == AfterFill(old(View()), f)
    {
      ok := true;
      if f.side.Buy? {
        var newQty := qty + f.qty;
        if newQty > 0.0 {
          avgEntry := Blend(avgEntry, qty, f.price, f.qty);
        }
        qty := newQty;
        if state.Closed? {
          ReopenOrphan();
        } else if state.Watching? {
          ok := TransitionTo(Holding);
          if peakPrice <= 0.0 {
            peakPrice := f.price;
          }
          if pendingStop.Some? {
            initialStop := pendingStop;
          }
          originalQty := if pendingOriginalQty.Some? then pendingOriginalQty.value else f.qty;
        } else if f.isAdd && state.Holding? {
          ok := TransitionTo(Scaling);
        }
      } else {
        realizedPnl := realizedPnl + Gain(avgEntry, qty, f.qty, f.price, f.fee, f.tax);
        qty := Max(0.0, qty - f.qty);
        if qty == 0.0 {
          ok := TransitionTo(Closed);
        }
      }
    }
  }
}
