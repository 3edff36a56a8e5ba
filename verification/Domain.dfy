/** Value types shared by the whole model: sides, order states, position states. */
module Domain {

  datatype Option<+T> = None | Some(value: T)

  datatype Side = Buy | Sell

  datatype PositionState = Watching | Holding | Scaling | Exiting | Closed | Error | Cancelled

  /** Order states as persisted in the orders table. */
  datatype OrderState = PendingNew | Unknown | New | PartiallyFilled | Filled | CancelledOrder | Rejected | Expired
  {
    /** The order may still be working at the broker, so its (lot, side) stays locked. */
    predicate IsOpen() {
      PendingNew? || Unknown? || New? || PartiallyFilled?
    }

    /** The broker has acknowledged the order, so its number is stored. */
    predicate HasNumber() {
      New? || PartiallyFilled? || Filled? || CancelledOrder?
    }

    predicate IsTerminal() {
      !IsOpen()
    }
  }

  function Min(a: real, b: real): real {
    if a <= b then a else b
  }

  function Max(a: real, b: real): real {
    if a >= b then a else b
  }
}
