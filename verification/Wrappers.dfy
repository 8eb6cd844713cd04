/** Result types shared by the whole model. */
module Wrappers {

  datatype Option<+T> = None | Some(value: T)

  /** Why a hardware operation failed with the unit still there. */
  datatype Fault =
    | SlotOutOfRange
    | StillBusy
    | DiscInTheBay
    | NotAcknowledged
    | TimedOut
    | DidNotHome
    | NeverSettled
    | NotTakenBack
    | NoSerial
    | NoPackets
    | Refused

  /** `Lost` is the unit gone from the bus; every other error is a `Failed`. */
  datatype Outcome<+T> = Ok(value: T) | Lost | Failed(why: Fault) {

    predicate IsFailure() { !Ok? }

    function PropagateFailure<U>(): Outcome<U>
      requires !Ok?
    {
      if Lost? then Lost else Failed(why)
    }

    function Extract(): T
      requires Ok?
    {
      value
    }
  }
}
