/** Board-level vocabulary shared by every component: the output pins of
    include/pin_config.h, the effects a component produces (pin writes, BLE
    notifications and the callbacks it invokes), and the board's pin levels. */
module Hw {

  // Engine outputs
  const PinAcc := 25
  const PinIg := 26
  const PinStarter := 27
  // Connection LED, central lock, hazard, armed indicator ("pesawat")
  const PinLedConn := 2
  const PinLock := 4
  const PinUnlock := 16
  const PinHazzard := 17
  const PinPesawat := 23
  // Lamp, alarm, button indicator LED
  const PinLamp := 32
  const PinAlarm := 33
  const PinLedPower := 13

  /** What a component does to the outside world, in program order.
      `ResetRequest` and `EngineSetter` stand for the reset and engine-setter
      callbacks that the firmware registers on its components. */
  datatype Effect =
    | Write(pin: int, high: bool)
    | Notify(msg: string)
    | ResetRequest
    | EngineSetter(on: bool)

  /** The new state of a component together with the effects of the step. */
  datatype Step<S> = Step(next: S, fx: seq<Effect>)

  /** Pin and notification effects only: no callback. */
  predicate IoOnly(fx: seq<Effect>) {
    forall e <- fx :: e.Write? || e.Notify?
  }

  /** True iff `fx` drives `pin` at some point. */
  predicate Drives(fx: seq<Effect>, pin: int) {
    exists e <- fx :: e.Write? && e.pin == pin
  }

  /** Output levels of the board; a pin never written is LOW (setup drives
      every output LOW). */
  type Pins = map<int, bool>

  function Level(pins: Pins, pin: int): bool {
    pin in pins && pins[pin]
  }

  /** The level `fx` leaves on `pin`, starting from `init`. */
  function LastLevel(fx: seq<Effect>, pin: int, init: bool): bool
    decreases |fx|
  {
    if fx == [] then init
    else
      var e := fx[|fx| - 1];
      if e.Write? && e.pin == pin then e.high
      else LastLevel(fx[..|fx| - 1], pin, init)
  }

  /** The notifications in `fx`, in order. */
  function Notes(fx: seq<Effect>): (r: seq<string>)
    ensures |r| <= |fx|
  {
    if fx == [] then []
    else (if fx[0].Notify? then [fx[0].msg] else []) + Notes(fx[1..])
  }
}
