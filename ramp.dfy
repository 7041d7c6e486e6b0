/** Vocabulary shared by both versions of ButtonTombol: the five phases of
    the start ramp, the debounce fields and the indicator LED fields. */
module Ramp {

  datatype Phase = Idle | AccWait | IgWait | StarterActive | Countdown

  /** A reading must stay unchanged for more than this many ms. */
  const DebounceMs := 50

  /** The next phase of the ramp. */
  function Succ(p: Phase): Phase {
    match p
    case Idle => AccWait
    case AccWait => IgWait
    case IgWait => StarterActive
    case StarterActive => Countdown
    case Countdown => Idle
  }

  /** The debounce fields of ButtonTombol (true = HIGH; the button is wired
      to ground with a pull-up, so a press reads LOW). */
  datatype Debouncer = Debouncer(lastState: bool, lastRead: bool, lastDebounceTime: nat)

  /** The indicator LED fields. */
  datatype Led = Led(toggleAt: nat, high: bool, highMs: nat, lowMs: nat)
}
