/** ButtonTombol of the earlier firmware snapshot: the same five-phase ramp,
    but only presses act (a release only updates the accepted level), the
    countdown window is a fixed 5000 ms from the press, ignition waits
    2000 ms, and there is no triggerStart and no manual starter hold. */
module ButtonBackup {
  import opened Hw
  import opened Ramp

  const CountdownMs := 5000
  const IgWaitMs := 2000

  /** The fields of the earlier ButtonTombol. */
  datatype Sequencer = Sequencer(
    ledPin: int,
    btn: Debouncer,
    stateUntil: nat,
    countdownUntil: nat,
    phase: Phase,
    starterRunning: bool,
    engineOn: bool,
    hasReset: bool,
    hasSetter: bool,
    led: Led)

  function Initial(ledPin: int): Sequencer {
    Sequencer(ledPin, Debouncer(false, false, 0), 0, 0, Idle, false, false, false, false,
              Led(0, false, 500, 500))
  }

  /** begin(): LED low, both button levels from the current reading, a
      500/500 blink whose first toggle is 500 ms away. */
  function AfterBegin(s: Sequencer, reading: bool, now: nat): Step<Sequencer> {
    Step(s.(btn := Debouncer(reading, reading, now), led := Led(now + 500, false, 500, 500)),
         [Write(s.ledPin, false)])
  }

  function Blink(s: Sequencer, highMs: nat, lowMs: nat): Sequencer {
    s.(led := s.led.(highMs := highMs, lowMs := lowMs))
  }

  /** The LED blink handler at the top of update(). */
  function LedTick(s: Sequencer, now: nat): Step<Sequencer> {
    if now >= s.led.toggleAt then
      var high := !s.led.high;
      Step(s.(led := s.led.(high := high, toggleAt := now + (if high then s.led.highMs else s.led.lowMs))),
           [Write(s.ledPin, high)])
    else Step(s, [])
  }

  /** A debounced falling edge (press). */
  function Press(s: Sequencer, now: nat): Step<Sequencer> {
    if s.engineOn then Step(s, if s.hasReset then [ResetRequest] else [])
    else if s.phase == Idle then
      Step(Blink(s.(phase := AccWait, stateUntil := now + 1000, countdownUntil := now + CountdownMs), 500, 500),
           [Write(PinAcc, true)] + (if s.hasSetter then [EngineSetter(false)] else []))
    else if s.phase == Countdown then
      Step(Blink(s.(starterRunning := true, phase := StarterActive, stateUntil := now + 1000,
                    countdownUntil := now + CountdownMs), 200, 50),
           [Write(PinStarter, true)])
    else Step(s, [])
  }

  /** The debounce block: only a HIGH -> LOW change acts; any accepted
      change updates the accepted level. */
  function Debounce(s: Sequencer, v: bool, now: nat): Step<Sequencer> {
    var s1 := if v != s.btn.lastRead then s.(btn := s.btn.(lastDebounceTime := now, lastRead := v)) else s;
    if now - s1.btn.lastDebounceTime > DebounceMs && v != s1.btn.lastState then
      var e := if s1.btn.lastState && !v then Press(s1, now) else Step(s1, []);
      Step(e.next.(btn := e.next.btn.(lastState := v)), e.fx)
    else Step(s1, [])
  }

  /** The timing switch at the end of update(). */
  function Timing(s: Sequencer, now: nat): Step<Sequencer> {
    match s.phase
    case Idle => Step(s, [])
    case AccWait =>
      if now >= s.stateUntil then
        Step(s.(phase := IgWait, stateUntil := now + IgWaitMs), [Write(PinIg, true)])
      else Step(s, [])
    case IgWait =>
      if now >= s.stateUntil then
        Step(Blink(s.(starterRunning := true, phase := StarterActive, stateUntil := now + 1000), 200, 50),
             [Write(PinStarter, true)])
      else Step(s, [])
    case StarterActive =>
      if now >= s.stateUntil then
        Step(Blink(s.(starterRunning := false, phase := Countdown), 200, 50),
             [Write(PinStarter, false)])
      else Step(s, [])
    case Countdown =>
      if now >= s.countdownUntil then
        Step(Blink(s.(engineOn := true, phase := Idle), 500, 500),
             if s.hasSetter then [EngineSetter(true)] else [])
      else Step(s, [])
  }

  function AfterUpdate(s: Sequencer, v: bool, now: nat): Step<Sequencer> {
    var a := LedTick(s, now);
    var b := Debounce(a.next, v, now);
    var c := Timing(b.next, now);
    Step(c.next, a.fx + b.fx + c.fx)
  }

  class ButtonTombol {
    var ledPin: int
    var lastState: bool
    var lastRead: bool
    var lastDebounceTime: nat
    var stateUntil: nat
    var countdownUntil: nat
    var phase: Phase
    var starterRunning: bool
    var engineOn: bool
    var hasReset: bool
    var hasSetter: bool
    var ledToggleAt: nat
    var ledHigh: bool
    var ledHighMs: nat
    var ledLowMs: nat

    function State(): Sequencer
      reads this
    {
      Sequencer(ledPin, Debouncer(lastState, lastRead, lastDebounceTime), stateUntil,
                countdownUntil, phase, starterRunning, engineOn, hasReset, hasSetter,
                Led(ledToggleAt, ledHigh, ledHighMs, ledLowMs))
    }

    constructor(ledPin: int)
      ensures State() == Initial(ledPin)
      ensures phase == Idle && !engineOn && !starterRunning
    {
      this.ledPin := ledPin;
      lastState, lastRead, lastDebounceTime := false, false, 0;
      stateUntil, countdownUntil := 0, 0;
      phase, starterRunning, engineOn := Idle, false, false;
      hasReset, hasSetter := false, false;
      ledToggleAt, ledHigh, ledHighMs, ledLowMs := 0, false, 500, 500;
    }

    method Begin(reading: bool, now: nat) returns (fx: seq<Effect>)
      modifies this
      ensures State() == AfterBegin(old(State()), reading, now).next
      ensures fx == AfterBegin(old(State()), reading, now).fx
    {
      fx := [Write(ledPin, false)];
      SetButtonLevels(reading, now);
      ledHighMs, ledLowMs, ledHigh := 500, 500, false;
      ledToggleAt := now + 500;
    }

    /** Both button levels and the debounce timer. */
    method SetButtonLevels(reading: bool, now: nat)
      modifies this
      ensures State() == old(State()).(btn := Debouncer(reading, reading, now))
    {
      lastRead, lastState, lastDebounceTime := reading, reading, now;
    }

    method SetResetCallback()
      modifies this
      ensures State() == old(State()).(hasReset := true)
    {
      hasReset := true;
    }

    method SetEngineSetter()
      modifies this
      ensures State() == old(State()).(hasSetter := true)
    {
      hasSetter := true;
    }

    method SetEngineStatus(v: bool)
      modifies this
      ensures State() == old(State()).(engineOn := v)
    {
      engineOn := v;
    }

    method SetLedBlink(highMs: nat, lowMs: nat)
      modifies this
      ensures State() == Blink(old(State()), highMs, lowMs)
    {
      ledHighMs, ledLowMs := highMs, lowMs;
    }

    method LedStep(now: nat) returns (fx: seq<Effect>)
      modifies this
      ensures State() == LedTick(old(State()), now).next
      ensures fx == LedTick(old(State()), now).fx
    {
      fx := [];
      if now >= ledToggleAt {
        ledHigh := !ledHigh;
        fx := [Write(ledPin, ledHigh)];
        ledToggleAt := now + (if ledHigh then ledHighMs else ledLowMs);
      }
    }

    method PressStep(now: nat) returns (fx: seq<Effect>)
      modifies this
      ensures State() == Press(old(State()), now).next
      ensures fx == Press(old(State()), now).fx
    {
      fx := [];
      if engineOn {
        if hasReset {
          fx := [ResetRequest];
        }
      } else if phase == Idle {
        fx := [Write(PinAcc, true)];
        if hasSetter {
          fx := fx + [EngineSetter(false)];
        }
        phase := AccWait;
        stateUntil := now + 1000;
        countdownUntil := now + CountdownMs;
        SetLedBlink(500, 500);
      } else if phase == Countdown {
        fx := [Write(PinStarter, true)];
        starterRunning := true;
        phase := StarterActive;
        stateUntil := now + 1000;
        countdownUntil := now + CountdownMs;
        SetLedBlink(200, 50);
      }
    }

    method DebounceStep(v: bool, now: nat) returns (fx: seq<Effect>)
      modifies this
      ensures State() == Debounce(old(State()), v, now).next
      ensures fx == Debounce(old(State()), v, now).fx
    {
      fx := [];
      if v != lastRead {
        lastDebounceTime := now;
        lastRead := v;
      }
      if now - lastDebounceTime > DebounceMs {
        if v != lastState {
          if lastState && !v {
            fx := PressStep(now);
          }
          lastState := v;
        }
      }
    }

    method TimingStep(now: nat) returns (fx: seq<Effect>)
      modifies this
      ensures State() == Timing(old(State()), now).next
      ensures fx == Timing(old(State()), now).fx
    {
      fx := [];
      match phase {
        case Idle =>
        case AccWait =>
          if now >= stateUntil {
            fx := [Write(PinIg, true)];
            phase := IgWait;
            stateUntil := now + IgWaitMs;
          }
        case IgWait =>
          if now >= stateUntil {
            fx := [Write(PinStarter, true)];
            starterRunning := true;
            phase := StarterActive;
            stateUntil := now + 1000;
            SetLedBlink(200, 50);
          }
        case StarterActive =>
          if now >= stateUntil {
            fx := [Write(PinStarter, false)];
            starterRunning := false;
            phase := Countdown;
            SetLedBlink(200, 50);
          }
        case Countdown =>
          if now >= countdownUntil {
            if hasSetter {
              fx := [EngineSetter(true)];
            }
            engineOn := true;
            phase := Idle;
            SetLedBlink(500, 500);
          }
      }
    }

    method Update(v: bool, now: nat) returns (fx: seq<Effect>)
      modifies this
      ensures State() == AfterUpdate(old(State()), v, now).next
      ensures fx == AfterUpdate(old(State()), v, now).fx
    {
      var ledFx := LedStep(now);
      var edgeFx := DebounceStep(v, now);
      var timeFx := TimingStep(now);
      fx := ledFx + edgeFx + timeFx;
    }
  }

  // -------------------------------------------------------------------
  // Properties

  /** A debounced press: with the engine running only the reset callback;
      from IDLE the ramp with a fixed 5000 ms countdown; in COUNTDOWN a new
      starter attempt with a fresh 5000 ms window; otherwise nothing. */
  lemma PressCases(s: Sequencer, now: nat)
    ensures s.engineOn ==>
      Press(s, now) == Step(s, if s.hasReset then [ResetRequest] else [])
    ensures !s.engineOn && s.phase == Idle ==>
      var n := Press(s, now).next;
      n.phase == AccWait && n.stateUntil == now + 1000 && n.countdownUntil == now + 5000 &&
      Press(s, now).fx[0] == Write(PinAcc, true)
    ensures !s.engineOn && s.phase == Countdown ==>
      var n := Press(s, now).next;
      n.phase == StarterActive && n.starterRunning && n.stateUntil == now + 1000 &&
      n.countdownUntil == now + 5000 && Press(s, now).fx == [Write(PinStarter, true)]
    ensures !s.engineOn && (s.phase == AccWait || s.phase == IgWait || s.phase == StarterActive) ==>
      Press(s, now) == Step(s, [])
  {
  }

  /** Only a falling edge acts: a debounced release changes nothing but the
      accepted level and the raw-reading bookkeeping. */
  lemma ReleaseOnlyRecordsLevel(s: Sequencer, now: nat)
    requires !s.btn.lastState
    ensures var r := Debounce(s, true, now);
      r.fx == [] &&
      r.next == s.(btn := r.next.btn) &&
      (s.btn.lastRead && now - s.btn.lastDebounceTime > DebounceMs ==> r.next.btn.lastState)
  {
  }

  /** The timed transitions: ACC_WAIT -> IG_WAIT with a 2000 ms wait,
      IG_WAIT -> STARTER_ACTIVE with a 1000 ms pulse, STARTER_ACTIVE ->
      COUNTDOWN dropping the starter, COUNTDOWN -> IDLE with the engine on. */
  lemma TimingCases(s: Sequencer, now: nat)
    ensures s.phase == AccWait && now >= s.stateUntil ==>
      var r := Timing(s, now);
      r.next.phase == IgWait && r.next.stateUntil == now + 2000 && r.fx == [Write(PinIg, true)]
    ensures s.phase == IgWait && now >= s.stateUntil ==>
      var r := Timing(s, now);
      r.next.phase == StarterActive && r.next.starterRunning && r.next.stateUntil == now + 1000 &&
      r.fx == [Write(PinStarter, true)]
    ensures s.phase == StarterActive && now >= s.stateUntil ==>
      var r := Timing(s, now);
      r.next.phase == Countdown && !r.next.starterRunning && r.next.countdownUntil == s.countdownUntil &&
      r.fx == [Write(PinStarter, false)]
    ensures s.phase == Countdown && now >= s.countdownUntil ==>
      var r := Timing(s, now);
      r.next.phase == Idle && r.next.engineOn
    ensures s.phase != Idle && now < Deadline(s) ==> Timing(s, now) == Step(s, [])
  {
  }

  /** The deadline the timing switch compares `now` against. */
  function Deadline(s: Sequencer): nat {
    if s.phase == Countdown then s.countdownUntil else s.stateUntil
  }

  predicate Quiet(s: Sequencer) {
    s.btn.lastState && s.btn.lastRead
  }

  lemma LedTickOnlyLed(s: Sequencer, now: nat)
    ensures LedTick(s, now).next == s.(led := LedTick(s, now).next.led)
  {
  }

  /** With the button at rest, update is the LED blink followed by the
      timing switch. */
  lemma {:induction false} QuietUpdate(s: Sequencer, now: nat)
    requires Quiet(s)
    ensures var a := LedTick(s, now);
      var c := Timing(a.next, now);
      var r := AfterUpdate(s, true, now);
      r.next == c.next && r.fx == a.fx + c.fx && Quiet(c.next)
  {
    var a := LedTick(s, now);
    LedTickOnlyLed(s, now);
    var b := Debounce(a.next, true, now);
    assert b.next == a.next && b.fx == [];
    assert a.fx + [] == a.fx;
  }

  /** One timed step with the button at rest. */
  lemma {:induction false} QuietRampStep(s: Sequencer, now: nat)
    requires Quiet(s) && s.phase != Idle && now >= Deadline(s)
    ensures var r := AfterUpdate(s, true, now);
      r.next.phase == Succ(s.phase) && Quiet(r.next) &&
      r.next.countdownUntil == s.countdownUntil &&
      (s.phase == AccWait ==> r.next.stateUntil == now + IgWaitMs) &&
      (s.phase == IgWait ==> r.next.stateUntil == now + 1000) &&
      r.next.engineOn == (s.engineOn || s.phase == Countdown)
  {
    QuietUpdate(s, now);
    LedTickOnlyLed(s, now);
  }

  /** A press accepted at t = 100 and released: ignition at 1.1 s, starter
      from 3.1 s to 4.1 s, and the fixed 5000 ms window, counted from the
      press, ends at 5.1 s, one second after the starter. */
  lemma {:induction false} PressTimeline(s: Sequencer)
    requires s.phase == AccWait && s.stateUntil == 1100 && s.countdownUntil == 5100 && Quiet(s)
    requires !s.engineOn
    ensures var r1 := AfterUpdate(s, true, 1100);
      var r2 := AfterUpdate(r1.next, true, 3100);
      var r3 := AfterUpdate(r2.next, true, 4100);
      var r4 := AfterUpdate(r3.next, true, 5100);
      r1.next.phase == IgWait && r2.next.phase == StarterActive &&
      r3.next.phase == Countdown && r4.next.phase == Idle && r4.next.engineOn
  {
    QuietRampStep(s, 1100);
    var s1 := AfterUpdate(s, true, 1100).next;
    QuietRampStep(s1, 3100);
    var s2 := AfterUpdate(s1, true, 3100).next;
    QuietRampStep(s2, 4100);
    var s3 := AfterUpdate(s2, true, 4100).next;
    QuietRampStep(s3, 5100);
  }
}
