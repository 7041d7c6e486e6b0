/** ButtonTombol: the push-button engine start sequencer of the live
    firmware. A press (or triggerStart from BLE or the remote) walks
    IDLE -> ACC_WAIT -> IG_WAIT -> STARTER_ACTIVE -> COUNTDOWN -> IDLE,
    each phase with its own deadline, while a separate countdown deadline
    armed at the first press decides when the engine counts as running.
    Inside COUNTDOWN the button holds the starter by hand. The reset and
    engine-setter callbacks are returned as effects, in order. */
module Button {
  import opened Hw
  import opened Ramp

  const DefaultCountdownMs := 15000

  /** The fields of ButtonTombol. */
  datatype Sequencer = Sequencer(
    ledPin: int,
    btn: Debouncer,
    stateUntil: nat,
    countdownUntil: nat,
    countdownMs: nat,
    phase: Phase,
    starterRunning: bool,
    manualStarterHold: bool,
    engineOn: bool,
    hasReset: bool,
    hasSetter: bool,
    led: Led)

  /** The object as the constructor leaves it; the fields it does not
      initialise are those of a zero-initialised global. */
  function Initial(ledPin: int): Sequencer {
    Sequencer(ledPin, Debouncer(false, false, 0), 0, 0, DefaultCountdownMs, Idle, false, false, false,
              false, false, Led(0, false, 500, 500))
  }

  /** The deadline the timing switch compares `now` against. */
  function Deadline(s: Sequencer): nat {
    if s.phase == Countdown then s.countdownUntil else s.stateUntil
  }

  /** setLedBlink(highMs, lowMs). */
  function Blink(s: Sequencer, highMs: nat, lowMs: nat): Sequencer {
    s.(led := s.led.(highMs := highMs, lowMs := lowMs))
  }

  function ResetFx(s: Sequencer): seq<Effect> {
    if s.hasReset then [ResetRequest] else []
  }

  function SetterFx(s: Sequencer, on: bool): seq<Effect> {
    if s.hasSetter then [EngineSetter(on)] else []
  }

  /** begin(): LED low, both button levels from the current reading, a
      500/500 blink whose first toggle is 500 ms away. */
  function AfterBegin(s: Sequencer, reading: bool, now: nat): Step<Sequencer> {
    Step(s.(btn := Debouncer(reading, reading, now), led := Led(now + 500, false, 500, 500)),
         [Write(s.ledPin, false)])
  }

  /** The first press from IDLE: accessory on, engine reported off, 1 s
      until ignition, countdown armed. */
  function StartRamp(s: Sequencer, now: nat): Step<Sequencer> {
    Step(Blink(s.(phase := AccWait, stateUntil := now + 1000,
                  countdownUntil := now + s.countdownMs), 500, 500),
         [Write(PinAcc, true)] + SetterFx(s, false))
  }

  /** triggerStart(). */
  function AfterTriggerStart(s: Sequencer, now: nat): Step<Sequencer> {
    if s.engineOn then Step(s, ResetFx(s))
    else if s.phase == Idle then StartRamp(s, now)
    else if s.phase == Countdown then
      Step(Blink(s.(starterRunning := true, phase := StarterActive, stateUntil := now + 1000,
                    countdownUntil := now + s.countdownMs), 200, 50),
           [Write(PinStarter, true)])
    else Step(s, [])
  }

  /** The LED blink handler at the top of update(). */
  function LedTick(s: Sequencer, now: nat): Step<Sequencer> {
    if now >= s.led.toggleAt then
      var high := !s.led.high;
      Step(s.(led := s.led.(high := high, toggleAt := now + (if high then s.led.highMs else s.led.lowMs))),
           [Write(s.ledPin, high)])
    else Step(s, [])
  }

  /** A debounced falling edge (press). */
  function Press(s: Sequencer, now: nat): Step<Sequencer> {
    if s.engineOn then Step(s, ResetFx(s))
    else if s.phase == Idle then StartRamp(s, now)
    else if s.phase == Countdown then
      Step(Blink(s.(manualStarterHold := true, starterRunning := true,
                    countdownUntil := now + s.countdownMs), 200, 50),
           [Write(PinStarter, true)])
    else Step(s, [])
  }

  /** A debounced rising edge (release): ends a manual hold, but only while
      still in COUNTDOWN. */
  function Release(s: Sequencer): Step<Sequencer> {
    if s.manualStarterHold && s.phase == Countdown then
      Step(Blink(s.(manualStarterHold := false, starterRunning := false), 200, 50),
           [Write(PinStarter, false)])
    else Step(s, [])
  }

  /** The debounce block of update(): a change of the raw reading restarts
      the debounce timer; a reading stable for more than 50 ms that differs
      from the accepted level is an edge. */
  function Debounce(s: Sequencer, v: bool, now: nat): Step<Sequencer> {
    var s1 := if v != s.btn.lastRead then s.(btn := s.btn.(lastDebounceTime := now, lastRead := v)) else s;
    if now - s1.btn.lastDebounceTime > DebounceMs && v != s1.btn.lastState then
      // with two levels, a change from HIGH is a press and from LOW a release
      var e := if s1.btn.lastState then Press(s1, now) else Release(s1);
      Step(e.next.(btn := e.next.btn.(lastState := v)), e.fx)
    else Step(s1, [])
  }

  /** The timing switch at the end of update(). */
  function Timing(s: Sequencer, now: nat): Step<Sequencer> {
    match s.phase
    case Idle => Step(s, [])
    case AccWait =>
      if now >= s.stateUntil then
        Step(s.(phase := IgWait, stateUntil := now + 1000), [Write(PinIg, true)])
      else Step(s, [])
    case IgWait =>
      if now >= s.stateUntil then
        Step(Blink(s.(starterRunning := true, phase := StarterActive, stateUntil := now + 1000), 200, 50),
             [Write(PinStarter, true)])
      else Step(s, [])
    case StarterActive =>
      if now >= s.stateUntil then
        Step(Blink(s.(starterRunning := false, phase := Countdown), 200, 50),
             [Write(PinStarter, false)])
      else Step(s, [])
    case Countdown =>
      if now >= s.countdownUntil then
        Step(Blink(s.(engineOn := true, phase := Idle), 500, 500), SetterFx(s, true))
      else Step(s, [])
  }

  /** update(): LED, then debounce and edges, then timing. */
  function AfterUpdate(s: Sequencer, v: bool, now: nat): Step<Sequencer> {
    var a := LedTick(s, now);
    var b := Debounce(a.next, v, now);
    var c := Timing(b.next, now);
    Step(c.next, a.fx + b.fx + c.fx)
  }

  class ButtonTombol {
    var ledPin: int
    var lastState: bool
    var lastRead: bool
    var lastDebounceTime: nat
    var stateUntil: nat
    var countdownUntil: nat
    var countdownMs: nat
    var phase: Phase
    var starterRunning: bool
    var manualStarterHold: bool
    var engineOn: bool
    var hasReset: bool
    var hasSetter: bool
    var ledToggleAt: nat
    var ledHigh: bool
    var ledHighMs: nat
    var ledLowMs: nat

    function State(): Sequencer
      reads this
    {
      Sequencer(ledPin, Debouncer(lastState, lastRead, lastDebounceTime), stateUntil,
                countdownUntil, countdownMs, phase, starterRunning, manualStarterHold, engineOn,
                hasReset, hasSetter, Led(ledToggleAt, ledHigh, ledHighMs, ledLowMs))
    }

    /** A fresh sequencer is IDLE, engine off, starter not running, with a
        15000 ms countdown window and a 500/500 blink. */
    constructor(ledPin: int)
      ensures State() == Initial(ledPin)
      ensures phase == Idle && !engineOn && !starterRunning && countdownMs == 15000
    {
      this.ledPin := ledPin;
      lastState, lastRead, lastDebounceTime := false, false, 0;
      stateUntil, countdownUntil, countdownMs := 0, 0, DefaultCountdownMs;
      phase, starterRunning, manualStarterHold, engineOn := Idle, false, false, false;
      hasReset, hasSetter := false, false;
      ledToggleAt, ledHigh, ledHighMs, ledLowMs := 0, false, 500, 500;
    }

    method Begin(reading: bool, now: nat) returns (fx: seq<Effect>)
      modifies this
      ensures State() == AfterBegin(old(State()), reading, now).next
      ensures fx == AfterBegin(old(State()), reading, now).fx
    {
      fx := [Write(ledPin, false)];
      SetButtonLevels(reading, now);
      SetLedTimer(now + 500, false, 500, 500);
    }

    /** Both button levels and the debounce timer. */
    method SetButtonLevels(reading: bool, now: nat)
      modifies this
      ensures State() == old(State()).(btn := Debouncer(reading, reading, now))
    {
      lastRead, lastState, lastDebounceTime := reading, reading, now;
    }

    /** The whole blink state of the LED. */
    method SetLedTimer(toggleAt: nat, high: bool, highMs: nat, lowMs: nat)
      modifies this
      ensures State() == old(State()).(led := Led(toggleAt, high, highMs, lowMs))
    {
      ledToggleAt, ledHigh, ledHighMs, ledLowMs := toggleAt, high, highMs, lowMs;
    }

    method SetResetCallback()
      modifies this
      ensures State() == old(State()).(hasReset := true)
    {
      hasReset := true;
    }

    method SetEngineSetter()
      modifies this
      ensures State() == old(State()).(hasSetter := true)
    {
      hasSetter := true;
    }

    method SetCountdownMs(ms: nat)
      modifies this
      ensures State() == old(State()).(countdownMs := ms)
    {
      countdownMs := ms;
    }

    method SetEngineStatus(v: bool)
      modifies this
      ensures State() == old(State()).(engineOn := v)
    {
      engineOn := v;
    }

    method SetLedBlink(highMs: nat, lowMs: nat)
      modifies this
      ensures State() == Blink(old(State()), highMs, lowMs)
    {
      ledHighMs, ledLowMs := highMs, lowMs;
    }

    /** The IDLE branch shared by triggerStart and a press. */
    method StartRampStep(now: nat) returns (fx: seq<Effect>)
      modifies this
      ensures State() == StartRamp(old(State()), now).next
      ensures fx == StartRamp(old(State()), now).fx
    {
      fx := [Write(PinAcc, true)];
      if hasSetter {
        fx := fx + [EngineSetter(false)];
      }
      phase := AccWait;
      stateUntil := now + 1000;
      countdownUntil := now + countdownMs;
      SetLedBlink(500, 500);
    }

    method TriggerStart(now: nat) returns (fx: seq<Effect>)
      modifies this
      ensures State() == AfterTriggerStart(old(State()), now).next
      ensures fx == AfterTriggerStart(old(State()), now).fx
    {
      fx := [];
      if engineOn {
        if hasReset {
          fx := [ResetRequest];
        }
        return;
      }
      if phase == Idle {
        fx := StartRampStep(now);
      } else if phase == Countdown {
        fx := [Write(PinStarter, true)];
        starterRunning := true;
        phase := StarterActive;
        stateUntil := now + 1000;
        countdownUntil := now + countdownMs;
        SetLedBlink(200, 50);
      }
    }

    method LedStep(now: nat) returns (fx: seq<Effect>)
      modifies this
      ensures State() == LedTick(old(State()), now).next
      ensures fx == LedTick(old(State()), now).fx
    {
      fx := [];
      if now >= ledToggleAt {
        ledHigh := !ledHigh;
        fx := [Write(ledPin, ledHigh)];
        ledToggleAt := now + (if ledHigh then ledHighMs else ledLowMs);
      }
    }

    method PressStep(now: nat) returns (fx: seq<Effect>)
      modifies this
      ensures State() == Press(old(State()), now).next
      ensures fx == Press(old(State()), now).fx
    {
      fx := [];
      if engineOn {
        if hasReset {
          fx := [ResetRequest];
        }
      } else {
        if phase == Idle {
          fx := StartRampStep(now);
        } else if phase == Countdown {
          fx := [Write(PinStarter, true)];
          manualStarterHold := true;
          starterRunning := true;
          countdownUntil := now + countdownMs;
          SetLedBlink(200, 50);
        }
      }
    }

    method ReleaseStep() returns (fx: seq<Effect>)
      modifies this
      ensures State() == Release(old(State())).next
      ensures fx == Release(old(State())).fx
    {
      fx := [];
      if manualStarterHold && phase == Countdown {
        fx := [Write(PinStarter, false)];
        manualStarterHold := false;
        starterRunning := false;
        SetLedBlink(200, 50);
      }
    }

    method DebounceStep(v: bool, now: nat) returns (fx: seq<Effect>)
      modifies this
      ensures State() == Debounce(old(State()), v, now).next
      ensures fx == Debounce(old(State()), v, now).fx
    {
      fx := [];
      if v != lastRead {
        lastDebounceTime := now;
        lastRead := v;
      }
      if now - lastDebounceTime > DebounceMs {
        if v != lastState {
          if lastState && !v {
            fx := PressStep(now);
          } else {
            fx := ReleaseStep();
          }
          lastState := v;
        }
      }
    }

    method TimingStep(now: nat) returns (fx: seq<Effect>)
      modifies this
      ensures State() == Timing(old(State()), now).next
      ensures fx == Timing(old(State()), now).fx
    {
      fx := [];
      match phase {
        case Idle =>
        case AccWait =>
          if now >= stateUntil {
            fx := [Write(PinIg, true)];
            phase := IgWait;
            stateUntil := now + 1000;
          }
        case IgWait =>
          if now >= stateUntil {
            fx := [Write(PinStarter, true)];
            starterRunning := true;
            phase := StarterActive;
            stateUntil := now + 1000;
            SetLedBlink(200, 50);
          }
        case StarterActive =>
          if now >= stateUntil {
            fx := [Write(PinStarter, false)];
            starterRunning := false;
            phase := Countdown;
            SetLedBlink(200, 50);
          }
        case Countdown =>
          if now >= countdownUntil {
            if hasSetter {
              fx := [EngineSetter(true)];
            }
            engineOn := true;
            phase := Idle;
            SetLedBlink(500, 500);
          }
      }
    }

    /** update() with the button reading `v` at time `now`. */
    method Update(v: bool, now: nat) returns (fx: seq<Effect>)
      modifies this
      ensures State() == AfterUpdate(old(State()), v, now).next
      ensures fx == AfterUpdate(old(State()), v, now).fx
    {
      var ledFx := LedStep(now);
      var edgeFx := DebounceStep(v, now);
      var timeFx := TimingStep(now);
      fx := ledFx + edgeFx + timeFx;
    }
  }

  // -------------------------------------------------------------------
  // Properties

  /** triggerStart with the engine running only fires the reset callback. */
  lemma TriggerWhileEngineOn(s: Sequencer, now: nat)
    requires s.engineOn
    ensures AfterTriggerStart(s, now).next == s
    ensures AfterTriggerStart(s, now).fx == (if s.hasReset then [ResetRequest] else [])
  {
  }

  /** triggerStart from IDLE: ACC on, engine reported off, ACC_WAIT for
      1000 ms, countdown armed, slow blink. */
  lemma TriggerFromIdle(s: Sequencer, now: nat)
    requires !s.engineOn && s.phase == Idle
    ensures var n := AfterTriggerStart(s, now).next;
      n.phase == AccWait && n.stateUntil == now + 1000 &&
      n.countdownUntil == now + s.countdownMs && n.led.highMs == 500 && n.led.lowMs == 500 &&
      n.starterRunning == s.starterRunning && n.engineOn == s.engineOn
    ensures AfterTriggerStart(s, now).fx ==
      [Write(PinAcc, true)] + (if s.hasSetter then [EngineSetter(false)] else [])
  {
  }

  /** triggerStart in COUNTDOWN retries the starter at once and re-arms the
      countdown; in the middle of the ramp it does nothing. */
  lemma TriggerFromCountdown(s: Sequencer, now: nat)
    requires !s.engineOn && s.phase == Countdown
    ensures var n := AfterTriggerStart(s, now).next;
      n.phase == StarterActive && n.starterRunning && n.stateUntil == now + 1000 &&
      n.countdownUntil == now + s.countdownMs && n.led.highMs == 200 && n.led.lowMs == 50
    ensures AfterTriggerStart(s, now).fx == [Write(PinStarter, true)]
  {
  }

  lemma TriggerMidRampIgnored(s: Sequencer, now: nat)
    requires !s.engineOn && (s.phase == AccWait || s.phase == IgWait || s.phase == StarterActive)
    ensures AfterTriggerStart(s, now) == Step(s, [])
  {
  }

  /** The timing switch moves one step along the ramp exactly when the
      current phase's deadline has come. */
  lemma TimingMovesIff(s: Sequencer, now: nat)
    ensures var n := Timing(s, now).next;
      (n.phase != s.phase <==> s.phase != Idle && now >= Deadline(s)) &&
      (n.phase == s.phase || n.phase == Succ(s.phase))
  {
  }

  /** The LED handler touches only the LED fields. */
  lemma LedTickOnlyLed(s: Sequencer, now: nat)
    ensures LedTick(s, now).next == s.(led := LedTick(s, now).next.led)
  {
  }

  /** `b` is `s` with the phase left alone, except a press in IDLE that
      starts the ramp; only COUNTDOWN may re-arm the countdown deadline. */
  predicate PhaseKept(s: Sequencer, b: Sequencer, now: nat) {
    ((b.phase == s.phase && b.stateUntil == s.stateUntil) ||
     (s.phase == Idle && b.phase == AccWait && b.stateUntil == now + 1000)) &&
    (s.phase != Idle && s.phase != Countdown ==> b.countdownUntil == s.countdownUntil) &&
    (s.phase == Countdown ==> b.countdownUntil == s.countdownUntil ||
                              b.countdownUntil == now + s.countdownMs)
  }

  lemma EdgeKeepsPhase(s: Sequencer, now: nat)
    ensures PhaseKept(s, Press(s, now).next, now) && PhaseKept(s, Release(s).next, now)
  {
  }

  /** The debounce block leaves the phase alone, except a press in IDLE. */
  lemma {:induction false} DebounceKeepsPhase(s: Sequencer, v: bool, now: nat)
    ensures PhaseKept(s, Debounce(s, v, now).next, now)
  {
    var s1 := if v != s.btn.lastRead then s.(btn := s.btn.(lastDebounceTime := now, lastRead := v)) else s;
    EdgeKeepsPhase(s1, now);
  }

  /** LED and debounce together leave the phase alone, except a press in
      IDLE. */
  lemma {:induction false} EarlyPartKeepsPhase(s: Sequencer, v: bool, now: nat)
    ensures PhaseKept(s, Debounce(LedTick(s, now).next, v, now).next, now)
  {
    LedTickOnlyLed(s, now);
    DebounceKeepsPhase(LedTick(s, now).next, v, now);
  }

  /** Each update moves the sequencer at most one step along
      ACC_WAIT -> IG_WAIT -> STARTER_ACTIVE -> COUNTDOWN -> IDLE (or from
      IDLE to ACC_WAIT on a press); inside the ramp it moves exactly when
      the deadline has come, and out of COUNTDOWN only at the countdown
      deadline. */
  lemma {:induction false} UpdateAtMostOneStep(s: Sequencer, v: bool, now: nat)
    ensures var n := AfterUpdate(s, v, now).next;
      n.phase == s.phase || n.phase == Succ(s.phase)
    ensures var n := AfterUpdate(s, v, now).next;
      (s.phase == AccWait || s.phase == IgWait || s.phase == StarterActive) ==> (n.phase != s.phase <==> now >= s.stateUntil)
    ensures var n := AfterUpdate(s, v, now).next;
      s.phase == Countdown && s.countdownMs > 0 && n.phase != s.phase ==> now >= s.countdownUntil
  {
    var b := Debounce(LedTick(s, now).next, v, now).next;
    EarlyPartKeepsPhase(s, v, now);
    TimingMovesIff(b, now);
  }

  /** STARTER_ACTIVE -> COUNTDOWN drops the starter and leaves the countdown
      deadline where the first press put it. */
  lemma {:induction false} StarterEndsIntoCountdown(s: Sequencer, v: bool, now: nat)
    requires s.phase == StarterActive && now >= s.stateUntil
    ensures var r := AfterUpdate(s, v, now);
      r.next.phase == Countdown && !r.next.starterRunning &&
      r.next.countdownUntil == s.countdownUntil && Write(PinStarter, false) in r.fx
  {
    var a := LedTick(s, now);
    var b := Debounce(a.next, v, now);
    EarlyPartKeepsPhase(s, v, now);
    var c := Timing(b.next, now);
    assert c.fx == [Write(PinStarter, false)];
    assert c.fx[0] in a.fx + b.fx + c.fx;
  }

  /** COUNTDOWN -> IDLE at the countdown deadline: engine on, engine-setter
      called with true, slow blink again. */
  lemma CountdownExpires(s: Sequencer, now: nat)
    requires s.phase == Countdown && now >= s.countdownUntil
    ensures var n := Timing(s, now).next;
      n.phase == Idle && n.engineOn && n.led.highMs == 500 && n.led.lowMs == 500
    ensures Timing(s, now).fx == (if s.hasSetter then [EngineSetter(true)] else [])
  {
  }

  /** An edge is acted on only once the reading has stayed the same for
      more than 50 ms, and then always. */
  lemma DebounceNeedsStability(s: Sequencer, v: bool, now: nat)
    ensures var r := Debounce(s, v, now);
      (r.next.btn.lastState != s.btn.lastState || r.fx != []) ==>
        v == s.btn.lastRead && now - s.btn.lastDebounceTime > DebounceMs && r.next.btn.lastState == v
    ensures v == s.btn.lastRead && now - s.btn.lastDebounceTime > DebounceMs ==>
      Debounce(s, v, now).next.btn.lastState == v
    ensures Debounce(s, v, now).next.btn.lastRead == v
  {
  }

  /** A debounced press in COUNTDOWN holds the starter by hand and re-arms
      the countdown; the sequencer stays in COUNTDOWN. */
  lemma PressInCountdownHolds(s: Sequencer, now: nat)
    requires s.phase == Countdown && !s.engineOn
    requires s.btn.lastState && !s.btn.lastRead && now - s.btn.lastDebounceTime > DebounceMs
    ensures var r := Debounce(s, false, now);
      r.next.phase == Countdown && r.next.manualStarterHold && r.next.starterRunning &&
      r.next.countdownUntil == now + s.countdownMs && r.fx == [Write(PinStarter, true)]
  {
  }

  /** The matching release in COUNTDOWN drops the starter and the hold. */
  lemma ReleaseInCountdownDrops(s: Sequencer, now: nat)
    requires s.phase == Countdown && s.manualStarterHold
    requires !s.btn.lastState && s.btn.lastRead && now - s.btn.lastDebounceTime > DebounceMs
    ensures var r := Debounce(s, true, now);
      r.next.phase == Countdown && !r.next.manualStarterHold && !r.next.starterRunning &&
      r.fx == [Write(PinStarter, false)]
  {
  }

  /** A hand-held starter survives the end of the countdown: IDLE is
      entered without writing STARTER, the hold flag stays set, and the
      later release no longer drops the starter. */
  lemma HoldOutlivesCountdown(s: Sequencer, now: nat, later: nat)
    requires s.phase == Countdown && s.manualStarterHold && now >= s.countdownUntil
    requires var n := Timing(s, now).next;
      !n.btn.lastState && n.btn.lastRead && later - n.btn.lastDebounceTime > DebounceMs
    ensures var n := Timing(s, now);
      n.next.phase == Idle && n.next.manualStarterHold && n.next.starterRunning == s.starterRunning &&
      !Drives(n.fx, PinStarter)
    ensures var r := Debounce(Timing(s, now).next, true, later);
      r.fx == [] && r.next.manualStarterHold
  {
  }

  /** The blink cadence matches the phase (slow while idle or ramping,
      fast from the starter on), and STARTER_ACTIVE always has the starter
      running. */
  predicate Inv(s: Sequencer) {
    (if s.phase == StarterActive || s.phase == Countdown
     then s.led.highMs == 200 && s.led.lowMs == 50
     else s.led.highMs == 500 && s.led.lowMs == 500) &&
    (s.phase == StarterActive ==> s.starterRunning)
  }

  lemma InitialInv(ledPin: int, reading: bool, now: nat)
    ensures Inv(Initial(ledPin)) && Inv(AfterBegin(Initial(ledPin), reading, now).next)
  {
  }

  lemma TriggerKeepsInv(s: Sequencer, now: nat)
    requires Inv(s)
    ensures Inv(AfterTriggerStart(s, now).next)
  {
  }

  lemma LedKeepsInv(s: Sequencer, now: nat)
    requires Inv(s)
    ensures Inv(LedTick(s, now).next)
  {
  }

  lemma EdgeKeepsInv(s: Sequencer, v: bool, now: nat)
    requires Inv(s)
    ensures Inv(Press(s, now).next) && Inv(Release(s).next)
  {
  }

  lemma {:induction false} DebounceKeepsInv(s: Sequencer, v: bool, now: nat)
    requires Inv(s)
    ensures Inv(Debounce(s, v, now).next)
  {
    var s1 := if v != s.btn.lastRead then s.(btn := s.btn.(lastDebounceTime := now, lastRead := v)) else s;
    assert Inv(s1);
    EdgeKeepsInv(s1, v, now);
  }

  lemma TimingKeepsInv(s: Sequencer, now: nat)
    requires Inv(s)
    ensures Inv(Timing(s, now).next)
  {
  }

  /** update preserves the invariant. */
  lemma {:induction false} UpdateKeepsInv(s: Sequencer, v: bool, now: nat)
    requires Inv(s)
    ensures Inv(AfterUpdate(s, v, now).next)
  {
    var a := LedTick(s, now).next;
    LedKeepsInv(s, now);
    var b := Debounce(a, v, now).next;
    DebounceKeepsInv(a, v, now);
    TimingKeepsInv(b, now);
  }

  /** The button is at rest: HIGH and settled. */
  predicate Quiet(s: Sequencer) {
    s.btn.lastState && s.btn.lastRead
  }

  /** With the button at rest, update is the LED blink followed by the
      timing switch. */
  lemma {:induction false} QuietUpdate(s: Sequencer, now: nat)
    requires Quiet(s)
    ensures var a := LedTick(s, now);
      var c := Timing(a.next, now);
      var r := AfterUpdate(s, true, now);
      r.next == c.next && r.fx == a.fx + c.fx && Quiet(c.next)
  {
    var a := LedTick(s, now);
    LedTickOnlyLed(s, now);
    var b := Debounce(a.next, true, now);
    assert b.next == a.next && b.fx == [];
    assert a.fx + [] == a.fx;
  }

  /** The pin write of each timed transition. */
  function RampWrite(p: Phase): seq<Effect> {
    match p
    case AccWait => [Write(PinIg, true)]
    case IgWait => [Write(PinStarter, true)]
    case StarterActive => [Write(PinStarter, false)]
    case _ => []
  }

  /** One timed step with the button at rest: the next phase, its deadline,
      the countdown deadline kept, and the phase's pin write last. */
  lemma {:induction false} QuietRampStep(s: Sequencer, now: nat)
    requires Quiet(s) && s.phase != Idle && now >= Deadline(s)
    ensures var r := AfterUpdate(s, true, now);
      r.next.phase == Succ(s.phase) && Quiet(r.next) &&
      r.next.countdownUntil == s.countdownUntil &&
      r.next.countdownMs == s.countdownMs &&
      (s.phase == AccWait || s.phase == IgWait ==> r.next.stateUntil == now + 1000) &&
      r.next.engineOn == (s.engineOn || s.phase == Countdown) &&
      (forall e <- RampWrite(s.phase) :: e in r.fx)
  {
    QuietUpdate(s, now);
    var a := LedTick(s, now);
    LedTickOnlyLed(s, now);
    var c := Timing(a.next, now);
    assert c.fx == RampWrite(s.phase) || s.phase == Countdown;
    forall e <- RampWrite(s.phase) ensures e in a.fx + c.fx {
      assert e == c.fx[0];
    }
  }

  /** A remote or BLE start from rest, with the button untouched, in the
      firmware's own timing: ignition at 1 s, starter from 2 s to 3 s, the
      engine counted as running when the 15 s countdown runs out. */
  lemma {:induction false} StartTimeline(s: Sequencer)
    requires s.phase == Idle && !s.engineOn && s.countdownMs == DefaultCountdownMs && Quiet(s)
    ensures var s1 := AfterTriggerStart(s, 0).next;
      var r2 := AfterUpdate(s1, true, 1000);
      var r3 := AfterUpdate(r2.next, true, 2000);
      var r4 := AfterUpdate(r3.next, true, 3000);
      var r5 := AfterUpdate(r4.next, true, 15000);
      r2.next.phase == IgWait && Write(PinIg, true) in r2.fx &&
      r3.next.phase == StarterActive && Write(PinStarter, true) in r3.fx &&
      r4.next.phase == Countdown && Write(PinStarter, false) in r4.fx &&
      r5.next.phase == Idle && r5.next.engineOn
  {
    var s1 := AfterTriggerStart(s, 0).next;
    assert s1.phase == AccWait && s1.stateUntil == 1000 && s1.countdownUntil == 15000 && Quiet(s1);
    QuietRampStep(s1, 1000);
    var s2 := AfterUpdate(s1, true, 1000).next;
    assert s2.phase == IgWait && s2.stateUntil == 2000 && s2.countdownUntil == 15000 && Quiet(s2);
    QuietRampStep(s2, 2000);
    var s3 := AfterUpdate(s2, true, 2000).next;
    assert s3.phase == StarterActive && s3.stateUntil >= 0 && s3.countdownUntil == 15000 && Quiet(s3);
    QuietRampStep(s3, 3000);
    var s4 := AfterUpdate(s3, true, 3000).next;
    assert s4.phase == Countdown && s4.countdownUntil == 15000 && Quiet(s4);
    QuietRampStep(s4, 15000);
  }
}
