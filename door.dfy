/** DoorControl: central locking by 600 ms solenoid pulses (at most one in
    flight, `locked` committed only when a pulse completes), the hazard
    light choreographies that confirm lock (400/200/400), unlock (1000) and
    alarm (200/200, endless), the alarm output square wave, and the armed
    indicator ("pesawat") blink while the car is locked. BLE notifications
    are Notify effects. */
module Door {
  import opened Hw

  datatype Pulse = Pulse(active: bool, pin: int, end: nat)

  /** The armed indicator: on, current level, next toggle. */
  datatype Pesawat = Pesawat(on: bool, high: bool, nextToggle: nat)

  /** The hazard state machine. `step` is an int as in the source. */
  datatype Hazard = Hazard(active: bool, lockedMode: bool, step: int, next: nat, alarmMode: bool)

  /** The alarm output square wave. */
  datatype Alarm = Alarm(on: bool, high: bool, nextToggle: nat)

  /** The fields of DoorControl. */
  datatype DoorState = DoorState(locked: bool, pulse: Pulse, pesawat: Pesawat, hazard: Hazard, alarm: Alarm)

  function Initial(): DoorState {
    DoorState(false, Pulse(false, -1, 0), Pesawat(false, false, 0), Hazard(false, false, 0, 0, false),
              Alarm(false, false, 0))
  }

  /** begin(): all four outputs LOW. */
  function BeginFx(): seq<Effect> {
    [Write(PinLock, false), Write(PinUnlock, false), Write(PinHazzard, false), Write(PinPesawat, false)]
  }

  /** lockPulse(). */
  function AfterLockPulse(d: DoorState, now: nat): Step<DoorState> {
    if d.locked || d.pulse.active then Step(d, [Notify("IGNORED LOCK")])
    else Step(d.(pulse := Pulse(true, PinLock, now + 600)),
              [Write(PinUnlock, false), Write(PinLock, true), Notify("LOCK")])
  }

  /** unlockPulse(). */
  function AfterUnlockPulse(d: DoorState, now: nat): Step<DoorState> {
    if !d.locked || d.pulse.active then Step(d, [Notify("IGNORED UNLOCK")])
    else Step(d.(pulse := Pulse(true, PinUnlock, now + 600)),
              [Write(PinLock, false), Write(PinUnlock, true), Notify("UNLOCK")])
  }

  /** setAlarm(on). */
  function AfterSetAlarm(d: DoorState, on: bool, now: nat): Step<DoorState> {
    if on then
      Step(d.(alarm := d.alarm.(on := true),
              hazard := d.hazard.(alarmMode := true, active := true, step := 0, next := now)),
           [Notify("ALARM ON")])
    else
      Step(d.(alarm := d.alarm.(on := false), hazard := d.hazard.(alarmMode := false, active := false)),
           [Write(PinHazzard, false), Notify("ALARM OFF")])
  }

  /** toggleAlarm(). */
  function AfterToggleAlarm(d: DoorState, now: nat): Step<DoorState> {
    AfterSetAlarm(d, !d.alarm.on, now)
  }

  /** The door once the pulse in flight has completed: a LOCK pulse
      commits `locked`, starts the LOCK hazard pattern and the indicator
      blink; an UNLOCK pulse commits unlocked, starts the UNLOCK pattern and
      stops the indicator. */
  function Completed(d: DoorState, now: nat): DoorState {
    var done := d.(pulse := Pulse(false, -1, d.pulse.end));
    if d.pulse.pin == PinLock then LockCommitted(done, now)
    else if d.pulse.pin == PinUnlock then UnlockCommitted(done, now)
    else done
  }

  function LockCommitted(d: DoorState, now: nat): DoorState {
    d.(locked := true,
       hazard := d.hazard.(lockedMode := true, step := 0, next := now, active := true),
       pesawat := Pesawat(true, true, now + 300))
  }

  function UnlockCommitted(d: DoorState, now: nat): DoorState {
    d.(locked := false,
       hazard := d.hazard.(lockedMode := false, step := 0, next := now, active := true),
       pesawat := d.pesawat.(on := false, high := false))
  }

  function CompletionFx(d: DoorState): seq<Effect> {
    if d.pulse.pin == PinLock then [Write(PinLock, false), Notify("LOCKED"), Write(PinPesawat, true)]
    else if d.pulse.pin == PinUnlock then [Write(PinUnlock, false), Notify("UNLOCKED"), Write(PinPesawat, false)]
    else [Write(d.pulse.pin, false)]
  }

  /** Pulse completion, the first block of update(). */
  function PulseTick(d: DoorState, now: nat): Step<DoorState> {
    if d.pulse.active && now >= d.pulse.end then Step(Completed(d, now), CompletionFx(d))
    else Step(d, [])
  }

  /** The alarm square wave: 200 ms HIGH, 200 ms LOW while the alarm is on. */
  function AlarmTick(a: Alarm, now: nat): Step<Alarm> {
    if a.on && now >= a.nextToggle then
      Step(a.(high := !a.high, nextToggle := now + 200), [Write(PinAlarm, !a.high)])
    else Step(a, [])
  }

  /** The armed-indicator blink: 100 ms HIGH, 3000 ms LOW while on. */
  function PesawatTick(p: Pesawat, now: nat): Step<Pesawat> {
    if p.on && now >= p.nextToggle then
      if p.high then Step(p.(high := false, nextToggle := now + 3000), [Write(PinPesawat, false)])
      else Step(p.(high := true, nextToggle := now + 100), [Write(PinPesawat, true)])
    else Step(p, [])
  }

  /** The hazard state machine: alarm mode toggles every 200 ms and never
      ends; the LOCK pattern is HIGH 400, LOW 200, HIGH 400, then LOW; the
      UNLOCK pattern is HIGH 1000, then LOW. */
  function HazardTick(h: Hazard, now: nat): Step<Hazard> {
    if h.active && now >= h.next then
      if h.alarmMode then
        if h.step == 0 then Step(h.(step := 1, next := now + 200), [Write(PinHazzard, true)])
        else Step(h.(step := 0, next := now + 200), [Write(PinHazzard, false)])
      else if h.lockedMode then
        if h.step == 0 then Step(h.(next := now + 400, step := 1), [Write(PinHazzard, true)])
        else if h.step == 1 then Step(h.(next := now + 200, step := 2), [Write(PinHazzard, false)])
        else if h.step == 2 then Step(h.(next := now + 400, step := 3), [Write(PinHazzard, true)])
        else Step(h.(active := false), [Write(PinHazzard, false)])
      else
        if h.step == 0 then Step(h.(next := now + 1000, step := 1), [Write(PinHazzard, true)])
        else Step(h.(active := false), [Write(PinHazzard, false)])
    else Step(h, [])
  }

  /** update(): pulse completion, alarm wave, indicator blink, hazard. */
  function AfterUpdate(d: DoorState, now: nat): Step<DoorState> {
    var p := PulseTick(d, now);
    var a := AlarmTick(p.next.alarm, now);
    var w := PesawatTick(p.next.pesawat, now);
    var h := HazardTick(p.next.hazard, now);
    Step(p.next.(alarm := a.next, pesawat := w.next, hazard := h.next), p.fx + a.fx + w.fx + h.fx)
  }

  /** cancelAll(): pulse, hazard and alarm stopped; hazard and indicator
      outputs LOW. */
  function AfterCancelAll(d: DoorState): Step<DoorState> {
    Step(d.(pulse := d.pulse.(active := false, pin := -1),
            hazard := d.hazard.(active := false, alarmMode := false),
            alarm := d.alarm.(on := false)),
         [Write(PinHazzard, false), Write(PinPesawat, false)])
  }

  /** setEngineState(on): a running engine turns the indicator off; a
      stopped engine arms it if the car is locked. */
  function AfterSetEngineState(d: DoorState, on: bool, now: nat): Step<DoorState> {
    if !on && d.locked then Step(d.(pesawat := Pesawat(true, true, now + 300)), [Write(PinPesawat, true)])
    else Step(d.(pesawat := d.pesawat.(on := false, high := false)), [Write(PinPesawat, false)])
  }

  class DoorControl {
    var locked: bool
    var pulseActive: bool
    var pulsePin: int
    var pulseEnd: nat
    var pesawatOn: bool
    var pesawatStateHigh: bool
    var pesawatNextToggle: nat
    var hazardActive: bool
    var hazardLockedMode: bool
    var hazardStep: int
    var hazardNext: nat
    var hazardAlarmMode: bool
    var alarmOn: bool
    var alarmStateHigh: bool
    var alarmNextToggle: nat

    function State(): DoorState
      reads this
    {
      DoorState(locked, Pulse(pulseActive, pulsePin, pulseEnd),
                Pesawat(pesawatOn, pesawatStateHigh, pesawatNextToggle),
                Hazard(hazardActive, hazardLockedMode, hazardStep, hazardNext, hazardAlarmMode),
                Alarm(alarmOn, alarmStateHigh, alarmNextToggle))
    }

    constructor()
      ensures State() == Initial()
    {
      locked, pulseActive, pulsePin, pulseEnd := false, false, -1, 0;
      pesawatOn, pesawatStateHigh, pesawatNextToggle := false, false, 0;
      hazardActive, hazardLockedMode, hazardStep, hazardNext, hazardAlarmMode := false, false, 0, 0, false;
      alarmOn, alarmStateHigh, alarmNextToggle := false, false, 0;
    }

    method Begin() returns (fx: seq<Effect>)
      ensures fx == BeginFx()
    {
      fx := [Write(PinLock, false), Write(PinUnlock, false), Write(PinHazzard, false), Write(PinPesawat, false)];
    }

    method LockPulse(now: nat) returns (fx: seq<Effect>)
      modifies this
      ensures State() == AfterLockPulse(old(State()), now).next
      ensures fx == AfterLockPulse(old(State()), now).fx
    {
      if locked || pulseActive {
        fx := [Notify("IGNORED LOCK")];
      } else {
        fx := [Write(PinUnlock, false), Write(PinLock, true)];
        pulseActive := true;
        pulsePin := PinLock;
        pulseEnd := now + 600;
        fx := fx + [Notify("LOCK")];
      }
    }

    method UnlockPulse(now: nat) returns (fx: seq<Effect>)
      modifies this
      ensures State() == AfterUnlockPulse(old(State()), now).next
      ensures fx == AfterUnlockPulse(old(State()), now).fx
    {
      if !locked || pulseActive {
        fx := [Notify("IGNORED UNLOCK")];
      } else {
        fx := [Write(PinLock, false), Write(PinUnlock, true)];
        pulseActive := true;
        pulsePin := PinUnlock;
        pulseEnd := now + 600;
        fx := fx + [Notify("UNLOCK")];
      }
    }

    method ToggleAlarm(now: nat) returns (fx: seq<Effect>)
      modifies this
      ensures State() == AfterToggleAlarm(old(State()), now).next
      ensures fx == AfterToggleAlarm(old(State()), now).fx
    {
      fx := SetAlarm(!alarmOn, now);
    }

    method SetAlarm(on: bool, now: nat) returns (fx: seq<Effect>)
      modifies this
      ensures State() == AfterSetAlarm(old(State()), on, now).next
      ensures fx == AfterSetAlarm(old(State()), on, now).fx
    {
      alarmOn := on;
      if on {
        hazardAlarmMode := true;
        hazardActive := true;
        hazardStep := 0;
        hazardNext := now;
        fx := [Notify("ALARM ON")];
      } else {
        hazardAlarmMode := false;
        hazardActive := false;
        fx := [Write(PinHazzard, false), Notify("ALARM OFF")];
      }
    }

    method PulseStep(now: nat) returns (fx: seq<Effect>)
      modifies this
      ensures State() == PulseTick(old(State()), now).next
      ensures fx == PulseTick(old(State()), now).fx
    {
      fx := [];
      if pulseActive && now >= pulseEnd {
        fx := CompletionFx(State());
        Complete(now);
      }
    }

    /** The body of the completion block: the pulse pin goes LOW (in
        CompletionFx) and the outcome is committed. */
    method Complete(now: nat)
      modifies this
      ensures State() == Completed(old(State()), now)
    {
      var pin := pulsePin;
      pulseActive, pulsePin := false, -1;
      if pin == PinLock {
        CommitLock(now);
      } else if pin == PinUnlock {
        CommitUnlock(now);
      }
    }

    method CommitLock(now: nat)
      modifies this
      ensures State() == LockCommitted(old(State()), now)
    {
      locked := true;
      hazardActive := false;
      hazardLockedMode, hazardStep, hazardNext := true, 0, now;
      hazardActive := true;
      pesawatOn, pesawatStateHigh, pesawatNextToggle := true, true, now + 300;
    }

    method CommitUnlock(now: nat)
      modifies this
      ensures State() == UnlockCommitted(old(State()), now)
    {
      locked := false;
      hazardActive := false;
      hazardLockedMode, hazardStep, hazardNext := false, 0, now;
      hazardActive := true;
      pesawatOn, pesawatStateHigh := false, false;
    }

    method AlarmStep(now: nat) returns (fx: seq<Effect>)
      modifies this
      ensures State() == old(State()).(alarm := AlarmTick(old(State()).alarm, now).next)
      ensures fx == AlarmTick(old(State()).alarm, now).fx
    {
      fx := [];
      if alarmOn && now >= alarmNextToggle {
        if alarmStateHigh {
          fx := [Write(PinAlarm, false)];
          alarmStateHigh := false;
          alarmNextToggle := now + 200;
        } else {
          fx := [Write(PinAlarm, true)];
          alarmStateHigh := true;
          alarmNextToggle := now + 200;
        }
      }
    }

    method PesawatStep(now: nat) returns (fx: seq<Effect>)
      modifies this
      ensures State() == old(State()).(pesawat := PesawatTick(old(State()).pesawat, now).next)
      ensures fx == PesawatTick(old(State()).pesawat, now).fx
    {
      fx := [];
      if pesawatOn && now >= pesawatNextToggle {
        if pesawatStateHigh {
          fx := [Write(PinPesawat, false)];
          pesawatStateHigh := false;
          pesawatNextToggle := now + 3000;
        } else {
          fx := [Write(PinPesawat, true)];
          pesawatStateHigh := true;
          pesawatNextToggle := now + 100;
        }
      }
    }

    method HazardStep(now: nat) returns (fx: seq<Effect>)
      modifies this
      ensures State() == old(State()).(hazard := HazardTick(old(State()).hazard, now).next)
      ensures fx == HazardTick(old(State()).hazard, now).fx
    {
      fx := [];
      if hazardActive && now >= hazardNext {
        if hazardAlarmMode {
          if hazardStep == 0 {
            fx := [Write(PinHazzard, true)];
            hazardStep := 1;
            hazardNext := now + 200;
          } else {
            fx := [Write(PinHazzard, false)];
            hazardStep := 0;
            hazardNext := now + 200;
          }
        } else if hazardLockedMode {
          if hazardStep == 0 {
            fx := [Write(PinHazzard, true)];
            hazardNext := now + 400;
            hazardStep := hazardStep + 1;
          } else if hazardStep == 1 {
            fx := [Write(PinHazzard, false)];
            hazardNext := now + 200;
            hazardStep := hazardStep + 1;
          } else if hazardStep == 2 {
            fx := [Write(PinHazzard, true)];
            hazardNext := now + 400;
            hazardStep := hazardStep + 1;
          } else {
            fx := [Write(PinHazzard, false)];
            hazardActive := false;
          }
        } else {
          if hazardStep == 0 {
            fx := [Write(PinHazzard, true)];
            hazardNext := now + 1000;
            hazardStep := hazardStep + 1;
          } else {
            fx := [Write(PinHazzard, false)];
            hazardActive := false;
          }
        }
      }
    }

    method Update(now: nat) returns (fx: seq<Effect>)
      modifies this
      ensures State() == AfterUpdate(old(State()), now).next
      ensures fx == AfterUpdate(old(State()), now).fx
    {
      var pulseFx := PulseStep(now);
      var alarmFx := AlarmStep(now);
      var pesawatFx := PesawatStep(now);
      var hazardFx := HazardStep(now);
      fx := pulseFx + alarmFx + pesawatFx + hazardFx;
    }

    method CancelAll() returns (fx: seq<Effect>)
      modifies this
      ensures State() == AfterCancelAll(old(State())).next
      ensures fx == AfterCancelAll(old(State())).fx
    {
      pulseActive := false;
      pulsePin := -1;
      hazardActive := false;
      hazardAlarmMode := false;
      alarmOn := false;
      fx := [Write(PinHazzard, false), Write(PinPesawat, false)];
    }

    function IsLocked(): bool
      reads this
    {
      locked
    }

    method SetEngineState(on: bool, now: nat) returns (fx: seq<Effect>)
      modifies this
      ensures State() == AfterSetEngineState(old(State()), on, now).next
      ensures fx == AfterSetEngineState(old(State()), on, now).fx
    {
      if on {
        pesawatOn := false;
        pesawatStateHigh := false;
        fx := [Write(PinPesawat, false)];
      } else {
        if locked {
          pesawatOn := true;
          pesawatStateHigh := true;
          fx := [Write(PinPesawat, true)];
          pesawatNextToggle := now + 300;
        } else {
          pesawatOn := false;
          pesawatStateHigh := false;
          fx := [Write(PinPesawat, false)];
        }
      }
    }
  }

  // -------------------------------------------------------------------
  // Properties

  /** A lock request while locked or while a pulse is in flight only says
      so; unlock mirrors this while unlocked or busy. */
  lemma IgnoredRequests(d: DoorState, now: nat)
    ensures d.locked || d.pulse.active ==> AfterLockPulse(d, now) == Step(d, [Notify("IGNORED LOCK")])
    ensures !d.locked || d.pulse.active ==> AfterUnlockPulse(d, now) == Step(d, [Notify("IGNORED UNLOCK")])
  {
  }

  /** An accepted request drives the opposite solenoid LOW and its own HIGH
      and starts a 600 ms pulse; `locked` is not yet changed. */
  lemma AcceptedRequests(d: DoorState, now: nat)
    requires !d.pulse.active
    ensures !d.locked ==>
      AfterLockPulse(d, now).next == d.(pulse := Pulse(true, PinLock, now + 600)) &&
      AfterLockPulse(d, now).fx == [Write(PinUnlock, false), Write(PinLock, true), Notify("LOCK")]
    ensures d.locked ==>
      AfterUnlockPulse(d, now).next == d.(pulse := Pulse(true, PinUnlock, now + 600)) &&
      AfterUnlockPulse(d, now).fx == [Write(PinLock, false), Write(PinUnlock, true), Notify("UNLOCK")]
  {
  }

  /** The pulse invariant: a pulse is in flight exactly when a solenoid pin
      is recorded, and a lock pulse runs only while unlocked, an unlock
      pulse only while locked. */
  predicate PulseInv(d: DoorState) {
    (d.pulse.active <==> d.pulse.pin == PinLock || d.pulse.pin == PinUnlock) &&
    (d.pulse.active && d.pulse.pin == PinLock ==> !d.locked) &&
    (d.pulse.active && d.pulse.pin == PinUnlock ==> d.locked)
  }

  /** Every operation keeps the pulse invariant. */
  lemma PulseInvPreserved(d: DoorState, now: nat, on: bool)
    requires PulseInv(d)
    ensures PulseInv(Initial())
    ensures PulseInv(AfterLockPulse(d, now).next) && PulseInv(AfterUnlockPulse(d, now).next)
    ensures PulseInv(AfterSetAlarm(d, on, now).next) && PulseInv(AfterToggleAlarm(d, now).next)
    ensures PulseInv(AfterUpdate(d, now).next) && PulseInv(AfterCancelAll(d).next)
    ensures PulseInv(AfterSetEngineState(d, on, now).next)
  {
  }

  /** `locked` changes only in update, only when the pulse completes, and
      then to true for a lock pulse and false for an unlock pulse; the
      completed pulse is cleared. */
  lemma LockedChangesOnlyAtCompletion(d: DoorState, now: nat, on: bool)
    ensures AfterLockPulse(d, now).next.locked == d.locked
    ensures AfterUnlockPulse(d, now).next.locked == d.locked
    ensures AfterSetAlarm(d, on, now).next.locked == d.locked
    ensures AfterCancelAll(d).next.locked == d.locked
    ensures AfterSetEngineState(d, on, now).next.locked == d.locked
    ensures var n := AfterUpdate(d, now).next;
      n.locked != d.locked ==>
        d.pulse.active && now >= d.pulse.end && (n.locked <==> d.pulse.pin == PinLock)
    ensures var n := AfterUpdate(d, now).next;
      d.pulse.active && now >= d.pulse.end ==> !n.pulse.active && n.pulse.pin == -1
  {
  }

  /** Under the pulse invariant a completed pulse always flips `locked`. */
  lemma CompletionFlipsLocked(d: DoorState, now: nat)
    requires PulseInv(d) && d.pulse.active && now >= d.pulse.end
    ensures AfterUpdate(d, now).next.locked == !d.locked
  {
  }

  /** What a completed pulse starts: lock -> LOCK hazard pattern at step 0
      and the indicator HIGH with its next toggle 300 ms out; unlock ->
      UNLOCK pattern at step 0 and the indicator off. */
  lemma CompletionStarts(d: DoorState, now: nat)
    requires d.pulse.active && now >= d.pulse.end
    ensures d.pulse.pin == PinLock ==>
      var n := PulseTick(d, now).next;
      n.hazard == d.hazard.(active := true, lockedMode := true, step := 0, next := now) &&
      n.pesawat == Pesawat(true, true, now + 300) &&
      PulseTick(d, now).fx == [Write(PinLock, false), Notify("LOCKED"), Write(PinPesawat, true)]
    ensures d.pulse.pin == PinUnlock ==>
      var n := PulseTick(d, now).next;
      n.hazard == d.hazard.(active := true, lockedMode := false, step := 0, next := now) &&
      !n.pesawat.on && !n.pesawat.high &&
      PulseTick(d, now).fx == [Write(PinUnlock, false), Notify("UNLOCKED"), Write(PinPesawat, false)]
  {
  }

  /** The hazard output over successive ticks. */
  function HazardRun(h: Hazard, times: seq<nat>): (r: seq<Effect>)
    decreases |times|
  {
    if times == [] then []
    else HazardTick(h, times[0]).fx + HazardRun(HazardTick(h, times[0]).next, times[1..])
  }

  /** The hazard state after successive ticks. */
  function HazardAfter(h: Hazard, times: seq<nat>): Hazard
    decreases |times|
  {
    if times == [] then h else HazardAfter(HazardTick(h, times[0]).next, times[1..])
  }

  /** The LOCK pattern started at t: HIGH for 400 ms, LOW for 200 ms, HIGH
      for 400 ms, then LOW and the hazard stops. */
  lemma {:induction false} LockPattern(h: Hazard, t: nat)
    requires h.active && h.lockedMode && !h.alarmMode && h.step == 0 && h.next == t
    ensures HazardRun(h, [t, t + 400, t + 600, t + 1000]) ==
      [Write(PinHazzard, true), Write(PinHazzard, false), Write(PinHazzard, true), Write(PinHazzard, false)]
    ensures !HazardAfter(h, [t, t + 400, t + 600, t + 1000]).active
  {
    var ts := [t, t + 400, t + 600, t + 1000];
    var h1 := HazardTick(h, t).next;
    var h2 := HazardTick(h1, t + 400).next;
    var h3 := HazardTick(h2, t + 600).next;
    var h4 := HazardTick(h3, t + 1000).next;
    assert h1.step == 1 && h1.next == t + 400;
    assert h2.step == 2 && h2.next == t + 600;
    assert h3.step == 3 && h3.next == t + 1000;
    assert !h4.active;
    assert ts[1..][1..][1..][1..] == [];
    assert HazardRun(h3, ts[1..][1..][1..]) == [Write(PinHazzard, false)];
    assert HazardRun(h2, ts[1..][1..]) == [Write(PinHazzard, true), Write(PinHazzard, false)];
    assert HazardRun(h1, ts[1..]) ==
      [Write(PinHazzard, false), Write(PinHazzard, true), Write(PinHazzard, false)];
    assert HazardAfter(h3, ts[1..][1..][1..]) == h4;
    assert HazardAfter(h2, ts[1..][1..]) == h4;
    assert HazardAfter(h1, ts[1..]) == h4;
  }

  /** The LOCK pattern does not advance before its deadlines. */
  lemma HazardWaits(h: Hazard, now: nat)
    requires now < h.next
    ensures HazardTick(h, now) == Step(h, [])
  {
  }

  /** The UNLOCK pattern started at t: HIGH for 1000 ms, then LOW and the
      hazard stops. */
  lemma {:induction false} UnlockPattern(h: Hazard, t: nat)
    requires h.active && !h.lockedMode && !h.alarmMode && h.step == 0 && h.next == t
    ensures HazardRun(h, [t, t + 1000]) == [Write(PinHazzard, true), Write(PinHazzard, false)]
    ensures !HazardAfter(h, [t, t + 1000]).active
  {
    var ts := [t, t + 1000];
    var h1 := HazardTick(h, t).next;
    assert h1.step == 1 && h1.next == t + 1000;
    assert ts[1..][1..] == [];
    assert HazardRun(h1, ts[1..]) == [Write(PinHazzard, false)];
    assert HazardAfter(h1, ts[1..]) == HazardTick(h1, t + 1000).next;
  }

  /** Alarm mode takes precedence over both patterns, alternates the hazard
      output every 200 ms and never stops by itself. */
  lemma AlarmModeEndless(h: Hazard, now: nat)
    requires h.active && h.alarmMode && now >= h.next
    ensures var r := HazardTick(h, now);
      r.next.active && r.next.alarmMode && r.next.lockedMode == h.lockedMode &&
      r.next.next == now + 200 && r.fx == [Write(PinHazzard, h.step == 0)] &&
      (r.next.step == 0 <==> h.step != 0)
  {
  }

  /** The alarm output wave alternates every 200 ms while the alarm is on. */
  lemma AlarmWave(a: Alarm, now: nat)
    requires a.on && now >= a.nextToggle
    ensures var r := AlarmTick(a, now);
      r.next.high == !a.high && r.next.nextToggle == now + 200 && r.fx == [Write(PinAlarm, !a.high)]
  {
  }

  /** setAlarm(true) restarts the hazard in alarm mode at step 0, due at
      once; setAlarm(false) stops the hazard and drives it LOW but never
      writes the alarm output; toggleAlarm flips `alarmOn`. */
  lemma SetAlarmEffects(d: DoorState, now: nat)
    ensures var n := AfterSetAlarm(d, true, now).next;
      n.alarm.on && n.hazard.active && n.hazard.alarmMode && n.hazard.step == 0 && n.hazard.next == now
    ensures var r := AfterSetAlarm(d, false, now);
      !r.next.alarm.on && !r.next.hazard.active && !r.next.hazard.alarmMode &&
      Write(PinHazzard, false) in r.fx && !Drives(r.fx, PinAlarm)
    ensures AfterToggleAlarm(d, now).next.alarm.on == !d.alarm.on
  {
    var r := AfterSetAlarm(d, false, now);
    assert r.fx[0] == Write(PinHazzard, false);
  }

  /** Switching the alarm off can leave its output HIGH for good: neither
      setAlarm(false) nor the later ticks write it again. */
  lemma AlarmOutputLeftHigh(d: DoorState, now: nat, later: nat)
    requires d.alarm.high
    ensures var n := AfterSetAlarm(d, false, now).next;
      n.alarm.high && AlarmTick(n.alarm, later) == Step(n.alarm, [])
  {
  }

  /** cancelAll stops pulse, hazard and alarm and leaves `locked` alone; it
      neither releases a solenoid nor clears the indicator's on flag. */
  lemma CancelAllEffects(d: DoorState)
    ensures var n := AfterCancelAll(d).next;
      !n.pulse.active && n.pulse.pin == -1 && !n.hazard.active && !n.hazard.alarmMode &&
      !n.alarm.on && n.locked == d.locked && n.pesawat == d.pesawat
    ensures AfterCancelAll(d).fx == [Write(PinHazzard, false), Write(PinPesawat, false)]
    ensures !Drives(AfterCancelAll(d).fx, PinLock) && !Drives(AfterCancelAll(d).fx, PinUnlock)
  {
  }

  /** The indicator keeps blinking after cancelAll while it was on. */
  lemma IndicatorSurvivesCancel(d: DoorState, now: nat)
    requires d.pesawat.on && now >= d.pesawat.nextToggle
    ensures PesawatTick(AfterCancelAll(d).next.pesawat, now).fx != []
  {
  }

  /** setEngineState(true) turns the indicator off; setEngineState(false)
      arms it (HIGH, next toggle in 300 ms) only when locked. */
  lemma EngineStateIndicator(d: DoorState, now: nat)
    ensures var n := AfterSetEngineState(d, true, now).next;
      !n.pesawat.on && !n.pesawat.high
    ensures d.locked ==> AfterSetEngineState(d, false, now).next.pesawat == Pesawat(true, true, now + 300)
    ensures !d.locked ==> !AfterSetEngineState(d, false, now).next.pesawat.on
  {
  }

  /** Two lock requests in a row: the second is ignored, whether or not the
      first pulse has completed in between. */
  lemma {:induction false} LockTwice(d: DoorState, t1: nat, t2: nat, t3: nat)
    requires !d.locked && !d.pulse.active
    ensures var d1 := AfterLockPulse(d, t1).next;
      AfterLockPulse(d1, t3).fx == [Notify("IGNORED LOCK")] &&
      AfterLockPulse(AfterUpdate(d1, t2).next, t3).fx == [Notify("IGNORED LOCK")]
  {
    var d1 := AfterLockPulse(d, t1).next;
    assert d1.pulse.active;
    var u := AfterUpdate(d1, t2).next;
    assert u.locked || u.pulse.active;
  }

  /** Unlock then lock from a locked, idle door, each pulse given its 600 ms:
      the door ends locked with the indicator on. */
  lemma {:induction false} UnlockLockRoundTrip(d: DoorState, t: nat, t2: nat)
    requires d.locked && !d.pulse.active && t2 >= t + 600
    ensures var d1 := AfterUnlockPulse(d, t).next;
      var d2 := AfterUpdate(d1, t + 600).next;
      var d3 := AfterLockPulse(d2, t2).next;
      var d4 := AfterUpdate(d3, t2 + 600).next;
      !d2.locked && d4.locked && d4.pesawat.on && !d4.pulse.active
  {
    var d1 := AfterUnlockPulse(d, t).next;
    assert d1.pulse == Pulse(true, PinUnlock, t + 600);
    var d2 := AfterUpdate(d1, t + 600).next;
    assert !d2.locked && !d2.pulse.active;
    var d3 := AfterLockPulse(d2, t2).next;
    assert d3.pulse == Pulse(true, PinLock, t2 + 600);
    var p := PulseTick(d3, t2 + 600).next;
    assert p.locked && p.pesawat == Pesawat(true, true, t2 + 900);
  }
}
