/** The earlier firmware's main.cpp as an object: its globals are fields
    (the lock pulse, the blinkers and the warm-up schedule among them), the
    component objects it owns are constants, and each handler or block of
    loop() is a method that performs exactly the step the matching
    BackupMain function describes on a snapshot of the board. */
module BackupBoard {
  import opened Hw
  import opened Text
  import opened Clock
  import Store
  import Door
  import ButtonBackup
  import Remote
  import Warmup
  import BackupRtc
  import opened BackupMain

  class Firmware {
    // main.cpp's globals
    var engineOn: bool
    var out: Outputs
    var starter: Timer
    var startCar: Timer
    var warmActive: bool
    var warmEnd: nat
    var warmStarter: Timer
    var lastWarmDay: int
    var warmDurationMinutes: int
    // the lock pulse and the blinkers
    var locked: bool
    var pulse: Door.Pulse
    var pesawat: Door.Pesawat
    var hazard: Door.Hazard
    var alarm: Door.Alarm
    // the throttle of loop() and the connection flag
    var loopTick: nat
    var connected: bool

    // the component objects
    const button: ButtonBackup.ButtonTombol
    const rx: Remote.RX500Module
    const prefs: Store.Preferences
    const rtc: BackupRtc.RTCModule

    function G(): Globals
      reads this
    {
      Globals(engineOn, out, starter, startCar,
              Warm(warmActive, warmEnd, warmStarter, lastWarmDay, warmDurationMinutes), loopTick, connected)
    }

    function DoorNow(): Door.DoorState
      reads this
    {
      Door.DoorState(locked, pulse, pesawat, hazard, alarm)
    }

    /** The snapshot the BackupMain functions work on. */
    function World(): BackupMain.World
      reads this, button, rx, prefs, rtc
    {
      BackupMain.World(G(), DoorNow(), button.State(), rx.Last(), rx.Registrations(), prefs.ints, rtc.adjusted)
    }

    /** The globals' initial values followed by the loading and wiring of
        setup(): the stored settings, the receiver's and the button's
        current readings are inputs. */
    constructor(stored: map<string, int>, levels: Remote.Levels, reading: bool, now: nat)
      ensures World() == Boot(stored, levels, reading, now)
    {
      engineOn := false;
      out := Outputs(false, false, false);
      starter, startCar := Timer(false, 0), Timer(false, 0);
      warmActive, warmEnd, warmStarter, lastWarmDay := false, 0, Timer(false, 0), -1;
      locked := false;
      pulse := Door.Pulse(false, -1, 0);
      pesawat := Door.Pesawat(false, false, 0);
      hazard := Door.Hazard(false, false, 0, 0, false);
      alarm := Door.Alarm(false, false, 0);
      loopTick, connected := 0, false;
      var p := new Store.Preferences(stored);
      warmDurationMinutes := p.GetInt("warmlen", DefaultWarmMinutes);
      var x := NewReceiver(levels);
      var b := NewButton(reading, now);
      var r := new BackupRtc.RTCModule();
      prefs, rx, button, rtc := p, x, b, r;
    }

    // -----------------------------------------------------------------
    // Lock, alarm, engine state and resetAll

    method StartLockPulse(now: nat) returns (fx: seq<Effect>)
      modifies this
      ensures Step(DoorNow(), fx) == LockPulse(old(DoorNow()), now)
      ensures G() == old(G())
    {
      if locked || pulse.active {
        fx := [Notify("IGNORED:LOCK")];
      } else {
        fx := [Write(PinUnlock, false), Write(PinLock, true)];
        pulse := Door.Pulse(true, PinLock, now + PulseMs);
        fx := fx + [Notify("ACK:LOCK")];
      }
    }

    method StartUnlockPulse(now: nat) returns (fx: seq<Effect>)
      modifies this
      ensures Step(DoorNow(), fx) == UnlockPulse(old(DoorNow()), now)
      ensures G() == old(G())
    {
      if !locked || pulse.active {
        fx := [Notify("IGNORED:UNLOCK")];
      } else {
        fx := [Write(PinLock, false), Write(PinUnlock, true)];
        pulse := Door.Pulse(true, PinUnlock, now + PulseMs);
        fx := fx + [Notify("ACK:UNLOCK")];
      }
    }

    /** alarm_on / alarm_off and the remote's alarm toggle. */
    method SetAlarm(on: bool, now: nat) returns (fx: seq<Effect>)
      modifies this
      ensures Step(DoorNow(), fx) == AlarmSwitch(old(DoorNow()), on, now)
      ensures G() == old(G())
    {
      if on {
        alarm := alarm.(on := true);
        hazard := hazard.(alarmMode := true, active := true, step := 0, next := now);
        fx := [Notify("ACK:ALARM ON")];
      } else {
        alarm := alarm.(on := false);
        hazard := hazard.(alarmMode := false, active := false);
        fx := [Write(PinHazzard, false), Notify("ACK:ALARM OFF")];
      }
    }

    /** setEngineState(on). */
    method SetEngineState(on: bool, now: nat) returns (fx: seq<Effect>)
      modifies this, button
      ensures Step(World(), fx) == SetEngine(old(World()), on, now)
    {
      engineOn := on;
      if on {
        pesawat := pesawat.(on := false, high := false);
        fx := [Write(PinPesawat, false)];
        button.SetEngineStatus(true);
      } else {
        if locked {
          pesawat := Door.Pesawat(true, true, now + 300);
          fx := [Write(PinPesawat, true)];
        } else {
          pesawat := pesawat.(on := false, high := false);
          fx := [Write(PinPesawat, false)];
        }
        button.SetEngineStatus(false);
      }
    }

    /** resetAll(). */
    method ResetAll(now: nat) returns (fx: seq<Effect>)
      modifies this, button
      ensures Step(World(), fx) == BackupMain.ResetAll(old(World()), now)
    {
      ResetOutputs();
      var e := SetEngineState(false, now);
      fx := [Write(PinAcc, false), Write(PinIg, false), Write(PinAlarm, false), Write(PinStarter, false)] + e +
            [Notify("ACK:RESET_ALL")];
    }

    /** The fields resetAll clears before setEngineState(false). */
    method ResetOutputs()
      modifies this
      ensures G() == old(G()).(out := old(out).(acc := false, ig := false), starter := old(starter).(on := false))
      ensures DoorNow() == old(DoorNow()).(alarm := old(alarm).(on := false, high := false))
    {
      out := out.(acc := false, ig := false);
      alarm := alarm.(on := false, high := false);
      starter := starter.(on := false);
    }

    /** One button effect, with the registered callbacks carried out. */
    method ApplyCallback(e: Effect, now: nat) returns (fx: seq<Effect>)
      modifies this, button
      ensures Step(World(), fx) == Callback(old(World()), e, now)
    {
      match e
      case EngineSetter(on) => fx := SetEngineState(on, now);
      case ResetRequest => fx := ResetAll(now);
      case _ => fx := [e];
    }

    /** The button's effects in order, each callback carried out as it
        comes. */
    method ResolveAll(fx0: seq<Effect>, now: nat) returns (fx: seq<Effect>)
      modifies this, button
      ensures Step(World(), fx) == Resolve(old(World()), fx0, now)
    {
      fx := [];
      var i := 0;
      while i < |fx0|
        invariant 0 <= i <= |fx0|
        invariant var r := Resolve(World(), fx0[i..], now);
          Resolve(old(World()), fx0, now) == Step(r.next, fx + r.fx)
      {
        ghost var before := World();
        var h := ApplyCallback(fx0[i], now);
        assert fx0[i..][1..] == fx0[i + 1..];
        ghost var r := Resolve(World(), fx0[i + 1..], now);
        assert Resolve(before, fx0[i..], now) == Step(r.next, h + r.fx);
        assert fx + (h + r.fx) == (fx + h) + r.fx;
        fx := fx + h;
        i := i + 1;
      }
    }

    /** A 1000 ms starter pulse with the engine reported on. */
    method EngageStarter(now: nat) returns (fx: seq<Effect>)
      modifies this, button
      ensures Step(World(), fx) == BackupMain.EngageStarter(old(World()), now)
    {
      starter := Timer(true, now + StarterPulseMs);
      var e := SetEngineState(true, now);
      fx := [Write(PinStarter, true)] + e;
    }

    // -----------------------------------------------------------------
    // The remote callbacks

    method RemoteStart(now: nat) returns (fx: seq<Effect>)
      modifies this, button
      ensures Step(World(), fx) == BackupMain.RemoteStart(old(World()), now)
    {
      if !engineOn {
        out := out.(acc := true, ig := true);
        startCar := Timer(true, now + StarterDelayMs);
        var e := SetEngineState(true, now);
        fx := [Write(PinAcc, true), Write(PinIg, true)] + e + [Notify("ACK:START THE CAR SCHEDULED")];
      } else {
        fx := ResetAll(now);
      }
    }

    method RemoteEvent(e: Remote.RemoteEvent, now: nat) returns (fx: seq<Effect>)
      modifies this, button
      ensures Step(World(), fx) == OnRemote(old(World()), e, now)
    {
      match e
      case LockPressed => fx := StartLockPulse(now);
      case UnlockPressed => fx := StartUnlockPulse(now);
      case StartPressed => fx := RemoteStart(now);
      case AlarmTogglePressed => fx := SetAlarm(!alarm.on, now);
    }

    /** The callbacks of the events of one receiver update, in order. */
    method RemoteEvents(evs: seq<Remote.RemoteEvent>, now: nat) returns (fx: seq<Effect>)
      modifies this, button
      ensures Step(World(), fx) == OnRemoteAll(old(World()), evs, now)
    {
      fx := [];
      var i := 0;
      while i < |evs|
        invariant 0 <= i <= |evs|
        invariant var r := OnRemoteAll(World(), evs[i..], now);
          OnRemoteAll(old(World()), evs, now) == Step(r.next, fx + r.fx)
      {
        ghost var before := World();
        var h := RemoteEvent(evs[i], now);
        assert evs[i..][1..] == evs[i + 1..];
        ghost var r := OnRemoteAll(World(), evs[i + 1..], now);
        assert OnRemoteAll(before, evs[i..], now) == Step(r.next, h + r.fx);
        assert fx + (h + r.fx) == (fx + h) + r.fx;
        fx := fx + h;
        i := i + 1;
      }
    }

    // -----------------------------------------------------------------
    // The BLE handlers

    /** acc_on, acc_off, ig_on, ig_off, lamp_on, lamp_off. */
    method Switch(c: Command) returns (fx: seq<Effect>)
      requires IsSwitch(c)
      modifies this
      ensures Step(World(), fx) == SwitchCmd(old(World()), c)
    {
      match c
      case AccOn => out, fx := out.(acc := true), [Write(PinAcc, true), Notify("ACK:ACC ON")];
      case AccOff => out, fx := out.(acc := false), [Write(PinAcc, false), Notify("ACK:ACC OFF")];
      case IgOn => out, fx := out.(ig := true), [Write(PinIg, true), Notify("ACK:IG ON")];
      case IgOff => out, fx := out.(ig := false), [Write(PinIg, false), Notify("ACK:IG OFF")];
      case LampOn => out, fx := out.(lamp := true), [Write(PinLamp, true), Notify("ACK:LAMP ON")];
      case LampOff => out, fx := out.(lamp := false), [Write(PinLamp, false), Notify("ACK:LAMP OFF")];
    }

    method StartTheCar(now: nat) returns (fx: seq<Effect>)
      modifies this
      ensures Step(World(), fx) == StartTheCarCmd(old(World()), now)
    {
      out := out.(acc := true, ig := true);
      startCar := Timer(true, now + StarterDelayMs);
      fx := [Write(PinAcc, true), Write(PinIg, true), Notify("ACK:START THE CAR")];
    }

    method StarterOn(now: nat) returns (fx: seq<Effect>)
      modifies this, button
      ensures Step(World(), fx) == StarterOnCmd(old(World()), now)
    {
      if !starter.on {
        fx := EngageStarter(now);
        fx := fx + [Notify("ACK:STARTER ON")];
      } else {
        fx := [Notify("IGNORED:STARTER ON")];
      }
    }

    /** lock, unlock, alarm_on, alarm_off. */
    method DoorRequest(c: Command, now: nat) returns (fx: seq<Effect>)
      requires IsDoorCmd(c)
      modifies this
      ensures Step(World(), fx) == DoorCmd(old(World()), c, now)
    {
      match c
      case Lock => fx := StartLockPulse(now);
      case Unlock => fx := StartUnlockPulse(now);
      case AlarmOn => fx := SetAlarm(true, now);
      case AlarmOff => fx := SetAlarm(false, now);
    }

    method DispatchCmd(c: Command, now: nat) returns (fx: seq<Effect>)
      requires !c.Unknown?
      modifies this, button
      ensures Step(World(), fx) == Dispatch(old(World()), c, now)
    {
      if IsSwitch(c) {
        fx := Switch(c);
      } else if c.StartTheCar? {
        fx := StartTheCar(now);
      } else if c.StarterOn? {
        fx := StarterOn(now);
      } else {
        fx := DoorRequest(c, now);
      }
    }

    /** The write handler for the raw text `val`. */
    method HandleWrite(val: string, now: nat) returns (fx: seq<Effect>)
      modifies this, button
      ensures Step(World(), fx) == Handle(old(World()), val, now)
    {
      var cmd := NormalizeCmd(val);
      var c := Classify(cmd);
      if c.Unknown? {
        fx := [Notify("UNKNOWN:" + PrettyCmd(val))];
      } else {
        fx := DispatchCmd(c, now);
      }
    }

    /** The connection handler. */
    method Connection(isConnected: bool) returns (fx: seq<Effect>)
      modifies this
      ensures Step(World(), fx) == OnConnect(old(World()), isConnected)
    {
      connected := isConnected;
      fx := [Write(PinLedConn, isConnected)];
    }

    // -----------------------------------------------------------------
    // The blocks of loop()

    /** Pulse completion. */
    method PulseStep(now: nat) returns (fx: seq<Effect>)
      modifies this
      ensures Step(DoorNow(), fx) == Door.PulseTick(old(DoorNow()), now)
      ensures G() == old(G())
    {
      fx := [];
      if pulse.active && now >= pulse.end {
        fx := [Write(pulse.pin, false)];
        var pin := pulse.pin;
        pulse := pulse.(active := false);
        if pin == PinLock {
          locked := true;
          fx := fx + [Notify("LOCKED")];
          hazard := hazard.(lockedMode := true, step := 0, next := now, active := true);
          pesawat := Door.Pesawat(true, true, now + 300);
          fx := fx + [Write(PinPesawat, true)];
        } else if pin == PinUnlock {
          locked := false;
          fx := fx + [Notify("UNLOCKED")];
          hazard := hazard.(lockedMode := false, step := 0, next := now, active := true);
          pesawat := pesawat.(on := false, high := false);
          fx := fx + [Write(PinPesawat, false)];
        }
        pulse := pulse.(pin := -1);
      }
    }

    /** Starter completion. */
    method StarterDoneStep(now: nat) returns (fx: seq<Effect>)
      modifies this
      ensures Step(World(), fx) == StarterDone(old(World()), now)
    {
      fx := [];
      if starter.on && now >= starter.at {
        fx := [Write(PinStarter, false)];
        starter := starter.(on := false);
        fx := fx + [Notify("ACK:STARTER_DONE")];
      }
    }

    /** The alarm output wave. */
    method AlarmStep(now: nat) returns (fx: seq<Effect>)
      modifies this
      ensures Step(alarm, fx) == Door.AlarmTick(old(alarm), now)
      ensures G() == old(G()) && locked == old(locked) && pulse == old(pulse)
      ensures pesawat == old(pesawat) && hazard == old(hazard)
    {
      fx := [];
      if alarm.on && now >= alarm.nextToggle {
        if alarm.high {
          fx := [Write(PinAlarm, false)];
          alarm := alarm.(high := false, nextToggle := now + 200);
        } else {
          fx := [Write(PinAlarm, true)];
          alarm := alarm.(high := true, nextToggle := now + 200);
        }
      }
    }

    /** The indicator blink. */
    method PesawatStep(now: nat) returns (fx: seq<Effect>)
      modifies this
      ensures Step(pesawat, fx) == Door.PesawatTick(old(pesawat), now)
      ensures G() == old(G()) && locked == old(locked) && pulse == old(pulse)
      ensures alarm == old(alarm) && hazard == old(hazard)
    {
      fx := [];
      if pesawat.on && now >= pesawat.nextToggle {
        if pesawat.high {
          fx := [Write(PinPesawat, false)];
          pesawat := pesawat.(high := false, nextToggle := now + 3000);
        } else {
          fx := [Write(PinPesawat, true)];
          pesawat := pesawat.(high := true, nextToggle := now + 100);
        }
      }
    }

    /** The hazard state machine. */
    method HazardStep(now: nat) returns (fx: seq<Effect>)
      modifies this
      ensures Step(hazard, fx) == Door.HazardTick(old(hazard), now)
      ensures G() == old(G()) && locked == old(locked) && pulse == old(pulse)
      ensures alarm == old(alarm) && pesawat == old(pesawat)
    {
      fx := [];
      if hazard.active && now >= hazard.next {
        if hazard.alarmMode {
          if hazard.step == 0 {
            fx := [Write(PinHazzard, true)];
            hazard := hazard.(step := 1, next := now + 200);
          } else {
            fx := [Write(PinHazzard, false)];
            hazard := hazard.(step := 0, next := now + 200);
          }
        } else if hazard.lockedMode {
          if hazard.step == 0 {
            fx := [Write(PinHazzard, true)];
            hazard := hazard.(next := now + 400, step := 1);
          } else if hazard.step == 1 {
            fx := [Write(PinHazzard, false)];
            hazard := hazard.(next := now + 200, step := 2);
          } else if hazard.step == 2 {
            fx := [Write(PinHazzard, true)];
            hazard := hazard.(next := now + 400, step := 3);
          } else {
            fx := [Write(PinHazzard, false)];
            hazard := hazard.(active := false);
          }
        } else {
          if hazard.step == 0 {
            fx := [Write(PinHazzard, true)];
            hazard := hazard.(next := now + 1000, step := 1);
          } else {
            fx := [Write(PinHazzard, false)];
            hazard := hazard.(active := false);
          }
        }
      }
    }

    /** Pulse, starter, alarm, indicator and hazard, in that order. */
    method TicksStep(now: nat) returns (fx: seq<Effect>)
      modifies this
      ensures Step(World(), fx) == Ticks(old(World()), now)
    {
      var p := PulseStep(now);
      var s := StarterDoneStep(now);
      var a := AlarmStep(now);
      var q := PesawatStep(now);
      var h := HazardStep(now);
      fx := p + s + a + q + h;
    }

    /** rx500.update() and buttonTombol.update(), with their callbacks. */
    method UpdateRemoteAndButton(inp: Inputs, now: nat) returns (fx: seq<Effect>)
      modifies this, button, rx
      ensures Step(World(), fx) == RemoteAndButton(old(World()), inp, now)
    {
      var evs := rx.Update(inp.remote);
      var r := RemoteEvents(evs, now);
      var b := button.Update(inp.buttonLevel, now);
      var z := ResolveAll(b, now);
      fx := r + z;
    }

    /** A warm-up cycle starting now. */
    method WarmStart(now: nat) returns (fx: seq<Effect>)
      modifies this
      ensures Step(World(), fx) == BackupMain.WarmStart(old(World()), now)
    {
      ArmWarm(now + Warmup.Span(warmDurationMinutes), now + StarterDelayMs);
      fx := [Write(PinIg, true), Notify("ACK:WARM_ON")];
    }

    /** The fields a warm-up start sets. */
    method ArmWarm(end: nat, starterAt: nat)
      modifies this
      ensures G() == old(G()).(warm := old(G()).warm.(active := true, end := end, starter := Timer(true, starterAt)),
                                out := old(out).(ig := true))
      ensures DoorNow() == old(DoorNow())
    {
      warmActive := true;
      warmEnd := end;
      out := out.(ig := true);
      warmStarter := Timer(true, starterAt);
    }

    /** `warmlen <arg>`. */
    method WarmLen(arg: string)
      modifies this, prefs
      ensures World() == SetWarmLen(old(World()), arg)
    {
      if arg != [] {
        var m := AtoL(arg);
        if 1 <= m <= 60 {
          warmDurationMinutes := m;
          prefs.PutInt("warmlen", m);
        }
      }
    }

    /** `setrtc <arg>`: no argument or "now" sets the compile time,
        anything else goes through setNowFromString. */
    method SetRtcCommand(arg: string)
      modifies rtc
      ensures World() == AdjustRtc(old(World()), arg)
    {
      if arg == [] || LowerAll(arg) == "now" {
        rtc.SetNowToCompileTime();
      } else {
        var _ := rtc.SetNowFromString(arg);
      }
    }

    /** One console command. */
    method SerialCommand(c: SerialCommand, now: nat) returns (fx: seq<Effect>)
      modifies this, prefs, rtc
      ensures Step(World(), fx) == SerialCmd(old(World()), c, now)
    {
      fx := [];
      match c
      case ForceWarm =>
        if !warmActive {
          fx := WarmStart(now);
        }
      case SerialLock => fx := StartLockPulse(now);
      case SerialUnlock => fx := StartUnlockPulse(now);
      case WarmLen(arg) => WarmLen(arg);
      case ShowRtc =>
      case I2cScan =>
      case SetRtc(arg) => SetRtcCommand(arg);
      case Help =>
      case Unrecognised =>
    }

    /** A line from the serial console, if one arrived. */
    method SerialStep(line: Option<string>, now: nat) returns (fx: seq<Effect>)
      modifies this, prefs, rtc
      ensures Step(World(), fx) == Serial(old(World()), line, now)
    {
      fx := [];
      if line.Some? {
        var cmd := Trim(line.value);
        if cmd != [] {
          fx := SerialCommand(ClassifySerial(cmd), now);
        }
      }
    }

    /** The daily 08:00 trigger. */
    method DailyStep(reading: DateTime, now: nat) returns (fx: seq<Effect>)
      modifies this
      ensures Step(World(), fx) == Daily(old(World()), reading, now)
    {
      fx := [];
      var f := ReadClock(BackupRtc.NowString(reading));
      if f.hour == WarmHour && f.minute == 0 && lastWarmDay != f.day {
        lastWarmDay := f.day;
        fx := WarmStart(now);
      }
    }

    /** The warm-up's pending starter. */
    method WarmPendingStep(now: nat) returns (fx: seq<Effect>)
      modifies this, button
      ensures Step(World(), fx) == WarmPending(old(World()), now)
    {
      fx := [];
      if warmStarter.on && now >= warmStarter.at {
        warmStarter := warmStarter.(on := false);
        if !starter.on {
          fx := EngageStarter(now);
        }
      }
    }

    /** The pending start_the_car starter. */
    method StartCarStep(now: nat) returns (fx: seq<Effect>)
      modifies this, button
      ensures Step(World(), fx) == StartCarPending(old(World()), now)
    {
      fx := [];
      if startCar.on && now >= startCar.at {
        startCar := startCar.(on := false);
        if !starter.on {
          fx := EngageStarter(now);
          fx := fx + [Notify("ACK:STARTER ON")];
        }
      }
    }

    /** The end of a warm-up cycle. */
    method WarmEndStep(now: nat) returns (fx: seq<Effect>)
      modifies this
      ensures Step(World(), fx) == WarmEnd(old(World()), now)
    {
      fx := [];
      if warmActive && now >= warmEnd {
        AllOff();
        fx := [Write(PinAcc, false), Write(PinIg, false), Write(PinStarter, false), Write(PinLamp, false),
               Write(PinAlarm, false), Notify("ACK:WARM_DONE")];
      }
    }

    /** The fields the end of a warm-up cycle clears. */
    method AllOff()
      modifies this
      ensures G() == old(G()).(warm := old(G()).warm.(active := false), out := Outputs(false, false, false),
                                starter := old(starter).(on := false), engineOn := false)
      ensures DoorNow() == old(DoorNow()).(alarm := old(alarm).(on := false, high := false))
    {
      warmActive := false;
      out := Outputs(false, false, false);
      starter := starter.(on := false);
      engineOn := false;
      alarm := alarm.(on := false, high := false);
    }

    /** Console, daily trigger, pending starters, warm-up end. */
    method RunTimers(inp: Inputs, now: nat) returns (fx: seq<Effect>)
      modifies this, button, prefs, rtc
      ensures Step(World(), fx) == Timers(old(World()), inp, now)
    {
      var s := SerialStep(inp.serial, now);
      var d := DailyStep(inp.reading, now);
      var a := WarmPendingStep(now);
      var b := StartCarStep(now);
      var e := WarmEndStep(now);
      fx := s + d + (a + b) + e;
    }

    /** loop(): at most one pass every 10 ms. */
    method Loop(inp: Inputs, now: nat) returns (fx: seq<Effect>)
      modifies this, button, rx, prefs, rtc
      ensures Step(World(), fx) == BackupMain.Loop(old(World()), inp, now)
    {
      fx := [];
      if now - loopTick >= LoopPeriodMs {
        ghost var w0 := World();
        loopTick := now;
        assert World() == w0.(g := w0.g.(loopTick := now));
        var a := TicksStep(now);
        ghost var sa := Ticks(w0.(g := w0.g.(loopTick := now)), now);
        assert World() == sa.next && a == sa.fx;
        var b := UpdateRemoteAndButton(inp, now);
        ghost var sb := RemoteAndButton(sa.next, inp, now);
        assert World() == sb.next && b == sb.fx;
        var c := RunTimers(inp, now);
        fx := a + b + c;
      }
    }
  }

  method NewButton(reading: bool, now: nat) returns (b: ButtonBackup.ButtonTombol)
    ensures fresh(b)
    ensures b.State() == Boot(map[], Remote.Levels(false, false, false, false), reading, now).button
  {
    b := new ButtonBackup.ButtonTombol(PinLedPower);
    var _ := b.Begin(reading, now);
    b.SetResetCallback();
    b.SetEngineSetter();
  }

  method NewReceiver(levels: Remote.Levels) returns (x: Remote.RX500Module)
    ensures fresh(x)
    ensures x.Last() == levels && x.Registrations() == Remote.Callbacks(true, true, true, true)
  {
    x := new Remote.RX500Module();
    x.Begin(levels);
    x.SetOnLock();
    x.SetOnUnlock();
    x.SetOnStart();
    x.SetOnAlarmToggle();
  }
}
