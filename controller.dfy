/** The live firmware's main.cpp as an object: its globals are fields, the
    component objects it owns are constants, and each handler or pass of
    loop() is a method that performs, on the objects, exactly the step the
    matching Arbiter function describes on a snapshot of the board. */
module Controller {
  import opened Hw
  import opened Text
  import Rtc
  import Store
  import Door
  import Button
  import Remote
  import Warmup
  import opened Arbiter

  class Firmware {
    // main.cpp's globals
    var engineOn: bool
    var out: Outputs
    var starter: Warmup.Starter
    var startCar: StartCar
    var resetPending: bool
    var resetAt: nat
    // the static timers of loop() and the connection flag
    var loopTick: nat
    var lastRtc: nat
    var connected: bool

    // the component objects
    const door: Door.DoorControl
    const warm: Warmup.WarmUpEngine
    const button: Button.ButtonTombol
    const rx: Remote.RX500Module
    const rtc: Rtc.RTCModule
    const prefs: Store.Preferences

    /** The warm-up scheduler reads this board's clock and settings. */
    predicate Valid()
      reads this, warm
    {
      warm.rtc == rtc && warm.prefs == prefs
    }

    function G(): Globals
      reads this
    {
      Globals(engineOn, out, starter, startCar, resetPending, resetAt, loopTick, lastRtc, connected)
    }

    /** The snapshot the Arbiter functions work on. */
    function World(): Arbiter.World
      reads this, door, warm, button, rx, rtc, prefs
    {
      Arbiter.World(G(), door.State(), warm.State(), button.State(), rtc.status, rx.Last(),
                    rx.Registrations(), prefs.ints)
    }

    /** The globals' initial values followed by the wiring and loading of
        setup(): the stored settings, the clock chip, the receiver's and
        the button's current readings are inputs. */
    constructor(stored: map<string, int>, chip: Rtc.Chip, levels: Remote.Levels, reading: bool, now: nat)
      ensures Valid()
      ensures World() == Boot(stored, chip, levels, reading, now)
    {
      engineOn := false;
      out := Outputs(false, false, false, false, false);
      starter := Warmup.Starter(false, 0);
      startCar := StartCar(false, 0, 0);
      resetPending, resetAt := false, 0;
      loopTick, lastRtc, connected := 0, 0, false;
      var p := new Store.Preferences(stored);
      var r := new Rtc.RTCModule();
      var _ := r.Begin(chip);
      var d := new Door.DoorControl();
      var _ := d.Begin();
      var wu := NewWarmUp(r, p);
      var b := NewButton(p, reading, now);
      var x := NewReceiver(levels);
      prefs, rtc, door, warm, button, rx := p, r, d, wu, b, x;
    }

    /** setEngineState(on). */
    method SetEngineState(on: bool, now: nat) returns (fx: seq<Effect>)
      requires Valid()
      modifies this, door, button
      ensures Valid()
      ensures Step(World(), fx) == SetEngine(old(World()), on, now)
    {
      engineOn := on;
      fx := door.SetEngineState(on, now);
      button.SetEngineStatus(on);
    }

    /** resetAll(). */
    method ResetAll(now: nat) returns (fx: seq<Effect>)
      requires Valid()
      modifies this, door, warm, button
      ensures Valid()
      ensures Step(World(), fx) == Reset(old(World()), now)
    {
      var a := ResetOutputsNow(now);
      var b := ResetCancelNow(now);
      fx := a + b;
    }

    method ResetOutputsNow(now: nat) returns (fx: seq<Effect>)
      requires Valid()
      modifies this, door, button
      ensures Valid()
      ensures Step(World(), fx) == ResetOutputs(old(World()), now)
    {
      out := out.(ig := false, alarm := false, alarmHigh := false);
      starter := starter.(active := false);
      var e := SetEngineState(false, now);
      fx := [Write(PinIg, false), Write(PinStarter, false), Write(PinAlarm, false)] + e;
    }

    method ResetCancelNow(now: nat) returns (fx: seq<Effect>)
      requires Valid()
      modifies this, door, warm
      ensures Valid()
      ensures Step(World(), fx) == ResetCancel(old(World()), now)
    {
      startCar := startCar.(pending := false, stage := 0);
      warm.CancelWarm();
      var c := door.CancelAll();
      resetPending, resetAt := true, now + ResetDelayMs;
      fx := c + [Notify("RESET ALL SCHEDULED")];
    }

    /** One component effect, with the registered callbacks carried out. */
    method ApplyCallback(e: Effect, now: nat) returns (fx: seq<Effect>)
      requires Valid()
      modifies this, door, warm, button
      ensures Valid()
      ensures Step(World(), fx) == Callback(old(World()), e, now)
    {
      match e
      case EngineSetter(on) => fx := SetEngineState(on, now);
      case ResetRequest => fx := ResetAll(now);
      case _ => fx := [e];
    }

    /** A component's effects in order, each callback carried out as it
        comes. */
    method ResolveAll(fx0: seq<Effect>, now: nat) returns (fx: seq<Effect>)
      requires Valid()
      modifies this, door, warm, button
      ensures Valid()
      ensures Step(World(), fx) == Resolve(old(World()), fx0, now)
    {
      fx := [];
      var i := 0;
      while i < |fx0|
        invariant 0 <= i <= |fx0|
        invariant Valid()
        invariant var r := Resolve(World(), fx0[i..], now);
          Resolve(old(World()), fx0, now) == Step(r.next, fx + r.fx)
      {
        ghost var before := World();
        var h := ApplyCallback(fx0[i], now);
        assert fx0[i..][1..] == fx0[i + 1..];
        ghost var r := Resolve(World(), fx0[i + 1..], now);
        assert Resolve(before, fx0[i..], now) == Step(r.next, h + r.fx);
        assert fx + (h + r.fx) == (fx + h) + r.fx;
        fx := fx + h;
        i := i + 1;
      }
    }

    /** buttonTombol.triggerStart() with its callbacks, then `msg`. */
    method TriggerStart(now: nat, msg: string) returns (fx: seq<Effect>)
      requires Valid()
      modifies this, door, warm, button
      ensures Valid()
      ensures Step(World(), fx) == Arbiter.TriggerStart(old(World()), now, msg)
    {
      var t := button.TriggerStart(now);
      fx := ResolveAll(t, now);
      fx := fx + [Notify(msg)];
    }

    /** A 1000 ms starter pulse with the engine reported on. */
    method EngageStarter(now: nat) returns (fx: seq<Effect>)
      requires Valid()
      modifies this, door, button
      ensures Valid()
      ensures Step(World(), fx) == Arbiter.EngageStarter(old(World()), now)
    {
      starter := Warmup.Starter(true, now + StarterPulseMs);
      var e := SetEngineState(true, now);
      fx := [Write(PinStarter, true)] + e + [Notify("STARTER ON")];
    }

    /** acc_on, acc_off, ig_on, ig_off, lamp_on, lamp_off. */
    method Switch(c: Command) returns (fx: seq<Effect>)
      requires IsSwitch(c)
      modifies this
      ensures Step(World(), fx) == SwitchCmd(old(World()), c)
    {
      match c
      case AccOn => out, fx := out.(acc := true), [Write(PinAcc, true), Notify("ACC ON")];
      case AccOff => out, fx := out.(acc := false), [Write(PinAcc, false), Notify("ACC OFF")];
      case IgOn => out, fx := out.(ig := true), [Write(PinIg, true), Notify("IGNITION ON")];
      case IgOff => out, fx := out.(ig := false), [Write(PinIg, false), Notify("IGNITION OFF")];
      case LampOn => out, fx := out.(lamp := true), [Write(PinLamp, true), Notify("LAMP ON")];
      case LampOff => out, fx := out.(lamp := false), [Write(PinLamp, false), Notify("LAMP OFF")];
    }

    /** lock, unlock, alarm_on, alarm_off. */
    method DoorRequest(c: Command, now: nat) returns (fx: seq<Effect>)
      requires IsDoorCmd(c)
      modifies door
      ensures Step(World(), fx) == DoorCmd(old(World()), c, now)
    {
      match c
      case Lock => fx := door.LockPulse(now);
      case Unlock => fx := door.UnlockPulse(now);
      case AlarmOn => fx := door.SetAlarm(true, now);
      case AlarmOff => fx := door.SetAlarm(false, now);
    }

    method StartTheCar(now: nat) returns (fx: seq<Effect>)
      requires Valid()
      modifies this, door, warm, button
      ensures Valid()
      ensures Step(World(), fx) == StartTheCarCmd(old(World()), now)
    {
      if engineOn || starter.active || startCar.pending {
        fx := [Notify("ENGINE ALREADY ON")];
      } else {
        fx := TriggerStart(now, "START THE CAR");
      }
    }

    method StarterOn(now: nat) returns (fx: seq<Effect>)
      requires Valid()
      modifies this, door, button
      ensures Valid()
      ensures Step(World(), fx) == StarterOnCmd(old(World()), now)
    {
      if !starter.active {
        fx := EngageStarter(now);
      } else {
        fx := [Notify("IGNORED STARTER ON")];
      }
    }

    /** "btncd <ms>": the countdown and its persisted copy. */
    method BtnCd(arg: string) returns (fx: seq<Effect>)
      modifies button, prefs
      ensures Step(World(), fx) == BtnCdCmd(old(World()), arg)
    {
      var r := BtnCdDecide(arg);
      if r.CountdownSet? {
        button.SetCountdownMs(r.ms);
        prefs.PutInt("btncd", r.ms);
      }
      fx := [Notify(BtnCdMessage(r))];
    }

    /** "setrtc <stamp>". */
    method SetRtc(arg: string, chip: Rtc.Chip) returns (fx: seq<Effect>)
      modifies rtc
      ensures Step(World(), fx) == SetRtcCmd(old(World()), arg, chip)
    {
      if arg == [] || arg == "now" {
        fx := [Notify("RTC SET DECLINED")];
      } else {
        var ok, _ := rtc.SetNowFromString(arg);
        if ok {
          fx := [Notify("RTC SET")] + NotifyEach(Chunks(rtc.NowString(chip)));
        } else {
          fx := [Notify("RTC SET FAILED")];
        }
      }
    }

    /** A recognised BLE command. */
    method DispatchCmd(c: Command, now: nat, chip: Rtc.Chip) returns (fx: seq<Effect>)
      requires Valid() && !c.Unknown?
      modifies this, door, warm, button, rtc, prefs
      ensures Valid()
      ensures Step(World(), fx) == Dispatch(old(World()), c, now, chip)
    {
      if IsSwitch(c) {
        fx := Switch(c);
      } else if IsDoorCmd(c) {
        fx := DoorRequest(c, now);
      } else {
        match c
        case StartTheCar => fx := StartTheCar(now);
        case StarterOn => fx := StarterOn(now);
        case ResetAll => fx := ResetAll(now);
        case BtnCd(arg) => fx := BtnCd(arg);
        case SetRtc(arg) => fx := SetRtc(arg, chip);
      }
    }

    /** The BLE write handler for the raw text `val`. */
    method HandleWrite(val: string, now: nat, chip: Rtc.Chip) returns (fx: seq<Effect>)
      requires Valid()
      modifies this, door, warm, button, rtc, prefs
      ensures Valid()
      ensures Step(World(), fx) == Handle(old(World()), val, now, chip)
    {
      var c := Classify(Normalized(val));
      if c.Unknown? {
        fx := [Notify("UNKNOWN " + PrettyCmd(val))];
      } else {
        fx := DispatchCmd(c, now, chip);
      }
    }

    /** The connection handler. */
    method Connection(isConnected: bool) returns (fx: seq<Effect>)
      modifies this
      ensures Step(World(), fx) == OnConnect(old(World()), isConnected)
    {
      connected := isConnected;
      fx := [Write(PinLedConn, isConnected)];
    }

    /** The callback of one receiver event. */
    method RemoteEvent(e: Remote.RemoteEvent, now: nat) returns (fx: seq<Effect>)
      requires Valid()
      modifies this, door, warm, button
      ensures Valid()
      ensures Step(World(), fx) == OnRemote(old(World()), e, now)
    {
      match e
      case LockPressed => fx := door.LockPulse(now);
      case UnlockPressed => fx := door.UnlockPulse(now);
      case StartPressed =>
        if !engineOn {
          fx := TriggerStart(now, "START THE CAR SCHEDULED");
        } else {
          fx := ResetAll(now);
        }
      case AlarmTogglePressed => fx := door.ToggleAlarm(now);
    }

    /** The callbacks of the events of one receiver update, in order. */
    method RemoteEvents(evs: seq<Remote.RemoteEvent>, now: nat) returns (fx: seq<Effect>)
      requires Valid()
      modifies this, door, warm, button
      ensures Valid()
      ensures Step(World(), fx) == OnRemoteAll(old(World()), evs, now)
    {
      fx := [];
      var i := 0;
      while i < |evs|
        invariant 0 <= i <= |evs|
        invariant Valid()
        invariant var r := OnRemoteAll(World(), evs[i..], now);
          OnRemoteAll(old(World()), evs, now) == Step(r.next, fx + r.fx)
      {
        ghost var before := World();
        var h := RemoteEvent(evs[i], now);
        assert evs[i..][1..] == evs[i + 1..];
        ghost var r := OnRemoteAll(World(), evs[i + 1..], now);
        assert OnRemoteAll(before, evs[i..], now) == Step(r.next, h + r.fx);
        assert fx + (h + r.fx) == (fx + h) + r.fx;
        fx := fx + h;
        i := i + 1;
      }
    }

    /** Door, warm-up, receiver and button updates, in that order. */
    method UpdateComponents(inp: Inputs, now: nat) returns (fx: seq<Effect>)
      requires Valid()
      modifies this, door, warm, button, rx
      ensures Valid()
      ensures Step(World(), fx) == Components(old(World()), inp, now)
    {
      var a := UpdateDoorAndWarm(inp.chip, now);
      var b := UpdateRemoteAndButton(inp, now);
      fx := a + b;
    }

    method UpdateDoorAndWarm(chip: Rtc.Chip, now: nat) returns (fx: seq<Effect>)
      requires Valid()
      modifies this, door, warm, button
      ensures Valid()
      ensures Step(World(), fx) == DoorAndWarm(old(World()), chip, now)
    {
      var d := door.Update(now);
      var st, u := warm.Update(chip, now, starter);
      starter := st;
      var r := ResolveAll(u, now);
      fx := d + r;
    }

    method UpdateRemoteAndButton(inp: Inputs, now: nat) returns (fx: seq<Effect>)
      requires Valid()
      modifies this, door, warm, button, rx
      ensures Valid()
      ensures Step(World(), fx) == RemoteAndButton(old(World()), inp, now)
    {
      var evs := rx.Update(inp.remote);
      var r := RemoteEvents(evs, now);
      var b := button.Update(inp.buttonLevel, now);
      var z := ResolveAll(b, now);
      fx := r + z;
    }

    /** The 10-second report. */
    method ReportStep(chip: Rtc.Chip, now: nat) returns (fx: seq<Effect>)
      modifies this
      ensures Step(World(), fx) == Report(old(World()), chip, now)
    {
      fx := [];
      if now - lastRtc > ReportPeriodMs {
        lastRtc := now;
        if warm.IsActive() {
          var rem := warm.RemainingMillis(now);
          fx := NotifyEach(Chunks("WARM: " + FormatHms(SplitHms(rem))));
        } else {
          fx := NotifyEach(Chunks(rtc.NowString(chip)));
        }
      }
    }

    /** The HOSTTIME prefix of a console line. */
    method HostTimeStep(cmd: string, chip: Rtc.Chip) returns (fx: seq<Effect>)
      modifies rtc
      ensures Step(World(), fx) == HostTime(old(World()), cmd, chip)
    {
      fx := [];
      if StartsWith(cmd, "HOSTTIME") {
        var arg := Trim(cmd[8..]);
        if |arg| > 0 {
          var ok, _ := rtc.SetNowFromString(arg);
          if ok {
            fx := NotifyEach(Chunks(rtc.NowString(chip)));
          }
        }
      }
    }

    /** The console's setrtc. */
    method SerialSetRtc(cmd: string, chip: Rtc.Chip) returns (fx: seq<Effect>)
      requires StartsWith(cmd, "setrtc")
      modifies rtc
      ensures var arg := Trim(cmd[6..]);
        arg == [] || LowerAll(arg) == "now" ==> World() == old(World()) && fx == []
      ensures var arg := Trim(cmd[6..]);
        !(arg == [] || LowerAll(arg) == "now") ==>
          if Rtc.ParseSetTime(arg).Some?
          then Step(World(), fx) == Step(old(World()).(rtc := Rtc.RtcOk), [Notify("RTC: " + Rtc.NowStringOf(Rtc.RtcOk, chip))])
          else Step(World(), fx) == Step(old(World()), [])
    {
      fx := [];
      var arg := Trim(cmd[6..]);
      if !(arg == [] || LowerAll(arg) == "now") {
        var ok, _ := rtc.SetNowFromString(arg);
        if ok {
          fx := [Notify("RTC: " + rtc.NowString(chip))];
        }
      }
    }

    /** The console's btncd. */
    method SerialBtnCd(cmd: string)
      requires StartsWith(cmd, "btncd")
      modifies button, prefs
      ensures var arg := Trim(cmd[5..]);
        var v := AtoL(arg) % 0x1_0000_0000;
        World() == if arg != [] && MinCountdownMs <= v <= MaxCountdownMs then SetCountdown(old(World()), v) else old(World())
    {
      var arg := Trim(cmd[5..]);
      if arg != [] {
        var v := AtoL(arg) % 0x1_0000_0000;
        if MinCountdownMs <= v <= MaxCountdownMs {
          button.SetCountdownMs(v);
          prefs.PutInt("btncd", v);
        }
      }
    }

    /** The console command chain after the HOSTTIME check. */
    method SerialCommand(cmd: string, chip: Rtc.Chip, now: nat) returns (fx: seq<Effect>)
      requires Valid()
      modifies door, warm, button, rtc, prefs
      ensures Valid()
      ensures Step(World(), fx) == SerialCmd(old(World()), cmd, chip, now)
    {
      fx := [];
      var lower := LowerAll(cmd);
      if lower == "rtc" || lower == "i2cscan" {
      } else if lower == "warm" {
        fx := warm.ForceWarm(now);
      } else if lower == "lock" {
        fx := door.LockPulse(now);
      } else if lower == "unlock" {
        fx := door.UnlockPulse(now);
      } else if StartsWith(cmd, "setrtc") {
        fx := SerialSetRtc(cmd, chip);
      } else if StartsWith(cmd, "warmlen") {
        var arg := Trim(cmd[7..]);
        if arg != [] {
          warm.SetDurationMinutes(AtoL(arg));
        }
      } else if lower == "help" {
      } else if StartsWith(cmd, "btncd") {
        SerialBtnCd(cmd);
      }
    }

    /** A line from the serial console, if one arrived. */
    method SerialStep(line: Option<string>, chip: Rtc.Chip, now: nat) returns (fx: seq<Effect>)
      requires Valid()
      modifies door, warm, button, rtc, prefs
      ensures Valid()
      ensures Step(World(), fx) == Serial(old(World()), line, chip, now)
    {
      fx := [];
      if line.Some? {
        var cmd := Trim(line.value);
        if cmd != [] {
          var h := HostTimeStep(cmd, chip);
          var c := SerialCommand(cmd, chip, now);
          fx := h + c;
        }
      }
    }

    /** The start_the_car stage block. */
    method StartCarStep(now: nat) returns (fx: seq<Effect>)
      requires Valid()
      modifies this, door, button
      ensures Valid()
      ensures Step(World(), fx) == StartCarBlock(old(World()), now)
    {
      fx := [];
      if startCar.pending && now >= startCar.at {
        if startCar.stage == 0 {
          out := out.(ig := true);
          startCar := StartCar(true, now + 1000, 1);
          fx := [Write(PinIg, true), Notify("IGNITION ON (START SEQUENCE)")];
        } else if startCar.stage == 1 {
          startCar := startCar.(pending := false, stage := 0);
          if !starter.active {
            fx := EngageStarter(now);
          }
        }
      }
    }

    /** The deferred half of resetAll. */
    method ResetStep(now: nat) returns (fx: seq<Effect>)
      modifies this
      ensures Step(World(), fx) == ResetBlock(old(World()), now)
    {
      fx := [];
      if resetPending && now >= resetAt {
        resetPending := false;
        out := out.(acc := false, lamp := false);
        fx := [Write(PinAcc, false), Write(PinLamp, false), Write(PinHazzard, false), Notify("ALL OFF")];
      }
    }

    /** Report, console, start stages, reset, in that order. */
    method RunTimers(inp: Inputs, now: nat) returns (fx: seq<Effect>)
      requires Valid()
      modifies this, door, warm, button, rtc, prefs
      ensures Valid()
      ensures Step(World(), fx) == Timers(old(World()), inp, now)
    {
      var p := ReportStep(inp.chip, now);
      var s := SerialStep(inp.serial, inp.chip, now);
      var c := StartCarStep(now);
      var z := ResetStep(now);
      fx := p + s + c + z;
    }

    /** loop(). */
    method Loop(inp: Inputs, now: nat) returns (fx: seq<Effect>)
      requires Valid()
      modifies this, door, warm, button, rx, rtc, prefs
      ensures Valid()
      ensures Step(World(), fx) == Arbiter.Loop(old(World()), inp, now)
    {
      if now - loopTick < LoopPeriodMs {
        fx := [];
        return;
      }
      loopTick := now;
      var a := UpdateComponents(inp, now);
      var b := RunTimers(inp, now);
      fx := a + b;
    }
  }

  /** warmEngine.init(&rtc, &prefs, setEngineState) and begin(). */
  method NewWarmUp(r: Rtc.RTCModule, p: Store.Preferences) returns (wu: Warmup.WarmUpEngine)
    ensures fresh(wu)
    ensures wu.rtc == r && wu.prefs == p
    ensures wu.State() == BootWarm(p.ints)
  {
    wu := new Warmup.WarmUpEngine();
    wu.Init(r, p, true);
    wu.Begin();
  }

  /** The button's part of setup(): the stored countdown, begin(), both
      callbacks. */
  method NewButton(p: Store.Preferences, reading: bool, now: nat) returns (b: Button.ButtonTombol)
    ensures fresh(b)
    ensures b.State() == BootButton(p.ints, reading, now)
  {
    b := new Button.ButtonTombol(PinLedPower);
    b.SetCountdownMs(p.GetInt("btncd", Button.DefaultCountdownMs) % 0x1_0000_0000);
    var _ := b.Begin(reading, now);
    b.SetResetCallback();
    b.SetEngineSetter();
  }

  /** rx500.begin() and the four callbacks. */
  method NewReceiver(levels: Remote.Levels) returns (x: Remote.RX500Module)
    ensures fresh(x)
    ensures x.Last() == levels && x.Registrations() == Remote.Callbacks(true, true, true, true)
  {
    x := new Remote.RX500Module();
    x.Begin(levels);
    x.SetOnLock();
    x.SetOnUnlock();
    x.SetOnStart();
    x.SetOnAlarmToggle();
  }
}
