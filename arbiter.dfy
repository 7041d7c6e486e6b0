/** The command arbiter of the live firmware (src/main.cpp) as functions on
    a snapshot of the whole board: main.cpp's own globals together with the
    state of every component. Each function returns the next snapshot and
    the effects, in program order. The class in controller.dfy performs the
    same steps on the component objects. */
module Arbiter {
  import opened Hw
  import opened Text
  import Rtc
  import Door
  import Button
  import Remote
  import Warmup
  import Ramp

  /** accOn, igOn, alarmOn, lampOn and alarmStateHigh. */
  datatype Outputs = Outputs(acc: bool, ig: bool, alarm: bool, lamp: bool, alarmHigh: bool)

  /** startCarPending, startCarAt, startCarStage. */
  datatype StartCar = StartCar(pending: bool, at: nat, stage: int)

  /** main.cpp's globals (the starter pair is shared with the warm-up
      scheduler), the two static timers of loop(), and the connection flag. */
  datatype Globals = Globals(
    engineOn: bool,
    out: Outputs,
    starter: Warmup.Starter,
    startCar: StartCar,
    resetPending: bool,
    resetAt: nat,
    loopTick: nat,
    lastRtc: nat,
    connected: bool)

  /** Everything the arbiter can change. `rtc` is the RTCModule status,
      `remote` the receiver's stored levels, `prefs` the NVS integers. */
  datatype World = World(
    g: Globals,
    door: Door.DoorState,
    warm: Warmup.WarmState,
    button: Button.Sequencer,
    rtc: Rtc.RtcStatus,
    remote: Remote.Levels,
    callbacks: Remote.Callbacks,
    prefs: map<string, int>)

  const ResetDelayMs := 500
  const StarterPulseMs := 1000
  const MinCountdownMs := 5000
  const MaxCountdownMs := 60000
  const LoopPeriodMs := 10
  const ReportPeriodMs := 10000

  /** One notification per message, in order (bleNotifyChunks sends each
      chunk as its own notification). */
  function NotifyEach(msgs: seq<string>): seq<Effect> {
    seq(|msgs|, i requires 0 <= i < |msgs| => Notify(msgs[i]))
  }

  /** The board right after setup(): every global at its initial value,
      the warm-up duration and the button countdown loaded from the
      settings (`stored`), the clock status from the chip, the receiver
      seeded with the current levels, every callback registered. */
  function Boot(stored: map<string, int>, chip: Rtc.Chip, levels: Remote.Levels, reading: bool, now: nat): World {
    World(Globals(false, Outputs(false, false, false, false, false), Warmup.Starter(false, 0),
                  StartCar(false, 0, 0), false, 0, 0, 0, false),
          Door.Initial(),
          BootWarm(stored),
          BootButton(stored, reading, now),
          if chip.found && !chip.lostPower then Rtc.RtcOk else Rtc.RtcNeedSet,
          levels,
          Remote.Callbacks(true, true, true, true),
          stored)
  }

  /** The scheduler after init() and begin(): engine setter registered,
      duration loaded from "warmlen". */
  function BootWarm(stored: map<string, int>): Warmup.WarmState {
    Warmup.Initial().(setter := true,
                      minutes := if "warmlen" in stored then stored["warmlen"] else Warmup.DefaultMinutes)
  }

  /** The button after setCountdownMs("btncd", cast to unsigned long),
      begin() and the registration of both callbacks. */
  function BootButton(stored: map<string, int>, reading: bool, now: nat): Button.Sequencer {
    var cd := (if "btncd" in stored then stored["btncd"] else Button.DefaultCountdownMs) % 0x1_0000_0000;
    var b := Button.AfterBegin(Button.Initial(PinLedPower).(countdownMs := cd), reading, now).next;
    b.(hasReset := true, hasSetter := true)
  }

  // -------------------------------------------------------------------
  // setEngineState, resetAll and the component callbacks

  /** setEngineState(on): the flag, the door's indicator, and the button's
      copy of the engine status. */
  function SetEngine(w: World, on: bool, now: nat): Step<World> {
    var d := Door.AfterSetEngineState(w.door, on, now);
    Step(w.(g := w.g.(engineOn := on), door := d.next, button := w.button.(engineOn := on)), d.fx)
  }

  /** resetAll(): IG, STARTER and ALARM off now, engine off, start, warm and
      door activity cancelled, and ACC, LAMP and HAZZARD scheduled off
      500 ms later. */
  function Reset(w: World, now: nat): Step<World> {
    var a := ResetOutputs(w, now);
    var b := ResetCancel(a.next, now);
    Step(b.next, a.fx + b.fx)
  }

  /** The first half of resetAll: IG, STARTER and ALARM low, engine off. */
  function ResetOutputs(w: World, now: nat): Step<World> {
    var w1 := w.(g := w.g.(out := w.g.out.(ig := false, alarm := false, alarmHigh := false),
                           starter := w.g.starter.(active := false)));
    var e := SetEngine(w1, false, now);
    Step(e.next, [Write(PinIg, false), Write(PinStarter, false), Write(PinAlarm, false)] + e.fx)
  }

  /** The second half of resetAll: start, warm-up and door activity
      cancelled, the deferred half armed. */
  function ResetCancel(w: World, now: nat): Step<World> {
    var c := Door.AfterCancelAll(w.door);
    Step(w.(g := w.g.(startCar := w.g.startCar.(pending := false, stage := 0),
                      resetPending := true, resetAt := now + ResetDelayMs),
            warm := Warmup.AfterCancel(w.warm),
            door := c.next),
         c.fx + [Notify("RESET ALL SCHEDULED")])
  }

  /** One effect of a component, with the callbacks the firmware registers
      carried out: the engine setter is setEngineState, the reset callback
      is resetAll. */
  function Callback(w: World, e: Effect, now: nat): Step<World> {
    match e
    case EngineSetter(on) => SetEngine(w, on, now)
    case ResetRequest => Reset(w, now)
    case _ => Step(w, [e])
  }

  /** A component's effects with every callback carried out, in order. */
  function Resolve(w: World, fx: seq<Effect>, now: nat): Step<World>
    decreases |fx|
  {
    if fx == [] then Step(w, [])
    else
      var h := Callback(w, fx[0], now);
      var r := Resolve(h.next, fx[1..], now);
      Step(r.next, h.fx + r.fx)
  }

  function WithDoor(w: World, d: Step<Door.DoorState>): Step<World> {
    Step(w.(door := d.next), d.fx)
  }

  /** The starter pulse of starter_on and of the start sequence: STARTER
      HIGH for 1000 ms, engine on. */
  function EngageStarter(w: World, now: nat): Step<World> {
    var e := SetEngine(w.(g := w.g.(starter := Warmup.Starter(true, now + StarterPulseMs))), true, now);
    Step(e.next, [Write(PinStarter, true)] + e.fx + [Notify("STARTER ON")])
  }

  /** buttonTombol.triggerStart() with its callbacks carried out, then a
      notification. */
  function TriggerStart(w: World, now: nat, msg: string): Step<World> {
    var t := Button.AfterTriggerStart(w.button, now);
    var r := Resolve(w.(button := t.next), t.fx, now);
    Step(r.next, r.fx + [Notify(msg)])
  }

  // -------------------------------------------------------------------
  // The BLE write handler

  datatype Command =
    | AccOn | AccOff | IgOn | IgOff | StartTheCar | StarterOn | AlarmOn | AlarmOff
    | LampOn | LampOff | ResetAll | BtnCd(arg: string) | SetRtc(arg: string)
    | Lock | Unlock | Unknown

  /** The if-chain of the write handler on the normalised command; the
      argument of btncd and setrtc has its leading blanks removed. */
  function Classify(cmd: string): Command {
    if cmd == "acc_on" then AccOn
    else if cmd == "acc_off" then AccOff
    else if cmd == "ig_on" then IgOn
    else if cmd == "ig_off" then IgOff
    else if cmd == "start_the_car" then StartTheCar
    else if cmd == "starter_on" then StarterOn
    else if cmd == "alarm_on" then AlarmOn
    else if cmd == "alarm_off" then AlarmOff
    else if cmd == "lamp_on" then LampOn
    else if cmd == "lamp_off" then LampOff
    else if cmd == "reset_all" then ResetAll
    else if StartsWith(cmd, "btncd") then BtnCd(TrimLeft(cmd[5..]))
    else if StartsWith(cmd, "setrtc") then SetRtc(TrimLeft(cmd[6..]))
    else if cmd == "lock" then Lock
    else if cmd == "unlock" then Unlock
    else Unknown
  }

  datatype BtnCdReply = CountdownSet(ms: nat) | InvalidRange | ParseError | Usage

  /** The decision of "btncd <ms>" on its (left-trimmed) argument. */
  function BtnCdDecide(arg: string): BtnCdReply {
    if arg == [] then Usage
    else match Stoul(arg)
      case None => ParseError
      case Some(v) => if MinCountdownMs <= v <= MaxCountdownMs then CountdownSet(v) else InvalidRange
  }

  function BtnCdMessage(r: BtnCdReply): string {
    match r
    case CountdownSet(_) => "BUTTON COUNTDOWN SET"
    case InvalidRange => "BTNCD INVALID RANGE"
    case ParseError => "BTNCD PARSE ERROR"
    case Usage => "BTNCD USAGE"
  }

  /** The countdown window and its persisted copy under "btncd". */
  function SetCountdown(w: World, ms: nat): World {
    w.(button := w.button.(countdownMs := ms), prefs := w.prefs["btncd" := ms])
  }

  function BtnCdCmd(w: World, arg: string): Step<World> {
    var r := BtnCdDecide(arg);
    Step(if r.CountdownSet? then SetCountdown(w, r.ms) else w, [Notify(BtnCdMessage(r))])
  }

  /** "setrtc <stamp>": "now" and an empty argument are declined; an
      accepted stamp sets the clock and its reading is sent back in 20-byte
      chunks. The chip's reading after the adjustment is an input. */
  function SetRtcCmd(w: World, arg: string, chip: Rtc.Chip): Step<World> {
    if arg == [] || arg == "now" then Step(w, [Notify("RTC SET DECLINED")])
    else if Rtc.ParseSetTime(arg).Some? then
      Step(w.(rtc := Rtc.RtcOk), [Notify("RTC SET")] + NotifyEach(Chunks(Rtc.NowStringOf(Rtc.RtcOk, chip))))
    else Step(w, [Notify("RTC SET FAILED")])
  }

  function StartTheCarCmd(w: World, now: nat): Step<World> {
    if w.g.engineOn || w.g.starter.active || w.g.startCar.pending then Step(w, [Notify("ENGINE ALREADY ON")])
    else TriggerStart(w, now, "START THE CAR")
  }

  function StarterOnCmd(w: World, now: nat): Step<World> {
    if !w.g.starter.active then EngageStarter(w, now)
    else Step(w, [Notify("IGNORED STARTER ON")])
  }

  function SetOutputs(w: World, o: Outputs): World {
    w.(g := w.g.(out := o))
  }

  /** The six plain switches: ACC, IG and LAMP on or off. */
  predicate IsSwitch(c: Command) {
    c.AccOn? || c.AccOff? || c.IgOn? || c.IgOff? || c.LampOn? || c.LampOff?
  }

  function SwitchCmd(w: World, c: Command): Step<World>
    requires IsSwitch(c)
  {
    var o := w.g.out;
    match c
    case AccOn => Step(SetOutputs(w, o.(acc := true)), [Write(PinAcc, true), Notify("ACC ON")])
    case AccOff => Step(SetOutputs(w, o.(acc := false)), [Write(PinAcc, false), Notify("ACC OFF")])
    case IgOn => Step(SetOutputs(w, o.(ig := true)), [Write(PinIg, true), Notify("IGNITION ON")])
    case IgOff => Step(SetOutputs(w, o.(ig := false)), [Write(PinIg, false), Notify("IGNITION OFF")])
    case LampOn => Step(SetOutputs(w, o.(lamp := true)), [Write(PinLamp, true), Notify("LAMP ON")])
    case LampOff => Step(SetOutputs(w, o.(lamp := false)), [Write(PinLamp, false), Notify("LAMP OFF")])
  }

  /** The door requests: lock, unlock, alarm on and off. */
  predicate IsDoorCmd(c: Command) {
    c.Lock? || c.Unlock? || c.AlarmOn? || c.AlarmOff?
  }

  function DoorCmd(w: World, c: Command, now: nat): Step<World>
    requires IsDoorCmd(c)
  {
    match c
    case Lock => WithDoor(w, Door.AfterLockPulse(w.door, now))
    case Unlock => WithDoor(w, Door.AfterUnlockPulse(w.door, now))
    case AlarmOn => WithDoor(w, Door.AfterSetAlarm(w.door, true, now))
    case AlarmOff => WithDoor(w, Door.AfterSetAlarm(w.door, false, now))
  }

  /** A recognised command. */
  function Dispatch(w: World, c: Command, now: nat, chip: Rtc.Chip): Step<World>
    requires !c.Unknown?
  {
    match c
    case StartTheCar => StartTheCarCmd(w, now)
    case StarterOn => StarterOnCmd(w, now)
    case ResetAll => Reset(w, now)
    case BtnCd(arg) => BtnCdCmd(w, arg)
    case SetRtc(arg) => SetRtcCmd(w, arg, chip)
    case AccOn => SwitchCmd(w, c)
    case AccOff => SwitchCmd(w, c)
    case IgOn => SwitchCmd(w, c)
    case IgOff => SwitchCmd(w, c)
    case LampOn => SwitchCmd(w, c)
    case LampOff => SwitchCmd(w, c)
    case Lock => DoorCmd(w, c, now)
    case Unlock => DoorCmd(w, c, now)
    case AlarmOn => DoorCmd(w, c, now)
    case AlarmOff => DoorCmd(w, c, now)
  }

  /** The write handler for the raw text `val`: an unknown command is
      echoed back upper-cased. */
  function Handle(w: World, val: string, now: nat, chip: Rtc.Chip): Step<World> {
    var c := Classify(Normalized(val));
    if c.Unknown? then Step(w, [Notify("UNKNOWN " + PrettyCmd(val))])
    else Dispatch(w, c, now, chip)
  }

  /** The connection handler: the connection LED follows the link. */
  function OnConnect(w: World, connected: bool): Step<World> {
    Step(w.(g := w.g.(connected := connected)), [Write(PinLedConn, connected)])
  }

  // -------------------------------------------------------------------
  // The remote callbacks

  function OnRemote(w: World, e: Remote.RemoteEvent, now: nat): Step<World> {
    match e
    case LockPressed => WithDoor(w, Door.AfterLockPulse(w.door, now))
    case UnlockPressed => WithDoor(w, Door.AfterUnlockPulse(w.door, now))
    case StartPressed =>
      if !w.g.engineOn then TriggerStart(w, now, "START THE CAR SCHEDULED") else Reset(w, now)
    case AlarmTogglePressed => WithDoor(w, Door.AfterToggleAlarm(w.door, now))
  }

  function OnRemoteAll(w: World, evs: seq<Remote.RemoteEvent>, now: nat): Step<World>
    decreases |evs|
  {
    if evs == [] then Step(w, [])
    else
      var h := OnRemote(w, evs[0], now);
      var r := OnRemoteAll(h.next, evs[1..], now);
      Step(r.next, h.fx + r.fx)
  }

  // -------------------------------------------------------------------
  // loop()

  /** The inputs of one pass: the receiver lines, the button line, the
      RTC chip, and a line from the serial console if one arrived. */
  datatype Inputs = Inputs(remote: Remote.Levels, buttonLevel: bool, chip: Rtc.Chip, serial: Option<string>)

  /** The hh:mm:ss split of a remaining time in milliseconds. */
  datatype Hms = Hms(h: nat, m: nat, s: nat)

  function SplitHms(rem: nat): Hms {
    Hms(rem / 3600000, (rem / 60000) % 60, (rem / 1000) % 60)
  }

  /** "%02u:%02u:%02u". */
  function FormatHms(t: Hms): string {
    PadNat(t.h, 2) + ":" + PadNat(t.m, 2) + ":" + PadNat(t.s, 2)
  }

  /** The 10-second report: time left of a warm-up cycle, else the clock. */
  function Report(w: World, chip: Rtc.Chip, now: nat): Step<World> {
    if now - w.g.lastRtc > ReportPeriodMs then
      var w' := w.(g := w.g.(lastRtc := now));
      if w.warm.active then
        Step(w', NotifyEach(Chunks("WARM: " + FormatHms(SplitHms(Warmup.Remaining(w.warm, now))))))
      else Step(w', NotifyEach(Chunks(Rtc.NowStringOf(w.rtc, chip))))
    else Step(w, [])
  }

  /** The HOSTTIME prefix of a serial line. */
  function HostTime(w: World, cmd: string, chip: Rtc.Chip): Step<World> {
    if StartsWith(cmd, "HOSTTIME") then
      var arg := Trim(cmd[8..]);
      if |arg| > 0 && Rtc.ParseSetTime(arg).Some? then
        Step(w.(rtc := Rtc.RtcOk), NotifyEach(Chunks(Rtc.NowStringOf(Rtc.RtcOk, chip))))
      else Step(w, [])
    else Step(w, [])
  }

  /** setDurationMinutes(m) together with the value it persists. */
  function WarmLen(w: World, m: int): World {
    if Warmup.ValidMinutes(m) then
      w.(warm := Warmup.AfterSetDuration(w.warm, m), prefs := w.prefs["warmlen" := m])
    else w
  }

  /** The console command chain; commands that only print are no-ops. */
  function SerialCmd(w: World, cmd: string, chip: Rtc.Chip, now: nat): Step<World> {
    var lower := LowerAll(cmd);
    if lower == "rtc" || lower == "i2cscan" then Step(w, [])
    else if lower == "warm" then
      var f := Warmup.AfterForceWarm(w.warm, now);
      Step(w.(warm := f.next), f.fx)
    else if lower == "lock" then WithDoor(w, Door.AfterLockPulse(w.door, now))
    else if lower == "unlock" then WithDoor(w, Door.AfterUnlockPulse(w.door, now))
    else if StartsWith(cmd, "setrtc") then
      var arg := Trim(cmd[6..]);
      if arg == [] || LowerAll(arg) == "now" then Step(w, [])
      else if Rtc.ParseSetTime(arg).Some? then
        Step(w.(rtc := Rtc.RtcOk), [Notify("RTC: " + Rtc.NowStringOf(Rtc.RtcOk, chip))])
      else Step(w, [])
    else if StartsWith(cmd, "warmlen") then
      var arg := Trim(cmd[7..]);
      Step(if arg != [] then WarmLen(w, AtoL(arg)) else w, [])
    else if lower == "help" then Step(w, [])
    else if StartsWith(cmd, "btncd") then
      var arg := Trim(cmd[5..]);
      var v := AtoL(arg) % 0x1_0000_0000;
      Step(if arg != [] && MinCountdownMs <= v <= MaxCountdownMs then SetCountdown(w, v) else w, [])
    else Step(w, [])
  }

  /** A serial line, trimmed; empty lines are ignored. */
  function Serial(w: World, line: Option<string>, chip: Rtc.Chip, now: nat): Step<World> {
    if line.None? || Trim(line.value) == [] then Step(w, [])
    else
      var cmd := Trim(line.value);
      var h := HostTime(w, cmd, chip);
      var c := SerialCmd(h.next, cmd, chip, now);
      Step(c.next, h.fx + c.fx)
  }

  /** The start_the_car stage machine at the end of loop(). */
  function StartCarBlock(w: World, now: nat): Step<World> {
    var sc := w.g.startCar;
    if sc.pending && now >= sc.at then
      if sc.stage == 0 then
        Step(w.(g := w.g.(out := w.g.out.(ig := true), startCar := StartCar(true, now + 1000, 1))),
             [Write(PinIg, true), Notify("IGNITION ON (START SEQUENCE)")])
      else if sc.stage == 1 then
        var w1 := w.(g := w.g.(startCar := sc.(pending := false, stage := 0)));
        if !w1.g.starter.active then EngageStarter(w1, now) else Step(w1, [])
      else Step(w, [])
    else Step(w, [])
  }

  /** The deferred half of resetAll. */
  function ResetBlock(w: World, now: nat): Step<World> {
    if w.g.resetPending && now >= w.g.resetAt then
      Step(w.(g := w.g.(resetPending := false, out := w.g.out.(acc := false, lamp := false))),
           [Write(PinAcc, false), Write(PinLamp, false), Write(PinHazzard, false), Notify("ALL OFF")])
    else Step(w, [])
  }

  /** The components' half of loop(): door, warm-up, receiver, button. */
  function Components(w: World, inp: Inputs, now: nat): Step<World> {
    var a := DoorAndWarm(w, inp.chip, now);
    var b := RemoteAndButton(a.next, inp, now);
    Step(b.next, a.fx + b.fx)
  }

  /** doorControl.update() and warmEngine.update(), the latter's callbacks
      carried out. */
  function DoorAndWarm(w: World, chip: Rtc.Chip, now: nat): Step<World> {
    var d := Door.AfterUpdate(w.door, now);
    var u := Warmup.AfterUpdate(w.warm, w.g.starter, Warmup.ViewThrough(w.rtc, chip), now);
    var r := Resolve(w.(door := d.next, warm := u.warm, g := w.g.(starter := u.starter)), u.fx, now);
    Step(r.next, d.fx + r.fx)
  }

  /** rx500.update() and buttonTombol.update(), with their callbacks. */
  function RemoteAndButton(w: World, inp: Inputs, now: nat): Step<World> {
    var evs := Remote.Edges(w.remote, inp.remote, w.callbacks);
    var r := OnRemoteAll(w.(remote := inp.remote), evs, now);
    var b := Button.AfterUpdate(r.next.button, inp.buttonLevel, now);
    var z := Resolve(r.next.(button := b.next), b.fx, now);
    Step(z.next, r.fx + z.fx)
  }

  /** The main's half of loop(): report, console, start stages, reset. */
  function Timers(w: World, inp: Inputs, now: nat): Step<World> {
    var p := Report(w, inp.chip, now);
    var s := Serial(p.next, inp.serial, inp.chip, now);
    var c := StartCarBlock(s.next, now);
    var z := ResetBlock(c.next, now);
    Step(z.next, p.fx + s.fx + c.fx + z.fx)
  }

  /** loop(): at most one pass every 10 ms. */
  function Loop(w: World, inp: Inputs, now: nat): Step<World> {
    if now - w.g.loopTick < LoopPeriodMs then Step(w, [])
    else
      var a := Components(w.(g := w.g.(loopTick := now)), inp, now);
      var b := Timers(a.next, inp, now);
      Step(b.next, a.fx + b.fx)
  }

  // -------------------------------------------------------------------
  // Properties

  /** The start stage machine of loop() is idle (nothing in the live
      firmware sets startCarPending, so every reachable world has it), and
      the door keeps its pulse invariant: a solenoid pulse is in flight
      exactly when its pin is recorded, and only in the direction that
      changes the lock state; and main's engine flag is never on while the
      button's copy, which setEngineState keeps in step, is off. */
  predicate Inv(w: World) {
    !w.g.startCar.pending && w.g.startCar.stage == 0 && Door.PulseInv(w.door) &&
    (w.g.engineOn ==> w.button.engineOn)
  }

  lemma BootInv(stored: map<string, int>, chip: Rtc.Chip, levels: Remote.Levels, reading: bool, now: nat)
    ensures var w := Boot(stored, chip, levels, reading, now);
      Inv(w) && !w.g.engineOn && w.button.phase == Ramp.Idle && !w.button.engineOn &&
      !w.warm.active && w.warm.lastDay == -1
  {
  }

  /** What callbacks and component steps leave alone: the loop timers, the
      connection flag, the clock status, the stored settings, the
      receiver's callbacks, and the button apart from its engine flag. */
  predicate Kept(a: World, b: World) {
    b.g.loopTick == a.g.loopTick && b.g.lastRtc == a.g.lastRtc && b.g.connected == a.g.connected &&
    b.rtc == a.rtc && b.prefs == a.prefs && b.callbacks == a.callbacks && b.remote == a.remote &&
    b.button == a.button.(engineOn := b.button.engineOn) &&
    (Inv(a) ==> Inv(b))
  }

  lemma CallbackKeeps(w: World, e: Effect, now: nat)
    ensures Kept(w, Callback(w, e, now).next)
    ensures IoOnly(Callback(w, e, now).fx)
  {
  }

  /** Carrying out the callbacks leaves only pin writes and notifications,
      and keeps what Kept names. */
  lemma {:induction false} ResolveKeeps(w: World, fx: seq<Effect>, now: nat)
    ensures Kept(w, Resolve(w, fx, now).next)
    ensures IoOnly(Resolve(w, fx, now).fx)
    decreases |fx|
  {
    if fx != [] {
      var h := Callback(w, fx[0], now);
      CallbackKeeps(w, fx[0], now);
      ResolveKeeps(h.next, fx[1..], now);
      var r := Resolve(h.next, fx[1..], now);
      assert forall e <- h.fx + r.fx :: e in h.fx || e in r.fx;
    }
  }

  lemma OnRemoteKeeps(w: World, e: Remote.RemoteEvent, now: nat)
    ensures var r := OnRemote(w, e, now).next;
      r.g.loopTick == w.g.loopTick && r.g.lastRtc == w.g.lastRtc && r.remote == w.remote &&
      r.rtc == w.rtc && r.prefs == w.prefs && r.callbacks == w.callbacks && (Inv(w) ==> Inv(r))
  {
    if e.StartPressed? && !w.g.engineOn {
      var t := Button.AfterTriggerStart(w.button, now);
      ResolveKeeps(w.(button := t.next), t.fx, now);
    }
  }

  lemma {:induction false} OnRemoteAllKeeps(w: World, evs: seq<Remote.RemoteEvent>, now: nat)
    ensures var r := OnRemoteAll(w, evs, now).next;
      r.g.loopTick == w.g.loopTick && r.g.lastRtc == w.g.lastRtc && r.remote == w.remote &&
      r.rtc == w.rtc && r.prefs == w.prefs && r.callbacks == w.callbacks && (Inv(w) ==> Inv(r))
    decreases |evs|
  {
    if evs != [] {
      OnRemoteKeeps(w, evs[0], now);
      OnRemoteAllKeeps(OnRemote(w, evs[0], now).next, evs[1..], now);
    }
  }

  /** The components' half of a pass keeps the loop timers and the idle
      start stage machine. */
  lemma {:induction false} ComponentsKeep(w: World, inp: Inputs, now: nat)
    ensures var r := Components(w, inp, now).next;
      r.g.loopTick == w.g.loopTick && r.g.lastRtc == w.g.lastRtc && r.remote == inp.remote &&
      (Inv(w) ==> Inv(r))
  {
    var d := Door.AfterUpdate(w.door, now);
    var u := Warmup.AfterUpdate(w.warm, w.g.starter, Warmup.ViewThrough(w.rtc, inp.chip), now);
    var w0 := w.(door := d.next, warm := u.warm, g := w.g.(starter := u.starter));
    ResolveKeeps(w0, u.fx, now);
    var a := DoorAndWarm(w, inp.chip, now).next;
    var evs := Remote.Edges(a.remote, inp.remote, a.callbacks);
    OnRemoteAllKeeps(a.(remote := inp.remote), evs, now);
    var r := OnRemoteAll(a.(remote := inp.remote), evs, now);
    var b := Button.AfterUpdate(r.next.button, inp.buttonLevel, now);
    ButtonUpdateKeepsEngine(r.next.button, inp.buttonLevel, now);
    ResolveKeeps(r.next.(button := b.next), b.fx, now);
  }

  /** The button's update never clears its own engine flag: only the
      engine setter, through setEngineState, turns it off. */
  lemma ButtonUpdateKeepsEngine(s: Button.Sequencer, v: bool, now: nat)
    ensures s.engineOn ==> Button.AfterUpdate(s, v, now).next.engineOn
  {
    var a := Button.LedTick(s, now);
    DebounceKeepsEngine(a.next, v, now);
    var b := Button.Debounce(a.next, v, now);
    TimingKeepsEngine(b.next, now);
  }

  lemma DebounceKeepsEngine(s: Button.Sequencer, v: bool, now: nat)
    ensures s.engineOn ==> Button.Debounce(s, v, now).next.engineOn
  {
  }

  lemma TimingKeepsEngine(s: Button.Sequencer, now: nat)
    ensures s.engineOn ==> Button.Timing(s, now).next.engineOn
  {
  }

  /** The serial console never touches main's globals, and its lock and
      unlock keep the door's pulse invariant. */
  lemma SerialKeepsGlobals(w: World, line: Option<string>, chip: Rtc.Chip, now: nat)
    ensures Serial(w, line, chip, now).next.g == w.g
    ensures Door.PulseInv(w.door) ==> Door.PulseInv(Serial(w, line, chip, now).next.door)
    ensures Serial(w, line, chip, now).next.button.engineOn == w.button.engineOn
  {
    if line.Some? && Trim(line.value) != [] {
      var cmd := Trim(line.value);
      var h := HostTime(w, cmd, chip);
      assert h.next.g == w.g && h.next.door == w.door && h.next.button == w.button;
      SerialCmdKeepsGlobals(h.next, cmd, chip, now);
    }
  }

  lemma SerialCmdKeepsGlobals(w: World, cmd: string, chip: Rtc.Chip, now: nat)
    ensures SerialCmd(w, cmd, chip, now).next.g == w.g
    ensures Door.PulseInv(w.door) ==> Door.PulseInv(SerialCmd(w, cmd, chip, now).next.door)
    ensures SerialCmd(w, cmd, chip, now).next.button.engineOn == w.button.engineOn
  {
    if Door.PulseInv(w.door) {
      Door.PulseInvPreserved(w.door, now, false);
    }
  }

  /** The console's btncd sets and persists the countdown exactly when its
      argument reads, through toInt, as 5000..60000 ms, and then to that
      number: the cast to unsigned long cannot bring a numeral outside the
      range of a long back into the window, because toInt saturates. */
  lemma {:induction false} SerialBtnCdExact(w: World, cmd: string, chip: Rtc.Chip, now: nat)
    requires StartsWith(cmd, "btncd")
    ensures var arg := Trim(cmd[5..]);
      SerialCmd(w, cmd, chip, now) ==
        Step(if arg != [] && MinCountdownMs <= AtoL(arg) <= MaxCountdownMs then SetCountdown(w, AtoL(arg)) else w, [])
  {
    var lower := LowerAll(cmd);
    assert lower[0] == 'b' by { assert cmd[0] == cmd[..5][0] == 'b'; }
    assert lower != "rtc" && lower != "i2cscan" && lower != "warm" && lower != "lock";
    assert lower != "unlock" && lower != "help";
    assert !StartsWith(cmd, "setrtc") by { assert cmd[0] == 'b'; }
    assert !StartsWith(cmd, "warmlen") by { assert cmd[0] == 'b'; }
    var arg := Trim(cmd[5..]);
    var n := AtoL(arg);
    if n < 0 {
      assert n % 0x1_0000_0000 == n + 0x1_0000_0000;
    } else {
      assert n % 0x1_0000_0000 == n;
    }
  }

  /** The numeral 4294972296 = 2^32 + 5000 reads as LONG_MAX. */
  lemma OversizedNumeral()
    ensures AtoL("4294972296") == LongMax
  {
    var ds := "4294972296";
    assert Value(ds[..1]) == 4;
    assert ds[..2][..1] == ds[..1];
    assert Value(ds[..2]) == 42;
    assert ds[..3][..2] == ds[..2];
    assert Value(ds[..3]) == 429;
    assert ds[..4][..3] == ds[..3];
    assert Value(ds[..4]) == 4294;
    assert ds[..5][..4] == ds[..4];
    assert Value(ds[..5]) == 42949;
    assert ds[..6][..5] == ds[..5];
    assert Value(ds[..6]) == 429497;
    assert ds[..7][..6] == ds[..6];
    assert Value(ds[..7]) == 4294972;
    assert ds[..8][..7] == ds[..7];
    assert Value(ds[..8]) == 42949722;
    assert ds[..9][..8] == ds[..8];
    assert Value(ds[..9]) == 429497229;
    assert ds[..9] == ds[..|ds| - 1];
    assert Value(ds) == 4294972296;
    AtoLOfDigits(ds);
  }

  /** "btncd 4294972296" names 2^32 + 5000 ms: toInt saturates it to
      LONG_MAX, which the range check refuses, so nothing changes (without
      the saturation the cast would have set a 5000 ms window). */
  lemma SerialBtnCdOverflow(w: World, chip: Rtc.Chip, now: nat)
    ensures SerialCmd(w, "btncd 4294972296", chip, now) == Step(w, [])
  {
    var cmd := "btncd 4294972296";
    assert StartsWith(cmd, "btncd");
    SerialBtnCdExact(w, cmd, chip, now);
    var ds := "4294972296";
    assert cmd[5..] == [' '] + ds;
    assert TrimLeft(cmd[5..]) == ds;
    assert Trim(cmd[5..]) == ds;
    OversizedNumeral();
  }

  /** Under the invariant the timers of main keep the loop tick and the
      idle start stages, and none of them touches the starter: nothing in
      the live loop releases STARTER when starterEnd passes. */
  lemma {:induction false} TimersKeep(w: World, inp: Inputs, now: nat)
    requires Inv(w)
    ensures var r := Timers(w, inp, now).next;
      Inv(r) && r.g.loopTick == w.g.loopTick && r.g.starter == w.g.starter && r.g.engineOn == w.g.engineOn
  {
    var p := Report(w, inp.chip, now);
    assert p.next.g == w.g.(lastRtc := p.next.g.lastRtc);
    SerialKeepsGlobals(p.next, inp.serial, inp.chip, now);
    var s := Serial(p.next, inp.serial, inp.chip, now);
    StartCarBlockIdle(s.next, now);
  }

  /** loop() runs at most once every 10 ms, records the pass, and keeps
      the start stage machine idle. */
  lemma {:induction false} LoopKeepsInv(w: World, inp: Inputs, now: nat)
    requires Inv(w)
    ensures now - w.g.loopTick < LoopPeriodMs ==> Loop(w, inp, now) == Step(w, [])
    ensures now - w.g.loopTick >= LoopPeriodMs ==> Loop(w, inp, now).next.g.loopTick == now
    ensures Inv(Loop(w, inp, now).next)
  {
    if now - w.g.loopTick >= LoopPeriodMs {
      var w0 := w.(g := w.g.(loopTick := now));
      ComponentsKeep(w0, inp, now);
      TimersKeep(Components(w0, inp, now).next, inp, now);
    }
  }

  /** With the stage machine idle the start-sequence block does nothing. */
  lemma StartCarBlockIdle(w: World, now: nat)
    requires Inv(w)
    ensures StartCarBlock(w, now) == Step(w, [])
  {
  }

  /** start_the_car is refused while the engine runs, the starter is held or
      a start is pending; otherwise it is triggerStart with its callbacks,
      which from a stopped, idle button turns ACC on and enters ACC_WAIT. */
  lemma StartTheCarCases(w: World, val: string, now: nat, chip: Rtc.Chip)
    requires Normalized(val) == "start_the_car"
    ensures var r := Handle(w, val, now, chip);
      (w.g.engineOn || w.g.starter.active || w.g.startCar.pending) ==>
        r == Step(w, [Notify("ENGINE ALREADY ON")])
    ensures var r := Handle(w, val, now, chip);
      !(w.g.engineOn || w.g.starter.active || w.g.startCar.pending) ==>
        r.fx != [] && r.fx[|r.fx| - 1] == Notify("START THE CAR") && IoOnly(r.fx) &&
        (w.button.phase == Ramp.Idle && !w.button.engineOn ==>
           r.next.button.phase == Ramp.AccWait && r.fx[0] == Write(PinAcc, true))
  {
    if !(w.g.engineOn || w.g.starter.active || w.g.startCar.pending) {
      var t := Button.AfterTriggerStart(w.button, now);
      var w0 := w.(button := t.next);
      ResolveKeeps(w0, t.fx, now);
      var r := Resolve(w0, t.fx, now);
      if w.button.phase == Ramp.Idle && !w.button.engineOn {
        assert t.fx[0] == Write(PinAcc, true);
        assert r.fx[0] == Write(PinAcc, true);
      }
      assert forall e <- r.fx + [Notify("START THE CAR")] :: e in r.fx || e == Notify("START THE CAR");
    }
  }

  /** starter_on drives STARTER for a 1000 ms pulse and reports the engine
      on when the starter is free, and is ignored while it is held. */
  lemma StarterOnCases(w: World, val: string, now: nat, chip: Rtc.Chip)
    requires Normalized(val) == "starter_on"
    ensures var r := Handle(w, val, now, chip);
      !w.g.starter.active ==>
        r.next.g.starter == Warmup.Starter(true, now + StarterPulseMs) && r.next.g.engineOn &&
        r.next.button.engineOn && r.fx[0] == Write(PinStarter, true) && r.fx[|r.fx| - 1] == Notify("STARTER ON")
    ensures w.g.starter.active ==> Handle(w, val, now, chip) == Step(w, [Notify("IGNORED STARTER ON")])
  {
  }

  /** A second starter_on, at any later time, is ignored: the first pulse is
      never released by the live loop's own timers. */
  lemma {:induction false} SecondStarterOnIgnored(w: World, val: string, now: nat, later: nat, chip: Rtc.Chip)
    requires Normalized(val) == "starter_on"
    ensures Handle(Handle(w, val, now, chip).next, val, later, chip).fx == [Notify("IGNORED STARTER ON")]
  {
    StarterOnCases(w, val, now, chip);
    var w1 := Handle(w, val, now, chip).next;
    assert w1.g.starter.active;
    StarterOnCases(w1, val, later, chip);
  }

  /** btncd sets and persists the countdown exactly for 5000..60000 ms;
      an empty argument, a parse failure and an out-of-range value each
      have their own reply and change nothing. */
  lemma BtnCdOutcomes(w: World, arg: string)
    ensures var r := BtnCdCmd(w, arg);
      (arg != [] && Stoul(arg).Some? && MinCountdownMs <= Stoul(arg).value <= MaxCountdownMs) ==>
        r.next.button.countdownMs == Stoul(arg).value && r.next.prefs == w.prefs["btncd" := Stoul(arg).value] &&
        r.fx == [Notify("BUTTON COUNTDOWN SET")]
    ensures var r := BtnCdCmd(w, arg);
      !(arg != [] && Stoul(arg).Some? && MinCountdownMs <= Stoul(arg).value <= MaxCountdownMs) ==>
        r.next == w &&
        r.fx == [Notify(if arg == [] then "BTNCD USAGE"
                        else if Stoul(arg).None? then "BTNCD PARSE ERROR"
                        else "BTNCD INVALID RANGE")]
  {
  }

  /** A command starting with "btncd" goes to the btncd handler with its
      argument's leading blanks removed. */
  lemma HandleRoutesBtnCd(w: World, val: string, now: nat, chip: Rtc.Chip)
    requires StartsWith(Normalized(val), "btncd")
    ensures Handle(w, val, now, chip) == BtnCdCmd(w, TrimLeft(Normalized(val)[5..]))
  {
    var c := Normalized(val);
    assert c[0] == 'b' && c[1] == 't';
    assert Classify(c) == BtnCd(TrimLeft(c[5..]));
  }

  /** The immediate half of resetAll: IG, STARTER and ALARM low at once,
      engine off, start, warm-up and door activity cancelled, the lock
      state kept, ACC and LAMP left for later, the deferred half armed for
      500 ms on. */
  lemma ResetImmediate(w: World, now: nat)
    ensures var r := Reset(w, now);
      var n := r.next;
      !n.g.engineOn && !n.button.engineOn && !n.g.out.ig && !n.g.out.alarm && !n.g.starter.active && Inv(n) &&
      !n.warm.active && !n.warm.starterPending &&
      !n.door.pulse.active && !n.door.hazard.active && !n.door.alarm.on && n.door.locked == w.door.locked &&
      n.g.out.acc == w.g.out.acc && n.g.out.lamp == w.g.out.lamp &&
      n.g.resetPending && n.g.resetAt == now + ResetDelayMs
    ensures var fx := Reset(w, now).fx;
      |fx| == 7 && fx[..3] == [Write(PinIg, false), Write(PinStarter, false), Write(PinAlarm, false)] &&
      fx[6] == Notify("RESET ALL SCHEDULED") && !Drives(fx, PinAcc) && !Drives(fx, PinLamp)
  {
  }

  /** The deferred half of resetAll fires once, at resetAt: ACC, LAMP and
      HAZZARD low and "ALL OFF"; before that, and after it, it does nothing. */
  lemma {:induction false} ResetTwoPhase(w: World, now: nat, later: nat, last: nat)
    ensures var n := Reset(w, now).next;
      later < now + ResetDelayMs ==> ResetBlock(n, later) == Step(n, [])
    ensures var n := Reset(w, now).next;
      var r := ResetBlock(n, later);
      later >= now + ResetDelayMs ==>
        r.fx == [Write(PinAcc, false), Write(PinLamp, false), Write(PinHazzard, false), Notify("ALL OFF")] &&
        !r.next.g.out.acc && !r.next.g.out.lamp && !r.next.g.resetPending &&
        ResetBlock(r.next, last) == Step(r.next, [])
  {
    ResetImmediate(w, now);
  }

  /** The hh:mm:ss split: minutes and seconds below 60, and the parts add
      up to the remaining time rounded down to the second. */
  lemma SplitHmsBounds(rem: nat)
    ensures var t := SplitHms(rem);
      t.m < 60 && t.s < 60 &&
      t.h * 3600000 + t.m * 60000 + t.s * 1000 <= rem < t.h * 3600000 + t.m * 60000 + t.s * 1000 + 1000
  {
    var k := rem / 1000;
    var q := rem / 60000;
    var h := rem / 3600000;
    assert k / 60 == q;
    assert q / 60 == h;
  }

  /** One notification per message, in order. */
  lemma {:induction false} NotesOfNotifyEach(msgs: seq<string>)
    ensures Notes(NotifyEach(msgs)) == msgs
    decreases |msgs|
  {
    if msgs != [] {
      NotesOfNotifyEach(msgs[1..]);
      assert NotifyEach(msgs)[1..] == NotifyEach(msgs[1..]);
    }
  }

  /** The 10-second report fires only when more than 10 s have passed, and
      its notifications are 20-byte chunks that put back together give
      the remaining warm-up time, or else the clock reading. */
  lemma ReportContents(w: World, chip: Rtc.Chip, now: nat)
    ensures now - w.g.lastRtc <= ReportPeriodMs ==> Report(w, chip, now) == Step(w, [])
    ensures var r := Report(w, chip, now);
      now - w.g.lastRtc > ReportPeriodMs ==>
        r.next == w.(g := w.g.(lastRtc := now)) &&
        Concat(Notes(r.fx)) == (if w.warm.active then "WARM: " + FormatHms(SplitHms(Warmup.Remaining(w.warm, now)))
                                else Rtc.NowStringOf(w.rtc, chip))
  {
    var msg := if w.warm.active then "WARM: " + FormatHms(SplitHms(Warmup.Remaining(w.warm, now)))
               else Rtc.NowStringOf(w.rtc, chip);
    NotesOfNotifyEach(Chunks(msg));
    ChunksCorrect(msg);
  }

  /** The remote's start button starts the car when the engine is off and
      resets everything when it runs. */
  lemma RemoteStartCases(w: World, now: nat)
    ensures var r := OnRemote(w, Remote.StartPressed, now);
      !w.g.engineOn ==> r.fx != [] && r.fx[|r.fx| - 1] == Notify("START THE CAR SCHEDULED")
    ensures w.g.engineOn ==> OnRemote(w, Remote.StartPressed, now) == Reset(w, now)
  {
  }

  /** Commands are compared after normalisation: two texts that normalise
      alike are handled alike, except that an unknown command echoes its
      own text. */
  lemma HandleSeesNormalized(w: World, a: string, b: string, now: nat, chip: Rtc.Chip)
    requires Normalized(a) == Normalized(b) && Classify(Normalized(a)) != Unknown
    ensures Handle(w, a, now, chip) == Handle(w, b, now, chip)
  {
  }
}
