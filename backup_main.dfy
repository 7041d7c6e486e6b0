/** main.cpp of the earlier firmware snapshot as functions on a snapshot of
    the board. Unlike the live firmware it has no DoorControl and no
    WarmUpEngine: the lock pulse, the hazard, alarm and indicator blinkers,
    the daily 08:00 warm-up and the pending starters are globals of main.cpp
    itself. The blinkers and the pulse behave exactly as the live
    DoorControl does, so their state is a Door.DoorState and their ticks are
    Door's functions; the replies carry "ACK:" / "IGNORED:" prefixes,
    resetAll is single-phase, and start_the_car has no interlock. The class
    in backup_board.dfy performs the same steps on its own fields. */
module BackupMain {
  import opened Hw
  import opened Text
  import opened Clock
  import BackupRtc
  import Door
  import ButtonBackup
  import Remote
  import Warmup

  /** accOn, igOn and lampOn. */
  datatype Outputs = Outputs(acc: bool, ig: bool, lamp: bool)

  /** A flag with its deadline: starterActive/starterEnd,
      startCarPending/startCarAt, warmStarterPending/warmStarterAt. */
  datatype Timer = Timer(on: bool, at: nat)

  /** warmActive, warmEnd, the warm-up's pending starter, lastWarmDay and
      warmDurationMinutes. */
  datatype Warm = Warm(active: bool, end: nat, starter: Timer, lastDay: int, minutes: int)

  /** main.cpp's globals other than the door and blinker ones, the loop
      throttle and the connection flag. */
  datatype Globals = Globals(
    engineOn: bool,
    out: Outputs,
    starter: Timer,
    startCar: Timer,
    warm: Warm,
    loopTick: nat,
    connected: bool)

  /** Everything the earlier main.cpp can change: `door` holds locked, the
      pulse, the indicator, the hazard and the alarm wave; `prefs` the NVS
      integers; `rtcAdjusted` the setting the RTC module last handed to
      the chip. */
  datatype World = World(
    g: Globals,
    door: Door.DoorState,
    button: ButtonBackup.Sequencer,
    remote: Remote.Levels,
    callbacks: Remote.Callbacks,
    prefs: map<string, int>,
    rtcAdjusted: Option<BackupRtc.Setting>)

  const PulseMs := 600
  const StarterPulseMs := 1000
  const StarterDelayMs := 1000
  const LoopPeriodMs := 10
  const DefaultWarmMinutes := 10
  const WarmHour := 8

  /** The board right after setup(): every global at its initial value, the
      warm-up duration loaded from "warmlen", the button begun on its
      current reading with both callbacks registered, the receiver seeded
      with the current levels and every remote callback registered. */
  function Boot(stored: map<string, int>, levels: Remote.Levels, reading: bool, now: nat): World {
    var minutes := if "warmlen" in stored then stored["warmlen"] else DefaultWarmMinutes;
    var b := ButtonBackup.AfterBegin(ButtonBackup.Initial(PinLedPower), reading, now).next;
    World(Globals(false, Outputs(false, false, false), Timer(false, 0), Timer(false, 0),
                  Warm(false, 0, Timer(false, 0), -1, minutes), 0, false),
          Door.Initial(),
          b.(hasReset := true, hasSetter := true),
          levels,
          Remote.Callbacks(true, true, true, true),
          stored,
          None)
  }

  // -------------------------------------------------------------------
  // Lock, alarm, engine state and resetAll

  /** startLockPulse(): refused while locked or while a pulse is in
      flight; otherwise a 600 ms LOCK pulse. */
  function LockPulse(d: Door.DoorState, now: nat): Step<Door.DoorState> {
    if d.locked || d.pulse.active then Step(d, [Notify("IGNORED:LOCK")])
    else Step(d.(pulse := Door.Pulse(true, PinLock, now + PulseMs)),
              [Write(PinUnlock, false), Write(PinLock, true), Notify("ACK:LOCK")])
  }

  /** startUnlockPulse(): refused while unlocked or while a pulse is in
      flight; otherwise a 600 ms UNLOCK pulse. */
  function UnlockPulse(d: Door.DoorState, now: nat): Step<Door.DoorState> {
    if !d.locked || d.pulse.active then Step(d, [Notify("IGNORED:UNLOCK")])
    else Step(d.(pulse := Door.Pulse(true, PinUnlock, now + PulseMs)),
              [Write(PinLock, false), Write(PinUnlock, true), Notify("ACK:UNLOCK")])
  }

  /** The inline alarm_on / alarm_off blocks (also the remote's alarm
      toggle): on restarts the endless hazard blink; off stops it and drives
      HAZZARD low, but leaves the ALARM output as it is. */
  function AlarmSwitch(d: Door.DoorState, on: bool, now: nat): Step<Door.DoorState> {
    if on then
      Step(d.(alarm := d.alarm.(on := true),
              hazard := d.hazard.(alarmMode := true, active := true, step := 0, next := now)),
           [Notify("ACK:ALARM ON")])
    else
      Step(d.(alarm := d.alarm.(on := false), hazard := d.hazard.(alarmMode := false, active := false)),
           [Write(PinHazzard, false), Notify("ACK:ALARM OFF")])
  }

  function WithDoor(w: World, d: Step<Door.DoorState>): Step<World> {
    Step(w.(door := d.next), d.fx)
  }

  /** setEngineState(on): the flag, the indicator (blinking only when the
      engine goes off on a locked car), and the button's copy. */
  function SetEngine(w: World, on: bool, now: nat): Step<World> {
    var d := Door.AfterSetEngineState(w.door, on, now);
    Step(w.(g := w.g.(engineOn := on), door := d.next, button := w.button.(engineOn := on)), d.fx)
  }

  /** resetAll(): ACC, IG, ALARM and STARTER low at once, engine off, then
      the acknowledgement. Warm-up, pending starts, the hazard and the door
      are left alone. */
  function ResetAll(w: World, now: nat): Step<World> {
    var w1 := w.(g := w.g.(out := w.g.out.(acc := false, ig := false), starter := w.g.starter.(on := false)),
                 door := w.door.(alarm := w.door.alarm.(on := false, high := false)));
    var e := SetEngine(w1, false, now);
    Step(e.next, [Write(PinAcc, false), Write(PinIg, false), Write(PinAlarm, false), Write(PinStarter, false)] +
                 e.fx + [Notify("ACK:RESET_ALL")])
  }

  /** One effect of the button, with its callbacks carried out: the engine
      setter is setEngineState, the reset callback is resetAll. */
  function Callback(w: World, e: Effect, now: nat): Step<World> {
    match e
    case EngineSetter(on) => SetEngine(w, on, now)
    case ResetRequest => ResetAll(w, now)
    case _ => Step(w, [e])
  }

  function Resolve(w: World, fx: seq<Effect>, now: nat): Step<World>
    decreases |fx|
  {
    if fx == [] then Step(w, [])
    else
      var h := Callback(w, fx[0], now);
      var r := Resolve(h.next, fx[1..], now);
      Step(r.next, h.fx + r.fx)
  }

  /** A 1000 ms starter pulse with the engine reported on (starter_on and
      both pending starters). */
  function EngageStarter(w: World, now: nat): Step<World> {
    var e := SetEngine(w.(g := w.g.(starter := Timer(true, now + StarterPulseMs))), true, now);
    Step(e.next, [Write(PinStarter, true)] + e.fx)
  }

  // -------------------------------------------------------------------
  // The remote callbacks

  /** The remote's start button: with the engine off, ACC and IG on, the
      starter scheduled 1000 ms out and the engine reported on at once;
      with the engine on, resetAll. */
  function RemoteStart(w: World, now: nat): Step<World> {
    if !w.g.engineOn then
      var w1 := w.(g := w.g.(out := w.g.out.(acc := true, ig := true),
                             startCar := Timer(true, now + StarterDelayMs)));
      var e := SetEngine(w1, true, now);
      Step(e.next, [Write(PinAcc, true), Write(PinIg, true)] + e.fx + [Notify("ACK:START THE CAR SCHEDULED")])
    else ResetAll(w, now)
  }

  function OnRemote(w: World, e: Remote.RemoteEvent, now: nat): Step<World> {
    match e
    case LockPressed => WithDoor(w, LockPulse(w.door, now))
    case UnlockPressed => WithDoor(w, UnlockPulse(w.door, now))
    case StartPressed => RemoteStart(w, now)
    case AlarmTogglePressed => WithDoor(w, AlarmSwitch(w.door, !w.door.alarm.on, now))
  }

  function OnRemoteAll(w: World, evs: seq<Remote.RemoteEvent>, now: nat): Step<World>
    decreases |evs|
  {
    if evs == [] then Step(w, [])
    else
      var h := OnRemote(w, evs[0], now);
      var r := OnRemoteAll(h.next, evs[1..], now);
      Step(r.next, h.fx + r.fx)
  }

  // -------------------------------------------------------------------
  // The BLE write handler

  datatype Command =
    | AccOn | AccOff | IgOn | IgOff | StartTheCar | StarterOn | AlarmOn | AlarmOff
    | LampOn | LampOff | Lock | Unlock | Unknown

  /** The if-chain of the write handler on the normalised command. */
  function Classify(cmd: string): Command {
    if cmd == "acc_on" then AccOn
    else if cmd == "acc_off" then AccOff
    else if cmd == "ig_on" then IgOn
    else if cmd == "ig_off" then IgOff
    else if cmd == "start_the_car" then StartTheCar
    else if cmd == "starter_on" then StarterOn
    else if cmd == "alarm_on" then AlarmOn
    else if cmd == "alarm_off" then AlarmOff
    else if cmd == "lamp_on" then LampOn
    else if cmd == "lamp_off" then LampOff
    else if cmd == "lock" then Lock
    else if cmd == "unlock" then Unlock
    else Unknown
  }

  predicate IsSwitch(c: Command) {
    c.AccOn? || c.AccOff? || c.IgOn? || c.IgOff? || c.LampOn? || c.LampOff?
  }

  /** acc_on .. lamp_off: one output and its acknowledgement. */
  function SwitchCmd(w: World, c: Command): Step<World>
    requires IsSwitch(c)
  {
    var o := w.g.out;
    match c
    case AccOn => Step(w.(g := w.g.(out := o.(acc := true))), [Write(PinAcc, true), Notify("ACK:ACC ON")])
    case AccOff => Step(w.(g := w.g.(out := o.(acc := false))), [Write(PinAcc, false), Notify("ACK:ACC OFF")])
    case IgOn => Step(w.(g := w.g.(out := o.(ig := true))), [Write(PinIg, true), Notify("ACK:IG ON")])
    case IgOff => Step(w.(g := w.g.(out := o.(ig := false))), [Write(PinIg, false), Notify("ACK:IG OFF")])
    case LampOn => Step(w.(g := w.g.(out := o.(lamp := true))), [Write(PinLamp, true), Notify("ACK:LAMP ON")])
    case LampOff => Step(w.(g := w.g.(out := o.(lamp := false))), [Write(PinLamp, false), Notify("ACK:LAMP OFF")])
  }

  /** start_the_car: ACC and IG on and a starter 1000 ms out, whatever the
      engine, the starter or an earlier request are doing. */
  function StartTheCarCmd(w: World, now: nat): Step<World> {
    Step(w.(g := w.g.(out := w.g.out.(acc := true, ig := true), startCar := Timer(true, now + StarterDelayMs))),
         [Write(PinAcc, true), Write(PinIg, true), Notify("ACK:START THE CAR")])
  }

  /** starter_on: a starter pulse unless one is already running. */
  function StarterOnCmd(w: World, now: nat): Step<World> {
    if !w.g.starter.on then
      var e := EngageStarter(w, now);
      Step(e.next, e.fx + [Notify("ACK:STARTER ON")])
    else Step(w, [Notify("IGNORED:STARTER ON")])
  }

  predicate IsDoorCmd(c: Command) {
    c.Lock? || c.Unlock? || c.AlarmOn? || c.AlarmOff?
  }

  function DoorCmd(w: World, c: Command, now: nat): Step<World>
    requires IsDoorCmd(c)
  {
    match c
    case Lock => WithDoor(w, LockPulse(w.door, now))
    case Unlock => WithDoor(w, UnlockPulse(w.door, now))
    case AlarmOn => WithDoor(w, AlarmSwitch(w.door, true, now))
    case AlarmOff => WithDoor(w, AlarmSwitch(w.door, false, now))
  }

  function Dispatch(w: World, c: Command, now: nat): Step<World>
    requires !c.Unknown?
  {
    match c
    case AccOn => SwitchCmd(w, c)
    case AccOff => SwitchCmd(w, c)
    case IgOn => SwitchCmd(w, c)
    case IgOff => SwitchCmd(w, c)
    case LampOn => SwitchCmd(w, c)
    case LampOff => SwitchCmd(w, c)
    case StartTheCar => StartTheCarCmd(w, now)
    case StarterOn => StarterOnCmd(w, now)
    case Lock => DoorCmd(w, c, now)
    case Unlock => DoorCmd(w, c, now)
    case AlarmOn => DoorCmd(w, c, now)
    case AlarmOff => DoorCmd(w, c, now)
  }

  /** The write handler for the raw text `val`: an unknown command is
      answered with "UNKNOWN:" and the raw text upper-cased. */
  function Handle(w: World, val: string, now: nat): Step<World> {
    var c := Classify(Normalized(val));
    if c.Unknown? then Step(w, [Notify("UNKNOWN:" + PrettyCmd(val))])
    else Dispatch(w, c, now)
  }

  /** The connection handler: the connection LED follows the link. */
  function OnConnect(w: World, connected: bool): Step<World> {
    Step(w.(g := w.g.(connected := connected)), [Write(PinLedConn, connected)])
  }

  // -------------------------------------------------------------------
  // loop()

  /** The inputs of one pass: the receiver lines, the button line, the RTC
      chip's reading, and a line from the serial console if one arrived. */
  datatype Inputs = Inputs(remote: Remote.Levels, buttonLevel: bool, reading: DateTime, serial: Option<string>)

  /** Starter completion: STARTER low and the acknowledgement; the engine
      stays reported on. */
  function StarterDone(w: World, now: nat): Step<World> {
    if w.g.starter.on && now >= w.g.starter.at then
      Step(w.(g := w.g.(starter := w.g.starter.(on := false))),
           [Write(PinStarter, false), Notify("ACK:STARTER_DONE")])
    else Step(w, [])
  }

  /** The first blocks of loop(): pulse completion, starter completion,
      alarm wave, indicator blink, hazard. */
  function Ticks(w: World, now: nat): Step<World> {
    var p := Door.PulseTick(w.door, now);
    var s := StarterDone(w.(door := p.next), now);
    var d := s.next.door;
    var a := Door.AlarmTick(d.alarm, now);
    var q := Door.PesawatTick(d.pesawat, now);
    var h := Door.HazardTick(d.hazard, now);
    Step(s.next.(door := d.(alarm := a.next, pesawat := q.next, hazard := h.next)),
         p.fx + s.fx + a.fx + q.fx + h.fx)
  }

  /** rx500.update() and buttonTombol.update(), with their callbacks. */
  function RemoteAndButton(w: World, inp: Inputs, now: nat): Step<World> {
    var evs := Remote.Edges(w.remote, inp.remote, w.callbacks);
    var r := OnRemoteAll(w.(remote := inp.remote), evs, now);
    var b := ButtonBackup.AfterUpdate(r.next.button, inp.buttonLevel, now);
    var z := Resolve(r.next.(button := b.next), b.fx, now);
    Step(z.next, r.fx + z.fx)
  }

  /** A warm-up cycle starting now: IG on, the starter 1000 ms out, the end
      `warmDurationMinutes` minutes out (as a 32-bit product). */
  function WarmStart(w: World, now: nat): Step<World> {
    var m := w.g.warm;
    Step(w.(g := w.g.(warm := m.(active := true, end := now + Warmup.Span(m.minutes),
                                 starter := Timer(true, now + StarterDelayMs)),
                      out := w.g.out.(ig := true))),
         [Write(PinIg, true), Notify("ACK:WARM_ON")])
  }

  /** The console commands, on the trimmed line. */
  datatype SerialCommand =
    | ShowRtc | I2cScan | ForceWarm | SerialLock | SerialUnlock
    | SetRtc(arg: string) | WarmLen(arg: string) | Help | Unrecognised

  function ClassifySerial(cmd: string): SerialCommand {
    var lower := LowerAll(cmd);
    if lower == "rtc" then ShowRtc
    else if lower == "i2cscan" then I2cScan
    else if lower == "warm" then ForceWarm
    else if lower == "lock" then SerialLock
    else if lower == "unlock" then SerialUnlock
    else if StartsWith(cmd, "setrtc") then SetRtc(Trim(cmd[6..]))
    else if StartsWith(cmd, "warmlen") then WarmLen(Trim(cmd[7..]))
    else if lower == "help" then Help
    else Unrecognised
  }

  /** What `setrtc <arg>` hands to the chip; None where setNowFromString
      refuses the stamp. */
  function SetRtcRequest(arg: string): Option<BackupRtc.Setting> {
    if arg == [] || LowerAll(arg) == "now" then Some(BackupRtc.CompileTime)
    else
      match BackupRtc.ParseSetTime(arg)
      case Some(f) => Some(BackupRtc.Adjust(f))
      case None => None
  }

  /** `setrtc <arg>`: the setting is handed to the chip; a refused stamp
      leaves it alone. */
  function AdjustRtc(w: World, arg: string): World {
    match SetRtcRequest(arg)
    case Some(r) => w.(rtcAdjusted := Some(r))
    case None => w
  }

  /** `warmlen <m>`: a duration of 1 to 60 minutes is taken and saved. */
  function SetWarmLen(w: World, arg: string): World {
    if arg == [] then w
    else
      var m := AtoL(arg);
      if 1 <= m <= 60 then w.(g := w.g.(warm := w.g.warm.(minutes := m)), prefs := w.prefs["warmlen" := m])
      else w
  }

  /** One console command. Printing commands change nothing; setrtc
      adjusts the chip, whose later readings are inputs. */
  function SerialCmd(w: World, c: SerialCommand, now: nat): Step<World> {
    match c
    case ForceWarm => if !w.g.warm.active then WarmStart(w, now) else Step(w, [])
    case SerialLock => WithDoor(w, LockPulse(w.door, now))
    case SerialUnlock => WithDoor(w, UnlockPulse(w.door, now))
    case WarmLen(arg) => Step(SetWarmLen(w, arg), [])
    case ShowRtc => Step(w, [])
    case I2cScan => Step(w, [])
    case SetRtc(arg) => Step(AdjustRtc(w, arg), [])
    case Help => Step(w, [])
    case Unrecognised => Step(w, [])
  }

  /** A serial line, trimmed; empty lines are ignored. */
  function Serial(w: World, line: Option<string>, now: nat): Step<World> {
    if line.None? || Trim(line.value) == [] then Step(w, [])
    else SerialCmd(w, ClassifySerial(Trim(line.value)), now)
  }

  /** Arduino's String::substring(left, right) for left <= right: empty
      from the end of the string on, the right end cut to the length. */
  function Substring(s: string, left: nat, right: nat): string
    requires left <= right
  {
    if left >= |s| then [] else s[left..if right <= |s| then right else |s|]
  }

  /** hour, minute and day as loop() reads them back from nowString(). */
  datatype ClockFields = ClockFields(hour: int, minute: int, day: int)

  function ReadClock(stamp: string): ClockFields {
    ClockFields(AtoL(Substring(stamp, 11, 13)), AtoL(Substring(stamp, 14, 16)), AtoL(Substring(stamp, 8, 10)))
  }

  /** The daily trigger: at 08:00 on a day of the month other than the
      last one it fired on, a warm-up cycle, whether or not one is
      running. */
  function Daily(w: World, reading: DateTime, now: nat): Step<World> {
    var f := ReadClock(BackupRtc.NowString(reading));
    if f.hour == WarmHour && f.minute == 0 && w.g.warm.lastDay != f.day then
      WarmStart(w.(g := w.g.(warm := w.g.warm.(lastDay := f.day))), now)
    else Step(w, [])
  }

  /** The warm-up's pending starter: consumed once due; it asserts STARTER
      only when no starter pulse is running. */
  function WarmPending(w: World, now: nat): Step<World> {
    var t := w.g.warm.starter;
    if t.on && now >= t.at then
      var w1 := w.(g := w.g.(warm := w.g.warm.(starter := t.(on := false))));
      if !w1.g.starter.on then EngageStarter(w1, now) else Step(w1, [])
    else Step(w, [])
  }

  /** The pending start_the_car starter: consumed once due; it asserts
      STARTER, with an acknowledgement, only when none is running. */
  function StartCarPending(w: World, now: nat): Step<World> {
    var t := w.g.startCar;
    if t.on && now >= t.at then
      var w1 := w.(g := w.g.(startCar := t.(on := false)));
      if !w1.g.starter.on then
        var e := EngageStarter(w1, now);
        Step(e.next, e.fx + [Notify("ACK:STARTER ON")])
      else Step(w1, [])
    else Step(w, [])
  }

  /** The end of a warm-up cycle: ACC, IG, STARTER, LAMP and ALARM low and
      the engine flag cleared directly, without setEngineState: the
      indicator and the button's copy of the engine state are untouched. */
  function WarmEnd(w: World, now: nat): Step<World> {
    if w.g.warm.active && now >= w.g.warm.end then
      Step(w.(g := w.g.(warm := w.g.warm.(active := false), out := Outputs(false, false, false),
                        starter := w.g.starter.(on := false), engineOn := false),
              door := w.door.(alarm := w.door.alarm.(on := false, high := false))),
           [Write(PinAcc, false), Write(PinIg, false), Write(PinStarter, false), Write(PinLamp, false),
            Write(PinAlarm, false), Notify("ACK:WARM_DONE")])
    else Step(w, [])
  }

  /** The second half of loop(): console, daily trigger, pending starters,
      warm-up end. */
  function Timers(w: World, inp: Inputs, now: nat): Step<World> {
    var s := Serial(w, inp.serial, now);
    var d := Daily(s.next, inp.reading, now);
    var p := Pending(d.next, now);
    var e := WarmEnd(p.next, now);
    Step(e.next, s.fx + d.fx + p.fx + e.fx)
  }

  /** The two pending starters, the warm-up's first. */
  function Pending(w: World, now: nat): Step<World> {
    var a := WarmPending(w, now);
    var b := StartCarPending(a.next, now);
    Step(b.next, a.fx + b.fx)
  }

  /** loop(): at most one pass every 10 ms. */
  function Loop(w: World, inp: Inputs, now: nat): Step<World> {
    if now - w.g.loopTick < LoopPeriodMs then Step(w, [])
    else
      var a := Ticks(w.(g := w.g.(loopTick := now)), now);
      var b := RemoteAndButton(a.next, inp, now);
      var c := Timers(b.next, inp, now);
      Step(c.next, a.fx + b.fx + c.fx)
  }

  // -------------------------------------------------------------------
  // Properties

  /** The inline door logic of the earlier main.cpp changes the door state
      exactly as the live DoorControl does; only the reply texts differ. */
  lemma DoorAsLive(w: World, on: bool, now: nat)
    ensures LockPulse(w.door, now).next == Door.AfterLockPulse(w.door, now).next
    ensures UnlockPulse(w.door, now).next == Door.AfterUnlockPulse(w.door, now).next
    ensures AlarmSwitch(w.door, on, now).next == Door.AfterSetAlarm(w.door, on, now).next
    ensures SetEngine(w, on, now).next.door == Door.AfterSetEngineState(w.door, on, now).next
    ensures Ticks(w, now).next.door == Door.AfterUpdate(w.door, now).next
  {
  }

  /** A lock request is refused, with only a reply, exactly while the car
      is locked or a pulse is in flight; an accepted one starts a 600 ms
      LOCK pulse and leaves `locked` for the pulse's completion. The same
      for unlock with the condition mirrored. */
  lemma PulseGuards(d: Door.DoorState, now: nat)
    ensures LockPulse(d, now).fx == [Notify("IGNORED:LOCK")] <==> d.locked || d.pulse.active
    ensures d.locked || d.pulse.active ==> LockPulse(d, now).next == d
    ensures !d.locked && !d.pulse.active ==>
      LockPulse(d, now).next == d.(pulse := Door.Pulse(true, PinLock, now + 600)) &&
      LockPulse(d, now).fx == [Write(PinUnlock, false), Write(PinLock, true), Notify("ACK:LOCK")]
    ensures UnlockPulse(d, now).fx == [Notify("IGNORED:UNLOCK")] <==> !d.locked || d.pulse.active
    ensures !d.locked || d.pulse.active ==> UnlockPulse(d, now).next == d
    ensures d.locked && !d.pulse.active ==>
      UnlockPulse(d, now).next == d.(pulse := Door.Pulse(true, PinUnlock, now + 600)) &&
      UnlockPulse(d, now).fx == [Write(PinLock, false), Write(PinUnlock, true), Notify("ACK:UNLOCK")]
  {
  }

  /** A completed LOCK pulse commits `locked`, replies "LOCKED", starts the
      LOCK hazard pattern and the indicator; a completed UNLOCK pulse
      commits unlocked and stops the indicator. */
  lemma {:induction false} PulseCompletion(w: World, now: nat)
    requires Door.PulseInv(w.door) && w.door.pulse.active && now >= w.door.pulse.end
    ensures var n := Ticks(w, now).next.door;
      n.locked == (w.door.pulse.pin == PinLock) && !n.pulse.active && n.pulse.pin == -1
    ensures w.door.pulse.pin == PinLock ==>
      Ticks(w, now).fx[..3] == [Write(PinLock, false), Notify("LOCKED"), Write(PinPesawat, true)]
    ensures w.door.pulse.pin == PinUnlock ==>
      Ticks(w, now).fx[..3] == [Write(PinUnlock, false), Notify("UNLOCKED"), Write(PinPesawat, false)]
  {
    DoorAsLive(w, false, now);
    Door.CompletionFlipsLocked(w.door, now);
    Door.LockedChangesOnlyAtCompletion(w.door, now, false);
    Door.CompletionStarts(w.door, now);
    var p := Door.PulseTick(w.door, now);
    assert |p.fx| == 3;
    var t := Ticks(w, now);
    assert t.fx[..3] == p.fx;
  }

  /** Starter completion drops STARTER and acknowledges, and keeps the
      engine reported on, so that the next remote start press resets. */
  lemma StarterDoneKeepsEngine(w: World, now: nat)
    requires w.g.starter.on && now >= w.g.starter.at
    ensures var n := StarterDone(w, now).next;
      !n.g.starter.on && n.g.engineOn == w.g.engineOn && n.button == w.button && n.door == w.door
    ensures StarterDone(w, now).fx == [Write(PinStarter, false), Notify("ACK:STARTER_DONE")]
    ensures w.g.engineOn ==> RemoteStart(StarterDone(w, now).next, now) == ResetAll(StarterDone(w, now).next, now)
  {
  }

  /** resetAll is single-phase: ACC, IG, ALARM and STARTER are driven low
      at once, the engine is off for main.cpp and the button, the reply
      comes last; the warm-up, both pending starters, the hazard, the pulse
      and the lock state are untouched. */
  lemma ResetAllSinglePhase(w: World, now: nat)
    ensures var n := ResetAll(w, now).next;
      !n.g.engineOn && !n.button.engineOn && !n.g.out.acc && !n.g.out.ig && !n.g.starter.on &&
      !n.door.alarm.on && !n.door.alarm.high && n.g.out.lamp == w.g.out.lamp &&
      n.g.warm == w.g.warm && n.g.startCar == w.g.startCar &&
      n.door.hazard == w.door.hazard && n.door.pulse == w.door.pulse && n.door.locked == w.door.locked
    ensures var fx := ResetAll(w, now).fx;
      |fx| == 6 && fx[..4] == [Write(PinAcc, false), Write(PinIg, false), Write(PinAlarm, false), Write(PinStarter, false)] &&
      fx[5] == Notify("ACK:RESET_ALL") && !Drives(fx, PinLamp) && !Drives(fx, PinHazzard)
  {
    var fx := ResetAll(w, now).fx;
    assert fx[4] == Write(PinPesawat, w.door.locked);
  }

  /** Since resetAll leaves a pending start alone and frees the starter, a
      start request made before a reset still cranks the engine once its
      second is up. */
  lemma {:induction false} PendingStartSurvivesReset(w: World, now: nat, later: nat)
    requires w.g.startCar.on && later >= w.g.startCar.at
    ensures var r := StartCarPending(ResetAll(w, now).next, later);
      r.next.g.starter == Timer(true, later + StarterPulseMs) && r.next.g.engineOn &&
      r.fx[0] == Write(PinStarter, true) && r.fx[|r.fx| - 1] == Notify("ACK:STARTER ON")
  {
    ResetAllSinglePhase(w, now);
  }

  /** start_the_car has no interlock: whatever the engine, the starter or an
      earlier request are doing, ACC and IG go on and a starter is pending
      1000 ms out. */
  lemma StartTheCarNoInterlock(w: World, val: string, now: nat)
    requires Normalized(val) == "start_the_car"
    ensures var n := Handle(w, val, now).next;
      n.g.out.acc && n.g.out.ig && n.g.startCar == Timer(true, now + 1000) &&
      n.g.engineOn == w.g.engineOn && n.g.starter == w.g.starter && n.door == w.door
    ensures Handle(w, val, now).fx == [Write(PinAcc, true), Write(PinIg, true), Notify("ACK:START THE CAR")]
  {
  }

  /** The pending start fires once: when due it is consumed, and it
      asserts STARTER and reports the engine on only if no starter pulse is
      running; a second pass finds nothing pending. */
  lemma StartCarFiresOnce(w: World, now: nat, later: nat)
    requires w.g.startCar.on && now >= w.g.startCar.at
    ensures var r := StartCarPending(w, now);
      !r.next.g.startCar.on && StartCarPending(r.next, later) == Step(r.next, [])
    ensures !w.g.starter.on ==>
      var r := StartCarPending(w, now);
      r.next.g.starter == Timer(true, now + 1000) && r.next.g.engineOn && r.next.button.engineOn &&
      r.fx[0] == Write(PinStarter, true) && r.fx[|r.fx| - 1] == Notify("ACK:STARTER ON")
    ensures w.g.starter.on ==>
      StartCarPending(w, now) == Step(w.(g := w.g.(startCar := w.g.startCar.(on := false))), [])
  {
  }

  /** The warm-up's pending starter likewise fires once, silently, and only
      when no starter pulse is running. */
  lemma WarmPendingFiresOnce(w: World, now: nat, later: nat)
    requires w.g.warm.starter.on && now >= w.g.warm.starter.at
    ensures var r := WarmPending(w, now);
      !r.next.g.warm.starter.on && WarmPending(r.next, later) == Step(r.next, []) &&
      Notes(r.fx) == []
    ensures !w.g.starter.on ==>
      var r := WarmPending(w, now);
      r.next.g.starter == Timer(true, now + 1000) && r.next.g.engineOn && r.fx[0] == Write(PinStarter, true)
    ensures w.g.starter.on ==> WarmPending(w, now).fx == []
  {
    var r := WarmPending(w, now);
    if !w.g.starter.on {
      assert r.fx == [Write(PinStarter, true), Write(PinPesawat, false)];
    }
  }

  /** The remote's start button: with the engine off, ACC and IG on, the
      engine reported on at once and the starter 1000 ms out; with the
      engine on, resetAll. */
  lemma RemoteStartCases(w: World, now: nat)
    ensures !w.g.engineOn ==>
      var r := OnRemote(w, Remote.StartPressed, now);
      r.next.g.out.acc && r.next.g.out.ig && r.next.g.engineOn && r.next.button.engineOn &&
      r.next.g.startCar == Timer(true, now + 1000) && r.next.g.starter == w.g.starter &&
      r.fx[..2] == [Write(PinAcc, true), Write(PinIg, true)] &&
      r.fx[|r.fx| - 1] == Notify("ACK:START THE CAR SCHEDULED")
    ensures w.g.engineOn ==> OnRemote(w, Remote.StartPressed, now) == ResetAll(w, now)
  {
  }

  /** An unrecognised command changes nothing and is answered with
      "UNKNOWN:" and the raw text upper-cased, '_' as blanks. */
  lemma UnknownReply(w: World, val: string, now: nat)
    requires Classify(Normalized(val)) == Unknown
    ensures Handle(w, val, now) == Step(w, [Notify("UNKNOWN:" + PrettyCmd(val))])
    ensures |Notes(Handle(w, val, now).fx)[0]| == 8 + |val|
  {
    PrettyCmdShape(val);
  }

  /** warmlen takes a duration exactly when its argument reads as 1 to 60,
      and then saves it under "warmlen"; nothing else changes. */
  lemma WarmLenRange(w: World, arg: string)
    ensures var n := SetWarmLen(w, arg);
      n.g.warm.minutes != w.g.warm.minutes || n.prefs != w.prefs ==>
        arg != [] && 1 <= AtoL(arg) <= 60
    ensures arg != [] && 1 <= AtoL(arg) <= 60 ==>
      SetWarmLen(w, arg) == w.(g := w.g.(warm := w.g.warm.(minutes := AtoL(arg))),
                               prefs := w.prefs["warmlen" := AtoL(arg)]) &&
      SetWarmLen(w, arg).prefs["warmlen"] == AtoL(arg)
    ensures SetWarmLen(w, arg).g == w.g.(warm := w.g.warm.(minutes := SetWarmLen(w, arg).g.warm.minutes))
  {
  }

  /** The console's setrtc: no argument or "now" sets the compile time; a
      stamp is handed to the chip exactly when setNowFromString accepts
      it, as the fields read at their fixed offsets. */
  lemma SetRtcRequestCases(arg: string)
    ensures SetRtcRequest(arg) == Some(BackupRtc.CompileTime) <==> arg == [] || LowerAll(arg) == "now"
    ensures SetRtcRequest(arg).Some? && SetRtcRequest(arg).value.Adjust? ==>
      BackupRtc.ParseSetTime(arg).Some? && |arg| >= StampLength &&
      SetRtcRequest(arg).value.f == ReadFields(arg) && SetRtcRequest(arg).value.f.year >= 2000
    ensures arg != [] && LowerAll(arg) != "now" && BackupRtc.ParseSetTime(arg).Some? ==>
      SetRtcRequest(arg) == Some(BackupRtc.Adjust(ReadFields(arg)))
    ensures SetRtcRequest(arg).None? <==> arg != [] && LowerAll(arg) != "now" && BackupRtc.ParseSetTime(arg).None?
  {
  }

  /** The console's setrtc changes only the chip's setting: to the request
      when there is one, not at all for a refused stamp. */
  lemma SerialSetRtc(w: World, arg: string, now: nat)
    ensures var r := SerialCmd(w, SetRtc(arg), now);
      r.fx == [] && r.next == w.(rtcAdjusted := r.next.rtcAdjusted) &&
      r.next.rtcAdjusted == (if SetRtcRequest(arg).Some? then SetRtcRequest(arg) else w.rtcAdjusted)
  {
  }

  /** loop() reads hour, minute and day back from the printed stamp; for a
      reading that fits the stamp they are the reading's own. */
  lemma {:induction false} ReadClockOfReading(t: DateTime)
    requires FitsStamp(t)
    ensures ReadClock(BackupRtc.NowString(t)) == ClockFields(t.hour, t.minute, t.day)
  {
    FormatReadFields(t);
    var s := BackupRtc.NowString(t);
    assert Substring(s, 11, 13) == s[11..13];
    assert Substring(s, 14, 16) == s[14..16];
    assert Substring(s, 8, 10) == s[8..10];
  }

  /** The daily trigger fires exactly at 08:00 on a day of the month it has
      not fired on, and then starts a warm-up cycle even when one is
      already running. */
  lemma {:induction false} DailyIff(w: World, t: DateTime, now: nat)
    requires FitsStamp(t)
    ensures Daily(w, t, now).fx != [] <==> t.hour == 8 && t.minute == 0 && w.g.warm.lastDay != t.day
    ensures t.hour == 8 && t.minute == 0 && w.g.warm.lastDay != t.day ==>
      var n := Daily(w, t, now).next;
      n.g.warm.lastDay == t.day && n.g.warm.active && n.g.warm.end == now + Warmup.Span(w.g.warm.minutes) &&
      n.g.warm.starter == Timer(true, now + 1000) && n.g.out.ig &&
      Daily(w, t, now).fx == [Write(PinIg, true), Notify("ACK:WARM_ON")]
  {
    ReadClockOfReading(t);
  }

  /** Once per day of the month: after the trigger fired, the same reading
      at any later pass leaves the board alone. */
  lemma {:induction false} DailyOncePerDay(w: World, t: DateTime, now: nat, later: nat)
    requires FitsStamp(t)
    ensures var n := Daily(w, t, now).next;
      Daily(n, t, later) == Step(n, [])
  {
    ReadClockOfReading(t);
  }

  /** The serial "warm" command starts a cycle only when none is running. */
  lemma ForceWarmOnlyIdle(w: World, now: nat)
    ensures w.g.warm.active ==> SerialCmd(w, ForceWarm, now) == Step(w, [])
    ensures !w.g.warm.active ==>
      SerialCmd(w, ForceWarm, now) == WarmStart(w, now) &&
      SerialCmd(w, ForceWarm, now).next.g.warm.lastDay == w.g.warm.lastDay
  {
  }

  /** The end of a warm-up cycle turns everything off and clears the
      engine flag directly: the indicator, the lock state and the
      button's copy of the engine state keep their values. */
  lemma WarmEndDirect(w: World, now: nat)
    requires w.g.warm.active && now >= w.g.warm.end
    ensures var n := WarmEnd(w, now).next;
      !n.g.warm.active && !n.g.engineOn && !n.g.starter.on && n.g.out == Outputs(false, false, false) &&
      !n.door.alarm.on && n.door.pesawat == w.door.pesawat && n.door.locked == w.door.locked &&
      n.button == w.button
    ensures var fx := WarmEnd(w, now).fx;
      fx[|fx| - 1] == Notify("ACK:WARM_DONE") && !Drives(fx, PinPesawat) && !Drives(fx, PinHazzard)
  {
  }

  /** A pass within 10 ms of the previous one does nothing. */
  lemma LoopThrottle(w: World, inp: Inputs, now: nat)
    requires now - w.g.loopTick < LoopPeriodMs
    ensures Loop(w, inp, now) == Step(w, [])
  {
  }

  // -------------------------------------------------------------------
  // The board invariant

  /** A pulse is in flight exactly when a solenoid pin is recorded, and
      only towards the other lock state; and whenever main.cpp has the
      engine on, so does the button, whose press then only asks for a
      reset instead of starting the ramp. */
  predicate Inv(w: World) {
    Door.PulseInv(w.door) && (w.g.engineOn ==> w.button.engineOn)
  }

  lemma BootInv(stored: map<string, int>, levels: Remote.Levels, reading: bool, now: nat)
    ensures var w := Boot(stored, levels, reading, now);
      Inv(w) && !w.g.engineOn && !w.g.starter.on && !w.g.warm.active && w.g.warm.lastDay == -1 &&
      w.button.phase == ButtonBackup.Ramp.Idle && !w.button.engineOn
  {
  }

  lemma SetEngineKeeps(w: World, on: bool, now: nat)
    requires Inv(w)
    ensures Inv(SetEngine(w, on, now).next)
  {
    Door.PulseInvPreserved(w.door, now, on);
  }

  lemma CallbackKeeps(w: World, e: Effect, now: nat)
    requires Inv(w)
    ensures Inv(Callback(w, e, now).next)
  {
    match e
    case EngineSetter(on) => SetEngineKeeps(w, on, now);
    case ResetRequest =>
      var w1 := w.(g := w.g.(out := w.g.out.(acc := false, ig := false), starter := w.g.starter.(on := false)),
                   door := w.door.(alarm := w.door.alarm.(on := false, high := false)));
      SetEngineKeeps(w1, false, now);
    case _ =>
  }

  lemma {:induction false} ResolveKeeps(w: World, fx: seq<Effect>, now: nat)
    requires Inv(w)
    ensures Inv(Resolve(w, fx, now).next)
    decreases |fx|
  {
    if fx != [] {
      CallbackKeeps(w, fx[0], now);
      ResolveKeeps(Callback(w, fx[0], now).next, fx[1..], now);
    }
  }

  lemma OnRemoteKeeps(w: World, e: Remote.RemoteEvent, now: nat)
    requires Inv(w)
    ensures Inv(OnRemote(w, e, now).next)
  {
    Door.PulseInvPreserved(w.door, now, !w.door.alarm.on);
    DoorAsLive(w, !w.door.alarm.on, now);
    if e.StartPressed? {
      if !w.g.engineOn {
        SetEngineKeeps(w.(g := w.g.(out := w.g.out.(acc := true, ig := true),
                                   startCar := Timer(true, now + StarterDelayMs))), true, now);
      } else {
        CallbackKeeps(w, ResetRequest, now);
      }
    }
  }

  lemma {:induction false} OnRemoteAllKeeps(w: World, evs: seq<Remote.RemoteEvent>, now: nat)
    requires Inv(w)
    ensures Inv(OnRemoteAll(w, evs, now).next)
    decreases |evs|
  {
    if evs != [] {
      OnRemoteKeeps(w, evs[0], now);
      OnRemoteAllKeeps(OnRemote(w, evs[0], now).next, evs[1..], now);
    }
  }

  /** The button only ever sets its engine flag, never clears it. */
  lemma ButtonKeepsEngine(s: ButtonBackup.Sequencer, v: bool, now: nat)
    requires s.engineOn
    ensures ButtonBackup.AfterUpdate(s, v, now).next.engineOn
  {
  }

  lemma RemoteAndButtonKeeps(w: World, inp: Inputs, now: nat)
    requires Inv(w)
    ensures Inv(RemoteAndButton(w, inp, now).next)
  {
    var evs := Remote.Edges(w.remote, inp.remote, w.callbacks);
    OnRemoteAllKeeps(w.(remote := inp.remote), evs, now);
    var r := OnRemoteAll(w.(remote := inp.remote), evs, now);
    var b := ButtonBackup.AfterUpdate(r.next.button, inp.buttonLevel, now);
    if r.next.button.engineOn {
      ButtonKeepsEngine(r.next.button, inp.buttonLevel, now);
    }
    ResolveKeeps(r.next.(button := b.next), b.fx, now);
  }

  lemma TicksKeep(w: World, now: nat)
    requires Inv(w)
    ensures Inv(Ticks(w, now).next)
  {
    DoorAsLive(w, false, now);
    Door.PulseInvPreserved(w.door, now, false);
  }

  lemma DoorCmdKeeps(w: World, c: Command, now: nat)
    requires Inv(w) && IsDoorCmd(c)
    ensures Inv(DoorCmd(w, c, now).next)
  {
    DoorAsLive(w, c.AlarmOn?, now);
    Door.PulseInvPreserved(w.door, now, c.AlarmOn?);
  }

  lemma StarterOnKeeps(w: World, now: nat)
    requires Inv(w)
    ensures Inv(StarterOnCmd(w, now).next)
  {
    SetEngineKeeps(w.(g := w.g.(starter := Timer(true, now + StarterPulseMs))), true, now);
  }

  lemma HandleKeeps(w: World, val: string, now: nat)
    requires Inv(w)
    ensures Inv(Handle(w, val, now).next)
  {
    var c := Classify(Normalized(val));
    if IsDoorCmd(c) {
      DoorCmdKeeps(w, c, now);
    } else if c.StarterOn? {
      StarterOnKeeps(w, now);
    }
  }

  lemma SerialCmdKeeps(w: World, c: SerialCommand, now: nat)
    requires Inv(w)
    ensures Inv(SerialCmd(w, c, now).next)
  {
    if c.SerialLock? || c.SerialUnlock? {
      DoorAsLive(w, false, now);
      Door.PulseInvPreserved(w.door, now, false);
    }
  }

  lemma SerialKeeps(w: World, line: Option<string>, now: nat)
    requires Inv(w)
    ensures Inv(Serial(w, line, now).next)
  {
    if line.Some? && Trim(line.value) != [] {
      SerialCmdKeeps(w, ClassifySerial(Trim(line.value)), now);
    }
  }

  lemma DailyKeeps(w: World, reading: DateTime, now: nat)
    requires Inv(w)
    ensures Inv(Daily(w, reading, now).next)
  {
  }

  lemma WarmEndKeeps(w: World, now: nat)
    requires Inv(w)
    ensures Inv(WarmEnd(w, now).next)
  {
  }

  lemma TimersKeep(w: World, inp: Inputs, now: nat)
    requires Inv(w)
    ensures Inv(Timers(w, inp, now).next)
  {
    SerialKeeps(w, inp.serial, now);
    var s := Serial(w, inp.serial, now);
    DailyKeeps(s.next, inp.reading, now);
    var d := Daily(s.next, inp.reading, now);
    PendingKeeps(d.next, now);
    WarmEndKeeps(Pending(d.next, now).next, now);
  }

  lemma PendingKeeps(w: World, now: nat)
    requires Inv(w)
    ensures Inv(Pending(w, now).next)
  {
    var t := w.g.warm.starter;
    var w1 := w.(g := w.g.(warm := w.g.warm.(starter := t.(on := false))));
    SetEngineKeeps(w1.(g := w1.g.(starter := Timer(true, now + StarterPulseMs))), true, now);
    var a := WarmPending(w, now);
    assert Inv(a.next);
    var u := a.next.g.startCar;
    var w2 := a.next.(g := a.next.g.(startCar := u.(on := false)));
    SetEngineKeeps(w2.(g := w2.g.(starter := Timer(true, now + StarterPulseMs))), true, now);
  }

  /** Every pass of loop() keeps the invariant, whatever its inputs. */
  lemma LoopKeepsInv(w: World, inp: Inputs, now: nat)
    requires Inv(w)
    ensures Inv(Loop(w, inp, now).next)
  {
    if now - w.g.loopTick >= LoopPeriodMs {
      var w0 := w.(g := w.g.(loopTick := now));
      TicksKeep(w0, now);
      var a := Ticks(w0, now);
      RemoteAndButtonKeeps(a.next, inp, now);
      TimersKeep(RemoteAndButton(a.next, inp, now).next, inp, now);
    }
  }
}
