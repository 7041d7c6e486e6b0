/** WarmUpEngine: the engine warm-up scheduler of the live firmware. A
    cycle starts once a day at 15:31 (only while the clock is plausible) or
    on demand; it turns IG on, 1000 ms later asserts the starter (marking it busy
    with an end time one second out) unless it is already busy, and after the
    configured number of minutes switches the engine outputs off again.
    The starter flag and its end time are the firmware's shared globals;
    they are passed in and handed back. */
module Warmup {
  import opened Hw
  import opened Clock
  import Rtc
  import Store

  /** The fields of WarmUpEngine. `setter` records whether an engine-setter
      callback was registered. */
  datatype WarmState = WarmState(
    active: bool,
    end: nat,
    starterPending: bool,
    starterAt: nat,
    lastDay: int,
    minutes: int,
    setter: bool)

  /** The shared starter pulse: starterActive and starterEnd. */
  datatype Starter = Starter(active: bool, end: nat)

  /** The result of a step that may touch the shared starter. */
  datatype Tick = Tick(warm: WarmState, starter: Starter, fx: seq<Effect>)

  /** What the scheduler sees of the clock: no RTC object at all, or the
      RTC's now() together with its lostPowerFlag(). */
  datatype ClockView = NoClock | Reading(time: DateTime, lostPower: bool)

  const DefaultMinutes := 10
  const DailyHour := 15
  const DailyMinute := 31
  const StarterDelayMs := 1000
  const StarterPulseMs := 1000

  /** The constructor's field values. */
  function Initial(): WarmState {
    WarmState(false, 0, false, 0, -1, DefaultMinutes, false)
  }

  /** rtcTimePlausible(). */
  predicate Plausible(c: ClockView) {
    c.Reading? && 2020 <= c.time.year <= 2035 && !c.lostPower
  }

  /** rtcSafeNow(): the reading only when it is plausible. */
  function SafeNow(c: ClockView): (t: DateTime)
    ensures Plausible(c) ==> t == c.time
    ensures !Plausible(c) ==> t == Epoch
  {
    if c.NoClock? then Epoch
    else if Plausible(c) then c.time
    else Epoch
  }

  /** (unsigned long)minutes * 60UL * 1000UL, on 32 bits. */
  function Span(minutes: int): nat {
    (minutes * 60000) % 0x1_0000_0000
  }

  function SetterFx(w: WarmState, on: bool): seq<Effect> {
    if w.setter then [EngineSetter(on)] else []
  }

  /** The part shared by the daily trigger and forceWarm: active, end time,
      IG on and the starter pending 1000 ms from now. */
  function Begin(w: WarmState, now: nat): WarmState {
    w.(active := true, end := now + Span(w.minutes), starterPending := true,
       starterAt := now + StarterDelayMs)
  }

  /** The first block of update(): the pending starter pulse. */
  function StarterShot(w: WarmState, st: Starter, now: nat): Tick {
    if w.starterPending && now >= w.starterAt then
      var w' := w.(starterPending := false);
      if !st.active then
        Tick(w', Starter(true, now + StarterPulseMs),
             [Write(PinStarter, true)] + SetterFx(w, true) + [Notify("STARTER ON")])
      else Tick(w', st, [])
    else Tick(w, st, [])
  }

  /** The second block of update(): the end of the warm period. The
      indicator ("pesawat") is left alone. */
  function Finish(w: WarmState, st: Starter, now: nat): Tick {
    if w.active && now >= w.end then
      Tick(w.(active := false), st.(active := false),
           [Write(PinAcc, false), Write(PinIg, false), Write(PinStarter, false)] +
           SetterFx(w, false) +
           [Write(PinLamp, false), Write(PinAlarm, false), Notify("WARM DONE")])
    else Tick(w, st, [])
  }

  /** The daily trigger condition. It does not look at `active`. */
  predicate DailyDue(w: WarmState, c: ClockView) {
    Plausible(c) && SafeNow(c).hour == DailyHour && SafeNow(c).minute == DailyMinute &&
    w.lastDay != SafeNow(c).day
  }

  /** The third block of update(): the daily trigger. */
  function Daily(w: WarmState, c: ClockView, now: nat): Step<WarmState> {
    if DailyDue(w, c) then
      Step(Begin(w, now).(lastDay := SafeNow(c).day), [Write(PinIg, true), Notify("WARM ON")])
    else Step(w, [])
  }

  /** update(). */
  function AfterUpdate(w: WarmState, st: Starter, c: ClockView, now: nat): Tick {
    var a := StarterShot(w, st, now);
    var b := Finish(a.warm, a.starter, now);
    var d := Daily(b.warm, c, now);
    Tick(d.next, b.starter, a.fx + b.fx + d.fx)
  }

  /** forceWarm(): a no-op while a cycle is active. */
  function AfterForceWarm(w: WarmState, now: nat): Step<WarmState> {
    if !w.active then Step(Begin(w, now), [Write(PinIg, true), Notify("WARM ON")])
    else Step(w, [])
  }

  /** cancelWarm(): no pin is touched. */
  function AfterCancel(w: WarmState): WarmState {
    w.(active := false, starterPending := false)
  }

  predicate ValidMinutes(m: int) {
    1 <= m <= 60
  }

  /** setDurationMinutes(m): accepted only in 1..60. */
  function AfterSetDuration(w: WarmState, m: int): WarmState {
    if ValidMinutes(m) then w.(minutes := m) else w
  }

  /** remainingMillis(). */
  function Remaining(w: WarmState, now: nat): nat {
    if !w.active then 0
    else if w.end > now then w.end - now
    else 0
  }

  /** What the scheduler sees through an RTCModule in the given status. */
  function ViewThrough(status: Rtc.RtcStatus, chip: Rtc.Chip): ClockView {
    Reading(Rtc.NowOf(status, chip), Rtc.LostPowerOf(status, chip))
  }

  function ViewOf(rtc: Rtc.RTCModule?, chip: Rtc.Chip): ClockView
    reads rtc
  {
    if rtc == null then NoClock else ViewThrough(rtc.status, chip)
  }

  class WarmUpEngine {
    var rtc: Rtc.RTCModule?
    var prefs: Store.Preferences?
    var hasSetter: bool
    var warmActive: bool
    var warmEnd: nat
    var warmStarterPending: bool
    var warmStarterAt: nat
    var lastWarmDay: int
    var warmDurationMinutes: int

    function State(): WarmState
      reads this
    {
      WarmState(warmActive, warmEnd, warmStarterPending, warmStarterAt, lastWarmDay,
                warmDurationMinutes, hasSetter)
    }

    /** A new scheduler is inactive, with no pending starter, no day on
        record and a 10-minute duration. */
    constructor()
      ensures State() == Initial()
      ensures rtc == null && prefs == null
    {
      rtc, prefs, hasSetter := null, null, false;
      warmActive, warmEnd, warmStarterPending, warmStarterAt := false, 0, false, 0;
      lastWarmDay, warmDurationMinutes := -1, DefaultMinutes;
    }

    /** init(rtc, prefs, engineSetter). */
    method Init(clock: Rtc.RTCModule?, store: Store.Preferences?, setter: bool)
      modifies this
      ensures rtc == clock && prefs == store
      ensures State() == old(State()).(setter := setter)
    {
      rtc, prefs, hasSetter := clock, store, setter;
    }

    /** begin(): load the stored duration, if there is a store. */
    method Begin()
      modifies this
      ensures rtc == old(rtc) && prefs == old(prefs)
      ensures State() == old(State()).(minutes :=
        if prefs != null then prefs.GetInt("warmlen", old(warmDurationMinutes)) else old(warmDurationMinutes))
    {
      if prefs != null {
        warmDurationMinutes := prefs.GetInt("warmlen", warmDurationMinutes);
      }
    }

    function View(chip: Rtc.Chip): ClockView
      reads this, rtc
    {
      ViewOf(rtc, chip)
    }

    method StarterStep(now: nat, st: Starter) returns (st': Starter, fx: seq<Effect>)
      modifies this
      ensures State() == StarterShot(old(State()), st, now).warm
      ensures st' == StarterShot(old(State()), st, now).starter
      ensures fx == StarterShot(old(State()), st, now).fx
      ensures rtc == old(rtc) && prefs == old(prefs)
    {
      st', fx := st, [];
      if warmStarterPending && now >= warmStarterAt {
        warmStarterPending := false;
        if !st.active {
          fx := [Write(PinStarter, true)];
          st' := Starter(true, now + StarterPulseMs);
          if hasSetter {
            fx := fx + [EngineSetter(true)];
          }
          fx := fx + [Notify("STARTER ON")];
        }
      }
    }

    method FinishStep(now: nat, st: Starter) returns (st': Starter, fx: seq<Effect>)
      modifies this
      ensures State() == Finish(old(State()), st, now).warm
      ensures st' == Finish(old(State()), st, now).starter
      ensures fx == Finish(old(State()), st, now).fx
      ensures rtc == old(rtc) && prefs == old(prefs)
    {
      st', fx := st, [];
      if warmActive && now >= warmEnd {
        warmActive := false;
        fx := [Write(PinAcc, false), Write(PinIg, false), Write(PinStarter, false)];
        st' := st.(active := false);
        if hasSetter {
          fx := fx + [EngineSetter(false)];
        }
        fx := fx + [Write(PinLamp, false), Write(PinAlarm, false), Notify("WARM DONE")];
      }
    }

    method DailyStep(c: ClockView, now: nat) returns (fx: seq<Effect>)
      modifies this
      ensures State() == Daily(old(State()), c, now).next
      ensures fx == Daily(old(State()), c, now).fx
      ensures rtc == old(rtc) && prefs == old(prefs)
    {
      fx := [];
      var dt := SafeNow(c);
      if Plausible(c) {
        if dt.hour == DailyHour && dt.minute == DailyMinute && lastWarmDay != dt.day {
          lastWarmDay := dt.day;
          warmActive := true;
          warmEnd := now + Span(warmDurationMinutes);
          fx := [Write(PinIg, true)];
          warmStarterPending := true;
          warmStarterAt := now + StarterDelayMs;
          fx := fx + [Notify("WARM ON")];
        }
      }
    }

    /** update(): pending starter, warm end, daily trigger, in that order.
        The chip is taken to give the same reading to rtcSafeNow and to
        rtcTimePlausible within one call. */
    method Update(chip: Rtc.Chip, now: nat, st: Starter) returns (st': Starter, fx: seq<Effect>)
      modifies this
      ensures State() == AfterUpdate(old(State()), st, old(View(chip)), now).warm
      ensures st' == AfterUpdate(old(State()), st, old(View(chip)), now).starter
      ensures fx == AfterUpdate(old(State()), st, old(View(chip)), now).fx
      ensures rtc == old(rtc) && prefs == old(prefs)
    {
      var c := View(chip);
      var st1, fx1 := StarterStep(now, st);
      var st2, fx2 := FinishStep(now, st1);
      var fx3 := DailyStep(c, now);
      st', fx := st2, fx1 + fx2 + fx3;
    }

    method ForceWarm(now: nat) returns (fx: seq<Effect>)
      modifies this
      ensures State() == AfterForceWarm(old(State()), now).next
      ensures fx == AfterForceWarm(old(State()), now).fx
      ensures rtc == old(rtc) && prefs == old(prefs)
    {
      fx := [];
      if !warmActive {
        warmActive := true;
        warmEnd := now + Span(warmDurationMinutes);
        fx := [Write(PinIg, true)];
        warmStarterPending := true;
        warmStarterAt := now + StarterDelayMs;
        fx := fx + [Notify("WARM ON")];
      }
    }

    method CancelWarm()
      modifies this
      ensures State() == AfterCancel(old(State()))
      ensures rtc == old(rtc) && prefs == old(prefs)
    {
      warmActive := false;
      warmStarterPending := false;
    }

    /** setDurationMinutes(m): an accepted value is also saved under
        "warmlen". */
    method SetDurationMinutes(m: int)
      modifies this, prefs
      ensures State() == AfterSetDuration(old(State()), m)
      ensures rtc == old(rtc) && prefs == old(prefs)
      ensures prefs != null ==>
        prefs.ints == (if ValidMinutes(m) then old(prefs.ints)["warmlen" := m] else old(prefs.ints))
    {
      if 1 <= m && m <= 60 {
        warmDurationMinutes := m;
        if prefs != null {
          prefs.PutInt("warmlen", warmDurationMinutes);
        }
      }
    }

    function GetDurationMinutes(): int
      reads this
    {
      warmDurationMinutes
    }

    function IsActive(): bool
      reads this
    {
      warmActive
    }

    function RemainingMillis(now: nat): nat
      reads this
    {
      Remaining(State(), now)
    }
  }

  // -------------------------------------------------------------------
  // Properties

  /** The clock is plausible iff there is one, its year is in 2020..2035
      and it has not lost power; otherwise the safe time is
      2000-01-01 00:00:00. */
  lemma PlausibleIff(c: ClockView)
    ensures Plausible(c) <==> c != NoClock && 2020 <= c.time.year <= 2035 && !c.lostPower
    ensures !Plausible(c) ==> SafeNow(c) == Epoch
  {
  }

  /** An RTC in NEED_SET is never plausible: its now() is the neutral time
      of the year 2000, and its lostPowerFlag() is set anyway. */
  lemma NeedSetNeverPlausible(chip: Rtc.Chip)
    ensures !Plausible(ViewThrough(Rtc.RtcNeedSet, chip))
    ensures Plausible(ViewThrough(Rtc.RtcOk, chip)) <==>
      2020 <= chip.time.year <= 2035 && !chip.lostPower
  {
  }

  /** The daily trigger fires only when the clock is plausible, reads 15:31
      and the day differs from the recorded one; it then records the day,
      turns IG on and schedules the starter. */
  lemma DailyFires(w: WarmState, c: ClockView, now: nat)
    ensures Daily(w, c, now).next != w ==> DailyDue(w, c)
    ensures DailyDue(w, c) ==>
      Plausible(c) && c.time.hour == 15 && c.time.minute == 31 && w.lastDay != c.time.day
    ensures DailyDue(w, c) ==>
      var n := Daily(w, c, now).next;
      n.lastDay == c.time.day && n.active && n.end == now + Span(w.minutes) &&
      n.starterPending && n.starterAt == now + 1000 &&
      Daily(w, c, now).fx == [Write(PinIg, true), Notify("WARM ON")]
    ensures !DailyDue(w, c) ==> Daily(w, c, now) == Step(w, [])
  {
  }

  /** Once the trigger has fired on a day, the next update on that same
      day does not fire it again, whatever the time of day. */
  lemma {:induction false} DailyOncePerDay(w: WarmState, st: Starter, c: ClockView, now: nat,
                                           st2: Starter, c2: ClockView, later: nat)
    requires DailyDue(w, c)
    requires c2.Reading? && c2.time.day == c.time.day
    ensures AfterUpdate(w, st, c, now).warm.lastDay == c.time.day
    ensures Notify("WARM ON") !in AfterUpdate(AfterUpdate(w, st, c, now).warm, st2, c2, later).fx
  {
    var a := StarterShot(w, st, now);
    var b := Finish(a.warm, a.starter, now);
    assert b.warm.lastDay == w.lastDay;
    var w1 := AfterUpdate(w, st, c, now).warm;
    var a2 := StarterShot(w1, st2, later);
    var b2 := Finish(a2.warm, a2.starter, later);
    assert b2.warm.lastDay == w1.lastDay;
    assert Daily(b2.warm, c2, later).fx == [];
  }

  /** The trigger ignores `active`: during a running cycle it restarts the
      cycle, moving its end and scheduling another starter pulse. */
  lemma DailyRestartsActiveCycle(w: WarmState, c: ClockView, now: nat)
    requires w.active && DailyDue(w, c)
    ensures Daily(w, c, now).next.end == now + Span(w.minutes)
    ensures Daily(w, c, now).next.starterPending
  {
  }

  /** A started cycle: active, ending `minutes` later (on 32 bits), IG on
      and the starter pending 1000 ms from now. forceWarm during a cycle
      changes nothing. */
  lemma ForceWarmCases(w: WarmState, now: nat)
    ensures !w.active ==>
      AfterForceWarm(w, now).next.active && AfterForceWarm(w, now).next.end == now + Span(w.minutes) &&
      AfterForceWarm(w, now).next.starterPending && AfterForceWarm(w, now).next.starterAt == now + 1000 &&
      AfterForceWarm(w, now).next.lastDay == w.lastDay &&
      AfterForceWarm(w, now).fx == [Write(PinIg, true), Notify("WARM ON")]
    ensures w.active ==> AfterForceWarm(w, now) == Step(w, [])
  {
  }

  /** For a duration in 1..60 minutes the 32-bit span does not wrap. */
  lemma SpanOfValidMinutes(m: int)
    requires ValidMinutes(m)
    ensures Span(m) == m * 60000 && 60000 <= Span(m) <= 3600000
  {
  }

  /** The pending starter fires once: the first update at or after its time
      clears the pending flag, and it asserts STARTER (and takes the shared
      starter for 1000 ms) only when no starter pulse is in progress. */
  lemma StarterShotOnce(w: WarmState, st: Starter, now: nat, later: nat)
    requires w.starterPending && now >= w.starterAt
    ensures !StarterShot(w, st, now).warm.starterPending
    ensures StarterShot(StarterShot(w, st, now).warm, StarterShot(w, st, now).starter, later).fx == []
    ensures !st.active ==>
      StarterShot(w, st, now).starter == Starter(true, now + 1000) &&
      StarterShot(w, st, now).fx[0] == Write(PinStarter, true) &&
      Notify("STARTER ON") in StarterShot(w, st, now).fx
    ensures st.active ==> StarterShot(w, st, now).starter == st && StarterShot(w, st, now).fx == []
  {
  }

  /** Before its time the pending starter waits. */
  lemma StarterShotWaits(w: WarmState, st: Starter, now: nat)
    requires now < w.starterAt
    ensures StarterShot(w, st, now) == Tick(w, st, [])
  {
  }

  /** Warm end clears `active` and the shared starter flag and drives ACC,
      IG, STARTER, LAMP and ALARM low; the indicator, the hazard and the
      lock outputs are not touched. */
  lemma FinishEffects(w: WarmState, st: Starter, now: nat)
    requires w.active && now >= w.end
    ensures !Finish(w, st, now).warm.active && !Finish(w, st, now).starter.active
    ensures forall p :: p == PinAcc || p == PinIg || p == PinStarter || p == PinLamp || p == PinAlarm ==>
      Write(p, false) in Finish(w, st, now).fx
    ensures !Drives(Finish(w, st, now).fx, PinPesawat)
    ensures !Drives(Finish(w, st, now).fx, PinHazzard)
    ensures !Drives(Finish(w, st, now).fx, PinLock) && !Drives(Finish(w, st, now).fx, PinUnlock)
    ensures w.setter ==> EngineSetter(false) in Finish(w, st, now).fx
  {
  }

  /** cancelWarm stops the cycle and the pending starter; it writes no pin,
      so whatever it had switched on stays on. */
  lemma CancelStopsEverything(w: WarmState, st: Starter, c: ClockView, now: nat)
    requires !DailyDue(AfterCancel(w), c)
    ensures AfterUpdate(AfterCancel(w), st, c, now) == Tick(AfterCancel(w), st, [])
  {
  }

  /** The duration changes only to a value in 1..60; a valid duration stays
      valid. */
  lemma SetDurationKeepsRange(w: WarmState, m: int)
    ensures AfterSetDuration(w, m).minutes == (if 1 <= m <= 60 then m else w.minutes)
    ensures ValidMinutes(w.minutes) ==> ValidMinutes(AfterSetDuration(w, m).minutes)
  {
  }

  /** remainingMillis is positive only during an active cycle before its
      end, and is then the time left; it never grows as time passes. */
  lemma RemainingMeaning(w: WarmState, now: nat, later: nat)
    requires now <= later
    ensures Remaining(w, now) > 0 <==> w.active && now < w.end
    ensures Remaining(w, now) > 0 ==> now + Remaining(w, now) == w.end
    ensures Remaining(w, later) <= Remaining(w, now)
  {
  }

  /** Right after a cycle starts, the time left is the configured span. */
  lemma RemainingAfterStart(w: WarmState, now: nat)
    requires !w.active && ValidMinutes(w.minutes)
    ensures Remaining(AfterForceWarm(w, now).next, now) == w.minutes * 60000
  {
  }
}
