/** RX500Module: the four-channel RF receiver. Each update reads the four
    lines and reports a rising edge (LOW before, HIGH now) on a channel whose
    callback is registered; the callbacks are returned as events, in the
    order A, B, C, D. */
module Remote {

  datatype RemoteEvent = LockPressed | UnlockPressed | StartPressed | AlarmTogglePressed

  /** Levels of the four inputs (true = HIGH). */
  datatype Levels = Levels(a: bool, b: bool, c: bool, d: bool)

  /** Which of the four callbacks have been registered. */
  datatype Callbacks = Callbacks(lock: bool, unlock: bool, start: bool, alarmToggle: bool)

  /** The channel an event comes from: A lock, B unlock, C start, D alarm. */
  function Line(l: Levels, e: RemoteEvent): bool {
    match e
    case LockPressed => l.a
    case UnlockPressed => l.b
    case StartPressed => l.c
    case AlarmTogglePressed => l.d
  }

  function Registered(cb: Callbacks, e: RemoteEvent): bool {
    match e
    case LockPressed => cb.lock
    case UnlockPressed => cb.unlock
    case StartPressed => cb.start
    case AlarmTogglePressed => cb.alarmToggle
  }

  /** Position of a channel in the order update examines them. */
  function Rank(e: RemoteEvent): nat {
    match e
    case LockPressed => 0
    case UnlockPressed => 1
    case StartPressed => 2
    case AlarmTogglePressed => 3
  }

  /** One channel's contribution to an update: its callback runs when the
      line reads HIGH, was LOW, and a callback is registered. */
  function Edge(e: RemoteEvent, last: bool, now: bool, registered: bool): seq<RemoteEvent> {
    if now && !last && registered then [e] else []
  }

  /** The events of one update, given the stored and the current levels. */
  function Edges(last: Levels, now: Levels, cb: Callbacks): seq<RemoteEvent> {
    Edge(LockPressed, last.a, now.a, cb.lock) +
    Edge(UnlockPressed, last.b, now.b, cb.unlock) +
    Edge(StartPressed, last.c, now.c, cb.start) +
    Edge(AlarmTogglePressed, last.d, now.d, cb.alarmToggle)
  }

  class RX500Module {
    var lastA: bool
    var lastB: bool
    var lastC: bool
    var lastD: bool
    var onLock: bool
    var onUnlock: bool
    var onStart: bool
    var onAlarmToggle: bool

    function Last(): Levels
      reads this
    {
      Levels(lastA, lastB, lastC, lastD)
    }

    function Registrations(): Callbacks
      reads this
    {
      Callbacks(onLock, onUnlock, onStart, onAlarmToggle)
    }

    /** The constructor: every stored level LOW, no callback. */
    constructor()
      ensures Last() == Levels(false, false, false, false)
      ensures Registrations() == Callbacks(false, false, false, false)
    {
      lastA, lastB, lastC, lastD := false, false, false, false;
      onLock, onUnlock, onStart, onAlarmToggle := false, false, false, false;
    }

    /** begin(): seed the stored levels from the current readings. */
    method Begin(now: Levels)
      modifies this
      ensures Last() == now
      ensures Registrations() == old(Registrations())
    {
      lastA, lastB, lastC, lastD := now.a, now.b, now.c, now.d;
    }

    method SetOnLock()
      modifies this
      ensures Registrations() == old(Registrations()).(lock := true)
      ensures Last() == old(Last())
    {
      onLock := true;
    }

    method SetOnUnlock()
      modifies this
      ensures Registrations() == old(Registrations()).(unlock := true)
      ensures Last() == old(Last())
    {
      onUnlock := true;
    }

    method SetOnStart()
      modifies this
      ensures Registrations() == old(Registrations()).(start := true)
      ensures Last() == old(Last())
    {
      onStart := true;
    }

    method SetOnAlarmToggle()
      modifies this
      ensures Registrations() == old(Registrations()).(alarmToggle := true)
      ensures Last() == old(Last())
    {
      onAlarmToggle := true;
    }

    /** update(): check each channel for a rising edge, then store its level. */
    method Update(now: Levels) returns (events: seq<RemoteEvent>)
      modifies this
      ensures events == Edges(old(Last()), now, Registrations())
      ensures Last() == now
      ensures Registrations() == old(Registrations())
    {
      var fromA := Edge(LockPressed, lastA, now.a, onLock);
      lastA := now.a;
      var fromB := Edge(UnlockPressed, lastB, now.b, onUnlock);
      lastB := now.b;
      var fromC := Edge(StartPressed, lastC, now.c, onStart);
      lastC := now.c;
      var fromD := Edge(AlarmTogglePressed, lastD, now.d, onAlarmToggle);
      lastD := now.d;
      events := fromA + fromB + fromC + fromD;
    }
  }

  /** A channel reports iff its line rose and its callback is registered. */
  lemma EdgeIff(last: Levels, now: Levels, cb: Callbacks, e: RemoteEvent)
    ensures e in Edges(last, now, cb) <==> Line(now, e) && !Line(last, e) && Registered(cb, e)
  {
  }

  /** At most one event per channel, in the order A, B, C, D. */
  lemma EdgesOrdered(last: Levels, now: Levels, cb: Callbacks)
    ensures |Edges(last, now, cb)| <= 4
    ensures forall i, j :: 0 <= i < j < |Edges(last, now, cb)| ==>
      Rank(Edges(last, now, cb)[i]) < Rank(Edges(last, now, cb)[j])
  {
  }

  /** Levels that did not change (as right after begin()) produce nothing. */
  lemma NoEdgeWithoutChange(l: Levels, cb: Callbacks)
    ensures Edges(l, l, cb) == []
  {
  }

  /** A line's events depend only on that line and its callback. */
  lemma ChannelsIndependent(last: Levels, now: Levels, last': Levels, now': Levels,
                            cb: Callbacks, e: RemoteEvent)
    requires Line(last, e) == Line(last', e) && Line(now, e) == Line(now', e)
    ensures e in Edges(last, now, cb) <==> e in Edges(last', now', cb)
  {
    EdgeIff(last, now, cb, e);
    EdgeIff(last', now', cb, e);
  }

  /** The events of successive updates over a list of readings. */
  function Run(last: Levels, readings: seq<Levels>, cb: Callbacks): seq<RemoteEvent>
    decreases |readings|
  {
    if readings == [] then []
    else Edges(last, readings[0], cb) + Run(readings[0], readings[1..], cb)
  }

  /** How many times `e` occurs among the events. */
  function Count(evs: seq<RemoteEvent>, e: RemoteEvent): nat {
    multiset(evs)[e]
  }

  /** One update reports an event once on a registered rising edge of its
      channel and otherwise not at all. */
  lemma CountEdges(last: Levels, now: Levels, cb: Callbacks, e: RemoteEvent)
    ensures Count(Edges(last, now, cb), e) ==
      (if Line(now, e) && !Line(last, e) && Registered(cb, e) then 1 else 0)
  {
    CountByChannel(last, now, cb, e);
    EdgeCount(LockPressed, last.a, now.a, cb.lock, e);
    EdgeCount(UnlockPressed, last.b, now.b, cb.unlock, e);
    EdgeCount(StartPressed, last.c, now.c, cb.start, e);
    EdgeCount(AlarmTogglePressed, last.d, now.d, cb.alarmToggle, e);
    RisingSum(last, now, cb, e);
  }

  /** The count of an update is the sum of the four channels' counts. */
  lemma CountByChannel(last: Levels, now: Levels, cb: Callbacks, e: RemoteEvent)
    ensures Count(Edges(last, now, cb), e) ==
      Count(Edge(LockPressed, last.a, now.a, cb.lock), e) +
      Count(Edge(UnlockPressed, last.b, now.b, cb.unlock), e) +
      Count(Edge(StartPressed, last.c, now.c, cb.start), e) +
      Count(Edge(AlarmTogglePressed, last.d, now.d, cb.alarmToggle), e)
  {
  }

  /** Exactly the channel of `e` can contribute, and only on its rising edge. */
  lemma RisingSum(last: Levels, now: Levels, cb: Callbacks, e: RemoteEvent)
    ensures (if LockPressed == e && now.a && !last.a && cb.lock then 1 else 0)
      + (if UnlockPressed == e && now.b && !last.b && cb.unlock then 1 else 0)
      + (if StartPressed == e && now.c && !last.c && cb.start then 1 else 0)
      + (if AlarmTogglePressed == e && now.d && !last.d && cb.alarmToggle then 1 else 0)
      == (if Line(now, e) && !Line(last, e) && Registered(cb, e) then 1 else 0)
  {
  }

  /** One channel contributes its own event once, on a registered rising edge. */
  lemma EdgeCount(x: RemoteEvent, last: bool, now: bool, registered: bool, e: RemoteEvent)
    ensures Count(Edge(x, last, now, registered), e) == (if x == e && now && !last && registered then 1 else 0)
  {
  }

  /** A line that stays HIGH through many updates reports once if it was
      LOW before them and never if it was already HIGH. */
  lemma {:induction false} HeldHighOnce(last: Levels, readings: seq<Levels>, cb: Callbacks, e: RemoteEvent)
    requires Registered(cb, e)
    requires forall i :: 0 <= i < |readings| ==> Line(readings[i], e)
    ensures Count(Run(last, readings, cb), e) ==
      (if readings != [] && !Line(last, e) then 1 else 0)
    decreases |readings|
  {
    if readings != [] {
      CountEdges(last, readings[0], cb, e);
      HeldHighOnce(readings[0], readings[1..], cb, e);
    }
  }

  /** Without a registered callback a channel never reports, however its
      line moves. */
  lemma {:induction false} UnregisteredSilent(last: Levels, readings: seq<Levels>, cb: Callbacks, e: RemoteEvent)
    requires !Registered(cb, e)
    ensures e !in Run(last, readings, cb)
    decreases |readings|
  {
    if readings != [] {
      EdgeIff(last, readings[0], cb, e);
      UnregisteredSilent(readings[0], readings[1..], cb, e);
    }
  }
}
