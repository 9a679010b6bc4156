/** The siren relays as a timed machine (RelayController.h, RelayGuard.h). Two
    one-shot timers fire outside loop(); the siren itself latches. */
module Relay {
  import opened Types
  import opened Clock

  const PULSE_MS := 300

  // ---- the guard inside loop() ------------------------------------------------------------

  datatype Guard = Guard(maxOnMs: Millis, onSince: Millis, on: bool, tripped: bool)

  function Trip(g: Guard): Guard {
    g.(on := false, tripped := true)
  }

  function GuardTick(g: Guard, requested: bool, now: Millis): Guard {
    if !requested then g.(on := false, tripped := false)
    else if g.tripped then g
    else
      var since := if g.on then g.onSince else now;
      if Elapsed(now, since) >= g.maxOnMs then g.(on := false, tripped := true, onSince := since)
      else g.(on := true, onSince := since)
  }

  /** What the relay gets is `on` of the guard after the tick. */
  function GuardGrants(g: Guard, requested: bool, now: Millis): bool {
    requested && !g.tripped && GuardTick(g, requested, now).on
  }

  ghost predicate GuardTracks(g: Guard, since: int, t: int) {
    g.on ==> !g.tripped && g.onSince == Wrap(since) && since <= t
  }

  /** No continuous grant reaches the limit, also across the clock wrap. */
  lemma GuardLimits(g: Guard, since: int, last: int, requested: bool, t: int) returns (since': int)
    requires GuardTracks(g, since, last) && last <= t && (g.on ==> t < since + WRAP)
    ensures GuardTracks(GuardTick(g, requested, Wrap(t)), since', t)
    ensures since' == if g.on then since else t
    ensures GuardGrants(g, requested, Wrap(t)) ==> t - since' < g.maxOnMs
    ensures requested && !g.tripped && t - since' >= g.maxOnMs ==> GuardTick(g, requested, Wrap(t)).tripped
  {
    since' := if g.on then since else t;
    if g.on {
      ElapsedIsExact(t, since);
    } else {
      ElapsedIsExact(t, t);
    }
  }

  /** One call of the guard: the true time and whether the pattern wants the siren. */
  datatype Call = Call(at: int, requested: bool)

  /** In time order, and no gap so long that the 32-bit clock could come round
      while a grant is still running. */
  predicate InOrder(calls: seq<Call>, last: int, maxOnMs: Millis)
    decreases |calls|
  {
    calls == [] || (last <= calls[0].at <= last + WRAP - maxOnMs && InOrder(calls[1..], calls[0].at, maxOnMs))
  }

  function GuardAfter(g: Guard, calls: seq<Call>): Guard
    decreases |calls|
  {
    if calls == [] then g else GuardAfter(GuardTick(g, calls[0].requested, Wrap(calls[0].at)), calls[1..])
  }

  /** What the guard answers to each call. */
  function Grants(g: Guard, calls: seq<Call>): (r: seq<bool>)
    ensures |r| == |calls|
    decreases |calls|
  {
    if calls == [] then []
    else
      [GuardGrants(g, calls[0].requested, Wrap(calls[0].at))]
      + Grants(GuardTick(g, calls[0].requested, Wrap(calls[0].at)), calls[1..])
  }

  /** While every call has been granted, the time since the grant began is short. */
  lemma {:induction false} GrantsFrom(g: Guard, since: int, last: int, calls: seq<Call>, n: nat)
    requires GuardTracks(g, since, last) && InOrder(calls, last, g.maxOnMs) && (g.on ==> last - since < g.maxOnMs)
    requires n < |calls| && forall i :: 0 <= i <= n ==> Grants(g, calls)[i]
    ensures calls[n].at - (if g.on then since else calls[0].at) < g.maxOnMs
    decreases n
  {
    var t := calls[0].at;
    var since' := GuardLimits(g, since, last, calls[0].requested, t);
    assert Grants(g, calls)[0];
    if n > 0 {
      var g' := GuardTick(g, calls[0].requested, Wrap(t));
      assert forall i :: 0 <= i <= n - 1 ==> Grants(g', calls[1..])[i] == Grants(g, calls)[i + 1];
      GrantsFrom(g', since', t, calls[1..], n - 1);
    }
  }

  lemma {:induction false} GuardStaysOnTrack(g: Guard, since: int, last: int, calls: seq<Call>)
    returns (since': int, last': int)
    requires GuardTracks(g, since, last) && InOrder(calls, last, g.maxOnMs) && (g.on ==> last - since < g.maxOnMs)
    ensures var g' := GuardAfter(g, calls);
            && GuardTracks(g', since', last') && (g'.on ==> last' - since' < g'.maxOnMs) && g'.maxOnMs == g.maxOnMs
            && last' == if calls == [] then last else calls[|calls| - 1].at
    decreases |calls|
  {
    if calls == [] {
      return since, last;
    }
    var t := calls[0].at;
    var start := GuardLimits(g, since, last, calls[0].requested, t);
    since', last' := GuardStaysOnTrack(GuardTick(g, calls[0].requested, Wrap(t)), start, t, calls[1..]);
  }

  lemma {:induction false} CallsSplit(g: Guard, last: int, calls: seq<Call>, m: nat)
    requires InOrder(calls, last, g.maxOnMs) && m <= |calls|
    ensures InOrder(calls[..m], last, g.maxOnMs)
    ensures InOrder(calls[m..], if m == 0 then last else calls[m - 1].at, g.maxOnMs)
    ensures Grants(g, calls)[m..] == Grants(GuardAfter(g, calls[..m]), calls[m..])
    decreases m
  {
    hide GuardGrants, Wrap;
    if m > 0 {
      var g' := GuardTick(g, calls[0].requested, Wrap(calls[0].at));
      CallsSplit(g', calls[0].at, calls[1..], m - 1);
      assert calls[..m][1..] == calls[1..][..m - 1] && calls[1..][m - 1..] == calls[m..];
      assert Grants(g, calls)[m..] == Grants(g', calls[1..])[m - 1..];
    } else {
      assert calls[..0] == [] && calls[0..] == calls;
    }
  }

  /** Over any calls of a fresh guard, across the clock wrap: from any call to any
      later one with everything granted between them, less than the limit passes. */
  lemma NoGrantReachesLimit(maxOnMs: Millis, t0: int, calls: seq<Call>, m: nat, n: nat)
    requires InOrder(calls, t0, maxOnMs) && m <= n < |calls|
    requires forall i :: m <= i <= n ==> Grants(Guard(maxOnMs, 0, false, false), calls)[i]
    ensures calls[n].at - calls[m].at < maxOnMs
  {
    var g := Guard(maxOnMs, 0, false, false);
    CallsSplit(g, t0, calls, m);
    var since, last := GuardStaysOnTrack(g, 0, t0, calls[..m]);
    var later := Grants(g, calls)[m..];
    assert forall i :: 0 <= i <= n - m ==> later[i] == Grants(g, calls)[m + i];
    GrantsFrom(GuardAfter(g, calls[..m]), since, last, calls[m..], n - m);
    assert calls[m..][0] == calls[m] && calls[m..][n - m] == calls[n];
  }

  /** A tripped guard grants nothing until a call without a request. */
  lemma {:induction false} TripLatches(g: Guard, calls: seq<Call>, n: nat)
    requires g.tripped && n < |calls| && forall i :: 0 <= i <= n ==> calls[i].requested
    ensures !Grants(g, calls)[n]
    decreases n
  {
    if n > 0 {
      assert Grants(g, calls)[n] == Grants(g, calls[1..])[n - 1];
      TripLatches(g, calls[1..], n - 1);
    }
  }

  class RelayGuard {
    var state: Guard

    constructor (maxOnMs: Millis)
      ensures state == Guard(maxOnMs, 0, false, false)
    {
      state := Guard(maxOnMs, 0, false, false);
    }

    method TripNow()
      modifies this
      ensures state == Trip(old(state))
    {
      state := state.(on := false, tripped := true);
    }

    method TickAt(requested: bool, now: Millis) returns (granted: bool)
      modifies this
      ensures state == GuardTick(old(state), requested, now)
      ensures granted == GuardGrants(old(state), requested, now)
    {
      if !requested {
        state := state.(on := false, tripped := false);
        return false;
      }
      if state.tripped {
        return false;
      }
      if !state.on {
        state := state.(on := true, onSince := now);
      }
      if Elapsed(now, state.onSince) >= state.maxOnMs {
        state := state.(on := false, tripped := true);
        return false;
      }
      granted := true;
    }
  }

  // ---- the controller -----------------------------------------------------------------------

  datatype Why = Reconfig | ByPattern | ByTest | Safety | Forced(why: string)

  /** A button press (one-relay mode: switching), with the limit then in force. */
  datatype Press = Press(start: bool, why: Why, at: int, limit: nat)

  datatype Pin = NoPin | StartPin | StopPin

  /** `startPin`, `stopPin`: the outputs are driven active; `pulsePin` is the button
      held and `pulseTimer` the true time at which it is let go. `history`: every
      press so far. */
  datatype Outputs = Outputs(
    pulsePin: Pin, pulseTimer: Option<int>, startPin: bool, stopPin: bool, history: seq<Press>)

  /** `level`: one relay held ON; otherwise two relays tap START and STOP. */
  datatype Controller = Controller(
    level: bool, maxOnMs: Millis, on: bool, asyncTrip: bool, needsLog: bool, tripEvent: bool, guard: Guard,
    safetyTimer: Option<int>, out: Outputs)

  const POWER_ON := Controller(false, 30000, false, false, false, false, Guard(30000, 0, false, false),
                               None, Outputs(NoPin, None, false, false, []))

  /** A button is held for 300 ms; the other one is let go first. */
  function Pulse(o: Outputs, p: Press): Outputs {
    Outputs(if p.start then StartPin else StopPin, Some(p.at + PULSE_MS),
            p.start || (o.startPin && o.pulsePin != StartPin),
            !p.start || (o.stopPin && o.pulsePin != StopPin),
            o.history + [p])
  }

  function Pressed(level: bool, o: Outputs, p: Press): Outputs {
    if level then o.(history := o.history + [p], startPin := p.start) else Pulse(o, p)
  }

  function PressButton(c: Controller, start: bool, why: Why, now: int): Controller {
    c.(out := Pressed(c.level, c.out, Press(start, why, now, c.maxOnMs)))
  }

  function EndPulse(c: Controller): Controller {
    c.(out := c.out.(pulsePin := NoPin, pulseTimer := None,
                     startPin := c.out.startPin && c.out.pulsePin != StartPin,
                     stopPin := c.out.stopPin && c.out.pulsePin != StopPin))
  }

  function Begin(c: Controller, level: bool, maxOnMs: Millis, now: int): Controller {
    var released := Controller(
      level, maxOnMs, false, false, false, false, GuardTick(c.guard, false, 0).(maxOnMs := maxOnMs), None,
      Outputs(NoPin, None, false, false, c.out.history));
    if c.on then PressButton(released, false, Reconfig, now) else released
  }

  /** One press at a time: while a button is held a change waits for a later tick. */
  function Apply(c: Controller, on: bool, now: int): Controller {
    if on == c.on || c.out.pulsePin != NoPin then c
    else
      PressButton(c.(on := on), on, ByPattern, now).(safetyTimer := if on then Some(now + c.maxOnMs) else None)
  }

  function WithFlags(c: Controller, trippedBefore: bool, requested: bool): Controller {
    c.(tripEvent := c.tripEvent || (!trippedBefore && c.guard.tripped),
       asyncTrip := c.asyncTrip && requested,
       needsLog := false)
  }

  /** The tick once the guard has answered. */
  function Granted(c: Controller, guard: Guard, granted: bool, requested: bool, now: int): Controller {
    WithFlags(Apply(c.(guard := guard), granted, now), c.guard.tripped, requested)
  }

  function Tick(c: Controller, requested: bool, nowMs: Millis, now: int): Controller {
    var g := if c.asyncTrip then Trip(c.guard) else c.guard;
    Granted(c, GuardTick(g, requested, nowMs), GuardGrants(g, requested, nowMs), requested, now)
  }

  function ForceOff(c: Controller, why: string, now: int): Controller {
    var off := c.(safetyTimer := None, asyncTrip := false, needsLog := false, tripEvent := false,
                  guard := GuardTick(c.guard, false, 0), on := false);
    if c.level || c.out.pulsePin != StopPin then PressButton(off, false, Forced(why), now) else off
  }

  function TestPulse(c: Controller, start: bool, now: int): Controller {
    PressButton(c, start, ByTest, now).(
    safetyTimer := if start then Some(now + c.maxOnMs) else if c.on then c.safetyTimer else None)
  }

  function EmergencyOff(c: Controller, now: int): Controller {
    var off := c.(on := false, safetyTimer := None);
    (if c.level || c.out.pulsePin != StopPin then PressButton(off, false, Safety, now) else off).(
    asyncTrip := true, needsLog := true, tripEvent := true)
  }

  // ---- runs -------------------------------------------------------------------------------------

  datatype Event =
    | Advance(ms: nat)
    | SafetyFires
    | PulseEnds
    | LoopTick(requested: bool, nowMs: Millis)
    | Force(why: string)
    | Test(start: bool)
    | Rebegin(maxOnMs: Millis)

  datatype World = World(c: Controller, now: int)

  /** Time does not pass an armed deadline, and a timer fires when it is due. */
  predicate Enabled(w: World, e: Event) {
    match e
    case Advance(ms) =>
      && (w.c.safetyTimer.Some? ==> w.now + ms <= w.c.safetyTimer.value)
      && (w.c.out.pulseTimer.Some? ==> w.now + ms <= w.c.out.pulseTimer.value)
    case SafetyFires => w.c.safetyTimer.Some? && w.c.safetyTimer.value <= w.now
    case PulseEnds => w.c.out.pulseTimer.Some? && w.c.out.pulseTimer.value <= w.now
    case _ => true
  }

  function Next(w: World, e: Event): World {
    match e
    case Advance(ms) => w.(now := w.now + ms)
    case SafetyFires => w.(c := EmergencyOff(w.c, w.now))
    case PulseEnds => w.(c := EndPulse(w.c))
    case LoopTick(requested, nowMs) => w.(c := Tick(w.c, requested, nowMs, w.now))
    case Force(why) => w.(c := ForceOff(w.c, why, w.now))
    case Test(start) => w.(c := TestPulse(w.c, start, w.now))
    case Rebegin(maxOnMs) => w.(c := Begin(w.c, w.c.level, maxOnMs, w.now))
  }

  function Last(c: Controller): Press
    requires c.out.history != []
  {
    c.out.history[|c.out.history| - 1]
  }

  /** The siren sounds, as far as our presses decide it. */
  predicate Latched(c: Controller) {
    if c.level then c.out.startPin else c.out.history != [] && Last(c).start
  }

  /** A START that no pattern of ours is playing. */
  predicate HandStarted(c: Controller) {
    Latched(c) && !c.on
  }

  predicate DeadlineArmed(c: Controller) {
    Latched(c) ==> c.out.history != [] && c.safetyTimer == Some(Last(c).at + Last(c).limit)
  }

  /** Never both buttons, and whichever is held has its release armed. */
  predicate PinsConsistent(c: Controller) {
    if c.level then
      && c.out.pulsePin == NoPin && c.out.pulseTimer == None && !c.out.stopPin
      && (c.out.startPin ==> c.out.history != [] && Last(c).start)
    else
      && (c.out.startPin <==> c.out.pulsePin == StartPin) && (c.out.stopPin <==> c.out.pulsePin == StopPin)
      && (c.out.pulsePin == NoPin ==> c.out.pulseTimer == None)
      && (c.out.pulsePin != NoPin ==>
            && c.out.history != [] && Last(c).start == (c.out.pulsePin == StartPin)
            && c.out.pulseTimer == Some(Last(c).at + PULSE_MS))
  }

  /** Presses in time order, every START answered by a press within its limit,
      and no second START in a row unless one of the two was by hand. */
  predicate HistoryGood(h: seq<Press>) {
    forall i :: 0 <= i < |h| - 1 ==> FollowedWell(h[i], h[i + 1])
  }

  predicate FollowedWell(p: Press, q: Press) {
    && p.at <= q.at
    && (p.start ==> q.at <= p.at + p.limit)
    && (p.start && q.start ==> p.why == ByTest || q.why == ByTest)
  }

  predicate TimersAhead(w: World) {
    && (w.c.safetyTimer.Some? ==> w.now <= w.c.safetyTimer.value)
    && (w.c.out.pulseTimer.Some? ==> w.now <= w.c.out.pulseTimer.value)
    && (w.c.out.history != [] ==> Last(w.c).at <= w.now)
  }

  /** What holds in every reachable state, whatever the callers do. */
  predicate Sound(w: World) {
    PinsConsistent(w.c) && TimersAhead(w) && (w.c.asyncTrip ==> !w.c.on)
  }

  predicate Inv(w: World) {
    && Sound(w) && DeadlineArmed(w.c)
    && (HandStarted(w.c) ==> Last(w.c).why == ByTest)
    && (!w.c.level ==> HistoryGood(w.c.out.history))
  }

  /** For the deadline a reconfiguration must not come while a hand-pressed START is
      outstanding; in one-relay mode it releases the pin, so there it always may. */
  predicate Allowed(w: World, e: Event) {
    Enabled(w, e) && (e.Rebegin? ==> w.c.level || !HandStarted(w.c))
  }

  // ---- in every reachable state -----------------------------------------------------------------

  /** A change is pressed or waits. */
  predicate Switched(c: Controller, after: Controller, now: int) {
    && after.level == c.level && after.maxOnMs == c.maxOnMs
    && if after.on == c.on then after.out == c.out && after.safetyTimer == c.safetyTimer
       else
         && c.out.pulsePin == NoPin && after.out == Pressed(c.level, c.out, Press(after.on, ByPattern, now, c.maxOnMs))
         && after.safetyTimer == if after.on then Some(now + c.maxOnMs) else None
  }

  /** A tick switches or does not; after a trip it starts nothing. */
  lemma TickIs(c: Controller, requested: bool, nowMs: Millis, now: int)
    ensures var after := Tick(c, requested, nowMs, now);
            && Switched(c, after, now) && after.asyncTrip == (c.asyncTrip && requested)
            && (c.asyncTrip && after.on ==> c.on)
  {
    hide GuardTick, GuardGrants, Pressed;
    TrippedGrantsNothing(c, requested, nowMs);
  }

  lemma TrippedGrantsNothing(c: Controller, requested: bool, nowMs: Millis)
    ensures var g := if c.asyncTrip then Trip(c.guard) else c.guard;
            c.asyncTrip ==> !GuardGrants(g, requested, nowMs)
  {
  }

  /** What forces off, by hand or by the timer: a STOP unless it is held already. */
  predicate SwitchedOff(c: Controller, after: Controller, why: Why, now: int) {
    && after.level == c.level && after.maxOnMs == c.maxOnMs && !after.on && after.safetyTimer == None
    && after.out == if c.level || c.out.pulsePin != StopPin
                    then Pressed(c.level, c.out, Press(false, why, now, c.maxOnMs)) else c.out
  }

  lemma OffIs(w: World, e: Event)
    requires e.Force? || e.SafetyFires?
    ensures var c := Next(w, e).c;
            SwitchedOff(w.c, c, if e.Force? then Forced(e.why) else Safety, w.now) && c.asyncTrip == e.SafetyFires?
  {
    hide GuardTick, Pressed;
  }

  lemma PressKeepsPins(c: Controller, after: Controller, p: Press)
    requires PinsConsistent(c) && after.level == c.level && after.out == Pressed(c.level, c.out, p)
    ensures PinsConsistent(after) && Last(after) == p
  {
  }

  lemma TickKeepsSound(w: World, requested: bool, nowMs: Millis)
    requires Sound(w)
    ensures Sound(Next(w, LoopTick(requested, nowMs)))
  {
    hide Tick, Pressed;
    TickIs(w.c, requested, nowMs, w.now);
    var after := Tick(w.c, requested, nowMs, w.now);
    if after.on != w.c.on {
      PressKeepsPins(w.c, after, Press(after.on, ByPattern, w.now, w.c.maxOnMs));
    }
  }

  lemma OffKeepsSound(w: World, e: Event)
    requires Sound(w) && Enabled(w, e) && (e.Force? || e.SafetyFires?)
    ensures Sound(Next(w, e))
  {
    hide ForceOff, EmergencyOff, Pressed;
    OffIs(w, e);
    if w.c.level || w.c.out.pulsePin != StopPin {
      PressKeepsPins(w.c, Next(w, e).c, Press(false, if e.Force? then Forced(e.why) else Safety, w.now, w.c.maxOnMs));
    }
  }

  lemma TestKeepsSound(w: World, start: bool)
    requires Sound(w)
    ensures Sound(Next(w, Test(start)))
  {
    hide Pressed;
    PressKeepsPins(w.c, Next(w, Test(start)).c, Press(start, ByTest, w.now, w.c.maxOnMs));
  }

  lemma StepKeepsSound(w: World, e: Event)
    requires Sound(w) && Enabled(w, e)
    ensures Sound(Next(w, e)) && Next(w, e).c.level == w.c.level
  {
    hide Tick, ForceOff, EmergencyOff, Begin, Pressed;
    match e
    case Advance(ms) =>
    case PulseEnds =>
    case LoopTick(requested, nowMs) =>
      TickKeepsSound(w, requested, nowMs);
      TickIs(w.c, requested, nowMs, w.now);
    case Test(start) =>
      TestKeepsSound(w, start);
    case Force(why) =>
      OffKeepsSound(w, e);
      OffIs(w, e);
    case SafetyFires =>
      OffKeepsSound(w, e);
      OffIs(w, e);
    case Rebegin(maxOnMs) => BeginKeepsSound(w, w.c.level, maxOnMs);
  }

  lemma BeginKeepsSound(w: World, level: bool, maxOnMs: Millis)
    ensures (w.c.out.history != [] ==> Last(w.c).at <= w.now) ==>
              Sound(World(Begin(w.c, level, maxOnMs, w.now), w.now))
    ensures Begin(w.c, level, maxOnMs, w.now).level == level
  {
  }

  function Run(w: World, events: seq<Event>): World
    decreases |events|
  {
    if events == [] then w else Run(Next(w, events[0]), events[1..])
  }

  /** Nothing asked of the callers. */
  predicate RunEnabled(w: World, events: seq<Event>)
    decreases |events|
  {
    events == [] || (Enabled(w, events[0]) && RunEnabled(Next(w, events[0]), events[1..]))
  }

  lemma {:induction false} RunIsSound(w: World, events: seq<Event>)
    requires Sound(w) && RunEnabled(w, events)
    ensures Sound(Run(w, events)) && Run(w, events).c.level == w.c.level
    decreases |events|
  {
    hide Sound, Next, Enabled;
    if events != [] {
      StepKeepsSound(w, events[0]);
      RunIsSound(Next(w, events[0]), events[1..]);
    }
  }

  function Begun(level: bool, maxOnMs: Millis, t0: int): World {
    World(Begin(POWER_ON, level, maxOnMs, t0), t0)
  }

  /** From power-on and over every interleaving, reconfigurations and hand presses
      at any time included: START and STOP are never both asserted, and in two-relay
      mode whichever is asserted has its release armed 300 ms after its press. */
  lemma ButtonsAreReleased(level: bool, maxOnMs: Millis, t0: int, events: seq<Event>)
    requires RunEnabled(Begun(level, maxOnMs, t0), events)
    ensures var w := Run(Begun(level, maxOnMs, t0), events);
            && !(w.c.out.startPin && w.c.out.stopPin)
            && (!level && (w.c.out.startPin || w.c.out.stopPin) ==>
                  && w.c.out.history != [] && Last(w.c).start == w.c.out.startPin
                  && w.c.out.pulseTimer == Some(Last(w.c).at + PULSE_MS)
                  && Last(w.c).at <= w.now <= Last(w.c).at + PULSE_MS)
  {
    RunIsSound(Begun(level, maxOnMs, t0), events);
  }

  // ---- the deadline, exactly --------------------------------------------------------------------

  /** A reconfiguration came over a hand-pressed START, and nothing was pressed since. */
  predicate StrandedAfter(w: World, stranded: bool, e: Event) {
    if e.Rebegin? then !w.c.level && HandStarted(w.c)
    else stranded && Next(w, e).c.out.history == w.c.out.history
  }

  predicate Stranded(w: World, stranded: bool, events: seq<Event>)
    decreases |events|
  {
    if events == [] then stranded
    else Stranded(Next(w, events[0]), StrandedAfter(w, stranded, events[0]), events[1..])
  }

  /** A stranded siren sounds with no timer armed. */
  predicate DeadlineKept(w: World, stranded: bool) {
    && Sound(w) && (DeadlineArmed(w.c) <==> !stranded)
    && (stranded ==> !w.c.level && Latched(w.c) && !w.c.on && w.c.safetyTimer == None)
  }

  lemma TickKeepsDeadline(w: World, stranded: bool, requested: bool, nowMs: Millis)
    requires DeadlineKept(w, stranded)
    ensures var e := LoopTick(requested, nowMs); DeadlineKept(Next(w, e), StrandedAfter(w, stranded, e))
  {
    hide Tick, PinsConsistent, TimersAhead;
    TickKeepsSound(w, requested, nowMs);
    TickIs(w.c, requested, nowMs, w.now);
  }

  lemma OffKeepsDeadline(w: World, stranded: bool, e: Event)
    requires DeadlineKept(w, stranded) && Enabled(w, e) && (e.Force? || e.SafetyFires?)
    ensures DeadlineKept(Next(w, e), StrandedAfter(w, stranded, e))
  {
    hide ForceOff, EmergencyOff, TimersAhead;
    OffKeepsSound(w, e);
    OffIs(w, e);
  }

  lemma TestKeepsDeadline(w: World, stranded: bool, start: bool)
    requires DeadlineKept(w, stranded)
    ensures DeadlineKept(Next(w, Test(start)), StrandedAfter(w, stranded, Test(start)))
  {
    hide TimersAhead;
    TestKeepsSound(w, start);
  }

  lemma StepKeepsDeadline(w: World, stranded: bool, e: Event)
    requires DeadlineKept(w, stranded) && Enabled(w, e)
    ensures DeadlineKept(Next(w, e), StrandedAfter(w, stranded, e))
  {
    hide GuardTick, GuardGrants;
    StepKeepsSound(w, e);
    match e
    case Advance(ms) =>
    case PulseEnds =>
    case LoopTick(requested, nowMs) => TickKeepsDeadline(w, stranded, requested, nowMs);
    case Test(start) => TestKeepsDeadline(w, stranded, start);
    case Force(why) => OffKeepsDeadline(w, stranded, e);
    case SafetyFires => OffKeepsDeadline(w, stranded, e);
    case Rebegin(maxOnMs) =>
  }

  lemma {:induction false} RunKeepsDeadline(w: World, stranded: bool, events: seq<Event>)
    requires DeadlineKept(w, stranded) && RunEnabled(w, events)
    ensures DeadlineKept(Run(w, events), Stranded(w, stranded, events))
    decreases |events|
  {
    hide DeadlineKept, StrandedAfter, Next, Enabled;
    if events != [] {
      StepKeepsDeadline(w, stranded, events[0]);
      RunKeepsDeadline(Next(w, events[0]), StrandedAfter(w, stranded, events[0]), events[1..]);
    }
  }

  /** From power-on and over every interleaving: a sounding siren has its deadline
      armed, at its last START plus the limit and not yet passed, exactly when it is
      not stranded. */
  lemma DeadlineExactly(level: bool, maxOnMs: Millis, t0: int, events: seq<Event>)
    requires RunEnabled(Begun(level, maxOnMs, t0), events)
    ensures var w := Run(Begun(level, maxOnMs, t0), events);
            (Latched(w.c) ==>
               && w.c.out.history != [] && w.c.safetyTimer == Some(Last(w.c).at + Last(w.c).limit)
               && Last(w.c).at <= w.now <= Last(w.c).at + Last(w.c).limit)
            <==> !Stranded(Begun(level, maxOnMs, t0), false, events)
  {
    RunKeepsDeadline(Begun(level, maxOnMs, t0), false, events);
  }

  // ---- histories, when no siren is ever stranded -----------------------------------------------

  lemma HistorySnoc(h: seq<Press>, p: Press)
    requires HistoryGood(h) && (h != [] ==> FollowedWell(h[|h| - 1], p))
    ensures HistoryGood(h + [p])
  {
    var g := h + [p];
    forall i | 0 <= i < |g| - 1
      ensures FollowedWell(g[i], g[i + 1])
    {
      assert g[i] == h[i];
    }
  }

  /** Pressing a button at a time the invariant allows. */
  lemma PressKeepsHistory(w: World, start: bool, why: Why)
    requires Inv(w) && !w.c.level
    requires start && Latched(w.c) ==> Last(w.c).why == ByTest || why == ByTest
    ensures HistoryGood(w.c.out.history + [Press(start, why, w.now, w.c.maxOnMs)])
  {
    HistorySnoc(w.c.out.history, Press(start, why, w.now, w.c.maxOnMs));
  }

  lemma TickKeepsInv(w: World, requested: bool, nowMs: Millis)
    requires Inv(w)
    ensures Inv(Next(w, LoopTick(requested, nowMs)))
  {
    hide Tick, HistoryGood, TimersAhead;
    TickKeepsDeadline(w, false, requested, nowMs);
    TickIs(w.c, requested, nowMs, w.now);
    var after := Tick(w.c, requested, nowMs, w.now);
    if after.out.history != w.c.out.history && !w.c.level {
      PressKeepsHistory(w, after.on, ByPattern);
    }
  }

  lemma TestKeepsInv(w: World, start: bool)
    requires Inv(w)
    ensures Inv(Next(w, Test(start)))
  {
    if !w.c.level {
      PressKeepsHistory(w, start, ByTest);
    }
  }

  lemma OffKeepsInv(w: World, why: string)
    requires Inv(w)
    ensures Inv(Next(w, Force(why)))
    ensures Enabled(w, SafetyFires) ==> Inv(Next(w, SafetyFires))
  {
    if !w.c.level {
      PressKeepsHistory(w, false, Forced(why));
      PressKeepsHistory(w, false, Safety);
    }
  }

  lemma BeginKeepsInv(w: World, maxOnMs: Millis)
    requires Inv(w) && (w.c.level || !HandStarted(w.c))
    ensures Inv(Next(w, Rebegin(maxOnMs)))
  {
    if !w.c.level {
      HistorySnoc(w.c.out.history, Press(false, Reconfig, w.now, maxOnMs));
    }
  }

  lemma StepKeepsInv(w: World, e: Event)
    requires Inv(w) && Allowed(w, e)
    ensures Inv(Next(w, e)) && Next(w, e).c.level == w.c.level
  {
    match e
    case Advance(ms) =>
    case PulseEnds =>
    case LoopTick(requested, nowMs) => TickKeepsInv(w, requested, nowMs);
    case Test(start) => TestKeepsInv(w, start);
    case Force(why) => OffKeepsInv(w, why);
    case SafetyFires => OffKeepsInv(w, "");
    case Rebegin(maxOnMs) => BeginKeepsInv(w, maxOnMs);
  }

  predicate RunAllowed(w: World, events: seq<Event>)
    decreases |events|
  {
    events == [] || (Allowed(w, events[0]) && RunAllowed(Next(w, events[0]), events[1..]))
  }

  /** The safety property, over every interleaving. */
  lemma {:induction false} RunIsSafe(w: World, events: seq<Event>)
    requires Inv(w) && RunAllowed(w, events)
    ensures Inv(Run(w, events)) && Run(w, events).c.level == w.c.level
    decreases |events|
  {
    if events != [] {
      StepKeepsInv(w, events[0]);
      RunIsSafe(Next(w, events[0]), events[1..]);
    }
  }

  /** From power-on: after the first begin and any run, a sounding siren has its
      deadline armed at the time of its last START plus the limit, and not yet passed. */
  lemma SirenHasDeadline(level: bool, maxOnMs: Millis, t0: int, events: seq<Event>)
    requires RunAllowed(Begun(level, maxOnMs, t0), events)
    ensures var w := Run(Begun(level, maxOnMs, t0), events);
            Latched(w.c) ==>
              && w.c.out.history != [] && Last(w.c).start
              && w.c.safetyTimer == Some(Last(w.c).at + Last(w.c).limit)
              && Last(w.c).at <= w.now <= Last(w.c).at + Last(w.c).limit
  {
    RunIsSafe(Begun(level, maxOnMs, t0), events);
  }

  /** Two relays and no hand-pressed START: any two STARTs have a STOP between
      them, and every START is followed by a STOP within the limit. */
  lemma StopsBetweenStarts(maxOnMs: Millis, t0: int, events: seq<Event>, i: nat)
    requires RunAllowed(Begun(false, maxOnMs, t0), events)
    ensures var w := Run(Begun(false, maxOnMs, t0), events);
            var h := w.c.out.history;
            (forall k :: 0 <= k < |h| ==> !(h[k].start && h[k].why == ByTest)) && i < |h| && h[i].start ==>
              if i + 1 < |h| then !h[i + 1].start && h[i].at <= h[i + 1].at <= h[i].at + h[i].limit
              else w.now <= h[i].at + h[i].limit
  {
    RunIsSafe(Begun(false, maxOnMs, t0), events);
  }

  /** The exception is real and exact: in two-relay mode `begin` keeps the
      deadline promise iff no hand-pressed START is outstanding. */
  lemma BeginSafeExactly(w: World, maxOnMs: Millis)
    requires Sound(w) && !w.c.level
    ensures DeadlineArmed(Begin(w.c, false, maxOnMs, w.now)) <==> !HandStarted(w.c)
  {
  }

  lemma HandStartIsReachable(maxOnMs: Millis, t0: int)
    ensures var w := Begun(false, maxOnMs, t0);
            && RunAllowed(w, [Test(true)])
            && HandStarted(Run(w, [Test(true)]).c)
            && !DeadlineArmed(Next(Run(w, [Test(true)]), Rebegin(maxOnMs)).c)
  {
    var w := Begun(false, maxOnMs, t0);
    assert [Test(true)][1..] == [];
    assert Run(w, [Test(true)]) == Next(w, Test(true));
  }

  // ---- after an asynchronous trip -------------------------------------------------------------

  predicate Releases(e: Event) {
    e.Force? || e.Rebegin? || (e.LoopTick? && !e.requested)
  }

  /** `h` only grew, and not by a START of a pattern. */
  predicate GrewQuietly(before: seq<Press>, h: seq<Press>) {
    && |before| <= |h| && h[..|before|] == before
    && forall i :: |before| <= i < |h| ==> !(h[i].start && h[i].why == ByPattern)
  }

  /** What was requested and refused stays refused: no START by a pattern. */
  lemma StepAfterTrip(w: World, e: Event)
    requires Sound(w) && Enabled(w, e) && w.c.asyncTrip && !Releases(e)
    ensures Next(w, e).c.asyncTrip
    ensures GrewQuietly(w.c.out.history, Next(w, e).c.out.history)
  {
    hide Tick, EmergencyOff, PinsConsistent, TimersAhead;
    match e
    case LoopTick(requested, nowMs) => TickIs(w.c, requested, nowMs, w.now);
    case Test(start) =>
    case SafetyFires => OffIs(w, e);
    case Advance(ms) =>
    case PulseEnds =>
  }

  lemma GrowthAddsUp(a: seq<Press>, b: seq<Press>, c: seq<Press>)
    requires GrewQuietly(a, b) && GrewQuietly(b, c)
    ensures GrewQuietly(a, c)
  {
    assert c[..|a|] == b[..|a|];
    assert forall i :: |a| <= i < |b| ==> c[i] == b[i];
  }

  /** Until the request drops, or someone forces or reconfigures, no tick starts
      the siren again. */
  lemma {:induction false} TripHolds(w: World, events: seq<Event>)
    requires Sound(w) && RunEnabled(w, events) && w.c.asyncTrip
    requires forall i :: 0 <= i < |events| ==> !Releases(events[i])
    ensures Run(w, events).c.asyncTrip
    ensures GrewQuietly(w.c.out.history, Run(w, events).c.out.history)
    decreases |events|
  {
    if events != [] {
      var w' := Next(w, events[0]);
      StepKeepsSound(w, events[0]);
      StepAfterTrip(w, events[0]);
      TripHolds(w', events[1..]);
      GrowthAddsUp(w.c.out.history, w'.c.out.history, Run(w', events[1..]).c.out.history);
    }
  }

  // ---- when the siren is commanded -----------------------------------------------------------------

  /** The requests since they were last dropped, forced off or reconfigured: when the
      first and the last of them came, and whether the safety timer fired meanwhile. */
  datatype Demand = Demand(limit: Millis, since: Option<int>, last: int, fired: bool)

  function DemandAfter(d: Demand, e: Event, now: int): Demand {
    match e
    case LoopTick(requested, _) =>
      if requested then d.(since := if d.since.None? then Some(now) else d.since, last := now)
      else Demand(d.limit, None, now, false)
    case SafetyFires => d.(fired := true)
    case Force(_) => d.(since := None, fired := false)
    case Rebegin(maxOnMs) => Demand(maxOnMs, None, d.last, false)
    case _ => d
  }

  /** Requested, not tripped, and the limit not reached since the first request. */
  predicate Wanted(d: Demand, now: int) {
    d.since.Some? && !d.fired && now - d.since.value < d.limit
  }

  /** The tick reads the right clock, and not so late that it could have come round. */
  predicate InTime(d: Demand, e: Event, now: int) {
    e.LoopTick? ==> e.nowMs == Wrap(now) && (d.since.Some? ==> now <= d.last + WRAP - d.limit)
  }

  predicate RunInTime(w: World, d: Demand, events: seq<Event>)
    decreases |events|
  {
    events == [] || (&& InTime(d, events[0], w.now)
                     && RunInTime(Next(w, events[0]), DemandAfter(d, events[0], w.now), events[1..]))
  }

  function DemandOf(w: World, d: Demand, events: seq<Event>): Demand
    decreases |events|
  {
    if events == [] then d else DemandOf(Next(w, events[0]), DemandAfter(d, events[0], w.now), events[1..])
  }

  /** The guard knows the demand. */
  predicate GuardFollows(c: Controller, d: Demand, now: int) {
    && c.maxOnMs == c.guard.maxOnMs == d.limit && c.asyncTrip == d.fired && d.last <= now
    && if d.since.None? then !c.guard.on && !c.guard.tripped
       else
         && d.since.value <= d.last
         && if c.guard.tripped then d.fired || d.last - d.since.value >= d.limit
            else c.guard.on && c.guard.onSince == Wrap(d.since.value) && d.last - d.since.value < d.limit
  }

  lemma TickGrantsWanted(w: World, d: Demand, requested: bool)
    requires GuardFollows(w.c, d, w.now)
    requires InTime(d, LoopTick(requested, Wrap(w.now)), w.now)
    ensures var g := if w.c.asyncTrip then Trip(w.c.guard) else w.c.guard;
            var d' := DemandAfter(d, LoopTick(requested, Wrap(w.now)), w.now);
            && (GuardGrants(g, requested, Wrap(w.now)) <==> Wanted(d', w.now))
            && GuardFollows(Next(w, LoopTick(requested, Wrap(w.now))).c, d', w.now)
  {
    hide Pressed, Elapsed, Wrap;
    ElapsedIsExact(w.now, w.now);
    if d.since.Some? && w.c.guard.on && !w.c.guard.tripped {
      ElapsedIsExact(w.now, d.since.value);
    }
  }

  lemma StepFollows(w: World, d: Demand, e: Event)
    requires GuardFollows(w.c, d, w.now) && InTime(d, e, w.now)
    ensures GuardFollows(Next(w, e).c, DemandAfter(d, e, w.now), Next(w, e).now)
  {
    hide Pressed;
    match e
    case LoopTick(requested, nowMs) => TickGrantsWanted(w, d, requested);
    case _ =>
  }

  lemma {:induction false} RunFollows(w: World, d: Demand, events: seq<Event>)
    requires GuardFollows(w.c, d, w.now) && RunInTime(w, d, events)
    ensures GuardFollows(Run(w, events).c, DemandOf(w, d, events), Run(w, events).now)
    decreases |events|
  {
    hide GuardFollows, Next, InTime, DemandAfter;
    if events != [] {
      StepFollows(w, d, events[0]);
      RunFollows(Next(w, events[0]), DemandAfter(d, events[0], w.now), events[1..]);
    }
  }

  predicate ButtonHeld(level: bool, o: Outputs) {
    (!level && o.startPin) || o.stopPin
  }

  /** The press, as the outputs show it: one relay holds its pin, of two relays the
      one is asserted, the other let go, and its release armed. */
  predicate ShowsPress(level: bool, before: Outputs, after: Outputs, p: Press) {
    && after.history == before.history + [p]
    && if level then after.startPin == p.start && !after.stopPin
       else after.startPin == p.start && after.stopPin == !p.start && after.pulseTimer == Some(p.at + 300)
  }

  lemma BeginFollows(level: bool, maxOnMs: Millis, t0: int)
    ensures GuardFollows(Begun(level, maxOnMs, t0).c, Demand(maxOnMs, None, t0, false), t0)
  {
  }

  lemma TickCommands(w: World, d: Demand, requested: bool)
    requires Sound(w) && GuardFollows(w.c, d, w.now)
    requires InTime(d, LoopTick(requested, Wrap(w.now)), w.now)
    ensures var tick := LoopTick(requested, Wrap(w.now));
            var c, wanted := Next(w, tick).c, Wanted(DemandAfter(d, tick, w.now), w.now);
            if ButtonHeld(w.c.level, w.c.out) then c.on == w.c.on && c.out == w.c.out
            else
              && (c.on <==> wanted)
              && (wanted == w.c.on ==> c.out == w.c.out && c.safetyTimer == w.c.safetyTimer)
              && (wanted != w.c.on ==>
                    && ShowsPress(w.c.level, w.c.out, c.out, Press(wanted, ByPattern, w.now, d.limit))
                    && c.safetyTimer == if wanted then Some(w.now + d.limit) else None)
  {
    hide GuardTick, GuardGrants, DemandAfter, Wanted, TimersAhead;
    TickGrantsWanted(w, d, requested);
  }

  /** From power-on and over every interleaving: after any tick with no button held
      the siren is commanded on exactly when it is requested, not tripped and short of
      the limit. If that is a change its button is pressed there and then, START with
      the deadline armed, STOP with it dropped; otherwise nothing is pressed. */
  lemma CommandedExactly(level: bool, maxOnMs: Millis, t0: int, events: seq<Event>, requested: bool)
    requires var w0, d0 := Begun(level, maxOnMs, t0), Demand(maxOnMs, None, t0, false);
             && RunEnabled(w0, events) && RunInTime(w0, d0, events)
             && InTime(DemandOf(w0, d0, events), LoopTick(requested, Wrap(Run(w0, events).now)), Run(w0, events).now)
    ensures var w0, d0 := Begun(level, maxOnMs, t0), Demand(maxOnMs, None, t0, false);
            var w, d := Run(w0, events), DemandOf(w0, d0, events);
            var tick := LoopTick(requested, Wrap(w.now));
            var c, wanted := Next(w, tick).c, Wanted(DemandAfter(d, tick, w.now), w.now);
            if ButtonHeld(level, w.c.out) then c.on == w.c.on && c.out == w.c.out
            else
              && (c.on <==> wanted)
              && (wanted == w.c.on ==> c.out == w.c.out && c.safetyTimer == w.c.safetyTimer)
              && (wanted != w.c.on ==>
                    && ShowsPress(level, w.c.out, c.out, Press(wanted, ByPattern, w.now, d.limit))
                    && c.safetyTimer == if wanted then Some(w.now + d.limit) else None)
  {
    hide Next, RunEnabled, RunInTime, DemandOf, GuardFollows, InTime, DemandAfter, Wanted;
    var w0, d0 := Begun(level, maxOnMs, t0), Demand(maxOnMs, None, t0, false);
    assert GuardFollows(w0.c, d0, t0) by {
      BeginFollows(level, maxOnMs, t0);
    }
    RunIsSound(w0, events);
    RunFollows(w0, d0, events);
    TickCommands(Run(w0, events), DemandOf(w0, d0, events), requested);
  }

  /** The presses by hand, by force, by the safety timer and at a reconfiguration:
      STOP is left alone where it is held already. */
  lemma PressesAreMade(w: World, e: Event)
    requires Sound(w) && Enabled(w, e) && (e.Test? || e.Force? || e.SafetyFires? || (e.Rebegin? && w.c.on))
    ensures var c := Next(w, e).c;
            || (!w.c.level && w.c.out.stopPin && !e.Test? && !e.Rebegin? && c.out == w.c.out && !Last(c).start)
            || (&& Last(c).start == (e.Test? && e.start) && Last(c).at == w.now
                && ShowsPress(w.c.level, w.c.out, c.out, Last(c)))
    ensures Next(w, e).c.safetyTimer == if e.Test? && e.start then Some(w.now + w.c.maxOnMs)
                                        else if e.Test? && w.c.on then w.c.safetyTimer else None
    ensures Next(w, e).c.on == (e.Test? && w.c.on)
  {
  }

  /** A trip is reported when the guard first refuses and when the safety timer fires. */
  lemma TripIsReported(w: World, d: Demand, requested: bool)
    requires GuardFollows(w.c, d, w.now) && InTime(d, LoopTick(requested, Wrap(w.now)), w.now)
    ensures var tick := LoopTick(requested, Wrap(w.now));
            Next(w, tick).c.tripEvent
            <==> || w.c.tripEvent
                 || (requested && !Wanted(DemandAfter(d, tick, w.now), w.now) && !w.c.guard.tripped)
    ensures Next(w, SafetyFires).c.tripEvent && Next(w, SafetyFires).c.asyncTrip
  {
    hide Pressed, Elapsed, Wrap;
    ElapsedIsExact(w.now, w.now);
    if d.since.Some? && w.c.guard.on && !w.c.guard.tripped {
      ElapsedIsExact(w.now, d.since.value);
    }
  }

  /** A release that is due lets every button go, and nothing else. */
  lemma ReleaseLetsGo(w: World)
    requires Sound(w) && !w.c.level && Enabled(w, PulseEnds)
    ensures var c := Next(w, PulseEnds).c;
            && !c.out.startPin && !c.out.stopPin && c.out.pulseTimer == None && c.out.history == w.c.out.history
            && c.on == w.c.on && c.safetyTimer == w.c.safetyTimer
  {
  }

  // ---- the press log -----------------------------------------------------------------------------

  const RING_SIZE := 16
  const MAX_DROPPED := 255

  /** The ring as a list, with what went through it: `burst` counts the presses
      lost since the last pop. */
  datatype PressLog = PressLog(
    pending: seq<Press>, dropped: nat, accepted: seq<Press>, popped: seq<Press>, burst: nat)

  function Queue(l: PressLog, p: Press): PressLog {
    if |l.pending| < RING_SIZE - 1 then l.(pending := l.pending + [p], accepted := l.accepted + [p])
    else l.(dropped := if l.dropped < MAX_DROPPED then l.dropped + 1 else l.dropped, burst := l.burst + 1)
  }

  function PopOldest(l: PressLog): PressLog {
    var reset := l.(dropped := 0, burst := 0);
    if l.pending == [] then reset
    else reset.(pending := l.pending[1..], popped := l.popped + [l.pending[0]])
  }

  predicate LogBalanced(l: PressLog) {
    && |l.pending| < RING_SIZE
    && l.accepted == l.popped + l.pending
    && l.dropped == if l.burst < MAX_DROPPED then l.burst else MAX_DROPPED
  }

  datatype LogOp = QueueOp(p: Press) | PopOp

  function RunLog(l: PressLog, ops: seq<LogOp>): PressLog
    decreases |ops|
  {
    if ops == [] then l
    else RunLog(match ops[0] case QueueOp(p) => Queue(l, p) case PopOp => PopOldest(l), ops[1..])
  }

  /** Nothing accepted is lost or reordered on its way to the journal, and losses
      are counted up to 255 between two pops. */
  lemma {:induction false} LogStaysBalanced(l: PressLog, ops: seq<LogOp>)
    requires LogBalanced(l)
    ensures LogBalanced(RunLog(l, ops))
    decreases |ops|
  {
    if ops != [] {
      match ops[0]
      case QueueOp(p) =>
        assert l.popped + (l.pending + [p]) == l.popped + l.pending + [p];
        LogStaysBalanced(Queue(l, p), ops[1..]);
      case PopOp =>
        if l.pending != [] {
          assert l.pending == [l.pending[0]] + l.pending[1..];
          assert l.popped + l.pending == l.popped + [l.pending[0]] + l.pending[1..];
        }
        LogStaysBalanced(PopOldest(l), ops[1..]);
    }
  }

  class PressRing {
    const slots: array<Press>
    var head: nat
    var tail: nat
    var dropped: nat

    ghost predicate Valid()
      reads this
    {
      slots.Length == RING_SIZE && head < RING_SIZE && tail < RING_SIZE && dropped <= MAX_DROPPED
    }

    ghost function Contents(): seq<Press>
      requires Valid()
      reads this, slots
    {
      if tail <= head then slots[tail..head] else slots[tail..] + slots[..head]
    }

    constructor ()
      ensures Valid() && Contents() == [] && dropped == 0 && fresh(slots)
    {
      slots := new Press[RING_SIZE](_ => Press(false, Reconfig, 0, 0));
      head, tail, dropped := 0, 0, 0;
    }

    method QueuePress(p: Press)
      requires Valid()
      modifies this, slots
      ensures Valid()
      ensures Contents() == if |old(Contents())| < RING_SIZE - 1 then old(Contents()) + [p] else old(Contents())
      ensures dropped == if |old(Contents())| < RING_SIZE - 1 || old(dropped) == MAX_DROPPED then old(dropped)
                         else old(dropped) + 1
    {
      var next := if head + 1 == RING_SIZE then 0 else head + 1;
      if next == tail {
        if dropped < MAX_DROPPED {
          dropped := dropped + 1;
        }
        return;
      }
      slots[head] := p;
      head := next;
    }

    method PopPress() returns (out: Option<Press>, lost: nat)
      requires Valid()
      modifies this
      ensures Valid() && lost == old(dropped) && dropped == 0
      ensures old(Contents()) == [] ==> out == None && Contents() == []
      ensures old(Contents()) != [] ==> out == Some(old(Contents())[0]) && Contents() == old(Contents())[1..]
    {
      lost := dropped;
      dropped := 0;
      if tail == head {
        return None, lost;
      }
      out := Some(slots[tail]);
      tail := if tail + 1 == RING_SIZE then 0 else tail + 1;
    }
  }

  // ---- the controller object -------------------------------------------------------------------------

  /** `now` is the true time of a call, which arming a timer reads. */
  class RelayController {
    var level: bool
    var maxOnMs: Millis
    var on: bool
    var asyncTrip: bool
    var needsLog: bool
    var tripEvent: bool
    const guard: RelayGuard
    var pulsePin: Pin
    var safetyTimer: Option<int>
    var pulseTimer: Option<int>
    var startPin: bool
    var stopPin: bool
    ghost var history: seq<Press>

    ghost function State(): Controller
      reads this, guard
    {
      Controller(level, maxOnMs, on, asyncTrip, needsLog, tripEvent, guard.state, safetyTimer, Out())
    }

    ghost function Out(): Outputs
      reads this
    {
      Outputs(pulsePin, pulseTimer, startPin, stopPin, history)
    }

    constructor ()
      ensures State() == POWER_ON && fresh(guard)
    {
      level, maxOnMs, on, asyncTrip, needsLog, tripEvent := false, 30000, false, false, false, false;
      guard := new RelayGuard(30000);
      pulsePin, safetyTimer, pulseTimer, startPin, stopPin, history := NoPin, None, None, false, false, [];
    }

    method BeginNow(newLevel: bool, newMaxOnMs: Millis, now: int)
      modifies this, guard
      ensures State() == Begin(old(State()), newLevel, newMaxOnMs, now)
    {
      var wasOn := on;
      ResetGuard(newMaxOnMs);
      safetyTimer, pulseTimer := None, None;
      startPin, stopPin := false, false;
      pulsePin := NoPin;
      level, maxOnMs := newLevel, newMaxOnMs;
      asyncTrip, needsLog, tripEvent := false, false, false;
      on := false;
      ghost var released := State();
      if wasOn {
        Push(false, Reconfig, now);
        assert State() == PressButton(released, false, Reconfig, now);
      }
    }

    method ResetGuard(newMaxOnMs: Millis)
      modifies guard
      ensures guard.state == GuardTick(old(guard.state), false, 0).(maxOnMs := newMaxOnMs)
    {
      var _ := guard.TickAt(false, 0);
      guard.state := guard.state.(maxOnMs := newMaxOnMs);
    }

    method TickNow(requested: bool, nowMs: Millis, now: int)
      modifies this, guard
      ensures State() == Tick(old(State()), requested, nowMs, now)
    {
      var trippedBefore := guard.state.tripped;
      var granted := AskGuard(requested, nowMs);
      FinishTick(granted, trippedBefore, requested, now, old(State()));
    }

    method FinishTick(granted: bool, trippedBefore: bool, requested: bool, now: int, ghost was: Controller)
      requires State() == was.(guard := guard.state) && was.guard.tripped == trippedBefore
      modifies this
      ensures State() == Granted(was, old(guard.state), granted, requested, now)
    {
      ghost var applied := Apply(State(), granted, now);
      ApplyNow(granted, now);
      assert State() == applied;
      SetFlags(trippedBefore, requested);
    }

    method AskGuard(requested: bool, nowMs: Millis) returns (granted: bool)
      modifies guard
      ensures var g := if asyncTrip then Trip(old(guard.state)) else old(guard.state);
              guard.state == GuardTick(g, requested, nowMs) && granted == GuardGrants(g, requested, nowMs)
    {
      if asyncTrip {
        guard.TripNow();
      }
      granted := guard.TickAt(requested, nowMs);
    }

    method SetFlags(trippedBefore: bool, requested: bool)
      modifies this`tripEvent, this`asyncTrip, this`needsLog
      ensures State() == WithFlags(old(State()), trippedBefore, requested)
    {
      if !trippedBefore && guard.state.tripped {
        tripEvent := true;
      }
      if !requested {
        asyncTrip := false;
      }
      needsLog := false;
    }

    method ForceOffNow(why: string, now: int)
      modifies this, guard
      ensures State() == ForceOff(old(State()), why, now)
    {
      safetyTimer := None;
      asyncTrip, needsLog, tripEvent := false, false, false;
      var _ := guard.TickAt(false, 0);
      on := false;
      if level || pulsePin != StopPin {
        Push(false, Forced(why), now);
      }
    }

    method TestPulseNow(start: bool, now: int)
      modifies this
      ensures State() == TestPulse(old(State()), start, now)
    {
      Push(start, ByTest, now);
      if start {
        safetyTimer := Some(now + maxOnMs);
      } else if !on {
        safetyTimer := None;
      }
    }

    /** Runs from the safety timer, which has fired and is no longer armed. */
    method EmergencyOffNow(now: int)
      modifies this
      ensures State() == EmergencyOff(old(State()), now)
    {
      safetyTimer := None;
      on := false;
      if level || pulsePin != StopPin {
        Push(false, Safety, now);
      }
      asyncTrip, needsLog, tripEvent := true, true, true;
    }

    /** Runs from the pulse timer. */
    method EndPulseNow()
      modifies this
      ensures State() == EndPulse(old(State()))
    {
      pulseTimer := None;
      if pulsePin == StartPin {
        startPin := false;
      } else if pulsePin == StopPin {
        stopPin := false;
      }
      pulsePin := NoPin;
    }

    method ApplyNow(on': bool, now: int)
      modifies this
      ensures State() == Apply(old(State()), on', now)
    {
      if on' == on {
        return;
      }
      if pulsePin != NoPin {
        return;
      }
      on := on';
      Push(on', ByPattern, now);
      if on' {
        safetyTimer := Some(now + maxOnMs);
      } else {
        safetyTimer := None;
      }
    }

    method Push(start: bool, why: Why, now: int)
      modifies this`pulsePin, this`pulseTimer, this`startPin, this`stopPin, this`history
      ensures Out() == Pressed(level, old(Out()), Press(start, why, now, maxOnMs))
    {
      history := history + [Press(start, why, now, maxOnMs)];
      if level {
        startPin := start;
      } else {
        Tap(start, now);
      }
    }

    method Tap(start: bool, now: int)
      modifies this`pulsePin, this`pulseTimer, this`startPin, this`stopPin
      ensures pulsePin == if start then StartPin else StopPin
      ensures pulseTimer == Some(now + PULSE_MS)
      ensures startPin == (start || (old(startPin) && old(pulsePin) != StartPin))
      ensures stopPin == (!start || (old(stopPin) && old(pulsePin) != StopPin))
    {
      if pulsePin == StartPin {
        startPin := false;
      } else if pulsePin == StopPin {
        stopPin := false;
      }
      if start {
        pulsePin, startPin := StartPin, true;
      } else {
        pulsePin, stopPin := StopPin, true;
      }
      pulseTimer := Some(now + PULSE_MS);
    }
  }
}
