/** Muting (MuteState.h) and the siren policy (NotificationEngine.h): queue,
    playback, mute and reminders in one non-blocking engine. */
module NotificationEngines {
  import opened Types
  import opened Clock
  import opened Patterns
  import NQ = NotificationQueues
  import AE = AlertEngines

  // ---- mute -------------------------------------------------------------------------------

  datatype Scope = NotMuted | CurrentPattern | UntilClear | Snooze

  datatype MuteConfig = MuteConfig(snoozeMs: Millis, muteAllAlertTypes: bool)

  /** `types` were active when the mute began; a new type may sound over it. */
  datatype Mute = Mute(cfg: MuteConfig, scope: Scope, since: Millis, types: set<AlertType>)

  function Unmuted(m: Mute): Mute {
    m.(scope := NotMuted, types := {})
  }

  function AfterAllClear(m: Mute): Mute {
    if m.scope == UntilClear || m.scope == CurrentPattern then Unmuted(m) else m
  }

  function AfterPattern(m: Mute): Mute {
    if m.scope == CurrentPattern then Unmuted(m) else m
  }

  predicate SnoozeOver(m: Mute, now: Millis) {
    m.scope == Snooze && IntervalPassed(now, m.since, m.cfg.snoozeMs)
  }

  predicate Silences(m: Mute, t: AlertType, now: Millis) {
    m.scope != NotMuted && !SnoozeOver(m, now) && (m.cfg.muteAllAlertTypes || t in m.types)
  }

  /** Asking ends a snooze that has run out. */
  function AfterAsking(m: Mute, now: Millis): Mute {
    if SnoozeOver(m, now) then Unmuted(m) else m
  }

  class MuteState {
    var state: Mute

    constructor (cfg: MuteConfig)
      ensures state == Mute(cfg, NotMuted, 0, {})
    {
      state := Mute(cfg, NotMuted, 0, {});
    }

    method Begin(scope: Scope, now: Millis, active: set<AlertType>)
      modifies this
      ensures state == old(state).(scope := scope, since := now, types := active)
    {
      state := state.(scope := scope, since := now, types := active);
    }

    method Unmute()
      modifies this
      ensures state == Unmuted(old(state))
    {
      state := state.(scope := NotMuted, types := {});
    }

    method OnAllClear()
      modifies this
      ensures state == AfterAllClear(old(state))
    {
      if state.scope == UntilClear || state.scope == CurrentPattern {
        Unmute();
      }
    }

    method OnPatternFinished()
      modifies this
      ensures state == AfterPattern(old(state))
    {
      if state.scope == CurrentPattern {
        Unmute();
      }
    }

    method ShouldSilence(t: AlertType, now: Millis) returns (yes: bool)
      modifies this
      ensures yes <==> Silences(old(state), t, now)
      ensures state == AfterAsking(old(state), now)
    {
      if state.scope == NotMuted {
        return false;
      }
      if state.scope == Snooze && IntervalPassed(now, state.since, state.cfg.snoozeMs) {
        Unmute();
        return false;
      }
      if state.cfg.muteAllAlertTypes {
        return true;
      }
      yes := t in state.types;
    }
  }

  // ---- the engine's state ---------------------------------------------------------------------

  datatype Profile = Profile(
    enabled: bool, start: Pattern, end: Pattern, reminder: Pattern, reminderIntervalMs: Millis, priority: Byte)

  datatype Config = Config(
    notifyEscalation: bool, notifyAdditionalLocation: bool, remindersWhenStale: bool, manualTestMs: nat)

  datatype Siren = Siren(
    profiles: seq<Profile>, cfg: Config, testPattern: Pattern, queue: seq<NQ.Notification>, sched: Sched,
    mute: Mute, current: NQ.Notification, playing: bool, apiStale: bool,
    active: set<AlertType>, lastReminderAt: seq<Millis>)

  predicate ValidProfile(p: Profile) {
    InRange(p.start) && InRange(p.end) && InRange(p.reminder)
  }

  predicate Valid(s: Siren) {
    && |s.profiles| == TYPE_COUNT && |s.lastReminderAt| == TYPE_COUNT
    && (forall t: AlertType :: ValidProfile(s.profiles[t]))
    && InRange(s.testPattern) && ValidSched(s.sched)
  }

  function PatternFor(s: Siren, n: NQ.Notification): (p: Pattern)
    requires Valid(s)
    ensures InRange(p)
  {
    match n.signal
    case Start => s.profiles[n.kind].start
    case Escalation => s.profiles[n.kind].start
    case End => s.profiles[n.kind].end
    case Reminder => s.profiles[n.kind].reminder
    case ManualTest => s.testPattern
  }

  function Push(s: Siren, n: NQ.Notification): Siren {
    s.(queue := NQ.Push(s.queue, n))
  }

  function Halted(s: Siren): Siren {
    s.(sched := s.sched.(running := false), playing := false)
  }

  function Signalled(s: Siren, signal: NQ.Signal, t: AlertType): NQ.Notification
    requires Valid(s)
  {
    NQ.Notification(signal, t, s.profiles[t].priority)
  }

  /** `silent`: state bookkeeping only, no sound. */
  function OnEvent(s: Siren, ev: AE.Event, silent: bool, now: Millis): (r: Siren)
    requires Valid(s)
    ensures Valid(r)
  {
    var t, enabled := ev.alert, s.profiles[ev.alert].enabled;
    match ev.kind
    case Started =>
      var noted := s.(active := s.active + {t}, lastReminderAt := s.lastReminderAt[t := now]);
      if !enabled || silent then noted
      else
        var queued := Push(noted, Signalled(s, NQ.Start, t));
        if s.playing && NQ.CanPreempt(Signalled(s, NQ.Start, t), s.current) then Halted(queued) else queued
    case Escalated =>
      if enabled && s.cfg.notifyEscalation then Push(s, Signalled(s, NQ.Escalation, t)) else s
    case Ended =>
      var noted := s.(active := s.active - {t});
      var queued := if enabled && !silent then Push(noted, Signalled(s, NQ.End, t)) else noted;
      if noted.active == {} then queued.(mute := AfterAllClear(s.mute)) else queued
    case LocationAdded =>
      if enabled && s.cfg.notifyAdditionalLocation then Push(s, Signalled(s, NQ.Escalation, t)) else s
    case CoverageReduced => s
  }

  /** The signal an event queues, if any. */
  function SignalOf(s: Siren, ev: AE.Event, silent: bool): Option<NQ.Signal>
    requires Valid(s)
  {
    if !s.profiles[ev.alert].enabled then None
    else
      match ev.kind
      case Started => if silent then None else Some(NQ.Start)
      case Escalated => if s.cfg.notifyEscalation then Some(NQ.Escalation) else None
      case Ended => if silent then None else Some(NQ.End)
      case LocationAdded => if s.cfg.notifyAdditionalLocation then Some(NQ.Escalation) else None
      case CoverageReduced => None
  }

  lemma EventQueues(s: Siren, ev: AE.Event, silent: bool, now: Millis)
    requires Valid(s)
    ensures var r, signal := OnEvent(s, ev, silent, now), SignalOf(s, ev, silent);
            && r.queue == (if signal.Some? then NQ.Push(s.queue, Signalled(s, signal.value, ev.alert)) else s.queue)
            && r.profiles == s.profiles
  {
    hide NQ.Push;
  }

  predicate ReminderDue(s: Siren, t: AlertType, now: Millis)
    requires Valid(s)
  {
    && t in s.active && s.profiles[t].enabled && s.profiles[t].reminder.enabled
    && (!s.apiStale || s.cfg.remindersWhenStale)
    && IntervalPassed(now, s.lastReminderAt[t], s.profiles[t].reminderIntervalMs)
  }

  /** Reminders of the first n types. */
  function Reminded(s: Siren, now: Millis, n: nat): (r: Siren)
    requires Valid(s) && n <= TYPE_COUNT
    ensures Valid(r) && r.playing == s.playing && r.current == s.current && r.sched == s.sched
    ensures r.mute == s.mute && r.active == s.active && r.profiles == s.profiles && r.testPattern == s.testPattern
  {
    if n == 0 then s
    else
      var r := Reminded(s, now, n - 1);
      if ReminderDue(r, n - 1, now) then
        Push(r.(lastReminderAt := r.lastReminderAt[n - 1 := now]), Signalled(r, NQ.Reminder, n - 1))
      else r
  }

  function BestPending(s: Siren): NQ.Notification
    requires s.queue != []
  {
    s.queue[NQ.Best(s.queue)]
  }

  predicate Silenced(s: Siren, now: Millis)
    requires s.queue != []
  {
    BestPending(s).signal != NQ.ManualTest && Silences(s.mute, BestPending(s).kind, now)
  }

  /** The best one taken out; a manual test does not ask the mute. */
  function Taken(s: Siren, now: Millis): (r: Siren)
    requires Valid(s) && s.queue != []
    ensures Valid(r) && |r.queue| < |s.queue|
  {
    s.(queue := NQ.Pop(s.queue),
       mute := if BestPending(s).signal == NQ.ManualTest then s.mute else AfterAsking(s.mute, now))
  }

  function Begun(s: Siren, now: Millis): (r: Siren)
    requires Valid(s) && s.queue != []
    ensures Valid(r) && |r.queue| < |s.queue|
  {
    StartIsValid(PatternFor(s, BestPending(s)), now);
    Taken(s, now).(current := BestPending(s), sched := Patterns.Start(PatternFor(s, BestPending(s)), now))
  }

  /** Plays the best pending signal that the mute lets through. */
  function PlayNext(s: Siren, now: Millis): (r: Siren)
    requires Valid(s)
    ensures Valid(r) && r.active == s.active && r.lastReminderAt == s.lastReminderAt
    decreases |s.queue|
  {
    if s.queue == [] then s
    else if Silenced(s, now) then PlayNext(Taken(s, now), now)
    else if Begun(s, now).sched.running then
      Begun(s, now).(playing := true, sched := Patterns.Tick(Begun(s, now).sched, now))
    else PlayNext(Begun(s, now), now)
  }

  function TickSiren(s: Siren, now: Millis): (r: Siren)
    requires Valid(s)
    ensures Valid(r)
  {
    var r := Reminded(s, now, TYPE_COUNT);
    if r.playing then
      var ticked := r.(sched := Patterns.Tick(r.sched, now));
      if ticked.sched.running then ticked else ticked.(playing := false, mute := AfterPattern(r.mute))
    else PlayNext(r, now)
  }

  /** What the siren is asked to do after a tick. */
  predicate Sounding(s: Siren)
    requires Valid(s)
  {
    s.playing && Output(s.sched)
  }

  function DoMute(s: Siren, scope: Scope, now: Millis): Siren {
    Halted(s).(queue := [], mute := s.mute.(scope := scope, since := now, types := s.active))
  }

  function PlayTest(s: Siren, p: Pattern): Siren {
    Push(s.(testPattern := p), NQ.Notification(NQ.ManualTest, UNKNOWN, 255))
  }

  function StopAll(s: Siren): Siren {
    Halted(s).(queue := [])
  }

  function ResetAlertState(s: Siren): Siren {
    StopAll(s).(active := {}, lastReminderAt := seq(TYPE_COUNT, _ => 0), mute := AfterAllClear(s.mute))
  }

  // ---- runs ----------------------------------------------------------------------------------------

  /** Everything that can be done to the engine; ticks carry the true time. */
  datatype Op =
    | Event(ev: AE.Event, silent: bool, at: Millis)
    | TickAt(t: int)
    | MuteShort(at: Millis)
    | MuteLong(at: Millis)
    | Unmute
    | Test(p: Pattern)
    | Stop
    | Reset
    | Stale(stale: bool)
    | SetProfile(kind: AlertType, profile: Profile)
    | SetConfig(cfg: Config)
    | SetMuteConfig(muteCfg: MuteConfig)

  predicate ValidOp(op: Op) {
    (op.Test? ==> InRange(op.p)) && (op.SetProfile? ==> ValidProfile(op.profile))
  }

  function Do(s: Siren, op: Op): (r: Siren)
    requires Valid(s) && ValidOp(op)
    ensures Valid(r)
  {
    match op
    case Event(ev, silent, at) => OnEvent(s, ev, silent, at)
    case TickAt(t) => TickSiren(s, Wrap(t))
    case MuteShort(at) => DoMute(s, UntilClear, at)
    case MuteLong(at) => DoMute(s, Snooze, at)
    case Unmute => s.(mute := Unmuted(s.mute))
    case Test(p) => PlayTest(s, p)
    case Stop => StopAll(s)
    case Reset => ResetAlertState(s)
    case Stale(stale) => s.(apiStale := stale)
    case SetProfile(t, profile) => s.(profiles := s.profiles[t := profile])
    case SetConfig(cfg) => s.(cfg := cfg)
    case SetMuteConfig(muteCfg) => s.(mute := s.mute.(cfg := muteCfg))
  }

  function Run(s: Siren, ops: seq<Op>): (r: Siren)
    requires Valid(s) && forall i :: 0 <= i < |ops| ==> ValidOp(ops[i])
    ensures Valid(r)
    decreases |ops|
  {
    if ops == [] then s else Run(Do(s, ops[0]), ops[1..])
  }

  // ---- muting --------------------------------------------------------------------------------------

  /** What may sound under a mute: a test, or a type that was not active when it began. */
  predicate Audible(m: Mute, n: NQ.Notification) {
    n.signal == NQ.ManualTest || (!m.cfg.muteAllAlertTypes && n.kind !in m.types)
  }

  predicate MuteHolds(s: Siren, m: Mute) {
    && s.mute == m && (m.scope == UntilClear || m.scope == Snooze)
    && (s.playing ==> Audible(m, s.current))
  }

  /** The ways out of a mute. An all-clear does not end a snooze. */
  predicate Lifts(s: Siren, op: Op) {
    || op.MuteShort? || op.MuteLong? || op.Unmute? || op.SetMuteConfig?
    || (s.mute.scope != Snooze && (op.Reset? || (op.Event? && op.ev.kind == AE.Ended && s.active - {op.ev.alert} == {})))
    || (op.TickAt? && SnoozeOver(s.mute, Wrap(op.t)))
  }

  lemma {:induction false} PlayNextMuted(s: Siren, m: Mute, now: Millis)
    requires Valid(s) && MuteHolds(s, m) && !s.playing && !SnoozeOver(m, now)
    ensures MuteHolds(PlayNext(s, now), m)
    decreases |s.queue|
  {
    if s.queue != [] {
      if Silenced(s, now) {
        PlayNextMuted(Taken(s, now), m, now);
      } else if !Begun(s, now).sched.running {
        PlayNextMuted(Begun(s, now), m, now);
      }
    }
  }

  lemma TickMuted(s: Siren, m: Mute, now: Millis)
    requires Valid(s) && MuteHolds(s, m) && !SnoozeOver(m, now)
    ensures MuteHolds(TickSiren(s, now), m)
  {
    var r := Reminded(s, now, TYPE_COUNT);
    if !r.playing {
      PlayNextMuted(r, m, now);
    }
  }

  lemma EventMuted(s: Siren, m: Mute, ev: AE.Event, silent: bool, now: Millis)
    requires Valid(s) && MuteHolds(s, m)
    requires ev.kind == AE.Ended && s.active - {ev.alert} == {} ==> m.scope == Snooze
    ensures MuteHolds(OnEvent(s, ev, silent, now), m)
  {
  }

  predicate NothingLifts(s: Siren, ops: seq<Op>)
    requires Valid(s) && forall i :: 0 <= i < |ops| ==> ValidOp(ops[i])
    decreases |ops|
  {
    ops == [] || (!Lifts(s, ops[0]) && NothingLifts(Do(s, ops[0]), ops[1..]))
  }

  lemma {:induction false} MuteHoldsOverRun(s: Siren, m: Mute, ops: seq<Op>)
    requires Valid(s) && forall i :: 0 <= i < |ops| ==> ValidOp(ops[i])
    requires MuteHolds(s, m) && NothingLifts(s, ops)
    ensures MuteHolds(Run(s, ops), m)
    decreases |ops|
  {
    if ops != [] {
      match ops[0] {
        case TickAt(t) => TickMuted(s, m, Wrap(t));
        case Event(ev, silent, at) => EventMuted(s, m, ev, silent, at);
        case _ =>
      }
      MuteHoldsOverRun(Do(s, ops[0]), m, ops[1..]);
    }
  }

  /** An unmute, a reset and an all-clear do end the mutes they may end. */
  lemma LiftEndsMute(s: Siren, op: Op)
    requires Valid(s) && ValidOp(op) && Lifts(s, op) && (op.Unmute? || op.Reset? || op.Event?)
    ensures Do(s, op).mute.scope == NotMuted
  {
  }

  /** After a mute, until something lifts it, whatever sounds is a manual test or
      (unless all types are muted) a type that was not active at the mute. The
      mute itself silences at once and changes no alert state. */
  lemma MutedSilence(s: Siren, at: Millis, snooze: bool, ops: seq<Op>)
    requires Valid(s) && forall i :: 0 <= i < |ops| ==> ValidOp(ops[i])
    requires NothingLifts(DoMute(s, if snooze then Snooze else UntilClear, at), ops)
    ensures var muted := DoMute(s, if snooze then Snooze else UntilClear, at);
            && !Sounding(muted) && muted.queue == []
            && muted.active == s.active && muted.lastReminderAt == s.lastReminderAt
            && (Sounding(Run(muted, ops)) ==>
                  var n := Run(muted, ops).current;
                  n.signal == NQ.ManualTest || (!s.mute.cfg.muteAllAlertTypes && n.kind !in s.active))
  {
    var muted := DoMute(s, if snooze then Snooze else UntilClear, at);
    MuteHoldsOverRun(muted, muted.mute, ops);
  }

  // ---- playing to the end ------------------------------------------------------------------------------

  /** The engine has been playing `n`, which is `p` with the windows `ws` since t0,
      up to time `last`. */
  ghost predicate Plays(s: Siren, n: NQ.Notification, p: Pattern, ws: seq<Window>, t0: int, phase: int, last: int)
    requires Valid(s)
  {
    s.playing && s.current == n && t0 <= last && Tracks(s.sched, p, ws, phase, last)
  }

  /** What cuts a signal short: a mute, a stop, and for a reminder the start of an
      enabled type. */
  predicate Interrupts(s: Siren, n: NQ.Notification, op: Op)
    requires Valid(s)
  {
    || op.MuteShort? || op.MuteLong? || op.Stop? || op.Reset?
    || (n.signal == NQ.Reminder && op.Event? && op.ev.kind == AE.Started && !op.silent
        && s.profiles[op.ev.alert].enabled)
  }

  /** Exactly those do; anything else but a tick leaves the playback alone. */
  lemma OnlyTheseInterrupt(s: Siren, op: Op)
    requires Valid(s) && ValidOp(op) && s.playing && !op.TickAt?
    ensures Do(s, op).playing <==> !Interrupts(s, s.current, op)
    ensures Do(s, op).playing ==> Do(s, op).current == s.current && Do(s, op).sched == s.sched
    ensures !Do(s, op).playing ==> !Sounding(Do(s, op))
  {
  }

  lemma OtherOpsKeepPlaying(s: Siren, op: Op, n: NQ.Notification, p: Pattern, ws: seq<Window>, t0: int, phase: int,
                            last: int)
    requires Valid(s) && ValidOp(op) && Plays(s, n, p, ws, t0, phase, last)
    requires !Interrupts(s, n, op) && !op.TickAt?
    ensures Plays(Do(s, op), n, p, ws, t0, phase, last)
  {
    hide Do, Follows, Interrupts;
    OnlyTheseInterrupt(s, op);
  }

  lemma TickPlaysOn(s: Siren, n: NQ.Notification, p: Pattern, ws: seq<Window>, t0: int, phase: int, last: int, t: int)
    returns (phase': int)
    requires Valid(s) && Plays(s, n, p, ws, t0, phase, last)
    requires last <= t < last + WRAP - MAX_STEP_MS
    ensures Sounding(TickSiren(s, Wrap(t))) <==> Sounds(ws, t)
    ensures if t < EndOf(ws, t0) then Plays(TickSiren(s, Wrap(t)), n, p, ws, t0, phase', t)
            else !TickSiren(s, Wrap(t)).playing
  {
    hide Follows, Sounds;
    phase' := TickTracks(s.sched, p, ws, phase, last, t);
  }

  /** Ticks come in time and before the signal is over; nothing interrupts. */
  predicate Undisturbed(s: Siren, n: NQ.Notification, ops: seq<Op>, last: int, end: int)
    requires Valid(s)
    decreases |ops|
  {
    ops == [] ||
    (&& ValidOp(ops[0]) && !Interrupts(s, n, ops[0])
     && (ops[0].TickAt? ==> last <= ops[0].t < last + WRAP - MAX_STEP_MS && ops[0].t < end)
     && Undisturbed(Do(s, ops[0]), n, ops[1..], if ops[0].TickAt? then ops[0].t else last, end))
  }

  lemma {:induction false} UndisturbedOps(s: Siren, n: NQ.Notification, ops: seq<Op>, last: int, end: int)
    requires Valid(s) && Undisturbed(s, n, ops, last, end)
    ensures forall i :: 0 <= i < |ops| ==> ValidOp(ops[i])
    decreases |ops|
  {
    hide Do, Interrupts;
    if ops != [] {
      UndisturbedOps(Do(s, ops[0]), n, ops[1..], if ops[0].TickAt? then ops[0].t else last, end);
      assert forall i :: 1 <= i < |ops| ==> ops[i] == ops[1..][i - 1];
    }
  }

  lemma {:induction false} PlaysThroughRun(s: Siren, n: NQ.Notification, p: Pattern, ws: seq<Window>, t0: int, phase: int,
                                           last: int, ops: seq<Op>)
    returns (phase': int, last': int)
    requires Valid(s) && Plays(s, n, p, ws, t0, phase, last) && Undisturbed(s, n, ops, last, EndOf(ws, t0))
    ensures forall i :: 0 <= i < |ops| ==> ValidOp(ops[i])
    ensures Plays(Run(s, ops), n, p, ws, t0, phase', last')
    ensures last' == LastTick(ops, last)
    decreases |ops|
  {
    hide Tracks, TickSiren, Interrupts;
    UndisturbedOps(s, n, ops, last, EndOf(ws, t0));
    phase', last' := phase, last;
    if ops != [] {
      var s' := Do(s, ops[0]);
      if ops[0].TickAt? {
        phase' := TickPlaysOn(s, n, p, ws, t0, phase, last, ops[0].t);
        phase', last' := PlaysThroughRun(s', n, p, ws, t0, phase', ops[0].t, ops[1..]);
      } else {
        OtherOpsKeepPlaying(s, ops[0], n, p, ws, t0, phase, last);
        phase', last' := PlaysThroughRun(s', n, p, ws, t0, phase, last, ops[1..]);
      }
    }
  }

  function LastTick(ops: seq<Op>, last: int): int
    decreases |ops|
  {
    if ops == [] then last else LastTick(ops[1..], if ops[0].TickAt? then ops[0].t else last)
  }

  /** A signal that is playing goes on to its end: each tick sounds exactly its
      windows, and the engine lets go of it exactly when the last one closes. */
  lemma PlaysOn(s: Siren, n: NQ.Notification, p: Pattern, ws: seq<Window>, t0: int, phase: int, last: int,
                ops: seq<Op>, t: int)
    requires Valid(s) && Plays(s, n, p, ws, t0, phase, last) && Undisturbed(s, n, ops, last, EndOf(ws, t0))
    requires LastTick(ops, last) <= t < LastTick(ops, last) + WRAP - MAX_STEP_MS
    ensures forall i :: 0 <= i < |ops| ==> ValidOp(ops[i])
    ensures var r := TickSiren(Run(s, ops), Wrap(t));
            && (Sounding(r) <==> Sounds(ws, t))
            && (r.playing <==> t < EndOf(ws, t0))
            && (t < EndOf(ws, t0) ==> r.current == n)
  {
    hide Follows, Run, TickSiren, Sounds, Undisturbed;
    var phase', last' := PlaysThroughRun(s, n, p, ws, t0, phase, last, ops);
    var _ := TickPlaysOn(Run(s, ops), n, p, ws, t0, phase', last', t);
  }

  lemma StartedTracks(p: Pattern, t: int, started: Sched, sched: Sched) returns (phase: int)
    requires InRange(p) && started == Patterns.Start(p, Wrap(t))
    requires ValidSched(started) && sched == Patterns.Tick(started, Wrap(t))
    ensures Tracks(sched, p, Timeline(p, t), phase, t)
    ensures Output(sched) <==> Sounds(Timeline(p, t), t)
  {
    StartTracks(p, t);
    phase := TickTracks(started, p, Timeline(p, t), t, t, t);
  }

  lemma SamePattern(s: Siren, r: Siren, n: NQ.Notification)
    requires Valid(s) && Valid(r) && s.profiles == r.profiles && s.testPattern == r.testPattern
    ensures PatternFor(s, n) == PatternFor(r, n)
  {
  }

  /** A signal enters that state the moment the engine picks it up. */
  lemma {:induction false} PickedUpPlays(s: Siren, t: int, r: Siren) returns (phase: int)
    requires Valid(s) && !s.playing && r == PlayNext(s, Wrap(t)) && r.playing
    ensures var p := PatternFor(s, r.current);
            Plays(r, r.current, p, Timeline(p, t), t, phase, t) && (Sounding(r) <==> Sounds(Timeline(p, t), t))
    decreases |s.queue|
  {
    hide Sounds, Timeline, PatternFor, Follows;
    var now := Wrap(t);
    if Silenced(s, now) {
      SamePattern(s, Taken(s, now), r.current);
      phase := PickedUpPlays(Taken(s, now), t, r);
    } else {
      var begun := Begun(s, now);
      if begun.sched.running {
        phase := StartedTracks(PatternFor(s, BestPending(s)), t, begun.sched, r.sched);
      } else {
        SamePattern(s, begun, r.current);
        phase := PickedUpPlays(begun, t, r);
      }
    }
  }

  /** Any signal, from the tick that picks it up at t0, is played to its end: whatever
      happens that does not interrupt it, every tick sounds exactly the windows of its
      own pattern, the type's start pattern for a start or an escalation, its end and
      its reminder pattern for those, and the pattern under test for a manual test;
      and the engine lets go of it exactly when the last window closes. */
  lemma PlaysToCompletion(s: Siren, t0: int, p: Pattern, ops: seq<Op>, t: int)
    requires Valid(s) && !s.playing && TickSiren(s, Wrap(t0)).playing
    requires var n := TickSiren(s, Wrap(t0)).current;
             p == match n.signal
                  case Start => s.profiles[n.kind].start
                  case Escalation => s.profiles[n.kind].start
                  case End => s.profiles[n.kind].end
                  case Reminder => s.profiles[n.kind].reminder
                  case ManualTest => s.testPattern
    requires Undisturbed(TickSiren(s, Wrap(t0)), TickSiren(s, Wrap(t0)).current, ops, t0, SignalEnd(p, t0))
    requires LastTick(ops, t0) <= t < LastTick(ops, t0) + WRAP - MAX_STEP_MS
    ensures forall i :: 0 <= i < |ops| ==> ValidOp(ops[i])
    ensures var started := TickSiren(s, Wrap(t0));
            var r := TickSiren(Run(started, ops), Wrap(t));
            && (Sounding(started) <==> Sounds(Timeline(p, t0), t0))
            && (Sounding(r) <==> Sounds(Timeline(p, t0), t))
            && (r.playing <==> t < SignalEnd(p, t0))
            && (t < SignalEnd(p, t0) ==> r.current == started.current)
  {
    hide Follows, Timeline, Run, Sounds, PlayNext, Undisturbed, LastTick, Sounding, Reminded;
    var started := TickSiren(s, Wrap(t0));
    var phase := PickedUpPlays(Reminded(s, Wrap(t0), TYPE_COUNT), t0, started);
    PlaysOn(started, started.current, p, Timeline(p, t0), t0, phase, t0, ops, t);
  }

  /** The pattern under test is the one last given to be tested. */
  function LastTest(ops: seq<Op>, initial: Pattern): Pattern
    decreases |ops|
  {
    if ops == [] then initial else LastTest(ops[1..], if ops[0].Test? then ops[0].p else initial)
  }

  lemma PlayNextKeepsTest(s: Siren, now: Millis)
    requires Valid(s)
    ensures PlayNext(s, now).testPattern == s.testPattern && PlayNext(s, now).profiles == s.profiles
    decreases |s.queue|
  {
    if s.queue != [] {
      if Silenced(s, now) {
        PlayNextKeepsTest(Taken(s, now), now);
      } else if !Begun(s, now).sched.running {
        PlayNextKeepsTest(Begun(s, now), now);
      }
    }
  }

  lemma OnlyTestsSetIt(s: Siren, op: Op)
    requires Valid(s) && ValidOp(op)
    ensures Do(s, op).testPattern == if op.Test? then op.p else s.testPattern
  {
    hide PlayNext, NQ.Push;
    if op.TickAt? {
      PlayNextKeepsTest(Reminded(s, Wrap(op.t), TYPE_COUNT), Wrap(op.t));
    }
  }

  lemma {:induction false} TestIsTheLast(s: Siren, ops: seq<Op>)
    requires Valid(s) && forall i :: 0 <= i < |ops| ==> ValidOp(ops[i])
    ensures Run(s, ops).testPattern == LastTest(ops, s.testPattern)
    decreases |ops|
  {
    hide Do;
    if ops != [] {
      OnlyTestsSetIt(s, ops[0]);
      TestIsTheLast(Do(s, ops[0]), ops[1..]);
    }
  }

  // ---- which signal is next ----------------------------------------------------------------------------

  /** The mute lets it through now. */
  predicate Heard(m: Mute, n: NQ.Notification, now: Millis) {
    || n.signal == NQ.ManualTest || m.scope == NotMuted
    || (m.scope == Snooze && Elapsed(now, m.since) >= m.cfg.snoozeMs)
    || (!m.cfg.muteAllAlertTypes && n.kind !in m.types)
  }

  /** It would sound: heard, and with an ON step to play. */
  predicate WouldSound(s: Siren, n: NQ.Notification, now: Millis)
    requires Valid(s)
  {
    Heard(s.mute, n, now) && var p := PatternFor(s, n); p.enabled && p.repeat > 0 && HasOn(p.steps)
  }

  /** What is passed over changes neither the mute's answers nor the patterns. */
  lemma PassedOver(s: Siren, r: Siren, now: Millis)
    requires Valid(s) && Valid(r) && r.profiles == s.profiles && r.testPattern == s.testPattern
    requires r.mute == s.mute || r.mute == AfterAsking(s.mute, now)
    ensures forall n :: WouldSound(r, n, now) <==> WouldSound(s, n, now)
  {
    forall n
      ensures WouldSound(r, n, now) <==> WouldSound(s, n, now)
    {
      SamePattern(s, r, n);
    }
  }

  /** The best one is played, or passed over and the rest is looked at. */
  lemma PlaysOrPasses(s: Siren, now: Millis) returns (passed: Siren)
    requires Valid(s) && !s.playing && s.queue != []
    ensures Valid(passed) && passed.queue == NQ.Pop(s.queue) && |passed.queue| < |s.queue|
    ensures var r := PlayNext(s, now);
            if WouldSound(s, BestPending(s), now) then r.playing && r.current == BestPending(s) && r.queue == passed.queue
            else !passed.playing && r == PlayNext(passed, now)
    ensures forall n :: WouldSound(passed, n, now) <==> WouldSound(s, n, now)
  {
    hide PatternFor, NQ.Best, NQ.Pop, Patterns.Tick, HasOn, Elapsed;
    StartIsValid(PatternFor(s, BestPending(s)), now);
    passed := if Silenced(s, now) then Taken(s, now) else Begun(s, now);
    PassedOver(s, passed, now);
  }

  /** Of the waiting signals in their order, by rank, priority and arrival, the engine
      plays the first that would sound; those behind it go on waiting. It plays none
      only when none would sound. */
  lemma {:induction false} PicksFirst(s: Siren, now: Millis) returns (k: nat)
    requires Valid(s) && !s.playing
    ensures var r, order := PlayNext(s, now), NQ.Drain(s.queue);
            && k <= |order| && (forall i :: 0 <= i < k ==> !WouldSound(s, order[i], now))
            && (r.playing <==> k < |order|)
            && (r.playing ==> WouldSound(s, order[k], now) && r.current == order[k]
                              && NQ.Drain(r.queue) == order[k + 1..])
            && (!r.playing ==> r.queue == [])
    decreases |s.queue|
  {
    hide WouldSound, NQ.Best, NQ.Pop, Silenced, Taken, Begun;
    if s.queue == [] {
      return 0;
    }
    var passed := PlaysOrPasses(s, now);
    k := 0;
    if !WouldSound(s, BestPending(s), now) {
      k := PicksFirst(passed, now);
      assert NQ.Drain(s.queue)[k + 1..] == NQ.Drain(passed.queue)[k..];
      k := k + 1;
    }
  }

  /** In true time: of the types active at a mute, or of all if so configured, nothing
      but a manual test is heard until the snooze has run out; a mute until all-clear
      does not run out. Any other type is heard throughout. */
  lemma MuteLastsExactly(s: Siren, snooze: bool, at: int, t: int, n: NQ.Notification)
    requires 0 <= t - at < WRAP
    ensures Heard(DoMute(s, if snooze then Snooze else UntilClear, Wrap(at)).mute, n, Wrap(t))
            <==> || n.signal == NQ.ManualTest || (!s.mute.cfg.muteAllAlertTypes && n.kind !in s.active)
                 || (snooze && t - at >= s.mute.cfg.snoozeMs)
  {
    hide Wrap, Elapsed;
    ElapsedIsExact(t, at);
  }

  /** With room in the queue and nothing playing, a test is what the next tick plays,
      muted or not. */
  lemma TestIsNext(s: Siren, p: Pattern, now: Millis)
    requires Valid(s) && InRange(p) && !s.playing && |s.queue| < NQ.DEPTH
    requires p.enabled && p.repeat > 0 && HasOn(p.steps)
    ensures var r := TickSiren(PlayTest(s, p), now);
            r.playing && r.current.signal == NQ.ManualTest && r.testPattern == p
  {
    hide PlayNext, Reminded, HasOn, NQ.Drain;
    var given := PlayTest(s, p);
    var r, test := Reminded(given, now, TYPE_COUNT), NQ.Notification(NQ.ManualTest, UNKNOWN, 255);
    assert NQ.Pending(given.queue, test) by {
      if NQ.Accepts(s.queue, test) {
        assert NQ.SameKey(given.queue[|s.queue|], test);
      }
    }
    RemindedUpTo(given, now, TYPE_COUNT, UNKNOWN);
    var i :| 0 <= i < |given.queue| && NQ.SameKey(given.queue[i], test);
    assert r.queue[i] == given.queue[i];
    TestComesFirst(r, r.queue[i], now);
    PlayNextKeepsTest(r, now);
  }

  lemma TestComesFirst(s: Siren, test: NQ.Notification, now: Millis)
    requires Valid(s) && !s.playing && test in s.queue && test.signal == NQ.ManualTest && WouldSound(s, test, now)
    ensures PlayNext(s, now).playing && PlayNext(s, now).current.signal == NQ.ManualTest
  {
    hide PlayNext, WouldSound, NQ.Drain;
    var order := NQ.Drain(s.queue);
    var k := PicksFirst(s, now);
    NQ.DrainIsPermutation(s.queue);
    assert test in multiset(order);
    var j :| 0 <= j < |order| && order[j] == test;
    if k < j {
      NQ.DrainInOrder(s.queue, k, j);
    }
  }

  /** A mute, a stop and a reset silence at once and leave nothing waiting. */
  lemma NothingIsLeft(s: Siren, op: Op)
    requires Valid(s) && (op.MuteShort? || op.MuteLong? || op.Stop? || op.Reset?)
    ensures !Sounding(Do(s, op)) && !Do(s, op).playing && Do(s, op).queue == []
    ensures Do(s, op).active == if op.Reset? then {} else s.active
  {
  }

  /** A whole tick: while a signal plays the others wait; otherwise that first one is
      played, of what waits once the reminders due have joined. */
  lemma TickServesQueue(s: Siren, now: Millis) returns (k: nat)
    requires Valid(s)
    ensures var r, due := TickSiren(s, now), Reminded(s, now, TYPE_COUNT);
            var order := NQ.Drain(due.queue);
            if s.playing then r.queue == due.queue && r.current == s.current
            else
              && k <= |order| && (forall i :: 0 <= i < k ==> !WouldSound(s, order[i], now))
              && (r.playing <==> k < |order|)
              && (r.playing ==> WouldSound(s, order[k], now) && r.current == order[k]
                                && NQ.Drain(r.queue) == order[k + 1..])
  {
    hide PlayNext, Reminded, WouldSound, NQ.Drain, Patterns.Tick;
    var due := Reminded(s, now, TYPE_COUNT);
    k := 0;
    if !s.playing {
      PassedOver(s, due, now);
      k := PicksFirst(due, now);
    }
  }

  // ---- reminders ---------------------------------------------------------------------------------------

  /** One more type, whose clock and settings the ones before it left alone. */
  lemma RemindedNext(s: Siren, now: Millis, i: AlertType, t: AlertType)
    requires Valid(s)
    requires var before := Reminded(s, now, i);
             before.apiStale == s.apiStale && before.cfg == s.cfg && before.lastReminderAt[i] == s.lastReminderAt[i]
    ensures var before, r, reminder := Reminded(s, now, i), Reminded(s, now, i + 1), Signalled(s, NQ.Reminder, t);
            && before.queue <= r.queue && r.apiStale == s.apiStale && r.cfg == s.cfg
            && (NQ.Pending(r.queue, reminder) ==> NQ.Pending(before.queue, reminder) || (t == i && ReminderDue(s, t, now)))
            && (NQ.Pending(before.queue, reminder) ==> NQ.Pending(r.queue, reminder))
            && (t == i && ReminderDue(s, t, now) ==> NQ.Pending(r.queue, reminder) || |r.queue| >= NQ.DEPTH)
            && r.lastReminderAt[t] == (if t == i && ReminderDue(s, t, now) then now else before.lastReminderAt[t])
            && forall m :: m in r.queue && m !in before.queue ==> m.signal == NQ.Reminder
  {
    hide NQ.Pending, NQ.Push, Elapsed;
    NQ.PushAdds(Reminded(s, now, i).queue, Signalled(s, NQ.Reminder, i), Signalled(s, NQ.Reminder, t));
  }

  lemma {:induction false} RemindedUpTo(s: Siren, now: Millis, n: nat, t: AlertType)
    requires Valid(s) && n <= TYPE_COUNT
    ensures var r, reminder := Reminded(s, now, n), Signalled(s, NQ.Reminder, t);
            && s.queue <= r.queue && r.apiStale == s.apiStale && r.cfg == s.cfg
            && (NQ.Pending(r.queue, reminder) ==> NQ.Pending(s.queue, reminder) || (t < n && ReminderDue(s, t, now)))
            && (t < n && ReminderDue(s, t, now) ==> NQ.Pending(r.queue, reminder) || |r.queue| >= NQ.DEPTH)
            && r.lastReminderAt[t] == (if t < n && ReminderDue(s, t, now) then now else s.lastReminderAt[t])
            && forall m :: m in r.queue && m !in s.queue ==> m.signal == NQ.Reminder
    decreases n
  {
    hide NQ.Pending, ReminderDue, Reminded, Valid;
    if n == 0 {
      assert Reminded(s, now, 0) == s by {
        RemindedNone(s, now);
      }
    } else {
      RemindedUpTo(s, now, n - 1, t);
      RemindedUpTo(s, now, n - 1, n - 1);
      RemindedNext(s, now, n - 1, t);
    }
  }

  lemma RemindedNone(s: Siren, now: Millis)
    requires Valid(s)
    ensures Reminded(s, now, 0) == s
  {
  }

  /** In true time: the tick queues a reminder, or would if there were room, exactly
      for an active and enabled type whose reminders are on and not held back by stale
      data, once the interval has passed since its start or its last reminder; and that
      tick is then its last. Nothing but reminders is added. */
  lemma ReminderExactly(s: Siren, t: AlertType, since: int, now: int)
    requires Valid(s) && s.lastReminderAt[t] == Wrap(since) && 0 <= now - since < WRAP
    ensures var r, p := Reminded(s, Wrap(now), TYPE_COUNT), s.profiles[t];
            var reminder := NQ.Notification(NQ.Reminder, t, p.priority);
            var due := && t in s.active && p.enabled && p.reminder.enabled
                       && (!s.apiStale || s.cfg.remindersWhenStale) && now - since >= p.reminderIntervalMs;
            && (NQ.Pending(r.queue, reminder) ==> NQ.Pending(s.queue, reminder) || due)
            && (due ==> NQ.Pending(r.queue, reminder) || |r.queue| >= NQ.DEPTH)
            && r.lastReminderAt[t] == (if due then Wrap(now) else s.lastReminderAt[t])
            && s.queue <= r.queue && forall m :: m in r.queue && m !in s.queue ==> m.signal == NQ.Reminder
  {
    hide NQ.Pending, Wrap, Elapsed;
    ElapsedIsExact(now, since);
    RemindedUpTo(s, Wrap(now), TYPE_COUNT, t);
  }

  lemma StartIsNoted(s: Siren, ev: AE.Event, silent: bool, now: Millis, t: AlertType)
    requires Valid(s)
    ensures OnEvent(s, ev, silent, now).lastReminderAt[t]
            == if ev == AE.Event(AE.Started, t) then now else s.lastReminderAt[t]
  {
    hide NQ.Push, NQ.CanPreempt;
  }

  /** What a type's interval is counted from: its start, a reset, or its last reminder. */
  lemma CountedFrom(s: Siren, op: Op, t: AlertType)
    requires Valid(s) && ValidOp(op)
    ensures Do(s, op).lastReminderAt[t] ==
            if op.Event? && op.ev == AE.Event(AE.Started, t) then op.at
            else if op.Reset? then 0
            else if op.TickAt? then Reminded(s, Wrap(op.t), TYPE_COUNT).lastReminderAt[t]
            else s.lastReminderAt[t]
  {
    hide OnEvent, Reminded, PlayNext, NQ.Push, Patterns.Tick;
    if op.Event? {
      StartIsNoted(s, op.ev, op.silent, op.at, t);
    }
  }

  // ---- the engine object ----------------------------------------------------------------------------------

  class NotificationEngine {
    const profiles: array<Profile>
    const lastReminderAt: array<Millis>
    const queue: NQ.NotificationQueue
    const sched: PatternScheduler
    const mute: MuteState
    var cfg: Config
    var testPattern: Pattern
    var current: NQ.Notification
    var playing: bool
    var apiStale: bool
    var active: set<AlertType>

    ghost predicate Ready()
      reads this, profiles, lastReminderAt, queue, queue.slots, queue.seqs, sched, mute
    {
      && profiles.Length == TYPE_COUNT && lastReminderAt.Length == TYPE_COUNT
      && queue.Valid() && Valid(State())
    }

    ghost function State(): Siren
      requires queue.count <= queue.slots.Length
      reads this, profiles, lastReminderAt, queue, queue.slots, sched, mute
    {
      Siren(profiles[..], cfg, testPattern, queue.Contents(), sched.State(), mute.state, current, playing, apiStale,
            active, lastReminderAt[..])
    }

    constructor (initial: seq<Profile>, cfg: Config, muteCfg: MuteConfig)
      requires |initial| == TYPE_COUNT && forall t: AlertType :: ValidProfile(initial[t])
      ensures Ready() && queue.nextSeq == 0
      ensures fresh(profiles) && fresh(lastReminderAt) && fresh(queue) && fresh(queue.slots) && fresh(queue.seqs)
      ensures fresh(sched) && fresh(mute)
      ensures State() == Siren(initial, cfg, Pulses(600, 0, 1, true), [], Sched(EMPTY, 0, 0, 0, false),
                               Mute(muteCfg, NotMuted, 0, {}), NQ.Notification(NQ.Start, UNKNOWN, 50),
                               false, false, {}, seq(TYPE_COUNT, _ => 0))
    {
      profiles := new Profile[TYPE_COUNT](i requires 0 <= i < |initial| => initial[i]);
      lastReminderAt := new Millis[TYPE_COUNT](_ => 0);
      queue := new NQ.NotificationQueue();
      sched := new PatternScheduler();
      mute := new MuteState(muteCfg);
      this.cfg, testPattern := cfg, Pulses(600, 0, 1, true);
      current, playing, apiStale, active := NQ.Notification(NQ.Start, UNKNOWN, 50), false, false, {};
      new;
      assert profiles[..] == initial;
      assert lastReminderAt[..] == seq(TYPE_COUNT, _ => 0);
    }

    method Enqueue(signal: NQ.Signal, t: AlertType)
      requires Ready() && queue.nextSeq < NQ.SEQ_LIMIT - 1
      modifies queue, queue.slots, queue.seqs
      ensures Ready() && State() == Push(old(State()), Signalled(old(State()), signal, t))
      ensures queue.nextSeq <= old(queue.nextSeq) + 1
    {
      var _ := queue.PushOne(NQ.Notification(signal, t, profiles[t].priority));
    }

    method OnEngineEvent(ev: AE.Event, silent: bool, now: Millis)
      requires Ready() && queue.nextSeq < NQ.SEQ_LIMIT - 1
      modifies this, queue, queue.slots, queue.seqs, sched, mute, lastReminderAt
      ensures Ready() && State() == OnEvent(old(State()), ev, silent, now)
      ensures queue.nextSeq <= old(queue.nextSeq) + 1
    {
      match ev.kind {
        case Started => Begin(ev.alert, silent, now);
        case Ended => End(ev.alert, silent);
        case Escalated =>
          if profiles[ev.alert].enabled && cfg.notifyEscalation {
            Enqueue(NQ.Escalation, ev.alert);
          }
        case LocationAdded =>
          if profiles[ev.alert].enabled && cfg.notifyAdditionalLocation {
            Enqueue(NQ.Escalation, ev.alert);
          }
        case CoverageReduced =>
      }
    }

    method Begin(t: AlertType, silent: bool, now: Millis)
      requires Ready() && queue.nextSeq < NQ.SEQ_LIMIT - 1
      modifies this, queue, queue.slots, queue.seqs, sched, lastReminderAt
      ensures Ready() && State() == OnEvent(old(State()), AE.Event(AE.Started, t), silent, now)
      ensures queue.nextSeq <= old(queue.nextSeq) + 1
    {
      hide NQ.Push, NQ.CanPreempt;
      active := active + {t};
      lastReminderAt[t] := now;
      if profiles[t].enabled && !silent {
        Enqueue(NQ.Start, t);
        if playing && NQ.CanPreempt(NQ.Notification(NQ.Start, t, profiles[t].priority), current) {
          sched.Stop();
          playing := false;
        }
      }
    }

    method End(t: AlertType, silent: bool)
      requires Ready() && queue.nextSeq < NQ.SEQ_LIMIT - 1
      modifies this, queue, queue.slots, queue.seqs, mute
      ensures Ready()
      ensures forall now :: State() == OnEvent(old(State()), AE.Event(AE.Ended, t), silent, now)
      ensures queue.nextSeq <= old(queue.nextSeq) + 1
    {
      active := active - {t};
      if profiles[t].enabled && !silent {
        Enqueue(NQ.End, t);
      }
      if active == {} {
        mute.OnAllClear();
      }
    }

    method HaltAndClear()
      requires Ready()
      modifies this`playing, queue`count, sched
      ensures Ready() && State() == StopAll(old(State())) && queue.nextSeq == old(queue.nextSeq)
    {
      sched.Stop();
      queue.Clear();
      playing := false;
    }

    method MuteNow(scope: Scope, now: Millis)
      requires Ready()
      modifies this`playing, queue`count, sched, mute
      ensures Ready() && State() == DoMute(old(State()), scope, now)
    {
      HaltAndClear();
      mute.Begin(scope, now, active);
    }

    method Reset()
      requires Ready()
      modifies this, queue`count, sched, mute, lastReminderAt
      ensures Ready() && State() == ResetAlertState(old(State()))
    {
      HaltAndClear();
      active := {};
      for i := 0 to TYPE_COUNT
        invariant forall k :: 0 <= k < i ==> lastReminderAt[k] == 0
        invariant Ready() && State().(lastReminderAt := []) == StopAll(old(State())).(active := {}, lastReminderAt := [])
      {
        lastReminderAt[i] := 0;
      }
      assert lastReminderAt[..] == seq(TYPE_COUNT, _ => 0);
      mute.OnAllClear();
    }

    method PlayTestNow(p: Pattern)
      requires Ready() && InRange(p) && queue.nextSeq < NQ.SEQ_LIMIT - 1
      modifies this`testPattern, queue, queue.slots, queue.seqs
      ensures Ready() && State() == PlayTest(old(State()), p)
    {
      testPattern := p;
      var _ := queue.PushOne(NQ.Notification(NQ.ManualTest, UNKNOWN, 255));
    }

    method TickNow(now: Millis) returns (on: bool)
      requires Ready() && queue.nextSeq < NQ.SEQ_LIMIT - TYPE_COUNT - 1
      modifies this, queue, queue.slots, queue.seqs, sched, mute, lastReminderAt
      ensures Ready() && State() == TickSiren(old(State()), now)
      ensures on == Sounding(State())
    {
      hide Reminded, PlayNext, Patterns.Tick;
      Remind(now);
      if playing {
        on := sched.TickAt(now);
        if !sched.running {
          playing := false;
          mute.OnPatternFinished();
        }
      } else {
        on := Next(now);
      }
    }

    method Remind(now: Millis)
      requires Ready() && queue.nextSeq < NQ.SEQ_LIMIT - TYPE_COUNT - 1
      modifies queue, queue.slots, queue.seqs, lastReminderAt
      ensures Ready() && State() == Reminded(old(State()), now, TYPE_COUNT)
    {
      for i := 0 to TYPE_COUNT
        invariant Ready() && queue.nextSeq <= old(queue.nextSeq) + i
        invariant State() == Reminded(old(State()), now, i)
      {
        RemindOne(i, now);
      }
    }

    method RemindOne(i: AlertType, now: Millis)
      requires Ready() && queue.nextSeq < NQ.SEQ_LIMIT - 1
      modifies queue, queue.slots, queue.seqs, lastReminderAt
      ensures Ready() && queue.nextSeq <= old(queue.nextSeq) + 1
      ensures State() ==
              if ReminderDue(old(State()), i, now) then
                Push(old(State()).(lastReminderAt := old(State()).lastReminderAt[i := now]),
                     Signalled(old(State()), NQ.Reminder, i))
              else old(State())
    {
      var p := profiles[i];
      if i in active && p.enabled && p.reminder.enabled && (!apiStale || cfg.remindersWhenStale)
         && IntervalPassed(now, lastReminderAt[i], p.reminderIntervalMs) {
        lastReminderAt[i] := now;
        Enqueue(NQ.Reminder, i);
      }
    }

    method Next(now: Millis) returns (on: bool)
      requires Ready() && !playing
      modifies this, queue, queue.slots, queue.seqs, sched, mute
      ensures Ready() && State() == PlayNext(old(State()), now)
      ensures on == Sounding(State())
    {
      hide Silenced, Taken, Begun;
      while true
        invariant Ready() && !playing
        invariant PlayNext(State(), now) == PlayNext(old(State()), now)
        decreases |queue.Contents()|
      {
        var before := queue.count;
        if before == 0 {
          assert queue.Contents() == [];
          return false;
        }
        var skip := TakeBest(now);
        if !skip && sched.running {
          playing := true;
          on := sched.TickAt(now);
          return;
        }
      }
    }

    method TakeBest(now: Millis) returns (skip: bool)
      requires Ready() && queue.Contents() != []
      modifies this`current, queue, queue.slots, queue.seqs, sched, mute
      ensures Ready() && skip == Silenced(old(State()), now)
      ensures State() == if skip then Taken(old(State()), now) else Begun(old(State()), now)
    {
      hide Patterns.Start, NQ.Pop, NQ.Best, Silences;
      ghost var before := State();
      var n;
      n, skip := AskMute(now);
      if !skip {
        var p := PatternOf(n);
        SamePattern(State(), before, n);
        current := n;
        sched.StartPattern(p, now);
      }
    }

    method AskMute(now: Millis) returns (n: NQ.Notification, skip: bool)
      requires Ready() && queue.Contents() != []
      modifies queue, queue.slots, queue.seqs, mute
      ensures Ready() && State() == Taken(old(State()), now)
      ensures n == BestPending(old(State())) && skip == Silenced(old(State()), now)
    {
      var out := queue.PopBest();
      n, skip := out.value, false;
      if n.signal != NQ.ManualTest {
        skip := mute.ShouldSilence(n.kind, now);
      }
    }

    method PatternOf(n: NQ.Notification) returns (p: Pattern)
      requires Ready()
      ensures p == PatternFor(State(), n)
    {
      match n.signal {
        case Start => p := profiles[n.kind].start;
        case Escalation => p := profiles[n.kind].start;
        case End => p := profiles[n.kind].end;
        case Reminder => p := profiles[n.kind].reminder;
        case ManualTest => p := testPattern;
      }
    }
  }
}
