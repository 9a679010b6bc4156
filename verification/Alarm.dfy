/** The wiring of main.cpp: snapshots through the alert engine into the siren
    engine, over whole runs of polls. */
module Alarm {
  import opened Types
  import opened Clock
  import AE = AlertEngines
  import NQ = NotificationQueues
  import NE = NotificationEngines

  /** The slots applyAndNotify gives the engine for events. */
  const EVENT_SLOTS := 8

  /** quiet: 0 off, 1 between the air-raid colours, 2 between any types. */
  datatype Policy = Policy(engine: AE.Config, partialSiren: bool, quiet: nat)

  datatype Device = Device(
    policy: Policy, types: AE.Statuses, synced: bool, preexisting: set<AlertType>,
    snapshot: AE.Snapshot, siren: NE.Siren)

  ghost predicate Valid(d: Device) {
    NE.Valid(d.siren)
  }

  // ---- one snapshot --------------------------------------------------------------------------

  /** No signal for this event: the state alone moves. */
  ghost predicate Quiet(policy: Policy, types: AE.Statuses, batch: seq<AE.Event>, ev: AE.Event, already: bool) {
    || already
    || (ev.kind == AE.Started && !policy.partialSiren && types[ev.alert].coverage == Partial)
    || ((ev.kind == AE.Ended || policy.quiet != 0) && AE.Handover(types, batch, ev, policy.quiet == 2))
  }

  ghost function Notify(d: Device, batch: seq<AE.Event>, ev: AE.Event, now: Millis): (r: Device)
    requires Valid(d)
    ensures Valid(r)
  {
    var started := ev.kind == AE.Started;
    var already := started && ev.alert in d.preexisting;
    d.(preexisting := if started then d.preexisting - {ev.alert} else d.preexisting,
       siren := NE.OnEvent(d.siren, ev, Quiet(d.policy, d.types, batch, ev, already), now))
  }

  /** The first k events of the batch; `clock` is millis() as read for each. */
  ghost function NotifyUpTo(d: Device, batch: seq<AE.Event>, k: nat, clock: nat -> Millis): (r: Device)
    requires Valid(d) && k <= |batch|
    ensures Valid(r) && r.policy == d.policy && r.types == d.types && r.synced == d.synced && r.snapshot == d.snapshot
  {
    if k == 0 then d else Notify(NotifyUpTo(d, batch, k - 1, clock), batch, batch[k - 1], clock(k - 1))
  }

  function Batch(d: Device, snap: AE.Snapshot, slots: nat): seq<AE.Event> {
    AE.Take(AE.AllEvents(d.policy.engine, d.types, snap), slots)
  }

  /** Engine state moved, nothing voiced yet. */
  function Observed(d: Device, snap: AE.Snapshot): Device {
    d.(preexisting := AE.Observed(d.preexisting, d.policy.engine, snap, !d.synced),
       types := AE.StepAll(d.policy.engine, d.types, snap), synced := true)
  }

  ghost function Applied(d: Device, snap: AE.Snapshot, slots: nat, clock: nat -> Millis): (r: Device)
    requires Valid(d)
    ensures Valid(r)
  {
    var batch := Batch(d, snap, slots);
    NotifyUpTo(Observed(d, snap), batch, |batch|, clock)
  }

  // ---- the active mask ------------------------------------------------------------------------

  ghost predicate MaskMatches(d: Device) {
    d.siren.active == AE.ActiveTypes(d.types)
  }

  predicate Moves(ev: AE.Event) {
    ev.kind == AE.Started || ev.kind == AE.Ended
  }

  function Moved(mask: set<AlertType>, ev: AE.Event): set<AlertType> {
    if ev.kind == AE.Started then mask + {ev.alert} else if ev.kind == AE.Ended then mask - {ev.alert} else mask
  }

  lemma NotifyMoves(d: Device, batch: seq<AE.Event>, ev: AE.Event, now: Millis)
    requires Valid(d)
    ensures Notify(d, batch, ev, now).siren.active == Moved(d.siren.active, ev)
  {
  }

  function MovedBy(mask: set<AlertType>, batch: seq<AE.Event>, k: nat): set<AlertType>
    requires k <= |batch|
  {
    if k == 0 then mask else Moved(MovedBy(mask, batch, k - 1), batch[k - 1])
  }

  lemma {:induction false} MaskIsMovedBy(d: Device, batch: seq<AE.Event>, k: nat, clock: nat -> Millis)
    requires Valid(d) && k <= |batch|
    ensures NotifyUpTo(d, batch, k, clock).siren.active == MovedBy(d.siren.active, batch, k)
  {
    hide NE.OnEvent, Quiet;
    if k > 0 {
      MaskIsMovedBy(d, batch, k - 1, clock);
      NotifyMoves(NotifyUpTo(d, batch, k - 1, clock), batch, batch[k - 1], clock(k - 1));
    }
  }

  /** The mask after a batch, type by type. */
  lemma {:induction false} MovedMembers(mask: set<AlertType>, batch: seq<AE.Event>, k: nat, t: AlertType)
    requires k <= |batch|
    requires !(AE.Event(AE.Started, t) in batch && AE.Event(AE.Ended, t) in batch)
    ensures t in MovedBy(mask, batch, k)
            <==> AE.Event(AE.Started, t) in batch[..k] || (t in mask && AE.Event(AE.Ended, t) !in batch[..k])
  {
    if k > 0 {
      MovedMembers(mask, batch, k - 1, t);
      assert batch[..k] == batch[..k - 1] + [batch[k - 1]];
      assert batch[k - 1] in batch && forall e :: e in batch[..k - 1] ==> e in batch;
    }
  }

  /** A start or an end is the only event of its type in the batch. */
  lemma {:induction false} MovesAreAlone(cfg: AE.Config, types: AE.Statuses, snap: AE.Snapshot, n: nat, i: nat, j: nat)
    requires n <= TYPE_COUNT && i < |AE.EventsOf(cfg, types, snap, n)| && j < |AE.EventsOf(cfg, types, snap, n)|
    requires i != j && Moves(AE.EventsOf(cfg, types, snap, n)[i])
    ensures AE.EventsOf(cfg, types, snap, n)[i].alert != AE.EventsOf(cfg, types, snap, n)[j].alert
  {
    hide AE.StepKinds;
    var front := AE.EventsOf(cfg, types, snap, n - 1);
    var kinds := AE.StepKinds(cfg, types[n - 1], snap[n - 1]);
    assert AE.EventsOf(cfg, types, snap, n) == front + AE.Tagged(kinds, n - 1);
    if i < |front| && j < |front| {
      MovesAreAlone(cfg, types, snap, n - 1, i, j);
    } else if i < |front| {
      AE.EventsMembership(cfg, types, snap, n - 1, front[i]);
    } else if j < |front| {
      AE.EventsMembership(cfg, types, snap, n - 1, front[j]);
    } else {
      assert kinds[i - |front|] in kinds;
      AE.MoveIsOnly(cfg, types[n - 1], snap[n - 1]);
    }
  }

  /** How one step moves a type in or out of the active set. */
  lemma ActiveAfter(cfg: AE.Config, types: AE.Statuses, snap: AE.Snapshot, t: AlertType)
    ensures var all := AE.AllEvents(cfg, types, snap);
            && !(AE.Event(AE.Started, t) in all && AE.Event(AE.Ended, t) in all)
            && (AE.Event(AE.Started, t) in all ==> t !in AE.ActiveTypes(types))
            && (AE.Event(AE.Ended, t) in all ==> t in AE.ActiveTypes(types))
            && (t in AE.ActiveTypes(AE.StepAll(cfg, types, snap))
                <==> AE.Event(AE.Started, t) in all
                     || (t in AE.ActiveTypes(types) && AE.Event(AE.Ended, t) !in all))
  {
    AE.EventsMembership(cfg, types, snap, TYPE_COUNT, AE.Event(AE.Started, t));
    AE.EventsMembership(cfg, types, snap, TYPE_COUNT, AE.Event(AE.Ended, t));
    var kinds := AE.StepKinds(cfg, types[t], snap[t]);
    assert [AE.Started][0] == AE.Started && [AE.Ended][0] == AE.Ended;
    if AE.Started in kinds {
      assert kinds == [AE.Started];
    }
  }

  lemma TakenEvents(all: seq<AE.Event>, slots: nat)
    ensures forall ev :: ev in AE.Take(all, slots) ==> ev in all
    ensures forall ev :: ev in all ==> ev in AE.Take(all, slots) || exists k :: slots <= k < |all| && all[k] == ev
  {
    forall ev | ev in all
      ensures ev in AE.Take(all, slots) || exists k :: slots <= k < |all| && all[k] == ev
    {
      var k :| 0 <= k < |all| && all[k] == ev;
      if k < slots {
        assert AE.Take(all, slots)[k] == ev;
      }
    }
  }

  /** A start or end that did not fit the buffer. */
  predicate MoveDropped(d: Device, snap: AE.Snapshot, slots: nat) {
    var all := AE.AllEvents(d.policy.engine, d.types, snap);
    exists k :: slots <= k < |all| && Moves(all[k])
  }

  lemma DroppedIsGone(d: Device, snap: AE.Snapshot, slots: nat, k: nat)
    requires slots <= k < |AE.AllEvents(d.policy.engine, d.types, snap)|
    requires Moves(AE.AllEvents(d.policy.engine, d.types, snap)[k])
    ensures AE.AllEvents(d.policy.engine, d.types, snap)[k] !in Batch(d, snap, slots)
  {
    var all := AE.AllEvents(d.policy.engine, d.types, snap);
    if all[k] in Batch(d, snap, slots) {
      var j :| 0 <= j < |Batch(d, snap, slots)| && Batch(d, snap, slots)[j] == all[k];
      MovesAreAlone(d.policy.engine, d.types, snap, TYPE_COUNT, k, j);
    }
  }

  lemma MaskAfterApply(d: Device, snap: AE.Snapshot, slots: nat, clock: nat -> Millis, t: AlertType)
    requires Valid(d)
    ensures var batch := Batch(d, snap, slots);
            t in Applied(d, snap, slots, clock).siren.active
            <==> AE.Event(AE.Started, t) in batch || (t in d.siren.active && AE.Event(AE.Ended, t) !in batch)
  {
    var batch := Batch(d, snap, slots);
    TakenEvents(AE.AllEvents(d.policy.engine, d.types, snap), slots);
    ActiveAfter(d.policy.engine, d.types, snap, t);
    MaskIsMovedBy(Observed(d, snap), batch, |batch|, clock);
    MovedMembers(d.siren.active, batch, |batch|, t);
    assert batch[..|batch|] == batch;
  }

  lemma TypesAfterApply(d: Device, snap: AE.Snapshot, slots: nat, clock: nat -> Millis)
    requires Valid(d)
    ensures Applied(d, snap, slots, clock).types == AE.StepAll(d.policy.engine, d.types, snap)
    ensures Applied(d, snap, slots, clock).policy == d.policy && Applied(d, snap, slots, clock).synced
    ensures Applied(d, snap, slots, clock).snapshot == d.snapshot
  {
  }

  /** The siren's mask stays the engine's active set exactly when no start or end
      is dropped; 14 slots are always enough, and 8 whenever at most 8 events arise. */
  lemma MaskKeptExactly(d: Device, snap: AE.Snapshot, slots: nat, clock: nat -> Millis)
    requires Valid(d) && MaskMatches(d)
    ensures MaskMatches(Applied(d, snap, slots, clock)) <==> !MoveDropped(d, snap, slots)
    ensures slots >= 14 || |AE.AllEvents(d.policy.engine, d.types, snap)| <= slots ==> !MoveDropped(d, snap, slots)
  {
    var all, batch := AE.AllEvents(d.policy.engine, d.types, snap), Batch(d, snap, slots);
    var after := Applied(d, snap, slots, clock);
    TypesAfterApply(d, snap, slots, clock);
    TakenEvents(all, slots);
    forall t: AlertType
      ensures (t in after.siren.active <==> t in AE.ActiveTypes(after.types))
              <==> !((AE.Event(AE.Started, t) in all && AE.Event(AE.Started, t) !in batch)
                     || (AE.Event(AE.Ended, t) in all && AE.Event(AE.Ended, t) !in batch))
    {
      MaskAfterApply(d, snap, slots, clock, t);
      ActiveAfter(d.policy.engine, d.types, snap, t);
    }
    if MoveDropped(d, snap, slots) {
      var k :| slots <= k < |all| && Moves(all[k]);
      DroppedIsGone(d, snap, slots, k);
      var t := all[k].alert;
      assert all[k] == AE.Event(AE.Started, t) || all[k] == AE.Event(AE.Ended, t);
      assert all[k] in all;
      assert !(t in after.siren.active <==> t in AE.ActiveTypes(after.types));
    }
  }

  // ---- polls and the other ways the state moves ----------------------------------------------------

  /** 200, an accepted 304, or anything else. */
  datatype Outcome = Fresh(snap: AE.Snapshot) | Same | Failed

  ghost function Polled(d: Device, outcome: Outcome, clock: nat -> Millis): (r: Device)
    requires Valid(d)
    ensures Valid(r)
  {
    match outcome
    case Fresh(snap) => Applied(d.(snapshot := snap), snap, EVENT_SLOTS, clock)
    case Same => Applied(d, d.snapshot, EVENT_SLOTS, clock)
    case Failed => d
  }

  function EmptySnapshot(): AE.Snapshot {
    seq(TYPE_COUNT, _ => AE.TypeInput(NoCoverage, 0, 0))
  }

  function AllFresh(): AE.Statuses {
    seq(TYPE_COUNT, _ => AE.FRESH)
  }

  /** refreshLocations: both engines and the builder start over. */
  function Refreshed(d: Device): (r: Device) {
    d.(types := AllFresh(), synced := false, snapshot := EmptySnapshot(), siren := NE.ResetAlertState(d.siren))
  }

  datatype Action =
    | Poll(outcome: Outcome, clock: nat -> Millis)
    | Refresh
    | SirenOp(op: NE.Op)
    | Reconfigure(policy: Policy)

  /** The siren is driven from outside by ticks, mutes, tests, an OTA stop and
      settings; alert events and resets reach it through polls and refreshes. */
  predicate ValidAction(a: Action) {
    a.SirenOp? ==> NE.ValidOp(a.op) && !a.op.Event? && !a.op.Reset?
  }

  ghost function Act(d: Device, a: Action): (r: Device)
    requires Valid(d) && ValidAction(a)
    ensures Valid(r)
  {
    match a
    case Poll(outcome, clock) => Polled(d, outcome, clock)
    case Refresh => Refreshed(d)
    case SirenOp(op) => d.(siren := NE.Do(d.siren, op))
    case Reconfigure(policy) => d.(policy := policy)
  }

  ghost predicate Fits(d: Device, a: Action) {
    a.Poll? ==>
      match a.outcome
      case Fresh(snap) => !MoveDropped(d, snap, EVENT_SLOTS)
      case Same => !MoveDropped(d, d.snapshot, EVENT_SLOTS)
      case Failed => true
  }

  ghost predicate RunFits(d: Device, actions: seq<Action>)
    requires Valid(d) && forall i :: 0 <= i < |actions| ==> ValidAction(actions[i])
    decreases |actions|
  {
    actions == [] || (Fits(d, actions[0]) && RunFits(Act(d, actions[0]), actions[1..]))
  }

  ghost function Run(d: Device, actions: seq<Action>): (r: Device)
    requires Valid(d) && forall i :: 0 <= i < |actions| ==> ValidAction(actions[i])
    ensures Valid(r)
    decreases |actions|
  {
    if actions == [] then d else Run(Act(d, actions[0]), actions[1..])
  }

  lemma SirenOpKeepsMask(s: NE.Siren, op: NE.Op)
    requires NE.Valid(s) && NE.ValidOp(op) && !op.Event? && !op.Reset?
    ensures NE.Do(s, op).active == s.active
  {
  }

  lemma ActKeepsMask(d: Device, a: Action)
    requires Valid(d) && ValidAction(a) && MaskMatches(d)
    ensures MaskMatches(Act(d, a)) <==> Fits(d, a)
  {
    match a
    case Poll(outcome, clock) =>
      match outcome {
        case Fresh(snap) => MaskKeptExactly(d.(snapshot := snap), snap, EVENT_SLOTS, clock);
        case Same => MaskKeptExactly(d, d.snapshot, EVENT_SLOTS, clock);
        case Failed =>
      }
    case Refresh => assert AE.ActiveTypes(AllFresh()) == {};
    case SirenOp(op) => SirenOpKeepsMask(d.siren, op);
    case Reconfigure(policy) =>
  }

  /** Across polls, failed polls, mutes, tests, OTA stops, new settings and
      location changes the siren's mask is the set of active types, as long as no
      poll drops a start or an end. */
  lemma {:induction false} MaskMatchesOverRun(d: Device, actions: seq<Action>)
    requires Valid(d) && MaskMatches(d) && forall i :: 0 <= i < |actions| ==> ValidAction(actions[i])
    requires RunFits(d, actions)
    ensures MaskMatches(Run(d, actions))
    decreases |actions|
  {
    if actions != [] {
      ActKeepsMask(d, actions[0]);
      MaskMatchesOverRun(Act(d, actions[0]), actions[1..]);
    }
  }

  /** Eight slots can be too few: after a location change one poll starts four types
      in part, the next escalates each and adds a location, and the start of a
      fifth type is lost. */
  lemma EightSlotsCanLose(d: Device)
    requires Valid(d) && d.policy.engine == AE.Config(1, 2, true)
    ensures exists first, second, clock ::
              !MaskMatches(Polled(Polled(Refreshed(d), Fresh(first), clock), Fresh(second), clock))
  {
    hide Applied, AE.AllEvents, AE.StepAll;
    var first: AE.Snapshot := seq(TYPE_COUNT, i => AE.TypeInput(if i < 4 then Partial else NoCoverage, 1, 0));
    var second: AE.Snapshot := seq(TYPE_COUNT, i => AE.TypeInput(if i < 5 then Full else NoCoverage, 2, 0));
    var clock: nat -> Millis := _ => 0;
    FourStarted(d.policy.engine, first);
    FourMatched(d, first, clock);
    var next := Polled(Refreshed(d), Fresh(first), clock);
    FifthIsLost(next.(snapshot := second), second, clock);
    assert !MaskMatches(Polled(next, Fresh(second), clock));
  }

  lemma FourMatched(d: Device, first: AE.Snapshot, clock: nat -> Millis)
    requires Valid(d) && |AE.AllEvents(d.policy.engine, AllFresh(), first)| == 4
    ensures var r := Polled(Refreshed(d), Fresh(first), clock);
            MaskMatches(r) && r.policy == d.policy && r.types == AE.StepAll(d.policy.engine, AllFresh(), first)
  {
    hide Applied, AE.AllEvents, AE.StepAll;
    var start := Refreshed(d).(snapshot := first);
    assert AE.ActiveTypes(AllFresh()) == {};
    TypesAfterApply(start, first, EVENT_SLOTS, clock);
    MaskKeptExactly(start, first, EVENT_SLOTS, clock);
  }

  lemma FourStarted(cfg: AE.Config, snap: AE.Snapshot)
    requires cfg == AE.Config(1, 2, true)
    requires forall t: AlertType :: snap[t] == AE.TypeInput(if t < 4 then Partial else NoCoverage, 1, 0)
    ensures |AE.AllEvents(cfg, AllFresh(), snap)| == 4
    ensures forall t: AlertType :: AE.StepAll(cfg, AllFresh(), snap)[t] ==
              if t < 4 then AE.TypeStatus(AE.Active, Partial, 0, 0, 0, 1) else AE.FRESH.(state := AE.Inactive)
  {
    var types := AllFresh();
    assert forall t: AlertType :: |AE.StepKinds(cfg, types[t], snap[t])| == if t < 4 then 1 else 0;
    assert |AE.EventsOf(cfg, types, snap, 2)| == 2;
    assert |AE.EventsOf(cfg, types, snap, 4)| == 4;
    assert |AE.EventsOf(cfg, types, snap, 6)| == 4;
  }

  lemma FifthIsLost(d: Device, snap: AE.Snapshot, clock: nat -> Millis)
    requires Valid(d) && MaskMatches(d) && d.policy.engine == AE.Config(1, 2, true)
    requires forall t: AlertType :: d.types[t] ==
               if t < 4 then AE.TypeStatus(AE.Active, Partial, 0, 0, 0, 1) else AE.FRESH.(state := AE.Inactive)
    requires forall t: AlertType :: snap[t] == AE.TypeInput(if t < 5 then Full else NoCoverage, 2, 0)
    ensures !MaskMatches(Applied(d, snap, EVENT_SLOTS, clock))
  {
    var cfg := d.policy.engine;
    assert forall t: AlertType ::
        |AE.StepKinds(cfg, d.types[t], snap[t])| == if t < 4 then 2 else if t == 4 then 1 else 0;
    assert |AE.EventsOf(cfg, d.types, snap, 2)| == 4;
    assert |AE.EventsOf(cfg, d.types, snap, 4)| == 8;
    assert AE.EventsOf(cfg, d.types, snap, 5)[8] == AE.Event(AE.Started, 4);
    assert |AE.EventsOf(cfg, d.types, snap, 6)| == 9 && AE.EventsOf(cfg, d.types, snap, 6)[8] == AE.Event(AE.Started, 4);
    assert AE.AllEvents(cfg, d.types, snap)[8] == AE.Event(AE.Started, 4);
    MaskKeptExactly(d, snap, EVENT_SLOTS, clock);
  }

  // ---- whole runs between location changes ---------------------------------------------------------

  /** Anything but a location change or other settings of the engine. */
  predicate SteadyAction(cfg: AE.Config, a: Action) {
    ValidAction(a) && !a.Refresh? && (a.Reconfigure? ==> a.policy.engine == cfg)
  }

  predicate Steady(cfg: AE.Config, actions: seq<Action>) {
    forall i :: 0 <= i < |actions| ==> SteadyAction(cfg, actions[i])
  }

  /** The validated samples that a run supplies: failed polls give none, and neither
      does what happens between polls. */
  function Samples(actions: seq<Action>, cached: AE.Snapshot): seq<AE.Snapshot>
    decreases |actions|
  {
    if actions == [] then []
    else if !actions[0].Poll? then Samples(actions[1..], cached)
    else
      match actions[0].outcome
      case Fresh(snap) => [snap] + Samples(actions[1..], snap)
      case Same => [cached] + Samples(actions[1..], cached)
      case Failed => Samples(actions[1..], cached)
  }

  function OfType(samples: seq<AE.Snapshot>, t: AlertType): (h: seq<AE.TypeInput>)
    ensures |h| == |samples|
  {
    seq(|samples|, i requires 0 <= i < |samples| => samples[i][t])
  }

  function StepThrough(cfg: AE.Config, types: AE.Statuses, samples: seq<AE.Snapshot>): AE.Statuses
    decreases |samples|
  {
    if samples == [] then types else StepThrough(cfg, AE.StepAll(cfg, types, samples[0]), samples[1..])
  }

  lemma ActSteps(d: Device, a: Action)
    requires Valid(d) && SteadyAction(d.policy.engine, a)
    ensures var r := Act(d, a);
            && r.policy.engine == d.policy.engine
            && r.snapshot == (if a.Poll? && a.outcome.Fresh? then a.outcome.snap else d.snapshot)
            && r.types == (if a.Poll? && !a.outcome.Failed? then AE.StepAll(d.policy.engine, d.types, r.snapshot)
                           else d.types)
  {
    hide NotifyUpTo, NE.Do;
    if a.Poll? {
      match a.outcome {
        case Fresh(snap) => TypesAfterApply(d.(snapshot := snap), snap, EVENT_SLOTS, a.clock);
        case Same => TypesAfterApply(d, d.snapshot, EVENT_SLOTS, a.clock);
        case Failed =>
      }
    }
  }

  lemma {:induction false} RunStepsThroughSamples(d: Device, actions: seq<Action>)
    requires Valid(d) && Steady(d.policy.engine, actions)
    ensures Run(d, actions).types == StepThrough(d.policy.engine, d.types, Samples(actions, d.snapshot))
    ensures Run(d, actions).policy.engine == d.policy.engine
    decreases |actions|
  {
    hide Act, AE.StepAll;
    if actions != [] {
      var a, rest := actions[0], actions[1..];
      var next := Act(d, a);
      ActSteps(d, a);
      RunStepsThroughSamples(next, rest);
      if a.Poll? && !a.outcome.Failed? {
        StepThroughCons(d.policy.engine, d.types, next.snapshot, Samples(rest, next.snapshot));
      }
    }
  }

  lemma StepThroughCons(cfg: AE.Config, types: AE.Statuses, first: AE.Snapshot, rest: seq<AE.Snapshot>)
    ensures StepThrough(cfg, types, [first] + rest) == StepThrough(cfg, AE.StepAll(cfg, types, first), rest)
  {
    assert ([first] + rest)[1..] == rest;
  }

  lemma {:induction false} StepThroughIsAfter(cfg: AE.Config, done: seq<AE.Snapshot>, samples: seq<AE.Snapshot>,
                                              types: AE.Statuses, t: AlertType)
    requires types[t] == AE.After(cfg, OfType(done, t))
    ensures StepThrough(cfg, types, samples)[t] == AE.After(cfg, OfType(done + samples, t))
    decreases |samples|
  {
    if samples == [] {
      assert done + samples == done;
    } else {
      var more := done + [samples[0]];
      assert OfType(more, t)[..|done|] == OfType(done, t);
      StepThroughIsAfter(cfg, more, samples[1..], AE.StepAll(cfg, types, samples[0]), t);
      assert more + samples[1..] == done + samples;
    }
  }

  lemma RunIsAfter(d: Device, actions: seq<Action>, t: AlertType)
    requires Valid(d) && Steady(d.policy.engine, actions)
    ensures Run(Refreshed(d), actions).policy.engine == d.policy.engine
    ensures Run(Refreshed(d), actions).types[t]
            == AE.After(d.policy.engine, OfType(Samples(actions, EmptySnapshot()), t))
  {
    var samples := Samples(actions, EmptySnapshot());
    RunStepsThroughSamples(Refreshed(d), actions);
    StepThroughIsAfter(d.policy.engine, [], samples, AllFresh(), t);
    assert [] + samples == samples;
  }

  /** After a location change and any run of polls, ticks, mutes, tests and stops, a
      type is active exactly when the validated samples confirm it. */
  lemma ActiveAfterRun(d: Device, actions: seq<Action>, t: AlertType)
    requires Valid(d) && Steady(d.policy.engine, actions)
    ensures var cfg := d.policy.engine;
            t in AE.ActiveTypes(Run(Refreshed(d), actions).types)
            <==> AE.Confirmed(AE.PresentAt(cfg, OfType(Samples(actions, EmptySnapshot()), t)),
                              AE.Needed(cfg.startConfirmations), AE.Needed(cfg.endConfirmations))
  {
    RunIsAfter(d, actions, t);
    AE.ActiveIffConfirmed(d.policy.engine, OfType(Samples(actions, EmptySnapshot()), t));
  }

  /** An end that a poll of such a run reports rests on that many validated absences
      in a row, the one just seen included. */
  lemma EndedAfterRun(d: Device, actions: seq<Action>, snap: AE.Snapshot, t: AlertType)
    requires Valid(d) && Steady(d.policy.engine, actions)
    requires AE.Event(AE.Ended, t) in Batch(Run(Refreshed(d), actions), snap, EVENT_SLOTS)
    ensures var p := AE.PresentAt(d.policy.engine, OfType(Samples(actions, EmptySnapshot()) + [snap], t));
            AE.RunBefore(p, |p|, AE.Needed(d.policy.engine.endConfirmations), false)
  {
    hide Run, Samples, AE.StepAll, AE.PresentAt, AE.RunBefore, AE.EventsOf;
    var before, samples, cfg := Run(Refreshed(d), actions), Samples(actions, EmptySnapshot()), d.policy.engine;
    RunIsAfter(d, actions, t);
    TakenEvents(AE.AllEvents(cfg, before.types, snap), EVENT_SLOTS);
    AE.EventsMembership(cfg, before.types, snap, TYPE_COUNT, AE.Event(AE.Ended, t));
    AE.EndedNeedsAbsences(cfg, OfType(samples, t), snap[t]);
    assert OfType(samples + [snap], t) == OfType(samples, t) + [snap[t]];
  }

  // ---- alerts older than the watch ----------------------------------------------------------------------

  /** Whether a Started of type t in this poll is voiced as already active. */
  predicate MarkedAlreadyActive(d: Device, snap: AE.Snapshot, t: AlertType) {
    t in Observed(d, snap).preexisting
  }

  lemma NotifyConsumes(d: Device, batch: seq<AE.Event>, ev: AE.Event, now: Millis)
    requires Valid(d)
    ensures Notify(d, batch, ev, now).preexisting ==
            if ev.kind == AE.Started then d.preexisting - {ev.alert} else d.preexisting
  {
  }

  function ConsumedBy(mask: set<AlertType>, batch: seq<AE.Event>, k: nat): set<AlertType>
    requires k <= |batch|
  {
    if k == 0 then mask
    else
      var left := ConsumedBy(mask, batch, k - 1);
      if batch[k - 1].kind == AE.Started then left - {batch[k - 1].alert} else left
  }

  lemma {:induction false} PreexistingIsConsumedBy(d: Device, batch: seq<AE.Event>, k: nat, clock: nat -> Millis)
    requires Valid(d) && k <= |batch|
    ensures NotifyUpTo(d, batch, k, clock).preexisting == ConsumedBy(d.preexisting, batch, k)
  {
    hide NE.OnEvent, Quiet;
    if k > 0 {
      PreexistingIsConsumedBy(d, batch, k - 1, clock);
      NotifyConsumes(NotifyUpTo(d, batch, k - 1, clock), batch, batch[k - 1], clock(k - 1));
    }
  }

  lemma {:induction false} ConsumedMembers(mask: set<AlertType>, batch: seq<AE.Event>, k: nat, t: AlertType)
    requires k <= |batch|
    ensures t in ConsumedBy(mask, batch, k) <==> t in mask && AE.Event(AE.Started, t) !in batch[..k]
  {
    if k > 0 {
      ConsumedMembers(mask, batch, k - 1, t);
      assert batch[..k] == batch[..k - 1] + [batch[k - 1]];
    }
  }

  lemma PreexistingAfter(d: Device, batch: seq<AE.Event>, k: nat, clock: nat -> Millis, t: AlertType)
    requires Valid(d) && k <= |batch|
    ensures t in NotifyUpTo(d, batch, k, clock).preexisting
            <==> t in d.preexisting && AE.Event(AE.Started, t) !in batch[..k]
  {
    PreexistingIsConsumedBy(d, batch, k, clock);
    ConsumedMembers(d.preexisting, batch, k, t);
  }

  /** The mark is what the loop sees when it comes to that start. */
  lemma MarkIsSeen(d: Device, snap: AE.Snapshot, slots: nat, clock: nat -> Millis, k: nat)
    requires Valid(d) && k < |Batch(d, snap, slots)| && Batch(d, snap, slots)[k].kind == AE.Started
    ensures Batch(d, snap, slots)[k].alert in NotifyUpTo(Observed(d, snap), Batch(d, snap, slots), k, clock).preexisting
            <==> MarkedAlreadyActive(d, snap, Batch(d, snap, slots)[k].alert)
  {
    var batch := Batch(d, snap, slots);
    var t := batch[k].alert;
    PreexistingAfter(Observed(d, snap), batch, k, clock, t);
    if AE.Event(AE.Started, t) in batch[..k] {
      var j :| 0 <= j < k && batch[j] == AE.Event(AE.Started, t);
      MovesAreAlone(d.policy.engine, d.types, snap, TYPE_COUNT, j, k);
    }
  }

  /** Every sample so far had the type. */
  ghost predicate AlwaysPresent(cfg: AE.Config, samples: seq<AE.Snapshot>, t: AlertType) {
    forall i :: 0 <= i < |samples| ==> AE.Present(cfg, samples[i][t])
  }

  /** Since the last reset: present all along and not yet started. */
  ghost predicate Watching(d: Device, samples: seq<AE.Snapshot>, t: AlertType) {
    && (d.synced <==> samples != [])
    && (samples == [] ==> d.types[t] == AE.FRESH)
    && (samples != [] ==>
          d.types[t].state != AE.NotSynced
          && (t in d.preexisting <==> AlwaysPresent(d.policy.engine, samples, t) && d.types[t].state != AE.Active))
  }

  lemma WatchingStep(d: Device, samples: seq<AE.Snapshot>, snap: AE.Snapshot, slots: nat, clock: nat -> Millis,
                     t: AlertType)
    requires Valid(d) && Watching(d, samples, t) && !MoveDropped(d, snap, slots)
    ensures Watching(Applied(d, snap, slots, clock), samples + [snap], t)
    ensures AE.Event(AE.Started, t) in Batch(d, snap, slots) ==>
              (MarkedAlreadyActive(d, snap, t) <==> AlwaysPresent(d.policy.engine, samples + [snap], t))
  {
    var cfg, all, batch := d.policy.engine, AE.AllEvents(d.policy.engine, d.types, snap), Batch(d, snap, slots);
    TypesAfterApply(d, snap, slots, clock);
    TakenEvents(all, slots);
    ActiveAfter(cfg, d.types, snap, t);
    AE.EventsMembership(cfg, d.types, snap, TYPE_COUNT, AE.Event(AE.Started, t));
    PreexistingAfter(Observed(d, snap), batch, |batch|, clock, t);
    assert batch[..|batch|] == batch;
    assert AlwaysPresent(cfg, samples + [snap], t)
           <==> AlwaysPresent(cfg, samples, t) && AE.Present(cfg, snap[t]) by {
      assert (samples + [snap])[|samples|] == snap;
      assert forall i :: 0 <= i < |samples| ==> (samples + [snap])[i] == samples[i];
    }
  }

  lemma WatchingStarts(d: Device, t: AlertType)
    requires Valid(d)
    ensures Watching(Refreshed(d), [], t)
  {
  }

  /** One action of a run moves the watch on by the sample it supplies, if any. */
  lemma WatchingAct(d: Device, done: seq<AE.Snapshot>, a: Action, t: AlertType)
    requires Valid(d) && Watching(d, done, t) && SteadyAction(d.policy.engine, a) && Fits(d, a)
    ensures Watching(Act(d, a), done + Samples([a], d.snapshot), t)
  {
    hide Applied, AE.AllEvents, NE.Do, AlwaysPresent;
    assert [a][1..] == [];
    if a.Poll? && !a.outcome.Failed? {
      var from := if a.outcome.Fresh? then d.(snapshot := a.outcome.snap) else d;
      assert Samples([a], d.snapshot) == [from.snapshot] + Samples([], from.snapshot) == [from.snapshot];
      WatchingStep(from, done, from.snapshot, EVENT_SLOTS, a.clock, t);
    } else {
      assert done + Samples([a], d.snapshot) == done;
    }
  }

  lemma SamplesCons(a: Action, rest: seq<Action>, cached: AE.Snapshot)
    ensures var next := if a.Poll? && a.outcome.Fresh? then a.outcome.snap else cached;
            Samples([a] + rest, cached) == Samples([a], cached) + Samples(rest, next)
  {
    assert ([a] + rest)[1..] == rest && [a][1..] == [];
  }

  lemma {:induction false} WatchingRun(d: Device, done: seq<AE.Snapshot>, actions: seq<Action>, t: AlertType)
    requires Valid(d) && Watching(d, done, t) && Steady(d.policy.engine, actions) && RunFits(d, actions)
    ensures Watching(Run(d, actions), done + Samples(actions, d.snapshot), t)
    decreases |actions|
  {
    hide Watching, Act, Fits, ValidAction, EmptySnapshot;
    if actions == [] {
      assert done + Samples(actions, d.snapshot) == done;
    } else {
      var a, rest := actions[0], actions[1..];
      var next, now := Act(d, a), done + Samples([a], d.snapshot);
      ActSteps(d, a);
      WatchingAct(d, done, a, t);
      WatchingRun(next, now, rest, t);
      SamplesCons(a, rest, d.snapshot);
      assert [a] + rest == actions;
      assert now + Samples(rest, next.snapshot) == done + Samples(actions, d.snapshot);
    }
  }

  /** With the engine's settings fixed since a location change, over any run of
      polls and all else that drops no start or end: a start is voiced as already
      active exactly when its type was in every validated sample since then, for any
      number of start confirmations. */
  lemma AlreadyActiveExactly(d: Device, actions: seq<Action>, snap: AE.Snapshot, t: AlertType)
    requires Valid(d) && Steady(d.policy.engine, actions) && RunFits(Refreshed(d), actions)
    requires !MoveDropped(Run(Refreshed(d), actions), snap, EVENT_SLOTS)
    requires AE.Event(AE.Started, t) in Batch(Run(Refreshed(d), actions), snap, EVENT_SLOTS)
    ensures MarkedAlreadyActive(Run(Refreshed(d), actions), snap, t)
            <==> AlwaysPresent(d.policy.engine, Samples(actions, EmptySnapshot()) + [snap], t)
  {
    hide Watching, MoveDropped, Batch, AlwaysPresent, Fits, RunFits;
    var samples := Samples(actions, EmptySnapshot());
    WatchingStarts(d, t);
    WatchingRun(Refreshed(d), [], actions, t);
    assert [] + samples == samples;
    RunStepsThroughSamples(Refreshed(d), actions);
    WatchingStep(Run(Refreshed(d), actions), samples, snap, EVENT_SLOTS, _ => 0, t);
  }

  // ---- what a poll voices ---------------------------------------------------------------------------

  /** Between the air-raid colours, or under quiet 2 between any two types. */
  predicate Rivals(policy: Policy, t: AlertType, other: AlertType) {
    other != t && (policy.quiet == 2 || (IsAir(t) && IsAir(other)))
  }

  /** Active once the sample is applied. */
  predicate ActiveThen(d: Device, snap: AE.Snapshot, t: AlertType) {
    t in AE.ActiveTypes(AE.StepAll(d.policy.engine, d.types, snap))
  }

  /** A rival of t is on its way out: it ends in this batch, or is still active though
      the sample no longer shows it. */
  ghost predicate HandedOver(d: Device, snap: AE.Snapshot, batch: seq<AE.Event>, t: AlertType) {
    exists other: AlertType ::
      && Rivals(d.policy, t, other)
      && (AE.Event(AE.Ended, other) in batch
          || (ActiveThen(d, snap, other) && !AE.Present(d.policy.engine, snap[other])))
  }

  ghost predicate RivalStays(d: Device, snap: AE.Snapshot, t: AlertType) {
    exists other: AlertType :: Rivals(d.policy, t, other) && ActiveThen(d, snap, other)
  }

  /** The signal a poll owes for type t: a start not already active, not partial-only
      with the partial siren off and not half of a hand-over; an end with no rival left;
      an escalation as the settings want it. */
  ghost predicate Owed(d: Device, snap: AE.Snapshot, batch: seq<AE.Event>, signal: NQ.Signal, t: AlertType)
    requires Valid(d)
  {
    d.siren.profiles[t].enabled &&
    match signal
    case Start =>
      && AE.Event(AE.Started, t) in batch && !MarkedAlreadyActive(d, snap, t)
      && (d.policy.partialSiren || snap[t].coverage != Partial)
      && (d.policy.quiet == 0 || !HandedOver(d, snap, batch, t))
    case End => AE.Event(AE.Ended, t) in batch && !RivalStays(d, snap, t)
    case Escalation =>
      || (AE.Event(AE.Escalated, t) in batch && d.siren.cfg.notifyEscalation)
      || (AE.Event(AE.LocationAdded, t) in batch && d.siren.cfg.notifyAdditionalLocation)
    case _ => false
  }

  lemma StartIsQuiet(d: Device, snap: AE.Snapshot, slots: nat, t: AlertType, already: bool)
    requires AE.Event(AE.Started, t) in Batch(d, snap, slots)
    ensures var batch := Batch(d, snap, slots);
            Quiet(d.policy, AE.StepAll(d.policy.engine, d.types, snap), batch, AE.Event(AE.Started, t), already)
            <==> || already || (!d.policy.partialSiren && snap[t].coverage == Partial)
                 || (d.policy.quiet != 0 && HandedOver(d, snap, batch, t))
  {
    hide AE.EventsOf;
    var cfg, ev, batch := d.policy.engine, AE.Event(AE.Started, t), Batch(d, snap, slots);
    var types := AE.StepAll(cfg, d.types, snap);
    TakenEvents(AE.AllEvents(cfg, d.types, snap), slots);
    AE.EventsMembership(cfg, d.types, snap, TYPE_COUNT, ev);
    forall other: AlertType
      ensures AE.Rival(ev, other, d.policy.quiet == 2) && AE.HandsOver(types, batch, ev, other)
              <==> && Rivals(d.policy, t, other)
                   && (AE.Event(AE.Ended, other) in batch
                       || (ActiveThen(d, snap, other) && !AE.Present(cfg, snap[other])))
    {
      AbsenceIsCounted(cfg, d.types[other], snap[other]);
    }
  }

  lemma AbsenceIsCounted(cfg: AE.Config, ts: AE.TypeStatus, input: AE.TypeInput)
    ensures var after := AE.Step(cfg, ts, input);
            after.state == AE.Active ==> (after.endCount > 0 <==> !AE.Present(cfg, input))
  {
  }

  lemma EndIsQuiet(d: Device, snap: AE.Snapshot, batch: seq<AE.Event>, t: AlertType)
    ensures Quiet(d.policy, AE.StepAll(d.policy.engine, d.types, snap), batch, AE.Event(AE.Ended, t), false)
            <==> RivalStays(d, snap, t)
  {
    hide AE.StepAll;
    var types, ev := AE.StepAll(d.policy.engine, d.types, snap), AE.Event(AE.Ended, t);
    forall other: AlertType
      ensures AE.Rival(ev, other, d.policy.quiet == 2) && AE.HandsOver(types, batch, ev, other)
              <==> Rivals(d.policy, t, other) && ActiveThen(d, snap, other)
    {
    }
  }

  lemma NotifyKeepsSettings(d: Device, batch: seq<AE.Event>, ev: AE.Event, now: Millis)
    requires Valid(d)
    ensures Notify(d, batch, ev, now).siren.profiles == d.siren.profiles
    ensures Notify(d, batch, ev, now).siren.cfg == d.siren.cfg
  {
    hide Quiet, NQ.Push, NQ.CanPreempt;
  }

  lemma {:induction false} SettingsKept(d: Device, batch: seq<AE.Event>, k: nat, clock: nat -> Millis)
    requires Valid(d) && k <= |batch|
    ensures NotifyUpTo(d, batch, k, clock).siren.profiles == d.siren.profiles
    ensures NotifyUpTo(d, batch, k, clock).siren.cfg == d.siren.cfg
  {
    hide Notify, Valid;
    if k > 0 {
      SettingsKept(d, batch, k - 1, clock);
      NotifyKeepsSettings(NotifyUpTo(d, batch, k - 1, clock), batch, batch[k - 1], clock(k - 1));
    }
  }

  ghost function QueueAt(d: Device, snap: AE.Snapshot, slots: nat, clock: nat -> Millis, k: nat): seq<NQ.Notification>
    requires Valid(d) && k <= |Batch(d, snap, slots)|
  {
    NotifyUpTo(Observed(d, snap), Batch(d, snap, slots), k, clock).siren.queue
  }

  /** What the loop queues at the k-th event. */
  ghost function QueuedAt(d: Device, snap: AE.Snapshot, slots: nat, clock: nat -> Millis, k: nat)
    : Option<NQ.Notification>
    requires Valid(d) && k < |Batch(d, snap, slots)|
  {
    var batch := Batch(d, snap, slots);
    var before, ev := NotifyUpTo(Observed(d, snap), batch, k, clock), batch[k];
    match NE.SignalOf(before.siren, ev, Quiet(before.policy, before.types, batch, ev,
                                              ev.kind == AE.Started && ev.alert in before.preexisting))
    case None => None
    case Some(signal) => Some(NE.Signalled(d.siren, signal, ev.alert))
  }

  /** Event by event, what is queued is what is owed. */
  lemma QueuedIsOwed(d: Device, snap: AE.Snapshot, slots: nat, clock: nat -> Millis, k: nat)
    requires Valid(d) && k < |Batch(d, snap, slots)|
    ensures var batch, queued := Batch(d, snap, slots), QueuedAt(d, snap, slots, clock, k);
            && (queued.Some? ==>
                  && Owed(d, snap, batch, queued.value.signal, queued.value.kind)
                  && queued.value == NE.Signalled(d.siren, queued.value.signal, batch[k].alert))
            && (batch[k].kind == AE.Started ==> (queued.Some? <==> Owed(d, snap, batch, NQ.Start, batch[k].alert)))
            && (batch[k].kind == AE.Ended ==> (queued.Some? <==> Owed(d, snap, batch, NQ.End, batch[k].alert)))
  {
    hide NotifyUpTo, Quiet, HandedOver, RivalStays, MarkedAlreadyActive, AE.AllEvents, AE.StepAll;
    var batch, ev := Batch(d, snap, slots), Batch(d, snap, slots)[k];
    SettingsKept(Observed(d, snap), batch, k, clock);
    assert ev in batch && ev == AE.Event(ev.kind, ev.alert);
    if ev.kind == AE.Started {
      MarkIsSeen(d, snap, slots, clock, k);
      StartIsQuiet(d, snap, slots, ev.alert, MarkedAlreadyActive(d, snap, ev.alert));
    } else if ev.kind == AE.Ended {
      EndIsQuiet(d, snap, batch, ev.alert);
    }
  }

  /** Conversely what is owed is queued at some event. */
  lemma OwedIsQueued(d: Device, snap: AE.Snapshot, slots: nat, clock: nat -> Millis, signal: NQ.Signal, t: AlertType)
    returns (k: nat)
    requires Valid(d) && Owed(d, snap, Batch(d, snap, slots), signal, t)
    ensures k < |Batch(d, snap, slots)|
    ensures QueuedAt(d, snap, slots, clock, k) == Some(NE.Signalled(d.siren, signal, t))
  {
    hide NotifyUpTo, Quiet, HandedOver, RivalStays, MarkedAlreadyActive, Batch;
    var batch := Batch(d, snap, slots);
    var kind := match signal
      case Start => AE.Started
      case End => AE.Ended
      case _ => if AE.Event(AE.Escalated, t) in batch && d.siren.cfg.notifyEscalation then AE.Escalated
                else AE.LocationAdded;
    assert AE.Event(kind, t) in batch;
    k :| 0 <= k < |batch| && batch[k] == AE.Event(kind, t);
    QueuedIsOwed(d, snap, slots, clock, k);
    SettingsKept(Observed(d, snap), batch, k, clock);
  }

  /** One event of the loop as the queue sees it. */
  lemma NotifyQueues(d: Device, snap: AE.Snapshot, slots: nat, clock: nat -> Millis, k: nat)
    requires Valid(d) && k < |Batch(d, snap, slots)|
    ensures var queued, queue := QueuedAt(d, snap, slots, clock, k), QueueAt(d, snap, slots, clock, k);
            QueueAt(d, snap, slots, clock, k + 1) == if queued.None? then queue else NQ.Push(queue, queued.value)
  {
    hide NE.OnEvent, NE.SignalOf, Quiet, NQ.Push, AE.AllEvents, AE.StepAll;
    var batch := Batch(d, snap, slots);
    var before, ev := NotifyUpTo(Observed(d, snap), batch, k, clock), batch[k];
    SettingsKept(Observed(d, snap), batch, k, clock);
    NE.EventQueues(before.siren, ev, Quiet(before.policy, before.types, batch, ev,
                                           ev.kind == AE.Started && ev.alert in before.preexisting), clock(k));
  }

  /** Up to the k-th event: the queue only grew, and by what was owed. */
  lemma {:induction false} QueueGrows(d: Device, snap: AE.Snapshot, slots: nat, clock: nat -> Millis, k: nat,
                                      n: NQ.Notification)
    requires Valid(d) && k <= |Batch(d, snap, slots)|
    ensures d.siren.queue <= QueueAt(d, snap, slots, clock, k)
    ensures n in QueueAt(d, snap, slots, clock, k) && n !in d.siren.queue ==>
              Owed(d, snap, Batch(d, snap, slots), n.signal, n.kind) && n == NE.Signalled(d.siren, n.signal, n.kind)
    decreases k
  {
    hide NQ.Push, Owed, QueuedAt, Batch, NE.Valid, NotifyUpTo, Observed;
    if k > 0 {
      hide QueueAt;
      QueueGrows(d, snap, slots, clock, k - 1, n);
      NotifyQueues(d, snap, slots, clock, k - 1);
      QueuedIsOwed(d, snap, slots, clock, k - 1);
      var queued := QueuedAt(d, snap, slots, clock, k - 1);
      if queued.Some? {
        NQ.PushAdds(QueueAt(d, snap, slots, clock, k - 1), queued.value, n);
      }
    } else {
      StartsWithQueue(d, snap, slots, clock);
    }
  }

  lemma StartsWithQueue(d: Device, snap: AE.Snapshot, slots: nat, clock: nat -> Millis)
    requires Valid(d)
    ensures QueueAt(d, snap, slots, clock, 0) == d.siren.queue
  {
  }

  /** What was queued at event j waits from then on, or there was no room for it. */
  lemma {:induction false} QueuedWaits(d: Device, snap: AE.Snapshot, slots: nat, clock: nat -> Millis, j: nat, k: nat)
    requires Valid(d) && j < k <= |Batch(d, snap, slots)| && QueuedAt(d, snap, slots, clock, j).Some?
    ensures NQ.Pending(QueueAt(d, snap, slots, clock, k), QueuedAt(d, snap, slots, clock, j).value)
            || |QueueAt(d, snap, slots, clock, k)| >= NQ.DEPTH
    decreases k
  {
    hide NQ.Push, NQ.Pending, QueuedAt, Batch, NE.Valid, QueueAt;
    var queued := QueuedAt(d, snap, slots, clock, k - 1);
    NotifyQueues(d, snap, slots, clock, k - 1);
    if queued.Some? {
      NQ.PushAdds(QueueAt(d, snap, slots, clock, k - 1), queued.value, QueuedAt(d, snap, slots, clock, j).value);
    }
    if j < k - 1 {
      QueuedWaits(d, snap, slots, clock, j, k - 1);
    }
  }

  /** Whatever signal a poll adds was owed, at its type's priority; and what is owed
      waits afterwards, room permitting. */
  lemma VoicedExactly(d: Device, snap: AE.Snapshot, slots: nat, clock: nat -> Millis, n: NQ.Notification)
    requires Valid(d)
    ensures var queue, owed := Applied(d, snap, slots, clock).siren.queue,
                               Owed(d, snap, Batch(d, snap, slots), n.signal, n.kind);
            && d.siren.queue <= queue
            && (n in queue && n !in d.siren.queue ==> owed && n.priority == d.siren.profiles[n.kind].priority)
            && (owed ==> NQ.Pending(queue, n) || |queue| >= NQ.DEPTH)
  {
    hide NQ.Pending, Owed, QueuedAt, Batch, NotifyUpTo, Observed;
    var batch := Batch(d, snap, slots);
    QueueGrows(d, snap, slots, clock, |batch|, n);
    if Owed(d, snap, batch, n.signal, n.kind) {
      var k := OwedIsQueued(d, snap, slots, clock, n.signal, n.kind);
      QueuedWaits(d, snap, slots, clock, k, |batch|);
      KeyIsEnough(Applied(d, snap, slots, clock).siren.queue, n, NE.Signalled(d.siren, n.signal, n.kind));
    }
  }

  lemma KeyIsEnough(q: seq<NQ.Notification>, n: NQ.Notification, m: NQ.Notification)
    requires NQ.SameKey(n, m)
    ensures NQ.Pending(q, n) <==> NQ.Pending(q, m)
  {
  }

  /** Over a run from a location change on: with no start of an enabled type t waiting
      and room to spare, the poll that reports its start leaves one waiting exactly when
      t was not in every validated sample since the change, is not partial-only with the
      partial siren off, and is not half of a hand-over. */
  lemma StartIsVoicedExactly(d: Device, actions: seq<Action>, snap: AE.Snapshot, clock: nat -> Millis, t: AlertType)
    requires Valid(d) && Steady(d.policy.engine, actions) && RunFits(Refreshed(d), actions)
    requires var w := Run(Refreshed(d), actions);
             && !MoveDropped(w, snap, EVENT_SLOTS) && AE.Event(AE.Started, t) in Batch(w, snap, EVENT_SLOTS)
             && w.siren.profiles[t].enabled
             && !NQ.Pending(w.siren.queue, NE.Signalled(w.siren, NQ.Start, t))
             && |Applied(w, snap, EVENT_SLOTS, clock).siren.queue| < NQ.DEPTH
    ensures var w := Run(Refreshed(d), actions);
            NQ.Pending(Applied(w, snap, EVENT_SLOTS, clock).siren.queue, NE.Signalled(w.siren, NQ.Start, t))
            <==> && !AlwaysPresent(d.policy.engine, Samples(actions, EmptySnapshot()) + [snap], t)
                 && (w.policy.partialSiren || snap[t].coverage != Partial)
                 && (w.policy.quiet == 0 || !HandedOver(w, snap, Batch(w, snap, EVENT_SLOTS), t))
  {
    hide Run, Batch, Applied, AlwaysPresent, HandedOver, MoveDropped, RunFits, MarkedAlreadyActive;
    var w := Run(Refreshed(d), actions);
    var n := NE.Signalled(w.siren, NQ.Start, t);
    var after := Applied(w, snap, EVENT_SLOTS, clock).siren;
    AlreadyActiveExactly(d, actions, snap, t);
    VoicedExactly(w, snap, EVENT_SLOTS, clock, n);
    if NQ.Pending(after.queue, n) {
      var i :| 0 <= i < |after.queue| && NQ.SameKey(after.queue[i], n);
      VoicedExactly(w, snap, EVENT_SLOTS, clock, after.queue[i]);
      assert after.queue[i] !in w.siren.queue;
    }
  }

  // ---- no false all-clear -----------------------------------------------------------------------------

  /** What must hold of the types once an End for `t` may be queued. */
  ghost predicate AllClearFor(policy: Policy, types: AE.Statuses, t: AlertType) {
    if policy.quiet == 2 then AE.ActiveTypes(types) == {}
    else IsAir(t) ==> forall other: AlertType :: IsAir(other) && other != t ==> types[other].state != AE.Active
  }

  lemma EndedIsInactive(d: Device, snap: AE.Snapshot, slots: nat, t: AlertType)
    requires AE.Event(AE.Ended, t) in Batch(d, snap, slots)
    ensures t !in AE.ActiveTypes(AE.StepAll(d.policy.engine, d.types, snap))
  {
    TakenEvents(AE.AllEvents(d.policy.engine, d.types, snap), slots);
    ActiveAfter(d.policy.engine, d.types, snap, t);
  }

  /** An all-clear that a poll puts into the queue is true once the whole batch is
      applied: with quiet transitions between any types nothing at all is active,
      otherwise at least the other air-raid colour is not. */
  lemma NoFalseAllClear(d: Device, snap: AE.Snapshot, slots: nat, clock: nat -> Millis, n: NQ.Notification)
    requires Valid(d) && n.signal == NQ.End
    requires n in Applied(d, snap, slots, clock).siren.queue && n !in d.siren.queue
    ensures AllClearFor(d.policy, Applied(d, snap, slots, clock).types, n.kind)
  {
    hide AE.StepAll, Batch, NotifyUpTo, Observed;
    TypesAfterApply(d, snap, slots, clock);
    VoicedExactly(d, snap, slots, clock, n);
    EndedIsInactive(d, snap, slots, n.kind);
    var types := Applied(d, snap, slots, clock).types;
    forall other: AlertType | Rivals(d.policy, n.kind, other)
      ensures types[other].state != AE.Active
    {
      assert !ActiveThen(d, snap, other);
    }
    forall other: AlertType | d.policy.quiet == 2
      ensures other !in AE.ActiveTypes(types)
    {
      assert other == n.kind || Rivals(d.policy, n.kind, other);
    }
  }

  /** Conversely a real all-clear of an enabled type is queued, room permitting. */
  lemma TrueAllClearIsQueued(d: Device, snap: AE.Snapshot, slots: nat, clock: nat -> Millis, t: AlertType)
    requires Valid(d) && d.siren.profiles[t].enabled && AE.Event(AE.Ended, t) in Batch(d, snap, slots)
    requires AE.ActiveTypes(AE.StepAll(d.policy.engine, d.types, snap)) == {}
    ensures var queue := Applied(d, snap, slots, clock).siren.queue;
            NQ.Pending(queue, NE.Signalled(d.siren, NQ.End, t)) || |queue| >= NQ.DEPTH
  {
    VoicedExactly(d, snap, slots, clock, NE.Signalled(d.siren, NQ.End, t));
  }

  // ---- the loop over the events ---------------------------------------------------------------------

  class AlarmApp {
    const engine: AE.AlertEngine
    const notify: NE.NotificationEngine
    const preexisting: AE.PreexistingAlerts
    var policy: Policy
    var snapshot: AE.Snapshot

    ghost predicate Ready()
      reads this, engine, engine.types, preexisting
      reads notify, notify.profiles, notify.lastReminderAt, notify.queue, notify.queue.slots, notify.queue.seqs
      reads notify.sched, notify.mute
    {
      engine.Valid() && notify.Ready() && engine.cfg == policy.engine
    }

    ghost function State(): Device
      requires Ready()
      reads this, engine, engine.types, preexisting
      reads notify, notify.profiles, notify.lastReminderAt, notify.queue, notify.queue.slots, notify.queue.seqs
      reads notify.sched, notify.mute
    {
      Device(policy, engine.Now(), engine.synced, preexisting.mask, snapshot, notify.State())
    }

    constructor (policy: Policy, profiles: seq<NE.Profile>, cfg: NE.Config, muteCfg: NE.MuteConfig)
      requires |profiles| == TYPE_COUNT && forall t: AlertType :: NE.ValidProfile(profiles[t])
      ensures Ready() && MaskMatches(State()) && !State().synced && State().types == AllFresh()
      ensures fresh(engine) && fresh(engine.types) && fresh(preexisting)
      ensures fresh(notify) && fresh(notify.profiles) && fresh(notify.lastReminderAt) && fresh(notify.queue)
      ensures fresh(notify.queue.slots) && fresh(notify.queue.seqs) && fresh(notify.sched) && fresh(notify.mute)
    {
      this.policy := policy;
      engine := new AE.AlertEngine(policy.engine);
      notify := new NE.NotificationEngine(profiles, cfg, muteCfg);
      preexisting := new AE.PreexistingAlerts();
      snapshot := EmptySnapshot();
      new;
      assert AE.ActiveTypes(AllFresh()) == {};
    }

    /** `clock` is millis() as read at each event. */
    method ApplyAndNotify(snap: AE.Snapshot, clock: nat -> Millis)
      requires Ready() && notify.queue.nextSeq < NQ.SEQ_LIMIT - EVENT_SLOTS - 1
      modifies engine`synced, engine.types, preexisting, notify, notify.queue, notify.queue.slots, notify.queue.seqs
      modifies notify.sched, notify.mute, notify.lastReminderAt
      ensures Ready() && State() == Applied(old(State()), snap, EVENT_SLOTS, clock)
    {
      hide NotifyUpTo, AE.AllEvents, AE.StepAll, AE.Observed, NE.Valid;
      ghost var before := State();
      preexisting.Observe(policy.engine, snap, !engine.synced);
      var events := new AE.Event[EVENT_SLOTS](_ => AE.Event(AE.Ended, UNKNOWN));
      var n := engine.ApplySnapshot(snap, events);
      assert State() == Observed(before, snap);
      NotifyAll(events, n, clock);
    }

    method NotifyAll(events: array<AE.Event>, n: nat, clock: nat -> Millis)
      requires Ready() && n <= events.Length && notify.queue.nextSeq + n < NQ.SEQ_LIMIT - 1
      modifies preexisting, notify, notify.queue, notify.queue.slots, notify.queue.seqs
      modifies notify.sched, notify.mute, notify.lastReminderAt
      ensures Ready() && State() == NotifyUpTo(old(State()), old(events[..n]), n, clock)
    {
      hide Notify, NE.Valid, AE.ActiveTypes;
      ghost var batch := events[..n];
      for i := 0 to n
        invariant Ready() && events[..n] == batch
        invariant notify.queue.nextSeq <= old(notify.queue.nextSeq) + i
        invariant State() == NotifyUpTo(old(State()), batch, i, clock)
      {
        NotifyOne(events, n, i, clock(i));
      }
    }

    method NotifyOne(events: array<AE.Event>, n: nat, i: nat, now: Millis)
      requires Ready() && i < n <= events.Length && notify.queue.nextSeq < NQ.SEQ_LIMIT - 1
      modifies preexisting, notify, notify.queue, notify.queue.slots, notify.queue.seqs
      modifies notify.sched, notify.mute, notify.lastReminderAt
      ensures Ready() && notify.queue.nextSeq <= old(notify.queue.nextSeq) + 1
      ensures State() == Notify(old(State()), old(events[..n]), old(events[i]), now)
    {
      hide NE.OnEvent, Quiet, NE.Valid;
      var ev := events[i];
      var alreadyActive := false;
      if ev.kind == AE.Started {
        alreadyActive := preexisting.ConsumeStart(ev.alert);
      }
      var silent := IsQuiet(ev, events, n, alreadyActive);
      notify.OnEngineEvent(ev, silent, now);
    }

    method IsQuiet(ev: AE.Event, events: array<AE.Event>, n: nat, alreadyActive: bool) returns (silent: bool)
      requires Ready() && n <= events.Length
      ensures silent <==> Quiet(policy, engine.Now(), events[..n], ev, alreadyActive)
    {
      hide AE.Handover;
      silent := alreadyActive;
      if ev.kind == AE.Started && !policy.partialSiren && engine.types[ev.alert].coverage == Partial {
        silent := true;
      }
      if ev.kind == AE.Ended || policy.quiet != 0 {
        var handover := engine.IsHandover(ev, events, n, policy.quiet == 2);
        if handover {
          silent := true;
        }
      }
    }

    /** A failed poll leaves everything as it was. */
    method DoPoll(outcome: Outcome, clock: nat -> Millis)
      requires Ready() && notify.queue.nextSeq < NQ.SEQ_LIMIT - EVENT_SLOTS - 1
      modifies this`snapshot, engine`synced, engine.types, preexisting, notify, notify.queue, notify.queue.slots
      modifies notify.queue.seqs, notify.sched, notify.mute, notify.lastReminderAt
      ensures Ready() && State() == Polled(old(State()), outcome, clock)
    {
      match outcome {
        case Fresh(snap) =>
          snapshot := snap;
          ApplyAndNotify(snapshot, clock);
        case Same =>
          ApplyAndNotify(snapshot, clock);
        case Failed =>
      }
    }

    method RefreshLocations()
      requires Ready()
      modifies this`snapshot, engine`synced, engine.types, notify, notify.queue`count, notify.sched, notify.mute
      modifies notify.lastReminderAt
      ensures Ready() && State() == Refreshed(old(State()))
    {
      notify.Reset();
      engine.Reset();
      snapshot := EmptySnapshot();
    }
  }
}
