/** From the replies of the API to the types that are active: the poller, the
    snapshot builder and the alarm as main.cpp puts them together. */
module Firmware {
  import opened Types
  import opened Clock
  import opened Catalogue
  import opened SnapshotBuilders
  import opened AlertsParsers
  import opened ProxyState
  import opened ProxyFilter
  import Webhooks
  import AE = AlertEngines
  import NE = NotificationEngines
  import NQ = NotificationQueues
  import AC = AlertsClients
  import Alarm

  // ---- what a run of replies supplies -----------------------------------------------------------

  /** The body a 304 may stand for: the last one read to its end, unless one broke
      off since. */
  function Standing(cached: Option<seq<Entry>>, reply: AC.Reply): Option<seq<Entry>> {
    match reply
    case Full(_, Complete(entries)) => Some(entries)
    case Full(_, _) => None
    case _ => cached
  }

  /** A poll with the reply it brought and the clock as its events read it, or
      whatever else drives the siren between polls. */
  datatype Event = Polled(reply: AC.Reply, clock: nat -> Millis) | Between(op: NE.Op)

  predicate ValidEvents(events: seq<Event>) {
    forall k :: 0 <= k < |events| && events[k].Between? ==> Alarm.ValidAction(Alarm.SirenOp(events[k].op))
  }

  /** The bodies that count as samples, one for each 200 read to its end and each
      304 with a body behind it. */
  function Sampled(cached: Option<seq<Entry>>, events: seq<Event>): seq<seq<Entry>>
    decreases |events|
  {
    if events == [] then []
    else if events[0].Between? then Sampled(cached, events[1..])
    else
      var reply := events[0].reply;
      var now := Standing(cached, reply);
      (if now.Some? && (reply.Full? || reply.NotModified?) then [now.value] else []) + Sampled(now, events[1..])
  }

  function OutcomeOf(kind: AC.Kind, view: View): Alarm.Outcome
    requires Shaped(view)
  {
    if kind == AC.Fresh then Alarm.Fresh(view.inputs)
    else if kind == AC.Unchanged then Alarm.Same
    else Alarm.Failed
  }

  ghost predicate Good(d: AC.Device) {
    Shaped(d.view)
  }

  /** What the alarm is put through. */
  ghost function Actions(table: seq<Location>, d: AC.Device, events: seq<Event>): (actions: seq<Alarm.Action>)
    requires Good(d)
    ensures |actions| == |events|
    decreases |events|
  {
    if events == [] then []
    else
      match events[0]
      case Between(op) => [Alarm.SirenOp(op)] + Actions(table, d, events[1..])
      case Polled(reply, clock) =>
        var next := AC.Polled(table, d, reply);
        [Alarm.Poll(OutcomeOf(AC.Outcome(d, reply), next.view), clock)] + Actions(table, next, events[1..])
  }

  lemma {:induction false} ActionsAreSteady(cfg: AE.Config, table: seq<Location>, d: AC.Device, events: seq<Event>)
    requires Good(d) && ValidEvents(events)
    ensures Alarm.Steady(cfg, Actions(table, d, events))
    decreases |events|
  {
    hide AC.Polled;
    if events != [] {
      var actions, rest := Actions(table, d, events), events[1..];
      var next := if events[0].Polled? then AC.Polled(table, d, events[0].reply) else d;
      assert ValidEvents(rest) by {
        assert forall k :: 0 <= k < |rest| ==> rest[k] == events[k + 1];
      }
      PolledIsGood(table, d, if events[0].Polled? then events[0].reply else AC.NetError);
      ActionsAreSteady(cfg, table, next, rest);
      assert actions == [actions[0]] + Actions(table, next, rest);
    }
  }

  lemma PolledIsGood(table: seq<Location>, d: AC.Device, reply: AC.Reply)
    requires Good(d)
    ensures Good(AC.Polled(table, d, reply)) && AC.Polled(table, d, reply).selected == d.selected
  {
    hide ViewOf, AlertsIn;
  }

  ghost function Pictures(table: seq<Location>, sel: seq<Location>, bodies: seq<seq<Entry>>): (s: seq<AE.Snapshot>)
    ensures |s| == |bodies|
  {
    seq(|bodies|, k requires 0 <= k < |bodies| => Aggregate(table, sel, AlertsIn(bodies[k])))
  }

  /** The device stands on `cached` and the alarm's snapshot is its aggregate. */
  ghost predicate StandsOn(table: seq<Location>, d: AC.Device, cached: Option<seq<Entry>>, snapshot: AE.Snapshot) {
    && (d.valid <==> cached.Some?)
    && (cached.Some? ==> snapshot == Aggregate(table, d.selected, AlertsIn(cached.value)))
  }

  lemma {:induction false} SamplesAreBodies(table: seq<Location>, d: AC.Device, cached: Option<seq<Entry>>,
                                            snapshot: AE.Snapshot, events: seq<Event>)
    requires Good(d) && StandsOn(table, d, cached, snapshot)
    ensures Alarm.Samples(Actions(table, d, events), snapshot)
            == Pictures(table, d.selected, Sampled(cached, events))
    decreases |events|
  {
    hide Aggregate, AlertsIn, AC.Polled, AC.Outcome, StandsOn;
    if events != [] {
      var actions, rest := Actions(table, d, events), events[1..];
      if events[0].Between? {
        SamplesAreBodies(table, d, cached, snapshot, rest);
        assert actions[1..] == Actions(table, d, rest);
      } else {
        var reply := events[0].reply;
        var next, now := AC.Polled(table, d, reply), Standing(cached, reply);
        PolledIsGood(table, d, reply);
        var outcome := OutcomeOf(AC.Outcome(d, reply), next.view);
        var snap := if outcome.Fresh? then outcome.snap else snapshot;
        PolledStands(table, d, cached, snapshot, reply);
        SamplesAreBodies(table, next, now, snap, rest);
        assert actions[0].outcome == outcome && actions[1..] == Actions(table, next, rest);
        if !outcome.Failed? {
          PicturesCons(table, d.selected, now.value, Sampled(now, rest));
        }
      }
    }
  }

  lemma PicturesCons(table: seq<Location>, sel: seq<Location>, body: seq<Entry>, rest: seq<seq<Entry>>)
    ensures Pictures(table, sel, [body] + rest)
            == [Aggregate(table, sel, AlertsIn(body))] + Pictures(table, sel, rest)
  {
    hide Aggregate, AlertsIn;
  }

  lemma PolledStands(table: seq<Location>, d: AC.Device, cached: Option<seq<Entry>>, snapshot: AE.Snapshot,
                     reply: AC.Reply)
    requires Good(d) && StandsOn(table, d, cached, snapshot)
    ensures var next, now := AC.Polled(table, d, reply), Standing(cached, reply);
            var outcome := OutcomeOf(AC.Outcome(d, reply), next.view);
            && Good(next) && next.selected == d.selected
            && StandsOn(table, next, now, if outcome.Fresh? then outcome.snap else snapshot)
            && (outcome.Failed? <==> !(now.Some? && (reply.Full? || reply.NotModified?)))
            && (!outcome.Failed? ==> (if outcome.Fresh? then outcome.snap else snapshot)
                                     == Aggregate(table, d.selected, AlertsIn(now.value)))
  {
    hide Aggregate, AlertsIn;
  }

  // ---- what makes a type present --------------------------------------------------------------------

  /** Some alert of the type is at a selected location or a parent of one, or
      (where partial coverage counts) inside one. */
  ghost predicate Concerned(table: seq<Location>, sel: seq<Location>, body: seq<Entry>, t: AlertType,
                            partialCounts: bool)
  {
    exists a, i ::
      && a in AlertsIn(body) && a.kind == t && 0 <= i < |sel|
      && (Match(table, sel[i], a.uid) == Full || (partialCounts && Match(table, sel[i], a.uid) == Partial))
  }

  ghost function Concerns(table: seq<Location>, sel: seq<Location>, bodies: seq<seq<Entry>>, t: AlertType,
                          partialCounts: bool): (p: seq<bool>)
    ensures |p| == |bodies|
  {
    seq(|bodies|, k requires 0 <= k < |bodies| => Concerned(table, sel, bodies[k], t, partialCounts))
  }

  lemma PresenceIsConcern(cfg: AE.Config, table: seq<Location>, sel: seq<Location>, body: seq<Entry>, t: AlertType)
    ensures AE.Present(cfg, Aggregate(table, sel, AlertsIn(body))[t])
            <==> Concerned(table, sel, body, t, cfg.partialActive)
  {
    hide AlertsIn, Match;
    var alerts := AlertsIn(body);
    var pairs := Matched(table, sel, alerts);
    var mine := SnapshotBuilders.OfType(pairs, t);
    assert Aggregate(table, sel, alerts)[t].coverage == Greatest(table, sel, mine);
    if Concerned(table, sel, body, t, cfg.partialActive) {
      var a, i :| a in alerts && a.kind == t && 0 <= i < |sel|
        && (Match(table, sel[i], a.uid) == Full || (cfg.partialActive && Match(table, sel[i], a.uid) == Partial));
      assert (i, a) in mine && CoverageOf(table, sel, (i, a)) == Match(table, sel[i], a.uid);
    }
    if AE.Present(cfg, Aggregate(table, sel, alerts)[t]) {
      var p :| p in mine && (Greatest(table, sel, mine) == Full ==> CoverageOf(table, sel, p) == Full);
      assert p.1 in alerts && p.1.kind == t && 0 <= p.0 < |sel|;
      assert CoverageOf(table, sel, p) != NoCoverage;
    }
  }

  lemma PicturesAreConcerns(cfg: AE.Config, table: seq<Location>, sel: seq<Location>, bodies: seq<seq<Entry>>,
                            t: AlertType)
    ensures AE.PresentAt(cfg, Alarm.OfType(Pictures(table, sel, bodies), t))
            == Concerns(table, sel, bodies, t, cfg.partialActive)
  {
    hide Aggregate, Concerned, AE.Present;
    forall k | 0 <= k < |bodies|
      ensures AE.Present(cfg, Pictures(table, sel, bodies)[k][t])
              <==> Concerned(table, sel, bodies[k], t, cfg.partialActive)
    {
      PresenceIsConcern(cfg, table, sel, bodies[k], t);
    }
  }

  /** After a location change and any run of polls, ticks, mutes, tests and stops: a
      type is active exactly when some s samples in a row concerned the selection and
      no e samples in a row since did not, where only whole 200 bodies and the 304s
      that stand for them are samples. */
  lemma ActiveExactly(alarm: Alarm.Device, table: seq<Location>, d: AC.Device, events: seq<Event>, t: AlertType)
    requires Alarm.Valid(alarm) && Good(d) && !d.valid && ValidEvents(events)
    ensures Alarm.Steady(alarm.policy.engine, Actions(table, d, events))
    ensures var cfg := alarm.policy.engine;
            t in AE.ActiveTypes(Alarm.Run(Alarm.Refreshed(alarm), Actions(table, d, events)).types)
            <==> AE.Confirmed(Concerns(table, d.selected, Sampled(None, events), t, cfg.partialActive),
                              AE.Needed(cfg.startConfirmations), AE.Needed(cfg.endConfirmations))
  {
    hide AE.Confirmed, Alarm.Run, Actions, Sampled, Alarm.Refreshed, Aggregate, Concerns, AE.PresentAt, Pictures;
    var cfg := alarm.policy.engine;
    ActionsAreSteady(cfg, table, d, events);
    SamplesAreBodies(table, d, None, Alarm.EmptySnapshot(), events);
    Alarm.ActiveAfterRun(alarm, Actions(table, d, events), t);
    PicturesAreConcerns(cfg, table, d.selected, Sampled(None, events), t);
  }

  /** An end is reported only on e samples in a row that did not concern the
      selection: whole bodies, the last of them the one just received. */
  lemma EndedNeedsQuietBodies(alarm: Alarm.Device, table: seq<Location>, d: AC.Device, events: seq<Event>,
                          body: seq<Entry>, t: AlertType)
    requires Alarm.Valid(alarm) && Good(d) && !d.valid && ValidEvents(events)
    ensures Alarm.Steady(alarm.policy.engine, Actions(table, d, events))
    ensures var cfg, snap := alarm.policy.engine, Aggregate(table, d.selected, AlertsIn(body));
            AE.Event(AE.Ended, t) in Alarm.Batch(Alarm.Run(Alarm.Refreshed(alarm), Actions(table, d, events)), snap,
                                                 Alarm.EVENT_SLOTS)
            ==> var p := Concerns(table, d.selected, Sampled(None, events) + [body], t, cfg.partialActive);
                AE.RunBefore(p, |p|, AE.Needed(cfg.endConfirmations), false)
  {
    hide AE.RunBefore, Alarm.Run, Actions, Sampled, Aggregate, Concerns, AE.PresentAt, Alarm.Batch;
    hide AlertsIn;
    var cfg, snap := alarm.policy.engine, Aggregate(table, d.selected, AlertsIn(body));
    var bodies := Sampled(None, events);
    ActionsAreSteady(cfg, table, d, events);
    SamplesAreBodies(table, d, None, Alarm.EmptySnapshot(), events);
    PicturesSnoc(table, d.selected, bodies, body);
    PicturesAreConcerns(cfg, table, d.selected, bodies + [body], t);
    var actions := Actions(table, d, events);
    assert forall i :: 0 <= i < |actions| ==> Alarm.SteadyAction(cfg, actions[i]) && Alarm.ValidAction(actions[i]);
    if AE.Event(AE.Ended, t) in Alarm.Batch(Alarm.Run(Alarm.Refreshed(alarm), actions), snap, Alarm.EVENT_SLOTS) {
      Alarm.EndedAfterRun(alarm, actions, snap, t);
    }
  }

  lemma PicturesSnoc(table: seq<Location>, sel: seq<Location>, bodies: seq<seq<Entry>>, body: seq<Entry>)
    ensures Pictures(table, sel, bodies + [body])
            == Pictures(table, sel, bodies) + [Aggregate(table, sel, AlertsIn(body))]
  {
    hide Aggregate, AlertsIn;
  }

  // ---- the proxy changes nothing ------------------------------------------------------------------------

  /** Any whole body the upstream or the webhooks may leave stored. */
  ghost predicate Servable(reply: AC.Reply) {
    reply.Full? && reply.body.Complete? ==>
      Webhooks.Twins(reply.body.entries) && CanonicalAlerts(reply.body.entries)
  }

  /** The same reply as the proxy would trim it for this selection. */
  ghost function Trimmed(states: seq<Region>, sel: seq<Location>, reply: AC.Reply): AC.Reply
    requires Ranked(Walk(states, None, 0))
  {
    if reply.Full? && reply.body.Complete? then
      reply.(body := AC.Complete(Kept(reply.body.entries, ShowAll(Uids(sel)), Walk(states, None, 0))))
    else reply
  }

  ghost function AllTrimmed(states: seq<Region>, sel: seq<Location>, events: seq<Event>): (r: seq<Event>)
    requires Ranked(Walk(states, None, 0))
    ensures |r| == |events|
  {
    seq(|events|, k requires 0 <= k < |events| =>
      if events[k].Polled? then events[k].(reply := Trimmed(states, sel, events[k].reply)) else events[k])
  }

  lemma TrimmedPollIsSame(states: seq<Region>, table: seq<Location>, d: AC.Device, reply: AC.Reply)
    requires SharedCatalogue(states, table, d.selected) && Servable(reply)
    ensures AC.Polled(table, d, Trimmed(states, d.selected, reply)) == AC.Polled(table, d, reply)
    ensures AC.Outcome(d, Trimmed(states, d.selected, reply)) == AC.Outcome(d, reply)
  {
    hide ViewOf, AlertsIn, Kept, GeneratedFrom, UniqueTree, CanonicalTree, Webhooks.Twins, CanonicalAlerts;
    if reply.Full? && reply.body.Complete? {
      FilterIsLossless(states, table, d.selected, reply.body.entries);
    }
  }

  /** Over every run the trimmed replies put the alarm through exactly what the full
      ones would, and so lead to the same alarms. */
  lemma {:induction false} ProxyChangesNothing(states: seq<Region>, table: seq<Location>, d: AC.Device,
                                               events: seq<Event>)
    requires Good(d) && SharedCatalogue(states, table, d.selected)
    requires forall k :: 0 <= k < |events| && events[k].Polled? ==> Servable(events[k].reply)
    ensures Actions(table, d, AllTrimmed(states, d.selected, events)) == Actions(table, d, events)
    decreases |events|
  {
    hide Servable, ViewOf, AlertsIn, Kept, Walk, UniqueTree, CanonicalTree, GeneratedFrom, Ranked, Carries;
    hide AC.Polled, AC.Outcome, Trimmed;
    if events != [] {
      var trimmed, rest := AllTrimmed(states, d.selected, events), events[1..];
      assert trimmed[1..] == AllTrimmed(states, d.selected, rest);
      assert forall k :: 0 <= k < |rest| ==> rest[k] == events[k + 1];
      if events[0].Polled? {
        PolledIsGood(table, d, events[0].reply);
        TrimmedPollIsSame(states, table, d, events[0].reply);
        ProxyChangesNothing(states, table, AC.Polled(table, d, events[0].reply), rest);
      } else {
        ProxyChangesNothing(states, table, d, rest);
      }
    }
  }

  // ---- the poll itself --------------------------------------------------------------------------------------

  class Poller {
    const client: AC.AlertsClient
    const builder: SnapshotBuilder
    const app: Alarm.AlarmApp

    constructor (client: AC.AlertsClient, builder: SnapshotBuilder, app: Alarm.AlarmApp)
      ensures this.client == client && this.builder == builder && this.app == app
    {
      this.client, this.builder, this.app := client, builder, app;
    }

    /** doPoll: the reply goes through the client into the builder, and what the
        builder holds then is what the alarm applies, or nothing. */
    method DoPoll(reply: AC.Reply, clock: nat -> Millis)
      requires builder.Valid() && app.Ready() && app.notify.queue.nextSeq < NQ.SEQ_LIMIT - Alarm.EVENT_SLOTS - 1
      modifies client, builder.inputs, builder.matchedMask, builder.cells
      modifies app`snapshot, app.engine`synced, app.engine.types, app.preexisting, app.notify, app.notify.queue
      modifies app.notify.queue.slots, app.notify.queue.seqs, app.notify.sched, app.notify.mute
      modifies app.notify.lastReminderAt
      ensures builder.Valid() && app.Ready()
      ensures client.State(builder) == AC.Polled(builder.table, old(client.State(builder)), reply)
      ensures app.State()
              == Alarm.Polled(old(app.State()),
                              OutcomeOf(AC.Outcome(old(client.State(builder)), reply), builder.State()), clock)
    {
      hide Alarm.Polled, ViewOf, Alarm.Applied;
      var kind := client.Poll(builder, reply);
      var outcome := Alarm.Failed;
      if kind == AC.Fresh {
        outcome := Alarm.Fresh(builder.inputs[..]);
      } else if kind == AC.Unchanged {
        outcome := Alarm.Same;
      }
      app.DoPoll(outcome, clock);
    }
  }
}
