/** One device and the proxy in one run: the device's polls are requests the proxy
    answers, with everyone else's requests and the proxy's writes in between. */
module BothEnds {
  import opened Types
  import opened Catalogue
  import opened SnapshotBuilders
  import opened AlertsParsers
  import opened ProxyState
  import opened ProxyFilter
  import Webhooks
  import AC = AlertsClients
  import PS = ProxyStore

  /** The proxy's URL, the catalogue of both ends, and how a stamp is written as an
      HTTP date. */
  datatype Env = Env(proxy: string, states: seq<Region>, table: seq<Location>, date: int -> string)

  ghost predicate ValidEnv(env: Env) {
    && Ranked(Walk(env.states, None, 0))
    && (forall a, b :: env.date(a) == env.date(b) ==> a == b)
    && forall a :: env.date(a) != ""
  }

  /** How our device appears to the proxy. */
  const DEVICE := PS.Client(0, true)

  datatype Joint = Joint(d: AC.Device, w: PS.World<seq<Entry>>)

  /** What becomes of a reply on its way: read to its end, cut off after some
      entries, no list at all, or never received. */
  datatype Fate = Whole | Cut(entries: nat) | Garbled | Lost

  /** The device waits for its reply, so settings change only between polls. */
  datatype Event =
    | Proxy(step: PS.Step<seq<Entry>>)
    | Setting(op: AC.Op)
    | Send
    | ReadStamp
    | Receive(worker: PS.Worker, fate: Fate)
    | Refused(reply: AC.Reply)
    | Elsewhere(reply: AC.Reply)

  predicate ByDevice(step: PS.Step<seq<Entry>>) {
    match step
    case WriteBody(_, _) => false
    case WriteStamp => false
    case _ => step.client == DEVICE
  }

  ghost predicate Enabled(env: Env, j: Joint, e: Event) {
    var waiting := DEVICE in j.w.asked;
    match e
    case Proxy(step) => PS.Enabled(j.w, step) && !ByDevice(step)
    case Setting(op) => !waiting && !op.Poll?
    case Send => !waiting && j.d.url == env.proxy && j.d.selected != [] && PS.Enabled(j.w, PS.Ask(DEVICE))
    case ReadStamp => PS.Enabled(j.w, PS.ReadStamp(DEVICE))
    case Receive(worker, _) => PS.Enabled(j.w, PS.AnswerFiltered(DEVICE, worker))
    case Refused(reply) => !waiting && !reply.Full? && !reply.NotModified?
    case Elsewhere(_) => !waiting && j.d.url != env.proxy
  }

  /** The list the proxy sends for the regions text the device sent. */
  ghost function Served(env: Env, regions: string, stored: seq<Entry>): seq<Entry>
    requires ValidEnv(env)
  {
    match IdsOf(Some(regions))
    case Filter(ids) => Kept(stored, ids, Walk(env.states, None, 0))
    case _ => stored
  }

  function BodyAt(bodies: seq<seq<Entry>>, version: nat): seq<Entry> {
    if version < |bodies| then bodies[version] else []
  }

  /** The date the device sent is the one its reply would carry. */
  predicate Told304(env: Env, j: Joint) {
    j.w.stamps != [] && j.d.lastModified == env.date(PS.Validator(j.w, DEVICE))
  }

  /** The proxy's side forgets what the device no longer has. */
  ghost function With(d: AC.Device, w: PS.World<seq<Entry>>): Joint {
    Joint(d, if d.valid then w else PS.Next(w, PS.Forget(DEVICE)))
  }

  ghost function Next(env: Env, j: Joint, e: Event): Joint
    requires ValidEnv(env) && Enabled(env, j, e)
  {
    match e
    case Proxy(step) => j.(w := PS.Next(j.w, step))
    case Setting(op) => With(AC.Next(env.table, j.d, op), j.w)
    case Send =>
      if Told304(env, j) then j.(d := AC.Polled(env.table, j.d, AC.NotModified))
      else j.(w := j.w.(asked := j.w.asked[DEVICE := PS.Asked(PS.Validator(j.w, DEVICE), None)]))
    case ReadStamp => j.(w := PS.Next(j.w, PS.ReadStamp(DEVICE)))
    case Receive(worker, fate) => Received(env, j, worker, fate)
    case Refused(reply) => j.(d := AC.Polled(env.table, j.d, reply))
    case Elsewhere(reply) => j.(d := AC.Polled(env.table, j.d, reply))
  }

  ghost function Received(env: Env, j: Joint, worker: PS.Worker, fate: Fate): Joint
    requires ValidEnv(env) && PS.Enabled(j.w, PS.AnswerFiltered(DEVICE, worker))
  {
    var w := PS.Next(j.w, PS.AnswerFiltered(DEVICE, worker));
    var body := Served(env, j.d.regions, BodyAt(j.w.bodies, w.held[DEVICE].version));
    var date := env.date(j.w.asked[DEVICE].stamp);
    match fate
    case Whole => With(AC.Polled(env.table, j.d, AC.Full(date, AC.Complete(body))), w)
    case Cut(n) =>
      With(AC.Polled(env.table, j.d, AC.Full(date, AC.BrokenOff(body[..if n < |body| then n else |body|]))), w)
    case Garbled => With(AC.Polled(env.table, j.d, AC.Full(date, AC.NotAnArray)), w)
    case Lost => Joint(AC.Polled(env.table, j.d, AC.NetError), PS.Next(j.w, PS.Lose(DEVICE)))
  }

  // ---- what every event keeps -------------------------------------------------------------------

  /** Date and snapshot of the device are those of the reply the proxy made for it. */
  ghost predicate Stands(env: Env, j: Joint)
    requires ValidEnv(env) && DEVICE in j.w.held
  {
    var held := j.w.held[DEVICE];
    && j.d.selected != [] && j.d.lastModified == env.date(held.stamp) && held.version < |j.w.bodies|
    && j.d.view == ViewOf(env.table, j.d.selected,
                          AlertsIn(Kept(j.w.bodies[held.version], ShowAll(Uids(j.d.selected)),
                                        Walk(env.states, None, 0))))
  }

  ghost predicate Inv(env: Env, j: Joint)
    requires ValidEnv(env)
  {
    && PS.Inv(j.w) && AC.Coherent(j.d)
    && (j.d.url != env.proxy ==> DEVICE !in j.w.held && DEVICE !in j.w.asked)
    && (j.d.url == env.proxy ==> (j.d.valid <==> DEVICE in j.w.held))
    && (DEVICE in j.w.held ==> Stands(env, j))
    && (DEVICE in j.w.asked ==> j.d.selected != [])
  }

  lemma ProxyKeepsInv(env: Env, j: Joint, step: PS.Step<seq<Entry>>)
    requires ValidEnv(env) && Inv(env, j) && Enabled(env, j, Proxy(step))
    ensures Inv(env, Next(env, j, Proxy(step)))
  {
    hide ViewOf, AlertsIn, Kept, Walk, PS.Inv, AC.Coherent, ValidEnv;
    PS.StepKeepsInv(j.w, step);
    var w := PS.Next(j.w, step);
    assert (DEVICE in w.held <==> DEVICE in j.w.held) && (DEVICE in w.asked <==> DEVICE in j.w.asked);
    if DEVICE in j.w.held {
      assert w.held[DEVICE] == j.w.held[DEVICE];
      assert j.w.bodies <= w.bodies;
    }
  }

  lemma SettingKeepsInv(env: Env, j: Joint, op: AC.Op)
    requires ValidEnv(env) && Inv(env, j) && Enabled(env, j, Setting(op))
    ensures Inv(env, Next(env, j, Setting(op)))
  {
    hide ViewOf, AlertsIn, Kept, Walk, PS.Inv, AC.Coherent, AC.Next, ValidEnv;
    AC.OpKeeps(env.table, j.d, op);
    if AC.Next(env.table, j.d, op).valid {
      AC.KeepsOrDrops(env.table, j.d, op);
    } else {
      PS.StepKeepsInv(j.w, PS.Forget(DEVICE));
    }
  }

  /** The proxy compares dates, which is comparing stamps. */
  lemma DateIsStamp(env: Env, j: Joint)
    requires ValidEnv(env) && Inv(env, j) && j.d.url == env.proxy && j.w.stamps != []
    ensures Told304(env, j) <==> PS.Answers304(j.w, DEVICE)
    ensures Told304(env, j) ==> j.d.valid
  {
    hide ViewOf, AlertsIn, Kept, Walk, PS.Inv;
  }

  lemma SendKeepsInv(env: Env, j: Joint)
    requires ValidEnv(env) && Inv(env, j) && Enabled(env, j, Send)
    ensures Inv(env, Next(env, j, Send))
  {
    hide ViewOf, AlertsIn, Kept, Walk, PS.Inv, AC.Coherent, Told304, ValidEnv, Stands;
    DateIsStamp(env, j);
    if !Told304(env, j) {
      PS.StepKeepsInv(j.w, PS.Ask(DEVICE));
      var after := Next(env, j, Send);
      assert after.w == PS.Next(j.w, PS.Ask(DEVICE));
      assert DEVICE in j.w.held ==> Stands(env, after) by {
        StandsOn(env, j, after);
      }
    }
  }

  lemma StandsOn(env: Env, j: Joint, after: Joint)
    requires ValidEnv(env) && (DEVICE in j.w.held ==> Stands(env, j))
    requires after.d == j.d && after.w.held == j.w.held && after.w.bodies == j.w.bodies
    ensures DEVICE in j.w.held ==> Stands(env, after)
  {
    hide ViewOf, AlertsIn, Kept, Walk;
  }

  lemma ReadStampKeepsInv(env: Env, j: Joint)
    requires ValidEnv(env) && Inv(env, j) && Enabled(env, j, ReadStamp)
    ensures Inv(env, Next(env, j, ReadStamp))
  {
    hide ViewOf, AlertsIn, Kept, Walk, PS.Inv, AC.Coherent, ValidEnv, Stands;
    PS.StepKeepsInv(j.w, PS.ReadStamp(DEVICE));
    StandsOn(env, j, Next(env, j, ReadStamp));
  }

  /** The regions the device sends come back as the list of its selection. */
  lemma ServedIsKept(env: Env, d: AC.Device, stored: seq<Entry>)
    requires ValidEnv(env) && AC.Coherent(d) && d.selected != []
    ensures Served(env, d.regions, stored) == Kept(stored, ShowAll(Uids(d.selected)), Walk(env.states, None, 0))
  {
    hide Kept, Walk, ShowAll, Join, IdsOf;
    RegionsRoundTrip(Uids(d.selected));
  }

  lemma ReceiveKeepsInv(env: Env, j: Joint, worker: PS.Worker, fate: Fate)
    requires ValidEnv(env) && Inv(env, j) && Enabled(env, j, Receive(worker, fate))
    ensures Inv(env, Received(env, j, worker, fate))
  {
    hide ViewOf, AlertsIn, Kept, Walk, PS.Inv, ValidEnv, Served, PS.CopyOf;
    var w := PS.Next(j.w, PS.AnswerFiltered(DEVICE, worker));
    PS.StepKeepsInv(j.w, PS.AnswerFiltered(DEVICE, worker));
    if fate.Whole? {
      PS.HeldExists(w, DEVICE);
      ServedIsKept(env, j.d, BodyAt(j.w.bodies, w.held[DEVICE].version));
    } else if fate.Lost? {
      PS.StepKeepsInv(j.w, PS.Lose(DEVICE));
    } else {
      PS.StepKeepsInv(w, PS.Forget(DEVICE));
    }
  }

  lemma StepKeepsInv(env: Env, j: Joint, e: Event)
    requires ValidEnv(env) && Inv(env, j) && Enabled(env, j, e)
    ensures Inv(env, Next(env, j, e))
  {
    hide ViewOf, AlertsIn, Kept, Walk, PS.Inv, ValidEnv, Received, Stands;
    match e
    case Proxy(step) => ProxyKeepsInv(env, j, step);
    case Setting(op) => SettingKeepsInv(env, j, op);
    case Send => SendKeepsInv(env, j);
    case ReadStamp => ReadStampKeepsInv(env, j);
    case Receive(worker, fate) => ReceiveKeepsInv(env, j, worker, fate);
    case Refused(reply) =>
    case Elsewhere(reply) =>
  }

  ghost predicate RunEnabled(env: Env, j: Joint, events: seq<Event>)
    requires ValidEnv(env)
    decreases |events|
  {
    events == [] || (Enabled(env, j, events[0]) && RunEnabled(env, Next(env, j, events[0]), events[1..]))
  }

  ghost function Run(env: Env, j: Joint, events: seq<Event>): Joint
    requires ValidEnv(env) && RunEnabled(env, j, events)
    decreases |events|
  {
    if events == [] then j else Run(env, Next(env, j, events[0]), events[1..])
  }

  lemma {:induction false} RunKeepsInv(env: Env, j: Joint, events: seq<Event>)
    requires ValidEnv(env) && Inv(env, j) && RunEnabled(env, j, events)
    ensures Inv(env, Run(env, j, events))
    decreases |events|
  {
    hide ValidEnv, Inv, Next, Enabled;
    if events != [] {
      StepKeepsInv(env, j, events[0]);
      RunKeepsInv(env, Next(env, j, events[0]), events[1..]);
    }
  }

  // ---- 304 across both ends -----------------------------------------------------------------------

  /** Every stored list was left by the upstream or by webhooks over it. */
  ghost predicate AllSound(bodies: seq<seq<Entry>>) {
    forall i :: 0 <= i < |bodies| ==> Webhooks.Twins(bodies[i]) && CanonicalAlerts(bodies[i])
  }

  /** The device's snapshot is the aggregate of the stored list, or, while a change
      is half written, of the one it is just replacing. */
  ghost predicate SeesStored(env: Env, j: Joint) {
    var bodies := j.w.bodies;
    && bodies != []
    && (|| j.d.view == ViewOf(env.table, j.d.selected, AlertsIn(PS.Last(bodies)))
        || (j.w.writing.Some? && 2 <= |bodies|
            && j.d.view == ViewOf(env.table, j.d.selected, AlertsIn(bodies[|bodies| - 2]))))
  }

  ghost function Powered(env: Env, regionsAt: int, token: string, url: string, sel: seq<Location>): Joint {
    Joint(AC.Booted(env.table, token, url, sel), PS.Start(regionsAt))
  }

  /** From power-on and over every run of both: whenever the proxy would answer the
      device's poll with 304 after a change newer than the catalogue, the device
      accepts it, and its snapshot is the aggregate of everything stored. */
  lemma NotModifiedAcrossBothEnds(env: Env, regionsAt: int, token: string, url: string, sel: seq<Location>,
                                  events: seq<Event>)
    requires ValidEnv(env) && |sel| <= MAX_SELECTED
    requires RunEnabled(env, Powered(env, regionsAt, token, url, sel), events)
    ensures var j := Run(env, Powered(env, regionsAt, token, url, sel), events);
            Enabled(env, j, Send) && Told304(env, j) && PS.Settled(j.w, DEVICE)
            && SharedCatalogue(env.states, env.table, j.d.selected) && AllSound(j.w.bodies)
            ==> AC.Outcome(j.d, AC.NotModified) == AC.Unchanged && SeesStored(env, j)
  {
    hide ViewOf, AlertsIn, Kept, Walk, ValidEnv, RunEnabled, Run, PS.Inv, Enabled, SharedCatalogue, AllSound;
    var start := Powered(env, regionsAt, token, url, sel);
    var j := Run(env, start, events);
    AC.BootIsGood(env.table, token, url, sel);
    PS.StartIsGood<seq<Entry>>(regionsAt);
    RunKeepsInv(env, start, events);
    if Enabled(env, j, Send) && Told304(env, j) && PS.Settled(j.w, DEVICE)
       && SharedCatalogue(env.states, env.table, j.d.selected) && AllSound(j.w.bodies)
    {
      assert j.d.url == env.proxy by {
        assert Enabled(env, j, Send);
        SendUrl(env, j);
      }
      DateIsStamp(env, j);
      PS.NotModifiedIsTrue(j.w, DEVICE);
      StoredIsSeen(env, j, j.w.bodies[j.w.held[DEVICE].version]);
    }
  }

  lemma SendUrl(env: Env, j: Joint)
    requires Enabled(env, j, Send)
    ensures j.d.url == env.proxy
  {
  }

  lemma StoredIsSeen(env: Env, j: Joint, stored: seq<Entry>)
    requires ValidEnv(env) && SharedCatalogue(env.states, env.table, j.d.selected) && AllSound(j.w.bodies)
    requires stored in j.w.bodies
    requires j.d.view == ViewOf(env.table, j.d.selected, AlertsIn(Kept(stored, ShowAll(Uids(j.d.selected)),
                                                                       Walk(env.states, None, 0))))
    ensures j.d.view == ViewOf(env.table, j.d.selected, AlertsIn(stored))
  {
    hide ViewOf, AlertsIn, Kept, Walk, ValidEnv, UniqueTree, CanonicalTree, GeneratedFrom, Carries;
    hide Webhooks.Twins, CanonicalAlerts;
    FilterIsLossless(env.states, env.table, j.d.selected, stored);
  }
}
