/** The proxy's stored list and its validators (proxy.lua): Last-Modified stamps,
    the two ordered writes of a change, the per-worker copies, and 304 replies
    (RFC 9110, sections 8.8.2, 13.1.3 and 15.4.5). */
module ProxyStore {
  import opened Types
  import opened AlertsParsers
  import opened ProxyState
  import opened Webhooks

  // ---- stamps ---------------------------------------------------------------------------------

  function Later(a: int, b: int): int {
    if a > b then a else b
  }

  /** HTTP dates count whole seconds, so a change always moves at least one on. */
  function NextStamp(prev: Option<int>, now: real): int {
    Later(now.Floor, (if prev.Some? then prev.value else 0) + 1)
  }

  /** Last-Modified of a filtered reply; `regionsAt` in whole seconds, as sent. */
  function FilteredStamp(changedAt: int, regionsAt: int): int {
    Later(changedAt, regionsAt)
  }

  /** The new stamp is the least whole second above the last stamp, 0 at first, that
      the clock has not passed. */
  lemma StampIsLeast(prev: Option<int>, now: real, other: int)
    ensures var s, last := NextStamp(prev, now), if prev.Some? then prev.value else 0;
            && last < s && now < s as real + 1.0
            && (last < other && now < other as real + 1.0 ==> s <= other)
  {
  }

  /** Whatever the clock does, a change gets a new stamp; under a filter it does
      exactly when the new stamp passes the catalogue's. */
  lemma StampsGrow(prev: int, now: real, regionsAt: int)
    ensures NextStamp(Some(prev), now) > prev
    ensures FilteredStamp(NextStamp(Some(prev), now), regionsAt) > FilteredStamp(prev, regionsAt)
            <==> NextStamp(Some(prev), now) > regionsAt
    ensures regionsAt <= prev ==> NextStamp(Some(prev), now) > regionsAt
  {
  }

  // ---- readers between the writes ---------------------------------------------------------------

  /** Who asks, and whether through the filter: a validator belongs to one URL, and
      the regions are part of it. */
  datatype Client = Client(id: nat, filtered: bool)

  type Worker = nat

  /** A reply some client keeps: its stamp and which stored body it was made from. */
  datatype Held = Held(stamp: int, version: nat)

  /** A request under way: the validator its reply will carry and, once its worker
      has looked at its decoded copy, the stamp it saw then. */
  datatype Asked = Asked(stamp: int, seen: Option<int>)

  /** `bodies` and `stamps` are all values the two keys have had; `writing` is the
      clock reading of a change whose stamp is not written yet. `asked` are
      requests that have read the stamp but not the body; `copies` are the
      workers' decoded copies with the stamp they were made under. The catalogue,
      and so its stamp `regionsAt`, stays what it is. */
  datatype World<B> = World(
    regionsAt: int, bodies: seq<B>, stamps: seq<int>, writing: Option<real>,
    held: map<Client, Held>, asked: map<Client, Asked>, copies: map<Worker, Held>)

  function Start<B>(regionsAt: int): World<B> {
    World(regionsAt, [], [], None, map[], map[], map[])
  }

  function Last<T>(s: seq<T>): T
    requires s != []
  {
    s[|s| - 1]
  }

  datatype Step<B> =
    | WriteBody(body: B, now: real)
    | WriteStamp
    | Ask(client: Client)
    | Answer(client: Client)
    | ReadStamp(client: Client)
    | AnswerFiltered(client: Client, worker: Worker)
    | Lose(client: Client)
    | Forget(client: Client)

  /** The stamp a reply carries while `changedAt` is the last change. */
  function ReplyStamp<B>(w: World<B>, client: Client, changedAt: int): int {
    if client.filtered then FilteredStamp(changedAt, w.regionsAt) else changedAt
  }

  function Validator<B>(w: World<B>, client: Client): int
    requires w.stamps != []
  {
    ReplyStamp(w, client, Last(w.stamps))
  }

  predicate Answers304<B>(w: World<B>, client: Client) {
    w.stamps != [] && client in w.held && w.held[client].stamp == Validator(w, client)
  }

  /** One writer at a time; requests are served only once a body is stored. */
  predicate Enabled<B(==)>(w: World<B>, e: Step<B>) {
    match e
    case WriteBody(_, _) => w.writing.None?
    case WriteStamp => w.writing.Some?
    case Ask(_) => w.stamps != []
    case Answer(client) => w.bodies != [] && client in w.asked && !client.filtered
    case ReadStamp(client) => w.stamps != [] && client in w.asked && client.filtered
    case AnswerFiltered(client, _) => w.bodies != [] && client in w.asked && w.asked[client].seen.Some?
    case Lose(_) => true
    case Forget(_) => true
  }

  /** The worker's copy if it was made under the stamp seen, else a fresh one. */
  function CopyOf<B>(w: World<B>, worker: Worker, seen: int): Held
    requires w.bodies != []
  {
    if worker in w.copies && w.copies[worker].stamp == seen then w.copies[worker]
    else Held(seen, |w.bodies| - 1)
  }

  function Next<B(==)>(w: World<B>, e: Step<B>): World<B>
    requires Enabled(w, e)
  {
    match e
    case WriteBody(body, now) =>
      if w.bodies != [] && body == Last(w.bodies) then w
      else w.(bodies := w.bodies + [body], writing := Some(now))
    case WriteStamp =>
      var prev := if w.stamps == [] then None else Some(Last(w.stamps));
      w.(stamps := w.stamps + [NextStamp(prev, w.writing.value)], writing := None)
    case Ask(client) =>
      if Answers304(w, client) then w
      else w.(asked := w.asked[client := Asked(Validator(w, client), None)])
    case Answer(client) =>
      w.(held := w.held[client := Held(w.asked[client].stamp, |w.bodies| - 1)], asked := w.asked - {client})
    case ReadStamp(client) =>
      w.(asked := w.asked[client := w.asked[client].(seen := Some(Last(w.stamps)))])
    case AnswerFiltered(client, worker) =>
      var copy := CopyOf(w, worker, w.asked[client].seen.value);
      w.(held := w.held[client := Held(w.asked[client].stamp, copy.version)], asked := w.asked - {client},
         copies := w.copies[worker := copy])
    case Lose(client) => w.(asked := w.asked - {client})
    case Forget(client) => w.(held := w.held - {client})
  }

  /** Stamps rise from 1 on, at least one second a change. */
  predicate Ascending(stamps: seq<int>) {
    && (forall i, j :: 0 <= i < j < |stamps| ==> stamps[i] < stamps[j])
    && forall i :: 0 <= i < |stamps| ==> i < stamps[i]
  }

  /** `stamp` is what the client's replies carried while change i was the last. */
  predicate Under<B>(w: World<B>, client: Client, stamp: int, i: nat) {
    i < |w.stamps| && stamp == ReplyStamp(w, client, w.stamps[i])
  }

  /** The reply is at least as new as the change its stamp was read under. */
  ghost predicate NotOlder<B>(w: World<B>, client: Client, h: Held) {
    exists i: nat :: Under(w, client, h.stamp, i) && i <= h.version < |w.bodies|
  }

  ghost predicate CopyNotOlder<B>(w: World<B>, h: Held) {
    exists i: nat :: i < |w.stamps| && h.stamp == w.stamps[i] && i <= h.version < |w.bodies|
  }

  ghost predicate AskedInOrder<B>(w: World<B>, client: Client, a: Asked) {
    exists i: nat :: Under(w, client, a.stamp, i)
                     && (a.seen.Some? ==> a.seen.value in w.stamps && w.stamps[i] <= a.seen.value)
  }

  ghost predicate Inv<B>(w: World<B>) {
    && |w.bodies| == |w.stamps| + (if w.writing.Some? then 1 else 0)
    && Ascending(w.stamps)
    && (forall c :: c in w.held ==> NotOlder(w, c, w.held[c]))
    && (forall k :: k in w.copies ==> CopyNotOlder(w, w.copies[k]))
    && (forall c :: c in w.asked ==> AskedInOrder(w, c, w.asked[c]))
  }

  /** What later writes leave true of replies, copies and requests. */
  lemma Grows<B>(w: World<B>, w': World<B>)
    requires w.stamps <= w'.stamps && |w.bodies| <= |w'.bodies| && w.regionsAt == w'.regionsAt
    ensures forall c, h :: NotOlder(w, c, h) ==> NotOlder(w', c, h)
    ensures forall h :: CopyNotOlder(w, h) ==> CopyNotOlder(w', h)
    ensures forall c, a :: AskedInOrder(w, c, a) ==> AskedInOrder(w', c, a)
  {
    assert forall i :: 0 <= i < |w.stamps| ==> w.stamps[i] == w'.stamps[i];
    forall c, h | NotOlder(w, c, h)
      ensures NotOlder(w', c, h)
    {
      var i: nat :| Under(w, c, h.stamp, i) && i <= h.version < |w.bodies|;
      assert Under(w', c, h.stamp, i);
    }
    forall h | CopyNotOlder(w, h)
      ensures CopyNotOlder(w', h)
    {
      var i: nat :| i < |w.stamps| && h.stamp == w.stamps[i] && i <= h.version < |w.bodies|;
      assert w'.stamps[i] == h.stamp;
    }
    forall c, a | AskedInOrder(w, c, a)
      ensures AskedInOrder(w', c, a)
    {
      var i: nat :| Under(w, c, a.stamp, i)
        && (a.seen.Some? ==> a.seen.value in w.stamps && w.stamps[i] <= a.seen.value);
      assert Under(w', c, a.stamp, i);
    }
  }

  lemma WritesKeepInv<B>(w: World<B>, e: Step<B>)
    requires Inv(w) && Enabled(w, e) && (e.WriteBody? || e.WriteStamp?)
    ensures Inv(Next(w, e))
  {
    hide NotOlder, CopyNotOlder, AskedInOrder;
    Grows(w, Next(w, e));
  }

  lemma AnswerIsNotOlder<B>(w: World<B>, client: Client, a: Asked)
    requires Inv(w) && AskedInOrder(w, client, a)
    ensures w.bodies != [] && NotOlder(w, client, Held(a.stamp, |w.bodies| - 1))
  {
    var i: nat :| Under(w, client, a.stamp, i)
      && (a.seen.Some? ==> a.seen.value in w.stamps && w.stamps[i] <= a.seen.value);
  }

  /** A copy made under a stamp a request saw is new enough for that request. */
  lemma CopyIsNotOlder<B>(w: World<B>, worker: Worker, client: Client, a: Asked)
    requires Inv(w) && w.bodies != [] && AskedInOrder(w, client, a) && a.seen.Some?
    ensures CopyNotOlder(w, CopyOf(w, worker, a.seen.value))
    ensures NotOlder(w, client, Held(a.stamp, CopyOf(w, worker, a.seen.value).version))
  {
    var copy := CopyOf(w, worker, a.seen.value);
    var i: nat :| Under(w, client, a.stamp, i) && a.seen.value in w.stamps && w.stamps[i] <= a.seen.value;
    var j :| 0 <= j < |w.stamps| && w.stamps[j] == a.seen.value;
    assert CopyNotOlder(w, copy) && copy.stamp == a.seen.value;
    var k: nat :| k < |w.stamps| && copy.stamp == w.stamps[k] && k <= copy.version < |w.bodies|;
    assert i <= k;
  }

  lemma AskKeepsInv<B>(w: World<B>, e: Step<B>)
    requires Inv(w) && Enabled(w, e) && (e.Ask? || e.ReadStamp?)
    ensures Inv(Next(w, e))
  {
    hide NotOlder, CopyNotOlder;
    var w', last := Next(w, e), |w.stamps| - 1;
    Grows(w, w');
    if e.Ask? {
      assert Under(w', e.client, Validator(w, e.client), last);
      assert AskedInOrder(w', e.client, Asked(Validator(w, e.client), None));
    } else {
      var a := w.asked[e.client];
      var i: nat :| Under(w, e.client, a.stamp, i);
      assert Under(w', e.client, a.stamp, i) && w.stamps[i] <= w.stamps[last] == Last(w.stamps);
      assert AskedInOrder(w', e.client, a.(seen := Some(Last(w.stamps))));
    }
  }

  lemma ReplyKeepsInv<B>(w: World<B>, client: Client, reply: Held, worker: Worker, copy: Option<Held>)
    requires Inv(w) && NotOlder(w, client, reply) && (copy.Some? ==> CopyNotOlder(w, copy.value))
    ensures Inv(w.(held := w.held[client := reply], asked := w.asked - {client},
                   copies := if copy.Some? then w.copies[worker := copy.value] else w.copies))
  {
    hide NotOlder, CopyNotOlder, AskedInOrder;
    Grows(w, w.(held := w.held[client := reply], asked := w.asked - {client},
                copies := if copy.Some? then w.copies[worker := copy.value] else w.copies));
  }

  lemma DropKeepsInv<B>(w: World<B>, e: Step<B>)
    requires Inv(w) && Enabled(w, e) && (e.Lose? || e.Forget?)
    ensures Inv(Next(w, e))
  {
    hide NotOlder, CopyNotOlder, AskedInOrder;
    Grows(w, Next(w, e));
  }

  lemma StepKeepsInv<B>(w: World<B>, e: Step<B>)
    requires Inv(w) && Enabled(w, e)
    ensures Inv(Next(w, e)) && Next(w, e).regionsAt == w.regionsAt
  {
    hide NotOlder, CopyNotOlder, AskedInOrder, Ascending;
    match e
    case WriteBody(_, _) => WritesKeepInv(w, e);
    case WriteStamp => WritesKeepInv(w, e);
    case Ask(_) => AskKeepsInv(w, e);
    case ReadStamp(_) => AskKeepsInv(w, e);
    case Answer(client) =>
      AnswerIsNotOlder(w, client, w.asked[client]);
      ReplyKeepsInv(w, client, Held(w.asked[client].stamp, |w.bodies| - 1), 0, None);
    case AnswerFiltered(client, worker) =>
      var a := w.asked[client];
      CopyIsNotOlder(w, worker, client, a);
      var copy := CopyOf(w, worker, a.seen.value);
      ReplyKeepsInv(w, client, Held(a.stamp, copy.version), worker, Some(copy));
    case Lose(_) => DropKeepsInv(w, e);
    case Forget(_) => DropKeepsInv(w, e);
  }

  predicate RunEnabled<B(==)>(w: World<B>, steps: seq<Step<B>>)
    decreases |steps|
  {
    steps == [] || (Enabled(w, steps[0]) && RunEnabled(Next(w, steps[0]), steps[1..]))
  }

  function Run<B(==)>(w: World<B>, steps: seq<Step<B>>): World<B>
    requires RunEnabled(w, steps)
    decreases |steps|
  {
    if steps == [] then w else Run(Next(w, steps[0]), steps[1..])
  }

  lemma {:induction false} RunKeepsInv<B>(w: World<B>, steps: seq<Step<B>>)
    requires Inv(w) && RunEnabled(w, steps)
    ensures Inv(Run(w, steps)) && Run(w, steps).regionsAt == w.regionsAt
    decreases |steps|
  {
    hide Inv, Next, Enabled;
    if steps != [] {
      StepKeepsInv(w, steps[0]);
      RunKeepsInv(Next(w, steps[0]), steps[1..]);
    }
  }

  /** What a client told "not modified" keeps is the stored body, or, while a change
      is half written, the one it is just replacing. */
  ghost predicate Current<B>(w: World<B>, client: Client) {
    && client in w.held && w.held[client].version < |w.bodies|
    && var kept := w.bodies[w.held[client].version];
       kept == Last(w.bodies) || (w.writing.Some? && 2 <= |w.bodies| && kept == w.bodies[|w.bodies| - 2])
  }

  /** The last change came after the catalogue, or there was only one so far. */
  predicate Settled<B>(w: World<B>, client: Client) {
    w.stamps != [] && (!client.filtered || w.regionsAt < Last(w.stamps) || Last(w.stamps) <= 1)
  }

  lemma NotModifiedIsTrue<B>(w: World<B>, client: Client)
    requires Inv(w) && Answers304(w, client) && Settled(w, client)
    ensures Current(w, client)
  {
    var h, last := w.held[client], |w.stamps| - 1;
    var i: nat :| Under(w, client, h.stamp, i) && i <= h.version < |w.bodies|;
    assert last < w.stamps[last];
    assert i == last;
  }

  /** So over every interleaving of writers, workers and clients: an unfiltered 304
      is always true, a filtered one whenever the last change is newer than the
      catalogue, whatever was asked and answered before. */
  lemma NotModifiedOverRuns<B>(regionsAt: int, steps: seq<Step<B>>, client: Client)
    requires RunEnabled(Start<B>(regionsAt), steps)
    requires var w := Run(Start<B>(regionsAt), steps); Answers304(w, client) && Settled(w, client)
    ensures Current(Run(Start<B>(regionsAt), steps), client)
  {
    RunKeepsInv(Start<B>(regionsAt), steps);
    NotModifiedIsTrue(Run(Start<B>(regionsAt), steps), client);
  }

  /** Some change was stamped at a clock reading of a later second than the catalogue's. */
  predicate ChangedAfterCatalogue<B(==)>(w: World<B>, steps: seq<Step<B>>)
    requires RunEnabled(w, steps)
    decreases |steps|
  {
    steps != [] &&
    (|| (steps[0].WriteStamp? && w.writing.value >= w.regionsAt as real + 1.0)
     || ChangedAfterCatalogue(Next(w, steps[0]), steps[1..]))
  }

  predicate PastCatalogue<B>(w: World<B>) {
    w.stamps != [] && w.regionsAt < Last(w.stamps)
  }

  lemma StepStaysPast<B>(w: World<B>, e: Step<B>)
    requires Inv(w) && Enabled(w, e)
    ensures Next(w, e).regionsAt == w.regionsAt
    ensures PastCatalogue(w) || (e.WriteStamp? && w.writing.value >= w.regionsAt as real + 1.0)
            ==> PastCatalogue(Next(w, e))
  {
    hide NotOlder, CopyNotOlder, AskedInOrder;
    if e.WriteStamp? {
      StampIsLeast(if w.stamps == [] then None else Some(Last(w.stamps)), w.writing.value, 0);
    }
  }

  lemma {:induction false} RunGoesPast<B>(w: World<B>, steps: seq<Step<B>>)
    requires Inv(w) && RunEnabled(w, steps) && (PastCatalogue(w) || ChangedAfterCatalogue(w, steps))
    ensures PastCatalogue(Run(w, steps))
    decreases |steps|
  {
    hide Inv, Next, Enabled, PastCatalogue;
    if steps != [] {
      StepKeepsInv(w, steps[0]);
      StepStaysPast(w, steps[0]);
      RunGoesPast(Next(w, steps[0]), steps[1..]);
    }
  }

  /** By the clock: once a change was stamped in a later second than the catalogue's,
      every 304 is true, filtered or not, over every interleaving. */
  lemma TrueByTheClock<B>(regionsAt: int, steps: seq<Step<B>>, client: Client)
    requires RunEnabled(Start<B>(regionsAt), steps) && ChangedAfterCatalogue(Start<B>(regionsAt), steps)
    ensures Settled(Run(Start<B>(regionsAt), steps), client)
    ensures Answers304(Run(Start<B>(regionsAt), steps), client) ==> Current(Run(Start<B>(regionsAt), steps), client)
  {
    hide Run, RunEnabled, ChangedAfterCatalogue, Current;
    RunGoesPast(Start<B>(regionsAt), steps);
    RunKeepsInv(Start<B>(regionsAt), steps);
    if Answers304(Run(Start<B>(regionsAt), steps), client) {
      NotModifiedIsTrue(Run(Start<B>(regionsAt), steps), client);
    }
  }

  /** This run ends, nothing half written, with the last change stamped `changedAt`
      and the client told "not modified" under a filter. */
  ghost predicate FilteredRun<B>(regionsAt: int, changedAt: int, steps: seq<Step<B>>, client: Client) {
    RunEnabled(Start<B>(regionsAt), steps) &&
    var w := Run(Start<B>(regionsAt), steps);
    client.filtered && w.writing.None? && Answers304(w, client) && Last(w.stamps) == changedAt
  }

  /** Filtered 304s are true in all such runs exactly when the last change is newer
      than the catalogue; otherwise a request made between two changes can get one
      that the second does not move. (A last stamp of 1 leaves no room for two.) */
  lemma FilteredTrueExactly(regionsAt: int, changedAt: int, a: seq<Entry>, b: seq<Entry>)
    requires a != b
    ensures (forall steps, client :: FilteredRun<seq<Entry>>(regionsAt, changedAt, steps, client)
                                     ==> Current(Run(Start<seq<Entry>>(regionsAt), steps), client))
            <==> regionsAt < changedAt || changedAt <= 1
  {
    hide Run, RunEnabled, Current;
    if regionsAt < changedAt || changedAt <= 1 {
      forall steps, client | FilteredRun<seq<Entry>>(regionsAt, changedAt, steps, client)
        ensures Current(Run(Start<seq<Entry>>(regionsAt), steps), client)
      {
        RunKeepsInv(Start<seq<Entry>>(regionsAt), steps);
        NotModifiedIsTrue(Run(Start<seq<Entry>>(regionsAt), steps), client);
      }
    } else {
      FalseFiltered304(regionsAt, changedAt, a, b);
    }
  }

  /** A change, a filtered request under the catalogue's newer stamp, and another
      change that does not pass that stamp. */
  function FalseRun<B>(changedAt: int, a: B, b: B): seq<Step<B>> {
    var client := Client(0, true);
    [WriteBody(a, (changedAt - 1) as real), WriteStamp, Ask(client), ReadStamp(client), AnswerFiltered(client, 0),
     WriteBody(b, changedAt as real), WriteStamp]
  }

  lemma FalseFiltered304<B>(regionsAt: int, changedAt: int, a: B, b: B)
    requires a != b && 2 <= changedAt <= regionsAt
    ensures FilteredRun(regionsAt, changedAt, FalseRun(changedAt, a, b), Client(0, true))
    ensures !Current(Run(Start<B>(regionsAt), FalseRun(changedAt, a, b)), Client(0, true))
  {
    hide Run, RunEnabled, Next, Enabled;
    var s, w0, client := FalseRun(changedAt, a, b), Start<B>(regionsAt), Client(0, true);
    var w2 := World(regionsAt, [a], [changedAt - 1], None, map[], map[], map[]);
    var w3 := w2.(asked := map[client := Asked(regionsAt, None)]);
    var w5 := w2.(held := map[client := Held(regionsAt, 0)], copies := map[0 := Held(changedAt - 1, 0)]);
    var w7 := w5.(bodies := [a, b], stamps := [changedAt - 1, changedAt]);
    Change(w0, a, (changedAt - 1) as real, w2);
    Change(w5, b, changedAt as real, w7);
    FirstReply(w2, client, w3, w5);
    assert s == [s[0], s[1]] + ([s[2]] + ([s[3], s[4]] + ([s[5], s[6]] + [])));
    TwoSteps(w0, s[0], s[1], w2, [s[2]] + ([s[3], s[4]] + ([s[5], s[6]] + [])));
    OneStep(w2, s[2], [s[3], s[4]] + ([s[5], s[6]] + []));
    TwoSteps(w3, s[3], s[4], w5, [s[5], s[6]] + []);
    TwoSteps(w5, s[5], s[6], w7, []);
    NoSteps(w7);
  }

  lemma Change<B>(w: World<B>, body: B, now: real, w': World<B>)
    requires w.writing.None? && (w.bodies != [] ==> body != Last(w.bodies))
    requires var stamp := NextStamp(if w.stamps == [] then None else Some(Last(w.stamps)), now);
             w' == w.(bodies := w.bodies + [body], stamps := w.stamps + [stamp])
    ensures Enabled(w, WriteBody(body, now)) && Enabled(Next(w, WriteBody(body, now)), WriteStamp)
    ensures Next(Next(w, WriteBody(body, now)), WriteStamp) == w'
  {
  }

  lemma FirstReply<B>(w: World<B>, client: Client, asking: World<B>, w': World<B>)
    requires client.filtered && w.held == map[] && w.asked == map[] && w.copies == map[]
    requires |w.bodies| == 1 && |w.stamps| == 1
    requires asking == w.(asked := map[client := Asked(Validator(w, client), None)])
    requires w' == w.(held := map[client := Held(Validator(w, client), 0)], copies := map[0 := Held(w.stamps[0], 0)])
    ensures Enabled(w, Ask(client)) && Next(w, Ask(client)) == asking
    ensures Enabled(asking, ReadStamp(client)) && Enabled(Next(asking, ReadStamp(client)), AnswerFiltered(client, 0))
    ensures Next(Next(asking, ReadStamp(client)), AnswerFiltered(client, 0)) == w'
  {
  }

  lemma NoSteps<B>(w: World<B>)
    ensures RunEnabled(w, []) && Run(w, []) == w
  {
  }

  lemma OneStep<B>(w: World<B>, e: Step<B>, rest: seq<Step<B>>)
    requires Enabled(w, e)
    ensures RunEnabled(w, [e] + rest) <==> RunEnabled(Next(w, e), rest)
    ensures RunEnabled(w, [e] + rest) ==> Run(w, [e] + rest) == Run(Next(w, e), rest)
  {
    hide Next, Enabled;
    assert ([e] + rest)[1..] == rest;
  }

  lemma TwoSteps<B>(w: World<B>, e: Step<B>, f: Step<B>, w': World<B>, rest: seq<Step<B>>)
    requires Enabled(w, e) && Enabled(Next(w, e), f) && Next(Next(w, e), f) == w'
    ensures RunEnabled(w, [e, f] + rest) <==> RunEnabled(w', rest)
    ensures RunEnabled(w, [e, f] + rest) ==> Run(w, [e, f] + rest) == Run(w', rest)
  {
    hide Next, Enabled;
    assert [e, f] + rest == [e] + ([f] + rest);
    OneStep(w, e, [f] + rest);
    OneStep(Next(w, e), f, rest);
  }

  lemma StartIsGood<B>(regionsAt: int)
    ensures Inv(Start<B>(regionsAt))
  {
  }

  lemma HeldExists<B>(w: World<B>, client: Client)
    requires Inv(w) && client in w.held
    ensures w.held[client].version < |w.bodies|
  {
    assert NotOlder(w, client, w.held[client]);
  }

  /** Body and stamp after a change that nobody interrupts. */
  function Stored<B(==)>(body: Option<B>, stamp: Option<int>, next: B, now: real): (Option<B>, Option<int>) {
    if body == Some(next) then (body, stamp) else (Some(next), Some(NextStamp(stamp, now)))
  }

  function Latest<T>(s: seq<T>): Option<T> {
    if s == [] then None else Some(Last(s))
  }

  /** A change is one write of the body and one of the stamp; together they are
      what the lock makes them to other writers. */
  lemma StoreIsTwoWrites<B>(w: World<B>, body: B, now: real)
    requires Inv(w) && w.writing.None?
    ensures var started := Next(w, WriteBody(body, now));
            var done := if started.writing.Some? then Next(started, WriteStamp) else started;
            && (Latest(done.bodies), Latest(done.stamps)) == Stored(Latest(w.bodies), Latest(w.stamps), body, now)
            && done.writing.None? && Inv(done)
  {
    hide Ascending, NotOlder, AskedInOrder;
    StepKeepsInv(w, WriteBody(body, now));
    var started := Next(w, WriteBody(body, now));
    if started.writing.Some? {
      StepKeepsInv(started, WriteStamp);
    }
  }

  // ---- the shared dictionary ------------------------------------------------------------------------

  /** What a device gets. */
  datatype Reply =
    | Forbidden | Unauthorized | Unavailable | BadRequest | NotModified
    | Ok(lastModified: int, body: seq<Entry>)

  predicate Known(auth: Option<string>, tokens: set<string>) {
    auth.Some? && auth.value in tokens
  }

  class SharedDict {
    var alerts: Option<seq<Entry>>
    var changedAt: Option<int>
    var regions: Option<Parents>
    var regionsAt: int

    ghost predicate Valid()
      reads this
    {
      && (alerts.Some? <==> changedAt.Some?)
      && (regions.Some? ==> Ranked(regions.value))
    }

    constructor ()
      ensures Valid() && alerts == None && regions == None
    {
      alerts, changedAt, regions, regionsAt := None, None, None, 0;
    }

    /** Runs under the lock. */
    method Store(body: seq<Entry>, now: real)
      requires Valid()
      modifies this`alerts, this`changedAt
      ensures Valid() && alerts == Updated(old(alerts), Fetched(body))
      ensures (alerts, changedAt) == Stored(old(alerts), old(changedAt), body, now)
    {
      if alerts != Some(body) {
        alerts := Some(body);
        changedAt := Some(NextStamp(changedAt, now));
      }
    }

    /** The part of a webhook that runs under the lock; the list it leaves is the
        stored one with the change written over it. */
    method ServeWebhook(ev: RawEvent, now: real) returns (applied: bool)
      requires Valid()
      modifies this`alerts, this`changedAt
      ensures Valid() && alerts == Updated(old(alerts), Hook(ev, regions))
      ensures applied <==> old(alerts).Some? && Served(old(alerts).value, ev, regions).Some?
      ensures alerts == old(alerts) ==> changedAt == old(changedAt)
      ensures alerts != old(alerts) ==> changedAt.value > old(changedAt).value
    {
      if alerts.None? {
        return false;
      }
      var entries := ApplyEvent(alerts.value, ev, regions);
      if entries.None? {
        return false;
      }
      Store(entries.value, now);
      applied := true;
    }

    /** `recent`: the last good snapshot is recent enough to be handed out. */
    method ServeAlerts(auth: Option<string>, tokens: set<string>, recent: bool, query: Option<string>,
                       ifModifiedSince: Option<int>)
      returns (reply: Reply)
      requires Valid()
      ensures auth == None <==> reply == Forbidden
      ensures auth.Some? && auth.value !in tokens <==> reply == Unauthorized
      ensures Known(auth, tokens) ==> ((!recent || alerts.None?) <==> reply == Unavailable)
      ensures Known(auth, tokens) && recent && alerts.Some? ==> (IdsOf(query) == BadRegions <==> reply == BadRequest)
      ensures Known(auth, tokens) && recent && alerts.Some? && IdsOf(query) == NoFilter ==>
                reply == if ifModifiedSince == changedAt then NotModified else Ok(changedAt.value, alerts.value)
      ensures Known(auth, tokens) && recent && alerts.Some? && IdsOf(query).Filter? ==>
                var stamp := if regions.Some? then FilteredStamp(changedAt.value, regionsAt) else changedAt.value;
                reply == if ifModifiedSince == Some(stamp) then NotModified
                         else Ok(stamp, if regions.Some? then Kept(alerts.value, IdsOf(query).ids, regions.value)
                                        else alerts.value)
    {
      if auth.None? {
        return Forbidden;
      }
      if auth.value !in tokens {
        return Unauthorized;
      }
      if !recent || alerts.None? {
        return Unavailable;
      }
      var ids := ParseIds(query);
      if ids == BadRegions {
        return BadRequest;
      }
      var parents := if ids == NoFilter then None else regions;
      var stamp := changedAt.value;
      if parents.Some? {
        stamp := Later(stamp, regionsAt);
      }
      if ifModifiedSince == Some(stamp) {
        return NotModified;
      }
      var body := alerts.value;
      if parents.Some? {
        body := Select(body, Some(ids.ids), parents);
      }
      reply := Ok(stamp, body);
    }
  }
}
