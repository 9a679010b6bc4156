/** Per-type alert state machine (AlertEngine.h, AlertEngine.cpp). */
module AlertEngines {
  import opened Types

  datatype AlertState = NotSynced | Inactive | Active

  /** Confirmation counters never reach 255: at 255 any limit has fired. */
  type Count = n: nat | n < 0xFF

  datatype Config = Config(startConfirmations: Byte, endConfirmations: Byte, partialActive: bool)

  datatype TypeInput = TypeInput(coverage: Coverage, locationCount: nat, earliestStartedAt: nat)

  datatype TypeStatus = TypeStatus(
    state: AlertState, coverage: Coverage, startedAt: nat,
    startCount: Count, endCount: Count, locationCount: nat)

  const FRESH := TypeStatus(NotSynced, NoCoverage, 0, 0, 0, 0)

  datatype Kind = Started | Escalated | CoverageReduced | LocationAdded | Ended

  datatype Event = Event(kind: Kind, alert: AlertType)

  /** One input per alert type. */
  type Snapshot = s: seq<TypeInput> | |s| == TYPE_COUNT
    witness seq(7, _ => TypeInput(NoCoverage, 0, 0))

  type Statuses = s: seq<TypeStatus> | |s| == TYPE_COUNT
    witness seq(7, _ => FRESH)

  /** Partial-only coverage counts as none when partial alerts are off. */
  function Effective(cfg: Config, input: TypeInput): Coverage {
    if !cfg.partialActive && input.coverage == Partial then NoCoverage else input.coverage
  }

  predicate Present(cfg: Config, input: TypeInput) {
    Effective(cfg, input) != NoCoverage
  }

  function Step(cfg: Config, ts: TypeStatus, input: TypeInput): TypeStatus {
    var cov := Effective(cfg, input);
    match ts.state
    case Active =>
      if Present(cfg, input) then
        ts.(endCount := 0, coverage := cov, locationCount := input.locationCount,
            startedAt := if ts.startedAt == 0 then input.earliestStartedAt else ts.startedAt)
      else if ts.endCount + 1 >= cfg.endConfirmations then FRESH.(state := Inactive)
      else ts.(endCount := ts.endCount + 1)
    case _ =>
      var idle := ts.(endCount := 0, state := Inactive);
      if !Present(cfg, input) then idle.(startCount := 0)
      else if ts.startCount + 1 >= cfg.startConfirmations then
        idle.(state := Active, coverage := cov, startedAt := input.earliestStartedAt,
              locationCount := input.locationCount, startCount := 0)
      else idle.(startCount := ts.startCount + 1)
  }

  function StepKinds(cfg: Config, ts: TypeStatus, input: TypeInput): (kinds: seq<Kind>)
    ensures |kinds| <= 2
  {
    var cov := Effective(cfg, input);
    match ts.state
    case Active =>
      if Present(cfg, input) then
        (if ts.coverage == Partial && cov == Full then [Escalated]
         else if ts.coverage == Full && cov == Partial then [CoverageReduced]
         else [])
        + (if input.locationCount > ts.locationCount then [LocationAdded] else [])
      else if ts.endCount + 1 >= cfg.endConfirmations then [Ended]
      else []
    case _ =>
      if Present(cfg, input) && ts.startCount + 1 >= cfg.startConfirmations then [Started] else []
  }

  function StepAll(cfg: Config, types: Statuses, snap: Snapshot): Statuses {
    seq(TYPE_COUNT, i requires 0 <= i < TYPE_COUNT => Step(cfg, types[i], snap[i]))
  }

  function Tagged(kinds: seq<Kind>, t: AlertType): (events: seq<Event>)
    ensures |events| == |kinds|
  {
    seq(|kinds|, k requires 0 <= k < |kinds| => Event(kinds[k], t))
  }

  /** Events of the first n types, in emission order. */
  function EventsOf(cfg: Config, types: Statuses, snap: Snapshot, n: nat): (events: seq<Event>)
    requires n <= TYPE_COUNT
    ensures |events| <= 2 * n
  {
    if n == 0 then []
    else EventsOf(cfg, types, snap, n - 1) + Tagged(StepKinds(cfg, types[n - 1], snap[n - 1]), n - 1)
  }

  function AllEvents(cfg: Config, types: Statuses, snap: Snapshot): (events: seq<Event>)
    ensures |events| <= 14
  {
    EventsOf(cfg, types, snap, TYPE_COUNT)
  }

  function Take<T>(s: seq<T>, n: nat): seq<T> {
    if |s| <= n then s else s[..n]
  }

  /** A start or an end is all its type has to report. */
  lemma MoveIsOnly(cfg: Config, ts: TypeStatus, input: TypeInput)
    ensures Started in StepKinds(cfg, ts, input) || Ended in StepKinds(cfg, ts, input)
            ==> |StepKinds(cfg, ts, input)| == 1
  {
  }

  /** An event is in the batch exactly when its type's own step emits it. */
  lemma {:induction false} EventsMembership(cfg: Config, types: Statuses, snap: Snapshot, n: nat, ev: Event)
    requires n <= TYPE_COUNT
    ensures ev in EventsOf(cfg, types, snap, n)
            <==> ev.alert < n && ev.kind in StepKinds(cfg, types[ev.alert], snap[ev.alert])
  {
    if n > 0 {
      EventsMembership(cfg, types, snap, n - 1, ev);
      var kinds := StepKinds(cfg, types[n - 1], snap[n - 1]);
      assert ev in Tagged(kinds, n - 1) <==> ev.alert == n - 1 && ev.kind in kinds by {
        if ev.alert == n - 1 && ev.kind in kinds {
          var k :| 0 <= k < |kinds| && kinds[k] == ev.kind;
          assert Tagged(kinds, n - 1)[k] == ev;
        }
      }
    }
  }

  function ActiveTypes(types: Statuses): set<AlertType> {
    set t: AlertType | 0 <= t < TYPE_COUNT && types[t].state == Active
  }

  // ---- hand-over between threat types -----------------------------------------

  predicate Rival(ev: Event, other: AlertType, anyType: bool) {
    other != ev.alert && (anyType || (IsAir(ev.alert) && IsAir(other)))
  }

  /** `ev` is one side of a hand-over with type `other`. */
  predicate HandsOver(types: Statuses, batch: seq<Event>, ev: Event, other: AlertType) {
    || (ev.kind == Ended && types[other].state == Active)
    || (ev.kind == Started
        && ((types[other].state == Active && types[other].endCount > 0) || Event(Ended, other) in batch))
  }

  ghost predicate Handover(types: Statuses, batch: seq<Event>, ev: Event, anyType: bool) {
    exists other: AlertType :: Rival(ev, other, anyType) && HandsOver(types, batch, ev, other)
  }

  // ---- over whole runs ----------------------------------------------------------

  /** Status of one type after a history of validated samples. */
  function After(cfg: Config, history: seq<TypeInput>): TypeStatus {
    if history == [] then FRESH
    else Step(cfg, After(cfg, history[..|history| - 1]), history[|history| - 1])
  }

  function PresentAt(cfg: Config, history: seq<TypeInput>): (p: seq<bool>)
    ensures |p| == |history|
    ensures forall i :: 0 <= i < |p| ==> p[i] == Present(cfg, history[i])
  {
    seq(|history|, i requires 0 <= i < |history| => Present(cfg, history[i]))
  }

  /** A limit of 0 acts like 1: the counter is compared after counting. */
  function Needed(confirmations: Byte): nat {
    if confirmations == 0 then 1 else confirmations
  }

  /** Some s presences in a row were seen and no e absences in a row after them. */
  ghost predicate Confirmed(p: seq<bool>, s: nat, e: nat) {
    exists i :: ConfirmedAt(p, s, e, i)
  }

  /** The n samples that end just before index `end` are all v. */
  ghost predicate RunBefore(p: seq<bool>, end: int, n: nat, v: bool) {
    n <= end <= |p| && forall k :: end - n <= k < end ==> p[k] == v
  }

  ghost predicate ConfirmedAt(p: seq<bool>, s: nat, e: nat, i: int) {
    RunBefore(p, i, s, true) && forall j :: i + e <= j ==> !RunBefore(p, j, e, false)
  }

  /** Length of the run of v that ends the history. */
  function Trail(p: seq<bool>, v: bool): nat {
    if p == [] || p[|p| - 1] != v then 0 else 1 + Trail(p[..|p| - 1], v)
  }

  lemma {:induction false} TrailIsRun(p: seq<bool>, v: bool, n: nat)
    ensures Trail(p, v) >= n <==> RunBefore(p, |p|, n, v)
    decreases |p|
  {
    if n > 0 && p != [] {
      var q := p[..|p| - 1];
      TrailIsRun(q, v, n - 1);
      RunSnoc(q, p[|p| - 1], |q|, n - 1, v);
      assert q + [p[|p| - 1]] == p;
    }
  }

  /** Runs that end inside p do not see the sample added after it; the one that
      ends with the new sample is a run of p and that sample. */
  lemma RunSnoc(p: seq<bool>, b: bool, end: int, n: nat, v: bool)
    requires end <= |p|
    ensures RunBefore(p + [b], end, n, v) <==> RunBefore(p, end, n, v)
    ensures RunBefore(p + [b], |p| + 1, n + 1, v) <==> RunBefore(p, |p|, n, v) && b == v
  {
    var q := p + [b];
    assert forall k :: 0 <= k < |p| ==> q[k] == p[k];
    assert q[|p|] == b;
  }

  /** The counters are the current runs. */
  lemma {:induction false} CountersAreRuns(cfg: Config, history: seq<TypeInput>)
    ensures var ts, p := After(cfg, history), PresentAt(cfg, history);
            if ts.state == Active then
              ts.endCount == Trail(p, false) < Needed(cfg.endConfirmations) && ts.coverage != NoCoverage
            else
              ts.startCount == Trail(p, true) < Needed(cfg.startConfirmations)
    decreases |history|
  {
    if history != [] {
      var h := history[..|history| - 1];
      CountersAreRuns(cfg, h);
      assert PresentAt(cfg, history)[..|history| - 1] == PresentAt(cfg, h);
    }
  }

  /** A confirmation inside p survives one more sample unless that sample
      completes a run of absences. */
  lemma ConfirmedAtSnoc(p: seq<bool>, b: bool, s: nat, e: nat, i: int)
    requires s >= 1 && e >= 1 && i <= |p|
    ensures ConfirmedAt(p + [b], s, e, i)
            <==> ConfirmedAt(p, s, e, i) && !RunBefore(p + [b], |p| + 1, e, false)
  {
    var q := p + [b];
    RunSnoc(p, b, i, s, true);
    forall j | j <= |p|
      ensures RunBefore(q, j, e, false) <==> RunBefore(p, j, e, false)
    {
      RunSnoc(p, b, j, e, false);
    }
    if RunBefore(p, i, s, true) {
      assert p[i - 1] && q[i - 1];
    }
  }

  lemma ConfirmedBySnoc(p: seq<bool>, b: bool, s: nat, e: nat)
    requires s >= 1 && e >= 1
    ensures Confirmed(p + [b], s, e) <==>
            if b then Confirmed(p, s, e) || Trail(p + [b], true) >= s
            else Confirmed(p, s, e) && Trail(p + [b], false) < e
  {
    var q := p + [b];
    TrailIsRun(q, true, s);
    TrailIsRun(q, false, e);
    RunSnoc(p, b, |p|, s - 1, true);
    RunSnoc(p, b, |p|, e - 1, false);
    forall i | i <= |p|
      ensures ConfirmedAt(q, s, e, i) <==> ConfirmedAt(p, s, e, i) && !RunBefore(q, |q|, e, false)
    {
      ConfirmedAtSnoc(p, b, s, e, i);
    }
    if b && RunBefore(q, |q|, s, true) {
      assert ConfirmedAt(q, s, e, |q|);
    }
    if Confirmed(p, s, e) {
      var i :| ConfirmedAt(p, s, e, i);
      assert RunBefore(p, i, s, true);
    }
  }

  /** Active means confirmed: some s presences in a row, no e absences in a row since. */
  lemma {:induction false} ActiveIffConfirmed(cfg: Config, history: seq<TypeInput>)
    ensures After(cfg, history).state == Active
            <==> Confirmed(PresentAt(cfg, history), Needed(cfg.startConfirmations), Needed(cfg.endConfirmations))
    decreases |history|
  {
    var s, e := Needed(cfg.startConfirmations), Needed(cfg.endConfirmations);
    if history == [] {
      assert forall i :: !ConfirmedAt([], s, e, i);
    } else {
      var h, last := history[..|history| - 1], history[|history| - 1];
      ActiveIffConfirmed(cfg, h);
      CountersAreRuns(cfg, h);
      CountersAreRuns(cfg, history);
      var p := PresentAt(cfg, h);
      assert PresentAt(cfg, history) == p + [Present(cfg, last)];
      ConfirmedBySnoc(p, Present(cfg, last), s, e);
      assert (p + [Present(cfg, last)])[..|p|] == p;
    }
  }

  /** An end always rests on that many absences in a row. */
  lemma EndedNeedsAbsences(cfg: Config, history: seq<TypeInput>, last: TypeInput)
    requires Ended in StepKinds(cfg, After(cfg, history), last)
    ensures var p := PresentAt(cfg, history + [last]);
            RunBefore(p, |p|, Needed(cfg.endConfirmations), false)
  {
    CountersAreRuns(cfg, history);
    var p := PresentAt(cfg, history + [last]);
    assert p[..|history|] == PresentAt(cfg, history);
    TrailIsRun(p, false, Needed(cfg.endConfirmations));
  }

  // ---- what is reported -------------------------------------------------------------

  /** The last sample that shows the type, an empty one when none does. */
  function LastShown(cfg: Config, history: seq<TypeInput>): TypeInput {
    if history == [] then TypeInput(NoCoverage, 0, 0)
    else if Present(cfg, history[|history| - 1]) then history[|history| - 1]
    else LastShown(cfg, history[..|history| - 1])
  }

  /** An active type stands as the last sample showed it, through absences. */
  lemma {:induction false} StandsAsShown(cfg: Config, history: seq<TypeInput>)
    ensures var ts, shown := After(cfg, history), LastShown(cfg, history);
            ts.state == Active ==>
              Present(cfg, shown) && ts.coverage == shown.coverage && ts.locationCount == shown.locationCount
    decreases |history|
  {
    if history != [] {
      StandsAsShown(cfg, history[..|history| - 1]);
    }
  }

  /** After any history, what the next sample reports: a start or an end exactly when
      the type becomes active or ceases to be; while it stays active, an escalation, a
      reduction or another location exactly against the last sample that showed it. */
  lemma ReportsExactly(cfg: Config, history: seq<TypeInput>, next: TypeInput)
    ensures var was, now := After(cfg, history).state == Active, After(cfg, history + [next]).state == Active;
            var kinds, shown := StepKinds(cfg, After(cfg, history), next), LastShown(cfg, history);
            && (Started in kinds <==> !was && now)
            && (Ended in kinds <==> was && !now)
            && (Escalated in kinds <==> was && shown.coverage == Partial && next.coverage == Full)
            && (CoverageReduced in kinds <==>
                  was && shown.coverage == Full && next.coverage == Partial && cfg.partialActive)
            && (LocationAdded in kinds <==> was && Present(cfg, next) && next.locationCount > shown.locationCount)
  {
    StandsAsShown(cfg, history);
    assert (history + [next])[..|history|] == history;
    var kinds := StepKinds(cfg, After(cfg, history), next);
    assert forall k :: k in kinds <==> (|kinds| > 0 && kinds[0] == k) || (|kinds| > 1 && kinds[1] == k);
  }

  /** The first known start time among the samples that show the type, or 0. */
  function FirstStart(cfg: Config, samples: seq<TypeInput>): nat {
    if samples == [] then 0
    else
      var first, last := FirstStart(cfg, samples[..|samples| - 1]), samples[|samples| - 1];
      if first == 0 && Present(cfg, last) then last.earliestStartedAt else first
  }

  lemma StartStep(cfg: Config, ts: TypeStatus, session: seq<TypeInput>, input: TypeInput)
    requires Step(cfg, ts, input).state == Active && (ts.state == Active ==> ts.startedAt == FirstStart(cfg, session))
    ensures Step(cfg, ts, input).startedAt
            == FirstStart(cfg, if ts.state == Active then session + [input] else [input])
  {
    assert (session + [input])[..|session|] == session && [input][..0] == [];
  }

  /** An active type's start is the first time known since the sample that made it so. */
  lemma {:induction false} StartedAtIsFirst(cfg: Config, history: seq<TypeInput>) returns (i: nat)
    requires After(cfg, history).state == Active
    ensures i < |history| && After(cfg, history[..i]).state != Active
    ensures forall j :: i < j <= |history| ==> After(cfg, history[..j]).state == Active
    ensures After(cfg, history).startedAt == FirstStart(cfg, history[i..])
    decreases |history|
  {
    hide Step, FirstStart;
    var h, last := history[..|history| - 1], history[|history| - 1];
    assert history[..|history|] == history;
    if After(cfg, h).state == Active {
      i := StartedAtIsFirst(cfg, h);
      assert forall j :: 0 <= j <= |h| ==> history[..j] == h[..j];
      StartStep(cfg, After(cfg, h), h[i..], last);
      assert history[i..] == h[i..] + [last];
    } else {
      i := |h|;
      StartStep(cfg, After(cfg, h), [], last);
      assert history[i..] == [last];
    }
  }

  // ---- coverage accounting --------------------------------------------------------

  function Level(cov: Coverage): int {
    if cov == Full then 1 else 0
  }

  function Balance(kinds: seq<Kind>): int {
    if kinds == [] then 0
    else (if kinds[0] == Escalated then 1 else if kinds[0] == CoverageReduced then -1 else 0) + Balance(kinds[1..])
  }

  lemma {:induction false} BalanceConcat(a: seq<Kind>, b: seq<Kind>)
    ensures Balance(a + b) == Balance(a) + Balance(b)
  {
    if a == [] {
      assert a + b == b;
    } else {
      assert (a + b)[1..] == a[1..] + b;
      BalanceConcat(a[1..], b);
    }
  }

  function RunFrom(cfg: Config, ts: TypeStatus, inputs: seq<TypeInput>): TypeStatus
    decreases |inputs|
  {
    if inputs == [] then ts else RunFrom(cfg, Step(cfg, ts, inputs[0]), inputs[1..])
  }

  function KindsFrom(cfg: Config, ts: TypeStatus, inputs: seq<TypeInput>): seq<Kind>
    decreases |inputs|
  {
    if inputs == [] then []
    else StepKinds(cfg, ts, inputs[0]) + KindsFrom(cfg, Step(cfg, ts, inputs[0]), inputs[1..])
  }

  /** Within one session, escalations minus reductions are the net change of coverage. */
  lemma {:induction false} SessionBalance(cfg: Config, ts: TypeStatus, inputs: seq<TypeInput>)
    requires ts.state == Active && ts.coverage != NoCoverage
    requires Ended !in KindsFrom(cfg, ts, inputs)
    ensures RunFrom(cfg, ts, inputs).state == Active
    ensures Balance(KindsFrom(cfg, ts, inputs)) == Level(RunFrom(cfg, ts, inputs).coverage) - Level(ts.coverage)
    decreases |inputs|
  {
    if inputs != [] {
      var next, kinds := Step(cfg, ts, inputs[0]), StepKinds(cfg, ts, inputs[0]);
      assert Ended !in kinds && Ended !in KindsFrom(cfg, next, inputs[1..]);
      SessionBalance(cfg, next, inputs[1..]);
      BalanceConcat(kinds, KindsFrom(cfg, next, inputs[1..]));
      StepBalance(cfg, ts, inputs[0]);
    }
  }

  lemma StepBalance(cfg: Config, ts: TypeStatus, input: TypeInput)
    requires ts.state == Active && ts.coverage != NoCoverage
    requires Ended !in StepKinds(cfg, ts, input)
    ensures Step(cfg, ts, input).state == Active && Step(cfg, ts, input).coverage != NoCoverage
    ensures Balance(StepKinds(cfg, ts, input)) == Level(Step(cfg, ts, input).coverage) - Level(ts.coverage)
  {
    var cov := Effective(cfg, input);
    var change := if ts.coverage == Partial && cov == Full then [Escalated]
                  else if ts.coverage == Full && cov == Partial then [CoverageReduced]
                  else [];
    var joined := if input.locationCount > ts.locationCount then [LocationAdded] else [];
    assert [Ended][0] == Ended;
    if Present(cfg, input) {
      BalanceConcat(change, joined);
      assert Balance(joined) == 0;
    }
  }

  // ---- the engine object ------------------------------------------------------------

  class AlertEngine {
    var cfg: Config
    const types: array<TypeStatus>
    var synced: bool

    ghost predicate Valid()
      reads this
    {
      types.Length == TYPE_COUNT
    }

    function Now(): Statuses
      requires types.Length == TYPE_COUNT
      reads this, types
    {
      types[..]
    }

    constructor (cfg: Config)
      ensures Valid() && Now() == seq(TYPE_COUNT, _ => FRESH) && !synced && this.cfg == cfg && fresh(types)
    {
      this.cfg := cfg;
      types := new TypeStatus[TYPE_COUNT](_ => FRESH);
      synced := false;
    }

    method SetConfig(cfg: Config)
      modifies this`cfg
      ensures this.cfg == cfg
    {
      this.cfg := cfg;
    }

    method Reset()
      requires Valid()
      modifies this`synced, types
      ensures Now() == seq(TYPE_COUNT, _ => FRESH) && !synced
    {
      for i := 0 to TYPE_COUNT
        invariant forall k :: 0 <= k < i ==> types[k] == FRESH
      {
        types[i] := FRESH;
      }
      assert types[..] == seq(TYPE_COUNT, _ => FRESH);
      synced := false;
    }

    /** Events beyond the caller's buffer are dropped, the states still move. */
    method ApplySnapshot(snap: Snapshot, events: array<Event>) returns (n: nat)
      requires Valid()
      modifies this`synced, types, events
      ensures synced && Now() == StepAll(cfg, old(Now()), snap)
      ensures n <= events.Length && events[..n] == Take(AllEvents(cfg, old(Now()), snap), events.Length)
    {
      n := 0;
      synced := true;
      ghost var before := Now();
      for i := 0 to TYPE_COUNT
        invariant Valid() && synced && n <= events.Length
        invariant forall k :: 0 <= k < i ==> types[k] == Step(cfg, before[k], snap[k])
        invariant forall k :: i <= k < TYPE_COUNT ==> types[k] == before[k]
        invariant events[..n] == Take(EventsOf(cfg, before, snap, i), events.Length)
      {
        n := ApplyType(i, snap[i], events, n, EventsOf(cfg, before, snap, i));
      }
      assert Now() == StepAll(cfg, before, snap);
    }

    method ApplyType(i: AlertType, input: TypeInput, events: array<Event>, start: nat, ghost emitted: seq<Event>)
      returns (n: nat)
      requires Valid() && start <= events.Length
      requires events[..start] == Take(emitted, events.Length)
      modifies types, events
      ensures types[i] == Step(cfg, old(types[i]), input)
      ensures forall k :: 0 <= k < TYPE_COUNT && k != i ==> types[k] == old(types[k])
      ensures n <= events.Length
      ensures events[..n] == Take(emitted + Tagged(StepKinds(cfg, old(types[i]), input), i), events.Length)
    {
      var ts := types[i];
      var cov := if !cfg.partialActive && input.coverage == Partial then NoCoverage else input.coverage;
      n := start;
      ghost var all := emitted;
      match ts.state {
        case Active =>
          if cov != NoCoverage {
            n, all := EmitChanges(ts, cov, input.locationCount, i, events, n, emitted);
            ts := ts.(endCount := 0, coverage := cov, locationCount := input.locationCount);
            if ts.startedAt == 0 {
              ts := ts.(startedAt := input.earliestStartedAt);
            }
          } else if ts.endCount + 1 >= cfg.endConfirmations {
            ts := FRESH.(state := Inactive);
            n := Emit(events, n, Event(Ended, i), all);
            all := all + [Event(Ended, i)];
          } else {
            ts := ts.(endCount := ts.endCount + 1);
          }
        case _ =>
          ts := ts.(endCount := 0, state := Inactive);
          if cov == NoCoverage {
            ts := ts.(startCount := 0);
          } else if ts.startCount + 1 >= cfg.startConfirmations {
            ts := ts.(state := Active, coverage := cov, startedAt := input.earliestStartedAt,
                      locationCount := input.locationCount, startCount := 0);
            n := Emit(events, n, Event(Started, i), all);
            all := all + [Event(Started, i)];
          } else {
            ts := ts.(startCount := ts.startCount + 1);
          }
      }
      assert all == emitted + Tagged(StepKinds(cfg, types[i], input), i);
      types[i] := ts;
    }

    static method EmitChanges(ts: TypeStatus, cov: Coverage, locationCount: nat, i: AlertType,
                              events: array<Event>, start: nat, ghost emitted: seq<Event>)
      returns (n: nat, ghost all: seq<Event>)
      requires start <= events.Length && events[..start] == Take(emitted, events.Length)
      modifies events
      ensures n <= events.Length && events[..n] == Take(all, events.Length)
      ensures all == emitted
                     + (if ts.coverage == Partial && cov == Full then [Event(Escalated, i)]
                        else if ts.coverage == Full && cov == Partial then [Event(CoverageReduced, i)]
                        else [])
                     + (if locationCount > ts.locationCount then [Event(LocationAdded, i)] else [])
    {
      n, all := start, emitted;
      if ts.coverage == Partial && cov == Full {
        n := Emit(events, n, Event(Escalated, i), all);
        all := all + [Event(Escalated, i)];
      } else if ts.coverage == Full && cov == Partial {
        n := Emit(events, n, Event(CoverageReduced, i), all);
        all := all + [Event(CoverageReduced, i)];
      }
      if locationCount > ts.locationCount {
        n := Emit(events, n, Event(LocationAdded, i), all);
        all := all + [Event(LocationAdded, i)];
      }
    }

    static method Emit(events: array<Event>, n: nat, ev: Event, ghost all: seq<Event>) returns (n': nat)
      requires n <= events.Length && events[..n] == Take(all, events.Length)
      modifies events
      ensures n' <= events.Length && events[..n'] == Take(all + [ev], events.Length)
    {
      n' := n;
      if n < events.Length {
        events[n] := ev;
        n' := n + 1;
      }
    }

    method AnyActive() returns (any: bool)
      requires Valid()
      ensures any <==> ActiveTypes(Now()) != {}
    {
      for i := 0 to TYPE_COUNT
        invariant forall k :: 0 <= k < i ==> types[k].state != Active
      {
        if types[i].state == Active {
          assert i in ActiveTypes(Now());
          return true;
        }
      }
      any := false;
    }

    method IsHandover(ev: Event, batch: array<Event>, n: nat, anyType: bool) returns (yes: bool)
      requires Valid() && n <= batch.Length
      ensures yes <==> Handover(Now(), batch[..n], ev, anyType)
    {
      for i := 0 to TYPE_COUNT
        invariant forall k: AlertType :: k < i ==> !(Rival(ev, k, anyType) && HandsOver(Now(), batch[..n], ev, k))
      {
        if i != ev.alert && (anyType || (IsAir(ev.alert) && IsAir(i))) {
          var active := types[i].state == Active;
          if ev.kind == Ended && active {
            assert Rival(ev, i, anyType) && HandsOver(Now(), batch[..n], ev, i);
            return true;
          }
          if ev.kind == Started {
            if active && types[i].endCount > 0 {
              assert Rival(ev, i, anyType) && HandsOver(Now(), batch[..n], ev, i);
              return true;
            }
            for k := 0 to n
              invariant Event(Ended, i) !in batch[..k]
            {
              if batch[k].kind == Ended && batch[k].alert == i {
                assert batch[..n][k] == Event(Ended, i);
                assert Rival(ev, i, anyType) && HandsOver(Now(), batch[..n], ev, i);
                return true;
              }
            }
          }
        }
      }
      yes := false;
    }
  }

  // ---- alerts older than the watch ------------------------------------------------------

  function Observed(mask: set<AlertType>, cfg: Config, snap: Snapshot, firstSync: bool): set<AlertType> {
    set t: AlertType | 0 <= t < TYPE_COUNT && Present(cfg, snap[t]) && (firstSync || t in mask)
  }

  /** Types already present in the first snapshot (PreexistingAlerts.h); the mask
      of bits is a set. */
  class PreexistingAlerts {
    var mask: set<AlertType>

    constructor ()
      ensures mask == {}
    {
      mask := {};
    }

    method Observe(cfg: Config, snap: Snapshot, firstSync: bool)
      modifies this
      ensures mask == Observed(old(mask), cfg, snap, firstSync)
    {
      if firstSync {
        mask := {};
      }
      for i := 0 to TYPE_COUNT
        invariant forall t: AlertType :: t in mask <==>
                    if t < i then Present(cfg, snap[t]) && (firstSync || t in old(mask))
                    else !firstSync && t in old(mask)
      {
        var cov := snap[i].coverage;
        var present := cov == Full || (cov == Partial && cfg.partialActive);
        if !present {
          mask := mask - {i};
        } else if firstSync {
          mask := mask + {i};
        }
      }
    }

    method ConsumeStart(t: AlertType) returns (hit: bool)
      modifies this
      ensures hit <==> t in old(mask)
      ensures mask == old(mask) - {t}
    {
      hit := t in mask;
      mask := mask - {t};
    }
  }
}
