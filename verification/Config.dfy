/** The configuration document (Config.h): printing, reading back over another
    configuration, migration and limits. */
module Configs {
  import opened Types
  import opened Patterns
  import SnapshotBuilders
  import NE = NotificationEngines

  type U16 = n: nat | n < 0x1_0000
  type U32 = n: nat | n < 0x1_0000_0000

  const MAX_U8 := 0xFF
  const MAX_U16 := 0xFFFF
  const MAX_U32 := 0xFFFF_FFFF
  const SCHEMA := 2
  const NAME_SIZE := 32
  const MIN_REMINDER_MS := 30000
  const MS := 1000

  // ---- documents ------------------------------------------------------------------------------

  /** Member names of the document, numbered; a profile's is its type's own name. */
  type Key = nat
  const K_SCHEMA: Key := 0
  const K_DEVICE: Key := 1
  const K_ALERTS: Key := 2
  const K_RELAY: Key := 3
  const K_MUTE: Key := 4
  const K_LED: Key := 5
  const K_LOCATIONS: Key := 6
  const K_PROFILES: Key := 7
  const K_NAME: Key := 8
  const K_POLL_SEC: Key := 9
  const K_STALE_SEC: Key := 10
  const K_START_CONF: Key := 11
  const K_END_CONF: Key := 12
  const K_PARTIAL_ACTIVE: Key := 13
  const K_PARTIAL_SIREN: Key := 14
  const K_PARTIAL_LED: Key := 15
  const K_NOTIFY_ESCALATION: Key := 16
  const K_NOTIFY_ADDITIONAL: Key := 17
  const K_REMINDERS_WHEN_STALE: Key := 18
  const K_QUIET_TRANSITIONS: Key := 19
  const K_SINGLE: Key := 20
  const K_ACTIVE_HIGH: Key := 21
  const K_MAX_ON_MS: Key := 22
  const K_TEST_MS: Key := 23
  const K_SNOOZE_MIN: Key := 24
  const K_ALL_TYPES: Key := 25
  const K_ALERT_STEADY: Key := 26
  const K_ALERT_ACTIVE_HIGH: Key := 27
  const K_UID: Key := 28
  const K_TYPE: Key := 29
  const K_OBLAST_UID: Key := 30
  const K_RAION_UID: Key := 31
  const K_ENABLED: Key := 32
  const K_PRIORITY: Key := 33
  const K_START: Key := 34
  const K_END: Key := 35
  const K_REMINDER: Key := 36
  const K_INTERVAL_SEC: Key := 37
  const K_REPEATS: Key := 38
  const K_STEPS: Key := 39
  const K_ON_MS: Key := 40
  const K_OFF_MS: Key := 41

  function OfType(t: AlertType): Key {
    42 + t
  }

  /** A decoded document; Frac is any number that is not an integer. */
  datatype Json =
    | Null
    | Bool(b: bool)
    | Num(n: int)
    | Frac(x: real)
    | Str(s: string)
    | Arr(items: seq<Json>)
    | Obj(fields: map<Key, Json>)
  {
    /** A missing member reads as null, and so does any member of a non-object. */
    function Get(k: Key): Json {
      if Obj? && k in fields then fields[k] else Null
    }

    /** Setting one member leaves the others alone. */
    function With(k: Key, v: Json): (r: Json)
      requires Obj?
      ensures r.Obj? && r.Get(k) == v
      ensures forall other :: other != k ==> r.Get(other) == Get(other)
    {
      Obj(fields[k := v])
    }
  }

  const EMPTY_OBJECT := Obj(map[])

  datatype Error =
    | BadSchema | BadDeviceName | BadPollInterval | BadStaleInterval | BadConfirmations
    | BadRelayLimit | BadTestMs | BadSnooze | TooManyLocations | BadLocation | BadPattern

  datatype Read<+T> = Got(value: T) | Bad(error: Error) {
    predicate IsFailure() { Bad? }

    function PropagateFailure<U>(): Read<U>
      requires Bad?
    {
      Bad(error)
    }

    function Extract(): T
      requires Got?
    {
      value
    }
  }

  // ---- the configuration ------------------------------------------------------------------------

  datatype LocationType = Oblast | Raion | Hromada | City | Unknown

  datatype Place = Place(uid: U16, kind: LocationType, oblastUid: U16, raionUid: U16)

  type Profile = NE.Profile

  datatype AlertSettings = AlertSettings(
    pollIntervalSec: U16, apiStaleAfterSec: U16, startConfirmations: Byte, endConfirmations: Byte,
    partialActive: bool, partialSiren: bool, partialLed: bool, notifyEscalation: bool,
    notifyAdditionalLocation: bool, remindersWhenStale: bool, quietTransitions: Byte)

  datatype RelaySettings = RelaySettings(single: bool, activeHigh: bool, maxOnMs: U32, testMs: U16)

  datatype AppConfig = AppConfig(
    schemaVersion: Byte, deviceName: string, alerts: AlertSettings, relay: RelaySettings,
    snoozeMinutes: U16, muteAllTypes: bool, indicatorSteady: bool, indicatorActiveHigh: bool,
    selected: seq<Place>, profiles: seq<Profile>)

  /** A C string ends at its first NUL. */
  function CString(s: string): (r: string)
    ensures '\0' !in r && (r == s <==> '\0' !in s)
  {
    if s == [] || s[0] == '\0' then [] else [s[0]] + CString(s[1..])
  }

  /** What the C++ types themselves guarantee: text without NUL, one profile a
      type, repeat counts of one byte. */
  predicate Stored(c: AppConfig) {
    && '\0' !in c.deviceName && |c.profiles| == TYPE_COUNT
    && forall t: AlertType :: StoredPatterns(c.profiles[t])
  }

  predicate StoredPatterns(p: Profile) {
    p.start.repeat <= MAX_U8 && p.end.repeat <= MAX_U8 && p.reminder.repeat <= MAX_U8
  }

  // ---- limits -------------------------------------------------------------------------------------

  predicate PlaceOk(p: Place) {
    && p.uid != 0 && p.kind != Unknown
    && (p.kind == Raion ==> p.oblastUid != 0)
    && (p.kind == Hromada ==> p.oblastUid != 0 && p.raionUid != 0)
  }

  predicate PlacesOk(sel: seq<Place>) {
    && (forall i :: 0 <= i < |sel| ==> PlaceOk(sel[i]))
    && (forall i, j :: 0 <= j < i < |sel| ==> sel[j].uid != sel[i].uid)
  }

  predicate PatternOk(p: Pattern) {
    && |p.steps| <= MAX_STEPS && p.repeat <= 20
    && forall i :: 0 <= i < |p.steps| ==> p.steps[i] != 0 && StepMs(p.steps[i]) <= MAX_STEP_MS
  }

  predicate ProfileOk(p: Profile) {
    PatternOk(p.start) && PatternOk(p.end) && PatternOk(p.reminder) && p.reminderIntervalMs >= MIN_REMINDER_MS
  }

  predicate ProfilesOk(ps: seq<Profile>) {
    forall i :: 0 <= i < |ps| ==> ProfileOk(ps[i])
  }

  /** The first limit broken, in the order they are checked. */
  function Broken(c: AppConfig): Option<Error> {
    if c.schemaVersion == 0 || c.schemaVersion > SCHEMA then Some(BadSchema)
    else if |c.deviceName| == 0 || |c.deviceName| >= NAME_SIZE then Some(BadDeviceName)
    else if c.alerts.pollIntervalSec < 1 || c.alerts.pollIntervalSec > 600 then Some(BadPollInterval)
    else if c.alerts.apiStaleAfterSec < 30 || c.alerts.apiStaleAfterSec > 600 then Some(BadStaleInterval)
    else if !(1 <= c.alerts.startConfirmations <= 5) || !(1 <= c.alerts.endConfirmations <= 10) then
      Some(BadConfirmations)
    else if c.alerts.quietTransitions > 2 then Some(BadPattern)
    else if c.relay.maxOnMs < 1000 || c.relay.maxOnMs > 60000 then Some(BadRelayLimit)
    else if c.relay.testMs < 100 || c.relay.testMs > 10000 then Some(BadTestMs)
    else if c.snoozeMinutes < 1 || c.snoozeMinutes > 240 then Some(BadSnooze)
    else if |c.selected| > SnapshotBuilders.MAX_SELECTED then Some(TooManyLocations)
    else if !PlacesOk(c.selected) then Some(BadLocation)
    else if !ProfilesOk(c.profiles) then Some(BadPattern)
    else None
  }

  predicate Valid(c: AppConfig) {
    Stored(c) && Broken(c) == None
  }

  method ValidatePlaces(sel: seq<Place>) returns (ok: bool)
    ensures ok == PlacesOk(sel)
  {
    for i := 0 to |sel|
      invariant forall k :: 0 <= k < i ==> PlaceOk(sel[k])
      invariant forall k, j :: 0 <= j < k < i ==> sel[j].uid != sel[k].uid
    {
      var loc := sel[i];
      if loc.uid == 0 || loc.kind == Unknown {
        return false;
      }
      if loc.kind == Raion && loc.oblastUid == 0 {
        return false;
      }
      if loc.kind == Hromada && (loc.oblastUid == 0 || loc.raionUid == 0) {
        return false;
      }
      for j := 0 to i
        invariant forall k :: 0 <= k < j ==> sel[k].uid != loc.uid
      {
        if sel[j].uid == loc.uid {
          return false;
        }
      }
    }
    ok := true;
  }

  method ValidatePattern(p: Pattern) returns (ok: bool)
    ensures ok == PatternOk(p)
  {
    if |p.steps| > MAX_STEPS || p.repeat > 20 {
      return false;
    }
    for i := 0 to |p.steps|
      invariant forall k :: 0 <= k < i ==> p.steps[k] != 0 && StepMs(p.steps[k]) <= MAX_STEP_MS
    {
      if p.steps[i] == 0 || StepMs(p.steps[i]) > MAX_STEP_MS {
        return false;
      }
    }
    ok := true;
  }

  method ValidateProfiles(ps: seq<Profile>) returns (ok: bool)
    ensures ok == ProfilesOk(ps)
  {
    for i := 0 to |ps|
      invariant forall k :: 0 <= k < i ==> ProfileOk(ps[k])
    {
      var start := ValidatePattern(ps[i].start);
      var end := ValidatePattern(ps[i].end);
      var reminder := ValidatePattern(ps[i].reminder);
      if !start || !end || !reminder || ps[i].reminderIntervalMs < MIN_REMINDER_MS {
        return false;
      }
    }
    ok := true;
  }

  /** Profiles within the limits are what the siren's player relies on. */
  lemma ValidFeedsPlayer(c: AppConfig)
    requires Valid(c)
    ensures |c.profiles| == TYPE_COUNT && forall t: AlertType :: NE.ValidProfile(c.profiles[t])
  {
    forall t: AlertType
      ensures NE.ValidProfile(c.profiles[t])
    {
      assert ProfileOk(c.profiles[t]);
    }
  }

  // ---- printing -------------------------------------------------------------------------------------

  function TypeName(t: LocationType): string {
    match t
    case Oblast => "oblast"
    case Raion => "raion"
    case Hromada => "hromada"
    case City => "city"
    case Unknown => "unknown"
  }

  function StepToJson(units: int): Json {
    var ms: int := StepMs(units);
    Num(if units > 0 then ms else -ms)
  }

  function StepsToJson(steps: seq<int>): seq<Json> {
    seq(|steps|, i requires 0 <= i < |steps| => StepToJson(steps[i]))
  }

  function PatternToJson(p: Pattern): (o: Json)
    ensures o.Obj?
  {
    EMPTY_OBJECT
    .With(K_ENABLED, Bool(p.enabled))
    .With(K_REPEATS, Num(p.repeat))
    .With(K_STEPS, Arr(StepsToJson(p.steps)))
  }

  function ProfileToJson(p: Profile): Json {
    EMPTY_OBJECT
    .With(K_ENABLED, Bool(p.enabled))
    .With(K_PRIORITY, Num(p.priority))
    .With(K_START, PatternToJson(p.start))
    .With(K_END, PatternToJson(p.end))
    .With(K_REMINDER, PatternToJson(p.reminder).With(K_INTERVAL_SEC, Num(p.reminderIntervalMs / MS)))
  }

  function ProfilesToJson(ps: seq<Profile>, n: nat): (o: Json)
    requires n <= |ps| == TYPE_COUNT
    ensures o.Obj?
  {
    if n == 0 then EMPTY_OBJECT else ProfilesToJson(ps, n - 1).With(OfType(n - 1), ProfileToJson(ps[n - 1]))
  }

  function PlaceToJson(p: Place): Json {
    var o := EMPTY_OBJECT.With(K_UID, Num(p.uid)).With(K_TYPE, Str(TypeName(p.kind)));
    var o1 := if p.oblastUid != 0 then o.With(K_OBLAST_UID, Num(p.oblastUid)) else o;
    if p.raionUid != 0 then o1.With(K_RAION_UID, Num(p.raionUid)) else o1
  }

  function AlertsToJson(a: AlertSettings): (o: Json)
    ensures o.Obj?
  {
    EMPTY_OBJECT
    .With(K_POLL_SEC, Num(a.pollIntervalSec))
    .With(K_STALE_SEC, Num(a.apiStaleAfterSec))
    .With(K_START_CONF, Num(a.startConfirmations))
    .With(K_END_CONF, Num(a.endConfirmations))
    .With(K_PARTIAL_ACTIVE, Bool(a.partialActive))
    .With(K_PARTIAL_SIREN, Bool(a.partialSiren))
    .With(K_PARTIAL_LED, Bool(a.partialLed))
    .With(K_NOTIFY_ESCALATION, Bool(a.notifyEscalation))
    .With(K_NOTIFY_ADDITIONAL, Bool(a.notifyAdditionalLocation))
    .With(K_REMINDERS_WHEN_STALE, Bool(a.remindersWhenStale))
    .With(K_QUIET_TRANSITIONS, Num(a.quietTransitions))
  }

  function RelayToJson(r: RelaySettings): (o: Json)
    ensures o.Obj?
  {
    EMPTY_OBJECT
    .With(K_SINGLE, Bool(r.single))
    .With(K_ACTIVE_HIGH, Bool(r.activeHigh))
    .With(K_MAX_ON_MS, Num(r.maxOnMs))
    .With(K_TEST_MS, Num(r.testMs))
  }

  function PlacesToJson(sel: seq<Place>): Json {
    Arr(seq(|sel|, i requires 0 <= i < |sel| => PlaceToJson(sel[i])))
  }

  function ToJson(c: AppConfig): Json
    requires |c.profiles| == TYPE_COUNT
  {
    EMPTY_OBJECT
    .With(K_SCHEMA, Num(c.schemaVersion))
    .With(K_DEVICE, EMPTY_OBJECT.With(K_NAME, Str(c.deviceName)))
    .With(K_ALERTS, AlertsToJson(c.alerts))
    .With(K_RELAY, RelayToJson(c.relay))
    .With(K_MUTE, EMPTY_OBJECT.With(K_SNOOZE_MIN, Num(c.snoozeMinutes)).With(K_ALL_TYPES, Bool(c.muteAllTypes)))
    .With(K_LED, EMPTY_OBJECT.With(K_ALERT_STEADY, Bool(c.indicatorSteady))
                           .With(K_ALERT_ACTIVE_HIGH, Bool(c.indicatorActiveHigh)))
    .With(K_LOCATIONS, PlacesToJson(c.selected))
    .With(K_PROFILES, ProfilesToJson(c.profiles, TYPE_COUNT))
  }

  // ---- reading --------------------------------------------------------------------------------------

  /** A missing or null member keeps `current`; anything but an integer that fits fails. */
  function Unsigned(v: Json, current: nat, max: nat, error: Error): (r: Read<nat>)
    requires max <= MAX_U32
    ensures r.Got? && current <= max ==> r.value <= max
  {
    match v
    case Null => Got(current)
    case Num(n) => if 0 <= n <= max then Got(n) else Bad(error)
    case _ => Bad(error)
  }

  function Flag(v: Json, current: bool, error: Error): Read<bool> {
    match v
    case Null => Got(current)
    case Bool(b) => Got(b)
    case _ => Bad(error)
  }

  function TypeFromName(v: Json): LocationType {
    if !v.Str? then Unknown
    else
      var s := CString(v.s);
      if s == "oblast" then Oblast
      else if s == "raion" then Raion
      else if s == "hromada" then Hromada
      else if s == "city" then City
      else Unknown
  }

  function AddStep(p: Pattern, v: Json): Read<Pattern> {
    if !v.Num? || v.n == 0 || v.n > MAX_STEP_MS || v.n < -MAX_STEP_MS then Bad(BadPattern)
    else
      var (added, next) := Add(p, v.n > 0, Abs(v.n));
      if added then Got(next) else Bad(BadPattern)
  }

  function AddSteps(p: Pattern, items: seq<Json>): Read<Pattern> {
    if items == [] then Got(p)
    else
      var next :- AddSteps(p, items[..|items| - 1]);
      AddStep(next, items[|items| - 1])
  }

  /** Length of the first step of the kind, 0 if there is none. */
  function FirstMs(steps: seq<int>, on: bool): nat {
    if steps == [] then 0
    else if (steps[0] > 0) == on then StepMs(steps[0])
    else FirstMs(steps[1..], on)
  }

  /** Either `steps` or the older pair of ON and OFF lengths. */
  function ReadPattern(o: Json, p: Pattern): (r: Read<Pattern>)
    ensures r.Got? && p.repeat <= MAX_U8 ==> r.value.repeat <= MAX_U8
  {
    if o.Null? then Got(p)
    else if !o.Obj? then Bad(BadPattern)
    else
      var enabled :- Flag(o.Get(K_ENABLED), p.enabled, BadPattern);
      var repeat :- Unsigned(o.Get(K_REPEATS), p.repeat, MAX_U8, BadPattern);
      var steps, on, off := o.Get(K_STEPS), o.Get(K_ON_MS), o.Get(K_OFF_MS);
      if !steps.Null? then
        if !steps.Arr? || |steps.items| > MAX_STEPS then Bad(BadPattern)
        else
          StepsKeepRest(Pattern(enabled, repeat, []), steps.items);
          AddSteps(Pattern(enabled, repeat, []), steps.items)
      else if on.Null? && off.Null? then Got(Pattern(enabled, repeat, p.steps))
      else
        var onMs :- Unsigned(on, FirstMs(p.steps, true), MAX_U32, BadPattern);
        var offMs :- Unsigned(off, FirstMs(p.steps, false), MAX_U32, BadPattern);
        if onMs > MAX_STEP_MS || offMs > MAX_STEP_MS then Bad(BadPattern)
        else Got(Pulses(onMs, offMs, repeat, enabled))
  }

  lemma {:induction false} StepsKeepRest(p: Pattern, items: seq<Json>)
    ensures var r := AddSteps(p, items);
            r.Got? ==> r.value.enabled == p.enabled && r.value.repeat == p.repeat
  {
    if items != [] {
      StepsKeepRest(p, items[..|items| - 1]);
    }
  }

  /** Seconds in the document, milliseconds in the configuration. */
  function ReadInterval(v: Json, ms: U32): (r: Read<U32>)
    ensures r.Got? ==> r.value % MS == 0
    ensures v == Num(ms / MS) ==> r == Got(ms / MS * MS)
  {
    var sec :- Unsigned(v, ms / MS, MAX_U32, BadPattern);
    if sec > MAX_U32 / MS then Bad(BadPattern) else Got(sec * MS)
  }

  predicate Whole(p: Profile) {
    p.reminderIntervalMs % MS == 0
  }

  function ReadProfile(o: Json, p: Profile): (r: Read<Profile>)
    ensures r.Got? && StoredPatterns(p) ==> StoredPatterns(r.value)
    ensures r.Got? && Whole(p) ==> Whole(r.value)
  {
    if o.Null? then Got(p)
    else if !o.Obj? then Bad(BadPattern)
    else
      var enabled :- Flag(o.Get(K_ENABLED), p.enabled, BadPattern);
      var priority :- Unsigned(o.Get(K_PRIORITY), p.priority, MAX_U8, BadPattern);
      var start :- ReadPattern(o.Get(K_START), p.start);
      var end :- ReadPattern(o.Get(K_END), p.end);
      var reminder :- ReadPattern(o.Get(K_REMINDER), p.reminder);
      var interval :- ReadInterval(o.Get(K_REMINDER).Get(K_INTERVAL_SEC), p.reminderIntervalMs);
      Got(NE.Profile(enabled, start, end, reminder, interval, priority))
  }

  /** The first `n` types. */
  function ReadProfiles(o: Json, ps: seq<Profile>, n: nat): (r: Read<seq<Profile>>)
    requires n <= |ps| == TYPE_COUNT
    ensures r.Got? ==> |r.value| == TYPE_COUNT
    ensures r.Got? ==> forall i :: n <= i < TYPE_COUNT ==> r.value[i] == ps[i]
    ensures r.Got? ==> forall i: AlertType :: i < n ==>
              ReadProfile(o.Get(OfType(i)), ps[i]) == Got(r.value[i])
  {
    if n == 0 then Got(ps)
    else
      var before :- ReadProfiles(o, ps, n - 1);
      var profile :- ReadProfile(o.Get(OfType(n - 1)), ps[n - 1]);
      Got(before[n - 1 := profile])
  }

  predicate HasUid(ps: seq<Place>, uid: nat) {
    exists i :: 0 <= i < |ps| && ps[i].uid == uid
  }

  function ReadPlace(o: Json, before: seq<Place>): Read<Place> {
    if !o.Obj? then Bad(BadLocation)
    else
      var uid :- Unsigned(o.Get(K_UID), 0, MAX_U16, BadLocation);
      var oblast :- Unsigned(o.Get(K_OBLAST_UID), 0, MAX_U16, BadLocation);
      var raion :- Unsigned(o.Get(K_RAION_UID), 0, MAX_U16, BadLocation);
      var kind := TypeFromName(o.Get(K_TYPE));
      if uid == 0 || kind == Unknown || HasUid(before, uid) then Bad(BadLocation)
      else Got(Place(uid, kind, oblast, raion))
  }

  function ReadPlaces(items: seq<Json>): (r: Read<seq<Place>>)
    ensures r.Got? ==> |r.value| == |items|
  {
    if items == [] then Got([])
    else
      var before :- ReadPlaces(items[..|items| - 1]);
      var place :- ReadPlace(items[|items| - 1], before);
      Got(before + [place])
  }

  function ReadSelected(v: Json, sel: seq<Place>): Read<seq<Place>> {
    if v.Null? then Got(sel)
    else if !v.Arr? then Bad(BadLocation)
    else if |v.items| > SnapshotBuilders.MAX_SELECTED then Bad(TooManyLocations)
    else ReadPlaces(v.items)
  }

  function ReadName(v: Json, name: string): (r: Read<string>)
    ensures r.Got? && '\0' !in name ==> '\0' !in r.value
  {
    match v
    case Null => Got(name)
    case Str(s) =>
      var text := CString(s);
      if |text| == 0 || |text| >= NAME_SIZE then Bad(BadDeviceName) else Got(text)
    case _ => Bad(BadDeviceName)
  }

  function ReadAlerts(a: Json, c: AlertSettings): Read<AlertSettings> {
    var poll :- Unsigned(a.Get(K_POLL_SEC), c.pollIntervalSec, MAX_U16, BadPollInterval);
    var stale :- Unsigned(a.Get(K_STALE_SEC), c.apiStaleAfterSec, MAX_U16, BadStaleInterval);
    var start :- Unsigned(a.Get(K_START_CONF), c.startConfirmations, MAX_U8, BadConfirmations);
    var end :- Unsigned(a.Get(K_END_CONF), c.endConfirmations, MAX_U8, BadConfirmations);
    var active :- Flag(a.Get(K_PARTIAL_ACTIVE), c.partialActive, BadPattern);
    var siren :- Flag(a.Get(K_PARTIAL_SIREN), c.partialSiren, BadPattern);
    var led :- Flag(a.Get(K_PARTIAL_LED), c.partialLed, BadPattern);
    var escalation :- Flag(a.Get(K_NOTIFY_ESCALATION), c.notifyEscalation, BadPattern);
    var additional :- Flag(a.Get(K_NOTIFY_ADDITIONAL), c.notifyAdditionalLocation, BadPattern);
    var stalely :- Flag(a.Get(K_REMINDERS_WHEN_STALE), c.remindersWhenStale, BadPattern);
    var quiet :- Unsigned(a.Get(K_QUIET_TRANSITIONS), c.quietTransitions, MAX_U8, BadPattern);
    Got(AlertSettings(poll, stale, start, end, active, siren, led, escalation, additional, stalely, quiet))
  }

  function ReadRelay(r: Json, c: RelaySettings): Read<RelaySettings> {
    var single :- Flag(r.Get(K_SINGLE), c.single, BadRelayLimit);
    var high :- Flag(r.Get(K_ACTIVE_HIGH), c.activeHigh, BadRelayLimit);
    var maxOn :- Unsigned(r.Get(K_MAX_ON_MS), c.maxOnMs, MAX_U32, BadRelayLimit);
    var test :- Unsigned(r.Get(K_TEST_MS), c.testMs, MAX_U16, BadTestMs);
    Got(RelaySettings(single, high, maxOn, test))
  }

  predicate SectionsOk(d: Json) {
    forall k :: k in {K_DEVICE, K_ALERTS, K_RELAY, K_MUTE, K_LED} ==> d.Get(k).Null? || d.Get(k).Obj?
  }

  /** Schema 1 polled too often by default; only untouched defaults are lifted. */
  function Migrated(c: AppConfig): AppConfig {
    if c.schemaVersion != 1 then c
    else
      c.(schemaVersion := 2,
         alerts := c.alerts.(
           pollIntervalSec := if c.alerts.pollIntervalSec == 15 then 20 else c.alerts.pollIntervalSec,
           apiStaleAfterSec := if c.alerts.apiStaleAfterSec == 60 then 90 else c.alerts.apiStaleAfterSec))
  }

  /** The document laid over `c`, before migration and limits. */
  function Overlaid(d: Json, c: AppConfig): (r: Read<AppConfig>)
    requires Stored(c)
    ensures r.Got? ==> Stored(r.value)
    ensures r.Got? && WholeSeconds(c) ==> WholeSeconds(r.value)
  {
    if !d.Obj? then Bad(BadPattern)
    else
      var schema :- Unsigned(d.Get(K_SCHEMA), c.schemaVersion, MAX_U8, BadSchema);
      if !SectionsOk(d) then Bad(BadPattern)
      else
        var name :- ReadName(d.Get(K_DEVICE).Get(K_NAME), c.deviceName);
        var alerts :- ReadAlerts(d.Get(K_ALERTS), c.alerts);
        var relay :- ReadRelay(d.Get(K_RELAY), c.relay);
        var snooze :- Unsigned(d.Get(K_MUTE).Get(K_SNOOZE_MIN), c.snoozeMinutes, MAX_U16, BadSnooze);
        var allTypes :- Flag(d.Get(K_MUTE).Get(K_ALL_TYPES), c.muteAllTypes, BadSnooze);
        var steady :- Flag(d.Get(K_LED).Get(K_ALERT_STEADY), c.indicatorSteady, BadPattern);
        var high :- Flag(d.Get(K_LED).Get(K_ALERT_ACTIVE_HIGH), c.indicatorActiveHigh, BadPattern);
        var selected :- ReadSelected(d.Get(K_LOCATIONS), c.selected);
        var profs := d.Get(K_PROFILES);
        if !profs.Null? && !profs.Obj? then Bad(BadPattern)
        else
          var profiles :- ReadProfiles(profs, c.profiles, TYPE_COUNT);
          Got(AppConfig(schema, name, alerts, relay, snooze, allTypes, steady, high, selected, profiles))
  }

  function FromJson(d: Json, base: AppConfig): (r: Read<AppConfig>)
    requires Stored(base)
    ensures r.Got? ==> Valid(r.value) && r.value.schemaVersion == SCHEMA
    ensures r.Got? && WholeSeconds(base) ==> WholeSeconds(r.value)
  {
    var overlaid :- Overlaid(d, base);
    var c := Migrated(overlaid);
    if Broken(c).Some? then Bad(Broken(c).value) else Got(c)
  }

  // ---- printing and reading undo each other -----------------------------------------------------------

  predicate WholeSeconds(c: AppConfig)
    requires |c.profiles| == TYPE_COUNT
  {
    forall t: AlertType :: Whole(c.profiles[t])
  }

  function Rounded(p: Profile): Profile {
    p.(reminderIntervalMs := p.reminderIntervalMs / MS * MS)
  }

  function RoundedAll(ps: seq<Profile>): seq<Profile> {
    seq(|ps|, i requires 0 <= i < |ps| => Rounded(ps[i]))
  }

  /** What one trip through a document makes of a configuration. */
  function Normal(c: AppConfig): AppConfig
    requires |c.profiles| == TYPE_COUNT
  {
    Migrated(c.(profiles := RoundedAll(c.profiles)))
  }

  lemma {:induction false} StepsTrip(p: Pattern, steps: seq<int>)
    requires PatternOk(p.(steps := steps))
    ensures AddSteps(p.(steps := []), StepsToJson(steps)) == Got(p.(steps := steps))
    decreases |steps|
  {
    hide AddStep;
    if steps != [] {
      var front, units := steps[..|steps| - 1], steps[|steps| - 1];
      StepsTrip(p, front);
      assert StepsToJson(steps)[..|steps| - 1] == StepsToJson(front);
      StepTrip(p.(steps := front), units);
      assert steps == front + [units];
    }
  }

  lemma StepTrip(p: Pattern, units: int)
    requires |p.steps| < MAX_STEPS && units != 0 && StepMs(units) <= MAX_STEP_MS
    ensures AddStep(p, StepToJson(units)) == Got(p.(steps := p.steps + [units]))
  {
    assert (StepMs(units) + UNIT_MS / 2) / UNIT_MS == Abs(units);
  }

  /** `o` may hold more, as a reminder does. */
  lemma PatternTrip(p: Pattern, base: Pattern, o: Json)
    requires PatternOk(p) && o.Obj?
    requires forall k :: k != K_INTERVAL_SEC ==> o.Get(k) == PatternToJson(p).Get(k)
    ensures ReadPattern(o, base) == Got(p)
  {
    hide AddSteps, PatternOk, Pulses;
    StepsTrip(p, p.steps);
    assert |p.steps| <= MAX_STEPS && p.repeat <= 20 by {
      assert PatternOk(p);
      PatternLimits(p);
    }
    var printed := PatternToJson(p);
    assert printed.Get(K_ENABLED) == Bool(p.enabled) && printed.Get(K_REPEATS) == Num(p.repeat);
    assert printed.Get(K_STEPS) == Arr(StepsToJson(p.steps));
  }

  lemma PatternLimits(p: Pattern)
    requires PatternOk(p)
    ensures |p.steps| <= MAX_STEPS && p.repeat <= 20 && PatternOk(Pattern(p.enabled, p.repeat, p.steps))
  {
  }

  lemma ProfileTrip(p: Profile, base: Profile)
    requires ProfileOk(p)
    ensures ReadProfile(ProfileToJson(p), base) == Got(Rounded(p))
  {
    hide ReadPattern, PatternToJson, PatternOk;
    PatternTrip(p.start, base.start, PatternToJson(p.start));
    PatternTrip(p.end, base.end, PatternToJson(p.end));
    PatternTrip(p.reminder, base.reminder,
                PatternToJson(p.reminder).With(K_INTERVAL_SEC, Num(p.reminderIntervalMs / MS)));
  }

  lemma {:induction false} FieldsHold(ps: seq<Profile>, n: nat)
    requires n <= |ps| == TYPE_COUNT
    ensures forall t: AlertType :: t < n ==> ProfilesToJson(ps, n).Get(OfType(t)) == ProfileToJson(ps[t])
    decreases n
  {
    hide ProfileToJson;
    if n > 0 {
      FieldsHold(ps, n - 1);
    }
  }

  lemma {:induction false} ProfilesTrip(ps: seq<Profile>, base: seq<Profile>, n: nat)
    requires |ps| == |base| == TYPE_COUNT && n <= TYPE_COUNT && ProfilesOk(ps)
    ensures var r := ReadProfiles(ProfilesToJson(ps, TYPE_COUNT), base, n);
            r.Got? && forall i :: 0 <= i < n ==> r.value[i] == Rounded(ps[i])
    decreases n
  {
    hide ReadProfile, ProfileToJson, ProfileOk, ProfilesToJson;
    if n > 0 {
      ProfilesTrip(ps, base, n - 1);
      FieldsHold(ps, TYPE_COUNT);
      ProfileTrip(ps[n - 1], base[n - 1]);
    }
  }

  lemma PlaceTrip(p: Place, before: seq<Place>)
    requires PlaceOk(p) && !HasUid(before, p.uid)
    ensures ReadPlace(PlaceToJson(p), before) == Got(p)
  {
    var o := PlaceToJson(p);
    assert o.Get(K_UID) == Num(p.uid) && o.Get(K_TYPE) == Str(TypeName(p.kind));
    assert o.Get(K_OBLAST_UID) == if p.oblastUid != 0 then Num(p.oblastUid) else Null;
    assert o.Get(K_RAION_UID) == if p.raionUid != 0 then Num(p.raionUid) else Null;
    TypeNameTrip(p.kind);
  }

  lemma TypeNameTrip(t: LocationType)
    ensures TypeFromName(Str(TypeName(t))) == t
  {
    var s := TypeName(t);
    assert '\0' !in s;
    assert |s| == match t { case Oblast => 6 case Raion => 5 case Hromada => 7 case City => 4 case Unknown => 7 };
    assert t == Unknown ==> s[0] == 'u';
  }

  lemma {:induction false} PlacesTrip(sel: seq<Place>)
    requires PlacesOk(sel)
    ensures ReadPlaces(PlacesToJson(sel).items) == Got(sel)
    decreases |sel|
  {
    hide PlaceOk, ReadPlace, PlaceToJson;
    if sel != [] {
      var front, last := sel[..|sel| - 1], sel[|sel| - 1];
      PlacesTrip(front);
      var items := PlacesToJson(sel).items;
      assert items[..|sel| - 1] == PlacesToJson(front).items;
      PlaceTrip(last, front);
      assert sel == front + [last];
    }
  }

  lemma AlertsTrip(a: AlertSettings, base: AlertSettings)
    ensures ReadAlerts(AlertsToJson(a), base) == Got(a)
  {
    hide Json.With;
  }

  lemma RelayTrip(r: RelaySettings, base: RelaySettings)
    ensures ReadRelay(RelayToJson(r), base) == Got(r)
  {
  }

  lemma Members(c: AppConfig)
    requires |c.profiles| == TYPE_COUNT
    ensures var d := ToJson(c);
            && d.Obj? && SectionsOk(d)
            && d.Get(K_SCHEMA) == Num(c.schemaVersion) && d.Get(K_DEVICE).Get(K_NAME) == Str(c.deviceName)
            && d.Get(K_ALERTS) == AlertsToJson(c.alerts) && d.Get(K_RELAY) == RelayToJson(c.relay)
            && d.Get(K_MUTE).Get(K_SNOOZE_MIN) == Num(c.snoozeMinutes)
            && d.Get(K_MUTE).Get(K_ALL_TYPES) == Bool(c.muteAllTypes)
            && d.Get(K_LED).Get(K_ALERT_STEADY) == Bool(c.indicatorSteady)
            && d.Get(K_LED).Get(K_ALERT_ACTIVE_HIGH) == Bool(c.indicatorActiveHigh)
            && d.Get(K_LOCATIONS) == PlacesToJson(c.selected)
            && d.Get(K_PROFILES) == ProfilesToJson(c.profiles, TYPE_COUNT)
  {
    hide AlertsToJson, RelayToJson, PlacesToJson, ProfilesToJson, Json.With;
  }

  lemma OverlayTrip(c: AppConfig, base: AppConfig)
    requires Valid(c) && Stored(base)
    ensures Overlaid(ToJson(c), base)
            == Got(c.(profiles := RoundedAll(c.profiles)))
  {
    hide ReadAlerts, ReadRelay, AlertsToJson, RelayToJson, ReadPlaces, ReadProfiles, ProfilesToJson, PlacesOk;
    hide ProfilesOk, ToJson, Json.With, Json.Get;
    Members(c);
    AlertsTrip(c.alerts, base.alerts);
    RelayTrip(c.relay, base.relay);
    PlacesTrip(c.selected);
    ProfilesTrip(c.profiles, base.profiles, TYPE_COUNT);
    var profiles := ReadProfiles(ProfilesToJson(c.profiles, TYPE_COUNT), base.profiles, TYPE_COUNT).value;
    assert profiles == RoundedAll(c.profiles);
  }

  /** Printing and reading over anything else gives the configuration back, with
      schema 1 migrated and reminders cut to whole seconds. */
  lemma RoundTrip(c: AppConfig, base: AppConfig)
    requires Valid(c) && Stored(base)
    ensures FromJson(ToJson(c), base) == Got(Normal(c))
  {
    hide Overlaid, ToJson, PatternOk, PlacesOk;
    OverlayTrip(c, base);
    NormalIsValid(c);
  }

  lemma NormalIsValid(c: AppConfig)
    requires Valid(c)
    ensures Valid(Normal(c))
  {
    hide PatternOk, PlacesOk;
    var n := Normal(c);
    forall t: AlertType
      ensures ProfileOk(n.profiles[t]) && StoredPatterns(n.profiles[t])
    {
      assert ProfileOk(c.profiles[t]) && StoredPatterns(c.profiles[t]);
    }
  }

  /** Nothing is lost exactly when the schema is current and reminders are whole seconds. */
  lemma RoundTripExactly(c: AppConfig, base: AppConfig)
    requires Valid(c) && Stored(base)
    ensures FromJson(ToJson(c), base) == Got(c) <==> c.schemaVersion == SCHEMA && WholeSeconds(c)
  {
    hide FromJson, ToJson, Broken;
    RoundTrip(c, base);
    var n := Normal(c);
    if c.schemaVersion == SCHEMA && WholeSeconds(c) {
      assert n.profiles == c.profiles;
    } else if c.schemaVersion == SCHEMA {
      var t: AlertType :| !Whole(c.profiles[t]);
      assert n.profiles[t] != c.profiles[t];
    }
  }

  /** Whatever is accepted over whole-second reminders survives every later trip. */
  lemma AcceptedSurvives(d: Json, base: AppConfig, other: AppConfig)
    requires Stored(base) && WholeSeconds(base) && Stored(other) && FromJson(d, base).Got?
    ensures FromJson(ToJson(FromJson(d, base).value), other) == FromJson(d, base)
  {
    hide FromJson, ToJson;
    RoundTripExactly(FromJson(d, base).value, other);
  }

  /** A member that is given sets its field, one that is missing leaves it. */
  predicate Sets(v: Json, before: int, after: int) {
    if v.Null? then after == before else v == Num(after)
  }

  predicate SetsFlag(v: Json, before: bool, after: bool) {
    if v.Null? then after == before else v == Bool(after)
  }

  lemma AlertsAreSet(a: Json, before: AlertSettings)
    requires ReadAlerts(a, before).Got?
    ensures var c := ReadAlerts(a, before).value;
            && Sets(a.Get(K_POLL_SEC), before.pollIntervalSec, c.pollIntervalSec)
            && Sets(a.Get(K_STALE_SEC), before.apiStaleAfterSec, c.apiStaleAfterSec)
            && Sets(a.Get(K_START_CONF), before.startConfirmations, c.startConfirmations)
            && Sets(a.Get(K_END_CONF), before.endConfirmations, c.endConfirmations)
            && Sets(a.Get(K_QUIET_TRANSITIONS), before.quietTransitions, c.quietTransitions)
            && SetsFlag(a.Get(K_PARTIAL_ACTIVE), before.partialActive, c.partialActive)
            && SetsFlag(a.Get(K_PARTIAL_SIREN), before.partialSiren, c.partialSiren)
            && SetsFlag(a.Get(K_PARTIAL_LED), before.partialLed, c.partialLed)
            && SetsFlag(a.Get(K_NOTIFY_ESCALATION), before.notifyEscalation, c.notifyEscalation)
            && SetsFlag(a.Get(K_NOTIFY_ADDITIONAL), before.notifyAdditionalLocation, c.notifyAdditionalLocation)
            && SetsFlag(a.Get(K_REMINDERS_WHEN_STALE), before.remindersWhenStale, c.remindersWhenStale)
  {
    hide Json.Get;
  }

  lemma RelayIsSet(r: Json, before: RelaySettings)
    requires ReadRelay(r, before).Got?
    ensures var c := ReadRelay(r, before).value;
            && SetsFlag(r.Get(K_SINGLE), before.single, c.single)
            && SetsFlag(r.Get(K_ACTIVE_HIGH), before.activeHigh, c.activeHigh)
            && Sets(r.Get(K_MAX_ON_MS), before.maxOnMs, c.maxOnMs) && Sets(r.Get(K_TEST_MS), before.testMs, c.testMs)
  {
    hide Json.Get;
  }

  lemma NoPatternRead(p: Pattern)
    ensures ReadPattern(Null, p) == Got(p)
  {
  }

  lemma ProfileIsSet(o: Json, before: Profile)
    requires ReadProfile(o, before).Got?
    ensures var p := ReadProfile(o, before).value;
            && SetsFlag(o.Get(K_ENABLED), before.enabled, p.enabled)
            && Sets(o.Get(K_PRIORITY), before.priority, p.priority)
            && ReadPattern(o.Get(K_START), before.start) == Got(p.start)
            && ReadPattern(o.Get(K_END), before.end) == Got(p.end)
            && ReadPattern(o.Get(K_REMINDER), before.reminder) == Got(p.reminder)
            && Sets(o.Get(K_REMINDER).Get(K_INTERVAL_SEC), before.reminderIntervalMs / 1000, p.reminderIntervalMs / 1000)
  {
    hide ReadPattern;
    NoPatternRead(before.start);
    NoPatternRead(before.end);
    NoPatternRead(before.reminder);
  }

  /** Section by section: an accepted document of the current schema sets exactly the
      fields it names. */
  lemma SectionsAreSet(d: Json, base: AppConfig, t: AlertType)
    requires Stored(base) && base.schemaVersion == SCHEMA && d.Get(K_SCHEMA) != Num(1) && FromJson(d, base).Got?
    ensures var c := FromJson(d, base).value;
            && ReadName(d.Get(K_DEVICE).Get(K_NAME), base.deviceName) == Got(c.deviceName)
            && ReadAlerts(d.Get(K_ALERTS), base.alerts) == Got(c.alerts)
            && ReadRelay(d.Get(K_RELAY), base.relay) == Got(c.relay)
            && Sets(d.Get(K_MUTE).Get(K_SNOOZE_MIN), base.snoozeMinutes, c.snoozeMinutes)
            && SetsFlag(d.Get(K_MUTE).Get(K_ALL_TYPES), base.muteAllTypes, c.muteAllTypes)
            && SetsFlag(d.Get(K_LED).Get(K_ALERT_STEADY), base.indicatorSteady, c.indicatorSteady)
            && SetsFlag(d.Get(K_LED).Get(K_ALERT_ACTIVE_HIGH), base.indicatorActiveHigh, c.indicatorActiveHigh)
            && ReadProfile(d.Get(K_PROFILES).Get(42 + t), base.profiles[t]) == Got(c.profiles[t])
  {
    hide Overlaid, Broken, ReadProfile, ReadAlerts, ReadRelay, ReadName, Json.Get;
    OverlaidSets(d, base, t);
  }

  lemma OverlaidSets(d: Json, base: AppConfig, t: AlertType)
    requires Stored(base) && Overlaid(d, base).Got?
    ensures var c := Overlaid(d, base).value;
            && ReadName(d.Get(K_DEVICE).Get(K_NAME), base.deviceName) == Got(c.deviceName)
            && ReadAlerts(d.Get(K_ALERTS), base.alerts) == Got(c.alerts)
            && ReadRelay(d.Get(K_RELAY), base.relay) == Got(c.relay)
            && Sets(d.Get(K_SCHEMA), base.schemaVersion, c.schemaVersion)
            && Sets(d.Get(K_MUTE).Get(K_SNOOZE_MIN), base.snoozeMinutes, c.snoozeMinutes)
            && SetsFlag(d.Get(K_MUTE).Get(K_ALL_TYPES), base.muteAllTypes, c.muteAllTypes)
            && SetsFlag(d.Get(K_LED).Get(K_ALERT_STEADY), base.indicatorSteady, c.indicatorSteady)
            && SetsFlag(d.Get(K_LED).Get(K_ALERT_ACTIVE_HIGH), base.indicatorActiveHigh, c.indicatorActiveHigh)
            && ReadProfile(d.Get(K_PROFILES).Get(42 + t), base.profiles[t]) == Got(c.profiles[t])
  {
    hide ReadProfile, ReadAlerts, ReadRelay, ReadName, ReadSelected, Json.Get, SectionsOk, StoredPatterns;
  }

  /** Which configurations pass: every limit, in numbers. */
  lemma WithinLimitsExactly(c: AppConfig)
    ensures Broken(c) == None <==>
            && 1 <= c.schemaVersion <= 2 && 1 <= |c.deviceName| <= 31
            && 1 <= c.alerts.pollIntervalSec <= 600 && 30 <= c.alerts.apiStaleAfterSec <= 600
            && 1 <= c.alerts.startConfirmations <= 5 && 1 <= c.alerts.endConfirmations <= 10
            && c.alerts.quietTransitions <= 2
            && 1000 <= c.relay.maxOnMs <= 60000 && 100 <= c.relay.testMs <= 10000
            && 1 <= c.snoozeMinutes <= 240 && |c.selected| <= 16
            && (forall i :: 0 <= i < |c.selected| ==>
                  var p := c.selected[i];
                  && p.uid != 0 && p.kind != Unknown && (p.kind == Raion || p.kind == Hromada ==> p.oblastUid != 0)
                  && (p.kind == Hromada ==> p.raionUid != 0)
                  && forall j :: 0 <= j < i ==> c.selected[j].uid != p.uid)
            && (forall i :: 0 <= i < |c.profiles| ==>
                  var p := c.profiles[i];
                  p.reminderIntervalMs >= 30000
                  && forall q :: q in {p.start, p.end, p.reminder} ==>
                       |q.steps| <= 12 && q.repeat <= 20
                       && forall k :: 0 <= k < |q.steps| ==> 1 <= Abs(q.steps[k]) <= 6000)
  {
    LimitsOfPlaces(c.selected);
    LimitsOfProfiles(c.profiles);
  }

  lemma LimitsOfPlaces(sel: seq<Place>)
    ensures PlacesOk(sel) <==>
            forall i :: 0 <= i < |sel| ==>
                  var p := sel[i];
                  && p.uid != 0 && p.kind != Unknown && (p.kind == Raion || p.kind == Hromada ==> p.oblastUid != 0)
                  && (p.kind == Hromada ==> p.raionUid != 0)
                  && forall j :: 0 <= j < i ==> sel[j].uid != p.uid
  {
  }

  lemma LimitsOfProfiles(ps: seq<Profile>)
    ensures ProfilesOk(ps) <==>
            forall i :: 0 <= i < |ps| ==>
                  var p := ps[i];
                  p.reminderIntervalMs >= 30000
                  && forall q :: q in {p.start, p.end, p.reminder} ==>
                       |q.steps| <= 12 && q.repeat <= 20
                       && forall k :: 0 <= k < |q.steps| ==> 1 <= Abs(q.steps[k]) <= 6000
  {
  }

  /** Schema 1: only the two untouched defaults are lifted, all else is kept. */
  lemma OldDefaultsAreLifted(c: AppConfig, base: AppConfig)
    requires Valid(c) && Stored(base) && c.schemaVersion == 1
    ensures FromJson(ToJson(c), base).Got?
    ensures var r, a := FromJson(ToJson(c), base).value, c.alerts;
            && r.schemaVersion == 2
            && r.alerts == a.(pollIntervalSec := if a.pollIntervalSec == 15 then 20 else a.pollIntervalSec,
                              apiStaleAfterSec := if a.apiStaleAfterSec == 60 then 90 else a.apiStaleAfterSec)
            && r.(schemaVersion := 1, alerts := a, profiles := c.profiles) == c
  {
    hide FromJson, ToJson, Broken;
    RoundTrip(c, base);
  }

  /** Sections that are missing leave their part of the configuration alone. */
  lemma MissingKeeps(d: Json, base: AppConfig)
    requires Stored(base) && base.schemaVersion == SCHEMA && d.Get(K_SCHEMA).Null? && FromJson(d, base).Got?
    ensures var c := FromJson(d, base).value;
            && (d.Get(K_DEVICE).Null? ==> c.deviceName == base.deviceName)
            && (d.Get(K_ALERTS).Null? ==> c.alerts == base.alerts)
            && (d.Get(K_RELAY).Null? ==> c.relay == base.relay)
            && (d.Get(K_MUTE).Null? ==> c.snoozeMinutes == base.snoozeMinutes && c.muteAllTypes == base.muteAllTypes)
            && (d.Get(K_LED).Null? ==> c.indicatorSteady == base.indicatorSteady
                                       && c.indicatorActiveHigh == base.indicatorActiveHigh)
            && (d.Get(K_LOCATIONS).Null? ==> c.selected == base.selected)
            && (d.Get(K_PROFILES).Null? ==> c.profiles == base.profiles)
  {
    hide ReadProfile, Broken;
    var c := Overlaid(d, base).value;
    assert FromJson(d, base).value == c;
    if d.Get(K_PROFILES).Null? {
      assert forall t: AlertType :: ReadProfile(Null, base.profiles[t]) == Got(base.profiles[t]) by {
        forall t: AlertType
          ensures ReadProfile(Null, base.profiles[t]) == Got(base.profiles[t])
        {
          NothingRead(base.profiles[t]);
        }
      }
      assert forall t: AlertType :: c.profiles[t] == base.profiles[t];
    }
  }

  lemma NothingRead(p: Profile)
    ensures ReadProfile(Null, p) == Got(p)
  {
  }

  /** The older pair means the two steps exactly when both lengths round to a step. */
  lemma LegacyPairIsSteps(p: Pattern, enabled: bool, repeat: nat, on: int, off: int)
    requires repeat <= MAX_U8 && 0 <= on <= MAX_STEP_MS && 0 <= off <= MAX_STEP_MS
    ensures var rest := EMPTY_OBJECT.With(K_ENABLED, Bool(enabled)).With(K_REPEATS, Num(repeat));
            ReadPattern(rest.With(K_ON_MS, Num(on)).With(K_OFF_MS, Num(off)), p)
            == ReadPattern(rest.With(K_STEPS, Arr([Num(on), Num(-off)])), p)
            <==> on >= UNIT_MS / 2 && off >= UNIT_MS / 2
  {
    var empty := Pattern(enabled, repeat, []);
    var items := [Num(on), Num(-off)];
    assert items[..1] == [Num(on)] && [Num(on)][..0] == [];
    assert AddSteps(empty, []) == Got(empty);
    assert AddSteps(empty, [Num(on)]) == AddStep(empty, Num(on));
    assert AddSteps(empty, items) ==
           if AddStep(empty, Num(on)).Bad? then AddStep(empty, Num(on))
           else AddStep(AddStep(empty, Num(on)).value, Num(-off));
  }

  lemma FirstOfPulses(p: Pattern, onMs: nat, offMs: nat)
    requires p == Pulses(onMs, offMs, p.repeat, p.enabled)
    requires UNIT_MS / 2 <= onMs <= MAX_STEP_MS && UNIT_MS / 2 <= offMs <= MAX_STEP_MS
    ensures FirstMs(p.steps, true) == (onMs + 5) / 10 * 10 && FirstMs(p.steps, false) == (offMs + 5) / 10 * 10
  {
    var u: int, v: int := (onMs + 5) / 10, (offMs + 5) / 10;
    assert [] + [u] == [u] && [u] + [0 - v] == [u, 0 - v];
    assert p.steps == [u, 0 - v] && p.steps[1..] == [0 - v];
  }

  /** Of an older pair given by halves, the other half stays as it was. */
  lemma HalfPairKeepsOther(p: Pattern, onMs: nat, offMs: nat, ms: nat)
    requires p == Pulses(onMs, offMs, p.repeat, p.enabled) && ms <= MAX_STEP_MS
    requires UNIT_MS / 2 <= onMs <= MAX_STEP_MS && UNIT_MS / 2 <= offMs <= MAX_STEP_MS && p.repeat <= MAX_U8
    ensures ReadPattern(EMPTY_OBJECT.With(K_ON_MS, Num(ms)), p) == Got(Pulses(ms, offMs, p.repeat, p.enabled))
    ensures ReadPattern(EMPTY_OBJECT.With(K_OFF_MS, Num(ms)), p) == Got(Pulses(onMs, ms, p.repeat, p.enabled))
  {
    hide Pulses, FirstMs;
    FirstOfPulses(p, onMs, offMs);
    SamePulses(onMs, (onMs + 5) / 10 * 10, ms, ms, p.repeat, p.enabled);
    SamePulses(ms, ms, offMs, (offMs + 5) / 10 * 10, p.repeat, p.enabled);
  }

  lemma SamePulses(a: nat, a': nat, b: nat, b': nat, repeat: nat, enabled: bool)
    requires (a + 5) / 10 == (a' + 5) / 10 && (b + 5) / 10 == (b' + 5) / 10
    requires a <= MAX_STEP_MS && a' <= MAX_STEP_MS && b <= MAX_STEP_MS && b' <= MAX_STEP_MS
    requires (a + 5) / 10 > 0 || a == a'
    requires (b + 5) / 10 > 0 || b == b'
    ensures Pulses(a, b, repeat, enabled) == Pulses(a', b', repeat, enabled)
  {
  }

  // ---- the loops ----------------------------------------------------------------------------------

  lemma {:induction false} StepsFail(p: Pattern, items: seq<Json>, i: nat)
    requires i <= |items| && AddSteps(p, items[..i]).Bad?
    ensures AddSteps(p, items) == AddSteps(p, items[..i])
    decreases |items|
  {
    hide AddStep;
    if i < |items| {
      assert items[..|items| - 1][..i] == items[..i];
      StepsFail(p, items[..|items| - 1], i);
    } else {
      assert items[..i] == items;
    }
  }

  method StepsFromJson(p: Pattern, items: seq<Json>) returns (r: Read<Pattern>)
    ensures r == AddSteps(p, items)
  {
    hide AddStep;
    var next := p;
    for i := 0 to |items|
      invariant AddSteps(p, items[..i]) == Got(next)
    {
      assert items[..i + 1][..i] == items[..i];
      var step := AddStep(next, items[i]);
      if step.Bad? {
        StepsFail(p, items, i + 1);
        return step;
      }
      next := step.value;
    }
    assert items[..|items|] == items;
    r := Got(next);
  }

  method PatternFromJson(o: Json, p: Pattern) returns (r: Read<Pattern>)
    ensures r == ReadPattern(o, p)
  {
    if o.Null? {
      return Got(p);
    }
    if !o.Obj? {
      return Bad(BadPattern);
    }
    var next := p;
    var enabled :- Flag(o.Get(K_ENABLED), p.enabled, BadPattern);
    var repeat :- Unsigned(o.Get(K_REPEATS), p.repeat, MAX_U8, BadPattern);
    next := next.(enabled := enabled, repeat := repeat);
    var steps := o.Get(K_STEPS);
    if !steps.Null? {
      if !steps.Arr? || |steps.items| > MAX_STEPS {
        return Bad(BadPattern);
      }
      r := StepsFromJson(next.(steps := []), steps.items);
      return;
    }
    if o.Get(K_ON_MS).Null? && o.Get(K_OFF_MS).Null? {
      return Got(next);
    }
    var onMs :- Unsigned(o.Get(K_ON_MS), FirstMs(p.steps, true), MAX_U32, BadPattern);
    var offMs :- Unsigned(o.Get(K_OFF_MS), FirstMs(p.steps, false), MAX_U32, BadPattern);
    if onMs > MAX_STEP_MS || offMs > MAX_STEP_MS {
      return Bad(BadPattern);
    }
    r := Got(Pulses(onMs, offMs, next.repeat, next.enabled));
  }

  method ProfileFromJson(o: Json, p: Profile) returns (r: Read<Profile>)
    ensures r == ReadProfile(o, p)
  {
    hide ReadPattern;
    if o.Null? {
      return Got(p);
    }
    if !o.Obj? {
      return Bad(BadPattern);
    }
    var next := p;
    var enabled :- Flag(o.Get(K_ENABLED), p.enabled, BadPattern);
    var priority :- Unsigned(o.Get(K_PRIORITY), p.priority, MAX_U8, BadPattern);
    next := next.(enabled := enabled, priority := priority);
    var start :- PatternFromJson(o.Get(K_START), p.start);
    var end :- PatternFromJson(o.Get(K_END), p.end);
    var reminder :- PatternFromJson(o.Get(K_REMINDER), p.reminder);
    next := next.(start := start, end := end, reminder := reminder);
    var interval :- ReadInterval(o.Get(K_REMINDER).Get(K_INTERVAL_SEC), p.reminderIntervalMs);
    r := Got(next.(reminderIntervalMs := interval));
  }

  lemma {:induction false} ProfilesFail(o: Json, ps: seq<Profile>, i: nat, n: nat)
    requires i <= n <= |ps| == TYPE_COUNT && ReadProfiles(o, ps, i).Bad?
    ensures ReadProfiles(o, ps, n) == ReadProfiles(o, ps, i)
    decreases n
  {
    hide ReadProfile;
    if i < n {
      ProfilesFail(o, ps, i, n - 1);
    }
  }

  method ProfilesFromJson(o: Json, ps: seq<Profile>) returns (r: Read<seq<Profile>>)
    requires |ps| == TYPE_COUNT
    ensures r == ReadProfiles(o, ps, TYPE_COUNT)
  {
    hide ReadProfile;
    var next := ps;
    for i := 0 to TYPE_COUNT
      invariant |next| == TYPE_COUNT && ReadProfiles(o, ps, i) == Got(next)
    {
      var profile := ProfileFromJson(o.Get(OfType(i)), next[i]);
      if profile.Bad? {
        ProfilesFail(o, ps, i + 1, TYPE_COUNT);
        return Bad(profile.error);
      }
      next := next[i := profile.value];
    }
    r := Got(next);
  }

  lemma {:induction false} PlacesFail(items: seq<Json>, i: nat)
    requires i <= |items| && ReadPlaces(items[..i]).Bad?
    ensures ReadPlaces(items) == ReadPlaces(items[..i])
    decreases |items|
  {
    hide ReadPlace;
    if i < |items| {
      assert items[..|items| - 1][..i] == items[..i];
      PlacesFail(items[..|items| - 1], i);
    } else {
      assert items[..i] == items;
    }
  }

  method PlaceFromJson(o: Json, parsed: seq<Place>) returns (r: Read<Place>)
    ensures r == ReadPlace(o, parsed)
  {
    if !o.Obj? {
      return Bad(BadLocation);
    }
    var uid :- Unsigned(o.Get(K_UID), 0, MAX_U16, BadLocation);
    var oblast :- Unsigned(o.Get(K_OBLAST_UID), 0, MAX_U16, BadLocation);
    var raion :- Unsigned(o.Get(K_RAION_UID), 0, MAX_U16, BadLocation);
    var kind := TypeFromName(o.Get(K_TYPE));
    if uid == 0 || kind == Unknown {
      return Bad(BadLocation);
    }
    for i := 0 to |parsed|
      invariant !HasUid(parsed[..i], uid)
    {
      if parsed[i].uid == uid {
        return Bad(BadLocation);
      }
    }
    assert parsed[..|parsed|] == parsed;
    r := Got(Place(uid, kind, oblast, raion));
  }

  method PlacesFromJson(items: seq<Json>) returns (r: Read<seq<Place>>)
    ensures r == ReadPlaces(items)
  {
    hide ReadPlace;
    var parsed := [];
    for i := 0 to |items|
      invariant ReadPlaces(items[..i]) == Got(parsed)
    {
      assert items[..i + 1][..i] == items[..i];
      var place := PlaceFromJson(items[i], parsed);
      if place.Bad? {
        PlacesFail(items, i + 1);
        return Bad(place.error);
      }
      parsed := parsed + [place.value];
    }
    assert items[..|items|] == items;
    r := Got(parsed);
  }

  method ConfigFromJson(d: Json, base: AppConfig) returns (r: Read<AppConfig>)
    requires Stored(base)
    ensures r == FromJson(d, base)
  {
    hide ReadAlerts, ReadRelay, ReadProfiles, ReadPlaces, Broken;
    if !d.Obj? {
      return Bad(BadPattern);
    }
    var c := base;
    var schema :- Unsigned(d.Get(K_SCHEMA), c.schemaVersion, MAX_U8, BadSchema);
    if !SectionsOk(d) {
      return Bad(BadPattern);
    }
    var name :- ReadName(d.Get(K_DEVICE).Get(K_NAME), c.deviceName);
    var alerts :- ReadAlerts(d.Get(K_ALERTS), c.alerts);
    var relay :- ReadRelay(d.Get(K_RELAY), c.relay);
    c := c.(schemaVersion := schema, deviceName := name, alerts := alerts, relay := relay);
    var snooze :- Unsigned(d.Get(K_MUTE).Get(K_SNOOZE_MIN), c.snoozeMinutes, MAX_U16, BadSnooze);
    var allTypes :- Flag(d.Get(K_MUTE).Get(K_ALL_TYPES), c.muteAllTypes, BadSnooze);
    var steady :- Flag(d.Get(K_LED).Get(K_ALERT_STEADY), c.indicatorSteady, BadPattern);
    var high :- Flag(d.Get(K_LED).Get(K_ALERT_ACTIVE_HIGH), c.indicatorActiveHigh, BadPattern);
    c := c.(snoozeMinutes := snooze, muteAllTypes := allTypes, indicatorSteady := steady, indicatorActiveHigh := high);
    var locs := d.Get(K_LOCATIONS);
    if !locs.Null? {
      if !locs.Arr? {
        return Bad(BadLocation);
      }
      if |locs.items| > SnapshotBuilders.MAX_SELECTED {
        return Bad(TooManyLocations);
      }
      var parsed :- PlacesFromJson(locs.items);
      c := c.(selected := parsed);
    }
    var profs := d.Get(K_PROFILES);
    if !profs.Null? {
      if !profs.Obj? {
        return Bad(BadPattern);
      }
      var profiles :- ProfilesFromJson(profs, c.profiles);
      c := c.(profiles := profiles);
    } else {
      NoProfiles(c.profiles, TYPE_COUNT);
    }
    assert Overlaid(d, base) == Got(c);
    c := Migrated(c);
    var broken := ValidateConfig(c);
    r := if broken.Some? then Bad(broken.value) else Got(c);
  }

  lemma {:induction false} NoProfiles(ps: seq<Profile>, n: nat)
    requires n <= |ps| == TYPE_COUNT
    ensures ReadProfiles(Null, ps, n) == Got(ps)
    decreases n
  {
    hide ReadProfile;
    if n > 0 {
      NoProfiles(ps, n - 1);
      NothingRead(ps[n - 1]);
      assert ps[n - 1 := ps[n - 1]] == ps;
    }
  }

  method ValidateConfig(c: AppConfig) returns (broken: Option<Error>)
    ensures broken == Broken(c)
  {
    hide PlacesOk, ProfilesOk;
    if c.schemaVersion == 0 || c.schemaVersion > SCHEMA {
      return Some(BadSchema);
    }
    if |c.deviceName| == 0 || |c.deviceName| >= NAME_SIZE {
      return Some(BadDeviceName);
    }
    if c.alerts.pollIntervalSec < 1 || c.alerts.pollIntervalSec > 600 {
      return Some(BadPollInterval);
    }
    if c.alerts.apiStaleAfterSec < 30 || c.alerts.apiStaleAfterSec > 600 {
      return Some(BadStaleInterval);
    }
    if c.alerts.startConfirmations < 1 || c.alerts.startConfirmations > 5
       || c.alerts.endConfirmations < 1 || c.alerts.endConfirmations > 10 {
      return Some(BadConfirmations);
    }
    if c.alerts.quietTransitions > 2 {
      return Some(BadPattern);
    }
    if c.relay.maxOnMs < 1000 || c.relay.maxOnMs > 60000 {
      return Some(BadRelayLimit);
    }
    if c.relay.testMs < 100 || c.relay.testMs > 10000 {
      return Some(BadTestMs);
    }
    if c.snoozeMinutes < 1 || c.snoozeMinutes > 240 {
      return Some(BadSnooze);
    }
    if |c.selected| > SnapshotBuilders.MAX_SELECTED {
      return Some(TooManyLocations);
    }
    var placesOk := ValidatePlaces(c.selected);
    if !placesOk {
      return Some(BadLocation);
    }
    var profilesOk := ValidateProfiles(c.profiles);
    broken := if profilesOk then None else Some(BadPattern);
  }

  method ConfigToJson(c: AppConfig) returns (d: Json)
    requires |c.profiles| == TYPE_COUNT
    ensures d == ToJson(c)
  {
    hide Json.With, AlertsToJson, RelayToJson, PlaceToJson, ProfileToJson;
    d := EMPTY_OBJECT.With(K_SCHEMA, Num(c.schemaVersion));
    d := d.With(K_DEVICE, EMPTY_OBJECT.With(K_NAME, Str(c.deviceName)));
    d := d.With(K_ALERTS, AlertsToJson(c.alerts));
    d := d.With(K_RELAY, RelayToJson(c.relay));
    d := d.With(K_MUTE, EMPTY_OBJECT.With(K_SNOOZE_MIN, Num(c.snoozeMinutes))
                                    .With(K_ALL_TYPES, Bool(c.muteAllTypes)));
    d := d.With(K_LED, EMPTY_OBJECT.With(K_ALERT_STEADY, Bool(c.indicatorSteady))
                                   .With(K_ALERT_ACTIVE_HIGH, Bool(c.indicatorActiveHigh)));
    var locs := [];
    for i := 0 to |c.selected|
      invariant locs == PlacesToJson(c.selected[..i]).items
    {
      locs := locs + [PlaceToJson(c.selected[i])];
    }
    assert c.selected[..|c.selected|] == c.selected;
    d := d.With(K_LOCATIONS, Arr(locs));
    var profs := EMPTY_OBJECT;
    for t := 0 to TYPE_COUNT
      invariant profs.Obj? && profs == ProfilesToJson(c.profiles, t)
    {
      profs := profs.With(OfType(t), ProfileToJson(c.profiles[t]));
    }
    d := d.With(K_PROFILES, profs);
  }
}
