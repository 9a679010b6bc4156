/** The configuration on flash (ConfigStore.h): what a save promises the next boot. */
module ConfigStores {
  import opened Types
  import opened Patterns
  import opened AtomicJsonFile
  import C = Configs
  import NE = NotificationEngines

  function DefaultProfile(t: AlertType): C.Profile {
    var usual := NE.Profile(true, Pulses(3000, 1000, 3, true), Pulses(1000, 1000, 2, true),
                           Pulses(1000, 1000, 2, false), 900000, 50);
    if t == NUCLEAR then usual.(priority := 90)
    else if t == CHEMICAL then usual.(priority := 80)
    else if t == ARTILLERY then usual.(priority := 60)
    else if t == URBAN_FIGHTS then usual.(priority := 55)
    else if t == AIR_RAID then usual
    else if t == AIR_RAID_YELLOW then usual.(priority := 45, start := Pulses(1000, 1000, 2, true))
    else usual.(priority := 40)
  }

  function Defaults(): (c: C.AppConfig)
    ensures C.Stored(c)
  {
    C.AppConfig(
      C.SCHEMA, "AirAlert", C.AlertSettings(20, 90, 1, 2, true, true, true, true, false, false, 2),
      C.RelaySettings(false, true, 30000, 600), 15, false, false, true, [],
      seq(TYPE_COUNT, t requires 0 <= t < TYPE_COUNT => DefaultProfile(t)))
  }

  /** As shipped: nuclear before chemical, artillery, urban fights, red and yellow air
      raids, the unknown last; a start sounds three times for 3 s, a yellow one twice for
      1 s, as every end does; no reminders. */
  lemma DefaultsSpeak(t: AlertType, t0: int)
    ensures var p := t => DefaultProfile(t).priority;
            p(NUCLEAR) > p(CHEMICAL) > p(ARTILLERY) > p(URBAN_FIGHTS) > p(AIR_RAID) > p(AIR_RAID_YELLOW) > p(UNKNOWN)
    ensures DefaultProfile(t).enabled && Timeline(DefaultProfile(t).reminder, t0) == []
    ensures var twice := [Window(t0, t0 + 1000), Window(t0 + 2000, t0 + 3000)];
            && Timeline(DefaultProfile(t).end, t0) == twice
            && Timeline(DefaultProfile(t).start, t0)
               == if t == AIR_RAID_YELLOW then twice
                  else [Window(t0, t0 + 3000), Window(t0 + 4000, t0 + 7000), Window(t0 + 8000, t0 + 11000)]
  {
    hide Windows, Repeat;
    PulsesBeep(3000, 1000, 3, t0, 0);
    PulsesBeep(3000, 1000, 3, t0, 1);
    PulsesBeep(1000, 1000, 2, t0, 0);
  }

  lemma DefaultsAreGood()
    ensures C.Valid(Defaults()) && C.WholeSeconds(Defaults()) && Defaults().schemaVersion == C.SCHEMA
  {
    var c := Defaults();
    assert c.deviceName == ['A', 'i', 'r', 'A', 'l', 'e', 'r', 't'];
    forall t: AlertType
      ensures C.ProfileOk(c.profiles[t]) && C.Whole(c.profiles[t]) && C.StoredPatterns(c.profiles[t])
    {
      assert c.profiles[t] == DefaultProfile(t);
      PulsesOk(3000, 1000, 3, true);
      PulsesOk(1000, 1000, 2, true);
      PulsesOk(1000, 1000, 2, false);
    }
  }

  lemma PulsesOk(on: nat, off: nat, repeat: nat, enabled: bool)
    requires on <= 50000 && off <= 50000 && repeat <= 20
    ensures C.PatternOk(Pulses(on, off, repeat, enabled)) && Pulses(on, off, repeat, enabled).repeat == repeat
  {
  }

  /** What a boot finds: the stored configuration over the defaults, or nothing usable. */
  function Loaded(fs: Files<C.Json>): Option<C.AppConfig>
  {
    match ReadWithBackup(fs)
    case None => None
    case Some(doc) =>
      var r := C.FromJson(doc, Defaults());
      if r.Got? then Some(r.value) else None
  }

  /** A save of a valid configuration, cut short anywhere or failing at any step:
      the next boot finds the old configuration or the whole new one, and the
      result of the save tells which when it ran to its end. */
  lemma SavedSurvives(fs: Files<C.Json>, c: C.AppConfig, w: Weather)
    requires C.Valid(c)
    requires ReadOne(fs, Current).Some? || ReadOne(fs, Backup).None?
    ensures var trace := Write(fs, C.ToJson(c), w);
            && (forall at :: at in trace.states ==> Loaded(at) == Loaded(fs) || Loaded(at) == Some(C.Normal(c)))
            && Loaded(Last(trace.states)) == if trace.ok then Some(C.Normal(c)) else Loaded(fs)
  {
    hide Write, C.FromJson, C.ToJson, C.Broken, C.Normal;
    CrashSafe(fs, C.ToJson(c), w);
    C.RoundTrip(c, Defaults());
    var trace := Write(fs, C.ToJson(c), w);
    forall at | at in trace.states
      ensures Loaded(at) == Loaded(fs) || Loaded(at) == Some(C.Normal(c))
    {
      assert ReadWithBackup(at) == ReadWithBackup(fs) || ReadWithBackup(at) == Some(C.ToJson(c));
    }
  }

  /** A change taken from the web page over the running configuration is found
      unchanged after the next boot, once the save has succeeded. */
  lemma AcceptedChangeSurvivesBoot(fs: Files<C.Json>, running: C.AppConfig, body: C.Json, w: Weather)
    requires C.Valid(running) && C.WholeSeconds(running)
    ensures var r := C.FromJson(body, running);
            r.Got? && (ReadOne(fs, Current).Some? || ReadOne(fs, Backup).None?)
            && Write(fs, C.ToJson(r.value), w).ok
            ==> Loaded(Last(Write(fs, C.ToJson(r.value), w).states)) == Some(r.value)
  {
    hide Write, C.FromJson, C.ToJson, C.Normal;
    var r := C.FromJson(body, running);
    if r.Got? && (ReadOne(fs, Current).Some? || ReadOne(fs, Backup).None?) && Write(fs, C.ToJson(r.value), w).ok {
      SavedSurvives(fs, r.value, w);
      C.RoundTrip(r.value, Defaults());
      C.AcceptedSurvives(body, running, Defaults());
    }
  }

  class ConfigStore {
    const storage: Storage<C.Json>

    constructor (storage: Storage<C.Json>)
      ensures this.storage == storage
    {
      this.storage := storage;
    }

    method Load(current: C.AppConfig) returns (ok: bool, c: C.AppConfig)
      ensures ok == Loaded(storage.files).Some?
      ensures c == if ok then Loaded(storage.files).value else current
    {
      var doc := ReadWithBackup(storage.files);
      if doc.None? {
        return false, current;
      }
      var r := C.ConfigFromJson(doc.value, Defaults());
      ok, c := r.Got?, if r.Got? then r.value else current;
    }

    method Save(c: C.AppConfig, w: Weather) returns (ok: bool)
      requires C.Stored(c) && storage.trail == [storage.files]
      modifies storage
      ensures !C.Valid(c) ==> !ok && storage.files == old(storage.files)
      ensures C.Valid(c) ==> Trace(storage.trail, ok) == Write(old(storage.files), C.ToJson(c), w)
                             && storage.files == Last(storage.trail)
    {
      hide Write, C.ToJson;
      var broken := C.ValidateConfig(c);
      if broken.Some? {
        return false;
      }
      var doc := C.ConfigToJson(c);
      ok := storage.WriteDocument(doc, w);
    }
  }
}
