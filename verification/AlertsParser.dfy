/** From decoded API entries to alerts in the builder (AlertsParser.h). */
module AlertsParsers {
  import opened Types
  import opened Decimal
  import opened SnapshotBuilders

  /** Timestamps are what parseIso8601Utc makes of them, 0 when unusable. */
  datatype ApiLevel = ApiLevel(level: Option<string>, createdAt: int)

  datatype ApiAlert = ApiAlert(
    regionId: string, regionType: string, kind: Option<string>, lastUpdate: int, levels: seq<ApiLevel>)

  /** One region of GET /api/v3/alerts: its own alerts and those of its parents. */
  datatype Entry = Entry(
    regionId: string, regionType: string, regionName: string, lastUpdate: int, alerts: seq<ApiAlert>)

  /** Only an explicit "Yellow" is yellow; anything unknown errs on the loud side. */
  function TypeFromApi(kind: Option<string>, level: Option<string>): AlertType {
    match kind
    case None => UNKNOWN
    case Some(k) =>
      if k == "AIR" then (if level == Some("Yellow") then AIR_RAID_YELLOW else AIR_RAID)
      else if k == "ARTILLERY" then ARTILLERY
      else if k == "URBAN_FIGHTS" then URBAN_FIGHTS
      else if k == "CHEMICAL" then CHEMICAL
      else if k == "NUCLEAR" then NUCLEAR
      else UNKNOWN
  }

  predicate IsYellow(kind: Option<string>, l: ApiLevel) {
    TypeFromApi(kind, l.level) == AIR_RAID_YELLOW
  }

  function EarlierStart(start: int, ts: int): int {
    if start == 0 || (ts > 0 && ts < start) then ts else start
  }

  /** Start time gathered from the levels of one colour. */
  function ColourStart(levels: seq<ApiLevel>, kind: Option<string>, yellow: bool): int {
    if levels == [] then 0
    else
      var start := ColourStart(levels[..|levels| - 1], kind, yellow);
      var last := levels[|levels| - 1];
      if IsYellow(kind, last) == yellow then EarlierStart(start, last.createdAt) else start
  }

  predicate HasColour(levels: seq<ApiLevel>, kind: Option<string>, yellow: bool) {
    exists i :: 0 <= i < |levels| && IsYellow(kind, levels[i]) == yellow
  }

  function Decode(o: ApiAlert): Option<Alert> {
    var uid := UidOf(o.regionId);
    if uid == 0 || o.kind == Some("INFO") then None
    else if o.levels == [] then Some(Alert(TypeFromApi(o.kind, None), uid, o.lastUpdate))
    else if HasColour(o.levels, o.kind, false) then
      Some(Alert(TypeFromApi(o.kind, None), uid, ColourStart(o.levels, o.kind, false)))
    else
      Some(Alert(AIR_RAID_YELLOW, uid, ColourStart(o.levels, o.kind, true)))
  }

  ghost function AlertsOf(os: seq<ApiAlert>): set<Alert> {
    set o | o in os && Decode(o).Some? :: Decode(o).value
  }

  ghost function AlertsIn(entries: seq<Entry>): set<Alert> {
    set e, o | e in entries && o in e.alerts && Decode(o).Some? :: Decode(o).value
  }

  function ColourTimes(levels: seq<ApiLevel>, kind: Option<string>, yellow: bool): set<int> {
    set i | 0 <= i < |levels| && IsYellow(kind, levels[i]) == yellow :: levels[i].createdAt
  }

  /** The first time of the colour that is not 0, or 0. */
  function FirstKnown(levels: seq<ApiLevel>, kind: Option<string>, yellow: bool): int {
    if levels == [] then 0
    else
      var first, last := FirstKnown(levels[..|levels| - 1], kind, yellow), levels[|levels| - 1];
      if first == 0 && IsYellow(kind, last) == yellow then last.createdAt else first
  }

  /** The start a colour should get: the earliest known time, unless a negative one
      comes first, which nothing replaces. */
  ghost function StartOf(levels: seq<ApiLevel>, kind: Option<string>, yellow: bool): int {
    var first := FirstKnown(levels, kind, yellow);
    if first < 0 then first else Least(ColourTimes(levels, kind, yellow))
  }

  /** Whatever the timestamps; and it is the earliest known one exactly when the
      first known one is not negative. */
  lemma {:induction false} ColourStartExactly(levels: seq<ApiLevel>, kind: Option<string>, yellow: bool)
    ensures ColourStart(levels, kind, yellow) == StartOf(levels, kind, yellow)
    ensures ColourStart(levels, kind, yellow) == Least(ColourTimes(levels, kind, yellow))
            <==> FirstKnown(levels, kind, yellow) >= 0
    ensures FirstKnown(levels, kind, yellow) == 0 ==> Least(ColourTimes(levels, kind, yellow)) == 0
    ensures FirstKnown(levels, kind, yellow) > 0 ==> Least(ColourTimes(levels, kind, yellow)) > 0
  {
    if levels == [] {
      assert ColourTimes(levels, kind, yellow) == {};
    } else {
      var front, last := levels[..|levels| - 1], levels[|levels| - 1];
      ColourStartExactly(front, kind, yellow);
      TimesSnoc(front, last, kind, yellow);
      assert levels == front + [last];
      LeastAdd(ColourTimes(front, kind, yellow), last.createdAt);
    }
  }

  lemma TimesSnoc(front: seq<ApiLevel>, last: ApiLevel, kind: Option<string>, yellow: bool)
    ensures ColourTimes(front + [last], kind, yellow)
            == ColourTimes(front, kind, yellow) + if IsYellow(kind, last) == yellow then {last.createdAt} else {}
  {
    var levels := front + [last];
    forall x | x in ColourTimes(front, kind, yellow)
      ensures x in ColourTimes(levels, kind, yellow)
    {
      var i :| 0 <= i < |front| && IsYellow(kind, front[i]) == yellow && front[i].createdAt == x;
      assert levels[i] == front[i];
    }
    assert levels[|front|] == last;
  }

  /** One physical raid is only ever one type: yellow exactly when every level is. */
  lemma RedDominates(o: ApiAlert)
    requires Decode(o).Some? && o.levels != []
    ensures var a := Decode(o).value;
            if forall i :: 0 <= i < |o.levels| ==> IsYellow(o.kind, o.levels[i])
            then a.kind == AIR_RAID_YELLOW && a.startedAt == StartOf(o.levels, o.kind, true)
            else a.kind == TypeFromApi(o.kind, None) != AIR_RAID_YELLOW
                 && a.startedAt == StartOf(o.levels, o.kind, false)
  {
    ColourStartExactly(o.levels, o.kind, false);
    ColourStartExactly(o.levels, o.kind, true);
  }

  /** Which alert an entry is: none for INFO and for an unusable id; an air raid is
      yellow only if every one of its levels says so. */
  lemma KindExactly(o: ApiAlert)
    ensures Decode(o).None? <==> UidOf(o.regionId) == 0 || o.kind == Some("INFO")
    ensures Decode(o).Some? ==>
              var a, air := Decode(o).value, o.kind == Some("AIR");
              var yellow := o.levels != [] && forall i :: 0 <= i < |o.levels| ==> o.levels[i].level == Some("Yellow");
              && a.uid == UidOf(o.regionId) && (o.levels == [] ==> a.startedAt == o.lastUpdate)
              && (a.kind == AIR_RAID <==> air && !yellow)
              && (a.kind == AIR_RAID_YELLOW <==> air && yellow)
              && (a.kind == ARTILLERY <==> o.kind == Some("ARTILLERY"))
              && (a.kind == URBAN_FIGHTS <==> o.kind == Some("URBAN_FIGHTS"))
              && (a.kind == CHEMICAL <==> o.kind == Some("CHEMICAL"))
              && (a.kind == NUCLEAR <==> o.kind == Some("NUCLEAR"))
  {
    assert forall i :: 0 <= i < |o.levels| ==>
        (IsYellow(o.kind, o.levels[i]) <==> o.kind == Some("AIR") && o.levels[i].level == Some("Yellow"));
  }

  /** The loop over the levels, with its two alerts under construction. */
  method DecodeAlert(o: ApiAlert) returns (alert: Option<Alert>)
    ensures alert == Decode(o)
  {
    var uid := UidFromJson(o.regionId);
    if uid == 0 || o.kind == Some("INFO") {
      return None;
    }
    if |o.levels| == 0 {
      return Some(Alert(TypeFromApi(o.kind, None), uid, o.lastUpdate));
    }
    var redStart, yellowStart := 0, 0;
    var hasRed, hasYellow := false, false;
    for i := 0 to |o.levels|
      invariant redStart == ColourStart(o.levels[..i], o.kind, false)
      invariant yellowStart == ColourStart(o.levels[..i], o.kind, true)
      invariant hasRed == HasColour(o.levels[..i], o.kind, false)
      invariant hasYellow == HasColour(o.levels[..i], o.kind, true)
      invariant i > 0 ==> hasRed || hasYellow
    {
      var l := o.levels[i];
      ColourSnoc(o.levels, i, o.kind, false);
      ColourSnoc(o.levels, i, o.kind, true);
      if TypeFromApi(o.kind, l.level) == AIR_RAID_YELLOW {
        hasYellow := true;
        yellowStart := EarlierStart(yellowStart, l.createdAt);
      } else {
        hasRed := true;
        redStart := EarlierStart(redStart, l.createdAt);
      }
    }
    assert o.levels[..|o.levels|] == o.levels;
    if hasRed {
      alert := Some(Alert(TypeFromApi(o.kind, None), uid, redStart));
    } else {
      alert := Some(Alert(AIR_RAID_YELLOW, uid, yellowStart));
    }
  }

  lemma ColourSnoc(levels: seq<ApiLevel>, i: nat, kind: Option<string>, yellow: bool)
    requires i < |levels|
    ensures ColourStart(levels[..i + 1], kind, yellow) ==
            if IsYellow(kind, levels[i]) == yellow
            then EarlierStart(ColourStart(levels[..i], kind, yellow), levels[i].createdAt)
            else ColourStart(levels[..i], kind, yellow)
    ensures HasColour(levels[..i + 1], kind, yellow)
            <==> HasColour(levels[..i], kind, yellow) || IsYellow(kind, levels[i]) == yellow
  {
    assert levels[..i + 1][..i] == levels[..i];
    assert levels[..i + 1][i] == levels[i];
    if HasColour(levels[..i], kind, yellow) {
      var k :| 0 <= k < i && IsYellow(kind, levels[..i][k]) == yellow;
      assert levels[..i + 1][k] == levels[..i][k];
    }
  }

  method RegionToAlerts(e: Entry, b: SnapshotBuilder, ghost seen: set<Alert>)
    requires b.Valid() && b.Holds(seen)
    modifies b.inputs, b.matchedMask, b.cells
    ensures b.Holds(seen + AlertsOf(e.alerts))
  {
    hide Decode, ViewOf;
    assert seen + AlertsOf(e.alerts[..0]) == seen;
    for i := 0 to |e.alerts|
      invariant b.Holds(seen + AlertsOf(e.alerts[..i]))
    {
      var alert := DecodeAlert(e.alerts[i]);
      ghost var before, after := seen + AlertsOf(e.alerts[..i]), seen + AlertsOf(e.alerts[..i + 1]);
      AlertsSnoc(e.alerts, i);
      if alert.Some? {
        assert after == before + {alert.value};
        b.Add(alert.value, before);
      } else {
        assert after == before;
      }
    }
    assert e.alerts[..|e.alerts|] == e.alerts;
  }

  lemma AlertsSnoc(os: seq<ApiAlert>, i: nat)
    requires i < |os|
    ensures AlertsOf(os[..i + 1]) == AlertsOf(os[..i]) + if Decode(os[i]).Some? then {Decode(os[i]).value} else {}
  {
    assert os[..i + 1] == os[..i] + [os[i]];
  }

  lemma EntriesSnoc(entries: seq<Entry>, i: nat)
    requires i < |entries|
    ensures AlertsIn(entries[..i + 1]) == AlertsIn(entries[..i]) + AlertsOf(entries[i].alerts)
  {
    assert entries[..i + 1] == entries[..i] + [entries[i]];
  }

  /** Reset, then one entry at a time. A body that breaks off leaves the builder
      with what came before. */
  method ParseBody(entries: seq<Entry>, b: SnapshotBuilder)
    requires b.Valid()
    modifies b.inputs, b.matchedMask, b.cells
    ensures b.Holds(AlertsIn(entries))
  {
    hide ViewOf;
    b.Reset();
    assert AlertsIn(entries[..0]) == {};
    for i := 0 to |entries|
      invariant b.Holds(AlertsIn(entries[..i]))
    {
      RegionToAlerts(entries[i], b, AlertsIn(entries[..i]));
      EntriesSnoc(entries, i);
    }
    assert entries[..|entries|] == entries;
  }
}
