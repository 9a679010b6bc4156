/** Applying a webhook to the stored list (apply_event of state.lua), against a
    last-writer-wins map from (region, type) to levels. */
module Webhooks {
  import opened Types
  import opened Decimal
  import opened AlertsParsers
  import opened ProxyState

  /** A decoded event; None stands for a missing field or one of the wrong kind. */
  datatype RawEvent = RawEvent(
    regionId: Option<string>, alarmType: Option<string>, levels: Option<seq<ApiLevel>>, createdAt: int)

  /** The usable part: `levels` is the full state of (id, kind), empty = over. */
  datatype Change = Change(id: string, kind: string, levels: seq<ApiLevel>, createdAt: int)

  function Usable(ev: RawEvent): Option<Change> {
    if ev.regionId.None? || ev.alarmType.None? || ev.levels.None? || !IsNumber(ev.regionId.value) then None
    else Some(Change(ev.regionId.value, ev.alarmType.value, ev.levels.value, ev.createdAt))
  }

  predicate IsKey(a: ApiAlert, id: string, kind: string) {
    a.regionId == id && a.kind == Some(kind)
  }

  predicate HasKey(list: seq<ApiAlert>, id: string, kind: string) {
    exists i :: 0 <= i < |list| && IsKey(list[i], id, kind)
  }

  // ---- one alert list -------------------------------------------------------------------

  function RewriteOne(a: ApiAlert, c: Change): seq<ApiAlert> {
    if !IsKey(a, c.id, c.kind) then [a]
    else if c.levels != [] then [a.(levels := c.levels)]
    else []
  }

  /** Every copy of the key takes the levels, or goes when there are none. */
  function Rewrite(list: seq<ApiAlert>, c: Change): seq<ApiAlert> {
    if list == [] then [] else RewriteOne(list[0], c) + Rewrite(list[1..], c)
  }

  function KindOf(info: Option<Parents>, id: string): string {
    if info.Some? && id in info.value then info.value[id].kind else ""
  }

  function NameOf(info: Option<Parents>, id: string): string {
    if info.Some? && id in info.value then info.value[id].name else ""
  }

  function NewAlert(c: Change, info: Option<Parents>): ApiAlert {
    ApiAlert(c.id, KindOf(info, c.id), Some(c.kind), c.createdAt, c.levels)
  }

  function WithAlert(list: seq<ApiAlert>, c: Change, info: Option<Parents>): seq<ApiAlert> {
    if HasKey(list, c.id, c.kind) then list else list + [NewAlert(c, info)]
  }

  // ---- the whole list of entries ----------------------------------------------------------

  function Rewritten(e: Entry, c: Change): Entry {
    e.(alerts := Rewrite(e.alerts, c))
  }

  /** Rewrites every entry and drops those left with nothing. */
  function RewriteAll(entries: seq<Entry>, c: Change): seq<Entry> {
    if entries == [] then []
    else
      var e := Rewritten(entries[0], c);
      (if e.alerts == [] then [] else [e]) + RewriteAll(entries[1..], c)
  }

  /** The region's own entry is the first of its id, unless that one was dropped. */
  predicate OwnSurvives(entries: seq<Entry>, c: Change) {
    if entries == [] then false
    else if entries[0].regionId == c.id then Rewrite(entries[0].alerts, c) != []
    else OwnSurvives(entries[1..], c)
  }

  /** RewriteAll with the alert added to the own entry. */
  function RewriteWithOwn(entries: seq<Entry>, c: Change, info: Option<Parents>): seq<Entry>
    requires OwnSurvives(entries, c)
  {
    var e := Rewritten(entries[0], c);
    if e.regionId == c.id then [e.(alerts := WithAlert(e.alerts, c, info))] + RewriteAll(entries[1..], c)
    else (if e.alerts == [] then [] else [e]) + RewriteWithOwn(entries[1..], c, info)
  }

  function NewEntry(c: Change, info: Option<Parents>): Entry {
    Entry(c.id, KindOf(info, c.id), NameOf(info, c.id), c.createdAt, [NewAlert(c, info)])
  }

  function Apply(entries: seq<Entry>, c: Change, info: Option<Parents>): seq<Entry> {
    if c.levels == [] then RewriteAll(entries, c)
    else if OwnSurvives(entries, c) then RewriteWithOwn(entries, c, info)
    else RewriteAll(entries, c) + [NewEntry(c, info)]
  }

  /** What a webhook makes of the list, if it is usable. */
  function Served(entries: seq<Entry>, ev: RawEvent, info: Option<Parents>): Option<seq<Entry>> {
    match Usable(ev)
    case None => None
    case Some(c) => Some(Apply(entries, c, info))
  }

  // ---- the loops ----------------------------------------------------------------------------

  method RewriteList(alerts: seq<ApiAlert>, c: Change) returns (list: seq<ApiAlert>)
    ensures list == Rewrite(alerts, c)
  {
    list := alerts;
    assert alerts[..|alerts|] == alerts;
    for ai := |alerts| downto 0
      invariant list == alerts[..ai] + Rewrite(alerts[ai..], c)
    {
      var a := list[ai];
      assert alerts[..ai + 1] == alerts[..ai] + [alerts[ai]];
      assert alerts[ai..][1..] == alerts[ai + 1..];
      assert a == alerts[ai];
      assert list[ai + 1..] == Rewrite(alerts[ai + 1..], c);
      if IsKey(a, c.id, c.kind) {
        if c.levels != [] {
          list := list[ai := a.(levels := c.levels)];
        } else {
          list := list[..ai] + list[ai + 1..];
        }
      }
    }
  }

  function WithOwnAt(entries: seq<Entry>, own: int, c: Change, info: Option<Parents>): seq<Entry>
    requires 0 <= own < |entries|
  {
    entries[own := entries[own].(alerts := WithAlert(entries[own].alerts, c, info))]
  }

  /** The list is edited from the back: `kept` is the part already done, `own`
      the place of the region's own entry in it, -1 when there is none. */
  method ApplyEvent(entries: seq<Entry>, ev: RawEvent, info: Option<Parents>) returns (r: Option<seq<Entry>>)
    ensures r == Served(entries, ev, info)
    ensures r.None? <==> ev.regionId.None? || ev.alarmType.None? || ev.levels.None? || !IsNumber(ev.regionId.value)
  {
    var usable := Usable(ev);
    if usable.None? {
      return None;
    }
    var c := usable.value;
    var kept, own := [], -1;
    for ei := |entries| downto 0
      invariant kept == RewriteAll(entries[ei..], c)
      invariant -1 <= own < |kept|
      invariant own != -1 <==> OwnSurvives(entries[ei..], c)
      invariant own != -1 ==> WithOwnAt(kept, own, c, info) == RewriteWithOwn(entries[ei..], c, info)
    {
      assert entries[ei..][1..] == entries[ei + 1..];
      kept, own := EditEntry(entries[ei], entries[ei + 1..], kept, own, c, info);
      assert entries[ei..] == [entries[ei]] + entries[ei + 1..];
    }
    assert entries[0..] == entries;
    if |c.levels| == 0 {
      return Some(kept);
    }
    if own == -1 {
      return Some(kept + [NewEntry(c, info)]);
    }
    r := Some(WithOwnAt(kept, own, c, info));
  }

  lemma ConsUnfolds(e: Entry, tail: seq<Entry>, c: Change, info: Option<Parents>)
    ensures RewriteAll([e] + tail, c) ==
            (if Rewrite(e.alerts, c) == [] then [] else [Rewritten(e, c)]) + RewriteAll(tail, c)
    ensures OwnSurvives([e] + tail, c) <==>
            if e.regionId == c.id then Rewrite(e.alerts, c) != [] else OwnSurvives(tail, c)
    ensures OwnSurvives([e] + tail, c) ==>
              RewriteWithOwn([e] + tail, c, info) ==
              if e.regionId == c.id
              then [Rewritten(e, c).(alerts := WithAlert(Rewrite(e.alerts, c), c, info))] + RewriteAll(tail, c)
              else (if Rewrite(e.alerts, c) == [] then [] else [Rewritten(e, c)]) + RewriteWithOwn(tail, c, info)
  {
    assert ([e] + tail)[1..] == tail;
  }

  method EditEntry(e: Entry, ghost tail: seq<Entry>, kept: seq<Entry>, own: int, c: Change, ghost info: Option<Parents>)
    returns (kept': seq<Entry>, own': int)
    requires kept == RewriteAll(tail, c)
    requires -1 <= own < |kept|
    requires own != -1 <==> OwnSurvives(tail, c)
    requires own != -1 ==> WithOwnAt(kept, own, c, info) == RewriteWithOwn(tail, c, info)
    ensures kept' == RewriteAll([e] + tail, c)
    ensures -1 <= own' < |kept'|
    ensures own' != -1 <==> OwnSurvives([e] + tail, c)
    ensures own' != -1 ==> WithOwnAt(kept', own', c, info) == RewriteWithOwn([e] + tail, c, info)
  {
    hide RewriteAll, OwnSurvives, RewriteWithOwn, Rewrite, WithAlert;
    ConsUnfolds(e, tail, c, info);
    var list := RewriteList(e.alerts, c);
    if |list| == 0 {
      kept' := kept;
      own' := if e.regionId == c.id then -1 else own;
    } else {
      kept' := [e.(alerts := list)] + kept;
      own' := if e.regionId == c.id then 0 else if own == -1 then -1 else own + 1;
      if own' > 0 {
        assert WithOwnAt(kept', own', c, info) == [kept'[0]] + WithOwnAt(kept, own, c, info);
      }
    }
  }

  // ---- what the stored list means -----------------------------------------------------------

  predicate UniqueIds(entries: seq<Entry>) {
    forall i, j :: 0 <= i < j < |entries| ==> entries[i].regionId != entries[j].regionId
  }

  predicate NoEmptyEntry(entries: seq<Entry>) {
    forall i :: 0 <= i < |entries| ==> entries[i].alerts != []
  }

  predicate HasEntry(entries: seq<Entry>, id: string) {
    exists i :: 0 <= i < |entries| && entries[i].regionId == id
  }

  /** All alerts listed for a region. */
  function AlertsAt(entries: seq<Entry>, id: string): seq<ApiAlert> {
    if entries == [] then []
    else (if entries[0].regionId == id then entries[0].alerts else []) + AlertsAt(entries[1..], id)
  }

  /** What one change does to the alerts listed for region `id`. */
  function Step(list: seq<ApiAlert>, id: string, c: Change, info: Option<Parents>): seq<ApiAlert> {
    if c.levels != [] && id == c.id then WithAlert(Rewrite(list, c), c, info) else Rewrite(list, c)
  }

  lemma {:induction false} RewriteConcat(a: seq<ApiAlert>, b: seq<ApiAlert>, c: Change)
    ensures Rewrite(a + b, c) == Rewrite(a, c) + Rewrite(b, c)
  {
    if a == [] {
      assert a + b == b;
    } else {
      assert (a + b)[1..] == a[1..] + b;
      RewriteConcat(a[1..], b, c);
      assert Rewrite(a + b, c) == RewriteOne(a[0], c) + (Rewrite(a[1..], c) + Rewrite(b, c));
    }
  }

  lemma KeepAt(e: Entry, rest: seq<Entry>, id: string)
    ensures AlertsAt((if e.alerts == [] then [] else [e]) + rest, id)
            == (if e.regionId == id then e.alerts else []) + AlertsAt(rest, id)
  {
    if e.alerts == [] {
      assert [] + rest == rest;
    } else {
      assert ([e] + rest)[1..] == rest;
    }
  }

  lemma {:induction false} RewriteAllAt(entries: seq<Entry>, c: Change, id: string)
    ensures AlertsAt(RewriteAll(entries, c), id) == Rewrite(AlertsAt(entries, id), c)
  {
    if entries != [] {
      var e, rest := Rewritten(entries[0], c), RewriteAll(entries[1..], c);
      var here := if entries[0].regionId == id then entries[0].alerts else [];
      RewriteAllAt(entries[1..], c, id);
      RewriteConcat(here, AlertsAt(entries[1..], id), c);
      KeepAt(e, rest, id);
      assert RewriteAll(entries, c) == (if e.alerts == [] then [] else [e]) + rest;
    }
  }

  lemma {:induction false} NoneAt(entries: seq<Entry>, id: string)
    requires !HasEntry(entries, id)
    ensures AlertsAt(entries, id) == []
    ensures forall c: Change :: c.id == id ==> !OwnSurvives(entries, c)
  {
    if entries != [] {
      assert entries[0].regionId != id;
      assert forall i :: 0 <= i < |entries[1..]| ==> entries[1..][i] == entries[i + 1];
      NoneAt(entries[1..], id);
    }
  }

  lemma UniqueTail(entries: seq<Entry>)
    requires UniqueIds(entries) && entries != []
    ensures UniqueIds(entries[1..]) && !HasEntry(entries[1..], entries[0].regionId)
  {
    assert forall i :: 0 <= i < |entries[1..]| ==> entries[1..][i] == entries[i + 1];
  }

  lemma {:induction false} WithOwnAlerts(entries: seq<Entry>, c: Change, info: Option<Parents>, id: string)
    requires UniqueIds(entries) && OwnSurvives(entries, c)
    ensures AlertsAt(RewriteWithOwn(entries, c, info), id) ==
            if id == c.id then WithAlert(Rewrite(AlertsAt(entries, id), c), c, info)
            else Rewrite(AlertsAt(entries, id), c)
    decreases |entries|
  {
    var e, tail := Rewritten(entries[0], c), entries[1..];
    var here := if entries[0].regionId == id then entries[0].alerts else [];
    UniqueTail(entries);
    RewriteConcat(here, AlertsAt(tail, id), c);
    if e.regionId == c.id {
      RewriteAllAt(tail, c, id);
      NoneAt(tail, c.id);
      var own := e.(alerts := WithAlert(e.alerts, c, info));
      assert ([own] + RewriteAll(tail, c))[1..] == RewriteAll(tail, c);
      if id == c.id {
        assert AlertsAt(entries, id) == entries[0].alerts;
      }
    } else {
      WithOwnAlerts(tail, c, info, id);
      KeepAt(e, RewriteWithOwn(tail, c, info), id);
      if id == c.id {
        assert here == [] && AlertsAt(entries, id) == AlertsAt(tail, id);
      }
    }
  }

  /** Without a surviving own entry nothing is left for the region. */
  lemma {:induction false} OwnGone(entries: seq<Entry>, c: Change)
    requires UniqueIds(entries) && !OwnSurvives(entries, c)
    ensures Rewrite(AlertsAt(entries, c.id), c) == []
    decreases |entries|
  {
    if entries != [] {
      UniqueTail(entries);
      var here := if entries[0].regionId == c.id then entries[0].alerts else [];
      RewriteConcat(here, AlertsAt(entries[1..], c.id), c);
      if entries[0].regionId == c.id {
        NoneAt(entries[1..], c.id);
      } else {
        OwnGone(entries[1..], c);
      }
    }
  }

  lemma {:induction false} AlertsAtConcat(a: seq<Entry>, b: seq<Entry>, id: string)
    ensures AlertsAt(a + b, id) == AlertsAt(a, id) + AlertsAt(b, id)
  {
    if a == [] {
      assert a + b == b;
    } else {
      assert (a + b)[1..] == a[1..] + b;
      AlertsAtConcat(a[1..], b, id);
    }
  }

  /** Region by region, a webhook is one small step on that region's own list. */
  lemma ApplyIsPointwise(entries: seq<Entry>, c: Change, info: Option<Parents>, id: string)
    requires UniqueIds(entries)
    ensures AlertsAt(Apply(entries, c, info), id) == Step(AlertsAt(entries, id), id, c, info)
  {
    if c.levels == [] {
      RewriteAllAt(entries, c, id);
    } else if OwnSurvives(entries, c) {
      WithOwnAlerts(entries, c, info, id);
    } else {
      RewriteAllAt(entries, c, id);
      OwnGone(entries, c);
      var e := NewEntry(c, info);
      AlertsAtConcat(RewriteAll(entries, c), [e], id);
      assert AlertsAt([e], id) == if id == c.id then e.alerts else [];
      if id == c.id {
        assert WithAlert([], c, info) == [NewAlert(c, info)];
      }
    }
  }

  // ---- shape is kept --------------------------------------------------------------------------

  lemma {:induction false} RewriteAllShape(entries: seq<Entry>, c: Change)
    ensures NoEmptyEntry(RewriteAll(entries, c))
    ensures forall id :: HasEntry(RewriteAll(entries, c), id) ==> HasEntry(entries, id)
    ensures UniqueIds(entries) ==> UniqueIds(RewriteAll(entries, c))
  {
    if entries != [] {
      var e, tail, rest := Rewritten(entries[0], c), entries[1..], RewriteAll(entries[1..], c);
      RewriteAllShape(tail, c);
      ShapeCons(e, tail, rest);
      ConsTail(entries);
    }
  }

  lemma ConsTail(entries: seq<Entry>)
    requires entries != []
    ensures entries == [entries[0]] + entries[1..]
    ensures forall id :: HasEntry(entries[1..], id) ==> HasEntry(entries, id)
    ensures HasEntry(entries, entries[0].regionId)
    ensures UniqueIds(entries) ==> UniqueIds(entries[1..]) && !HasEntry(entries[1..], entries[0].regionId)
  {
    forall id | HasEntry(entries[1..], id)
      ensures HasEntry(entries, id)
    {
      var i :| 0 <= i < |entries[1..]| && entries[1..][i].regionId == id;
      assert entries[i + 1].regionId == id;
    }
    if UniqueIds(entries) {
      UniqueTail(entries);
    }
  }

  /** Putting an entry in front of a list drawn from `tail`. */
  lemma ShapeCons(e: Entry, tail: seq<Entry>, rest: seq<Entry>)
    requires forall id :: HasEntry(rest, id) ==> HasEntry(tail, id)
    ensures forall id :: HasEntry([e] + rest, id) ==> id == e.regionId || HasEntry(tail, id)
    ensures UniqueIds(rest) && !HasEntry(tail, e.regionId) ==> UniqueIds([e] + rest)
    ensures NoEmptyEntry(rest) && e.alerts != [] ==> NoEmptyEntry([e] + rest)
  {
    var all := [e] + rest;
    assert forall i :: 1 <= i < |all| ==> all[i] == rest[i - 1];
    forall id | HasEntry(all, id)
      ensures id == e.regionId || HasEntry(tail, id)
    {
      var i :| 0 <= i < |all| && all[i].regionId == id;
      if i > 0 {
        assert rest[i - 1].regionId == id;
      }
    }
    if UniqueIds(rest) && !HasEntry(tail, e.regionId) {
      forall i, j | 0 <= i < j < |all|
        ensures all[i].regionId != all[j].regionId
      {
        assert HasEntry(rest, rest[j - 1].regionId);
      }
    }
  }

  lemma {:induction false} WithOwnShape(entries: seq<Entry>, c: Change, info: Option<Parents>)
    requires OwnSurvives(entries, c)
    ensures NoEmptyEntry(RewriteWithOwn(entries, c, info))
    ensures forall id :: HasEntry(RewriteWithOwn(entries, c, info), id) ==> HasEntry(entries, id)
    ensures UniqueIds(entries) ==> UniqueIds(RewriteWithOwn(entries, c, info))
    decreases |entries|
  {
    var e, tail := Rewritten(entries[0], c), entries[1..];
    ConsTail(entries);
    if e.regionId == c.id {
      RewriteAllShape(tail, c);
      ShapeCons(e.(alerts := WithAlert(e.alerts, c, info)), tail, RewriteAll(tail, c));
    } else {
      WithOwnShape(tail, c, info);
      ShapeCons(e, tail, RewriteWithOwn(tail, c, info));
    }
  }

  /** No emptied entry is left behind and no region is listed twice. */
  lemma ApplyKeepsShape(entries: seq<Entry>, c: Change, info: Option<Parents>)
    requires UniqueIds(entries)
    ensures NoEmptyEntry(Apply(entries, c, info)) && UniqueIds(Apply(entries, c, info))
  {
    RewriteAllShape(entries, c);
    if c.levels != [] {
      if OwnSurvives(entries, c) {
        WithOwnShape(entries, c, info);
      } else {
        var kept, e := RewriteAll(entries, c), NewEntry(c, info);
        OwnGone(entries, c);
        RewriteAllAt(entries, c, c.id);
        forall i | 0 <= i < |kept|
          ensures kept[i].regionId != c.id
        {
          if kept[i].regionId == c.id {
            EntryListsAlerts(kept, i);
          }
        }
      }
    }
  }

  lemma {:induction false} EntryListsAlerts(entries: seq<Entry>, i: nat)
    requires i < |entries|
    ensures forall a :: a in entries[i].alerts ==> a in AlertsAt(entries, entries[i].regionId)
    ensures entries[i].alerts != [] ==> AlertsAt(entries, entries[i].regionId) != []
  {
    if i > 0 {
      EntryListsAlerts(entries[1..], i - 1);
    }
  }

  // ---- last writer wins ---------------------------------------------------------------------

  datatype Key = Key(id: string, kind: string)

  /** Levels of the first alert with the key in its own region's list. */
  function LevelsIn(list: seq<ApiAlert>, k: Key): Option<seq<ApiLevel>> {
    if list == [] then None
    else if IsKey(list[0], k.id, k.kind) then Some(list[0].levels)
    else LevelsIn(list[1..], k)
  }

  function View(entries: seq<Entry>, k: Key): Option<seq<ApiLevel>> {
    LevelsIn(AlertsAt(entries, k.id), k)
  }

  function KeyOf(c: Change): Key {
    Key(c.id, c.kind)
  }

  /** The map a webhook writes to: present with its levels, or absent. */
  function Written(c: Change): Option<seq<ApiLevel>> {
    if c.levels == [] then None else Some(c.levels)
  }

  function LastWrite(changes: seq<Change>, k: Key, initial: Option<seq<ApiLevel>>): Option<seq<ApiLevel>> {
    if changes == [] then initial
    else if KeyOf(changes[|changes| - 1]) == k then Written(changes[|changes| - 1])
    else LastWrite(changes[..|changes| - 1], k, initial)
  }

  function ApplyAll(entries: seq<Entry>, changes: seq<Change>, info: Option<Parents>): seq<Entry> {
    if changes == [] then entries
    else Apply(ApplyAll(entries, changes[..|changes| - 1], info), changes[|changes| - 1], info)
  }

  lemma {:induction false} RewriteLevels(list: seq<ApiAlert>, c: Change, k: Key)
    ensures LevelsIn(Rewrite(list, c), k) ==
            if k != KeyOf(c) then LevelsIn(list, k)
            else if LevelsIn(list, k).None? then None
            else Written(c)
  {
    if list != [] {
      RewriteLevels(list[1..], c, k);
      var head := RewriteOne(list[0], c);
      assert Rewrite(list, c) == head + Rewrite(list[1..], c);
      if head != [] {
        assert (head + Rewrite(list[1..], c))[1..] == Rewrite(list[1..], c);
      } else {
        assert head + Rewrite(list[1..], c) == Rewrite(list[1..], c);
      }
    }
  }

  lemma {:induction false} LevelsSnoc(list: seq<ApiAlert>, a: ApiAlert, k: Key)
    ensures LevelsIn(list + [a], k) ==
            if LevelsIn(list, k).Some? then LevelsIn(list, k)
            else if IsKey(a, k.id, k.kind) then Some(a.levels) else None
    ensures LevelsIn(list, k).Some? <==> HasKey(list, k.id, k.kind)
  {
    if list == [] {
      assert [] + [a] == [a];
    } else {
      assert (list + [a])[1..] == list[1..] + [a];
      LevelsSnoc(list[1..], a, k);
      if HasKey(list, k.id, k.kind) && !IsKey(list[0], k.id, k.kind) {
        var i :| 0 <= i < |list| && IsKey(list[i], k.id, k.kind);
        assert list[1..][i - 1] == list[i];
      }
      if HasKey(list[1..], k.id, k.kind) {
        var i :| 0 <= i < |list[1..]| && IsKey(list[1..][i], k.id, k.kind);
        assert list[i + 1] == list[1..][i];
      }
    }
  }

  lemma ApplyWritesKey(entries: seq<Entry>, c: Change, info: Option<Parents>, k: Key)
    requires UniqueIds(entries)
    ensures View(Apply(entries, c, info), k) == if k == KeyOf(c) then Written(c) else View(entries, k)
  {
    var list := AlertsAt(entries, k.id);
    ApplyIsPointwise(entries, c, info, k.id);
    RewriteLevels(list, c, k);
    LevelsSnoc(Rewrite(list, c), NewAlert(c, info), k);
  }

  /** After any run of webhooks every key holds what was last written to it. */
  lemma {:induction false} RunIsLastWrite(entries: seq<Entry>, changes: seq<Change>, info: Option<Parents>, k: Key)
    requires UniqueIds(entries)
    ensures UniqueIds(ApplyAll(entries, changes, info))
    ensures View(ApplyAll(entries, changes, info), k) == LastWrite(changes, k, View(entries, k))
    decreases |changes|
  {
    if changes != [] {
      var front, last := changes[..|changes| - 1], changes[|changes| - 1];
      RunIsLastWrite(entries, front, info, k);
      ApplyKeepsShape(ApplyAll(entries, front, info), last, info);
      ApplyWritesKey(ApplyAll(entries, front, info), last, info, k);
    }
  }

  // ---- webhooks as they come ------------------------------------------------------------------

  /** Complete, with a region id of digits, and about this key. */
  predicate Speaks(ev: RawEvent, k: Key) {
    && ev.regionId == Some(k.id) && ev.alarmType == Some(k.kind) && ev.levels.Some?
    && k.id != "" && forall i :: 0 <= i < |k.id| ==> '0' <= k.id[i] <= '9'
  }

  /** What a webhook says of its key: its levels, or that the alert is over. */
  function Said(ev: RawEvent): Option<seq<ApiLevel>> {
    if ev.levels == Some([]) then None else ev.levels
  }

  /** A webhook is refused exactly when a field is missing or the id is not all
      digits; any other sets its key to what it says, an empty list included. */
  lemma EventIsHeard(entries: seq<Entry>, ev: RawEvent, info: Option<Parents>, k: Key)
    requires UniqueIds(entries)
    ensures Served(entries, ev, info).None?
            <==> || ev.regionId.None? || ev.alarmType.None? || ev.levels.None? || ev.regionId == Some("")
                 || exists i :: 0 <= i < |ev.regionId.value| && !('0' <= ev.regionId.value[i] <= '9')
    ensures Served(entries, ev, info).Some? ==>
              && UniqueIds(Served(entries, ev, info).value)
              && View(Served(entries, ev, info).value, k) == if Speaks(ev, k) then Said(ev) else View(entries, k)
  {
    if Usable(ev).Some? {
      ApplyKeepsShape(entries, Usable(ev).value, info);
      ApplyWritesKey(entries, Usable(ev).value, info, k);
    }
  }

  /** An alert the region did not list comes last in its list, with the event's time
      and levels and the catalogue's type of the region; a region that had no entry
      gets one at the end, with the catalogue's name and type. */
  lemma NewAlertArrives(entries: seq<Entry>, ev: RawEvent, info: Option<Parents>, k: Key)
    requires UniqueIds(entries) && Speaks(ev, k) && ev.levels != Some([]) && View(entries, k) == None
    ensures Served(entries, ev, info).Some?
    ensures var kind := if info.Some? && k.id in info.value then info.value[k.id].kind else "";
            AlertsAt(Served(entries, ev, info).value, k.id)
            == AlertsAt(entries, k.id) + [ApiAlert(k.id, kind, Some(k.kind), ev.createdAt, ev.levels.value)]
    ensures var info' := if info.Some? && k.id in info.value then info.value[k.id] else Info(None, 0, "", "");
            var alert := ApiAlert(k.id, info'.kind, Some(k.kind), ev.createdAt, ev.levels.value);
            var r := Served(entries, ev, info).value;
            !HasEntry(entries, k.id) ==>
              r != [] && r[|r| - 1..] == [Entry(k.id, info'.kind, info'.name, ev.createdAt, [alert])]
  {
    if !HasEntry(entries, k.id) {
      NoneAt(entries, k.id);
    }
    var c, list := Usable(ev).value, AlertsAt(entries, k.id);
    ApplyIsPointwise(entries, c, info, k.id);
    LevelsSnoc(list, NewAlert(c, info), k);
    RewriteOthers(list, c);
  }

  lemma {:induction false} RewriteOthers(list: seq<ApiAlert>, c: Change)
    requires !HasKey(list, c.id, c.kind)
    ensures Rewrite(list, c) == list
  {
    if list != [] {
      assert !IsKey(list[0], c.id, c.kind);
      assert forall i :: 0 <= i < |list[1..]| ==> list[1..][i] == list[i + 1];
      RewriteOthers(list[1..], c);
      assert list == [list[0]] + list[1..];
    }
  }

  /** What reaches the stored list: a whole list from upstream, or a webhook under the
      catalogue of the moment. */
  datatype Update = Fetched(entries: seq<Entry>) | Hook(ev: RawEvent, info: Option<Parents>)

  /** Without a list there is nothing to edit, and an unusable webhook edits nothing. */
  function Updated(stored: Option<seq<Entry>>, u: Update): Option<seq<Entry>> {
    match u
    case Fetched(entries) => Some(entries)
    case Hook(ev, info) =>
      if stored.Some? && Served(stored.value, ev, info).Some? then Served(stored.value, ev, info) else stored
  }

  function UpdatedBy(stored: Option<seq<Entry>>, updates: seq<Update>): Option<seq<Entry>> {
    if updates == [] then stored
    else Updated(UpdatedBy(stored, updates[..|updates| - 1]), updates[|updates| - 1])
  }

  /** What was last said of a key, by upstream's list or by a webhook about it. */
  function LastWord(updates: seq<Update>, k: Key, initial: Option<seq<ApiLevel>>): Option<seq<ApiLevel>> {
    if updates == [] then initial
    else
      match updates[|updates| - 1]
      case Fetched(entries) => View(entries, k)
      case Hook(ev, _) => if Speaks(ev, k) then Said(ev) else LastWord(updates[..|updates| - 1], k, initial)
  }

  /** Over any run of upstream lists and webhooks as they come, good and bad: every
      key holds what was last said of it. */
  lemma {:induction false} RunIsLastWord(stored: seq<Entry>, updates: seq<Update>, k: Key)
    requires UniqueIds(stored)
    requires forall i :: 0 <= i < |updates| && updates[i].Fetched? ==> UniqueIds(updates[i].entries)
    ensures UpdatedBy(Some(stored), updates).Some? && UniqueIds(UpdatedBy(Some(stored), updates).value)
    ensures View(UpdatedBy(Some(stored), updates).value, k) == LastWord(updates, k, View(stored, k))
    decreases |updates|
  {
    hide UniqueIds, View, Served, Speaks;
    if updates != [] {
      var front, last := updates[..|updates| - 1], updates[|updates| - 1];
      RunIsLastWord(stored, front, k);
      if last.Hook? {
        EventIsHeard(UpdatedBy(Some(stored), front).value, last.ev, last.info, k);
        RefusedSaysNothing(UpdatedBy(Some(stored), front).value, last.ev, last.info, k);
      }
    }
  }

  lemma RefusedSaysNothing(entries: seq<Entry>, ev: RawEvent, info: Option<Parents>, k: Key)
    ensures Served(entries, ev, info).None? ==> !Speaks(ev, k)
  {
  }

  // ---- copies, other keys, idempotence, order -------------------------------------------------

  /** Alerts with any other key. */
  function Others(list: seq<ApiAlert>, id: string, kind: string): seq<ApiAlert> {
    if list == [] then []
    else (if IsKey(list[0], id, kind) then [] else [list[0]]) + Others(list[1..], id, kind)
  }

  lemma {:induction false} RewriteMembers(list: seq<ApiAlert>, c: Change)
    ensures forall a :: a in Rewrite(list, c) && IsKey(a, c.id, c.kind) ==> c.levels != [] && a.levels == c.levels
    ensures forall a :: a in list ==>
              if !IsKey(a, c.id, c.kind) then a in Rewrite(list, c)
              else c.levels != [] ==> a.(levels := c.levels) in Rewrite(list, c)
    ensures forall a :: a in Rewrite(list, c) ==>
              if !IsKey(a, c.id, c.kind) then a in list
              else exists b :: b in list && IsKey(b, c.id, c.kind) && a == b.(levels := c.levels)
    ensures Others(Rewrite(list, c), c.id, c.kind) == Others(list, c.id, c.kind)
  {
    if list != [] {
      RewriteMembers(list[1..], c);
      var head := RewriteOne(list[0], c);
      assert Rewrite(list, c) == head + Rewrite(list[1..], c);
      if head != [] {
        assert (head + Rewrite(list[1..], c))[1..] == Rewrite(list[1..], c);
      } else {
        assert head + Rewrite(list[1..], c) == Rewrite(list[1..], c);
      }
    }
  }

  lemma {:induction false} OthersSnoc(list: seq<ApiAlert>, a: ApiAlert, id: string, kind: string)
    requires IsKey(a, id, kind)
    ensures Others(list + [a], id, kind) == Others(list, id, kind)
  {
    if list == [] {
      assert [] + [a] == [a];
    } else {
      assert (list + [a])[1..] == list[1..] + [a];
      OthersSnoc(list[1..], a, id, kind);
    }
  }

  /** In every region's list: copies of the key carry the event's levels or are
      gone, and all else is untouched and in place. */
  lemma CopiesAndOthers(entries: seq<Entry>, c: Change, info: Option<Parents>, id: string)
    requires UniqueIds(entries)
    ensures var before, after := AlertsAt(entries, id), AlertsAt(Apply(entries, c, info), id);
            && (forall a :: a in after && IsKey(a, c.id, c.kind) ==> c.levels != [] && a.levels == c.levels)
            && Others(after, c.id, c.kind) == Others(before, c.id, c.kind)
  {
    ApplyIsPointwise(entries, c, info, id);
    RewriteMembers(AlertsAt(entries, id), c);
    OthersSnoc(Rewrite(AlertsAt(entries, id), c), NewAlert(c, info), c.id, c.kind);
  }

  /** Every alert repeated under another region has an identical twin at home. */
  ghost predicate Twins(entries: seq<Entry>) {
    forall id, a :: a in AlertsAt(entries, id) ==> a in AlertsAt(entries, a.regionId)
  }

  lemma ApplyKeepsTwins(entries: seq<Entry>, c: Change, info: Option<Parents>)
    requires UniqueIds(entries) && Twins(entries)
    ensures Twins(Apply(entries, c, info))
  {
    forall id, a | a in AlertsAt(Apply(entries, c, info), id)
      ensures a in AlertsAt(Apply(entries, c, info), a.regionId)
    {
      ApplyIsPointwise(entries, c, info, id);
      ApplyIsPointwise(entries, c, info, a.regionId);
      var here, home := AlertsAt(entries, id), AlertsAt(entries, a.regionId);
      RewriteMembers(here, c);
      RewriteMembers(home, c);
      if a in Rewrite(here, c) && IsKey(a, c.id, c.kind) {
        var b :| b in here && IsKey(b, c.id, c.kind) && a == b.(levels := c.levels);
        assert b in home;
      }
    }
  }

  lemma {:induction false} RunKeepsTwins(entries: seq<Entry>, changes: seq<Change>, info: Option<Parents>)
    requires UniqueIds(entries) && Twins(entries)
    ensures UniqueIds(ApplyAll(entries, changes, info)) && Twins(ApplyAll(entries, changes, info))
    decreases |changes|
  {
    if changes != [] {
      var front := ApplyAll(entries, changes[..|changes| - 1], info);
      RunKeepsTwins(entries, changes[..|changes| - 1], info);
      ApplyKeepsShape(front, changes[|changes| - 1], info);
      ApplyKeepsTwins(front, changes[|changes| - 1], info);
    }
  }

  lemma {:induction false} RewriteTwice(list: seq<ApiAlert>, c: Change)
    ensures Rewrite(Rewrite(list, c), c) == Rewrite(list, c)
  {
    if list != [] {
      var head := RewriteOne(list[0], c);
      RewriteTwice(list[1..], c);
      assert Rewrite(list, c) == head + Rewrite(list[1..], c);
      RewriteConcat(head, Rewrite(list[1..], c), c);
      assert head != [] ==> head[1..] == [];
      assert Rewrite(head, c) == head;
    }
  }

  /** A further rewrite by the same change would do nothing. */
  predicate Settled(entries: seq<Entry>, c: Change) {
    forall i :: 0 <= i < |entries| ==> Rewrite(entries[i].alerts, c) == entries[i].alerts
  }

  lemma SettledConcat(a: seq<Entry>, b: seq<Entry>, c: Change)
    requires Settled(a, c) && Settled(b, c)
    ensures Settled(a + b, c)
  {
  }

  lemma {:induction false} RewriteAllStable(entries: seq<Entry>, c: Change)
    requires NoEmptyEntry(entries) && Settled(entries, c)
    ensures RewriteAll(entries, c) == entries
  {
    if entries != [] {
      RewriteAllStable(entries[1..], c);
      assert Rewritten(entries[0], c) == entries[0];
      assert entries == [entries[0]] + entries[1..];
    }
  }

  lemma {:induction false} WithOwnStable(entries: seq<Entry>, c: Change, info: Option<Parents>)
    requires NoEmptyEntry(entries) && OwnSurvives(entries, c) && c.levels != []
    requires Settled(entries, c)
    requires forall i :: 0 <= i < |entries| && entries[i].regionId == c.id ==> HasKey(entries[i].alerts, c.id, c.kind)
    ensures RewriteWithOwn(entries, c, info) == entries
    decreases |entries|
  {
    assert Rewritten(entries[0], c) == entries[0];
    assert entries == [entries[0]] + entries[1..];
    if entries[0].regionId == c.id {
      RewriteAllStable(entries[1..], c);
    } else {
      WithOwnStable(entries[1..], c, info);
    }
  }

  lemma {:induction false} SurvivorExists(entries: seq<Entry>, c: Change, i: nat)
    requires UniqueIds(entries) && i < |entries| && entries[i].regionId == c.id
    requires Rewrite(entries[i].alerts, c) != []
    ensures OwnSurvives(entries, c)
  {
    if i > 0 {
      UniqueTail(entries);
      assert entries[1..][i - 1] == entries[i];
      SurvivorExists(entries[1..], c, i - 1);
    }
  }

  lemma {:induction false} RewriteAllSettles(entries: seq<Entry>, c: Change)
    ensures Settled(RewriteAll(entries, c), c)
  {
    if entries != [] {
      var e := Rewritten(entries[0], c);
      RewriteAllSettles(entries[1..], c);
      RewriteTwice(entries[0].alerts, c);
      SettledConcat(if e.alerts == [] then [] else [e], RewriteAll(entries[1..], c), c);
    }
  }

  lemma RewriteWithAlert(list: seq<ApiAlert>, c: Change, info: Option<Parents>)
    requires c.levels != [] && Rewrite(list, c) == list
    ensures Rewrite(WithAlert(list, c, info), c) == WithAlert(list, c, info)
  {
    var a := NewAlert(c, info);
    RewriteConcat(list, [a], c);
    assert Rewrite([a], c) == [a] + [];
  }

  lemma {:induction false} WithOwnSettles(entries: seq<Entry>, c: Change, info: Option<Parents>)
    requires OwnSurvives(entries, c) && c.levels != []
    ensures Settled(RewriteWithOwn(entries, c, info), c)
    decreases |entries|
  {
    var e, tail := Rewritten(entries[0], c), entries[1..];
    RewriteTwice(entries[0].alerts, c);
    if e.regionId == c.id {
      RewriteAllSettles(tail, c);
      RewriteWithAlert(e.alerts, c, info);
      SettledConcat([e.(alerts := WithAlert(e.alerts, c, info))], RewriteAll(tail, c), c);
    } else {
      WithOwnSettles(tail, c, info);
      SettledConcat(if e.alerts == [] then [] else [e], RewriteWithOwn(tail, c, info), c);
    }
  }

  lemma ApplySettles(entries: seq<Entry>, c: Change, info: Option<Parents>)
    ensures Settled(Apply(entries, c, info), c)
  {
    RewriteAllSettles(entries, c);
    if c.levels != [] {
      if OwnSurvives(entries, c) {
        WithOwnSettles(entries, c, info);
      } else {
        assert Rewrite([], c) == [];
        RewriteWithAlert([], c, info);
        assert WithAlert([], c, info) == NewEntry(c, info).alerts;
        SettledConcat(RewriteAll(entries, c), [NewEntry(c, info)], c);
      }
    }
  }

  lemma {:induction false} UniqueAt(entries: seq<Entry>, i: nat)
    requires UniqueIds(entries) && i < |entries|
    ensures AlertsAt(entries, entries[i].regionId) == entries[i].alerts
  {
    UniqueTail(entries);
    if i == 0 {
      NoneAt(entries[1..], entries[0].regionId);
    } else {
      assert entries[1..][i - 1] == entries[i];
      UniqueAt(entries[1..], i - 1);
    }
  }

  /** Receiving the same webhook again changes nothing at all. */
  lemma ApplyIsIdempotent(entries: seq<Entry>, c: Change, info: Option<Parents>)
    requires UniqueIds(entries)
    ensures Apply(Apply(entries, c, info), c, info) == Apply(entries, c, info)
  {
    var once := Apply(entries, c, info);
    ApplyKeepsShape(entries, c, info);
    ApplySettles(entries, c, info);
    if c.levels == [] {
      RewriteAllStable(once, c);
    } else {
      OwnIsListed(entries, c, info);
      WithOwnStable(once, c, info);
    }
  }

  lemma OwnIsListed(entries: seq<Entry>, c: Change, info: Option<Parents>)
    requires UniqueIds(entries) && c.levels != []
    ensures var once := Apply(entries, c, info);
            && OwnSurvives(once, c)
            && forall i :: 0 <= i < |once| && once[i].regionId == c.id ==> HasKey(once[i].alerts, c.id, c.kind)
  {
    var once := Apply(entries, c, info);
    ApplyKeepsShape(entries, c, info);
    ApplySettles(entries, c, info);
    ApplyIsPointwise(entries, c, info, c.id);
    var list := Rewrite(AlertsAt(entries, c.id), c);
    LevelsSnoc(list, NewAlert(c, info), KeyOf(c));
    LevelsSnoc(WithAlert(list, c, info), NewAlert(c, info), KeyOf(c));
    assert HasKey(AlertsAt(once, c.id), c.id, c.kind);
    if !HasEntry(once, c.id) {
      NoneAt(once, c.id);
    }
    forall i | 0 <= i < |once| && once[i].regionId == c.id
      ensures HasKey(once[i].alerts, c.id, c.kind)
      ensures OwnSurvives(once, c)
    {
      UniqueAt(once, i);
      SurvivorExists(once, c, i);
    }
  }

  lemma {:induction false} RewriteCommutes(list: seq<ApiAlert>, a: Change, b: Change)
    requires KeyOf(a) != KeyOf(b)
    ensures Rewrite(Rewrite(list, a), b) == Rewrite(Rewrite(list, b), a)
  {
    if list != [] {
      RewriteCommutes(list[1..], a, b);
      RewriteConcat(RewriteOne(list[0], a), Rewrite(list[1..], a), b);
      RewriteConcat(RewriteOne(list[0], b), Rewrite(list[1..], b), a);
      RewriteSingle(list[0], a, b);
    }
  }

  lemma RewriteSingle(x: ApiAlert, a: Change, b: Change)
    requires KeyOf(a) != KeyOf(b)
    ensures Rewrite(RewriteOne(x, a), b) == Rewrite(RewriteOne(x, b), a)
  {
    forall y: ApiAlert, c: Change
      ensures Rewrite([y], c) == RewriteOne(y, c)
    {
      assert RewriteOne(y, c) + [] == RewriteOne(y, c);
    }
  }

  /** The alert a change appends to region id's list, if any. */
  function Added(list: seq<ApiAlert>, id: string, c: Change, info: Option<Parents>): seq<ApiAlert> {
    if c.levels != [] && id == c.id && !HasKey(Rewrite(list, c), c.id, c.kind) then [NewAlert(c, info)] else []
  }

  lemma TwoSteps(list: seq<ApiAlert>, id: string, a: Change, b: Change, info: Option<Parents>)
    requires KeyOf(a) != KeyOf(b)
    ensures Step(Step(list, id, a, info), id, b, info) ==
            Rewrite(Rewrite(list, a), b) + Added(list, id, a, info) + Added(list, id, b, info)
  {
    var la, added := Rewrite(list, a), Added(list, id, a, info);
    assert Step(list, id, a, info) == la + added;
    RewriteConcat(la, added, b);
    assert Rewrite([NewAlert(a, info)], b) == [NewAlert(a, info)] + [];
    assert Rewrite(la + added, b) == Rewrite(la, b) + added;
    LevelsSnoc(Rewrite(la, b), NewAlert(a, info), KeyOf(b));
    LevelsSnoc(Rewrite(la, b) + added, NewAlert(b, info), KeyOf(b));
    LevelsSnoc(Rewrite(list, b), NewAlert(b, info), KeyOf(b));
    RewriteLevels(la, b, KeyOf(b));
    RewriteLevels(list, a, KeyOf(b));
    RewriteLevels(list, b, KeyOf(b));
  }

  lemma StepsCommute(list: seq<ApiAlert>, id: string, a: Change, b: Change, info: Option<Parents>)
    requires KeyOf(a) != KeyOf(b)
    ensures var ab, ba := Step(Step(list, id, a, info), id, b, info), Step(Step(list, id, b, info), id, a, info);
            && multiset(ab) == multiset(ba)
            && (ab == ba || (id == a.id == b.id && a.levels != [] && b.levels != []))
  {
    TwoSteps(list, id, a, b, info);
    TwoSteps(list, id, b, a, info);
    RewriteCommutes(list, a, b);
    SwapTails(Rewrite(Rewrite(list, a), b), Added(list, id, a, info), Added(list, id, b, info));
  }

  lemma SwapTails(base: seq<ApiAlert>, a: seq<ApiAlert>, b: seq<ApiAlert>)
    ensures multiset(base + a + b) == multiset(base + b + a)
    ensures a == [] || b == [] ==> base + a + b == base + b + a
  {
    if a == [] {
      assert base + a == base && base + b + a == base + b;
    }
    if b == [] {
      assert base + b == base && base + a + b == base + a;
    }
  }

  lemma TwiceIsPointwise(entries: seq<Entry>, a: Change, b: Change, info: Option<Parents>, id: string)
    requires UniqueIds(entries)
    ensures AlertsAt(Apply(Apply(entries, a, info), b, info), id)
            == Step(Step(AlertsAt(entries, id), id, a, info), id, b, info)
  {
    ApplyKeepsShape(entries, a, info);
    ApplyIsPointwise(entries, a, info, id);
    ApplyIsPointwise(Apply(entries, a, info), b, info, id);
  }

  /** Webhooks on different keys commute: every region ends with the same alerts,
      in the same order unless both appended to that very region. */
  lemma ApplyCommutes(entries: seq<Entry>, a: Change, b: Change, info: Option<Parents>, id: string)
    requires UniqueIds(entries) && KeyOf(a) != KeyOf(b)
    ensures var ab := AlertsAt(Apply(Apply(entries, a, info), b, info), id);
            var ba := AlertsAt(Apply(Apply(entries, b, info), a, info), id);
            && multiset(ab) == multiset(ba)
            && (ab == ba || (id == a.id == b.id && a.levels != [] && b.levels != []))
  {
    TwiceIsPointwise(entries, a, b, info, id);
    TwiceIsPointwise(entries, b, a, info, id);
    StepsCommute(AlertsAt(entries, id), id, a, b, info);
  }
}
