/** The region tree, the sorted device table made from it (update_locations.py,
    LocationCatalog.h) and matching against it (LocationMatcher.cpp). */
module Catalogue {
  import opened Types
  import opened Decimal

  /** A node of GET /api/v3/regions. */
  datatype Region = Region(id: string, name: string, kind: string, children: seq<Region>)

  /** 0 = no such parent. The location type plays no part in matching. */
  datatype Location = Location(uid: Uid, oblastUid: Uid, raionUid: Uid)

  // ---- generator: states, districts, communities; nothing below -----------------

  function IntOf(id: string): Uid {
    UidOf(id)
  }

  function CommunityRows(cs: seq<Region>, oblast: Uid, raion: Uid): seq<Location> {
    if cs == [] then []
    else [Location(IntOf(cs[0].id), oblast, raion)] + CommunityRows(cs[1..], oblast, raion)
  }

  function DistrictRow(d: Region, oblast: Uid): seq<Location> {
    [Location(IntOf(d.id), oblast, 0)] + CommunityRows(d.children, oblast, IntOf(d.id))
  }

  function DistrictRows(ds: seq<Region>, oblast: Uid): seq<Location> {
    if ds == [] then [] else DistrictRow(ds[0], oblast) + DistrictRows(ds[1..], oblast)
  }

  /** State "0" is the API's test region and is left out with all below it. */
  function StateRow(st: Region): seq<Location> {
    var uid := IntOf(st.id);
    if uid == 0 then [] else [Location(uid, 0, 0)] + DistrictRows(st.children, uid)
  }

  function Rows(states: seq<Region>): seq<Location> {
    if states == [] then [] else StateRow(states[0]) + Rows(states[1..])
  }

  lemma RowsFrom(out: seq<Location>, states: seq<Region>, i: nat)
    requires i < |states|
    ensures out + Rows(states[i..]) == out + StateRow(states[i]) + Rows(states[i + 1..])
    ensures IntOf(states[i].id) == 0 ==> out + StateRow(states[i]) == out
  {
    assert states[i..][1..] == states[i + 1..];
    assert out + (StateRow(states[i]) + Rows(states[i + 1..])) == out + StateRow(states[i]) + Rows(states[i + 1..]);
  }

  method Flatten(states: seq<Region>) returns (out: seq<Location>)
    ensures out == Rows(states)
  {
    out := [];
    ghost var all := Rows(states);
    assert states[0..] == states;
    for i := 0 to |states|
      invariant out + Rows(states[i..]) == all
    {
      RowsFrom(out, states, i);
      var uid := IntOf(states[i].id);
      if uid != 0 {
        out := FlattenState(states[i], uid, out);
      }
    }
    assert out + [] == out;
  }

  method FlattenState(st: Region, uid: Uid, rows: seq<Location>) returns (out: seq<Location>)
    requires uid == IntOf(st.id) != 0
    ensures out == rows + StateRow(st)
  {
    out := rows + [Location(uid, 0, 0)];
    ghost var all := out + DistrictRows(st.children, uid);
    assert all == rows + StateRow(st);
    for j := 0 to |st.children|
      invariant all == out + DistrictRows(st.children[j..], uid)
    {
      var d := st.children[j];
      assert st.children[j..][1..] == st.children[j + 1..];
      ghost var rest := DistrictRows(st.children[j + 1..], uid);
      assert out + (DistrictRow(d, uid) + rest) == out + DistrictRow(d, uid) + rest;
      out := FlattenDistrict(d, uid, out);
    }
  }

  method FlattenDistrict(d: Region, uid: Uid, rows: seq<Location>) returns (out: seq<Location>)
    ensures out == rows + DistrictRow(d, uid)
  {
    var duid := IntOf(d.id);
    out := rows + [Location(duid, uid, 0)];
    ghost var all := out + CommunityRows(d.children, uid, duid);
    assert all == rows + DistrictRow(d, uid);
    for k := 0 to |d.children|
      invariant all == out + CommunityRows(d.children[k..], uid, duid)
    {
      assert d.children[k..][1..] == d.children[k + 1..];
      out := out + [Location(IntOf(d.children[k].id), uid, duid)];
    }
  }

  // ---- lookup ------------------------------------------------------------------------

  predicate SortedByUid(table: seq<Location>) {
    forall i, j :: 0 <= i < j < |table| ==> table[i].uid < table[j].uid
  }

  function Lookup(table: seq<Location>, uid: Uid): Option<Location> {
    if table == [] then None
    else if table[0].uid == uid then Some(table[0])
    else Lookup(table[1..], uid)
  }

  lemma {:induction false} LookupFinds(table: seq<Location>, uid: Uid)
    ensures Lookup(table, uid).Some? ==> Lookup(table, uid).value in table && Lookup(table, uid).value.uid == uid
    ensures Lookup(table, uid).None? ==> forall row :: row in table ==> row.uid != uid
  {
    if table != [] {
      LookupFinds(table[1..], uid);
      forall row | row in table
        ensures row == table[0] || row in table[1..]
      {
        var i :| 0 <= i < |table| && table[i] == row;
        assert i == 0 || table[1..][i - 1] == row;
      }
    }
  }

  /** Lower-bound binary search over the sorted table. */
  method FindByUid(table: seq<Location>, uid: Uid) returns (found: Option<Location>)
    requires SortedByUid(table)
    ensures found == Lookup(table, uid)
  {
    var lo, hi := 0, |table|;
    while lo < hi
      invariant 0 <= lo <= hi <= |table|
      invariant forall i :: 0 <= i < lo ==> table[i].uid < uid
      invariant forall i :: hi <= i < |table| ==> uid <= table[i].uid
    {
      var mid := (lo + hi) / 2;
      if table[mid].uid < uid {
        lo := mid + 1;
      } else {
        hi := mid;
      }
    }
    LookupFinds(table, uid);
    if lo >= |table| {
      return None;
    }
    if table[lo].uid != uid {
      return None;
    }
    assert table[lo] in table;
    found := Some(table[lo]);
  }

  // ---- matching ------------------------------------------------------------------------

  function Match(table: seq<Location>, selected: Location, uid: Uid): Coverage {
    if selected.uid == 0 || uid == 0 then NoCoverage
    else if uid == selected.uid then Full
    else if uid == selected.oblastUid then Full
    else if selected.raionUid != 0 && uid == selected.raionUid then Full
    else
      match Lookup(table, uid)
      case None => NoCoverage
      case Some(known) =>
        if known.oblastUid == selected.uid then Partial
        else if known.raionUid != 0 && known.raionUid == selected.uid then Partial
        else NoCoverage
  }

  /** The selected location carries the parents its table row has. */
  predicate Carries(table: seq<Location>, s: Location) {
    match Lookup(table, s.uid)
    case Some(row) => s == row
    case None => s.oblastUid == 0 && s.raionUid == 0
  }

  predicate ParentOf(table: seq<Location>, parent: Uid, child: Uid) {
    && parent != 0 && Lookup(table, child).Some?
    && var row := Lookup(table, child).value;
       parent == row.oblastUid || parent == row.raionUid
  }

  /** Full exactly for the location itself and what contains it, partial exactly
      for what lies inside it. */
  lemma MatchIsHierarchy(table: seq<Location>, s: Location, uid: Uid)
    requires Carries(table, s) && s.uid != 0 && uid != 0
    ensures Match(table, s, uid) == Full <==> uid == s.uid || ParentOf(table, uid, s.uid)
    ensures Match(table, s, uid) == Partial
            <==> uid != s.uid && !ParentOf(table, uid, s.uid) && ParentOf(table, s.uid, uid)
  {
  }
}
