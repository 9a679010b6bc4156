/** Pure logic of the LAN proxy (state.lua). */
module ProxyState {
  import opened Types
  import opened Decimal
  import opened Catalogue
  import opened AlertsParsers

  const MAX_IDS := 32

  // ---- the catalogue as a parent table ------------------------------------------------

  /** `depth` is the level in the tree; it only serves to show that walks end. */
  datatype Info = Info(parent: Option<string>, depth: nat, name: string, kind: string)

  type Parents = map<string, Info>

  /** Later nodes overwrite earlier ones of the same id. */
  function Walk(nodes: seq<Region>, parent: Option<string>, depth: nat): Parents
    decreases nodes
  {
    if nodes == [] then map[]
    else
      var node := nodes[0];
      map[node.id := Info(parent, depth, node.name, node.kind)]
      + Walk(node.children, Some(node.id), depth + 1)
      + Walk(nodes[1..], parent, depth)
  }

  lemma MergeAssociative(p: Parents, a: Parents, b: Parents, c: Parents)
    ensures p + (a + b + c) == p + a + b + c
  {
  }

  lemma WalkFrom(nodes: seq<Region>, i: nat, parent: Option<string>, depth: nat, p: Parents)
    requires i < |nodes|
    ensures var info := Info(parent, depth, nodes[i].name, nodes[i].kind);
            p + Walk(nodes[i..], parent, depth) ==
            p[nodes[i].id := info] + Walk(nodes[i].children, Some(nodes[i].id), depth + 1)
            + Walk(nodes[i + 1..], parent, depth)
  {
    var info := Info(parent, depth, nodes[i].name, nodes[i].kind);
    assert nodes[i..][1..] == nodes[i + 1..];
    MergeAssociative(p, map[nodes[i].id := info], Walk(nodes[i].children, Some(nodes[i].id), depth + 1),
                     Walk(nodes[i + 1..], parent, depth));
    assert p[nodes[i].id := info] == p + map[nodes[i].id := info];
  }

  method WalkInto(nodes: seq<Region>, parent: Option<string>, depth: nat, p0: Parents) returns (p: Parents)
    ensures p == p0 + Walk(nodes, parent, depth)
    decreases nodes
  {
    p := p0;
    ghost var all := p0 + Walk(nodes, parent, depth);
    assert nodes[0..] == nodes;
    for i := 0 to |nodes|
      invariant p + Walk(nodes[i..], parent, depth) == all
    {
      WalkFrom(nodes, i, parent, depth, p);
      p := p[nodes[i].id := Info(parent, depth, nodes[i].name, nodes[i].kind)];
      p := WalkInto(nodes[i].children, Some(nodes[i].id), depth + 1, p);
    }
    assert p + map[] == p;
  }

  method ParentTable(states: seq<Region>) returns (p: Option<Parents>)
    ensures p == if Walk(states, None, 0) == map[] then None else Some(Walk(states, None, 0))
  {
    var table := WalkInto(states, None, 0, map[]);
    assert table == Walk(states, None, 0);
    p := if table == map[] then None else Some(table);
  }

  /** Every parent link leads to a shallower node of the table. */
  ghost predicate Ranked(p: Parents) {
    forall id :: id in p && p[id].parent.Some? ==>
                   p[id].parent.value in p && p[p[id].parent.value].depth < p[id].depth
  }

  function Rank(p: Parents, id: string): nat {
    if id in p then p[id].depth + 1 else 0
  }

  function ParentOfId(p: Parents, id: string): Option<string> {
    if id in p then p[id].parent else None
  }

  /** The id, its parent, its parent's parent ... */
  function Chain(p: Parents, id: string): set<string>
    requires Ranked(p)
    decreases Rank(p, id)
  {
    match ParentOfId(p, id)
    case None => {id}
    case Some(up) => {id} + Chain(p, up)
  }

  function ProperAncestors(p: Parents, id: string): set<string>
    requires Ranked(p)
  {
    match ParentOfId(p, id)
    case None => {}
    case Some(up) => Chain(p, up)
  }

  /** From each region of the path to its parent. */
  ghost predicate Climbs(p: Parents, path: seq<string>) {
    path != [] && forall i :: 0 <= i < |path| - 1 ==> path[i] in p && p[path[i]].parent == Some(path[i + 1])
  }

  ghost predicate Lies(p: Parents, id: string, above: string) {
    exists path :: Climbs(p, path) && path[0] == id && path[|path| - 1] == above
  }

  /** A chain holds exactly the regions a climb from the id leads to. */
  lemma {:induction false} ChainIsClimb(p: Parents, id: string, x: string)
    requires Ranked(p)
    ensures x in Chain(p, id) <==> Lies(p, id, x)
    decreases Rank(p, id)
  {
    var up := ParentOfId(p, id);
    if up.Some? {
      ChainIsClimb(p, up.value, x);
    }
    if x == id {
      assert Climbs(p, [id]);
    } else if x in Chain(p, id) {
      var path :| Climbs(p, path) && path[0] == up.value && path[|path| - 1] == x;
      assert Climbs(p, [id] + path);
      assert ([id] + path)[|path|] == x;
    }
    if Lies(p, id, x) && x != id {
      var path :| Climbs(p, path) && path[0] == id && path[|path| - 1] == x;
      assert path[0] in p && p[path[0]].parent == Some(path[1]);
      assert Climbs(p, path[1..]);
    }
  }

  // ---- relevance filter ---------------------------------------------------------------

  /** Entries of a wanted location, of what contains it and of what lies inside it. */
  ghost predicate Relevant(p: Parents, ids: seq<string>, id: string)
    requires Ranked(p)
  {
    || (exists k :: 0 <= k < |ids| && id in ProperAncestors(p, ids[k]))
    || (exists x :: x in Chain(p, id) && x in ids)
  }

  ghost function Kept(entries: seq<Entry>, ids: seq<string>, p: Parents): seq<Entry>
    requires Ranked(p)
  {
    if entries == [] then []
    else
      Kept(entries[..|entries| - 1], ids, p)
      + if Relevant(p, ids, entries[|entries| - 1].regionId) then [entries[|entries| - 1]] else []
  }

  /** What the filter keeps: a requested region, one above it or one below it. */
  lemma {:induction false} KeptExactly(entries: seq<Entry>, ids: seq<string>, p: Parents, e: Entry)
    requires Ranked(p)
    ensures e in Kept(entries, ids, p)
            <==> e in entries && exists k :: 0 <= k < |ids| && (Lies(p, ids[k], e.regionId) || Lies(p, e.regionId, ids[k]))
    decreases |entries|
  {
    if entries != [] {
      var front, last := entries[..|entries| - 1], entries[|entries| - 1];
      KeptExactly(front, ids, p, e);
      RelevantExactly(ids, p, e.regionId);
      assert entries == front + [last];
    }
  }

  lemma RelevantExactly(ids: seq<string>, p: Parents, id: string)
    requires Ranked(p)
    ensures Relevant(p, ids, id)
            <==> exists k :: 0 <= k < |ids| && (Lies(p, ids[k], id) || Lies(p, id, ids[k]))
  {
    hide Lies;
    forall k | 0 <= k < |ids|
      ensures Lies(p, ids[k], id) <==> id == ids[k] || id in ProperAncestors(p, ids[k])
      ensures Lies(p, id, ids[k]) <==> ids[k] in Chain(p, id)
    {
      ChainIsClimb(p, ids[k], id);
      ChainIsClimb(p, id, ids[k]);
    }
    assert id in Chain(p, id);
  }

  method Select(entries: seq<Entry>, ids: Option<seq<string>>, parents: Option<Parents>) returns (out: seq<Entry>)
    requires parents.Some? ==> Ranked(parents.value)
    ensures ids.None? || parents.None? ==> out == entries
    ensures ids.Some? && parents.Some? ==> out == Kept(entries, ids.value, parents.value)
  {
    if ids.None? || parents.None? {
      return entries;
    }
    var p := parents.value;
    var want, anc := WantedAndAncestors(ids.value, p);
    out := [];
    for i := 0 to |entries|
      invariant out == Kept(entries[..i], ids.value, p)
    {
      var hit := Hits(entries[i].regionId, want, anc, p);
      assert entries[..i + 1][..i] == entries[..i];
      assert hit <==> Relevant(p, ids.value, entries[i].regionId);
      if hit {
        out := out + [entries[i]];
      }
    }
    assert entries[..|entries|] == entries;
  }

  method WantedAndAncestors(ids: seq<string>, p: Parents) returns (want: set<string>, anc: set<string>)
    requires Ranked(p)
    ensures forall x :: x in want <==> x in ids
    ensures forall x :: x in anc <==> exists k :: 0 <= k < |ids| && x in ProperAncestors(p, ids[k])
  {
    want, anc := {}, {};
    for i := 0 to |ids|
      invariant forall x :: x in want <==> x in ids[..i]
      invariant forall x :: x in anc <==> exists k :: 0 <= k < i && x in ProperAncestors(p, ids[k])
    {
      want := want + {ids[i]};
      ghost var before := anc;
      var up := ParentOfId(p, ids[i]);
      while up.Some?
        invariant anc + (if up.Some? then Chain(p, up.value) else {}) == before + ProperAncestors(p, ids[i])
        decreases if up.Some? then Rank(p, up.value) + 1 else 0
      {
        anc := anc + {up.value};
        up := ParentOfId(p, up.value);
      }
      assert anc == before + ProperAncestors(p, ids[i]);
    }
  }

  ghost predicate Meets(a: set<string>, b: set<string>) {
    exists x :: x in a && x in b
  }

  lemma ChainMeets(p: Parents, id: string, want: set<string>)
    requires Ranked(p)
    ensures Meets(Chain(p, id), want)
            <==> id in want || (ParentOfId(p, id).Some? && Meets(Chain(p, ParentOfId(p, id).value), want))
  {
    if id in want {
      assert id in Chain(p, id);
    }
    if ParentOfId(p, id).Some? && Meets(Chain(p, ParentOfId(p, id).value), want) {
      var x :| x in Chain(p, ParentOfId(p, id).value) && x in want;
      assert x in Chain(p, id);
    }
  }

  method Hits(entryId: string, want: set<string>, anc: set<string>, p: Parents) returns (hit: bool)
    requires Ranked(p)
    ensures hit <==> entryId in anc || Meets(Chain(p, entryId), want)
  {
    hit := entryId in anc;
    var id := Some(entryId);
    while !hit && id.Some?
      invariant hit || (id.Some? && Meets(Chain(p, id.value), want))
                <==> entryId in anc || Meets(Chain(p, entryId), want)
      decreases if id.Some? then Rank(p, id.value) + 1 else 0
    {
      ChainMeets(p, id.value, want);
      hit := id.value in want;
      id := ParentOfId(p, id.value);
    }
  }

  // ---- the ids parameter ----------------------------------------------------------------

  /** Parts between commas; there is always at least one. */
  function Pieces(s: string): (ps: seq<string>)
    ensures ps != []
  {
    if s == [] then [""]
    else
      var ps, c := Pieces(s[..|s| - 1]), s[|s| - 1];
      if c == ',' then ps + [""] else ps[|ps| - 1 := ps[|ps| - 1] + [c]]
  }

  datatype Ids = NoFilter | BadRegions | Filter(ids: seq<string>)

  predicate AllNumbers(ps: seq<string>) {
    forall i :: 0 <= i < |ps| ==> IsNumber(ps[i])
  }

  function IdsOf(q: Option<string>): Ids {
    if q.None? || q.value == "" then NoFilter
    else if AllNumbers(Pieces(q.value)) && |Pieces(q.value)| <= MAX_IDS then Filter(Pieces(q.value))
    else BadRegions
  }

  method ParseIds(q: Option<string>) returns (r: Ids)
    ensures r == IdsOf(q)
  {
    if q.None? || q.value == "" {
      return NoFilter;
    }
    var text := q.value;
    var ids, piece := [], "";
    for i := 0 to |text| + 1
      invariant i <= |text| ==> Pieces(text[..i]) == ids + [piece]
      invariant i > |text| ==> Pieces(text) == ids
      invariant AllNumbers(ids) && |ids| <= MAX_IDS
    {
      if i == |text| || text[i] == ',' {
        ClosedPiece(text, i, ids, piece);
        if !IsNumber(piece) || |ids| >= MAX_IDS {
          return BadRegions;
        }
        ids := ids + [piece];
        piece := "";
      } else {
        piece := piece + [text[i]];
      }
      if i < |text| {
        assert text[..i + 1][..i] == text[..i];
      }
    }
    r := Filter(ids);
  }

  lemma ClosedPiece(text: string, i: nat, ids: seq<string>, piece: string)
    requires i <= |text| && (i < |text| ==> text[i] == ',')
    requires Pieces(text[..i]) == ids + [piece]
    ensures |ids| < |Pieces(text)| && Pieces(text)[|ids|] == piece
    ensures i == |text| ==> Pieces(text) == ids + [piece]
  {
    if i == |text| {
      assert text[..i] == text;
    } else {
      assert text[..i + 1][..i] == text[..i];
      assert text == text[..i + 1] + text[i + 1..];
      PiecesGrow(text[..i + 1], text[i + 1..]);
    }
  }

  /** Reading on keeps the pieces that are already closed and never closes fewer. */
  lemma {:induction false} PiecesGrow(s: string, t: string)
    ensures |Pieces(s)| <= |Pieces(s + t)|
    ensures forall i :: 0 <= i < |Pieces(s)| - 1 ==> Pieces(s + t)[i] == Pieces(s)[i]
    decreases |t|
  {
    if t == [] {
      assert s + t == s;
    } else {
      var u := t[..|t| - 1];
      PiecesGrow(s, u);
      assert (s + t)[..|s + t| - 1] == s + u;
    }
  }

  /** What the device puts into ?regions=. */
  function Join(ids: seq<string>): string {
    if ids == [] then ""
    else if |ids| == 1 then ids[0]
    else Join(ids[..|ids| - 1]) + "," + ids[|ids| - 1]
  }

  method JoinUids(uids: seq<Uid>) returns (regions: string)
    ensures regions == Join(ShowAll(uids))
  {
    regions := "";
    for i := 0 to |uids|
      invariant regions == Join(ShowAll(uids[..i]))
    {
      assert ShowAll(uids[..i + 1]) == ShowAll(uids[..i]) + [Show(uids[i])];
      if i > 0 {
        regions := regions + ",";
      }
      regions := regions + Show(uids[i]);
    }
    assert uids[..|uids|] == uids;
  }

  function ShowAll(uids: seq<Uid>): (ids: seq<string>)
    ensures |ids| == |uids| && AllNumbers(ids)
  {
    seq(|uids|, i requires 0 <= i < |uids| => Show(uids[i]))
  }

  lemma PiecesSnoc(s: string, c: char)
    ensures Pieces(s + [c]) == if c == ',' then Pieces(s) + [""]
                               else Pieces(s)[|Pieces(s)| - 1 := Pieces(s)[|Pieces(s)| - 1] + [c]]
  {
    assert (s + [c])[..|s|] == s;
  }

  lemma {:induction false} PiecesAppend(s: string, t: string)
    requires forall i :: 0 <= i < |t| ==> t[i] != ','
    ensures Pieces(s + t) == Pieces(s)[|Pieces(s)| - 1 := Pieces(s)[|Pieces(s)| - 1] + t]
    decreases |t|
  {
    hide Pieces;
    var last := Pieces(s)[|Pieces(s)| - 1];
    if t == [] {
      assert s + t == s && last + t == last;
    } else {
      var u, c := t[..|t| - 1], t[|t| - 1];
      PiecesAppend(s, u);
      PiecesSnoc(s + u, c);
      assert (s + u) + [c] == s + t;
      assert last + t == (last + u) + [c];
    }
  }

  lemma {:induction false} PiecesOfJoin(ids: seq<string>)
    requires ids != [] && AllNumbers(ids)
    ensures Pieces(Join(ids)) == ids
    decreases |ids|
  {
    hide Pieces;
    var front, last := ids[..|ids| - 1], ids[|ids| - 1];
    assert "" + last == last && IsNumber(last);
    if |ids| == 1 {
      PiecesOfNothing();
      PiecesAppend("", last);
    } else {
      PiecesOfJoin(front);
      PiecesSnoc(Join(front), ',');
      assert Join(front) + "," == Join(front) + [','];
      PiecesAppend(Join(front) + ",", last);
      assert ids == front + [last];
    }
  }

  lemma PiecesOfNothing()
    ensures Pieces("") == [""]
  {
  }

  lemma JoinGrows(ids: seq<string>, c: char)
    requires ids != []
    ensures Join(ids + [""]) == Join(ids) + [',']
    ensures Join(ids[|ids| - 1 := ids[|ids| - 1] + [c]]) == Join(ids) + [c]
  {
    assert (ids + [""])[..|ids|] == ids && Join(ids) + "," + "" == Join(ids) + [','];
    var longer, front, last := ids[|ids| - 1 := ids[|ids| - 1] + [c]], ids[..|ids| - 1], ids[|ids| - 1];
    assert longer[..|ids| - 1] == front;
    assert Join(front) + "," + (last + [c]) == Join(front) + "," + last + [c];
  }

  lemma {:induction false} JoinOfPieces(s: string)
    ensures Join(Pieces(s)) == s
  {
    if s != [] {
      var front, c := s[..|s| - 1], s[|s| - 1];
      JoinOfPieces(front);
      JoinGrows(Pieces(front), c);
      assert front + [c] == s;
    }
  }

  /** The lists that filter: up to 32 numbers joined by commas, and nothing else. */
  lemma FilterExactly(q: string, ids: seq<string>)
    ensures IdsOf(Some(q)) == Filter(ids)
            <==> && 1 <= |ids| <= 32 && q == Join(ids)
                 && forall i :: 0 <= i < |ids| ==>
                      ids[i] != "" && forall k :: 0 <= k < |ids[i]| ==> '0' <= ids[i][k] <= '9'
  {
    hide Join;
    assert AllNumbers(ids) <==> forall i :: 0 <= i < |ids| ==>
                      ids[i] != "" && forall k :: 0 <= k < |ids[i]| ==> '0' <= ids[i][k] <= '9';
    JoinOfPieces(q);
    PiecesOfNothing();
    if ids != [] && AllNumbers(ids) {
      PiecesOfJoin(ids);
      assert IsNumber(ids[0]);
    }
  }

  /** The proxy reads back exactly the selection the device sent. */
  lemma RegionsRoundTrip(uids: seq<Uid>)
    requires 0 < |uids| <= MAX_IDS
    ensures IdsOf(Some(Join(ShowAll(uids)))) == Filter(ShowAll(uids))
  {
    PiecesOfJoin(ShowAll(uids));
    assert Pieces("") == [""];
    assert !IsNumber("") && IsNumber(ShowAll(uids)[0]);
  }
}
