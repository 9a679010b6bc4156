/** The proxy's relevance filter never changes what a device concludes. */
module ProxyFilter {
  import opened Types
  import opened Decimal
  import opened Catalogue
  import opened SnapshotBuilders
  import opened AlertsParsers
  import opened ProxyState
  import opened Webhooks

  // ---- one tree behind both tables ------------------------------------------------------

  function IdsIn(nodes: seq<Region>): set<string>
    decreases nodes
  {
    if nodes == [] then {}
    else {nodes[0].id} + IdsIn(nodes[0].children) + IdsIn(nodes[1..])
  }

  /** No id occurs twice, at any level. */
  predicate UniqueTree(nodes: seq<Region>)
    decreases nodes
  {
    nodes == [] ||
    (&& nodes[0].id !in IdsIn(nodes[0].children) && nodes[0].id !in IdsIn(nodes[1..])
     && IdsIn(nodes[0].children) !! IdsIn(nodes[1..])
     && UniqueTree(nodes[0].children) && UniqueTree(nodes[1..]))
  }

  predicate CanonicalTree(nodes: seq<Region>) {
    forall id :: id in IdsIn(nodes) ==> Canonical(id)
  }

  /** The generator's table: its rows, sorted by uid. */
  ghost predicate GeneratedFrom(table: seq<Location>, states: seq<Region>) {
    SortedByUid(table) && multiset(table) == multiset(Rows(states))
  }

  lemma {:induction false} WalkKeys(nodes: seq<Region>, parent: Option<string>, depth: nat)
    ensures Walk(nodes, parent, depth).Keys == IdsIn(nodes)
    decreases nodes
  {
    if nodes != [] {
      WalkKeys(nodes[0].children, Some(nodes[0].id), depth + 1);
      WalkKeys(nodes[1..], parent, depth);
    }
  }

  /** With unique ids the merge never overwrites, so each part can be read off. */
  lemma WalkParts(nodes: seq<Region>, parent: Option<string>, depth: nat)
    requires nodes != [] && UniqueTree(nodes)
    ensures var w := Walk(nodes, parent, depth);
            && w[nodes[0].id] == Info(parent, depth, nodes[0].name, nodes[0].kind)
            && (forall x :: x in IdsIn(nodes[0].children) ==>
                  x in w && x in Walk(nodes[0].children, Some(nodes[0].id), depth + 1)
                  && w[x] == Walk(nodes[0].children, Some(nodes[0].id), depth + 1)[x])
            && (forall x :: x in IdsIn(nodes[1..]) ==>
                  x in w && x in Walk(nodes[1..], parent, depth) && w[x] == Walk(nodes[1..], parent, depth)[x])
  {
    WalkKeys(nodes, parent, depth);
    WalkKeys(nodes[0].children, Some(nodes[0].id), depth + 1);
    WalkKeys(nodes[1..], parent, depth);
  }

  /** A link goes one level up, inside the tree or to the given parent. */
  ghost predicate LinksUp(w: Parents, x: string, parent: Option<string>, depth: nat)
    requires x in w
  {
    || (w[x].parent == parent && w[x].depth == depth)
    || (w[x].parent.Some? && w[x].parent.value in w && w[w[x].parent.value].depth + 1 == w[x].depth)
  }

  lemma {:induction false} WalkLinksUp(nodes: seq<Region>, parent: Option<string>, depth: nat, x: string)
    requires UniqueTree(nodes) && x in IdsIn(nodes)
    ensures x in Walk(nodes, parent, depth)
    ensures LinksUp(Walk(nodes, parent, depth), x, parent, depth)
    decreases nodes
  {
    WalkParts(nodes, parent, depth);
    WalkKeys(nodes, parent, depth);
    if x in IdsIn(nodes[0].children) {
      WalkLinksUp(nodes[0].children, Some(nodes[0].id), depth + 1, x);
      WalkKeys(nodes[0].children, Some(nodes[0].id), depth + 1);
    } else if x != nodes[0].id {
      WalkLinksUp(nodes[1..], parent, depth, x);
      WalkKeys(nodes[1..], parent, depth);
    }
  }

  /** So every ancestor walk ends, by tree depth. */
  lemma TreeIsRanked(states: seq<Region>)
    requires UniqueTree(states)
    ensures Ranked(Walk(states, None, 0))
  {
    var w := Walk(states, None, 0);
    WalkKeys(states, None, 0);
    forall id | id in w && w[id].parent.Some?
      ensures w[id].parent.value in w && w[w[id].parent.value].depth < w[id].depth
    {
      WalkLinksUp(states, None, 0, id);
    }
  }

  lemma WalkSingle(node: Region, parent: Option<string>, depth: nat)
    ensures Walk([node], parent, depth) ==
            map[node.id := Info(parent, depth, node.name, node.kind)] + Walk(node.children, Some(node.id), depth + 1)
  {
    assert [node][1..] == [];
    assert Walk([], parent, depth) == map[];
  }

  /** A repeated id can make a walk run in a circle. */
  lemma RepeatedIdLoops()
    ensures var w := Walk([Region("1", "", "", [Region("1", "", "", [])])], None, 0);
            "1" in w && w["1"].parent == Some("1") && !Ranked(w)
  {
    var leaf := Region("1", "", "", []);
    WalkSingle(Region("1", "", "", [leaf]), None, 0);
    WalkSingle(leaf, Some("1"), 1);
    assert Walk([], Some("1"), 2) == map[];
    assert Walk([leaf], Some("1"), 1)["1"] == Info(Some("1"), 1, "", "");
  }

  // ---- the device table follows the same links ---------------------------------------------

  lemma {:induction false} NodeLinks(nodes: seq<Region>, parent: Option<string>, depth: nat, k: nat)
    requires UniqueTree(nodes) && k < |nodes|
    ensures UniqueTree(nodes[k].children)
    ensures nodes[k].id in IdsIn(nodes) && IdsIn(nodes[k].children) <= IdsIn(nodes)
    ensures nodes[k].id in Walk(nodes, parent, depth) && Walk(nodes, parent, depth)[nodes[k].id].parent == parent
    ensures forall x :: x in IdsIn(nodes[k].children) ==>
              x in Walk(nodes, parent, depth) && x in Walk(nodes[k].children, Some(nodes[k].id), depth + 1)
              && Walk(nodes, parent, depth)[x] == Walk(nodes[k].children, Some(nodes[k].id), depth + 1)[x]
    decreases k
  {
    WalkParts(nodes, parent, depth);
    WalkKeys(nodes, parent, depth);
    if k > 0 {
      assert nodes[1..][k - 1] == nodes[k];
      NodeLinks(nodes[1..], parent, depth, k - 1);
    }
  }

  /** The row's parents are proxy ancestors of the row. */
  ghost predicate Linked(p: Parents, row: Location)
    requires Ranked(p)
  {
    && (row.oblastUid != 0 ==> Show(row.oblastUid) in ProperAncestors(p, Show(row.uid)))
    && (row.raionUid != 0 ==> Show(row.raionUid) in ProperAncestors(p, Show(row.uid)))
  }

  lemma {:induction false} CommunitiesLinked(states: seq<Region>, st: Region, d: Region, cs: seq<Region>, row: Location)
    requires UniqueTree(states) && CanonicalTree(states) && Ranked(Walk(states, None, 0))
    requires st.id in IdsIn(states) && d.id in IdsIn(states)
    requires ParentOfId(Walk(states, None, 0), d.id) == Some(st.id)
    requires forall k :: 0 <= k < |cs| ==>
               cs[k].id in IdsIn(states) && ParentOfId(Walk(states, None, 0), cs[k].id) == Some(d.id)
    requires row in CommunityRows(cs, UidOf(st.id), UidOf(d.id))
    ensures Linked(Walk(states, None, 0), row)
    decreases |cs|
  {
    var p := Walk(states, None, 0);
    if row == Location(UidOf(cs[0].id), UidOf(st.id), UidOf(d.id)) {
      assert Canonical(cs[0].id) && Canonical(d.id) && Canonical(st.id);
      assert d.id in Chain(p, d.id) && st.id in Chain(p, st.id);
    } else {
      CommunitiesLinked(states, st, d, cs[1..], row);
    }
  }

  lemma {:induction false} DistrictsLinked(states: seq<Region>, s: nat, k: nat, row: Location)
    requires UniqueTree(states) && CanonicalTree(states) && Ranked(Walk(states, None, 0))
    requires s < |states| && k <= |states[s].children|
    requires row in DistrictRows(states[s].children[k..], UidOf(states[s].id))
    ensures Linked(Walk(states, None, 0), row)
    decreases |states[s].children| - k
  {
    var p, st := Walk(states, None, 0), states[s];
    if k < |st.children| {
      var d := st.children[k];
      assert st.children[k..][0] == d && st.children[k..][1..] == st.children[k + 1..];
      if row in DistrictRow(d, UidOf(st.id)) {
        NodeLinks(states, None, 0, s);
        NodeLinks(st.children, Some(st.id), 1, k);
        assert ParentOfId(p, d.id) == Some(st.id);
        if row == Location(UidOf(d.id), UidOf(st.id), 0) {
          assert Canonical(d.id) && Canonical(st.id);
          assert st.id in Chain(p, st.id);
        } else {
          forall j | 0 <= j < |d.children|
            ensures d.children[j].id in IdsIn(states) && ParentOfId(p, d.children[j].id) == Some(d.id)
          {
            NodeLinks(d.children, Some(d.id), 2, j);
          }
          CommunitiesLinked(states, st, d, d.children, row);
        }
      } else {
        DistrictsLinked(states, s, k + 1, row);
      }
    }
  }

  lemma {:induction false} RowsLinked(states: seq<Region>, s: nat, row: Location)
    requires UniqueTree(states) && CanonicalTree(states) && Ranked(Walk(states, None, 0))
    requires s <= |states| && row in Rows(states[s..])
    ensures Linked(Walk(states, None, 0), row)
    decreases |states| - s
  {
    if s < |states| {
      assert states[s..][0] == states[s] && states[s..][1..] == states[s + 1..];
      if row in StateRow(states[s]) {
        if row != Location(UidOf(states[s].id), 0, 0) {
          assert states[s].children[0..] == states[s].children;
          DistrictsLinked(states, s, 0, row);
        }
      } else {
        RowsLinked(states, s + 1, row);
      }
    }
  }

  lemma LookupLinked(states: seq<Region>, table: seq<Location>, uid: Uid)
    requires UniqueTree(states) && CanonicalTree(states) && GeneratedFrom(table, states)
    requires Lookup(table, uid).Some?
    ensures Ranked(Walk(states, None, 0))
    ensures Lookup(table, uid).value.uid == uid && Linked(Walk(states, None, 0), Lookup(table, uid).value)
  {
    TreeIsRanked(states);
    LookupFinds(table, uid);
    var row := Lookup(table, uid).value;
    assert row in multiset(table);
    assert states[0..] == states;
    RowsLinked(states, 0, row);
  }

  // ---- whatever the device matches, the proxy keeps ------------------------------------------

  function Uids(sel: seq<Location>): seq<Uid> {
    seq(|sel|, i requires 0 <= i < |sel| => sel[i].uid)
  }

  lemma MatchIsRelevant(states: seq<Region>, table: seq<Location>, sel: seq<Location>, i: nat, uid: Uid)
    requires UniqueTree(states) && CanonicalTree(states) && GeneratedFrom(table, states)
    requires i < |sel| && Carries(table, sel[i])
    requires Match(table, sel[i], uid) != NoCoverage
    ensures Ranked(Walk(states, None, 0))
    ensures Relevant(Walk(states, None, 0), ShowAll(Uids(sel)), Show(uid))
  {
    TreeIsRanked(states);
    var p, ids, s := Walk(states, None, 0), ShowAll(Uids(sel)), sel[i];
    assert ids[i] == Show(s.uid);
    if uid == s.uid {
      assert Show(uid) in Chain(p, Show(uid)) && Show(uid) in ids;
    } else if uid == s.oblastUid || (s.raionUid != 0 && uid == s.raionUid) {
      LookupLinked(states, table, s.uid);
      assert Show(uid) in ProperAncestors(p, ids[i]);
    } else {
      LookupLinked(states, table, uid);
      assert Show(s.uid) in Chain(p, Show(uid)) && Show(s.uid) in ids;
    }
  }

  lemma {:induction false} KeptMembers(entries: seq<Entry>, ids: seq<string>, p: Parents)
    requires Ranked(p)
    ensures forall e :: e in Kept(entries, ids, p) <==> e in entries && Relevant(p, ids, e.regionId)
  {
    if entries != [] {
      var front, last := entries[..|entries| - 1], entries[|entries| - 1];
      KeptMembers(front, ids, p);
      assert entries == front + [last];
    }
  }

  lemma {:induction false} ListedAt(entries: seq<Entry>, id: string, a: ApiAlert)
    ensures a in AlertsAt(entries, id) <==> exists e :: e in entries && e.regionId == id && a in e.alerts
  {
    if entries != [] {
      ListedAt(entries[1..], id, a);
      assert entries == [entries[0]] + entries[1..];
    }
  }

  predicate CanonicalAlerts(entries: seq<Entry>) {
    forall e, o :: e in entries && o in e.alerts ==> Canonical(o.regionId)
  }

  lemma MatchedAlertIsKept(states: seq<Region>, table: seq<Location>, sel: seq<Location>, entries: seq<Entry>,
                           i: nat, e: Entry, o: ApiAlert)
    requires UniqueTree(states) && CanonicalTree(states) && GeneratedFrom(table, states)
    requires Twins(entries) && CanonicalAlerts(entries)
    requires i < |sel| && Carries(table, sel[i]) && e in entries && o in e.alerts
    requires Match(table, sel[i], UidOf(o.regionId)) != NoCoverage
    ensures Ranked(Walk(states, None, 0))
    ensures exists e' :: e' in Kept(entries, ShowAll(Uids(sel)), Walk(states, None, 0)) && o in e'.alerts
  {
    TreeIsRanked(states);
    MatchIsRelevant(states, table, sel, i, UidOf(o.regionId));
    ListedAt(entries, e.regionId, o);
    ListedAt(entries, o.regionId, o);
    var e' :| e' in entries && e'.regionId == o.regionId && o in e'.alerts;
    KeptMembers(entries, ShowAll(Uids(sel)), Walk(states, None, 0));
  }

  lemma MatchedBySubset(table: seq<Location>, sel: seq<Location>, some: set<Alert>, all: set<Alert>)
    requires some <= all
    requires forall p :: p in Matched(table, sel, all) ==> p.1 in some
    ensures Matched(table, sel, some) == Matched(table, sel, all)
  {
  }

  lemma SubsetOfAlerts(kept: seq<Entry>, entries: seq<Entry>)
    requires forall e :: e in kept ==> e in entries
    ensures AlertsIn(kept) <= AlertsIn(entries)
  {
  }

  lemma DecodedIn(entries: seq<Entry>, e: Entry, o: ApiAlert)
    requires e in entries && o in e.alerts && Decode(o).Some?
    ensures Decode(o).value in AlertsIn(entries)
  {
  }

  lemma PairIsKept(states: seq<Region>, table: seq<Location>, sel: seq<Location>, entries: seq<Entry>,
                   kept: seq<Entry>, i: nat, a: Alert)
    requires UniqueTree(states) && CanonicalTree(states) && GeneratedFrom(table, states)
    requires i < |sel| && Carries(table, sel[i]) && Match(table, sel[i], a.uid) != NoCoverage
    requires Twins(entries) && CanonicalAlerts(entries) && a in AlertsIn(entries)
    requires Ranked(Walk(states, None, 0)) && kept == Kept(entries, ShowAll(Uids(sel)), Walk(states, None, 0))
    ensures a in AlertsIn(kept)
  {
    var e, o :| e in entries && o in e.alerts && Decode(o) == Some(a);
    assert a.uid == UidOf(o.regionId);
    MatchedAlertIsKept(states, table, sel, entries, i, e, o);
    var e' :| e' in kept && o in e'.alerts;
    DecodedIn(kept, e', o);
  }

  lemma MatchedAgree(states: seq<Region>, table: seq<Location>, sel: seq<Location>, entries: seq<Entry>,
                     kept: seq<Entry>)
    requires UniqueTree(states) && CanonicalTree(states) && GeneratedFrom(table, states)
    requires forall i :: 0 <= i < |sel| ==> Carries(table, sel[i])
    requires Twins(entries) && CanonicalAlerts(entries)
    requires Ranked(Walk(states, None, 0)) && kept == Kept(entries, ShowAll(Uids(sel)), Walk(states, None, 0))
    ensures Matched(table, sel, AlertsIn(kept)) == Matched(table, sel, AlertsIn(entries))
  {
    KeptMembers(entries, ShowAll(Uids(sel)), Walk(states, None, 0));
    SubsetOfAlerts(kept, entries);
    var all := AlertsIn(entries);
    forall p | p in Matched(table, sel, all)
      ensures p.1 in AlertsIn(kept)
    {
      PairIsKept(states, table, sel, entries, kept, p.0, p.1);
    }
    MatchedBySubset(table, sel, AlertsIn(kept), all);
  }

  /** Both ends use one catalogue and the selection was made from it. That the
      walks end follows from the rest, see TreeIsRanked. */
  ghost predicate SharedCatalogue(states: seq<Region>, table: seq<Location>, sel: seq<Location>) {
    && UniqueTree(states) && CanonicalTree(states) && GeneratedFrom(table, states)
    && Ranked(Walk(states, None, 0))
    && forall i :: 0 <= i < |sel| ==> Carries(table, sel[i])
  }

  /** The main result: for any stored list and any selection, aggregating the
      filtered list gives exactly what aggregating everything gives. */
  lemma FilterIsLossless(states: seq<Region>, table: seq<Location>, sel: seq<Location>, entries: seq<Entry>)
    requires UniqueTree(states) && CanonicalTree(states) && GeneratedFrom(table, states)
    requires forall i :: 0 <= i < |sel| ==> Carries(table, sel[i])
    requires Twins(entries) && CanonicalAlerts(entries)
    ensures Ranked(Walk(states, None, 0))
    ensures ViewOf(table, sel, AlertsIn(Kept(entries, ShowAll(Uids(sel)), Walk(states, None, 0))))
            == ViewOf(table, sel, AlertsIn(entries))
  {
    TreeIsRanked(states);
    var kept := Kept(entries, ShowAll(Uids(sel)), Walk(states, None, 0));
    MatchedAgree(states, table, sel, entries, kept);
    ViewByMatched(table, sel, AlertsIn(kept), AlertsIn(entries));
  }

  lemma {:induction false} RunStaysCanonical(entries: seq<Entry>, changes: seq<Change>, info: Option<Parents>)
    requires UniqueIds(entries) && Twins(entries) && CanonicalAlerts(entries)
    requires forall k :: 0 <= k < |changes| ==> Canonical(changes[k].id)
    ensures CanonicalAlerts(ApplyAll(entries, changes, info))
    decreases |changes|
  {
    if changes != [] {
      var front, c := changes[..|changes| - 1], changes[|changes| - 1];
      var before := ApplyAll(entries, front, info);
      RunStaysCanonical(entries, front, info);
      RunKeepsTwins(entries, front, info);
      var after := Apply(before, c, info);
      forall e, o | e in after && o in e.alerts
        ensures Canonical(o.regionId)
      {
        ListedAt(after, e.regionId, o);
        ApplyIsPointwise(before, c, info, e.regionId);
        RewriteMembers(AlertsAt(before, e.regionId), c);
        if !IsKey(o, c.id, c.kind) {
          ListedAt(before, e.regionId, o);
        }
      }
    }
  }

  /** And it stays so after any run of webhooks. */
  lemma LosslessAfterWebhooks(states: seq<Region>, table: seq<Location>, sel: seq<Location>,
                              entries: seq<Entry>, changes: seq<Change>, info: Option<Parents>)
    requires UniqueTree(states) && CanonicalTree(states) && GeneratedFrom(table, states)
    requires forall i :: 0 <= i < |sel| ==> Carries(table, sel[i])
    requires UniqueIds(entries) && Twins(entries) && CanonicalAlerts(entries)
    requires forall k :: 0 <= k < |changes| ==> Canonical(changes[k].id)
    ensures Ranked(Walk(states, None, 0))
    ensures var stored := ApplyAll(entries, changes, info);
            ViewOf(table, sel, AlertsIn(Kept(stored, ShowAll(Uids(sel)), Walk(states, None, 0))))
            == ViewOf(table, sel, AlertsIn(stored))
  {
    RunKeepsTwins(entries, changes, info);
    RunStaysCanonical(entries, changes, info);
    FilterIsLossless(states, table, sel, ApplyAll(entries, changes, info));
  }
}
