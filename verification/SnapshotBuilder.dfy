/** Streaming aggregation of alerts (SnapshotBuilder.h) and the decoding of API
    entries that feeds it (AlertsParser.h). */
module SnapshotBuilders {
  import opened Types
  import opened Clock
  import opened Decimal
  import opened Catalogue
  import AE = AlertEngines

  const MAX_SELECTED := 16

  datatype Alert = Alert(kind: AlertType, uid: Uid, startedAt: int)

  /** Detail for one selected location and one type; start times are uint32. */
  datatype Cell = Cell(startedAt: nat, coverage: Coverage)

  const EMPTY_INPUT := AE.TypeInput(NoCoverage, 0, 0)
  const EMPTY_CELL := Cell(0, NoCoverage)

  // ---- what a set of alerts means ---------------------------------------------------

  /** Selected location (by index) and an alert that concerns it. */
  type Pair = (nat, Alert)

  ghost function Matched(table: seq<Location>, sel: seq<Location>, alerts: set<Alert>): set<Pair> {
    set i, a | 0 <= i < |sel| && a in alerts && Match(table, sel[i], a.uid) != NoCoverage :: (i, a)
  }

  function CoverageOf(table: seq<Location>, sel: seq<Location>, p: Pair): Coverage {
    if p.0 < |sel| then Match(table, sel[p.0], p.1.uid) else NoCoverage
  }

  ghost function OfType(pairs: set<Pair>, t: AlertType): set<Pair> {
    set p | p in pairs && p.1.kind == t
  }

  ghost function OfCell(pairs: set<Pair>, i: nat, t: AlertType): set<Pair> {
    set p | p in pairs && p.0 == i && p.1.kind == t
  }

  function Max(a: Coverage, b: Coverage): Coverage {
    if a == Full || b == Full then Full else if a == Partial || b == Partial then Partial else NoCoverage
  }

  /** The greatest coverage among matched pairs. */
  ghost function Greatest(table: seq<Location>, sel: seq<Location>, pairs: set<Pair>): Coverage {
    if exists p :: p in pairs && CoverageOf(table, sel, p) == Full then Full
    else if pairs != {} then Partial
    else NoCoverage
  }

  ghost predicate IsLeast(x: int, xs: set<int>) {
    x in xs && x > 0 && forall y :: y in xs && y > 0 ==> x <= y
  }

  lemma {:induction false} LeastExists(xs: set<int>)
    requires exists x :: x in xs && x > 0
    ensures exists x :: IsLeast(x, xs)
    decreases |xs|
  {
    var x :| x in xs && x > 0;
    if y :| y in xs && 0 < y < x {
      var rest := xs - {x};
      assert y in rest;
      LeastExists(rest);
      var z :| IsLeast(z, rest);
      assert z <= y && forall w :: w in xs ==> w == x || w in rest;
      assert IsLeast(z, xs);
    } else {
      assert IsLeast(x, xs);
    }
  }

  /** The least positive member, 0 if there is none. */
  ghost function Least(xs: set<int>): (r: nat)
    ensures r > 0 ==> IsLeast(r, xs)
    ensures r == 0 <==> forall x :: x in xs ==> x <= 0
  {
    if exists x :: x in xs && x > 0 then
      LeastExists(xs);
      var x :| IsLeast(x, xs);
      x
    else 0
  }

  function Earlier(r: nat, x: int): nat {
    if x > 0 && (r == 0 || x < r) then x else r
  }

  lemma LeastAdd(xs: set<int>, x: int)
    ensures Least(xs + {x}) == Earlier(Least(xs), x)
  {
    var r := Least(xs + {x});
    var s := Least(xs);
    assert r > 0 ==> r in xs + {x};
    assert s > 0 ==> s in xs + {x};
    assert x in xs + {x};
  }

  ghost function Starts(pairs: set<Pair>): set<int> {
    set p | p in pairs :: p.1.startedAt
  }

  /** The same after the cast to uint32. */
  ghost function Starts32(pairs: set<Pair>): set<int> {
    set p | p in pairs :: p.1.startedAt % WRAP
  }

  ghost function Locations(pairs: set<Pair>): set<nat> {
    set p | p in pairs :: p.0
  }

  ghost function InputOf(table: seq<Location>, sel: seq<Location>, pairs: set<Pair>, t: AlertType): AE.TypeInput {
    var mine := OfType(pairs, t);
    AE.TypeInput(Greatest(table, sel, mine), |Locations(mine)|, Least(Starts(mine)))
  }

  ghost function CellOf(table: seq<Location>, sel: seq<Location>, pairs: set<Pair>, i: nat, t: AlertType): Cell {
    var mine := OfCell(pairs, i, t);
    Cell(Least(Starts32(mine)), Greatest(table, sel, mine))
  }

  /** The snapshot that a set of alerts gives a selection, in any order and with
      any repetitions. */
  ghost function Aggregate(table: seq<Location>, sel: seq<Location>, alerts: set<Alert>): AE.Snapshot {
    var pairs := Matched(table, sel, alerts);
    seq(TYPE_COUNT, t requires 0 <= t < TYPE_COUNT => InputOf(table, sel, pairs, t))
  }

  // ---- one more pair ------------------------------------------------------------------

  lemma GreatestAdd(table: seq<Location>, sel: seq<Location>, pairs: set<Pair>, p: Pair)
    requires CoverageOf(table, sel, p) != NoCoverage
    ensures Greatest(table, sel, pairs + {p}) == Max(Greatest(table, sel, pairs), CoverageOf(table, sel, p))
  {
    assert p in pairs + {p};
    if q :| q in pairs && CoverageOf(table, sel, q) == Full {
      assert q in pairs + {p};
    }
  }

  lemma StartsAdd(pairs: set<Pair>, p: Pair)
    ensures Starts(pairs + {p}) == Starts(pairs) + {p.1.startedAt}
    ensures Starts32(pairs + {p}) == Starts32(pairs) + {p.1.startedAt % WRAP}
    ensures Locations(pairs + {p}) == Locations(pairs) + {p.0}
  {
  }

  lemma OfTypeAdd(pairs: set<Pair>, p: Pair, t: AlertType)
    ensures OfType(pairs + {p}, t) == OfType(pairs, t) + if t == p.1.kind then {p} else {}
  {
  }

  lemma OfCellAdd(pairs: set<Pair>, p: Pair, i: nat, t: AlertType)
    ensures OfCell(pairs + {p}, i, t) == OfCell(pairs, i, t) + if i == p.0 && t == p.1.kind then {p} else {}
  {
  }

  lemma InputAdd(table: seq<Location>, sel: seq<Location>, pairs: set<Pair>, p: Pair, t: AlertType)
    requires CoverageOf(table, sel, p) != NoCoverage
    ensures var before, after := InputOf(table, sel, pairs, t), InputOf(table, sel, pairs + {p}, t);
            after == if t != p.1.kind then before
                     else AE.TypeInput(Max(before.coverage, CoverageOf(table, sel, p)),
                                       |Locations(OfType(pairs, t)) + {p.0}|,
                                       Earlier(before.earliestStartedAt, p.1.startedAt))
  {
    hide OfType, Greatest, Locations, Starts;
    var mine := OfType(pairs, t);
    OfTypeAdd(pairs, p, t);
    if t == p.1.kind {
      GreatestAdd(table, sel, mine, p);
      StartsAdd(mine, p);
      LeastAdd(Starts(mine), p.1.startedAt);
    } else {
      assert OfType(pairs + {p}, t) == mine;
    }
  }

  lemma CellAdd(table: seq<Location>, sel: seq<Location>, pairs: set<Pair>, p: Pair, i: nat, t: AlertType)
    requires CoverageOf(table, sel, p) != NoCoverage
    ensures var before, after := CellOf(table, sel, pairs, i, t), CellOf(table, sel, pairs + {p}, i, t);
            after == if i != p.0 || t != p.1.kind then before
                     else Cell(Earlier(before.startedAt, p.1.startedAt % WRAP),
                               Max(before.coverage, CoverageOf(table, sel, p)))
  {
    hide OfCell, Greatest, Starts32;
    var mine := OfCell(pairs, i, t);
    OfCellAdd(pairs, p, i, t);
    if i == p.0 && t == p.1.kind {
      GreatestAdd(table, sel, mine, p);
      StartsAdd(mine, p);
      LeastAdd(Starts32(mine), p.1.startedAt % WRAP);
    } else {
      assert OfCell(pairs + {p}, i, t) == mine;
    }
  }

  // ---- cells and snapshot agree ------------------------------------------------------

  lemma CellsPartition(table: seq<Location>, sel: seq<Location>, alerts: set<Alert>, t: AlertType, p: Pair)
    ensures var pairs := Matched(table, sel, alerts);
            && (p in OfType(pairs, t) <==> p.0 < |sel| && p in OfCell(pairs, p.0, t))
            && (p in OfType(pairs, t) ==> p.1 in alerts && CoverageOf(table, sel, p) != NoCoverage)
  {
  }

  /** The dashboard's cells and the engine's snapshot tell one story: coverage is
      the greatest among the selected locations, and the count is of those matched. */
  lemma CellsAgree(table: seq<Location>, sel: seq<Location>, alerts: set<Alert>, t: AlertType)
    ensures var pairs := Matched(table, sel, alerts);
            var input := InputOf(table, sel, pairs, t);
            && (input.coverage == Full <==> exists i :: 0 <= i < |sel| && CellOf(table, sel, pairs, i, t).coverage == Full)
            && (input.coverage == NoCoverage
                <==> forall i :: 0 <= i < |sel| ==> CellOf(table, sel, pairs, i, t).coverage == NoCoverage)
            && input.locationCount
               == |set i | 0 <= i < |sel| && CellOf(table, sel, pairs, i, t).coverage != NoCoverage|
  {
    hide Matched, Match, Least, Starts, Starts32;
    var pairs := Matched(table, sel, alerts);
    var mine := OfType(pairs, t);
    forall p | p in mine
      ensures p.0 < |sel| && p in OfCell(pairs, p.0, t)
      ensures CellOf(table, sel, pairs, p.0, t).coverage != NoCoverage
      ensures CoverageOf(table, sel, p) == Full ==> CellOf(table, sel, pairs, p.0, t).coverage == Full
    {
      CellsPartition(table, sel, alerts, t, p);
    }
    forall i | 0 <= i < |sel|
      ensures OfCell(pairs, i, t) <= mine
      ensures CellOf(table, sel, pairs, i, t).coverage != NoCoverage ==> i in Locations(mine)
      ensures CellOf(table, sel, pairs, i, t).coverage == Full ==> Greatest(table, sel, mine) == Full
    {
      CellInType(table, sel, pairs, i, t);
    }
    var covered := set i | 0 <= i < |sel| && CellOf(table, sel, pairs, i, t).coverage != NoCoverage;
    assert Locations(mine) == covered;
  }

  lemma CellInType(table: seq<Location>, sel: seq<Location>, pairs: set<Pair>, i: nat, t: AlertType)
    ensures OfCell(pairs, i, t) <= OfType(pairs, t)
    ensures CellOf(table, sel, pairs, i, t).coverage != NoCoverage ==> i in Locations(OfType(pairs, t))
    ensures CellOf(table, sel, pairs, i, t).coverage == Full ==> Greatest(table, sel, OfType(pairs, t)) == Full
  {
    if p :| p in OfCell(pairs, i, t) {
      assert p in OfType(pairs, t);
    }
    if CellOf(table, sel, pairs, i, t).coverage == Full {
      var p :| p in OfCell(pairs, i, t) && CoverageOf(table, sel, p) == Full;
      assert p in OfType(pairs, t);
    }
  }

  ghost function CellStarts(table: seq<Location>, sel: seq<Location>, pairs: set<Pair>, t: AlertType): set<int> {
    set i | 0 <= i < |sel| :: CellOf(table, sel, pairs, i, t).startedAt
  }

  lemma LeastAgree(xs: set<int>, ys: set<int>)
    requires forall y :: y in ys && y > 0 ==> y in xs
    requires forall x :: x in xs && x > 0 ==> exists y :: y in ys && 0 < y <= x
    ensures Least(xs) == Least(ys)
  {
  }

  lemma CellStartIsStart(table: seq<Location>, sel: seq<Location>, alerts: set<Alert>, t: AlertType, i: nat)
    ensures var pairs := Matched(table, sel, alerts);
            var y := CellOf(table, sel, pairs, i, t).startedAt;
            y > 0 ==> y in Starts32(OfType(pairs, t))
  {
    var pairs := Matched(table, sel, alerts);
    var y := CellOf(table, sel, pairs, i, t).startedAt;
    if y > 0 {
      assert y in Starts32(OfCell(pairs, i, t));
      var p :| p in OfCell(pairs, i, t) && p.1.startedAt % WRAP == y;
      assert p in OfType(pairs, t);
    }
  }

  lemma StartIsInCell(table: seq<Location>, sel: seq<Location>, alerts: set<Alert>, t: AlertType, x: int)
    requires x in Starts32(OfType(Matched(table, sel, alerts), t)) && x > 0
    ensures exists y :: y in CellStarts(table, sel, Matched(table, sel, alerts), t) && 0 < y <= x
  {
    var pairs := Matched(table, sel, alerts);
    var p :| p in OfType(pairs, t) && p.1.startedAt % WRAP == x;
    CellsPartition(table, sel, alerts, t, p);
    var cell := OfCell(pairs, p.0, t);
    assert x in Starts32(cell);
    var y := Least(Starts32(cell));
    assert y == CellOf(table, sel, pairs, p.0, t).startedAt;
    assert y in CellStarts(table, sel, pairs, t);
  }

  /** The cells hold the starts as the cast to uint32 leaves them: whatever the
      starts, the least positive one of the cells is the least of those. */
  lemma CellStartsAreWrapped(table: seq<Location>, sel: seq<Location>, alerts: set<Alert>, t: AlertType)
    ensures var pairs := Matched(table, sel, alerts);
            Least(CellStarts(table, sel, pairs, t)) == Least(Starts32(OfType(pairs, t)))
  {
    var pairs := Matched(table, sel, alerts);
    var all, cellStarts := Starts32(OfType(pairs, t)), CellStarts(table, sel, pairs, t);
    forall y | y in cellStarts && y > 0
      ensures y in all
    {
      var i :| 0 <= i < |sel| && CellOf(table, sel, pairs, i, t).startedAt == y;
      CellStartIsStart(table, sel, alerts, t, i);
    }
    forall x | x in all && x > 0
      ensures exists y :: y in cellStarts && 0 < y <= x
    {
      StartIsInCell(table, sel, alerts, t, x);
    }
    LeastAgree(all, cellStarts);
  }

  /** So for start times that fit uint32 the type's earliest start is the least
      positive one among its cells. */
  lemma CellStartsAgree(table: seq<Location>, sel: seq<Location>, alerts: set<Alert>, t: AlertType)
    requires forall a :: a in alerts ==> 0 <= a.startedAt < WRAP
    ensures var pairs := Matched(table, sel, alerts);
            InputOf(table, sel, pairs, t).earliestStartedAt == Least(CellStarts(table, sel, pairs, t))
  {
    hide CellStarts;
    CellStartsAreWrapped(table, sel, alerts, t);
    MatchedAreKnown(table, sel, alerts, t);
    WrapKeepsStarts(OfType(Matched(table, sel, alerts), t));
  }

  lemma MatchedAreKnown(table: seq<Location>, sel: seq<Location>, alerts: set<Alert>, t: AlertType)
    ensures forall p :: p in OfType(Matched(table, sel, alerts), t) ==> p.1 in alerts
  {
    hide Match;
  }

  lemma WrapKeepsStarts(pairs: set<Pair>)
    requires forall p :: p in pairs ==> 0 <= p.1.startedAt < WRAP
    ensures Starts32(pairs) == Starts(pairs)
  {
    forall p | p in pairs
      ensures p.1.startedAt in Starts32(pairs) && p.1.startedAt % WRAP in Starts(pairs)
    {
      assert p.1.startedAt % WRAP == p.1.startedAt;
    }
  }

  /** A negative start counts as unknown for the engine, but its cell shows it as a
      time in the year 2106. */
  lemma NegativeStartSplits(table: seq<Location>, sel: seq<Location>, a: Alert, i: nat)
    requires -WRAP < a.startedAt < 0 && i < |sel| && Match(table, sel[i], a.uid) != NoCoverage
    ensures var pairs := Matched(table, sel, {a});
            && InputOf(table, sel, pairs, a.kind).earliestStartedAt == 0
            && CellOf(table, sel, pairs, i, a.kind).startedAt == a.startedAt + WRAP
  {
    var pairs := Matched(table, sel, {a});
    var mine, cell := OfType(pairs, a.kind), OfCell(pairs, i, a.kind);
    assert (i, a) in mine && (i, a) in cell;
    assert forall p :: p in mine ==> p.1 == a;
    assert Starts(mine) == {a.startedAt};
    assert a.startedAt % WRAP == a.startedAt + WRAP;
    assert a.startedAt + WRAP in Starts32(cell);
    assert Starts32(cell) == {a.startedAt + WRAP};
  }

  // ---- the stored form, and adding one alert to it -----------------------------------

  datatype View = View(inputs: seq<AE.TypeInput>, matched: seq<set<nat>>, cells: seq<seq<Cell>>)

  predicate Shaped(v: View) {
    && |v.inputs| == TYPE_COUNT && |v.matched| == TYPE_COUNT && |v.cells| == MAX_SELECTED
    && forall i :: 0 <= i < MAX_SELECTED ==> |v.cells[i]| == TYPE_COUNT
  }

  ghost function CellRow(table: seq<Location>, sel: seq<Location>, pairs: set<Pair>, i: nat): (row: seq<Cell>)
    ensures |row| == TYPE_COUNT
  {
    seq(TYPE_COUNT, t requires 0 <= t < TYPE_COUNT => CellOf(table, sel, pairs, i, t))
  }

  /** What the builder must store once it has seen `alerts`. */
  ghost function ViewOf(table: seq<Location>, sel: seq<Location>, alerts: set<Alert>): (v: View)
    ensures Shaped(v)
  {
    var pairs := Matched(table, sel, alerts);
    View(Aggregate(table, sel, alerts),
         seq(TYPE_COUNT, t requires 0 <= t < TYPE_COUNT => Locations(OfType(pairs, t))),
         seq(MAX_SELECTED, i requires 0 <= i < MAX_SELECTED => CellRow(table, sel, pairs, i)))
  }

  /** Alerts that concern no selected location leave no trace. */
  lemma ViewByMatched(table: seq<Location>, sel: seq<Location>, a: set<Alert>, b: set<Alert>)
    requires Matched(table, sel, a) == Matched(table, sel, b)
    ensures ViewOf(table, sel, a) == ViewOf(table, sel, b)
  {
  }

  /** One selected location that the alert concerns. */
  function AddAt(v: View, i: nat, a: Alert, cov: Coverage): (w: View)
    requires Shaped(v) && i < MAX_SELECTED
    ensures Shaped(w)
  {
    var t, input, cell := a.kind, v.inputs[a.kind], v.cells[i][a.kind];
    View(v.inputs[t := input.(coverage := Max(input.coverage, cov),
                              earliestStartedAt := Earlier(input.earliestStartedAt, a.startedAt))],
         v.matched[t := v.matched[t] + {i}],
         v.cells[i := v.cells[i][t := Cell(Earlier(cell.startedAt, a.startedAt % WRAP), Max(cell.coverage, cov))]])
  }

  function AddUpTo(v: View, table: seq<Location>, sel: seq<Location>, a: Alert, n: nat): (w: View)
    requires Shaped(v) && n <= |sel| <= MAX_SELECTED
    ensures Shaped(w)
  {
    if n == 0 then v
    else
      var w := AddUpTo(v, table, sel, a, n - 1);
      var cov := Match(table, sel[n - 1], a.uid);
      if cov == NoCoverage then w else AddAt(w, n - 1, a, cov)
  }

  function Counted(v: View, t: AlertType): (w: View)
    requires Shaped(v)
    ensures Shaped(w)
  {
    v.(inputs := v.inputs[t := v.inputs[t].(locationCount := |v.matched[t]|)])
  }

  ghost predicate HoldsPairs(v: View, table: seq<Location>, sel: seq<Location>, pairs: set<Pair>, t: AlertType) {
    && Shaped(v)
    && v.inputs[t].coverage == InputOf(table, sel, pairs, t).coverage
    && v.inputs[t].earliestStartedAt == InputOf(table, sel, pairs, t).earliestStartedAt
    && v.matched[t] == Locations(OfType(pairs, t))
    && forall i :: 0 <= i < MAX_SELECTED ==> v.cells[i][t] == CellOf(table, sel, pairs, i, t)
  }

  lemma AddAtHolds(v: View, table: seq<Location>, sel: seq<Location>, pairs: set<Pair>, t: AlertType,
                   i: nat, a: Alert)
    requires HoldsPairs(v, table, sel, pairs, t) && i < |sel| <= MAX_SELECTED
    requires Match(table, sel[i], a.uid) != NoCoverage
    ensures HoldsPairs(AddAt(v, i, a, Match(table, sel[i], a.uid)), table, sel, pairs + {(i, a)}, t)
    ensures t != a.kind ==> InputOf(table, sel, pairs + {(i, a)}, t) == InputOf(table, sel, pairs, t)
  {
    hide InputOf, CellOf, Match;
    var cov := Match(table, sel[i], a.uid);
    forall j: nat | j < MAX_SELECTED
      ensures AddAt(v, i, a, cov).cells[j][t] == CellOf(table, sel, pairs + {(i, a)}, j, t)
    {
      CellAdd(table, sel, pairs, (i, a), j, t);
    }
    AddAtInput(v, table, sel, pairs, t, i, a);
  }

  lemma AddAtInput(v: View, table: seq<Location>, sel: seq<Location>, pairs: set<Pair>, t: AlertType,
                   i: nat, a: Alert)
    requires HoldsPairs(v, table, sel, pairs, t) && i < |sel| <= MAX_SELECTED
    requires Match(table, sel[i], a.uid) != NoCoverage
    ensures var w, more := AddAt(v, i, a, Match(table, sel[i], a.uid)), pairs + {(i, a)};
            && w.inputs[t].coverage == InputOf(table, sel, more, t).coverage
            && w.inputs[t].earliestStartedAt == InputOf(table, sel, more, t).earliestStartedAt
            && w.matched[t] == Locations(OfType(more, t))
            && (t != a.kind ==> InputOf(table, sel, more, t) == InputOf(table, sel, pairs, t))
  {
    hide CellOf, Match, OfType, Greatest, Locations, Starts;
    InputAdd(table, sel, pairs, (i, a), t);
    OfTypeAdd(pairs, (i, a), t);
    StartsAdd(OfType(pairs, t), (i, a));
    assert t != a.kind ==> OfType(pairs + {(i, a)}, t) == OfType(pairs, t);
  }

  /** Pairs of one alert with the first n selected locations. */
  ghost function PairsOf(table: seq<Location>, sel: seq<Location>, a: Alert, n: nat): set<Pair>
    requires n <= |sel|
  {
    set i | 0 <= i < n && Match(table, sel[i], a.uid) != NoCoverage :: (i, a)
  }

  lemma PairsOfStep(table: seq<Location>, sel: seq<Location>, pairs: set<Pair>, a: Alert, n: nat)
    requires n < |sel|
    ensures pairs + PairsOf(table, sel, a, n + 1)
            == pairs + PairsOf(table, sel, a, n)
               + if Match(table, sel[n], a.uid) == NoCoverage then {} else {(n, a)}
  {
  }

  lemma {:induction false} AddUpToHolds(v: View, table: seq<Location>, sel: seq<Location>, pairs: set<Pair>,
                                        t: AlertType, a: Alert, n: nat)
    requires HoldsPairs(v, table, sel, pairs, t) && n <= |sel| <= MAX_SELECTED
    ensures HoldsPairs(AddUpTo(v, table, sel, a, n), table, sel, pairs + PairsOf(table, sel, a, n), t)
  {
    if n == 0 {
      assert pairs + PairsOf(table, sel, a, 0) == pairs;
    } else {
      hide HoldsPairs, AddAt, Match, PairsOf;
      AddUpToHolds(v, table, sel, pairs, t, a, n - 1);
      PairsOfStep(table, sel, pairs, a, n - 1);
      var seen := pairs + PairsOf(table, sel, a, n - 1);
      if Match(table, sel[n - 1], a.uid) == NoCoverage {
        assert seen + {} == seen;
      } else {
        AddAtHolds(AddUpTo(v, table, sel, a, n - 1), table, sel, seen, t, n - 1, a);
      }
    }
  }

  lemma {:induction false} OtherTypesKept(v: View, table: seq<Location>, sel: seq<Location>, pairs: set<Pair>,
                                          t: AlertType, a: Alert, n: nat)
    requires Shaped(v) && n <= |sel| <= MAX_SELECTED && t != a.kind
    ensures AddUpTo(v, table, sel, a, n).inputs[t] == v.inputs[t]
    ensures InputOf(table, sel, pairs + PairsOf(table, sel, a, n), t) == InputOf(table, sel, pairs, t)
  {
    assert OfType(pairs + PairsOf(table, sel, a, n), t) == OfType(pairs, t);
    if n > 0 {
      OtherTypesKept(v, table, sel, pairs, t, a, n - 1);
    }
  }

  lemma ViewHolds(table: seq<Location>, sel: seq<Location>, alerts: set<Alert>, t: AlertType)
    ensures HoldsPairs(ViewOf(table, sel, alerts), table, sel, Matched(table, sel, alerts), t)
    ensures ViewOf(table, sel, alerts).inputs[t] == InputOf(table, sel, Matched(table, sel, alerts), t)
  {
  }

  lemma MatchedAdd(table: seq<Location>, sel: seq<Location>, alerts: set<Alert>, a: Alert)
    ensures Matched(table, sel, alerts + {a}) == Matched(table, sel, alerts) + PairsOf(table, sel, a, |sel|)
  {
  }

  lemma TypeAfterAdd(table: seq<Location>, sel: seq<Location>, alerts: set<Alert>, a: Alert, t: AlertType)
    requires |sel| <= MAX_SELECTED
    ensures var got := Counted(AddUpTo(ViewOf(table, sel, alerts), table, sel, a, |sel|), a.kind);
            && HoldsPairs(got, table, sel, Matched(table, sel, alerts + {a}), t)
            && got.inputs[t] == InputOf(table, sel, Matched(table, sel, alerts + {a}), t)
  {
    ViewHolds(table, sel, alerts, t);
    MatchedAdd(table, sel, alerts, a);
    AddUpToHolds(ViewOf(table, sel, alerts), table, sel, Matched(table, sel, alerts), t, a, |sel|);
    if t != a.kind {
      OtherTypesKept(ViewOf(table, sel, alerts), table, sel, Matched(table, sel, alerts), t, a, |sel|);
    }
  }

  /** Streaming one more alert in is adding it to the set. */
  lemma AddIsAggregate(table: seq<Location>, sel: seq<Location>, alerts: set<Alert>, a: Alert)
    requires |sel| <= MAX_SELECTED
    ensures Counted(AddUpTo(ViewOf(table, sel, alerts), table, sel, a, |sel|), a.kind)
            == ViewOf(table, sel, alerts + {a})
  {
    var got := Counted(AddUpTo(ViewOf(table, sel, alerts), table, sel, a, |sel|), a.kind);
    forall t: AlertType
      ensures HoldsPairs(got, table, sel, Matched(table, sel, alerts + {a}), t)
      ensures got.inputs[t] == InputOf(table, sel, Matched(table, sel, alerts + {a}), t)
    {
      TypeAfterAdd(table, sel, alerts, a, t);
    }
    HoldingAllIsView(got, table, sel, alerts + {a});
  }

  lemma HoldingAllIsView(v: View, table: seq<Location>, sel: seq<Location>, alerts: set<Alert>)
    requires Shaped(v)
    requires forall t: AlertType :: HoldsPairs(v, table, sel, Matched(table, sel, alerts), t)
    requires forall t: AlertType :: v.inputs[t] == InputOf(table, sel, Matched(table, sel, alerts), t)
    ensures v == ViewOf(table, sel, alerts)
  {
    var pairs := Matched(table, sel, alerts);
    var want := ViewOf(table, sel, alerts);
    assert v.inputs == want.inputs;
    assert v.matched == want.matched by {
      forall t: AlertType
        ensures v.matched[t] == want.matched[t]
      {
        assert HoldsPairs(v, table, sel, pairs, t);
      }
    }
    forall i | 0 <= i < MAX_SELECTED
      ensures v.cells[i] == want.cells[i]
    {
      forall t: AlertType
        ensures v.cells[i][t] == CellOf(table, sel, pairs, i, t)
      {
        assert HoldsPairs(v, table, sel, pairs, t);
      }
    }
    assert v.cells == want.cells;
  }

  // ---- the builder object ---------------------------------------------------------------

  class SnapshotBuilder {
    const inputs: array<AE.TypeInput>
    const matchedMask: array<set<nat>>
    const cells: array2<Cell>
    var table: seq<Location>
    var selected: seq<Location>

    ghost predicate Valid()
      reads this
    {
      && inputs.Length == TYPE_COUNT && matchedMask.Length == TYPE_COUNT
      && cells.Length0 == MAX_SELECTED && cells.Length1 == TYPE_COUNT
      && |selected| <= MAX_SELECTED
    }

    ghost function Row(i: nat): (row: seq<Cell>)
      requires i < cells.Length0
      reads cells
      ensures |row| == cells.Length1
    {
      seq(cells.Length1, t requires 0 <= t < cells.Length1 reads cells => cells[i, t])
    }

    ghost function State(): (v: View)
      requires Valid()
      reads this, inputs, matchedMask, cells
      ensures Shaped(v)
    {
      View(inputs[..], matchedMask[..],
           seq(MAX_SELECTED, i requires 0 <= i < MAX_SELECTED && Valid() reads this, cells => Row(i)))
    }

    /** The builder has seen exactly these alerts since its reset. */
    ghost predicate Holds(alerts: set<Alert>)
      requires Valid()
      reads this, inputs, matchedMask, cells
    {
      State() == ViewOf(table, selected, alerts)
    }

    constructor ()
      ensures Valid() && selected == [] && table == []
      ensures fresh(inputs) && fresh(matchedMask) && fresh(cells)
    {
      inputs := new AE.TypeInput[TYPE_COUNT](_ => EMPTY_INPUT);
      matchedMask := new set<nat>[TYPE_COUNT](_ => {});
      cells := new Cell[MAX_SELECTED, TYPE_COUNT]((_, _) => EMPTY_CELL);
      table, selected := [], [];
    }

    method SetCatalog(rows: seq<Location>)
      modifies this`table
      ensures table == rows
    {
      table := rows;
    }

    method SetSelected(sel: seq<Location>) returns (ok: bool)
      requires Valid()
      modifies this`selected
      ensures Valid() && (ok <==> |sel| <= MAX_SELECTED)
      ensures selected == if ok then sel else old(selected)
    {
      ok := |sel| <= MAX_SELECTED;
      if ok {
        selected := sel;
      }
    }

    method Reset()
      requires Valid()
      modifies inputs, matchedMask, cells
      ensures Holds({})
    {
      for t := 0 to TYPE_COUNT
        invariant forall k :: 0 <= k < t ==> inputs[k] == EMPTY_INPUT && matchedMask[k] == {}
      {
        inputs[t], matchedMask[t] := EMPTY_INPUT, {};
      }
      ClearCells();
      EmptyView(table, selected);
      assert State().inputs == seq(TYPE_COUNT, _ => EMPTY_INPUT);
      assert State().matched == seq(TYPE_COUNT, _ => {});
      forall i | 0 <= i < MAX_SELECTED
        ensures State().cells[i] == seq(TYPE_COUNT, _ => EMPTY_CELL)
      {
      }
    }

    method ClearCells()
      requires Valid()
      modifies cells
      ensures forall i, t :: 0 <= i < MAX_SELECTED && 0 <= t < TYPE_COUNT ==> cells[i, t] == EMPTY_CELL
    {
      for i := 0 to MAX_SELECTED
        invariant forall k, t :: 0 <= k < i && 0 <= t < TYPE_COUNT ==> cells[k, t] == EMPTY_CELL
      {
        for t := 0 to TYPE_COUNT
          invariant forall k, u :: 0 <= k < i && 0 <= u < TYPE_COUNT ==> cells[k, u] == EMPTY_CELL
          invariant forall u :: 0 <= u < t ==> cells[i, u] == EMPTY_CELL
        {
          cells[i, t] := EMPTY_CELL;
        }
      }
    }

    method Add(a: Alert, ghost seen: set<Alert>)
      requires Valid()
      modifies inputs, matchedMask, cells
      ensures State() == Counted(AddUpTo(old(State()), table, selected, a, |selected|), a.kind)
      ensures old(Holds(seen)) ==> Holds(seen + {a})
    {
      ghost var before := State();
      for i := 0 to |selected|
        invariant State() == AddUpTo(before, table, selected, a, i)
      {
        var cov := Match(table, selected[i], a.uid);
        if cov != NoCoverage {
          Record(i, a, cov);
        }
      }
      var t := a.kind;
      ghost var counted := State();
      inputs[t] := inputs[t].(locationCount := |matchedMask[t]|);
      assert State().cells == counted.cells;
      assert State() == Counted(counted, t);
      AddIsAggregate(table, selected, seen, a);
    }

    method Record(i: nat, a: Alert, cov: Coverage)
      requires Valid() && i < MAX_SELECTED && cov != NoCoverage
      modifies inputs, matchedMask, cells
      ensures State() == AddAt(old(State()), i, a, cov)
    {
      ghost var before := State();
      var t := a.kind;
      var input := inputs[t];
      if cov == Full || input.coverage == NoCoverage {
        input := input.(coverage := cov);
      }
      matchedMask[t] := matchedMask[t] + {i};
      if a.startedAt > 0 && (input.earliestStartedAt == 0 || a.startedAt < input.earliestStartedAt) {
        input := input.(earliestStartedAt := a.startedAt);
      }
      inputs[t] := input;
      RecordCell(i, t, cov, a.startedAt % WRAP);
      ghost var after := AddAt(before, i, a, cov);
      assert State().inputs == after.inputs && State().matched == after.matched;
      forall j | 0 <= j < MAX_SELECTED
        ensures State().cells[j] == after.cells[j]
      {
        forall k | 0 <= k < TYPE_COUNT
          ensures Row(j)[k] == after.cells[j][k]
        {
          assert before.cells[j][k] == old(cells[j, k]);
        }
      }
    }

    method RecordCell(i: nat, t: AlertType, cov: Coverage, start: nat)
      requires Valid() && i < MAX_SELECTED && cov != NoCoverage
      modifies cells
      ensures forall j, k :: 0 <= j < MAX_SELECTED && 0 <= k < TYPE_COUNT ==>
                cells[j, k] == if j == i && k == t
                               then Cell(Earlier(old(cells[i, t]).startedAt, start), Max(old(cells[i, t]).coverage, cov))
                               else old(cells[j, k])
    {
      var cell := cells[i, t];
      if cov == Full || cell.coverage == NoCoverage {
        cell := cell.(coverage := cov);
      }
      if start > 0 && (cell.startedAt == 0 || start < cell.startedAt) {
        cell := cell.(startedAt := start);
      }
      cells[i, t] := cell;
    }
  }

  lemma EmptyView(table: seq<Location>, sel: seq<Location>)
    ensures ViewOf(table, sel, {}) ==
            View(seq(TYPE_COUNT, _ => EMPTY_INPUT), seq(TYPE_COUNT, _ => {}),
                 seq(MAX_SELECTED, _ => seq(TYPE_COUNT, _ => EMPTY_CELL)))
  {
    var pairs := Matched(table, sel, {});
    assert pairs == {};
    forall t: AlertType
      ensures InputOf(table, sel, pairs, t) == EMPTY_INPUT && Locations(OfType(pairs, t)) == {}
      ensures forall i :: 0 <= i < MAX_SELECTED ==> CellOf(table, sel, pairs, i, t) == EMPTY_CELL
    {
      assert OfType(pairs, t) == {};
      forall i: nat
        ensures OfCell(pairs, i, t) == {}
      {
      }
      assert Starts({}) == {} && Starts32({}) == {} && Locations({}) == {};
    }
    var empty := View(seq(TYPE_COUNT, _ => EMPTY_INPUT), seq(TYPE_COUNT, _ => {}),
                      seq(MAX_SELECTED, _ => seq(TYPE_COUNT, _ => EMPTY_CELL)));
    HoldingAllIsView(empty, table, sel, {});
  }
}
