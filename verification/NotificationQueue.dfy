/** The pending-signal queue (NotificationQueue.h): coalescing on entry, best
    first on exit. */
module NotificationQueues {
  import opened Types

  const DEPTH := 12
  const SEQ_LIMIT := 0x1_0000_0000

  datatype Signal = Start | Escalation | Reminder | End | ManualTest

  datatype Notification = Notification(signal: Signal, kind: AlertType, priority: Byte)

  function Rank(s: Signal): nat {
    match s
    case ManualTest => 4
    case Start => 3
    case Escalation => 3
    case End => 2
    case Reminder => 1
  }

  predicate CanPreempt(incoming: Notification, playing: Notification) {
    Rank(incoming.signal) == 3 && playing.signal == Reminder
  }

  /** Rank first, then profile priority. */
  function Weight(n: Notification): nat {
    Rank(n.signal) * 0x100 + n.priority
  }

  predicate SameKey(a: Notification, b: Notification) {
    a.signal == b.signal && a.kind == b.kind
  }

  // ---- the queue as a list in arrival order ---------------------------------

  predicate Pending(q: seq<Notification>, n: Notification) {
    exists i :: 0 <= i < |q| && SameKey(q[i], n)
  }

  predicate Accepts(q: seq<Notification>, n: Notification) {
    !Pending(q, n) && |q| < DEPTH
  }

  function Push(q: seq<Notification>, n: Notification): seq<Notification> {
    if Accepts(q, n) then q + [n] else q
  }

  /** A signal joins at the back unless its key waits already or the queue is full. */
  lemma PushAdds(q: seq<Notification>, n: Notification, m: Notification)
    ensures q <= Push(q, n) && (forall x :: x in Push(q, n) ==> x in q || x == n)
    ensures Pending(Push(q, n), n) || |Push(q, n)| >= DEPTH
    ensures Pending(q, m) ==> Pending(Push(q, n), m)
    ensures Pending(Push(q, n), m) ==> Pending(q, m) || (SameKey(n, m) && Push(q, n) == q + [n])
  {
    var r := Push(q, n);
    assert forall i :: 0 <= i < |q| ==> r[i] == q[i];
    if Accepts(q, n) {
      assert SameKey(r[|q|], n);
    }
  }

  /** `b` is the earliest of the heaviest. */
  predicate IsBest(q: seq<Notification>, b: int) {
    && 0 <= b < |q|
    && (forall i :: 0 <= i < |q| ==> Weight(q[i]) <= Weight(q[b]))
    && (forall i :: 0 <= i < b ==> Weight(q[i]) < Weight(q[b]))
  }

  function Best(q: seq<Notification>): (b: nat)
    requires q != []
    ensures IsBest(q, b)
  {
    if |q| == 1 then 0
    else
      var b := Best(q[..|q| - 1]);
      assert forall i :: 0 <= i < |q| - 1 ==> q[..|q| - 1][i] == q[i];
      if Weight(q[|q| - 1]) > Weight(q[b]) then |q| - 1 else b
  }

  function Pop(q: seq<Notification>): seq<Notification>
    requires q != []
  {
    q[..Best(q)] + q[Best(q) + 1..]
  }

  predicate Distinct(q: seq<Notification>) {
    && |q| <= DEPTH
    && forall i, j :: 0 <= i < j < |q| ==> !SameKey(q[i], q[j])
  }

  lemma BestIsUnique(q: seq<Notification>, b: int)
    requires q != [] && IsBest(q, b)
    ensures b == Best(q)
  {
  }

  /** Tests first, then starts and escalations, then ends, reminders last. */
  predicate Ahead(a: Signal, b: Signal) {
    || (a == ManualTest && b != ManualTest)
    || ((a == Start || a == Escalation) && (b == End || b == Reminder))
    || (a == End && b == Reminder)
  }

  /** No priority lifts a signal over one of a kind ahead of it; within a kind the
      priority decides. */
  lemma WeightIsOrder(a: Notification, b: Notification)
    ensures Weight(a) > Weight(b)
            <==> Ahead(a.signal, b.signal) || (!Ahead(b.signal, a.signal) && a.priority > b.priority)
  {
  }

  // ---- over whole runs --------------------------------------------------------

  datatype Op = DoPush(n: Notification) | DoPop | DoClear

  /** Pending list together with all that was accepted, played and cleared away. */
  datatype Ledger = Ledger(
    pending: seq<Notification>, accepted: seq<Notification>, popped: seq<Notification>, cleared: seq<Notification>)

  function Apply(l: Ledger, op: Op): Ledger {
    match op
    case DoPush(n) =>
      l.(pending := Push(l.pending, n), accepted := if Accepts(l.pending, n) then l.accepted + [n] else l.accepted)
    case DoPop =>
      if l.pending == [] then l
      else l.(pending := Pop(l.pending), popped := l.popped + [l.pending[Best(l.pending)]])
    case DoClear =>
      l.(pending := [], cleared := l.cleared + l.pending)
  }

  function Run(l: Ledger, ops: seq<Op>): Ledger
    decreases |ops|
  {
    if ops == [] then l else Run(Apply(l, ops[0]), ops[1..])
  }

  predicate Balanced(l: Ledger) {
    && Distinct(l.pending)
    && multiset(l.accepted) == multiset(l.popped) + multiset(l.cleared) + multiset(l.pending)
  }

  lemma PopIsRemoval(q: seq<Notification>)
    requires q != []
    ensures multiset(q) == multiset(Pop(q)) + multiset{q[Best(q)]}
  {
    var b := Best(q);
    assert q == q[..b] + [q[b]] + q[b + 1..];
  }

  lemma PopKeepsDistinct(q: seq<Notification>)
    requires q != [] && Distinct(q)
    ensures Distinct(Pop(q))
  {
    var b := Best(q);
    forall i, j | 0 <= i < j < |Pop(q)|
      ensures !SameKey(Pop(q)[i], Pop(q)[j])
    {
      assert Pop(q)[i] == q[if i < b then i else i + 1];
      assert Pop(q)[j] == q[if j < b then j else j + 1];
    }
  }

  lemma ApplyBalances(l: Ledger, op: Op)
    requires Balanced(l)
    ensures Balanced(Apply(l, op))
  {
    var l' := Apply(l, op);
    match op
    case DoPush(n) =>
      if Accepts(l.pending, n) {
        assert multiset(l'.pending) == multiset(l.pending) + multiset{n};
        assert multiset(l'.accepted) == multiset(l.accepted) + multiset{n};
      }
    case DoPop =>
      if l.pending != [] {
        PopIsRemoval(l.pending);
        PopKeepsDistinct(l.pending);
        assert multiset(l'.popped) == multiset(l.popped) + multiset{l.pending[Best(l.pending)]};
      }
    case DoClear =>
      assert multiset(l'.cleared) == multiset(l.cleared) + multiset(l.pending);
  }

  /** Keys stay distinct and at most 12 wait, and nothing is lost or invented:
      what was accepted is what was popped, cleared or still waits. */
  lemma {:induction false} RunBalances(l: Ledger, ops: seq<Op>)
    requires Balanced(l)
    ensures Balanced(Run(l, ops))
    decreases |ops|
  {
    if ops != [] {
      ApplyBalances(l, ops[0]);
      RunBalances(Apply(l, ops[0]), ops[1..]);
    }
  }

  // ---- draining is a stable priority sort -------------------------------------

  function Drain(q: seq<Notification>): seq<Notification>
    decreases |q|
  {
    if q == [] then [] else [q[Best(q)]] + Drain(Pop(q))
  }

  /** The members of one weight class, in order. */
  function Level(q: seq<Notification>, w: nat): seq<Notification> {
    if q == [] then []
    else (if Weight(q[0]) == w then [q[0]] else []) + Level(q[1..], w)
  }

  predicate SortedDown(q: seq<Notification>) {
    forall i, j :: 0 <= i < j < |q| ==> Weight(q[i]) >= Weight(q[j])
  }

  lemma {:induction false} LevelConcat(a: seq<Notification>, b: seq<Notification>, w: nat)
    ensures Level(a + b, w) == Level(a, w) + Level(b, w)
  {
    var s := a + b;
    if a == [] {
      assert s == b;
    } else {
      var head := if Weight(a[0]) == w then [a[0]] else [];
      assert s[0] == a[0] && s[1..] == a[1..] + b;
      LevelConcat(a[1..], b, w);
      assert Level(s, w) == head + (Level(a[1..], w) + Level(b, w));
      assert Level(a, w) == head + Level(a[1..], w);
    }
  }

  lemma {:induction false} LevelEmpty(q: seq<Notification>, w: nat)
    requires forall i :: 0 <= i < |q| ==> Weight(q[i]) != w
    ensures Level(q, w) == []
  {
    if q != [] {
      LevelEmpty(q[1..], w);
    }
  }

  lemma LevelSplit(q: seq<Notification>, b: nat, w: nat)
    requires b < |q|
    ensures Level(q, w) ==
            Level(q[..b], w) + ((if Weight(q[b]) == w then [q[b]] else []) + Level(q[b + 1..], w))
  {
    var front, back := q[..b], q[b..];
    assert q == front + back;
    LevelConcat(front, back, w);
    assert back[0] == q[b] && back[1..] == q[b + 1..];
  }

  /** Popping takes the front of the best class and leaves every other class alone. */
  lemma PopLevel(q: seq<Notification>, w: nat)
    requires q != []
    ensures Level(q, w) == (if w == Weight(q[Best(q)]) then [q[Best(q)]] else []) + Level(Pop(q), w)
  {
    var b := Best(q);
    LevelSplit(q, b, w);
    LevelConcat(q[..b], q[b + 1..], w);
    if w == Weight(q[b]) {
      LevelEmpty(q[..b], w);
    }
  }

  lemma {:induction false} DrainIsPermutation(q: seq<Notification>)
    ensures multiset(Drain(q)) == multiset(q)
    decreases |q|
  {
    if q != [] {
      PopIsRemoval(q);
      DrainIsPermutation(Pop(q));
    }
  }

  /** Nothing that stays behind outweighs what was popped. */
  lemma PopIsHeaviest(q: seq<Notification>, n: Notification)
    requires q != [] && n in multiset(Pop(q))
    ensures Weight(n) <= Weight(q[Best(q)])
  {
    PopIsRemoval(q);
    assert n in multiset(q);
  }

  /** Heaviest first. */
  lemma {:induction false} DrainIsSorted(q: seq<Notification>)
    ensures SortedDown(Drain(q))
    decreases |q|
  {
    if q != [] {
      var head, tail := q[Best(q)], Drain(Pop(q));
      DrainIsSorted(Pop(q));
      DrainIsPermutation(Pop(q));
      forall i | 0 <= i < |tail|
        ensures Weight(tail[i]) <= Weight(head)
      {
        assert tail[i] in multiset(tail);
        PopIsHeaviest(q, tail[i]);
      }
      assert Drain(q) == [head] + tail;
    }
  }

  /** So a drained queue plays no signal before one of a kind ahead of it, nor before
      one of its own kind with a greater priority. */
  lemma DrainInOrder(q: seq<Notification>, i: nat, j: nat)
    requires i < j < |Drain(q)|
    ensures var a, b := Drain(q)[i], Drain(q)[j];
            !Ahead(b.signal, a.signal) && (!Ahead(a.signal, b.signal) ==> a.priority >= b.priority)
  {
    DrainIsSorted(q);
    WeightIsOrder(Drain(q)[j], Drain(q)[i]);
  }

  /** Within one weight, the order of arrival. */
  lemma {:induction false} DrainIsStable(q: seq<Notification>, w: nat)
    ensures Level(Drain(q), w) == Level(q, w)
    decreases |q|
  {
    if q != [] {
      PopLevel(q, w);
      DrainIsStable(Pop(q), w);
      LevelHead(Drain(q), w);
      assert Drain(q)[1..] == Drain(Pop(q));
    }
  }

  lemma LevelHead(q: seq<Notification>, w: nat)
    requires q != []
    ensures Level(q, w) == (if Weight(q[0]) == w then [q[0]] else []) + Level(q[1..], w)
    ensures Level(q[1..], w) == if Weight(q[0]) == w then Level(q, w)[1..] else Level(q, w)
  {
  }

  /** Sortedness and stability leave only one list. */
  lemma {:induction false} StableSortIsUnique(a: seq<Notification>, b: seq<Notification>)
    requires SortedDown(a) && SortedDown(b)
    requires forall w :: Level(a, w) == Level(b, w)
    ensures a == b
    decreases |a|
  {
    if a != [] {
      LevelHead(a, Weight(a[0]));
    }
    if b != [] {
      LevelHead(b, Weight(b[0]));
    }
    if a != [] {
      if b == [] {
        assert false;
      }
      HeadsAgree(a, b);
      forall w: nat
        ensures Level(a[1..], w) == Level(b[1..], w)
      {
        LevelHead(a, w);
        LevelHead(b, w);
      }
      StableSortIsUnique(a[1..], b[1..]);
    }
  }

  lemma HeadsAgree(a: seq<Notification>, b: seq<Notification>)
    requires a != [] && b != [] && SortedDown(a) && SortedDown(b)
    requires forall w :: Level(a, w) == Level(b, w)
    ensures a[0] == b[0]
  {
    HeadIsHeaviest(a, b);
    HeadIsHeaviest(b, a);
    LevelHead(a, Weight(a[0]));
    LevelHead(b, Weight(a[0]));
    assert Level(a, Weight(a[0]))[0] == a[0];
    assert Level(b, Weight(a[0]))[0] == b[0];
  }

  lemma HeadIsHeaviest(a: seq<Notification>, b: seq<Notification>)
    requires a != [] && b != [] && SortedDown(b)
    requires forall w :: Level(a, w) == Level(b, w)
    ensures Weight(a[0]) <= Weight(b[0])
  {
    if Weight(a[0]) > Weight(b[0]) {
      LevelEmpty(b, Weight(a[0]));
      LevelHead(a, Weight(a[0]));
      assert false;
    }
  }

  /** `order` is q heaviest first, arrival order kept within a weight. */
  ghost predicate StableSortOf(order: seq<Notification>, q: seq<Notification>) {
    SortedDown(order) && forall w :: Level(order, w) == Level(q, w)
  }

  lemma DrainIsStableSort(q: seq<Notification>)
    ensures StableSortOf(Drain(q), q)
    ensures multiset(Drain(q)) == multiset(q)
  {
    DrainIsSorted(q);
    DrainIsPermutation(q);
    forall w: nat
      ensures Level(Drain(q), w) == Level(q, w)
    {
      DrainIsStable(q, w);
    }
  }

  /** After any run from empty the books balance, and emptying the queue plays
      what still waits in the one stable order by weight. */
  lemma DrainAfterRun(ops: seq<Op>, order: seq<Notification>)
    ensures var l := Run(Ledger([], [], [], []), ops);
            Balanced(l) && (order == Drain(l.pending) <==> StableSortOf(order, l.pending))
  {
    RunBalances(Ledger([], [], [], []), ops);
    var q := Run(Ledger([], [], [], []), ops).pending;
    DrainIsStableSort(q);
    if StableSortOf(order, q) {
      StableSortIsUnique(order, Drain(q));
    }
  }

  // ---- the fixed-depth array form ---------------------------------------------

  class NotificationQueue {
    const slots: array<Notification>
    const seqs: array<nat>
    var count: nat
    var nextSeq: nat

    /** Arrival numbers ascend along the slots and have not wrapped. */
    ghost predicate Valid()
      reads this, slots, seqs
    {
      && slots.Length == DEPTH && seqs.Length == DEPTH
      && count <= DEPTH && nextSeq < SEQ_LIMIT
      && (forall i :: 0 <= i < count ==> seqs[i] < nextSeq)
      && (forall i, j :: 0 <= i < j < count ==> seqs[i] < seqs[j])
    }

    function Contents(): seq<Notification>
      requires count <= slots.Length
      reads this, slots
    {
      slots[..count]
    }

    constructor ()
      ensures Valid() && Contents() == [] && nextSeq == 0
      ensures fresh(slots) && fresh(seqs)
    {
      slots := new Notification[DEPTH](_ => Notification(Start, UNKNOWN, 50));
      seqs := new nat[DEPTH](_ => 0);
      count, nextSeq := 0, 0;
    }

    method PushOne(n: Notification) returns (ok: bool)
      requires Valid() && nextSeq < SEQ_LIMIT - 1
      modifies this, slots, seqs
      ensures Valid() && Contents() == Push(old(Contents()), n)
      ensures ok <==> Pending(old(Contents()), n) || Accepts(old(Contents()), n)
      ensures nextSeq <= old(nextSeq) + 1
    {
      for i := 0 to count
        invariant !Pending(slots[..i], n)
      {
        if SameKey(slots[i], n) {
          assert SameKey(Contents()[i], n);
          return true;
        }
      }
      if count >= DEPTH {
        return false;
      }
      slots[count] := n;
      seqs[count] := nextSeq;
      nextSeq := nextSeq + 1;
      count := count + 1;
      ok := true;
    }

    method PopBest() returns (out: Option<Notification>)
      requires Valid()
      modifies this, slots, seqs
      ensures Valid() && nextSeq == old(nextSeq)
      ensures old(Contents()) == [] ==> out == None && Contents() == []
      ensures old(Contents()) != [] ==>
                out == Some(old(Contents())[Best(old(Contents()))]) && Contents() == Pop(old(Contents()))
    {
      if count == 0 {
        return None;
      }
      ghost var q := Contents();
      var best := 0;
      for i := 1 to count
        invariant best < i && BestSoFar(q, i, best)
      {
        assert q[i] == slots[i] && q[best] == slots[best];
        if Better(i, best) {
          best := i;
        }
      }
      BestIsUnique(q, best);
      out := Some(slots[best]);
      ShiftDown(best);
    }

    method Clear()
      requires Valid()
      modifies this`count
      ensures Valid() && Contents() == []
    {
      count := 0;
    }

    static ghost predicate BestSoFar(q: seq<Notification>, n: nat, b: nat)
      requires b < n <= |q|
    {
      && (forall i :: 0 <= i < n ==> Weight(q[i]) <= Weight(q[b]))
      && (forall i :: 0 <= i < b ==> Weight(q[i]) < Weight(q[b]))
    }

    predicate Better(a: nat, b: nat)
      requires Valid() && a < count && b < count
      reads this, slots, seqs
    {
      var na, nb := slots[a], slots[b];
      if Rank(na.signal) != Rank(nb.signal) then Rank(na.signal) > Rank(nb.signal)
      else if na.priority != nb.priority then na.priority > nb.priority
      else seqs[a] < seqs[b]
    }

    method ShiftDown(best: nat)
      requires Valid() && best < count
      modifies this, slots, seqs
      ensures Valid() && nextSeq == old(nextSeq)
      ensures Contents() == old(Contents())[..best] + old(Contents())[best + 1..]
    {
      hide Weight, Best, Pop;
      ghost var q, s := slots[..], seqs[..];
      CloseGap(slots, best, count);
      CloseGap(seqs, best, count);
      count := count - 1;
      assert forall k :: 0 <= k < count ==> seqs[k] == s[if k < best then k else k + 1];
      assert slots[..count] == q[..best] + q[best + 1..count + 1];
    }
  }

  /** Moves a[best + 1..n] one place down. */
  method CloseGap<T>(a: array<T>, best: nat, n: nat)
    requires best < n <= a.Length
    modifies a
    ensures forall k :: 0 <= k < n - 1 ==> a[k] == old(a[if k < best then k else k + 1])
  {
    for i := best to n - 1
      invariant forall k :: 0 <= k < i ==> a[k] == old(a[if k < best then k else k + 1])
      invariant forall k :: i <= k < n ==> a[k] == old(a[k])
    {
      a[i] := a[i + 1];
    }
  }
}
