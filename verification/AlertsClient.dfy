/** The device's side of a poll (AlertsClient, main.cpp): when the snapshot in the
    builder may stand for a 304 reply (RFC 9110, section 15.4.5). */
module AlertsClients {
  import opened Catalogue
  import opened SnapshotBuilders
  import opened AlertsParsers
  import opened ProxyState
  import opened ProxyFilter

  /** A 200 body: no array at all, an array that breaks off after some entries, or
      one read to its end. */
  datatype Body = NotAnArray | BrokenOff(entries: seq<Entry>) | Complete(entries: seq<Entry>)

  /** An absent Last-Modified header is the empty string. */
  datatype Reply =
    | Full(lastModified: string, body: Body)
    | NotModified
    | Unauthorized
    | Forbidden
    | RateLimited
    | HttpError
    | NetError

  datatype Kind = Fresh | Unchanged | AuthFailed | Denied | Limited | HttpFailed | NetFailed | ParseFailed

  datatype Device = Device(
    token: string, url: string, regions: string, lastModified: string, valid: bool,
    selected: seq<Location>, view: View)

  /** `typesChanged`: a location's type differs, which matching never looks at. */
  datatype Op =
    | SetToken(token: string)
    | SetUrl(url: string)
    | SaveConfig(sel: seq<Location>, typesChanged: bool)
    | SaveLocations(sel: seq<Location>)
    | Poll(reply: Reply)

  function Joined(sel: seq<Location>): string {
    Join(ShowAll(Uids(sel)))
  }

  function Dropped(d: Device): Device {
    d.(lastModified := "", valid := false)
  }

  /** After boot: stored settings applied, nothing polled yet. */
  ghost function Booted(table: seq<Location>, token: string, url: string, sel: seq<Location>): Device {
    Device(token, url, Joined(sel), "", false, sel, ViewOf(table, [], {}))
  }

  /** applyConfig: the builder's selection and the client's filter. */
  function Configured(d: Device, sel: seq<Location>): Device {
    (if Joined(sel) != d.regions then Dropped(d) else d).(selected := sel, regions := Joined(sel))
  }

  ghost function Refreshed(table: seq<Location>, d: Device): Device {
    Dropped(d).(view := ViewOf(table, d.selected, {}))
  }

  ghost function Polled(table: seq<Location>, d: Device, reply: Reply): Device {
    match reply
    case Full(lm, Complete(entries)) =>
      d.(lastModified := lm, valid := true, view := ViewOf(table, d.selected, AlertsIn(entries)))
    case Full(_, BrokenOff(entries)) =>
      Dropped(d).(view := ViewOf(table, d.selected, AlertsIn(entries)))
    case Full(_, NotAnArray) => Dropped(d)
    case NotModified => if d.valid then d else d.(lastModified := "")
    case _ => d
  }

  function Outcome(d: Device, reply: Reply): Kind {
    match reply
    case Full(_, body) => if body.Complete? then Fresh else ParseFailed
    case NotModified => if d.valid then Unchanged else ParseFailed
    case Unauthorized => AuthFailed
    case Forbidden => Denied
    case RateLimited => Limited
    case HttpError => HttpFailed
    case NetError => NetFailed
  }

  ghost function Next(table: seq<Location>, d: Device, op: Op): Device {
    match op
    case SetToken(t) => (if t != d.token then Dropped(d) else d).(token := t)
    case SetUrl(u) => (if u != d.url then Dropped(d) else d).(url := u)
    case SaveConfig(sel, typesChanged) =>
      if |sel| > MAX_SELECTED then d
      else if sel != d.selected || typesChanged then Refreshed(table, Configured(d, sel))
      else Configured(d, sel)
    case SaveLocations(sel) =>
      if sel == [] || |sel| > MAX_SELECTED then d else Refreshed(table, Configured(d, sel))
    case Poll(reply) => Polled(table, d, reply)
  }

  ghost function Run(table: seq<Location>, d: Device, ops: seq<Op>): Device {
    if ops == [] then d else Next(table, Run(table, d, ops[..|ops| - 1]), ops[|ops| - 1])
  }

  // ---- what the history says -----------------------------------------------------------------

  predicate IsGood(op: Op) {
    op.Poll? && op.reply.Full? && op.reply.body.Complete?
  }

  /** The last poll that read a 200 body to its end, or -1. */
  function LastGood(ops: seq<Op>): (k: int)
    ensures -1 <= k < |ops|
    ensures k >= 0 ==> IsGood(ops[k])
    ensures forall j :: k < j < |ops| ==> !IsGood(ops[j])
  {
    if ops == [] then -1
    else if IsGood(ops[|ops| - 1]) then |ops| - 1
    else LastGood(ops[..|ops| - 1])
  }

  ghost predicate SameSource(a: Device, b: Device) {
    a.token == b.token && a.url == b.url && a.selected == b.selected
  }

  /** A 200 that broke off, or a save that reloads the locations. */
  predicate Spoils(op: Op) {
    match op
    case Poll(reply) => reply.Full? && !reply.body.Complete?
    case SaveConfig(sel, typesChanged) => |sel| <= MAX_SELECTED && typesChanged
    case SaveLocations(sel) => sel != [] && |sel| <= MAX_SELECTED
    case _ => false
  }

  /** Since operation `k` the token, the URL and the selection have stood and
      nothing spoilt the snapshot. */
  ghost predicate StoodSince(table: seq<Location>, d: Device, ops: seq<Op>, k: int)
    requires 0 <= k < |ops|
  {
    && (forall j :: k < j < |ops| ==> !Spoils(ops[j]))
    && (forall j :: k < j <= |ops| ==> SameSource(Run(table, d, ops[..j]), Run(table, d, ops[..k])))
  }

  ghost predicate BootedOn(d: Device) {
    !d.valid && Coherent(d)
  }

  /** The regions sent are those of the selection, and no validator outlives its snapshot. */
  ghost predicate Coherent(d: Device) {
    d.regions == Joined(d.selected) && |d.selected| <= MAX_SELECTED && (!d.valid ==> d.lastModified == "")
  }

  lemma BootIsGood(table: seq<Location>, token: string, url: string, sel: seq<Location>)
    requires |sel| <= MAX_SELECTED
    ensures BootedOn(Booted(table, token, url, sel))
  {
    hide ViewOf, Join;
  }

  lemma OpKeeps(table: seq<Location>, d: Device, op: Op)
    requires Coherent(d)
    ensures Coherent(Next(table, d, op))
  {
    hide ViewOf, Join;
  }

  /** A setting that is taken takes effect: the next request goes there, with that
      token and for those locations. */
  lemma SettingTakesHold(table: seq<Location>, d: Device, op: Op)
    ensures var r := Next(table, d, op);
            match op
            case SetToken(token) => r.token == token && r.url == d.url && r.selected == d.selected
            case SetUrl(url) => r.url == url && r.token == d.token && r.selected == d.selected
            case SaveConfig(sel, _) =>
              && r.token == d.token && r.url == d.url
              && (if |sel| <= 16 then r.selected == sel && r.regions == Joined(sel) else r == d)
            case SaveLocations(sel) =>
              && r.token == d.token && r.url == d.url
              && (if 1 <= |sel| <= 16 then r.selected == sel && r.regions == Joined(sel) && !r.valid else r == d)
            case Poll(_) => r.token == d.token && r.url == d.url && r.selected == d.selected && r.regions == d.regions
  {
    hide Joined, ViewOf;
  }

  /** What leaves the cache valid leaves everything behind it as it was. */
  lemma KeepsOrDrops(table: seq<Location>, d: Device, op: Op)
    requires Coherent(d) && !op.Poll? && Next(table, d, op).valid
    ensures var after := Next(table, d, op);
            && d.valid && after.url == d.url && after.selected == d.selected
            && after.lastModified == d.lastModified && after.view == d.view
  {
    hide ViewOf, Join;
  }

  lemma StoodSnoc(table: seq<Location>, d: Device, ops: seq<Op>, k: int)
    requires 0 <= k < |ops| - 1
    ensures StoodSince(table, d, ops, k)
            <==> && StoodSince(table, d, ops[..|ops| - 1], k)
                 && !Spoils(ops[|ops| - 1])
                 && SameSource(Run(table, d, ops), Run(table, d, ops[..k]))
  {
    hide Run, SameSource;
    var front := ops[..|ops| - 1];
    assert ops[..|ops|] == ops;
    assert forall j :: 0 <= j <= |front| ==> front[..j] == ops[..j];
  }

  /** The regions sent are always those of the selection. */
  lemma {:induction false} RegionsFollow(table: seq<Location>, d: Device, ops: seq<Op>)
    requires BootedOn(d)
    ensures Coherent(Run(table, d, ops))
  {
    hide Coherent, Next;
    if ops != [] {
      RegionsFollow(table, d, ops[..|ops| - 1]);
      OpKeeps(table, Run(table, d, ops[..|ops| - 1]), ops[|ops| - 1]);
    } else {
      assert Coherent(d);
    }
  }

  /** The cache is valid exactly when some 200 was read to its end and the token,
      the URL and the selection have stood since, with no body spoilt in between. */
  lemma {:induction false} ValidExactly(table: seq<Location>, d: Device, ops: seq<Op>)
    requires BootedOn(d)
    ensures Run(table, d, ops).valid
            <==> LastGood(ops) >= 0 && StoodSince(table, d, ops, LastGood(ops))
  {
    hide ViewOf, Join, StoodSince;
    if ops != [] {
      var front, op, k := ops[..|ops| - 1], ops[|ops| - 1], LastGood(ops);
      var before, after := Run(table, d, front), Run(table, d, ops);
      ValidExactly(table, d, front);
      RegionsFollow(table, d, front);
      if IsGood(op) {
        GoodStands(table, d, ops);
      } else if k >= 0 {
        StoodSnoc(table, d, ops, k);
        if StoodSince(table, d, front, k) {
          StoodSource(table, d, front, k);
          assert ops[..k] == front[..k];
        }
      }
    }
  }

  lemma GoodStands(table: seq<Location>, d: Device, ops: seq<Op>)
    requires ops != [] && IsGood(ops[|ops| - 1])
    ensures StoodSince(table, d, ops, |ops| - 1)
  {
    hide ViewOf;
    assert ops[..|ops|] == ops;
  }

  lemma StoodSource(table: seq<Location>, d: Device, ops: seq<Op>, k: int)
    requires 0 <= k < |ops| && StoodSince(table, d, ops, k)
    ensures SameSource(Run(table, d, ops), Run(table, d, ops[..k]))
  {
    hide Run, SameSource;
    assert ops[..|ops|] == ops;
  }

  /** And then the builder holds the aggregate of exactly that body under the
      current selection, asked for with the current token, URL and regions. */
  lemma {:induction false} ValidHoldsLastGood(table: seq<Location>, d: Device, ops: seq<Op>)
    requires BootedOn(d) && Run(table, d, ops).valid
    ensures var k, r := LastGood(ops), Run(table, d, ops);
            && k >= 0
            && r.lastModified == ops[k].reply.lastModified
            && r.view == ViewOf(table, r.selected, AlertsIn(ops[k].reply.body.entries))
            && (var asked := Run(table, d, ops[..k]);
                r.token == asked.token && r.url == asked.url && r.regions == asked.regions
                && r.selected == asked.selected)
  {
    hide ViewOf, Join;
    ValidExactly(table, d, ops);
    var k, front := LastGood(ops), ops[..|ops| - 1];
    StoodSource(table, d, ops, k);
    RegionsFollow(table, d, ops);
    RegionsFollow(table, d, ops[..k]);
    if k < |ops| - 1 {
      StoodSnoc(table, d, ops, k);
      ValidExactly(table, d, front);
      ValidHoldsLastGood(table, d, front);
    } else {
      assert ops[..k] == front;
    }
  }

  /** A validator goes out only with a snapshot behind it. */
  lemma ValidatorNeedsSnapshot(table: seq<Location>, d: Device, ops: seq<Op>)
    requires BootedOn(d) && Run(table, d, ops).lastModified != ""
    ensures Run(table, d, ops).valid
  {
    RegionsFollow(table, d, ops);
  }

  /** Whatever a poll hands on as an alarm picture, fresh or not modified, is one
      whole body under the current selection: never a broken one, never another
      token's or another place's. */
  lemma AppliedIsWhole(table: seq<Location>, d: Device, ops: seq<Op>, reply: Reply)
    requires BootedOn(d)
    requires var kind := Outcome(Run(table, d, ops), reply); kind == Fresh || kind == Unchanged
    ensures var all := ops + [Poll(reply)];
            var k, r := LastGood(all), Run(table, d, all);
            k >= 0 && StoodSince(table, d, all, k)
            && r.view == ViewOf(table, r.selected, AlertsIn(all[k].reply.body.entries))
  {
    hide ViewOf;
    var all := ops + [Poll(reply)];
    assert all[..|ops|] == ops;
    assert Run(table, d, all).valid;
    ValidExactly(table, d, all);
    ValidHoldsLastGood(table, d, all);
  }

  // ---- the client object ------------------------------------------------------------------------

  class AlertsClient {
    var token: string
    var lastModified: string
    var mockUrl: string
    var regions: string
    var valid: bool

    ghost function State(b: SnapshotBuilder): Device
      requires b.Valid()
      reads this, b, b.inputs, b.matchedMask, b.cells
    {
      Device(token, mockUrl, regions, lastModified, valid, b.selected, b.State())
    }

    constructor ()
      ensures token == "" && mockUrl == "" && regions == "" && lastModified == "" && !valid
    {
      token, lastModified, mockUrl, regions, valid := "", "", "", "", false;
    }

    method Begin(token: string, ghost b: SnapshotBuilder)
      requires b.Valid()
      modifies this
      ensures State(b) == Next(b.table, old(State(b)), SetToken(token))
    {
      if token != this.token {
        InvalidateCache();
      }
      this.token := token;
    }

    method InvalidateCache()
      modifies this`lastModified, this`valid
      ensures lastModified == "" && !valid
    {
      lastModified, valid := "", false;
    }

    method SetMockUrl(url: string, ghost b: SnapshotBuilder)
      requires b.Valid()
      modifies this
      ensures State(b) == Next(b.table, old(State(b)), SetUrl(url))
    {
      if url != mockUrl {
        InvalidateCache();
      }
      mockUrl := url;
    }

    method SetRegions(ids: string)
      modifies this`lastModified, this`valid, this`regions
      ensures regions == ids
      ensures valid == (old(valid) && ids == old(regions))
      ensures lastModified == if ids == old(regions) then old(lastModified) else ""
    {
      if ids != regions {
        InvalidateCache();
      }
      regions := ids;
    }

    /** `reply` is what the transport brought for a request with the fields above. */
    method Poll(b: SnapshotBuilder, reply: Reply) returns (kind: Kind)
      requires b.Valid()
      modifies this, b.inputs, b.matchedMask, b.cells
      ensures State(b) == Next(b.table, old(State(b)), Op.Poll(reply))
      ensures kind == Outcome(old(State(b)), reply)
    {
      hide ViewOf;
      match reply {
        case Full(lm, body) =>
          var whole := ReadBody(b, body);
          if !whole {
            InvalidateCache();
            return ParseFailed;
          }
          lastModified, valid := lm, true;
          kind := Fresh;
        case NotModified =>
          if valid {
            return Unchanged;
          }
          lastModified := "";
          kind := ParseFailed;
        case Unauthorized => kind := AuthFailed;
        case Forbidden => kind := Denied;
        case RateLimited => kind := Limited;
        case HttpError => kind := HttpFailed;
        case NetError => kind := NetFailed;
      }
    }

    method ReadBody(b: SnapshotBuilder, body: Body) returns (whole: bool)
      requires b.Valid()
      modifies b.inputs, b.matchedMask, b.cells
      ensures whole == body.Complete?
      ensures body.NotAnArray? ==> b.State() == old(b.State())
      ensures !body.NotAnArray? ==> b.Holds(AlertsIn(body.entries))
    {
      if body.NotAnArray? {
        return false;
      }
      ParseBody(body.entries, b);
      whole := body.Complete?;
    }

    /** refreshLocations, as far as the client and the builder go. */
    method RefreshLocations(b: SnapshotBuilder)
      requires b.Valid()
      modifies this`lastModified, this`valid, b.inputs, b.matchedMask, b.cells
      ensures State(b) == Refreshed(b.table, old(State(b)))
    {
      b.Reset();
      InvalidateCache();
    }

    /** applyConfig, likewise. */
    method ApplyConfig(b: SnapshotBuilder, sel: seq<Location>)
      requires b.Valid() && |sel| <= MAX_SELECTED
      modifies this`lastModified, this`valid, this`regions, b`selected
      ensures b.Valid() && State(b) == Configured(old(State(b)), sel)
    {
      var ok := b.SetSelected(sel);
      var ids := JoinUids(Uids(sel));
      SetRegions(ids);
    }

    /** A configuration sent by the web page, once parsed; `saved`: it reached the flash. */
    method HandleConfigPut(b: SnapshotBuilder, sel: seq<Location>, typesChanged: bool, saved: bool)
      requires b.Valid()
      modifies this, b`selected, b.inputs, b.matchedMask, b.cells
      ensures b.Valid()
      ensures State(b) == if saved then Next(b.table, old(State(b)), SaveConfig(sel, typesChanged)) else old(State(b))
    {
      if |sel| > MAX_SELECTED || !saved {
        return;
      }
      var locationsChanged := sel != b.selected || typesChanged;
      ApplyConfig(b, sel);
      if locationsChanged {
        RefreshLocations(b);
      }
    }

    method HandleLocationsPut(b: SnapshotBuilder, sel: seq<Location>, saved: bool)
      requires b.Valid()
      modifies this, b`selected, b.inputs, b.matchedMask, b.cells
      ensures b.Valid()
      ensures State(b) == if saved then Next(b.table, old(State(b)), SaveLocations(sel)) else old(State(b))
    {
      if |sel| == 0 || |sel| > MAX_SELECTED || !saved {
        return;
      }
      ApplyConfig(b, sel);
      RefreshLocations(b);
    }
  }
}
