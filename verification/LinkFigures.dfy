/**
  The figures of a link record over whole runs of engine/src/lib.rs: which report, adapter update or
  switch they come from. The operations themselves are in LinkAdmin.
 */
module LinkFigures {
  import opened Words
  import Engine
  import opened LinkAdmin

  datatype Figures = Figures(
    connected: bool, payloadEligible: bool, capacityReady: bool, targetBps: U64, deliveredBps: U64,
    qualityPercent: Byte)

  function Of(link: Engine.Link): Figures {
    Figures(link.connected, link.payloadEligible, link.capacityReady, link.targetBps, link.deliveredBps,
            link.qualityPercent)
  }

  // Reports

  /** The last report in the list about this link. */
  function LastReport(reports: seq<Engine.Link>, id: U64): Option<Engine.Link> {
    if reports == [] then None
    else
      var last := reports[|reports| - 1];
      if last.id == id then Some(last) else LastReport(reports[..|reports| - 1], id)
  }

  lemma {:induction false} LastReportFront(reports: seq<Engine.Link>, id: U64)
    requires reports != []
    ensures LastReport(reports, id) ==
            if LastReport(reports[1..], id).Some? then LastReport(reports[1..], id)
            else if reports[0].id == id then Some(reports[0]) else None
  {
    if |reports| > 1 {
      var front := reports[..|reports| - 1];
      LastReportFront(front, id);
      assert reports[1..][..|reports| - 2] == front[1..];
      assert reports[1..][|reports| - 2] == reports[|reports| - 1];
    }
  }

  /** After any list of reports a link has the figures of the last one about it, and its old ones if there is none. */
  lemma {:induction false} ReportsApplied(links: seq<Engine.Link>, reports: seq<Engine.Link>, id: U64)
    requires Present(links, id)
    ensures var i, last := Find(links, id), LastReport(reports, id);
            && WithReports(links, reports)[i].enabled == links[i].enabled
            && Of(WithReports(links, reports)[i]) == if last.Some? then Of(last.value) else Of(links[i])
    decreases |reports|
  {
    if reports != [] {
      var j := Find(links, reports[0].id);
      var next := if j < |links| then links[j := Refreshed(links[j], reports[0])] else links;
      FindById(links, next, id);
      ReportsApplied(next, reports[1..], id);
      LastReportFront(reports, id);
    }
  }

  /** With unique ids that is every record. */
  lemma ReportsAppliedToAll(links: seq<Engine.Link>, reports: seq<Engine.Link>, k: nat)
    requires Distinct(links) && k < |links|
    ensures var last := LastReport(reports, links[k].id);
            Of(WithReports(links, reports)[k]) == if last.Some? then Of(last.value) else Of(links[k])
  {
    assert Find(links, links[k].id) == k;
    ReportsApplied(links, reports, links[k].id);
  }

  // Switches

  lemma {:induction false} CountNone(links: seq<Engine.Link>)
    ensures CountEnabled(links) == 0 <==> forall k :: 0 <= k < |links| ==> !links[k].enabled
  {
    if links != [] {
      CountNone(links[1..]);
      assert forall k :: 1 <= k < |links| ==> links[k] == links[1..][k - 1];
    }
  }

  lemma {:induction false} CountOne(links: seq<Engine.Link>, i: nat)
    requires i < |links| && links[i].enabled
    ensures CountEnabled(links) >= 1
    ensures CountEnabled(links) == 1 <==> forall k :: 0 <= k < |links| && k != i ==> !links[k].enabled
  {
    assert forall k :: 1 <= k < |links| ==> links[k] == links[1..][k - 1];
    if i == 0 {
      CountNone(links[1..]);
    } else {
      CountOne(links[1..], i - 1);
    }
  }

  /** A call is turned down exactly if it would switch off the only enabled link of a running output. */
  lemma RefusedExactly(t: Table, id: U64, on: bool)
    ensures var i := Find(t.links, id);
            LastLink(t, id, on) <==>
              && i < |t.links| && t.links[i].enabled && !on && t.running
              && forall k :: 0 <= k < |t.links| && k != i ==> !t.links[k].enabled
  {
    var i := Find(t.links, id);
    if i < |t.links| && t.links[i].enabled { CountOne(t.links, i); }
  }

  /** The figures a switch leaves: a link that comes on starts from nothing, one that goes off carries nothing. */
  function AfterSwitch(f: Figures, was: bool, on: bool): Figures {
    if !on then f.(capacityReady := false, deliveredBps := 0)
    else if !was then f.(capacityReady := false, targetBps := 0, deliveredBps := 0, qualityPercent := 0)
    else f
  }

  lemma SwitchApplied(t: Table, id: U64, on: bool)
    requires Present(t.links, id) && !LastLink(t, id, on)
    ensures var i, u := Find(t.links, id), WithEnabled(t, id, on).links;
            && |u| == |t.links| && u[i].id == id && u[i].enabled == on
            && Of(u[i]) == AfterSwitch(Of(t.links[i]), t.links[i].enabled, on)
            && forall k :: 0 <= k < |u| && k != i ==> u[k] == t.links[k]
  {
  }

  /** No rate, readiness or quality from before a switch-off survives the next switch-on. */
  lemma SwitchOnForgets(t: Table, id: U64)
    requires Present(t.links, id) && !t.links[Find(t.links, id)].enabled
    ensures var link := WithEnabled(t, id, true).links[Find(t.links, id)];
            && link.enabled && !link.capacityReady
            && link.targetBps == 0 && link.deliveredBps == 0 && link.qualityPercent == 0
  {
  }

  // Runs

  function FiguresOf(links: seq<Engine.Link>, id: U64): Option<Figures> {
    if Present(links, id) then Some(Of(links[Find(links, id)])) else None
  }

  /** What is said about a link after one more call, on a table where `before` was said of it. */
  function SaidAfter(t: Table, op: AdminOp, id: U64, before: Option<Figures>): Option<Figures> {
    match op
    case Adapters(incoming) => FiguresOf(incoming, id)
    case Reports(reports) =>
      var last := LastReport(reports, id);
      if before.Some? && last.Some? then Some(Of(last.value)) else before
    case SwitchLink(j, on) =>
      if j == id && before.Some? && !LastLink(t, id, on)
      then Some(AfterSwitch(before.value, Enabled(t.links, id), on))
      else before
    case Run(_) => before
  }

  /** What the calls up to `n` say about a link: its last record, report or switch since it last appeared. */
  function Said(t: Table, ops: seq<AdminOp>, id: U64, n: nat): Option<Figures>
    requires n <= |ops|
  {
    if n == 0 then FiguresOf(t.links, id)
    else SaidAfter(At(t, ops, n - 1), ops[n - 1], id, Said(t, ops, id, n - 1))
  }

  lemma SaidStep(t: Table, op: AdminOp, id: U64)
    ensures FiguresOf(Apply(t, op).links, id) == SaidAfter(t, op, id, FiguresOf(t.links, id))
  {
    var u := Apply(t, op);
    match op
    case Adapters(incoming) => FindById(incoming, u.links, id);
    case Reports(reports) =>
      FindById(t.links, u.links, id);
      if Present(t.links, id) { ReportsApplied(t.links, reports, id); }
    case SwitchLink(j, on) => FindById(t.links, u.links, id);
    case Run(_) =>
  }

  /**
    Over every run, a link's figures are what the calls since it last appeared say: in particular it is
    connected exactly if its last report, or else the adapter record it appeared with, says so.
   */
  lemma {:induction false} FiguresAsSaid(t: Table, ops: seq<AdminOp>, id: U64, n: nat)
    requires n <= |ops|
    ensures FiguresOf(At(t, ops, n).links, id) == Said(t, ops, id, n)
  {
    hide Apply, LastLink, Enabled, FiguresOf;
    if n > 0 {
      FiguresAsSaid(t, ops, id, n - 1);
      SaidStep(At(t, ops, n - 1), ops[n - 1], id);
    }
  }

  /** The connection flag alone, which no switch touches. */
  function SaidConnected(t: Table, ops: seq<AdminOp>, id: U64, n: nat): bool
    requires n <= |ops|
  {
    if n == 0 then Present(t.links, id) && t.links[Find(t.links, id)].connected
    else
      var before := SaidConnected(t, ops, id, n - 1);
      match ops[n - 1]
      case Adapters(incoming) => Present(incoming, id) && incoming[Find(incoming, id)].connected
      case Reports(reports) =>
        var last := LastReport(reports, id);
        if Present(At(t, ops, n - 1).links, id) && last.Some? then last.value.connected else before
      case _ => before
  }

  lemma {:induction false} ConnectedAsSaid(t: Table, ops: seq<AdminOp>, id: U64, n: nat)
    requires n <= |ops|
    ensures var f := FiguresOf(At(t, ops, n).links, id);
            (f.Some? && f.value.connected) <==> SaidConnected(t, ops, id, n)
  {
    hide Apply, LastLink, Enabled;
    if n > 0 {
      ConnectedAsSaid(t, ops, id, n - 1);
      SaidStep(At(t, ops, n - 1), ops[n - 1], id);
    }
  }
}
