/**
  Link administration in engine/src/lib.rs: enabling and disabling links, adapter updates and
  link statistics. The embedded sender's own echo of link states is not part of this model.
 */
module LinkAdmin {
  import opened Words
  import opened Engine

  datatype Table = Table(links: seq<Link>, running: bool)

  /** Position of the first link with this id; the length if there is none. */
  function Find(links: seq<Link>, id: U64): (i: nat)
    ensures i <= |links|
    ensures i < |links| ==> links[i].id == id
    ensures forall k :: 0 <= k < i ==> links[k].id != id
  {
    if links == [] then 0
    else if links[0].id == id then 0
    else 1 + Find(links[1..], id)
  }

  predicate Present(links: seq<Link>, id: U64) {
    Find(links, id) < |links|
  }

  function CountEnabled(links: seq<Link>): nat {
    if links == [] then 0 else (if links[0].enabled then 1 else 0) + CountEnabled(links[1..])
  }

  /** The record after `enabled` is set: a link that comes back must warm up again. */
  function Switched(link: Link, enabled: bool): Link {
    if enabled && !link.enabled then
      link.(enabled := true, capacityReady := false, targetBps := 0, deliveredBps := 0, qualityPercent := 0)
    else if !enabled then
      link.(enabled := false, capacityReady := false, deliveredBps := 0)
    else link
  }

  /** The call is turned down because it would switch off the last enabled link of a running output. */
  predicate LastLink(t: Table, id: U64, enabled: bool) {
    && Present(t.links, id)
    && t.running && !enabled && t.links[Find(t.links, id)].enabled && CountEnabled(t.links) <= 1
  }

  function WithEnabled(t: Table, id: U64, enabled: bool): Table {
    var i := Find(t.links, id);
    if i == |t.links| || LastLink(t, id, enabled) then t
    else t.(links := t.links[i := Switched(t.links[i], enabled)])
  }

  /** An incoming adapter keeps the switch of the link it replaces; an unknown one starts disabled. */
  function Admitted(links: seq<Link>, incoming: Link): Link {
    var i := Find(links, incoming.id);
    incoming.(enabled := i < |links| && links[i].enabled)
  }

  function WithAdapters(t: Table, incoming: seq<Link>): Table {
    t.(links := seq(|incoming|, k requires 0 <= k < |incoming| => Admitted(t.links, incoming[k])))
  }

  /** A statistics report carries everything but the switch. */
  function Refreshed(link: Link, report: Link): Link {
    report.(enabled := link.enabled)
  }

  function WithReports(links: seq<Link>, reports: seq<Link>): (r: seq<Link>)
    ensures |r| == |links|
    ensures forall k :: 0 <= k < |links| ==> r[k].id == links[k].id && r[k].enabled == links[k].enabled
    decreases |reports|
  {
    if reports == [] then links
    else
      var i := Find(links, reports[0].id);
      WithReports(if i < |links| then links[i := Refreshed(links[i], reports[0])] else links, reports[1..])
  }

  class LinkTable {
    var links: seq<Link>
    var running: bool

    ghost function View(): Table
      reads this
    {
      Table(links, running)
    }

    constructor (links: seq<Link>)
      ensures View() == Table(links, false)
    {
      this.links := links;
      running := false;
    }

    method CountOn() returns (n: nat)
      ensures n == CountEnabled(links)
    {
      n := 0;
      var i := |links|;
      assert links[i..] == [];
      while i > 0
        invariant 0 <= i <= |links|
        invariant n == CountEnabled(links[i..])
      {
        i := i - 1;
        assert links[i..][1..] == links[i + 1..];
        if links[i].enabled {
          n := n + 1;
        }
      }
      assert links[0..] == links;
    }

    /** `accepted` is the embedded sender's answer; its refusal is reported but the switch stays. */
    method SetLinkEnabled(id: U64, enabled: bool, accepted: bool) returns (rc: int)
      modifies this`links
      ensures View() == WithEnabled(old(View()), id, enabled)
      ensures rc == (if !old(Present(links, id)) then -2
                     else if old(LastLink(View(), id, enabled)) then -3
                     else if accepted then 0 else -2)
    {
      var i := Find(links, id);
      if i == |links| {
        return -2;
      }
      var on := CountOn();
      if running && !enabled && links[i].enabled && on <= 1 {
        return -3;
      }
      var link := links[i];
      if enabled && !link.enabled {
        link := link.(capacityReady := false, targetBps := 0, deliveredBps := 0, qualityPercent := 0);
      }
      if !enabled {
        link := link.(capacityReady := false, deliveredBps := 0);
      }
      links := links[i := link.(enabled := enabled)];
      rc := if accepted then 0 else -2;
    }

    /** `accepted` is the embedded sender's answer; its refusal is reported but the table stays replaced. */
    method UpdateAdapters(incoming: seq<Link>, accepted: bool) returns (rc: int)
      modifies this`links
      ensures View() == WithAdapters(old(View()), incoming)
      ensures rc == if accepted then 0 else -2
    {
      var updated: seq<Link> := [];
      for k := 0 to |incoming|
        invariant links == old(links)
        invariant |updated| == k
        invariant forall m :: 0 <= m < k ==> updated[m] == Admitted(links, incoming[m])
      {
        var i := Find(links, incoming[k].id);
        if i < |links| {
          updated := updated + [incoming[k].(enabled := links[i].enabled)];
        } else {
          updated := updated + [incoming[k].(enabled := false)];
        }
      }
      links := updated;
      rc := if accepted then 0 else -2;
    }

    method UpdateLinkStats(reports: seq<Link>)
      modifies this`links
      ensures View() == old(View()).(links := WithReports(old(links), reports))
    {
      assert reports[0..] == reports;
      for k := 0 to |reports|
        invariant WithReports(links, reports[k..]) == WithReports(old(links), reports)
      {
        assert reports[k..][1..] == reports[k + 1..];
        var i := Find(links, reports[k].id);
        if i < |links| {
          links := links[i := reports[k].(enabled := links[i].enabled)];
        }
      }
    }
  }

  // Runs

  datatype AdminOp =
    | SwitchLink(id: U64, on: bool) | Adapters(incoming: seq<Link>) | Reports(reports: seq<Link>) | Run(running: bool)

  function Apply(t: Table, op: AdminOp): Table {
    match op
    case SwitchLink(id, on) => WithEnabled(t, id, on)
    case Adapters(incoming) => WithAdapters(t, incoming)
    case Reports(reports) => t.(links := WithReports(t.links, reports))
    case Run(b) => t.(running := b)
  }

  function At(t: Table, ops: seq<AdminOp>, n: nat): Table
    requires n <= |ops|
  {
    if n == 0 then t else Apply(At(t, ops, n - 1), ops[n - 1])
  }

  predicate Enabled(links: seq<Link>, id: U64) {
    Present(links, id) && links[Find(links, id)].enabled
  }

  lemma FindById(links: seq<Link>, other: seq<Link>, id: U64)
    requires |links| == |other| && forall k :: 0 <= k < |links| ==> links[k].id == other[k].id
    ensures Find(links, id) == Find(other, id)
  {
  }

  /** What one operation does to the switch of one link. */
  lemma SwitchStep(t: Table, op: AdminOp, id: U64)
    ensures var u := Apply(t, op);
            Enabled(u.links, id) <==>
              match op
              case SwitchLink(j, on) =>
                if j == id && Present(t.links, id) && !LastLink(t, id, on) then on else Enabled(t.links, id)
              case Adapters(incoming) => Enabled(t.links, id) && Present(incoming, id)
              case _ => Enabled(t.links, id)
  {
    var u := Apply(t, op);
    match op
    case SwitchLink(j, on) => FindById(t.links, u.links, id);
    case Adapters(incoming) => FindById(incoming, u.links, id);
    case _ => FindById(t.links, u.links, id);
  }

  /** Operation `m` leaves the switch of an enabled link on. */
  predicate Spares(t: Table, ops: seq<AdminOp>, id: U64, m: nat)
    requires m < |ops|
  {
    && (ops[m].Adapters? ==> Present(ops[m].incoming, id))
    && (ops[m] == SwitchLink(id, false) ==> LastLink(At(t, ops, m), id, false))
  }

  /** Operation `k - 1` switched `id` on, or, for `k == 0`, it was on at creation. */
  predicate Grants(t: Table, ops: seq<AdminOp>, id: U64, k: nat)
    requires k <= |ops|
  {
    if k == 0 then Enabled(t.links, id)
    else ops[k - 1] == SwitchLink(id, true) && Present(At(t, ops, k - 1).links, id)
  }

  /** `id` was switched on before operation `k`, and every later one up to `n` spared it. */
  predicate Granted(t: Table, ops: seq<AdminOp>, id: U64, k: nat, n: nat)
    requires k <= n <= |ops|
  {
    Grants(t, ops, id, k) && forall m :: k <= m < n ==> Spares(t, ops, id, m)
  }

  lemma EnabledStep(t: Table, ops: seq<AdminOp>, id: U64, n: nat)
    requires 0 < n <= |ops|
    ensures Enabled(At(t, ops, n).links, id) <==>
              Grants(t, ops, id, n) || (Enabled(At(t, ops, n - 1).links, id) && Spares(t, ops, id, n - 1))
  {
    var b, op := At(t, ops, n - 1), ops[n - 1];
    SwitchStep(b, op, id);
    hide Apply;
  }

  lemma {:induction false} GrantLasts(t: Table, ops: seq<AdminOp>, id: U64, k: nat, n: nat)
    requires k <= n <= |ops| && Granted(t, ops, id, k, n)
    ensures Enabled(At(t, ops, n).links, id)
  {
    hide Grants, Spares, Enabled, At;
    if n == 0 {
      StartsEnabled(t, ops, id);
    } else {
      EnabledStep(t, ops, id, n);
      if k < n { GrantLasts(t, ops, id, k, n - 1); }
    }
  }

  lemma StartsEnabled(t: Table, ops: seq<AdminOp>, id: U64)
    ensures Grants(t, ops, id, 0) <==> Enabled(At(t, ops, 0).links, id)
  {
  }

  lemma {:induction false} EnabledHasGrant(t: Table, ops: seq<AdminOp>, id: U64, n: nat) returns (k: nat)
    requires n <= |ops| && Enabled(At(t, ops, n).links, id)
    ensures k <= n && Granted(t, ops, id, k, n)
  {
    hide Grants, Spares, Enabled, At;
    if n == 0 {
      StartsEnabled(t, ops, id);
      k := 0;
    } else {
      EnabledStep(t, ops, id, n);
      if Grants(t, ops, id, n) {
        k := n;
      } else {
        k := EnabledHasGrant(t, ops, id, n - 1);
      }
    }
  }

  /** A link is on exactly if it was switched on, and since then stayed present and was not switched off. */
  lemma EnabledOnlyByGrant(t: Table, ops: seq<AdminOp>, id: U64, n: nat)
    requires n <= |ops|
    ensures Enabled(At(t, ops, n).links, id) <==> exists k :: 0 <= k <= n && Granted(t, ops, id, k, n)
  {
    hide Granted, Enabled, At;
    if Enabled(At(t, ops, n).links, id) {
      var k := EnabledHasGrant(t, ops, id, n);
    }
    if k :| 0 <= k <= n && Granted(t, ops, id, k, n) {
      GrantLasts(t, ops, id, k, n);
    }
  }

  predicate Distinct(links: seq<Link>) {
    forall i, j :: 0 <= i < j < |links| ==> links[i].id != links[j].id
  }

  predicate DistinctAdapters(ops: seq<AdminOp>) {
    forall m :: 0 <= m < |ops| && ops[m].Adapters? ==> Distinct(ops[m].incoming)
  }

  lemma {:induction false} DistinctKept(t: Table, ops: seq<AdminOp>, n: nat)
    requires n <= |ops| && Distinct(t.links) && DistinctAdapters(ops)
    ensures Distinct(At(t, ops, n).links)
  {
    if n > 0 {
      DistinctKept(t, ops, n - 1);
      DistinctStep(At(t, ops, n - 1), ops[n - 1]);
      hide Apply;
    }
  }

  lemma DistinctStep(t: Table, op: AdminOp)
    requires Distinct(t.links) && (op.Adapters? ==> Distinct(op.incoming))
    ensures Distinct(Apply(t, op).links)
  {
  }

  /** With distinct ids this covers every record: one that is on was granted at creation or by a call. */
  lemma EnabledRecordGranted(t: Table, ops: seq<AdminOp>, n: nat, i: nat)
    requires n <= |ops| && Distinct(t.links) && DistinctAdapters(ops)
    requires i < |At(t, ops, n).links|
    ensures var link := At(t, ops, n).links[i];
            link.enabled <==> exists k :: 0 <= k <= n && Granted(t, ops, link.id, k, n)
  {
    hide Granted, At;
    DistinctKept(t, ops, n);
    var link := At(t, ops, n).links[i];
    EnabledOnlyByGrant(t, ops, link.id, n);
    assert Find(At(t, ops, n).links, link.id) == i;
  }

  lemma {:induction false} CountUpdate(links: seq<Link>, i: nat, link: Link)
    requires i < |links|
    ensures CountEnabled(links[i := link]) + (if links[i].enabled then 1 else 0)
            == CountEnabled(links) + (if link.enabled then 1 else 0)
  {
    if i > 0 {
      assert links[i := link][1..] == links[1..][i - 1 := link];
      CountUpdate(links[1..], i - 1, link);
    } else {
      assert links[0 := link][1..] == links[1..];
    }
  }

  /** While running, no switch takes the enabled count from at least one to zero. */
  lemma KeepsOneLink(t: Table, id: U64, on: bool)
    requires t.running && CountEnabled(t.links) >= 1
    ensures CountEnabled(WithEnabled(t, id, on).links) >= 1
  {
    var i := Find(t.links, id);
    if i < |t.links| {
      CountUpdate(t.links, i, Switched(t.links[i], on));
    }
  }
}
