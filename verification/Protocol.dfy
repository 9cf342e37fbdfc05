/**
 * Billing end to end: an agent whose buffer retries, a network that may lose, delay or repeat any report
 * it was ever given, and a server that claims report ids. Steps of all three, and every other panel
 * request, interleave freely.
 */
module Protocol {
  import opened Common
  import opened Store
  import opened Quota
  import opened Accounting
  import opened AccountingFacts
  import opened Report
  import opened Rules
  import opened RulesFacts
  import opened Panel

  // ---- what the server has billed for a node and a rule ----

  ghost function BillOf(rows: seq<TrafficRow>, node: Id, rule: Id): int {
    if rows == [] then 0
    else
      var last := rows[|rows| - 1];
      BillOf(rows[..|rows| - 1], node, rule) + (if last.node == node && last.rule == rule then last.bytes else 0)
  }

  lemma {:induction false} BilledConcat(a: seq<TrafficRow>, b: seq<TrafficRow>, node: Id, rule: Id)
    ensures BillOf(a + b, node, rule) == BillOf(a, node, rule) + BillOf(b, node, rule)
  {
    if b == [] {
      assert a + b == a;
    } else {
      assert (a + b)[..|a + b| - 1] == a + b[..|b| - 1];
      BilledConcat(a, b[..|b| - 1], node, rule);
    }
  }

  /** Rows of a single node: billed bytes are the rows' bytes in both directions, other nodes get none. */
  lemma {:induction false} BilledOneNode(rows: seq<TrafficRow>, node: Id, other: Id, rule: Id)
    requires forall k | 0 <= k < |rows| :: rows[k].node == node
    ensures BillOf(rows, other, rule) == if other == node then RowsSum(rows, In, {rule}) + RowsSum(rows, Out, {rule}) else 0
  {
    if rows != [] { BilledOneNode(rows[..|rows| - 1], node, other, rule); }
  }

  lemma ReportBills(s: State, node: Node, samples: seq<Sample>, now: int, other: Id, rule: Id)
    requires QuotaExact(s) && AllValid(samples) && AccountTraffic(s, node, samples, now).Ok?
    ensures BillOf(AccountTraffic(s, node, samples, now).value.ledger.rows, other, rule)
            == BillOf(s.ledger.rows, other, rule) + if other == node.id then TotalFor(samples, {rule}) else 0
  {
    if samples != [] {
      var d, ids, col := LoadedFrom(s, node, samples, now);
      LoadedPays(s, node, samples, d, ids, col);
      RecordedExact(s, col, d);
      SettleWrites(Recorded(s, col, d), col, now);
      CollectedRows(s, node, ids, d, |ids|);
      forall k | 0 <= k < |col.rows| ensures col.rows[k].node == node.id {
        assert RowOk(s, node, col.rows[k]);
      }
      BilledConcat(s.ledger.rows, col.rows, other, rule);
      BilledOneNode(col.rows, node.id, other, rule);
      RowTotal(s, node, samples, d, ids, col, In, {rule});
      RowTotal(s, node, samples, d, ids, col, Out, {rule});
    }
  }

  // ---- only the node's own new reports bill the node ----

  lemma QuotaRequestLedger(s: State, q: Request)
    requires q.ResetUser? || q.UpdateUser? || q.ResetTenant? || q.UpdateTenant? || q.ReadTenant?
    ensures Handle(s, q).ledger == s.ledger
  {
  }

  lemma RollAllLedger(s: State, now: int)
    ensures OrElse(RollAll(s, now), s).ledger == s.ledger
  {
    var due := Sorted(set t | t in s.tenants && s.tenants[t].nextReset.Some? && s.tenants[t].nextReset.value <= now);
    IterateKeeps((x: State) => x.ledger == s.ledger, RollStep(due, now), s, |due|);
  }

  lemma PrepareLedger(s: State, r: Rule, d: Draft, exclude: Id, now: int)
    requires Prepare(s, r, d, exclude, now).Ok?
    ensures Prepare(s, r, d, exclude, now).value.state.ledger == s.ledger
  {
  }

  lemma CreateLedger(s: State, id: Id, d: Draft, now: int)
    ensures OrElse(CreateRule(s, id, d, now), s).ledger == s.ledger
  {
    if Prepare(s, NewRow(d), d, 0, now).Ok? { PrepareLedger(s, NewRow(d), d, 0, now); }
  }

  lemma UpdateLedger(s: State, id: Id, d: Draft, now: int)
    ensures OrElse(UpdateRule(s, id, d, now), s).ledger == s.ledger
  {
    if id in s.rules && Prepare(s, EditedRow(s.rules[id], d), d, id, now).Ok? {
      PrepareLedger(s, EditedRow(s.rules[id], d), d, id, now);
    }
  }

  lemma BatchLedger(s: State, drafts: seq<Draft>, ids: seq<Id>, now: int, preview: bool)
    requires |ids| == |drafts|
    ensures ApplyBatch(s, drafts, ids, now, preview).state.ledger == s.ledger
  {
    var step := BatchStep(CreateAt(now), drafts, ids);
    var inv := (c: Created) => c.state.ledger == s.ledger;
    forall c, k: nat | k < |drafts| && inv(c) && step(c, k).Ok? ensures inv(step(c, k).value) {
      CreateLedger(c.state, ids[k], drafts[k], now);
    }
    IterateKeeps(inv, step, Created(s, []), |drafts|);
  }

  lemma OnlyReportsBill(s: State, q: Request)
    requires !q.ReportTraffic?
    ensures Handle(s, q).ledger == s.ledger
  {
    match q
    case RollDueTenants(at) => RollAllLedger(s, at);
    case Create(id, d, at) => CreateLedger(s, id, d, at);
    case Update(id, d, at) => UpdateLedger(s, id, d, at);
    case Delete(id) =>
    case Batch(drafts, ids, at, preview) => if |ids| == |drafts| { BatchLedger(s, drafts, ids, at, preview); }
    case _ => QuotaRequestLedger(s, q);
  }

  /** One delivery: billed once and the id claimed, or nothing at all. */
  lemma DeliveryBills(s: State, node: Node, reportId: string, samples: seq<Sample>, now: int, other: Id, rule: Id)
    requires PanelExact(s) && reportId != ""
    ensures var s' := AgentTraffic(s, node, reportId, samples, now).0; var key := MarkerKey(node.id, reportId);
            || (s' == s)
            || (key !in s.ledger.markers && AllValid(samples)
                && s'.ledger.markers == s.ledger.markers[key := |samples|]
                && BillOf(s'.ledger.rows, other, rule)
                   == BillOf(s.ledger.rows, other, rule) + if other == node.id then TotalFor(samples, {rule}) else 0)
  {
    var key := MarkerKey(node.id, reportId);
    var s1 := s.(ledger := s.ledger.(markers := s.ledger.markers[key := |samples|]));
    MarkedExact(s, s1.ledger.markers);
    if AllValid(samples) && AccountTraffic(s1, node, samples, now).Ok? {
      ReportBills(s1, node, samples, now, other, rule);
      ReportRules(s1, node, samples, now);
    }
  }

  /** Requests that are not reports of the node leave its bill and its claimed ids alone. */
  lemma OthersDoNotBill(s: State, q: Request, node: Id, rule: Id)
    requires PanelExact(s) && (q.ReportTraffic? ==> q.node.id != node)
    ensures BillOf(Handle(s, q).ledger.rows, node, rule) == BillOf(s.ledger.rows, node, rule)
    ensures forall id :: MarkerKey(node, id) in Handle(s, q).ledger.markers <==> MarkerKey(node, id) in s.ledger.markers
  {
    if q.ReportTraffic? {
      if q.reportId != "" {
        DeliveryBills(s, q.node, q.reportId, q.samples, q.at, node, rule);
      } else if AllValid(q.samples) && AccountTraffic(s, q.node, q.samples, q.at).Ok? {
        ReportBills(s, q.node, q.samples, q.at, node, rule);
        ReportRules(s, q.node, q.samples, q.at);
      }
    } else {
      OnlyReportsBill(s, q);
    }
  }
}
