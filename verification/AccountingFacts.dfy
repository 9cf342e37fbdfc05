/** What an accounted report does: exactly when it is accepted, and that it conserves bytes. */
module AccountingFacts {
  import opened Common
  import opened Store
  import opened Accounting

  ghost function OwnedBy(s: State, user: Id): set<Id> {
    set r | r in s.rules && s.rules[r].user == user
  }

  ghost function OfTenant(s: State, tenant: Id): set<Id> {
    set r | r in s.rules && s.rules[r].tenant == tenant
  }

  ghost function First(ids: seq<Id>, n: nat): set<Id>
    requires n <= |ids|
  {
    set k | 0 <= k < n :: ids[k]
  }

  ghost predicate Distinct(ids: seq<Id>) {
    forall i, j | 0 <= i < j < |ids| :: ids[i] != ids[j]
  }

  ghost function RowsSum(rows: seq<TrafficRow>, dir: Direction, rules: set<Id>): int {
    if rows == [] then 0
    else
      var last := rows[|rows| - 1];
      RowsSum(rows[..|rows| - 1], dir, rules) + (if last.dir == dir && last.rule in rules then last.bytes else 0)
  }

  lemma {:induction false} RowsSumConcat(a: seq<TrafficRow>, b: seq<TrafficRow>, dir: Direction, rules: set<Id>)
    ensures RowsSum(a + b, dir, rules) == RowsSum(a, dir, rules) + RowsSum(b, dir, rules)
  {
    if b == [] {
      assert a + b == a;
    } else {
      assert (a + b)[..|a + b| - 1] == a + b[..|b| - 1];
      RowsSumConcat(a, b[..|b| - 1], dir, rules);
    }
  }

  lemma RowsForSum(node: Node, id: Id, r: Rule, d: Delta, dir: Direction, rules: set<Id>)
    requires d.inBytes >= 0 && d.outBytes >= 0
    ensures RowsSum(RowsFor(node, id, r, d), dir, rules) == if id in rules then DeltaBytes(d, dir) else 0
  {
    var a := if d.inBytes > 0 then [TrafficRow(node.id, id, r.user, r.tenant, In, d.inBytes)] else [];
    var b := if d.outBytes > 0 then [TrafficRow(node.id, id, r.user, r.tenant, Out, d.outBytes)] else [];
    RowsSumConcat(a, b, dir, rules);
    assert forall x: TrafficRow :: [x][..0] == [];
  }

  /** A row of the node for one of its rules and the rule's owners, with bytes in it. */
  predicate RowOk(s: State, node: Node, row: TrafficRow) {
    && row.node == node.id && row.rule in s.rules && row.bytes > 0
    && row.user == s.rules[row.rule].user && row.tenant == s.rules[row.rule].tenant
  }

  lemma {:induction false} CollectedRows(s: State, node: Node, ids: seq<Id>, d: map<Id, Delta>, n: nat)
    requires n <= |ids| && forall k | 0 <= k < n :: ids[k] in s.rules && ids[k] in d
    requires Collect(s, node, ids, d, n).Ok?
    ensures forall row | row in Collect(s, node, ids, d, n).value.rows :: RowOk(s, node, row)
  {
    if n > 0 {
      CollectedRows(s, node, ids, d, n - 1);
    }
  }

  /** The inputs of the second loop, as accountAgentTrafficTx reaches it. */
  ghost predicate Gathered(s: State, samples: seq<Sample>, d: map<Id, Delta>, ids: seq<Id>) {
    && AllValid(samples) && Aggregate(samples) == Ok(d)
    && Distinct(ids)
    && forall k | 0 <= k < |ids| :: ids[k] in s.rules && ids[k] in d
  }

  ghost function UserBytes(c: Collected, u: Id): int {
    if u in c.users then c.users[u] else 0
  }

  lemma AddOne(samples: seq<Sample>, dir: Direction, group: set<Id>, ids: seq<Id>, n: nat)
    requires 0 < n <= |ids| && Distinct(ids)
    ensures SumFor(samples, dir, group * First(ids, n)) ==
            SumFor(samples, dir, group * First(ids, n - 1))
            + if ids[n - 1] in group then SumFor(samples, dir, {ids[n - 1]}) else 0
    ensures group * First(ids, n) == group * First(ids, n - 1) + if ids[n - 1] in group then {ids[n - 1]} else {}
  {
    var id := ids[n - 1];
    assert First(ids, n) == First(ids, n - 1) + {id};
    assert id !in First(ids, n - 1);
    if id in group {
      assert group * First(ids, n) == group * First(ids, n - 1) + {id};
      SumSplits(samples, dir, group * First(ids, n - 1), {id});
    } else {
      assert group * First(ids, n) == group * First(ids, n - 1);
    }
  }

  lemma {:induction false} CollectUserSum(s: State, node: Node, samples: seq<Sample>, d: map<Id, Delta>, ids: seq<Id>, n: nat, u: Id)
    requires Gathered(s, samples, d, ids) && n <= |ids| && Collect(s, node, ids, d, n).Ok?
    ensures UserBytes(Collect(s, node, ids, d, n).value, u) == TotalFor(samples, OwnedBy(s, u) * First(ids, n))
    ensures u in Collect(s, node, ids, d, n).value.users <==> OwnedBy(s, u) * First(ids, n) != {}
  {
    if n == 0 {
      assert OwnedBy(s, u) * First(ids, 0) == {};
      SumOfNone(samples, In);
      SumOfNone(samples, Out);
    } else {
      AggregateSums(samples);
      CollectUserSum(s, node, samples, d, ids, n - 1, u);
      AddOne(samples, In, OwnedBy(s, u), ids, n);
      AddOne(samples, Out, OwnedBy(s, u), ids, n);
      assert DeltaBytes(d[ids[n - 1]], In) == SumFor(samples, In, {ids[n - 1]});
      assert DeltaBytes(d[ids[n - 1]], Out) == SumFor(samples, Out, {ids[n - 1]});
    }
  }

  lemma {:induction false} CollectTenantSum(s: State, node: Node, samples: seq<Sample>, d: map<Id, Delta>, ids: seq<Id>, n: nat,
                         t: Id, dir: Direction)
    requires Gathered(s, samples, d, ids) && n <= |ids| && Collect(s, node, ids, d, n).Ok? && t != 0
    ensures DeltaBytes(Current(Collect(s, node, ids, d, n).value.tenants, t), dir)
            == SumFor(samples, dir, OfTenant(s, t) * First(ids, n))
    ensures t in Collect(s, node, ids, d, n).value.tenants <==> OfTenant(s, t) * First(ids, n) != {}
  {
    if n == 0 {
      assert OfTenant(s, t) * First(ids, 0) == {};
      SumOfNone(samples, dir);
    } else {
      AggregateSums(samples);
      CollectTenantSum(s, node, samples, d, ids, n - 1, t, dir);
      AddOne(samples, dir, OfTenant(s, t), ids, n);
      assert DeltaBytes(d[ids[n - 1]], dir) == SumFor(samples, dir, {ids[n - 1]});
    }
  }

  lemma {:induction false} CollectRowSum(s: State, node: Node, samples: seq<Sample>, d: map<Id, Delta>, ids: seq<Id>, n: nat,
                      dir: Direction, rules: set<Id>)
    requires Gathered(s, samples, d, ids) && n <= |ids| && Collect(s, node, ids, d, n).Ok?
    ensures RowsSum(Collect(s, node, ids, d, n).value.rows, dir, rules) == SumFor(samples, dir, rules * First(ids, n))
  {
    if n == 0 {
      assert rules * First(ids, 0) == {};
      SumOfNone(samples, dir);
    } else {
      var id := ids[n - 1];
      AggregateSums(samples);
      CollectRowSum(s, node, samples, d, ids, n - 1, dir, rules);
      AddOne(samples, dir, rules, ids, n);
      forall x ensures DeltaBytes(d[id], x) >= 0 {
        assert DeltaBytes(d[id], x) == SumFor(samples, x, {id});
        SumGrows(samples, x, {id}, {id});
      }
      assert DeltaBytes(d[id], In) >= 0 && DeltaBytes(d[id], Out) >= 0;
      RowsForSum(node, id, s.rules[id], d[id], dir, rules);
      RowsSumConcat(Collect(s, node, ids, d, n - 1).value.rows, RowsFor(node, id, s.rules[id], d[id]), dir, rules);
    }
  }

  /** Adding the next rule of a group cannot exceed what the whole report carries for the group. */
  lemma NextFits(samples: seq<Sample>, dir: Direction, group: set<Id>, ids: seq<Id>, n: nat)
    requires AllValid(samples) && 0 < n <= |ids| && Distinct(ids) && ids[n - 1] in group
    ensures 0 <= SumFor(samples, dir, group * First(ids, n - 1))
    ensures 0 <= SumFor(samples, dir, {ids[n - 1]})
    ensures SumFor(samples, dir, group * First(ids, n - 1)) + SumFor(samples, dir, {ids[n - 1]})
            <= SumFor(samples, dir, group)
  {
    AddOne(samples, dir, group, ids, n);
    SumGrows(samples, dir, group * First(ids, n - 1), group);
    SumGrows(samples, dir, group * First(ids, n), group);
    SumGrows(samples, dir, {ids[n - 1]}, group);
  }

  lemma DeltaIs(samples: seq<Sample>, d: map<Id, Delta>, id: Id)
    requires AllValid(samples) && Aggregate(samples) == Ok(d) && id in d
    ensures d[id].inBytes == SumFor(samples, In, {id}) && d[id].outBytes == SumFor(samples, Out, {id})
    ensures d[id].inBytes >= 0 && d[id].outBytes >= 0
  {
    AggregateSums(samples);
    assert DeltaBytes(d[id], In) == SumFor(samples, In, {id});
    assert DeltaBytes(d[id], Out) == SumFor(samples, Out, {id});
    SumGrows(samples, In, {id}, {id});
    SumGrows(samples, Out, {id}, {id});
  }

  lemma CollectStepFits(s: State, node: Node, samples: seq<Sample>, d: map<Id, Delta>, ids: seq<Id>, n: nat)
    requires Gathered(s, samples, d, ids) && 0 < n <= |ids|
    requires Collect(s, node, ids, d, n - 1).Ok?
    requires TotalFor(samples, OwnedBy(s, s.rules[ids[n - 1]].user)) <= MAX_INT64
    requires s.rules[ids[n - 1]].tenant != 0 ==> TotalFor(samples, OfTenant(s, s.rules[ids[n - 1]].tenant)) <= MAX_INT64
    ensures Collect(s, node, ids, d, n).Ok?
  {
    var id := ids[n - 1];
    var r := s.rules[id];
    var c := Collect(s, node, ids, d, n - 1).value;
    DeltaIs(samples, d, id);
    CollectUserSum(s, node, samples, d, ids, n - 1, r.user);
    NextFits(samples, In, OwnedBy(s, r.user), ids, n);
    NextFits(samples, Out, OwnedBy(s, r.user), ids, n);
    assert UserBytes(c, r.user) + d[id].Total() <= MAX_INT64;
    if r.tenant != 0 {
      CollectTenantSum(s, node, samples, d, ids, n - 1, r.tenant, In);
      CollectTenantSum(s, node, samples, d, ids, n - 1, r.tenant, Out);
      NextFits(samples, In, OfTenant(s, r.tenant), ids, n);
      NextFits(samples, Out, OfTenant(s, r.tenant), ids, n);
    }
  }

  lemma {:induction false} CollectFits(s: State, node: Node, samples: seq<Sample>, d: map<Id, Delta>, ids: seq<Id>, n: nat)
    requires Gathered(s, samples, d, ids) && n <= |ids|
    requires forall u | u in s.users :: TotalFor(samples, OwnedBy(s, u)) <= MAX_INT64
    requires forall t | t in s.tenants :: TotalFor(samples, OfTenant(s, t)) <= MAX_INT64
    requires Linked(s)
    ensures Collect(s, node, ids, d, n).Ok?
  {
    if n > 0 {
      CollectFits(s, node, samples, d, ids, n - 1);
      assert s.users[s.rules[ids[n - 1]].user].tenant == s.rules[ids[n - 1]].tenant;
      CollectStepFits(s, node, samples, d, ids, n);
    }
  }
}
