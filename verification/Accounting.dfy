/**
 * Accounting of one agent traffic report inside its transaction: aggregation per rule, then per user
 * and tenant, the int64 guards, the row updates, and the order in which quotas are exhausted.
 */
module Accounting {
  import opened Common
  import opened Store
  import opened Quota

  /** A Go int64. */
  type Int64 = x: int | -MAX_INT64 - 1 <= x <= MAX_INT64

  datatype Sample = Sample(rule: Id, inBytes: Int64, outBytes: Int64)

  datatype Delta = Delta(inBytes: int, outBytes: int) {
    function Total(): int {
      inBytes + outBytes
    }
  }

  /** The reporting node and the device group it belongs to. */
  datatype Node = Node(id: Id, group: Id)

  datatype Response = Accepted(count: nat, duplicate: bool) | Rejected(error: Error)

  const HOUR: int := 3_600_000_000_000

  const MAX_SAMPLES: nat := 1000

  const MAX_REPORT_ID: nat := 120

  // ---- the transaction ----

  function Current(d: map<Id, Delta>, rule: Id): Delta {
    if rule in d then d[rule] else Delta(0, 0)
  }

  function AddSample(d: map<Id, Delta>, x: Sample): Result<map<Id, Delta>, Error> {
    var c := Current(d, x.rule);
    if x.inBytes > MAX_INT64 - c.inBytes || x.outBytes > MAX_INT64 - c.outBytes then Err(BadPayload)
    else
      var c' := Delta(c.inBytes + x.inBytes, c.outBytes + x.outBytes);
      if c'.inBytes > MAX_INT64 - c'.outBytes then Err(BadPayload) else Ok(d[x.rule := c'])
  }

  /** The first loop of accountAgentTrafficTx: bytes per rule. */
  function Aggregate(samples: seq<Sample>): Result<map<Id, Delta>, Error> {
    if samples == [] then Ok(map[])
    else
      var prev := Aggregate(samples[..|samples| - 1]);
      if prev.Err? then prev else AddSample(prev.value, samples[|samples| - 1])
  }

  datatype Collected = Collected(users: map<Id, int>, tenants: map<Id, Delta>, rows: seq<TrafficRow>)

  function RowsFor(node: Node, id: Id, r: Rule, d: Delta): seq<TrafficRow> {
    (if d.inBytes > 0 then [TrafficRow(node.id, id, r.user, r.tenant, In, d.inBytes)] else []) +
    (if d.outBytes > 0 then [TrafficRow(node.id, id, r.user, r.tenant, Out, d.outBytes)] else [])
  }

  function CollectRule(c: Collected, node: Node, id: Id, r: Rule, d: Delta): Result<Collected, Error> {
    var u := if r.user in c.users then c.users[r.user] else 0;
    if u > MAX_INT64 - d.Total() then Err(BadPayload)
    else
      var users := c.users[r.user := u + d.Total()];
      var rows := c.rows + RowsFor(node, id, r, d);
      if r.tenant == 0 then Ok(Collected(users, c.tenants, rows))
      else
        var t := Current(c.tenants, r.tenant);
        if t.inBytes > MAX_INT64 - d.inBytes || t.outBytes > MAX_INT64 - d.outBytes then Err(BadPayload)
        else
          Ok(Collected(users, c.tenants[r.tenant := Delta(t.inBytes + d.inBytes, t.outBytes + d.outBytes)], rows))
  }

  /** The second loop, over the first n rules: bytes per user and tenant, and the rows to insert. */
  function Collect(s: State, node: Node, ids: seq<Id>, d: map<Id, Delta>, n: nat): Result<Collected, Error>
    requires n <= |ids| && forall k | 0 <= k < n :: ids[k] in s.rules && ids[k] in d
  {
    if n == 0 then Ok(Collected(map[], map[], []))
    else
      var prev := Collect(s, node, ids, d, n - 1);
      if prev.Err? then prev
      else CollectRule(prev.value, node, ids[n - 1], s.rules[ids[n - 1]], d[ids[n - 1]])
  }

  function Counted(r: Rule, d: Delta): Rule {
    r.(inBytes := r.inBytes + d.inBytes, outBytes := r.outBytes + d.outBytes)
  }

  function AddCounters(s: State, d: map<Id, Delta>): State {
    s.(rules := map id | id in s.rules :: if id in d then Counted(s.rules[id], d[id]) else s.rules[id])
  }

  datatype Charged = Charged(state: State, spent: seq<Id>)

  function UserCharged(u: User, bytes: int): User {
    u.(used := u.used + bytes)
  }

  function ChargeUser(c: Charged, user: Id, bytes: int): Result<Charged, Error> {
    if user !in c.state.users then Err(NotFound)
    else
      var u := c.state.users[user];
      if u.used > MAX_INT64 - bytes then Err(BadPayload)
      else
        var u' := UserCharged(u, bytes);
        Ok(Charged(c.state.(users := c.state.users[user := u']),
                   if UserSpent(u') then c.spent + [user] else c.spent))
  }

  function ChargeUsers(s: State, bytes: map<Id, int>, ids: seq<Id>, n: nat): Result<Charged, Error>
    requires n <= |ids| && forall k | 0 <= k < n :: ids[k] in bytes
  {
    if n == 0 then Ok(Charged(s, []))
    else
      var prev := ChargeUsers(s, bytes, ids, n - 1);
      if prev.Err? then prev else ChargeUser(prev.value, ids[n - 1], bytes[ids[n - 1]])
  }

  function HourOf(now: int): int {
    now - now % HOUR
  }

  function AddToBucket(b: map<BucketKey, Bucket>, key: BucketKey, d: Delta): map<BucketKey, Bucket> {
    var row := if key in b then b[key] else Bucket(0, 0, 0);
    b[key := Bucket(row.inBytes + d.inBytes, row.outBytes + d.outBytes, row.billed + d.Total())]
  }

  /** The tenant row and its hourly bucket after adding one report's bytes. */
  function Billed(s: State, tenant: Id, d: Delta, now: int): State
    requires tenant in s.tenants
  {
    var t := s.tenants[tenant];
    s.(tenants := s.tenants[tenant := t.(used := t.used + d.Total())],
       ledger := s.ledger.(buckets := AddToBucket(s.ledger.buckets, BucketKey(tenant, HourOf(now)), d)))
  }

  function ChargeTenant(s: State, tenant: Id, d: Delta, now: int): Result<State, Error> {
    if tenant !in s.tenants then Err(NotFound)
    else
      var s1 := RollTenantPeriod(s, tenant, now);
      var t := s1.tenants[tenant];
      if d.inBytes > MAX_INT64 - d.outBytes || t.used > MAX_INT64 - d.Total() then Err(BadPayload)
      else
        Ok(ReconcileTenantQuota(Billed(s1, tenant, d, now), tenant, now))
  }

  function ChargeTenants(s: State, d: map<Id, Delta>, ids: seq<Id>, n: nat, now: int): Result<State, Error>
    requires n <= |ids| && forall k | 0 <= k < n :: ids[k] in d
  {
    if n == 0 then Ok(s)
    else
      var prev := ChargeTenants(s, d, ids, n - 1, now);
      if prev.Err? then prev else ChargeTenant(prev.value, ids[n - 1], d[ids[n - 1]], now)
  }

  function ExhaustUsers(s: State, users: seq<Id>, n: nat): State
    requires n <= |users|
  {
    if n == 0 then s else ExhaustUserQuota(ExhaustUsers(s, users, n - 1), users[n - 1])
  }

  /** A rule belongs to a node when its tunnel enters through the node's device group. */
  predicate OwnedByNode(s: State, node: Node, rule: Id) {
    rule in s.rules && s.rules[rule].tunnel in s.net.tunnelGroup
    && s.net.tunnelGroup[s.rules[rule].tunnel] == node.group
  }

  /** The last three loops: charge users, charge tenants, turn off the rules of spent users. */
  function Settle(s: State, col: Collected, now: int): Result<State, Error> {
    var users := Sorted(col.users.Keys);
    var cu := ChargeUsers(s, col.users, users, |users|);
    if cu.Err? then Err(cu.error)
    else
      var tenants := Sorted(col.tenants.Keys);
      var ct := ChargeTenants(cu.value.state, col.tenants, tenants, |tenants|, now);
      if ct.Err? then ct else Ok(ExhaustUsers(ct.value, cu.value.spent, |cu.value.spent|))
  }

  function Recorded(s: State, col: Collected, d: map<Id, Delta>): State {
    AddCounters(s.(ledger := s.ledger.(rows := s.ledger.rows + col.rows)), d)
  }

  function AccountTraffic(s: State, node: Node, samples: seq<Sample>, now: int): Result<State, Error> {
    var agg := Aggregate(samples);
    if agg.Err? then Err(agg.error)
    else if agg.value == map[] then Ok(s)
    else
      var d := agg.value;
      var ids := Sorted(d.Keys);
      if exists id | id in d :: !OwnedByNode(s, node, id) then Err(Forbidden)
      else
        var col := Collect(s, node, ids, d, |ids|);
        if col.Err? then Err(col.error) else Settle(Recorded(s, col.value, d), col.value, now)
  }

  /** The checks agentTraffic makes before it opens the transaction; the sum may wrap in Go. */
  predicate ValidSample(x: Sample) {
    x.rule != 0 && x.inBytes >= 0 && x.outBytes >= 0 && Wrap64(x.inBytes + x.outBytes) >= 0
  }

  /** agentTraffic: validate, claim the report id, account; any error rolls everything back. */
  function AgentTraffic(s: State, node: Node, reportId: string, samples: seq<Sample>, now: int): (State, Response) {
    var key := MarkerKey(node.id, reportId);
    if |samples| > MAX_SAMPLES || |reportId| > MAX_REPORT_ID
       || exists k | 0 <= k < |samples| :: !ValidSample(samples[k])
    then (s, Rejected(BadPayload))
    else if reportId != "" && key in s.ledger.markers then (s, Accepted(s.ledger.markers[key], true))
    else
      var s1 := if reportId == "" then s else s.(ledger := s.ledger.(markers := s.ledger.markers[key := |samples|]));
      var r := AccountTraffic(s1, node, samples, now);
      if r.Err? then (s, Rejected(r.error)) else (r.value, Accepted(|samples|, false))
  }

  // ---- sums over the samples of a report ----

  function Bytes(x: Sample, dir: Direction): int {
    if dir == In then x.inBytes else x.outBytes
  }

  /** Bytes in one direction that the report carries for the rules in set rules. */
  ghost function SumFor(samples: seq<Sample>, dir: Direction, rules: set<Id>): int {
    if samples == [] then 0
    else
      var last := samples[|samples| - 1];
      SumFor(samples[..|samples| - 1], dir, rules) + (if last.rule in rules then Bytes(last, dir) else 0)
  }

  ghost function TotalFor(samples: seq<Sample>, rules: set<Id>): int {
    SumFor(samples, In, rules) + SumFor(samples, Out, rules)
  }

  ghost function RulesIn(samples: seq<Sample>): set<Id> {
    set k | 0 <= k < |samples| :: samples[k].rule
  }

  ghost predicate AllValid(samples: seq<Sample>) {
    forall k | 0 <= k < |samples| :: ValidSample(samples[k])
  }

  lemma {:induction false} SumSplits(samples: seq<Sample>, dir: Direction, a: set<Id>, b: set<Id>)
    requires a !! b
    ensures SumFor(samples, dir, a + b) == SumFor(samples, dir, a) + SumFor(samples, dir, b)
  {
    if samples != [] {
      SumSplits(samples[..|samples| - 1], dir, a, b);
    }
  }

  lemma {:induction false} SumGrows(samples: seq<Sample>, dir: Direction, a: set<Id>, b: set<Id>)
    requires AllValid(samples) && a <= b
    ensures 0 <= SumFor(samples, dir, a) <= SumFor(samples, dir, b)
  {
    if samples != [] {
      var n := |samples| - 1;
      assert ValidSample(samples[n]);
      assert forall k | 0 <= k < n :: samples[..n][k] == samples[k];
      SumGrows(samples[..n], dir, a, b);
    }
  }

  lemma SumOnlySeen(samples: seq<Sample>, dir: Direction, a: set<Id>)
    ensures SumFor(samples, dir, a) == SumFor(samples, dir, a * RulesIn(samples))
  {
    SumMeets(samples, dir, a, RulesIn(samples));
  }

  lemma {:induction false} SumMeets(samples: seq<Sample>, dir: Direction, a: set<Id>, seen: set<Id>)
    requires RulesIn(samples) <= seen
    ensures SumFor(samples, dir, a) == SumFor(samples, dir, a * seen)
  {
    if samples != [] {
      var n := |samples| - 1;
      assert samples[n].rule in RulesIn(samples);
      forall x | x in RulesIn(samples[..n]) ensures x in seen {
        var k :| 0 <= k < n && samples[..n][k].rule == x;
        assert samples[k].rule in RulesIn(samples);
      }
      SumMeets(samples[..n], dir, a, seen);
    }
  }

  lemma RulesInSnoc(samples: seq<Sample>)
    requires samples != []
    ensures RulesIn(samples) == RulesIn(samples[..|samples| - 1]) + {samples[|samples| - 1].rule}
  {
    var n := |samples| - 1;
    forall x | x in RulesIn(samples) ensures x in RulesIn(samples[..n]) + {samples[n].rule} {
      var k :| 0 <= k < |samples| && samples[k].rule == x;
      if k < n { assert samples[..n][k].rule == x; }
    }
    forall x | x in RulesIn(samples[..n]) ensures x in RulesIn(samples) {
      var k :| 0 <= k < n && samples[..n][k].rule == x;
      assert samples[k].rule == x;
    }
  }

  // ---- aggregation per rule ----

  lemma {:induction false} AggregateSums(samples: seq<Sample>)
    requires AllValid(samples) && Aggregate(samples).Ok?
    ensures Aggregate(samples).value.Keys == RulesIn(samples)
    ensures forall r, dir | r in Aggregate(samples).value ::
              DeltaBytes(Aggregate(samples).value[r], dir) == SumFor(samples, dir, {r})
    ensures forall r | r in Aggregate(samples).value ::
              TotalFor(samples, {r}) <= MAX_INT64
  {
    if samples != [] {
      var n := |samples| - 1;
      assert forall k | 0 <= k < n :: samples[..n][k] == samples[k];
      AggregateSums(samples[..n]);
      RulesInSnoc(samples);
      var x := samples[n];
      if x.rule !in RulesIn(samples[..n]) {
        SumOnlySeen(samples[..n], In, {x.rule});
        SumOnlySeen(samples[..n], Out, {x.rule});
        assert {x.rule} * RulesIn(samples[..n]) == {};
        SumOfNone(samples[..n], In);
        SumOfNone(samples[..n], Out);
      }
    }
  }

  function DeltaBytes(d: Delta, dir: Direction): int {
    if dir == In then d.inBytes else d.outBytes
  }

  lemma {:induction false} SumOfNone(samples: seq<Sample>, dir: Direction)
    ensures SumFor(samples, dir, {}) == 0
  {
    if samples != [] { SumOfNone(samples[..|samples| - 1], dir); }
  }

  /** The guards in the first loop reject only reports that really carry too much for one rule. */
  lemma {:induction false} AggregateFits(samples: seq<Sample>)
    requires AllValid(samples)
    requires forall r | r in RulesIn(samples) :: TotalFor(samples, {r}) <= MAX_INT64
    ensures Aggregate(samples).Ok?
  {
    if samples != [] {
      var n := |samples| - 1;
      var front := samples[..n];
      assert forall k | 0 <= k < n :: front[k] == samples[k];
      RulesInSnoc(samples);
      assert ValidSample(samples[n]);
      forall r | r in RulesIn(front) ensures TotalFor(front, {r}) <= MAX_INT64 {
        assert TotalFor(samples, {r}) <= MAX_INT64;
      }
      AggregateFits(front);
      AggregateSums(front);
      var x := samples[n];
      SumGrows(front, In, {x.rule}, {x.rule});
      SumGrows(front, Out, {x.rule}, {x.rule});
      assert TotalFor(samples, {x.rule}) <= MAX_INT64;
      var d := Aggregate(front).value;
      if x.rule in d {
        assert DeltaBytes(d[x.rule], In) == SumFor(front, In, {x.rule});
        assert DeltaBytes(d[x.rule], Out) == SumFor(front, Out, {x.rule});
      }
    }
  }
}
