/** The theorems about a whole report: acceptance, conservation and exactness. */
module Report {
  import opened Common
  import opened Store
  import opened Quota
  import opened Accounting
  import opened Ports
  import opened AccountingFacts
  import opened ReportFacts

  /** The report carries at least one sample for a rule of the group. */
  ghost predicate Touched(samples: seq<Sample>, group: set<Id>) {
    group * RulesIn(samples) != {}
  }

  lemma FirstIsAll(ids: seq<Id>, keys: set<Id>)
    requires ids == Sorted(keys)
    ensures First(ids, |ids|) == keys && Distinct(ids)
  {
    forall x | x in keys ensures x in First(ids, |ids|) {
      assert x in ids;
    }
    forall i, j | 0 <= i < j < |ids| ensures ids[i] != ids[j] {
      SortedIncreases(keys, i, j);
    }
  }

  /** What accountAgentTrafficTx holds after its first two loops. */
  ghost predicate Loaded(s: State, node: Node, samples: seq<Sample>, d: map<Id, Delta>, ids: seq<Id>, col: Collected) {
    && Gathered(s, samples, d, ids) && ids == Sorted(d.Keys)
    && Collect(s, node, ids, d, |ids|) == Ok(col)
  }

  lemma UserTotal(s: State, node: Node, samples: seq<Sample>, d: map<Id, Delta>, ids: seq<Id>, col: Collected, u: Id)
    requires Loaded(s, node, samples, d, ids, col)
    ensures u in col.users <==> Touched(samples, OwnedBy(s, u))
    ensures UserBytes(col, u) == TotalFor(samples, OwnedBy(s, u)) >= 0
  {
    var group := OwnedBy(s, u);
    AggregateSums(samples);
    FirstIsAll(ids, d.Keys);
    CollectUserSum(s, node, samples, d, ids, |ids|, u);
    SumOnlySeen(samples, In, group);
    SumOnlySeen(samples, Out, group);
    SumGrows(samples, In, group, group);
    SumGrows(samples, Out, group, group);
  }

  lemma TenantTotal(s: State, node: Node, samples: seq<Sample>, d: map<Id, Delta>, ids: seq<Id>, col: Collected,
                    t: Id, dir: Direction)
    requires Loaded(s, node, samples, d, ids, col) && t != 0
    ensures t in col.tenants <==> Touched(samples, OfTenant(s, t))
    ensures DeltaBytes(Current(col.tenants, t), dir) == SumFor(samples, dir, OfTenant(s, t)) >= 0
  {
    AggregateSums(samples);
    FirstIsAll(ids, d.Keys);
    CollectTenantSum(s, node, samples, d, ids, |ids|, t, dir);
    SumOnlySeen(samples, dir, OfTenant(s, t));
    SumGrows(samples, dir, OfTenant(s, t), OfTenant(s, t));
  }

  lemma RowTotal(s: State, node: Node, samples: seq<Sample>, d: map<Id, Delta>, ids: seq<Id>, col: Collected,
                 dir: Direction, rules: set<Id>)
    requires Loaded(s, node, samples, d, ids, col)
    ensures RowsSum(col.rows, dir, rules) == SumFor(samples, dir, rules)
  {
    AggregateSums(samples);
    FirstIsAll(ids, d.Keys);
    CollectRowSum(s, node, samples, d, ids, |ids|, dir, rules);
    SumOnlySeen(samples, dir, rules);
  }

  lemma {:induction false} CollectedTenants(s: State, node: Node, ids: seq<Id>, d: map<Id, Delta>, n: nat)
    requires n <= |ids| && forall k | 0 <= k < n :: ids[k] in s.rules && ids[k] in d
    requires Collect(s, node, ids, d, n).Ok?
    ensures 0 !in Collect(s, node, ids, d, n).value.tenants
  {
    if n > 0 { CollectedTenants(s, node, ids, d, n - 1); }
  }

  // ---- the last three loops ----

  ghost predicate Payable(s: State, col: Collected) {
    && (forall u | u in col.users :: u in s.users && col.users[u] >= 0)
    && (forall t | t in col.tenants ::
          t in s.tenants && col.tenants[t].inBytes >= 0 && col.tenants[t].outBytes >= 0)
  }

  ghost predicate Fits(s: State, col: Collected, now: int)
    requires Payable(s, col)
  {
    && (forall u | u in col.users :: s.users[u].used + col.users[u] <= MAX_INT64)
    && (forall t | t in col.tenants :: UsedAfterRoll(s.tenants[t], now) + col.tenants[t].Total() <= MAX_INT64)
  }

  /** Sorting the touched users and tenants gives each exactly once. */
  lemma Enumerated(s: State, col: Collected)
    requires Payable(s, col)
    ensures Chargeable(s, col.users, Sorted(col.users.Keys))
    ensures First(Sorted(col.users.Keys), |Sorted(col.users.Keys)|) == col.users.Keys
    ensures Billable(s, col.tenants, Sorted(col.tenants.Keys))
    ensures First(Sorted(col.tenants.Keys), |Sorted(col.tenants.Keys)|) == col.tenants.Keys
  {
    FirstIsAll(Sorted(col.users.Keys), col.users.Keys);
    FirstIsAll(Sorted(col.tenants.Keys), col.tenants.Keys);
  }

  lemma SettleAccepts(s: State, col: Collected, now: int)
    requires QuotaExact(s) && Payable(s, col) && Fits(s, col, now)
    ensures Settle(s, col, now).Ok?
  {
    Enumerated(s, col);
    var users := Sorted(col.users.Keys);
    UsersFit(s, col.users, users, |users|);
    UsersCharged(s, col.users, users, |users|);
    ChargedUsersExact(s, col.users, users);
    var tenants := Sorted(col.tenants.Keys);
    TenantsFit(ChargeUsers(s, col.users, users, |users|).value.state, col.tenants, tenants, |tenants|, now);
  }

  lemma SettleExact(s: State, col: Collected, now: int)
    requires QuotaExact(s) && Payable(s, col) && Settle(s, col, now).Ok?
    ensures QuotaExact(Settle(s, col, now).value)
  {
    Enumerated(s, col);
    var users := Sorted(col.users.Keys);
    UsersCharged(s, col.users, users, |users|);
    ChargedUsersExact(s, col.users, users);
    var tenants := Sorted(col.tenants.Keys);
    var cu := ChargeUsers(s, col.users, users, |users|).value;
    ChargedThenSettled(cu, col.tenants, tenants, now, ChargeTenants(cu.state, col.tenants, tenants, |tenants|, now).value);
  }

  /** With the spent users still unsettled, the tenants are charged, and then those users are settled. */
  lemma ChargedThenSettled(cu: Charged, d: map<Id, Delta>, tenants: seq<Id>, now: int, ct: State)
    requires var pending := set u | u in cu.spent;
             ExactExcept(cu.state, pending) && forall u | u in pending :: Spent(cu.state, u)
    requires TenantsExact(cu.state) && Billable(cu.state, d, tenants)
    requires ChargeTenants(cu.state, d, tenants, |tenants|, now) == Ok(ct)
    ensures QuotaExact(ExhaustUsers(ct, cu.spent, |cu.spent|))
  {
    var pending := set u | u in cu.spent;
    ChargedTenantsExact(cu.state, d, tenants, |tenants|, now, pending);
    TenantsWrite(cu.state, d, tenants, |tenants|, now);
    forall k | 0 <= k < |cu.spent| ensures Spent(ct, cu.spent[k]) {
      assert cu.spent[k] in pending;
    }
    ExhaustedUsersExact(ct, cu.spent, |cu.spent|, pending);
    assert pending - First(cu.spent, |cu.spent|) == {};
  }

  /** The three loops as state changes: users only, then billing, then statuses. */
  ghost predicate Chain(s: State, a: State, b: State, c: State) {
    && a == s.(users := a.users) && BillingWrites(a, b)
    && QuotaWrites(b, c) && OnlyStops(b, c) && c.tenants == b.tenants
  }

  lemma ChainWrites(s: State, a: State, b: State, c: State)
    requires Chain(s, a, b, c)
    ensures BillingWrites(s.(users := c.users), c) && c.users == a.users
  {
    forall r | r in a.rules ensures StatusWrite(a.rules[r], c.rules[r]) {
      assert StatusWrite(a.rules[r], b.rules[r]) && StatusWrite(b.rules[r], c.rules[r]);
    }
  }

  lemma ChainOutcome(s: State, a: State, b: State, c: State, d: map<Id, Delta>, t: Id, now: int)
    requires Chain(s, a, b, c) && t in s.tenants
    requires TenantOutcome(a, b, t, d, d.Keys, now)
    ensures TenantOutcome(s, c, t, d, d.Keys, now)
  {
    assert c.ledger == b.ledger && a.ledger == s.ledger && a.tenants == s.tenants;
    assert forall key :: BucketOf(c, key) == BucketOf(b, key) && BucketOf(a, key) == BucketOf(s, key);
  }

  lemma UsersPart(s: State, col: Collected, users: seq<Id>) returns (a: State)
    requires Payable(s, col) && users == Sorted(col.users.Keys) && ChargeUsers(s, col.users, users, |users|).Ok?
    ensures a == ChargeUsers(s, col.users, users, |users|).value.state
    ensures a == s.(users := a.users) && a.users.Keys == s.users.Keys
    ensures forall u | u in s.users :: a.users[u] == UserCharged(s.users[u], UserBytes(col, u))
    ensures forall u | u in col.users :: a.users[u].used <= MAX_INT64
  {
    Enumerated(s, col);
    UsersCharged(s, col.users, users, |users|);
    a := ChargeUsers(s, col.users, users, |users|).value.state;
  }

  lemma TenantsPart(s: State, col: Collected, tenants: seq<Id>, now: int) returns (b: State)
    requires TenantsExact(s) && Payable(s, col) && tenants == Sorted(col.tenants.Keys)
    requires ChargeTenants(s, col.tenants, tenants, |tenants|, now).Ok?
    ensures b == ChargeTenants(s, col.tenants, tenants, |tenants|, now).value
    ensures BillingWrites(s, b)
    ensures forall t | t in s.tenants :: TenantOutcome(s, b, t, col.tenants, col.tenants.Keys, now)
  {
    Enumerated(s, col);
    TenantsWrite(s, col.tenants, tenants, |tenants|, now);
    b := ChargeTenants(s, col.tenants, tenants, |tenants|, now).value;
    forall t | t in s.tenants ensures TenantOutcome(s, b, t, col.tenants, col.tenants.Keys, now) {
      TenantsCharged(s, col.tenants, tenants, |tenants|, now, t);
    }
  }

  lemma SettleChain(s: State, col: Collected, now: int) returns (a: State, b: State)
    requires QuotaExact(s) && Payable(s, col) && Settle(s, col, now).Ok?
    ensures Chain(s, a, b, Settle(s, col, now).value) && a.users.Keys == s.users.Keys
    ensures forall u | u in s.users :: a.users[u] == UserCharged(s.users[u], UserBytes(col, u))
    ensures forall u | u in col.users :: a.users[u].used <= MAX_INT64
    ensures forall t | t in s.tenants :: TenantOutcome(a, b, t, col.tenants, col.tenants.Keys, now)
  {
    a := UsersPart(s, col, Sorted(col.users.Keys));
    b := TenantsPart(a, col, Sorted(col.tenants.Keys), now);
    var users := Sorted(col.users.Keys);
    var spent := ChargeUsers(s, col.users, users, |users|).value.spent;
    ExhaustUsersWrites(b, spent, |spent|);
  }

  /** Which columns the last three loops write, and what they write to users and tenants. */
  lemma SettleWrites(s: State, col: Collected, now: int)
    requires QuotaExact(s) && Payable(s, col) && Settle(s, col, now).Ok?
    ensures var s' := Settle(s, col, now).value;
            && BillingWrites(s.(users := s'.users), s') && s'.users.Keys == s.users.Keys
            && (forall u | u in s.users :: s'.users[u] == UserCharged(s.users[u], UserBytes(col, u)))
            && (forall u | u in col.users :: s'.users[u].used <= MAX_INT64)
            && (forall t | t in s.tenants :: TenantOutcome(s, s', t, col.tenants, col.tenants.Keys, now))
  {
    var a, b := SettleChain(s, col, now);
    var s' := Settle(s, col, now).value;
    ChainWrites(s, a, b, s');
    forall t | t in s.tenants ensures TenantOutcome(s, s', t, col.tenants, col.tenants.Keys, now) {
      ChainOutcome(s, a, b, s', col.tenants, t, now);
    }
  }

  // ---- the whole transaction ----

  lemma RecordedExact(s: State, col: Collected, d: map<Id, Delta>)
    requires QuotaExact(s)
    ensures QuotaExact(Recorded(s, col, d))
  {
    var s' := Recorded(s, col, d);
    forall r | r in s'.rules ensures RuleExact(s', s'.rules[r], {}) {
      assert RuleExact(s, s.rules[r], {});
    }
  }

  /** Every sample is for a rule whose tunnel enters through the node's device group. */
  ghost predicate AllOwned(s: State, node: Node, samples: seq<Sample>) {
    forall r | r in RulesIn(samples) :: r in s.rules && GroupOf(s, s.rules[r]) == Some(node.group)
  }

  /** The report fits under every int64 total it would be added to. */
  ghost predicate ReportFits(s: State, samples: seq<Sample>, now: int) {
    && (forall u | u in s.users && Touched(samples, OwnedBy(s, u)) ::
          s.users[u].used + TotalFor(samples, OwnedBy(s, u)) <= MAX_INT64)
    && (forall t | t in s.tenants && t != 0 && Touched(samples, OfTenant(s, t)) ::
          UsedAfterRoll(s.tenants[t], now) + TotalFor(samples, OfTenant(s, t)) <= MAX_INT64)
  }

  lemma AccountedParts(s: State, node: Node, samples: seq<Sample>, now: int, d: map<Id, Delta>, ids: seq<Id>)
      returns (col: Collected)
    requires Aggregate(samples) == Ok(d) && d != map[] && ids == Sorted(d.Keys) && AccountTraffic(s, node, samples, now).Ok?
    ensures forall r | r in d :: OwnedByNode(s, node, r)
    ensures Collect(s, node, ids, d, |ids|) == Ok(col)
    ensures AccountTraffic(s, node, samples, now) == Settle(Recorded(s, col, d), col, now)
  {
    col := Collect(s, node, ids, d, |ids|).value;
  }

  /** A successful report with samples, seen from just before its last three loops. */
  lemma LoadedFrom(s: State, node: Node, samples: seq<Sample>, now: int)
      returns (d: map<Id, Delta>, ids: seq<Id>, col: Collected)
    requires QuotaExact(s) && AllValid(samples) && samples != [] && AccountTraffic(s, node, samples, now).Ok?
    ensures Loaded(s, node, samples, d, ids, col) && AllOwned(s, node, samples)
    ensures AccountTraffic(s, node, samples, now) == Settle(Recorded(s, col, d), col, now)
  {
    d, ids := LoadedKeys(s, node, samples);
    col := AccountedParts(s, node, samples, now, d, ids);
    OwnedMeans(s, node, samples, d);
  }

  lemma OwnedMeans(s: State, node: Node, samples: seq<Sample>, d: map<Id, Delta>)
    requires d.Keys == RulesIn(samples) && forall r | r in d :: OwnedByNode(s, node, r)
    ensures AllOwned(s, node, samples)
  {
    forall r | r in RulesIn(samples) ensures r in s.rules && GroupOf(s, s.rules[r]) == Some(node.group) {
      assert r in d && OwnedByNode(s, node, r);
    }
  }

  lemma LoadedKeys(s: State, node: Node, samples: seq<Sample>) returns (d: map<Id, Delta>, ids: seq<Id>)
    requires AllValid(samples) && samples != [] && Aggregate(samples).Ok?
    ensures Aggregate(samples) == Ok(d) && d.Keys == RulesIn(samples) && d != map[] && ids == Sorted(d.Keys)
    ensures First(ids, |ids|) == d.Keys && Distinct(ids)
  {
    AggregateSums(samples);
    d := Aggregate(samples).value;
    assert samples[0].rule in RulesIn(samples);
    ids := Sorted(d.Keys);
    FirstIsAll(ids, d.Keys);
  }

  lemma LoadedPays(s: State, node: Node, samples: seq<Sample>, d: map<Id, Delta>, ids: seq<Id>, col: Collected)
    requires QuotaExact(s) && Loaded(s, node, samples, d, ids, col)
    ensures Payable(Recorded(s, col, d), col)
  {
    forall u | u in col.users ensures u in s.users && col.users[u] >= 0 {
      UserTotal(s, node, samples, d, ids, col, u);
      var r :| r in OwnedBy(s, u);
    }
    CollectedTenants(s, node, ids, d, |ids|);
    forall t | t in col.tenants ensures t in s.tenants && col.tenants[t].inBytes >= 0 && col.tenants[t].outBytes >= 0 {
      TenantTotal(s, node, samples, d, ids, col, t, In);
      TenantTotal(s, node, samples, d, ids, col, t, Out);
      var r :| r in OfTenant(s, t);
      assert s.users[s.rules[r].user].tenant == t;
    }
  }

  lemma LoadedUsersFit(s: State, node: Node, samples: seq<Sample>, d: map<Id, Delta>, ids: seq<Id>, col: Collected)
    requires Linked(s) && Loaded(s, node, samples, d, ids, col)
    requires Payable(Recorded(s, col, d), col)
    ensures (forall u | u in col.users :: s.users[u].used + col.users[u] <= MAX_INT64)
            <==> (forall u | u in s.users && Touched(samples, OwnedBy(s, u)) ::
                    s.users[u].used + TotalFor(samples, OwnedBy(s, u)) <= MAX_INT64)
  {
    forall u | u in s.users
      ensures u in col.users <==> Touched(samples, OwnedBy(s, u))
      ensures u in col.users ==> col.users[u] == TotalFor(samples, OwnedBy(s, u))
    {
      UserTotal(s, node, samples, d, ids, col, u);
    }
  }

  lemma LoadedTenantsFit(s: State, node: Node, samples: seq<Sample>, d: map<Id, Delta>, ids: seq<Id>, col: Collected, now: int)
    requires Linked(s) && Loaded(s, node, samples, d, ids, col)
    requires Payable(Recorded(s, col, d), col)
    ensures (forall t | t in col.tenants :: UsedAfterRoll(s.tenants[t], now) + col.tenants[t].Total() <= MAX_INT64)
            <==> (forall t | t in s.tenants && t != 0 && Touched(samples, OfTenant(s, t)) ::
                    UsedAfterRoll(s.tenants[t], now) + TotalFor(samples, OfTenant(s, t)) <= MAX_INT64)
  {
    CollectedTenants(s, node, ids, d, |ids|);
    forall t | t in s.tenants && t != 0
      ensures t in col.tenants <==> Touched(samples, OfTenant(s, t))
      ensures t in col.tenants ==> col.tenants[t].Total() == TotalFor(samples, OfTenant(s, t))
    {
      TenantTotal(s, node, samples, d, ids, col, t, In);
      TenantTotal(s, node, samples, d, ids, col, t, Out);
    }
  }

  lemma LoadedFits(s: State, node: Node, samples: seq<Sample>, d: map<Id, Delta>, ids: seq<Id>, col: Collected, now: int)
    requires Linked(s) && Loaded(s, node, samples, d, ids, col)
    requires Payable(Recorded(s, col, d), col)
    ensures Fits(Recorded(s, col, d), col, now) <==> ReportFits(s, samples, now)
  {
    LoadedUsersFit(s, node, samples, d, ids, col);
    LoadedTenantsFit(s, node, samples, d, ids, col, now);
  }

  lemma UntouchedIsZero(samples: seq<Sample>, group: set<Id>)
    requires !Touched(samples, group)
    ensures TotalFor(samples, group) == 0
  {
    SumOnlySeen(samples, In, group);
    SumOnlySeen(samples, Out, group);
    SumOfNone(samples, In);
    SumOfNone(samples, Out);
  }

  /** Group totals of a report that fits: within int64 even before adding what is already used. */
  lemma GroupsFit(s: State, samples: seq<Sample>, now: int)
    requires QuotaExact(s) && AllValid(samples) && ReportFits(s, samples, now)
    ensures forall u | u in s.users :: TotalFor(samples, OwnedBy(s, u)) <= MAX_INT64
    ensures forall t | t in s.tenants :: TotalFor(samples, OfTenant(s, t)) <= MAX_INT64
  {
    forall u | u in s.users ensures TotalFor(samples, OwnedBy(s, u)) <= MAX_INT64 {
      if !Touched(samples, OwnedBy(s, u)) { UntouchedIsZero(samples, OwnedBy(s, u)); }
    }
    forall t | t in s.tenants ensures TotalFor(samples, OfTenant(s, t)) <= MAX_INT64 {
      assert TenantExact(s.tenants[t]);
      if !Touched(samples, OfTenant(s, t)) { UntouchedIsZero(samples, OfTenant(s, t)); }
    }
  }

  lemma FittingReportLoads(s: State, node: Node, samples: seq<Sample>, now: int)
    requires QuotaExact(s) && AllValid(samples) && AllOwned(s, node, samples) && ReportFits(s, samples, now)
    ensures Aggregate(samples).Ok? && Aggregate(samples).value.Keys == RulesIn(samples)
    ensures var d := Aggregate(samples).value; var ids := Sorted(d.Keys);
            Gathered(s, samples, d, ids) && Collect(s, node, ids, d, |ids|).Ok?
  {
    GroupsFit(s, samples, now);
    forall r | r in RulesIn(samples) ensures TotalFor(samples, {r}) <= MAX_INT64 {
      assert OwnedByNode(s, node, r);
      SumGrows(samples, In, {r}, OwnedBy(s, s.rules[r].user));
      SumGrows(samples, Out, {r}, OwnedBy(s, s.rules[r].user));
    }
    AggregateFits(samples);
    AggregateSums(samples);
    var d := Aggregate(samples).value;
    var ids := Sorted(d.Keys);
    FirstIsAll(ids, d.Keys);
    forall k | 0 <= k < |ids| ensures ids[k] in s.rules && ids[k] in d {
      assert OwnedByNode(s, node, ids[k]);
    }
    CollectFits(s, node, samples, d, ids, |ids|);
  }

  lemma AcceptedFits(s: State, node: Node, samples: seq<Sample>, now: int)
    requires QuotaExact(s) && AllValid(samples) && samples != [] && AccountTraffic(s, node, samples, now).Ok?
    ensures AllOwned(s, node, samples) && ReportFits(s, samples, now)
  {
    var d, ids, col := LoadedFrom(s, node, samples, now);
    LoadedPays(s, node, samples, d, ids, col);
    RecordedExact(s, col, d);
    SettledFits(Recorded(s, col, d), col, now);
    LoadedFits(s, node, samples, d, ids, col, now);
  }

  lemma FittingAccepted(s: State, node: Node, samples: seq<Sample>, now: int)
    requires QuotaExact(s) && AllValid(samples) && samples != []
    requires AllOwned(s, node, samples) && ReportFits(s, samples, now)
    ensures AccountTraffic(s, node, samples, now).Ok?
  {
    FittingReportLoads(s, node, samples, now);
    var d := Aggregate(samples).value;
    var ids := Sorted(d.Keys);
    var col := Collect(s, node, ids, d, |ids|).value;
    LoadedPays(s, node, samples, d, ids, col);
    LoadedFits(s, node, samples, d, ids, col, now);
    RecordedExact(s, col, d);
    SettleAccepts(Recorded(s, col, d), col, now);
  }

  /**
   * The int64 guards are exact: a report is accepted if and only if all its rules belong to the
   * node's entry group and no user or tenant total would leave the int64 range.
   */
  lemma ReportAccepted(s: State, node: Node, samples: seq<Sample>, now: int)
    requires QuotaExact(s) && AllValid(samples)
    ensures AccountTraffic(s, node, samples, now).Ok? <==> AllOwned(s, node, samples) && ReportFits(s, samples, now)
  {
    if samples == [] {
      assert RulesIn(samples) == {};
    } else if AccountTraffic(s, node, samples, now).Ok? {
      AcceptedFits(s, node, samples, now);
    } else if AllOwned(s, node, samples) && ReportFits(s, samples, now) {
      FittingAccepted(s, node, samples, now);
    }
  }

  lemma SettledFits(s: State, col: Collected, now: int)
    requires QuotaExact(s) && Payable(s, col) && Settle(s, col, now).Ok?
    ensures Fits(s, col, now)
  {
    SettleWrites(s, col, now);
    var s' := Settle(s, col, now).value;
    forall t | t in col.tenants ensures UsedAfterRoll(s.tenants[t], now) + col.tenants[t].Total() <= MAX_INT64 {
      assert TenantOutcome(s, s', t, col.tenants, col.tenants.Keys, now);
    }
  }

  lemma ReportKeepsExact(s: State, node: Node, samples: seq<Sample>, now: int)
    requires QuotaExact(s) && AllValid(samples) && AccountTraffic(s, node, samples, now).Ok?
    ensures QuotaExact(AccountTraffic(s, node, samples, now).value)
  {
    if samples != [] {
      var d, ids, col := LoadedFrom(s, node, samples, now);
      LoadedPays(s, node, samples, d, ids, col);
      RecordedExact(s, col, d);
      SettleExact(Recorded(s, col, d), col, now);
    }
  }

  /** What a traffic request must carry to be looked at. */
  predicate WellFormed(reportId: string, samples: seq<Sample>) {
    && |samples| <= 1000 && |reportId| <= 120
    && forall k | 0 <= k < |samples| ::
         samples[k].rule != 0 && 0 <= samples[k].inBytes && 0 <= samples[k].outBytes
         && samples[k].inBytes + samples[k].outBytes <= MAX_INT64
  }

  lemma MarkersAside(s: State, samples: seq<Sample>, node: Node, now: int, s1: State)
    requires QuotaExact(s) && s1 == s.(ledger := s.ledger.(markers := s1.ledger.markers))
    ensures QuotaExact(s1) && (AllOwned(s1, node, samples) <==> AllOwned(s, node, samples))
    ensures ReportFits(s1, samples, now) <==> ReportFits(s, samples, now)
  {
    ExactIgnoresLedger(s, s1.ledger, {});
    forall u ensures OwnedBy(s1, u) == OwnedBy(s, u) && OfTenant(s1, u) == OfTenant(s, u) {
    }
  }

  /**
   * The whole answer to a traffic request: a known report id is answered as before and changes nothing, any other
   * request is accounted if and only if it is well formed, all its own and fits, and then its id is known.
   */
  lemma TrafficAnswered(s: State, node: Node, reportId: string, samples: seq<Sample>, now: int)
    requires QuotaExact(s)
    ensures var (s', answer) := AgentTraffic(s, node, reportId, samples, now); var key := MarkerKey(node.id, reportId);
      var known := reportId != "" && key in s.ledger.markers;
      && (answer.Accepted? <==>
            WellFormed(reportId, samples) && (known || (AllOwned(s, node, samples) && ReportFits(s, samples, now))))
      && (answer.Rejected? ==> s' == s)
      && (answer.Accepted? && known ==> s' == s && answer == Accepted(s.ledger.markers[key], true))
      && (answer.Accepted? && !known ==>
            answer == Accepted(|samples|, false)
            && s'.ledger.markers == if reportId == "" then s.ledger.markers else s.ledger.markers[key := |samples|])
  {
    var key := MarkerKey(node.id, reportId);
    var s1 := if reportId == "" then s else s.(ledger := s.ledger.(markers := s.ledger.markers[key := |samples|]));
    MarkersAside(s, samples, node, now, s1);
    forall k | 0 <= k < |samples|
      ensures ValidSample(samples[k]) == (samples[k].rule != 0 && 0 <= samples[k].inBytes && 0 <= samples[k].outBytes
                                          && samples[k].inBytes + samples[k].outBytes <= MAX_INT64)
    {
    }
    if AllValid(samples) {
      ReportAccepted(s1, node, samples, now);
      if AccountTraffic(s1, node, samples, now).Ok? {
        ReportRules(s1, node, samples, now);
      }
    }
  }

  // ---- conservation ----

  /**
   * The new rows of an accepted report are added behind the old ones, belong to the node and to the owners of its
   * rules, and carry exactly the bytes of its samples, rule by rule.
   */
  lemma ReportRows(s: State, node: Node, samples: seq<Sample>, now: int, dir: Direction, rules: set<Id>)
    requires QuotaExact(s) && AllValid(samples) && AccountTraffic(s, node, samples, now).Ok?
    ensures var rows' := AccountTraffic(s, node, samples, now).value.ledger.rows;
            && s.ledger.rows <= rows' && (forall k | |s.ledger.rows| <= k < |rows'| :: RowOk(s, node, rows'[k]))
            && RowsSum(rows', dir, rules) == RowsSum(s.ledger.rows, dir, rules) + SumFor(samples, dir, rules)
  {
    if samples != [] {
      var d, ids, col := LoadedFrom(s, node, samples, now);
      LoadedPays(s, node, samples, d, ids, col);
      RecordedExact(s, col, d);
      SettleWrites(Recorded(s, col, d), col, now);
      RowTotal(s, node, samples, d, ids, col, dir, rules);
      RowsSumConcat(s.ledger.rows, col.rows, dir, rules);
      CollectedRows(s, node, ids, d, |ids|);
    }
  }

  /** What a report may write to one rule: its counters, and its status within the quota layers. */
  ghost predicate RuleReported(r: Rule, r': Rule, samples: seq<Sample>, id: Id) {
    && r'.inBytes == r.inBytes + SumFor(samples, In, {id})
    && r'.outBytes == r.outBytes + SumFor(samples, Out, {id})
    && r' == r.(status := r'.status, source := r'.source, inBytes := r'.inBytes, outBytes := r'.outBytes)
    && StatusMoves(r, r')
  }

  lemma CountersRecorded(s: State, node: Node, samples: seq<Sample>, d: map<Id, Delta>, ids: seq<Id>, col: Collected, id: Id)
    requires Loaded(s, node, samples, d, ids, col) && id in s.rules
    ensures RuleReported(s.rules[id], Recorded(s, col, d).rules[id], samples, id)
  {
    AggregateSums(samples);
    if id in d {
      DeltaIs(samples, d, id);
    } else {
      assert !Touched(samples, {id});
      forall dir ensures SumFor(samples, dir, {id}) == 0 {
        SumOnlySeen(samples, dir, {id});
        assert {id} * RulesIn(samples) == {};
        SumOfNone(samples, dir);
      }
    }
  }

  /** Rule counters grow by the rule's own samples; nothing that decides ports changes. */
  lemma ReportRules(s: State, node: Node, samples: seq<Sample>, now: int)
    requires QuotaExact(s) && AllValid(samples) && AccountTraffic(s, node, samples, now).Ok?
    ensures var s' := AccountTraffic(s, node, samples, now).value;
            && s'.leases == s.leases && s'.net == s.net && s'.rules.Keys == s.rules.Keys
            && s'.ledger.markers == s.ledger.markers
            && forall id | id in s.rules :: RuleReported(s.rules[id], s'.rules[id], samples, id)
  {
    if samples != [] {
      var d, ids, col := LoadedFrom(s, node, samples, now);
      LoadedPays(s, node, samples, d, ids, col);
      RecordedExact(s, col, d);
      SettleWrites(Recorded(s, col, d), col, now);
      SettledRules(s, node, samples, d, ids, col, AccountTraffic(s, node, samples, now).value);
    }
  }

  lemma SettledRules(s: State, node: Node, samples: seq<Sample>, d: map<Id, Delta>, ids: seq<Id>, col: Collected, s': State)
    requires Loaded(s, node, samples, d, ids, col)
    requires BillingWrites(Recorded(s, col, d).(users := s'.users), s')
    ensures s'.leases == s.leases && s'.net == s.net && s'.rules.Keys == s.rules.Keys && s'.ledger.markers == s.ledger.markers
    ensures forall id | id in s.rules :: RuleReported(s.rules[id], s'.rules[id], samples, id)
  {
    var s1 := Recorded(s, col, d);
    forall id | id in s.rules ensures RuleReported(s.rules[id], s'.rules[id], samples, id) {
      CountersRecorded(s, node, samples, d, ids, col, id);
      assert StatusWrite(s1.rules[id], s'.rules[id]);
    }
  }

  /** Every user is charged exactly the bytes of the samples for rules they own. */
  lemma ReportUsers(s: State, node: Node, samples: seq<Sample>, now: int)
    requires QuotaExact(s) && AllValid(samples) && AccountTraffic(s, node, samples, now).Ok?
    ensures var s' := AccountTraffic(s, node, samples, now).value;
            s'.users.Keys == s.users.Keys
            && forall u | u in s.users :: s'.users[u] == s.users[u].(used := s.users[u].used + TotalFor(samples, OwnedBy(s, u)))
  {
    if samples != [] {
      var d, ids, col := LoadedFrom(s, node, samples, now);
      LoadedPays(s, node, samples, d, ids, col);
      RecordedExact(s, col, d);
      SettleWrites(Recorded(s, col, d), col, now);
      forall u | u in s.users ensures UserBytes(col, u) == TotalFor(samples, OwnedBy(s, u)) {
        UserTotal(s, node, samples, d, ids, col, u);
      }
    }
  }

  /** A touched tenant is rolled if due and billed the bytes of its rules, in its row and its bucket. */
  ghost predicate TenantReported(s: State, s': State, samples: seq<Sample>, t: Id, now: int, hour: int)
    requires t in s.tenants && t in s'.tenants
  {
    var group := OfTenant(s, t);
    var a, b := BucketOf(s, BucketKey(t, hour)), BucketOf(s', BucketKey(t, hour));
    if Touched(samples, group) then
      && s'.tenants[t].used == UsedAfterRoll(s.tenants[t], now) + TotalFor(samples, group)
      && b.inBytes == a.inBytes + SumFor(samples, In, group)
      && b.outBytes == a.outBytes + SumFor(samples, Out, group)
      && b.billed == a.billed + TotalFor(samples, group)
      && OtherHoursKept(s, s', t, hour)
    else TenantUntouched(s, s', t)
  }

  /** hour is the begin of the hour of now, both in nanoseconds. */
  predicate BeginsHourOf(hour: int, now: int) {
    hour % (60 * 60 * 1_000_000_000) == 0 && hour <= now < hour + 60 * 60 * 1_000_000_000
  }

  lemma ReportTenants(s: State, node: Node, samples: seq<Sample>, now: int, t: Id, hour: int)
    requires QuotaExact(s) && AllValid(samples) && AccountTraffic(s, node, samples, now).Ok? && t in s.tenants
    requires BeginsHourOf(hour, now)
    ensures t in AccountTraffic(s, node, samples, now).value.tenants
    ensures TenantReported(s, AccountTraffic(s, node, samples, now).value, samples, t, now, hour)
  {
    assert HourOf(now) == hour;
    if samples != [] {
      var d, ids, col := LoadedFrom(s, node, samples, now);
      LoadedPays(s, node, samples, d, ids, col);
      RecordedExact(s, col, d);
      SettleWrites(Recorded(s, col, d), col, now);
      SettledTenant(s, node, samples, d, ids, col, Recorded(s, col, d), AccountTraffic(s, node, samples, now).value, t, now);
    }
  }

  lemma SettledTenant(s: State, node: Node, samples: seq<Sample>, d: map<Id, Delta>, ids: seq<Id>, col: Collected,
                      s1: State, s': State, t: Id, now: int)
    requires QuotaExact(s) && Loaded(s, node, samples, d, ids, col) && t in s.tenants && t in s'.tenants
    requires s1 == Recorded(s, col, d) && TenantOutcome(s1, s', t, col.tenants, col.tenants.Keys, now)
    ensures TenantReported(s, s', samples, t, now, HourOf(now))
  {
    TenantTotal(s, node, samples, d, ids, col, t, In);
    TenantTotal(s, node, samples, d, ids, col, t, Out);
    OutcomeReported(s, s1, s', samples, t, Current(col.tenants, t), now, HourOf(now));
  }

  lemma SameBuckets(s: State, s1: State, key: BucketKey)
    requires s1.ledger.buckets == s.ledger.buckets
    ensures BucketOf(s1, key) == BucketOf(s, key)
  {
  }

  /** Billed with the report's own bytes, or untouched; the rows recorded before make no difference. */
  lemma OutcomeReported(s: State, s1: State, s': State, samples: seq<Sample>, t: Id, x: Delta, now: int, hour: int)
    requires t in s.tenants && t in s'.tenants && s1.tenants == s.tenants && s1.ledger.buckets == s.ledger.buckets
    requires x.inBytes == SumFor(samples, In, OfTenant(s, t)) && x.outBytes == SumFor(samples, Out, OfTenant(s, t))
    requires if Touched(samples, OfTenant(s, t)) then BilledTo(s1, s', t, x, now, hour) else TenantUntouched(s1, s', t)
    ensures TenantReported(s, s', samples, t, now, hour)
  {
    if Touched(samples, OfTenant(s, t)) {
      BilledAlike(s, s1, s', t, x, now, hour);
    } else {
      UntouchedAlike(s, s1, s', t);
    }
  }

  lemma BilledAlike(s: State, s1: State, s': State, t: Id, x: Delta, now: int, hour: int)
    requires t in s.tenants && t in s'.tenants && s1.tenants == s.tenants && s1.ledger.buckets == s.ledger.buckets
    requires BilledTo(s1, s', t, x, now, hour)
    ensures BilledTo(s, s', t, x, now, hour)
  {
    SameBuckets(s, s1, BucketKey(t, hour));
    forall h | h != hour ensures BucketOf(s', BucketKey(t, h)) == BucketOf(s, BucketKey(t, h)) {
      SameBuckets(s, s1, BucketKey(t, h));
    }
  }

  lemma UntouchedAlike(s: State, s1: State, s': State, t: Id)
    requires t in s.tenants && t in s'.tenants && s1.tenants == s.tenants && s1.ledger.buckets == s.ledger.buckets
    requires TenantUntouched(s1, s', t)
    ensures TenantUntouched(s, s', t)
  {
    forall key ensures BucketOf(s1, key) == BucketOf(s, key) {
      SameBuckets(s, s1, key);
    }
  }
}
