/**
 * One traffic report as a whole: it is accepted exactly when it fits, it adds the same bytes to every
 * table, and it leaves the quota state exact.
 */
module ReportFacts {
  import opened Common
  import opened Store
  import opened Quota
  import opened Accounting
  import opened AccountingFacts

  // ---- users ----

  ghost predicate Chargeable(s: State, bytes: map<Id, int>, ids: seq<Id>) {
    Distinct(ids) && forall k | 0 <= k < |ids| :: ids[k] in s.users && ids[k] in bytes && bytes[ids[k]] >= 0
  }

  lemma {:induction false} UsersCharged(s: State, bytes: map<Id, int>, ids: seq<Id>, n: nat)
    requires Chargeable(s, bytes, ids) && n <= |ids| && ChargeUsers(s, bytes, ids, n).Ok?
    ensures var c := ChargeUsers(s, bytes, ids, n).value;
            && c.state == s.(users := c.state.users) && c.state.users.Keys == s.users.Keys
            && (forall u | u in s.users :: c.state.users[u] ==
                  UserCharged(s.users[u], if u in First(ids, n) then bytes[u] else 0))
            && (forall u | u in First(ids, n) :: c.state.users[u].used <= MAX_INT64)
            && (forall u :: u in c.spent <==> u in First(ids, n) && UserSpent(c.state.users[u]))
  {
    if n > 0 {
      UsersCharged(s, bytes, ids, n - 1);
      assert First(ids, n) == First(ids, n - 1) + {ids[n - 1]};
      assert ids[n - 1] !in First(ids, n - 1);
    }
  }

  lemma {:induction false} UsersFit(s: State, bytes: map<Id, int>, ids: seq<Id>, n: nat)
    requires Chargeable(s, bytes, ids) && n <= |ids|
    requires forall k | 0 <= k < n :: s.users[ids[k]].used + bytes[ids[k]] <= MAX_INT64
    ensures ChargeUsers(s, bytes, ids, n).Ok?
  {
    if n > 0 {
      UsersFit(s, bytes, ids, n - 1);
      UsersCharged(s, bytes, ids, n - 1);
      assert ids[n - 1] !in First(ids, n - 1);
    }
  }

  lemma ChargedUsersExact(s: State, bytes: map<Id, int>, ids: seq<Id>)
    requires QuotaExact(s) && Chargeable(s, bytes, ids) && ChargeUsers(s, bytes, ids, |ids|).Ok?
    ensures var c := ChargeUsers(s, bytes, ids, |ids|).value;
            ExactExcept(c.state, set u | u in c.spent) && forall u | u in c.spent :: Spent(c.state, u)
  {
    var c := ChargeUsers(s, bytes, ids, |ids|).value;
    UsersCharged(s, bytes, ids, |ids|);
    forall r | r in c.state.rules ensures RuleExact(c.state, c.state.rules[r], set u | u in c.spent) {
      assert RuleExact(s, s.rules[r], {});
    }
  }

  lemma {:induction false} ExhaustUsersWrites(s: State, users: seq<Id>, n: nat)
    requires n <= |users|
    ensures QuotaWrites(s, ExhaustUsers(s, users, n)) && OnlyStops(s, ExhaustUsers(s, users, n))
    ensures ExhaustUsers(s, users, n).tenants == s.tenants
  {
    if n > 0 {
      ExhaustUsersWrites(s, users, n - 1);
      ExhaustUserWrites(ExhaustUsers(s, users, n - 1), users[n - 1]);
      QuotaWritesCompose(s, ExhaustUsers(s, users, n - 1), ExhaustUsers(s, users, n));
    }
  }

  lemma {:induction false} ExhaustedUsersExact(s: State, users: seq<Id>, n: nat, pending: set<Id>)
    requires n <= |users| && ExactExcept(s, pending) && forall k | 0 <= k < n :: Spent(s, users[k])
    ensures ExactExcept(ExhaustUsers(s, users, n), pending - First(users, n))
  {
    if n > 0 {
      ExhaustedUsersExact(s, users, n - 1, pending);
      ExhaustUsersWrites(s, users, n - 1);
      ExhaustUserKeeps(ExhaustUsers(s, users, n - 1), users[n - 1], pending - First(users, n - 1));
      assert pending - First(users, n - 1) - {users[n - 1]} == pending - First(users, n);
    } else {
      assert pending - First(users, 0) == pending;
    }
  }

  // ---- tenants ----

  /** A tenant's usage once its period, if it is over, has been rolled. */
  ghost function UsedAfterRoll(t: Tenant, now: int): int {
    if t.resetDays > 0 && t.nextReset.Some? && t.nextReset.value <= now then 0 else t.used
  }

  ghost predicate Billable(s: State, d: map<Id, Delta>, ids: seq<Id>) {
    Distinct(ids) && forall k | 0 <= k < |ids| ::
      ids[k] in s.tenants && ids[k] in d && d[ids[k]].inBytes >= 0 && d[ids[k]].outBytes >= 0
  }

  ghost function BucketOf(s: State, key: BucketKey): Bucket {
    if key in s.ledger.buckets then s.ledger.buckets[key] else Bucket(0, 0, 0)
  }

  ghost predicate BilledTo(s: State, s': State, t: Id, d: Delta, now: int, hour: int)
    requires t in s.tenants && t in s'.tenants
  {
    var a, b := BucketOf(s, BucketKey(t, hour)), BucketOf(s', BucketKey(t, hour));
    && s'.tenants[t].used == UsedAfterRoll(s.tenants[t], now) + d.Total()
    && b.inBytes == a.inBytes + d.inBytes && b.outBytes == a.outBytes + d.outBytes
    && b.billed == a.billed + d.Total()
    && OtherHoursKept(s, s', t, hour)
  }

  ghost predicate OtherHoursKept(s: State, s': State, t: Id, hour: int) {
    forall h | h != hour :: BucketOf(s', BucketKey(t, h)) == BucketOf(s, BucketKey(t, h))
  }

  /** What billing may write: tenant rows, hourly buckets, and rule statuses as quotas may move them. */
  ghost predicate BillingWrites(s: State, s': State) {
    && s' == s.(rules := s'.rules, tenants := s'.tenants, ledger := s.ledger.(buckets := s'.ledger.buckets))
    && s'.tenants.Keys == s.tenants.Keys && s'.rules.Keys == s.rules.Keys
    && forall r | r in s.rules :: StatusWrite(s.rules[r], s'.rules[r])
  }

  /** What charging these tenants may write. */
  ghost predicate ChargeWrites(s: State, s': State, tenants: set<Id>) {
    BillingWrites(s, s') && OnlyRulesOf(s, s', tenants)
  }

  /** Each rule is written for one tenant only, so writes for different tenants compose. */
  lemma ChargeWritesCompose(a: State, b: State, c: State, x: set<Id>, y: set<Id>)
    requires ChargeWrites(a, b, x) && ChargeWrites(b, c, y) && x !! y
    ensures ChargeWrites(a, c, x + y)
  {
    forall r | r in a.rules ensures StatusWrite(a.rules[r], c.rules[r]) {
      assert StatusWrite(a.rules[r], b.rules[r]) && StatusWrite(b.rules[r], c.rules[r]);
    }
  }

  lemma ExactIgnoresLedger(s: State, ledger: Ledger, pending: set<Id>)
    requires ExactExcept(s, pending)
    ensures ExactExcept(s.(ledger := ledger), pending)
  {
    var s' := s.(ledger := ledger);
    forall r | r in s'.rules ensures RuleExact(s', s'.rules[r], pending) {
      assert RuleExact(s, s.rules[r], pending);
    }
  }

  lemma BilledReconciles(s: State, t: Id, d: Delta, now: int, pending: set<Id>)
    requires ExactExcept(s, pending) && t in s.tenants && d.inBytes >= 0 && d.outBytes >= 0
    requires s.tenants[t].used + d.Total() <= MAX_INT64
    ensures ExactExcept(ReconcileTenantQuota(Billed(s, t, d, now), t, now), pending)
  {
    var row := s.tenants[t].(used := s.tenants[t].used + d.Total());
    var ledger := Billed(s, t, d, now).ledger;
    var sb := s.(ledger := ledger);
    ExactIgnoresLedger(s, ledger, pending);
    assert TenantExact(s.tenants[t]);
    ReconcileTenantKeeps(sb, t, row, now, pending);
    assert Billed(s, t, d, now) == sb.(tenants := sb.tenants[t := row]);
  }

  lemma TenantFits(s: State, t: Id, d: Delta, now: int)
    requires t in s.tenants && 0 <= s.tenants[t].used && d.inBytes >= 0 && d.outBytes >= 0
    ensures RollTenantPeriod(s, t, now).tenants[t].used == UsedAfterRoll(s.tenants[t], now)
    ensures ChargeTenant(s, t, d, now).Ok? <==> UsedAfterRoll(s.tenants[t], now) + d.Total() <= MAX_INT64
  {
  }

  /** Rolling, billing and reconciling compose, whatever they are, to writes within BillingWrites. */
  lemma ChargeComposes(s: State, s1: State, s': State, t: Id, d: Delta, now: int)
    requires QuotaWrites(s, s1) && OnlyWakes(s, s1) && OnlyRulesOf(s, s1, {t}) && t in s1.tenants
    requires QuotaWrites(Billed(s1, t, d, now), s') && OnlyRulesOf(Billed(s1, t, d, now), s', {t})
    requires s1.tenants == s.tenants[t := s1.tenants[t]]
    requires s'.tenants == Billed(s1, t, d, now).tenants[t := s'.tenants[t]]
    ensures ChargeWrites(s, s', {t})
    ensures s'.tenants == s.tenants[t := s'.tenants[t]]
    ensures s'.ledger.buckets == AddToBucket(s.ledger.buckets, BucketKey(t, HourOf(now)), d)
  {
    forall r | r in s.rules ensures StatusWrite(s.rules[r], s'.rules[r]) {
      assert StatusWrite(s.rules[r], s1.rules[r]) && StatusWrite(s1.rules[r], s'.rules[r]);
    }
  }

  lemma TenantCharged(s: State, t: Id, d: Delta, now: int)
    requires t in s.tenants && 0 <= s.tenants[t].used && d.inBytes >= 0 && d.outBytes >= 0
    requires ChargeTenant(s, t, d, now).Ok?
    ensures var s' := ChargeTenant(s, t, d, now).value;
              && ChargeWrites(s, s', {t})
              && s'.tenants == s.tenants[t := s'.tenants[t]]
              && s'.tenants[t].used == UsedAfterRoll(s.tenants[t], now) + d.Total()
              && s'.ledger.buckets == AddToBucket(s.ledger.buckets, BucketKey(t, HourOf(now)), d)
  {
    TenantFits(s, t, d, now);
    var s1 := RollTenantPeriod(s, t, now);
    var s' := ReconcileTenantQuota(Billed(s1, t, d, now), t, now);
    RollWrites(s, t, now);
    ReconcileTenantWrites(Billed(s1, t, d, now), t, now);
    ChargeComposes(s, s1, s', t, d, now);
    assert s'.tenants[t].used == s1.tenants[t].used + d.Total();
  }

  lemma TenantBilled(s: State, t: Id, d: Delta, now: int, pending: set<Id>)
    requires ExactExcept(s, pending) && t in s.tenants && d.inBytes >= 0 && d.outBytes >= 0
    requires ChargeTenant(s, t, d, now).Ok?
    ensures ExactExcept(ChargeTenant(s, t, d, now).value, pending)
  {
    RollTenantKeeps(s, t, now, pending);
    BilledReconciles(RollTenantPeriod(s, t, now), t, d, now, pending);
  }

  lemma {:induction false} ChargedTenantsExact(s: State, d: map<Id, Delta>, ids: seq<Id>, n: nat, now: int, pending: set<Id>)
    requires ExactExcept(s, pending) && Billable(s, d, ids) && n <= |ids|
    requires ChargeTenants(s, d, ids, n, now).Ok?
    ensures ExactExcept(ChargeTenants(s, d, ids, n, now).value, pending)
    ensures ChargeTenants(s, d, ids, n, now).value.tenants.Keys == s.tenants.Keys
  {
    if n > 0 {
      ChargedTenantsExact(s, d, ids, n - 1, now, pending);
      var s1 := ChargeTenants(s, d, ids, n - 1, now).value;
      assert TenantExact(s1.tenants[ids[n - 1]]);
      TenantCharged(s1, ids[n - 1], d[ids[n - 1]], now);
      TenantBilled(s1, ids[n - 1], d[ids[n - 1]], now, pending);
    }
  }

  ghost predicate TenantUntouched(s: State, s': State, t: Id)
    requires t in s.tenants && t in s'.tenants
  {
    s'.tenants[t] == s.tenants[t] && forall h :: BucketOf(s', BucketKey(t, h)) == BucketOf(s, BucketKey(t, h))
  }

  /** Charging tenant t bills t and leaves every other tenant alone. */
  lemma OthersUntouched(s: State, t: Id, d: Delta, now: int, x: Id)
    requires t in s.tenants && 0 <= s.tenants[t].used && d.inBytes >= 0 && d.outBytes >= 0
    requires ChargeTenant(s, t, d, now).Ok? && x in s.tenants
    ensures x in ChargeTenant(s, t, d, now).value.tenants
    ensures x != t ==> TenantUntouched(s, ChargeTenant(s, t, d, now).value, x)
    ensures x == t ==> BilledTo(s, ChargeTenant(s, t, d, now).value, t, d, now, HourOf(now))
  {
    TenantCharged(s, t, d, now);
  }

  ghost predicate TenantOutcome(s: State, s': State, t: Id, d: map<Id, Delta>, done: set<Id>, now: int)
    requires t in s.tenants && t in s'.tenants && (t in done ==> t in d)
  {
    if t in done then BilledTo(s, s', t, d[t], now, HourOf(now)) && s'.tenants[t].used <= MAX_INT64 else TenantUntouched(s, s', t)
  }

  lemma OutcomeStep(s: State, s1: State, s': State, d: map<Id, Delta>, done: set<Id>, t: Id, x: Id, now: int)
    requires x in s.tenants && x in s1.tenants && x in s'.tenants && t in d && t !in done && (x in done ==> x in d)
    requires TenantOutcome(s, s1, x, d, done, now)
    requires x == t ==> BilledTo(s1, s', t, d[t], now, HourOf(now)) && s'.tenants[t].used <= MAX_INT64
    requires x != t ==> TenantUntouched(s1, s', x)
    ensures TenantOutcome(s, s', x, d, done + {t}, now)
  {
    var key := BucketKey(x, HourOf(now));
    if x == t {
      assert BucketOf(s1, key) == BucketOf(s, key);
      assert BilledTo(s, s', x, d[x], now, HourOf(now));
    } else if x in done {
      assert BucketOf(s', key) == BucketOf(s1, key);
      assert BilledTo(s, s', x, d[x], now, HourOf(now));
    } else {
      assert TenantUntouched(s, s', x);
    }
  }

  /** One more charge after charges that kept to BillingWrites and left tenant t alone. */
  lemma ChargeNext(s: State, s1: State, s2: State, done: set<Id>, t: Id, d: Delta, now: int)
    requires TenantsExact(s) && t in s.tenants && t !in done && ChargeWrites(s, s1, done) && s1.tenants[t] == s.tenants[t]
    requires d.inBytes >= 0 && d.outBytes >= 0 && ChargeTenant(s1, t, d, now) == Ok(s2)
    ensures ChargeWrites(s, s2, done + {t}) && s2.tenants == s1.tenants[t := s2.tenants[t]]
  {
    assert TenantExact(s.tenants[t]);
    TenantCharged(s1, t, d, now);
    ChargeWritesCompose(s, s1, s2, done, {t});
  }

  lemma {:induction false} TenantsWrite(s: State, d: map<Id, Delta>, ids: seq<Id>, n: nat, now: int)
    requires TenantsExact(s) && Billable(s, d, ids) && n <= |ids| && ChargeTenants(s, d, ids, n, now).Ok?
    ensures ChargeWrites(s, ChargeTenants(s, d, ids, n, now).value, First(ids, n))
    ensures forall t | t in s.tenants && t !in First(ids, n) ::
              ChargeTenants(s, d, ids, n, now).value.tenants[t] == s.tenants[t]
  {
    if n > 0 {
      TenantsWrite(s, d, ids, n - 1, now);
      TenantsWriteNext(s, d, ids, n, now, ChargeTenants(s, d, ids, n - 1, now).value, ChargeTenants(s, d, ids, n, now).value);
    }
  }

  lemma TenantsWriteNext(s: State, d: map<Id, Delta>, ids: seq<Id>, n: nat, now: int, s1: State, s2: State)
    requires TenantsExact(s) && Billable(s, d, ids) && 0 < n <= |ids| && ChargeWrites(s, s1, First(ids, n - 1))
    requires forall t | t in s.tenants && t !in First(ids, n - 1) :: s1.tenants[t] == s.tenants[t]
    requires ChargeTenant(s1, ids[n - 1], d[ids[n - 1]], now) == Ok(s2)
    ensures ChargeWrites(s, s2, First(ids, n)) && forall t | t in s.tenants && t !in First(ids, n) :: s2.tenants[t] == s.tenants[t]
  {
    var t := ids[n - 1];
    assert First(ids, n) == First(ids, n - 1) + {t} && t !in First(ids, n - 1);
    ChargeNext(s, s1, s2, First(ids, n - 1), t, d[t], now);
  }

  lemma {:induction false} TenantsCharged(s: State, d: map<Id, Delta>, ids: seq<Id>, n: nat, now: int, x: Id)
    requires TenantsExact(s) && Billable(s, d, ids) && n <= |ids|
    requires ChargeTenants(s, d, ids, n, now).Ok? && x in s.tenants
    ensures x in ChargeTenants(s, d, ids, n, now).value.tenants
    ensures TenantOutcome(s, ChargeTenants(s, d, ids, n, now).value, x, d, First(ids, n), now)
  {
    if n > 0 {
      TenantsWrite(s, d, ids, n - 1, now);
      TenantsCharged(s, d, ids, n - 1, now, x);
      LastCharged(s, d, ids, n, x, now, ChargeTenants(s, d, ids, n - 1, now).value, ChargeTenants(s, d, ids, n, now).value);
    }
  }

  lemma LastCharged(s: State, d: map<Id, Delta>, ids: seq<Id>, n: nat, x: Id, now: int, s1: State, s2: State)
    requires TenantsExact(s) && Billable(s, d, ids) && 0 < n <= |ids|
    requires forall t | t in s.tenants && t !in First(ids, n - 1) :: t in s1.tenants && s1.tenants[t] == s.tenants[t]
    requires ChargeTenant(s1, ids[n - 1], d[ids[n - 1]], now) == Ok(s2)
    requires x in s.tenants && x in s1.tenants && TenantOutcome(s, s1, x, d, First(ids, n - 1), now)
    ensures x in s2.tenants && TenantOutcome(s, s2, x, d, First(ids, n), now)
  {
    var t := ids[n - 1];
    assert First(ids, n) == First(ids, n - 1) + {t} && t !in First(ids, n - 1);
    assert TenantExact(s.tenants[t]);
    TenantFits(s1, t, d[t], now);
    OthersUntouched(s1, t, d[t], now, x);
    OutcomeStep(s, s1, s2, d, First(ids, n - 1), t, x, now);
  }

  lemma {:induction false} TenantsFit(s: State, d: map<Id, Delta>, ids: seq<Id>, n: nat, now: int)
    requires TenantsExact(s) && Billable(s, d, ids) && n <= |ids|
    requires forall k | 0 <= k < n :: UsedAfterRoll(s.tenants[ids[k]], now) + d[ids[k]].Total() <= MAX_INT64
    ensures ChargeTenants(s, d, ids, n, now).Ok?
  {
    if n > 0 {
      TenantsFit(s, d, ids, n - 1, now);
      TenantsWrite(s, d, ids, n - 1, now);
      var s1 := ChargeTenants(s, d, ids, n - 1, now).value;
      assert ids[n - 1] !in First(ids, n - 1);
      assert TenantExact(s.tenants[ids[n - 1]]);
      TenantFits(s1, ids[n - 1], d[ids[n - 1]], now);
    }
  }
}
