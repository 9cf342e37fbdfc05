/**
 * The request handlers as they run: step by step on the stored state, with loops over the selected
 * rows and a rollback when a transaction fails. Each method is proved to do what its function in
 * Quota, Accounting, Ports, Rules or Panel says.
 */
module Server {
  import opened Common
  import opened Store
  import opened Quota
  import opened Accounting
  import opened Ports
  import opened Rules
  import opened Panel

  class Database {
    var db: State

    constructor (initial: State)
      ensures db == initial
    {
      db := initial;
    }

    // ---- quotas ----

    /** restoreTenantQuotaRulesTx: one UPDATE per rule the tenant's quota had turned off. */
    method RestoreTenantQuotaRules(tenant: Id)
      modifies this
      ensures db == RestoreTenantRules(old(db), tenant)
    {
      var selected := set id | id in db.rules && db.rules[id].tenant == tenant
                               && db.rules[id].status == QuotaExhausted && db.rules[id].source == TenantSource;
      var users := db.users;
      var todo := selected;
      while todo != {}
        invariant todo <= selected
        invariant db == old(db).(rules := db.rules) && db.rules.Keys == old(db).rules.Keys
        invariant forall id | id in db.rules ::
                    db.rules[id] == if id in todo then old(db).rules[id] else TenantRestored(old(db), old(db).rules[id], tenant)
      {
        var id :| id in todo;
        var r := db.rules[id];
        var spent := r.user in users && UserSpent(users[r.user]);
        r := r.(status := if spent then QuotaExhausted else Active, source := if spent then UserSource else NoSource);
        db := db.(rules := db.rules[id := r]);
        todo := todo - {id};
      }
      assert db.rules == RestoreTenantRules(old(db), tenant).rules;
    }

    method ResetTenant(tenant: Id, now: int)
      requires tenant in db.tenants
      modifies this
      ensures db == ResetTenantTraffic(old(db), tenant, now)
    {
      db := db.(tenants := db.tenants[tenant := ResetTenantRow(db.tenants[tenant], now)]);
      RestoreTenantQuotaRules(tenant);
    }

    method RollTenant(tenant: Id, now: int)
      requires tenant in db.tenants
      modifies this
      ensures db == RollTenantPeriod(old(db), tenant, now)
    {
      var t := db.tenants[tenant];
      if t.nextReset == None || t.nextReset.value > now || t.resetDays <= 0 {
        return;
      }
      ResetTenant(tenant, now);
    }

    method ReconcileTenant(tenant: Id, now: int)
      requires tenant in db.tenants
      modifies this
      ensures db == ReconcileTenantQuota(old(db), tenant, now)
    {
      var t := db.tenants[tenant];
      if TenantOver(t) {
        if !t.blocked {
          db := db.(tenants := db.tenants[tenant := t.(blocked := true, blockedAt := Some(now))]);
        }
        assert db.tenants == old(db).tenants[tenant := ReconcileTenantRow(t, now)];
        db := ExhaustTenantQuota(db, tenant);
      } else if t.blocked {
        db := db.(tenants := db.tenants[tenant := t.(blocked := false, blockedAt := None)]);
        RestoreTenantQuotaRules(tenant);
      }
    }

    /** reconcileUserQuotaTx: one UPDATE per rule the user's quota had turned off. */
    method ReconcileUser(user: Id) returns (r: Result<(), Error>)
      requires user in db.users
      modifies this
      ensures r.Ok? <==> ReconcileUserQuota(old(db), user).Ok?
      ensures r.Ok? ==> db == ReconcileUserQuota(old(db), user).value
      ensures r.Err? ==> r.error == ReconcileUserQuota(old(db), user).error && db == old(db)
    {
      var u := db.users[user];
      if UserSpent(u) {
        db := ExhaustUserQuota(db, user);
        return Ok(());
      }
      var selected := set id | id in db.rules && db.rules[id].user == user
                               && db.rules[id].status == QuotaExhausted && db.rules[id].source == UserSource;
      var blocks := false;
      if u.tenant > 0 {
        if u.tenant !in db.tenants {
          return Err(NotFound);
        }
        blocks := TenantBlocks(db.tenants[u.tenant]);
      }
      var todo := selected;
      while todo != {}
        invariant todo <= selected
        invariant db == old(db).(rules := db.rules) && db.rules.Keys == old(db).rules.Keys
        invariant forall id | id in db.rules ::
                    db.rules[id] == if id in todo then old(db).rules[id] else UserRestored(old(db).rules[id], user, blocks)
      {
        var id :| id in todo;
        var rule := db.rules[id].(status := if blocks then QuotaExhausted else Active,
                                  source := if blocks then TenantSource else NoSource);
        db := db.(rules := db.rules[id := rule]);
        todo := todo - {id};
      }
      assert db.rules == RestoreUserRules(old(db), user, blocks).rules;
      return Ok(());
    }

    // ---- traffic ----

    /** The first loop of accountAgentTrafficTx. */
    method AggregateSamples(samples: seq<Sample>) returns (r: Result<map<Id, Delta>, Error>)
      ensures r == Aggregate(samples)
    {
      var d: map<Id, Delta> := map[];
      for k := 0 to |samples|
        invariant Aggregate(samples[..k]) == Ok(d)
      {
        var x := samples[k];
        assert samples[..k + 1][..k] == samples[..k];
        AggregateStops(samples, k + 1);
        var c := if x.rule in d then d[x.rule] else Delta(0, 0);
        if x.inBytes > MAX_INT64 - c.inBytes || x.outBytes > MAX_INT64 - c.outBytes {
          return Err(BadPayload);
        }
        c := Delta(c.inBytes + x.inBytes, c.outBytes + x.outBytes);
        if c.inBytes > MAX_INT64 - c.outBytes {
          return Err(BadPayload);
        }
        d := d[x.rule := c];
      }
      assert samples[..|samples|] == samples;
      return Ok(d);
    }

    /** The second loop: totals per user and tenant, and the rows. */
    method CollectRules(node: Node, ids: seq<Id>, d: map<Id, Delta>) returns (r: Result<Collected, Error>)
      requires forall k | 0 <= k < |ids| :: ids[k] in db.rules && ids[k] in d
      ensures r == Collect(db, node, ids, d, |ids|)
    {
      var c := Collected(map[], map[], []);
      for k := 0 to |ids|
        invariant Collect(db, node, ids, d, k) == Ok(c)
      {
        CollectStops(db, node, ids, d, k + 1, |ids|);
        var next := CollectRule(c, node, ids[k], db.rules[ids[k]], d[ids[k]]);
        if next.Err? {
          return Err(next.error);
        }
        c := next.value;
      }
      return Ok(c);
    }

    method ChargeOneUser(user: Id, bytes: int, spent: seq<Id>) returns (r: Result<seq<Id>, Error>)
      modifies this
      ensures match ChargeUser(Charged(old(db), spent), user, bytes)
              case Ok(c) => r == Ok(c.spent) && db == c.state
              case Err(e) => r == Err(e)
    {
      if user !in db.users {
        return Err(NotFound);
      }
      var u := db.users[user];
      if u.used > MAX_INT64 - bytes {
        return Err(BadPayload);
      }
      u := u.(used := u.used + bytes);
      db := db.(users := db.users[user := u]);
      if u.flowLimit > 0 && u.used >= u.flowLimit {
        return Ok(spent + [user]);
      }
      return Ok(spent);
    }

    method ChargeAllUsers(bytes: map<Id, int>) returns (r: Result<seq<Id>, Error>)
      modifies this
      ensures var ids := Sorted(bytes.Keys); var spec := ChargeUsers(old(db), bytes, ids, |ids|);
              match spec
              case Ok(c) => r == Ok(c.spent) && db == c.state
              case Err(e) => r == Err(e)
    {
      var ids := Sorted(bytes.Keys);
      var spent: seq<Id> := [];
      for k := 0 to |ids|
        invariant ChargeUsers(old(db), bytes, ids, k) == Ok(Charged(db, spent))
      {
        ChargeUsersNext(old(db), bytes, ids, k, Charged(db, spent), ChargeUser(Charged(db, spent), ids[k], bytes[ids[k]]));
        var now := ChargeOneUser(ids[k], bytes[ids[k]], spent);
        if now.Err? {
          return Err(now.error);
        }
        spent := now.value;
      }
      return Ok(spent);
    }

    method ChargeOneTenant(tenant: Id, d: Delta, now: int) returns (r: Result<(), Error>)
      modifies this
      ensures match ChargeTenant(old(db), tenant, d, now)
              case Ok(s) => r.Ok? && db == s
              case Err(e) => r == Err(e)
    {
      if tenant !in db.tenants {
        return Err(NotFound);
      }
      RollTenant(tenant, now);
      if d.inBytes > MAX_INT64 - d.outBytes || db.tenants[tenant].used > MAX_INT64 - d.Total() {
        return Err(BadPayload);
      }
      db := Billed(db, tenant, d, now);
      ReconcileTenant(tenant, now);
      return Ok(());
    }

    method ChargeAllTenants(d: map<Id, Delta>, now: int) returns (r: Result<(), Error>)
      modifies this
      ensures var ids := Sorted(d.Keys);
              match ChargeTenants(old(db), d, ids, |ids|, now)
              case Ok(s) => r.Ok? && db == s
              case Err(e) => r == Err(e)
    {
      var ids := Sorted(d.Keys);
      for k := 0 to |ids|
        invariant ChargeTenants(old(db), d, ids, k, now) == Ok(db)
      {
        ChargeTenantsNext(old(db), d, ids, k, now, db, ChargeTenant(db, ids[k], d[ids[k]], now));
        r := ChargeOneTenant(ids[k], d[ids[k]], now);
        if r.Err? {
          return;
        }
      }
      return Ok(());
    }

    method AccountAgentTraffic(node: Node, samples: seq<Sample>, now: int) returns (r: Result<(), Error>)
      modifies this
      ensures match AccountTraffic(old(db), node, samples, now)
              case Ok(s) => r.Ok? && db == s
              case Err(e) => r == Err(e)
    {
      var agg := AggregateSamples(samples);
      if agg.Err? {
        return Err(agg.error);
      }
      var d := agg.value;
      if d == map[] {
        return Ok(());
      }
      var ids := Sorted(d.Keys);
      if exists id | id in d :: !OwnedByNode(db, node, id) {
        return Err(Forbidden);
      }
      var col := CollectRules(node, ids, d);
      if col.Err? {
        return Err(col.error);
      }
      db := Recorded(db, col.value, d);
      var spent := ChargeAllUsers(col.value.users);
      if spent.Err? {
        return Err(spent.error);
      }
      r := ChargeAllTenants(col.value.tenants, now);
      if r.Err? {
        return;
      }
      ghost var charged := db;
      for k := 0 to |spent.value|
        invariant db == ExhaustUsers(charged, spent.value, k)
      {
        db := ExhaustUserQuota(db, spent.value[k]);
      }
    }

    /** agentTraffic: claim the report id and account, or roll both back. */
    method ServeTraffic(node: Node, reportId: string, samples: seq<Sample>, now: int) returns (r: Response)
      modifies this
      ensures (db, r) == AgentTraffic(old(db), node, reportId, samples, now)
    {
      if |samples| > MAX_SAMPLES || |reportId| > MAX_REPORT_ID {
        return Rejected(BadPayload);
      }
      for k := 0 to |samples|
        invariant forall j | 0 <= j < k :: ValidSample(samples[j])
      {
        if !ValidSample(samples[k]) {
          return Rejected(BadPayload);
        }
      }
      var before := db;
      if reportId != "" {
        var key := MarkerKey(node.id, reportId);
        if key in db.ledger.markers {
          return Accepted(db.ledger.markers[key], true);
        }
        db := db.(ledger := db.ledger.(markers := db.ledger.markers[key := |samples|]));
      }
      var done := AccountAgentTraffic(node, samples, now);
      if done.Err? {
        db := before;
        return Rejected(done.error);
      }
      return Accepted(|samples|, false);
    }

    // ---- ports ----

    /** allocatePortTx: skip the ports prefetched from the leases, ask about every other one. */
    method Allocate(group: Id, p: Protocol, start: int, end: int, exclude: Id) returns (r: Result<int, Error>)
      requires group in db.net.groups
      ensures r == AllocatePort(db, group, p, start, end, exclude)
    {
      var lo, hi := RangeStart(start, end), RangeEnd(start, end);
      var bindIp := db.net.groups[group].bindIp;
      var used := set l | l in db.leases && l.group == group && l.bindIp == bindIp && l.transport in TransportList(p)
                          && lo <= l.port <= hi && (exclude > 0 ==> l.rule != exclude) :: l.port;
      var port := lo;
      while port <= hi
        invariant FirstFree(db, group, p, lo, hi, exclude) == FirstFree(db, group, p, port, hi, exclude)
        decreases hi - port
      {
        if port in used {
          assert Leased(db, group, port, p, exclude);
        } else if !InUse(db, group, port, p, exclude) {
          return Ok(port);
        }
        port := port + 1;
      }
      return Err(Refused("no free port in device group range"));
    }

    /** replaceRulePortLeasesTx. */
    method ReplaceRuleLeases(id: Id, rule: Rule, group: Id) returns (r: Result<(), Error>)
      requires group in db.net.groups
      modifies this
      ensures match ReplaceLeases(old(db), id, rule, group)
              case Ok(s) => r.Ok? && db == s
              case Err(e) => r == Err(e)
    {
      db := db.(leases := WithoutRule(db.leases, id));
      if !NeedsLease(rule.status) {
        return Ok(());
      }
      var ts := TransportList(rule.protocol);
      var bindIp := db.net.groups[group].bindIp;
      ghost var rest := db.leases;
      for k := 0 to |ts|
        invariant db == old(db).(leases := db.leases)
        invariant InsertLeases(rest, id, rule, group, bindIp, ts) == InsertLeases(db.leases, id, rule, group, bindIp, ts[k..])
      {
        var l := Lease(group, bindIp, ts[k], rule.port, id);
        if exists e | e in db.leases :: Collides(e, l) {
          return Err(Refused("listen port is already leased"));
        }
        db := db.(leases := db.leases + {l});
        assert ts[k..][1..] == ts[k + 1..];
      }
      return Ok(());
    }

    // ---- rules ----

    /** The tenant part of prepareForwardRuleTx; the roll it may do stays in the transaction. */
    method CheckOwnersTenant(tenant: Id, now: int, exclude: Id) returns (r: Result<(), Error>)
      modifies this
      ensures match CheckTenant(old(db), tenant, now, exclude)
              case Ok(s) => r.Ok? && db == s
              case Err(e) => r == Err(e)
    {
      if tenant == 0 {
        return Ok(());
      }
      if tenant !in db.tenants {
        return Err(Refused("tenant not found"));
      }
      RollTenant(tenant, now);
      var t := db.tenants[tenant];
      if !TenantActiveAt(t, now) {
        return Err(Refused("tenant is not active"));
      }
      if t.blocked || TenantOver(t) {
        return Err(Refused("tenant traffic is exhausted"));
      }
      if t.forwardLimit > 0 && CountRules(db, OfTenant(tenant), exclude) >= t.forwardLimit {
        return Err(Refused("tenant forward rule limit reached"));
      }
      return Ok(());
    }

    method ChooseListenPort(rule: Rule, group: Id, range: PortRange, exclude: Id) returns (r: Result<int, Error>)
      requires group in db.net.groups
      ensures r == ChoosePort(db, rule, group, range, exclude)
    {
      var port := rule.port;
      if port == 0 {
        var found := Allocate(group, rule.protocol, range.start, range.end, exclude);
        if found.Err? {
          return found;
        }
        port := found.value;
      }
      if port <= 0 || port > 65535 {
        return Err(Refused("listenPort must be between 1 and 65535"));
      }
      if range.start > 0 && range.end > 0 && (port < range.start || port > range.end) {
        return Err(Refused("listenPort must be within authorized range"));
      }
      if InUse(db, group, port, rule.protocol, exclude) {
        return Err(Refused("listenPort is already used"));
      }
      return Ok(port);
    }

    /** prepareForwardRuleTx: all checks in order; a refusal may leave a roll for the caller to undo. */
    method PrepareRule(rule: Rule, d: Draft, exclude: Id, now: int) returns (r: Result<Rule, Error>, group: Id)
      modifies this
      ensures match Prepare(old(db), rule, d, exclude, now)
              case Ok(p) => r == Ok(p.rule) && group == p.group && db == p.state && group in db.net.groups
              case Err(e) => r == Err(e)
    {
      group := 0;
      var owner := CheckOwner(db, rule, d, now);
      if owner.Err? {
        r := Err(owner.error);
        return;
      }
      var u := owner.value;
      if rule.tunnel !in db.net.tunnelGroup {
        r := Err(Refused("tunnel not found"));
        return;
      }
      group := db.net.tunnelGroup[rule.tunnel];
      if group !in db.net.groups {
        r := Err(Refused("entry device group not found"));
        return;
      }
      var checked := CheckOwnersTenant(u.tenant, now, exclude);
      if checked.Err? {
        r := Err(checked.error);
        return;
      }
      if group !in db.net.groups {
        r := Err(Refused("entry device group not found"));
        return;
      }
      var g := db.net.groups[group];
      var range := CheckGrant(db, rule.user, u, rule.tunnel, PortRange(g.portStart, g.portEnd), exclude);
      if range.Err? {
        r := Err(range.error);
        return;
      }
      var port := ChooseListenPort(rule, group, range.value, exclude);
      if port.Err? {
        r := Err(port.error);
        return;
      }
      if u.forwardLimit > 0 && CountRules(db, OfUser(rule.user), exclude) >= u.forwardLimit {
        r := Err(Refused("user forward rule limit reached"));
        return;
      }
      if !d.policyOk {
        r := Err(Refused("forbidden by protocol policy"));
        return;
      }
      r := Ok(rule.(tenant := u.tenant, port := port.value));
    }

    /** One creation inside an open transaction. */
    method InsertRule(id: Id, d: Draft, now: int) returns (r: Result<Rule, Error>)
      modifies this
      ensures match CreateRule(old(db), id, d, now)
              case Ok(s) => db == s && id in s.rules && r == Ok(s.rules[id])
              case Err(e) => r == Err(e)
    {
      var row, group := PrepareRule(NewRow(d), d, 0, now);
      if row.Err? {
        return row;
      }
      if id == 0 || id in db.rules {
        return Err(Refused("primary key"));
      }
      db := db.(rules := db.rules[id := row.value]);
      var leased := ReplaceRuleLeases(id, row.value, group);
      if leased.Err? {
        return Err(leased.error);
      }
      return row;
    }

    /** createForwardRule. */
    method CreateForwardRule(id: Id, d: Draft, now: int) returns (r: Result<Rule, Error>)
      modifies this
      ensures r.Ok? <==> CreateRule(old(db), id, d, now).Ok?
      ensures r.Ok? ==> db == CreateRule(old(db), id, d, now).value && id in db.rules && r.value == db.rules[id]
      ensures db == Handle(old(db), Create(id, d, now))
    {
      var before := db;
      r := InsertRule(id, d, now);
      if r.Err? {
        db := before;
      }
    }

    /** updateForwardRule. */
    method UpdateForwardRule(id: Id, d: Draft, now: int) returns (r: Result<Rule, Error>)
      modifies this
      ensures r.Ok? <==> UpdateRule(old(db), id, d, now).Ok?
      ensures r.Ok? ==> db == UpdateRule(old(db), id, d, now).value && id in db.rules && r.value == db.rules[id]
      ensures db == Handle(old(db), Update(id, d, now))
    {
      if id !in db.rules {
        return Err(NotFound);
      }
      var before := db;
      var group;
      r, group := PrepareRule(EditedRow(db.rules[id], d), d, id, now);
      if r.Err? {
        db := before;
        return;
      }
      db := db.(rules := db.rules[id := r.value]);
      var leased := ReplaceRuleLeases(id, r.value, group);
      if leased.Err? {
        db := before;
        return Err(leased.error);
      }
    }

    /** deleteForwardRule. */
    method DeleteForwardRule(id: Id) returns (r: Result<(), Error>)
      modifies this
      ensures r.Ok? <==> DeleteRule(old(db), id).Ok?
      ensures r.Ok? ==> db == DeleteRule(old(db), id).value
      ensures db == Handle(old(db), Delete(id))
    {
      if id !in db.rules {
        return Err(NotFound);
      }
      if id in db.net.speedLimited {
        return Err(Refused("forwarding rule is still referenced by speed limits"));
      }
      db := db.(leases := WithoutRule(db.leases, id));
      db := db.(rules := db.rules - {id});
      return Ok(());
    }

    static function Outcome(s: State, r: Result<seq<Rule>, Error>): Result<Created, Error> {
      if r.Ok? then Ok(Created(s, r.value)) else Err(r.error)
    }

    /** One round of the batch loop. */
    method InsertNext(ghost start: State, drafts: seq<Draft>, ids: seq<Id>, k: nat, rules: seq<Rule>, now: int)
        returns (r: Result<seq<Rule>, Error>)
      requires |ids| == |drafts| && k < |drafts| && CreateFirst(start, drafts, ids, now, k) == Outcome(db, Ok(rules))
      modifies this
      ensures r.Ok? ==> CreateFirst(start, drafts, ids, now, k + 1) == Outcome(db, r)
      ensures r.Err? ==> CreateFirst(start, drafts, ids, now, |drafts|) == Outcome(db, r)
    {
      BatchRound(start, drafts, ids, now, k, Created(db, rules), CreateNext(CreateAt(now), Created(db, rules), ids[k], drafts[k]));
      var row := InsertRule(ids[k], drafts[k], now);
      if row.Err? {
        return Err(row.error);
      }
      return Ok(rules + [row.value]);
    }

    method InsertAll(drafts: seq<Draft>, ids: seq<Id>, now: int) returns (r: Result<seq<Rule>, Error>)
      requires |ids| == |drafts|
      modifies this
      ensures CreateFirst(old(db), drafts, ids, now, |drafts|) == Outcome(db, r)
    {
      var rules: seq<Rule> := [];
      for k := 0 to |drafts|
        invariant CreateFirst(old(db), drafts, ids, now, k) == Outcome(db, Ok(rules))
      {
        var next := InsertNext(old(db), drafts, ids, k, rules, now);
        if next.Err? {
          return Err(next.error);
        }
        rules := next.value;
      }
      return Ok(rules);
    }

    /** applyForwardRuleBatch: all rules or none, and for a preview none in any case. */
    method ApplyForwardRuleBatch(drafts: seq<Draft>, ids: seq<Id>, now: int, preview: bool)
        returns (r: Result<seq<Rule>, Error>)
      requires |ids| == |drafts|
      modifies this
      ensures BatchReply(db, r) == ApplyBatch(old(db), drafts, ids, now, preview)
    {
      if |drafts| == 0 || |drafts| > MAX_BATCH {
        return Err(BadPayload);
      }
      var before := db;
      r := InsertAll(drafts, ids, now);
      if r.Err? || preview {
        db := before;
      }
    }

    // ---- users and tenants ----

    /** updateUser. */
    method UpdateUserRow(user: Id, e: UserEdits) returns (r: Result<(), Error>)
      modifies this
      ensures match ApplyUserEdits(old(db), user, e)
              case Ok(s) => r.Ok? && db == s
              case Err(_) => r.Err? && db == old(db)
    {
      if user !in db.users {
        return Err(NotFound);
      }
      if e.flowLimit < 0 || e.forwardLimit < 0 {
        return Err(BadPayload);
      }
      if e.tenant != 0 && e.tenant !in db.tenants {
        return Err(Refused("tenant not found"));
      }
      if e.tenant != db.users[user].tenant && exists id | id in db.rules :: db.rules[id].user == user {
        return Err(Refused("user with forwarding rules cannot be moved between tenants"));
      }
      if e.tenant != 0 && !HasRoom(db, e.tenant, user) {
        return Err(Refused("tenant user limit reached"));
      }
      var before := db;
      db := db.(users := db.users[user := EditedUser(db.users[user], e)]);
      r := ReconcileUser(user);
      if r.Err? {
        db := before;
      }
    }

    /** resetUserTraffic. */
    method ResetUserUsage(user: Id) returns (r: Result<(), Error>)
      modifies this
      ensures r.Ok? <==> ResetUserTraffic(old(db), user).Ok?
      ensures db == Handle(old(db), ResetUser(user))
    {
      if user !in db.users {
        return Err(NotFound);
      }
      var before := db;
      db := db.(users := db.users[user := db.users[user].(used := 0)]);
      r := ReconcileUser(user);
      if r.Err? {
        db := before;
      }
    }

    /** updateTenant. */
    method UpdateTenantRow(tenant: Id, e: TenantEdits, now: int) returns (r: Result<(), Error>)
      modifies this
      ensures r.Ok? <==> ApplyTenantEdits(old(db), tenant, e, now).Ok?
      ensures db == Handle(old(db), UpdateTenant(tenant, e, now))
    {
      if tenant !in db.tenants {
        return Err(NotFound);
      }
      if e.trafficLimit < 0 || e.forwardLimit < 0 || e.userLimit < 0 || e.resetDays < 0 || e.resetDays > 3660 {
        return Err(BadPayload);
      }
      db := db.(tenants := db.tenants[tenant := EditedTenant(db.tenants[tenant], e, now)]);
      ReconcileTenant(tenant, now);
      return Ok(());
    }

    /** rollDueTenantPeriods. */
    method RollDueTenantPeriods(now: int)
      modifies this
      ensures db == Handle(old(db), RollDueTenants(now))
    {
      var due := Sorted(set t | t in db.tenants && db.tenants[t].nextReset.Some? && db.tenants[t].nextReset.value <= now);
      for k := 0 to |due|
        invariant Iterate(RollStep(due, now), old(db), k) == Ok(db)
      {
        if due[k] in db.tenants {
          RollTenant(due[k], now);
        }
      }
    }
  }

  // ---- once a loop has failed, its function stays failed ----

  lemma {:induction false} AggregateStops(samples: seq<Sample>, n: nat)
    requires n <= |samples|
    ensures Aggregate(samples[..n]).Err? ==> Aggregate(samples) == Aggregate(samples[..n])
    decreases |samples|
  {
    if n < |samples| {
      assert samples[..|samples| - 1][..n] == samples[..n];
      AggregateStops(samples[..|samples| - 1], n);
    } else {
      assert samples[..n] == samples;
    }
  }

  lemma {:induction false} CollectStops(s: State, node: Node, ids: seq<Id>, d: map<Id, Delta>, k: nat, n: nat)
    requires k <= n <= |ids| && forall j | 0 <= j < n :: ids[j] in s.rules && ids[j] in d
    ensures Collect(s, node, ids, d, k).Err? ==> Collect(s, node, ids, d, n) == Collect(s, node, ids, d, k)
  {
    if k < n { CollectStops(s, node, ids, d, k, n - 1); }
  }

  lemma {:induction false} ChargeUsersStops(s: State, bytes: map<Id, int>, ids: seq<Id>, k: nat, n: nat)
    requires k <= n <= |ids| && forall j | 0 <= j < n :: ids[j] in bytes
    ensures ChargeUsers(s, bytes, ids, k).Err? ==> ChargeUsers(s, bytes, ids, n) == ChargeUsers(s, bytes, ids, k)
  {
    if k < n { ChargeUsersStops(s, bytes, ids, k, n - 1); }
  }

  lemma ChargeUsersNext(s: State, bytes: map<Id, int>, ids: seq<Id>, k: nat, c: Charged, next: Result<Charged, Error>)
    requires k < |ids| && (forall j | 0 <= j < |ids| :: ids[j] in bytes) && ChargeUsers(s, bytes, ids, k) == Ok(c)
    requires next == ChargeUser(c, ids[k], bytes[ids[k]])
    ensures ChargeUsers(s, bytes, ids, k + 1) == next
    ensures next.Err? ==> ChargeUsers(s, bytes, ids, |ids|) == next
  {
    ChargeUsersStops(s, bytes, ids, k + 1, |ids|);
  }

  lemma {:induction false} ChargeTenantsStops(s: State, d: map<Id, Delta>, ids: seq<Id>, k: nat, n: nat, now: int)
    requires k <= n <= |ids| && forall j | 0 <= j < n :: ids[j] in d
    ensures ChargeTenants(s, d, ids, k, now).Err? ==> ChargeTenants(s, d, ids, n, now) == ChargeTenants(s, d, ids, k, now)
  {
    if k < n { ChargeTenantsStops(s, d, ids, k, n - 1, now); }
  }

  lemma ChargeTenantsNext(s: State, d: map<Id, Delta>, ids: seq<Id>, k: nat, now: int, s1: State, next: Result<State, Error>)
    requires k < |ids| && (forall j | 0 <= j < |ids| :: ids[j] in d) && ChargeTenants(s, d, ids, k, now) == Ok(s1)
    requires next == ChargeTenant(s1, ids[k], d[ids[k]], now)
    ensures ChargeTenants(s, d, ids, k + 1, now) == next
    ensures next.Err? ==> ChargeTenants(s, d, ids, |ids|, now) == next
  {
    ChargeTenantsStops(s, d, ids, k + 1, |ids|, now);
  }

  lemma {:induction false} IterateStops<S, E>(step: (S, nat) -> Result<S, E>, s: S, k: nat, n: nat)
    requires k <= n
    ensures Iterate(step, s, k).Err? ==> Iterate(step, s, n) == Iterate(step, s, k)
  {
    if k < n { IterateStops(step, s, k, n - 1); }
  }

  lemma BatchRound(s: State, drafts: seq<Draft>, ids: seq<Id>, now: int, k: nat, cur: Created, next: Result<Created, Error>)
    requires |ids| == |drafts| && k < |drafts| && CreateFirst(s, drafts, ids, now, k) == Ok(cur)
    requires next == CreateNext(CreateAt(now), cur, ids[k], drafts[k])
    ensures CreateFirst(s, drafts, ids, now, k + 1) == next
    ensures next.Err? ==> CreateFirst(s, drafts, ids, now, |drafts|) == next
  {
    IterateStops(BatchStep(CreateAt(now), drafts, ids), Created(s, []), k + 1, |drafts|);
  }
}
