/**
 * When a rule may be written, in plain table facts: who its owner is, what is granted, which ports are left. The
 * checks of the preparation accept exactly those drafts, and what is written is exactly what was asked for.
 */
module Admission {
  import opened Common
  import opened Store
  import opened Quota
  import opened Ports
  import opened Rules
  import opened RulesFacts

  // ---- who may write ----

  /** A limit of 0 or less is none, any other must not be reached yet. */
  predicate Below(limit: int, n: nat) {
    limit > 0 ==> n < limit
  }

  ghost predicate OwnerMay(s: State, user: Id, now: int) {
    && user in s.users
    && var u := s.users[user];
       u.isActive && (u.expiresAt.Some? ==> now <= u.expiresAt.value) && !UsedUp(u.flowLimit, u.used)
  }

  /** The owner has room for one more rule. */
  ghost predicate OwnerHasRoom(s: State, user: Id, exclude: Id)
    requires user in s.users
  {
    Below(s.users[user].forwardLimit, |set id | id in s.rules && id != exclude && s.rules[id].user == user|)
  }

  ghost predicate TenantMay(s: State, tenant: Id, now: int, exclude: Id) {
    tenant != 0 ==>
      && tenant in s.tenants
      && var t := s.tenants[tenant];
         && t.isActive && (t.expiresAt.Some? ==> now < t.expiresAt.value)
         && (PeriodOver(t, now) || !UsedUp(t.trafficLimit, t.used))
         && Below(t.forwardLimit, |set id | id in s.rules && id != exclude && s.rules[id].tenant == tenant|)
  }

  /** A regular user who has grants of their own is held to them; everybody else uses the tenant's. */
  ghost predicate UsesOwnGrants(s: State, user: Id)
    requires user in s.users
  {
    s.users[user].role == Regular && exists tunnel :: GrantKey(user, tunnel) in s.net.userGrants
  }

  ghost function GrantOf(s: State, user: Id, tunnel: Id): Option<Grant>
    requires user in s.users
  {
    var own, shared := GrantKey(user, tunnel), GrantKey(s.users[user].tenant, tunnel);
    if UsesOwnGrants(s, user) then if own in s.net.userGrants then Some(s.net.userGrants[own]) else None
    else if shared.holder != 0 && shared in s.net.tenantGrants then Some(s.net.tenantGrants[shared])
    else None
  }

  /** The rules that count against a grant: the user's own on the tunnel, or the whole tenant's. */
  ghost function UnderGrant(s: State, user: Id, tunnel: Id, exclude: Id): set<Id>
    requires user in s.users
  {
    set id | id in s.rules && id != exclude && s.rules[id].tunnel == tunnel
             && if UsesOwnGrants(s, user) then s.rules[id].user == user else s.rules[id].tenant == s.users[user].tenant
  }

  ghost predicate Authorized(s: State, user: Id, tunnel: Id, exclude: Id)
    requires user in s.users
  {
    s.users[user].role != Admin ==>
      && GrantOf(s, user, tunnel).Some?
      && Below(GrantOf(s, user, tunnel).value.forwardLimit, |UnderGrant(s, user, tunnel, exclude)|)
  }

  // ---- which port ----

  /** Both ends of a range must be set for it to mean anything. */
  predicate Bounded(start: int, end: int) {
    start > 0 && end > 0
  }

  /** The grant's range when it has one, otherwise the entry group's. */
  ghost function Window(s: State, user: Id, tunnel: Id): PortRange
    requires user in s.users && tunnel in s.net.tunnelGroup && s.net.tunnelGroup[tunnel] in s.net.groups
  {
    var grant, group := GrantOf(s, user, tunnel), s.net.groups[s.net.tunnelGroup[tunnel]];
    if s.users[user].role != Admin && grant.Some? && Bounded(grant.value.portStart, grant.value.portEnd)
    then PortRange(grant.value.portStart, grant.value.portEnd)
    else PortRange(group.portStart, group.portEnd)
  }

  /** A port a rule may have: a real one, in the window if there is one, and no other rule's. */
  ghost predicate PortFits(s: State, group: Id, w: PortRange, p: Protocol, exclude: Id, port: int) {
    && 1 <= port <= 65535 && (Bounded(w.start, w.end) ==> w.start <= port <= w.end)
    && !Taken(s, group, port, p, exclude)
  }

  /** Without a window, ports are handed out from 10000 to 60000. */
  predicate HandedOut(w: PortRange, port: int) {
    Bounded(w.start, w.end) || 10000 <= port <= 60000
  }

  ghost predicate PortMay(s: State, group: Id, w: PortRange, p: Protocol, exclude: Id, asked: int) {
    if asked != 0 then PortFits(s, group, w, p, exclude, asked)
    else exists port :: HandedOut(w, port) && PortFits(s, group, w, p, exclude, port)
  }

  /** The port asked for or, when none is, the least that is handed out and fits. */
  ghost predicate PortGiven(s: State, group: Id, w: PortRange, p: Protocol, exclude: Id, asked: int, port: int) {
    && PortFits(s, group, w, p, exclude, port)
    && (asked != 0 ==> port == asked)
    && (asked == 0 ==> HandedOut(w, port)
                       && forall q | HandedOut(w, q) && PortFits(s, group, w, p, exclude, q) :: port <= q)
  }

  // ---- the whole condition ----

  /** The rule goes through a tunnel that there is. */
  predicate TunnelIs(s: State, tunnel: Id) {
    tunnel in s.net.tunnelGroup && s.net.tunnelGroup[tunnel] in s.net.groups
  }

  /** The owner may have such a rule on the tunnel, and at the port asked for. */
  ghost predicate PlaceMay(s: State, d: Draft, exclude: Id)
    requires d.user in s.users && TunnelIs(s, d.tunnel)
  {
    && d.policyOk && OwnerHasRoom(s, d.user, exclude) && Authorized(s, d.user, d.tunnel, exclude)
    && PortMay(s, s.net.tunnelGroup[d.tunnel], Window(s, d.user, d.tunnel), d.protocol, exclude, d.port)
  }

  ghost predicate MayWrite(s: State, d: Draft, exclude: Id, now: int) {
    && d.user != 0 && d.formOk && OwnerMay(s, d.user, now) && TunnelIs(s, d.tunnel)
    && TenantMay(s, s.users[d.user].tenant, now, exclude) && PlaceMay(s, d, exclude)
  }

  // ---- the checks one by one ----

  lemma TenantChecked(s: State, tenant: Id, now: int, exclude: Id)
    requires QuotaExact(s)
    ensures CheckTenant(s, tenant, now, exclude).Ok? <==> TenantMay(s, tenant, now, exclude)
    ensures CheckTenant(s, tenant, now, exclude).Ok? && tenant != 0 ==>
              CheckTenant(s, tenant, now, exclude).value == RollTenantPeriod(s, tenant, now)
  {
    if tenant != 0 && tenant in s.tenants {
      var s1 := RollTenantPeriod(s, tenant, now);
      RollTenantKeeps(s, tenant, now, {});
      RollWrites(s, tenant, now);
      assert TenantExact(s1.tenants[tenant]);
      SameRules(s, s1);
      assert Matching(s1.rules, OfTenant(tenant), exclude)
          == (set id | id in s.rules && id != exclude && s.rules[id].tenant == tenant);
    }
  }

  /** Whatever quotas do, owners, tunnels and ports stay. */
  lemma SameRules(s: State, s1: State)
    requires QuotaWrites(s, s1)
    ensures forall id | id in s.rules ::
              && s1.rules[id].user == s.rules[id].user && s1.rules[id].tenant == s.rules[id].tenant
              && s1.rules[id].tunnel == s.rules[id].tunnel
  {
    forall id | id in s.rules ensures StatusWrite(s.rules[id], s1.rules[id]) {
    }
  }

  lemma GrantChecked(s: State, s1: State, user: Id, tunnel: Id, exclude: Id)
    requires QuotaWrites(s, s1) && user in s.users
    requires tunnel in s.net.tunnelGroup && s.net.tunnelGroup[tunnel] in s.net.groups
    ensures var g := s.net.groups[s.net.tunnelGroup[tunnel]];
            var r := CheckGrant(s1, user, s.users[user], tunnel, PortRange(g.portStart, g.portEnd), exclude);
            && (r.Ok? <==> Authorized(s, user, tunnel, exclude))
            && (r.Ok? ==> r.value == Window(s, user, tunnel))
  {
    var u := s.users[user];
    SameRules(s, s1);
    if exists k | k in s.net.userGrants :: k.holder == user {
      var k :| k in s.net.userGrants && k.holder == user;
      assert GrantKey(user, k.tunnel) == k;
    }
    if UsesOwnGrants(s, user) {
      var t :| GrantKey(user, t) in s.net.userGrants;
      assert GrantKey(user, t).holder == user;
      assert Matching(s1.rules, OfUserOn(user, tunnel), exclude) == UnderGrant(s, user, tunnel, exclude);
    } else {
      assert Matching(s1.rules, OfTenantOn(u.tenant, tunnel), exclude) == UnderGrant(s, user, tunnel, exclude);
    }
  }

  lemma SameTaken(s: State, s1: State, group: Id, port: int, p: Protocol, exclude: Id)
    requires Placed(s, s1)
    ensures Taken(s1, group, port, p, exclude) <==> Taken(s, group, port, p, exclude)
  {
    if Taken(s, group, port, p, exclude) {
      var id, t :| id in s.rules && id != exclude && ListensOn(s.rules[id].protocol, t)
                && s.rules[id].status != Disabled && s.rules[id].status != Deleted && s.rules[id].port == port
                && s.rules[id].tunnel in s.net.tunnelGroup && s.net.tunnelGroup[s.rules[id].tunnel] == group && ListensOn(p, t);
      assert ListensOn(s1.rules[id].protocol, t);
    }
    if Taken(s1, group, port, p, exclude) {
      var id, t :| id in s1.rules && id != exclude && ListensOn(s1.rules[id].protocol, t)
                && s1.rules[id].status != Disabled && s1.rules[id].status != Deleted && s1.rules[id].port == port
                && s1.rules[id].tunnel in s1.net.tunnelGroup && s1.net.tunnelGroup[s1.rules[id].tunnel] == group && ListensOn(p, t);
      assert ListensOn(s.rules[id].protocol, t);
    }
  }

  lemma FreeMeans(s: State, s1: State, group: Id, port: int, p: Protocol, exclude: Id)
    requires PortsExact(s1) && 0 !in s1.rules && Placed(s, s1)
    ensures InUse(s1, group, port, p, exclude) <==> Taken(s, group, port, p, exclude)
  {
    InUseIsTaken(s1, group, port, p, exclude);
    SameTaken(s, s1, group, port, p, exclude);
  }

  lemma PortChecked(s: State, s1: State, r: Rule, group: Id, w: PortRange, exclude: Id)
    requires PortsExact(s1) && 0 !in s1.rules && Placed(s, s1)
    ensures var c := ChoosePort(s1, r, group, w, exclude);
            && (c.Ok? <==> PortMay(s, group, w, r.protocol, exclude, r.port))
            && (c.Ok? ==> PortGiven(s, group, w, r.protocol, exclude, r.port, c.value))
  {
    forall port ensures InUse(s1, group, port, r.protocol, exclude) <==> Taken(s, group, port, r.protocol, exclude) {
      FreeMeans(s, s1, group, port, r.protocol, exclude);
    }
    if r.port == 0 {
      var lo, hi := RangeStart(w.start, w.end), RangeEnd(w.start, w.end);
      FirstFreeIsLeast(s1, group, r.protocol, lo, hi, exclude);
      if port :| HandedOut(w, port) && PortFits(s, group, w, r.protocol, exclude, port) {
        assert lo <= port <= hi && !InUse(s1, group, port, r.protocol, exclude);
      }
      var c := ChoosePort(s1, r, group, w, exclude);
      if c.Ok? {
        assert HandedOut(w, c.value) && PortFits(s, group, w, r.protocol, exclude, c.value);
      }
    }
  }

  // ---- all checks together ----

  /** What has been prepared: the row with its owner's tenant and its port, after at most a roll of that tenant. */
  ghost predicate PreparedFor(s: State, r: Rule, exclude: Id, now: int, p: Prepared)
    requires r.user in s.users && TunnelIs(s, r.tunnel)
  {
    var tenant := s.users[r.user].tenant;
    && p.group == s.net.tunnelGroup[r.tunnel]
    && p.rule == r.(tenant := tenant, port := p.rule.port)
    && PortGiven(s, p.group, Window(s, r.user, r.tunnel), r.protocol, exclude, r.port, p.rule.port)
    && (tenant == 0 || tenant in s.tenants)
    && p.state == if tenant == 0 then s else RollTenantPeriod(s, tenant, now)
  }

  /** A row that carries what the draft asks for. */
  ghost predicate RowOf(r: Rule, d: Draft) {
    r.user == d.user && r.tunnel == d.tunnel && r.protocol == d.protocol && r.port == d.port
  }

  lemma OwnerChecked(s: State, r: Rule, d: Draft, now: int)
    requires 0 !in s.users && r.user == d.user
    ensures CheckOwner(s, r, d, now).Ok? <==> d.user != 0 && d.formOk && OwnerMay(s, d.user, now)
    ensures CheckOwner(s, r, d, now).Ok? ==> r.user in s.users && CheckOwner(s, r, d, now).value == s.users[r.user]
  {
  }

  /** Preparation in three parts: the owner, the owner's tenant, and the place. */
  lemma PreparedInParts(s: State, r: Rule, d: Draft, exclude: Id, now: int, owner: bool, tenant: bool, place: bool)
    requires owner <==> CheckOwner(s, r, d, now).Ok?
    requires owner ==> r.user in s.users && CheckOwner(s, r, d, now).value == s.users[r.user]
    requires owner ==> (tenant <==> CheckTenant(s, s.users[r.user].tenant, now, exclude).Ok?)
    requires owner && tenant ==> CheckTenant(s, s.users[r.user].tenant, now, exclude).value.net == s.net
    requires owner && tenant && TunnelIs(s, r.tunnel) ==>
               var s1 := CheckTenant(s, s.users[r.user].tenant, now, exclude).value;
               (place <==> Finish(s1, r, s.users[r.user], d, s.net.tunnelGroup[r.tunnel], exclude).Ok?)
    ensures Prepare(s, r, d, exclude, now).Ok? <==> owner && TunnelIs(s, r.tunnel) && tenant && place
    ensures Prepare(s, r, d, exclude, now).Ok? ==>
              var s1 := CheckTenant(s, s.users[r.user].tenant, now, exclude).value;
              Prepare(s, r, d, exclude, now) == Finish(s1, r, s.users[r.user], d, s.net.tunnelGroup[r.tunnel], exclude)
  {
  }

  /** What the tenant check leaves: the state as it was, or with the tenant's period rolled. */
  lemma TenantFrame(s: State, tenant: Id, now: int, exclude: Id, s1: State)
    requires QuotaExact(s) && CheckTenant(s, tenant, now, exclude) == Ok(s1)
    ensures QuotaWrites(s, s1) && (tenant == 0 || tenant in s.tenants)
    ensures s1 == if tenant == 0 then s else RollTenantPeriod(s, tenant, now)
  {
    CheckedTenant(s, tenant, now, exclude);
  }

  lemma PreparedIff(s: State, r: Rule, d: Draft, exclude: Id, now: int)
    requires PanelExact(s) && RowOf(r, d)
    ensures Prepare(s, r, d, exclude, now).Ok? <==> MayWrite(s, d, exclude, now)
    ensures Prepare(s, r, d, exclude, now).Ok? ==> PreparedFor(s, r, exclude, now, Prepare(s, r, d, exclude, now).value)
  {
    OwnerChecked(s, r, d, now);
    if CheckOwner(s, r, d, now).Ok? {
      TenantChecked(s, s.users[r.user].tenant, now, exclude);
      var ct := CheckTenant(s, s.users[r.user].tenant, now, exclude);
      if ct.Ok? {
        TenantFrame(s, s.users[r.user].tenant, now, exclude, ct.value);
        if TunnelIs(s, r.tunnel) {
          FinishIff(s, ct.value, r, d, exclude);
          PreparedInParts(s, r, d, exclude, now, true, true, PlaceMay(s, d, exclude));
        }
      }
    }
  }

  lemma FinishIff(s: State, s1: State, r: Rule, d: Draft, exclude: Id)
    requires PanelExact(s) && QuotaWrites(s, s1) && RowOf(r, d) && r.user in s.users && TunnelIs(s, r.tunnel)
    ensures var u, group := s.users[r.user], s.net.tunnelGroup[r.tunnel];
            var f := Finish(s1, r, u, d, group, exclude);
            && (f.Ok? <==> PlaceMay(s, d, exclude))
            && (f.Ok? ==>
                  && f.value == Prepared(s1, r.(tenant := u.tenant, port := f.value.rule.port), group)
                  && PortGiven(s, group, Window(s, r.user, r.tunnel), r.protocol, exclude, r.port, f.value.rule.port))
  {
    QuotaWritesPlace(s, s1);
    PlacedKeeps(s, s1);
    SameRules(s, s1);
    GrantChecked(s, s1, r.user, r.tunnel, exclude);
    PortChecked(s, s1, r, s.net.tunnelGroup[r.tunnel], Window(s, r.user, r.tunnel), exclude);
    assert Matching(s1.rules, OfUser(r.user), exclude) == (set id | id in s.rules && id != exclude && s.rules[id].user == r.user);
  }

  // ---- the requests ----

  /** A written rule: asked for, active unless asked to be paused or disabled, charged with what it had been. */
  ghost predicate Written(s: State, d: Draft, exclude: Id, inBytes: int, outBytes: int, r: Rule)
    requires d.user in s.users && TunnelIs(s, d.tunnel)
  {
    && r.user == d.user && r.tenant == s.users[d.user].tenant && r.tunnel == d.tunnel && r.protocol == d.protocol
    && r.status == (if d.status == Paused then Paused else if d.status == Disabled then Disabled else Active)
    && r.source == NoSource && r.inBytes == inBytes && r.outBytes == outBytes
    && PortGiven(s, s.net.tunnelGroup[d.tunnel], Window(s, d.user, d.tunnel), d.protocol, exclude, d.port, r.port)
  }

  /** Nothing but the row, the leases and a roll of the owner's tenant. */
  ghost predicate WrittenAs(s: State, d: Draft, id: Id, now: int, s': State)
    requires d.user in s.users
  {
    var tenant := s.users[d.user].tenant;
    && (tenant == 0 || tenant in s.tenants)
    && var s1 := if tenant == 0 then s else RollTenantPeriod(s, tenant, now);
       id in s'.rules && s' == s1.(rules := s1.rules[id := s'.rules[id]], leases := s'.leases)
  }

  /** A rule is created exactly when its owner may write it, and then it is the rule that was asked for. */
  lemma CreatedIff(s: State, id: Id, d: Draft, now: int)
    requires PanelExact(s)
    ensures CreateRule(s, id, d, now).Ok? <==> MayWrite(s, d, 0, now) && id != 0 && id !in s.rules
    ensures CreateRule(s, id, d, now).Ok? ==>
              var s' := CreateRule(s, id, d, now).value;
              WrittenAs(s, d, id, now, s') && Written(s, d, 0, 0, 0, s'.rules[id])
  {
    CreateKeeps(s, id, d, now);
    PreparedIff(s, NewRow(d), d, 0, now);
  }

  /** A rule is edited exactly when its owner-to-be may write it, the rule itself not counted. */
  lemma UpdatedIff(s: State, id: Id, d: Draft, now: int)
    requires PanelExact(s)
    ensures UpdateRule(s, id, d, now).Ok? <==> id in s.rules && MayWrite(s, d, id, now)
    ensures UpdateRule(s, id, d, now).Ok? ==>
              var s', r := UpdateRule(s, id, d, now).value, s.rules[id];
              WrittenAs(s, d, id, now, s') && Written(s, d, id, r.inBytes, r.outBytes, s'.rules[id])
  {
    if id in s.rules {
      var row := EditedRow(s.rules[id], d);
      UpdateKeeps(s, id, d, now);
      PreparedIff(s, row, d, id, now);
    }
  }

  // ---- batches ----

  /** The row of a draft in a batch: written as asked. */
  predicate RowFor(users: map<Id, User>, d: Draft, r: Rule) {
    && d.user in users && r.user == d.user && r.tenant == users[d.user].tenant
    && r.tunnel == d.tunnel && r.protocol == d.protocol && (d.port != 0 ==> r.port == d.port) && 1 <= r.port <= 65535
    && r.status == (if d.status == Paused then Paused else if d.status == Disabled then Disabled else Active)
    && r.source == NoSource && r.inBytes == 0 && r.outBytes == 0
  }

  lemma CreatedFor(s: State, id: Id, d: Draft, now: int, s': State)
    requires PanelExact(s) && CreateRule(s, id, d, now) == Ok(s')
    ensures s'.users == s.users && s'.net == s.net && s'.ledger == s.ledger && id !in s.rules && s'.rules.Keys == s.rules.Keys + {id}
    ensures RowFor(s.users, d, s'.rules[id])
    ensures forall k | k in s.rules && s.rules[k].status != QuotaExhausted :: s'.rules[k] == s.rules[k]
  {
    CreateKeeps(s, id, d, now);
    PreparedExact(s, NewRow(d), d, 0, now, Prepare(s, NewRow(d), d, 0, now).value);
  }

  /** After n rounds: n new keys in use, each with the row of its draft, and the owners as they were. */
  ghost predicate BatchedUpTo(s: State, drafts: seq<Draft>, ids: seq<Id>, n: nat, c: Created)
    requires n <= |drafts| == |ids|
  {
    && c.state.users == s.users && c.state.net == s.net && c.state.ledger == s.ledger
    && |c.rules| == n && c.state.rules.Keys == s.rules.Keys + (set k | 0 <= k < n :: ids[k])
    && (forall k | 0 <= k < n :: ids[k] !in s.rules)
    && (forall k | 0 <= k < n ::
          ids[k] in c.state.rules && c.state.rules[ids[k]] == c.rules[k] && RowFor(s.users, drafts[k], c.rules[k]))
  }

  lemma BatchedNext(s: State, drafts: seq<Draft>, ids: seq<Id>, n: nat, c: Created, c': Created)
    requires n < |drafts| == |ids| && BatchedUpTo(s, drafts, ids, n, c)
    requires c'.state.users == s.users && c'.state.net == s.net && c'.state.ledger == s.ledger
    requires ids[n] !in c.state.rules && c'.state.rules.Keys == c.state.rules.Keys + {ids[n]}
    requires c'.rules == c.rules + [c'.state.rules[ids[n]]] && RowFor(s.users, drafts[n], c'.state.rules[ids[n]])
    requires forall k | k in c.state.rules && c.state.rules[k].status != QuotaExhausted :: c'.state.rules[k] == c.state.rules[k]
    ensures BatchedUpTo(s, drafts, ids, n + 1, c')
  {
    assert (set k | 0 <= k < n + 1 :: ids[k]) == (set k | 0 <= k < n :: ids[k]) + {ids[n]};
    forall k | 0 <= k < n + 1
      ensures ids[k] in c'.state.rules && c'.state.rules[ids[k]] == c'.rules[k] && RowFor(s.users, drafts[k], c'.rules[k])
    {
      assert k < n ==> c'.rules[k] == c.rules[k] && ids[k] in c.state.rules;
    }
  }

  ghost function BatchedBy(s: State, drafts: seq<Draft>, ids: seq<Id>): (nat, Created) -> bool {
    (k: nat, c: Created) => k <= |drafts| == |ids| && PanelExact(c.state) && BatchedUpTo(s, drafts, ids, k, c)
  }

  lemma BatchedStep(s: State, drafts: seq<Draft>, ids: seq<Id>, now: int, k: nat, c: Created)
    requires k < |drafts| && BatchedBy(s, drafts, ids)(k, c) && BatchStep(CreateAt(now), drafts, ids)(c, k).Ok?
    ensures BatchedBy(s, drafts, ids)(k + 1, BatchStep(CreateAt(now), drafts, ids)(c, k).value)
  {
    var c' := BatchStep(CreateAt(now), drafts, ids)(c, k).value;
    CreateKeeps(c.state, ids[k], drafts[k], now);
    CreatedFor(c.state, ids[k], drafts[k], now, c'.state);
    BatchedNext(s, drafts, ids, k, c, c');
  }

  lemma BatchedAll(s: State, drafts: seq<Draft>, ids: seq<Id>, now: int)
    requires PanelExact(s) && |drafts| == |ids| && CreateFirst(s, drafts, ids, now, |drafts|).Ok?
    ensures BatchedBy(s, drafts, ids)(|drafts|, CreateFirst(s, drafts, ids, now, |drafts|).value)
  {
    var step := BatchStep(CreateAt(now), drafts, ids);
    forall k: nat, c | k < |drafts| && BatchedBy(s, drafts, ids)(k, c) && step(c, k).Ok?
      ensures BatchedBy(s, drafts, ids)(k + 1, step(c, k).value)
    {
      BatchedStep(s, drafts, ids, now, k, c);
    }
    IterateReaches(BatchedBy(s, drafts, ids), step, Created(s, []), |drafts|);
  }

  /** Draft k of a batch may be created, under its key, next to those created before it. */
  ghost predicate MayCreate(drafts: seq<Draft>, ids: seq<Id>, now: int, k: nat, c: Created) {
    && k < |drafts| && k < |ids|
    && MayWrite(c.state, drafts[k], 0, now) && ids[k] != 0 && ids[k] !in c.state.rules
  }

  ghost function CreatableAt(drafts: seq<Draft>, ids: seq<Id>, now: int): (nat, Created) -> bool {
    (k: nat, c: Created) => MayCreate(drafts, ids, now, k, c)
  }

  /** Every draft may be created when its turn comes. */
  ghost predicate AllInTurn(s: State, drafts: seq<Draft>, ids: seq<Id>, now: int) {
    InTurn(CreatableAt(drafts, ids, now), BatchStep(CreateAt(now), drafts, ids), Created(s, []), |drafts|)
  }

  lemma NextCreatedIff(c: Created, drafts: seq<Draft>, ids: seq<Id>, now: int, k: nat)
    requires PanelExact(c.state) && k < |drafts| == |ids|
    ensures BatchStep(CreateAt(now), drafts, ids)(c, k).Ok? <==> CreatableAt(drafts, ids, now)(k, c)
    ensures BatchStep(CreateAt(now), drafts, ids)(c, k).Ok? ==> PanelExact(BatchStep(CreateAt(now), drafts, ids)(c, k).value.state)
  {
    CreatedIff(c.state, ids[k], drafts[k], now);
    CreateKeeps(c.state, ids[k], drafts[k], now);
  }

  /** The loop gets through exactly when each draft may be created next to those before it. */
  lemma AllCreatedIff(s: State, drafts: seq<Draft>, ids: seq<Id>, now: int)
    requires PanelExact(s) && |drafts| == |ids|
    ensures CreateFirst(s, drafts, ids, now, |drafts|).Ok? <==> AllInTurn(s, drafts, ids, now)
  {
    var inv, step := (c: Created) => PanelExact(c.state), BatchStep(CreateAt(now), drafts, ids);
    forall k: nat, c | k < |drafts| && inv(c)
      ensures (step(c, k).Ok? <==> CreatableAt(drafts, ids, now)(k, c)) && (step(c, k).Ok? ==> inv(step(c, k).value))
    {
      NextCreatedIff(c, drafts, ids, now, k);
    }
    IterateOkIff(inv, CreatableAt(drafts, ids, now), step, Created(s, []), |drafts|);
  }

  /**
   * A batch is accepted exactly when it has 1 to 100 drafts and each may be written in its turn. A commit then adds
   * exactly its rules, as they were asked for; a refused batch and a preview add none.
   */
  lemma BatchIff(s: State, drafts: seq<Draft>, ids: seq<Id>, now: int, preview: bool)
    requires PanelExact(s) && |ids| == |drafts|
    ensures var reply := ApplyBatch(s, drafts, ids, now, preview);
            && (reply.outcome.Ok? <==> 1 <= |drafts| <= 100 && AllInTurn(s, drafts, ids, now))
            && (reply.outcome.Err? || preview ==> reply.state == s)
            && (reply.outcome.Ok? ==>
                  |reply.outcome.value| == |drafts| && forall k | 0 <= k < |drafts| :: RowFor(s.users, drafts[k], reply.outcome.value[k]))
            && (reply.outcome.Ok? && !preview ==> BatchedUpTo(s, drafts, ids, |drafts|, Created(reply.state, reply.outcome.value)))
  {
    AllCreatedIff(s, drafts, ids, now);
    if CreateFirst(s, drafts, ids, now, |drafts|).Ok? {
      BatchedAll(s, drafts, ids, now);
    }
  }
}
