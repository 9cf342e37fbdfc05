/** Rule requests keep quotas and ports exact, and only the check, never the insert, refuses a port. */
module RulesFacts {
  import opened Common
  import opened Store
  import opened Quota
  import opened Ports
  import opened Rules

  ghost predicate PanelExact(s: State) {
    QuotaExact(s) && PortsExact(s)
  }

  lemma QuotaWritesPlace(s: State, s': State)
    requires QuotaWrites(s, s')
    ensures Placed(s, s')
  {
    forall r | r in s.rules ensures StatusWrite(s.rules[r], s'.rules[r]) {}
  }

  lemma CheckedTenant(s: State, tenant: Id, now: int, exclude: Id)
    requires QuotaExact(s) && CheckTenant(s, tenant, now, exclude).Ok?
    ensures var s' := CheckTenant(s, tenant, now, exclude).value;
            QuotaExact(s') && QuotaWrites(s, s') && OnlyWakes(s, s') && !Blocked(s', tenant)
  {
    if tenant != 0 {
      RollTenantKeeps(s, tenant, now, {});
      RollWrites(s, tenant, now);
    }
  }

  /** Everything a prepared rule satisfies, whichever branch prepared it. */
  ghost predicate Sound(s: State, p: Prepared, r: Rule, exclude: Id) {
    && QuotaExact(p.state) && QuotaWrites(s, p.state) && OnlyWakes(s, p.state)
    && p.rule == r.(tenant := p.rule.tenant, port := p.rule.port) && (r.port != 0 ==> p.rule.port == r.port)
    && p.rule.user in p.state.users && p.rule.tenant == p.state.users[p.rule.user].tenant
    && !Spent(p.state, p.rule.user) && !Blocked(p.state, p.rule.tenant)
    && GroupOf(p.state, p.rule) == Some(p.group) && p.group in p.state.net.groups
    && 1 <= p.rule.port <= 65535
    && !InUse(p.state, p.group, p.rule.port, p.rule.protocol, exclude)
  }

  lemma PreparedSound(s: State, r: Rule, d: Draft, exclude: Id, now: int)
    requires QuotaExact(s) && Prepare(s, r, d, exclude, now).Ok?
    ensures Sound(s, Prepare(s, r, d, exclude, now).value, r, exclude)
  {
    CheckedTenant(s, s.users[r.user].tenant, now, exclude);
  }

  /** A rule written after a successful check fits the quota state whatever its status. */
  lemma WrittenExact(s: State, id: Id, r: Rule)
    requires QuotaExact(s) && id != 0
    requires r.user in s.users && r.tenant == s.users[r.user].tenant && GroupOf(s, r).Some?
    requires !Spent(s, r.user) && !Blocked(s, r.tenant) && r.source == NoSource && r.status != QuotaExhausted
    ensures QuotaExact(s.(rules := s.rules[id := r]))
  {
    var s' := s.(rules := s.rules[id := r]);
    forall x | x in s'.rules ensures RuleExact(s', s'.rules[x], {}) {
      if x != id { assert RuleExact(s, s.rules[x], {}); }
    }
  }

  lemma LeasesIgnored(s: State, leases: set<Lease>)
    requires QuotaExact(s)
    ensures QuotaExact(s.(leases := leases))
  {
    var s' := s.(leases := leases);
    forall x | x in s'.rules ensures RuleExact(s', s'.rules[x], {}) {
      assert RuleExact(s, s.rules[x], {});
    }
  }

  /** Saving row r under id and rewriting its leases, from an exact state, cannot fail. */
  lemma SavedExact(s: State, id: Id, r: Rule, group: Id, exclude: Id)
    requires PanelExact(s) && id > 0 && exclude == (if id in s.rules then id else 0)
    requires r.user in s.users && r.tenant == s.users[r.user].tenant
    requires !Spent(s, r.user) && !Blocked(s, r.tenant) && r.source == NoSource && r.status != QuotaExhausted
    requires GroupOf(s, r) == Some(group) && group in s.net.groups
    requires !InUse(s, group, r.port, r.protocol, exclude)
    ensures ReplaceLeases(s.(rules := s.rules[id := r]), id, r, group).Ok?
    ensures PanelExact(ReplaceLeases(s.(rules := s.rules[id := r]), id, r, group).value)
  {
    var s1 := s.(rules := s.rules[id := r]);
    WrittenExact(s, id, r);
    forall l: Lease | l.rule != id ensures l in s1.leases <==> Claims(s1, l) {
      assert l in s.leases <==> Claims(s, l);
    }
    forall a, b | a in s1.rules && b in s1.rules && a != id && b != id ensures Apart(s1, a, b) {
      assert Apart(s, a, b);
    }
    StillFree(s, id, r, group, exclude);
    ReplacedLeases(s1, id, r, group);
    LeasesIgnored(s1, ReplaceLeases(s1, id, r, group).value.leases);
  }

  /** Writing the row itself does not take the port away from it. */
  lemma StillFree(s: State, id: Id, r: Rule, group: Id, exclude: Id)
    requires id > 0 && exclude == (if id in s.rules then id else 0)
    requires !InUse(s, group, r.port, r.protocol, exclude)
    ensures !InUse(s.(rules := s.rules[id := r]), group, r.port, r.protocol, id)
  {
  }

  lemma SaveExact(s: State, p: Prepared, r: Rule, id: Id, exclude: Id)
    requires Sound(s, p, r, exclude) && PortsExact(p.state) && r.source == NoSource && r.status != QuotaExhausted
    requires id > 0 && exclude == (if id in s.rules then id else 0)
    ensures Save(p, id).Ok? && PanelExact(Save(p, id).value)
    ensures Save(p, id).value == p.state.(rules := p.state.rules[id := p.rule], leases := Save(p, id).value.leases)
    ensures p.state.rules.Keys == s.rules.Keys
  {
    SavedExact(p.state, id, p.rule, p.group, exclude);
  }

  lemma PreparedExact(s: State, r: Rule, d: Draft, exclude: Id, now: int, p: Prepared)
    requires PanelExact(s) && Prepare(s, r, d, exclude, now) == Ok(p)
    ensures Sound(s, p, r, exclude) && PanelExact(p.state)
  {
    PreparedSound(s, r, d, exclude, now);
    QuotaWritesPlace(s, p.state);
    PlacedKeeps(s, p.state);
  }

  lemma PreparedSaves(s: State, r: Rule, d: Draft, exclude: Id, now: int, p: Prepared, id: Id)
    requires PanelExact(s) && Prepare(s, r, d, exclude, now) == Ok(p) && r.source == NoSource && r.status != QuotaExhausted
    requires id > 0 && exclude == (if id in s.rules then id else 0)
    ensures p.group in p.state.net.groups && p.state.rules.Keys == s.rules.Keys
    ensures Save(p, id).Ok? && PanelExact(Save(p, id).value)
    ensures Save(p, id).value == p.state.(rules := p.state.rules[id := p.rule], leases := Save(p, id).value.leases)
  {
    PreparedExact(s, r, d, exclude, now, p);
    SaveExact(s, p, r, id, exclude);
  }

  /** Creation succeeds exactly when the checks pass and the key is new: no lease insert can fail. */
  lemma CreateKeeps(s: State, id: Id, d: Draft, now: int)
    requires PanelExact(s)
    ensures CreateRule(s, id, d, now).Ok? <==> Prepare(s, NewRow(d), d, 0, now).Ok? && id != 0 && id !in s.rules
    ensures CreateRule(s, id, d, now).Ok? ==>
              var s' := CreateRule(s, id, d, now).value;
              var p := Prepare(s, NewRow(d), d, 0, now).value;
              && PanelExact(s') && s'.rules.Keys == s.rules.Keys + {id}
              && s' == p.state.(rules := p.state.rules[id := p.rule], leases := s'.leases)
  {
    if Prepare(s, NewRow(d), d, 0, now).Ok? {
      var p := Prepare(s, NewRow(d), d, 0, now).value;
      if id != 0 && id !in s.rules {
        PreparedSaves(s, NewRow(d), d, 0, now, p, id);
      } else {
        PreparedExact(s, NewRow(d), d, 0, now, p);
      }
    }
  }

  lemma UpdateKeeps(s: State, id: Id, d: Draft, now: int)
    requires PanelExact(s) && id in s.rules
    ensures UpdateRule(s, id, d, now).Ok? <==> Prepare(s, EditedRow(s.rules[id], d), d, id, now).Ok?
    ensures UpdateRule(s, id, d, now).Ok? ==>
              var s' := UpdateRule(s, id, d, now).value;
              var p := Prepare(s, EditedRow(s.rules[id], d), d, id, now).value;
              PanelExact(s') && s' == p.state.(rules := p.state.rules[id := p.rule], leases := s'.leases)
  {
    var row := EditedRow(s.rules[id], d);
    if Prepare(s, row, d, id, now).Ok? {
      PreparedSaves(s, row, d, id, now, Prepare(s, row, d, id, now).value, id);
    }
  }

  lemma DeleteKeeps(s: State, id: Id)
    requires PanelExact(s)
    ensures DeleteRule(s, id).Ok? <==> id in s.rules && id !in s.net.speedLimited
    ensures DeleteRule(s, id).Ok? ==> DeletedExact(s, id, DeleteRule(s, id).value)
  {
    if DeleteRule(s, id).Ok? {
      DeletedKeeps(s, id);
    }
  }

  /** The rule and its leases are gone, everything else is as it was. */
  ghost predicate DeletedExact(s: State, id: Id, s': State) {
    && PanelExact(s') && s'.rules == s.rules - {id}
    && (forall l: Lease :: l in s'.leases <==> l in s.leases && l.rule != id)
    && s' == s.(rules := s'.rules, leases := s'.leases)
  }

  lemma DeletedKeeps(s: State, id: Id)
    requires PanelExact(s) && DeleteRule(s, id).Ok?
    ensures DeletedExact(s, id, DeleteRule(s, id).value)
  {
    var s' := DeleteRule(s, id).value;
    forall r | r in s'.rules ensures RuleExact(s', s'.rules[r], {}) {
      assert RuleExact(s, s.rules[r], {});
    }
    forall l: Lease ensures l in s'.leases <==> Claims(s', l) {
      assert l in s.leases <==> Claims(s, l);
    }
    forall a, b | a in s'.rules && b in s'.rules ensures Apart(s', a, b) {
      assert Apart(s, a, b);
    }
  }

  lemma BatchKeeps(s: State, drafts: seq<Draft>, ids: seq<Id>, now: int, n: nat)
    requires PanelExact(s) && CreateFirst(s, drafts, ids, now, n).Ok?
    ensures PanelExact(CreateFirst(s, drafts, ids, now, n).value.state)
  {
    var step := BatchStep(CreateAt(now), drafts, ids);
    var inv := (c: Created) => PanelExact(c.state);
    forall c, k: nat | k < n && inv(c) && step(c, k).Ok? ensures inv(step(c, k).value) {
      CreateKeeps(c.state, ids[k], drafts[k], now);
    }
    IterateKeeps(inv, step, Created(s, []), n);
  }
}
