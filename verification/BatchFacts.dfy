/**
 * A batch preview predicts the commit: rule ids play no part in any check, so creating the same drafts
 * under other keys assigns the same ports and fails with the same error.
 */
module BatchFacts {
  import opened Common
  import opened Store
  import opened Quota
  import opened Ports
  import opened Rules
  import opened RulesFacts

  /** A one-to-one renaming of rule ids: to and back are inverse maps. */
  datatype Renaming = Renaming(to: map<Id, Id>, back: map<Id, Id>)

  ghost predicate Inverse(f: Renaming) {
    && (forall x | x in f.to :: f.to[x] in f.back && f.back[f.to[x]] == x)
    && (forall z | z in f.back :: f.back[z] in f.to && f.to[f.back[z]] == z)
  }

  /** t is s with rule ids renamed by f; the lease tables are compared through the rules they mirror. */
  ghost predicate Renamed(s: State, t: State, f: Renaming) {
    && t.users == s.users && t.tenants == s.tenants && t.net == s.net
    && Inverse(f) && f.to.Keys == s.rules.Keys && f.back.Keys == t.rules.Keys && 0 !in s.rules && 0 !in t.rules
    && (forall x | x in f.to :: t.rules[f.to[x]] == s.rules[x])
  }

  lemma {:induction false} SameSize(a: set<Id>, b: set<Id>, f: Renaming)
    requires Inverse(f) && a <= f.to.Keys && b <= f.back.Keys
    requires forall x | x in a :: f.to[x] in b
    requires forall z | z in b :: f.back[z] in a
    ensures |a| == |b|
  {
    if a == {} {
      assert b == {};
    } else {
      var x :| x in a;
      SameSize(a - {x}, b - {f.to[x]}, f);
    }
  }

  lemma SameCount(s: State, t: State, f: Renaming, cond: Rule -> bool)
    requires Renamed(s, t, f)
    ensures CountRules(s, cond, 0) == CountRules(t, cond, 0)
  {
    SameSize(Matching(s.rules, cond, 0), Matching(t.rules, cond, 0), f);
  }

  lemma SameRoll(s: State, t: State, f: Renaming, tenant: Id, now: int)
    requires Renamed(s, t, f) && tenant in s.tenants
    ensures Renamed(RollTenantPeriod(s, tenant, now), RollTenantPeriod(t, tenant, now), f)
  {
  }

  lemma SameHeld(s: State, t: State, f: Renaming, group: Id, port: int, p: Protocol)
    requires Renamed(s, t, f)
    ensures HeldByRule(s, group, port, p, 0) == HeldByRule(t, group, port, p, 0)
  {
    if HeldByRule(s, group, port, p, 0) {
      var x :| x in s.rules && GroupOf(s, s.rules[x]) == Some(group) && s.rules[x].port == port
               && NeedsLease(s.rules[x].status) && Overlap(p, s.rules[x].protocol);
      assert t.rules[f.to[x]] == s.rules[x];
    }
    if HeldByRule(t, group, port, p, 0) {
      var z :| z in t.rules && GroupOf(t, t.rules[z]) == Some(group) && t.rules[z].port == port
               && NeedsLease(t.rules[z].status) && Overlap(p, t.rules[z].protocol);
      assert s.rules[f.back[z]] == t.rules[z];
    }
  }

  lemma SameUse(s: State, t: State, f: Renaming, group: Id, port: int, p: Protocol)
    requires Renamed(s, t, f) && PortsExact(s) && PortsExact(t) && group in s.net.groups
    ensures InUse(s, group, port, p, 0) == InUse(t, group, port, p, 0)
  {
    SameHeld(s, t, f, group, port, p);
    LeasedIsHeld(s, group, port, p);
    LeasedIsHeld(t, group, port, p);
  }

  lemma LeasedIsHeld(s: State, group: Id, port: int, p: Protocol)
    requires PortsExact(s)
    ensures InUse(s, group, port, p, 0) <==> HeldByRule(s, group, port, p, 0)
  {
    if Leased(s, group, port, p, 0) {
      var l :| l in s.leases && l.group == group && l.port == port && l.transport in TransportList(p);
      assert Claims(s, l);
      assert HeldByRule(s, group, port, p, 0);
    }
  }

  lemma {:induction false} SameFirstFree(s: State, t: State, f: Renaming, group: Id, p: Protocol, port: int, end: int)
    requires Renamed(s, t, f) && PortsExact(s) && PortsExact(t) && group in s.net.groups
    ensures FirstFree(s, group, p, port, end, 0) == FirstFree(t, group, p, port, end, 0)
    decreases end - port
  {
    if port <= end {
      SameUse(s, t, f, group, port, p);
      SameFirstFree(s, t, f, group, p, port + 1, end);
    }
  }

  lemma SamePort(s: State, t: State, f: Renaming, r: Rule, group: Id, range: PortRange)
    requires Renamed(s, t, f) && PortsExact(s) && PortsExact(t) && group in s.net.groups
    ensures ChoosePort(s, r, group, range, 0) == ChoosePort(t, r, group, range, 0)
  {
    SameFirstFree(s, t, f, group, r.protocol, RangeStart(range.start, range.end), RangeEnd(range.start, range.end));
    var chosen := if r.port == 0 then AllocatePort(s, group, r.protocol, range.start, range.end, 0) else Ok(r.port);
    if chosen.Ok? {
      SameUse(s, t, f, group, chosen.value, r.protocol);
    }
  }

  lemma SameTenantCheck(s: State, t: State, f: Renaming, tenant: Id, now: int)
    requires Renamed(s, t, f)
    ensures CheckTenant(s, tenant, now, 0).Ok? <==> CheckTenant(t, tenant, now, 0).Ok?
    ensures CheckTenant(s, tenant, now, 0).Ok? ==>
              Renamed(CheckTenant(s, tenant, now, 0).value, CheckTenant(t, tenant, now, 0).value, f)
    ensures CheckTenant(s, tenant, now, 0).Err? ==> CheckTenant(s, tenant, now, 0).error == CheckTenant(t, tenant, now, 0).error
  {
    if tenant in s.tenants {
      SameRoll(s, t, f, tenant, now);
      SameCount(RollTenantPeriod(s, tenant, now), RollTenantPeriod(t, tenant, now), f, OfTenant(tenant));
    }
  }

  lemma SameGrant(s: State, t: State, f: Renaming, user: Id, u: User, tunnel: Id, range: PortRange)
    requires Renamed(s, t, f)
    ensures CheckGrant(s, user, u, tunnel, range, 0) == CheckGrant(t, user, u, tunnel, range, 0)
  {
    SameCount(s, t, f, OfUserOn(user, tunnel));
    SameCount(s, t, f, OfTenantOn(u.tenant, tunnel));
  }

  lemma SameFinish(s: State, t: State, f: Renaming, r: Rule, u: User, d: Draft, group: Id)
    requires Renamed(s, t, f) && PortsExact(s) && PortsExact(t) && group in s.net.groups
    ensures var p, q := Finish(s, r, u, d, group, 0), Finish(t, r, u, d, group, 0);
            match (p, q)
            case (Ok(a), Ok(b)) => a.rule == b.rule && a.group == b.group && a.state == s && b.state == t
            case (Err(x), Err(y)) => x == y
            case _ => false
  {
    var g := s.net.groups[group];
    SameGrant(s, t, f, r.user, u, r.tunnel, PortRange(g.portStart, g.portEnd));
    var range := CheckGrant(s, r.user, u, r.tunnel, PortRange(g.portStart, g.portEnd), 0);
    if range.Ok? {
      SamePort(s, t, f, r, group, range.value);
      SameCount(s, t, f, OfUser(r.user));
    }
  }

  /** Two results are the same error, or both succeed with the same row and renamed states. */
  ghost predicate SamePrepared(p: Result<Prepared, Error>, q: Result<Prepared, Error>, f: Renaming) {
    match (p, q)
    case (Ok(a), Ok(b)) => a.rule == b.rule && a.group == b.group && Renamed(a.state, b.state, f)
    case (Err(x), Err(y)) => x == y
    case _ => false
  }

  /** Preparing the same draft in both states gives the same row, or the same error. */
  lemma SamePrepare(s: State, t: State, f: Renaming, r: Rule, d: Draft, now: int)
    requires Renamed(s, t, f) && PanelExact(s) && PanelExact(t)
    ensures SamePrepared(Prepare(s, r, d, 0, now), Prepare(t, r, d, 0, now), f)
  {
    if CheckOwner(s, r, d, now).Ok? && GroupOf(s, r).Some? {
      var u := CheckOwner(s, r, d, now).value;
      SameTenantCheck(s, t, f, u.tenant, now);
      if CheckTenant(s, u.tenant, now, 0).Ok? && GroupOf(s, r).value in s.net.groups {
        TenantCheckPlaces(s, u.tenant, now);
        TenantCheckPlaces(t, u.tenant, now);
        SameFinish(CheckTenant(s, u.tenant, now, 0).value, CheckTenant(t, u.tenant, now, 0).value, f,
                   r, u, d, GroupOf(s, r).value);
      }
    }
  }

  lemma TenantCheckPlaces(s: State, tenant: Id, now: int)
    requires PanelExact(s) && CheckTenant(s, tenant, now, 0).Ok?
    ensures PortsExact(CheckTenant(s, tenant, now, 0).value)
    ensures CheckTenant(s, tenant, now, 0).value.net == s.net
  {
    CheckedTenant(s, tenant, now, 0);
    QuotaWritesPlace(s, CheckTenant(s, tenant, now, 0).value);
    PlacedKeeps(s, CheckTenant(s, tenant, now, 0).value);
  }

  /** Creating the same draft under two new keys keeps the states renamings of each other. */
  lemma SameCreate(s: State, t: State, f: Renaming, a: Id, b: Id, d: Draft, now: int)
    requires Renamed(s, t, f) && PanelExact(s) && PanelExact(t)
    requires a != 0 && b != 0 && a !in s.rules && b !in t.rules
    ensures CreateRule(s, a, d, now).Ok? <==> CreateRule(t, b, d, now).Ok?
    ensures CreateRule(s, a, d, now).Err? ==> CreateRule(s, a, d, now).error == CreateRule(t, b, d, now).error
    ensures CreateRule(s, a, d, now).Ok? ==>
              var s', t' := CreateRule(s, a, d, now).value, CreateRule(t, b, d, now).value;
              && s'.rules.Keys == s.rules.Keys + {a} && t'.rules.Keys == t.rules.Keys + {b}
              && s'.rules[a] == t'.rules[b]
              && Renamed(s', t', Extended(f, a, b)) && PanelExact(s') && PanelExact(t')
  {
    SamePrepare(s, t, f, NewRow(d), d, now);
    CreateKeeps(s, a, d, now);
    CreateKeeps(t, b, d, now);
    if CreateRule(s, a, d, now).Ok? {
      var p, q := Prepare(s, NewRow(d), d, 0, now).value, Prepare(t, NewRow(d), d, 0, now).value;
      RenamedInsert(p.state, q.state, f, a, b, p.rule, CreateRule(s, a, d, now).value, CreateRule(t, b, d, now).value);
    }
  }

  function Extended(f: Renaming, a: Id, b: Id): Renaming {
    Renaming(f.to[a := b], f.back[b := a])
  }

  lemma RenamedInsert(s: State, t: State, f: Renaming, a: Id, b: Id, r: Rule, s': State, t': State)
    requires Renamed(s, t, f) && a !in s.rules && b !in t.rules && a != 0 && b != 0
    requires s' == s.(rules := s.rules[a := r], leases := s'.leases)
    requires t' == t.(rules := t.rules[b := r], leases := t'.leases)
    ensures Renamed(s', t', Extended(f, a, b))
  {
  }

  /** The keys a transaction draws are new, nonzero and distinct. */
  ghost predicate FreshKeys(s: State, ids: seq<Id>) {
    && (forall k | 0 <= k < |ids| :: ids[k] != 0 && ids[k] !in s.rules)
    && (forall i, j | 0 <= i < j < |ids| :: ids[i] != ids[j])
  }

  /** Two creations of one draft agree: same error, or same row and again twin states. */
  ghost predicate CreationsAgree(twin: (State, State) -> bool, create: Creator, s: State, t: State, a: Id, b: Id, d: Draft) {
    match (create(s, a, d), create(t, b, d))
    case (Ok(s'), Ok(t')) =>
      && s'.rules.Keys == s.rules.Keys + {a} && t'.rules.Keys == t.rules.Keys + {b}
      && s'.rules[a] == t'.rules[b] && twin(s', t')
    case (Err(x), Err(y)) => x == y
    case _ => false
  }

  /** After k rounds: same rows so far, twin states, and the remaining keys still unused. */
  ghost predicate InStep(twin: (State, State) -> bool, a: seq<Id>, b: seq<Id>, k: nat, c: Created, e: Created) {
    && c.rules == e.rules && twin(c.state, e.state)
    && (forall j | k <= j < |a| :: a[j] !in c.state.rules)
    && (forall j | k <= j < |b| :: b[j] !in e.state.rules)
  }

  lemma RoundInStep(twin: (State, State) -> bool, create: Creator, s: State, drafts: seq<Draft>, a: seq<Id>, b: seq<Id>,
                    rel: (nat, Created, Created) -> bool, k: nat, c: Created, e: Created)
    requires FreshKeys(s, a) && FreshKeys(s, b) && |a| == |b| == |drafts| && k < |drafts|
    requires forall i, x, y :: rel(i, x, y) <==> InStep(twin, a, b, i, x, y)
    requires InStep(twin, a, b, k, c, e) && CreationsAgree(twin, create, c.state, e.state, a[k], b[k], drafts[k])
    ensures StepsAgree(rel, BatchStep(create, drafts, a), BatchStep(create, drafts, b), k, c, e)
  {
    var p, q := CreateNext(create, c, a[k], drafts[k]), CreateNext(create, e, b[k], drafts[k]);
    if p.Ok? {
      assert InStep(twin, a, b, k + 1, p.value, q.value);
    }
  }

  /** If single creations agree from twin states, whole batches do. */
  lemma BatchesAgree(twin: (State, State) -> bool, create: Creator, s: State, drafts: seq<Draft>, a: seq<Id>, b: seq<Id>)
    requires FreshKeys(s, a) && FreshKeys(s, b) && |a| == |b| == |drafts| && twin(s, s)
    requires forall x, y, i, j, d | twin(x, y) && i != 0 && j != 0 && i !in x.rules && j !in y.rules ::
               CreationsAgree(twin, create, x, y, i, j, d)
    ensures var p := Iterate(BatchStep(create, drafts, a), Created(s, []), |drafts|);
            var q := Iterate(BatchStep(create, drafts, b), Created(s, []), |drafts|);
            match (p, q)
            case (Ok(x), Ok(y)) => x.rules == y.rules
            case (Err(x), Err(y)) => x == y
            case _ => false
  {
    var rel := (k: nat, x, y) => InStep(twin, a, b, k, x, y);
    assert rel(0, Created(s, []), Created(s, []));
    forall k: nat, c, e | k < |drafts| && rel(k, c, e)
      ensures StepsAgree(rel, BatchStep(create, drafts, a), BatchStep(create, drafts, b), k, c, e)
    {
      RoundInStep(twin, create, s, drafts, a, b, rel, k, c, e);
    }
    IterateRelated(rel, BatchStep(create, drafts, a), BatchStep(create, drafts, b), Created(s, []), Created(s, []), |drafts|);
  }

  ghost predicate Twin(s: State, t: State) {
    PanelExact(s) && PanelExact(t) && exists f :: Renamed(s, t, f)
  }

  lemma TwinCreations(s: State, t: State, a: Id, b: Id, d: Draft, now: int)
    requires Twin(s, t) && a != 0 && b != 0 && a !in s.rules && b !in t.rules
    ensures CreationsAgree(Twin, CreateAt(now), s, t, a, b, d)
  {
    var f :| Renamed(s, t, f);
    SameCreate(s, t, f, a, b, d, now);
  }

  /**
   * Preview predicts commit: from the same state and clock the preview leaves the state unchanged and
   * returns the very rows, ports included, or the very error, that a commit under any other keys gives.
   */
  lemma PreviewPredictsCommit(s: State, drafts: seq<Draft>, a: seq<Id>, b: seq<Id>, now: int)
    requires PanelExact(s) && |a| == |b| == |drafts| && FreshKeys(s, a) && FreshKeys(s, b)
    ensures ApplyBatch(s, drafts, a, now, true).state == s
    ensures ApplyBatch(s, drafts, a, now, true).outcome == ApplyBatch(s, drafts, b, now, false).outcome
  {
    var ident := map x | x in s.rules :: x;
    assert Renamed(s, s, Renaming(ident, ident));
    forall x, y, i, j, d | Twin(x, y) && i != 0 && j != 0 && i !in x.rules && j !in y.rules
      ensures CreationsAgree(Twin, CreateAt(now), x, y, i, j, d)
    {
      TwinCreations(x, y, i, j, d, now);
    }
    BatchesAgree(Twin, CreateAt(now), s, drafts, a, b);
  }
}
