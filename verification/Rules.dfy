/**
 * Creating, updating, deleting and batch-creating forwarding rules: prepareForwardRuleTx with its
 * checks in the source's order, then the row, then its leases.
 */
module Rules {
  import opened Common
  import opened Store
  import opened Quota
  import opened Ports

  /**
   * A requested rule. formOk is the outcome of the checks that read only the payload (name, remote
   * address, strategy); policyOk that of the protocol policy lookup.
   */
  datatype Draft = Draft(user: Id, tunnel: Id, protocol: Protocol, port: int, status: Status, formOk: bool, policyOk: bool)

  datatype Prepared = Prepared(state: State, rule: Rule, group: Id)

  /** forwardRuleStatusAfterWrite. */
  function StatusAfterWrite(status: Status): Status {
    if status == Paused || status == Disabled then status else Active
  }

  function NewRow(d: Draft): Rule {
    Rule(d.user, 0, d.tunnel, d.protocol, d.port, StatusAfterWrite(d.status), NoSource, 0, 0)
  }

  function EditedRow(r: Rule, d: Draft): Rule {
    NewRow(d).(tenant := r.tenant, inBytes := r.inBytes, outBytes := r.outBytes)
  }

  function Matching(rules: map<Id, Rule>, cond: Rule -> bool, exclude: Id): set<Id> {
    set id | id in rules && cond(rules[id]) && id != exclude
  }

  /** countForwardRulesTx: how many rules other than the excluded one meet a condition. */
  function CountRules(s: State, cond: Rule -> bool, exclude: Id): nat {
    |Matching(s.rules, cond, exclude)|
  }

  function OfUser(user: Id): Rule -> bool {
    (r: Rule) => r.user == user
  }

  function OfTenant(tenant: Id): Rule -> bool {
    (r: Rule) => r.tenant == tenant
  }

  function OfUserOn(user: Id, tunnel: Id): Rule -> bool {
    (r: Rule) => r.user == user && r.tunnel == tunnel
  }

  function OfTenantOn(tenant: Id, tunnel: Id): Rule -> bool {
    (r: Rule) => r.tenant == tenant && r.tunnel == tunnel
  }

  predicate TenantActiveAt(t: Tenant, now: int) {
    t.isActive && (t.expiresAt == None || t.expiresAt.value > now)
  }

  /** The owner's tenant: rolled if its period is over, then checked. */
  function CheckTenant(s: State, tenant: Id, now: int, exclude: Id): Result<State, Error> {
    if tenant == 0 then Ok(s)
    else if tenant !in s.tenants then Err(Refused("tenant not found"))
    else
      var s1 := RollTenantPeriod(s, tenant, now);
      var t := s1.tenants[tenant];
      if !TenantActiveAt(t, now) then Err(Refused("tenant is not active"))
      else if TenantBlocks(t) then Err(Refused("tenant traffic is exhausted"))
      else if t.forwardLimit > 0 && CountRules(s1, OfTenant(tenant), exclude) >= t.forwardLimit
      then Err(Refused("tenant forward rule limit reached"))
      else Ok(s1)
  }

  datatype PortRange = PortRange(start: int, end: int)

  function Narrowed(range: PortRange, g: Grant): PortRange {
    if g.portStart > 0 && g.portEnd > 0 then PortRange(g.portStart, g.portEnd) else range
  }

  /** The grant that applies, direct before tenant, and the port range it leaves. */
  function CheckGrant(s: State, user: Id, u: User, tunnel: Id, range: PortRange, exclude: Id): Result<PortRange, Error> {
    if u.role == Admin then Ok(range)
    else if u.role == Regular && exists k | k in s.net.userGrants :: k.holder == user then
      var k := GrantKey(user, tunnel);
      if k !in s.net.userGrants then Err(Refused("user is not authorized to use this tunnel"))
      else
        var g := s.net.userGrants[k];
        if g.forwardLimit > 0 && CountRules(s, OfUserOn(user, tunnel), exclude) >= g.forwardLimit
        then Err(Refused("user tunnel forward rule limit reached"))
        else Ok(Narrowed(range, g))
    else if u.tenant > 0 then
      var k := GrantKey(u.tenant, tunnel);
      if k !in s.net.tenantGrants then Err(Refused("tenant is not authorized to use this tunnel"))
      else
        var g := s.net.tenantGrants[k];
        if g.forwardLimit > 0 && CountRules(s, OfTenantOn(u.tenant, tunnel), exclude) >= g.forwardLimit
        then Err(Refused("tenant tunnel forward rule limit reached"))
        else Ok(Narrowed(range, g))
    else Err(Refused("user is not authorized to use this tunnel"))
  }

  /** The listen port: allocated when none is asked for, then checked against range and use. */
  function ChoosePort(s: State, r: Rule, group: Id, range: PortRange, exclude: Id): Result<int, Error> {
    var chosen := if r.port == 0 then AllocatePort(s, group, r.protocol, range.start, range.end, exclude) else Ok(r.port);
    if chosen.Err? then chosen
    else
      var port := chosen.value;
      if port <= 0 || port > 65535 then Err(Refused("listenPort must be between 1 and 65535"))
      else if range.start > 0 && range.end > 0 && (port < range.start || port > range.end)
      then Err(Refused("listenPort must be within authorized range"))
      else if InUse(s, group, port, r.protocol, exclude) then Err(Refused("listenPort is already used"))
      else Ok(port)
  }

  /** The first checks: the payload, then the owner. */
  function CheckOwner(s: State, r: Rule, d: Draft, now: int): Result<User, Error> {
    if r.user == 0 || !d.formOk then Err(Refused("invalid rule"))
    else if r.user !in s.users then Err(Refused("user not found"))
    else
      var u := s.users[r.user];
      if !u.isActive then Err(Refused("user is not active"))
      else if u.expiresAt.Some? && u.expiresAt.value < now then Err(Refused("user is expired"))
      else if UserSpent(u) then Err(Refused("user traffic is exhausted"))
      else Ok(u)
  }

  /** The checks after the tenant's: grant, port, the owner's rule limit, the protocol policy. */
  function Finish(s: State, r: Rule, u: User, d: Draft, group: Id, exclude: Id): Result<Prepared, Error>
    requires group in s.net.groups
  {
    var g := s.net.groups[group];
    var range := CheckGrant(s, r.user, u, r.tunnel, PortRange(g.portStart, g.portEnd), exclude);
    if range.Err? then Err(range.error)
    else
      var port := ChoosePort(s, r, group, range.value, exclude);
      if port.Err? then Err(port.error)
      else if u.forwardLimit > 0 && CountRules(s, OfUser(r.user), exclude) >= u.forwardLimit
      then Err(Refused("user forward rule limit reached"))
      else if !d.policyOk then Err(Refused("forbidden by protocol policy"))
      else Ok(Prepared(s, r.(tenant := u.tenant, port := port.value), group))
  }

  function Prepare(s: State, r: Rule, d: Draft, exclude: Id, now: int): Result<Prepared, Error> {
    var owner := CheckOwner(s, r, d, now);
    if owner.Err? then Err(owner.error)
    else if GroupOf(s, r) == None then Err(Refused("tunnel not found"))
    else
      var group := GroupOf(s, r).value;
      if group !in s.net.groups then Err(Refused("entry device group not found"))
      else
        var ct := CheckTenant(s, owner.value.tenant, now, exclude);
        if ct.Err? then Err(ct.error)
        else if group !in ct.value.net.groups then Err(Refused("entry device group not found"))
        else Finish(ct.value, r, owner.value, d, group, exclude)
  }

  /** The row, then its leases. */
  function Save(p: Prepared, id: Id): Result<State, Error>
    requires p.group in p.state.net.groups
  {
    ReplaceLeases(p.state.(rules := p.state.rules[id := p.rule]), id, p.rule, p.group)
  }

  /** tx.Create, then the leases. A used or zero id is the database's primary key violation. */
  function CreateRule(s: State, id: Id, d: Draft, now: int): Result<State, Error> {
    var p := Prepare(s, NewRow(d), d, 0, now);
    if p.Err? then Err(p.error)
    else if id == 0 || id in p.value.state.rules || p.value.group !in p.value.state.net.groups
    then Err(Refused("primary key"))
    else Save(p.value, id)
  }

  /** updateForwardRule: the row read before, edited, prepared against all other rules, saved. */
  function UpdateRule(s: State, id: Id, d: Draft, now: int): Result<State, Error> {
    if id !in s.rules then Err(NotFound)
    else
      var p := Prepare(s, EditedRow(s.rules[id], d), d, id, now);
      if p.Err? then Err(p.error)
      else if p.value.group !in p.value.state.net.groups then Err(NotFound)
      else Save(p.value, id)
  }

  function DeleteRule(s: State, id: Id): Result<State, Error> {
    if id !in s.rules then Err(NotFound)
    else if id in s.net.speedLimited then Err(Refused("forwarding rule is still referenced by speed limits"))
    else Ok(s.(leases := WithoutRule(s.leases, id), rules := s.rules - {id}))
  }

  const MAX_BATCH: nat := 100

  datatype Created = Created(state: State, rules: seq<Rule>)

  type Creator = (State, Id, Draft) -> Result<State, Error>

  function CreateAt(now: int): Creator {
    (s: State, id: Id, d: Draft) => CreateRule(s, id, d, now)
  }

  /** One round of the batch loop; ids are the keys the database hands out. */
  function CreateNext(create: Creator, prev: Created, id: Id, d: Draft): Result<Created, Error> {
    var next := create(prev.state, id, d);
    if next.Err? then Err(next.error)
    else if id !in next.value.rules then Err(NotFound)
    else Ok(Created(next.value, prev.rules + [next.value.rules[id]]))
  }

  function BatchStep(create: Creator, drafts: seq<Draft>, ids: seq<Id>): (Created, nat) -> Result<Created, Error> {
    (c: Created, k: nat) =>
      if k < |drafts| && k < |ids| then CreateNext(create, c, ids[k], drafts[k]) else Err(BadPayload)
  }

  /** The first n rules of a batch, inside one transaction. */
  function CreateFirst(s: State, drafts: seq<Draft>, ids: seq<Id>, now: int, n: nat): Result<Created, Error> {
    Iterate(BatchStep(CreateAt(now), drafts, ids), Created(s, []), n)
  }

  datatype BatchReply = BatchReply(state: State, outcome: Result<seq<Rule>, Error>)

  /** applyForwardRuleBatch: a preview rolls the transaction back and still returns the rules. */
  function ApplyBatch(s: State, drafts: seq<Draft>, ids: seq<Id>, now: int, preview: bool): BatchReply
    requires |ids| == |drafts|
  {
    if drafts == [] || |drafts| > MAX_BATCH then BatchReply(s, Err(BadPayload))
    else
      var r := CreateFirst(s, drafts, ids, now, |drafts|);
      if r.Err? then BatchReply(s, Err(r.error))
      else BatchReply(if preview then s else r.value.state, Ok(r.value.rules))
  }
}
