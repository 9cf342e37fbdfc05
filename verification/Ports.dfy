/**
 * Port leases of an entry device group: which rules claim which port and transport, the lease table
 * with its unique indexes, and the search for a free port.
 */
module Ports {
  import opened Common
  import opened Store

  const DEFAULT_START: int := 10000
  const DEFAULT_END: int := 60000

  function TransportList(p: Protocol): seq<Transport> {
    match p
    case TcpOnly => [Tcp]
    case UdpOnly => [Udp]
    case TcpUdp => [Tcp, Udp]
  }

  predicate Overlap(a: Protocol, b: Protocol) {
    exists t | t in TransportList(a) :: t in TransportList(b)
  }

  function GroupOf(s: State, r: Rule): Option<Id> {
    if r.tunnel in s.net.tunnelGroup then Some(s.net.tunnelGroup[r.tunnel]) else None
  }

  // ---- the lease table ----

  /** The two unique indexes of port_leases. */
  predicate Collides(a: Lease, b: Lease) {
    || (a.group == b.group && a.bindIp == b.bindIp && a.transport == b.transport && a.port == b.port)
    || (a.transport == b.transport && a.rule == b.rule)
  }

  function InsertLeases(leases: set<Lease>, id: Id, r: Rule, group: Id, bindIp: string, ts: seq<Transport>): Result<set<Lease>, Error>
    decreases |ts|
  {
    if ts == [] then Ok(leases)
    else
      var l := Lease(group, bindIp, ts[0], r.port, id);
      if exists e | e in leases :: Collides(e, l) then Err(Refused("listen port is already leased"))
      else InsertLeases(leases + {l}, id, r, group, bindIp, ts[1..])
  }

  function WithoutRule(leases: set<Lease>, id: Id): set<Lease> {
    set l | l in leases && l.rule != id
  }

  /** replaceRulePortLeasesTx. */
  function ReplaceLeases(s: State, id: Id, r: Rule, group: Id): Result<State, Error>
    requires group in s.net.groups
  {
    var rest := WithoutRule(s.leases, id);
    if !NeedsLease(r.status) then Ok(s.(leases := rest))
    else
      var ins := InsertLeases(rest, id, r, group, s.net.groups[group].bindIp, TransportList(r.protocol));
      if ins.Err? then Err(ins.error) else Ok(s.(leases := ins.value))
  }

  // ---- is a port taken? ----

  predicate Leased(s: State, group: Id, port: int, p: Protocol, exclude: Id) {
    exists l | l in s.leases :: l.group == group && l.port == port && l.transport in TransportList(p)
                                && (exclude > 0 ==> l.rule != exclude)
  }

  predicate HeldByRule(s: State, group: Id, port: int, p: Protocol, exclude: Id) {
    exists id | id in s.rules :: GroupOf(s, s.rules[id]) == Some(group) && s.rules[id].port == port
                                 && NeedsLease(s.rules[id].status) && (exclude > 0 ==> id != exclude)
                                 && Overlap(p, s.rules[id].protocol)
  }

  /** entryPortInUseTx: leases first, then rules that predate the lease table. */
  predicate InUse(s: State, group: Id, port: int, p: Protocol, exclude: Id) {
    Leased(s, group, port, p, exclude) || HeldByRule(s, group, port, p, exclude)
  }

  // ---- allocation ----

  function RangeStart(start: int, end: int): int {
    if start <= 0 || end <= 0 || start > end then DEFAULT_START else start
  }

  function RangeEnd(start: int, end: int): int {
    if start <= 0 || end <= 0 || start > end then DEFAULT_END else end
  }

  /** The first port from port to end that no other rule or lease of the group uses. */
  function FirstFree(s: State, group: Id, p: Protocol, port: int, end: int, exclude: Id): Result<int, Error>
    decreases end - port
  {
    if port > end then Err(Refused("no free port in device group range"))
    else if !InUse(s, group, port, p, exclude) then Ok(port)
    else FirstFree(s, group, p, port + 1, end, exclude)
  }

  function AllocatePort(s: State, group: Id, p: Protocol, start: int, end: int, exclude: Id): Result<int, Error> {
    FirstFree(s, group, p, RangeStart(start, end), RangeEnd(start, end), exclude)
  }

  lemma {:induction false} FirstFreeIsLeast(s: State, group: Id, p: Protocol, port: int, end: int, exclude: Id)
    ensures FirstFree(s, group, p, port, end, exclude).Ok? ==>
              var free := FirstFree(s, group, p, port, end, exclude).value;
              port <= free <= end && !InUse(s, group, free, p, exclude)
              && forall k | port <= k < free :: InUse(s, group, k, p, exclude)
    ensures FirstFree(s, group, p, port, end, exclude).Err? <==>
              forall k | port <= k <= end :: InUse(s, group, k, p, exclude)
    decreases end - port
  {
    if port <= end && InUse(s, group, port, p, exclude) {
      FirstFreeIsLeast(s, group, p, port + 1, end, exclude);
    }
  }

  // ---- in plain terms ----

  /** A protocol that listens on this transport. */
  predicate ListensOn(p: Protocol, transport: Transport) {
    if transport == Tcp then p != UdpOnly else p != TcpOnly
  }

  /** Another rule than the excluded one holds this port of the group on a transport of protocol p. */
  ghost predicate Taken(s: State, group: Id, port: int, p: Protocol, exclude: Id) {
    exists id, transport | id in s.rules && id != exclude && ListensOn(s.rules[id].protocol, transport) ::
      && s.rules[id].status != Disabled && s.rules[id].status != Deleted && s.rules[id].port == port
      && s.rules[id].tunnel in s.net.tunnelGroup && s.net.tunnelGroup[s.rules[id].tunnel] == group && ListensOn(p, transport)
  }

  lemma LeasedIsTaken(s: State, group: Id, port: int, p: Protocol, exclude: Id)
    requires PortsExact(s) && 0 !in s.rules && Leased(s, group, port, p, exclude)
    ensures Taken(s, group, port, p, exclude)
  {
    var l :| l in s.leases && l.group == group && l.port == port && l.transport in TransportList(p)
             && (exclude > 0 ==> l.rule != exclude);
    assert Claims(s, l);
    assert l.rule != exclude && ListensOn(p, l.transport) && ListensOn(s.rules[l.rule].protocol, l.transport);
  }

  lemma HeldIsTaken(s: State, group: Id, port: int, p: Protocol, exclude: Id)
    requires 0 !in s.rules
    ensures HeldByRule(s, group, port, p, exclude) <==> Taken(s, group, port, p, exclude)
  {
    if HeldByRule(s, group, port, p, exclude) {
      var id :| id in s.rules && GroupOf(s, s.rules[id]) == Some(group) && s.rules[id].port == port
                && NeedsLease(s.rules[id].status) && (exclude > 0 ==> id != exclude)
                && Overlap(p, s.rules[id].protocol);
      var t :| t in TransportList(p) && t in TransportList(s.rules[id].protocol);
      assert id != exclude && ListensOn(p, t) && ListensOn(s.rules[id].protocol, t);
    }
    if Taken(s, group, port, p, exclude) {
      var id, t :| id in s.rules && id != exclude && ListensOn(s.rules[id].protocol, t)
                && s.rules[id].status != Disabled && s.rules[id].status != Deleted && s.rules[id].port == port
                && s.rules[id].tunnel in s.net.tunnelGroup && s.net.tunnelGroup[s.rules[id].tunnel] == group && ListensOn(p, t);
      assert t in TransportList(p) && t in TransportList(s.rules[id].protocol);
      assert Overlap(p, s.rules[id].protocol);
    }
  }

  /** While the lease table mirrors the rules, a port is in use exactly when another rule holds it. */
  lemma InUseIsTaken(s: State, group: Id, port: int, p: Protocol, exclude: Id)
    requires PortsExact(s) && 0 !in s.rules
    ensures InUse(s, group, port, p, exclude) <==> Taken(s, group, port, p, exclude)
  {
    HeldIsTaken(s, group, port, p, exclude);
    if Leased(s, group, port, p, exclude) {
      LeasedIsTaken(s, group, port, p, exclude);
    }
  }

  /** A lease cannot be inserted exactly when its address and port, or its rule's transport, has one already. */
  lemma {:induction false} InsertRefusedIff(leases: set<Lease>, id: Id, r: Rule, group: Id, bindIp: string, ts: seq<Transport>)
    requires forall i, j | 0 <= i < j < |ts| :: ts[i] != ts[j]
    ensures InsertLeases(leases, id, r, group, bindIp, ts).Err? <==>
              exists l | l in leases :: l.transport in ts
                && (l.rule == id || (l.group == group && l.bindIp == bindIp && l.port == r.port))
    decreases |ts|
  {
    if ts != [] {
      var l := Lease(group, bindIp, ts[0], r.port, id);
      assert forall t :: t in ts <==> t == ts[0] || t in ts[1..];
      InsertRefusedIff(leases + {l}, id, r, group, bindIp, ts[1..]);
      if e :| e in leases && Collides(e, l) {
        assert e.transport in ts;
      }
    }
  }

  // ---- the invariant ----

  /** Rule id is entitled to lease l: it is live in the lease's group with that port and transport. */
  ghost predicate Claims(s: State, l: Lease) {
    && l.rule in s.rules && NeedsLease(s.rules[l.rule].status)
    && GroupOf(s, s.rules[l.rule]) == Some(l.group)
    && l.group in s.net.groups && l.bindIp == s.net.groups[l.group].bindIp
    && l.transport in TransportList(s.rules[l.rule].protocol) && l.port == s.rules[l.rule].port
  }

  /** Two rules that hold ports in the same entry group do not share a port and transport. */
  ghost predicate Apart(s: State, a: Id, b: Id)
    requires a in s.rules && b in s.rules
  {
    a != b && NeedsLease(s.rules[a].status) && NeedsLease(s.rules[b].status)
    && GroupOf(s, s.rules[a]) == GroupOf(s, s.rules[b]) && s.rules[a].port == s.rules[b].port
    ==> !Overlap(s.rules[a].protocol, s.rules[b].protocol)
  }

  /** The lease table mirrors the rules, and no two rules share a port and transport of a group. */
  ghost predicate PortsExact(s: State) {
    && (forall l: Lease :: l in s.leases <==> Claims(s, l))
    && (forall a, b | a in s.rules && b in s.rules :: Apart(s, a, b))
  }

  /** s' moves no rule to another tunnel, protocol or port and changes no rule's need for a lease. */
  ghost predicate Placed(s: State, s': State) {
    && s'.leases == s.leases && s'.net == s.net && s'.rules.Keys == s.rules.Keys
    && forall r | r in s.rules ::
         && s'.rules[r].tunnel == s.rules[r].tunnel && s'.rules[r].protocol == s.rules[r].protocol
         && s'.rules[r].port == s.rules[r].port
         && NeedsLease(s'.rules[r].status) == NeedsLease(s.rules[r].status)
  }

  lemma PlacedKeeps(s: State, s': State)
    requires PortsExact(s) && Placed(s, s')
    ensures PortsExact(s')
  {
    forall l ensures l in s'.leases <==> Claims(s', l) {
      assert l in s.leases <==> Claims(s, l);
    }
    forall a, b | a in s'.rules && b in s'.rules ensures Apart(s', a, b) {
      assert Apart(s, a, b);
    }
  }

  lemma OverlapSymmetric(a: Protocol, b: Protocol)
    ensures Overlap(a, b) == Overlap(b, a)
  {
  }

  /** While the table mirrors the rules, looking at the leases alone would give the same answer. */
  lemma InUseIsLeased(s: State, group: Id, port: int, p: Protocol, exclude: Id)
    requires PortsExact(s) && group in s.net.groups
    ensures InUse(s, group, port, p, exclude) <==> Leased(s, group, port, p, exclude)
  {
    if HeldByRule(s, group, port, p, exclude) {
      var id :| id in s.rules && GroupOf(s, s.rules[id]) == Some(group) && s.rules[id].port == port
                && NeedsLease(s.rules[id].status) && (exclude > 0 ==> id != exclude)
                && Overlap(p, s.rules[id].protocol);
      var t :| t in TransportList(p) && t in TransportList(s.rules[id].protocol);
      assert Claims(s, Lease(group, s.net.groups[group].bindIp, t, port, id));
    }
  }

  lemma {:induction false} InsertedLeases(leases: set<Lease>, id: Id, r: Rule, group: Id, bindIp: string, ts: seq<Transport>)
    requires forall l | l in leases :: l.rule == id ==> l.transport !in ts
    requires forall l | l in leases :: l.group == group && l.port == r.port ==> l.transport !in ts
    requires forall i, j | 0 <= i < j < |ts| :: ts[i] != ts[j]
    ensures InsertLeases(leases, id, r, group, bindIp, ts).Ok?
    ensures forall l :: l in InsertLeases(leases, id, r, group, bindIp, ts).value <==>
              l in leases || (l.transport in ts && l == Lease(group, bindIp, l.transport, r.port, id))
    decreases |ts|
  {
    if ts != [] {
      var l := Lease(group, bindIp, ts[0], r.port, id);
      assert forall t :: t in ts <==> t == ts[0] || t in ts[1..];
      assert ts[0] !in ts[1..];
      InsertedLeases(leases + {l}, id, r, group, bindIp, ts[1..]);
    }
  }

  /** The state just before its leases are rewritten: rule id carries row r, everything else is exact. */
  ghost predicate Staged(s: State, id: Id, r: Rule, group: Id) {
    && id in s.rules && s.rules[id] == r && group in s.net.groups && GroupOf(s, r) == Some(group)
    && (forall l: Lease | l.rule != id :: l in s.leases <==> Claims(s, l))
    && (forall a, b | a in s.rules && b in s.rules && a != id && b != id :: Apart(s, a, b))
  }

  /** The check prepareForwardRuleTx makes is enough: the lease insert cannot hit a unique index. */
  lemma ReplacedLeases(s: State, id: Id, r: Rule, group: Id)
    requires Staged(s, id, r, group) && id > 0
    requires !InUse(s, group, r.port, r.protocol, id)
    ensures ReplaceLeases(s, id, r, group).Ok? && PortsExact(ReplaceLeases(s, id, r, group).value)
  {
    var rest := WithoutRule(s.leases, id);
    var bindIp := s.net.groups[group].bindIp;
    if NeedsLease(r.status) {
      forall l | l in rest && l.group == group && l.port == r.port ensures l.transport !in TransportList(r.protocol) {
        assert l in s.leases;
      }
      InsertedLeases(rest, id, r, group, bindIp, TransportList(r.protocol));
    }
    var s' := ReplaceLeases(s, id, r, group).value;
    forall l ensures l in s'.leases <==> Claims(s', l) {
      if l.rule != id {
        assert l in s.leases <==> Claims(s, l);
      }
    }
    forall a, b | a in s'.rules && b in s'.rules ensures Apart(s', a, b) {
      if a != id && b != id {
        assert Apart(s, a, b);
      } else if a != b && !Apart(s', a, b) {
        OverlapSymmetric(s.rules[a].protocol, s.rules[b].protocol);
        var other := if a == id then b else a;
        assert HeldByRule(s, group, r.port, r.protocol, id);
      }
    }
  }
}
