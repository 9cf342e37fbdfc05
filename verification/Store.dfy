/**
 * The tables of the panel's database that the forwarding, quota and port logic reads and writes.
 * A row id of 0 stands for an absent reference, as in the Go code (a nil or zero tenant id).
 */
module Store {
  import opened Common

  type Id = nat

  /** Forwarding rule status. Other covers the statuses older releases and violations leave behind. */
  datatype Status = Active | Paused | Disabled | Deleted | QuotaExhausted | Other(name: string)

  /** quota_source: which quota layer turned the rule off. */
  datatype Source = NoSource | UserSource | TenantSource

  datatype Transport = Tcp | Udp

  datatype Protocol = TcpOnly | UdpOnly | TcpUdp

  datatype Role = Admin | TenantAdmin | Regular

  datatype User = User(tenant: Id, role: Role, isActive: bool, expiresAt: Option<int>,
                       flowLimit: int, used: int, forwardLimit: int)

  datatype Tenant = Tenant(isActive: bool, expiresAt: Option<int>, trafficLimit: int, used: int,
                           forwardLimit: int, userLimit: int, resetDays: int, nextReset: Option<int>,
                           blocked: bool, blockedAt: Option<int>)

  datatype Rule = Rule(user: Id, tenant: Id, tunnel: Id, protocol: Protocol, port: int,
                       status: Status, source: Source, inBytes: int, outBytes: int)

  /** An entry device group: its port range and the bind address its listeners share. */
  datatype Group = Group(portStart: int, portEnd: int, bindIp: string)

  datatype Grant = Grant(portStart: int, portEnd: int, forwardLimit: int)

  datatype Lease = Lease(group: Id, bindIp: string, transport: Transport, port: int, rule: Id)

  datatype Direction = In | Out

  datatype TrafficRow = TrafficRow(node: Id, rule: Id, user: Id, tenant: Id, dir: Direction, bytes: int)

  datatype Bucket = Bucket(inBytes: int, outBytes: int, billed: int)

  /** One agent_traffic_reports row is keyed by the node and the report id. */
  datatype MarkerKey = MarkerKey(node: Id, reportId: string)

  datatype BucketKey = BucketKey(tenant: Id, hour: int)

  datatype GrantKey = GrantKey(holder: Id, tunnel: Id)

  /** Tunnels, device groups, grants and the rules that speed limits name. No request modelled here changes them. */
  datatype Net = Net(tunnelGroup: map<Id, Id>, groups: map<Id, Group>,
                     userGrants: map<GrantKey, Grant>, tenantGrants: map<GrantKey, Grant>, speedLimited: set<Id>)

  /** Traffic rows, hourly tenant buckets and the ids of reports already accepted. */
  datatype Ledger = Ledger(rows: seq<TrafficRow>, buckets: map<BucketKey, Bucket>, markers: map<MarkerKey, nat>)

  datatype State = State(users: map<Id, User>, tenants: map<Id, Tenant>, rules: map<Id, Rule>,
                         leases: set<Lease>, net: Net, ledger: Ledger)

  datatype Error = BadPayload | Forbidden | NotFound | Refused(reason: string)

  /** Rules the quota logic may touch at all: not paused, disabled or deleted. */
  predicate Live(status: Status) {
    status != Paused && status != Disabled && status != Deleted
  }

  /** Rules that exhausting a quota turns off. */
  predicate Stoppable(status: Status) {
    Live(status) && status != QuotaExhausted
  }

  /** ruleNeedsPortLease: only disabled and deleted rules give their port back. */
  predicate NeedsLease(status: Status) {
    status != Disabled && status != Deleted
  }

  predicate UserSpent(u: User) {
    u.flowLimit > 0 && u.used >= u.flowLimit
  }

  predicate TenantOver(t: Tenant) {
    t.trafficLimit > 0 && t.used >= t.trafficLimit
  }

  /** Foreign keys: owners exist, and a rule carries the tenant of its owner. */
  ghost predicate Linked(s: State) {
    && 0 !in s.users && 0 !in s.tenants && 0 !in s.rules
    && (forall u | u in s.users :: s.users[u].tenant == 0 || s.users[u].tenant in s.tenants)
    && (forall r | r in s.rules ::
          s.rules[r].user in s.users && s.rules[r].tenant == s.users[s.rules[r].user].tenant
          && s.rules[r].tunnel in s.net.tunnelGroup)
    && (forall t | t in s.net.tunnelGroup :: s.net.tunnelGroup[t] in s.net.groups)
  }
}
