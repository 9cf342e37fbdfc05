# DuSheng Panel: a verified model of its state machines

DuSheng Panel is a forwarding control plane: a Go API that owns rules, quotas, ports and billing, and a Go node
agent that serves the rules, counts their traffic and reports it. This project models the parts of both that are
state machines, and proves what they promise over all inputs and all runs. The deep-packet-inspection sidecar
contributes its flow table, its packet synthesis and the agent's TLS parser.

The Go code works by changing things in place, so it appears here twice. Classes and methods follow it statement by
statement (`Server`, `TrafficBuffer`, `Trackers`, `AgentRuntime`, `Probes`, `Combined`, `ConfigSync`, `FlowEngine`,
`ClientHello`, `PacketBytes`, `TokenBucket`); each method is proved against a function of the old state, and the
theorems are lemmas about those functions and about runs of them. Code that several goroutines interleave is a step
model with one step per lock region (`Flushes`, `EndToEnd`, `Slots`, `HotUpdate`, `LimitsSurvive`, `FlowTable`,
`TokenBucket`).

How the files build on each other:

- **Panel**: `Store` (tables), `Quota`, `Accounting`, `Ports`, `Rules` (what requests do), `AccountingFacts`,
  `ReportFacts`, `Report`, `RulesFacts`, `Admission` (when a rule may be written), `BatchFacts` (what that means), `Panel`
  and `PanelFacts` (all requests, all runs), `Requests` (what each request leaves behind), `Server` (the same as a class
  over the database).
- **Billing end to end**: `TrafficBuffer`, `Flushes` (any number of concurrent flushes), `Protocol` (what the server
  bills), `EndToEnd` (agent, lossy network and panel together), `DoubleBilling` (the bound is exact).
- **Agent runtime**: `Trackers`, `Slots`, `Desired`, `Runtime`, `RuntimeFacts`, `ApplyFacts`, `Apply`, `Drains` (which
  sockets are held, and by whom), `LimitFacts`, `Effective` (settings and limits in plain terms), `Handouts` (which tracker
  a listener hands out), `AgentRuntime`, `HotUpdate`, `LimitsSurvive`, `TokenBucket`.
- **Configuration**: `Probes`, `Combined`, `ConfigSync` on top of the agent runtime.
- **Inspection**: `FlowTable`, `FlowEngine`, `ClientHello`, `Handshake`, `PacketBytes`.

`dafny verify dfyconfig.toml` checks everything.

## Findings

Where the code does not keep a promise, the model keeps the code and states exactly when the promise holds.

- **Billing twice.** The repository's README.md:110 says that `reportId` makes retries idempotent. It does as long as
  a batch keeps its id. A flush that fails while the retry queue is full merges its samples back into the buffer
  (runtime.go:1770-1791), and they go out again under a fresh id. `Flushes.RemergeIffTooWide` gives the exact
  condition: with failure limit m the branch is unreachable iff at most m + 1 flushes run at once (any number for
  m = 1, four for m = 2). `add` starts one more flush whenever 100 rules are pending, so the code itself sets no
  such bound. `DoubleBilling.BilledOnceIffTolerated` shows that the condition decides billing too: beyond it some run
  bills a byte twice, within it none does.
- **Violations.** `agentViolation` writes `protocol_violation` over any status. `PanelFacts.ViolationKeepsIff`: the
  quota and port invariants survive iff the rule holds its port and neither of its quotas is used up.
- **An acknowledgement past the lease.** Rejections and failed fetches look at the lease afterwards, a failed
  acknowledgement does not, neither after an installation (configsync.go:104-122) nor on the shortcut for the running
  configuration (configsync.go:83-85), so `SyncOnce` can return an error after the lease has run out with listeners
  still open until the next round. `ConfigSync.ErrorsAreEnforcedIff` gives the exact condition, known before the
  acknowledgement is sent: none will be, or the new lease lasts for as long as the request may take (15 seconds,
  client.go:29). `ConfigSync.UnenforcedErrors` has an instance for each branch.
- **Lease refresh needs nonces that follow from revisions.** `rejectConfig` overwrites revision and nonce of what is
  running. The API hashes the node's token and the revision (server.go:3904), so for one token a lease is refreshed only
  for what is applied (`ConfigSync.RefreshIsSound`, `ConfigSync.KeptIsApplied`). Once the token changes, one revision has
  two nonces: `ConfigSync.RefreshNeedsNonces` is a run that then keeps a lease for a nonce that was never applied, and
  `ConfigSync.RefreshIsSoundIff` says exactly when an agent can.
- **Apply during a stop.** `combinedRuntime.Stop` stops the probes before forwarding; an `Apply` in between changes
  forwarding and then fails. The contract of `Combined.CombinedRuntime.Apply` says exactly when that happens.
- **Byte counts near 2^63.** `trafficBuffer.add` adds without a guard; `TrafficBuffer.AddBalancesIff` says exactly when
  its accounts still balance. The theorems about runs assume counts that leave room for `maxBytes`.
- **The rendered file is not quite what is served.** It lists rules that are out of quota or of an unknown protocol,
  which the runtime skips, and a `tcp_udp` rule as TCP alone, of which the runtime serves both halves:
  `ConfigSync.FileAgainstNode` is exact in both directions.
- **A synthesized packet can be too long for its own length field.** The fields are written modulo 2^16;
  `PacketBytes.IPv4RoundTrip` and `PacketBytes.IPv6RoundTrip` give the exact bound.

## Model

| member | source | states |
|---|---|---|
| `Quota.ExactMeans` | apps/api/internal/app/tenants.go:482-595 | the two quota layers of the repository's README.md:110 in plain terms: a rule that is not paused, disabled or deleted is `quota_exhausted` iff its owner's flow limit or its tenant's traffic limit is reached; `quota_source` names a limit that really is; a rule carries its owner's tenant |
| `Quota.ReconcileTenantKeeps` | apps/api/internal/app/tenants.go:507-534 | whatever new usage or limit a request writes to a tenant row, reconciling afterwards makes every rule and the blocked flag exact again, on both branches, and `blocked_at` is the time the block began |
| `Quota.RestoreTenantKeeps` | apps/api/internal/app/tenants.go:536-575 | restoring a tenant's rules never wakes a rule whose owner's own quota is used up: the whole state is exact again |
| `Quota.ResetTenantKeeps` | apps/api/internal/app/tenants.go:489-505 | a tenant reset clears usage and block, touches no other column but the next period, and leaves every rule exact |
| `Quota.RollTenantKeeps` | apps/api/internal/app/tenants.go:482-487 | a period roll keeps the quota state exact, and clears usage iff the period is over |
| `Quota.PeriodLasts` | apps/api/internal/app/tenants.go:482-505 | after a reset nothing is rolled before the days of the row's period have passed, and from then on it is |
| `Quota.ResetTenantWrites` | apps/api/internal/app/tenants.go:489-575 | a reset writes one tenant row and status and source of that tenant's stopped rules; a rule it brings back is `active`, it neither shelves nor unshelves one |
| `Quota.RollWrites` | apps/api/internal/app/tenants.go:482-505 | the same for a roll |
| `Quota.ReconcileTenantWrites` | apps/api/internal/app/tenants.go:507-575 | a reconciliation writes only the block of one tenant row and its rules: a running one is stopped or left exactly as it is, a stopped one stays so or comes back as `active` |
| `Quota.ReconcileUserWrites` | apps/api/internal/app/server.go:3524-3551 | the same for a user's reconciliation, which writes no tenant row |
| `Quota.ExhaustUserWrites` | apps/api/internal/app/server.go:3500-3522 | exhausting a user's quota writes running rules only, and no paused, disabled or deleted one |
| `Quota.ExhaustTenantWrites` | apps/api/internal/app/tenants.go:530-534 | the same for a tenant's quota |
| `Quota.ExhaustUserKeeps` | apps/api/internal/app/server.go:3500-3522 | turning off a spent user's rules settles exactly that user's debt and nobody else's |
| `Quota.ReconcileUserKeeps` | apps/api/internal/app/server.go:3524-3551 | after any permitted edit of a user's usage, limit or tenant, reconciling succeeds and makes the state exact, handing a rule over to the tenant layer when that one still blocks |
| `Accounting.AggregateSums` | apps/api/internal/app/traffic_accounting.go:30-42 | the per-rule totals are the sums of the report's samples per rule and direction, each within int64 |
| `Accounting.AggregateFits` | apps/api/internal/app/traffic_accounting.go:31-42 | the guards of the first loop refuse no report whose per-rule totals fit int64 |
| `AccountingFacts.CollectUserSum` | apps/api/internal/app/traffic_accounting.go:65-73 | the bytes collected for a user are the report's bytes for rules that user owns |
| `AccountingFacts.CollectTenantSum` | apps/api/internal/app/traffic_accounting.go:74-82 | the bytes collected for a tenant, per direction, are the report's bytes for the tenant's rules |
| `AccountingFacts.CollectRowSum` | apps/api/internal/app/traffic_accounting.go:83-95 | the traffic rows to insert carry exactly the report's bytes, for any set of rules and either direction |
| `ReportFacts.ChargedUsersExact` | apps/api/internal/app/traffic_accounting.go:111-129 | charging users leaves the quota state exact except for the users it lists as newly spent |
| `ReportFacts.ExhaustedUsersExact` | apps/api/internal/app/traffic_accounting.go:174-178 | the last loop pays off exactly those: afterwards the state is exact without exceptions |
| `ReportFacts.ChargedTenantsExact` | apps/api/internal/app/traffic_accounting.go:131-173 | rolling, billing and reconciling every touched tenant keeps the state exact between the two user loops |
| `Report.ReportAccepted` | apps/api/internal/app/traffic_accounting.go:29-180 | the int64 guards are exact: a report is accepted iff every rule in it belongs to the node's entry group and no user total and no tenant total (after a due roll) would leave the int64 range |
| `Report.ReportKeepsExact` | apps/api/internal/app/traffic_accounting.go:29-180 | an accepted report leaves the quota state exact |
| `Report.ReportRows` | apps/api/internal/app/traffic_accounting.go:83-100 | an accepted report adds its rows behind the old ones, each for the reporting node and the rule's owner and tenant; they sum to its samples, for any set of rules and either direction |
| `Report.ReportRules` | apps/api/internal/app/traffic_accounting.go:101-109 | every rule's counters grow by its own samples, quotas move its status only as they may, and ports, leases, tunnels and claimed report ids do not change |
| `Report.ReportUsers` | apps/api/internal/app/traffic_accounting.go:111-129 | every user's `used_bytes` grows by the samples of the rules the user owns, and by nothing else |
| `Report.ReportTenants` | apps/api/internal/app/traffic_accounting.go:131-173 | a touched tenant's usage, counted after a due roll, and the bucket of the hour of the report grow by the samples of its rules, per direction and billed; other hours, and untouched tenants, stay as they were |
| `Report.TrafficAnswered` | apps/api/internal/app/server.go:3432-3498 | the complete answer: at most 1000 samples and 120 characters of id, each sample valid, and either a known id, which changes nothing and is answered as the first time, or a report that is all the node's own and fits; then its id is known |
| `Server.Database.AggregateSamples` | apps/api/internal/app/traffic_accounting.go:30-42 | the loop over the samples computes the specified totals, or stops at the specified overflow |
| `Server.Database.CollectRules` | apps/api/internal/app/traffic_accounting.go:62-95 | the loop over the rules computes the specified user totals, tenant totals and rows |
| `Server.Database.ChargeAllUsers` | apps/api/internal/app/traffic_accounting.go:111-129 | the loop that charges users in id order, with its list of newly spent users |
| `Server.Database.ChargeAllTenants` | apps/api/internal/app/traffic_accounting.go:131-173 | the loop that rolls, bills and reconciles tenants in id order |
| `Server.Database.AccountAgentTraffic` | apps/api/internal/app/traffic_accounting.go:29-180 | the whole accounting transaction, row update by row update, refines the specification above |
| `Server.Database.ServeTraffic` | apps/api/internal/app/server.go:3432-3498 | a traffic request: validation, the claim on the report id, accounting; a repeated id is answered without accounting and any error leaves the database untouched |
| `Server.Database.RestoreTenantQuotaRules` | apps/api/internal/app/tenants.go:536-575 | one update per rule amounts to the specified restore |
| `Server.Database.ResetTenant` | apps/api/internal/app/tenants.go:489-505 | the reset of one tenant row and its rules |
| `Server.Database.RollTenant` | apps/api/internal/app/tenants.go:482-487 | the roll of one tenant row and its rules |
| `Server.Database.ReconcileTenant` | apps/api/internal/app/tenants.go:507-534 | the reconciliation of one tenant row and its rules |
| `Server.Database.ReconcileUser` | apps/api/internal/app/server.go:3524-3551 | one update per rule amounts to the specified reconciliation; a missing tenant is an error that changes nothing |
| `Server.Database.UpdateUserRow` | apps/api/internal/app/server.go:745-821 | an edited user, moved to a tenant only if that has room, is saved and reconciled as one transaction, or not at all |
| `Server.Database.ResetUserUsage` | apps/api/internal/app/server.go:3553-3576 | a user reset and its reconciliation as one transaction |
| `Server.Database.UpdateTenantRow` | apps/api/internal/app/tenants.go:74-105 | an edited tenant is saved and reconciled as one transaction, or not at all |
| `Server.Database.RollDueTenantPeriods` | apps/api/internal/app/tenants.go:469-480 | the loop over due tenants rolls each of them and no other |
| `Ports.FirstFreeIsLeast` | apps/api/internal/app/port_leases.go:101-132 | allocation returns the least port of the range that is not in use, and fails iff there is none |
| `Ports.InUseIsLeased` | apps/api/internal/app/port_leases.go:134-172 | while the lease table mirrors the rules, the lease query alone decides whether a port is in use: the scan over rules never changes the answer |
| `Ports.InUseIsTaken` | apps/api/internal/app/port_leases.go:134-172 | and then a port is in use iff another rule of the group that is neither disabled nor deleted has it on a shared transport |
| `Ports.InsertRefusedIff` | apps/api/internal/app/port_leases.go:74-95 | the unique indexes refuse a lease iff its group, address, transport and port, or its rule and transport, have one already |
| `Ports.ReplacedLeases` | apps/api/internal/app/port_leases.go:74-95 | once the port check has passed, rewriting a rule's leases cannot hit a unique index, and the table mirrors the rules again |
| `RulesFacts.PreparedExact` | apps/api/internal/app/server.go:2516-2679 | a successful preparation hands back a row whose owner and tenant have quota left, whose port is free in its entry group, in a state that is still exact and where at most stopped rules were woken |
| `RulesFacts.CreateKeeps` | apps/api/internal/app/server.go:2293-2345 | creation succeeds iff its checks pass and the key is new, so no lease insert can fail afterwards; it adds exactly that row and keeps quotas and ports exact |
| `RulesFacts.UpdateKeeps` | apps/api/internal/app/server.go:2347-2427 | updating succeeds iff its checks pass, writes exactly the prepared row, and keeps quotas and ports exact |
| `RulesFacts.DeleteKeeps` | apps/api/internal/app/server.go:2473-2507 | deletion succeeds iff the rule exists and no speed limit refers to it; exactly the rule and its leases are gone, and quotas and ports stay exact |
| `RulesFacts.BatchKeeps` | apps/api/internal/app/forward_batch.go:51-110 | every prefix of a batch keeps quotas and ports exact |
| `Admission.TenantChecked` | apps/api/internal/app/server.go:2558-2583 | the tenant part accepts iff the tenant is active, not expired, below its traffic limit or due for a new period, and below its rule limit |
| `Admission.GrantChecked` | apps/api/internal/app/server.go:2585-2633 | the grant part accepts iff the owner is an admin, or holds a grant for the tunnel below its rule limit: a user's own if the user has any, otherwise the tenant's; the port range is the grant's when both its ends are set, otherwise the group's |
| `Admission.PortChecked` | apps/api/internal/app/server.go:2634-2653 | the port part accepts iff the port asked for, or some port from the range or from 10000 to 60000, is a real port within the range that no other rule holds; what it hands out is the least such port |
| `Admission.PreparedIff` | apps/api/internal/app/server.go:2516-2679 | preparation succeeds iff owner, tenant, tunnel, grant, limits, port and policy allow the rule, all in plain table facts with the edited rule not counted; the row is the one asked for with its owner's tenant and that port, and nothing else changes but a due roll of the tenant |
| `Admission.CreatedIff` | apps/api/internal/app/server.go:2293-2345 | so a rule is created iff that holds and the key is new, with every column as asked for, `active` unless asked to be paused or disabled, and no traffic |
| `Admission.UpdatedIff` | apps/api/internal/app/server.go:2347-2427 | and edited iff the rule exists and that holds without counting it; its counters stay |
| `Admission.BatchIff` | apps/api/internal/app/forward_batch.go:51-110 | a batch is accepted iff it has 1 to 100 drafts and each may be created in its turn next to those before it; a commit adds exactly these rules, each as its draft asks, a preview or a refusal none |
| `BatchFacts.SameCreate` | apps/api/internal/app/server.go:2293-2345 | creating one draft under two different new keys gives the same row, or the same error |
| `BatchFacts.PreviewPredictsCommit` | apps/api/internal/app/forward_batch.go:51-110 | a preview leaves the state unchanged and returns the very rows, ports included, or the very error that a commit at the same time gives under whatever other keys the database hands out |
| `Panel.AgentTrafficKeeps` | apps/api/internal/app/server.go:3432-3498 | a traffic request, accepted, repeated or refused, keeps quotas and ports exact |
| `Panel.TenantEditsKeep` | apps/api/internal/app/tenants.go:74-105 | editing a tenant, with any payload, keeps quotas and ports exact |
| `Panel.UserEditsKeep` | apps/api/internal/app/server.go:745-821 | editing a user, with any payload, keeps quotas and ports exact |
| `PanelFacts.HandleKeeps` | apps/api/internal/app/server.go:2293-2507 | every single request of the panel, with any input, keeps quotas and ports exact |
| `PanelFacts.NewPanelExact` | apps/api/internal/app/server.go:2293-2345 | a panel without rules, whatever its users, tenants, tunnels, groups and grants, is a state to start from |
| `PanelFacts.RunKeepsExact` | apps/api/internal/app/server.go:2293-2507 | so does every run of requests in any order |
| `PanelFacts.QuotaFollowsBothLayers` | apps/api/internal/app/tenants.go:482-595 | in every reachable state a rule that is not paused, disabled or deleted is off iff one of its two limits is reached, and its source names a reached one |
| `PanelFacts.NoSharedListener` | apps/api/internal/app/port_leases.go:134-172 | in every reachable state two rules of one entry group that are neither disabled nor deleted never share port and transport |
| `PanelFacts.LeasesMirrorRules` | apps/api/internal/app/port_leases.go:74-95 | in every reachable state the lease table has exactly one lease for each transport of each rule that is neither disabled nor deleted, at its group, address and port, and no two leases meet a unique index |
| `Requests.StatusFollowsQuota` | apps/api/internal/app/tenants.go:482-595 | what any request does to a rule it does not itself edit or delete: paused, disabled and deleted stay; any other is off if a limit of its owner or tenant is now reached, comes back as `active` if none is, and keeps its status otherwise; its owner, place and port never change |
| `Requests.UserResetMeans` | apps/api/internal/app/server.go:3553-3576 | a user reset succeeds iff the user exists, clears the usage and touches no other row but rules |
| `Requests.UserEditIff` | apps/api/internal/app/server.go:745-821 | an edit of a user is accepted iff the limits are not negative, no rule would change tenant, and the new tenant exists and has room |
| `Requests.UserEditMeans` | apps/api/internal/app/server.go:745-821 | then every edited column lands, the usage stays, and no other row but rules changes |
| `Requests.TenantEditIff` | apps/api/internal/app/tenants.go:74-105 | an edit of a tenant is accepted iff its limits are not negative and the period is 0 to 3660 days; a refused one changes nothing |
| `Requests.TenantEditMeans` | apps/api/internal/app/tenants.go:74-191 | then every edited column lands, the usage stays, the block follows the new limit, and the period clock restarts iff the length of the period changes |
| `Requests.TenantResetMeans` | apps/api/internal/app/tenants.go:433-456 | a tenant reset clears usage and block and begins a period at its own time |
| `Requests.TenantReadMeans` | apps/api/internal/app/tenants.go:458-487 | reading a tenant resets it iff its period is over, and otherwise changes nothing |
| `Requests.SweepMeans` | apps/api/internal/app/tenants.go:469-505 | the sweep resets exactly the tenants whose period is over and touches rules of those only |
| `PanelFacts.ViolationKeepsIff` | apps/api/internal/app/server.go:3625-3631 | overwriting a rule's status for a protocol violation keeps the invariant iff the rule holds its port and neither of its quotas is used up |
| `Server.Database.Allocate` | apps/api/internal/app/port_leases.go:101-132 | the scan that skips prefetched leases returns what a scan asking about every port would |
| `Server.Database.ReplaceRuleLeases` | apps/api/internal/app/port_leases.go:74-95 | deleting and inserting lease rows one by one amounts to the specified replacement |
| `Server.Database.CheckOwnersTenant` | apps/api/internal/app/server.go:2558-2583 | the tenant part of the preparation, with the roll it may do |
| `Server.Database.ChooseListenPort` | apps/api/internal/app/server.go:2634-2653 | the port part of the preparation |
| `Server.Database.PrepareRule` | apps/api/internal/app/server.go:2516-2679 | all checks of the preparation in the source's order, with the first error that applies |
| `Server.Database.CreateForwardRule` | apps/api/internal/app/server.go:2293-2345 | creation as one transaction: all of it or nothing |
| `Server.Database.UpdateForwardRule` | apps/api/internal/app/server.go:2347-2427 | updating as one transaction |
| `Server.Database.DeleteForwardRule` | apps/api/internal/app/server.go:2473-2507 | deleting as one transaction |
| `Server.Database.InsertAll` | apps/api/internal/app/forward_batch.go:60-95 | the loop over the batch, with the rules created so far and the first error |
| `Server.Database.ApplyForwardRuleBatch` | apps/api/internal/app/forward_batch.go:51-110 | all rules of a batch or none, and for a preview none in any case |
| `TrafficBuffer.AddedOk` | apps/agent/internal/runtime/runtime.go:1696-1728 | adding moves exactly the bytes given to pending or to dropped; `pendingBytes` stays the sum of the samples, and both caps hold |
| `TrafficBuffer.AddedMeans` | apps/agent/internal/runtime/runtime.go:1696-1728 | bytes are turned away iff the rule is new and the samples are at their cap, or the bytes would exceed theirs; otherwise the rule's own sample grows by them, each direction by its own |
| `TrafficBuffer.AddBalancesIff` | apps/agent/internal/runtime/runtime.go:1701-1724 | with no bound on the counts: an add accounts for its bytes iff their sum stays in int64, and the pending bytes with it unless the rule is turned away first |
| `TrafficBuffer.TakenOk` | apps/agent/internal/runtime/runtime.go:1734-1753 | starting a flush takes a well-formed batch whose byte count is the sum of its samples |
| `TrafficBuffer.TakenMeans` | apps/agent/internal/runtime/runtime.go:1734-1753 | a flush takes the first waiting batch as it is, or else every pending sample once under an id never used before |
| `TrafficBuffer.FailedMeans` | apps/agent/internal/runtime/runtime.go:1755-1769 | a failing flush counts one more failure in a row, gives its batch up iff that reaches the limit, and otherwise queues it in front, where the next flush takes the very same batch under the same id |
| `TrafficBuffer.MergeBackOk` | apps/agent/internal/runtime/runtime.go:1770-1791 | the re-merge branch moves every byte of the batch to pending or to dropped, within the caps |
| `TrafficBuffer.MergeBackMeans` | apps/agent/internal/runtime/runtime.go:1770-1791 | merging a batch back is adding its samples again, one after the other, each to its own rule and direction and under the same caps |
| `TrafficBuffer.FailedOk` | apps/agent/internal/runtime/runtime.go:1755-1794 | a failing flush loses no byte from the accounts on any of its three branches |
| `TrafficBuffer.TrafficBuffer.constructor` | apps/agent/internal/runtime/runtime.go:1685-1694 | a new buffer is empty |
| `TrafficBuffer.TrafficBuffer.Offer` | apps/agent/internal/runtime/runtime.go:1701-1724 | one rule's bytes enter the buffer or are counted as dropped |
| `TrafficBuffer.TrafficBuffer.Add` | apps/agent/internal/runtime/runtime.go:1696-1728 | one `add`, and exactly when it asks for a flush |
| `TrafficBuffer.TrafficBuffer.BeginFlush` | apps/agent/internal/runtime/runtime.go:1734-1753 | the first lock region of `flush`: a waiting batch first, otherwise everything pending under a new id, listed in whatever order the map yields |
| `TrafficBuffer.TrafficBuffer.FlushSucceeded` | apps/agent/internal/runtime/runtime.go:1795-1797 | the second lock region after an answer: the failures in a row start again at 0, and nothing else changes |
| `TrafficBuffer.TrafficBuffer.FlushFailed` | apps/agent/internal/runtime/runtime.go:1755-1794 | the second lock region after an error: give up, queue, or merge back |
| `Flushes.LedgerBalances` | apps/agent/internal/runtime/runtime.go:1696-1798 | over every interleaving of adds and flushes, re-merges included: bytes added = pending + queued + in flight + acknowledged + dropped, and both caps hold |
| `Flushes.NeverRemerges` | apps/agent/internal/runtime/runtime.go:1755-1794 | with no more flushes at once than the failure limit tolerates, no reachable failure takes the re-merge branch |
| `Flushes.RemergeIffTooWide` | apps/agent/internal/runtime/runtime.go:1755-1794 | and exactly then: a batch can lose its report id iff more flushes may run at once |
| `Protocol.ReportBills` | apps/api/internal/app/traffic_accounting.go:29-180 | an accepted report bills each rule of the reporting node its own samples, and no other node anything |
| `Protocol.DeliveryBills` | apps/api/internal/app/server.go:3465-3480 | one delivery under an id bills once and claims the id, or changes nothing at all |
| `Protocol.OthersDoNotBill` | apps/api/internal/app/server.go:3432-3498 | no other request of the panel changes what a node is billed or which ids it has claimed |
| `EndToEnd.StepCovered` | apps/agent/internal/runtime/runtime.go:1696-1798 | bytes pending for a rule plus bytes in reports ever composed for it never exceed the bytes added, whatever step is taken |
| `EndToEnd.DeliverGood` | apps/api/internal/app/server.go:3465-3480 | a delivery, first or repeated, early or late, keeps the bill equal to the accepted reports |
| `EndToEnd.NeverBilledTwice` | apps/agent/internal/runtime/runtime.go:1730-1798 | over every interleaving of adds, flushes, lost requests, lost answers, late and repeated deliveries, retries and other panel requests, within that width: bytes billed for a rule never exceed the bytes the agent counted for it |
| `DoubleBilling.TwiceAfter` | apps/agent/internal/runtime/runtime.go:1755-1794 | the run that breaks it: a recorded report whose answer is lost finds the queue full, is merged back, and is recorded again under a new id |
| `DoubleBilling.BilledOnceIffTolerated` | apps/agent/internal/runtime/runtime.go:1730-1798 | no run bills a byte twice iff no more flushes run at once than the failure limit tolerates |
| `Trackers.AcquiredOk` | apps/agent/internal/runtime/runtime.go:1852-1867 | an admitted acquire keeps the count equal to the sum of the per-address counts and within both limits |
| `Trackers.AdmitsExactly` | apps/agent/internal/runtime/runtime.go:1852-1867 | a slot is refused exactly when taking it would break a limit |
| `Trackers.RefusesWhenFull` | apps/agent/internal/runtime/runtime.go:1852-1867 | so it is refused iff there are as many connections as allowed, or the address is new and there are as many addresses as allowed |
| `Trackers.ReleaseUndoesAcquire` | apps/agent/internal/runtime/runtime.go:1852-1883 | releasing right after acquiring restores the tracker exactly, addresses included |
| `Trackers.LimitTracker.Acquire` | apps/agent/internal/runtime/runtime.go:1852-1867 | takes a slot iff both limits still hold afterwards, otherwise changes nothing |
| `Trackers.LimitTracker.Release` | apps/agent/internal/runtime/runtime.go:1869-1883 | gives one slot and one use of the address back, clamped as in the source |
| `Trackers.AcquireBoth` | apps/agent/internal/runtime/runtime.go:563-574 | takes a slot of both trackers iff both keep their limits with it, and of neither otherwise: a refusal by the tenant leaves the rule's tracker as it was |
| `Trackers.ReleaseBoth` | apps/agent/internal/runtime/runtime.go:576-583 | gives both slots back |
| `Slots.StepKeeps` | apps/agent/internal/runtime/runtime.go:1241-1366 | every step of a datagram, cleanup, drain, removal or close-all region keeps every count equal to its holders |
| `Slots.LimitsHold` | apps/agent/internal/runtime/runtime.go:1852-1883 | at every point of every interleaving a tracker's count is the number of connections and sessions holding it, in total and per address, and never above its limits |
| `Slots.TurnedAwayWhenFull` | apps/agent/internal/runtime/runtime.go:563-574 | in every run an arrival is turned away iff the rule or tenant it asks has as many holders, or its holders as many other addresses, as allowed; otherwise it gets its slot |
| `Slots.ClosesExactly` | apps/agent/internal/runtime/runtime.go:1336-1366 | idle cleanup, generation close, close-all and removal take exactly the sessions they name out of the map, and each still owes its slots |
| `Slots.InsertsUnlessTaken` | apps/agent/internal/runtime/runtime.go:1307-1334 | a dialed session enters the map unless its address is in it by then or the listener has reached its cap |
| `Slots.NoReleaseIsSpurious` | apps/agent/internal/runtime/runtime.go:1158-1179 | slots are released exactly once: no release in any run, by whichever removal path, meets a count of zero |
| `Slots.NoSlotLeaks` | apps/agent/internal/runtime/runtime.go:1433-1445 | once all holders are gone the tracker is as good as new |
| `Slots.SessionCapHolds` | apps/agent/internal/runtime/runtime.go:1250-1329 | no listener's session map ever exceeds the cap, although it is checked before and after the dial |
| `Desired.StrictestIsLeast` | apps/agent/internal/runtime/runtime.go:1941-1961 | the strictest limit is positive where any limit of the level is, and the least of those |
| `Effective.StrictestMeans` | apps/agent/internal/runtime/runtime.go:1941-1961 | for each of upload, download, connections and addresses: the strictest limit of a level is the least positive value among its limits, and 0 if none is positive |
| `Effective.RuleLimitMeans` | apps/agent/internal/runtime/runtime.go:1908-1926 | a rule's limit is the strictest of the limits naming it if any does, else of those naming its tunnel and no rule, else of those naming its user alone |
| `Effective.TenantLimitMeans` | apps/agent/internal/runtime/runtime.go:1928-1939 | a tenant's limit is the strictest of the limits naming that tenant and nothing else; a rule of no tenant has none |
| `Desired.StrictestLimit` | apps/agent/internal/runtime/runtime.go:1941-1961 | the loop over the limits of one level |
| `Desired.DesiredFails` | apps/agent/internal/runtime/runtime.go:420-428 | the desired set cannot be built iff a live rule lacks its tunnel |
| `Desired.DesiredMeans` | apps/agent/internal/runtime/runtime.go:410-456 | a listener is desired iff a live rule uses that network, with the settings of the last such rule |
| `Effective.WantedMeans` | apps/agent/internal/runtime/runtime.go:410-456 | in plain terms: exactly the rules that are running, complete and of a protocol that includes the network listen, each with its own target, tunnel and group, the policy of the rule before that of the tunnel before that of the group, and those limits |
| `Effective.MissingTunnelIff` | apps/agent/internal/runtime/runtime.go:420-428 | the set cannot be built iff a listening rule has no tunnel, and the first such rule is named |
| `Desired.DesiredListeners` | apps/agent/internal/runtime/runtime.go:410-456 | the loop over the rules builds that set |
| `Apply.ApplyAccepts` | apps/agent/internal/runtime/runtime.go:178-308 | for every order of the desired map: `Apply` succeeds iff no live rule lacks its tunnel, the runtime is not stopped, no two listeners want one socket, and every socket is already served or can be opened |
| `Apply.ApplyRefuses` | apps/agent/internal/runtime/runtime.go:178-308 | a refused configuration leaves listeners, trackers, drains and held sockets exactly as they were |
| `Apply.ApplyReason` | apps/agent/internal/runtime/runtime.go:178-262 | the reason a refusal gives is true, whatever the order: a missing tunnel, a stopped runtime, a socket two listeners want, or one that is not served and cannot be had |
| `Apply.ApplySucceeds` | apps/agent/internal/runtime/runtime.go:178-308 | a success gives exactly the desired keys; a listener on a kept socket is the same one, the others are new, exactly the listeners on unwanted sockets drain, and trackers survive iff their limit is unchanged |
| `RuntimeFacts.StagingResult` | apps/agent/internal/runtime/runtime.go:207-262 | whatever the order, staging succeeds iff everything can be served, and what it has staged by then is consistent |
| `ApplyFacts.RetunedMeans` | apps/agent/internal/runtime/runtime.go:269-274 | after the updates every staged listener carries the configuration picked for its key, at its old generation iff its fingerprint is unchanged |
| `LimitFacts.AppliedLimits` | apps/agent/internal/runtime/runtime.go:207-230 | trackers installed by a success enforce exactly the configured limits |
| `Effective.AppliedMeans` | apps/agent/internal/runtime/runtime.go:178-308 | after a success the agent listens for exactly the configured rules, each active on its own socket, with its settings, its rule tracker and, iff a tenant limit is set, its tenant tracker, under the configured limits in all four parts |
| `LimitFacts.TenantAlike` | apps/agent/internal/runtime/runtime.go:1928-1939 | all rules of a tenant get the same tenant limit |
| `Drains.ApplyKeepsOk` | apps/agent/internal/runtime/runtime.go:178-308 | every call of `Apply` keeps the sockets in order: a socket is held iff a running listener serves it or a draining UDP listener still has it, never both, and drained listeners share neither socket nor identity with each other or with running ones |
| `Drains.StoppedOk` | apps/agent/internal/runtime/runtime.go:1447-1485 | a drain that stops, whenever that is, stops once, gives its own socket back iff that is UDP, touches nothing else, and keeps this |
| `Drains.ForgottenOk` | apps/agent/internal/runtime/runtime.go:296-306 | so does forgetting: exactly a listener that has stopped is forgotten |
| `Drains.DrainedSocketIsFree` | apps/agent/internal/runtime/runtime.go:1447-1458 | a drained UDP listener holds its socket until it stops, and then the socket is free |
| `Drains.NothingLeaks` | apps/agent/internal/runtime/runtime.go:178-308 | once every drain has stopped, exactly the served sockets are held, and a configuration can be applied iff its sockets are its own and each is served or granted; an agent that serves nothing holds nothing |
| `AgentRuntime.ManagedListener.Update` | apps/agent/internal/runtime/runtime.go:729-742 | an unchanged fingerprint keeps the generation; otherwise the listener moves to a new one and a timer for the old one starts |
| `AgentRuntime.ManagedListener.Activate` | apps/agent/internal/runtime/runtime.go:761-767 | only a warming listener becomes active |
| `AgentRuntime.AgentRuntime.CurrentByBind` | apps/agent/internal/runtime/runtime.go:191-199 | the index of running listeners by socket |
| `AgentRuntime.AgentRuntime.PickTrackers` | apps/agent/internal/runtime/runtime.go:207-230 | the trackers for one key: this round's, else the running one of the same limit, else a new one |
| `AgentRuntime.AgentRuntime.StageSocket` | apps/agent/internal/runtime/runtime.go:232-261 | the listener for one key, or the error |
| `AgentRuntime.AgentRuntime.StageAll` | apps/agent/internal/runtime/runtime.go:207-262 | the loop over the desired map in an arbitrary order |
| `AgentRuntime.AgentRuntime.UpdateAll` | apps/agent/internal/runtime/runtime.go:269-271 | the loop over the staged updates |
| `AgentRuntime.AgentRuntime.DrainUnused` | apps/agent/internal/runtime/runtime.go:263-268 | exactly the listeners not reused drain |
| `AgentRuntime.AgentRuntime.Apply` | apps/agent/internal/runtime/runtime.go:178-308 | the transaction on the object: accepted iff applicable, a true reason otherwise, the success and refusal states above, and the limits that match the configuration |
| `AgentRuntime.AgentRuntime.Stop` | apps/agent/internal/runtime/runtime.go:372-408 | everything is closed and forgotten, once |
| `AgentRuntime.AgentRuntime.StopDraining` | apps/agent/internal/runtime/runtime.go:1447-1485 | the end of a drain on the object: the listener stops, and a UDP listener closes its socket |
| `AgentRuntime.AgentRuntime.ForgetDrained` | apps/agent/internal/runtime/runtime.go:298-305 | the runtime forgets a drained listener that has stopped, and no other |
| `HotUpdate.NewAgentOk` | apps/agent/internal/runtime/runtime.go:124-176 | a new agent is a state to start from |
| `HotUpdate.RunKeeps` | apps/agent/internal/runtime/runtime.go:729-759 | over every run of reconfigurations, timers, ending drains and connections, those that read their listener just before it began to drain included: pending timers are for generations strictly below the listener's, and connections never run ahead of it |
| `HotUpdate.TimerSparesCurrent` | apps/agent/internal/runtime/runtime.go:744-759 | even when a run returns to an earlier configuration, on sockets it had given up, a timer closes only connections of its own generation, which the listener has left |
| `HotUpdate.ClosesExactly` | apps/agent/internal/runtime/runtime.go:744-759 | a timer closes every connection the listener has in its table of that generation, the end of a drain every one in its table, and nothing else does |
| `HotUpdate.ConnsMean` | apps/agent/internal/runtime/runtime.go:810-833 | a connection starts with the settings and generation its listener has then, and changes only by being entered in the table |
| `HotUpdate.DrainSparesRunning` | apps/agent/internal/runtime/runtime.go:1447-1485 | what a drain closes, by a timer or at its end, is never a connection of a running listener |
| `HotUpdate.CurrentIsCurrent` | apps/agent/internal/runtime/runtime.go:810-820 | a connection of the current generation works with the current settings |
| `HotUpdate.UnchangedSurvives` | apps/agent/internal/runtime/runtime.go:729-742 | a connection outlives every run that leaves its listener's fingerprint alone |
| `Handouts.AppliedHandsOut` | apps/agent/internal/runtime/runtime.go:207-230 | while an applied configuration keeps the limit of a rule or of a tenant, every listener of it, draining ones included, hands out one and the same tracker |
| `LimitsSurvive.RunOk` | apps/agent/internal/runtime/runtime.go:178-308 | over every run of reconfigurations, ending drains, connections and sessions, listeners, sockets and slot counts stay in order |
| `LimitsSurvive.StaysKept` | apps/agent/internal/runtime/runtime.go:207-230 | a rule or a tenant keeps one and the same tracker through every run whose installed configurations keep its limit |
| `LimitsSurvive.LimitSurvives` | apps/agent/internal/runtime/runtime.go:207-230 | and in every such run all its live connections and sessions, over all listeners and generations, stay within MaxConns and come from at most MaxIPs addresses |
| `LimitsSurvive.Starts` | apps/agent/internal/runtime/runtime.go:207-230 | a configuration that brings a rule or a tenant on, for the first time or again after all of it is gone, gives it a tracker of its own, with exactly its limit |
| `LimitsSurvive.LimitFromStart` | apps/agent/internal/runtime/runtime.go:207-230 | in every run of a new agent, from the configuration that brings a rule or a tenant on and while every installed one keeps its limit: its connections and sessions stay within MaxConns and MaxIPs |
| `Probes.ProbeManager.Validate` | apps/agent/internal/probe/probe.go:63-81 | accepts iff every enabled probe has an id of its own, an interval of 5 to 3600 seconds, a timeout of 100 to 30000 milliseconds, a known kind and a target that parses |
| `Probes.ProbeManager.CancelStale` | apps/agent/internal/probe/probe.go:99-108 | cancels exactly the workers whose probe is gone or changed, and forgets their results |
| `Probes.ProbeManager.StartMissing` | apps/agent/internal/probe/probe.go:109-115 | starts one worker, of a generation of its own, for each probe without one |
| `Probes.ProbeManager.Apply` | apps/agent/internal/probe/probe.go:83-118 | afterwards the workers are exactly the enabled probes, unchanged ones with their old worker; a refusal changes nothing |
| `Probes.EnabledKeyed` | apps/agent/internal/probe/probe.go:83-98 | the wanted probes are exactly the enabled ones of the configuration, each under its id |
| `Probes.RecordedOk` | apps/agent/internal/probe/probe.go:135-141 | the worker in charge records its own outcome under its probe and nothing else; a stale one, or one of a stopped manager, records nothing |
| `Probes.ProbeManager.Record` | apps/agent/internal/probe/probe.go:135-141 | one result, behind the stale-worker guard |
| `Probes.ProbeManager.Stop` | apps/agent/internal/probe/probe.go:180-192 | all workers stop, once |
| `Combined.CombinedRuntime.Apply` | apps/agent/cmd/agent/main.go:213-221 | succeeds iff the probes are valid, forwarding can serve the configuration and the probe manager is not stopped; forwarding and probes change together or not at all, unless the probe manager alone is stopped |
| `Combined.CombinedRuntime.Switch` | apps/agent/cmd/agent/main.go:213-221 | while both parts run, or both are stopped: success is exactly servability, after success the node runs exactly this configuration, after failure exactly the previous one |
| `Combined.CombinedRuntime.Stop` | apps/agent/cmd/agent/main.go:231-238 | both stop, in that order |
| `Combined.CombinedRuntime.StopDraining` | apps/agent/internal/runtime/runtime.go:1447-1485 | a drain that stops touches nothing the node promises |
| `Combined.CombinedRuntime.ForgetDrained` | apps/agent/internal/runtime/runtime.go:298-305 | nor does forgetting it |
| `ConfigSync.Syncer.RefreshCurrentLease` | apps/agent/internal/configsync/configsync.go:142-153 | refreshes iff a configuration has been applied, the agent is not fail-closed, and revision and nonce match; only the lease changes |
| `ConfigSync.Syncer.RejectConfig` | apps/agent/internal/configsync/configsync.go:178-205 | what a rejection records |
| `ConfigSync.Syncer.FailClosedIfLeaseExpired` | apps/agent/internal/configsync/configsync.go:238-280 | an open agent closes iff its lease has ended before now; then nothing listens any more, otherwise nothing changes |
| `ConfigSync.Syncer.RestoreRenderedConfig` | apps/agent/internal/configsync/configsync.go:124-134 | the file becomes the rendering of the applied configuration, or is removed when there is none |
| `ConfigSync.Syncer.AckAppliedIfPending` | apps/agent/internal/configsync/configsync.go:155-176 | an error iff an acknowledgement is pending, the configuration has a nonce and the request fails; a pending one is cleared iff it succeeds for the remembered revision and nonce |
| `ConfigSync.Renderer.Render` | apps/agent/internal/configsync/configsync.go:392-437 | the file is replaced as a whole or not at all |
| `ConfigSync.RenderedMeans` | apps/agent/internal/configsync/configsync.go:290-437 | the file lists exactly the complete rules that are not paused, disabled or deleted, under UDP iff the protocol is udp, and carries the configuration's revision, group, limits, policies and stamp |
| `ConfigSync.Renderer.Remove` | apps/agent/internal/configsync/configsync.go:282-288 | the file is removed or not |
| `ConfigSync.Syncer.Install` | apps/agent/internal/configsync/configsync.go:87-121 | render, apply, and on failure restore and enforce the lease; on success the node runs what memory says |
| `ConfigSync.Syncer.SyncOnce` | apps/agent/internal/configsync/configsync.go:74-122 | over every outcome of fetch, render, apply and acknowledgement, the exact result, acknowledgement errors included, and the exact memory: synced and not fail-closed means the node runs exactly the applied configuration, fail-closed means it listens nowhere; an agent is fail-closed afterwards iff it was and did not replace, or the round failed after the end of its lease, and a round that fails without closing it leaves listeners and probes as they were; the file follows the applied configuration |
| `ConfigSync.ResultMeans` | apps/agent/internal/configsync/configsync.go:74-122 | what a round comes to, from what is fetched and remembered: expired, kept, not rendered, not applied or replaced, and whether the acknowledgement fails |
| `ConfigSync.TakenMeans` | apps/agent/internal/configsync/configsync.go:104-176 | what is remembered after keeping or installing: the lease is the configuration's own end or two minutes, an installation remembers all of the configuration, and an acknowledgement is pending until it has been answered |
| `ConfigSync.FailedMeans` | apps/agent/internal/configsync/configsync.go:136-280 | a failed round keeps what is applied and its lease, records the rejection, and closes an open agent iff the lease ended before it is looked at, not at its very end |
| `ConfigSync.OpenWithinLease` | apps/agent/internal/configsync/configsync.go:238-280 | over any run an open agent stays open as long as every failed round falls within the lease it has by then |
| `ConfigSync.Syncer.Loop` | apps/agent/internal/configsync/configsync.go:74-122 | the same for any number of rounds, with drains ending in between: memory is the fold of the rounds, and the file stays the rendering of the applied configuration as long as it can be written |
| `ConfigSync.Syncer.RunRound` | apps/agent/internal/configsync/configsync.go:74-122 | one round: its result, memory, node and file |
| `ConfigSync.Syncer.Take` | apps/agent/internal/configsync/configsync.go:83-122 | a configuration in time is kept or installed, with the exact result of either |
| `ConfigSync.Syncer.TakeTurn` | apps/agent/internal/configsync/configsync.go:74-122 | drains that end and the round after them |
| `ConfigSync.Syncer.EndDrains` | apps/agent/internal/runtime/runtime.go:296-306 | drains that end leave memory and every running listener alone |
| `ConfigSync.ClosedUntilReplaced` | apps/agent/internal/configsync/configsync.go:142-153 | in every run a fail-closed agent stays closed until a whole configuration is applied, whatever leases come in between |
| `ConfigSync.ClosedAgentReopens` | apps/agent/internal/configsync/configsync.go:87-121 | a fail-closed agent whose drains have stopped, UDP rules or not, applies the next configuration iff that is in time, renders, is complete and asks for sockets of its own that the system grants |
| `ConfigSync.ErrorsAreEnforcedIff` | apps/agent/internal/configsync/configsync.go:74-122 | over every result of a round, for any longest time d an acknowledgement may take: every error return past the lease leaves the agent fail-closed iff no acknowledgement is sent or the new lease lasts d from the moment it is set |
| `ConfigSync.UnenforcedErrors` | apps/agent/internal/configsync/configsync.go:83-85 | a round of either branch, the shortcut or the installation, that returns an error past the lease with listeners still open |
| `ConfigSync.RefreshIsSound` | apps/agent/internal/configsync/configsync.go:142-153 | when nonces follow from revisions, as the API computes them for one node token, a lease is refreshed only for the revision and nonce that are applied, after any history of rejections |
| `ConfigSync.KeptIsApplied` | apps/agent/internal/configsync/configsync.go:142-153 | so in every run of the loop a kept configuration has the applied revision and nonce at that point |
| `ConfigSync.RefreshIsSoundIff` | apps/agent/internal/configsync/configsync.go:142-153 | whatever nonces a server sends: an open agent refreshes only for the applied nonce iff the nonce it remembers is still that one; the revision always matches |
| `ConfigSync.RefreshNeedsNonces` | apps/agent/internal/configsync/configsync.go:178-205 | three rounds after which a lease is kept for a configuration whose nonce was never applied: the revision comes again under another nonce and too late, then in time |
| `ConfigSync.FileAgainstNode` | apps/agent/internal/configsync/configsync.go:545-560 | the file against the node, rule by rule and network by network: more is listed than served iff the rule is out of quota or of an unknown protocol, and less iff it is the UDP half of a `tcp_udp` rule |
| `FlowTable.ExpiryIsFullScan` | apps/dpi/cmd/dpi/engine_ndpi_linux.go:307-321 | expiring from the front removes exactly the flows that a scan of the whole table would find idle, and counts each once |
| `FlowTable.RunsKeep` | apps/dpi/cmd/dpi/engine_ndpi_linux.go:171-331 | in every run of classify, close and cleanup: map and list hold the same ids once, the list is in order of last use, the size stays within `maxFlows`, and every flow is final within `maxPackets` packets |
| `FlowTable.RunsFromStart` | apps/dpi/cmd/dpi/engine_ndpi_linux.go:171-331 | so in every run of a new engine |
| `FlowTable.StayingFlow` | apps/dpi/cmd/dpi/engine_ndpi_linux.go:195-243 | a packet is fed to its own flow only; every other step leaves a flow alone |
| `FlowTable.FinalVerdictStands` | apps/dpi/cmd/dpi/engine_ndpi_linux.go:211-214 | a final verdict never changes while the flow stays in the table |
| `FlowTable.AnswerMeans` | apps/dpi/cmd/dpi/engine_ndpi_linux.go:185-243 | the verdict of a call: a final one stands; any other counts one more packet, is final iff detection is complete or the flow has had its last packet, and carries the guessed name iff only the second holds |
| `FlowTable.OthersMean` | apps/dpi/cmd/dpi/engine_ndpi_linux.go:185-331 | what a call does to all other flows: those idle for the time to live are gone, of the rest at most one, iff a new flow needs its place, and then one that no other has been idle for longer than |
| `FlowTable.EvictedIsOldest` | apps/dpi/cmd/dpi/engine_ndpi_linux.go:323-331 | a table below its size evicts nothing, a full one its least recently used flow |
| `FlowTable.SequenceCountsBytes` | apps/dpi/cmd/dpi/engine_ndpi_linux.go:215-226 | the sequence number of a direction is the number of its earlier bytes modulo 2^32 (section 3.4 of RFC 9293) |
| `FlowTable.SequenceFromFirst` | apps/dpi/cmd/dpi/engine_ndpi_linux.go:195-226 | counted from the packet that opened the flow, it is the number of all its bytes in that direction |
| `FlowEngine.FlowEngine.RemoveFlowLocked` | apps/dpi/cmd/dpi/engine_ndpi_linux.go:333-343 | removes a flow from map and list |
| `FlowEngine.FlowEngine.ExpireLocked` | apps/dpi/cmd/dpi/engine_ndpi_linux.go:307-321 | the loop from the front of the list |
| `FlowEngine.FlowEngine.EnsureCapacityLocked` | apps/dpi/cmd/dpi/engine_ndpi_linux.go:323-331 | evicts the least recently used flow of a full table |
| `FlowEngine.FlowEngine.Process` | apps/dpi/cmd/dpi/engine_ndpi_linux.go:215-239 | detection on one packet: what is fed is the packet of the request, numbered with the flow's own count of earlier bytes in the request's direction |
| `FlowEngine.FlowEngine.ClassifyNew` | apps/dpi/cmd/dpi/engine_ndpi_linux.go:185-210 | a packet of an unknown flow: insertion or an ephemeral flow, and the packet that is fed |
| `FlowEngine.FlowEngine.ClassifyKnown` | apps/dpi/cmd/dpi/engine_ndpi_linux.go:195-243 | a packet of a known flow, and the packet that is fed unless its verdict is final |
| `FlowEngine.PacketCountsEarlierBytes` | apps/dpi/cmd/dpi/engine_ndpi_linux.go:215-226 | end to end: the TCP packet made for a request decodes to its payload and to a sequence number equal to the flow's earlier bytes in that direction since it was opened, modulo 2^32 |
| `FlowEngine.FlowEngine.Classify` | apps/dpi/cmd/dpi/engine_ndpi_linux.go:171-244 | one call: expiry, lookup or insertion, detection; a closed engine or an empty payload changes nothing |
| `FlowEngine.FlowEngine.CloseFlow` | apps/dpi/cmd/dpi/engine_ndpi_linux.go:246-250 | removes one flow |
| `FlowEngine.FlowEngine.Close` | apps/dpi/cmd/dpi/engine_ndpi_linux.go:265-283 | frees every flow with its place in the list, once, and refuses later calls |
| `ClientHello.ParseSNIExtension` | apps/agent/internal/protocol/detector.go:285-305 | the loop over the name list, with no read out of bounds on any input |
| `ClientHello.ParseALPNExtension` | apps/agent/internal/protocol/detector.go:307-325 | the loop over the protocol list, with no read out of bounds on any input |
| `ClientHello.FindExtensions` | apps/agent/internal/protocol/detector.go:217-259 | the offsets up to the extensions, with no read out of bounds on any input |
| `ClientHello.ParseTLSClientHello` | apps/agent/internal/protocol/detector.go:217-283 | the whole parser ends and stays in bounds on any input |
| `Handshake.ServerNameRoundTrip` | apps/agent/internal/protocol/detector.go:285-305 | a server name extension reads back (section 3 of RFC 6066) |
| `Handshake.ProtocolsRoundTrip` | apps/agent/internal/protocol/detector.go:307-325 | a protocol list reads back (section 3.1 of RFC 7301) |
| `Handshake.ParseSees` | apps/agent/internal/protocol/detector.go:217-283 | in any prefix of an encoded hello the parser finds exactly what the extensions complete within the prefix say |
| `Handshake.RoundTrip` | apps/agent/internal/protocol/detector.go:217-283 | for any session id, cipher list, compression list and any order of distinct extensions, an encoded hello yields its server name and protocols, whatever follows it (section 4.1.2 of RFC 8446) |
| `Handshake.TruncatedNeverWrong` | apps/agent/internal/protocol/detector.go:217-283 | a hello cut anywhere yields the true host or none and the true protocols or none |
| `PacketBytes.PutU16` | apps/dpi/cmd/dpi/engine_ndpi_linux.go:412-423 | two bytes in network order, modulo 2^16, and no other byte |
| `PacketBytes.PutU32` | apps/dpi/cmd/dpi/engine_ndpi_linux.go:412-423 | four bytes in network order, and no other byte |
| `PacketBytes.WriteTransportHeader` | apps/dpi/cmd/dpi/engine_ndpi_linux.go:412-423 | ports, sequence or length field in place, and no other byte |
| `PacketBytes.SynthesizeIPv4` | apps/dpi/cmd/dpi/engine_ndpi_linux.go:370-389 | the IPv4 header (section 3.1 of RFC 791), the transport header (RFC 768, RFC 9293) and the payload in place |
| `PacketBytes.SynthesizeIPv6` | apps/dpi/cmd/dpi/engine_ndpi_linux.go:391-410 | the IPv6 header (section 3 of RFC 8200), the transport header and the payload in place |
| `PacketBytes.IPv4RoundTrip` | apps/dpi/cmd/dpi/engine_ndpi_linux.go:370-389 | such a packet decodes to its addresses, ports, sequence and payload iff it fits 65535 bytes |
| `PacketBytes.IPv6RoundTrip` | apps/dpi/cmd/dpi/engine_ndpi_linux.go:391-410 | the same iff what follows the IPv6 header fits 65535 bytes |
| `PacketBytes.SynthesizePacket` | apps/dpi/cmd/dpi/engine_ndpi_linux.go:345-368 | the packet of a request decodes to the ends in the request's direction, with defaults for missing addresses and ports; only an unknown network is refused |
| `PacketBytes.EndsMean` | apps/dpi/cmd/dpi/engine_ndpi_linux.go:345-368 | the two directions of a flow have the same ends changed round; a missing address stands for a private one, a mapped IPv4 address for itself, and ends of different families for the private pair |
| `PacketBytes.PortsMean` | apps/dpi/cmd/dpi/engine_ndpi_linux.go:345-368 | the same for the ports, with 40000 and 443 for ports that are none |
| `TokenBucket.ConsumptionIsCovered` | apps/agent/internal/runtime/runtime.go:1995-2032 | over any run with any waiters, bytes let through plus tokens left are covered by tokens at the start plus what has flowed in |
| `TokenBucket.WindowBound` | apps/agent/internal/runtime/runtime.go:1995-2032 | in any window [s, t] of any run at most rate * (t - s) + rate bytes pass |
| `TokenBucket.TokenBucket.constructor` | apps/agent/internal/runtime/runtime.go:1988-1993 | a new bucket is full |
| `TokenBucket.TokenBucket.Take` | apps/agent/internal/runtime/runtime.go:2001-2026 | one pass through the lock: 0 <= tokens <= rate is kept and the rest still needed is exact |
| `TokenBucket.TokenBucket.WaitAlone` | apps/agent/internal/runtime/runtime.go:1995-2032 | a sole waiter takes exactly n and ends within ceil(n / rate) + 1 rounds, however late its sleeps return |
| `TokenBucket.EachTakesItsShare` | apps/agent/internal/runtime/runtime.go:1995-2032 | of any number of interleaved waiters, each whose wait returns has taken exactly its n |
| `TokenBucket.PassesAreTimely` | apps/agent/internal/runtime/runtime.go:1995-2032 | passes of the interleaved waiters carry the readings of one clock that does not run backwards, as the bounds above ask |
| `Server.Database.ChargeOneUser` | apps/api/internal/app/traffic_accounting.go:114-128 | one user row: locked, guarded, charged, and listed when newly spent |
| `Server.Database.ChargeOneTenant` | apps/api/internal/app/traffic_accounting.go:134-172 | one tenant row: rolled, guarded, billed with its bucket, reconciled |
| `Panel.UserResetKeeps` | apps/api/internal/app/server.go:3553-3576 | resetting a user keeps quotas and ports exact |
| `Panel.TenantResetKeeps` | apps/api/internal/app/tenants.go:433-456 | resetting a tenant keeps quotas and ports exact |
| `Panel.RollAllKeeps` | apps/api/internal/app/tenants.go:469-480 | rolling all due tenants keeps quotas and ports exact |
| `Panel.BatchRequestKeeps` | apps/api/internal/app/forward_batch.go:51-110 | a batch, committed or previewed, keeps quotas and ports exact |
| `RulesFacts.SavedExact` | apps/api/internal/app/server.go:2347-2427 | saving a checked row and rewriting its leases cannot fail and keeps quotas and ports exact |
| `BatchFacts.SamePrepare` | apps/api/internal/app/server.go:2516-2679 | preparing one draft in states that differ only in rule keys gives the same row, or the same error |
| `BatchFacts.SameFirstFree` | apps/api/internal/app/port_leases.go:101-132 | allocation does not depend on the keys of the rules that hold ports |
| `BatchFacts.BatchesAgree` | apps/api/internal/app/forward_batch.go:60-95 | if single creations agree, whole batches do, round by round |
| `Server.Database.InsertRule` | apps/api/internal/app/forward_batch.go:81-90 | one creation inside an open transaction |
| `Server.Database.InsertNext` | apps/api/internal/app/forward_batch.go:61-94 | one round of the batch loop |
| `EndToEnd.StepGood` | apps/agent/internal/runtime/runtime.go:1730-1798 | every step of agent, network or panel keeps the bill equal to the reports accepted, each counted once |
| `Slots.Loses` | apps/agent/internal/runtime/runtime.go:1869-1883 | a release by a real holder finds its counts above zero, so the clamps of the source never act |
| `Slots.DetachCounts` | apps/agent/internal/runtime/runtime.go:1336-1366 | cutting sessions out of the map leaves every count alone until each of them releases once |
| `AgentRuntime.AgentRuntime.StageOne` | apps/agent/internal/runtime/runtime.go:207-261 | one round of the loop over the desired map |
| `AgentRuntime.AgentRuntime.PickTracker` | apps/agent/internal/runtime/runtime.go:208-217 | the tracker of one owner |
| `AgentRuntime.AgentRuntime.SetApplyResult` | apps/agent/internal/runtime/runtime.go:497-505 | records the outcome and nothing else |
| `AgentRuntime.AgentRuntime.RollBack` | apps/agent/internal/runtime/runtime.go:254-258 | what the failed call had started is stopped, so no socket it opened stays open |
| `AgentRuntime.AgentRuntime.Commit` | apps/agent/internal/runtime/runtime.go:263-290 | the exchange of listeners, trackers and drains |
| `AgentRuntime.AgentRuntime.constructor` | apps/agent/internal/runtime/runtime.go:124-176 | a new runtime serves nothing |
| `HotUpdate.StillThere` | apps/agent/internal/runtime/runtime.go:246-248 | a listener that runs at the end of a run with an old identity ran at its start, at no later generation |
| `ConfigSync.Syncer.constructor` | apps/agent/internal/configsync/configsync.go:62-72 | a new agent has applied nothing and is not fail-closed |
| `ConfigSync.Syncer.RejectAndEnforceLease` | apps/agent/internal/configsync/configsync.go:136-140 | a rejection, then the lease; before it runs out, nothing that runs changes |
| `ConfigSync.Syncer.Accept` | apps/agent/internal/configsync/configsync.go:104-121 | memory takes over a configuration the node already runs, and the acknowledgement fails exactly as its request does |
| `ConfigSync.Syncer.GiveUp` | apps/agent/internal/configsync/configsync.go:96-101 | after a refused apply the old file comes back and, before the lease runs out, nothing that runs has changed |
| `ConfigSync.Syncer.ApplyRendered` | apps/agent/internal/configsync/configsync.go:95-121 | apply and its two outcomes: replaced iff the node can serve the configuration, with the exact outcome of the acknowledgement |
| `ConfigSync.Syncer.Remember` | apps/agent/internal/configsync/configsync.go:104-119 | what memory holds after a configuration was applied |
| `ConfigSync.Syncer.KeepLease` | apps/agent/internal/configsync/configsync.go:83-85 | the shortcut for the configuration that runs, with the exact outcome of a pending acknowledgement |
| `FlowTable.FrontIsOldest` | apps/dpi/cmd/dpi/engine_ndpi_linux.go:307-317 | in a list in order of use nothing is idle when the front is not |
| `FlowTable.StepKeeps` | apps/dpi/cmd/dpi/engine_ndpi_linux.go:171-331 | one step of classify, close or cleanup keeps map, list, order, size and finality |
| `FlowEngine.FlowEngine.Unlink` | apps/dpi/cmd/dpi/engine_ndpi_linux.go:339-341 | the element is unlinked wherever it is |
| `Handshake.WalkSees` | apps/agent/internal/protocol/detector.go:263-281 | cut anywhere, the loop sees exactly the extensions that lie completely before the cut |
| `TokenBucket.RoundAfterSleep` | apps/agent/internal/runtime/runtime.go:2021-2030 | after its sleep a lone waiter gets all it still needs, or one second's worth |
| `TokenBucket.SleepMeans` | apps/agent/internal/runtime/runtime.go:2021-2030 | a sleep lasts from a millisecond to a second, and no longer than what is needed, or one second's worth, takes to flow in |
| `TokenBucket.TokenBucket.TakeNext` | apps/agent/internal/runtime/runtime.go:2000-2031 | each round of a lone waiter after the first makes that progress |

## Left out

- HTTP, JSON, authentication, audit logs, metrics, the web client and deployment: plumbing around the machines.
- Creating and deleting users, tenants, tunnels, groups and grants: rows of `Net`, users and tenants are given, and requests change only the columns quotas and ports depend on.
- Changing tunnels and device groups: these handlers do not lease existing rules again, so the port machine has no step for them.
- `agentViolation` as a step of the panel: it can break the invariants, and `PanelFacts.ViolationKeepsIff` says exactly when.
- Names, remote hosts, strategies and protocol policies of rules: a draft carries the outcome of those checks as `formOk` and `policyOk`.
- Status, protocol and flow id texts are taken as already trimmed and lower-cased, and so is a report id, whose length is counted in characters that are one byte each.
- Revision columns, timestamps other than those that decide something, and the order in which one report's rows are inserted.
- Transactions are serial: the row-level races that exist because some handlers load a row before their transaction are not modelled.
- Report.ReportRules: rule counters and bucket columns are unbounded integers, because the SQL that adds to them has no guard.
- Slots.StepKeeps: liveness is not stated; an insertion after close-all can keep a session beyond the stop, as in the source.
- AgentRuntime.AgentRuntime.Apply: listeners and trackers are values with identity numbers in tables, not shared heap objects; which goroutine holds which pointer is expressed by those numbers.
- AgentRuntime.AgentRuntime.DrainUnused: drains begin inside `Apply` here, in the source right after it has released its lock.
- AgentRuntime.AgentRuntime.StopDraining: a drain may stop at any time here; that it stops when its sessions are gone, or when its time is up, is not modelled, and neither is the wait between closing the socket and the end of its goroutines.
- ConfigSync.Syncer.Loop: drains end between rounds; only `Apply` and `Stop` look at what drains or at which sockets are held, so an end within a round is one before or after it.
- Which rules a speed limit refers to is part of the given tables; creating and deleting speed limits are no requests here.
- HotUpdate.TimerSparesCurrent: that no old connection outlives its drain is not stated, because one tracked after the timer fired does.
- AgentRuntime.AgentRuntime.Stop: the final flush of the traffic buffer is not part of it.
- The choice of the listen host from the group is a field of the configuration; device group fields outside the fingerprint do not occur.
- TrafficBuffer.AddedOk: byte counts of one add, together with `maxBytes`, stay within int64, as those of a packet or a copy do.
- ConfigSync.Syncer.SyncOnce: runs while forwarding and probes both run or are both stopped; sorting and JSON layout of the rendered services, and the supervisor that reads the file, are not modelled; times, fetched configurations and the success of writes are inputs.
- FlowEngine.FlowEngine.Process: what libndpi answers for a packet, and whether it has memory, are inputs.
- FlowTable.RunsKeep: needs `maxFlows` of at least 1, since the source inserts into a table it could not make room in; the flow id `__ephemeral__` is never sent by a caller.
- PacketBytes.SynthesizePacket: addresses are byte strings that have been parsed already.
- TokenBucket.WindowBound: tokens and times are reals, so rounding to nanoseconds and floats is not modelled; the clock does not run backwards.
- Protocol detection other than TLS, and the policy matching on its results.
