/** No byte is billed twice: the invariant of the whole billing path, over every run. */
module EndToEnd {
  import opened Common
  import opened Store
  import opened Accounting
  import opened RulesFacts
  import opened Panel
  import opened PanelFacts
  import opened TrafficBuffer
  import opened Flushes
  import opened Protocol

  /** One agent, the reports it has ever sent by sequence number, and the panel's database. */
  datatype World = World(agent: Agent, sent: map<nat, seq<Sample>>, server: State)

  /** name gives the report id of a sequence number: a timestamp and the number itself. */
  datatype Setup = Setup(limits: Limits, width: nat, node: Node, name: nat -> string)

  datatype WorldStep =
    | AgentSide(step: Step)
    | Deliver(id: nat, at: int)
    | PanelSide(request: Request)

  ghost predicate Distinguishes(name: nat -> string) {
    (forall i :: name(i) != "") && (forall i, j | name(i) == name(j) :: i == j)
  }

  function KeyOf(u: Setup, id: nat): MarkerKey {
    MarkerKey(u.node.id, u.name(id))
  }

  /**
   * A flush is answered only after the server accepted its report. A report may reach the server any
   * number of times, late, in any order, or never. Other requests are anything but this node's reports.
   */
  predicate Possible(u: Setup, w: World, t: WorldStep) {
    match t
    case AgentSide(a) =>
      Enabled(u.limits, u.width, w.agent, a)
      && (a.Answer? ==> KeyOf(u, w.agent.inFlight[a.k].id) in w.server.ledger.markers)
    case Deliver(id, at) => id in w.sent
    case PanelSide(q) => q.ReportTraffic? ==> q.node.id != u.node.id
  }

  /** The reports on record after a step of the agent: starting a fresh batch composes one more. */
  function Sent(a: Agent, sent: map<nat, seq<Sample>>, t: Step): map<nat, seq<Sample>>
    requires t.Start? ==> CanTake(a.buf) && Lists(t.order, a.buf.samples.Keys)
  {
    if t.Start? && a.buf.retry == [] then sent[a.buf.lastId + 1 := TakenBatch(a.buf, t.order).samples] else sent
  }

  function WorldNext(u: Setup, w: World, t: WorldStep): World
    requires Possible(u, w, t)
  {
    match t
    case AgentSide(a) => w.(agent := Next(u.limits, w.agent, a), sent := Sent(w.agent, w.sent, a))
    case Deliver(id, at) => w.(server := AgentTraffic(w.server, u.node, u.name(id), w.sent[id], at).0)
    case PanelSide(q) => w.(server := Handle(w.server, q))
  }

  ghost predicate WorldLeads(u: Setup, w: World, steps: seq<WorldStep>, v: World)
    decreases |steps|
  {
    if steps == [] then w == v
    else Possible(u, w, steps[0]) && WorldLeads(u, WorldNext(u, w, steps[0]), steps[1..], v)
  }

  lemma {:induction false} InvariantOfWorlds(u: Setup, inv: World -> bool, w: World, steps: seq<WorldStep>, v: World)
    requires inv(w) && WorldLeads(u, w, steps, v)
    requires forall x, t | inv(x) && Possible(u, x, t) :: inv(WorldNext(u, x, t))
    ensures inv(v)
    decreases |steps|
  {
    if steps != [] {
      InvariantOfWorlds(u, inv, WorldNext(u, w, steps[0]), steps[1..], v);
    }
  }

  // ---- bytes of one rule on the agent's side ----

  ghost function PendingOf(b: Buffer, rule: Id): int {
    if rule in b.samples then Weight(b.samples[rule]) else 0
  }

  /** Bytes of a rule in the first n reports ever composed, and in those of them the server accepted. */
  ghost function SentOf(sent: map<nat, seq<Sample>>, n: nat, rule: Id): int {
    if n == 0 then 0
    else SentOf(sent, n - 1, rule) + (if n in sent then TotalFor(sent[n], {rule}) else 0)
  }

  ghost function AcceptedOf(u: Setup, sent: map<nat, seq<Sample>>, claimed: map<MarkerKey, nat>, n: nat, rule: Id): int {
    if n == 0 then 0
    else AcceptedOf(u, sent, claimed, n - 1, rule)
         + (if n in sent && KeyOf(u, n) in claimed then TotalFor(sent[n], {rule}) else 0)
  }

  lemma OfferedRule(l: Limits, b: Buffer, rule: Id, x: Int64, y: Int64, r: Id)
    requires BufferOk(l, b) && 0 <= x && 0 <= y && b.pending + x + y <= MAX_INT64
    ensures PendingOf(Offered(l, b, rule, x, y, x + y), r) <= PendingOf(b, r) + if r == rule then x + y else 0
  {
    MapTotalBounds(b.samples, rule);
  }

  lemma {:induction false} ListedRule(m: map<Id, Sample>, order: seq<Id>, rule: Id)
    requires forall k | 0 <= k < |order| :: order[k] in m && m[order[k]].rule == order[k]
    requires forall i, j | 0 <= i < j < |order| :: order[i] != order[j]
    ensures TotalFor(ListSamples(m, order), {rule}) == if rule in order then Weight(m[rule]) else 0
    decreases |order|
  {
    if order != [] {
      var n := |order| - 1;
      ListedRule(m, order[..n], rule);
      var listed, front := ListSamples(m, order), ListSamples(m, order[..n]);
      assert listed == front + [m[order[n]]];
      TotalSnoc(front, m[order[n]], rule);
      assert order == order[..n] + [order[n]];
    }
  }

  lemma TotalSnoc(samples: seq<Sample>, x: Sample, rule: Id)
    ensures TotalFor(samples + [x], {rule}) == TotalFor(samples, {rule}) + if x.rule == rule then Weight(x) else 0
  {
    assert (samples + [x])[..|samples|] == samples;
  }

  lemma ListsAll(order: seq<Id>, keys: set<Id>, x: Id)
    requires Lists(order, keys) && x in keys
    ensures x in order
  {
    var seen := set k | 0 <= k < |order| :: order[k];
    SeenSize(order);
    if x !in order {
      assert seen <= keys - {x};
      SubsetSize(seen, keys - {x});
    }
  }

  lemma {:induction false} SeenSize(order: seq<Id>)
    requires forall i, j | 0 <= i < j < |order| :: order[i] != order[j]
    ensures |set k | 0 <= k < |order| :: order[k]| == |order|
    decreases |order|
  {
    if order != [] {
      var n := |order| - 1;
      SeenSize(order[..n]);
      var a, b := (set k | 0 <= k < n :: order[..n][k]), (set k | 0 <= k < |order| :: order[k]);
      assert b == a + {order[n]};
    }
  }

  lemma {:induction false} SentNonNegative(sent: map<nat, seq<Sample>>, n: nat, rule: Id)
    requires forall i | i in sent :: AllNonNegative(sent[i])
    ensures 0 <= SentOf(sent, n, rule)
  {
    if n > 0 {
      SentNonNegative(sent, n - 1, rule);
      if n in sent { TotalNonNegative(sent[n], rule); }
    }
  }

  ghost predicate AllNonNegative(samples: seq<Sample>) {
    forall k | 0 <= k < |samples| :: 0 <= samples[k].inBytes && 0 <= samples[k].outBytes
  }

  lemma {:induction false} TotalNonNegative(samples: seq<Sample>, rule: Id)
    requires AllNonNegative(samples)
    ensures 0 <= TotalFor(samples, {rule})
  {
    if samples != [] { TotalNonNegative(samples[..|samples| - 1], rule); }
  }

  lemma {:induction false} AcceptedWithinSent(u: Setup, sent: map<nat, seq<Sample>>, claimed: map<MarkerKey, nat>, n: nat, rule: Id)
    requires forall i | i in sent :: AllNonNegative(sent[i])
    ensures AcceptedOf(u, sent, claimed, n, rule) <= SentOf(sent, n, rule)
  {
    if n > 0 {
      AcceptedWithinSent(u, sent, claimed, n - 1, rule);
      if n in sent { TotalNonNegative(sent[n], rule); }
    }
  }

  lemma {:induction false} SentFrame(a: map<nat, seq<Sample>>, b: map<nat, seq<Sample>>, n: nat, rule: Id)
    requires forall i | 0 < i <= n :: (i in a <==> i in b) && (i in a ==> a[i] == b[i])
    ensures SentOf(a, n, rule) == SentOf(b, n, rule)
  {
    if n > 0 { SentFrame(a, b, n - 1, rule); }
  }

  lemma {:induction false} AcceptedFrame(u: Setup, a: map<nat, seq<Sample>>, b: map<nat, seq<Sample>>,
                                         c: map<MarkerKey, nat>, d: map<MarkerKey, nat>, n: nat, rule: Id)
    requires forall i | 0 < i <= n :: (i in a <==> i in b) && (i in a ==> a[i] == b[i])
    requires forall i | 0 < i <= n :: KeyOf(u, i) in c <==> KeyOf(u, i) in d
    ensures AcceptedOf(u, a, c, n, rule) == AcceptedOf(u, b, d, n, rule)
  {
    if n > 0 { AcceptedFrame(u, a, b, c, d, n - 1, rule); }
  }

  lemma {:induction false} AcceptedGains(u: Setup, sent: map<nat, seq<Sample>>, claimed: map<MarkerKey, nat>, count: nat,
                                         n: nat, id: nat, rule: Id)
    requires Distinguishes(u.name) && 0 < id <= n && id in sent && KeyOf(u, id) !in claimed
    ensures AcceptedOf(u, sent, claimed[KeyOf(u, id) := count], n, rule)
            == AcceptedOf(u, sent, claimed, n, rule) + TotalFor(sent[id], {rule})
  {
    var claimed' := claimed[KeyOf(u, id) := count];
    if n == id {
      forall i | 0 < i <= n - 1 ensures KeyOf(u, i) in claimed <==> KeyOf(u, i) in claimed' {
        assert u.name(i) != u.name(id);
      }
      AcceptedFrame(u, sent, sent, claimed, claimed', n - 1, rule);
    } else {
      assert u.name(n) != u.name(id);
      AcceptedGains(u, sent, claimed, count, n - 1, id, rule);
    }
  }

  // ---- the agent's side of the invariant ----

  /** A batch queued or in flight is a report on record, under the id it was first sent with. */
  ghost predicate OnRecord(sent: map<nat, seq<Sample>>, batch: Batch) {
    batch.id in sent && sent[batch.id] == batch.samples
  }

  ghost predicate Faithful(u: Setup, a: Agent, sent: map<nat, seq<Sample>>) {
    && Balanced(u.limits, a) && QueueBounded(u.limits, u.width, a) && Tolerates(u.limits.maxFailures, u.width)
    && (forall i :: i in sent <==> 0 < i <= a.buf.lastId)
    && (forall i | i in sent :: AllNonNegative(sent[i]))
    && (forall k | 0 <= k < |a.inFlight| :: OnRecord(sent, a.inFlight[k]))
    && (forall k | 0 <= k < |a.buf.retry| :: OnRecord(sent, a.buf.retry[k]))
  }

  /** Whatever is pending or was ever composed for the rule was added first, and counts once. */
  ghost predicate Covered(a: Agent, sent: map<nat, seq<Sample>>, rule: Id) {
    PendingOf(a.buf, rule) + SentOf(sent, a.buf.lastId, rule) <= Tally(a.added, rule)
  }

  lemma AddCovered(u: Setup, a: Agent, sent: map<nat, seq<Sample>>, rule: Id, t: Step)
    requires Faithful(u, a, sent) && Covered(a, sent, rule) && t.AddBytes? && Enabled(u.limits, u.width, a, t)
    ensures Covered(Next(u.limits, a, t), sent, rule) && Next(u.limits, a, t).buf.lastId == a.buf.lastId
  {
    AddedOk(u.limits, a.buf, t.rule, t.inBytes, t.outBytes);
    OfferedRule(u.limits, a.buf, t.rule, t.inBytes, t.outBytes, rule);
  }

  /** A batch composed of everything pending carries a rule's pending bytes. */
  lemma ComposedTotal(b: Buffer, order: seq<Id>, rule: Id)
    requires CanTake(b) && Lists(order, b.samples.Keys) && b.retry == []
    requires forall r | r in b.samples :: b.samples[r].rule == r
    ensures TotalFor(TakenBatch(b, order).samples, {rule}) == PendingOf(b, rule)
  {
    ListedRule(b.samples, order, rule);
    if rule in b.samples { ListsAll(order, b.samples.Keys, rule); }
  }

  lemma OneMoreSent(sent: map<nat, seq<Sample>>, n: nat, samples: seq<Sample>, rule: Id)
    ensures SentOf(sent[n + 1 := samples], n + 1, rule) == SentOf(sent, n, rule) + TotalFor(samples, {rule})
  {
    SentFrame(sent, sent[n + 1 := samples], n, rule);
  }

  lemma StartCovered(u: Setup, a: Agent, sent: map<nat, seq<Sample>>, rule: Id, t: Step)
    requires Faithful(u, a, sent) && Covered(a, sent, rule) && t.Start? && Enabled(u.limits, u.width, a, t)
    ensures Covered(Next(u.limits, a, t), Sent(a, sent, t), rule)
  {
    if a.buf.retry == [] {
      ComposedTotal(a.buf, t.order, rule);
      OneMoreSent(sent, a.buf.lastId, TakenBatch(a.buf, t.order).samples, rule);
    }
  }

  lemma StepCovered(u: Setup, a: Agent, sent: map<nat, seq<Sample>>, rule: Id, t: Step)
    requires Faithful(u, a, sent) && Covered(a, sent, rule) && Enabled(u.limits, u.width, a, t)
    ensures Covered(Next(u.limits, a, t), Sent(a, sent, t), rule)
  {
    if t.AddBytes? {
      AddCovered(u, a, sent, rule, t);
    } else if t.Start? {
      StartCovered(u, a, sent, rule, t);
    } else {
      StepQueueBounded(u.limits, u.width, a, t);
    }
  }

  /** The records stay true: only a fresh start adds one, and no failure composes a batch anew. */
  lemma StepRecorded(u: Setup, a: Agent, sent: map<nat, seq<Sample>>, t: Step)
    requires Faithful(u, a, sent) && Enabled(u.limits, u.width, a, t)
    ensures var b, sent' := Next(u.limits, a, t), Sent(a, sent, t);
            && (forall i :: i in sent' <==> 0 < i <= b.buf.lastId)
            && (forall i | i in sent' :: AllNonNegative(sent'[i]))
            && (forall k | 0 <= k < |b.inFlight| :: OnRecord(sent', b.inFlight[k]))
            && (forall k | 0 <= k < |b.buf.retry| :: OnRecord(sent', b.buf.retry[k]))
  {
    if t.AddBytes? {
      AddedOk(u.limits, a.buf, t.rule, t.inBytes, t.outBytes);
    } else if t.Start? {
      StartRecorded(u, a, sent, t);
    } else {
      EndRecorded(u, a, sent, t);
    }
  }

  lemma EndRecorded(u: Setup, a: Agent, sent: map<nat, seq<Sample>>, t: Step)
    requires Faithful(u, a, sent) && Enabled(u.limits, u.width, a, t) && (t.Answer? || t.Lose?)
    ensures Next(u.limits, a, t).buf.lastId == a.buf.lastId && Sent(a, sent, t) == sent
    ensures forall k | 0 <= k < |Next(u.limits, a, t).inFlight| :: OnRecord(sent, Next(u.limits, a, t).inFlight[k])
    ensures forall k | 0 <= k < |Next(u.limits, a, t).buf.retry| :: OnRecord(sent, Next(u.limits, a, t).buf.retry[k])
  {
    StepQueueBounded(u.limits, u.width, a, t);
  }

  lemma StartRecorded(u: Setup, a: Agent, sent: map<nat, seq<Sample>>, t: Step)
    requires Faithful(u, a, sent) && Enabled(u.limits, u.width, a, t) && t.Start?
    ensures var b, sent' := Next(u.limits, a, t), Sent(a, sent, t);
            && (forall i :: i in sent' <==> 0 < i <= b.buf.lastId)
            && (forall i | i in sent' :: AllNonNegative(sent'[i]))
            && (forall k | 0 <= k < |b.inFlight| :: OnRecord(sent', b.inFlight[k]))
            && (forall k | 0 <= k < |b.buf.retry| :: OnRecord(sent', b.buf.retry[k]))
  {
  }

  lemma StepFaithful(u: Setup, a: Agent, sent: map<nat, seq<Sample>>, t: Step)
    requires Faithful(u, a, sent) && Enabled(u.limits, u.width, a, t)
    ensures Faithful(u, Next(u.limits, a, t), Sent(a, sent, t))
  {
    StepBalanced(u.limits, u.width, a, t);
    StepQueueBounded(u.limits, u.width, a, t);
    StepRecorded(u, a, sent, t);
  }

  // ---- the server's side ----

  /** The bill is what it was at the start plus each accepted report once. */
  ghost predicate BilledOnce(u: Setup, sent: map<nat, seq<Sample>>, lastId: nat, ledger: Ledger, base: int, rule: Id) {
    && (forall i | i > lastId :: KeyOf(u, i) !in ledger.markers)
    && BillOf(ledger.rows, u.node.id, rule) == base + AcceptedOf(u, sent, ledger.markers, lastId, rule)
  }

  ghost predicate Good(u: Setup, w: World, base: int, rule: Id) {
    && Faithful(u, w.agent, w.sent) && Covered(w.agent, w.sent, rule)
    && BilledOnce(u, w.sent, w.agent.buf.lastId, w.server.ledger, base, rule)
  }

  /** Steps of the agent compose reports but bill nothing. */
  lemma AgentBills(u: Setup, a: Agent, sent: map<nat, seq<Sample>>, t: Step, ledger: Ledger, base: int, rule: Id)
    requires Faithful(u, a, sent) && Enabled(u.limits, u.width, a, t)
    requires BilledOnce(u, sent, a.buf.lastId, ledger, base, rule)
    ensures BilledOnce(u, Sent(a, sent, t), Next(u.limits, a, t).buf.lastId, ledger, base, rule)
  {
    if t.AddBytes? {
      AddedOk(u.limits, a.buf, t.rule, t.inBytes, t.outBytes);
    } else if t.Start? {
      AcceptedFrame(u, sent, Sent(a, sent, t), ledger.markers, ledger.markers, a.buf.lastId, rule);
    } else {
      StepQueueBounded(u.limits, u.width, a, t);
    }
  }

  lemma DeliverGood(u: Setup, w: World, base: int, rule: Id, id: nat, at: int)
    requires Good(u, w, base, rule) && PanelExact(w.server) && id in w.sent && Distinguishes(u.name)
    ensures Good(u, WorldNext(u, w, Deliver(id, at)), base, rule)
  {
    var v := WorldNext(u, w, Deliver(id, at));
    DeliveryBills(w.server, u.node, u.name(id), w.sent[id], at, u.node.id, rule);
    if v.server != w.server {
      AcceptedGains(u, w.sent, w.server.ledger.markers, |w.sent[id]|, w.agent.buf.lastId, id, rule);
      forall i | i > w.agent.buf.lastId ensures KeyOf(u, i) !in v.server.ledger.markers {
        assert u.name(i) != u.name(id);
      }
    }
  }

  lemma PanelGood(u: Setup, w: World, base: int, rule: Id, q: Request)
    requires Good(u, w, base, rule) && PanelExact(w.server) && Possible(u, w, PanelSide(q))
    ensures Good(u, WorldNext(u, w, PanelSide(q)), base, rule)
  {
    var v := WorldNext(u, w, PanelSide(q));
    OthersDoNotBill(w.server, q, u.node.id, rule);
    AcceptedFrame(u, w.sent, w.sent, w.server.ledger.markers, v.server.ledger.markers, w.agent.buf.lastId, rule);
  }

  lemma AgentGood(u: Setup, w: World, base: int, rule: Id, a: Step)
    requires Good(u, w, base, rule) && Possible(u, w, AgentSide(a))
    ensures Good(u, WorldNext(u, w, AgentSide(a)), base, rule)
  {
    StepFaithful(u, w.agent, w.sent, a);
    StepCovered(u, w.agent, w.sent, rule, a);
    AgentBills(u, w.agent, w.sent, a, w.server.ledger, base, rule);
  }

  lemma ServerExact(u: Setup, w: World, t: WorldStep)
    requires PanelExact(w.server) && Possible(u, w, t)
    ensures PanelExact(WorldNext(u, w, t).server)
  {
    match t
    case AgentSide(a) =>
    case Deliver(id, at) => AgentTrafficKeeps(w.server, u.node, u.name(id), w.sent[id], at);
    case PanelSide(q) => HandleKeeps(w.server, q);
  }

  ghost predicate AllGood(u: Setup, w: World, base: int, rule: Id) {
    Good(u, w, base, rule) && PanelExact(w.server)
  }

  lemma StepGood(u: Setup, w: World, base: int, rule: Id, t: WorldStep)
    requires AllGood(u, w, base, rule) && Possible(u, w, t) && Distinguishes(u.name)
    ensures AllGood(u, WorldNext(u, w, t), base, rule)
  {
    ServerExact(u, w, t);
    match t
    case AgentSide(a) => AgentGood(u, w, base, rule, a);
    case Deliver(id, at) => DeliverGood(u, w, base, rule, id, at);
    case PanelSide(q) => PanelGood(u, w, base, rule, q);
  }

  /** A fresh agent process: nothing pending, nothing sent, and no report id of its own used before. */
  ghost predicate Fresh(u: Setup, w: World) {
    && w.agent == IDLE && w.sent == map[] && PanelExact(w.server)
    && Roomy(u.limits) && Distinguishes(u.name)
    && forall i :: KeyOf(u, i) !in w.server.ledger.markers
  }

  lemma FreshGood(u: Setup, w: World, rule: Id)
    requires Fresh(u, w) && Tolerates(u.limits.maxFailures, u.width)
    ensures AllGood(u, w, BillOf(w.server.ledger.rows, u.node.id, rule), rule)
  {
  }

  lemma GoodForever(u: Setup, w: World, steps: seq<WorldStep>, v: World, base: int, rule: Id)
    requires Distinguishes(u.name) && AllGood(u, w, base, rule) && WorldLeads(u, w, steps, v)
    ensures AllGood(u, v, base, rule)
  {
    forall x, t | AllGood(u, x, base, rule) && Possible(u, x, t) ensures AllGood(u, WorldNext(u, x, t), base, rule) {
      StepGood(u, x, base, rule, t);
    }
    InvariantOfWorlds(u, x => AllGood(u, x, base, rule), w, steps, v);
  }

  lemma GoodBillsOnce(u: Setup, w: World, base: int, rule: Id)
    requires AllGood(u, w, base, rule)
    ensures BillOf(w.server.ledger.rows, u.node.id, rule) <= base + Tally(w.agent.added, rule)
  {
    AcceptedWithinSent(u, w.sent, w.server.ledger.markers, w.agent.buf.lastId, rule);
    assert 0 <= PendingOf(w.agent.buf, rule);
  }

  /**
   * No byte is billed twice. Over every run of adds, flushes, lost requests, lost answers, late and
   * repeated deliveries, retries and unrelated panel requests, with as many flushes at once as
   * Tolerates allows, the bytes billed for a rule never exceed the bytes the agent counted for it.
   */
  lemma NeverBilledTwice(u: Setup, w: World, steps: seq<WorldStep>, v: World, rule: Id)
    requires Fresh(u, w) && WorldLeads(u, w, steps, v) && Tolerates(u.limits.maxFailures, u.width)
    ensures BillOf(v.server.ledger.rows, u.node.id, rule)
            <= BillOf(w.server.ledger.rows, u.node.id, rule) + Tally(v.agent.added, rule)
  {
    var base := BillOf(w.server.ledger.rows, u.node.id, rule);
    FreshGood(u, w, rule);
    GoodForever(u, w, steps, v, base, rule);
    GoodBillsOnce(u, v, base, rule);
  }
}
