/**
 * The bound in NeverBilledTwice is exact: with more flushes at once than the failure limit tolerates, some run
 * bills a byte twice. A delivered report loses its answer, finds the retry queue full, is merged back into the
 * buffer and goes out again under a new id.
 */
module DoubleBilling {
  import opened Common
  import opened Store
  import opened Accounting
  import opened AccountingFacts
  import opened Report
  import opened RulesFacts
  import opened Panel
  import opened TrafficBuffer
  import opened Flushes
  import opened Protocol
  import opened EndToEnd

  function OneByte(rule: Id): seq<Sample> {
    [Sample(rule, 1, 0)]
  }

  // ---- a panel that accepts ----

  ghost predicate Serves(u: Setup, s: State, spent: int) {
    && PanelExact(s) && 1 in s.rules && 2 in s.rules && OwnedByNode(s, u.node, 1) && OwnedByNode(s, u.node, 2)
    && s.rules[1].tenant == 0 && s.rules[2].tenant == 0
    && forall x | x in s.users :: s.users[x].used <= spent
  }

  lemma OneByteTotal(rule: Id, rules: set<Id>)
    ensures TotalFor(OneByte(rule), rules) == if rule in rules then 1 else 0
    ensures RulesIn(OneByte(rule)) == {rule}
  {
    assert OneByte(rule)[..0] == [] && SumFor([], In, rules) == 0 && SumFor([], Out, rules) == 0;
    assert SumFor(OneByte(rule), In, rules) == if rule in rules then 1 else 0;
    assert SumFor(OneByte(rule), Out, rules) == 0;
    assert RulesIn(OneByte(rule)) == {rule} by {
      assert OneByte(rule)[0].rule == rule;
    }
  }

  lemma OneByteFits(u: Setup, s: State, spent: int, rule: Id, at: int)
    requires Serves(u, s, spent) && spent < 10 && (rule == 1 || rule == 2)
    ensures AllValid(OneByte(rule)) && AllOwned(s, u.node, OneByte(rule)) && ReportFits(s, OneByte(rule), at)
  {
    OneByteTotal(rule, {});
    forall x | x in s.users ensures s.users[x].used + TotalFor(OneByte(rule), OwnedBy(s, x)) <= MAX_INT64 {
      OneByteTotal(rule, OwnedBy(s, x));
    }
    forall t | t in s.tenants && t != 0 ensures !Touched(OneByte(rule), OfTenant(s, t)) {
    }
  }

  lemma Accounted(u: Setup, s: State, spent: int, rule: Id, at: int)
    requires Serves(u, s, spent) && spent < 10 && (rule == 1 || rule == 2)
    ensures AccountTraffic(s, u.node, OneByte(rule), at).Ok?
    ensures var v := AccountTraffic(s, u.node, OneByte(rule), at).value;
      (PanelExact(v) ==> Serves(u, v, spent + 1)) && v.ledger.markers == s.ledger.markers
  {
    var report := OneByte(rule);
    OneByteFits(u, s, spent, rule, at);
    ReportAccepted(s, u.node, report, at);
    ReportRules(s, u.node, report, at);
    ReportUsers(s, u.node, report, at);
    var v := AccountTraffic(s, u.node, report, at).value;
    forall x | x in s.users ensures v.users[x].used <= spent + 1 {
      OneByteTotal(rule, OwnedBy(s, x));
    }
  }

  lemma OneByteBilled(u: Setup, s: State, rule: Id, at: int, v: State, x: Id)
    requires PanelExact(s) && AccountTraffic(s, u.node, OneByte(rule), at) == Ok(v) && AllValid(OneByte(rule))
    ensures BillOf(v.ledger.rows, u.node.id, x) == BillOf(s.ledger.rows, u.node.id, x) + if x == rule then 1 else 0
  {
    ReportBills(s, u.node, OneByte(rule), at, u.node.id, x);
    OneByteTotal(rule, {x});
  }

  /** A one byte report under a new id is recorded, and billed. */
  lemma Recorded1(u: Setup, s: State, spent: int, id: nat, rule: Id, at: int)
    requires Serves(u, s, spent) && spent < 10 && (rule == 1 || rule == 2)
    requires u.name(id) != "" && |u.name(id)| <= MAX_REPORT_ID && KeyOf(u, id) !in s.ledger.markers
    ensures var v := AgentTraffic(s, u.node, u.name(id), OneByte(rule), at).0;
      && Serves(u, v, spent + 1) && v.ledger.markers == s.ledger.markers[KeyOf(u, id) := 1]
      && forall x :: BillOf(v.ledger.rows, u.node.id, x) == BillOf(s.ledger.rows, u.node.id, x) + if x == rule then 1 else 0
  {
    var s1 := s.(ledger := s.ledger.(markers := s.ledger.markers[KeyOf(u, id) := 1]));
    MarkedExact(s, s1.ledger.markers);
    assert Serves(u, s1, spent);
    Accounted(u, s1, spent, rule, at);
    var v := AccountTraffic(s1, u.node, OneByte(rule), at).value;
    forall x ensures BillOf(v.ledger.rows, u.node.id, x) == BillOf(s.ledger.rows, u.node.id, x) + if x == rule then 1 else 0 {
      OneByteBilled(u, s1, rule, at, v, x);
    }
    AgentTrafficKeeps(s, u.node, u.name(id), OneByte(rule), at);
  }

  // ---- what the runs need to know of the panel ----

  /** Judges whether a panel still accepts, with so many bytes spent at most. */
  type Judge = (State, int) -> bool

  /** A one byte report under a new id is recorded and billed, and the panel goes on accepting. */
  ghost predicate Records(u: Setup, ok: Judge, s: State, spent: int, id: nat, rule: Id) {
    ok(s, spent) && spent < 10 && (rule == 1 || rule == 2)
    && u.name(id) != "" && |u.name(id)| <= MAX_REPORT_ID && KeyOf(u, id) !in s.ledger.markers ==>
      var v := AgentTraffic(s, u.node, u.name(id), OneByte(rule), 0).0;
      && ok(v, spent + 1) && v.ledger.markers == s.ledger.markers[KeyOf(u, id) := 1]
      && BillOf(v.ledger.rows, u.node.id, 2) == BillOf(s.ledger.rows, u.node.id, 2) + if rule == 2 then 1 else 0
  }

  ghost predicate RecordsNew(u: Setup, ok: Judge) {
    forall s, spent, id, rule :: Records(u, ok, s, spent, id, rule)
  }

  ghost function ServesAt(u: Setup): Judge {
    (s: State, spent: int) => Serves(u, s, spent)
  }

  lemma ServingRecords(u: Setup)
    ensures RecordsNew(u, ServesAt(u))
  {
    forall s, spent, id, rule ensures Records(u, ServesAt(u), s, spent, id, rule) {
      if Serves(u, s, spent) && spent < 10 && (rule == 1 || rule == 2) && u.name(id) != "" && |u.name(id)| <= MAX_REPORT_ID
         && KeyOf(u, id) !in s.ledger.markers {
        Recorded1(u, s, spent, id, rule, 0);
      }
    }
  }

  // ---- runs of the world ----

  lemma {:induction false} LeadsOn(u: Setup, w: World, steps: seq<WorldStep>, m: World, t: WorldStep) returns (longer: seq<WorldStep>, v: World)
    requires WorldLeads(u, w, steps, m) && Possible(u, m, t)
    ensures WorldLeads(u, w, longer, v) && v == WorldNext(u, m, t)
    decreases |steps|
  {
    v := WorldNext(u, m, t);
    if steps == [] {
      longer := [t];
      assert [t][1..] == [];
    } else {
      var rest;
      rest, v := LeadsOn(u, WorldNext(u, w, steps[0]), steps[1..], m, t);
      longer := [steps[0]] + rest;
      assert longer[1..] == rest;
    }
  }

  /** The k-th of i flushes in flight: reports of rule 1, except that the last one may carry another rule. */
  ghost predicate Flying(a: Agent, sent: map<nat, seq<Sample>>, i: nat, n: nat, last: Id) {
    && |a.inFlight| == i <= n
    && forall k | 0 <= k < i ::
         var b := a.inFlight[k];
         b.id == n - i + 1 + k && b.bytes == 1 && b.samples == OneByte(if k == i - 1 then last else 1)
         && b.id in sent && sent[b.id] == b.samples
  }

  /** i flushes in flight, r batches queued, f failures in a row, n reports composed; the ones in flight are not yet recorded. */
  ghost predicate Line(u: Setup, ok: Judge, w: World, i: nat, r: nat, f: nat, n: nat, last: Id, spent: int) {
    && At(w.agent, i, r, f) && w.agent.buf.lastId == n && Flying(w.agent, w.sent, i, n, last)
    && ok(w.server, spent) && forall id | id > n - i :: KeyOf(u, id) !in w.server.ledger.markers
  }

  ghost predicate NamesFit(u: Setup, n: nat) {
    Distinguishes(u.name) && forall id | 0 < id <= n :: |u.name(id)| <= MAX_REPORT_ID
  }

  ghost predicate Unbilled(u: Setup, w: World, start: State, added: int) {
    BillOf(w.server.ledger.rows, u.node.id, 2) == BillOf(start.ledger.rows, u.node.id, 2) && Tally(w.agent.added, 2) == added
  }

  lemma AddsOneByte(l: Limits, a: Agent, rule: Id)
    requires Roomy(l) && At(a, |a.inFlight|, 0, 0)
    ensures Measured(l, 1, 0)
    ensures Added(l, a.buf, rule, 1, 0) == a.buf.(samples := map[rule := Sample(rule, 1, 0)], pending := 1)
  {
  }

  lemma TakesOneByte(b: Buffer, rule: Id)
    requires b.samples == map[rule := Sample(rule, 1, 0)] && b.pending == 1
    ensures CanTake(b) && Lists([rule], b.samples.Keys)
    ensures b.retry == [] ==> var t := TakenBatch(b, [rule]); t.id == b.lastId + 1 && t.samples == OneByte(rule) && t.bytes == 1
  {
    assert b.samples.Keys == {rule};
    assert ListSamples(b.samples, [rule][..0]) == [];
  }

  /** The one byte pending leaves as the newest of n + 1 flushes. */
  lemma StartsOneByte(l: Limits, a: Agent, sent: map<nat, seq<Sample>>, n: nat, rule: Id, width: nat)
    requires a.buf.samples == map[rule := Sample(rule, 1, 0)] && a.buf.pending == 1 && a.buf.retry == [] && a.buf.lastId == n < width
    requires Flying(a, sent, n, n, 1) && a.buf.failures == 0
    ensures Enabled(l, width, a, Start([rule])) && Lists([rule], a.buf.samples.Keys)
    ensures var b := Next(l, a, Start([rule]));
      && Flying(b, Sent(a, sent, Start([rule])), n + 1, n + 1, rule) && b.added == a.added
      && At(b, n + 1, 0, 0) && b.buf.lastId == n + 1
  {
    TakesOneByte(a.buf, rule);
    assert Enabled(l, width, a, Start([rule]));
    assert Next(l, a, Start([rule])).inFlight[n] == TakenBatch(a.buf, [rule]);
  }

  /** One byte of a rule is added and its flush starts. */
  lemma LaunchOneByte(u: Setup, ok: Judge, w: World, n: nat, rule: Id, spent: int, start: State) returns (add: WorldStep, m: World, go: WorldStep, v: World)
    requires Roomy(u.limits) && Line(u, ok, w, n, 0, 0, n, 1, spent) && n < u.width && Unbilled(u, w, start, 0) && (rule == 1 || rule == 2)
    ensures Possible(u, w, add) && m == WorldNext(u, w, add) && Possible(u, m, go) && v == WorldNext(u, m, go)
    ensures Line(u, ok, v, n + 1, 0, 0, n + 1, rule, spent) && Unbilled(u, v, start, if rule == 2 then 1 else 0)
  {
    add, go := AgentSide(AddBytes(rule, 1, 0)), AgentSide(Start([rule]));
    AddsOneByte(u.limits, w.agent, rule);
    m := WorldNext(u, w, add);
    StartsOneByte(u.limits, m.agent, m.sent, n, rule, u.width);
    v := WorldNext(u, m, go);
  }

  /** The oldest flush fails and its batch is queued. */
  lemma LoseOldest(u: Setup, ok: Judge, w: World, i: nat, r: nat, f: nat, n: nat, last: Id, spent: int, start: State, added: int) returns (t: WorldStep, v: World)
    requires Line(u, ok, w, i, r, f, n, last, spent) && i > 0 && f + 1 < u.limits.maxFailures && r < u.limits.maxFailures
    requires Unbilled(u, w, start, added)
    ensures Possible(u, w, t) && v == WorldNext(u, w, t) && Line(u, ok, v, i - 1, r + 1, f + 1, n, last, spent) && Unbilled(u, v, start, added)
  {
    t := AgentSide(Lose(0));
    v := WorldNext(u, w, t);
  }

  lemma DeliverNew(u: Setup, ok: Judge, w: World, id: nat, rule: Id, spent: int) returns (t: WorldStep, v: World)
    requires id in w.sent && w.sent[id] == OneByte(rule) && (rule == 1 || rule == 2)
    requires RecordsNew(u, ok) && ok(w.server, spent) && spent < 10 && KeyOf(u, id) !in w.server.ledger.markers
    requires Distinguishes(u.name) && |u.name(id)| <= MAX_REPORT_ID
    ensures Possible(u, w, t) && v == WorldNext(u, w, t) && v.agent == w.agent && v.sent == w.sent
    ensures ok(v.server, spent + 1)
    ensures forall k :: KeyOf(u, k) in v.server.ledger.markers <==> k == id || KeyOf(u, k) in w.server.ledger.markers
    ensures BillOf(v.server.ledger.rows, u.node.id, 2) == BillOf(w.server.ledger.rows, u.node.id, 2) + if rule == 2 then 1 else 0
  {
    assert Records(u, ok, w.server, spent, id, rule);
    t := Deliver(id, 0);
    v := WorldNext(u, w, t);
    forall k ensures KeyOf(u, k) in v.server.ledger.markers <==> k == id || KeyOf(u, k) in w.server.ledger.markers {
      assert KeyOf(u, k) == KeyOf(u, id) <==> u.name(k) == u.name(id);
    }
  }

  /** The oldest flush, of rule 1, is recorded and answered. */
  lemma AnswerOldest(u: Setup, ok: Judge, w: World, i: nat, r: nat, f: nat, n: nat, last: Id, spent: int, start: State, added: int)
      returns (deliver: WorldStep, m: World, answer: WorldStep, v: World)
    requires RecordsNew(u, ok)
    requires Line(u, ok, w, i, r, f, n, last, spent) && i >= 2 && spent < 10 && NamesFit(u, n) && Unbilled(u, w, start, added)
    ensures Possible(u, w, deliver) && m == WorldNext(u, w, deliver) && Possible(u, m, answer) && v == WorldNext(u, m, answer)
    ensures Line(u, ok, v, i - 1, r, 0, n, last, spent + 1) && Unbilled(u, v, start, added)
  {
    var b := w.agent.inFlight[0];
    assert b.id == n - i + 1 && b.samples == OneByte(1);
    deliver, m := DeliverNew(u, ok, w, b.id, 1, spent);
    answer := AgentSide(Answer(0));
    v := WorldNext(u, m, answer);
  }

  // ---- the batch comes back under a new id ----

  /** The byte of rule 2 is pending again; r batches wait before it, f failures in a row. */
  ghost predicate Waiting(u: Setup, ok: Judge, w: World, r: nat, f: nat, n: nat, spent: int, start: State, billed: int) {
    && w.agent.inFlight == [] && w.agent.buf.samples == map[2 := Sample(2, 1, 0)] && w.agent.buf.pending == 1
    && |w.agent.buf.retry| == r && w.agent.buf.failures == f && w.agent.buf.lastId == n
    && ok(w.server, spent) && (forall id | id > n :: KeyOf(u, id) !in w.server.ledger.markers)
    && BillOf(w.server.ledger.rows, u.node.id, 2) == BillOf(start.ledger.rows, u.node.id, 2) + billed
    && Tally(w.agent.added, 2) == 1
  }

  lemma MergesBack(l: Limits, b: Buffer, samples: seq<Sample>)
    requires Roomy(l) && b.samples == map[] && b.pending == 0 && samples == OneByte(2)
    ensures MergeBack(l, b, samples) == b.(samples := map[2 := Sample(2, 1, 0)], pending := 1)
  {
    assert samples[..0] == [] && MergeBack(l, b, []) == b;
  }

  /** The only flush in flight fails and finds the queue full. */
  lemma FailsWithFullQueue(l: Limits, width: nat, a: Agent, r: nat, f: nat)
    requires Roomy(l) && At(a, 1, r, f) && a.inFlight[0].samples == OneByte(2) && r == l.maxFailures && f + 1 < l.maxFailures
    ensures Enabled(l, width, a, Lose(0))
    ensures var v := Next(l, a, Lose(0));
      && v.inFlight == [] && v.buf.samples == map[2 := Sample(2, 1, 0)] && v.buf.pending == 1
      && |v.buf.retry| == r && v.buf.failures == f + 1 && v.buf.lastId == a.buf.lastId && v.added == a.added
  {
    assert Enabled(l, width, a, Lose(0));
    MergesBack(l, a.buf.(failures := f + 1), a.inFlight[0].samples);
  }

  /** The last flush is recorded, but its answer is lost and the queue is full: its byte goes back to the buffer. */
  lemma LoseRecorded(u: Setup, ok: Judge, w: World, r: nat, f: nat, n: nat, spent: int, start: State)
      returns (deliver: WorldStep, m: World, lose: WorldStep, v: World)
    requires RecordsNew(u, ok)
    requires Roomy(u.limits) && Line(u, ok, w, 1, r, f, n, 2, spent) && spent < 10 && NamesFit(u, n) && Unbilled(u, w, start, 1)
    requires r == u.limits.maxFailures && f + 1 < u.limits.maxFailures
    ensures Possible(u, w, deliver) && m == WorldNext(u, w, deliver) && Possible(u, m, lose) && v == WorldNext(u, m, lose)
    ensures Waiting(u, ok, v, r, f + 1, n, spent + 1, start, 1)
  {
    var b := w.agent.inFlight[0];
    assert b.id == n && b.samples == OneByte(2);
    deliver, m := DeliverNew(u, ok, w, n, 2, spent);
    lose := AgentSide(Lose(0));
    FailsWithFullQueue(u.limits, u.width, m.agent, r, f);
    v := WorldNext(u, m, lose);
  }

  /** A queued batch is tried and fails once more: it is queued again, or given up when the failures reach the limit. */
  lemma RetryFails(u: Setup, ok: Judge, w: World, r: nat, f: nat, n: nat, spent: int, start: State, billed: int)
      returns (go: WorldStep, m: World, lose: WorldStep, v: World)
    requires Roomy(u.limits) && Waiting(u, ok, w, r, f, n, spent, start, billed) && 0 < r <= u.limits.maxFailures && u.width > 0
    ensures Possible(u, w, go) && m == WorldNext(u, w, go) && Possible(u, m, lose) && v == WorldNext(u, m, lose)
    ensures Waiting(u, ok, v, if f + 1 >= u.limits.maxFailures then r - 1 else r, f + 1, n, spent, start, billed)
  {
    go := AgentSide(Start([2]));
    TakesOneByte(w.agent.buf, 2);
    m := WorldNext(u, w, go);
    lose := AgentSide(Lose(0));
    v := WorldNext(u, m, lose);
  }

  lemma {:induction false} QueueDrains(u: Setup, ok: Judge, w0: World, s: seq<WorldStep>, w: World, r: nat, f: nat, n: nat, spent: int,
                                       start: State, billed: int) returns (steps: seq<WorldStep>, v: World, g: nat)
    requires Roomy(u.limits) && WorldLeads(u, w0, s, w) && Waiting(u, ok, w, r, f, n, spent, start, billed)
    requires r <= u.limits.maxFailures && u.width > 0
    ensures WorldLeads(u, w0, steps, v) && Waiting(u, ok, v, 0, g, n, spent, start, billed)
    decreases r, if f < u.limits.maxFailures then u.limits.maxFailures - f else 0
  {
    if r == 0 {
      steps, v, g := s, w, f;
    } else {
      var go, m, lose, x := RetryFails(u, ok, w, r, f, n, spent, start, billed);
      var s1, m1 := LeadsOn(u, w0, s, w, go);
      var s2, x1 := LeadsOn(u, w0, s1, m1, lose);
      steps, v, g := QueueDrains(u, ok, w0, s2, x1, if f + 1 >= u.limits.maxFailures then r - 1 else r, f + 1, n, spent, start, billed);
    }
  }

  /** The same byte goes out under a new id and is recorded, and billed, again. */
  lemma BilledAgain(u: Setup, ok: Judge, w: World, f: nat, n: nat, spent: int, start: State)
      returns (go: WorldStep, m: World, deliver: WorldStep, v: World)
    requires RecordsNew(u, ok)
    requires Roomy(u.limits) && Waiting(u, ok, w, 0, f, n, spent, start, 1) && spent < 10 && u.width > 0
    requires Distinguishes(u.name) && |u.name(n + 1)| <= MAX_REPORT_ID
    ensures Possible(u, w, go) && m == WorldNext(u, w, go) && Possible(u, m, deliver) && v == WorldNext(u, m, deliver)
    ensures BillOf(v.server.ledger.rows, u.node.id, 2) == BillOf(start.ledger.rows, u.node.id, 2) + 2 && Tally(v.agent.added, 2) == 1
  {
    go := AgentSide(Start([2]));
    TakesOneByte(w.agent.buf, 2);
    m := WorldNext(u, w, go);
    deliver, v := DeliverNew(u, ok, m, n + 1, 2, spent);
  }

  // ---- the run ----

  lemma {:induction false} LaunchMany(u: Setup, ok: Judge, w0: World, n: nat) returns (steps: seq<WorldStep>, v: World)
    requires Roomy(u.limits) && n < u.width && Line(u, ok, w0, 0, 0, 0, 0, 1, 0) && Unbilled(u, w0, w0.server, 0)
    ensures WorldLeads(u, w0, steps, v) && Line(u, ok, v, n, 0, 0, n, 1, 0) && Unbilled(u, v, w0.server, 0)
  {
    if n == 0 {
      steps, v := [], w0;
    } else {
      var s, w := LaunchMany(u, ok, w0, n - 1);
      var add, m, go, x := LaunchOneByte(u, ok, w, n - 1, 1, 0, w0.server);
      var s1, m1 := LeadsOn(u, w0, s, w, add);
      steps, v := LeadsOn(u, w0, s1, m1, go);
    }
  }

  lemma LaunchLast(u: Setup, ok: Judge, w0: World, n: nat) returns (steps: seq<WorldStep>, v: World)
    requires Roomy(u.limits) && n < u.width && Line(u, ok, w0, 0, 0, 0, 0, 1, 0) && Unbilled(u, w0, w0.server, 0)
    ensures WorldLeads(u, w0, steps, v) && Line(u, ok, v, n + 1, 0, 0, n + 1, 2, 0) && Unbilled(u, v, w0.server, 1)
  {
    var s, w := LaunchMany(u, ok, w0, n);
    var add, m, go, x := LaunchOneByte(u, ok, w, n, 2, 0, w0.server);
    var s1, m1 := LeadsOn(u, w0, s, w, add);
    steps, v := LeadsOn(u, w0, s1, m1, go);
  }

  lemma {:induction false} LoseSeveral(u: Setup, ok: Judge, w0: World, s: seq<WorldStep>, w: World, i: nat, r: nat, f: nat, n: nat,
                                       spent: int, start: State, k: nat) returns (steps: seq<WorldStep>, v: World)
    requires WorldLeads(u, w0, s, w) && Line(u, ok, w, i, r, f, n, 2, spent) && Unbilled(u, w, start, 1)
    requires k <= i && f + k < u.limits.maxFailures && r + k <= u.limits.maxFailures
    ensures WorldLeads(u, w0, steps, v) && Line(u, ok, v, i - k, r + k, f + k, n, 2, spent) && Unbilled(u, v, start, 1)
  {
    if k == 0 {
      steps, v := s, w;
    } else {
      var s1, w1 := LoseSeveral(u, ok, w0, s, w, i, r, f, n, spent, start, k - 1);
      var t, x := LoseOldest(u, ok, w1, i - (k - 1), r + (k - 1), f + (k - 1), n, 2, spent, start, 1);
      steps, v := LeadsOn(u, w0, s1, w1, t);
    }
  }

  lemma AnswerOne(u: Setup, ok: Judge, w0: World, s: seq<WorldStep>, w: World, i: nat, r: nat, f: nat, n: nat, spent: int, start: State)
      returns (steps: seq<WorldStep>, v: World)
    requires RecordsNew(u, ok)
    requires WorldLeads(u, w0, s, w) && Line(u, ok, w, i, r, f, n, 2, spent) && Unbilled(u, w, start, 1)
    requires i >= 2 && spent < 10 && NamesFit(u, n)
    ensures WorldLeads(u, w0, steps, v) && Line(u, ok, v, i - 1, r, 0, n, 2, spent + 1) && Unbilled(u, v, start, 1)
  {
    var deliver, m, answer, x := AnswerOldest(u, ok, w, i, r, f, n, 2, spent, start, 1);
    var s1, m1 := LeadsOn(u, w0, s, w, deliver);
    steps, v := LeadsOn(u, w0, s1, m1, answer);
  }

  /** A full queue, one flush in flight that carries rule 2, and fewer failures than would give it up. */
  ghost predicate Jammed(u: Setup, ok: Judge, w0: World, steps: seq<WorldStep>, v: World, f: nat, n: nat, spent: int) {
    && u.limits.maxFailures >= 2
    && WorldLeads(u, w0, steps, v) && Line(u, ok, v, 1, u.limits.maxFailures, f, n, 2, spent) && Unbilled(u, v, w0.server, 1)
    && f + 1 < u.limits.maxFailures && n <= u.width && 0 <= spent <= 2
  }

  ghost predicate Starting(u: Setup, ok: Judge, w0: World) {
    && RecordsNew(u, ok) && Roomy(u.limits) && !Tolerates(u.limits.maxFailures, u.width) && NamesFit(u, u.width + 1)
    && Line(u, ok, w0, 0, 0, 0, 0, 1, 0) && Unbilled(u, w0, w0.server, 0)
  }

  lemma AnswerThenLose(u: Setup, ok: Judge, w0: World, s: seq<WorldStep>, w: World, i: nat, r: nat, f: nat, n: nat, spent: int, start: State)
      returns (steps: seq<WorldStep>, v: World)
    requires RecordsNew(u, ok)
    requires WorldLeads(u, w0, s, w) && Line(u, ok, w, i, r, f, n, 2, spent) && Unbilled(u, w, start, 1)
    requires i >= 3 && spent < 10 && NamesFit(u, n) && r < u.limits.maxFailures && u.limits.maxFailures >= 2
    ensures WorldLeads(u, w0, steps, v) && Line(u, ok, v, i - 2, r + 1, 1, n, 2, spent + 1) && Unbilled(u, v, start, 1)
  {
    var s1, w1 := AnswerOne(u, ok, w0, s, w, i, r, f, n, spent, start);
    steps, v := LoseSeveral(u, ok, w0, s1, w1, i - 1, r, 0, n, spent + 1, start, 1);
  }

  /** All but one of the flushes that the counter allows fail, so that the queue is nearly full. */
  lemma QueueNearlyFills(u: Setup, ok: Judge, w0: World, n: nat, k: nat) returns (steps: seq<WorldStep>, v: World)
    requires Starting(u, ok, w0) && k < n <= u.width && k < u.limits.maxFailures
    ensures WorldLeads(u, w0, steps, v) && Line(u, ok, v, n - k, k, k, n, 2, 0) && Unbilled(u, v, w0.server, 1)
  {
    var s, w := LaunchLast(u, ok, w0, n - 1);
    steps, v := LoseSeveral(u, ok, w0, s, w, n, 0, 0, n, 0, w0.server, k);
  }

  lemma QueueOfTwoFills(u: Setup, ok: Judge, w0: World) returns (steps: seq<WorldStep>, v: World)
    requires Starting(u, ok, w0) && u.limits.maxFailures == 2
    ensures Jammed(u, ok, w0, steps, v, 0, 5, 2)
  {
    var s1, w1 := QueueNearlyFills(u, ok, w0, 5, 1);
    var s2, w2 := AnswerThenLose(u, ok, w0, s1, w1, 4, 1, 1, 5, 0, w0.server);
    steps, v := AnswerOne(u, ok, w0, s2, w2, 2, 2, 1, 5, 1, w0.server);
  }

  lemma LongerQueueFills(u: Setup, ok: Judge, w0: World, limit: nat) returns (steps: seq<WorldStep>, v: World)
    requires Starting(u, ok, w0) && u.limits.maxFailures == limit >= 3
    ensures Jammed(u, ok, w0, steps, v, 1, limit + 2, 1)
  {
    var s1, w1 := QueueNearlyFills(u, ok, w0, limit + 2, limit - 1);
    steps, v := AnswerThenLose(u, ok, w0, s1, w1, 3, limit - 1, limit - 1, limit + 2, 0, w0.server);
  }

  /** A run that bills the byte of rule 2 twice. */
  ghost predicate BillsTwice(u: Setup, w: World, steps: seq<WorldStep>, v: World, rule: Id) {
    && Fresh(u, w) && WorldLeads(u, w, steps, v)
    && BillOf(v.server.ledger.rows, u.node.id, rule) > BillOf(w.server.ledger.rows, u.node.id, rule) + Tally(v.agent.added, rule)
  }

  lemma TwiceFrom(u: Setup, ok: Judge, w0: World) returns (steps: seq<WorldStep>, v: World)
    requires Fresh(u, w0) && Starting(u, ok, w0)
    ensures BillsTwice(u, w0, steps, v, 2)
  {
    var limit := u.limits.maxFailures;
    var s, w, f, n, spent;
    if limit == 2 {
      s, w := QueueOfTwoFills(u, ok, w0);
      f, n, spent := 0, 5, 2;
    } else {
      s, w := LongerQueueFills(u, ok, w0, limit);
      f, n, spent := 1, limit + 2, 1;
    }
    steps, v := TwiceAfter(u, ok, w0, s, w, f, n, spent);
  }

  lemma TwiceAfter(u: Setup, ok: Judge, w0: World, s: seq<WorldStep>, w: World, f: nat, n: nat, spent: int) returns (steps: seq<WorldStep>, v: World)
    requires Fresh(u, w0) && Starting(u, ok, w0) && Jammed(u, ok, w0, s, w, f, n, spent)
    ensures BillsTwice(u, w0, steps, v, 2)
  {
    var deliver, m, lose, x := LoseRecorded(u, ok, w, u.limits.maxFailures, f, n, spent, w0.server);
    var s1, m1 := LeadsOn(u, w0, s, w, deliver);
    var s2, x1 := LeadsOn(u, w0, s1, m1, lose);
    var s3, y, g := QueueDrains(u, ok, w0, s2, x1, u.limits.maxFailures, f + 1, n, spent + 1, w0.server, 1);
    var go, z, again, end := BilledAgain(u, ok, y, g, n, spent + 1, w0.server);
    var s4, z1 := LeadsOn(u, w0, s3, y, go);
    steps, v := LeadsOn(u, w0, s4, z1, again);
  }

  /** A panel with one user and two rules of theirs behind the node's entry group. */
  function SmallPanel(node: Node): State {
    var rule := Rule(1, 0, 1, TcpOnly, 1, Disabled, NoSource, 0, 0);
    State(map[1 := User(0, Regular, true, None, 0, 0, 0)], map[], map[1 := rule, 2 := rule], {},
          Net(map[1 := node.group], map[node.group := Group(1, 65535, "")], map[], map[], {}), Ledger([], map[], map[]))
  }

  lemma SmallPanelServes(u: Setup)
    ensures Serves(u, SmallPanel(u.node), 0)
  {
  }

  /**
   * No byte is billed twice in any run if and only if no more flushes run at once than the failure limit tolerates.
   */
  lemma BilledOnceIffTolerated(u: Setup)
    requires Roomy(u.limits) && NamesFit(u, u.width + 1)
    ensures Tolerates(u.limits.maxFailures, u.width) <==> forall w, steps, v, rule :: !BillsTwice(u, w, steps, v, rule)
  {
    if Tolerates(u.limits.maxFailures, u.width) {
      forall w, steps, v, rule ensures !BillsTwice(u, w, steps, v, rule) {
        if Fresh(u, w) && WorldLeads(u, w, steps, v) {
          NeverBilledTwice(u, w, steps, v, rule);
        }
      }
    } else {
      var w := World(IDLE, map[], SmallPanel(u.node));
      SmallPanelServes(u);
      ServingRecords(u);
      var steps, v := TwiceFrom(u, ServesAt(u), w);
    }
  }
}
