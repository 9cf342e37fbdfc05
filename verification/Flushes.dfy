/**
 * The traffic buffer under concurrency: any number of goroutines add bytes and flush, and a flush is two
 * lock regions with the network call in between. A run is any interleaving of these regions.
 */
module Flushes {
  import opened Common
  import opened Store
  import opened Accounting
  import opened TrafficBuffer

  /** The buffer, the batches whose report is under way, and what was added and acknowledged so far. */
  datatype Agent = Agent(buf: Buffer, inFlight: seq<Batch>, added: map<Id, int>, addedBytes: int, ackedBytes: int)

  const IDLE: Agent := Agent(EMPTY, [], map[], 0, 0)

  datatype Step =
    | AddBytes(rule: Id, inBytes: Int64, outBytes: Int64)
    | Start(order: seq<Id>)
    | Answer(k: nat)
    | Lose(k: nat)

  function Tally(m: map<Id, int>, r: Id): int {
    if r in m then m[r] else 0
  }

  function Without<T>(s: seq<T>, k: nat): seq<T>
    requires k < |s|
  {
    s[..k] + s[k + 1..]
  }

  /** Which steps can happen; at most width flushes are in flight at once. */
  predicate Enabled(l: Limits, width: nat, a: Agent, t: Step) {
    match t
    case AddBytes(_, x, y) => Measured(l, x, y)
    case Start(order) => CanTake(a.buf) && Lists(order, a.buf.samples.Keys) && |a.inFlight| < width
    case Answer(k) => k < |a.inFlight|
    case Lose(k) => k < |a.inFlight|
  }

  function Next(l: Limits, a: Agent, t: Step): Agent
    requires exists width :: Enabled(l, width, a, t)
  {
    match t
    case AddBytes(r, x, y) =>
      a.(buf := Added(l, a.buf, r, x, y), added := a.added[r := Tally(a.added, r) + x + y], addedBytes := a.addedBytes + x + y)
    case Start(order) => a.(buf := Taken(a.buf), inFlight := a.inFlight + [TakenBatch(a.buf, order)])
    case Answer(k) =>
      a.(buf := Succeeded(a.buf), inFlight := Without(a.inFlight, k), ackedBytes := a.ackedBytes + a.inFlight[k].bytes)
    case Lose(k) => a.(buf := Failed(l, a.buf, a.inFlight[k]), inFlight := Without(a.inFlight, k))
  }

  /** A run of enabled steps leads from a to b. */
  ghost predicate Leads(l: Limits, width: nat, a: Agent, steps: seq<Step>, b: Agent)
    decreases |steps|
  {
    if steps == [] then a == b
    else Enabled(l, width, a, steps[0]) && Leads(l, width, Next(l, a, steps[0]), steps[1..], b)
  }

  lemma {:induction false} LeadsFurther(l: Limits, width: nat, a: Agent, s: seq<Step>, b: Agent, t: seq<Step>, c: Agent)
    requires Leads(l, width, a, s, b) && Leads(l, width, b, t, c)
    ensures Leads(l, width, a, s + t, c)
    decreases |s|
  {
    if s == [] {
      assert s + t == t;
    } else {
      assert (s + t)[0] == s[0] && (s + t)[1..] == s[1..] + t;
      LeadsFurther(l, width, Next(l, a, s[0]), s[1..], b, t, c);
    }
  }

  lemma {:induction false} InvariantOfRuns(l: Limits, width: nat, inv: Agent -> bool, a: Agent, steps: seq<Step>, b: Agent)
    requires inv(a) && Leads(l, width, a, steps, b)
    requires forall x, t | inv(x) && Enabled(l, width, x, t) :: inv(Next(l, x, t))
    ensures inv(b)
    decreases |steps|
  {
    if steps != [] {
      InvariantOfRuns(l, width, inv, Next(l, a, steps[0]), steps[1..], b);
    }
  }

  // ---- the ledger ----

  lemma {:induction false} RetryTotalConcat(a: seq<Batch>, b: seq<Batch>)
    ensures RetryTotal(a + b) == RetryTotal(a) + RetryTotal(b)
    decreases |a|
  {
    if a == [] {
      assert a + b == b;
    } else {
      assert (a + b)[1..] == a[1..] + b;
      RetryTotalConcat(a[1..], b);
    }
  }

  lemma RetryTotalWithout(s: seq<Batch>, k: nat)
    requires k < |s|
    ensures RetryTotal(s) == RetryTotal(Without(s, k)) + s[k].bytes
  {
    assert s == s[..k] + ([s[k]] + s[k + 1..]);
    RetryTotalConcat(s[..k], [s[k]] + s[k + 1..]);
    RetryTotalConcat([s[k]], s[k + 1..]);
    RetryTotalConcat(s[..k], s[k + 1..]);
    assert [s[k]][1..] == [];
  }

  /** Every byte ever added is pending, queued for retry, in flight, acknowledged or counted as dropped. */
  ghost predicate Balanced(l: Limits, a: Agent) {
    && BufferOk(l, a.buf) && 2 * l.maxBytes <= MAX_INT64
    && (forall k | 0 <= k < |a.inFlight| :: BatchOk(l, a.inFlight[k]))
    && a.addedBytes == a.buf.pending + RetryTotal(a.buf.retry) + RetryTotal(a.inFlight) + a.ackedBytes + a.buf.droppedBytes
  }

  lemma StepBalanced(l: Limits, width: nat, a: Agent, t: Step)
    requires Balanced(l, a) && Enabled(l, width, a, t)
    ensures Balanced(l, Next(l, a, t))
  {
    match t
    case AddBytes(r, x, y) => AddedOk(l, a.buf, r, x, y);
    case Start(order) =>
      TakenOk(l, a.buf, order);
      RetryTotalConcat(a.inFlight, [TakenBatch(a.buf, order)]);
      assert [TakenBatch(a.buf, order)][1..] == [];
    case Answer(k) => RetryTotalWithout(a.inFlight, k);
    case Lose(k) =>
      RetryTotalWithout(a.inFlight, k);
      FailedOk(l, a.buf, a.inFlight[k]);
  }

  /** The ledger balances, and the caps hold, after every interleaving, the re-merge branch included. */
  lemma LedgerBalances(l: Limits, width: nat, steps: seq<Step>, b: Agent)
    requires l.Positive() && 2 * l.maxBytes <= MAX_INT64 && Leads(l, width, IDLE, steps, b)
    ensures b.addedBytes == b.buf.pending + RetryTotal(b.buf.retry) + RetryTotal(b.inFlight) + b.ackedBytes + b.buf.droppedBytes
    ensures b.buf.pending == MapTotal(b.buf.samples) <= l.maxBytes && |b.buf.samples| <= l.maxSamples
  {
    forall x, t | Balanced(l, x) && Enabled(l, width, x, t) ensures Balanced(l, Next(l, x, t)) {
      StepBalanced(l, width, x, t);
    }
    InvariantOfRuns(l, width, x => Balanced(l, x), IDLE, steps, b);
  }

  // ---- when can a batch lose its report id? ----

  /** How many concurrent flushes a failure limit tolerates before a failing one can find the queue full. */
  predicate Tolerates(maxFailures: int, width: nat) {
    maxFailures == 1 || width <= maxFailures + 1 || (maxFailures == 2 && width <= 4)
  }

  /** The queue can only fill up together with the failure counter. */
  ghost predicate QueueBounded(l: Limits, width: nat, a: Agent) {
    var m, r, i, f := l.maxFailures, |a.buf.retry|, |a.inFlight|, a.buf.failures;
    && m > 0 && f >= 0 && i <= width
    && (m > 1 && width <= m + 1 ==> r + i <= m + 1 && (r + i == m + 1 ==> r <= f))
    && (m == 2 && width == 4 ==> r + i <= 4 && (r + i == 4 ==> r <= f && r <= 1) && (r + i == 3 ==> r <= 2 && (f == 0 ==> r <= 1)))
  }

  lemma StepQueueBounded(l: Limits, width: nat, a: Agent, t: Step)
    requires QueueBounded(l, width, a) && Enabled(l, width, a, t) && Tolerates(l.maxFailures, width)
    ensures QueueBounded(l, width, Next(l, a, t))
    ensures t.Lose? ==> !Remerges(l, a.buf)
  {
  }

  /** Within that width no reachable failure takes the re-merge branch. */
  lemma NeverRemerges(l: Limits, width: nat, steps: seq<Step>, b: Agent, k: nat)
    requires l.Positive() && Tolerates(l.maxFailures, width)
    requires Leads(l, width, IDLE, steps, b) && Enabled(l, width, b, Lose(k))
    ensures !Remerges(l, b.buf)
  {
    forall x, t | QueueBounded(l, width, x) && Enabled(l, width, x, t) ensures QueueBounded(l, width, Next(l, x, t)) {
      StepQueueBounded(l, width, x, t);
    }
    InvariantOfRuns(l, width, x => QueueBounded(l, width, x), IDLE, steps, b);
    StepQueueBounded(l, width, b, Lose(k));
  }

  /** Nothing pending, i flushes in flight, r batches queued, f failures in a row. */
  ghost predicate At(a: Agent, i: nat, r: nat, f: nat) {
    a.buf.samples == map[] && a.buf.pending == 0 && |a.inFlight| == i && |a.buf.retry| == r && a.buf.failures == f
  }

  ghost predicate Roomy(l: Limits) {
    l.Positive() && 2 * l.maxBytes <= MAX_INT64
  }

  /** One byte is added and its flush starts. */
  lemma LaunchOne(l: Limits, width: nat, a: Agent, i: nat, f: nat) returns (steps: seq<Step>, b: Agent)
    requires Roomy(l) && At(a, i, 0, f) && i < width
    ensures Leads(l, width, a, steps, b) && At(b, i + 1, 0, f)
  {
    var add, start := AddBytes(1, 1, 0), Start([1]);
    assert Enabled(l, width, a, add);
    var mid := Next(l, a, add);
    assert mid.buf.samples.Keys == {1};
    assert Enabled(l, width, mid, start);
    b := Next(l, mid, start);
    steps := [add, start];
    assert steps[1..] == [start] && steps[1..][1..] == [];
    assert Leads(l, width, mid, [start], b);
  }

  lemma {:induction false} Launch(l: Limits, width: nat, n: nat) returns (steps: seq<Step>, b: Agent)
    requires Roomy(l) && n <= width
    ensures Leads(l, width, IDLE, steps, b) && At(b, n, 0, 0)
  {
    if n == 0 {
      steps, b := [], IDLE;
    } else {
      var s, m := Launch(l, width, n - 1);
      var t: seq<Step>;
      t, b := LaunchOne(l, width, m, n - 1, 0);
      LeadsFurther(l, width, IDLE, s, m, t, b);
      steps := s + t;
    }
  }

  lemma OneStep(l: Limits, width: nat, s: seq<Step>, m: Agent, t: Step) returns (steps: seq<Step>, b: Agent)
    requires Leads(l, width, IDLE, s, m) && Enabled(l, width, m, t)
    ensures Leads(l, width, IDLE, steps, b) && b == Next(l, m, t)
  {
    b := Next(l, m, t);
    assert [t][1..] == [] && Leads(l, width, m, [t], b);
    LeadsFurther(l, width, IDLE, s, m, [t], b);
    steps := s + [t];
  }

  lemma {:induction false} LoseMany(l: Limits, width: nat, s: seq<Step>, m: Agent, i: nat, r: nat, f: nat, n: nat)
      returns (steps: seq<Step>, b: Agent)
    requires Leads(l, width, IDLE, s, m) && At(m, i, r, f)
    requires n <= i && f + n < l.maxFailures && r + n <= l.maxFailures
    ensures Leads(l, width, IDLE, steps, b) && At(b, i - n, r + n, f + n)
  {
    if n == 0 {
      steps, b := s, m;
    } else {
      var t, c := LoseMany(l, width, s, m, i, r, f, n - 1);
      steps, b := OneStep(l, width, t, c, Lose(0));
    }
  }

  /** Beyond that width the branch is reachable: the bound on concurrent flushes is exact. */
  lemma RemergesBeyond(l: Limits, width: nat) returns (steps: seq<Step>, b: Agent)
    requires Roomy(l) && !Tolerates(l.maxFailures, width)
    ensures Leads(l, width, IDLE, steps, b) && Enabled(l, width, b, Lose(0)) && Remerges(l, b.buf)
  {
    var m := l.maxFailures;
    if m == 2 {
      steps, b := Launch(l, width, 5);
      steps, b := LoseMany(l, width, steps, b, 5, 0, 0, 1);
      steps, b := OneStep(l, width, steps, b, Answer(0));
      steps, b := LoseMany(l, width, steps, b, 3, 1, 0, 1);
      steps, b := OneStep(l, width, steps, b, Answer(0));
    } else {
      steps, b := Launch(l, width, m + 2);
      steps, b := LoseMany(l, width, steps, b, m + 2, 0, 0, m - 1);
      steps, b := OneStep(l, width, steps, b, Answer(0));
      steps, b := LoseMany(l, width, steps, b, 2, m - 1, 0, 1);
    }
  }

  /** A run after which the k-th flush in flight would lose its batch's report id if it failed. */
  ghost predicate LosesId(l: Limits, width: nat, steps: seq<Step>, b: Agent, k: nat) {
    Leads(l, width, IDLE, steps, b) && Enabled(l, width, b, Lose(k)) && Remerges(l, b.buf)
  }

  /** A batch can lose its report id if and only if more flushes may run at once than Tolerates allows. */
  lemma RemergeIffTooWide(l: Limits, width: nat)
    requires Roomy(l)
    ensures Tolerates(l.maxFailures, width) <==> forall steps, b, k :: !LosesId(l, width, steps, b, k)
  {
    if Tolerates(l.maxFailures, width) {
      forall steps, b, k ensures !LosesId(l, width, steps, b, k) {
        if Leads(l, width, IDLE, steps, b) && Enabled(l, width, b, Lose(k)) {
          NeverRemerges(l, width, steps, b, k);
        }
      }
    } else {
      var steps, b := RemergesBeyond(l, width);
      assert LosesId(l, width, steps, b, 0);
    }
  }
}
