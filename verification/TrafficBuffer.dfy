/**
 * The agent's traffic buffer: bytes per rule waiting to be reported, batches waiting to be retried, and
 * the caps beyond which bytes are dropped but still counted. Each function is one lock region of
 * trafficBuffer; the class has the fields and updates them the way the Go code does.
 */
module TrafficBuffer {
  import opened Common
  import opened Store
  import opened Accounting

  /** New() replaces every limit that is not positive by a default, so all are positive here. */
  datatype Limits = Limits(maxSamples: int, maxBytes: Int64, maxFailures: int) {
    predicate Positive() {
      maxSamples > 0 && maxBytes > 0 && maxFailures > 0
    }
  }

  /** A batch keeps its report id for as long as it is retried as a whole. */
  datatype Batch = Batch(id: nat, samples: seq<Sample>, bytes: int)

  datatype Buffer = Buffer(samples: map<Id, Sample>, retry: seq<Batch>, pending: int, failures: int,
                           droppedSamples: int, droppedBytes: int, lastId: nat)

  const EMPTY: Buffer := Buffer(map[], [], 0, 0, 0, 0, 0)

  const FLUSH_SIZE: nat := 100

  function PositivePart(x: int): int {
    if x < 0 then 0 else x
  }

  predicate Refuses(l: Limits, b: Buffer, rule: Id, incoming: int) {
    || (rule !in b.samples && l.maxSamples > 0 && |b.samples| >= l.maxSamples)
    || (l.maxBytes > 0 && incoming > 0 && Wrap64(b.pending + incoming) > l.maxBytes)
  }

  function Dropped(b: Buffer, samples: int, bytes: int): Buffer {
    b.(droppedSamples := b.droppedSamples + samples, droppedBytes := b.droppedBytes + bytes)
  }

  function Merged(b: Buffer, rule: Id, inBytes: Int64, outBytes: Int64, incoming: int): Buffer {
    var held := if rule in b.samples then b.samples[rule] else Sample(rule, 0, 0);
    b.(samples := b.samples[rule := Sample(rule, Wrap64(held.inBytes + inBytes), Wrap64(held.outBytes + outBytes))],
       pending := Wrap64(b.pending + incoming))
  }

  /** What add and the re-merge loop do with one sample that carries incoming bytes. */
  function Offered(l: Limits, b: Buffer, rule: Id, inBytes: Int64, outBytes: Int64, incoming: int): Buffer {
    if Refuses(l, b, rule, incoming) then Dropped(b, 1, incoming) else Merged(b, rule, inBytes, outBytes, incoming)
  }

  function Added(l: Limits, b: Buffer, rule: Id, inBytes: Int64, outBytes: Int64): Buffer {
    if inBytes <= 0 && outBytes <= 0 then b
    else Offered(l, b, rule, inBytes, outBytes, PositivePart(Wrap64(inBytes + outBytes)))
  }

  predicate CanTake(b: Buffer) {
    b.samples != map[] || b.retry != []
  }

  /** order lists the pending rules in the order the map iteration happened to produce them. */
  predicate Lists(order: seq<Id>, keys: set<Id>) {
    && (forall k | 0 <= k < |order| :: order[k] in keys)
    && (forall i, j | 0 <= i < j < |order| :: order[i] != order[j])
    && |order| == |keys|
  }

  function ListSamples(m: map<Id, Sample>, order: seq<Id>): (listed: seq<Sample>)
    requires forall k | 0 <= k < |order| :: order[k] in m
    ensures |listed| == |order| && forall k | 0 <= k < |order| :: listed[k] == m[order[k]]
  {
    if order == [] then [] else ListSamples(m, order[..|order| - 1]) + [m[order[|order| - 1]]]
  }

  function TakenBatch(b: Buffer, order: seq<Id>): Batch
    requires CanTake(b) && Lists(order, b.samples.Keys)
  {
    if b.retry != [] then b.retry[0]
    else Batch(b.lastId + 1, ListSamples(b.samples, order), b.pending)
  }

  /** The first lock region of flush: a waiting retry first, otherwise everything pending under a new id. */
  function Taken(b: Buffer): Buffer
    requires CanTake(b)
  {
    if b.retry != [] then b.(retry := b.retry[1..])
    else b.(samples := map[], pending := 0, lastId := b.lastId + 1)
  }

  function MergeBack(l: Limits, b: Buffer, samples: seq<Sample>): Buffer {
    if samples == [] then b
    else
      var x := samples[|samples| - 1];
      Offered(l, MergeBack(l, b, samples[..|samples| - 1]), x.rule, x.inBytes, x.outBytes,
              PositivePart(Wrap64(x.inBytes + x.outBytes)))
  }

  /** True when a failing flush gives its batch up. */
  predicate GivesUp(l: Limits, b: Buffer) {
    l.maxFailures > 0 && b.failures + 1 >= l.maxFailures
  }

  /** True when a failing flush finds the retry queue full and merges its samples back, losing the id. */
  predicate Remerges(l: Limits, b: Buffer) {
    !GivesUp(l, b) && !(|b.retry| < l.maxFailures || l.maxFailures <= 0)
  }

  /** The second lock region of flush after an error from the reporter. */
  function Failed(l: Limits, b: Buffer, batch: Batch): Buffer {
    var b1 := b.(failures := b.failures + 1);
    if GivesUp(l, b) then Dropped(b1, |batch.samples|, batch.bytes)
    else if Remerges(l, b) then MergeBack(l, b1, batch.samples)
    else b1.(retry := [batch] + b1.retry)
  }

  /** The second lock region of flush after success. */
  function Succeeded(b: Buffer): Buffer {
    b.(failures := 0)
  }

  // ---- totals ----

  function Weight(x: Sample): int {
    x.inBytes + x.outBytes
  }

  ghost function MapTotal(m: map<Id, Sample>): int
    decreases |m|
  {
    if m == map[] then 0
    else
      var k := Least(m.Keys);
      Weight(m[k]) + MapTotal(m - {k})
  }

  ghost function SeqTotal(samples: seq<Sample>): int {
    if samples == [] then 0 else SeqTotal(samples[..|samples| - 1]) + Weight(samples[|samples| - 1])
  }

  lemma {:induction false} MapTotalRemove(m: map<Id, Sample>, x: Id)
    requires x in m
    ensures MapTotal(m) == Weight(m[x]) + MapTotal(m - {x})
    decreases |m|
  {
    var k := Least(m.Keys);
    if k != x {
      MapTotalRemove(m - {k}, x);
      MapTotalRemove(m - {x}, k);
      assert m - {k} - {x} == m - {x} - {k};
    }
  }

  lemma MapTotalUpdate(m: map<Id, Sample>, x: Id, v: Sample)
    ensures MapTotal(m[x := v]) == MapTotal(m) + Weight(v) - (if x in m then Weight(m[x]) else 0)
  {
    MapTotalRemove(m[x := v], x);
    assert m[x := v] - {x} == m - {x};
    if x in m {
      MapTotalRemove(m, x);
    } else {
      assert m - {x} == m;
    }
  }

  lemma {:induction false} ListedTotal(m: map<Id, Sample>, order: seq<Id>, listed: seq<Sample>)
    requires Lists(order, m.Keys) && |listed| == |order| && forall k | 0 <= k < |order| :: listed[k] == m[order[k]]
    ensures SeqTotal(listed) == MapTotal(m)
    decreases |order|
  {
    if order != [] {
      var n := |order| - 1;
      var rest := m - {order[n]};
      assert rest.Keys == m.Keys - {order[n]};
      ListedTotal(rest, order[..n], listed[..n]);
      MapTotalRemove(m, order[n]);
    } else {
      assert m.Keys == {};
    }
  }

  // ---- the invariant ----

  ghost predicate BatchOk(l: Limits, batch: Batch) {
    && (forall k | 0 <= k < |batch.samples| :: 0 <= batch.samples[k].inBytes && 0 <= batch.samples[k].outBytes)
    && batch.bytes == SeqTotal(batch.samples) <= l.maxBytes
  }

  /** pendingBytes is the sum of the samples, within its cap; so is the number of rules. */
  ghost predicate BufferOk(l: Limits, b: Buffer) {
    && l.Positive()
    && (forall r | r in b.samples :: b.samples[r].rule == r && 0 <= b.samples[r].inBytes && 0 <= b.samples[r].outBytes)
    && b.pending == MapTotal(b.samples) <= l.maxBytes
    && |b.samples| <= l.maxSamples
    && (forall k | 0 <= k < |b.retry| :: BatchOk(l, b.retry[k]))
  }

  /** Byte counts of one packet or copy; the bound keeps pendingBytes + incoming inside int64. */
  predicate Measured(l: Limits, inBytes: Int64, outBytes: Int64) {
    0 <= inBytes && 0 <= outBytes && inBytes + outBytes <= MAX_INT64 - l.maxBytes
  }

  lemma {:induction false} MapTotalBounds(m: map<Id, Sample>, r: Id)
    requires forall x | x in m :: 0 <= m[x].inBytes && 0 <= m[x].outBytes
    ensures 0 <= MapTotal(m)
    ensures r in m ==> Weight(m[r]) <= MapTotal(m)
    decreases |m|
  {
    if m != map[] {
      var k := Least(m.Keys);
      MapTotalBounds(m - {k}, r);
      MapTotalBounds(m - {k}, k);
    }
  }

  /** Offering bytes to the buffer moves exactly those bytes to pending or to dropped. */
  lemma OfferedOk(l: Limits, b: Buffer, rule: Id, inBytes: Int64, outBytes: Int64)
    requires BufferOk(l, b) && 0 <= inBytes && 0 <= outBytes && b.pending + inBytes + outBytes <= MAX_INT64
    ensures var b' := Offered(l, b, rule, inBytes, outBytes, inBytes + outBytes);
            && BufferOk(l, b') && b'.retry == b.retry && b'.failures == b.failures && b'.lastId == b.lastId
            && b'.pending + b'.droppedBytes == b.pending + b.droppedBytes + inBytes + outBytes
  {
    if !Refuses(l, b, rule, inBytes + outBytes) {
      MapTotalBounds(b.samples, rule);
      var v := Merged(b, rule, inBytes, outBytes, inBytes + outBytes).samples[rule];
      MapTotalUpdate(b.samples, rule, v);
    }
  }

  lemma AddedOk(l: Limits, b: Buffer, rule: Id, inBytes: Int64, outBytes: Int64)
    requires BufferOk(l, b) && Measured(l, inBytes, outBytes)
    ensures var b' := Added(l, b, rule, inBytes, outBytes);
            && BufferOk(l, b') && b'.retry == b.retry && b'.failures == b.failures && b'.lastId == b.lastId
            && b'.pending + b'.droppedBytes == b.pending + b.droppedBytes + inBytes + outBytes
  {
    OfferedOk(l, b, rule, inBytes, outBytes);
  }

  /** Bytes are turned away only when a cap leaves no room for them; otherwise the rule's own sample grows by them. */
  lemma AddedMeans(l: Limits, b: Buffer, rule: Id, inBytes: Int64, outBytes: Int64)
    requires BufferOk(l, b) && Measured(l, inBytes, outBytes)
    ensures var b', n := Added(l, b, rule, inBytes, outBytes), inBytes + outBytes;
      if n == 0 then b' == b
      else if (rule !in b.samples && |b.samples| >= l.maxSamples) || b.pending + n > l.maxBytes then
        b' == b.(droppedSamples := b.droppedSamples + 1, droppedBytes := b.droppedBytes + n)
      else
        && rule in b'.samples && b' == b.(pending := b.pending + n, samples := b.samples[rule := b'.samples[rule]])
        && b'.samples[rule].rule == rule
        && b'.samples[rule].inBytes == (if rule in b.samples then b.samples[rule].inBytes else 0) + inBytes
        && b'.samples[rule].outBytes == (if rule in b.samples then b.samples[rule].outBytes else 0) + outBytes
  {
    MapTotalBounds(b.samples, rule);
  }

  predicate Full(l: Limits, b: Buffer, rule: Id) {
    rule !in b.samples && |b.samples| >= l.maxSamples
  }

  /**
   * Without a bound on the counts: an add accounts for its bytes if and only if their sum stays in int64, and the
   * pending bytes with it unless the rule is turned away before they are added up.
   */
  lemma AddBalancesIff(l: Limits, b: Buffer, rule: Id, inBytes: Int64, outBytes: Int64)
    requires BufferOk(l, b) && 0 <= inBytes && 0 <= outBytes
    ensures var b' := Added(l, b, rule, inBytes, outBytes);
            b'.pending + b'.droppedBytes == b.pending + b.droppedBytes + inBytes + outBytes <==>
            inBytes + outBytes <= MAX_INT64 && (Full(l, b, rule) || b.pending + inBytes + outBytes <= MAX_INT64)
  {
    MapTotalBounds(b.samples, rule);
  }

  lemma TakenOk(l: Limits, b: Buffer, order: seq<Id>)
    requires BufferOk(l, b) && CanTake(b) && Lists(order, b.samples.Keys)
    ensures BufferOk(l, Taken(b)) && BatchOk(l, TakenBatch(b, order))
  {
    if b.retry == [] {
      var batch := TakenBatch(b, order);
      ListedTotal(b.samples, order, batch.samples);
    }
  }

  /** A flush takes the first waiting batch as it is, or else every pending sample once, under an id never used before. */
  lemma TakenMeans(l: Limits, b: Buffer, order: seq<Id>)
    requires BufferOk(l, b) && CanTake(b) && Lists(order, b.samples.Keys)
    ensures var batch, v := TakenBatch(b, order), Taken(b);
      if b.retry != [] then [batch] + v.retry == b.retry && v == b.(retry := v.retry)
      else
        && v == b.(samples := map[], pending := 0, lastId := batch.id) && batch.id == b.lastId + 1
        && batch.bytes == b.pending && |batch.samples| == |b.samples| && forall r | r in b.samples :: b.samples[r] in batch.samples
  {
    if b.retry == [] {
      var listed := TakenBatch(b, order).samples;
      AllListed(order, b.samples.Keys);
      forall r | r in b.samples ensures b.samples[r] in listed {
        var k :| 0 <= k < |order| && order[k] == r;
        assert listed[k] == b.samples[r];
      }
    }
  }

  /** A list without repetition as long as the set leaves nothing out. */
  lemma {:induction false} AllListed(order: seq<Id>, keys: set<Id>)
    requires Lists(order, keys)
    ensures forall r | r in keys :: r in order
    decreases |order|
  {
    if order == [] {
      assert keys == {};
    } else {
      var n := |order| - 1;
      AllListed(order[..n], keys - {order[n]});
      assert order == order[..n] + [order[n]];
    }
  }

  /**
   * A failing flush counts one more failure in a row, gives its batch up when that makes too many, and otherwise puts
   * it back in front of the queue, where the next flush takes the very same batch.
   */
  lemma FailedMeans(l: Limits, b: Buffer, batch: Batch, order: seq<Id>)
    requires BufferOk(l, b) && (b.failures + 1 >= l.maxFailures || |b.retry| < l.maxFailures)
    ensures var v := Failed(l, b, batch);
      && v.failures == b.failures + 1
      && if b.failures + 1 >= l.maxFailures then
           v == b.(failures := v.failures, droppedSamples := b.droppedSamples + |batch.samples|, droppedBytes := b.droppedBytes + batch.bytes)
         else
           CanTake(v) && (Lists(order, v.samples.Keys) ==> TakenBatch(v, order) == batch && Taken(v) == b.(failures := v.failures))
  {
    if b.failures + 1 < l.maxFailures {
      assert ([batch] + b.retry)[1..] == b.retry;
    }
  }

  lemma {:induction false} MergeBackOk(l: Limits, b: Buffer, samples: seq<Sample>)
    requires BufferOk(l, b)
    requires forall k | 0 <= k < |samples| :: 0 <= samples[k].inBytes && 0 <= samples[k].outBytes
    requires SeqTotal(samples) + l.maxBytes <= MAX_INT64
    ensures var b' := MergeBack(l, b, samples);
            && BufferOk(l, b') && b'.retry == b.retry && b'.failures == b.failures && b'.lastId == b.lastId
            && b'.pending + b'.droppedBytes == b.pending + b.droppedBytes + SeqTotal(samples)
    ensures 0 <= SeqTotal(samples)
  {
    if samples != [] {
      var n := |samples| - 1;
      var x := samples[n];
      SeqTotalGrows(samples);
      MergeBackOk(l, b, samples[..n]);
      OfferedOk(l, MergeBack(l, b, samples[..n]), x.rule, x.inBytes, x.outBytes);
    }
  }

  /** Merging a batch back is adding its samples again, one after the other, each under its own rule. */
  lemma MergeBackMeans(l: Limits, b: Buffer, samples: seq<Sample>, x: Sample)
    requires x.inBytes > 0 || x.outBytes > 0
    ensures MergeBack(l, b, samples + [x]) == Added(l, MergeBack(l, b, samples), x.rule, x.inBytes, x.outBytes)
    ensures MergeBack(l, b, []) == b
  {
    assert (samples + [x])[..|samples|] == samples;
  }

  lemma {:induction false} SeqTotalGrows(samples: seq<Sample>)
    requires forall k | 0 <= k < |samples| :: 0 <= samples[k].inBytes && 0 <= samples[k].outBytes
    ensures 0 <= SeqTotal(samples)
    ensures samples != [] ==> Weight(samples[|samples| - 1]) <= SeqTotal(samples)
  {
    if samples != [] { SeqTotalGrows(samples[..|samples| - 1]); }
  }

  ghost function RetryTotal(batches: seq<Batch>): int {
    if batches == [] then 0 else batches[0].bytes + RetryTotal(batches[1..])
  }

  lemma RemergedOk(l: Limits, b: Buffer, batch: Batch, b': Buffer)
    requires BufferOk(l, b) && BatchOk(l, batch) && 2 * l.maxBytes <= MAX_INT64
    requires b' == MergeBack(l, b.(failures := b.failures + 1), batch.samples)
    ensures BufferOk(l, b') && b'.retry == b.retry && b'.lastId == b.lastId
    ensures b'.pending + b'.droppedBytes == b.pending + b.droppedBytes + batch.bytes
  {
    MergeBackOk(l, b.(failures := b.failures + 1), batch.samples);
  }

  lemma QueuedOk(l: Limits, b: Buffer, batch: Batch, b': Buffer)
    requires BufferOk(l, b) && BatchOk(l, batch) && b' == b.(failures := b'.failures, retry := [batch] + b.retry)
    ensures BufferOk(l, b') && RetryTotal(b'.retry) == batch.bytes + RetryTotal(b.retry)
  {
    assert ([batch] + b.retry)[1..] == b.retry;
    forall k | 0 <= k < |b'.retry| ensures BatchOk(l, b'.retry[k]) {
      assert k > 0 ==> b'.retry[k] == b.retry[k - 1];
    }
  }

  /** A failing flush keeps the invariant in all three branches and loses no byte from the accounts. */
  lemma FailedOk(l: Limits, b: Buffer, batch: Batch)
    requires BufferOk(l, b) && BatchOk(l, batch) && 2 * l.maxBytes <= MAX_INT64
    ensures var b' := Failed(l, b, batch);
            && BufferOk(l, b') && b'.lastId == b.lastId
            && b'.pending + b'.droppedBytes + RetryTotal(b'.retry) == b.pending + b.droppedBytes + RetryTotal(b.retry) + batch.bytes
  {
    if !GivesUp(l, b) {
      if Remerges(l, b) {
        RemergedOk(l, b, batch, Failed(l, b, batch));
      } else {
        QueuedOk(l, b, batch, Failed(l, b, batch));
      }
    }
  }

  // ---- the buffer object ----

  class TrafficBuffer {
    const limits: Limits
    var samples: map<Id, Sample>
    var retryBatches: seq<Batch>
    var pendingBytes: int
    var flushFailures: int
    var droppedSamples: int
    var droppedBytes: int
    var nextReportSeq: nat

    function View(): Buffer
      reads this
    {
      Buffer(samples, retryBatches, pendingBytes, flushFailures, droppedSamples, droppedBytes, nextReportSeq)
    }

    constructor (limits: Limits)
      ensures this.limits == limits && View() == EMPTY
    {
      this.limits := limits;
      samples, retryBatches, pendingBytes := map[], [], 0;
      flushFailures, droppedSamples, droppedBytes, nextReportSeq := 0, 0, 0, 0;
    }

    /** Take one rule's bytes in, or count them as dropped when a cap is reached. */
    method Offer(rule: Id, inBytes: Int64, outBytes: Int64, incoming: int)
      modifies this
      ensures View() == Offered(limits, old(View()), rule, inBytes, outBytes, incoming)
    {
      if (rule !in samples && limits.maxSamples > 0 && |samples| >= limits.maxSamples)
         || (limits.maxBytes > 0 && incoming > 0 && Wrap64(pendingBytes + incoming) > limits.maxBytes) {
        droppedSamples, droppedBytes := droppedSamples + 1, droppedBytes + incoming;
      } else {
        var held := if rule in samples then samples[rule] else Sample(rule, 0, 0);
        samples := samples[rule := Sample(rule, Wrap64(held.inBytes + inBytes), Wrap64(held.outBytes + outBytes))];
        pendingBytes := Wrap64(pendingBytes + incoming);
      }
    }

    /** add: true asks the caller to flush now. */
    method Add(rule: Id, inBytes: Int64, outBytes: Int64) returns (flushNow: bool)
      modifies this
      ensures View() == Added(limits, old(View()), rule, inBytes, outBytes)
      ensures flushNow <==> (inBytes > 0 || outBytes > 0) && droppedSamples == old(droppedSamples) && |samples| >= 100
    {
      if inBytes <= 0 && outBytes <= 0 {
        return false;
      }
      var incoming := Wrap64(inBytes + outBytes);
      if incoming < 0 {
        incoming := 0;
      }
      var dropped := droppedSamples;
      Offer(rule, inBytes, outBytes, incoming);
      flushNow := droppedSamples == dropped && |samples| >= FLUSH_SIZE;
    }

    /** The first half of flush. The rules are listed in whatever order the map yields them. */
    method BeginFlush() returns (batch: Option<Batch>, order: seq<Id>)
      modifies this
      ensures batch.Some? <==> old(samples) != map[] || old(retryBatches) != []
      ensures batch.None? ==> View() == old(View())
      ensures batch.Some? ==> Lists(order, old(samples).Keys)
                              && batch == Some(TakenBatch(old(View()), order)) && View() == Taken(old(View()))
    {
      order := Listing(samples.Keys);
      if |samples| == 0 && |retryBatches| == 0 {
        return None, order;
      }
      if |retryBatches| > 0 {
        batch := Some(retryBatches[0]);
        retryBatches := retryBatches[1..];
        return;
      }
      nextReportSeq := nextReportSeq + 1;
      var listed: seq<Sample> := [];
      for k := 0 to |order|
        invariant listed == ListSamples(samples, order[..k])
      {
        assert order[..k + 1][..k] == order[..k];
        listed := listed + [samples[order[k]]];
      }
      assert order[..|order|] == order;
      batch := Some(Batch(nextReportSeq, listed, pendingBytes));
      samples := map[];
      pendingBytes := 0;
    }

    /** The second half of flush when the report was answered. */
    method FlushSucceeded()
      modifies this
      ensures View() == Succeeded(old(View())) && View() == old(View()).(failures := 0)
    {
      flushFailures := 0;
    }

    /** The second half of flush when it was not: give up, queue for retry, or merge back. */
    method FlushFailed(batch: Batch)
      modifies this
      ensures View() == Failed(limits, old(View()), batch)
    {
      flushFailures := flushFailures + 1;
      if limits.maxFailures > 0 && flushFailures >= limits.maxFailures {
        droppedSamples, droppedBytes := droppedSamples + |batch.samples|, droppedBytes + batch.bytes;
        return;
      }
      if |retryBatches| < limits.maxFailures || limits.maxFailures <= 0 {
        retryBatches := [batch] + retryBatches;
        return;
      }
      ghost var before := View();
      for k := 0 to |batch.samples|
        invariant View() == MergeBack(limits, before, batch.samples[..k])
      {
        var x := batch.samples[k];
        assert batch.samples[..k + 1][..k] == batch.samples[..k];
        Offer(x.rule, x.inBytes, x.outBytes, PositivePart(Wrap64(x.inBytes + x.outBytes)));
      }
      assert batch.samples[..|batch.samples|] == batch.samples;
    }
  }

  /** Some listing of a finite set without repetition. */
  method Listing(keys: set<Id>) returns (order: seq<Id>)
    ensures Lists(order, keys)
  {
    var rest := keys;
    order := [];
    while rest != {}
      invariant rest <= keys && |order| + |rest| == |keys|
      invariant forall k | 0 <= k < |order| :: order[k] in keys && order[k] !in rest
      invariant forall i, j | 0 <= i < j < |order| :: order[i] != order[j]
    {
      var x :| x in rest;
      order := order + [x];
      rest := rest - {x};
    }
  }
}
