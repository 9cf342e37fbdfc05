/** The rate limiter: tokenBucket.wait over real numbers, for any number of waiters. */
module TokenBucket {

  datatype Bucket = Bucket(rate: real, tokens: real, last: real)

  const MILLISECOND: real := 0.001

  function LessOf(a: real, b: real): real {
    if a < b then a else b
  }

  /** What flows in over some seconds. */
  function Inflow(rate: real, seconds: real): real {
    seconds * rate
  }

  /** tokens come at rate per second, up to one second's worth. */
  function Refilled(b: Bucket, now: real): Bucket {
    b.(tokens := LessOf(b.tokens + Inflow(b.rate, now - b.last), b.rate), last := now)
  }

  /** What one round inside the lock takes for a waiter that still needs this much. */
  function Used(b: Bucket, need: real, now: real): real {
    if Refilled(b, now).tokens > 0.0 then LessOf(Refilled(b, now).tokens, need) else 0.0
  }

  function Taken(b: Bucket, need: real, now: real): Bucket {
    Refilled(b, now).(tokens := Refilled(b, now).tokens - Used(b, need, now))
  }

  /** How long a waiter sleeps before its next round: for at most one second's worth, at least a millisecond. */
  function Sleep(rate: real, need: real): real
    requires rate > 0.0
  {
    var wanted := LessOf(need, rate) / rate;
    if wanted < MILLISECOND then MILLISECOND else wanted
  }

  predicate BucketOk(b: Bucket) {
    b.rate > 0.0 && 0.0 <= b.tokens <= b.rate
  }

  lemma InflowGrows(rate: real, x: real, y: real)
    requires rate >= 0.0 && x <= y
    ensures Inflow(rate, x) <= Inflow(rate, y) && (0.0 <= x ==> 0.0 <= Inflow(rate, x))
  {
    assert (y - x) * rate >= 0.0;
  }

  lemma InflowAdds(rate: real, x: real, y: real)
    ensures Inflow(rate, x) + Inflow(rate, y) == Inflow(rate, x + y)
  {
  }

  lemma RefilledOk(b: Bucket, now: real)
    requires BucketOk(b) && now >= b.last
    ensures BucketOk(Refilled(b, now)) && Refilled(b, now).tokens <= b.tokens + Inflow(b.rate, now - b.last)
  {
    InflowGrows(b.rate, 0.0, now - b.last);
  }

  lemma TakenOk(b: Bucket, need: real, now: real)
    requires BucketOk(b) && need > 0.0 && now >= b.last
    ensures BucketOk(Taken(b, need, now)) && 0.0 <= Used(b, need, now) <= need
    ensures Used(b, need, now) + Taken(b, need, now).tokens == Refilled(b, now).tokens <= b.rate
    ensures Refilled(b, now).tokens <= b.tokens + Inflow(b.rate, now - b.last)
  {
    RefilledOk(b, now);
  }

  // ---- any number of waiters ----

  /** One round of some waiter: what it still needs and when it holds the lock. */
  datatype Round = Round(need: real, now: real)

  /** Rounds at times that never go back, from the bucket's last refill on. */
  predicate Timely(last: real, rounds: seq<Round>)
    decreases |rounds|
  {
    rounds == [] || (last <= rounds[0].now && rounds[0].need > 0.0 && Timely(rounds[0].now, rounds[1..]))
  }

  function Consumed(b: Bucket, rounds: seq<Round>): real
    decreases |rounds|
  {
    if rounds == [] then 0.0
    else Used(b, rounds[0].need, rounds[0].now) + Consumed(Taken(b, rounds[0].need, rounds[0].now), rounds[1..])
  }

  function After(b: Bucket, rounds: seq<Round>): Bucket
    decreases |rounds|
  {
    if rounds == [] then b else After(Taken(b, rounds[0].need, rounds[0].now), rounds[1..])
  }

  /** The bytes of a round and of the rounds after it, against what was stored and what has flowed in. */
  lemma Covered(rate: real, stored: real, refilled: real, used: real, left: real, rest: real, end: real, x: real, y: real)
    requires refilled <= stored + Inflow(rate, x) && used + left == refilled && rest + end <= left + Inflow(rate, y)
    ensures used + rest + end <= stored + Inflow(rate, x + y)
  {
    InflowAdds(rate, x, y);
  }

  /** Over any run the bytes let through are covered by what was stored and what has flowed in since. */
  lemma {:induction false} ConsumptionIsCovered(b: Bucket, rounds: seq<Round>)
    requires BucketOk(b) && Timely(b.last, rounds)
    ensures BucketOk(After(b, rounds)) && After(b, rounds).rate == b.rate && After(b, rounds).last >= b.last
    ensures 0.0 <= Consumed(b, rounds)
    ensures Consumed(b, rounds) + After(b, rounds).tokens <= b.tokens + Inflow(b.rate, After(b, rounds).last - b.last)
    decreases |rounds|
  {
    if rounds == [] {
      InflowGrows(b.rate, 0.0, 0.0);
    } else {
      var r := rounds[0];
      var next := Taken(b, r.need, r.now);
      TakenOk(b, r.need, r.now);
      ConsumptionIsCovered(next, rounds[1..]);
      var last := After(next, rounds[1..]);
      Covered(b.rate, b.tokens, Refilled(b, r.now).tokens, Used(b, r.need, r.now), next.tokens, Consumed(next, rounds[1..]),
              last.tokens, r.now - b.last, last.last - r.now);
      assert (r.now - b.last) + (last.last - r.now) == last.last - b.last;
    }
  }

  lemma RestOfWindow(b: Bucket, rounds: seq<Round>, s: real, t: real)
    requires BucketOk(b) && Timely(b.last, rounds) && s <= b.last <= t
    requires forall i | 0 <= i < |rounds| :: s <= rounds[i].now <= t
    ensures Consumed(b, rounds) <= b.tokens + Inflow(b.rate, t - s)
  {
    ConsumptionIsCovered(b, rounds);
    LastWithin(b, rounds, s, t);
    InflowGrows(b.rate, After(b, rounds).last - b.last, t - s);
  }

  lemma Window(u: Bucket, window: seq<Round>, s: real, t: real)
    requires BucketOk(u) && Timely(u.last, window) && s <= t
    requires forall i | 0 <= i < |window| :: s <= window[i].now <= t
    ensures Consumed(u, window) <= Inflow(u.rate, t - s) + u.rate
  {
    if window == [] {
      InflowGrows(u.rate, 0.0, t - s);
    } else {
      TakenOk(u, window[0].need, window[0].now);
      RestOfWindow(Taken(u, window[0].need, window[0].now), window[1..], s, t);
    }
  }

  /** From any moment of any run, with any waiters: at most rate * (t - s) + rate bytes between s and t. */
  lemma WindowBound(b: Bucket, before: seq<Round>, window: seq<Round>, s: real, t: real)
    requires BucketOk(b) && Timely(b.last, before) && Timely(After(b, before).last, window) && s <= t
    requires forall i | 0 <= i < |window| :: s <= window[i].now <= t
    ensures Consumed(After(b, before), window) <= Inflow(b.rate, t - s) + b.rate
  {
    ConsumptionIsCovered(b, before);
    Window(After(b, before), window, s, t);
  }

  lemma {:induction false} LastWithin(b: Bucket, rounds: seq<Round>, s: real, t: real)
    requires s <= b.last <= t && forall i | 0 <= i < |rounds| :: s <= rounds[i].now <= t
    ensures s <= After(b, rounds).last <= t
    decreases |rounds|
  {
    if rounds != [] {
      LastWithin(Taken(b, rounds[0].need, rounds[0].now), rounds[1..], s, t);
    }
  }

  // ---- each of the waiters ----

  /** One pass of a call of wait through the lock. Calls have numbers; left says what each still needs. */
  datatype Pass = Pass(call: nat, now: real)

  type Needs = map<nat, real>

  /** Any interleaving: a call that still needs something passes at a time that does not go back. */
  predicate Interleaved(b: Bucket, left: Needs, passes: seq<Pass>)
    decreases |passes|
  {
    passes == [] ||
    (var p := passes[0];
     p.call in left && left[p.call] > 0.0 && b.last <= p.now
     && Interleaved(Taken(b, left[p.call], p.now), LeftBy(b, left, p), passes[1..]))
  }

  function LeftBy(b: Bucket, left: Needs, p: Pass): Needs
    requires p.call in left
  {
    left[p.call := left[p.call] - Used(b, left[p.call], p.now)]
  }

  /** The rounds that the passes are, what each call still needs after them, and what one call has taken in them. */
  function RoundsOf(b: Bucket, left: Needs, passes: seq<Pass>): seq<Round>
    requires Interleaved(b, left, passes)
    decreases |passes|
  {
    if passes == [] then []
    else
      var p := passes[0];
      [Round(left[p.call], p.now)] + RoundsOf(Taken(b, left[p.call], p.now), LeftBy(b, left, p), passes[1..])
  }

  function LeftAfter(b: Bucket, left: Needs, passes: seq<Pass>): Needs
    requires Interleaved(b, left, passes)
    decreases |passes|
  {
    if passes == [] then left
    else LeftAfter(Taken(b, left[passes[0].call], passes[0].now), LeftBy(b, left, passes[0]), passes[1..])
  }

  function TakenBy(b: Bucket, left: Needs, passes: seq<Pass>, call: nat): real
    requires Interleaved(b, left, passes)
    decreases |passes|
  {
    if passes == [] then 0.0
    else
      var p := passes[0];
      (if p.call == call then Used(b, left[call], p.now) else 0.0)
      + TakenBy(Taken(b, left[p.call], p.now), LeftBy(b, left, p), passes[1..], call)
  }

  /**
   * Among any number of waiters a call that has returned has taken exactly what it asked for, and one that has not
   * has taken less.
   */
  lemma {:induction false} EachTakesItsShare(b: Bucket, left: Needs, passes: seq<Pass>, call: nat)
    requires BucketOk(b) && Interleaved(b, left, passes) && call in left && forall c | c in left :: left[c] >= 0.0
    ensures call in LeftAfter(b, left, passes) && 0.0 <= LeftAfter(b, left, passes)[call]
    ensures TakenBy(b, left, passes, call) + LeftAfter(b, left, passes)[call] == left[call]
    ensures LeftAfter(b, left, passes)[call] == 0.0 <==> TakenBy(b, left, passes, call) == left[call]
    decreases |passes|
  {
    if passes != [] {
      var p := passes[0];
      TakenOk(b, left[p.call], p.now);
      EachTakesItsShare(Taken(b, left[p.call], p.now), LeftBy(b, left, p), passes[1..], call);
    }
  }

  /** The passes are rounds in the sense of the bounds above, so those hold for all waiters together. */
  lemma {:induction false} PassesAreTimely(b: Bucket, left: Needs, passes: seq<Pass>)
    requires Interleaved(b, left, passes)
    ensures Timely(b.last, RoundsOf(b, left, passes)) && |RoundsOf(b, left, passes)| == |passes|
    decreases |passes|
  {
    if passes != [] {
      var p := passes[0];
      PassesAreTimely(Taken(b, left[p.call], p.now), LeftBy(b, left, p), passes[1..]);
    }
  }

  // ---- one waiter ----

  lemma SleepSuffices(rate: real, need: real)
    requires rate > 0.0 && need > 0.0
    ensures Sleep(rate, need) > 0.0 && Inflow(rate, Sleep(rate, need)) >= LessOf(need, rate)
  {
    var wanted := LessOf(need, rate) / rate;
    assert Inflow(rate, wanted) == LessOf(need, rate);
    InflowGrows(rate, wanted, Sleep(rate, need));
  }

  /** A sleep lasts from a millisecond to a second, and no longer than what is needed takes to flow in. */
  lemma SleepMeans(rate: real, need: real)
    requires rate > 0.0 && need > 0.0
    ensures 0.001 <= Sleep(rate, need) <= 1.0
    ensures Sleep(rate, need) > 0.001 ==> Inflow(rate, Sleep(rate, need)) == if need < rate then need else rate
    ensures Sleep(rate, need) == 0.001 ==> Inflow(rate, 0.001) >= if need < rate then need else rate
  {
    var wanted := LessOf(need, rate) / rate;
    assert Inflow(rate, wanted) == LessOf(need, rate);
    InflowGrows(rate, wanted, Sleep(rate, need));
    assert Inflow(rate, wanted) <= Inflow(rate, 1.0);
    assert (wanted - 1.0) * rate <= 0.0;
  }

  /** After its sleep a lone waiter gets all it still needs, or one second's worth. */
  lemma RoundAfterSleep(b: Bucket, need: real, now: real)
    requires BucketOk(b) && need > 0.0 && now >= b.last + Sleep(b.rate, need)
    ensures Used(b, need, now) >= LessOf(need, b.rate)
  {
    SleepSuffices(b.rate, need);
    InflowGrows(b.rate, Sleep(b.rate, need), now - b.last);
  }

  class TokenBucket {
    const rate: int
    var tokens: real
    var last: real

    function View(): Bucket
      reads this
    {
      Bucket(rate as real, tokens, last)
    }

    constructor (rate: int, now: real)
      requires rate > 0
      ensures View() == Bucket(rate as real, rate as real, now) && BucketOk(View())
    {
      this.rate, tokens, last := rate, rate as real, now;
    }

    /** One pass through the lock. */
    method Take(need: real, now: real) returns (left: real)
      requires BucketOk(View()) && need > 0.0 && now >= last
      modifies this
      ensures View() == Taken(old(View()), need, now) && BucketOk(View())
      ensures left == need - Used(old(View()), need, now) && 0.0 <= left <= need
    {
      TakenOk(View(), need, now);
      left := need;
      var elapsed := now - last;
      tokens := tokens + elapsed * (rate as real);
      if tokens > rate as real {
        tokens := rate as real;
      }
      last := now;
      if tokens > 0.0 {
        var used := tokens;
        if used > left {
          used := left;
        }
        tokens := tokens - used;
        left := left - used;
      }
    }

    /**
     * wait when nobody else waits, each sleep as much longer than asked as late says. It takes exactly n and
     * ends within ceil(n / rate) + 1 rounds.
     */
    method WaitAlone(n: nat, start: real, late: nat -> real) returns (rounds: nat, taken: real)
      requires BucketOk(View()) && start >= last && forall k :: late(k) >= 0.0
      modifies this
      ensures BucketOk(View()) && taken == n as real
      ensures n == 0 ==> rounds == 0 && View() == old(View())
      ensures n > 0 ==> rounds >= 1 && Inflow(rate as real, rounds as real - 2.0) < n as real
    {
      rounds, taken := 0, 0.0;
      if n == 0 {
        return;
      }
      var need, now := n as real, start;
      InflowGrows(rate as real, -1.0, 0.0);
      while need > 0.0
        invariant BucketOk(View()) && need >= 0.0 && taken + need == n as real && rounds <= n + 1
        invariant need > 0.0 ==> now >= last && Behind(rate as real, rounds, need, n as real)
        invariant rounds > 0 && need > 0.0 ==> now >= last + Sleep(rate as real, need)
        invariant need == 0.0 ==> rounds > 0 && Inflow(rate as real, rounds as real - 2.0) < n as real
        decreases n + 1 - rounds
      {
        var left := TakeNext(need, now, rounds, n as real);
        RoundsBounded(rate as real, rounds, need, n);
        taken := taken + (need - left);
        need := left;
        rounds := rounds + 1;
        if need > 0.0 {
          SleepSuffices(rate as real, need);
          now := now + Sleep(rate as real, need) + late(rounds);
        }
      }
    }

    /** A round of a lone waiter, the first one or one after its sleep. */
    method TakeNext(need: real, now: real, rounds: nat, n: real) returns (left: real)
      requires BucketOk(View()) && need > 0.0 && now >= last && Behind(rate as real, rounds, need, n)
      requires rounds > 0 ==> now >= last + Sleep(rate as real, need)
      modifies this
      ensures BucketOk(View()) && 0.0 <= left <= need && last == now
      ensures left > 0.0 ==> Behind(rate as real, rounds + 1, left, n)
      ensures left == 0.0 ==> Inflow(rate as real, rounds as real - 1.0) < n
    {
      ghost var b := View();
      left := Take(need, now);
      if rounds > 0 {
        RoundAfterSleep(b, need, now);
      }
      RoundCounts(rate as real, rounds, n, need, left);
    }
  }

  /** Every round but the first has taken a whole second's worth. */
  predicate Behind(rate: real, rounds: nat, need: real, n: real) {
    if rounds == 0 then need == n else Inflow(rate, rounds as real - 1.0) + need <= n
  }

  lemma RoundCounts(rate: real, rounds: nat, n: real, before: real, left: real)
    requires rate > 0.0 && before > 0.0 && 0.0 <= left <= before && Behind(rate, rounds, before, n)
    requires rounds > 0 ==> before - left >= LessOf(before, rate)
    ensures left > 0.0 ==> Behind(rate, rounds + 1, left, n)
    ensures left == 0.0 ==> Inflow(rate, rounds as real - 1.0) < n
  {
    InflowAdds(rate, rounds as real - 1.0, 1.0);
    InflowGrows(rate, -1.0, 0.0);
    assert (rounds + 1) as real - 1.0 == rounds as real - 1.0 + 1.0;
  }

  lemma Product(x: real, y: real)
    requires x >= 0.0 && y >= 0.0
    ensures x * y >= 0.0
  {
  }

  lemma RoundsBounded(rate: real, rounds: nat, need: real, n: nat)
    requires rate >= 1.0 && need > 0.0 && Behind(rate, rounds, need, n as real) && n > 0
    ensures rounds <= n
  {
    if rounds > 0 {
      var x := rounds as real - 1.0;
      Product(x, rate - 1.0);
      assert Inflow(rate, x) == x + x * (rate - 1.0);
    }
  }
}
