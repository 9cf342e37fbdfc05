/** Small types and integer helpers shared by the other modules. */
module Common {

  datatype Option<+T> = None | Some(value: T)

  datatype Result<+T, +E> = Ok(value: T) | Err(error: E)

  /** The largest value of a Go int64. */
  const MAX_INT64: int := 0x7FFF_FFFF_FFFF_FFFF

  const TWO_64: int := 0x1_0000_0000_0000_0000

  /** The value a Go int64 holds after an addition whose exact result is x. */
  function Wrap64(x: int): (r: int)
    ensures -MAX_INT64 - 1 <= r <= MAX_INT64
  {
    if -MAX_INT64 - 1 <= x <= MAX_INT64 then x else (x + MAX_INT64 + 1) % TWO_64 - MAX_INT64 - 1
  }

  function Min(a: int, b: int): int {
    if a < b then a else b
  }

  /** The least element of a nonempty set of naturals. */
  function Least(s: set<nat>): (m: nat)
    requires s != {}
    ensures m in s && forall x | x in s :: m <= x
  {
    LeastExists(s);
    var m :| m in s && forall x | x in s :: m <= x;
    m
  }

  lemma LeastExists(s: set<nat>)
    requires s != {}
    ensures exists m :: m in s && forall x | x in s :: m <= x
  {
    var y :| y in s;
    LeastUpTo(s, y);
  }

  lemma LeastUpTo(s: set<nat>, y: nat)
    requires y in s
    ensures exists m :: m in s && forall x | x in s :: m <= x
    decreases y
  {
    if x :| x in s && x < y {
      LeastUpTo(s, x);
    }
  }

  /** The elements of s in increasing order, as the Go code gets them from sort.Slice. */
  function Sorted(s: set<nat>): (r: seq<nat>)
    ensures forall x :: x in r <==> x in s
    ensures forall k | 0 <= k < |r| :: r[k] in s
    decreases s
  {
    if s == {} then []
    else
      var m := Least(s);
      var rest := Sorted(s - {m});
      assert forall x :: x in rest <==> x in s - {m};
      [m] + rest
  }

  lemma {:induction false} SortedIncreases(s: set<nat>, i: nat, j: nat)
    requires i < j < |Sorted(s)|
    ensures Sorted(s)[i] < Sorted(s)[j]
    decreases s
  {
    var m := Least(s);
    var rest := Sorted(s - {m});
    assert Sorted(s) == [m] + rest;
    if i == 0 {
      assert rest[j - 1] in rest;
    } else {
      SortedIncreases(s - {m}, i - 1, j - 1);
    }
  }

  lemma SubsetSize<T>(a: set<T>, b: set<T>)
    requires a <= b
    ensures |a| <= |b|
  {
    assert b == a + (b - a);
  }

  /** A loop that runs step for k = 0 .. n-1 and stops at the first error. */
  function Iterate<S, E>(step: (S, nat) -> Result<S, E>, s: S, n: nat): Result<S, E> {
    if n == 0 then Ok(s)
    else
      var prev := Iterate(step, s, n - 1);
      if prev.Err? then prev else step(prev.value, n - 1)
  }

  lemma {:induction false} IterateKeeps<S(!new), E(!new)>(inv: S -> bool, step: (S, nat) -> Result<S, E>, s: S, n: nat)
    requires inv(s)
    requires forall c, k: nat | k < n && inv(c) && step(c, k).Ok? :: inv(step(c, k).value)
    ensures Iterate(step, s, n).Ok? ==> inv(Iterate(step, s, n).value)
  {
    if n > 0 {
      IterateKeeps(inv, step, s, n - 1);
    }
  }

  /** The same with an invariant that knows the round. */
  lemma {:induction false} IterateReaches<S(!new), E(!new)>(inv: (nat, S) -> bool, step: (S, nat) -> Result<S, E>, s: S, n: nat)
    requires inv(0, s)
    requires forall k: nat, c | k < n && inv(k, c) && step(c, k).Ok? :: inv(k + 1, step(c, k).value)
    ensures Iterate(step, s, n).Ok? ==> inv(n, Iterate(step, s, n).value)
  {
    if n > 0 {
      IterateReaches(inv, step, s, n - 1);
    }
  }

  /** ok holds in each of the first n rounds that the loop comes to. */
  ghost predicate InTurn<S(!new), E(!new)>(ok: (nat, S) -> bool, step: (S, nat) -> Result<S, E>, s: S, n: nat) {
    forall k: nat | k < n && Iterate(step, s, k).Ok? :: ok(k, Iterate(step, s, k).value)
  }

  /** When ok says which rounds succeed, the loop gets through exactly if it holds in every round that is reached. */
  lemma {:induction false} IterateOkIff<S(!new), E(!new)>(inv: S -> bool, ok: (nat, S) -> bool, step: (S, nat) -> Result<S, E>,
                          s: S, n: nat)
    requires inv(s)
    requires forall k: nat, c | k < n && inv(c) :: (step(c, k).Ok? <==> ok(k, c)) && (step(c, k).Ok? ==> inv(step(c, k).value))
    ensures Iterate(step, s, n).Ok? <==> InTurn(ok, step, s, n)
  {
    if n > 0 {
      IterateOkIff(inv, ok, step, s, n - 1);
      IterateKeeps(inv, step, s, n - 1);
    }
  }

  /** Two steps agree at k when they fail alike or lead to related values. */
  ghost predicate StepsAgree<S, E>(rel: (nat, S, S) -> bool, f: (S, nat) -> Result<S, E>, g: (S, nat) -> Result<S, E>,
                                   k: nat, a: S, b: S) {
    match (f(a, k), g(b, k))
    case (Ok(a'), Ok(b')) => rel(k + 1, a', b')
    case (Err(x), Err(y)) => x == y
    case _ => false
  }

  lemma {:induction false} IterateRelated<S(!new), E(!new)>(rel: (nat, S, S) -> bool, f: (S, nat) -> Result<S, E>,
                           g: (S, nat) -> Result<S, E>, s: S, t: S, n: nat)
    requires rel(0, s, t)
    requires forall k: nat, a, b | k < n && rel(k, a, b) :: StepsAgree(rel, f, g, k, a, b)
    ensures Iterate(f, s, n).Ok? <==> Iterate(g, t, n).Ok?
    ensures Iterate(f, s, n).Ok? ==> rel(n, Iterate(f, s, n).value, Iterate(g, t, n).value)
    ensures Iterate(f, s, n).Err? ==> Iterate(f, s, n).error == Iterate(g, t, n).error
  {
    if n > 0 {
      IterateRelated(rel, f, g, s, t, n - 1);
      if Iterate(f, s, n - 1).Ok? {
        assert StepsAgree(rel, f, g, n - 1, Iterate(f, s, n - 1).value, Iterate(g, t, n - 1).value);
      }
    }
  }
}
