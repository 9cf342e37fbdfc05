/**
 * Draining listeners: a drained UDP listener keeps its socket for its sessions until it stops, and is forgotten
 * after that. Every socket the agent holds is one that it serves or that is draining, and none is both.
 */
module Drains {
  import opened Common
  import opened Desired
  import opened Runtime
  import opened ApplyFacts
  import opened Apply

  /** Connections may still read the settings of a listener that drains. */
  predicate IsRunning(a: State, l: Listener) {
    l in a.listeners.Values || l in a.draining
  }

  predicate KeepsSocket(l: Listener) {
    l.stage == Draining && SocketOf(l).network == Udp
  }

  /** A draining listener still has this socket. */
  ghost predicate DrainsOn(a: State, s: Bind) {
    exists l :: l in a.draining && KeepsSocket(l) && SocketOf(l) == s
  }

  predicate DrainOk(a: State, l: Listener) {
    && (l.stage == Draining || l.stage == Stopped) && l.id < a.at.listener && l.generation <= a.at.generation
    && forall t | t in l.timers :: t < l.generation
  }

  /** Two draining listeners differ in identity, and in the socket they keep. */
  predicate DrainsApart(l: Listener, m: Listener) {
    l.id == m.id || (KeepsSocket(l) && KeepsSocket(m) && SocketOf(l) == SocketOf(m)) ==> l == m
  }

  predicate NotRunning(a: State, l: Listener, k: Key) {
    k in a.listeners ==> a.listeners[k].id != l.id
  }

  /** The socket is held exactly if it is served or draining, and never both. */
  ghost predicate SocketOk(a: State, s: Bind) {
    (s in a.held <==> Serving(a, s) || DrainsOn(a, s)) && !(Serving(a, s) && DrainsOn(a, s))
  }

  ghost predicate DrainsOk(a: State) {
    && (forall l | l in a.draining :: DrainOk(a, l))
    && (forall l, m | l in a.draining && m in a.draining :: DrainsApart(l, m))
    && (forall l, k | l in a.draining :: NotRunning(a, l, k))
    && forall s :: SocketOk(a, s)
  }

  ghost predicate RuntimeOk(a: State) {
    StateOk(a) && DrainsOk(a)
  }

  lemma NewRuntimeOk()
    ensures RuntimeOk(NOTHING_RUNS)
  {
  }

  // ---- applying ----

  lemma ServesWanted(b: State, want: Listening, s: Bind)
    requires b.listeners.Keys == want.Keys && forall k | k in want :: b.listeners[k].cfg.want == want[k]
    ensures Serving(b, s) <==> Wants(want, s)
  {
    if k :| k in want && BindOf(want[k]) == s {
      assert SocketOf(b.listeners[k]) == s;
    }
    if k :| k in b.listeners && SocketOf(b.listeners[k]) == s {
      assert BindOf(want[k]) == s;
    }
  }

  lemma DrainsAfter(a: State, b: State, want: Listening, s: Bind)
    requires Leaves(a, b, want)
    ensures DrainsOn(b, s) <==> DrainsOn(a, s) || (Serving(a, s) && !Wants(want, s) && s.network == Udp)
  {
    if Serving(a, s) && !Wants(want, s) && s.network == Udp {
      var j :| j in a.listeners && SocketOf(a.listeners[j]) == s;
      assert Leaving(a, want, Drained(a.listeners[j]));
      assert Drained(a.listeners[j]) in b.draining;
    }
    if DrainsOn(a, s) {
      var l :| l in a.draining && KeepsSocket(l) && SocketOf(l) == s;
      assert l in b.draining;
    }
  }

  lemma AppliedSocket(a: State, b: State, want: Listening, grants: set<Bind>, s: Bind)
    requires SocketOk(a, s) && Applicable(a, want, grants) && Leaves(a, b, want)
    requires b.listeners.Keys == want.Keys && forall k | k in want :: b.listeners[k].cfg.want == want[k]
    ensures SocketOk(b, s)
  {
    ServesWanted(b, want, s);
    DrainsAfter(a, b, want, s);
    if Wants(want, s) {
      var k :| k in want && BindOf(want[k]) == s;
    }
  }

  /** A listener that drains after an apply drained before, or ran on a socket nobody wants any more. */
  lemma DrainCameFrom(a: State, b: State, want: Listening, l: Listener) returns (j: Key)
    requires StateOk(a) && Leaves(a, b, want) && l in b.draining && l !in a.draining
    ensures j in a.listeners && l == Drained(a.listeners[j]) && !Wants(want, SocketOf(l)) && ListenerOk(a, j, a.listeners[j])
  {
    j :| j in a.listeners && !Wants(want, SocketOf(a.listeners[j])) && l == Drained(a.listeners[j]);
  }

  lemma AppliedDrain(a: State, b: State, want: Listening, l: Listener)
    requires RuntimeOk(a) && AppliedTo(a, b, want) && l in b.draining
    ensures DrainOk(b, l)
  {
    if l in a.draining {
      assert DrainOk(a, l);
    } else {
      var j := DrainCameFrom(a, b, want, l);
    }
  }

  lemma AppliedApart(a: State, b: State, want: Listening, l: Listener, m: Listener)
    requires RuntimeOk(a) && Leaves(a, b, want) && l in b.draining && m in b.draining
    ensures DrainsApart(l, m)
  {
    if l in a.draining && m in a.draining {
      assert DrainsApart(l, m);
    } else if l in a.draining {
      var j := DrainCameFrom(a, b, want, m);
      assert NotRunning(a, l, j) && SocketOk(a, SocketOf(m));
    } else if m in a.draining {
      var j := DrainCameFrom(a, b, want, l);
      assert NotRunning(a, m, j) && SocketOk(a, SocketOf(l));
    } else {
      var i := DrainCameFrom(a, b, want, l);
      var j := DrainCameFrom(a, b, want, m);
      assert Apart(a.listeners, i, j);
    }
  }

  lemma AppliedNotRunning(a: State, b: State, want: Listening, l: Listener, k: Key)
    requires RuntimeOk(a) && AppliedTo(a, b, want) && l in b.draining
    ensures NotRunning(b, l, k)
  {
    if k in b.listeners {
      AppliedIdentity(a, b, want, l, k);
    }
  }

  lemma AppliedIdentity(a: State, b: State, want: Listening, l: Listener, k: Key)
    requires RuntimeOk(a) && Leaves(a, b, want) && l in b.draining && k in want && k in b.listeners
    requires ServedAs(a, b, want[k], b.listeners[k])
    ensures b.listeners[k].id != l.id
  {
    var i: Option<Key> := None;
    if l in a.draining {
      assert DrainOk(a, l);
    } else {
      var j := DrainCameFrom(a, b, want, l);
      i := Some(j);
    }
    if Serving(a, BindOf(want[k])) {
      var j :| j in a.listeners && SocketOf(a.listeners[j]) == BindOf(want[k]);
      if i.Some? {
        assert Wants(want, BindOf(want[k])) && Apart(a.listeners, i.value, j);
      } else {
        assert NotRunning(a, l, j);
      }
    }
  }

  /** A successful apply keeps all of it. */
  lemma AppliedDrains(a: State, b: State, want: Listening, grants: set<Bind>)
    requires RuntimeOk(a) && Applicable(a, want, grants) && AppliedTo(a, b, want)
    ensures DrainsOk(b)
  {
    forall l | l in b.draining ensures DrainOk(b, l) {
      AppliedDrain(a, b, want, l);
    }
    forall l, m | l in b.draining && m in b.draining ensures DrainsApart(l, m) {
      AppliedApart(a, b, want, l, m);
    }
    forall l, k | l in b.draining ensures NotRunning(b, l, k) {
      AppliedNotRunning(a, b, want, l, k);
    }
    forall k | k in want ensures b.listeners[k].cfg.want == want[k] {
      assert ServedAs(a, b, want[k], b.listeners[k]);
    }
    forall s ensures SocketOk(b, s) {
      AppliedSocket(a, b, want, grants, s);
    }
  }

  lemma UnaffectedOk(a: State, b: State)
    requires RuntimeOk(a) && Unaffected(a, b)
    ensures RuntimeOk(b)
  {
    forall k | k in b.listeners ensures ListenerOk(b, k, b.listeners[k]) {
      assert ListenerOk(a, k, a.listeners[k]);
    }
    forall l | l in b.draining ensures DrainOk(b, l) {
      assert DrainOk(a, l);
    }
    forall l, k | l in b.draining ensures NotRunning(b, l, k) {
      assert NotRunning(a, l, k);
    }
    forall s ensures SocketOk(b, s) {
      assert SocketOk(a, s);
      SameSockets(a, b, s);
    }
  }

  lemma SameSockets(a: State, b: State, s: Bind)
    requires b.listeners == a.listeners && b.draining == a.draining
    ensures (Serving(b, s) <==> Serving(a, s)) && (DrainsOn(b, s) <==> DrainsOn(a, s))
  {
  }

  /** What one call of Apply makes of a sound state. */
  ghost predicate Reapplied(a: State, b: State, c: AgentConfig) {
    RuntimeOk(b) && (Unaffected(a, b) || (DesiredOf(c).Ok? && AppliedTo(a, b, DesiredOf(c).value)))
  }

  lemma ApplyKeepsOk(a: State, byBind: Index, c: AgentConfig, grants: set<Bind>, order: seq<Key>, b: State)
    requires RuntimeOk(a) && IsIndex(a.listeners, byBind) && (DesiredOf(c).Ok? ==> IsOrder(order, DesiredOf(c).value))
    requires b == ApplyIn(a, byBind, c, grants, order).0
    ensures Reapplied(a, b, c)
    ensures ApplyIn(a, byBind, c, grants, order).1.None? ==> DesiredOf(c).Ok? && AppliedTo(a, b, DesiredOf(c).value)
    ensures ApplyIn(a, byBind, c, grants, order).1.Some? ==> Unaffected(a, b)
  {
    ApplyAccepts(a, byBind, c, grants, order);
    if ApplyIn(a, byBind, c, grants, order).1.None? {
      ApplySucceeds(a, byBind, c, grants, order, b);
      AppliedDrains(a, b, DesiredOf(c).value, grants);
    } else {
      ApplyRefuses(a, byBind, c, grants, order);
      UnaffectedOk(a, b);
    }
  }

  // ---- the end of a drain ----

  lemma StoppedDrains(a: State, l: Listener, s: Bind)
    requires DrainsOk(a) && l in a.draining && l.stage == Draining
    ensures DrainsOn(DrainStopped(a, l), s) <==> DrainsOn(a, s) && !(KeepsSocket(l) && SocketOf(l) == s)
  {
    var b := DrainStopped(a, l);
    if m :| m in a.draining && KeepsSocket(m) && SocketOf(m) == s {
      assert DrainsApart(l, m);
      if m != l {
        assert m in b.draining;
      }
    }
    if DrainsOn(b, s) {
      var m :| m in b.draining && KeepsSocket(m) && SocketOf(m) == s;
      assert m in a.draining && m != l && DrainsApart(l, m);
    }
  }

  lemma StoppedSocket(a: State, l: Listener, s: Bind)
    requires DrainsOk(a) && l in a.draining && l.stage == Draining
    ensures SocketOk(DrainStopped(a, l), s)
  {
    assert SocketOk(a, s);
    StoppedDrains(a, l, s);
    assert Serving(DrainStopped(a, l), s) <==> Serving(a, s);
    if KeepsSocket(l) {
      assert DrainsOn(a, SocketOf(l)) && SocketOk(a, SocketOf(l));
    }
  }

  lemma StoppedApart(a: State, l: Listener, m: Listener, n: Listener)
    requires DrainsOk(a) && l in a.draining && l.stage == Draining
    requires m in DrainStopped(a, l).draining && n in DrainStopped(a, l).draining
    ensures DrainsApart(m, n)
  {
    var x := if m == l.(stage := Stopped) then l else m;
    var y := if n == l.(stage := Stopped) then l else n;
    assert x in a.draining && y in a.draining ==> DrainsApart(x, y);
    if m == l.(stage := Stopped) && n != m && n in a.draining {
      assert DrainsApart(l, n);
    }
    if n == l.(stage := Stopped) && n != m && m in a.draining {
      assert DrainsApart(l, m);
    }
  }

  /** Stopping a drained listener takes no socket from a running one. */
  lemma StoppedOk(a: State, l: Listener)
    requires RuntimeOk(a)
    ensures RuntimeOk(DrainStopped(a, l))
    ensures l in a.draining && l.stage != Stopped ==>
              DrainStopped(a, l) == a.(draining := a.draining - {l} + {l.(stage := Stopped)}, held := DrainStopped(a, l).held)
              && DrainStopped(a, l).held == a.held - (if l.cfg.want.network == Udp then {SocketOf(l)} else {})
    ensures l !in a.draining || l.stage == Stopped ==> DrainStopped(a, l) == a
  {
    var b := DrainStopped(a, l);
    if b != a {
      assert l.stage == Draining by {
        assert DrainOk(a, l);
      }
      forall k | k in b.listeners ensures ListenerOk(b, k, b.listeners[k]) {
        assert ListenerOk(a, k, a.listeners[k]);
        assert Serving(a, SocketOf(a.listeners[k])) && SocketOk(a, SocketOf(a.listeners[k]));
      }
      forall m | m in b.draining ensures DrainOk(b, m) {
        assert DrainOk(a, if m == l.(stage := Stopped) then l else m);
      }
      forall m, n | m in b.draining && n in b.draining ensures DrainsApart(m, n) {
        StoppedApart(a, l, m, n);
      }
      forall m, k | m in b.draining ensures NotRunning(b, m, k) {
        assert NotRunning(a, if m == l.(stage := Stopped) then l else m, k);
      }
      forall s ensures SocketOk(b, s) {
        StoppedSocket(a, l, s);
      }
    }
  }

  /** A drain timer of a draining UDP listener is used up. */
  function DrainTimerGone(a: State, l: Listener, generation: nat): State {
    if l in a.draining then a.(draining := a.draining - {l} + {l.(timers := l.timers - {generation})}) else a
  }

  lemma TimerGoneSocket(a: State, l: Listener, g: nat, s: Bind)
    requires SocketOk(a, s) && l in a.draining
    ensures SocketOk(DrainTimerGone(a, l, g), s)
  {
    var b := DrainTimerGone(a, l, g);
    var x := l.(timers := l.timers - {g});
    assert Serving(b, s) <==> Serving(a, s);
    if m :| m in a.draining && KeepsSocket(m) && SocketOf(m) == s {
      assert (if m == l then x else m) in b.draining;
    }
    if m :| m in b.draining && KeepsSocket(m) && SocketOf(m) == s {
      assert (if m == x then l else m) in a.draining;
    }
  }

  lemma TimerGoneApart(a: State, l: Listener, g: nat, m: Listener, n: Listener)
    requires DrainsOk(a) && l in a.draining && m in DrainTimerGone(a, l, g).draining && n in DrainTimerGone(a, l, g).draining
    ensures DrainsApart(m, n)
  {
    var x := l.(timers := l.timers - {g});
    var i, j := (if m == x then l else m), (if n == x then l else n);
    assert i in a.draining && j in a.draining && DrainsApart(i, j);
  }

  lemma TimerGoneOk(a: State, l: Listener, g: nat)
    requires RuntimeOk(a)
    ensures RuntimeOk(DrainTimerGone(a, l, g))
  {
    var b := DrainTimerGone(a, l, g);
    var x := l.(timers := l.timers - {g});
    if l in a.draining {
      forall k | k in b.listeners ensures ListenerOk(b, k, b.listeners[k]) {
        assert ListenerOk(a, k, a.listeners[k]);
      }
      forall m | m in b.draining ensures DrainOk(b, m) {
        assert DrainOk(a, if m == x then l else m);
      }
      forall m, n | m in b.draining && n in b.draining ensures DrainsApart(m, n) {
        TimerGoneApart(a, l, g, m, n);
      }
      forall m, k | m in b.draining ensures NotRunning(b, m, k) {
        assert NotRunning(a, if m == x then l else m, k);
      }
      forall s ensures SocketOk(b, s) {
        assert SocketOk(a, s);
        TimerGoneSocket(a, l, g, s);
      }
    }
  }

  lemma ForgottenSocket(a: State, b: State, l: Listener, s: Bind)
    requires SocketOk(a, s) && l.stage == Stopped && b == a.(draining := a.draining - {l})
    ensures SocketOk(b, s)
  {
    assert Serving(b, s) <==> Serving(a, s);
    if DrainsOn(a, s) {
      var m :| m in a.draining && KeepsSocket(m) && SocketOf(m) == s;
      assert m in b.draining;
    }
  }

  lemma ForgottenDrains(a: State, b: State, l: Listener)
    requires DrainsOk(a) && l.stage == Stopped && b == a.(draining := a.draining - {l})
    ensures DrainsOk(b)
  {
    forall m | m in b.draining ensures DrainOk(b, m) {
      assert DrainOk(a, m);
    }
    forall m, k | m in b.draining ensures NotRunning(b, m, k) {
      assert NotRunning(a, m, k);
    }
    forall s ensures SocketOk(b, s) {
      ForgottenSocket(a, b, l, s);
    }
  }

  lemma ForgottenOk(a: State, l: Listener)
    requires RuntimeOk(a)
    ensures RuntimeOk(DrainForgotten(a, l))
    ensures l in a.draining && l.stage == Stopped ==> DrainForgotten(a, l) == a.(draining := a.draining - {l})
    ensures l !in a.draining || l.stage != Stopped ==> DrainForgotten(a, l) == a
  {
    var b := DrainForgotten(a, l);
    if b != a {
      ForgottenDrains(a, b, l);
      forall k | k in b.listeners ensures ListenerOk(b, k, b.listeners[k]) {
        assert ListenerOk(a, k, a.listeners[k]);
      }
    }
  }

  /** Timers of a running listener are used up too. */
  lemma FewerTimersOk(a: State, b: State, k: Key, l: Listener)
    requires RuntimeOk(a) && k in a.listeners && b == a.(listeners := a.listeners[k := l])
    requires l == a.listeners[k].(timers := l.timers) && l.timers <= a.listeners[k].timers
    ensures RuntimeOk(b)
  {
    forall j | j in b.listeners ensures ListenerOk(b, j, b.listeners[j]) {
      assert ListenerOk(a, j, a.listeners[j]);
    }
    forall i, j ensures Apart(b.listeners, i, j) {
      assert Apart(a.listeners, i, j);
    }
    forall m | m in b.draining ensures DrainOk(b, m) {
      assert DrainOk(a, m);
    }
    forall m, j | m in b.draining ensures NotRunning(b, m, j) {
      assert NotRunning(a, m, j);
    }
    forall s ensures SocketOk(b, s) {
      assert SocketOk(a, s);
      FewerTimersServe(a, b, k, l, s);
    }
  }

  lemma FewerTimersServe(a: State, b: State, k: Key, l: Listener, s: Bind)
    requires k in a.listeners && b == a.(listeners := a.listeners[k := l]) && l == a.listeners[k].(timers := l.timers)
    ensures (Serving(b, s) <==> Serving(a, s)) && (DrainsOn(b, s) <==> DrainsOn(a, s))
  {
    if j :| j in a.listeners && SocketOf(a.listeners[j]) == s {
      assert j in b.listeners && SocketOf(b.listeners[j]) == s;
    }
    if j :| j in b.listeners && SocketOf(b.listeners[j]) == s {
      assert j in a.listeners && SocketOf(a.listeners[j]) == s;
    }
  }

  // ---- what that is for ----

  /** A socket nobody wants is back once its drain has stopped. */
  lemma DrainedSocketIsFree(a: State, l: Listener)
    requires RuntimeOk(a) && l in a.draining && KeepsSocket(l)
    ensures SocketOf(l) in a.held && SocketOf(l) !in DrainStopped(a, l).held
  {
    assert DrainsOn(a, SocketOf(l)) && SocketOk(a, SocketOf(l));
  }

  /**
   * Once every drain has stopped, what can be applied depends on the system alone: each socket must be one the
   * agent serves or one it is granted. An agent that serves nothing can then come back with any configuration.
   */
  lemma NothingLeaks(a: State, want: Listening, grants: set<Bind>)
    requires RuntimeOk(a) && forall l | l in a.draining :: !KeepsSocket(l)
    ensures forall s :: s in a.held <==> Serving(a, s)
    ensures Applicable(a, want, grants) <==>
              OwnSockets(want) && forall k | k in want :: Serving(a, BindOf(want[k])) || BindOf(want[k]) in grants
    ensures a.listeners == map[] ==> a.held == {}
  {
    forall s ensures s in a.held <==> Serving(a, s) {
      assert SocketOk(a, s);
    }
  }
}
