/** Listeners and the runtime as the objects of runtime.go, with its loops; proved to compute Runtime's functions. */
module AgentRuntime {
  import opened Common
  import opened Desired
  import opened Trackers
  import opened Runtime
  import opened RuntimeFacts
  import opened ApplyFacts
  import opened Apply
  import opened LimitFacts
  import opened Drains

  /** A listener on its own: ruleListener and udpListener have the same update. */
  class ManagedListener {
    const id: nat
    var cfg: Config
    var generation: nat
    var stage: Stage
    var timers: set<nat>

    function View(): Listener
      reads this
    {
      Listener(id, cfg, generation, stage, timers)
    }

    constructor (id: nat, cfg: Config, generation: nat)
      ensures View() == Listener(id, cfg, generation, Warming, {})
    {
      this.id, this.cfg, this.generation, stage, timers := id, cfg, generation, Warming, {};
    }

    method Update(cfg: Config, nextGeneration: nat) returns (next: nat)
      modifies this
      ensures View() == Updated(old(View()), cfg, nextGeneration + 1)
      ensures next == if old(this.cfg.want) == cfg.want then nextGeneration else nextGeneration + 1
    {
      var was, wasGeneration := this.cfg, generation;
      next := nextGeneration;
      if was.want != cfg.want {
        next := nextGeneration + 1;
        generation := next;
      }
      this.cfg := cfg;
      if was.want != cfg.want {
        timers := timers + {wasGeneration};
      }
    }

    method Activate()
      modifies this`stage
      ensures View() == Activated(old(View()))
    {
      if stage == Warming {
        stage := Active;
      }
    }
  }

  // ---- orders of a loop that may stop early ----

  lemma SomeOrder(keys: set<Key>) returns (order: seq<Key>)
    ensures NoRepeats(order) && (forall k :: k in order <==> k in keys) && (keys == {} ==> order == [])
  {
    if keys == {} {
      order := [];
    } else {
      var k :| k in keys;
      var rest := SomeOrder(keys - {k});
      order := [k] + rest;
      forall i, j | 0 <= i < j < |order| ensures order[i] != order[j] {
        assert order[j] == rest[j - 1] && rest[j - 1] in rest;
        if i > 0 {
          assert order[i] == rest[i - 1];
        }
      }
    }
  }

  lemma NotVisited(a: State, byBind: Index, grants: set<Bind>, want: Listening, order: seq<Key>, k: Key)
    requires k in want && (forall j | j in order :: j in want) && StageKeys(a, byBind, grants, want, order).error.Some?
    ensures StageKeys(a, byBind, grants, want, order + [k]) == StageKeys(a, byBind, grants, want, order)
  {
    assert (order + [k])[..|order|] == order;
  }

  /** Keys after a failure are not visited. */
  lemma {:induction false} AfterFailure(a: State, byBind: Index, grants: set<Bind>, want: Listening, order: seq<Key>, rest: seq<Key>, st: Staging)
    requires (forall k | k in order :: k in want) && forall k | k in rest :: k in want
    requires StageKeys(a, byBind, grants, want, order) == st && (rest == [] || st.error.Some?)
    ensures StageKeys(a, byBind, grants, want, order + rest) == st
    decreases |rest|
  {
    if rest == [] {
      assert order + rest == order;
    } else {
      NotVisited(a, byBind, grants, want, order, rest[0]);
      assert order + rest == order + [rest[0]] + rest[1..];
      AfterFailure(a, byBind, grants, want, order + [rest[0]], rest[1..], st);
    }
  }

  lemma OrdersJoin(order: seq<Key>, rest: seq<Key>)
    requires NoRepeats(order) && NoRepeats(rest) && forall k | k in order :: k !in rest
    ensures NoRepeats(order + rest)
  {
    var all := order + rest;
    forall i, j | 0 <= i < j < |all| ensures all[i] != all[j] {
      if i < |order| <= j {
        assert all[i] in order && all[j] in rest;
      }
    }
  }

  class AgentRuntime {
    var listeners: Listeners
    var draining: set<Listener>
    var trackers: TrackerTable
    var tenantTrackers: TrackerTable
    var held: set<Bind>
    var at: Counters
    var closed: bool
    var running: bool
    var status: Status
    var revision: int

    function View(): State
      reads this
    {
      State(listeners, draining, trackers, tenantTrackers, held, at, closed, running, status, revision)
    }

    constructor ()
      ensures View() == NOTHING_RUNS && RuntimeOk(View())
    {
      listeners, draining, trackers, tenantTrackers, held := map[], {}, map[], map[], {};
      at, closed, running, status, revision := Counters(0, 0, 0), false, false, NeverApplied, 0;
    }

    method CurrentByBind() returns (byBind: Index)
      requires StateOk(View())
      ensures IsIndex(listeners, byBind)
    {
      byBind := map[];
      var todo := listeners.Keys;
      while todo != {}
        invariant todo <= listeners.Keys
        invariant forall k | k in listeners && k !in todo ::
                    SocketOf(listeners[k]) in byBind && byBind[SocketOf(listeners[k])] == listeners[k]
        invariant forall b | b in byBind :: SocketOf(byBind[b]) == b && exists k :: k in listeners && listeners[k] == byBind[b]
        decreases todo
      {
        var k :| k in todo;
        byBind := byBind[SocketOf(listeners[k]) := listeners[k]];
        todo := todo - {k};
        forall j | j in listeners && j !in todo
          ensures SocketOf(listeners[j]) in byBind && byBind[SocketOf(listeners[j])] == listeners[j]
        {
          assert Apart(listeners, j, k);
        }
      }
    }

    method PickTracker(existing: TrackerTable, chosen: TrackerTable, owner: nat, limit: Limit, next: nat)
      returns (now: TrackerTable, after: nat)
      ensures now == WithTracker(existing, chosen, owner, limit, next) && after == AfterTracker(existing, chosen, owner, limit, next)
    {
      now, after := chosen, next;
      if owner !in chosen {
        if owner in existing && existing[owner].limit == limit {
          now := now[owner := existing[owner]];
        } else {
          now := now[owner := TrackerRef(next, limit)];
          after := next + 1;
        }
      }
    }

    method PickTrackers(pi: Picks, k: Key, w: Wanted) returns (now: Picks)
      ensures now == PickFor(View(), pi, k, w)
    {
      var chosen, next := PickTracker(trackers, pi.trackers, w.rule.id, w.limit, pi.next);
      var tenants := pi.tenants;
      if w.rule.tenant.Some? && w.rule.tenant.value > 0 && !IsEmpty(w.tenantLimit) {
        tenants, next := PickTracker(tenantTrackers, tenants, w.rule.tenant.value, w.tenantLimit, next);
      }
      now := Picks(chosen, tenants, pi.configs[k := ConfigFor(w, chosen, tenants)], next);
    }

    /** The listener for one key: reuse the one on the wanted socket, or open the socket. */
    method StageSocket(so: Sockets, k: Key, cfg: Config, byBind: Index, grants: set<Bind>)
      returns (error: Option<ApplyError>, now: Sockets)
      ensures error == Failure(View(), byBind, grants, so, k, BindOf(cfg.want))
      ensures error.None? ==> now == SocketFor(View(), byBind, so, k, cfg)
      ensures error.Some? ==> now == if error.value.OpenFailed? then so.(generation := so.generation + 1) else so
    {
      var bind := BindOf(cfg.want);
      var existing: Option<Listener> := None;
      if k in listeners && SocketOf(listeners[k]) == bind {
        existing := Some(listeners[k]);
      } else if bind in byBind {
        existing := Some(byBind[bind]);
      }
      if existing.Some? {
        var l := existing.value;
        if l.id in so.reused {
          return Some(SameListener(bind)), so;
        }
        now := so.(updates := so.updates + [Update(k, l, cfg)], next := so.next[k := l], reused := so.reused + {l.id});
        return None, now;
      }
      now := so.(generation := so.generation + 1);
      if bind !in grants || bind in held || bind in so.sockets {
        return Some(OpenFailed(bind)), now;
      }
      now := now.(started := so.started + [k], next := so.next[k := Listener(so.listener, cfg, now.generation, Warming, {})],
                  sockets := so.sockets + {bind}, listener := so.listener + 1);
      return None, now;
    }

    /** One round of the loop over desired. */
    method StageOne(st: Staging, k: Key, w: Wanted, byBind: Index, grants: set<Bind>) returns (now: Staging)
      ensures now == Round(View(), byBind, grants, st, k, w)
    {
      var pi := PickTrackers(st.pi, k, w);
      var error, so := StageSocket(st.so, k, pi.configs[k], byBind, grants);
      now := Staging(so, pi, error);
    }

    /** The loop over desired; Go's map order is whatever the loop happens to pick. */
    method StageAll(want: Listening, byBind: Index, grants: set<Bind>) returns (st: Staging, ghost order: seq<Key>)
      ensures IsOrder(order, want) && st == StageKeys(View(), byBind, grants, want, order)
    {
      st, order := NothingStaged(View()), [];
      var todo := want.Keys;
      while todo != {} && st.error.None?
        invariant todo <= want.Keys && (forall k :: k in order <==> k in want && k !in todo)
        invariant NoRepeats(order) && st == StageKeys(View(), byBind, grants, want, order)
        decreases todo
      {
        var k :| k in todo;
        st := StageOne(st, k, want[k], byBind, grants);
        todo := todo - {k};
        assert (order + [k])[..|order|] == order;
        OrdersJoin(order, [k]);
        order := order + [k];
      }
      ghost var rest := SomeOrder(todo);
      AfterFailure(View(), byBind, grants, want, order, rest, st);
      OrdersJoin(order, rest);
      order := order + rest;
    }

    /** Updates of the reused listeners, in the order they were staged. */
    method UpdateAll(so: Sockets) returns (next: Listeners, generation: nat)
      ensures (next, generation) == Retuned(so, |so.updates|)
    {
      next, generation := so.next, so.generation;
      for n := 0 to |so.updates|
        invariant (next, generation) == Retuned(so, n)
      {
        var u := so.updates[n];
        var l := u.listener;
        if l.cfg.want != u.cfg.want {
          generation := generation + 1;
          l := l.(generation := generation, timers := l.timers + {l.generation});
        }
        next := next[u.key := l.(cfg := u.cfg)];
      }
    }

    method DrainUnused(current: Listeners, reused: set<nat>) returns (drained: set<Listener>, freed: set<Bind>)
      ensures drained == AllDrained(Unused(current, reused)) && freed == ClosedBy(Unused(current, reused))
    {
      drained, freed := {}, {};
      var todo := current.Keys;
      while todo != {}
        invariant todo <= current.Keys
        invariant drained == set k | k in current && k !in todo && current[k].id !in reused :: Drained(current[k])
        invariant freed == set k | k in current && k !in todo && current[k].id !in reused && SocketOf(current[k]).network == Tcp :: SocketOf(current[k])
        decreases todo
      {
        var k :| k in todo;
        var l := current[k];
        if l.id !in reused {
          drained := drained + {Drained(l)};
          if SocketOf(l).network == Tcp {
            freed := freed + {SocketOf(l)};
          }
        }
        todo := todo - {k};
      }
    }

    method SetApplyResult(revision: int, status: Status)
      modifies this`status, this`revision
      ensures View() == old(View()).(status := status, revision := revision)
    {
      this.status, this.revision := status, revision;
    }

    /** What was started is stopped again: its sockets close. */
    method RollBack(so: Sockets)
      modifies this`held, this`at
      ensures View() == RolledBack(old(View()), so)
    {
      held := held + so.sockets - so.sockets;
      at := at.(generation := so.generation, listener := so.listener);
    }

    method Commit(st: Staging, revision: int)
      modifies this
      ensures View() == Committed(old(View()), st, revision)
    {
      var drained, freed := DrainUnused(listeners, st.so.reused);
      var next, generation := UpdateAll(st.so);
      listeners := ActivatedAll(next);
      trackers, tenantTrackers := st.pi.trackers, st.pi.tenants;
      running := true;
      at := Counters(generation, st.so.listener, st.pi.next);
      draining := draining + drained;
      held := held + st.so.sockets - freed;
      SetApplyResult(revision, Applied);
    }

    /** All or nothing, whatever order the loop takes. */
    method Apply(c: AgentConfig, grants: set<Bind>) returns (error: Option<ApplyError>)
      requires RuntimeOk(View())
      modifies this
      ensures RuntimeOk(View())
      ensures error.None? <==> DesiredOf(c).Ok? && !old(closed) && Applicable(old(View()), DesiredOf(c).value, grants)
      ensures error.None? ==> AppliedTo(old(View()), View(), DesiredOf(c).value) && revision == c.revision
      ensures error.None? && UniqueIds(c) ==> LimitsMatch(View())
      ensures error.Some? ==> Unaffected(old(View()), View())
      ensures error.Some? ==>
                match error.value
                case MissingTunnel(id) => DesiredOf(c) == Err(id)
                case RuntimeStopped => old(closed)
                case e => DesiredOf(c).Ok? && Truthful(old(View()), grants, DesiredOf(c).value, e)
      ensures error.Some? ==> if DesiredOf(c).Ok? && old(closed) then View() == old(View()) else status == Rejected && revision == c.revision
    {
      ghost var a := View();
      var desired := DesiredListeners(c);
      if desired.Err? {
        SetApplyResult(c.revision, Rejected);
        UnaffectedOk(a, View());
        return Some(MissingTunnel(desired.error));
      }
      if closed {
        return Some(RuntimeStopped);
      }
      var byBind := CurrentByBind();
      var st, order := StageAll(desired.value, byBind, grants);
      ApplyAccepts(a, byBind, c, grants, order);
      if st.error.Some? {
        RollBack(st.so);
        SetApplyResult(c.revision, Rejected);
        ApplyReason(a, byBind, c, grants, order);
        ApplyRefuses(a, byBind, c, grants, order);
        UnaffectedOk(a, View());
        return st.error;
      }
      Commit(st, c.revision);
      ApplySucceeds(a, byBind, c, grants, order, View());
      AppliedDrains(a, View(), desired.value, grants);
      if UniqueIds(c) {
        AppliedLimits(a, byBind, c, grants, order, View());
      }
      return None;
    }

    /** The goroutine that drains l ends the drain: no session is left, or its time is up. */
    method StopDraining(l: Listener)
      requires RuntimeOk(View())
      modifies this`draining, this`held
      ensures View() == DrainStopped(old(View()), l) && RuntimeOk(View())
    {
      StoppedOk(View(), l);
      if l !in draining || l.stage == Stopped {
        return;
      }
      if SocketOf(l).network == Udp {
        held := held - {SocketOf(l)};
      }
      draining := draining - {l} + {l.(stage := Stopped)};
    }

    /** Apply's goroutine for l has seen its drain end. */
    method ForgetDrained(l: Listener)
      requires RuntimeOk(View())
      modifies this`draining
      ensures View() == DrainForgotten(old(View()), l) && RuntimeOk(View())
    {
      ForgottenOk(View(), l);
      if l in draining && l.stage == Stopped {
        draining := draining - {l};
      }
    }

    method Stop()
      modifies this
      ensures View() == Stopping(old(View()))
      ensures closed && (old(closed) ==> View() == old(View()))
      ensures !old(closed) ==> listeners == map[] && draining == {} && trackers == map[] && tenantTrackers == map[] && held == {} && !running
      ensures old(RuntimeOk(View())) ==> RuntimeOk(View())
    {
      if closed {
        return;
      }
      closed, running := true, false;
      listeners, draining, trackers, tenantTrackers, held := map[], {}, map[], map[], {};
    }
  }
}
