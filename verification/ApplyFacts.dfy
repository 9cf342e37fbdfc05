/** Apply as a whole: accepted exactly when everything can be served, and then all of it, else nothing. */
module ApplyFacts {
  import opened Desired
  import opened Runtime
  import opened RuntimeFacts

  // ---- commit: the updates, whatever their order ----

  /** after is before with cfg, its generation changed only if the fingerprint changed, and then to a new one. */
  predicate Tuned(before: Listener, after: Listener, cfg: Config, from: nat, to: nat) {
    && after.id == before.id && after.cfg == cfg && after.stage == before.stage
    && if before.cfg.want == cfg.want then after.generation == before.generation && after.timers == before.timers
       else from < after.generation <= to && after.timers == before.timers + {before.generation}
  }

  predicate Names(so: Sockets, n: nat, k: Key)
    requires n <= |so.updates|
  {
    exists i :: 0 <= i < n && so.updates[i].key == k
  }

  ghost predicate UpdatesOk(so: Sockets, configs: map<Key, Config>) {
    forall i | 0 <= i < |so.updates| :: var u := so.updates[i];
      u.key in so.next && u.listener == so.next[u.key] && u.key in configs && u.cfg == configs[u.key]
  }

  lemma {:induction false} RetunedMeans(so: Sockets, configs: map<Key, Config>, n: nat, k: Key)
    requires n <= |so.updates| && UpdatesOk(so, configs) && k in so.next
    ensures Retuned(so, n).1 >= so.generation && Retuned(so, n).0.Keys == so.next.Keys
    ensures Names(so, n, k) ==> k in configs && Tuned(so.next[k], Retuned(so, n).0[k], configs[k], so.generation, Retuned(so, n).1)
    ensures !Names(so, n, k) ==> Retuned(so, n).0[k] == so.next[k]
  {
    if n > 0 {
      RetunedMeans(so, configs, n - 1, k);
      var u := so.updates[n - 1];
      if u.key == k {
        assert Names(so, n, k);
      } else {
        assert Names(so, n, k) <==> Names(so, n - 1, k);
      }
    }
  }

  lemma RetunedGeneration(so: Sockets, configs: map<Key, Config>, n: nat, k: Key)
    requires n <= |so.updates| && UpdatesOk(so, configs) && k in so.next
    ensures k in Retuned(so, n).0
    ensures Retuned(so, n).0[k].generation == so.next[k].generation
            || so.generation < Retuned(so, n).0[k].generation <= Retuned(so, n).1
    ensures so.generation <= Retuned(so, n).1
  {
    RetunedMeans(so, configs, n, k);
  }

  /** Two listeners with different generations never come to share one. */
  lemma {:induction false} RetunedApart(so: Sockets, configs: map<Key, Config>, n: nat, j: Key, k: Key)
    requires n <= |so.updates| && UpdatesOk(so, configs) && j in so.next && k in so.next && j != k
    requires so.next[j].generation != so.next[k].generation
    requires so.next[j].generation <= so.generation && so.next[k].generation <= so.generation
    ensures j in Retuned(so, n).0 && k in Retuned(so, n).0
    ensures Retuned(so, n).0[j].generation <= Retuned(so, n).1 && Retuned(so, n).0[k].generation <= Retuned(so, n).1
    ensures Retuned(so, n).0[j].generation != Retuned(so, n).0[k].generation
  {
    if n > 0 {
      RetunedApart(so, configs, n - 1, j, k);
      RetunedGeneration(so, configs, n - 1, j);
      RetunedGeneration(so, configs, n - 1, k);
    }
  }

  // ---- what a runtime keeps ----

  predicate Apart(listeners: Listeners, j: Key, k: Key) {
    j in listeners && k in listeners && j != k ==>
      && SocketOf(listeners[j]) != SocketOf(listeners[k]) && listeners[j].id != listeners[k].id
      && listeners[j].generation != listeners[k].generation
  }

  /** Every pending timer is for an older generation than the one the listener now gives to connections. */
  ghost predicate TimersOk(l: Listener) {
    forall t | t in l.timers :: t < l.generation
  }

  ghost predicate ListenerOk(a: State, k: Key, l: Listener) {
    && KeyOf(l.cfg.want) == k && l.stage == Active && SocketOf(l) in a.held
    && HasTrackers(l.cfg.want, a.trackers, a.tenantTrackers) && l.cfg == ConfigFor(l.cfg.want, a.trackers, a.tenantTrackers)
    && l.id < a.at.listener && l.generation <= a.at.generation && TimersOk(l)
  }

  ghost predicate StateOk(a: State) {
    && (forall k | k in a.listeners :: ListenerOk(a, k, a.listeners[k]))
    && (forall j, k :: Apart(a.listeners, j, k))
    && Numbered(a.trackers, a.at.tracker) && Numbered(a.tenantTrackers, a.at.tracker)
  }

  lemma IndexOneEach(a: State, byBind: Index)
    requires StateOk(a) && IsIndex(a.listeners, byBind)
    ensures OneEach(byBind)
  {
    forall b, c | b in byBind && c in byBind && byBind[b].id == byBind[c].id ensures b == c {
      var j :| j in a.listeners && a.listeners[j] == byBind[b];
      var k :| k in a.listeners && a.listeners[k] == byBind[c];
      assert Apart(a.listeners, j, k);
    }
  }

  lemma IndexedOk(a: State, byBind: Index, b: Bind)
    requires StateOk(a) && IsIndex(a.listeners, byBind) && b in byBind
    ensures var l := byBind[b];
      SocketOf(l) == b && b in a.held && l.stage == Active && l.id < a.at.listener && l.generation <= a.at.generation && TimersOk(l)
  {
    var k :| k in a.listeners && a.listeners[k] == byBind[b];
    assert ListenerOk(a, k, a.listeners[k]);
  }

  /** The listener that serves a key after a commit: the tuned one on that socket, or a new one. */
  predicate CommittedListener(from: Counters, to: Counters, byBind: Index, bind: Bind, l: Listener, cfg: Config) {
    if bind in byBind then Tuned(byBind[bind], l, cfg, from.generation, to.generation)
    else && from.listener <= l.id < to.listener && from.generation < l.generation <= to.generation
         && l.timers == {} && l.cfg == cfg && l.stage == Active
  }

  /** What staging knows about one key. */
  predicate StagedListener(from: Counters, so: Sockets, byBind: Index, bind: Bind, k: Key, cfg: Config)
    requires k in so.next
  {
    var l := so.next[k];
    if bind in byBind then l == byBind[bind] && Names(so, |so.updates|, k)
    else && !Names(so, |so.updates|, k) && from.listener <= l.id < so.listener && from.generation < l.generation <= so.generation
         && l.timers == {} && l.cfg == cfg && l.stage == Warming
  }

  lemma RoundsStaged(from: Counters, byBind: Index, so: Sockets, configs: map<Key, Config>, owners: map<Bind, Key>,
                     binds: map<Key, Bind>, k: Key)
    requires StagedOk(from, byBind, so, configs, owners, binds) && k in so.next && so.next.Keys <= configs.Keys
    ensures UpdatesOk(so, configs) && StagedListener(from, so, byBind, binds[k], k, configs[k])
    ensures from.generation <= so.generation && from.listener <= so.listener
  {
    forall i | 0 <= i < |so.updates| ensures UpdateOk(so, so.updates[i], binds, byBind, configs) && so.updates[i].listener == so.next[so.updates[i].key] {
    }
    if binds[k] !in byBind {
      var i :| 0 <= i < |so.started| && so.started[i] == k;
    }
  }

  lemma CommitOne(from: Counters, to: Counters, byBind: Index, so: Sockets, configs: map<Key, Config>, bind: Bind, k: Key)
    requires UpdatesOk(so, configs) && k in so.next && k in configs && StagedListener(from, so, byBind, bind, k, configs[k])
    requires from.generation <= so.generation && to == Counters(Retuned(so, |so.updates|).1, so.listener, to.tracker)
    requires bind in byBind ==> byBind[bind].stage == Active
    ensures k in Retuned(so, |so.updates|).0
    ensures CommittedListener(from, to, byBind, bind, Activated(Retuned(so, |so.updates|).0[k]), configs[k])
  {
    RetunedMeans(so, configs, |so.updates|, k);
  }

  lemma CommitTwo(from: Counters, byBind: Index, so: Sockets, configs: map<Key, Config>, owners: map<Bind, Key>,
                  binds: map<Key, Bind>, j: Key, k: Key)
    requires StagedOk(from, byBind, so, configs, owners, binds) && so.next.Keys <= configs.Keys
    requires j in so.next && k in so.next && j != k
    requires binds[j] in byBind && binds[k] in byBind ==>
               byBind[binds[j]].generation != byBind[binds[k]].generation && byBind[binds[j]].id != byBind[binds[k]].id
    requires forall b | b in byBind :: byBind[b].generation <= from.generation && byBind[b].id < from.listener
    ensures UpdatesOk(so, configs) && so.next[j].generation != so.next[k].generation && so.next[j].id != so.next[k].id
    ensures so.next[j].generation <= so.generation && so.next[k].generation <= so.generation
  {
    RoundsStaged(from, byBind, so, configs, owners, binds, j);
    RoundsStaged(from, byBind, so, configs, owners, binds, k);
    if binds[j] !in byBind && binds[k] !in byBind {
      var i :| 0 <= i < |so.started| && so.started[i] == j;
      var n :| 0 <= n < |so.started| && so.started[n] == k;
      assert so.next[j].generation == from.generation + 1 + i && so.next[k].generation == from.generation + 1 + n;
      assert so.next[j].id == from.listener + i && so.next[k].id == from.listener + n;
    }
  }
}
