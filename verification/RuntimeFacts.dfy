/** What staging and committing do, for every order in which the desired listeners are visited. */
module RuntimeFacts {
  import opened Common
  import opened Desired
  import opened Trackers
  import opened Runtime

  predicate OwnTrackers(trackers: TrackerTable, o: nat, p: nat) {
    o in trackers && p in trackers && o != p ==> trackers[o].id != trackers[p].id
  }

  /** Trackers of one table have different numbers below next. */
  ghost predicate Numbered(trackers: TrackerTable, next: nat) {
    && (forall o | o in trackers :: trackers[o].id < next)
    && forall o, p :: OwnTrackers(trackers, o, p)
  }

  /** Trackers in chosen are those of existing where the limit is the same, and new from number first on otherwise. */
  ghost predicate Picked(existing: TrackerTable, chosen: TrackerTable, first: nat, next: nat) {
    && Numbered(chosen, next) && first <= next
    && forall o | o in chosen ::
         if Reuses(existing, o, chosen[o].limit) then chosen[o] == existing[o] else first <= chosen[o].id
  }

  ghost predicate PicksOk(pi: Picks, done: set<Key>, want: Listening) {
    && pi.configs.Keys == done && done <= want.Keys
    && forall k | k in done :: HasTrackers(want[k], pi.trackers, pi.tenants) && pi.configs[k] == ConfigFor(want[k], pi.trackers, pi.tenants)
  }

  function BindsOf(want: Listening): map<Key, Bind> {
    map k | k in want :: BindOf(want[k])
  }

  /** The keys staged so far have one socket each; owners says which key has a socket. */
  ghost predicate OwnersOk(next: Listeners, owners: map<Bind, Key>, binds: map<Key, Bind>) {
    && next.Keys <= binds.Keys
    && (forall k | k in next :: binds[k] in owners && owners[binds[k]] == k)
    && forall b | b in owners :: owners[b] in next && binds[owners[b]] == b
  }

  /** Keys on running sockets reuse the listener there; the i-th update is for the key it names. */
  ghost predicate ReusesOk(so: Sockets, owners: map<Bind, Key>, binds: map<Key, Bind>, byBind: Index, configs: map<Key, Config>)
    requires so.next.Keys <= binds.Keys
  {
    && (forall k | k in so.next && binds[k] in byBind ::
          so.next[k] == byBind[binds[k]] && exists i :: 0 <= i < |so.updates| && so.updates[i].key == k)
    && (forall b | b in byBind :: byBind[b].id in so.reused <==> b in owners)
    && forall i | 0 <= i < |so.updates| :: UpdateOk(so, so.updates[i], binds, byBind, configs)
  }

  predicate UpdateOk(so: Sockets, u: Update, binds: map<Key, Bind>, byBind: Index, configs: map<Key, Config>)
    requires so.next.Keys <= binds.Keys
  {
    && u.key in so.next && binds[u.key] in byBind && u.listener == byBind[binds[u.key]]
    && u.key in configs && u.cfg == configs[u.key]
  }

  /** The i-th started listener carries its configuration and the i-th new numbers. */
  ghost predicate StartsOk(so: Sockets, binds: map<Key, Bind>, byBind: Index, configs: map<Key, Config>, at: Counters)
    requires so.next.Keys <= binds.Keys
  {
    && so.listener == at.listener + |so.started| && so.generation == at.generation + |so.started|
    && (forall k | k in so.next && binds[k] !in byBind :: k in so.started)
    && forall i | 0 <= i < |so.started| ::
         var k := so.started[i];
         && k in so.next && binds[k] !in byBind && k in configs && so.next[k].cfg == configs[k]
         && so.next[k].id == at.listener + i && so.next[k].generation == at.generation + 1 + i
         && so.next[k].stage == Warming && so.next[k].timers == {}
  }

  /** Each socket of the index belongs to a listener of its own. */
  ghost predicate OneEach(byBind: Index) {
    forall b, c | b in byBind && c in byBind && byBind[b].id == byBind[c].id :: b == c
  }

  function OwnersOf(binds: map<Key, Bind>, order: seq<Key>): map<Bind, Key>
    requires forall k | k in order :: k in binds
  {
    if order == [] then map[] else OwnersOf(binds, order[..|order| - 1])[binds[order[|order| - 1]] := order[|order| - 1]]
  }

  ghost predicate StagedOk(at: Counters, byBind: Index, so: Sockets, configs: map<Key, Config>, owners: map<Bind, Key>,
                           binds: map<Key, Bind>) {
    && OwnersOk(so.next, owners, binds)
    && ReusesOk(so, owners, binds, byBind, configs)
    && StartsOk(so, binds, byBind, configs, at)
    && forall b :: b in so.sockets <==> b in owners && b !in byBind
  }

  /** Socket k wants is not promised to another key. */
  lemma FreshSocket(a: State, byBind: Index, grants: set<Bind>, so: Sockets, owners: map<Bind, Key>, binds: map<Key, Bind>, k: Key)
    requires OwnersOk(so.next, owners, binds) && IsIndex(a.listeners, byBind)
    requires forall b | b in byBind :: byBind[b].id in so.reused <==> b in owners
    requires forall b :: b in so.sockets <==> b in owners && b !in byBind
    requires k in binds && k !in so.next
    ensures Existing(a, byBind, k, binds[k]) == if binds[k] in byBind then Some(byBind[binds[k]]) else None
    ensures Failure(a, byBind, grants, so, k, binds[k]).None? <==>
              binds[k] !in owners && (binds[k] in byBind || (binds[k] in grants && binds[k] !in a.held))
  {
  }

  lemma OwnersGrow(next: Listeners, owners: map<Bind, Key>, binds: map<Key, Bind>, k: Key, l: Listener)
    requires OwnersOk(next, owners, binds) && k in binds && k !in next && binds[k] !in owners
    ensures OwnersOk(next[k := l], owners[binds[k] := k], binds)
  {
  }

  lemma ReusingKeeps(so: Sockets, owners: map<Bind, Key>, binds: map<Key, Bind>, byBind: Index, k: Key,
                     configs: map<Key, Config>, wider: map<Key, Config>)
    requires so.next.Keys <= binds.Keys && ReusesOk(so, owners, binds, byBind, configs) && OneEach(byBind)
    requires k in binds && k !in so.next && binds[k] in byBind && k in wider && wider == configs[k := wider[k]]
    ensures ReusesOk(Reusing(so, k, byBind[binds[k]], wider[k]), owners[binds[k] := k], binds, byBind, wider)
  {
    var now := Reusing(so, k, byBind[binds[k]], wider[k]);
    assert now.updates[|so.updates|].key == k;
    forall j | j in so.next && binds[j] in byBind ensures exists i :: 0 <= i < |now.updates| && now.updates[i].key == j {
      var i :| 0 <= i < |so.updates| && so.updates[i].key == j;
      assert now.updates[i].key == j;
    }
    forall i | 0 <= i < |now.updates| ensures UpdateOk(now, now.updates[i], binds, byBind, wider) {
      if i < |so.updates| {
        assert UpdateOk(so, so.updates[i], binds, byBind, configs);
      }
    }
  }

  lemma StartingKeeps(so: Sockets, owners: map<Bind, Key>, binds: map<Key, Bind>, byBind: Index, k: Key,
                      configs: map<Key, Config>, wider: map<Key, Config>)
    requires so.next.Keys <= binds.Keys && ReusesOk(so, owners, binds, byBind, configs)
    requires k in binds && k !in so.next && binds[k] !in byBind && k in wider && wider == configs[k := wider[k]]
    ensures ReusesOk(Starting(so, k, wider[k]), owners[binds[k] := k], binds, byBind, wider)
  {
    var now := Starting(so, k, wider[k]);
    forall i | 0 <= i < |now.updates| ensures UpdateOk(now, now.updates[i], binds, byBind, wider) {
      assert UpdateOk(so, so.updates[i], binds, byBind, configs);
    }
  }

  lemma StartsGrow(so: Sockets, binds: map<Key, Bind>, byBind: Index, configs: map<Key, Config>, wider: map<Key, Config>,
                   at: Counters, k: Key)
    requires so.next.Keys <= binds.Keys && StartsOk(so, binds, byBind, configs, at) && k in binds && k !in so.next
    requires k in wider && wider == configs[k := wider[k]]
    ensures binds[k] in byBind ==> StartsOk(Reusing(so, k, byBind[binds[k]], wider[k]), binds, byBind, wider, at)
    ensures binds[k] !in byBind ==> StartsOk(Starting(so, k, wider[k]), binds, byBind, wider, at)
  {
    var now := Starting(so, k, wider[k]);
    assert now.started[|so.started|] == k;
  }

  // ---- the tracker half ----

  lemma TrackerPicked(existing: TrackerTable, chosen: TrackerTable, owner: nat, limit: Limit, first: nat, next: nat)
    requires Picked(existing, chosen, first, next) && Numbered(existing, first)
    ensures Picked(existing, WithTracker(existing, chosen, owner, limit, next), first, AfterTracker(existing, chosen, owner, limit, next))
  {
    var now := WithTracker(existing, chosen, owner, limit, next);
    forall o, p ensures OwnTrackers(now, o, p) {
      assert OwnTrackers(chosen, o, p) && OwnTrackers(existing, o, p);
    }
  }

  /** Later picks leave the trackers that a configuration already has. */
  lemma PickKeepsConfig(a: State, pi: Picks, k: Key, w: Wanted, v: Wanted, now: Picks)
    requires now == PickFor(a, pi, k, w) && HasTrackers(v, pi.trackers, pi.tenants)
    ensures HasTrackers(v, now.trackers, now.tenants)
    ensures ConfigFor(v, now.trackers, now.tenants) == ConfigFor(v, pi.trackers, pi.tenants)
  {
  }

  lemma PicksGrow(a: State, pi: Picks, done: set<Key>, k: Key, want: Listening)
    requires PicksOk(pi, done, want) && k in want && k !in done
    ensures PicksOk(PickFor(a, pi, k, want[k]), done + {k}, want)
  {
    var now := PickFor(a, pi, k, want[k]);
    forall j | j in done
      ensures HasTrackers(want[j], now.trackers, now.tenants) && now.configs[j] == ConfigFor(want[j], now.trackers, now.tenants)
    {
      PickKeepsConfig(a, pi, k, want[k], want[j], now);
    }
  }

  ghost predicate BothPicked(a: State, pi: Picks) {
    && Picked(a.trackers, pi.trackers, a.at.tracker, pi.next) && Picked(a.tenantTrackers, pi.tenants, a.at.tracker, pi.next)
  }

  lemma BothStayPicked(a: State, pi: Picks, k: Key, w: Wanted)
    requires BothPicked(a, pi) && Numbered(a.trackers, a.at.tracker) && Numbered(a.tenantTrackers, a.at.tracker)
    ensures BothPicked(a, PickFor(a, pi, k, w))
  {
    TrackerPicked(a.trackers, pi.trackers, w.rule.id, w.limit, a.at.tracker, pi.next);
    var n := AfterTracker(a.trackers, pi.trackers, w.rule.id, w.limit, pi.next);
    if Limited(w) {
      TrackerPicked(a.tenantTrackers, pi.tenants, w.rule.tenant.value, w.tenantLimit, a.at.tracker, n);
    }
  }

  // ---- all rounds ----

  lemma ReuseRoundKeeps(at: Counters, byBind: Index, so: Sockets, now: Sockets, owners: map<Bind, Key>,
                        binds: map<Key, Bind>, k: Key, configs: map<Key, Config>, wider: map<Key, Config>)
    requires StagedOk(at, byBind, so, configs, owners, binds) && OneEach(byBind)
    requires k in binds && k !in so.next && binds[k] !in owners && binds[k] in byBind
    requires k in wider && wider == configs[k := wider[k]] && now == Reusing(so, k, byBind[binds[k]], wider[k])
    ensures StagedOk(at, byBind, now, wider, owners[binds[k] := k], binds) && now.next.Keys == so.next.Keys + {k}
  {
    StartsGrow(so, binds, byBind, configs, wider, at, k);
    OwnersGrow(so.next, owners, binds, k, now.next[k]);
    ReusingKeeps(so, owners, binds, byBind, k, configs, wider);
    SocketsAdd(so.sockets, now.sockets, owners, binds[k], k, byBind);
  }

  lemma StartRoundKeeps(at: Counters, byBind: Index, so: Sockets, now: Sockets, owners: map<Bind, Key>,
                        binds: map<Key, Bind>, k: Key, configs: map<Key, Config>, wider: map<Key, Config>)
    requires StagedOk(at, byBind, so, configs, owners, binds)
    requires k in binds && k !in so.next && binds[k] !in owners && binds[k] !in byBind
    requires k in wider && wider == configs[k := wider[k]] && BindOf(wider[k].want) == binds[k] && now == Starting(so, k, wider[k])
    ensures StagedOk(at, byBind, now, wider, owners[binds[k] := k], binds) && now.next.Keys == so.next.Keys + {k}
  {
    StartsGrow(so, binds, byBind, configs, wider, at, k);
    OwnersGrow(so.next, owners, binds, k, now.next[k]);
    StartingKeeps(so, owners, binds, byBind, k, configs, wider);
    SocketsAdd(so.sockets, now.sockets, owners, binds[k], k, byBind);
  }

  lemma SocketsAdd(sockets: set<Bind>, now: set<Bind>, owners: map<Bind, Key>, bind: Bind, k: Key, byBind: Index)
    requires forall b :: b in sockets <==> b in owners && b !in byBind
    requires now == if bind in byBind then sockets else sockets + {bind}
    ensures forall b :: b in now <==> b in owners[bind := k] && b !in byBind
  {
  }

  /** A socket that a running listener has, or that the system grants. */
  predicate Obtainable(a: State, byBind: Index, grants: set<Bind>, bind: Bind) {
    bind in byBind || (bind in grants && bind !in a.held)
  }

  /** What holds after the rounds for the keys in order, all of them successful. */
  ghost predicate RoundsOk(a: State, byBind: Index, grants: set<Bind>, st: Staging, order: seq<Key>, want: Listening)
    requires forall k | k in order :: k in want
  {
    && StagedOk(a.at, byBind, st.so, st.pi.configs, OwnersOf(BindsOf(want), order), BindsOf(want))
    && PicksOk(st.pi, st.so.next.Keys, want) && BothPicked(a, st.pi)
    && (forall k :: k in st.so.next <==> k in order)
    && forall k | k in order :: Obtainable(a, byBind, grants, BindOf(want[k]))
  }

  lemma RoundKeeps(a: State, byBind: Index, grants: set<Bind>, st: Staging, so: Sockets, pi: Picks, order: seq<Key>,
                   want: Listening, k: Key, owners: map<Bind, Key>)
    requires StagedOk(a.at, byBind, so, pi.configs, owners, BindsOf(want)) && PicksOk(pi, so.next.Keys, want)
    requires IsIndex(a.listeners, byBind) && OneEach(byBind) && k in want && k !in so.next
    requires st == Round(a, byBind, grants, Staging(so, pi, None), k, want[k])
    ensures st.error.None? <==> BindOf(want[k]) !in owners && Obtainable(a, byBind, grants, BindOf(want[k]))
    ensures st.error.None? ==> StagedOk(a.at, byBind, st.so, st.pi.configs, owners[BindOf(want[k]) := k], BindsOf(want))
    ensures st.error.None? ==> st.so.next.Keys == so.next.Keys + {k}
  {
    FreshSocket(a, byBind, grants, so, owners, BindsOf(want), k);
    if st.error.None? {
      if BindOf(want[k]) in byBind {
        ReuseRoundKeeps(a.at, byBind, so, st.so, owners, BindsOf(want), k, pi.configs, st.pi.configs);
      } else {
        StartRoundKeeps(a.at, byBind, so, st.so, owners, BindsOf(want), k, pi.configs, st.pi.configs);
      }
    }
  }

  predicate SameSocket(want: Listening, j: Key, k: Key) {
    j in want && k in want && j != k && BindOf(want[j]) == BindOf(want[k])
  }

  /** No two of these keys share a socket, and each socket can be had. */
  ghost predicate Servable(a: State, byBind: Index, grants: set<Bind>, want: Listening, keys: set<Key>)
    requires keys <= want.Keys
  {
    && (forall j, k {:trigger SameSocket(want, j, k)} | j in keys && k in keys :: !SameSocket(want, j, k))
    && forall k | k in keys :: Obtainable(a, byBind, grants, BindOf(want[k]))
  }

  function KeysOf(order: seq<Key>): set<Key> {
    set k | k in order
  }

  /** The owners of the staged sockets are the staged keys. */
  lemma SocketTaken(next: Listeners, owners: map<Bind, Key>, done: seq<Key>, want: Listening, k: Key)
    requires OwnersOk(next, owners, BindsOf(want)) && k in want && k !in done
    requires forall j :: j in next <==> j in done
    ensures BindOf(want[k]) in owners <==> exists j :: j in done && SameSocket(want, j, k)
  {
    var bind := BindOf(want[k]);
    if bind in owners {
      assert SameSocket(want, owners[bind], k);
    }
    forall j | j in done && SameSocket(want, j, k) ensures bind in owners {
      assert j in next && BindsOf(want)[j] == bind;
    }
  }

  lemma VisitedGrow(a: State, byBind: Index, grants: set<Bind>, keys: set<Key>, now: set<Key>, done: seq<Key>, k: Key, want: Listening)
    requires (forall j | j in done :: j in want) && k in want && now == keys + {k}
    requires (forall j :: j in keys <==> j in done) && forall j | j in done :: Obtainable(a, byBind, grants, BindOf(want[j]))
    requires Obtainable(a, byBind, grants, BindOf(want[k]))
    ensures (forall j :: j in now <==> j in done + [k])
    ensures forall j | j in done + [k] :: j in want && Obtainable(a, byBind, grants, BindOf(want[j]))
    ensures OwnersOf(BindsOf(want), done + [k]) == OwnersOf(BindsOf(want), done)[BindOf(want[k]) := k]
  {
    assert (done + [k])[..|done|] == done;
  }

  lemma StagingKeeps(a: State, byBind: Index, grants: set<Bind>, want: Listening, order: seq<Key>, done: seq<Key>, k: Key,
                     was: Staging, st: Staging)
    requires (forall j | j in order :: j in want) && (forall j | j in done :: j in want) && order == done + [k]
    requires IsIndex(a.listeners, byBind) && OneEach(byBind) && k in want && k !in done
    requires Numbered(a.trackers, a.at.tracker) && Numbered(a.tenantTrackers, a.at.tracker)
    requires was.error.None? && RoundsOk(a, byBind, grants, was, done, want)
    requires st == Round(a, byBind, grants, was, k, want[k]) && st.error.None?
    ensures RoundsOk(a, byBind, grants, st, order, want)
  {
    RoundKeeps(a, byBind, grants, st, was.so, was.pi, done, want, k, OwnersOf(BindsOf(want), done));
    BothStayPicked(a, was.pi, k, want[k]);
    PicksGrow(a, was.pi, was.so.next.Keys, k, want);
    VisitedGrow(a, byBind, grants, was.so.next.Keys, st.so.next.Keys, done, k, want);
  }

  lemma StagingFails(a: State, byBind: Index, grants: set<Bind>, want: Listening, done: seq<Key>, k: Key, was: Staging, st: Staging)
    requires IsIndex(a.listeners, byBind) && OneEach(byBind) && k in want && k !in done && forall j | j in done :: j in want
    requires was.error.None? && RoundsOk(a, byBind, grants, was, done, want) && st == Round(a, byBind, grants, was, k, want[k])
    ensures st.error.None? <==> Obtainable(a, byBind, grants, BindOf(want[k])) && forall j | j in done :: !SameSocket(want, j, k)
  {
    RoundKeeps(a, byBind, grants, st, was.so, was.pi, done, want, k, OwnersOf(BindsOf(want), done));
    SocketTaken(was.so.next, OwnersOf(BindsOf(want), done), done, want, k);
  }

  /** Facts about the last round of a failed run: it opened nothing, and counters only grow. */
  ghost predicate FailedOk(a: State, so: Sockets) {
    so.sockets !! a.held && a.at.generation <= so.generation && a.at.listener <= so.listener
  }

  lemma RoundsLeaveHeld(a: State, byBind: Index, grants: set<Bind>, st: Staging, order: seq<Key>, want: Listening)
    requires forall k | k in order :: k in want
    requires RoundsOk(a, byBind, grants, st, order, want)
    ensures FailedOk(a, st.so)
  {
    var owners := OwnersOf(BindsOf(want), order);
    forall b | b in st.so.sockets ensures b !in a.held {
      assert owners[b] in st.so.next && BindsOf(want)[owners[b]] == b;
    }
  }

  predicate NoRepeats(order: seq<Key>) {
    forall i, j | 0 <= i < j < |order| :: order[i] != order[j]
  }

  /** What staging the keys in order amounts to. */
  ghost predicate StagedAll(a: State, byBind: Index, grants: set<Bind>, want: Listening, order: seq<Key>, st: Staging)
    requires forall k | k in order :: k in want
  {
    && (st.error.None? <==> Servable(a, byBind, grants, want, KeysOf(order)))
    && (st.error.None? ==> RoundsOk(a, byBind, grants, st, order, want))
    && FailedOk(a, st.so)
  }

  lemma {:induction false} StagingResult(a: State, byBind: Index, grants: set<Bind>, want: Listening, order: seq<Key>)
    requires IsIndex(a.listeners, byBind) && OneEach(byBind) && NoRepeats(order) && forall k | k in order :: k in want
    requires Numbered(a.trackers, a.at.tracker) && Numbered(a.tenantTrackers, a.at.tracker)
    ensures StagedAll(a, byBind, grants, want, order, StageKeys(a, byBind, grants, want, order))
  {
    if order != [] {
      var done, k := order[..|order| - 1], order[|order| - 1];
      assert order == done + [k];
      StagingResult(a, byBind, grants, want, done);
      StagingNext(a, byBind, grants, want, order, done, k, StageKeys(a, byBind, grants, want, done),
                  StageKeys(a, byBind, grants, want, order));
    }
  }

  lemma StagingNext(a: State, byBind: Index, grants: set<Bind>, want: Listening, order: seq<Key>, done: seq<Key>, k: Key,
                    was: Staging, st: Staging)
    requires (forall j | j in order :: j in want) && (forall j | j in done :: j in want) && order == done + [k]
    requires IsIndex(a.listeners, byBind) && OneEach(byBind) && k in want && k !in done
    requires Numbered(a.trackers, a.at.tracker) && Numbered(a.tenantTrackers, a.at.tracker)
    requires StagedAll(a, byBind, grants, want, done, was)
    requires st == if was.error.Some? then was else Round(a, byBind, grants, was, k, want[k])
    ensures StagedAll(a, byBind, grants, want, order, st)
  {
    ServableOneMore(a, byBind, grants, want, done, k);
    if was.error.None? {
      StagingOneMore(a, byBind, grants, want, order, done, k, was, st);
    }
  }

  lemma StagingOneMore(a: State, byBind: Index, grants: set<Bind>, want: Listening, order: seq<Key>, done: seq<Key>, k: Key,
                       was: Staging, st: Staging)
    requires (forall j | j in order :: j in want) && (forall j | j in done :: j in want) && order == done + [k]
    requires IsIndex(a.listeners, byBind) && OneEach(byBind) && k in want && k !in done
    requires Numbered(a.trackers, a.at.tracker) && Numbered(a.tenantTrackers, a.at.tracker)
    requires was.error.None? && RoundsOk(a, byBind, grants, was, done, want) && FailedOk(a, was.so)
    requires st == Round(a, byBind, grants, was, k, want[k])
    ensures st.error.None? <==> Obtainable(a, byBind, grants, BindOf(want[k])) && forall j | j in done :: !SameSocket(want, j, k)
    ensures st.error.None? ==> RoundsOk(a, byBind, grants, st, order, want)
    ensures FailedOk(a, st.so)
  {
    StagingFails(a, byBind, grants, want, done, k, was, st);
    if st.error.None? {
      StagingKeeps(a, byBind, grants, want, order, done, k, was, st);
      RoundsLeaveHeld(a, byBind, grants, st, order, want);
    }
  }

  lemma ServableOneMore(a: State, byBind: Index, grants: set<Bind>, want: Listening, done: seq<Key>, k: Key)
    requires k in want && forall j | j in done :: j in want
    ensures Servable(a, byBind, grants, want, KeysOf(done + [k])) == (
              Servable(a, byBind, grants, want, KeysOf(done)) && Obtainable(a, byBind, grants, BindOf(want[k]))
              && forall j | j in done :: !SameSocket(want, j, k))
  {
    var all, some := KeysOf(done + [k]), KeysOf(done);
    assert all == some + {k};
    if Servable(a, byBind, grants, want, some) && forall j | j in done :: !SameSocket(want, j, k) {
      forall i, j | i in all && j in all ensures !SameSocket(want, i, j) {
        assert !SameSocket(want, j, i) || !(i in done) || !(j in done);
      }
    }
  }
}
