/** The transaction theorems about Runtime.Apply. */
module Apply {
  import opened Common
  import opened Desired
  import opened Runtime
  import opened RuntimeFacts
  import opened ApplyFacts

  /** Some running listener has this socket. */
  ghost predicate Serving(a: State, bind: Bind) {
    exists j :: j in a.listeners && SocketOf(a.listeners[j]) == bind
  }

  ghost predicate OwnSockets(want: Listening) {
    forall j, k {:trigger SameSocket(want, j, k)} | j in want && k in want :: !SameSocket(want, j, k)
  }

  /** The whole configuration can be served: no two listeners on one socket, and every socket is ours or granted. */
  ghost predicate Applicable(a: State, want: Listening, grants: set<Bind>) {
    && OwnSockets(want)
    && forall k | k in want :: Serving(a, BindOf(want[k])) || (BindOf(want[k]) in grants && BindOf(want[k]) !in a.held)
  }

  /** The listener for k runs with the wanted settings; on a kept socket it is the same one, otherwise a new one. */
  ghost predicate ServedAs(a: State, b: State, w: Wanted, l: Listener) {
    && l.cfg.want == w && l.stage == Active
    && HasTrackers(w, b.trackers, b.tenantTrackers) && l.cfg == ConfigFor(w, b.trackers, b.tenantTrackers)
    && (forall j | j in a.listeners && SocketOf(a.listeners[j]) == BindOf(w) ::
          Tuned(a.listeners[j], l, l.cfg, a.at.generation, b.at.generation))
    && (!Serving(a, BindOf(w)) ==>
          a.at.listener <= l.id < b.at.listener && a.at.generation < l.generation <= b.at.generation && l.timers == {})
  }

  ghost predicate Wants(want: Listening, bind: Bind) {
    exists k :: k in want && BindOf(want[k]) == bind
  }

  ghost predicate Leaving(a: State, want: Listening, l: Listener) {
    exists j :: j in a.listeners && !Wants(want, SocketOf(a.listeners[j])) && l == Drained(a.listeners[j])
  }

  /** Exactly the listeners on sockets nobody wants drain, and only TCP ones give their socket up now. */
  ghost predicate Leaves(a: State, b: State, want: Listening) {
    && (forall l :: l in b.draining <==> (l in a.draining || Leaving(a, want, l)))
    && forall s :: s in b.held <==> (Wants(want, s) || (s in a.held && !(Serving(a, s) && s.network == Tcp)))
  }

  /** A tracker survives exactly when its limit is unchanged; the others are new. */
  ghost predicate KeepsTrackers(a: TrackerTable, b: TrackerTable, first: nat) {
    forall o | o in b :: if Reuses(a, o, b[o].limit) then b[o] == a[o] else first <= b[o].id
  }

  ghost predicate AppliedTo(a: State, b: State, want: Listening) {
    && b.listeners.Keys == want.Keys
    && (forall k | k in want :: ServedAs(a, b, want[k], b.listeners[k]))
    && Leaves(a, b, want)
    && KeepsTrackers(a.trackers, b.trackers, a.at.tracker) && KeepsTrackers(a.tenantTrackers, b.tenantTrackers, a.at.tracker)
    && a.at.generation <= b.at.generation && a.at.listener <= b.at.listener && a.at.tracker <= b.at.tracker
    && b.status == Applied && b.running && b.closed == a.closed
  }

  /** Nothing but counters and the recorded result differs. */
  ghost predicate Unaffected(a: State, b: State) {
    && b == a.(at := b.at, status := b.status, revision := b.revision)
    && a.at.generation <= b.at.generation && a.at.listener <= b.at.listener && a.at.tracker == b.at.tracker
  }

  // ---- accepted exactly when applicable ----

  lemma IndexServes(a: State, byBind: Index, bind: Bind)
    requires IsIndex(a.listeners, byBind)
    ensures bind in byBind <==> Serving(a, bind)
  {
  }

  lemma ServableMeans(a: State, byBind: Index, grants: set<Bind>, want: Listening, order: seq<Key>)
    requires IsIndex(a.listeners, byBind) && IsOrder(order, want)
    ensures Servable(a, byBind, grants, want, KeysOf(order)) <==> Applicable(a, want, grants)
  {
    assert KeysOf(order) == want.Keys;
    forall k | k in want ensures BindOf(want[k]) in byBind <==> Serving(a, BindOf(want[k])) {
      IndexServes(a, byBind, BindOf(want[k]));
    }
  }

  /**
   * For every order: Apply succeeds exactly when the configuration is complete, the runtime is not stopped and
   * everything can be served; the order does not decide.
   */
  lemma ApplyAccepts(a: State, byBind: Index, c: AgentConfig, grants: set<Bind>, order: seq<Key>)
    requires StateOk(a) && IsIndex(a.listeners, byBind) && (DesiredOf(c).Ok? ==> IsOrder(order, DesiredOf(c).value))
    ensures ApplyIn(a, byBind, c, grants, order).1.None? <==>
              DesiredOf(c).Ok? && !a.closed && Applicable(a, DesiredOf(c).value, grants)
  {
    if DesiredOf(c).Ok? && !a.closed {
      IndexOneEach(a, byBind);
      StagingResult(a, byBind, grants, DesiredOf(c).value, order);
      ServableMeans(a, byBind, grants, DesiredOf(c).value, order);
    }
  }

  /** A refused configuration leaves listeners, trackers, drains and sockets exactly as they were. */
  lemma ApplyRefuses(a: State, byBind: Index, c: AgentConfig, grants: set<Bind>, order: seq<Key>)
    requires StateOk(a) && IsIndex(a.listeners, byBind) && (DesiredOf(c).Ok? ==> IsOrder(order, DesiredOf(c).value))
    requires ApplyIn(a, byBind, c, grants, order).1.Some?
    ensures Unaffected(a, ApplyIn(a, byBind, c, grants, order).0)
    ensures if DesiredOf(c).Ok? && a.closed then ApplyIn(a, byBind, c, grants, order).0 == a
            else ApplyIn(a, byBind, c, grants, order).0.status == Rejected
  {
    if DesiredOf(c).Ok? && !a.closed {
      IndexOneEach(a, byBind);
      StagingResult(a, byBind, grants, DesiredOf(c).value, order);
      var so := StageKeys(a, byBind, grants, DesiredOf(c).value, order).so;
      assert a.held + so.sockets - so.sockets == a.held;
    }
  }

  // ---- the reason given ----

  /** Two wanted listeners are for this socket. */
  ghost predicate WantedTwice(want: Listening, bind: Bind) {
    exists j, k :: SameSocket(want, j, k) && BindOf(want[k]) == bind
  }

  /** The reason is true: the socket named is wanted, and twice, or else cannot be had. */
  ghost predicate Truthful(a: State, grants: set<Bind>, want: Listening, e: ApplyError) {
    match e
    case SameListener(bind) => Serving(a, bind) && WantedTwice(want, bind)
    case OpenFailed(bind) =>
      Wants(want, bind) && !Serving(a, bind) && (bind !in grants || bind in a.held || WantedTwice(want, bind))
    case _ => false
  }

  lemma RoundReason(a: State, byBind: Index, grants: set<Bind>, want: Listening, done: seq<Key>, k: Key, was: Staging)
    requires IsIndex(a.listeners, byBind) && k in want && k !in done && forall j | j in done :: j in want
    requires was.error.None? && RoundsOk(a, byBind, grants, was, done, want)
    requires Round(a, byBind, grants, was, k, want[k]).error.Some?
    ensures Truthful(a, grants, want, Round(a, byBind, grants, was, k, want[k]).error.value)
  {
    var bind, owners := BindOf(want[k]), OwnersOf(BindsOf(want), done);
    FreshSocket(a, byBind, grants, was.so, owners, BindsOf(want), k);
    SocketTaken(was.so.next, owners, done, want, k);
    FailureReason(a, byBind, grants, was.so, owners, want, k, done);
  }

  lemma FailureReason(a: State, byBind: Index, grants: set<Bind>, so: Sockets, owners: map<Bind, Key>, want: Listening, k: Key, done: seq<Key>)
    requires IsIndex(a.listeners, byBind) && k in want && Failure(a, byBind, grants, so, k, BindOf(want[k])).Some?
    requires Existing(a, byBind, k, BindOf(want[k])) == if BindOf(want[k]) in byBind then Some(byBind[BindOf(want[k])]) else None
    requires forall b | b in byBind :: byBind[b].id in so.reused <==> b in owners
    requires forall b :: b in so.sockets <==> b in owners && b !in byBind
    requires BindOf(want[k]) in owners <==> exists j :: j in done && SameSocket(want, j, k)
    ensures Truthful(a, grants, want, Failure(a, byBind, grants, so, k, BindOf(want[k])).value)
  {
    IndexServes(a, byBind, BindOf(want[k]));
    assert Wants(want, BindOf(want[k]));
  }

  lemma {:induction false} StagingReason(a: State, byBind: Index, grants: set<Bind>, want: Listening, order: seq<Key>)
    requires IsIndex(a.listeners, byBind) && OneEach(byBind) && NoRepeats(order) && forall k | k in order :: k in want
    requires Numbered(a.trackers, a.at.tracker) && Numbered(a.tenantTrackers, a.at.tracker)
    requires StageKeys(a, byBind, grants, want, order).error.Some?
    ensures Truthful(a, grants, want, StageKeys(a, byBind, grants, want, order).error.value)
  {
    var done, k := order[..|order| - 1], order[|order| - 1];
    if StageKeys(a, byBind, grants, want, done).error.Some? {
      StagingReason(a, byBind, grants, want, done);
    } else {
      StagingResult(a, byBind, grants, want, done);
      RoundReason(a, byBind, grants, want, done, k, StageKeys(a, byBind, grants, want, done));
    }
  }

  /** Whatever the order, the reason a refusal gives is true. */
  lemma ApplyReason(a: State, byBind: Index, c: AgentConfig, grants: set<Bind>, order: seq<Key>)
    requires StateOk(a) && IsIndex(a.listeners, byBind) && (DesiredOf(c).Ok? ==> IsOrder(order, DesiredOf(c).value))
    requires ApplyIn(a, byBind, c, grants, order).1.Some?
    ensures match ApplyIn(a, byBind, c, grants, order).1.value
            case MissingTunnel(id) => DesiredOf(c) == Err(id)
            case RuntimeStopped => a.closed
            case e => DesiredOf(c).Ok? && Truthful(a, grants, DesiredOf(c).value, e)
  {
    if DesiredOf(c).Ok? && !a.closed {
      IndexOneEach(a, byBind);
      StagingReason(a, byBind, grants, DesiredOf(c).value, order);
    }
  }

  // ---- what a success does ----

  lemma CommittedServes(a: State, b: State, byBind: Index, w: Wanted, l: Listener, cfg: Config)
    requires IsIndex(a.listeners, byBind) && CommittedListener(a.at, b.at, byBind, BindOf(w), l, cfg)
    requires HasTrackers(w, b.trackers, b.tenantTrackers) && cfg == ConfigFor(w, b.trackers, b.tenantTrackers)
    requires BindOf(w) in byBind ==> byBind[BindOf(w)].stage == Active
    ensures ServedAs(a, b, w, l)
  {
    IndexServes(a, byBind, BindOf(w));
  }

  /** The state after a successful staging, with what staging established spelled out. */
  ghost predicate Commits(a: State, byBind: Index, st: Staging, owners: map<Bind, Key>, want: Listening, b: State) {
    && StagedOk(a.at, byBind, st.so, st.pi.configs, owners, BindsOf(want)) && PicksOk(st.pi, want.Keys, want)
    && st.so.next.Keys == want.Keys && BothPicked(a, st.pi)
    && b == Committed(a, st, b.revision)
  }

  lemma CommitServes(a: State, byBind: Index, st: Staging, owners: map<Bind, Key>, want: Listening, b: State, k: Key)
    requires StateOk(a) && IsIndex(a.listeners, byBind) && Commits(a, byBind, st, owners, want, b) && k in want
    ensures k in b.listeners && ServedAs(a, b, want[k], b.listeners[k])
  {
    var binds := BindsOf(want);
    RoundsStaged(a.at, byBind, st.so, st.pi.configs, owners, binds, k);
    if binds[k] in byBind {
      IndexedOk(a, byBind, binds[k]);
    }
    RetunedMeans(st.so, st.pi.configs, |st.so.updates|, k);
    CommitOne(a.at, b.at, byBind, st.so, st.pi.configs, binds[k], k);
    CommittedServes(a, b, byBind, want[k], b.listeners[k], st.pi.configs[k]);
  }

  lemma OwnedIsWanted(next: Listeners, owners: map<Bind, Key>, want: Listening, s: Bind)
    requires OwnersOk(next, owners, BindsOf(want)) && next.Keys == want.Keys
    ensures s in owners <==> Wants(want, s)
  {
    if k :| k in want && BindOf(want[k]) == s {
      assert k in next && BindsOf(want)[k] == s;
    }
  }

  lemma UnusedMeans(a: State, byBind: Index, so: Sockets, owners: map<Bind, Key>, want: Listening, l: Listener)
    requires IsIndex(a.listeners, byBind) && OwnersOk(so.next, owners, BindsOf(want)) && so.next.Keys == want.Keys
    requires forall b | b in byBind :: byBind[b].id in so.reused <==> b in owners
    ensures l in Unused(a.listeners, so.reused) <==> exists j :: j in a.listeners && a.listeners[j] == l && !Wants(want, SocketOf(l))
  {
    OwnedIsWanted(so.next, owners, want, SocketOf(l));
    if j :| j in a.listeners && a.listeners[j] == l {
      assert byBind[SocketOf(l)] == l;
    }
  }

  lemma CommitLeaves(a: State, byBind: Index, st: Staging, owners: map<Bind, Key>, want: Listening, b: State)
    requires StateOk(a) && IsIndex(a.listeners, byBind) && Commits(a, byBind, st, owners, want, b)
    ensures Leaves(a, b, want)
  {
    var unused := Unused(a.listeners, st.so.reused);
    forall l ensures l in b.draining <==> (l in a.draining || Leaving(a, want, l)) {
      forall u ensures u in unused <==> exists j :: j in a.listeners && a.listeners[j] == u && !Wants(want, SocketOf(u)) {
        UnusedMeans(a, byBind, st.so, owners, want, u);
      }
    }
    forall s ensures s in b.held <==> (Wants(want, s) || (s in a.held && !(Serving(a, s) && s.network == Tcp))) {
      CommitHeld(a, byBind, st, owners, want, s);
    }
  }

  lemma ClosedMeans(a: State, byBind: Index, so: Sockets, owners: map<Bind, Key>, want: Listening, s: Bind)
    requires StateOk(a) && IsIndex(a.listeners, byBind) && OwnersOk(so.next, owners, BindsOf(want)) && so.next.Keys == want.Keys
    requires forall b | b in byBind :: byBind[b].id in so.reused <==> b in owners
    ensures s in ClosedBy(Unused(a.listeners, so.reused)) <==> Serving(a, s) && s.network == Tcp && !Wants(want, s)
  {
    IndexServes(a, byBind, s);
    if s in byBind {
      UnusedMeans(a, byBind, so, owners, want, byBind[s]);
    }
    if s in ClosedBy(Unused(a.listeners, so.reused)) {
      var l :| l in Unused(a.listeners, so.reused) && SocketOf(l) == s && s.network == Tcp;
      UnusedMeans(a, byBind, so, owners, want, l);
    }
  }

  lemma CommitHeld(a: State, byBind: Index, st: Staging, owners: map<Bind, Key>, want: Listening, s: Bind)
    requires StateOk(a) && IsIndex(a.listeners, byBind)
    requires OwnersOk(st.so.next, owners, BindsOf(want)) && st.so.next.Keys == want.Keys
    requires forall b | b in byBind :: byBind[b].id in st.so.reused <==> b in owners
    requires forall b :: b in st.so.sockets <==> b in owners && b !in byBind
    ensures s in a.held + st.so.sockets - ClosedBy(Unused(a.listeners, st.so.reused)) <==>
              (Wants(want, s) || (s in a.held && !(Serving(a, s) && s.network == Tcp)))
  {
    OwnedIsWanted(st.so.next, owners, want, s);
    ClosedMeans(a, byBind, st.so, owners, want, s);
    if s in byBind {
      IndexedOk(a, byBind, s);
    }
  }

  lemma ServedIsOk(a: State, b: State, want: Listening, k: Key)
    requires StateOk(a) && k in want && k in b.listeners && ServedAs(a, b, want[k], b.listeners[k]) && KeyOf(want[k]) == k
    requires Leaves(a, b, want) && a.at.generation <= b.at.generation && a.at.listener <= b.at.listener
    ensures ListenerOk(b, k, b.listeners[k])
  {
    assert Wants(want, BindOf(want[k]));
    if Serving(a, BindOf(want[k])) {
      var j :| j in a.listeners && SocketOf(a.listeners[j]) == BindOf(want[k]);
      assert ListenerOk(a, j, a.listeners[j]);
    }
  }

  /** Two staged listeners stay apart through the updates. */
  lemma StagedApart(a: State, byBind: Index, so: Sockets, configs: map<Key, Config>, owners: map<Bind, Key>,
                    binds: map<Key, Bind>, j: Key, k: Key)
    requires StateOk(a) && IsIndex(a.listeners, byBind)
    requires StagedOk(a.at, byBind, so, configs, owners, binds) && so.next.Keys <= configs.Keys
    requires j in so.next && k in so.next && j != k
    ensures binds[j] != binds[k] && UpdatesOk(so, configs) && so.next[j].id != so.next[k].id
    ensures j in Retuned(so, |so.updates|).0 && k in Retuned(so, |so.updates|).0
    ensures Retuned(so, |so.updates|).0[j].generation != Retuned(so, |so.updates|).0[k].generation
  {
    IndexApart(a, byBind, binds[j], binds[k]);
    forall s | s in byBind ensures byBind[s].generation <= a.at.generation && byBind[s].id < a.at.listener {
      IndexedOk(a, byBind, s);
    }
    CommitTwo(a.at, byBind, so, configs, owners, binds, j, k);
    RetunedApart(so, configs, |so.updates|, j, k);
  }

  lemma SameId(so: Sockets, configs: map<Key, Config>, k: Key)
    requires UpdatesOk(so, configs) && k in so.next
    ensures k in Retuned(so, |so.updates|).0 && Retuned(so, |so.updates|).0[k].id == so.next[k].id
  {
    RetunedMeans(so, configs, |so.updates|, k);
  }

  lemma CommittedApart(a: State, byBind: Index, so: Sockets, configs: map<Key, Config>, owners: map<Bind, Key>,
                       binds: map<Key, Bind>, listeners: Listeners, j: Key, k: Key)
    requires StateOk(a) && IsIndex(a.listeners, byBind)
    requires StagedOk(a.at, byBind, so, configs, owners, binds) && so.next.Keys <= configs.Keys
    requires j in so.next && k in so.next && j != k && listeners == ActivatedAll(Retuned(so, |so.updates|).0)
    ensures j in listeners && k in listeners && binds[j] != binds[k]
    ensures listeners[j].id != listeners[k].id && listeners[j].generation != listeners[k].generation
  {
    StagedApart(a, byBind, so, configs, owners, binds, j, k);
    SameId(so, configs, j);
    SameId(so, configs, k);
  }

  lemma IndexApart(a: State, byBind: Index, s: Bind, t: Bind)
    requires StateOk(a) && IsIndex(a.listeners, byBind) && s != t
    ensures s in byBind && t in byBind ==> byBind[s].id != byBind[t].id && byBind[s].generation != byBind[t].generation
  {
    if s in byBind && t in byBind {
      var i :| i in a.listeners && a.listeners[i] == byBind[s];
      var j :| j in a.listeners && a.listeners[j] == byBind[t];
      assert Apart(a.listeners, i, j);
    }
  }

  lemma CommitIsOk(a: State, byBind: Index, st: Staging, owners: map<Bind, Key>, want: Listening, b: State)
    requires StateOk(a) && IsIndex(a.listeners, byBind) && Commits(a, byBind, st, owners, want, b) && WellKeyed(want)
    requires b.listeners.Keys == want.Keys && Leaves(a, b, want)
    requires forall k | k in want :: ServedAs(a, b, want[k], b.listeners[k])
    requires a.at.generation <= b.at.generation && a.at.listener <= b.at.listener
    requires Numbered(b.trackers, b.at.tracker) && Numbered(b.tenantTrackers, b.at.tracker)
    ensures StateOk(b)
  {
    forall k | k in b.listeners ensures ListenerOk(b, k, b.listeners[k]) {
      ServedIsOk(a, b, want, k);
    }
    forall j, k ensures Apart(b.listeners, j, k) {
      if j in want && k in want && j != k {
        CommittedApart(a, byBind, st.so, st.pi.configs, owners, BindsOf(want), b.listeners, j, k);
      }
    }
  }

  lemma StagedKeys(at: Counters, byBind: Index, so: Sockets, configs: map<Key, Config>, owners: map<Bind, Key>,
                   binds: map<Key, Bind>)
    requires StagedOk(at, byBind, so, configs, owners, binds)
    ensures Retuned(so, |so.updates|).0.Keys == so.next.Keys && Retuned(so, |so.updates|).1 >= at.generation
    ensures so.listener >= at.listener
  {
    forall i | 0 <= i < |so.updates| ensures UpdateOk(so, so.updates[i], binds, byBind, configs) {
    }
    RetunedKeys(so, |so.updates|);
  }

  lemma CommitKeys(a: State, byBind: Index, st: Staging, owners: map<Bind, Key>, want: Listening, b: State)
    requires Commits(a, byBind, st, owners, want, b)
    ensures b.listeners.Keys == want.Keys && a.at.generation <= b.at.generation && a.at.listener <= b.at.listener
  {
    StagedKeys(a.at, byBind, st.so, st.pi.configs, owners, BindsOf(want));
  }

  lemma {:induction false} RetunedKeys(so: Sockets, n: nat)
    requires n <= |so.updates| && forall i | 0 <= i < |so.updates| :: so.updates[i].key in so.next
    ensures Retuned(so, n).0.Keys == so.next.Keys && Retuned(so, n).1 >= so.generation
  {
    if n > 0 {
      RetunedKeys(so, n - 1);
    }
  }

  /**
   * A success replaces the whole listener set: every wanted listener runs with the wanted settings, those on a
   * kept socket are the same listeners, exactly the others drain, trackers with the same limit survive, and the
   * new state is again in order.
   */
  lemma ApplySucceeds(a: State, byBind: Index, c: AgentConfig, grants: set<Bind>, order: seq<Key>, b: State)
    requires StateOk(a) && IsIndex(a.listeners, byBind) && DesiredOf(c).Ok? && IsOrder(order, DesiredOf(c).value)
    requires ApplyIn(a, byBind, c, grants, order) == (b, None)
    ensures StateOk(b) && AppliedTo(a, b, DesiredOf(c).value) && b.revision == c.revision
  {
    DesiredKeyed(c, |c.rules|);
    var st := StageKeys(a, byBind, grants, DesiredOf(c).value, order);
    var owners := StagedWell(a, byBind, grants, DesiredOf(c).value, order, st, b);
    SuccessMeans(a, byBind, st, owners, DesiredOf(c).value, b);
  }

  lemma StagedWell(a: State, byBind: Index, grants: set<Bind>, want: Listening, order: seq<Key>, st: Staging, b: State)
    returns (owners: map<Bind, Key>)
    requires StateOk(a) && IsIndex(a.listeners, byBind) && IsOrder(order, want)
    requires st == StageKeys(a, byBind, grants, want, order) && st.error.None? && b == Committed(a, st, b.revision)
    ensures Commits(a, byBind, st, owners, want, b)
  {
    IndexOneEach(a, byBind);
    StagingResult(a, byBind, grants, want, order);
    owners := OwnersOf(BindsOf(want), order);
    RoundsCommit(a, byBind, grants, st, order, owners, want, b);
  }

  lemma RoundsCommit(a: State, byBind: Index, grants: set<Bind>, st: Staging, order: seq<Key>, owners: map<Bind, Key>,
                     want: Listening, b: State)
    requires IsOrder(order, want) && owners == OwnersOf(BindsOf(want), order)
    requires RoundsOk(a, byBind, grants, st, order, want) && b == Committed(a, st, b.revision)
    ensures Commits(a, byBind, st, owners, want, b)
  {
    assert st.so.next.Keys == want.Keys;
  }

  lemma SuccessMeans(a: State, byBind: Index, st: Staging, owners: map<Bind, Key>, want: Listening, b: State)
    requires StateOk(a) && IsIndex(a.listeners, byBind) && WellKeyed(want) && Commits(a, byBind, st, owners, want, b)
    ensures StateOk(b) && AppliedTo(a, b, want)
  {
    CommitKeys(a, byBind, st, owners, want, b);
    forall k | k in want ensures ServedAs(a, b, want[k], b.listeners[k]) {
      CommitServes(a, byBind, st, owners, want, b, k);
    }
    CommitLeaves(a, byBind, st, owners, want, b);
    CommitIsOk(a, byBind, st, owners, want, b);
  }
}
