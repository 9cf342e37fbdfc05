/**
 * The agent runtime: the set of listeners it serves and how Apply exchanges it for another one. A listener
 * is a value with an identity; each is in one table only, so updating it means replacing its entry there.
 * Go visits the desired map in an arbitrary order: the order is a parameter, and every result holds for all.
 */
module Runtime {
  import opened Common
  import opened Desired
  import opened Trackers

  datatype Stage = Warming | Active | Draining | Stopped

  datatype Config = Config(want: Wanted, tracker: nat, tenantTracker: Option<nat>)

  /** timers: the generations with a pending closeGenerationAfter. */
  datatype Listener = Listener(id: nat, cfg: Config, generation: nat, stage: Stage, timers: set<nat>)

  datatype TrackerRef = TrackerRef(id: nat, limit: Limit)

  type TrackerTable = map<nat, TrackerRef>

  datatype Status = NeverApplied | Applied | Rejected

  datatype ApplyError = MissingTunnel(rule: nat) | RuntimeStopped | SameListener(bind: Bind) | OpenFailed(bind: Bind)

  /** Counters from which generations, listeners and trackers are numbered. */
  datatype Counters = Counters(generation: nat, listener: nat, tracker: nat)

  type Listeners = map<Key, Listener>

  /** held: the sockets the agent has open, those of draining UDP listeners included. */
  datatype State = State(listeners: Listeners, draining: set<Listener>, trackers: TrackerTable,
                         tenantTrackers: TrackerTable, held: set<Bind>, at: Counters, closed: bool, running: bool,
                         status: Status, revision: int)

  /** A runtime as New makes it. */
  const NOTHING_RUNS: State := State(map[], {}, map[], map[], {}, Counters(0, 0, 0), false, false, NeverApplied, 0)

  function SocketOf(l: Listener): Bind {
    BindOf(l.cfg.want)
  }

  /** update: an unchanged fingerprint keeps the generation; otherwise a timer for the old one starts. */
  function Updated(l: Listener, cfg: Config, generation: nat): Listener {
    if l.cfg.want == cfg.want then l.(cfg := cfg)
    else l.(cfg := cfg, generation := generation, timers := l.timers + {l.generation})
  }

  function Activated(l: Listener): Listener {
    if l.stage == Warming then l.(stage := Active) else l
  }

  // ---- choosing trackers ----

  predicate Limited(w: Wanted) {
    w.rule.tenant.Some? && w.rule.tenant.value > 0 && !IsEmpty(w.tenantLimit)
  }

  predicate HasTrackers(w: Wanted, trackers: TrackerTable, tenants: TrackerTable) {
    w.rule.id in trackers && (Limited(w) ==> w.rule.tenant.value in tenants)
  }

  function ConfigFor(w: Wanted, trackers: TrackerTable, tenants: TrackerTable): Config
    requires HasTrackers(w, trackers, tenants)
  {
    Config(w, trackers[w.rule.id].id, if Limited(w) then Some(tenants[w.rule.tenant.value].id) else None)
  }

  /** This round's tracker, else the running one if its limit is unchanged, else a new one. */
  predicate Reuses(existing: TrackerTable, owner: nat, limit: Limit) {
    owner in existing && existing[owner].limit == limit
  }

  function WithTracker(existing: TrackerTable, chosen: TrackerTable, owner: nat, limit: Limit, next: nat): TrackerTable {
    if owner in chosen then chosen
    else chosen[owner := if Reuses(existing, owner, limit) then existing[owner] else TrackerRef(next, limit)]
  }

  function AfterTracker(existing: TrackerTable, chosen: TrackerTable, owner: nat, limit: Limit, next: nat): nat {
    if owner in chosen || Reuses(existing, owner, limit) then next else next + 1
  }

  datatype Picks = Picks(trackers: TrackerTable, tenants: TrackerTable, configs: map<Key, Config>, next: nat)

  function PickFor(a: State, pi: Picks, k: Key, w: Wanted): Picks {
    var t := WithTracker(a.trackers, pi.trackers, w.rule.id, w.limit, pi.next);
    var n := AfterTracker(a.trackers, pi.trackers, w.rule.id, w.limit, pi.next);
    if Limited(w) then
      var tt := WithTracker(a.tenantTrackers, pi.tenants, w.rule.tenant.value, w.tenantLimit, n);
      Picks(t, tt, pi.configs[k := ConfigFor(w, t, tt)], AfterTracker(a.tenantTrackers, pi.tenants, w.rule.tenant.value, w.tenantLimit, n))
    else Picks(t, pi.tenants, pi.configs[k := ConfigFor(w, t, pi.tenants)], n)
  }

  // ---- staging: everything here is local to Apply until all of it has succeeded ----

  type Index = map<Bind, Listener>

  datatype Update = Update(key: Key, listener: Listener, cfg: Config)

  /** The listener for each key: a running one that is reused, or one just started; opened holds the new sockets. */
  datatype Sockets = Sockets(next: Listeners, reused: set<nat>, updates: seq<Update>, started: seq<Key>, sockets: set<Bind>,
                             generation: nat, listener: nat)

  function Existing(a: State, byBind: Index, k: Key, bind: Bind): Option<Listener> {
    if k in a.listeners && SocketOf(a.listeners[k]) == bind then Some(a.listeners[k])
    else if bind in byBind then Some(byBind[bind]) else None
  }

  predicate CanOpen(a: State, so: Sockets, grants: set<Bind>, bind: Bind) {
    bind in grants && bind !in a.held && bind !in so.sockets
  }

  function Failure(a: State, byBind: Index, grants: set<Bind>, so: Sockets, k: Key, bind: Bind): Option<ApplyError> {
    var existing := Existing(a, byBind, k, bind);
    if existing.Some? && existing.value.id in so.reused then Some(SameListener(bind))
    else if existing.None? && !CanOpen(a, so, grants, bind) then Some(OpenFailed(bind))
    else None
  }

  function Reusing(so: Sockets, k: Key, l: Listener, cfg: Config): Sockets {
    so.(next := so.next[k := l], reused := so.reused + {l.id}, updates := so.updates + [Update(k, l, cfg)])
  }

  function Starting(so: Sockets, k: Key, cfg: Config): Sockets {
    so.(next := so.next[k := Listener(so.listener, cfg, so.generation + 1, Warming, {})], started := so.started + [k],
        sockets := so.sockets + {BindOf(cfg.want)}, generation := so.generation + 1, listener := so.listener + 1)
  }

  function SocketFor(a: State, byBind: Index, so: Sockets, k: Key, cfg: Config): Sockets {
    var existing := Existing(a, byBind, k, BindOf(cfg.want));
    if existing.Some? then Reusing(so, k, existing.value, cfg) else Starting(so, k, cfg)
  }

  datatype Staging = Staging(so: Sockets, pi: Picks, error: Option<ApplyError>)

  function NothingStaged(a: State): Staging {
    Staging(Sockets(map[], {}, [], [], {}, a.at.generation, a.at.listener), Picks(map[], map[], map[], a.at.tracker), None)
  }

  function Round(a: State, byBind: Index, grants: set<Bind>, st: Staging, k: Key, w: Wanted): Staging {
    var pi := PickFor(a, st.pi, k, w);
    var error := Failure(a, byBind, grants, st.so, k, BindOf(w));
    Staging(if error.None? then SocketFor(a, byBind, st.so, k, pi.configs[k])
            else if error.value.OpenFailed? then st.so.(generation := st.so.generation + 1) else st.so, pi, error)
  }

  /** The rounds of the loop over desired, in the given order, up to the first failure. */
  function StageKeys(a: State, byBind: Index, grants: set<Bind>, want: Listening, order: seq<Key>): Staging
    requires forall k | k in order :: k in want
  {
    if order == [] then NothingStaged(a)
    else
      var n := |order| - 1;
      var st := StageKeys(a, byBind, grants, want, order[..n]);
      if st.error.Some? then st else Round(a, byBind, grants, st, order[n], want[order[n]])
  }

  // ---- commit ----

  /** The first n updates applied to the staged listeners, and the generation counter after them. */
  function Retuned(so: Sockets, n: nat): (Listeners, nat)
    requires n <= |so.updates|
  {
    if n == 0 then (so.next, so.generation)
    else
      var before := Retuned(so, n - 1);
      var u := so.updates[n - 1];
      (before.0[u.key := Updated(u.listener, u.cfg, before.1 + 1)],
       if u.listener.cfg.want == u.cfg.want then before.1 else before.1 + 1)
  }

  function ActivatedAll(next: Listeners): Listeners {
    map k | k in next :: Activated(next[k])
  }

  function Unused(current: Listeners, reused: set<nat>): set<Listener> {
    set k | k in current && current[k].id !in reused :: current[k]
  }

  /** drain: a TCP listener closes its socket at once, a UDP listener keeps it for its sessions. */
  function Drained(l: Listener): Listener {
    l.(stage := Draining)
  }

  function AllDrained(unused: set<Listener>): set<Listener> {
    set l | l in unused :: Drained(l)
  }

  function ClosedBy(unused: set<Listener>): set<Bind> {
    set l | l in unused && SocketOf(l).network == Tcp :: SocketOf(l)
  }

  function Committed(a: State, st: Staging, revision: int): State {
    var (listeners, generation) := Retuned(st.so, |st.so.updates|);
    var unused := Unused(a.listeners, st.so.reused);
    State(ActivatedAll(listeners), a.draining + AllDrained(unused), st.pi.trackers, st.pi.tenants,
          a.held + st.so.sockets - ClosedBy(unused), Counters(generation, st.so.listener, st.pi.next), a.closed, true,
          Applied, revision)
  }

  function Rejecting(a: State, revision: int): State {
    a.(status := Rejected, revision := revision)
  }

  /** A failed round stops what was started: its sockets are closed again, only the counters have moved. */
  function RolledBack(a: State, so: Sockets): State {
    a.(held := a.held + so.sockets - so.sockets, at := a.at.(generation := so.generation, listener := so.listener))
  }

  predicate IsOrder(order: seq<Key>, want: Listening) {
    && (forall k | k in order :: k in want) && (forall k | k in want :: k in order)
    && forall i, j | 0 <= i < j < |order| :: order[i] != order[j]
  }

  predicate IsIndex(listeners: Listeners, byBind: Index) {
    && (forall k | k in listeners :: SocketOf(listeners[k]) in byBind && byBind[SocketOf(listeners[k])] == listeners[k])
    && forall b | b in byBind :: SocketOf(byBind[b]) == b && exists k :: k in listeners && listeners[k] == byBind[b]
  }

  /** Apply, visiting the desired listeners in this order. */
  function ApplyIn(a: State, byBind: Index, c: AgentConfig, grants: set<Bind>, order: seq<Key>): (State, Option<ApplyError>)
    requires DesiredOf(c).Ok? ==> forall k | k in order :: k in DesiredOf(c).value
  {
    if DesiredOf(c).Err? then (Rejecting(a, c.revision), Some(MissingTunnel(DesiredOf(c).error)))
    else if a.closed then (a, Some(RuntimeStopped))
    else
      var st := StageKeys(a, byBind, grants, DesiredOf(c).value, order);
      if st.error.Some? then (Rejecting(RolledBack(a, st.so), c.revision), st.error)
      else (Committed(a, st, c.revision), None)
  }

  /** The end of a drain begins: the listener stops, and a UDP listener closes its socket. */
  function DrainStopped(a: State, l: Listener): State {
    if l !in a.draining || l.stage == Stopped then a
    else
      a.(draining := a.draining - {l} + {l.(stage := Stopped)},
         held := if SocketOf(l).network == Udp then a.held - {SocketOf(l)} else a.held)
  }

  /** Its goroutines have ended, and the runtime forgets it. */
  function DrainForgotten(a: State, l: Listener): State {
    if l in a.draining && l.stage == Stopped then a.(draining := a.draining - {l}) else a
  }

  /** Stop: everything is closed and forgotten, once. */
  function Stopping(a: State): State {
    if a.closed then a
    else a.(listeners := map[], draining := {}, trackers := map[], tenantTrackers := map[], held := {}, closed := true, running := false)
  }
}
